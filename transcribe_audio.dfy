/** convex/transcribeAudio.ts: the transcription action, with the speech-to-text service and the
    file storage as inputs. */
module TranscribeAudio {
  import opened Outcomes
  import opened Schema
  import opened Db
  import opened WorkflowTools

  const AudioUrlRequired := "Audio URL is required"

  /** What `client.transcripts.transcribe` did: threw an `Error`, or answered with an `error`
      and a `text` field (the empty string stands for an absent or empty field). */
  datatype TranscriberReply = AdapterThrew(message: string) | Transcript(error: string, text: string)

  /** What `ctx.storage.store` did with the transcript file: gave an id, gave no id, or threw. */
  datatype StoreResult = Stored(id: StorageId) | NoStorageId | StoreThrew(message: string)

  /** How the `try` block ends: it returns the (possibly absent) storage id, or throws. */
  datatype Transcription = Returned(storageId: Option<StorageId>) | Threw(message: string)

  /** The outcome of the `try` block of `transcribeAudioAction`, before the `catch`. */
  function TryTranscribe(audioUrl: string, reply: TranscriberReply, store: StoreResult): Transcription {
    if audioUrl == "" then Threw(AudioUrlRequired)
    else match reply
      case AdapterThrew(m) => Threw(m)
      case Transcript(error, text) =>
        if error != "" then Threw(error)
        else if text == "" then Threw(UnableToTranscribe)
        else match store
          case Stored(id) => Returned(Some(id))
          case NoStorageId => Returned(None)
          case StoreThrew(m) => Threw(m)
  }

  /** The action returns normally exactly when the service gave a non-empty text without an
      error and the store did not throw; every other path throws. */
  lemma TryTranscribeSucceeds(audioUrl: string, reply: TranscriberReply, store: StoreResult)
    ensures TryTranscribe(audioUrl, reply, store).Returned? <==>
              audioUrl != "" && reply.Transcript? && reply.error == "" && reply.text != "" && !store.StoreThrew?
    ensures TryTranscribe(audioUrl, reply, store).Returned? ==>
              TryTranscribe(audioUrl, reply, store).storageId == (if store.Stored? then Some(store.id) else None)
  {
  }

  /** The error text of the service is the message of the failure. */
  lemma TryTranscribeAdapterError(audioUrl: string, error: string, text: string, store: StoreResult)
    requires audioUrl != "" && error != ""
    ensures TryTranscribe(audioUrl, Transcript(error, text), store) == Threw(error)
  {
  }

  /** `transcribeAudioAction`. Each failure marks the user's matching entries `failed` with the
      failure's message and throws it; the `catch` rewrites the same status. When that write
      itself throws (no user, no document), its error is the one that escapes. */
  method TranscribeAudioAction(db: Database, userId: UserId, audioUrl: string, trackId: TrackId,
                               reply: TranscriberReply, store: StoreResult) returns (r: Result<Option<StorageId>>)
    modifies db`agents
    ensures TryTranscribe(audioUrl, reply, store).Returned? ==>
              r == Ok(TryTranscribe(audioUrl, reply, store).storageId) && db.agents == old(db.agents)
    ensures TryTranscribe(audioUrl, reply, store).Threw? && userId == "" ==>
              r == Err(NotAuthorized) && db.agents == old(db.agents)
    ensures TryTranscribe(audioUrl, reply, store).Threw? && userId != "" && userId !in old(db.agents) ==>
              r == Err(NoAgentsGenerated) && db.agents == old(db.agents)
    ensures TryTranscribe(audioUrl, reply, store).Threw? && userId != "" && userId in old(db.agents) ==>
              r == Err(TryTranscribe(audioUrl, reply, store).message) &&
              db.agents == old(db.agents)[userId := WithStatus(old(db.agents)[userId], trackId, Failed,
                                                             Some(TryTranscribe(audioUrl, reply, store).message))]
  {
    var thrown: Option<string> := None;
    var storageId: Option<StorageId> := None;
    // try
    if audioUrl == "" {
      thrown := Some(AudioUrlRequired);
    } else {
      match reply {
        case AdapterThrew(m) =>
          thrown := Some(m);
        case Transcript(error, text) =>
          if error != "" {
            var w := UpdateAgentStatus(db, userId, trackId, Failed, Some(error));
            thrown := Some(if w.Err? then w.message else error);
          } else if text == "" {
            var w := UpdateAgentStatus(db, userId, trackId, Failed, Some(UnableToTranscribe));
            thrown := Some(if w.Err? then w.message else UnableToTranscribe);
          } else {
            match store {
              case Stored(id) => storageId := Some(id);
              case NoStorageId => storageId := None;
              case StoreThrew(m) => thrown := Some(m);
            }
          }
      }
    }
    if thrown.None? {
      return Ok(storageId);
    }
    // catch (error)
    var w := UpdateAgentStatus(db, userId, trackId, Failed, Some(thrown.value));
    if w.Err? {
      return Err(w.message);
    }
    WithStatusIdempotent(old(db.agents)[userId], trackId, Failed, Some(thrown.value));
    return Err(thrown.value);
  }
}
