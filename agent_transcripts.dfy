/** convex/agentTranscripts.ts: the transcript of one of the user's Listen agents. */
module AgentTranscripts {
  import opened Outcomes
  import opened Schema
  import opened Episodes
  import opened WorkflowTools
  import TranscribeAudio
  import ListenAgent

  /** `getAgentTranscript`'s answers: `null`, `false`, or the view object. The storage URL is
      resolved by the platform, so the view carries the storage id it is resolved from. */
  datatype TranscriptView =
    | NotSignedIn
    | Unavailable
    | View(storageId: StorageId, episodeTitle: string, episodeImageUrl: Option<string>, agentStatus: Status)

  /** `getAgentTranscript`: `null` without an identity; `false` unless the user's document has an
      episode for the track and some transcript row exists for it; otherwise the first row's
      storage id with the title, image and status of the user's first episode for the track. */
  function GetAgentTranscript(identity: Option<UserId>, agents: map<UserId, seq<Episode>>,
                              transcripts: seq<TranscriptRow>, trackId: TrackId): (r: TranscriptView)
    ensures r.NotSignedIn? <==> identity.None?
    ensures identity.Some? ==>
              (r.View? <==> identity.value in agents && HasTrack(agents[identity.value], trackId) &&
                            exists k :: 0 <= k < |transcripts| && transcripts[k].trackId == trackId)
    ensures r.View? ==>
              && identity.Some? && identity.value in agents
              && (exists k :: 0 <= k < |transcripts| && transcripts[k] == TranscriptRow(trackId, r.storageId) &&
                              forall j :: 0 <= j < k ==> transcripts[j].trackId != trackId)
              && (exists i :: 0 <= i < |agents[identity.value]| && agents[identity.value][i].trackId == trackId &&
                              (forall j :: 0 <= j < i ==> agents[identity.value][j].trackId != trackId) &&
                              var e := agents[identity.value][i];
                              r.episodeTitle == e.episodeTitle && r.episodeImageUrl == e.episodeImageUrl && r.agentStatus == e.status)
  {
    match identity
    case None => NotSignedIn
    case Some(u) =>
      match DocOf(agents, u)
      case None => Unavailable
      case Some(eps) =>
        match FindEpisode(eps, trackId)
        case None => Unavailable
        case Some(e) =>
          match CheckIfTranscriptExists(transcripts, trackId)
          case None => Unavailable
          case Some(storageId) => View(storageId, e.episodeTitle, e.episodeImageUrl, e.status)
  }

  /** Access follows the user's episode list, not the transcript table: a transcript stored for
      the track by another user's run is still `false` for a user without the episode. */
  lemma NoEpisodeNoTranscript(u: UserId, agents: map<UserId, seq<Episode>>, transcripts: seq<TranscriptRow>, trackId: TrackId)
    requires u in agents ==> !HasTrack(agents[u], trackId)
    ensures GetAgentTranscript(Some(u), agents, transcripts, trackId) == Unavailable
  {
  }

  /** After a successful run the user can read the transcript, shown as `completed`. */
  lemma {:induction false} TranscriptAfterSuccessfulRun(agents: map<UserId, seq<Episode>>, transcripts: seq<TranscriptRow>,
                                                        notifications: seq<Notification>, args: WorkflowArgs, now: int,
                                                        reply: TranscribeAudio.TranscriberReply,
                                                        store: TranscribeAudio.StoreResult)
    requires ListenAgent.Started(args)
    requires ListenAgent.ExpectedRun(agents, transcripts, notifications, args, now, reply, store).result.Ok?
    ensures var run := ListenAgent.ExpectedRun(agents, transcripts, notifications, args, now, reply, store);
            var view := GetAgentTranscript(Some(args.userId), run.agents, run.transcripts, args.trackId);
            view.View? && view.agentStatus == Completed
  {
    var run := ListenAgent.ExpectedRun(agents, transcripts, notifications, args, now, reply, store);
    ListenAgent.SuccessEffects(agents, transcripts, notifications, args, now, reply, store);
    ListenAgent.SuccessCompletesEntry(agents, transcripts, notifications, args, now, reply, store);
    var storageId :| run.transcripts == transcripts + [TranscriptRow(args.trackId, storageId)];
    assert run.transcripts[|transcripts|].trackId == args.trackId;
  }
}
