/** The mutations, query and kickoff of convex/workflowTools.ts. The new episode lists are
    built by pure functions (`map`, `find`, spread); the handlers write them back. */
module WorkflowTools {
  import opened Outcomes
  import opened Schema
  import opened Episodes
  import opened Db
  import AgentsGenerated

  const NotAuthorized := "Not authorized"
  const NoAgentsGenerated := "User has no agents generated"
  const AlreadyGenerated := "Listen Agent already generated for this episode"
  const UnableToTranscribe := "Unable to transcribe audio"

  /** The arguments of `listenAgentWorkflow`. */
  datatype WorkflowArgs = WorkflowArgs(
    userId: UserId,
    trackId: TrackId,
    audioUrl: string,
    episodeTitle: string,
    episodeDescription: string,
    episodeImageUrl: Option<string>,
    releaseDate: string,
    status: string)

  /** The episode `initializeAgentForUser` creates: `in-progress`, no error, stamped `now`. */
  function NewEpisode(trackId: TrackId, title: string, description: string, imageUrl: Option<string>,
                      releaseDate: string, now: int): Episode
  {
    Episode(trackId, title, description, imageUrl, releaseDate, InProgress, None, now)
  }

  /** The episode list after `initializeAgentForUser` with episode `ep`, given the user's document:
      a new document holds `[ep]`, a document without the track gets `ep` appended, and
      a document that already has the track is left as it is. */
  function Initialized(doc: Option<seq<Episode>>, ep: Episode): (r: seq<Episode>)
    ensures HasTrack(r, ep.trackId)
    ensures doc.None? ==> r == [ep]
    ensures doc.Some? ==> |doc.value| <= |r| <= |doc.value| + 1 && r[..|doc.value|] == doc.value
  {
    match doc
    case None =>
      assert [ep][0] == ep;
      [ep]
    case Some(eps) =>
      if FindEpisode(eps, ep.trackId).None? then
        assert (eps + [ep])[|eps|] == ep;
        eps + [ep]
      else eps
  }

  /** `updateAgentStatus`'s map: matching entries get `status` and `errorMessage` (an omitted
      message clears the field), every other entry is kept. */
  function WithStatus(eps: seq<Episode>, trackId: TrackId, status: Status, errorMessage: Option<string>): (r: seq<Episode>)
    ensures |r| == |eps|
    ensures forall i :: 0 <= i < |eps| ==>
              r[i] == if eps[i].trackId == trackId then eps[i].(status := status, errorMessage := errorMessage) else eps[i]
  {
    if eps == [] then []
    else
      var head := if eps[0].trackId == trackId then eps[0].(status := status, errorMessage := errorMessage) else eps[0];
      [head] + WithStatus(eps[1..], trackId, status, errorMessage)
  }

  /** `updateAgentTranscript`'s map: matching entries get `status` and keep their `errorMessage`. */
  function WithStatusOnly(eps: seq<Episode>, trackId: TrackId, status: Status): (r: seq<Episode>)
    ensures |r| == |eps|
    ensures forall i :: 0 <= i < |eps| ==>
              r[i] == if eps[i].trackId == trackId then eps[i].(status := status) else eps[i]
  {
    if eps == [] then []
    else
      var head := if eps[0].trackId == trackId then eps[0].(status := status) else eps[0];
      [head] + WithStatusOnly(eps[1..], trackId, status)
  }

  /** `checkIfTranscriptExists`: the storage id of the first row for the track, `None` for `false`. */
  function CheckIfTranscriptExists(rows: seq<TranscriptRow>, trackId: TrackId): (r: Option<StorageId>)
    ensures r.None? <==> forall i :: 0 <= i < |rows| ==> rows[i].trackId != trackId
    ensures r.Some? ==> exists i :: 0 <= i < |rows| && rows[i] == TranscriptRow(trackId, r.value) &&
                                   forall j :: 0 <= j < i ==> rows[j].trackId != trackId
  {
    if rows == [] then None
    else if rows[0].trackId == trackId then Some(rows[0].storageId)
    else
      var r := CheckIfTranscriptExists(rows[1..], trackId);
      assert forall i :: 0 < i < |rows| ==> rows[i] == rows[1..][i - 1];
      r
  }

  // ---- Lemmas about the pure parts ----

  /** However often the mutation runs, a track has exactly one entry once it has at most one before. */
  lemma InitializedCountsOnce(doc: Option<seq<Episode>>, ep: Episode)
    requires doc.Some? ==> CountTrack(doc.value, ep.trackId) <= 1
    ensures CountTrack(Initialized(doc, ep), ep.trackId) == 1
  {
    match doc
    case None =>
    case Some(eps) =>
      if !HasTrack(eps, ep.trackId) { CountTrackAppend(eps, ep, ep.trackId); }
  }

  /** Initializing never creates a second entry for any track. */
  lemma InitializedKeepsUnique(doc: Option<seq<Episode>>, ep: Episode)
    requires doc.Some? ==> UniqueTracks(doc.value)
    ensures UniqueTracks(Initialized(doc, ep))
  {
  }

  /** An existing entry is never reset: with the track present, the list (and so the entry's
      status and error) is exactly what it was. */
  lemma InitializedKeepsExisting(eps: seq<Episode>, ep: Episode)
    requires HasTrack(eps, ep.trackId)
    ensures Initialized(Some(eps), ep) == eps
  {
  }

  /** A new track is appended at the end as a fresh `in-progress` entry. */
  lemma InitializedAppendsNew(eps: seq<Episode>, ep: Episode)
    requires !HasTrack(eps, ep.trackId)
    ensures Initialized(Some(eps), ep) == eps + [ep]
  {
  }

  /** An unknown track id leaves the list unchanged. */
  lemma {:induction false} WithStatusUnknownTrack(eps: seq<Episode>, trackId: TrackId, status: Status, errorMessage: Option<string>)
    requires !HasTrack(eps, trackId)
    ensures WithStatus(eps, trackId, status, errorMessage) == eps
  {
    var r := WithStatus(eps, trackId, status, errorMessage);
    assert forall i :: 0 <= i < |eps| ==> r[i] == eps[i];
  }

  /** The status updater keeps every track id in place, so it keeps track ids unique. */
  lemma WithStatusKeepsTracks(eps: seq<Episode>, trackId: TrackId, status: Status, errorMessage: Option<string>)
    ensures forall i :: 0 <= i < |eps| ==> WithStatus(eps, trackId, status, errorMessage)[i].trackId == eps[i].trackId
    ensures UniqueTracks(eps) ==> UniqueTracks(WithStatus(eps, trackId, status, errorMessage))
  {
  }

  /** `updateAgentTranscript` likewise keeps every track id in place. */
  lemma WithStatusOnlyKeepsTracks(eps: seq<Episode>, trackId: TrackId, status: Status)
    ensures forall i :: 0 <= i < |eps| ==> WithStatusOnly(eps, trackId, status)[i].trackId == eps[i].trackId
    ensures UniqueTracks(eps) ==> UniqueTracks(WithStatusOnly(eps, trackId, status))
  {
  }

  /** Applying the same status update twice is the same as applying it once. */
  lemma {:induction false} WithStatusIdempotent(eps: seq<Episode>, trackId: TrackId, status: Status, errorMessage: Option<string>)
    ensures WithStatus(WithStatus(eps, trackId, status, errorMessage), trackId, status, errorMessage)
            == WithStatus(eps, trackId, status, errorMessage)
  {
    var once := WithStatus(eps, trackId, status, errorMessage);
    var twice := WithStatus(once, trackId, status, errorMessage);
    assert forall i :: 0 <= i < |eps| ==> twice[i] == once[i];
  }

  /** No terminal-state guard: completion overwrites whatever status the entry had, `failed`
      included, and only the status. */
  lemma CompletionOverridesAnyStatus(eps: seq<Episode>, i: nat)
    requires i < |eps|
    ensures WithStatusOnly(eps, eps[i].trackId, Completed)[i] == eps[i].(status := Completed)
    ensures WithStatusOnly(eps, eps[i].trackId, Completed)[i].errorMessage == eps[i].errorMessage
  {
  }

  /** Appending a row keeps the answer of `checkIfTranscriptExists` once a row exists: the
      first row wins. */
  lemma {:induction false} FirstTranscriptWins(rows: seq<TranscriptRow>, row: TranscriptRow, trackId: TrackId)
    requires CheckIfTranscriptExists(rows, trackId).Some?
    ensures CheckIfTranscriptExists(rows + [row], trackId) == CheckIfTranscriptExists(rows, trackId)
  {
    if rows[0].trackId != trackId {
      assert (rows + [row])[1..] == rows[1..] + [row];
      FirstTranscriptWins(rows[1..], row, trackId);
    }
  }

  /** A first row for a track makes it the transcript of that track. */
  lemma {:induction false} FirstTranscriptNew(rows: seq<TranscriptRow>, row: TranscriptRow)
    requires CheckIfTranscriptExists(rows, row.trackId).None?
    ensures CheckIfTranscriptExists(rows + [row], row.trackId) == Some(row.storageId)
  {
    if rows != [] {
      assert (rows + [row])[1..] == rows[1..] + [row];
      FirstTranscriptNew(rows[1..], row);
    }
  }

  // ---- The handlers ----

  /** `initializeAgentForUser`. */
  method InitializeAgentForUser(db: Database, userId: UserId, trackId: TrackId, episodeTitle: string,
                                episodeDescription: string, episodeImageUrl: Option<string>,
                                releaseDate: string, now: int) returns (r: Result<()>)
    modifies db`agents
    ensures userId == "" ==> r == Err(NotAuthorized) && db.agents == old(db.agents)
    ensures userId != "" ==>
              r == Ok(()) &&
              db.agents == old(db.agents)[userId := Initialized(DocOf(old(db.agents), userId),
                             NewEpisode(trackId, episodeTitle, episodeDescription, episodeImageUrl, releaseDate, now))]
  {
    if userId == "" { return Err(NotAuthorized); }
    var ep := NewEpisode(trackId, episodeTitle, episodeDescription, episodeImageUrl, releaseDate, now);
    if userId !in db.agents {
      db.agents := db.agents[userId := [ep]];
      return Ok(());
    }
    var userAgents := db.agents[userId];
    var agent := FindEpisode(userAgents, trackId);
    if agent.None? {
      db.agents := db.agents[userId := userAgents + [ep]];
      return Ok(());
    }
    assert db.agents == db.agents[userId := userAgents];
    return Ok(());
  }

  /** `updateAgentTranscript`: sets the status of the matching entries, without a state guard. */
  method UpdateAgentTranscript(db: Database, userId: UserId, trackId: TrackId, status: Status) returns (r: Result<()>)
    modifies db`agents
    ensures userId == "" ==> r == Err(NotAuthorized) && db.agents == old(db.agents)
    ensures userId != "" && userId !in old(db.agents) ==> r == Err(NoAgentsGenerated) && db.agents == old(db.agents)
    ensures userId != "" && userId in old(db.agents) ==>
              r == Ok(()) && db.agents == old(db.agents)[userId := WithStatusOnly(old(db.agents)[userId], trackId, status)]
  {
    if userId == "" { return Err(NotAuthorized); }
    if userId !in db.agents { return Err(NoAgentsGenerated); }
    db.agents := db.agents[userId := WithStatusOnly(db.agents[userId], trackId, status)];
    return Ok(());
  }

  /** `updateAgentStatus`: sets status and error message of the matching entries. */
  method UpdateAgentStatus(db: Database, userId: UserId, trackId: TrackId, status: Status,
                           errorMessage: Option<string>) returns (r: Result<()>)
    modifies db`agents
    ensures userId == "" ==> r == Err(NotAuthorized) && db.agents == old(db.agents)
    ensures userId != "" && userId !in old(db.agents) ==> r == Err(NoAgentsGenerated) && db.agents == old(db.agents)
    ensures userId != "" && userId in old(db.agents) ==>
              r == Ok(()) &&
              db.agents == old(db.agents)[userId := WithStatus(old(db.agents)[userId], trackId, status, errorMessage)]
  {
    if userId == "" { return Err(NotAuthorized); }
    if userId !in db.agents { return Err(NoAgentsGenerated); }
    db.agents := db.agents[userId := WithStatus(db.agents[userId], trackId, status, errorMessage)];
    return Ok(());
  }

  /** `createAgentTranscript`: inserts one row and returns its id. */
  method CreateAgentTranscript(db: Database, trackId: TrackId, storageId: StorageId, userId: UserId) returns (id: nat)
    modifies db`transcripts
    ensures db.transcripts == old(db.transcripts) + [TranscriptRow(trackId, storageId)]
    ensures id == |old(db.transcripts)|
  {
    id := |db.transcripts|;
    db.transcripts := db.transcripts + [TranscriptRow(trackId, storageId)];
  }

  /** What `kickoffWorkflow` reads from the guard's answer: `agentAlreadyGenerated` answers a
      bare boolean, and a boolean has no `isAlreadyGenerated` property (`undefined`). */
  function IsAlreadyGeneratedField(answer: bool): Option<bool> {
    None
  }

  /** `kickoffWorkflow`, as written: the workflow arguments it starts the workflow with, or the
      error it throws. The duplicate check tests the missing property, so it never fires. */
  function KickoffWorkflow(identity: Option<UserId>, agents: map<UserId, seq<Episode>>, trackId: TrackId,
                           audioUrl: string, episodeTitle: string, episodeDescription: string,
                           episodeImageUrl: Option<string>, releaseDate: string, status: string): (r: Result<WorkflowArgs>)
    ensures identity.None? <==> r == Err(NotAuthorized)
    ensures identity.Some? ==> r.Ok?
    ensures r.Ok? ==> r.value == WorkflowArgs(identity.value, trackId, audioUrl, episodeTitle,
                                              episodeDescription, episodeImageUrl, releaseDate, status)
  {
    match identity
    case None => Err(NotAuthorized)
    case Some(u) =>
      var answer := AgentsGenerated.AgentAlreadyGenerated(identity, agents, trackId);
      var field := IsAlreadyGeneratedField(answer.value);
      if field == Some(true) then Err(AlreadyGenerated)
      else Ok(WorkflowArgs(u, trackId, audioUrl, episodeTitle, episodeDescription, episodeImageUrl, releaseDate, status))
  }

  /** The duplicate guard never fires: an episode the user already has is started again. */
  lemma KickoffIgnoresExistingEpisode(u: UserId, agents: map<UserId, seq<Episode>>, trackId: TrackId,
                                      audioUrl: string, episodeTitle: string, episodeDescription: string,
                                      episodeImageUrl: Option<string>, releaseDate: string, status: string)
    requires u in agents && HasTrack(agents[u], trackId)
    ensures AgentsGenerated.AgentAlreadyGenerated(Some(u), agents, trackId) == Ok(true)
    ensures KickoffWorkflow(Some(u), agents, trackId, audioUrl, episodeTitle, episodeDescription,
                            episodeImageUrl, releaseDate, status).Ok?
  {
  }

  /** `kickoffWorkflow` with the guard reading the boolean the query returns. */
  function KickoffWorkflowGuarded(identity: Option<UserId>, agents: map<UserId, seq<Episode>>, trackId: TrackId,
                                  audioUrl: string, episodeTitle: string, episodeDescription: string,
                                  episodeImageUrl: Option<string>, releaseDate: string, status: string): (r: Result<WorkflowArgs>)
    ensures identity.None? <==> r == Err(NotAuthorized)
    ensures identity.Some? ==> (r == Err(AlreadyGenerated) <==> identity.value in agents && HasTrack(agents[identity.value], trackId))
    ensures identity.Some? && !(identity.value in agents && HasTrack(agents[identity.value], trackId)) ==> r.Ok?
    ensures r.Ok? ==> r.value == WorkflowArgs(identity.value, trackId, audioUrl, episodeTitle,
                                              episodeDescription, episodeImageUrl, releaseDate, status)
  {
    match identity
    case None => Err(NotAuthorized)
    case Some(u) =>
      var answer := AgentsGenerated.AgentAlreadyGenerated(identity, agents, trackId);
      if answer.value then Err(AlreadyGenerated)
      else Ok(WorkflowArgs(u, trackId, audioUrl, episodeTitle, episodeDescription, episodeImageUrl, releaseDate, status))
  }
}
