/** convex/workflowStatus.ts: the status of one Listen agent of the signed-in user. */
module WorkflowStatus {
  import opened Outcomes
  import opened Schema
  import opened Episodes
  import WorkflowTools
  import TranscribeAudio
  import ListenAgent

  const AgentNotFound := "Agent not found"

  /** `getWorkflowStatus`: read-only; throws without an identity, without a document and without
      an episode for the track, and otherwise answers the status of the first such episode. */
  function GetWorkflowStatus(identity: Option<UserId>, agents: map<UserId, seq<Episode>>, trackId: TrackId)
    : (r: Result<Status>)
    ensures identity.None? ==> r == Err(WorkflowTools.NotAuthorized)
    ensures identity.Some? && identity.value !in agents ==> r == Err(WorkflowTools.NoAgentsGenerated)
    ensures identity.Some? && identity.value in agents ==>
              && (r == Err(AgentNotFound) <==> !HasTrack(agents[identity.value], trackId))
              && (r.Ok? ==> exists i :: 0 <= i < |agents[identity.value]| &&
                                        agents[identity.value][i].trackId == trackId &&
                                        agents[identity.value][i].status == r.value &&
                                        forall j :: 0 <= j < i ==> agents[identity.value][j].trackId != trackId)
    ensures r.Ok? || r.message in {WorkflowTools.NotAuthorized, WorkflowTools.NoAgentsGenerated, AgentNotFound}
  {
    match identity
    case None => Err(WorkflowTools.NotAuthorized)
    case Some(u) =>
      match DocOf(agents, u)
      case None => Err(WorkflowTools.NoAgentsGenerated)
      case Some(eps) =>
        match FindEpisode(eps, trackId)
        case None => Err(AgentNotFound)
        case Some(e) => Ok(e.status)
  }

  /** Whatever the run's outcome, once it got past step 1 the user can ask for its status: `completed`
      after a success, `failed` after a failure. */
  lemma {:induction false} StatusAfterRun(agents: map<UserId, seq<Episode>>, transcripts: seq<TranscriptRow>,
                                          notifications: seq<Notification>, args: WorkflowTools.WorkflowArgs, now: int,
                                          reply: TranscribeAudio.TranscriberReply,
                                          store: TranscribeAudio.StoreResult)
    requires ListenAgent.Started(args)
    ensures var run := ListenAgent.ExpectedRun(agents, transcripts, notifications, args, now, reply, store);
            GetWorkflowStatus(Some(args.userId), run.agents, args.trackId) ==
              Ok(if run.result.Ok? then Completed else Failed)
  {
    var run := ListenAgent.ExpectedRun(agents, transcripts, notifications, args, now, reply, store);
    if run.result.Ok? {
      ListenAgent.SuccessCompletesEntry(agents, transcripts, notifications, args, now, reply, store);
    } else {
      ListenAgent.FailureLeavesNoTrace(agents, transcripts, notifications, args, now, reply, store);
    }
  }
}
