/** The read-only queries of convex/agentsGenerated.ts. */
module AgentsGenerated {
  import opened Outcomes
  import opened Schema
  import opened Sorting
  import opened Episodes

  const Unauthorized := "Unauthorized"

  /** The sort key of both `b.createdAt - a.createdAt` comparators. */
  function CreatedAt(e: Episode): int { e.createdAt }

  /** `getAgentsGenerated`: `None` is the `null` returned without an identity; otherwise a sorted
      copy of the user's episodes, newest first, or `[]` when the user has no document. */
  function GetAgentsGenerated(identity: Option<UserId>, agents: map<UserId, seq<Episode>>): (r: Option<seq<Episode>>)
    ensures r.None? <==> identity.None?
    ensures identity.Some? && identity.value !in agents ==> r == Some([])
    ensures identity.Some? && identity.value in agents ==>
              r.Some? && multiset(r.value) == multiset(agents[identity.value]) && SortedDesc(r.value, CreatedAt)
  {
    match identity
    case None => None
    case Some(u) =>
      match DocOf(agents, u)
      case None => Some([])
      case Some(eps) => Some(SortDesc(eps, CreatedAt))
  }

  /** `agentAlreadyGenerated`: throws without an identity, is `false` without a document, and is
      otherwise whether any episode, in any status, has the track id. */
  function AgentAlreadyGenerated(identity: Option<UserId>, agents: map<UserId, seq<Episode>>, trackId: TrackId): (r: Result<bool>)
    ensures identity.None? ==> r == Err(Unauthorized)
    ensures identity.Some? ==> r.Ok? && (r.value <==> identity.value in agents && HasTrack(agents[identity.value], trackId))
  {
    match identity
    case None => Err(Unauthorized)
    case Some(u) =>
      match DocOf(agents, u)
      case None => Ok(false)
      case Some(eps) => Ok(exists i :: 0 <= i < |eps| && eps[i].trackId == trackId)
  }

  /** Sorting leaves the stored list untouched and loses no entry: every stored episode is
      returned, and nothing else is. */
  lemma {:induction false} GetAgentsGeneratedKeepsEpisodes(u: UserId, agents: map<UserId, seq<Episode>>, e: Episode)
    requires u in agents
    ensures e in GetAgentsGenerated(Some(u), agents).value <==> e in agents[u]
  {
    SortDescSameElements(agents[u], CreatedAt, e);
  }

  /** Episodes created at the same time come back in their stored order (the sort is stable). */
  lemma GetAgentsGeneratedStable(u: UserId, agents: map<UserId, seq<Episode>>, t: int)
    requires u in agents
    ensures WithKey(GetAgentsGenerated(Some(u), agents).value, CreatedAt, t) == WithKey(agents[u], CreatedAt, t)
  {
    SortDescStable(agents[u], CreatedAt, t);
  }

  /** A failed episode still counts as generated. */
  lemma FailedEpisodeCountsAsGenerated(u: UserId, agents: map<UserId, seq<Episode>>, i: nat)
    requires u in agents && i < |agents[u]| && agents[u][i].status == Failed
    ensures AgentAlreadyGenerated(Some(u), agents, agents[u][i].trackId) == Ok(true)
  {
  }
}
