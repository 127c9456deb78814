/** convex/tools.ts: the public status-update mutation used by the agent's tools. */
module Tools {
  import opened Outcomes
  import opened Schema
  import opened Db
  import opened WorkflowTools

  /** `updateAgentStatusTool`: the same checks and the same map as `updateAgentStatus`, so its
      effect is stated with the same `WithStatus`. */
  method UpdateAgentStatusTool(db: Database, userId: UserId, trackId: TrackId, status: Status,
                               errorMessage: Option<string>) returns (r: Result<()>)
    modifies db`agents
    ensures userId == "" ==> r == Err(NotAuthorized) && db.agents == old(db.agents)
    ensures userId != "" && userId !in old(db.agents) ==> r == Err(NoAgentsGenerated) && db.agents == old(db.agents)
    ensures userId != "" && userId in old(db.agents) ==>
              r == Ok(()) &&
              db.agents == old(db.agents)[userId := WithStatus(old(db.agents)[userId], trackId, status, errorMessage)]
  {
    if userId == "" { return Err(NotAuthorized); }
    if userId !in db.agents { return Err(NoAgentsGenerated); }
    var updatedEpisodes := WithStatus(db.agents[userId], trackId, status, errorMessage);
    db.agents := db.agents[userId := updatedEpisodes];
    return Ok(());
  }
}
