/** convex/homeData.ts: the signed-in user's home page data. */
module HomeData {
  import opened Outcomes
  import opened Schema
  import opened Episodes
  import opened Sorting
  import opened AgentsGenerated
  import opened WorkflowTools
  import Preferences
  import TranscribeAudio
  import ListenAgent

  /** The `{ agentsGenerated, podcasts }` object `getHomeData` returns. */
  datatype Home = Home(agentsGenerated: seq<Episode>, podcasts: seq<PodcastChoice>)

  /** `episodes.filter((e) => e.status === 'completed')`: each completed episode as often as in the
      input, nothing else. */
  function CompletedOnly(eps: seq<Episode>): (r: seq<Episode>)
    ensures forall e :: multiset(r)[e] == if e.status == Completed then multiset(eps)[e] else 0
  {
    if eps == [] then []
    else
      var rest := CompletedOnly(eps[1..]);
      assert eps == [eps[0]] + eps[1..];
      if eps[0].status == Completed then [eps[0]] + rest else rest
  }

  /** `getHomeData`: `null` without an identity; otherwise the user's completed episodes, newest
      first (`[]` without a document), and the podcasts of the user's first preference document
      (`[]` without one). */
  function GetHomeData(identity: Option<UserId>, agents: map<UserId, seq<Episode>>, preferences: seq<Preference>)
    : (r: Option<Home>)
    ensures r.None? <==> identity.None?
    ensures r.Some? ==> SortedDesc(r.value.agentsGenerated, CreatedAt)
    ensures r.Some? ==>
              forall e :: multiset(r.value.agentsGenerated)[e] ==
                            if identity.value in agents && e.status == Completed then multiset(agents[identity.value])[e] else 0
    ensures r.Some? ==>
              var doc := Preferences.GetPreferences(identity, preferences).value;
              r.value.podcasts == if doc.Some? then doc.value.podcasts else []
  {
    match identity
    case None => None
    case Some(u) =>
      var agentsGenerated := match DocOf(agents, u)
        case None => []
        case Some(eps) => SortDesc(CompletedOnly(eps), CreatedAt);
      var podcasts := match Preferences.GetPreferences(identity, preferences).value
        case None => []
        case Some(p) => p.podcasts;
      Some(Home(agentsGenerated, podcasts))
  }

  /** `CompletedOnly` on a list with a known head. */
  lemma CompletedOnlyCons(e: Episode, rest: seq<Episode>)
    ensures CompletedOnly([e] + rest) == (if e.status == Completed then [e] else []) + CompletedOnly(rest)
  {
    assert ([e] + rest)[1..] == rest;
  }

  /** Keeping the completed episodes and keeping those created at time `t` can be done in either order. */
  lemma {:induction false} CompletedOnlyWithKey(eps: seq<Episode>, t: int)
    ensures WithKey(CompletedOnly(eps), CreatedAt, t) == CompletedOnly(WithKey(eps, CreatedAt, t))
  {
    if eps != [] {
      var e, tail := eps[0], eps[1..];
      var c, w := CompletedOnly(tail), WithKey(tail, CreatedAt, t);
      assert eps == [e] + tail;
      CompletedOnlyWithKey(tail, t);
      CompletedOnlyCons(e, tail);
      WithKeyCons(e, tail, CreatedAt, t);
      if e.status == Completed {
        WithKeyCons(e, c, CreatedAt, t);
        assert WithKey(CompletedOnly(eps), CreatedAt, t) == (if e.createdAt == t then [e] else []) + CompletedOnly(w);
      } else {
        assert WithKey(CompletedOnly(eps), CreatedAt, t) == CompletedOnly(w);
      }
      if e.createdAt == t {
        CompletedOnlyCons(e, w);
        assert CompletedOnly(WithKey(eps, CreatedAt, t)) == (if e.status == Completed then [e] else []) + CompletedOnly(w);
      } else {
        assert WithKey(eps, CreatedAt, t) == [] + w == w;
      }
    }
  }

  /** Completed episodes created at the same time are shown in their stored order. */
  lemma HomeKeepsStoredOrder(u: UserId, agents: map<UserId, seq<Episode>>, preferences: seq<Preference>, t: int)
    requires u in agents
    ensures WithKey(GetHomeData(Some(u), agents, preferences).value.agentsGenerated, CreatedAt, t) ==
              CompletedOnly(WithKey(agents[u], CreatedAt, t))
  {
    SortDescStable(CompletedOnly(agents[u]), CreatedAt, t);
    CompletedOnlyWithKey(agents[u], t);
  }

  /** Home lists an episode exactly when it is the user's and completed: a failed or running
      agent never shows. */
  lemma {:induction false} HomeListsCompleted(u: UserId, agents: map<UserId, seq<Episode>>,
                                              preferences: seq<Preference>, e: Episode)
    ensures e in GetHomeData(Some(u), agents, preferences).value.agentsGenerated <==>
              u in agents && e in agents[u] && e.status == Completed
  {
    var listed := GetHomeData(Some(u), agents, preferences).value.agentsGenerated;
    assert e in listed <==> multiset(listed)[e] > 0;
    if u in agents {
      assert e in agents[u] <==> multiset(agents[u])[e] > 0;
    }
  }

  /** After a successful run, the user's home lists a completed episode for the track. */
  lemma {:induction false} HomeShowsSuccessfulRun(agents: map<UserId, seq<Episode>>, transcripts: seq<TranscriptRow>,
                                                  notifications: seq<Notification>, args: WorkflowArgs, now: int,
                                                  reply: TranscribeAudio.TranscriberReply,
                                                  store: TranscribeAudio.StoreResult, preferences: seq<Preference>)
    requires ListenAgent.Started(args)
    requires ListenAgent.ExpectedRun(agents, transcripts, notifications, args, now, reply, store).result.Ok?
    ensures var run := ListenAgent.ExpectedRun(agents, transcripts, notifications, args, now, reply, store);
            exists e :: e in GetHomeData(Some(args.userId), run.agents, preferences).value.agentsGenerated &&
                        e.trackId == args.trackId
  {
    var run := ListenAgent.ExpectedRun(agents, transcripts, notifications, args, now, reply, store);
    ListenAgent.SuccessCompletesEntry(agents, transcripts, notifications, args, now, reply, store);
    var eps := run.agents[args.userId];
    var i :| 0 <= i < |eps| && eps[i].trackId == args.trackId;
    assert eps[i] in eps;
    HomeListsCompleted(args.userId, run.agents, preferences, eps[i]);
  }
}
