/** Lookups over a user's episode list: the `some` and `find` calls the handlers share. */
module Episodes {
  import opened Outcomes
  import opened Schema

  /** The user's `agentsGenerated` document, if there is one (`.first()` on the user index). */
  function DocOf(agents: map<UserId, seq<Episode>>, u: UserId): Option<seq<Episode>> {
    if u in agents then Some(agents[u]) else None
  }

  /** `episodes.some((e) => e.trackId === t)`. */
  predicate HasTrack(eps: seq<Episode>, t: TrackId) {
    exists i :: 0 <= i < |eps| && eps[i].trackId == t
  }

  /** `episodes.find((e) => e.trackId === t)`: the first episode with that track id. */
  function FindEpisode(eps: seq<Episode>, t: TrackId): (r: Option<Episode>)
    ensures r.None? <==> !HasTrack(eps, t)
    ensures r.Some? ==> exists i :: 0 <= i < |eps| && eps[i] == r.value && r.value.trackId == t &&
                                   forall j :: 0 <= j < i ==> eps[j].trackId != t
  {
    if eps == [] then None
    else if eps[0].trackId == t then Some(eps[0])
    else
      var r := FindEpisode(eps[1..], t);
      assert forall i :: 0 < i < |eps| ==> eps[i] == eps[1..][i - 1];
      r
  }

  /** The number of entries carrying track `t`. */
  function CountTrack(eps: seq<Episode>, t: TrackId): (n: nat)
    ensures n <= |eps|
    ensures n == 0 <==> !HasTrack(eps, t)
  {
    if eps == [] then 0
    else
      assert forall i :: 0 < i < |eps| ==> eps[i] == eps[1..][i - 1];
      (if eps[0].trackId == t then 1 else 0) + CountTrack(eps[1..], t)
  }

  /** At most one entry per track id: the shape `initializeAgentForUser` maintains. */
  predicate UniqueTracks(eps: seq<Episode>) {
    forall i, j :: 0 <= i < j < |eps| ==> eps[i].trackId != eps[j].trackId
  }

  lemma {:induction false} CountTrackAppend(eps: seq<Episode>, e: Episode, t: TrackId)
    ensures CountTrack(eps + [e], t) == CountTrack(eps, t) + (if e.trackId == t then 1 else 0)
  {
    if eps != [] {
      assert (eps + [e])[1..] == eps[1..] + [e];
      CountTrackAppend(eps[1..], e, t);
    }
  }

  /** With unique track ids, every track occurs at most once. */
  lemma {:induction false} UniqueCountAtMostOne(eps: seq<Episode>, t: TrackId)
    requires UniqueTracks(eps)
    ensures CountTrack(eps, t) <= 1
  {
    if eps != [] {
      assert UniqueTracks(eps[1..]) by {
        forall i, j | 0 <= i < j < |eps[1..]| ensures eps[1..][i].trackId != eps[1..][j].trackId {
          assert eps[1..][i] == eps[i + 1] && eps[1..][j] == eps[j + 1];
        }
      }
      UniqueCountAtMostOne(eps[1..], t);
      if eps[0].trackId == t {
        assert !HasTrack(eps[1..], t) by {
          forall i | 0 <= i < |eps[1..]| ensures eps[1..][i].trackId != t {
            assert eps[1..][i] == eps[i + 1];
          }
        }
      }
    }
  }
}
