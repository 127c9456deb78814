/** `mergePodcastEpisodes` of lib/helpers.ts: Apple and Spotify episode lists merged by normalised
    title and date, newest first. */
module EpisodeMerge {
  import opened Outcomes
  import opened JsText
  import opened Sorting

  /** The fields of an Apple episode the merge reads (`trackName`, `releaseDate`). */
  datatype AppleEpisode = AppleEpisode(trackId: int, trackName: string, releaseDate: string)

  /** The fields of a Spotify episode the merge reads (`name`, `release_date`). */
  datatype SpotifyEpisode = SpotifyEpisode(id: string, name: string, releaseDate: string)

  /** `MergedPodcastEpisode`: the optional `apple` and `spotify` fields as options. */
  datatype MergedEpisode = MergedEpisode(title: string, releaseDate: string,
                                         apple: Option<AppleEpisode>, spotify: Option<SpotifyEpisode>)

  /** A JavaScript `Map`: its entries and the order in which keys were first set. */
  datatype EpisodeMap = EpisodeMap(order: seq<string>, entries: map<string, MergedEpisode>)

  /** Each key is listed once, and exactly the keys with an entry are listed. */
  ghost predicate WellFormed(m: EpisodeMap) {
    && (forall i, j :: 0 <= i < j < |m.order| ==> m.order[i] != m.order[j])
    && (forall k :: k in m.entries <==> k in m.order)
  }

  const Empty := EpisodeMap([], map[])

  /** `map.set(k, v)`: a new key goes last, an existing key keeps its place. */
  function Put(m: EpisodeMap, k: string, v: MergedEpisode): (r: EpisodeMap)
    requires WellFormed(m)
    ensures WellFormed(r)
    ensures r.entries == m.entries[k := v]
    ensures k in m.entries ==> r.order == m.order
    ensures k !in m.entries ==> r.order == m.order + [k]
  {
    if k in m.entries then m.(entries := m.entries[k := v])
    else EpisodeMap(m.order + [k], m.entries[k := v])
  }

  /** `Array.from(map.values())`: the entries in key order. */
  function Values(m: EpisodeMap): (r: seq<MergedEpisode>)
    requires WellFormed(m)
    ensures |r| == |m.order|
    ensures forall i :: 0 <= i < |r| ==> r[i] == m.entries[m.order[i]]
  {
    seq(|m.order|, i requires 0 <= i < |m.order| => m.entries[m.order[i]])
  }

  /** `s.split('T')[0]`: everything before the first `T`. */
  function BeforeT(s: string): (r: string)
    ensures |r| <= |s| && r == s[..|r|] && 'T' !in r
    ensures |r| < |s| ==> s[|r|] == 'T'
  {
    if s == [] || s[0] == 'T' then []
    else
      var rest := BeforeT(s[1..]);
      assert s[..|rest| + 1] == [s[0]] + s[1..][..|rest|];
      [s[0]] + rest
  }

  /** `${title.toLowerCase().trim()}-${date}`. */
  function Key(title: string, date: string): string {
    Trim(ToLower(title)) + "-" + date
  }

  function AppleKey(e: AppleEpisode): string { Key(e.trackName, BeforeT(e.releaseDate)) }

  function SpotifyKey(e: SpotifyEpisode): string { Key(e.name, e.releaseDate) }

  /** The entry the first loop sets for an Apple episode. */
  function FromApple(e: AppleEpisode): MergedEpisode {
    MergedEpisode(e.trackName, e.releaseDate, Some(e), None)
  }

  /** The entry the second loop sets for a Spotify episode, given what the key held. */
  function WithSpotify(existing: Option<MergedEpisode>, e: SpotifyEpisode): MergedEpisode {
    match existing
    case Some(x) => x.(spotify := Some(e))
    case None => MergedEpisode(e.name, e.releaseDate, None, Some(e))
  }

  /** The keys of the episodes of `s`. */
  function KeysOf<T>(s: seq<T>, key: T -> string): set<string> {
    if s == [] then {} else KeysOf(s[..|s| - 1], key) + {key(s[|s| - 1])}
  }

  /** `KeysOf` collects the key of every episode and nothing else. */
  lemma {:induction false} KeysOfEpisodes<T>(s: seq<T>, key: T -> string)
    ensures KeysOf(s, key) == set i | 0 <= i < |s| :: key(s[i])
  {
    if s != [] {
      KeysOfEpisodes(s[..|s| - 1], key);
      assert forall i :: 0 <= i < |s| - 1 ==> s[..|s| - 1][i] == s[i];
    }
  }

  /** The first loop over `s`, as a fold from the last episode. The key function is a parameter
      so that the lemmas below hold for any keying; the source's is `AppleKey`. */
  function AddApple(m: EpisodeMap, s: seq<AppleEpisode>, key: AppleEpisode -> string): (r: EpisodeMap)
    requires WellFormed(m)
    ensures WellFormed(r)
    ensures r.entries.Keys == m.entries.Keys + KeysOf(s, key)
  {
    if s == [] then m
    else
      var e := s[|s| - 1];
      var before := AddApple(m, s[..|s| - 1], key);
      Put(before, key(e), FromApple(e))
  }

  /** The second loop over `s`; the source's key function is `SpotifyKey`. */
  function AddSpotify(m: EpisodeMap, s: seq<SpotifyEpisode>, key: SpotifyEpisode -> string): (r: EpisodeMap)
    requires WellFormed(m)
    ensures WellFormed(r)
    ensures r.entries.Keys == m.entries.Keys + KeysOf(s, key)
  {
    if s == [] then m
    else
      var e := s[|s| - 1];
      var before := AddSpotify(m, s[..|s| - 1], key);
      var k := key(e);
      Put(before, k, WithSpotify(if k in before.entries then Some(before.entries[k]) else None, e))
  }

  /** One more Spotify episode: the fold over a longer prefix puts that episode's entry. */
  lemma AddSpotifyStep(m: EpisodeMap, s: seq<SpotifyEpisode>, key: SpotifyEpisode -> string, j: nat)
    requires WellFormed(m) && j < |s|
    ensures var before := AddSpotify(m, s[..j], key);
            AddSpotify(m, s[..j + 1], key) ==
              Put(before, key(s[j]), WithSpotify(if key(s[j]) in before.entries then Some(before.entries[key(s[j])]) else None, s[j]))
  {
    assert s[..j + 1][..j] == s[..j];
  }

  /** The map both loops build. */
  function Merged(apple: seq<AppleEpisode>, spotify: seq<SpotifyEpisode>): EpisodeMap {
    AddSpotify(AddApple(Empty, apple, AppleKey), spotify, SpotifyKey)
  }

  /** The comparator's key: `new Date(releaseDate).getTime()`, a parameter of the model. */
  function ByDate(dateTime: string -> int): MergedEpisode -> int {
    (e: MergedEpisode) => dateTime(e.releaseDate)
  }

  /** The result: the entries in key order, sorted newest first. */
  function MergedEpisodes(apple: seq<AppleEpisode>, spotify: seq<SpotifyEpisode>, dateTime: string -> int)
    : (r: seq<MergedEpisode>)
    ensures SortedDesc(r, ByDate(dateTime))
    ensures multiset(r) == multiset(Values(Merged(apple, spotify)))
  {
    SortDesc(Values(Merged(apple, spotify)), ByDate(dateTime))
  }

  /** Merged episodes with the same date keep the map's insertion order (the sort is stable). */
  lemma MergedEpisodesStable(apple: seq<AppleEpisode>, spotify: seq<SpotifyEpisode>, dateTime: string -> int, t: int)
    ensures WithKey(MergedEpisodes(apple, spotify, dateTime), ByDate(dateTime), t) ==
              WithKey(Values(Merged(apple, spotify)), ByDate(dateTime), t)
  {
    SortDescStable(Values(Merged(apple, spotify)), ByDate(dateTime), t);
  }

  /** The last episode of `s` with key `k` (a later `set` overwrites an earlier one). */
  function LastWithKey<T>(s: seq<T>, key: T -> string, k: string): (r: Option<T>)
    ensures r.None? <==> k !in KeysOf(s, key)
    ensures r.Some? ==> key(r.value) == k
  {
    if s == [] then None
    else if key(s[|s| - 1]) == k then Some(s[|s| - 1])
    else LastWithKey(s[..|s| - 1], key, k)
  }

  /** The first episode of `s` with key `k`. */
  function FirstWithKey<T>(s: seq<T>, key: T -> string, k: string): (r: Option<T>)
    ensures r.None? <==> k !in KeysOf(s, key)
    ensures r.Some? ==> key(r.value) == k
  {
    if s == [] then None
    else
      match FirstWithKey(s[..|s| - 1], key, k)
      case Some(e) => Some(e)
      case None => if key(s[|s| - 1]) == k then Some(s[|s| - 1]) else None
  }

  /** `LastWithKey` picks the episode at the last position holding key `k`. */
  lemma {:induction false} LastWithKeyIsLast<T>(s: seq<T>, key: T -> string, k: string)
    requires LastWithKey(s, key, k).Some?
    ensures exists i :: 0 <= i < |s| && s[i] == LastWithKey(s, key, k).value &&
                        forall j :: i < j < |s| ==> key(s[j]) != k
  {
    var n := |s| - 1;
    if key(s[n]) != k {
      LastWithKeyIsLast(s[..n], key, k);
      var i :| 0 <= i < n && s[..n][i] == LastWithKey(s, key, k).value &&
               forall j :: i < j < n ==> key(s[..n][j]) != k;
      assert s[i] == s[..n][i];
      assert forall j :: i < j < n ==> s[j] == s[..n][j];
    }
  }

  /** `FirstWithKey` picks the episode at the first position holding key `k`. */
  lemma {:induction false} FirstWithKeyIsFirst<T>(s: seq<T>, key: T -> string, k: string)
    requires FirstWithKey(s, key, k).Some?
    ensures exists i :: 0 <= i < |s| && s[i] == FirstWithKey(s, key, k).value &&
                        forall j :: 0 <= j < i ==> key(s[j]) != k
  {
    var n := |s| - 1;
    assert forall j :: 0 <= j < n ==> s[j] == s[..n][j];
    if FirstWithKey(s[..n], key, k).Some? {
      FirstWithKeyIsFirst(s[..n], key, k);
    } else {
      KeysOfEpisodes(s[..n], key);
      assert forall j :: 0 <= j < n ==> key(s[..n][j]) in KeysOf(s[..n], key);
    }
  }

  /** After the first loop, an Apple key holds the entry of the last Apple episode with it; other
      keys keep what they held. */
  lemma {:induction false} AddAppleEntries(m: EpisodeMap, s: seq<AppleEpisode>, key: AppleEpisode -> string, k: string)
    requires WellFormed(m)
    ensures LastWithKey(s, key, k).Some? ==> AddApple(m, s, key).entries[k] == FromApple(LastWithKey(s, key, k).value)
    ensures LastWithKey(s, key, k).None? && k in m.entries ==> AddApple(m, s, key).entries[k] == m.entries[k]
  {
    if s != [] {
      AddAppleEntries(m, s[..|s| - 1], key, k);
    }
  }

  /** After the second loop: a key that held an entry gets the last Spotify episode with it
      added; a new key holds the first such episode's title and date, no Apple episode, and the
      last such Spotify episode. */
  lemma {:induction false} AddSpotifyEntries(m: EpisodeMap, s: seq<SpotifyEpisode>, key: SpotifyEpisode -> string, k: string)
    requires WellFormed(m)
    ensures k in m.entries && LastWithKey(s, key, k).Some? ==>
              AddSpotify(m, s, key).entries[k] == m.entries[k].(spotify := LastWithKey(s, key, k))
    ensures k in m.entries && LastWithKey(s, key, k).None? ==> AddSpotify(m, s, key).entries[k] == m.entries[k]
    ensures k !in m.entries && FirstWithKey(s, key, k).Some? ==>
              var f := FirstWithKey(s, key, k).value;
              AddSpotify(m, s, key).entries[k] == MergedEpisode(f.name, f.releaseDate, None, LastWithKey(s, key, k))
  {
    if s != [] {
      AddSpotifyEntries(m, s[..|s| - 1], key, k);
    }
  }

  /** The merged keys are exactly those of the Apple and Spotify episodes (see `KeysOfEpisodes`). */
  lemma MergedKeys(apple: seq<AppleEpisode>, spotify: seq<SpotifyEpisode>)
    ensures Merged(apple, spotify).entries.Keys == KeysOf(apple, AppleKey) + KeysOf(spotify, SpotifyKey)
  {
  }

  /** One element of the result per distinct key. */
  lemma MergedCount(apple: seq<AppleEpisode>, spotify: seq<SpotifyEpisode>, dateTime: string -> int)
    ensures |MergedEpisodes(apple, spotify, dateTime)| == |Merged(apple, spotify).entries.Keys|
  {
    DistinctOrderCardinality(Merged(apple, spotify));
  }

  /** In a well-formed map the key order lists as many keys as there are entries. */
  lemma DistinctOrderCardinality(m: EpisodeMap)
    requires WellFormed(m)
    ensures |m.order| == |m.entries.Keys|
  {
    DistinctCardinality(m.order);
    assert m.entries.Keys == set k | k in m.order;
  }

  /** A sequence without repetitions has as many distinct elements as positions. */
  lemma {:induction false} DistinctCardinality(s: seq<string>)
    requires forall i, j :: 0 <= i < j < |s| ==> s[i] != s[j]
    ensures |set k | k in s| == |s|
  {
    if s != [] {
      var t := s[..|s| - 1];
      assert forall i :: 0 <= i < |t| ==> t[i] == s[i];
      DistinctCardinality(t);
      assert s[|s| - 1] !in t;
      assert (set k | k in s) == (set k | k in t) + {s[|s| - 1]} by {
        assert s == t + [s[|s| - 1]];
      }
    }
  }

  /** What each key of the merged map holds. An Apple key: the last Apple episode with it (title,
      date and `apple`), merged with the last Spotify episode with it, if any. A Spotify-only key:
      the first Spotify episode's title and date, no `apple`, and the last Spotify episode. */
  lemma MergedEntries(apple: seq<AppleEpisode>, spotify: seq<SpotifyEpisode>, k: string)
    ensures LastWithKey(apple, AppleKey, k).Some? ==>
              var a := LastWithKey(apple, AppleKey, k).value;
              Merged(apple, spotify).entries[k] ==
                MergedEpisode(a.trackName, a.releaseDate, Some(a), LastWithKey(spotify, SpotifyKey, k))
    ensures LastWithKey(apple, AppleKey, k).None? && FirstWithKey(spotify, SpotifyKey, k).Some? ==>
              var f := FirstWithKey(spotify, SpotifyKey, k).value;
              Merged(apple, spotify).entries[k] == MergedEpisode(f.name, f.releaseDate, None, LastWithKey(spotify, SpotifyKey, k))
  {
    AddAppleEntries(Empty, apple, AppleKey, k);
    AddSpotifyEntries(AddApple(Empty, apple, AppleKey), spotify, SpotifyKey, k);
  }

  /** `mergePodcastEpisodes`: the two loops fill the map in place, then the values are sorted. */
  method MergePodcastEpisodes(apple: seq<AppleEpisode>, spotify: seq<SpotifyEpisode>, dateTime: string -> int)
    returns (r: seq<MergedEpisode>)
    ensures r == MergedEpisodes(apple, spotify, dateTime)
  {
    var episodeMap := Empty;
    episodeMap := SetAppleEpisodes(episodeMap, apple);
    episodeMap := SetSpotifyEpisodes(episodeMap, spotify);
    r := SortDesc(Values(episodeMap), ByDate(dateTime));
  }

  /** The first `forEach`: every Apple episode is set under its key. */
  method SetAppleEpisodes(start: EpisodeMap, apple: seq<AppleEpisode>) returns (episodeMap: EpisodeMap)
    requires WellFormed(start)
    ensures WellFormed(episodeMap) && episodeMap == AddApple(start, apple, AppleKey)
  {
    episodeMap := start;
    var i := 0;
    while i < |apple|
      invariant 0 <= i <= |apple|
      invariant WellFormed(episodeMap) && episodeMap == AddApple(start, apple[..i], AppleKey)
    {
      var episode := apple[i];
      episodeMap := Put(episodeMap, AppleKey(episode), FromApple(episode));
      assert apple[..i + 1][..i] == apple[..i];
      i := i + 1;
    }
    assert apple[..i] == apple;
  }

  /** The second `forEach`: a Spotify episode joins the entry under its key, or starts one. */
  method SetSpotifyEpisodes(start: EpisodeMap, spotify: seq<SpotifyEpisode>) returns (episodeMap: EpisodeMap)
    requires WellFormed(start)
    ensures WellFormed(episodeMap) && episodeMap == AddSpotify(start, spotify, SpotifyKey)
  {
    episodeMap := start;
    var j := 0;
    while j < |spotify|
      invariant 0 <= j <= |spotify|
      invariant WellFormed(episodeMap) && episodeMap == AddSpotify(start, spotify[..j], SpotifyKey)
    {
      var episode := spotify[j];
      var key := SpotifyKey(episode);
      AddSpotifyStep(start, spotify, SpotifyKey, j);
      if key in episodeMap.entries {
        episodeMap := Put(episodeMap, key, episodeMap.entries[key].(spotify := Some(episode)));
      } else {
        episodeMap := Put(episodeMap, key, MergedEpisode(episode.name, episode.releaseDate, None, Some(episode)));
      }
      j := j + 1;
    }
    assert spotify[..j] == spotify;
  }
}
