/** The Convex database of the application: one field per table. */
module Db {
  import opened Outcomes
  import opened Schema

  /** Stands for the error the platform raises on a `db.patch` of an id that names no document;
      the model does not fix its exact wording. */
  const NonexistentDocument := "nonexistent document"

  /** `.withIndex('by_user_id', ...).first()`: the position of the user's oldest document. */
  function FirstOf<T>(rows: seq<T>, owner: T -> UserId, u: UserId): (r: Option<nat>)
    ensures r.None? <==> forall i :: 0 <= i < |rows| ==> owner(rows[i]) != u
    ensures r.Some? ==> r.value < |rows| && owner(rows[r.value]) == u &&
                        forall j :: 0 <= j < r.value ==> owner(rows[j]) != u
  {
    if rows == [] then None
    else if owner(rows[0]) == u then Some(0)
    else
      match FirstOf(rows[1..], owner, u)
      case None =>
        assert forall i :: 0 < i < |rows| ==> rows[i] == rows[1..][i - 1];
        None
      case Some(k) =>
        assert forall i :: 0 < i <= k + 1 ==> rows[i] == rows[1..][i - 1];
        Some(k + 1)
  }

  /** The handlers reach the tables through `ctx.db`; here they receive this object.
      A document id is its position in its table (no handler deletes documents). */
  class Database {
    /** `agentsGenerated`: the episode list of each user's (first) document. */
    var agents: map<UserId, seq<Episode>>
    var transcripts: seq<TranscriptRow>
    var notifications: seq<Notification>
    /** `chats`: the messages of the (first) chat document with each chat key. */
    var chats: map<string, seq<StoredMessage>>
    var preferences: seq<Preference>
    var videoPreferences: seq<VideoPreference>

    constructor ()
      ensures agents == map[] && transcripts == [] && notifications == []
      ensures chats == map[] && preferences == [] && videoPreferences == []
    {
      agents := map[];
      transcripts := [];
      notifications := [];
      chats := map[];
      preferences := [];
      videoPreferences := [];
    }
  }
}
