/** convex/notifications.ts: creating, listing and reading notifications. */
module Notifications {
  import opened Outcomes
  import opened Schema
  import opened Db

  const NotAuthorized := "Not authorized"
  /** `NOTIFICATION_TYPES.LISTEN_AGENT` (components/sidebar/notifications.tsx). */
  const ListenAgentKind := "listen_agent"
  /** `.take(5)`. */
  const PageSize := 5

  /** A returned notification together with its document id. */
  datatype Listed = Listed(id: nat, row: Notification)

  /** The `{ count, notifications }` object `getNotifications` returns. */
  datatype NotificationPage = NotificationPage(count: nat, notifications: seq<Listed>)

  predicate UnreadFor(n: Notification, u: UserId) {
    n.userId == u && !n.read
  }

  /** All unread notifications of `u` among the first `n` rows, newest (highest id) first. */
  function UnreadNewestFirst(rows: seq<Notification>, u: UserId, n: nat): (r: seq<Listed>)
    requires n <= |rows|
    ensures forall k :: 0 <= k < |r| ==> r[k].id < n && r[k].row == rows[r[k].id] && UnreadFor(r[k].row, u)
    ensures IdsDescending(r)
    ensures forall i :: 0 <= i < n && UnreadFor(rows[i], u) ==> Listing(r, i)
  {
    if n == 0 then []
    else if UnreadFor(rows[n - 1], u) then
      var rest := UnreadNewestFirst(rows, u, n - 1);
      ListedInFront(Listed(n - 1, rows[n - 1]), rest);
      [Listed(n - 1, rows[n - 1])] + rest
    else UnreadNewestFirst(rows, u, n - 1)
  }

  /** Ids strictly decrease along the list: newest first. */
  predicate IdsDescending(r: seq<Listed>) {
    forall k, l :: 0 <= k < l < |r| ==> r[k].id > r[l].id
  }

  /** Some entry of `r` has document id `i`. */
  predicate Listing(r: seq<Listed>, i: nat) {
    exists k :: 0 <= k < |r| && r[k].id == i
  }

  /** Putting an entry with a larger id in front keeps the list newest first and lists what it listed. */
  lemma ListedInFront(x: Listed, rest: seq<Listed>)
    requires IdsDescending(rest)
    requires forall k :: 0 <= k < |rest| ==> rest[k].id < x.id
    ensures IdsDescending([x] + rest)
    ensures Listing([x] + rest, x.id)
    ensures forall i :: Listing(rest, i) ==> Listing([x] + rest, i)
    ensures forall k :: 0 <= k < |rest| ==> ([x] + rest)[k + 1] == rest[k]
  {
    var r := [x] + rest;
    assert r[0] == x;
    forall i | Listing(rest, i) ensures Listing(r, i) {
      var k :| 0 <= k < |rest| && rest[k].id == i;
      assert r[k + 1] == rest[k];
    }
  }

  /** The head of a non-empty newest-first list is its newest entry. */
  lemma HeadIsNewest(r: seq<Listed>, i: nat)
    requires IdsDescending(r) && Listing(r, i)
    ensures r[0].id >= i
  {
  }

  /** In a newest-first list, an entry newer than the one at `b` sits before `b`. */
  lemma NewerSitsBefore(r: seq<Listed>, k: nat, b: nat)
    requires IdsDescending(r) && k < |r| && b < |r| && r[k].id > r[b].id
    ensures k < b
  {
  }

  /** `getNotifications`: the caller's unread notifications, newest first, at most five; with
      no identity (the only error) the caught result `{ count: 0, notifications: [] }`. */
  function GetNotifications(identity: Option<UserId>, rows: seq<Notification>): (r: NotificationPage)
    ensures identity.None? ==> r == NotificationPage(0, [])
    ensures r.count == |r.notifications| <= PageSize
    ensures identity.Some? ==>
              && (forall k :: 0 <= k < |r.notifications| ==>
                    r.notifications[k].id < |rows| && r.notifications[k].row == rows[r.notifications[k].id] &&
                    UnreadFor(r.notifications[k].row, identity.value))
              && IdsDescending(r.notifications)
              && (forall i ::
                    (0 <= i < |rows| && UnreadFor(rows[i], identity.value) &&
                     (|r.notifications| < PageSize || i > r.notifications[|r.notifications| - 1].id)) ==>
                    Listing(r.notifications, i))
  {
    match identity
    case None => NotificationPage(0, [])
    case Some(u) =>
      var all := UnreadNewestFirst(rows, u, |rows|);
      var page := FirstPage(all);
      FirstPageKeepsNewest(all);
      NotificationPage(|page|, page)
  }

  /** `.take(5)`: the first five entries, or all of them when there are fewer. */
  function FirstPage(all: seq<Listed>): (page: seq<Listed>)
    ensures |page| == if |all| <= PageSize then |all| else PageSize
    ensures forall k :: 0 <= k < |page| ==> page[k] == all[k]
  {
    if |all| <= PageSize then all else all[..PageSize]
  }

  /** Cutting a newest-first list keeps it newest first, and keeps every entry newer than the last
      one kept (all of them when the page is not full). */
  lemma FirstPageKeepsNewest(all: seq<Listed>)
    requires IdsDescending(all)
    ensures IdsDescending(FirstPage(all))
    ensures var page := FirstPage(all);
            forall i: nat :: Listing(all, i) && (|page| < PageSize || i > page[|page| - 1].id) ==> Listing(page, i)
  {
    var page := FirstPage(all);
    forall i: nat | Listing(all, i) && (|page| < PageSize || i > page[|page| - 1].id)
      ensures Listing(page, i)
    {
      var k :| 0 <= k < |all| && all[k].id == i;
      if |all| > PageSize { NewerSitsBefore(all, k, PageSize - 1); }
      assert page[k].id == i;
    }
  }

  /** The patch of `markNotificationAsRead`: only `read` of that row changes. */
  function MarkedRead(rows: seq<Notification>, id: nat): seq<Notification>
    requires id < |rows|
  {
    rows[id := rows[id].(read := true)]
  }

  /** Marking a notification read twice is the same as once. */
  lemma MarkedReadIdempotent(rows: seq<Notification>, id: nat)
    requires id < |rows|
    ensures MarkedRead(MarkedRead(rows, id), id) == MarkedRead(rows, id)
  {
  }

  /** Once read, a notification is no longer listed, for any user. */
  lemma MarkedReadIsHidden(rows: seq<Notification>, id: nat, u: UserId)
    requires id < |rows|
    ensures forall k :: 0 <= k < |GetNotifications(Some(u), MarkedRead(rows, id)).notifications| ==>
              GetNotifications(Some(u), MarkedRead(rows, id)).notifications[k].id != id
  {
  }

  /** A new unread notification for `u` comes first in `u`'s list. */
  lemma NewestNotificationListedFirst(rows: seq<Notification>, n: Notification)
    requires !n.read
    ensures GetNotifications(Some(n.userId), rows + [n]).notifications[0] == Listed(|rows|, n)
  {
    var all := rows + [n];
    var page := GetNotifications(Some(n.userId), all).notifications;
    assert UnreadFor(all[|rows|], n.userId);
    HeadIsNewest(page, |rows|);
  }

  /** `createNotification`: throws on an empty user id, otherwise inserts exactly one row. */
  method CreateNotification(db: Database, userId: UserId, trackId: TrackId, kind: string, read: bool,
                            episodeTitle: string) returns (r: Result<()>)
    modifies db`notifications
    ensures userId == "" ==> r == Err(NotAuthorized) && db.notifications == old(db.notifications)
    ensures userId != "" ==>
              r == Ok(()) &&
              db.notifications == old(db.notifications) + [Notification(userId, trackId, kind, read, episodeTitle)]
  {
    if userId == "" { return Err(NotAuthorized); }
    db.notifications := db.notifications + [Notification(userId, trackId, kind, read, episodeTitle)];
    return Ok(());
  }

  /** `markNotificationAsRead`: patches `read = true` (no ownership check); a patch of an id
      that names no document throws. */
  method MarkNotificationAsRead(db: Database, notificationId: nat) returns (r: Result<()>)
    modifies db`notifications
    ensures notificationId >= |old(db.notifications)| ==>
              r == Err(NonexistentDocument) && db.notifications == old(db.notifications)
    ensures notificationId < |old(db.notifications)| ==>
              r == Ok(()) && db.notifications == MarkedRead(old(db.notifications), notificationId)
  {
    if notificationId >= |db.notifications| { return Err(NonexistentDocument); }
    db.notifications := MarkedRead(db.notifications, notificationId);
    return Ok(());
  }
}
