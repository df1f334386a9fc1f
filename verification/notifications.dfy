/**
 * The notification store of NotificationService: notifications kept in
 * table order, sent to one user or fanned out to many, listed a page at
 * a time newest first, counted, marked read and deleted.
 *
 * The repository is the field `notifications`; a call that fails leaves
 * it as it was. The real-time push that follows a send is transport and
 * is not part of this model. New ids (Guid.NewGuid) and the creation time
 * are parameters.
 */
module Notifications {
  import opened Common
  import opened Paging
  import Sorting

  /** NotificationType, by its underlying enum value. */
  datatype NotificationType = NotificationType(code: int)

  datatype Notification = Notification(
    id: string,
    createdAt: int,
    receiverUserId: string,
    message: string,
    kind: NotificationType,
    isRead: bool,
    relatedEntityId: Option<string>,
    relatedEntityType: Option<string>)

  /** NotificationCountDTO. */
  datatype NotificationCount = NotificationCount(totalCount: nat, unreadCount: nat)

  /** The record both send operations build: unread, for one receiver. */
  function NewNotification(id: string, now: int, receiverUserId: string, message: string, kind: NotificationType,
                           relatedEntityId: Option<string>, relatedEntityType: Option<string>): Notification
  {
    Notification(id, now, receiverUserId, message, kind, false, relatedEntityId, relatedEntityType)
  }

  // ---------------------------------------------------------------------
  // Queries
  // ---------------------------------------------------------------------

  /** The repository filters of the service: n.ReceiverUserId == userId,
      and with `unreadOnly` also !n.IsRead. */
  predicate Keeps(n: Notification, userId: string, unreadOnly: bool) {
    n.receiverUserId == userId && (!unreadOnly || !n.isRead)
  }

  /** The notifications a filter keeps, in table order. */
  function Received(table: seq<Notification>, userId: string, unreadOnly: bool): (r: seq<Notification>)
    ensures |r| <= |table|
    ensures forall i :: 0 <= i < |r| ==> Keeps(r[i], userId, unreadOnly)
  {
    if table == [] then []
    else
      var rest := Received(table[1..], userId, unreadOnly);
      var r := (if Keeps(table[0], userId, unreadOnly) then [table[0]] else []) + rest;
      assert forall i :: 0 <= i < |r| ==> r[i] == table[0] || r[i] in rest;
      r
  }

  /** A filter keeps exactly the notifications it accepts. */
  lemma {:induction false} ReceivedMembers(table: seq<Notification>, userId: string, unreadOnly: bool)
    ensures forall x :: x in Received(table, userId, unreadOnly) <==> x in table && Keeps(x, userId, unreadOnly)
  {
    if table != [] {
      ReceivedMembers(table[1..], userId, unreadOnly);
      assert table == [table[0]] + table[1..];
    }
  }

  lemma ReceivedOne(n: Notification, userId: string, unreadOnly: bool)
    ensures Received([n], userId, unreadOnly) == if Keeps(n, userId, unreadOnly) then [n] else []
  {
    assert [n][1..] == [];
  }

  lemma {:induction false} ReceivedAppend(a: seq<Notification>, b: seq<Notification>, userId: string, unreadOnly: bool)
    ensures Received(a + b, userId, unreadOnly) == Received(a, userId, unreadOnly) + Received(b, userId, unreadOnly)
  {
    if a != [] {
      assert (a + b)[0] == a[0] && (a + b)[1..] == a[1..] + b;
      ReceivedAppend(a[1..], b, userId, unreadOnly);
      var head := if Keeps(a[0], userId, unreadOnly) then [a[0]] else [];
      var x, y := Received(a[1..], userId, unreadOnly), Received(b, userId, unreadOnly);
      assert Received(a + b, userId, unreadOnly) == head + (x + y);
      assert Received(a, userId, unreadOnly) == head + x;
      ConcatAssoc(head, x, y);
    } else {
      assert a + b == b;
    }
  }

  /** A user's unread notifications are among their notifications. */
  lemma {:induction false} UnreadWithinTotal(table: seq<Notification>, userId: string)
    ensures |Received(table, userId, true)| <= |Received(table, userId, false)|
  {
    if table != [] {
      UnreadWithinTotal(table[1..], userId);
    }
  }

  /** The positions in the table of the notifications a filter keeps. */
  ghost function KeptIndices(table: seq<Notification>, userId: string, unreadOnly: bool): set<int> {
    set i | 0 <= i < |table| && Keeps(table[i], userId, unreadOnly)
  }

  /** Appending a notification adds its position exactly when it is kept. */
  lemma KeptIndicesSnoc(init: seq<Notification>, x: Notification, userId: string, unreadOnly: bool)
    ensures KeptIndices(init + [x], userId, unreadOnly)
            == KeptIndices(init, userId, unreadOnly) + (if Keeps(x, userId, unreadOnly) then {|init|} else {})
  {
    var t := init + [x];
    assert forall i :: 0 <= i < |init| ==> t[i] == init[i];
    assert t[|init|] == x;
  }

  /** Filtering keeps one notification per table position it accepts. */
  lemma {:induction false} ReceivedCountsIndices(table: seq<Notification>, userId: string, unreadOnly: bool)
    ensures |Received(table, userId, unreadOnly)| == |KeptIndices(table, userId, unreadOnly)|
  {
    if table == [] {
      assert KeptIndices(table, userId, unreadOnly) == {};
    } else {
      var n := |table| - 1;
      var init, x := table[..n], table[n];
      assert table == init + [x];
      ReceivedCountsIndices(init, userId, unreadOnly);
      ReceivedAppend(init, [x], userId, unreadOnly);
      ReceivedOne(x, userId, unreadOnly);
      KeptIndicesSnoc(init, x, userId, unreadOnly);
      assert n !in KeptIndices(init, userId, unreadOnly);
    }
  }

  /** GetNotificationCountAsync: a blank user id is refused; otherwise the
      user's notifications are counted, and separately the unread ones. */
  function GetNotificationCount(table: seq<Notification>, userId: string): (r: Result<NotificationCount>)
    ensures r.Err? <==> Blank(userId)
    ensures r.Err? ==> r.error == Invalid
    ensures r.Ok? ==> r.value.unreadCount <= r.value.totalCount
    ensures r.Ok? ==> r.value.totalCount == |Received(table, userId, false)|
                      && r.value.unreadCount == |Received(table, userId, true)|
    ensures r.Ok? ==> r.value.totalCount == |KeptIndices(table, userId, false)|
                      && r.value.unreadCount == |KeptIndices(table, userId, true)|
  {
    if Blank(userId) then Err(Invalid)
    else
      UnreadWithinTotal(table, userId);
      ReceivedCountsIndices(table, userId, false);
      ReceivedCountsIndices(table, userId, true);
      Ok(NotificationCount(|Received(table, userId, false)|, |Received(table, userId, true)|))
  }

  /** The key order of OrderByDescending(n => n.CreatedAt): newer first. */
  function NewestFirst(): (Notification, Notification) -> bool {
    (a: Notification, b: Notification) => a.createdAt >= b.createdAt
  }

  lemma NewestFirstPreorder()
    ensures Sorting.TotalPreorder(NewestFirst())
  {
  }

  /** All of a user's notifications, newest first; the sort is stable, so
      notifications created at the same time keep their table order. */
  function UserListing(table: seq<Notification>, userId: string): (r: seq<Notification>)
    ensures Sorting.SortedBy(r, NewestFirst())
    ensures multiset(r) == multiset(Received(table, userId, false))
  {
    NewestFirstPreorder();
    Sorting.SortBySorted(Received(table, userId, false), NewestFirst());
    Sorting.SortBy(Received(table, userId, false), NewestFirst())
  }

  /** GetUserNotificationsAsync: a blank user id is refused; otherwise the
      user's listing, Skip((pageNumber - 1) * pageSize).Take(pageSize),
      with the offset computed in C# int arithmetic. The page arguments
      are not validated. */
  function GetUserNotifications(table: seq<Notification>, userId: string, pageNumber: Int32, pageSize: Int32)
    : (r: Result<seq<Notification>>)
    ensures r.Err? <==> Blank(userId)
    ensures r.Err? ==> r.error == Invalid
  {
    if Blank(userId) then Err(Invalid)
    else Ok(Window(UserListing(table, userId), Wrap32(Offset(pageNumber, pageSize)), pageSize))
  }

  /** A page holds only the user's notifications, newest first, and at
      most pageSize of them. */
  lemma UserPageContents(table: seq<Notification>, userId: string, pageNumber: Int32, pageSize: Int32)
    requires !Blank(userId)
    ensures var page := GetUserNotifications(table, userId, pageNumber, pageSize).value;
            && (forall x :: x in page ==> x in table && x.receiverUserId == userId)
            && Sorting.SortedBy(page, NewestFirst())
            && |page| <= (if pageSize < 0 then 0 else pageSize)
  {
    var all := Received(table, userId, false);
    var listing := UserListing(table, userId);
    NewestFirstPreorder();
    Sorting.SortBySorted(all, NewestFirst());
    ReceivedMembers(table, userId, false);
    var page := Window(listing, Wrap32(Offset(pageNumber, pageSize)), pageSize);
    WindowOfSorted(listing, Wrap32(Offset(pageNumber, pageSize)), pageSize);
    forall x | x in page ensures x in table && x.receiverUserId == userId {
      assert multiset(listing)[x] > 0;
      assert x in all;
    }
  }

  /** A window of a newest-first listing is a newest-first run of it. */
  lemma WindowOfSorted(listing: seq<Notification>, off: int, size: int)
    requires Sorting.SortedBy(listing, NewestFirst())
    ensures var page := Window(listing, off, size);
            && (forall x :: x in page ==> x in listing)
            && Sorting.SortedBy(page, NewestFirst())
            && |page| <= (if size < 0 then 0 else size)
  {
    var page := Window(listing, off, size);
    WindowSlice(listing, off, size);
    var start := if off < 0 then 0 else off;
    if page != [] {
      assert page == listing[start..start + |page|];
    }
  }

  /** With page and size from 1 and an offset that fits in an int, the
      page is the run of the listing that starts at (pageNumber - 1) *
      pageSize, and it is empty exactly past TotalPages. */
  lemma UserPageSlice(table: seq<Notification>, userId: string, pageNumber: Int32, pageSize: Int32)
    requires !Blank(userId) && pageNumber >= 1 && pageSize >= 1
    requires Offset(pageNumber, pageSize) < 0x8000_0000
    ensures var listing := UserListing(table, userId);
            var page := GetUserNotifications(table, userId, pageNumber, pageSize).value;
            var off := Offset(pageNumber, pageSize);
            && off >= 0
            && (off < |listing| ==> off + |page| <= |listing| && page == listing[off..off + |page|])
            && (page != [] <==> pageNumber <= TotalPages(|listing|, pageSize))
  {
    var off := Offset(pageNumber, pageSize);
    MulLe(0, pageNumber - 1, pageSize);
    assert 0 <= off < 0x8000_0000;
    assert Wrap32(off) == off;
    var listing := UserListing(table, userId);
    assert GetUserNotifications(table, userId, pageNumber, pageSize).value == PageOf(listing, pageNumber, pageSize);
    PageSlice(listing, pageNumber, pageSize);
  }

  /** Page 0, a negative page, or an offset that wraps below zero skips
      nothing: the caller gets the first pageSize notifications. */
  lemma UserPageFromStart(table: seq<Notification>, userId: string, pageNumber: Int32, pageSize: Int32)
    requires !Blank(userId) && Wrap32(Offset(pageNumber, pageSize)) <= 0
    ensures GetUserNotifications(table, userId, pageNumber, pageSize).value == Take(UserListing(table, userId), pageSize)
  {
  }

  // ---------------------------------------------------------------------
  // The store's invariant and lookups
  // ---------------------------------------------------------------------

  /** Notification ids are the repository's keys. */
  predicate IdsDistinct(table: seq<Notification>) {
    forall i, j :: 0 <= i < j < |table| ==> table[i].id != table[j].id
  }

  predicate IdUnused(table: seq<Notification>, id: string) {
    forall k :: 0 <= k < |table| ==> table[k].id != id
  }

  /** New ids for a batch: distinct, and none already in the table. */
  predicate FreshIds(table: seq<Notification>, ids: seq<string>) {
    && (forall i, j :: 0 <= i < j < |ids| ==> ids[i] != ids[j])
    && (forall k :: 0 <= k < |ids| ==> IdUnused(table, ids[k]))
  }

  /** GetByIdAsync: where the notification with this id sits. */
  function IndexOf(table: seq<Notification>, id: string): (r: Option<nat>)
    ensures r.Some? ==> r.value < |table| && table[r.value].id == id
    ensures r.None? ==> IdUnused(table, id)
  {
    if table == [] then None
    else if table[0].id == id then Some(0)
    else
      var r := IndexOf(table[1..], id);
      if r.Some? then Some(r.value + 1) else None
  }

  // ---------------------------------------------------------------------
  // What the writes do to the counts
  // ---------------------------------------------------------------------

  /** Storing one unread notification adds one to its receiver's total and
      unread counts and leaves every other user's counts alone. */
  lemma SentCounts(table: seq<Notification>, n: Notification)
    requires !n.isRead
    ensures forall u :: |Received(table + [n], u, false)| == |Received(table, u, false)| + (if u == n.receiverUserId then 1 else 0)
    ensures forall u :: |Received(table + [n], u, true)| == |Received(table, u, true)| + (if u == n.receiverUserId then 1 else 0)
  {
    forall u
      ensures |Received(table + [n], u, false)| == |Received(table, u, false)| + (if u == n.receiverUserId then 1 else 0)
      ensures |Received(table + [n], u, true)| == |Received(table, u, true)| + (if u == n.receiverUserId then 1 else 0)
    {
      ReceivedAppend(table, [n], u, false);
      ReceivedAppend(table, [n], u, true);
      ReceivedOne(n, u, false);
      ReceivedOne(n, u, true);
    }
  }

  /** Marking one notification read keeps every total, takes one off its
      receiver's unread count if it was unread, and keeps the rest. */
  lemma MarkReadCounts(table: seq<Notification>, i: nat)
    requires i < |table|
    ensures var t := table[i := table[i].(isRead := true)];
            forall u :: |Received(t, u, false)| == |Received(table, u, false)|
    ensures var t := table[i := table[i].(isRead := true)];
            forall u :: |Received(t, u, true)|
                        == |Received(table, u, true)| - (if u == table[i].receiverUserId && !table[i].isRead then 1 else 0)
  {
    var n := table[i];
    var t := table[i := n.(isRead := true)];
    assert table == table[..i] + [n] + table[i + 1..];
    assert t == table[..i] + [n.(isRead := true)] + table[i + 1..];
    forall u, unreadOnly: bool
      ensures |Received(t, u, unreadOnly)| + (if Keeps(n, u, unreadOnly) then 1 else 0)
              == |Received(table, u, unreadOnly)| + (if Keeps(n.(isRead := true), u, unreadOnly) then 1 else 0)
    {
      ReceivedAppend(table[..i] + [n], table[i + 1..], u, unreadOnly);
      ReceivedAppend(table[..i], [n], u, unreadOnly);
      ReceivedAppend(table[..i] + [n.(isRead := true)], table[i + 1..], u, unreadOnly);
      ReceivedAppend(table[..i], [n.(isRead := true)], u, unreadOnly);
      ReceivedOne(n, u, unreadOnly);
      ReceivedOne(n.(isRead := true), u, unreadOnly);
    }
  }

  /** Deleting the notification at i removes exactly it: its id is gone,
      every other notification stays, and only its receiver's counts drop. */
  lemma DeleteCounts(table: seq<Notification>, i: nat)
    requires i < |table| && IdsDistinct(table)
    ensures var t := table[..i] + table[i + 1..];
            && IdUnused(t, table[i].id)
            && multiset(t) + multiset{table[i]} == multiset(table)
    ensures var t := table[..i] + table[i + 1..];
            forall u, unreadOnly: bool :: |Received(t, u, unreadOnly)|
                                          == |Received(table, u, unreadOnly)| - (if Keeps(table[i], u, unreadOnly) then 1 else 0)
  {
    var n := table[i];
    var t := table[..i] + table[i + 1..];
    assert table == table[..i] + [n] + table[i + 1..];
    forall k | 0 <= k < |t| ensures t[k].id != n.id {
      if k < i {
        assert t[k] == table[k];
      } else {
        assert t[k] == table[k + 1];
      }
    }
    forall u, unreadOnly: bool
      ensures |Received(t, u, unreadOnly)| == |Received(table, u, unreadOnly)| - (if Keeps(n, u, unreadOnly) then 1 else 0)
    {
      ReceivedAppend(table[..i] + [n], table[i + 1..], u, unreadOnly);
      ReceivedAppend(table[..i], [n], u, unreadOnly);
      ReceivedAppend(table[..i], table[i + 1..], u, unreadOnly);
      ReceivedOne(n, u, unreadOnly);
    }
  }

  /** MarkAllAsReadAsync's effect on one notification. */
  function ReadFor(n: Notification, userId: string): Notification {
    if n.receiverUserId == userId then n.(isRead := true) else n
  }

  /** The table after MarkAllAsReadAsync(userId). */
  function AllRead(table: seq<Notification>, userId: string): (r: seq<Notification>)
    ensures |r| == |table|
    ensures forall k :: 0 <= k < |table| ==> r[k] == ReadFor(table[k], userId)
  {
    if table == [] then [] else [ReadFor(table[0], userId)] + AllRead(table[1..], userId)
  }

  /** After MarkAllAsRead the user has nothing unread and as many
      notifications as before. */
  lemma {:induction false} AllReadOwn(table: seq<Notification>, userId: string)
    ensures Received(AllRead(table, userId), userId, true) == []
    ensures |Received(AllRead(table, userId), userId, false)| == |Received(table, userId, false)|
  {
    if table != [] {
      AllReadOwn(table[1..], userId);
      assert AllRead(table, userId)[1..] == AllRead(table[1..], userId);
    }
  }

  /** MarkAllAsRead leaves other users' notifications untouched. */
  lemma {:induction false} AllReadOthers(table: seq<Notification>, userId: string, other: string, unreadOnly: bool)
    requires other != userId
    ensures Received(AllRead(table, userId), other, unreadOnly) == Received(table, other, unreadOnly)
  {
    if table != [] {
      AllReadOthers(table[1..], userId, other, unreadOnly);
      assert AllRead(table, userId)[1..] == AllRead(table[1..], userId);
    }
  }

  /** The notifications SendNotificationToMultipleUsersAsync builds, one
      per listed user id, in list order. */
  function Fanout(userIds: seq<string>, ids: seq<string>, message: string, kind: NotificationType,
                  relatedEntityId: Option<string>, relatedEntityType: Option<string>, now: int): (r: seq<Notification>)
    requires |ids| == |userIds|
    ensures |r| == |userIds|
  {
    if userIds == [] then []
    else
      var n := |userIds| - 1;
      Fanout(userIds[..n], ids[..n], message, kind, relatedEntityId, relatedEntityType, now)
      + [NewNotification(ids[n], now, userIds[n], message, kind, relatedEntityId, relatedEntityType)]
  }

  /** The k-th notification of a fan-out goes to the k-th listed user
      under the k-th new id. */
  lemma {:induction false} FanoutAt(userIds: seq<string>, ids: seq<string>, message: string, kind: NotificationType,
                                    relatedEntityId: Option<string>, relatedEntityType: Option<string>, now: int)
    requires |ids| == |userIds|
    ensures var r := Fanout(userIds, ids, message, kind, relatedEntityId, relatedEntityType, now);
            forall k :: 0 <= k < |r| ==>
              r[k] == NewNotification(ids[k], now, userIds[k], message, kind, relatedEntityId, relatedEntityType)
  {
    if userIds != [] {
      var n := |userIds| - 1;
      FanoutAt(userIds[..n], ids[..n], message, kind, relatedEntityId, relatedEntityType, now);
    }
  }

  /** A fan-out holds one unread notification for a user per time their id
      is listed. */
  lemma {:induction false} FanoutReceived(userIds: seq<string>, ids: seq<string>, message: string, kind: NotificationType,
                                          relatedEntityId: Option<string>, relatedEntityType: Option<string>, now: int,
                                          u: string, unreadOnly: bool)
    requires |ids| == |userIds|
    ensures |Received(Fanout(userIds, ids, message, kind, relatedEntityId, relatedEntityType, now), u, unreadOnly)|
            == multiset(userIds)[u]
  {
    if userIds != [] {
      var n := |userIds| - 1;
      var front := Fanout(userIds[..n], ids[..n], message, kind, relatedEntityId, relatedEntityType, now);
      var last := NewNotification(ids[n], now, userIds[n], message, kind, relatedEntityId, relatedEntityType);
      FanoutReceived(userIds[..n], ids[..n], message, kind, relatedEntityId, relatedEntityType, now, u, unreadOnly);
      ReceivedAppend(front, [last], u, unreadOnly);
      ReceivedOne(last, u, unreadOnly);
      assert Keeps(last, u, unreadOnly) <==> userIds[n] == u;
      assert userIds == userIds[..n] + [userIds[n]];
      assert multiset(userIds)[u] == multiset(userIds[..n])[u] + (if userIds[n] == u then 1 else 0);
    }
  }

  /** A fan-out raises each user's total and unread counts by the number
      of times their id is listed, and no more. */
  lemma FanoutCounts(table: seq<Notification>, userIds: seq<string>, ids: seq<string>, message: string,
                     kind: NotificationType, relatedEntityId: Option<string>,
                     relatedEntityType: Option<string>, now: int, u: string, unreadOnly: bool)
    requires |ids| == |userIds|
    ensures |Received(table + Fanout(userIds, ids, message, kind, relatedEntityId, relatedEntityType, now), u, unreadOnly)|
            == |Received(table, u, unreadOnly)| + multiset(userIds)[u]
  {
    ReceivedAppend(table, Fanout(userIds, ids, message, kind, relatedEntityId, relatedEntityType, now), u, unreadOnly);
    FanoutReceived(userIds, ids, message, kind, relatedEntityId, relatedEntityType, now, u, unreadOnly);
  }

  /** The building loop of SendNotificationToMultipleUsersAsync. */
  method BuildFanout(userIds: seq<string>, ids: seq<string>, message: string, kind: NotificationType,
                     relatedEntityId: Option<string>, relatedEntityType: Option<string>, now: int)
    returns (batch: seq<Notification>)
    requires |ids| == |userIds|
    ensures batch == Fanout(userIds, ids, message, kind, relatedEntityId, relatedEntityType, now)
  {
    batch := [];
    for k := 0 to |userIds|
      invariant batch == Fanout(userIds[..k], ids[..k], message, kind, relatedEntityId, relatedEntityType, now)
    {
      batch := batch + [NewNotification(ids[k], now, userIds[k], message, kind, relatedEntityId, relatedEntityType)];
      assert userIds[..k + 1][..k] == userIds[..k] && ids[..k + 1][..k] == ids[..k];
    }
    assert userIds[..|userIds|] == userIds && ids[..|ids|] == ids;
  }

  /** Appending notifications with fresh ids keeps the ids distinct. */
  lemma AppendFresh(table: seq<Notification>, batch: seq<Notification>, ids: seq<string>)
    requires IdsDistinct(table) && FreshIds(table, ids)
    requires |batch| == |ids| && forall k :: 0 <= k < |batch| ==> batch[k].id == ids[k]
    ensures IdsDistinct(table + batch)
  {
    var t := table + batch;
    forall i, j | 0 <= i < j < |t| ensures t[i].id != t[j].id {
      if j >= |table| {
        assert t[j].id == ids[j - |table|];
        if i >= |table| {
          assert t[i].id == ids[i - |table|];
        } else {
          assert t[i] == table[i];
        }
      }
    }
  }

  // ---------------------------------------------------------------------
  // The service
  // ---------------------------------------------------------------------

  class NotificationService {
    var notifications: seq<Notification>

    ghost predicate Valid()
      reads this
    {
      IdsDistinct(notifications)
    }

    constructor ()
      ensures Valid() && notifications == []
    {
      notifications := [];
    }

    /** SendNotificationAsync: a blank receiver or a blank message is
        refused; otherwise one unread notification is stored. */
    method Send(receiverUserId: string, message: string, kind: NotificationType,
                relatedEntityId: Option<string>, relatedEntityType: Option<string>, id: string, now: int)
      returns (r: Result<Notification>)
      requires Valid() && IdUnused(notifications, id)
      modifies this
      ensures Valid()
      ensures Blank(receiverUserId) || Blank(message) ==> r == Err(Invalid) && notifications == old(notifications)
      ensures !Blank(receiverUserId) && !Blank(message) ==>
                && r == Ok(NewNotification(id, now, receiverUserId, message, kind, relatedEntityId, relatedEntityType))
                && notifications == old(notifications) + [r.value]
    {
      if Blank(receiverUserId) || Blank(message) {
        return Err(Invalid);
      }
      var n := NewNotification(id, now, receiverUserId, message, kind, relatedEntityId, relatedEntityType);
      notifications := notifications + [n];
      r := Ok(n);
    }

    /** MarkAsReadAsync: a blank id is refused, an unknown id is not found;
        otherwise that notification becomes read. */
    method MarkAsRead(notificationId: string) returns (r: Result<bool>)
      requires Valid()
      modifies this
      ensures Valid()
      ensures Blank(notificationId) ==> r == Err(Invalid) && notifications == old(notifications)
      ensures !Blank(notificationId) && IndexOf(old(notifications), notificationId).None? ==>
                r == Err(NotFound) && notifications == old(notifications)
      ensures !Blank(notificationId) && IndexOf(old(notifications), notificationId).Some? ==>
                var i := IndexOf(old(notifications), notificationId).value;
                r == Ok(true) && notifications == old(notifications)[i := old(notifications)[i].(isRead := true)]
    {
      if Blank(notificationId) {
        return Err(Invalid);
      }
      var found := IndexOf(notifications, notificationId);
      if found.None? {
        return Err(NotFound);
      }
      var i := found.value;
      notifications := notifications[i := notifications[i].(isRead := true)];
      r := Ok(true);
    }

    /** MarkAllAsReadAsync: a blank user id is refused; otherwise each of
        the user's unread notifications becomes read, one at a time. */
    method MarkAllAsRead(userId: string) returns (r: Result<bool>)
      requires Valid()
      modifies this
      ensures Valid()
      ensures Blank(userId) ==> r == Err(Invalid) && notifications == old(notifications)
      ensures !Blank(userId) ==> r == Ok(true) && notifications == AllRead(old(notifications), userId)
    {
      if Blank(userId) {
        return Err(Invalid);
      }
      ghost var t0 := notifications;
      for k := 0 to |notifications|
        invariant |notifications| == |t0|
        invariant forall m :: 0 <= m < k ==> notifications[m] == ReadFor(t0[m], userId)
        invariant forall m :: k <= m < |t0| ==> notifications[m] == t0[m]
      {
        var n := notifications[k];
        if n.receiverUserId == userId && !n.isRead {
          notifications := notifications[k := n.(isRead := true)];
        }
      }
      assert notifications == AllRead(t0, userId);
      r := Ok(true);
    }

    /** DeleteNotificationAsync: a blank id is refused, an unknown id is not
        found; otherwise exactly that notification is removed. */
    method Delete(notificationId: string) returns (r: Result<bool>)
      requires Valid()
      modifies this
      ensures Valid()
      ensures Blank(notificationId) ==> r == Err(Invalid) && notifications == old(notifications)
      ensures !Blank(notificationId) && IndexOf(old(notifications), notificationId).None? ==>
                r == Err(NotFound) && notifications == old(notifications)
      ensures !Blank(notificationId) && IndexOf(old(notifications), notificationId).Some? ==>
                var i := IndexOf(old(notifications), notificationId).value;
                r == Ok(true) && notifications == old(notifications)[..i] + old(notifications)[i + 1..]
    {
      if Blank(notificationId) {
        return Err(Invalid);
      }
      var found := IndexOf(notifications, notificationId);
      if found.None? {
        return Err(NotFound);
      }
      var i := found.value;
      DeleteCounts(notifications, i);
      notifications := notifications[..i] + notifications[i + 1..];
      r := Ok(true);
    }

    /** SendNotificationToMultipleUsersAsync: an empty id list (or none) is
        refused; otherwise one unread notification per listed id is built,
        then each is stored. The message is not checked here. */
    method SendToMultiple(userIds: seq<string>, message: string, kind: NotificationType,
                          relatedEntityId: Option<string>, relatedEntityType: Option<string>,
                          ids: seq<string>, now: int)
      returns (r: Result<bool>)
      requires Valid() && |ids| == |userIds| && FreshIds(notifications, ids)
      modifies this
      ensures Valid()
      ensures userIds == [] ==> r == Err(Invalid) && notifications == old(notifications)
      ensures userIds != [] ==>
                && r == Ok(true)
                && notifications == old(notifications) + Fanout(userIds, ids, message, kind, relatedEntityId, relatedEntityType, now)
    {
      if userIds == [] {
        return Err(Invalid);
      }
      var batch := BuildFanout(userIds, ids, message, kind, relatedEntityId, relatedEntityType, now);
      FanoutAt(userIds, ids, message, kind, relatedEntityId, relatedEntityType, now);
      ghost var t0 := notifications;
      AppendFresh(t0, batch, ids);
      for k := 0 to |batch|
        invariant notifications == t0 + batch[..k]
      {
        notifications := notifications + [batch[k]];
        assert batch[..k + 1] == batch[..k] + [batch[k]];
      }
      assert batch[..|batch|] == batch;
      r := Ok(true);
    }
  }
}
