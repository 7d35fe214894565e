/** The notification bell (components/notification-bell.tsx): the user's ten newest
    notifications, an unread counter shown as a badge, a realtime subscription to new
    notifications, and "mark as read" for one item or for all of them. */
module Notifications {
  import opened Common
  import opened Schema
  import opened Backend

  /** `.limit(10)` of the fetch. */
  const PageSize: nat := 10

  predicate IsUnread(n: Notification)
  {
    !n.read
  }

  /** The number of unread items, `filter((n) => !n.read).length`. */
  function CountUnread(items: seq<Notification>): nat
  {
    Count(items, IsUnread)
  }

  /** Unread items carrying this id. */
  function UnreadWithId(id: Id): Notification -> bool
  {
    (n: Notification) => !n.read && n.id == id
  }

  /** Notifications addressed to the user. */
  function ForUser(me: Id): Notification -> bool
  {
    (n: Notification) => n.userId == me
  }

  /** fetchNotifications: the user's ten newest notifications, newest first: the i-th
      listed is the i-th from the end of the user's rows in creation order. */
  function Latest(table: seq<Notification>, me: Id): (r: seq<Notification>)
    ensures |r| <= PageSize
    ensures forall i :: 0 <= i < |r| ==> r[i] in table && r[i].userId == me
    ensures |r| == PageSize || forall i :: 0 <= i < |table| && table[i].userId == me ==> table[i] in r
    ensures var mine := Filter(table, ForUser(me));
      && |r| == (if |mine| < PageSize then |mine| else PageSize)
      && forall i :: 0 <= i < |r| ==> r[i] == mine[|mine| - 1 - i]
  {
    var all := NewestFirst(table, ForUser(me));
    assert all == Reverse(Filter(table, ForUser(me)));
    assert forall i :: 0 <= i < |Take(all, PageSize)| ==> Take(all, PageSize)[i] in all;
    Take(all, PageSize)
  }

  /** markAllAsRead on the local list: every item becomes read. */
  function AllRead(items: seq<Notification>): (r: seq<Notification>)
    ensures |r| == |items|
    ensures forall i :: 0 <= i < |items| ==> r[i] == items[i].(read := true)
  {
    UpdateWhere(items, (n: Notification) => true, (n: Notification) => n.(read := true))
  }

  /** After markAllAsRead nothing is unread. */
  lemma NothingUnreadAfterAllRead(items: seq<Notification>)
    ensures CountUnread(AllRead(items)) == 0
  {
    CountNone(AllRead(items), IsUnread);
  }

  /** Marking one id read removes from the unread count exactly the unread items with
      that id. */
  lemma {:induction false} UnreadAfterMark(items: seq<Notification>, id: Id)
    ensures CountUnread(MarkNotificationRows(items, id)) == CountUnread(items) - Count(items, UnreadWithId(id))
  {
    UnreadAfterMarkPointwise(items, MarkNotificationRows(items, id), id);
  }

  lemma {:induction false} UnreadAfterMarkPointwise(s: seq<Notification>, t: seq<Notification>, id: Id)
    requires |s| == |t|
    requires forall i :: 0 <= i < |s| ==> t[i].read == (s[i].read || s[i].id == id)
    ensures Count(t, IsUnread) == Count(s, IsUnread) - Count(s, UnreadWithId(id))
  {
    if s != [] {
      UnreadAfterMarkPointwise(s[1..], t[1..], id);
    }
  }

  /** The counter update of markAsRead as written: one less, never below zero, whatever
      the item's state was. */
  function MarkAsReadCountAsWritten(unread: int): (r: int)
    ensures r >= 0
    ensures unread > 0 ==> r == unread - 1
    ensures unread <= 0 ==> r == 0
  {
    if unread - 1 > 0 then unread - 1 else 0
  }

  /** Clicking an item that is already read still lowers the counter: with one unread
      item `a` and one read item `b`, marking `b` leaves `a` unread and the badge at 0. */
  lemma MarkAsReadAsWrittenDrifts(me: Id)
    ensures var a := Notification("a", me, "", "", false);
      var b := Notification("b", me, "", "", true);
      var items := [a, b];
      && CountUnread(items) == 1
      && CountUnread(MarkNotificationRows(items, "b")) == 1
      && MarkAsReadCountAsWritten(CountUnread(items)) == 0
  {
    var a := Notification("a", me, "", "", false);
    var b := Notification("b", me, "", "", true);
    var items := [a, b];
    var marked := MarkNotificationRows(items, "b");
    assert marked == items;
    assert items[1..] == [b] && [b][1..] == [];
  }

  /** The counter update markAsRead intends: one less for each unread item the click
      marked, so a counter that matched the list still matches it. */
  function MarkAsReadCount(items: seq<Notification>, id: Id, unread: int): (r: int)
    ensures unread == CountUnread(items) ==> r == CountUnread(MarkNotificationRows(items, id))
    ensures 0 <= unread ==> r <= unread
  {
    UnreadAfterMark(items, id);
    unread - Count(items, UnreadWithId(id))
  }

  /** The bell of user `me`. */
  class NotificationBell {
    const store: Store
    const me: Id
    var notifications: seq<Notification>
    var unreadCount: int

    /** The badge counts the unread items of the list. */
    ghost predicate Valid()
      reads this
    {
      unreadCount == CountUnread(notifications)
    }

    constructor (store: Store, me: Id)
      ensures this.store == store && this.me == me
      ensures notifications == [] && unreadCount == 0 && Valid()
    {
      this.store := store;
      this.me := me;
      notifications, unreadCount := [], 0;
    }

    /** fetchNotifications: on success the list becomes the ten newest notifications and
        the counter their number of unread ones; a failure changes nothing. */
    method Fetch(fails: bool)
      modifies this`notifications, this`unreadCount
      ensures fails ==> notifications == old(notifications) && unreadCount == old(unreadCount)
      ensures !fails ==> notifications == Latest(store.notifications, me) && Valid()
    {
      if !fails {
        notifications := Latest(store.notifications, me);
        unreadCount := CountUnread(notifications);
      }
    }

    /** The subscription's callback: a notification for this user goes first and the
        counter goes up by one, which keeps the badge right for a notification that
        arrives unread. */
    method OnInsert(n: Notification)
      requires n.userId == me
      modifies this`notifications, this`unreadCount
      ensures notifications == [n] + old(notifications) && unreadCount == old(unreadCount) + 1
      ensures old(Valid()) && IsUnread(n) ==> Valid()
    {
      assert ([n] + notifications)[1..] == notifications;
      notifications := [n] + notifications;
      unreadCount := unreadCount + 1;
    }

    /** markAsRead (an item was clicked, read or not): the row is marked read; on success
        the local item is marked too and the counter goes one down, never below zero. The
        badge stays right when the click marked exactly one unread item; a click on an
        item that was already read makes it drift (MarkAsReadAsWrittenDrifts). */
    method MarkAsRead(id: Id, fails: bool) returns (ok: bool)
      modifies store`notifications, this`notifications, this`unreadCount
      ensures ok == !fails
      ensures store.notifications == if ok then MarkNotificationRows(old(store.notifications), id) else old(store.notifications)
      ensures notifications == if ok then MarkNotificationRows(old(notifications), id) else old(notifications)
      ensures unreadCount == if ok then MarkAsReadCountAsWritten(old(unreadCount)) else old(unreadCount)
      ensures old(Valid()) && Count(old(notifications), UnreadWithId(id)) == 1 ==> Valid()
    {
      ok := store.MarkNotificationRead(id, fails);
      if ok {
        UnreadAfterMark(notifications, id);
        unreadCount := MarkAsReadCountAsWritten(unreadCount);
        notifications := MarkNotificationRows(notifications, id);
      }
    }

    /** markAllAsRead: the user's unread rows are marked read; on success every local item
        is read and the counter is 0. */
    method MarkAllAsRead(fails: bool) returns (ok: bool)
      modifies store`notifications, this`notifications, this`unreadCount
      ensures ok == !fails
      ensures store.notifications == if ok then MarkUserNotificationRows(old(store.notifications), me) else old(store.notifications)
      ensures ok ==> notifications == AllRead(old(notifications)) && unreadCount == 0 && Valid()
      ensures !ok ==> notifications == old(notifications) && unreadCount == old(unreadCount)
    {
      ok := store.MarkUserNotificationsRead(me, fails);
      if ok {
        NothingUnreadAfterAllRead(notifications);
        notifications := AllRead(notifications);
        unreadCount := 0;
      }
    }
  }
}
