/**
 * The browser's notification cache: the fetched list and an unread
 * counter. The counter is recomputed on every fetch and otherwise adjusted
 * locally: one less, floored at zero, per notification marked, and zero
 * after marking all. A request's outcome is an input.
 */
module NotificationContext {
  import opened Wrappers
  import opened Seqs
  import opened NotificationModel

  predicate Unread(n: Notification) {
    !n.read
  }

  /** `notifications.filter(n => !n.read).length`. */
  function CountUnread(ns: seq<Notification>): (c: nat)
    ensures c <= |ns|
  {
    |Filter(ns, Unread)|
  }

  /** The count is zero exactly when every notification is read. */
  lemma {:induction false} CountUnreadZero(ns: seq<Notification>)
    ensures CountUnread(ns) == 0 <==> forall i :: 0 <= i < |ns| ==> ns[i].read
  {
    if ns != [] {
      CountUnreadZero(ns[1..]);
      assert forall i :: 1 <= i < |ns| ==> ns[i] == ns[1..][i - 1];
    }
  }

  /** `notifications.map(n => n._id === id ? { ...n, read: true } : n)`. */
  function MarkIdRead(ns: seq<Notification>, id: string): (r: seq<Notification>)
    ensures |r| == |ns|
    ensures forall i :: 0 <= i < |ns| ==> r[i] == if ns[i].id == id then MarkedRead(ns[i]) else ns[i]
  {
    Map(ns, (n: Notification) => if n.id == id then MarkedRead(n) else n)
  }

  /** `notifications.map(n => ({ ...n, read: true }))`. */
  function MarkEveryRead(ns: seq<Notification>): (r: seq<Notification>)
    ensures |r| == |ns|
    ensures forall i :: 0 <= i < |ns| ==> r[i] == MarkedRead(ns[i])
  {
    Map(ns, MarkedRead)
  }

  /** How many unread notifications carry this id. */
  function UnreadWithId(ns: seq<Notification>, id: string): nat {
    if ns == [] then 0
    else (if ns[0].id == id && !ns[0].read then 1 else 0) + UnreadWithId(ns[1..], id)
  }

  /** Marking an id read takes exactly its unread notifications out of the count. */
  lemma {:induction false} MarkIdReadCount(ns: seq<Notification>, id: string)
    ensures CountUnread(MarkIdRead(ns, id)) == CountUnread(ns) - UnreadWithId(ns, id)
  {
    if ns != [] {
      var r := MarkIdRead(ns, id);
      assert r[1..] == MarkIdRead(ns[1..], id);
      MarkIdReadCount(ns[1..], id);
      assert Filter(r, Unread) == (if Unread(r[0]) then [r[0]] else []) + Filter(r[1..], Unread);
      assert Filter(ns, Unread) == (if Unread(ns[0]) then [ns[0]] else []) + Filter(ns[1..], Unread);
    }
  }

  /** After marking all, nothing is unread. */
  lemma MarkEveryReadCount(ns: seq<Notification>)
    ensures CountUnread(MarkEveryRead(ns)) == 0
  {
    CountUnreadZero(MarkEveryRead(ns));
  }

  class NotificationCache {
    var notifications: seq<Notification>
    var unreadCount: int
    var loading: bool

    /** The counter agrees with the list it summarises. */
    ghost predicate InSync()
      reads this
    {
      unreadCount == CountUnread(notifications)
    }

    constructor ()
      ensures notifications == [] && unreadCount == 0 && !loading
      ensures InSync()
    {
      notifications := [];
      unreadCount := 0;
      loading := false;
    }

    /** `getNotifications()`: list and counter both come from the response. */
    method GetNotifications(response: Option<seq<Notification>>)
      modifies this
      ensures response.Some? ==> notifications == response.value && unreadCount == CountUnread(response.value)
      ensures response.Some? ==> InSync()
      ensures response.None? ==> notifications == old(notifications) && unreadCount == old(unreadCount)
      ensures !loading
    {
      loading := true;
      if response.Some? {
        notifications := response.value;
        unreadCount := CountUnread(response.value);
      }
      loading := false;
    }

    /** `markAsRead(id)`: `ok` says whether the request succeeded. */
    method MarkAsRead(id: string, ok: bool)
      modifies this
      ensures ok ==> notifications == MarkIdRead(old(notifications), id)
      ensures ok ==> unreadCount == if old(unreadCount) - 1 > 0 then old(unreadCount) - 1 else 0
      ensures !ok ==> notifications == old(notifications) && unreadCount == old(unreadCount)
      ensures loading == old(loading)
      ensures old(unreadCount) >= 0 ==> unreadCount >= 0
    {
      if ok {
        notifications := MarkIdRead(notifications, id);
        unreadCount := if unreadCount - 1 > 0 then unreadCount - 1 else 0;
      }
    }

    /** `markAllAsRead()`. */
    method MarkAllAsRead(ok: bool)
      modifies this
      ensures ok ==> notifications == MarkEveryRead(old(notifications)) && unreadCount == 0
      ensures ok ==> InSync()
      ensures !ok ==> notifications == old(notifications) && unreadCount == old(unreadCount)
      ensures loading == old(loading)
    {
      if ok {
        notifications := MarkEveryRead(notifications);
        unreadCount := 0;
        MarkEveryReadCount(old(notifications));
      }
    }
  }

  /**
   * Marking the one unread notification with an id keeps the counter in
   * step with the list.
   */
  lemma MarkUnreadKeepsSync(ns: seq<Notification>, id: string, count: int)
    requires count == CountUnread(ns) && UnreadWithId(ns, id) == 1
    ensures (if count - 1 > 0 then count - 1 else 0) == CountUnread(MarkIdRead(ns, id))
  {
    MarkIdReadCount(ns, id);
  }

  /**
   * Marking an id none of whose notifications is unread still takes one
   * off the counter, which then falls below the true count unless it was
   * already zero.
   */
  lemma MarkReadAgainDrifts(ns: seq<Notification>, id: string, count: int)
    requires count == CountUnread(ns) && UnreadWithId(ns, id) == 0 && count > 0
    ensures (if count - 1 > 0 then count - 1 else 0) == CountUnread(MarkIdRead(ns, id)) - 1
  {
    MarkIdReadCount(ns, id);
  }

  /** A concrete list on which the drift shows: one read, one unread notification. */
  lemma DriftExample(a: Notification, b: Notification)
    requires a.read && !b.read && a.id != b.id
    ensures CountUnread([a, b]) == 1
    ensures CountUnread(MarkIdRead([a, b], a.id)) == 1
  {
    assert UnreadWithId([b], a.id) == 0;
    assert UnreadWithId([a, b], a.id) == 0;
    MarkIdReadCount([a, b], a.id);
    assert [a, b][1..] == [b];
    assert Filter([a, b], Unread) == [] + Filter([b], Unread);
    assert [b][1..] == [];
    assert Filter([b], Unread) == [b];
  }
}
