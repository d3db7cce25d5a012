/** The notification store: a list of notifications and a denormalised count of the unread ones. */
module Notifications {
  import opened Wrappers
  import Lists

  datatype NotificationKind = Course | Internship | Certificate | Message | Like | Comment

  datatype Notification = Notification(
    id: string,
    kind: NotificationKind,
    title: string,
    message: string,
    read: bool,
    createdAt: string,
    link: Option<string>)

  predicate IsUnread(n: Notification) {
    !n.read
  }

  /** `notifications.filter(n => !n.read).length`. */
  function UnreadCount(ns: seq<Notification>): (r: nat)
    ensures r <= |ns|
    ensures r == 0 <==> forall i :: 0 <= i < |ns| ==> ns[i].read
  {
    var unread := Lists.Filter(ns, IsUnread);
    assert (exists i :: 0 <= i < |ns| && !ns[i].read) ==> unread != [] by {
      if exists i :: 0 <= i < |ns| && !ns[i].read {
        var i :| 0 <= i < |ns| && !ns[i].read;
        assert ns[i] in unread;
      }
    }
    assert unread != [] ==> exists i :: 0 <= i < |ns| && !ns[i].read by {
      if unread != [] {
        assert unread[0] in ns;
      }
    }
    |unread|
  }

  /** The list `markAsRead(id)` produces: every entry with that id read, the others untouched. */
  function MarkRead(ns: seq<Notification>, id: string): (r: seq<Notification>)
    ensures |r| == |ns|
    ensures forall i :: 0 <= i < |ns| && ns[i].id == id ==> r[i] == ns[i].(read := true)
    ensures forall i :: 0 <= i < |ns| && ns[i].id != id ==> r[i] == ns[i]
  {
    Lists.Patch(ns, (n: Notification) => n.id == id, (n: Notification) => n.(read := true))
  }

  /** The list `markAllAsRead` produces: every entry read, nothing else changed. */
  function MarkAllRead(ns: seq<Notification>): (r: seq<Notification>)
    ensures |r| == |ns|
    ensures forall i :: 0 <= i < |ns| ==> r[i] == ns[i].(read := true)
  {
    Lists.Map(ns, (n: Notification) => n.(read := true))
  }

  /** Prepending an entry raises the number of unread entries by one exactly when that entry is unread. */
  lemma UnreadAfterPrepend(n: Notification, ns: seq<Notification>)
    ensures UnreadCount([n] + ns) == UnreadCount(ns) + (if n.read then 0 else 1)
  {
    Lists.FilterAppend([n], ns, IsUnread);
  }

  /** How `markAsRead(id)` treats the head entry, for the inductive proofs below. */
  lemma MarkReadStep(ns: seq<Notification>, id: string)
    requires ns != []
    ensures UnreadCount(ns) == UnreadCount(ns[1..]) + (if ns[0].read then 0 else 1)
    ensures UnreadCount(MarkRead(ns, id))
         == UnreadCount(MarkRead(ns[1..], id)) + (if ns[0].read || ns[0].id == id then 0 else 1)
  {
    var r := MarkRead(ns, id);
    assert r == [r[0]] + MarkRead(ns[1..], id);
    assert ns == [ns[0]] + ns[1..];
    UnreadAfterPrepend(r[0], MarkRead(ns[1..], id));
    UnreadAfterPrepend(ns[0], ns[1..]);
  }

  /** Marking one id read never raises the number of unread entries. */
  lemma {:induction false} MarkReadNeverRaisesUnread(ns: seq<Notification>, id: string)
    ensures UnreadCount(MarkRead(ns, id)) <= UnreadCount(ns)
  {
    if ns != [] {
      MarkReadStep(ns, id);
      MarkReadNeverRaisesUnread(ns[1..], id);
    }
  }

  /** Every entry with this id is already read. */
  predicate AllReadWithId(ns: seq<Notification>, id: string) {
    forall i :: 0 <= i < |ns| && ns[i].id == id ==> ns[i].read
  }

  /** `markAsRead(id)` keeps the unread count exactly when every entry with that id was already read;
      otherwise it lowers it. */
  lemma {:induction false} MarkReadKeepsCountIffNoMatch(ns: seq<Notification>, id: string)
    ensures UnreadCount(MarkRead(ns, id)) == UnreadCount(ns) <==> AllReadWithId(ns, id)
  {
    if ns != [] {
      var tail := ns[1..];
      MarkReadStep(ns, id);
      MarkReadNeverRaisesUnread(tail, id);
      if ns[0].id == id && !ns[0].read {
        assert !AllReadWithId(ns, id);
      } else {
        MarkReadKeepsCountIffNoMatch(tail, id);
        assert AllReadWithId(ns, id) <==> AllReadWithId(tail, id) by {
          assert forall i :: 0 <= i < |tail| ==> tail[i] == ns[i + 1];
        }
      }
    }
  }

  /** `markAsRead` is idempotent. */
  lemma MarkReadIdempotent(ns: seq<Notification>, id: string)
    ensures MarkRead(MarkRead(ns, id), id) == MarkRead(ns, id)
  {
  }

  /** `markAsRead` with an id no entry carries leaves the list as it was. */
  lemma MarkReadUnknownId(ns: seq<Notification>, id: string)
    requires forall i :: 0 <= i < |ns| ==> ns[i].id != id
    ensures MarkRead(ns, id) == ns
  {
  }

  /** After `markAllAsRead` nothing is unread, which is why it may set the count to 0 outright. */
  lemma MarkAllLeavesNothingUnread(ns: seq<Notification>)
    ensures UnreadCount(MarkAllRead(ns)) == 0
  {
  }

  /** The store: `notifications` and `unreadCount`, rewritten together by each action. */
  class NotificationStore {
    var notifications: seq<Notification>
    var unreadCount: int

    /** The intended invariant: the count is the number of unread entries. */
    ghost predicate CountIsExact()
      reads this
    {
      unreadCount == UnreadCount(notifications)
    }

    constructor ()
      ensures notifications == [] && unreadCount == 0
      ensures CountIsExact()
    {
      notifications := [];
      unreadCount := 0;
    }

    method SetNotifications(ns: seq<Notification>)
      modifies this
      ensures notifications == ns
      ensures unreadCount == UnreadCount(ns)
      ensures CountIsExact()
    {
      notifications := ns;
      unreadCount := |Lists.Filter(ns, IsUnread)|;
    }

    /** Prepends and adds one to the count whatever the entry's `read` flag. */
    method AddNotification(n: Notification)
      modifies this
      ensures notifications == [n] + old(notifications)
      ensures unreadCount == old(unreadCount) + 1
      ensures old(CountIsExact()) ==> (CountIsExact() <==> !n.read)
    {
      UnreadAfterPrepend(n, notifications);
      notifications := [n] + notifications;
      unreadCount := unreadCount + 1;
    }

    method MarkAsRead(id: string)
      modifies this
      ensures notifications == MarkRead(old(notifications), id)
      ensures CountIsExact()
      ensures unreadCount <= UnreadCount(old(notifications))
    {
      var updated := MarkRead(notifications, id);
      MarkReadNeverRaisesUnread(notifications, id);
      notifications := updated;
      unreadCount := |Lists.Filter(updated, IsUnread)|;
    }

    method MarkAllAsRead()
      modifies this
      ensures notifications == MarkAllRead(old(notifications))
      ensures unreadCount == 0
      ensures CountIsExact()
    {
      MarkAllLeavesNothingUnread(notifications);
      notifications := MarkAllRead(notifications);
      unreadCount := 0;
    }
  }
}
