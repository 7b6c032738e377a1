/** The notification bell: newest-first list, unread badge, and mark-all-read. */
module NotificationBellView {
  import opened Seqs
  import opened Text
  import opened Auth

  datatype Notification = Notification(id: string, message: string, isRead: bool)

  predicate IsUnread(n: Notification) {
    !n.isRead
  }

  /** `notifications.filter(n => !n.isRead).length` */
  function UnreadCount(ns: seq<Notification>): (c: nat)
    ensures c <= |ns|
  {
    |Filter(ns, IsUnread)|
  }

  /** `prev.map(n => ({ ...n, isRead: true }))` */
  function MarkAllRead(ns: seq<Notification>): seq<Notification> {
    Map(ns, (n: Notification) => n.(isRead := true))
  }

  /** The badge and the mark-all button appear exactly when some notification is unread. */
  lemma {:induction false} UnreadCountPositiveIff(ns: seq<Notification>)
    ensures UnreadCount(ns) > 0 <==> exists i :: 0 <= i < |ns| && !ns[i].isRead
  {
    if exists i :: 0 <= i < |ns| && !ns[i].isRead {
      var i :| 0 <= i < |ns| && !ns[i].isRead;
      FilterMembership(ns, IsUnread, ns[i]);
    }
    if UnreadCount(ns) > 0 {
      var f := Filter(ns, IsUnread);
      assert f[0] in f;
    }
  }

  /** A pushed notification goes in front and raises the count by one exactly when it is unread. */
  lemma UnreadCountPrepend(n: Notification, ns: seq<Notification>)
    ensures UnreadCount([n] + ns) == UnreadCount(ns) + if n.isRead then 0 else 1
  {
    FilterConcat([n], ns, IsUnread);
    assert [n][1..] == [];
  }

  /**
   * Marking all read keeps every notification in place and makes each one read, so none is
   * left unread and marking again changes nothing.
   */
  lemma MarkAllReadClears(ns: seq<Notification>)
    ensures |MarkAllRead(ns)| == |ns|
    ensures forall i :: 0 <= i < |ns| ==>
      MarkAllRead(ns)[i].id == ns[i].id && MarkAllRead(ns)[i].message == ns[i].message
    ensures forall i :: 0 <= i < |ns| ==> MarkAllRead(ns)[i].isRead
    ensures UnreadCount(MarkAllRead(ns)) == 0
    ensures MarkAllRead(MarkAllRead(ns)) == MarkAllRead(ns)
  {
    var m := MarkAllRead(ns);
    UnreadCountPositiveIff(m);
  }

  class NotificationBell {
    const user: AuthUser
    var notifications: seq<Notification>
    var isOpen: bool

    /** The list is fetched and the push handler registered only for a user with a token. */
    predicate Subscribed() {
      Truthy(user.token)
    }

    constructor (user: AuthUser)
      ensures this.user == user && notifications == [] && !isOpen
    {
      this.user := user;
      notifications := [];
      isOpen := false;
    }

    method OnNotificationsLoaded(ns: seq<Notification>)
      requires Subscribed()
      modifies this`notifications
      ensures notifications == ns
    {
      notifications := ns;
    }

    /** `new_notification` pushes to the front: newest first. */
    method OnNewNotification(n: Notification)
      requires Subscribed()
      modifies this`notifications
      ensures notifications == [n] + old(notifications)
      ensures UnreadCount(notifications) == UnreadCount(old(notifications)) + if n.isRead then 0 else 1
    {
      UnreadCountPrepend(n, notifications);
      notifications := [n] + notifications;
    }

    /** `handleMarkAllRead`: after the server accepts, nothing is unread; a failure changes nothing. */
    method MarkAllAsRead(ok: bool)
      modifies this`notifications
      ensures ok ==> notifications == MarkAllRead(old(notifications)) && UnreadCount(notifications) == 0
      ensures !ok ==> notifications == old(notifications)
    {
      if ok {
        MarkAllReadClears(notifications);
        notifications := MarkAllRead(notifications);
      }
    }

    method Toggle()
      modifies this`isOpen
      ensures isOpen == !old(isOpen)
    {
      isOpen := !isOpen;
    }

    /** A mouse-down outside the dropdown closes it. */
    method ClickOutside()
      modifies this`isOpen
      ensures !isOpen
    {
      isOpen := false;
    }
  }
}
