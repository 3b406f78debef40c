/** The notification centre of app/notifications/page.tsx: a list seeded from
    the mock notifications (a parameter) that the page marks read and prunes,
    with the unread count driving which buttons are offered. */
module NotificationsPage {
  import opened Seqs
  import opened Types
  import opened Records
  import opened Store

  function DeleteNotifications(s: seq<Notification>, id: string): seq<Notification>
  {
    DeleteById(s, NotificationId, id)
  }

  /** The header's "mark all as read" button is offered only while something is unread. */
  predicate MarkAllOffered(s: seq<Notification>)
  {
    UnreadCount(s) > 0
  }

  /** An item's own "mark as read" button is offered only while it is unread. */
  predicate MarkOneOffered(n: Notification)
  {
    !n.isRead
  }

  class Page {
    var notifications: seq<Notification>

    constructor (initial: seq<Notification>)
      ensures notifications == initial
    {
      notifications := initial;
    }

    method MarkAsRead(id: string)
      modifies this`notifications
      ensures notifications == MarkRead(old(notifications), id)
      ensures UnreadCount(notifications) <= UnreadCount(old(notifications))
    {
      MarkReadNeverAddsUnread(notifications, id);
      notifications := MarkRead(notifications, id);
    }

    method MarkAllAsRead()
      modifies this`notifications
      ensures notifications == MarkAllRead(old(notifications))
      ensures UnreadCount(notifications) == 0 && !MarkAllOffered(notifications)
    {
      MarkAllReadSpec(notifications);
      notifications := MarkAllRead(notifications);
    }

    method DeleteNotification(id: string)
      modifies this`notifications
      ensures notifications == DeleteNotifications(old(notifications), id)
    {
      notifications := DeleteNotifications(notifications, id);
    }

    /** The count shown in the header badge. */
    method Unread() returns (n: nat)
      ensures n == UnreadCount(notifications) && n <= |notifications|
    {
      n := UnreadCount(notifications);
    }
  }

  /** Nothing is unread exactly when every notification is read. */
  lemma {:induction false} UnreadCountZero(s: seq<Notification>)
    ensures UnreadCount(s) == 0 <==> forall i :: 0 <= i < |s| ==> s[i].isRead
  {
    if s != [] {
      UnreadCountZero(s[1..]);
      assert forall i :: 1 <= i < |s| ==> s[i] == s[1..][i - 1];
    }
  }

  /** The mark-all button is offered exactly when some item offers its own button. */
  lemma MarkAllOfferedIffSomeUnread(s: seq<Notification>)
    ensures MarkAllOffered(s) <==> exists i :: 0 <= i < |s| && MarkOneOffered(s[i])
  {
    UnreadCountZero(s);
  }

  /** Marking one id read never raises the unread count. */
  lemma {:induction false} MarkReadNeverAddsUnread(s: seq<Notification>, id: string)
    ensures UnreadCount(MarkRead(s, id)) <= UnreadCount(s)
  {
    if s != [] {
      MarkReadNeverAddsUnread(s[1..], id);
      assert MarkRead(s, id) == [MarkRead(s, id)[0]] + MarkRead(s[1..], id);
    }
  }

  /** Deleting removes exactly the notifications with that id and keeps the others in order. */
  lemma DeleteNotificationsSpec(s: seq<Notification>, id: string)
    ensures forall n :: n in DeleteNotifications(s, id) <==> n in s && n.id != id
    ensures IsSubsequence(DeleteNotifications(s, id), s)
    ensures DeleteNotifications(DeleteNotifications(s, id), id) == DeleteNotifications(s, id)
  {
    DeleteByIdSpec(s, NotificationId, id);
    DeleteByIdIdempotent(s, NotificationId, id);
  }
}
