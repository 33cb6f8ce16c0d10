/**
 * The in-app inbox of src/app/core/services/notification.service.ts: the
 * latest notifications and an unread counter that is changed optimistically
 * before the backend is told.
 */
module Notifications {
  import opened Wrappers

  datatype NotificationType = NewFollower | AssetAlert | System

  datatype Sender = Sender(name: string, avatar_url: string)

  datatype AppNotification = AppNotification(
    id: string,
    kind: NotificationType,
    created_at: string,
    is_read: bool,
    sender: Option<Sender>)

  /** `list.filter(n => !n.is_read).length`. */
  function Unread(list: seq<AppNotification>): nat
  {
    if |list| == 0 then 0
    else Unread(list[..|list| - 1]) + (if list[|list| - 1].is_read then 0 else 1)
  }

  /** The unread notifications carrying `id`. */
  function UnreadWithId(list: seq<AppNotification>, id: string): nat
  {
    if |list| == 0 then 0
    else
      var n := list[|list| - 1];
      UnreadWithId(list[..|list| - 1], id) + (if !n.is_read && n.id == id then 1 else 0)
  }

  /** `n.id === id ? {...n, is_read: true} : n` over the list. */
  function MarkRead(list: seq<AppNotification>, id: string): (r: seq<AppNotification>)
    ensures |r| == |list|
  {
    if |list| == 0 then []
    else
      var n := list[|list| - 1];
      MarkRead(list[..|list| - 1], id) + [if n.id == id then n.(is_read := true) else n]
  }

  /** `{...n, is_read: true}` over the list. */
  function AllRead(list: seq<AppNotification>): (r: seq<AppNotification>)
    ensures |r| == |list|
  {
    if |list| == 0 then [] else AllRead(list[..|list| - 1]) + [list[|list| - 1].(is_read := true)]
  }

  predicate UniqueIds(list: seq<AppNotification>)
  {
    forall i, j :: 0 <= i < j < |list| ==> list[i].id != list[j].id
  }

  /** Only the notifications with that id become read; the others and the order stay. */
  lemma {:induction false} MarkReadPointwise(list: seq<AppNotification>, id: string)
    ensures forall i :: 0 <= i < |list| ==>
              MarkRead(list, id)[i] == (if list[i].id == id then list[i].(is_read := true) else list[i])
  {
    if |list| > 0 {
      MarkReadPointwise(list[..|list| - 1], id);
    }
  }

  /** Everything becomes read and nothing else changes. */
  lemma {:induction false} AllReadPointwise(list: seq<AppNotification>)
    ensures forall i :: 0 <= i < |list| ==> AllRead(list)[i] == list[i].(is_read := true)
  {
    if |list| > 0 {
      AllReadPointwise(list[..|list| - 1]);
    }
  }

  /** Marking one id read removes exactly the unread notifications with that id from the count. */
  lemma {:induction false} MarkReadCount(list: seq<AppNotification>, id: string)
    ensures Unread(MarkRead(list, id)) + UnreadWithId(list, id) == Unread(list)
  {
    if |list| > 0 {
      MarkReadCount(list[..|list| - 1], id);
      assert MarkRead(list, id)[..|list| - 1] == MarkRead(list[..|list| - 1], id);
    }
  }

  /** With distinct ids there is at most one unread notification per id, and one exactly when such a notification is there. */
  lemma {:induction false} UnreadWithIdUnique(list: seq<AppNotification>, id: string)
    requires UniqueIds(list)
    ensures UnreadWithId(list, id) <= 1
    ensures UnreadWithId(list, id) == 1 <==> exists i :: 0 <= i < |list| && list[i].id == id && !list[i].is_read
  {
    if |list| > 0 {
      var prefix := list[..|list| - 1];
      var n := list[|list| - 1];
      assert UniqueIds(prefix);
      UnreadWithIdUnique(prefix, id);
      if !n.is_read && n.id == id {
        assert forall i :: 0 <= i < |prefix| ==> prefix[i].id != id by {
          assert forall i :: 0 <= i < |prefix| ==> prefix[i] == list[i];
        }
      }
      if exists i :: 0 <= i < |list| && list[i].id == id && !list[i].is_read {
        var i :| 0 <= i < |list| && list[i].id == id && !list[i].is_read;
        if i < |prefix| {
          assert prefix[i] == list[i];
        }
      }
    }
  }

  /** Once everything is read nothing is unread, and marking everything read twice is marking it once. */
  lemma {:induction false} AllReadSettles(list: seq<AppNotification>)
    ensures Unread(AllRead(list)) == 0
    ensures AllRead(AllRead(list)) == AllRead(list)
  {
    if |list| > 0 {
      AllReadSettles(list[..|list| - 1]);
      assert AllRead(list)[..|list| - 1] == AllRead(list[..|list| - 1]);
    }
  }

  class NotificationService {
    var notifications: seq<AppNotification>
    var unreadCount: nat

    /** The counter matches the list. */
    predicate Consistent()
      reads this
    {
      unreadCount == Unread(notifications)
    }

    constructor ()
      ensures notifications == [] && unreadCount == 0 && Consistent()
    {
      notifications, unreadCount := [], 0;
    }

    /**
     * `loadNotifications`: without a user id nothing happens; a result
     * without error replaces the list and recounts the unread ones.
     */
    method LoadNotifications(myId: Option<string>, data: Option<seq<AppNotification>>)
      modifies this
      ensures myId.None? || myId.value == "" || data.None? ==>
                notifications == old(notifications) && unreadCount == old(unreadCount)
      ensures myId.Some? && myId.value != "" && data.Some? ==>
                notifications == data.value && Consistent()
    {
      if myId.None? || myId.value == "" {
        return;
      }
      if data.Some? {
        notifications := data.value;
        unreadCount := Unread(data.value);
      }
    }

    /**
     * `markAsRead`: the notifications with that id become read and the
     * counter drops by one, floored at 0, whether or not one of them was
     * unread. From a consistent state with distinct ids, the counter stays
     * right exactly when the notification was there and unread.
     */
    method MarkAsRead(id: string)
      modifies this
      ensures notifications == MarkRead(old(notifications), id)
      ensures unreadCount == if old(unreadCount) == 0 then 0 else old(unreadCount) - 1
      ensures old(Consistent()) && UniqueIds(old(notifications)) && old(unreadCount) > 0 ==>
                (Consistent() <==> exists i :: 0 <= i < |old(notifications)| &&
                                     old(notifications)[i].id == id && !old(notifications)[i].is_read)
    {
      MarkReadCount(notifications, id);
      if UniqueIds(notifications) {
        UnreadWithIdUnique(notifications, id);
      }
      notifications := MarkRead(notifications, id);
      unreadCount := if unreadCount == 0 then 0 else unreadCount - 1;
    }

    /** `markAllRead`: everything read, the counter at 0. */
    method MarkAllRead()
      modifies this
      ensures notifications == AllRead(old(notifications)) && unreadCount == 0
      ensures Consistent()
    {
      AllReadSettles(notifications);
      notifications := AllRead(notifications);
      unreadCount := 0;
    }
  }

  /**
   * The counter drifts: with one unread and one read notification, marking the
   * read one again leaves one unread notification but a counter of 0.
   */
  lemma MarkAsReadCanDrift(unread: AppNotification, read: AppNotification)
    requires !unread.is_read && read.is_read && unread.id != read.id
    ensures var list := [unread, read];
            Unread(list) == 1 && Unread(MarkRead(list, read.id)) == 1
  {
    var list := [unread, read];
    assert list[..1] == [unread];
    assert [unread][..0] == [];
    assert Unread([unread]) == 1;
    assert Unread(list) == 1;
    MarkReadPointwise(list, read.id);
    var m := MarkRead(list, read.id);
    assert m[0] == unread && m[1] == read;
    assert m == list;
  }
}
