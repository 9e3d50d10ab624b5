/** The notification store: the list of notifications, the unread counter
    and the loading flag, with the read-state updates applied after the
    server has acknowledged them. */
module Notifications {
  import opened Common

  datatype Kind = NewSubmission | Graded

  datatype Notification = Notification(
    id: string,
    userId: string,
    kind: Kind,
    title: string,
    message: Option<string>,
    referenceId: Option<string>,
    isRead: bool,
    createdAt: string)

  /** What the server returns for a fetch: the list and its unread count. */
  datatype Response = Response(notifications: seq<Notification>, unreadCount: int)

  /** The store's observable state. */
  datatype Inbox = Inbox(notifications: seq<Notification>, unreadCount: int)

  /** The position of the first notification with the given id, as the
      array's find locates it. */
  function FindIndex(ns: seq<Notification>, id: string): (r: Option<nat>)
    ensures r.Some? ==> r.value < |ns| && ns[r.value].id == id
    ensures r.Some? ==> forall j :: 0 <= j < r.value ==> ns[j].id != id
    ensures r.None? ==> forall j :: 0 <= j < |ns| ==> ns[j].id != id
  {
    if ns == [] then None
    else if ns[0].id == id then Some(0)
    else match FindIndex(ns[1..], id)
      case None => None
      case Some(i) => Some(i + 1)
  }

  /** Marking one notification read: when the first notification with the
      id is unread, it alone becomes read and the counter drops by one,
      clamped at zero; when it is already read or there is none, nothing
      changes. */
  function ReadOne(inbox: Inbox, id: string): (r: Inbox)
    ensures |r.notifications| == |inbox.notifications|
    ensures match FindIndex(inbox.notifications, id)
      case Some(i) =>
        if inbox.notifications[i].isRead then r == inbox
        else
          && r.notifications == inbox.notifications[i := inbox.notifications[i].(isRead := true)]
          && r.unreadCount == if inbox.unreadCount >= 1 then inbox.unreadCount - 1 else 0
      case None => r == inbox
  {
    match FindIndex(inbox.notifications, id)
    case Some(i) =>
      var n := inbox.notifications[i];
      if n.isRead then inbox
      else Inbox(inbox.notifications[i := n.(isRead := true)], ClampZero(inbox.unreadCount - 1))
    case None => inbox
  }

  /** Marking one notification read twice has the effect of marking it
      once. */
  lemma ReadOneIdempotent(inbox: Inbox, id: string)
    ensures ReadOne(ReadOne(inbox, id), id) == ReadOne(inbox, id)
  {
    var once := ReadOne(inbox, id);
    match FindIndex(inbox.notifications, id)
    case None =>
    case Some(i) =>
      assert forall j :: 0 <= j < |once.notifications| ==> once.notifications[j].id == inbox.notifications[j].id;
      assert FindIndex(once.notifications, id) == Some(i);
  }

  /** The first notification with the id is read afterwards, and every
      other notification is untouched. */
  lemma ReadOneEffect(inbox: Inbox, id: string, j: nat)
    requires j < |inbox.notifications|
    ensures FindIndex(inbox.notifications, id) == Some(j) ==> ReadOne(inbox, id).notifications[j].isRead
    ensures FindIndex(inbox.notifications, id) != Some(j) ==>
      ReadOne(inbox, id).notifications[j] == inbox.notifications[j]
  {
  }

  /** Number of unread notifications in a list. */
  function CountUnread(ns: seq<Notification>): nat {
    if ns == [] then 0 else (if ns[0].isRead then 0 else 1) + CountUnread(ns[1..])
  }

  /** Setting the read flag of one unread notification lowers the number of
      unread notifications by one. */
  lemma {:induction false} CountAfterRead(ns: seq<Notification>, i: nat)
    requires i < |ns| && !ns[i].isRead
    ensures CountUnread(ns) >= 1
    ensures CountUnread(ns[i := ns[i].(isRead := true)]) == CountUnread(ns) - 1
  {
    if i > 0 {
      CountAfterRead(ns[1..], i - 1);
      assert ns[i := ns[i].(isRead := true)][1..] == ns[1..][i - 1 := ns[i].(isRead := true)];
    }
  }

  /** A counter that agrees with the list stays in agreement after a
      notification is marked read; the clamp never comes into play. */
  lemma ReadOneKeepsCount(inbox: Inbox, id: string)
    requires inbox.unreadCount == CountUnread(inbox.notifications)
    ensures ReadOne(inbox, id).unreadCount == CountUnread(ReadOne(inbox, id).notifications)
  {
    match FindIndex(inbox.notifications, id)
    case None =>
    case Some(i) =>
      if !inbox.notifications[i].isRead {
        CountAfterRead(inbox.notifications, i);
      }
  }

  /** Every notification with its read flag set and nothing else changed. */
  function ReadAll(ns: seq<Notification>): (r: seq<Notification>)
    ensures |r| == |ns|
    ensures forall i :: 0 <= i < |r| ==> r[i].isRead && r[i].(isRead := ns[i].isRead) == ns[i]
  {
    seq(|ns|, i requires 0 <= i < |ns| => ns[i].(isRead := true))
  }

  /** After all notifications are marked read none is unread, so a counter
      of zero agrees with the list. */
  lemma {:induction false} ReadAllNoneUnread(ns: seq<Notification>)
    ensures CountUnread(ReadAll(ns)) == 0
  {
    if ns != [] {
      ReadAllNoneUnread(ns[1..]);
      assert ReadAll(ns)[1..] == ReadAll(ns[1..]);
    }
  }

  /** The store. The server calls that precede each update are reduced to
      whether they succeeded: a failed call leaves the list and the counter
      as they were. */
  class NotificationStore {
    var notifications: seq<Notification>
    var unreadCount: int
    var loading: bool

    constructor ()
      ensures notifications == [] && unreadCount == 0 && !loading
    {
      notifications := [];
      unreadCount := 0;
      loading := false;
    }

    function Current(): Inbox
      reads this
    {
      Inbox(notifications, unreadCount)
    }

    /** A fetch replaces the list and the counter with the server's on
        success, keeps them on failure, and is no longer loading either
        way. */
    method Fetch(response: Option<Response>)
      modifies this
      ensures response.Some? ==>
        notifications == response.value.notifications && unreadCount == response.value.unreadCount
      ensures response.None? ==> notifications == old(notifications) && unreadCount == old(unreadCount)
      ensures !loading
    {
      loading := true;
      if response.Some? {
        notifications := response.value.notifications;
        unreadCount := response.value.unreadCount;
      }
      loading := false;
    }

    /** Marks one notification read once the server has acknowledged it;
        ok reports whether the server call succeeded. */
    method MarkRead(id: string, serverOk: bool) returns (ok: bool)
      modifies this
      ensures ok == serverOk
      ensures Current() == if serverOk then ReadOne(old(Current()), id) else old(Current())
      ensures loading == old(loading)
    {
      ok := serverOk;
      if !serverOk {
        return;
      }
      match FindIndex(notifications, id)
      case Some(i) =>
        var n := notifications[i];
        if !n.isRead {
          notifications := notifications[i := n.(isRead := true)];
          unreadCount := ClampZero(unreadCount - 1);
        }
      case None =>
    }

    /** Marks every notification read, one after the other, and resets the
        counter once the server has acknowledged it. */
    method MarkAllRead(serverOk: bool) returns (ok: bool)
      modifies this
      ensures ok == serverOk
      ensures serverOk ==> notifications == ReadAll(old(notifications)) && unreadCount == 0
      ensures !serverOk ==> notifications == old(notifications) && unreadCount == old(unreadCount)
      ensures loading == old(loading)
    {
      ok := serverOk;
      if !serverOk {
        return;
      }
      var i := 0;
      while i < |notifications|
        invariant 0 <= i <= |notifications| == |old(notifications)|
        invariant forall j :: 0 <= j < i ==> notifications[j] == old(notifications)[j].(isRead := true)
        invariant forall j :: i <= j < |notifications| ==> notifications[j] == old(notifications)[j]
        invariant loading == old(loading)
      {
        notifications := notifications[i := notifications[i].(isRead := true)];
        i := i + 1;
      }
      unreadCount := 0;
    }
  }
}
