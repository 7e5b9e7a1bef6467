/** The top bar's user initials and its notification bell: the unread count,
    live notifications pushed over the socket, and marking notifications
    read. */
module Header {
  import opened Js
  import opened Seqs
  import opened Names

  /** `getInitials`: '' for a missing name, otherwise the upper-cased initial of
      every word, with no length limit. */
  function GetInitials(name: string): (r: string)
    ensures name == "" ==> r == ""
    ensures r == Upper(WordStarts(name, true))
    ensures |r| <= |name|
  {
    FirstLettersAreWordStarts(name);
    WordStartsShorter(name, true);
    if name == "" then "" else Upper(FirstLetters(name))
  }

  /** A notification; a missing `read` flag is `false`. */
  datatype Notification = Notification(id: string, message: string, read: bool)

  function IsUnread(n: Notification): bool { !n.read }

  /** `notifications.filter(n => !n.read).length` */
  function UnreadCount(ns: seq<Notification>): nat
  {
    Count(ns, IsUnread)
  }

  /** The list after `markAsRead(id)` has succeeded. */
  function MarkRead(ns: seq<Notification>, id: string): (r: seq<Notification>)
    ensures |r| == |ns|
    ensures forall i :: 0 <= i < |ns| ==> r[i] == if ns[i].id == id then ns[i].(read := true) else ns[i]
  {
    if ns == [] then []
    else [if ns[0].id == id then ns[0].(read := true) else ns[0]] + MarkRead(ns[1..], id)
  }

  /** The list after `markAllAsRead` has succeeded. */
  function MarkAll(ns: seq<Notification>): (r: seq<Notification>)
    ensures |r| == |ns|
    ensures forall i :: 0 <= i < |ns| ==> r[i] == ns[i].(read := true)
  {
    if ns == [] then [] else [ns[0].(read := true)] + MarkAll(ns[1..])
  }

  /** After marking everything read nothing is unread. */
  lemma {:induction false} MarkAllClearsUnread(ns: seq<Notification>)
    ensures UnreadCount(MarkAll(ns)) == 0
  {
    if ns != [] {
      MarkAllClearsUnread(ns[1..]);
      assert MarkAll(ns)[1..] == MarkAll(ns[1..]);
    }
  }

  /** Marking one id read lowers the unread count by the number of unread
      notifications with that id, and does nothing when repeated. */
  lemma {:induction false} MarkReadCount(ns: seq<Notification>, id: string)
    ensures UnreadCount(MarkRead(ns, id)) + Count(ns, (n: Notification) => n.id == id && !n.read) == UnreadCount(ns)
    ensures MarkRead(MarkRead(ns, id), id) == MarkRead(ns, id)
  {
    if ns != [] {
      MarkReadCount(ns[1..], id);
      assert MarkRead(ns, id)[1..] == MarkRead(ns[1..], id);
    }
  }

  class NotificationBell {
    var notifications: seq<Notification>
    var error: string
    var loading: bool

    constructor()
      ensures notifications == [] && error == "" && !loading
    {
      notifications := [];
      error := "";
      loading := false;
    }

    /** `fetchNotifications` once its request settles: the fetched list on
        success, otherwise the list is kept and an error message is set. */
    method FetchSettled(fetched: Option<seq<Notification>>)
      modifies this
      ensures fetched.Some? ==> notifications == fetched.value && error == old(error)
      ensures fetched.None? ==> notifications == old(notifications) && error == "Could not load notifications"
      ensures !loading
    {
      loading := true;
      if fetched.Some? {
        notifications := fetched.value;
      } else {
        error := "Could not load notifications";
      }
      loading := false;
    }

    /** The socket's `notification` event: prepended only when it is addressed
        to the signed-in user. */
    method Receive(user: Option<string>, userId: string, n: Notification)
      modifies this
      ensures user == Some(userId) ==> notifications == [n] + old(notifications)
      ensures user != Some(userId) ==> notifications == old(notifications)
      ensures error == old(error) && loading == old(loading)
    {
      if user.Some? && user.value == userId {
        notifications := [n] + notifications;
      }
    }

    /** `markAsRead(id)`: applied once the request resolves, whatever its
        status; a thrown request changes nothing. */
    method MarkAsRead(id: string, requestThrew: bool)
      modifies this
      ensures notifications == if requestThrew then old(notifications) else MarkRead(old(notifications), id)
      ensures error == old(error) && loading == old(loading)
    {
      if !requestThrew {
        notifications := MarkRead(notifications, id);
      }
    }

    /** `markAllAsRead`: applied once the request resolves. */
    method MarkAllAsRead(requestThrew: bool)
      modifies this
      ensures !requestThrew ==> notifications == MarkAll(old(notifications)) && UnreadCount(notifications) == 0
      ensures requestThrew ==> notifications == old(notifications)
      ensures error == old(error) && loading == old(loading)
    {
      if !requestThrew {
        notifications := MarkAll(notifications);
        MarkAllClearsUnread(old(notifications));
      }
    }
  }
}
