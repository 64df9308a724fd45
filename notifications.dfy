/** The client's notification list: the unread count, adding, marking one or
    all as read, clearing, and the socket-message handler that turns messages
    into notifications for the signed-in user. Every operation is a function
    of the previous list. */
module Notifications {
  import opened Types
  import opened Text
  import opened Seqs

  /** A notification as the caller supplies it, before it gets an id, a
      timestamp and the unread flag. */
  datatype Draft = Draft(
    userId: string,
    title: string,
    message: string,
    kind: NotificationKind,
    auctionId: Option<string>)

  predicate IsUnread(n: UserNotification)
  {
    !n.read
  }

  /** `unreadCount`. */
  function UnreadCount(ns: seq<UserNotification>): nat
  {
    |Filter(ns, IsUnread)|
  }

  /** `addNotification`: the new notification goes in front, unread. */
  function Add(ns: seq<UserNotification>, d: Draft, uuid: string, now: int): (r: seq<UserNotification>)
    ensures |r| == |ns| + 1 && r[1..] == ns
    ensures r[0] == UserNotification("notification-" + uuid, d.userId, d.title, d.message, d.kind,
                                     d.auctionId, now, false)
  {
    [UserNotification("notification-" + uuid, d.userId, d.title, d.message, d.kind, d.auctionId, now, false)] + ns
  }

  function MarkOne(n: UserNotification, id: string): UserNotification
  {
    if n.id == id then n.(read := true) else n
  }

  /** `markAsRead`. */
  function MarkAsRead(ns: seq<UserNotification>, id: string): (r: seq<UserNotification>)
    ensures |r| == |ns|
  {
    seq(|ns|, i requires 0 <= i < |ns| => MarkOne(ns[i], id))
  }

  /** `markAllAsRead`. */
  function MarkAllAsRead(ns: seq<UserNotification>): (r: seq<UserNotification>)
    ensures |r| == |ns|
  {
    seq(|ns|, i requires 0 <= i < |ns| => ns[i].(read := true))
  }

  /** `clearNotifications`. */
  function Clear(ns: seq<UserNotification>): (r: seq<UserNotification>)
    ensures r == []
  {
    []
  }

  /** The unread count counts exactly the unread entries, and is zero exactly
      when every entry is read. */
  lemma UnreadCountIsZeroIffAllRead(ns: seq<UserNotification>)
    ensures UnreadCount(ns) <= |ns|
    ensures UnreadCount(ns) == 0 <==> forall i :: 0 <= i < |ns| ==> ns[i].read
  {
    var r := Filter(ns, IsUnread);
    if r != [] {
      FilterMembership(ns, IsUnread, r[0]);
    }
    if exists i :: 0 <= i < |ns| && !ns[i].read {
      var i :| 0 <= i < |ns| && !ns[i].read;
      FilterMembership(ns, IsUnread, ns[i]);
    }
  }

  /** Adding puts one more entry in the list and one more in the unread count. */
  lemma AddCountsOneMore(ns: seq<UserNotification>, d: Draft, uuid: string, now: int)
    ensures |Add(ns, d, uuid, now)| == |ns| + 1
    ensures UnreadCount(Add(ns, d, uuid, now)) == UnreadCount(ns) + 1
  {
    var r := Add(ns, d, uuid, now);
    assert r[1..] == ns;
  }

  /** `markAsRead` sets the flag on the entries with that id and changes
      nothing else. */
  lemma MarkAsReadEffect(ns: seq<UserNotification>, id: string, i: int)
    requires 0 <= i < |ns|
    ensures MarkAsRead(ns, id)[i] == if ns[i].id == id then ns[i].(read := true) else ns[i]
  {
  }

  /** Marking the same id twice is the same as once. */
  lemma MarkAsReadIdempotent(ns: seq<UserNotification>, id: string)
    ensures MarkAsRead(MarkAsRead(ns, id), id) == MarkAsRead(ns, id)
  {
  }

  /** `markAsRead` lowers the unread count by the number of unread entries
      with that id. */
  lemma {:induction false} MarkAsReadCount(ns: seq<UserNotification>, id: string)
    ensures UnreadCount(MarkAsRead(ns, id)) == UnreadCount(ns) - |Filter(ns, n => IsUnread(n) && n.id == id)|
  {
    if ns != [] {
      var r := MarkAsRead(ns, id);
      assert r[1..] == MarkAsRead(ns[1..], id);
      MarkAsReadCount(ns[1..], id);
    }
  }

  /** `markAllAsRead` keeps length and order, leaves no unread entry, and is
      idempotent. */
  lemma MarkAllAsReadEffect(ns: seq<UserNotification>)
    ensures forall i :: 0 <= i < |ns| ==> MarkAllAsRead(ns)[i] == ns[i].(read := true)
    ensures UnreadCount(MarkAllAsRead(ns)) == 0
    ensures MarkAllAsRead(MarkAllAsRead(ns)) == MarkAllAsRead(ns)
  {
    UnreadCountIsZeroIffAllRead(MarkAllAsRead(ns));
  }

  /** The handler for one socket message while the listener is attached: a
      `notification` for this user, or a `new_bid` by another user, yields the
      notification to add. */
  function FromMessage(m: Message, user: User): Option<Draft>
  {
    if m.kind == "notification" && m.payload.NotificationPayload? && m.payload.notification.userId == user.id then
      var n := m.payload.notification;
      Some(Draft(user.id, n.title, n.message, n.kind, n.auctionId))
    else if m.kind == "new_bid" && m.payload.BidPayload? && m.payload.bid.userId != user.id then
      var bid := m.payload.bid;
      Some(Draft(user.id, "New Bid Placed",
                 bid.username + " placed a bid of $" + IntToString(bid.amount) + " on an auction you're watching.",
                 NewBidNotice, Some(m.payload.auctionId)))
    else None
  }

  /** The list after one socket message; the listener is attached only while
      the socket is connected and a user is signed in, and text that does not
      parse is dropped. */
  function OnSocketMessage(ns: seq<UserNotification>, listening: bool, user: Option<User>,
                           parsed: Option<Message>, uuid: string, now: int): seq<UserNotification>
  {
    if !listening || user.None? || parsed.None? then ns
    else match FromMessage(parsed.value, user.value)
      case None => ns
      case Some(d) => Add(ns, d, uuid, now)
  }

  /** A notification is added for a `notification` message exactly when it is
      addressed to the user, and for a `new_bid` exactly when another user
      placed the bid; the user's own bids and every other message are ignored.
      What is added is addressed to the user and unread. */
  lemma MessageFilter(ns: seq<UserNotification>, user: User, m: Message, uuid: string, now: int)
    ensures var r := OnSocketMessage(ns, true, Some(user), Some(m), uuid, now);
      && (r != ns <==>
            || (m.kind == "notification" && m.payload.NotificationPayload? && m.payload.notification.userId == user.id)
            || (m.kind == "new_bid" && m.payload.BidPayload? && m.payload.bid.userId != user.id))
      && (r != ns ==> r[1..] == ns && r[0].userId == user.id && !r[0].read)
  {
    var r := OnSocketMessage(ns, true, Some(user), Some(m), uuid, now);
    if FromMessage(m, user).Some? {
      assert |r| == |ns| + 1;
    }
  }
}
