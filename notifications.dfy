/** The notifications menu: the unread badge, "mark all as read", dismissing one
    notification, and the relative time shown under each. */
module Notifications {
  import opened Envelopes
  import opened Text

  datatype NotificationType = ApplicationNote | InterviewNote | OfferNote | SystemNote

  datatype Notification = Notification(
    id: string,
    kind: NotificationType,
    title: string,
    message: string,
    read: bool,
    createdAt: string)

  datatype Icon = FileTextIcon | CalendarIcon | GiftIcon | InfoIcon

  /** `getNotificationIcon`: defined for every type, and no two types share an icon. */
  function NotificationIcon(kind: NotificationType): (icon: Icon)
    ensures kind == ApplicationNote <==> icon == FileTextIcon
    ensures kind == InterviewNote <==> icon == CalendarIcon
    ensures kind == OfferNote <==> icon == GiftIcon
    ensures kind == SystemNote <==> icon == InfoIcon
  {
    match kind
    case ApplicationNote => FileTextIcon
    case InterviewNote => CalendarIcon
    case OfferNote => GiftIcon
    case SystemNote => InfoIcon
  }

  /** `notifications.filter((n) => !n.read).length`. */
  function UnreadCount(ns: seq<Notification>): (n: nat)
    ensures n <= |ns|
    ensures n == 0 <==> forall i :: 0 <= i < |ns| ==> ns[i].read
  {
    if ns == [] then 0 else (if ns[0].read then 0 else 1) + UnreadCount(ns[1..])
  }

  /** `markAllAsRead`: every notification read, nothing else touched. */
  function MarkAllRead(ns: seq<Notification>): (r: seq<Notification>)
    ensures |r| == |ns|
    ensures forall i :: 0 <= i < |ns| ==> r[i] == ns[i].(read := true)
  {
    if ns == [] then [] else [ns[0].(read := true)] + MarkAllRead(ns[1..])
  }

  /** After marking all as read nothing is unread, and marking again changes nothing. */
  lemma MarkAllReadClears(ns: seq<Notification>)
    ensures UnreadCount(MarkAllRead(ns)) == 0
    ensures MarkAllRead(MarkAllRead(ns)) == MarkAllRead(ns)
  {
  }

  /** `dismissNotification`: `prev.filter((n) => n.id !== id)`. */
  function Dismiss(ns: seq<Notification>, id: string): (r: seq<Notification>)
    ensures |r| <= |ns|
    ensures forall x :: x in r <==> x in ns && x.id != id
  {
    if ns == [] then []
    else (if ns[0].id != id then [ns[0]] else []) + Dismiss(ns[1..], id)
  }

  /** Dismissing keeps the survivors in order: it distributes over concatenation. */
  lemma {:induction false} DismissAppend(a: seq<Notification>, b: seq<Notification>, id: string)
    ensures Dismiss(a + b, id) == Dismiss(a, id) + Dismiss(b, id)
  {
    if a == [] {
      assert a + b == b;
    } else {
      assert (a + b)[1..] == a[1..] + b;
      DismissAppend(a[1..], b, id);
    }
  }

  /** Dismissing never raises the unread count, and lowers it by the unread ones removed. */
  lemma {:induction false} DismissUnread(ns: seq<Notification>, id: string)
    ensures UnreadCount(Dismiss(ns, id)) <= UnreadCount(ns)
    ensures (forall i :: 0 <= i < |ns| && ns[i].id == id ==> ns[i].read) ==>
      UnreadCount(Dismiss(ns, id)) == UnreadCount(ns)
  {
    if ns != [] {
      DismissUnread(ns[1..], id);
      var head := if ns[0].id != id then [ns[0]] else [];
      assert Dismiss(ns, id) == head + Dismiss(ns[1..], id);
      UnreadCountAppend(head, Dismiss(ns[1..], id));
    }
  }

  lemma {:induction false} UnreadCountAppend(a: seq<Notification>, b: seq<Notification>)
    ensures UnreadCount(a + b) == UnreadCount(a) + UnreadCount(b)
  {
    if a == [] {
      assert a + b == b;
    } else {
      assert (a + b)[1..] == a[1..] + b;
      UnreadCountAppend(a[1..], b);
    }
  }

  /** The text on the bell's badge; `None`: no badge. */
  function BadgeLabel(unread: nat): (badge: Option<string>)
    ensures badge.None? <==> unread == 0
    ensures 1 <= unread <= 9 ==> badge == Some(NatToString(unread)) && |badge.value| == 1
    ensures unread > 9 ==> badge == Some("9+")
  {
    if unread == 0 then None else if unread > 9 then Some("9+") else Some(NatToString(unread))
  }

  /** "Mark all as read" is offered only while something is unread. */
  predicate OffersMarkAll(ns: seq<Notification>) {
    UnreadCount(ns) > 0
  }

  /** "Mark all as read" is offered exactly when the bell shows a badge, that is when some
      notification is unread, and marking all as read withdraws it. */
  lemma MarkAllShownWithBadge(ns: seq<Notification>)
    ensures OffersMarkAll(ns) <==> BadgeLabel(UnreadCount(ns)).Some?
    ensures OffersMarkAll(ns) <==> exists i :: 0 <= i < |ns| && !ns[i].read
    ensures !OffersMarkAll(MarkAllRead(ns))
  {
    MarkAllReadClears(ns);
  }

  /** `formatTimeAgo` on whole elapsed seconds; `None` for a week or more, which the
      component renders as a locale date. */
  function TimeAgo(seconds: int): (r: Option<string>)
    ensures r.None? <==> seconds >= 604800
    ensures seconds < 60 ==> r == Some("Just now")
    ensures 60 <= seconds < 3600 ==> exists n: nat ::
      1 <= n < 60 && n * 60 <= seconds < (n + 1) * 60 && r == Some(NatToString(n) + "m ago")
    ensures 3600 <= seconds < 86400 ==> exists n: nat ::
      1 <= n < 24 && n * 3600 <= seconds < (n + 1) * 3600 && r == Some(NatToString(n) + "h ago")
    ensures 86400 <= seconds < 604800 ==> exists n: nat ::
      1 <= n < 7 && n * 86400 <= seconds < (n + 1) * 86400 && r == Some(NatToString(n) + "d ago")
  {
    if seconds < 60 then Some("Just now")
    else if seconds < 3600 then Some(NatToString(seconds / 60) + "m ago")
    else if seconds < 86400 then Some(NatToString(seconds / 3600) + "h ago")
    else if seconds < 604800 then Some(NatToString(seconds / 86400) + "d ago")
    else None
  }

  /** The number in a "time ago" label is unique: no other number in the same unit form
      names the same elapsed time, so it is the whole minutes, hours or days, rounded down. */
  lemma TimeAgoReadsBack(seconds: int, n: nat)
    ensures 60 <= seconds < 3600 && TimeAgo(seconds) == Some(NatToString(n) + "m ago") ==>
      1 <= n < 60 && n * 60 <= seconds < (n + 1) * 60
    ensures 3600 <= seconds < 86400 && TimeAgo(seconds) == Some(NatToString(n) + "h ago") ==>
      1 <= n < 24 && n * 3600 <= seconds < (n + 1) * 3600
    ensures 86400 <= seconds < 604800 && TimeAgo(seconds) == Some(NatToString(n) + "d ago") ==>
      1 <= n < 7 && n * 86400 <= seconds < (n + 1) * 86400
  {
    if 60 <= seconds < 3600 && TimeAgo(seconds) == Some(NatToString(n) + "m ago") {
      NatToStringSuffixInjective(n, seconds / 60, "m ago");
    }
    if 3600 <= seconds < 86400 && TimeAgo(seconds) == Some(NatToString(n) + "h ago") {
      NatToStringSuffixInjective(n, seconds / 3600, "h ago");
    }
    if 86400 <= seconds < 604800 && TimeAgo(seconds) == Some(NatToString(n) + "d ago") {
      NatToStringSuffixInjective(n, seconds / 86400, "d ago");
    }
  }

  class NotificationsMenu {
    var isOpen: bool
    var notifications: seq<Notification>

    /** The menu starts closed, holding the given notifications. */
    constructor(initial: seq<Notification>)
      ensures !isOpen && notifications == initial
    {
      isOpen := false;
      notifications := initial;
    }

    /** A click on the bell. */
    method Toggle()
      modifies this
      ensures isOpen == !old(isOpen) && notifications == old(notifications)
    {
      isOpen := !isOpen;
    }

    /** A mouse-down anywhere in the document; one outside the menu closes it. */
    method MouseDown(insideMenu: bool)
      modifies this
      ensures isOpen == (old(isOpen) && insideMenu) && notifications == old(notifications)
    {
      if !insideMenu {
        isOpen := false;
      }
    }

    method MarkAllAsRead()
      modifies this
      ensures notifications == MarkAllRead(old(notifications)) && UnreadCount(notifications) == 0
      ensures isOpen == old(isOpen)
    {
      notifications := MarkAllRead(notifications);
      MarkAllReadClears(old(notifications));
    }

    method DismissNotification(id: string)
      modifies this
      ensures notifications == Dismiss(old(notifications), id)
      ensures UnreadCount(notifications) <= UnreadCount(old(notifications))
      ensures isOpen == old(isOpen)
    {
      DismissUnread(notifications, id);
      notifications := Dismiss(notifications, id);
    }
  }
}
