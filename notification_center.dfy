/** The notification drop-down: the notification list, its unread count and
    badge, marking read, deleting, and the periodic arrival of a new
    notification. */
module NotificationCenter {
  import opened Collections
  import opened Elapsed

  datatype Kind = Mention | Comment | Task | Project | System
  datatype Priority = Low | Medium | High
  datatype Author = Author(id: string, name: string, avatar: Option<string>)

  /** A notification; `timestamp` is in milliseconds on the clock that the
      label is computed against. */
  datatype Notification = Notification(
    id: string,
    kind: Kind,
    title: string,
    message: string,
    timestamp: int,
    read: bool,
    actionUrl: Option<string>,
    priority: Priority,
    author: Option<Author>)

  function IsUnread(): Notification -> bool { (n: Notification) => !n.read }
  function IsRead(): Notification -> bool { (n: Notification) => n.read }
  function UnreadWithId(id: string): Notification -> bool { (n: Notification) => !n.read && n.id == id }
  function LacksId(id: string): Notification -> bool { (n: Notification) => n.id != id }
  function UnreadWithoutId(id: string): Notification -> bool { (n: Notification) => !n.read && n.id != id }

  /** `unreadCount`. */
  function UnreadCount(ns: seq<Notification>): nat
  {
    Count(ns, IsUnread())
  }

  /** The unread count and the read count add up to the list length; it is
      zero exactly when everything is read. */
  lemma UnreadCountSpec(ns: seq<Notification>)
    ensures UnreadCount(ns) + Count(ns, IsRead()) == |ns|
    ensures UnreadCount(ns) <= |ns|
    ensures UnreadCount(ns) == 0 <==> forall i :: 0 <= i < |ns| ==> ns[i].read
  {
    FilterSplit(ns, IsUnread(), IsRead());
    if forall i :: 0 <= i < |ns| ==> ns[i].read {
      FilterKeepsNone(ns, IsUnread());
    }
  }

  /** Prepending counts the new notification once if it is unread. */
  lemma UnreadCountPrepend(n: Notification, ns: seq<Notification>)
    ensures UnreadCount([n] + ns) == UnreadCount(ns) + if n.read then 0 else 1
  {
    FilterPrepend(n, ns, IsUnread());
  }

  function MarkReadIf(id: string): Notification -> Notification
  {
    (n: Notification) => if n.id == id then n.(read := true) else n
  }

  function MarkRead(): Notification -> Notification
  {
    (n: Notification) => n.(read := true)
  }

  /** `markAsRead(id)`. */
  function MarkedRead(ns: seq<Notification>, id: string): seq<Notification>
  {
    Map(ns, MarkReadIf(id))
  }

  /** `markAsRead` sets `read` on the notifications with the id and nothing
      else; doing it twice is doing it once. */
  lemma MarkAsReadSpec(ns: seq<Notification>, id: string)
    ensures |MarkedRead(ns, id)| == |ns|
    ensures forall i :: 0 <= i < |ns| ==>
              MarkedRead(ns, id)[i] == if ns[i].id == id then ns[i].(read := true) else ns[i]
    ensures MarkedRead(MarkedRead(ns, id), id) == MarkedRead(ns, id)
  {
  }

  /** The unread count drops by exactly the unread notifications with the id. */
  lemma {:induction false} MarkAsReadUnread(ns: seq<Notification>, id: string)
    ensures UnreadCount(MarkedRead(ns, id)) == UnreadCount(ns) - Count(ns, UnreadWithId(id))
    ensures UnreadCount(MarkedRead(ns, id)) == Count(ns, UnreadWithoutId(id))
    decreases |ns|
  {
    if ns != [] {
      MarkAsReadUnread(ns[1..], id);
      MapCons(ns, MarkReadIf(id));
      assert MarkedRead(ns, id) == [MarkReadIf(id)(ns[0])] + MarkedRead(ns[1..], id);
      UnreadCountPrepend(MarkReadIf(id)(ns[0]), MarkedRead(ns[1..], id));
      UnreadCountPrepend(ns[0], ns[1..]);
      FilterPrepend(ns[0], ns[1..], UnreadWithId(id));
      FilterPrepend(ns[0], ns[1..], UnreadWithoutId(id));
      assert [ns[0]] + ns[1..] == ns;
    }
  }

  /** `markAllAsRead`. */
  function AllMarkedRead(ns: seq<Notification>): seq<Notification>
  {
    Map(ns, MarkRead())
  }

  /** After `markAllAsRead` nothing is unread, the list keeps its length and
      order, and only the `read` flags change. */
  lemma MarkAllAsReadSpec(ns: seq<Notification>)
    ensures |AllMarkedRead(ns)| == |ns|
    ensures forall i :: 0 <= i < |ns| ==> AllMarkedRead(ns)[i] == ns[i].(read := true)
    ensures UnreadCount(AllMarkedRead(ns)) == 0
    ensures AllMarkedRead(AllMarkedRead(ns)) == AllMarkedRead(ns)
  {
    UnreadCountSpec(AllMarkedRead(ns));
  }

  /** `deleteNotification(id)`. */
  function WithoutNotification(ns: seq<Notification>, id: string): seq<Notification>
  {
    Filter(ns, LacksId(id))
  }

  /** A delete removes exactly the notifications with the id and keeps the
      rest in order, each as often as before; the unread count loses the
      deleted unread ones. */
  lemma DeleteNotificationSpec(ns: seq<Notification>, id: string)
    ensures forall i :: 0 <= i < |WithoutNotification(ns, id)| ==> WithoutNotification(ns, id)[i].id != id
    ensures forall i :: 0 <= i < |ns| && ns[i].id != id ==> ns[i] in WithoutNotification(ns, id)
    ensures IsSubsequence(WithoutNotification(ns, id), ns)
    ensures UnreadCount(WithoutNotification(ns, id)) == Count(ns, UnreadWithoutId(id))
    ensures forall n: Notification :: multiset(WithoutNotification(ns, id))[n] == if n.id == id then 0 else multiset(ns)[n]
  {
    forall n: Notification ensures multiset(WithoutNotification(ns, id))[n] == if n.id == id then 0 else multiset(ns)[n] {
      FilterMultiplicity(ns, LacksId(id), n);
    }
    FilterIsSubsequence(ns, LacksId(id));
    FilterFilter(ns, LacksId(id), UnreadWithoutId(id));
    FilterCongruent(WithoutNotification(ns, id), IsUnread(), UnreadWithoutId(id));
  }

  /** The notification the interval builds: "New notification", medium
      priority, unread, of the kind the second random draw picks. */
  function NewNotification(id: string, kindRoll: real, now: int): (n: Notification)
    requires 0.0 <= kindRoll < 1.0
    ensures !n.read && n.id == id && n.timestamp == now && n.priority == Medium
    ensures n.kind in {Mention, Comment, Task}
    ensures n.author == None && n.actionUrl == None
  {
    var k := (kindRoll * 3.0).Floor;
    Notification(id, if k == 0 then Mention else if k == 1 then Comment else Task,
                 "New notification", "You have a new update in your project", now, false,
                 None, Medium, None)
  }

  /** One interval tick: with a first draw above 0.8 a new notification is
      prepended, otherwise nothing happens. */
  function AfterTick(ns: seq<Notification>, roll: real, kindRoll: real, now: int, id: string): seq<Notification>
    requires 0.0 <= kindRoll < 1.0
  {
    if roll > 0.8 then [NewNotification(id, kindRoll, now)] + ns else ns
  }

  /** An arrival grows the list and the unread count by one each and keeps
      the old list behind the new one. */
  lemma TickSpec(ns: seq<Notification>, roll: real, kindRoll: real, now: int, id: string)
    requires 0.0 <= kindRoll < 1.0
    ensures roll > 0.8 ==> |AfterTick(ns, roll, kindRoll, now, id)| == |ns| + 1 &&
                           AfterTick(ns, roll, kindRoll, now, id)[1..] == ns &&
                           UnreadCount(AfterTick(ns, roll, kindRoll, now, id)) == UnreadCount(ns) + 1
    ensures roll <= 0.8 ==> AfterTick(ns, roll, kindRoll, now, id) == ns
  {
    if roll > 0.8 {
      UnreadCountPrepend(NewNotification(id, kindRoll, now), ns);
    }
  }

  /** The bell's badge. */
  datatype Badge = NoBadge | Exact(count: nat) | Capped

  /** The badge shows for an unread count above zero, "99+" above 99. */
  function BadgeOf(unread: nat): (b: Badge)
    ensures b.NoBadge? <==> unread == 0
    ensures b.Capped? <==> unread > 99
    ensures b.Exact? ==> b.count == unread && 1 <= b.count <= 99
  {
    if unread == 0 then NoBadge else if unread > 99 then Capped else Exact(unread)
  }

  /** After marking all read the badge is gone; an arrival always shows it. */
  lemma BadgeAfterUpdates(ns: seq<Notification>, roll: real, kindRoll: real, now: int, id: string)
    requires 0.0 <= kindRoll < 1.0
    ensures BadgeOf(UnreadCount(AllMarkedRead(ns))) == NoBadge
    ensures roll > 0.8 ==> BadgeOf(UnreadCount(AfterTick(ns, roll, kindRoll, now, id))) != NoBadge
  {
    MarkAllAsReadSpec(ns);
    TickSpec(ns, roll, kindRoll, now, id);
  }

  /** `formatTimestamp(timestamp)` against the clock reading `now`. */
  function FormatTimestamp(timestamp: int, now: int): Label
  {
    TimestampLabel(DiffInMinutes(now - timestamp))
  }

  /** The list on mount, timestamped relative to the clock reading `now`. */
  function InitialNotifications(now: int): seq<Notification>
  {
    [
      Notification("1", Mention, "You were mentioned in a comment",
                   "John Doe mentioned you in 'Website Redesign' project discussion",
                   now - 5 * 60000, false, Some("/projects/1/discussion"), High, Some(Author("1", "John Doe", None))),
      Notification("2", Task, "Task assigned to you",
                   "You've been assigned to 'Implement user authentication'",
                   now - 30 * 60000, false, Some("/projects/1/tasks"), Medium, Some(Author("2", "Jane Smith", None))),
      Notification("3", Comment, "New comment on your task",
                   "Sarah Wilson commented on 'Design homepage layout'",
                   now - 2 * 3600000, true, Some("/projects/1/tasks/3"), Low, Some(Author("4", "Sarah Wilson", None))),
      Notification("4", Project, "Project update", "Website Redesign project milestone completed",
                   now - 6 * 3600000, true, Some("/projects/1"), Medium, None),
      Notification("5", System, "Weekly project summary", "Your weekly activity summary is ready",
                   now - 24 * 3600000, true, Some("/dashboard"), Low, None)
    ]
  }

  /** On mount two of the five notifications are unread. */
  lemma InitialUnread(now: int)
    ensures |InitialNotifications(now)| == 5
    ensures UnreadCount(InitialNotifications(now)) == 2
    ensures BadgeOf(UnreadCount(InitialNotifications(now))) == Exact(2)
  {
    var ns := InitialNotifications(now);
    assert ns[2..] == [ns[2], ns[3], ns[4]];
    FilterKeepsNone(ns[2..], IsUnread());
    assert ns == [ns[0]] + ([ns[1]] + ns[2..]);
    FilterPrepend(ns[1], ns[2..], IsUnread());
    FilterPrepend(ns[0], [ns[1]] + ns[2..], IsUnread());
  }

  /** The mounted list's first, third and last labels read 5m, 2h and 1d ago. */
  lemma InitialLabels(now: int)
    ensures FormatTimestamp(InitialNotifications(now)[0].timestamp, now) == MinutesAgo(5)
    ensures FormatTimestamp(InitialNotifications(now)[2].timestamp, now) == HoursAgo(2)
    ensures FormatTimestamp(InitialNotifications(now)[4].timestamp, now) == DaysAgo(1)
  {
    var ns := InitialNotifications(now);
    assert ns[0].timestamp == now - 5 * 60000;
    assert ns[2].timestamp == now - 2 * 3600000;
    assert ns[4].timestamp == now - 24 * 3600000;
    assert now - (now - 5 * 60000) == 5 * 60000;
    assert now - (now - 2 * 3600000) == 120 * 60000;
    assert now - (now - 24 * 3600000) == 1440 * 60000;
    FloorDivUnique(5 * 60000, 60000, 5);
    FloorDivUnique(120 * 60000, 60000, 120);
    FloorDivUnique(120, 60, 2);
    FloorDivUnique(1440 * 60000, 60000, 1440);
    FloorDivUnique(1440, 60, 24);
    FloorDivUnique(24, 24, 1);
  }

  /** The notification centre's state. */
  class Center {
    var notifications: seq<Notification>
    var isOpen: bool

    constructor (now: int)
      ensures notifications == InitialNotifications(now) && !isOpen
    {
      notifications := InitialNotifications(now);
      isOpen := false;
    }

    method MarkAsRead(id: string)
      modifies this
      ensures notifications == MarkedRead(old(notifications), id)
      ensures isOpen == old(isOpen)
    {
      notifications := Map(notifications, MarkReadIf(id));
    }

    method MarkAllAsRead()
      modifies this
      ensures notifications == AllMarkedRead(old(notifications))
      ensures isOpen == old(isOpen)
    {
      notifications := Map(notifications, MarkRead());
    }

    method DeleteNotification(id: string)
      modifies this
      ensures notifications == WithoutNotification(old(notifications), id)
      ensures isOpen == old(isOpen)
    {
      notifications := Filter(notifications, LacksId(id));
    }

    /** One firing of the 30-second interval, with the two random draws, the
      clock and the fresh id as parameters. */
    method Tick(roll: real, kindRoll: real, now: int, id: string)
      requires 0.0 <= kindRoll < 1.0
      modifies this
      ensures notifications == AfterTick(old(notifications), roll, kindRoll, now, id)
      ensures isOpen == old(isOpen)
    {
      if roll > 0.8 {
        var n := NewNotification(id, kindRoll, now);
        notifications := [n] + notifications;
      }
    }

    method SetOpen(open: bool)
      modifies this
      ensures isOpen == open && notifications == old(notifications)
    {
      isOpen := open;
    }
  }
}
