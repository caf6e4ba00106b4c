/** The relative-time labels the panels print next to activity: "just now",
    "<n>m ago", "<n>h ago", "<n>d ago", or (in the notification list) a
    calendar date. Elapsed times come in as integer differences between the
    clock and the timestamp, so the clock itself is a parameter. */
module Elapsed {

  import opened Arithmetic

  datatype Label = JustNow | MinutesAgo(minutes: nat) | HoursAgo(hours: nat) | DaysAgo(days: nat) | OnDate

  /** Dafny's division by a positive divisor rounds down, as `Math.floor(a / b)`
      does; this is that quotient with its defining bounds. */
  function FloorDiv(a: int, b: int): (q: int)
    requires b > 0
    ensures q * b <= a < (q + 1) * b
  {
    a / b
  }

  lemma FloorDivUnique(a: int, b: int, q: int)
    requires b > 0 && q * b <= a < (q + 1) * b
    ensures FloorDiv(a, b) == q
  {
    var r := FloorDiv(a, b);
    MulCancel(r, q + 1, b);
    MulCancel(q, r + 1, b);
  }

  lemma FloorDivMonotone(a1: int, a2: int, b: int)
    requires b > 0 && a1 <= a2
    ensures FloorDiv(a1, b) <= FloorDiv(a2, b)
  {
    MulCancel(FloorDiv(a1, b), FloorDiv(a2, b) + 1, b);
  }

  /** Flooring twice is flooring once by the product. */
  lemma FloorDivFloorDiv(a: int, b: int, c: int)
    requires b > 0 && c > 0
    ensures FloorDiv(FloorDiv(a, b), c) == FloorDiv(a, b * c)
  {
    var q1 := FloorDiv(a, b);
    var q2 := FloorDiv(q1, c);
    assert q2 * c <= q1 < (q2 + 1) * c;
    assert q2 * c * b <= q1 * b by {
      MulMonotone(q2 * c, q1, b);
    }
    assert (q1 + 1) * b <= (q2 + 1) * c * b by {
      MulMonotone(q1 + 1, (q2 + 1) * c, b);
    }
    assert q2 * (b * c) <= a < (q2 + 1) * (b * c);
    FloorDivUnique(a, b * c, q2);
  }

  /** `Math.floor(diffMs / (1000 * 60))`. */
  function DiffInMinutes(diffMs: int): int
  {
    FloorDiv(diffMs, 60000)
  }

  /** `formatTimeAgo` of the members and discussion panels, on the whole
      minutes elapsed. */
  function TimeAgo(minutes: int): (l: Label)
    ensures l.JustNow? <==> minutes < 1
    ensures l.MinutesAgo? <==> 1 <= minutes < 60
    ensures l.HoursAgo? <==> 60 <= minutes < 1440
    ensures l.DaysAgo? <==> 1440 <= minutes
    ensures l.MinutesAgo? ==> l.minutes == minutes
    ensures l.HoursAgo? ==> 1 <= l.hours < 24 && l.hours * 60 <= minutes < (l.hours + 1) * 60
    ensures l.DaysAgo? ==> 1 <= l.days && l.days * 1440 <= minutes < (l.days + 1) * 1440
  {
    if minutes < 1 then JustNow
    else if minutes < 60 then MinutesAgo(minutes)
    else
      var hours := FloorDiv(minutes, 60);
      if hours < 24 then HoursAgo(hours)
      else
        FloorDivFloorDiv(minutes, 60, 24);
        DaysAgo(FloorDiv(hours, 24))
  }

  /** `formatTimestamp` of the notification list: the same buckets, but a
      calendar date from seven days on. */
  function TimestampLabel(minutes: int): (l: Label)
  {
    if minutes < 1 then JustNow
    else if minutes < 60 then MinutesAgo(minutes)
    else
      var hours := FloorDiv(minutes, 60);
      if hours < 24 then HoursAgo(hours)
      else
        var days := FloorDiv(hours, 24);
        if days < 7 then DaysAgo(days) else OnDate
  }

  /** The notification label is the panel label, except that a week or more
      shows the date instead of the day count. */
  lemma TimestampLabelIsTimeAgo(minutes: int)
    ensures minutes < 7 * 1440 ==> TimestampLabel(minutes) == TimeAgo(minutes)
    ensures minutes >= 7 * 1440 ==> TimestampLabel(minutes) == OnDate
  {
    if minutes >= 1440 {
      FloorDivFloorDiv(minutes, 60, 24);
    }
  }

  /** `formatRelativeTime` of the shared utilities, on the whole seconds
      elapsed. */
  function RelativeTime(seconds: int): Label
  {
    if seconds < 60 then JustNow
    else if seconds < 3600 then MinutesAgo(FloorDiv(seconds, 60))
    else if seconds < 86400 then HoursAgo(FloorDiv(seconds, 3600))
    else DaysAgo(FloorDiv(seconds, 86400))
  }

  /** Counting in seconds gives the same label as counting in minutes: for a
      difference of `diffMs` milliseconds the utility and the panels agree. */
  lemma RelativeTimeAgreesWithTimeAgo(diffMs: int)
    ensures RelativeTime(FloorDiv(diffMs, 1000)) == TimeAgo(FloorDiv(diffMs, 60000))
  {
    var s := FloorDiv(diffMs, 1000);
    var m := FloorDiv(diffMs, 60000);
    FloorDivFloorDiv(diffMs, 1000, 60);
    assert FloorDiv(s, 60) == m;
    if s >= 3600 {
      FloorDivFloorDiv(s, 60, 60);
    }
    if s >= 86400 {
      FloorDivFloorDiv(s, 60, 1440);
      FloorDivFloorDiv(m, 60, 24);
    }
  }

  /** The earliest elapsed minute a label can stand for. */
  function LowerMinutes(l: Label): nat
  {
    match l
    case JustNow => 0
    case MinutesAgo(n) => n
    case HoursAgo(h) => h * 60
    case DaysAgo(d) => d * 1440
    case OnDate => 7 * 1440
  }

  /** The label never goes back as time passes. */
  lemma TimeAgoMonotone(m1: int, m2: int)
    requires m1 <= m2
    ensures LowerMinutes(TimeAgo(m1)) <= LowerMinutes(TimeAgo(m2))
  {
    var l1 := TimeAgo(m1);
    var l2 := TimeAgo(m2);
    if l1.HoursAgo? && l2.HoursAgo? {
      FloorDivUnique(m1, 60, l1.hours);
      FloorDivUnique(m2, 60, l2.hours);
      FloorDivMonotone(m1, m2, 60);
      MulMonotone(l1.hours, l2.hours, 60);
    } else if l1.DaysAgo? && l2.DaysAgo? {
      FloorDivUnique(m1, 1440, l1.days);
      FloorDivUnique(m2, 1440, l2.days);
      FloorDivMonotone(m1, m2, 1440);
      MulMonotone(l1.days, l2.days, 1440);
    }
  }
}
