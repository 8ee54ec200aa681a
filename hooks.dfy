/**
 * The dashboard counters of src/lib/hooks.tsx: the weekly view-count
 * snapshot that `useViewCount` rolls over for the admin, the figures it
 * reports, and the message counts of `useInboxCount`. Times are
 * milliseconds since the epoch and the current time is a parameter.
 */
module ViewStats {
  import opened Wrappers
  import opened Documents
  import opened Seqs

  const DayMillis: int := 1000 * 3600 * 24
  const SnapshotDays: int := 7

  /** The `views` map of the metrics document; a missing field is `None`. */
  datatype Views = Views(
    count: Option<int>,
    lastSnapshotDate: Option<int>,
    lastSnapshotCount: Option<int>,
    weeklyViews: Option<int>,
    trendPercentage: Option<int>)

  /** `fullData.views || {}`. */
  const NoViews: Views := Views(None, None, None, None, None)

  /** `v || d` on a numeric field: a missing value or 0 gives `d`. */
  function Or(v: Option<int>, d: int): (r: int)
    ensures v.Some? && v.value != 0 ==> r == v.value
    ensures v.None? || v.value == 0 ==> r == d
  {
    if v.Some? && v.value != 0 then v.value else d
  }

  /** `Math.round`: the nearest integer, halves rounded up. */
  function Round(x: real): (r: int)
    ensures r as real - 0.5 <= x < r as real + 0.5
  {
    (x + 0.5).Floor
  }

  /** The fields the admin's snapshot writes back. */
  datatype Snapshot = Snapshot(date: int, count: int, weeklyViews: int, trendPercentage: int)

  /** What the dashboard shows. */
  datatype Report = Report(views: int, weekly: int, trend: int)

  function Total(v: Views): int {
    Or(v.count, 0)
  }

  /** `previousWeekly`: the stored weekly views, or 1 when missing or 0. */
  function PreviousWeekly(v: Views): (p: int)
    ensures p != 0
  {
    Or(v.weeklyViews, 1)
  }

  /** The week is over: `daysDiff >= 7`, with a missing snapshot date read as now. */
  predicate WeekOver(v: Views, now: int) {
    var last := if v.lastSnapshotDate.Some? then v.lastSnapshotDate.value else now;
    (now - last) as real / DayMillis as real >= SnapshotDays as real
  }

  /** The admin branch: the snapshot written back, or `None` when nothing is written. */
  function Roll(isAdmin: bool, v: Views, now: int): (w: Option<Snapshot>)
    ensures w.Some? <==> isAdmin && v.lastSnapshotDate.Some? && now - v.lastSnapshotDate.value >= SnapshotDays * DayMillis
    ensures w.Some? ==> w.value.date == now && w.value.count == Total(v)
    ensures w.Some? ==> w.value.weeklyViews == Total(v) - Or(v.lastSnapshotCount, 0)
  {
    WeekOverIff(v, now);
    if isAdmin && WeekOver(v, now) then
      var newWeeklyViews := Total(v) - Or(v.lastSnapshotCount, 0);
      var previousWeekly := PreviousWeekly(v);
      var trend := Round((newWeeklyViews - previousWeekly) as real / previousWeekly as real * 100.0);
      Some(Snapshot(now, Total(v), newWeeklyViews, trend))
    else None
  }

  /** The week test on fractional days agrees with comparing milliseconds. */
  lemma WeekOverIff(v: Views, now: int)
    ensures WeekOver(v, now) <==> v.lastSnapshotDate.Some? && now - v.lastSnapshotDate.value >= SnapshotDays * DayMillis
  {
    var last := if v.lastSnapshotDate.Some? then v.lastSnapshotDate.value else now;
    var d := (now - last) as real;
    assert d / DayMillis as real >= SnapshotDays as real <==> d >= (SnapshotDays * DayMillis) as real;
  }

  /** With a positive previous week, the trend is the percentage change rounded half up, in integers. */
  lemma TrendInIntegers(isAdmin: bool, v: Views, now: int)
    requires Roll(isAdmin, v, now).Some? && PreviousWeekly(v) > 0
    ensures var p := PreviousWeekly(v);
      Roll(isAdmin, v, now).value.trendPercentage
        == (200 * (Roll(isAdmin, v, now).value.weeklyViews - p) + p) / (2 * p)
  {
    var p := PreviousWeekly(v);
    var n := Roll(isAdmin, v, now).value.weeklyViews;
    PercentPlusHalf(n - p, p);
    RoundHalfUp(200 * (n - p) + p, 2 * p, (n - p) as real / p as real * 100.0);
  }

  /** `m / p * 100 + 1/2` as one fraction. */
  lemma PercentPlusHalf(m: int, p: int)
    requires p > 0
    ensures m as real / p as real * 100.0 + 0.5 == (200 * m + p) as real / (2 * p) as real
  {
    var r := m as real / p as real;
    var y := r * 100.0 + 0.5;
    var d := (2 * p) as real;
    var z := (200 * m + p) as real;
    assert r * p as real == m as real;
    assert y * d == z;
    assert z / d * d == z;
    assert d > 0.0;
    assert (y - z / d) * d == 0.0;
    assert y - z / d == 0.0;
  }

  /** Rounding `a / b - 1/2 + 1/2` down is integer division of `a` by `b`. */
  lemma RoundHalfUp(a: int, b: int, x: real)
    requires b > 0 && x + 0.5 == a as real / b as real
    ensures Round(x) == a / b
  {
    var q := a / b;
    assert q * b <= a < (q + 1) * b;
    assert (q * b) as real <= a as real < ((q + 1) * b) as real;
    assert q as real <= a as real / b as real < (q + 1) as real;
  }

  /** The figures shown, all read from the document as it was before any roll. */
  function ReportOf(v: Views): (r: Report)
    ensures r.views == Total(v)
    ensures r.weekly == Total(v) - Or(v.lastSnapshotCount, 0)
    ensures r.trend == Or(v.trendPercentage, 0)
  {
    Report(Total(v), Total(v) - Or(v.lastSnapshotCount, 0), Or(v.trendPercentage, 0))
  }

  /** The metrics after a snapshot has been written. */
  function Applied(v: Views, w: Snapshot): Views {
    v.(lastSnapshotDate := Some(w.date), lastSnapshotCount := Some(w.count),
       weeklyViews := Some(w.weeklyViews), trendPercentage := Some(w.trendPercentage))
  }

  /** One call of the document listener: what is written back and what is shown. */
  function OnSnapshot(isAdmin: bool, docExists: bool, views: Option<Views>, now: int): (r: (Option<Snapshot>, Option<Report>))
    ensures !docExists ==> r == (None, None)
    ensures docExists && views.Some? ==> r == (Roll(isAdmin, views.value, now), Some(ReportOf(views.value)))
    ensures docExists && views.None? ==> r == (None, Some(Report(0, 0, 0)))
  {
    if !docExists then (None, None)
    else
      var v := if views.Some? then views.value else NoViews;
      (Roll(isAdmin, v, now), Some(ReportOf(v)))
  }

  /** The admin flag never changes what is shown by the same call. */
  lemma ReportIgnoresRoll(docExists: bool, views: Option<Views>, now: int)
    ensures OnSnapshot(true, docExists, views, now).1 == OnSnapshot(false, docExists, views, now).1
  {
  }

  /** Without the snapshot date, the admin's listener never writes. */
  lemma NoDateNoRoll(isAdmin: bool, v: Views, now: int)
    requires v.lastSnapshotDate.None?
    ensures Roll(isAdmin, v, now).None?
  {
  }

  /** Once a snapshot is written, the next report shows no views this week and the written trend. */
  lemma ReportAfterRoll(isAdmin: bool, v: Views, now: int)
    requires Roll(isAdmin, v, now).Some?
    ensures var w := Roll(isAdmin, v, now).value;
      ReportOf(Applied(v, w)) == Report(Total(v), 0, w.trendPercentage)
  {
  }

  /** A just-computed trend is not what the same call shows. */
  lemma ShownTrendIsStored()
    ensures var v := Views(Some(30), Some(0), Some(10), Some(10), Some(5));
      Roll(true, v, 7 * DayMillis).value.trendPercentage == 100
      && ReportOf(v).trend == 5
  {
    var v := Views(Some(30), Some(0), Some(10), Some(10), Some(5));
    WeekOverIff(v, 7 * DayMillis);
    PercentPlusHalf(20 - 10, 10);
    RoundHalfUp(200 * (20 - 10) + 10, 2 * 10, (20 - 10) as real / 10 as real * 100.0);
  }

  /** `!doc.data().read`. */
  predicate IsUnread(d: Doc) {
    !Truthy(Get(d, "read"))
  }

  function UnreadFilter(): Doc -> bool {
    (d: Doc) => IsUnread(d)
  }

  /** The number of messages whose `read` is falsy, counted one message at a time. */
  function UnreadCount(docs: seq<Doc>): nat {
    if docs == [] then 0 else (if IsUnread(docs[0]) then 1 else 0) + UnreadCount(docs[1..])
  }

  /** The count of unread messages adds up over a concatenation. */
  lemma {:induction false} UnreadCountConcat(a: seq<Doc>, b: seq<Doc>)
    ensures UnreadCount(a + b) == UnreadCount(a) + UnreadCount(b)
  {
    if a == [] {
      assert a + b == b;
    } else {
      assert (a + b)[1..] == a[1..] + b;
      UnreadCountConcat(a[1..], b);
    }
  }

  /** Filtering on `!read` keeps exactly the unread messages. */
  lemma {:induction false} FilterCountsUnread(docs: seq<Doc>)
    ensures |Filter(docs, UnreadFilter())| == UnreadCount(docs)
  {
    if docs != [] {
      FilterCountsUnread(docs[1..]);
    }
  }

  /** `useInboxCount`: the number of messages and the number whose `read` is falsy. */
  function InboxCount(docs: seq<Doc>): (r: (nat, nat))
    ensures r.0 == |docs|
    ensures r.1 == UnreadCount(docs)
    ensures r.1 <= r.0
    ensures r.1 == |docs| <==> forall i :: 0 <= i < |docs| ==> IsUnread(docs[i])
  {
    var unread := Filter(docs, UnreadFilter());
    FilterCountAll(docs, UnreadFilter());
    FilterCountsUnread(docs);
    (|docs|, |unread|)
  }
}
