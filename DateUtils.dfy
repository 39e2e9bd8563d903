/**
 * Date ranges, week views and the closest-date-element search
 * (client/src/lib/utils/dateUtils.ts). A date is a day number: day 0 is
 * 1970-01-01, a Thursday, and `addDays(d, n)` is `d + n`.
 */
module DateUtils {
  import opened Wrappers
  import opened Geometry

  /** `count` consecutive days from `start`; none when `count` is not positive. */
  function DateRange(start: int, count: int): (r: seq<int>)
    ensures |r| == if count < 0 then 0 else count
    ensures forall i :: 0 <= i < |r| ==> r[i] == start + i
    decreases count
  {
    if count <= 0 then [] else DateRange(start, count - 1) + [start + count - 1]
  }

  /** No day is skipped between neighbours. */
  ghost predicate Contiguous(s: seq<int>) {
    forall i :: 0 < i < |s| ==> s[i] == s[i - 1] + 1
  }

  ghost predicate StrictlyIncreasing(s: seq<int>) {
    forall i, j :: 0 <= i < j < |s| ==> s[i] < s[j]
  }

  lemma DateRangeContiguous(start: int, count: int)
    ensures Contiguous(DateRange(start, count))
    ensures StrictlyIncreasing(DateRange(start, count))
  {
  }

  /** `generateDateRange`: pushes `addDays(start, i)` for i = 0 .. daysCount-1. */
  method GenerateDateRange(startDate: int, daysCount: int) returns (dates: seq<int>)
    ensures dates == DateRange(startDate, daysCount)
  {
    dates := [];
    var i := 0;
    while i < daysCount
      invariant 0 <= i <= if daysCount < 0 then 0 else daysCount
      invariant dates == DateRange(startDate, i)
    {
      dates := dates + [startDate + i];
      i := i + 1;
    }
  }

  /** `generateCenteredDateRange`: `Math.floor(daysCount / 2)` days before the centre (Dafny's `/` floors for a positive divisor). */
  method GenerateCenteredDateRange(centerDate: int, daysCount: int) returns (dates: seq<int>)
    ensures dates == DateRange(centerDate - daysCount / 2, daysCount)
    ensures daysCount >= 1 ==> |dates| == daysCount && dates[daysCount / 2] == centerDate
  {
    var halfDays := daysCount / 2;
    var start := centerDate - halfDays;
    dates := GenerateDateRange(start, daysCount);
  }

  /** Day of the week, 0 = Monday .. 6 = Sunday (day 0 is a Thursday). */
  function Weekday(d: int): (w: int)
    ensures 0 <= w < 7
  {
    (d + 3) % 7
  }

  /** 1970-01-01, day 0, was a Thursday, and 1970-01-05 the first Monday. */
  lemma EpochWeekdays()
    ensures Weekday(0) == 3 && Weekday(4) == 0
  {
  }

  /** The next day is the next weekday, Sunday being followed by Monday. */
  lemma WeekdayNext(d: int)
    ensures Weekday(d + 1) == (Weekday(d) + 1) % 7
  {
    var q := (d + 3) / 7;
    var r := (d + 3) % 7;
    assert d + 3 == 7 * q + r;
    if r < 6 {
      ModOfMultiplePlus(q, r + 1);
    } else {
      ModOfMultiplePlus(q + 1, 0);
    }
  }

  /** `startOfWeek(d, { weekStartsOn: 1 })`: the Monday on or before `d`. */
  function StartOfWeek(d: int): (r: int)
    ensures r <= d < r + 7
    ensures Weekday(r) == 0
  {
    d - Weekday(d)
  }

  /** A week later, the week starts a week later. */
  lemma StartOfWeekShift(d: int)
    ensures StartOfWeek(d + 7) == StartOfWeek(d) + 7
    ensures StartOfWeek(d - 7) == StartOfWeek(d) - 7
  {
    assert Weekday(d + 7) == Weekday(d) by { assert (d + 7) + 3 == (d + 3) + 7; }
    assert Weekday(d - 7) == Weekday(d) by { assert (d - 7) + 3 == (d + 3) - 7; }
  }

  /** The seven days of the week view that contains `d`. */
  function WeekDates(d: int): (r: seq<int>)
    ensures |r| == 7 && Weekday(r[0]) == 0 && r[Weekday(d)] == d
    ensures forall i :: 0 <= i < 7 ==> r[i] == StartOfWeek(d) + i
  {
    DateRange(StartOfWeek(d), 7)
  }

  /** `generateWeekDates`: Monday to Sunday of the week containing `date`. */
  method GenerateWeekDates(date: int) returns (dates: seq<int>)
    ensures dates == WeekDates(date)
    ensures |dates| == 7 && Weekday(dates[0]) == 0 && date in dates
  {
    var startOfTheWeek := StartOfWeek(date);
    dates := GenerateDateRange(startOfTheWeek, 7);
  }

  /** `getNextWeekDates`: the current week view, every day a week later. */
  method GetNextWeekDates(currentWeekDate: int) returns (dates: seq<int>)
    ensures dates == WeekDates(currentWeekDate + 7)
    ensures |dates| == 7 && forall i :: 0 <= i < 7 ==> dates[i] == WeekDates(currentWeekDate)[i] + 7
  {
    StartOfWeekShift(currentWeekDate);
    dates := GenerateWeekDates(currentWeekDate + 7);
  }

  /** `getPreviousWeekDates`: the current week view, every day a week earlier. */
  method GetPreviousWeekDates(currentWeekDate: int) returns (dates: seq<int>)
    ensures dates == WeekDates(currentWeekDate - 7)
    ensures |dates| == 7 && forall i :: 0 <= i < 7 ==> dates[i] == WeekDates(currentWeekDate)[i] - 7
  {
    StartOfWeekShift(currentWeekDate);
    dates := GenerateWeekDates(currentWeekDate - 7);
  }

  lemma ModOfMultiplePlus(q: int, i: int)
    requires 0 <= i < 7
    ensures (7 * q + i) % 7 == i
  {
    var x := 7 * q + i;
    var r := x % 7;
    var p := x / 7;
    assert x == 7 * p + r && 0 <= r < 7;
    assert 7 * (p - q) == i - r;
  }

  /** Every day of a shown week shows that same week again. */
  lemma WeekOfItsOwnDays(d: int, i: int)
    requires 0 <= i < 7
    ensures WeekDates(WeekDates(d)[i]) == WeekDates(d)
  {
    var s := StartOfWeek(d);
    var q := (s + 3) / 7;
    assert s + 3 == 7 * q;
    ModOfMultiplePlus(q, i);
    assert s + i + 3 == 7 * q + i;
  }

  /** Stepping to the next week and back from its first day returns to the same week view. */
  lemma NextThenPreviousWeek(d: int)
    ensures WeekDates(WeekDates(d + 7)[0] - 7) == WeekDates(d)
  {
    StartOfWeekShift(d);
    WeekOfItsOwnDays(d, 0);
  }

  /** Horizontal distance from `x` to each element's centre. */
  function Distances(els: seq<Rect>, x: real): (ds: seq<real>)
    ensures |ds| == |els|
    ensures forall i :: 0 <= i < |els| ==> ds[i] == Abs(els[i].CenterX() - x)
  {
    seq(|els|, i requires 0 <= i < |els| => Abs(els[i].CenterX() - x))
  }

  /**
   * The element whose centre is horizontally nearest to `x`, the first such
   * on a tie; None exactly for an empty list.
   */
  function ClosestDateElement(els: seq<Rect>, x: real): (r: Option<nat>)
    ensures r.None? <==> |els| == 0
    ensures r.Some? ==> r.value < |els|
    ensures r.Some? ==> forall j :: 0 <= j < |els| ==>
      Abs(els[r.value].CenterX() - x) <= Abs(els[j].CenterX() - x)
    ensures r.Some? ==> forall j :: 0 <= j < r.value ==>
      Abs(els[r.value].CenterX() - x) < Abs(els[j].CenterX() - x)
  {
    if |els| == 0 then None else Some(ArgMinFirst(Distances(els, x)))
  }

  /**
   * `findClosestDateElement`: a scan that keeps the first element whose distance is
   * strictly below `minDistance` (which starts at Infinity, so element 0 is always taken).
   */
  method FindClosestDateElement(x: real, timelineElements: seq<Rect>) returns (closest: Option<nat>)
    ensures closest == ClosestDateElement(timelineElements, x)
  {
    if |timelineElements| == 0 {
      return None;
    }
    ghost var ds := Distances(timelineElements, x);
    var best: nat := 0;
    var minDistance: real := 0.0;
    var i := 0;
    while i < |timelineElements|
      invariant 0 <= i <= |timelineElements|
      invariant 0 < i ==> best == ArgMinFirst(ds[..i]) && minDistance == ds[best]
    {
      var rect := timelineElements[i];
      var centerX := rect.left + rect.width / 2.0;
      var distance := Abs(centerX - x);
      if i == 0 || distance < minDistance {
        minDistance := distance;
        best := i;
      }
      if 0 < i {
        ArgMinFirstStep(ds, i);
      }
      i := i + 1;
    }
    assert ds[..i] == ds;
    closest := Some(best);
  }
}
