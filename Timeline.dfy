/**
 * The rolling day window of the timeline (client/src/components/Timeline.tsx):
 * 45 consecutive days around `startDate`, regenerated when `startDate` moves
 * back and extended at the tail when the view nears the right edge.
 */
module Timeline {
  import opened DateUtils

  const WindowDays := 45
  const DaysBefore := 15
  const EdgeThreshold := 200.0
  const BatchDays := 5
  /** Pixels added to `scrollLeft` when the window moves back. */
  const ScrollCompensation := 700.0

  /** The window the generating effect builds for a start date. */
  function Window(startDate: int): (r: seq<int>)
    ensures |r| == WindowDays && r[0] == startDate - DaysBefore && r[DaysBefore] == startDate
    ensures Contiguous(r)
  {
    DateRange(startDate - DaysBefore, WindowDays)
  }

  /** The forward extension: five more days after the current last one. */
  function ExtendForward(days: seq<int>): (r: seq<int>)
    requires |days| > 0
    ensures |r| == |days| + BatchDays && r[..|days|] == days
    ensures forall i :: |days| <= i < |r| ==> r[i] == days[|days| - 1] + (i - |days|) + 1
  {
    days + DateRange(days[|days| - 1] + 1, BatchDays)
  }

  /** Extending a contiguous window keeps it contiguous. */
  lemma ExtendForwardContiguous(days: seq<int>)
    requires |days| > 0 && Contiguous(days)
    ensures Contiguous(ExtendForward(days))
  {
    var r := ExtendForward(days);
    forall i | 0 < i < |r| ensures r[i] == r[i - 1] + 1 {
      if i < |days| {
        assert r[i] == days[i] && r[i - 1] == days[i - 1];
      } else if i == |days| {
        assert r[i - 1] == days[|days| - 1];
      }
    }
  }

  /** Extending the window `DateRange(s, n)` gives `DateRange(s, n + 5)`. */
  lemma ExtendForwardRange(s: int, n: int)
    requires n > 0
    ensures ExtendForward(DateRange(s, n)) == DateRange(s, n + BatchDays)
  {
  }

  /**
   * The backward branch does not grow the window: regenerating 45 days from
   * the earlier start adds five days in front but drops the last day shown
   * (and every day appended at the tail), so the window never gets longer.
   */
  lemma BackwardRegenerationDropsTail(startDate: int, n: int)
    requires n >= WindowDays
    ensures var before := DateRange(startDate - DaysBefore, n);
      var after := Window(startDate - BatchDays);
      && |after| <= |before|
      && after[0] == before[0] - BatchDays
      && before[|before| - 1] !in after
  {
    var before := DateRange(startDate - DaysBefore, n);
    var after := Window(startDate - BatchDays);
    assert after == DateRange(startDate - BatchDays - DaysBefore, WindowDays);
    assert forall i :: 0 <= i < |after| ==> after[i] < before[|before| - 1];
  }

  /** Which branch a scroll event takes; the left edge wins when both apply. */
  datatype ScrollEdge = NearStart | NearEnd | Away

  function EdgeOf(scrollLeft: real, scrollWidth: real, clientWidth: real): (e: ScrollEdge)
    ensures e == NearStart <==> scrollLeft < EdgeThreshold
    ensures e == NearEnd <==> !(scrollLeft < EdgeThreshold) && scrollWidth - (scrollLeft + clientWidth) < EdgeThreshold
  {
    if scrollLeft < EdgeThreshold then NearStart
    else if scrollWidth - (scrollLeft + clientWidth) < EdgeThreshold then NearEnd
    else Away
  }

  class TimelineView {
    var startDate: int
    var timelineDays: seq<int>
    /** The `#timeline` container's `scrollLeft`. */
    var scrollLeft: real

    /**
     * The window starts 15 days before `startDate`, is contiguous, and is 45
     * days plus some number of five-day forward extensions.
     */
    ghost predicate Valid()
      reads this
    {
      && |timelineDays| >= WindowDays
      && (|timelineDays| - WindowDays) % BatchDays == 0
      && timelineDays == DateRange(startDate - DaysBefore, |timelineDays|)
    }

    /** Mounting: `startDate` is today and the generating effect runs once. */
    constructor (today: int, initialScrollLeft: real)
      ensures Valid()
      ensures startDate == today && timelineDays == Window(today) && timelineDays[DaysBefore] == today
      ensures scrollLeft == initialScrollLeft
    {
      startDate := today;
      scrollLeft := initialScrollLeft;
      timelineDays := [];
      new;
      GenerateDays();
    }

    /** The effect on `startDate`: push 45 days starting 15 days before it. */
    method GenerateDays()
      modifies this`timelineDays
      ensures timelineDays == Window(startDate)
    {
      var days: seq<int> := [];
      var startPoint := startDate - DaysBefore;
      var i := 0;
      while i < WindowDays
        invariant 0 <= i <= WindowDays
        invariant days == DateRange(startPoint, i)
      {
        days := days + [startPoint + i];
        i := i + 1;
      }
      timelineDays := days;
    }

    /**
     * `handleScroll`. Near the left edge `startDate` moves back five days, the
     * scroll offset grows by 700 and the window is regenerated, which drops
     * any days appended earlier; otherwise, near the right edge, five days are
     * appended; otherwise nothing changes.
     */
    method HandleScroll(scrollWidth: real, clientWidth: real)
      requires Valid()
      modifies this
      ensures Valid()
      ensures old(scrollLeft) < EdgeThreshold ==>
        && startDate == old(startDate) - BatchDays
        && scrollLeft == old(scrollLeft) + ScrollCompensation
        && timelineDays == Window(startDate)
      ensures EdgeOf(old(scrollLeft), scrollWidth, clientWidth) == NearEnd ==>
        && startDate == old(startDate) && scrollLeft == old(scrollLeft)
        && timelineDays == ExtendForward(old(timelineDays))
      ensures EdgeOf(old(scrollLeft), scrollWidth, clientWidth) == Away ==>
        && startDate == old(startDate) && scrollLeft == old(scrollLeft)
        && timelineDays == old(timelineDays)
    {
      if scrollLeft < EdgeThreshold {
        startDate := startDate - BatchDays;
        scrollLeft := scrollLeft + ScrollCompensation;
        GenerateDays();
      } else if scrollWidth - (scrollLeft + clientWidth) < EdgeThreshold {
        ExtendForwardRange(startDate - DaysBefore, |timelineDays|);
        timelineDays := ExtendForward(timelineDays);
      }
    }

    /** The user scrolls the container to `newScrollLeft`, which fires the scroll handler. */
    method Scroll(newScrollLeft: real, scrollWidth: real, clientWidth: real)
      requires Valid()
      modifies this
      ensures Valid()
      ensures StrictlyIncreasing(timelineDays)
      ensures newScrollLeft < EdgeThreshold ==> startDate == old(startDate) - BatchDays
      ensures !(newScrollLeft < EdgeThreshold) ==> startDate == old(startDate) && |timelineDays| >= old(|timelineDays|)
    {
      scrollLeft := newScrollLeft;
      HandleScroll(scrollWidth, clientWidth);
      DateRangeContiguous(startDate - DaysBefore, |timelineDays|);
    }
  }
}
