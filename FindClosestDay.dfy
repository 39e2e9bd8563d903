/**
 * Binding a canvas position to a calendar day (client/src/lib/utils/findClosestDay.ts):
 * the `.timeline-day` marker horizontally nearest to `x`, read from its
 * `data-date`, with the current day as the fallback.
 */
module FindClosestDay {
  import opened Wrappers
  import opened Geometry

  /** The `#timeline` container: its rectangle and its horizontal scroll offset. */
  datatype TimelineBox = TimelineBox(rect: Rect, scrollLeft: real)

  /** A marker's centre in the timeline's scrolled content coordinates. */
  function MarkerCenter(day: Rect, timeline: TimelineBox): real {
    day.CenterX() - timeline.rect.left + timeline.scrollLeft
  }

  function MarkerDistances(days: seq<DayElement>, timeline: TimelineBox, x: real): (ds: seq<real>)
    ensures |ds| == |days|
    ensures forall i :: 0 <= i < |days| ==> ds[i] == Abs(MarkerCenter(days[i].rect, timeline) - x)
  {
    seq(|days|, i requires 0 <= i < |days| => Abs(MarkerCenter(days[i].rect, timeline) - x))
  }

  /** The marker nearest to `x` horizontally, the first of them on a tie. */
  function ClosestMarker(days: seq<DayElement>, timeline: TimelineBox, x: real): (k: nat)
    requires |days| > 0
    ensures k < |days|
    ensures forall j :: 0 <= j < |days| ==>
      Abs(MarkerCenter(days[k].rect, timeline) - x) <= Abs(MarkerCenter(days[j].rect, timeline) - x)
    ensures forall j :: 0 <= j < k ==>
      Abs(MarkerCenter(days[k].rect, timeline) - x) < Abs(MarkerCenter(days[j].rect, timeline) - x)
  {
    ArgMinFirst(MarkerDistances(days, timeline, x))
  }

  /**
   * `findClosestDay(x, y)`. The page's horizontal scroll `windowScrollX` enters
   * both the marker centre and the container's left edge and cancels; `y` is
   * never read. Missing markers, a missing container and a missing
   * `data-date` all fall back to `now`.
   */
  method FindClosestDay(x: real, y: real, days: seq<DayElement>, timeline: Option<TimelineBox>,
                        windowScrollX: real, now: int) returns (date: int)
    ensures |days| == 0 || timeline.None? ==> date == now
    ensures |days| > 0 && timeline.Some? ==>
      date == days[ClosestMarker(days, timeline.value, x)].dataDate.GetOr(now)
  {
    if |days| == 0 {
      return now;
    }
    if timeline.None? {
      return now;
    }
    var box := timeline.value;
    var timelineLeft := box.rect.left + windowScrollX;
    ghost var ds := MarkerDistances(days, box, x);
    var closestDistance: real := 0.0;  // stands for Infinity while closestElement is None
    var closestElement: Option<nat> := None;
    var i := 0;
    while i < |days|
      invariant 0 <= i <= |days|
      invariant i == 0 <==> closestElement.None?
      invariant 0 < i ==> closestElement == Some(ArgMinFirst(ds[..i])) && closestDistance == ds[closestElement.value]
    {
      var rect := days[i].rect;
      var dayCenter := rect.left + rect.width / 2.0 + windowScrollX - timelineLeft + box.scrollLeft;
      var distance := Abs(dayCenter - x);
      if closestElement.None? || distance < closestDistance {
        closestDistance := distance;
        closestElement := Some(i);
      }
      if 0 < i {
        ArgMinFirstStep(ds, i);
      }
      i := i + 1;
    }
    assert ds[..i] == ds;
    match days[closestElement.value].dataDate {
      case Some(d) => date := d;
      case None => date := now;
    }
  }
}
