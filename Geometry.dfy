/**
 * Measured layout that the browser reports to the board: points, bounding
 * rectangles and the timeline's day markers, plus the two geometric helpers
 * the closest-date searches share.
 */
module Geometry {
  import opened Wrappers

  /** A screen or canvas coordinate pair. */
  datatype Point = Point(x: real, y: real) {
    function Plus(d: Point): Point { Point(x + d.x, y + d.y) }
    function Minus(d: Point): Point { Point(x - d.x, y - d.y) }
  }

  /** A bounding client rectangle, as `getBoundingClientRect` reports it. */
  datatype Rect = Rect(left: real, top: real, width: real, height: real) {
    function Bottom(): real { top + height }
    function CenterX(): real { left + width / 2.0 }
    function TopLeft(): Point { Point(left, top) }
    function Shift(d: Point): Rect { Rect(left + d.x, top + d.y, width, height) }
  }

  /**
   * A rendered `.timeline-day` element: its rectangle and its `data-date`
   * attribute, already read as a day number (None when the attribute is absent).
   */
  datatype DayElement = DayElement(rect: Rect, dataDate: Option<int>)

  function Abs(v: real): (r: real)
    ensures r >= 0.0
    ensures r == v || r == -v
  {
    if v < 0.0 then -v else v
  }

  /**
   * The index a left-to-right scan keeps when it replaces its candidate only
   * on a strictly smaller value: a smallest entry, and the first of them.
   */
  function ArgMinFirst(d: seq<real>): (k: nat)
    requires |d| > 0
    ensures k < |d|
    ensures forall j :: 0 <= j < |d| ==> d[k] <= d[j]
    ensures forall j :: 0 <= j < k ==> d[k] < d[j]
  {
    if |d| == 1 then 0
    else
      var k := ArgMinFirst(d[..|d| - 1]);
      if d[|d| - 1] < d[k] then |d| - 1 else k
  }

  /** The two properties of ArgMinFirst determine it: any first minimum is that index. */
  lemma ArgMinFirstUnique(d: seq<real>, k: nat)
    requires k < |d|
    requires forall j :: 0 <= j < |d| ==> d[k] <= d[j]
    requires forall j :: 0 <= j < k ==> d[k] < d[j]
    ensures k == ArgMinFirst(d)
  {
  }

  /** One step of the scan: extending the list by one entry extends ArgMinFirst the way the loop body does. */
  lemma ArgMinFirstStep(d: seq<real>, i: nat)
    requires 0 < i < |d|
    ensures ArgMinFirst(d[..i + 1]) == if d[i] < d[ArgMinFirst(d[..i])] then i else ArgMinFirst(d[..i])
  {
    assert d[..i + 1][..i] == d[..i];
  }
}
