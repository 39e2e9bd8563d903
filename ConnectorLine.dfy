/**
 * The straight canvas connector (client/src/lib/utils/connector.ts): a line
 * from an item's position to just below its closest timeline day, with a dot
 * at the end, plus the squared point distance.
 */
module ConnectorLine {
  import opened Wrappers
  import opened Geometry
  import opened Schema
  import opened DateUtils

  /** Gap between the bottom of a day marker and the connector's end. */
  const BelowMarker := 15.0
  const DotRadius := 5.0

  /** The shapes the function creates: a `Konva.Line` and a `Konva.Circle`. */
  datatype Shape = Line(from: Point, to: Point) | Dot(center: Point, radius: real)

  /** The whiteboard container: its `offsetLeft` and its bounding rectangle. */
  datatype Container = Container(offsetLeft: real, rect: Rect)

  /** The returned line and the shapes added to the layer, in order. */
  datatype Drawn = Drawn(connector: Shape, added: seq<Shape>)

  /** Where the connector ends for a day marker: its centre, 15 below its bottom, in container coordinates. */
  function DayBottom(day: Rect, container: Container): Point {
    Point(day.CenterX() - container.rect.left, day.Bottom() - container.rect.top + BelowMarker)
  }

  /**
   * `drawConnector`. The closest day is searched at `offsetLeft + position.x`.
   * Without one the result is a zero-length line at the item and nothing is
   * added; otherwise the line runs from the item to `DayBottom` of that day
   * and the line and then a dot centred on its end are added.
   */
  function DrawConnector(obj: Item, timelineDays: seq<Rect>, container: Container): (d: Drawn)
    ensures d.connector.Line? && d.connector.from == obj.position
    ensures |timelineDays| == 0 ==> d.connector.to == obj.position && d.added == []
    ensures |timelineDays| > 0 ==>
      var k := ClosestDateElement(timelineDays, container.offsetLeft + obj.position.x).value;
      && d.connector.to == DayBottom(timelineDays[k], container)
      && d.added == [d.connector, Dot(d.connector.to, DotRadius)]
  {
    var objectX := obj.position.x;
    var objectY := obj.position.y;
    var objectContainerX := container.offsetLeft + objectX;
    match ClosestDateElement(timelineDays, objectContainerX)
    case None =>
      Drawn(Line(Point(objectX, objectY), Point(objectX, objectY)), [])
    case Some(k) =>
      var dayBottom := DayBottom(timelineDays[k], container);
      var connector := Line(Point(objectX, objectY), dayBottom);
      Drawn(connector, [connector, Dot(dayBottom, DotRadius)])
  }

  /** The square of `calculateDistance`: `(x2 - x1)² + (y2 - y1)²`; never negative, zero for coinciding points. */
  function DistanceSquared(x1: real, y1: real, x2: real, y2: real): (r: real)
    ensures r >= 0.0
    ensures x1 == x2 && y1 == y2 ==> r == 0.0
  {
    var dx, dy := x2 - x1, y2 - y1;
    SumOfSquares(dx, dy);
    dx * dx + dy * dy
  }

  lemma PositiveSquare(w: real)
    requires w > 0.0
    ensures w * w > 0.0
  {
    assert w * w > 0.0 * w;
  }

  lemma SquareNonNegative(v: real)
    ensures v * v >= 0.0
  {
    if v > 0.0 {
      PositiveSquare(v);
    } else if v < 0.0 {
      var w := 0.0 - v;
      PositiveSquare(w);
      assert v * v == w * w;
    }
  }

  lemma SumOfSquares(a: real, b: real)
    ensures a * a + b * b >= 0.0
    ensures a == 0.0 && b == 0.0 ==> a * a + b * b == 0.0
  {
    SquareNonNegative(a);
    SquareNonNegative(b);
    if a == 0.0 && b == 0.0 {
      assert a * a == 0.0 * 0.0;
    }
  }

  /** Distance does not depend on the order of the two points. */
  lemma DistanceSymmetric(x1: real, y1: real, x2: real, y2: real)
    ensures DistanceSquared(x1, y1, x2, y2) == DistanceSquared(x2, y2, x1, y1)
  {
  }
}
