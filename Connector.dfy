/**
 * The curved connector from an item to its date marker
 * (client/src/components/Connector.tsx): a quadratic Bézier path from the
 * item's centre to the top-centre of the first marker carrying the item's
 * date, every coordinate shifted by the page scroll.
 */
module Connector {
  import opened Wrappers
  import opened Geometry
  import opened Schema

  /** The SVG path `M start Q control end`. */
  datatype QuadPath = QuadPath(start: Point, control: Point, end: Point) {
    function Translate(d: Point): QuadPath {
      QuadPath(start.Plus(d), control.Plus(d), end.Plus(d))
    }
  }

  /** Centre of the item's rectangle. */
  function ItemCenter(r: Rect): Point {
    Point(r.left + r.width / 2.0, r.top + r.height / 2.0)
  }

  /** Top-centre of the date marker's rectangle. */
  function DateAnchor(r: Rect): Point {
    Point(r.CenterX(), r.top)
  }

  /**
   * The control point: halfway across, and a fifth of the vertical gap back
   * from the date toward the item, above for an item above the timeline and
   * below otherwise. Either way it lies on the segment's vertical span.
   */
  function ControlPoint(item: Point, date: Point): (c: Point)
    ensures c.x == (item.x + date.x) / 2.0
    ensures c.y == 0.8 * date.y + 0.2 * item.y
    ensures item.y < date.y ==> item.y < c.y < date.y
    ensures date.y <= item.y ==> date.y <= c.y <= item.y
  {
    var isAboveTimeline := item.y < date.y;
    var controlX := (item.x + date.x) / 2.0;
    if isAboveTimeline then
      Point(controlX, date.y - Abs(date.y - item.y) * 0.2)
    else
      Point(controlX, date.y + Abs(date.y - item.y) * 0.2)
  }

  /** The path between two measured rectangles, shifted by the page scroll. */
  function PathBetween(itemRect: Rect, dateRect: Rect, scroll: Point): (p: QuadPath)
    ensures p.start == ItemCenter(itemRect).Plus(scroll)
    ensures p.end == DateAnchor(dateRect).Plus(scroll)
    ensures p.control.x == (p.start.x + p.end.x) / 2.0
    ensures p.control.y == 0.8 * p.end.y + 0.2 * p.start.y
  {
    var itemCenter := ItemCenter(itemRect);
    var dateCenter := DateAnchor(dateRect);
    QuadPath(itemCenter.Plus(scroll), ControlPoint(itemCenter, dateCenter).Plus(scroll), dateCenter.Plus(scroll))
  }

  /** The page scroll only translates the path. */
  lemma PathScrollTranslates(itemRect: Rect, dateRect: Rect, scroll: Point)
    ensures PathBetween(itemRect, dateRect, scroll) == PathBetween(itemRect, dateRect, Point(0.0, 0.0)).Translate(scroll)
  {
  }

  /** Moving both rectangles by the same offset moves the whole path by it. */
  lemma PathTranslationEquivariant(itemRect: Rect, dateRect: Rect, scroll: Point, d: Point)
    ensures PathBetween(itemRect.Shift(d), dateRect.Shift(d), scroll) == PathBetween(itemRect, dateRect, scroll).Translate(d)
  {
    var a, b := ItemCenter(itemRect), DateAnchor(dateRect);
    assert ItemCenter(itemRect.Shift(d)) == a.Plus(d);
    assert DateAnchor(dateRect.Shift(d)) == b.Plus(d);
    assert ControlPoint(a.Plus(d), b.Plus(d)) == ControlPoint(a, b).Plus(d);
  }

  /** `querySelectorAll('.timeline-day[data-date="…"]')[0]`: the first marker carrying `day`. */
  function FirstDateElement(els: seq<DayElement>, day: int): (r: Option<nat>)
    ensures r.None? <==> forall j :: 0 <= j < |els| ==> els[j].dataDate != Some(day)
    ensures r.Some? ==> r.value < |els| && els[r.value].dataDate == Some(day)
    ensures r.Some? ==> forall j :: 0 <= j < r.value ==> els[j].dataDate != Some(day)
  {
    if |els| == 0 then None
    else if els[0].dataDate == Some(day) then Some(0)
    else
      match FirstDateElement(els[1..], day)
      case None => None
      case Some(k) => Some(k + 1)
  }

  /**
   * `calculateConnectorPath`: no path when the item element is not mounted or
   * no marker carries the item's date; otherwise the path to the first such marker.
   */
  function ConnectorPath(itemEl: Option<Rect>, dateEls: seq<DayElement>, connectedDate: int, scroll: Point): (r: Option<QuadPath>)
    ensures r.None? <==> itemEl.None? || forall j :: 0 <= j < |dateEls| ==> dateEls[j].dataDate != Some(connectedDate)
    ensures r.Some? ==> exists k :: (
      && 0 <= k < |dateEls| && dateEls[k].dataDate == Some(connectedDate)
      && (forall j :: 0 <= j < k ==> dateEls[j].dataDate != Some(connectedDate))
      && r.value == PathBetween(itemEl.value, dateEls[k].rect, scroll))
  {
    if itemEl.None? then None
    else
      match FirstDateElement(dateEls, connectedDate)
      case None => None
      case Some(k) => Some(PathBetween(itemEl.value, dateEls[k].rect, scroll))
  }

  /** `getConnectorColor`: one colour per known type, `#999` for anything else. */
  function ConnectorColor(itemType: string): (color: string)
    ensures color == "#999" <==> ParseKind(itemType).None?
  {
    match itemType
    case "text" => "#A02C2C"
    case "task" => "#DC6238"
    case "event" => "#2A4B7C"
    case "image" => "#5D3A1A"
    case _ => "#999"
  }

  /** Different kinds get different connector colours. */
  lemma ConnectorColorsDistinct(k1: ItemKind, k2: ItemKind)
    ensures ConnectorColor(KindName(k1)) == ConnectorColor(KindName(k2)) ==> k1 == k2
  {
  }

  /** The component's state: the last computed `path` and `isVisible`. */
  class ConnectorView {
    var path: Option<QuadPath>
    var isVisible: bool

    ghost predicate Valid()
      reads this
    {
      isVisible <==> path.Some?
    }

    /** Mounting runs the first calculation. */
    constructor (itemEl: Option<Rect>, dateEls: seq<DayElement>, connectedDate: int, scroll: Point)
      ensures Valid()
      ensures path == ConnectorPath(itemEl, dateEls, connectedDate, scroll)
    {
      path := None;
      isVisible := false;
      new;
      CalculateConnectorPath(itemEl, dateEls, connectedDate, scroll);
    }

    /**
     * A recalculation (resize, scroll, the one-second interval). A pass that
     * finds no path returns early and leaves the previous path on screen.
     */
    method CalculateConnectorPath(itemEl: Option<Rect>, dateEls: seq<DayElement>, connectedDate: int, scroll: Point)
      requires Valid()
      modifies this
      ensures Valid()
      ensures var r := ConnectorPath(itemEl, dateEls, connectedDate, scroll);
        if r.Some? then path == r && isVisible else path == old(path) && isVisible == old(isVisible)
    {
      var r := ConnectorPath(itemEl, dateEls, connectedDate, scroll);
      if r.Some? {
        path := r;
        isVisible := true;
      }
    }

    /**
     * What is drawn: nothing unless visible with a path. By `Valid()` the
     * visibility test never hides a computed path, so what is drawn is the path.
     */
    function Rendered(): (r: Option<QuadPath>)
      reads this
      requires Valid()
      ensures r == path
    {
      if !isVisible || path.None? then None else path
    }
  }
}
