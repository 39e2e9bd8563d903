/**
 * The canvas hook (client/src/lib/hooks/useCanvas.ts): button zoom clamped
 * to 0.5..3, wheel zoom anchored at the pointer, and panning while a drag
 * flag is set. The Konva stage is taken to show the hook's `scale` and
 * `position`, so reading `stage.scaleX()` / `stage.x()` reads those.
 */
module Canvas {
  import opened Wrappers
  import opened Geometry

  const DefaultScaleBy := 1.1
  const MaxScale := 3.0
  const MinScale := 0.5

  /** `zoomIn`: `min(s * scaleBy, 3)`. */
  function ZoomedIn(s: real, scaleBy: real): (r: real)
    ensures r <= MaxScale && r <= s * scaleBy
    ensures r == s * scaleBy || r == MaxScale
  {
    if s * scaleBy < MaxScale then s * scaleBy else MaxScale
  }

  /** `zoomOut`: `max(s / scaleBy, 0.5)`. */
  function ZoomedOut(s: real, scaleBy: real): (r: real)
    requires scaleBy != 0.0
    ensures r >= MinScale && r >= s / scaleBy
    ensures r == s / scaleBy || r == MinScale
  {
    if s / scaleBy > MinScale then s / scaleBy else MinScale
  }

  /** With the default factor, the buttons keep a scale inside 0.5..3 inside it. */
  lemma ButtonsKeepScaleRange(s: real)
    requires MinScale <= s <= MaxScale
    ensures MinScale <= ZoomedIn(s, DefaultScaleBy) <= MaxScale
    ensures MinScale <= ZoomedOut(s, DefaultScaleBy) <= MaxScale
  {
  }

  /** Away from the lower clamp, zooming out and back in with the default factor restores the scale. */
  lemma ZoomOutThenIn(s: real)
    requires MinScale * DefaultScaleBy <= s <= MaxScale
    ensures ZoomedIn(ZoomedOut(s, DefaultScaleBy), DefaultScaleBy) == s
  {
  }

  /** Away from the upper clamp, zooming in and back out with the default factor restores the scale. */
  lemma ZoomInThenOut(s: real)
    requires MinScale <= s <= MaxScale / DefaultScaleBy
    ensures ZoomedOut(ZoomedIn(s, DefaultScaleBy), DefaultScaleBy) == s
  {
  }

  /** The stage's scale and top-left offset. */
  datatype Stage = Stage(scale: real, position: Point)

  /** `mousePointTo`: the canvas point drawn under the pointer. */
  function PointUnder(stage: Stage, pointer: Point): Point
    requires stage.scale > 0.0
  {
    Point((pointer.x - stage.position.x) / stage.scale, (pointer.y - stage.position.y) / stage.scale)
  }

  lemma ProductPositive(s: real, b: real)
    requires s > 0.0 && b > 0.0
    ensures s * b > 0.0
  {
    assert s * b > 0.0 * b;
  }

  lemma QuotientPositive(s: real, b: real)
    requires s > 0.0 && b > 0.0
    ensures s / b > 0.0
  {
    assert (s / b) * b == s;
  }

  /**
   * `zoomStage`'s arithmetic: a wheel turn with positive `deltaY` multiplies
   * the scale by `scaleBy`, any other divides it (no clamp), and the new
   * offset keeps the canvas point under the pointer where it was.
   */
  function WheelZoom(stage: Stage, pointer: Point, deltaY: real, scaleBy: real): (r: Stage)
    requires stage.scale > 0.0 && scaleBy > 0.0
    ensures r.scale == if deltaY > 0.0 then stage.scale * scaleBy else stage.scale / scaleBy
    ensures r.scale > 0.0
    ensures r.position.Plus(Point(PointUnder(stage, pointer).x * r.scale, PointUnder(stage, pointer).y * r.scale)) == pointer
    ensures PointUnder(r, pointer) == PointUnder(stage, pointer)
  {
    var m := PointUnder(stage, pointer);
    var newScale := if deltaY > 0.0 then stage.scale * scaleBy else stage.scale / scaleBy;
    NewScalePositive(stage.scale, scaleBy, deltaY);
    assert (m.x * newScale) / newScale == m.x;
    assert (m.y * newScale) / newScale == m.y;
    Stage(newScale, Point(pointer.x - m.x * newScale, pointer.y - m.y * newScale))
  }

  lemma NewScalePositive(s: real, scaleBy: real, deltaY: real)
    requires s > 0.0 && scaleBy > 0.0
    ensures (if deltaY > 0.0 then s * scaleBy else s / scaleBy) > 0.0
  {
    if deltaY > 0.0 {
      ProductPositive(s, scaleBy);
    } else {
      QuotientPositive(s, scaleBy);
    }
  }

  /** A wheel turn in and one out at the same pointer leave the stage as it was. */
  lemma WheelInThenOut(stage: Stage, pointer: Point, scaleBy: real)
    requires stage.scale > 0.0 && scaleBy > 0.0
    ensures WheelZoom(WheelZoom(stage, pointer, 1.0, scaleBy), pointer, -1.0, scaleBy) == stage
  {
    var s := stage.scale;
    var zoomed := WheelZoom(stage, pointer, 1.0, scaleBy);
    var back := WheelZoom(zoomed, pointer, -1.0, scaleBy);
    assert back.scale == (s * scaleBy) / scaleBy == s;
    var m := PointUnder(stage, pointer);
    assert PointUnder(zoomed, pointer) == m;
    assert back.position == Point(pointer.x - m.x * s, pointer.y - m.y * s);
    assert m.x * s == pointer.x - stage.position.x;
    assert m.y * s == pointer.y - stage.position.y;
  }

  /** The hook's state. `scaleBy` is the factor the hook was created with. */
  class CanvasView {
    var scale: real
    var position: Point
    var dimensions: Point
    var isDragging: bool
    const scaleBy: real

    /** The stage is never collapsed to scale zero, so the pointer mapping is defined. */
    ghost predicate Valid()
      reads this
    {
      scale > 0.0 && scaleBy > 0.0
    }

    constructor (width: real, height: real, scaleBy0: real)
      requires scaleBy0 > 0.0
      ensures Valid()
      ensures scale == 1.0 && position == Point(0.0, 0.0) && dimensions == Point(width, height)
      ensures !isDragging && scaleBy == scaleBy0
    {
      scale := 1.0;
      position := Point(0.0, 0.0);
      dimensions := Point(width, height);
      isDragging := false;
      scaleBy := scaleBy0;
    }

    method ZoomIn()
      requires Valid()
      modifies this`scale
      ensures scale == ZoomedIn(old(scale), scaleBy) && Valid()
    {
      ProductPositive(scale, scaleBy);
      scale := ZoomedIn(scale, scaleBy);
    }

    method ZoomOut()
      requires Valid()
      modifies this`scale
      ensures scale == ZoomedOut(old(scale), scaleBy) && Valid()
    {
      scale := ZoomedOut(scale, scaleBy);
    }

    /** `zoomStage`: nothing happens without a stage or a pointer position. */
    method ZoomStage(stageMounted: bool, pointer: Option<Point>, deltaY: real)
      requires Valid()
      modifies this`scale, this`position
      ensures
        if stageMounted && pointer.Some?
        then Stage(scale, position) == WheelZoom(Stage(old(scale), old(position)), pointer.value, deltaY, scaleBy)
        else scale == old(scale) && position == old(position)
      ensures Valid()
    {
      if !stageMounted || pointer.None? {
        return;
      }
      var zoomed := WheelZoom(Stage(scale, position), pointer.value, deltaY, scaleBy);
      scale := zoomed.scale;
      position := zoomed.position;
    }

    /** A window resize, when the stage's container is known. */
    method Resize(size: Option<Point>)
      modifies this`dimensions
      ensures dimensions == if size.Some? then size.value else old(dimensions)
    {
      if size.Some? {
        dimensions := size.value;
      }
    }

    method StartDragging()
      modifies this`isDragging
      ensures isDragging
    {
      isDragging := true;
    }

    method StopDragging()
      modifies this`isDragging
      ensures !isDragging
    {
      isDragging := false;
    }

    /** `moveStage`: while dragging, take over where the stage was dragged to. */
    method MoveStage(stagePosition: Option<Point>)
      modifies this`position
      ensures position == if isDragging && stagePosition.Some? then stagePosition.value else old(position)
    {
      if !isDragging {
        return;
      }
      if stagePosition.Some? {
        position := stagePosition.value;
      }
    }
  }
}
