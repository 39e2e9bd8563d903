/**
 * The page's zoom percentage (client/src/pages/HomePage.tsx): it starts at
 * 100 and the two header buttons move it in steps of 10 within 50..200.
 */
module HomePage {
  const InitialZoom := 100
  const ZoomStep := 10
  const MaxZoom := 200
  const MinZoom := 50

  /** `handleZoomIn`: `min(zoom + 10, 200)`. */
  function ZoomedIn(z: int): (r: int)
    ensures r <= MaxZoom && r <= z + ZoomStep
    ensures r == z + ZoomStep || r == MaxZoom
  {
    if z + ZoomStep < MaxZoom then z + ZoomStep else MaxZoom
  }

  /** `handleZoomOut`: `max(zoom - 10, 50)`. */
  function ZoomedOut(z: int): (r: int)
    ensures r >= MinZoom && r >= z - ZoomStep
    ensures r == z - ZoomStep || r == MinZoom
  {
    if z - ZoomStep > MinZoom then z - ZoomStep else MinZoom
  }

  /** A header button. */
  datatype ZoomClick = In | Out

  /** The zoom after a run of clicks, first click first. */
  function AfterClicks(z: int, clicks: seq<ZoomClick>): (r: int)
    ensures |clicks| == 0 ==> r == z
    ensures (if z < MinZoom then z else MinZoom) <= r <= (if z > MaxZoom then z else MaxZoom)
    decreases |clicks|
  {
    if |clicks| == 0 then z
    else AfterClicks(if clicks[0] == In then ZoomedIn(z) else ZoomedOut(z), clicks[1..])
  }

  /** Clicking never takes a zoom inside 50..200 out of it. */
  lemma {:induction false} ClicksKeepRange(z: int, clicks: seq<ZoomClick>)
    requires MinZoom <= z <= MaxZoom
    ensures MinZoom <= AfterClicks(z, clicks) <= MaxZoom
    decreases |clicks|
  {
    if |clicks| > 0 {
      ClicksKeepRange(if clicks[0] == In then ZoomedIn(z) else ZoomedOut(z), clicks[1..]);
    }
  }

  /** At the ends of the range the button towards that end does nothing. */
  lemma ClampedAtEnds(z: int)
    ensures z >= MaxZoom - ZoomStep ==> ZoomedIn(z) == MaxZoom && ZoomedIn(ZoomedIn(z)) == ZoomedIn(z)
    ensures z <= MinZoom + ZoomStep ==> ZoomedOut(z) == MinZoom && ZoomedOut(ZoomedOut(z)) == ZoomedOut(z)
  {
  }

  /** Away from the lower end, out then in returns to the same zoom. */
  lemma OutThenIn(z: int)
    requires MinZoom + ZoomStep <= z <= MaxZoom
    ensures ZoomedIn(ZoomedOut(z)) == z
  {
  }

  /** Away from the upper end, in then out returns to the same zoom. */
  lemma InThenOut(z: int)
    requires MinZoom <= z <= MaxZoom - ZoomStep
    ensures ZoomedOut(ZoomedIn(z)) == z
  {
  }

  /** The page's `zoom` state. */
  class Page {
    var zoom: int

    ghost predicate Valid()
      reads this
    {
      MinZoom <= zoom <= MaxZoom
    }

    constructor ()
      ensures zoom == InitialZoom && Valid()
    {
      zoom := InitialZoom;
    }

    method HandleZoomIn()
      requires Valid()
      modifies this
      ensures zoom == ZoomedIn(old(zoom)) && Valid()
    {
      zoom := ZoomedIn(zoom);
    }

    method HandleZoomOut()
      requires Valid()
      modifies this
      ensures zoom == ZoomedOut(old(zoom)) && Valid()
    {
      zoom := ZoomedOut(zoom);
    }
  }

  /** A fresh page after the given clicks: the zoom they lead to from 100, always within 50..200. */
  method ZoomAfterClicks(clicks: seq<ZoomClick>) returns (z: int)
    ensures z == AfterClicks(InitialZoom, clicks)
    ensures MinZoom <= z <= MaxZoom
  {
    var page := new Page();
    var i := 0;
    while i < |clicks|
      invariant 0 <= i <= |clicks|
      invariant page.Valid()
      invariant AfterClicks(page.zoom, clicks[i..]) == AfterClicks(InitialZoom, clicks)
    {
      assert clicks[i..][1..] == clicks[i + 1..];
      if clicks[i] == In {
        page.HandleZoomIn();
      } else {
        page.HandleZoomOut();
      }
      i := i + 1;
    }
    z := page.zoom;
  }
}
