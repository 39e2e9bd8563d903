/**
 * The canvas board (Whiteboard.tsx): its objects, the add menu's anchor, the
 * measured timeline days and the connector layer, which is redrawn from the
 * objects whenever they or the days change.
 */
module Whiteboard {
  import opened Wrappers
  import opened Geometry
  import opened Schema
  import opened ConnectorLine
  import opened BasicWhiteboard
  import AddItemMenu

  /** `getDefaultContent`: placeholder content per type, `{text: 'New Item'}` for any other string. */
  function DefaultContent(itemType: string): (r: Fields)
    ensures ParseContent(ParseKind(itemType).GetOr(Text), r).Some?
    ensures r.Keys <= SchemaKeys(ParseKind(itemType).GetOr(Text))
  {
    match itemType
    case "text" => map["text" := Str("New Note"), "subtext" := Str("Click to edit")]
    case "task" => map["text" := Str("New Task"), "completed" := Bool(false)]
    case "event" => map["title" := Str("New Event"), "time" := Str("Time/Location")]
    case "image" => map["caption" := Str("Image Caption")]
    case _ => map["text" := Str("New Item")]
  }

  /**
   * Every default is valid content for its kind, and the fallback for an
   * unknown type string is a valid text note.
   */
  lemma DefaultContentParses(itemType: string)
    ensures ParseContent(ParseKind(itemType).GetOr(Text), DefaultContent(itemType)) == Some(
      match itemType
      case "text" => TextNote("New Note", Some("Click to edit"))
      case "task" => TaskContent("New Task", false)
      case "event" => EventContent("New Event", Some("Time/Location"), None)
      case "image" => ImageContent(None, Some("Image Caption"))
      case _ => TextNote("New Item", None))
  {
  }

  /**
   * What `updateConnectors` leaves on the layer: nothing when no day is
   * measured, otherwise each object's line and dot, in object order.
   */
  function ConnectorLayer(objects: seq<Item>, days: seq<Rect>, container: Container): (r: seq<Shape>)
    ensures |days| == 0 ==> r == []
    ensures |days| > 0 ==> |r| == 2 * |objects|
  {
    if |objects| == 0 || |days| == 0 then []
    else
      var prefix := objects[..|objects| - 1];
      ConnectorLayer(prefix, days, container) + DrawConnector(objects[|objects| - 1], days, container).added
  }

  /** Drawing one more object appends its connector's shapes to the layer of the objects before it. */
  lemma LayerStep(objects: seq<Item>, days: seq<Rect>, container: Container, i: int)
    requires 0 <= i < |objects|
    ensures ConnectorLayer(objects[..i + 1], days, container)
      == if |days| == 0 then ConnectorLayer(objects[..i], days, container)
         else ConnectorLayer(objects[..i], days, container) + DrawConnector(objects[i], days, container).added
  {
    assert objects[..i + 1][..i] == objects[..i];
  }

  /** Object `i`'s line sits at position `2i` of the layer and its dot, on the line's end, right after it. */
  lemma {:induction false} ConnectorLayerPairs(objects: seq<Item>, days: seq<Rect>, container: Container, i: int)
    requires |days| > 0 && 0 <= i < |objects|
    ensures var r := ConnectorLayer(objects, days, container);
      && r[2 * i] == DrawConnector(objects[i], days, container).connector
      && r[2 * i + 1] == Dot(DrawConnector(objects[i], days, container).connector.to, DotRadius)
    decreases |objects|
  {
    var n := |objects| - 1;
    var prefix := objects[..n];
    var last := DrawConnector(objects[n], days, container);
    var front := ConnectorLayer(prefix, days, container);
    var r := ConnectorLayer(objects, days, container);
    assert r == front + last.added;
    assert |front| == 2 * n;
    if i < n {
      ConnectorLayerPairs(prefix, days, container, i);
      assert r[2 * i] == front[2 * i] && r[2 * i + 1] == front[2 * i + 1];
    } else {
      assert r[2 * i] == last.added[0] && r[2 * i + 1] == last.added[1];
    }
  }

  /**
   * `scale = zoom / 100`: the stage's scale factor for a page zoom
   * percentage; the page's zoom range 50..200 is the scale range 0.5..2.
   */
  function Scale(zoom: real): (s: real)
    ensures s * 100.0 == zoom
    ensures 50.0 <= zoom <= 200.0 ==> 0.5 <= s <= 2.0
  {
    zoom / 100.0
  }

  /**
   * The board's state. `layerMounted` is whether the connector layer exists
   * yet (`connectorLayerRef.current`); each handler's redraw stands for the
   * `updateConnectors` run that the change triggers. `timelineDays` and
   * `container` are the rectangles of the day elements and of the container
   * as last measured: every redraw measures them again (`getBoundingClientRect`,
   * `offsetLeft`) and is given those fresh measurements, of the same day
   * elements, as `measured` and `box`.
   */
  class WhiteboardView {
    var objects: seq<Item>
    var menuPosition: Option<Point>
    var dimensions: Point
    var timelineDays: seq<Rect>
    var container: Container
    var layerMounted: bool
    var connectorLayer: seq<Shape>

    /** Once the layer exists it shows exactly the connectors of the current objects at the last measurements. */
    ghost predicate Valid()
      reads this
    {
      layerMounted ==> connectorLayer == ConnectorLayer(objects, timelineDays, container)
    }

    constructor (container0: Container)
      ensures Valid()
      ensures objects == [] && menuPosition.None? && dimensions == Point(800.0, 600.0)
      ensures timelineDays == [] && container == container0 && !layerMounted && connectorLayer == []
    {
      objects := [];
      menuPosition := None;
      dimensions := Point(800.0, 600.0);
      timelineDays := [];
      container := container0;
      layerMounted := false;
      connectorLayer := [];
    }

    /**
     * `updateConnectors`: without a layer nothing happens; otherwise the day
     * elements and the container are measured anew, the layer is cleared and
     * each object's connector is drawn against those measurements.
     */
    method UpdateConnectors(measured: seq<Rect>, box: Container)
      requires |measured| == |timelineDays|
      modifies this`connectorLayer, this`timelineDays, this`container
      ensures layerMounted ==> timelineDays == measured && container == box
      ensures layerMounted ==> connectorLayer == ConnectorLayer(objects, measured, box)
      ensures !layerMounted ==>
        connectorLayer == old(connectorLayer) && timelineDays == old(timelineDays) && container == old(container)
      ensures Valid()
    {
      if !layerMounted {
        return;
      }
      var layer: seq<Shape> := [];
      var i := 0;
      while i < |objects|
        invariant 0 <= i <= |objects|
        invariant layer == ConnectorLayer(objects[..i], measured, box)
      {
        LayerStep(objects, measured, box, i);
        if |measured| != 0 {
          var drawn := DrawConnector(objects[i], measured, box);
          layer := layer + drawn.added;
        }
        i := i + 1;
      }
      assert objects[..i] == objects;
      timelineDays, container, connectorLayer := measured, box, layer;
    }

    /** The layer element appears: from now on it is kept in step with the objects. */
    method MountLayer(measured: seq<Rect>, box: Container)
      requires |measured| == |timelineDays|
      modifies this`layerMounted, this`connectorLayer, this`timelineDays, this`container
      ensures layerMounted && Valid()
      ensures connectorLayer == ConnectorLayer(objects, measured, box)
    {
      layerMounted := true;
      UpdateConnectors(measured, box);
    }

    /** The observer saw the timeline's day elements change: they are stored, then connectors are redrawn. */
    method ObserveTimeline(days: seq<Rect>, box: Container)
      requires Valid()
      modifies this`timelineDays, this`container, this`connectorLayer
      ensures timelineDays == days && Valid()
      ensures layerMounted ==> container == box && connectorLayer == ConnectorLayer(objects, days, box)
    {
      timelineDays := days;
      UpdateConnectors(days, box);
    }

    /** A window resize: the stage takes the container's size when it is mounted, then connectors are redrawn. */
    method Resize(size: Option<Point>, measured: seq<Rect>, box: Container)
      requires Valid() && |measured| == |timelineDays|
      modifies this`dimensions, this`connectorLayer, this`timelineDays, this`container
      ensures dimensions == if size.Some? then size.value else old(dimensions)
      ensures layerMounted ==> connectorLayer == ConnectorLayer(objects, measured, box)
      ensures Valid()
    {
      if size.Some? {
        dimensions := size.value;
      }
      UpdateConnectors(measured, box);
    }

    /** A click on empty stage space with a known pointer opens the menu there; other clicks do nothing. */
    method HandleWhiteboardClick(onEmptyStage: bool, pointer: Option<Point>)
      modifies this`menuPosition
      ensures menuPosition == if onEmptyStage && pointer.Some? then pointer else old(menuPosition)
    {
      if onEmptyStage && pointer.Some? {
        menuPosition := Some(Point(pointer.value.x, pointer.value.y));
      }
    }

    /**
     * `handleAddItem`: without an open menu nothing happens; otherwise a new
     * item with a fresh id, the type's default content, the menu's anchor and
     * today is appended, the menu closes and connectors are redrawn.
     */
    method HandleAddItem(kind: ItemKind, freshId: string, today: int, measured: seq<Rect>, box: Container)
      requires Valid() && |measured| == |timelineDays|
      modifies this`objects, this`menuPosition, this`connectorLayer, this`timelineDays, this`container
      ensures old(menuPosition).None? ==>
        objects == old(objects) && menuPosition.None? && connectorLayer == old(connectorLayer)
        && timelineDays == old(timelineDays) && container == old(container)
      ensures old(menuPosition).Some? ==>
        objects == old(objects) + [Item(freshId, kind, DefaultContent(KindName(kind)), old(menuPosition).value, today)]
        && menuPosition.None?
        && (layerMounted ==> connectorLayer == ConnectorLayer(objects, measured, box))
      ensures Valid()
    {
      if menuPosition.None? {
        return;
      }
      var newItem := Item(freshId, kind, DefaultContent(KindName(kind)), menuPosition.value, today);
      objects := objects + [newItem];
      menuPosition := None;
      UpdateConnectors(measured, box);
    }

    /** `handleDragMove`: the dragged object's position follows, and connectors are redrawn. */
    method HandleDragMove(id: string, x: real, y: real, measured: seq<Rect>, box: Container)
      requires Valid() && |measured| == |timelineDays|
      modifies this`objects, this`connectorLayer, this`timelineDays, this`container
      ensures objects == ApplyPatch(old(objects), id, PositionPatch(Point(x, y)))
      ensures layerMounted ==> connectorLayer == ConnectorLayer(objects, measured, box)
      ensures Valid()
    {
      objects := ApplyPatch(objects, id, PositionPatch(Point(x, y)));
      UpdateConnectors(measured, box);
    }

    /** `handleDragEnd`: the same update as a drag move, for the final position. */
    method HandleDragEnd(id: string, x: real, y: real, measured: seq<Rect>, box: Container)
      requires Valid() && |measured| == |timelineDays|
      modifies this`objects, this`connectorLayer, this`timelineDays, this`container
      ensures objects == ApplyPatch(old(objects), id, PositionPatch(Point(x, y)))
      ensures layerMounted ==> connectorLayer == ConnectorLayer(objects, measured, box)
      ensures Valid()
    {
      objects := ApplyPatch(objects, id, PositionPatch(Point(x, y)));
      UpdateConnectors(measured, box);
    }

    /** `handleContentChange`: the object's content is replaced wholesale, then connectors are redrawn. */
    method HandleContentChange(id: string, content: Fields, measured: seq<Rect>, box: Container)
      requires Valid() && |measured| == |timelineDays|
      modifies this`objects, this`connectorLayer, this`timelineDays, this`container
      ensures objects == ApplyPatch(old(objects), id, ContentPatch(content))
      ensures layerMounted ==> connectorLayer == ConnectorLayer(objects, measured, box)
      ensures Valid()
    {
      objects := ApplyPatch(objects, id, ContentPatch(content));
      UpdateConnectors(measured, box);
    }

    /** `handleCloseMenu`. */
    method HandleCloseMenu()
      modifies this`menuPosition
      ensures menuPosition.None?
    {
      menuPosition := None;
    }

    /**
     * A document `mousedown` while the menu may be open: the menu is mounted
     * exactly when it has a position, and a press outside it closes it.
     */
    method MenuMouseDown(targetInsideMenu: bool)
      modifies this`menuPosition
      ensures menuPosition == if old(menuPosition).Some? && !targetInsideMenu then None else old(menuPosition)
    {
      if menuPosition.Some? && !targetInsideMenu {
        HandleCloseMenu();
      }
    }

    /** A click on one of the open menu's buttons adds an item of that button's kind at the menu's anchor. */
    method MenuButtonClick(b: AddItemMenu.MenuButton, freshId: string, today: int, measured: seq<Rect>, box: Container)
      requires Valid() && menuPosition.Some? && |measured| == |timelineDays|
      modifies this`objects, this`menuPosition, this`connectorLayer, this`timelineDays, this`container
      ensures objects == old(objects) + [Item(freshId, AddItemMenu.ButtonKind(b), DefaultContent(KindName(AddItemMenu.ButtonKind(b))), old(menuPosition).value, today)]
      ensures menuPosition.None? && Valid()
    {
      HandleAddItem(AddItemMenu.ButtonKind(b), freshId, today, measured, box);
    }

    /**
     * The layer a redraw produces has one line and one dot per object once
     * days are known (the first clause is the body; the second follows from
     * `Valid()`).
     */
    function ConnectorCount(): (n: nat)
      reads this
      requires Valid() && layerMounted
      ensures n == |connectorLayer|
      ensures n == if |timelineDays| == 0 then 0 else 2 * |objects|
    {
      |connectorLayer|
    }
  }

  /**
   * Moving an object moves only its own connector: the layer redrawn after a
   * move differs from the one before at most in the pairs of the objects with
   * that id.
   */
  lemma MoveRedrawsOnlyItsConnector(objects: seq<Item>, days: seq<Rect>, container: Container, id: string, p: Point, i: int)
    requires |days| > 0 && 0 <= i < |objects| && objects[i].id != id
    ensures var before := ConnectorLayer(objects, days, container);
      var after := ConnectorLayer(ApplyPatch(objects, id, PositionPatch(p)), days, container);
      after[2 * i] == before[2 * i] && after[2 * i + 1] == before[2 * i + 1]
  {
    var moved := ApplyPatch(objects, id, PositionPatch(p));
    ConnectorLayerPairs(objects, days, container, i);
    ConnectorLayerPairs(moved, days, container, i);
    ConnectorFollowsPosition(moved[i], objects[i], days, container);
  }

  /** A moved object's line now starts at its new position, and its dot still sits on the line's end. */
  lemma MovedConnectorStartsAtNewPosition(objects: seq<Item>, days: seq<Rect>, container: Container, id: string, p: Point, i: int)
    requires |days| > 0 && 0 <= i < |objects| && objects[i].id == id
    ensures var after := ConnectorLayer(ApplyPatch(objects, id, PositionPatch(p)), days, container);
      && after[2 * i].Line? && after[2 * i].from == p
      && after[2 * i + 1] == Dot(after[2 * i].to, DotRadius)
  {
    ConnectorLayerPairs(ApplyPatch(objects, id, PositionPatch(p)), days, container, i);
  }

  /** A connector depends on its object only through the object's position. */
  lemma ConnectorFollowsPosition(o1: Item, o2: Item, days: seq<Rect>, container: Container)
    requires o1.position == o2.position
    ensures DrawConnector(o1, days, container) == DrawConnector(o2, days, container)
  {
    var x := container.offsetLeft + o1.position.x;
    assert x == container.offsetLeft + o2.position.x;
  }

  /** Two object lists with the same positions, in order, draw the same layer. */
  lemma {:induction false} LayerFollowsPositions(o1: seq<Item>, o2: seq<Item>, days: seq<Rect>, container: Container)
    requires |o1| == |o2|
    requires forall i :: 0 <= i < |o1| ==> o1[i].position == o2[i].position
    ensures ConnectorLayer(o1, days, container) == ConnectorLayer(o2, days, container)
    decreases |o1|
  {
    if |o1| > 0 && |days| > 0 {
      var n := |o1| - 1;
      LayerFollowsPositions(o1[..n], o2[..n], days, container);
      ConnectorFollowsPosition(o1[n], o2[n], days, container);
    }
  }

  /** A content change never moves a connector: the layer is the same before and after. */
  lemma ContentChangeKeepsLayer(objects: seq<Item>, days: seq<Rect>, container: Container, id: string, c: Fields)
    ensures ConnectorLayer(ApplyPatch(objects, id, ContentPatch(c)), days, container) == ConnectorLayer(objects, days, container)
  {
    LayerFollowsPositions(ApplyPatch(objects, id, ContentPatch(c)), objects, days, container);
  }
}
