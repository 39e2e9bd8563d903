/**
 * The basic board (BasicWhiteboard.tsx): the list of items, the add menu's
 * visibility and anchor, and the id-keyed list updates a card's callbacks
 * trigger. The server is a parameter: a request goes out as a value and the
 * item it answers with (or None on failure) comes back in.
 */
module BasicWhiteboard {
  import opened Wrappers
  import opened Geometry
  import opened Schema

  /** The body of a `PATCH /api/whiteboard-items/:id`: a new position or a new content. */
  datatype Patch = PositionPatch(position: Point) | ContentPatch(content: Fields)

  /** The body of a `POST /api/whiteboard-items`. */
  datatype NewItemRequest = NewItemRequest(kind: ItemKind, content: Fields, position: Point, connectedDate: int)

  /** An item with a patch applied: the patched field is replaced wholesale, nothing is merged. */
  function Patched(item: Item, patch: Patch): (r: Item)
    ensures r.id == item.id && r.kind == item.kind && r.connectedDate == item.connectedDate
    ensures patch.PositionPatch? ==> r.position == patch.position && r.content == item.content
    ensures patch.ContentPatch? ==> r.content == patch.content && r.position == item.position
  {
    match patch
    case PositionPatch(p) => item.(position := p)
    case ContentPatch(c) => item.(content := c)
  }

  /** `items.map(item => item.id === id ? {...item, <patch>} : item)`. */
  function ApplyPatch(items: seq<Item>, id: string, patch: Patch): (r: seq<Item>)
    ensures |r| == |items|
    ensures forall i :: 0 <= i < |items| && items[i].id == id ==> r[i] == Patched(items[i], patch)
    ensures forall i :: 0 <= i < |items| && items[i].id != id ==> r[i] == items[i]
  {
    if |items| == 0 then []
    else
      var head := if items[0].id == id then Patched(items[0], patch) else items[0];
      [head] + ApplyPatch(items[1..], id, patch)
  }

  /** Patching keeps every item's id, kind and connected date, so the ids of the list are untouched. */
  lemma ApplyPatchKeepsIdentity(items: seq<Item>, id: string, patch: Patch, i: int)
    requires 0 <= i < |items|
    ensures ApplyPatch(items, id, patch)[i].id == items[i].id
    ensures ApplyPatch(items, id, patch)[i].kind == items[i].kind
    ensures ApplyPatch(items, id, patch)[i].connectedDate == items[i].connectedDate
  {
  }

  /** A patch for an id no item has leaves the list as it was. */
  lemma ApplyPatchUnknownId(items: seq<Item>, id: string, patch: Patch)
    requires forall i :: 0 <= i < |items| ==> items[i].id != id
    ensures ApplyPatch(items, id, patch) == items
  {
  }

  /** Of two patches to the same field of the same id, the later one wins. */
  lemma ApplyPatchLastWins(items: seq<Item>, id: string, p1: Patch, p2: Patch)
    requires p1.PositionPatch? == p2.PositionPatch?
    ensures ApplyPatch(ApplyPatch(items, id, p1), id, p2) == ApplyPatch(items, id, p2)
  {
    var once := ApplyPatch(items, id, p1);
    assert forall i :: 0 <= i < |items| ==> ApplyPatch(once, id, p2)[i] == ApplyPatch(items, id, p2)[i];
  }

  /** Applying the same patch twice is applying it once. */
  lemma ApplyPatchIdempotent(items: seq<Item>, id: string, patch: Patch)
    ensures ApplyPatch(ApplyPatch(items, id, patch), id, patch) == ApplyPatch(items, id, patch)
  {
    ApplyPatchLastWins(items, id, patch, patch);
  }

  /** Patches to different ids do not interfere: their order does not matter. */
  lemma ApplyPatchCommutes(items: seq<Item>, id1: string, p1: Patch, id2: string, p2: Patch)
    requires id1 != id2
    ensures ApplyPatch(ApplyPatch(items, id1, p1), id2, p2) == ApplyPatch(ApplyPatch(items, id2, p2), id1, p1)
  {
    var a := ApplyPatch(ApplyPatch(items, id1, p1), id2, p2);
    var b := ApplyPatch(ApplyPatch(items, id2, p2), id1, p1);
    assert forall i :: 0 <= i < |items| ==> a[i] == b[i];
  }

  /** The content `addItem` gives a new item of each kind. */
  function NewItemContent(kind: ItemKind): (r: Fields)
    ensures ParseContent(kind, r).Some?
    ensures r.Keys <= SchemaKeys(kind)
  {
    match kind
    case Text => map["text" := Str("New text note"), "subtext" := Str("")]
    case Task => map["text" := Str("New task"), "completed" := Bool(false)]
    case Event => map["title" := Str("New event"), "time" := Str("")]
    case Image => map["caption" := Str("")]
  }

  /** Every default content is valid for its kind's schema, and reads as the placeholder it shows. */
  lemma NewItemContentParses(kind: ItemKind)
    ensures ParseContent(kind, NewItemContent(kind)) == Some(
      match kind
      case Text => TextNote("New text note", Some(""))
      case Task => TaskContent("New task", false)
      case Event => EventContent("New event", Some(""), None)
      case Image => ImageContent(None, Some("")))
  {
  }

  /**
   * The board's state. A rectangle argument of None means the canvas element
   * is not mounted (`canvasRef.current` is null).
   */
  class Board {
    var items: seq<Item>
    var showAddMenu: bool
    var addMenuPosition: Point

    constructor ()
      ensures items == [] && !showAddMenu && addMenuPosition == Point(0.0, 0.0)
    {
      items := [];
      showAddMenu := false;
      addMenuPosition := Point(0.0, 0.0);
    }

    /** The mount-time fetch: on success the list becomes what the server sent; on failure nothing changes. */
    method LoadItems(response: Option<seq<Item>>)
      modifies this`items
      ensures items == if response.Some? then response.value else old(items)
    {
      if response.Some? {
        items := response.value;
      }
    }

    /**
     * `addItem`: the request carries the kind's default content, the menu's
     * anchor and today; the item the server answers with is appended and the
     * menu closes. A failed request changes nothing.
     */
    method AddItem(kind: ItemKind, today: int, response: Option<Item>) returns (request: NewItemRequest)
      modifies this`items, this`showAddMenu
      ensures request == NewItemRequest(kind, NewItemContent(kind), addMenuPosition, today)
      ensures response.Some? ==> items == old(items) + [response.value] && !showAddMenu
      ensures response.None? ==> items == old(items) && showAddMenu == old(showAddMenu)
    {
      request := NewItemRequest(kind, NewItemContent(kind), addMenuPosition, today);
      if response.Some? {
        items := items + [response.value];
        showAddMenu := false;
      }
    }

    /**
     * `updateItemPosition`: the list is updated first, then the patch is
     * sent; what the server answers does not undo the local change.
     */
    method UpdateItemPosition(id: string, x: real, y: real) returns (patch: Patch)
      modifies this`items
      ensures patch == PositionPatch(Point(x, y))
      ensures items == ApplyPatch(old(items), id, patch)
    {
      patch := PositionPatch(Point(x, y));
      items := ApplyPatch(items, id, patch);
    }

    /** `updateItemContent`: the same, replacing the matching item's content wholesale. */
    method UpdateItemContent(id: string, content: Fields) returns (patch: Patch)
      modifies this`items
      ensures patch == ContentPatch(content)
      ensures items == ApplyPatch(old(items), id, patch)
    {
      patch := ContentPatch(content);
      items := ApplyPatch(items, id, patch);
    }

    /** A right-click opens the menu where the pointer is, relative to the canvas. */
    method HandleContextMenu(client: Point, canvas: Option<Rect>)
      modifies this`showAddMenu, this`addMenuPosition
      ensures canvas.Some? ==> showAddMenu && addMenuPosition == client.Minus(canvas.value.TopLeft())
      ensures canvas.None? ==> showAddMenu == old(showAddMenu) && addMenuPosition == old(addMenuPosition)
    {
      if canvas.Some? {
        addMenuPosition := client.Minus(canvas.value.TopLeft());
        showAddMenu := true;
      }
    }

    /** A click on the canvas closes the menu. */
    method HandleCanvasClick()
      modifies this`showAddMenu
      ensures !showAddMenu
    {
      if showAddMenu {
        showAddMenu := false;
      }
    }

    /** The floating add button opens the menu at the centre of the canvas. */
    method HandleAddButton(canvas: Option<Rect>)
      modifies this`showAddMenu, this`addMenuPosition
      ensures canvas.Some? ==> showAddMenu && addMenuPosition == Point(canvas.value.width / 2.0, canvas.value.height / 2.0)
      ensures canvas.None? ==> showAddMenu == old(showAddMenu) && addMenuPosition == old(addMenuPosition)
    {
      if canvas.Some? {
        addMenuPosition := Point(canvas.value.width / 2.0, canvas.value.height / 2.0);
        showAddMenu := true;
      }
    }
  }
}
