/**
 * One draggable, editable card on the basic board (BasicWhiteboardItem.tsx):
 * its local drag and edit state, the content it writes back when an edit is
 * saved or a task is ticked, and its per-type look.
 */
module BasicWhiteboardItem {
  import opened Wrappers
  import opened Geometry
  import opened Schema
  import Connector

  /** The `onMove(id, x, y)` callback a finished drag makes. */
  datatype MoveCall = MoveCall(id: string, x: real, y: real)

  /** The `onUpdate(id, content)` callback a save or a tick makes. */
  datatype UpdateCall = UpdateCall(id: string, content: Fields)

  /** JavaScript truthiness of `content[key]`: absent, `''` and `false` are falsy. */
  predicate Truthy(c: Fields, key: string) {
    key in c && (match c[key] case Str(s) => s != "" case Bool(b) => b)
  }

  /**
   * The two edit fields when the dialog opens: which content keys fill them
   * depends on the type; a field the type does not use keeps its previous value.
   */
  function LoadedEdit(itemType: string, c: Fields, prevText: string, prevSubtext: string): (r: (string, string))
    ensures EditedKeys(itemType) == {} ==> r == (prevText, prevSubtext)
    ensures EditedKeys(itemType) != {} ==> exists k :: k in EditedKeys(itemType) && r.0 == TextOf(c, k)
    ensures |EditedKeys(itemType)| == 1 ==> r.1 == prevSubtext
    ensures |EditedKeys(itemType)| == 2 ==> exists k :: k in EditedKeys(itemType) && r.1 == TextOf(c, k)
  {
    match itemType
    case "text" => (TextOf(c, "text"), TextOf(c, "subtext"))
    case "task" => (TextOf(c, "text"), prevSubtext)
    case "event" => (TextOf(c, "title"), TextOf(c, "time"))
    case "image" => (TextOf(c, "caption"), prevSubtext)
    case _ => (prevText, prevSubtext)
  }

  /** The content keys saving an edit overwrites, per type. */
  function EditedKeys(itemType: string): (r: set<string>)
    ensures ParseKind(itemType).None? ==> r == {}
    ensures ParseKind(itemType).Some? ==> r != {} && r <= SchemaKeys(ParseKind(itemType).value)
    ensures "completed" !in r && "url" !in r && "location" !in r
    ensures |r| <= 2
  {
    match itemType
    case "text" => {"text", "subtext"}
    case "task" => {"text"}
    case "event" => {"title", "time"}
    case "image" => {"caption"}
    case _ => {}
  }

  /**
   * `saveEdit`'s new content: the old content spread, with the edited keys
   * overwritten by the edit fields; an unknown type keeps the content as it is.
   */
  function SavedContent(itemType: string, c: Fields, editText: string, editSubtext: string): (r: Fields)
    ensures r.Keys == c.Keys + EditedKeys(itemType)
    ensures forall k :: k in c && k !in EditedKeys(itemType) ==> r[k] == c[k]
    ensures forall k :: k in EditedKeys(itemType) ==> r[k].Str?
    ensures ParseKind(itemType).None? ==> r == c
  {
    match itemType
    case "text" =>
      assert EditedKeys(itemType) == {"text", "subtext"};
      c["text" := Str(editText)]["subtext" := Str(editSubtext)]
    case "task" =>
      assert EditedKeys(itemType) == {"text"};
      c["text" := Str(editText)]
    case "event" =>
      assert EditedKeys(itemType) == {"title", "time"};
      c["title" := Str(editText)]["time" := Str(editSubtext)]
    case "image" =>
      assert EditedKeys(itemType) == {"caption"};
      c["caption" := Str(editText)]
    case _ =>
      assert EditedKeys(itemType) == {};
      c
  }

  /** Opening the dialog right after a save shows exactly what was saved. */
  lemma SaveThenLoad(itemType: string, c: Fields, editText: string, editSubtext: string)
    ensures LoadedEdit(itemType, SavedContent(itemType, c, editText, editSubtext), editText, editSubtext)
         == (editText, editSubtext)
  {
  }

  /**
   * Saving an edit nobody changed writes the content back unchanged, as long
   * as every key the type edits already held a string.
   */
  lemma {:induction false} LoadThenSave(itemType: string, c: Fields, prevText: string, prevSubtext: string)
    requires forall k :: k in EditedKeys(itemType) ==> k in c && c[k].Str?
    ensures var (t, s) := LoadedEdit(itemType, c, prevText, prevSubtext);
      SavedContent(itemType, c, t, s) == c
  {
    var (t, s) := LoadedEdit(itemType, c, prevText, prevSubtext);
    var r := SavedContent(itemType, c, t, s);
    forall k | k in EditedKeys(itemType)
      ensures r[k] == c[k]
    {
      assert k in c && c[k].Str?;
    }
    assert r.Keys == c.Keys;
  }

  /**
   * A saved edit of well-formed content is still well-formed for its kind,
   * and the typed view shows the edited fields (text notes and events also
   * gain the subtext or time field).
   */
  lemma SavedContentParses(kind: ItemKind, c: Fields, editText: string, editSubtext: string)
    requires ParseContent(kind, c).Some?
    ensures var r := ParseContent(kind, SavedContent(KindName(kind), c, editText, editSubtext));
      && r.Some?
      && (match r.value
          case TextNote(t, s) => t == editText && s == Some(editSubtext)
          case TaskContent(t, b) => t == editText && b == ParseContent(kind, c).value.completed
          case EventContent(t, tm, l) => t == editText && tm == Some(editSubtext) && l == ParseContent(kind, c).value.location
          case ImageContent(u, cap) => cap == Some(editText) && u == ParseContent(kind, c).value.url)
  {
  }

  /**
   * `toggleTaskComplete`: only a task calls back, with `completed` set to the
   * boolean negation of its current truthiness; other keys are kept.
   */
  function ToggledContent(itemType: string, c: Fields): (r: Option<Fields>)
    ensures r.Some? <==> itemType == "task"
    ensures r.Some? ==> r.value.Keys == c.Keys + {"completed"}
    ensures r.Some? ==> r.value["completed"] == Bool(!Truthy(c, "completed"))
    ensures r.Some? ==> forall k :: k in c && k != "completed" ==> r.value[k] == c[k]
  {
    if itemType == "task" then Some(c["completed" := Bool(!Truthy(c, "completed"))]) else None
  }

  /** Ticking a task twice restores it, once `completed` already holds a boolean. */
  lemma {:induction false} ToggleTwice(c: Fields)
    requires "completed" in c && c["completed"].Bool?
    ensures ToggledContent("task", ToggledContent("task", c).value) == Some(c)
  {
    var once := ToggledContent("task", c).value;
    var twice := ToggledContent("task", once).value;
    assert once["completed"] == Bool(!c["completed"].b);
    assert twice["completed"] == c["completed"];
    assert twice.Keys == c.Keys;
    assert forall k :: k in c ==> twice[k] == c[k];
    assert twice == c;
  }

  /** A ticked well-formed task is still a well-formed task, with text kept and `completed` flipped. */
  lemma ToggledTaskParses(c: Fields)
    requires ParseContent(Task, c).Some?
    ensures ParseContent(Task, ToggledContent("task", c).value)
         == Some(TaskContent(ParseContent(Task, c).value.text, !ParseContent(Task, c).value.completed))
  {
  }

  /** `getColor`: the card's accent colour. */
  function ItemColor(itemType: string): (r: string)
    ensures ParseKind(itemType).Some? ==> r == Connector.ConnectorColor(itemType)
    ensures ParseKind(itemType).None? ==> r == Connector.ConnectorColor("text")
  {
    match itemType
    case "text" => "#A02C2C"
    case "task" => "#DC6238"
    case "event" => "#2A4B7C"
    case "image" => "#5D3A1A"
    case _ => "#A02C2C"
  }

  /** `getBgColor`: the card's background tint. */
  function BgColor(itemType: string): (r: string)
    ensures |r| == 7 && r[0] == '#' && r != ItemColor(itemType)
    ensures ParseKind(itemType).None? ==> r == "#FFF8F8"
  {
    match itemType
    case "text" => "#FFF8F8"
    case "task" => "#FFF9F1"
    case "event" => "#F5F8FD"
    case "image" => "#FAF7F5"
    case _ => "#FFF8F8"
  }

  /** `getItemWidth`, in pixels. */
  function ItemWidth(itemType: string): (r: real)
    ensures 160.0 <= r <= 200.0
    ensures ParseKind(itemType).None? ==> r == 180.0
  {
    match itemType
    case "text" => 180.0
    case "task" => 200.0
    case "event" => 180.0
    case "image" => 160.0
    case _ => 180.0
  }

  /** A card is drawn in the same colour as the connector that ties it to its date. */
  lemma ItemColorMatchesConnector(k: ItemKind)
    ensures ItemColor(KindName(k)) == Connector.ConnectorColor(KindName(k))
  {
  }

  /** The four kinds get four different accent colours and four different tints. */
  lemma ItemColorsDistinct(k1: ItemKind, k2: ItemKind)
    ensures ItemColor(KindName(k1)) == ItemColor(KindName(k2)) ==> k1 == k2
    ensures BgColor(KindName(k1)) == BgColor(KindName(k2)) ==> k1 == k2
  {
  }

  /** A card of an unknown type looks like a text note. */
  lemma UnknownTypeLooksLikeText(itemType: string)
    requires ParseKind(itemType).None?
    ensures ItemColor(itemType) == ItemColor("text")
    ensures BgColor(itemType) == BgColor("text")
    ensures ItemWidth(itemType) == ItemWidth("text")
  {
  }

  /**
   * The card's state. `item` is the latest prop; the rest are the component's
   * `useState` slots. A rectangle argument of None means the card's element
   * is not mounted (`itemRef.current` is null).
   */
  class ItemController {
    var item: Item
    var position: Point
    var isDragging: bool
    var dragOffset: Point
    var isEditing: bool
    var editText: string
    var editSubtext: string

    /** First render: the card sits at the item's position, neither dragged nor edited. */
    constructor (item0: Item)
      ensures item == item0 && position == item0.position
      ensures !isDragging && dragOffset == Point(0.0, 0.0)
      ensures !isEditing && editText == "" && editSubtext == ""
    {
      item := item0;
      position := item0.position;
      isDragging := false;
      dragOffset := Point(0.0, 0.0);
      isEditing := false;
      editText := "";
      editSubtext := "";
    }

    /**
     * A re-render with a new `item` object: the local position follows the
     * item's only when that position changed, and an open dialog reloads its
     * fields from the new item.
     */
    method ReceiveItem(newItem: Item)
      modifies this
      ensures item == newItem
      ensures position == (if newItem.position != old(item.position) then newItem.position else old(position))
      ensures (editText, editSubtext)
           == (if isEditing
               then LoadedEdit(KindName(newItem.kind), newItem.content, old(editText), old(editSubtext))
               else (old(editText), old(editSubtext)))
      ensures isDragging == old(isDragging) && dragOffset == old(dragOffset) && isEditing == old(isEditing)
    {
      var positionChanged := newItem.position != item.position;
      item := newItem;
      if positionChanged {
        position := newItem.position;
      }
      if isEditing {
        var loaded := LoadedEdit(KindName(item.kind), item.content, editText, editSubtext);
        editText, editSubtext := loaded.0, loaded.1;
      }
    }

    /**
     * `handleMouseDown` / `handleTouchStart`: with the element mounted and a
     * pointer (a touch event may have none), remember where inside the card it
     * was grabbed and start dragging.
     */
    method PointerDown(pointer: Option<Point>, rect: Option<Rect>)
      modifies this
      ensures
        if pointer.Some? && rect.Some?
        then isDragging && dragOffset == pointer.value.Minus(rect.value.TopLeft())
        else isDragging == old(isDragging) && dragOffset == old(dragOffset)
      ensures item == old(item) && position == old(position)
      ensures isEditing == old(isEditing) && editText == old(editText) && editSubtext == old(editSubtext)
    {
      if pointer.Some? && rect.Some? {
        dragOffset := pointer.value.Minus(rect.value.TopLeft());
        isDragging := true;
      }
    }

    /** Global `mousemove` / `touchmove` while dragging: the card's corner follows the pointer. */
    method PointerMove(pointer: Option<Point>, mounted: bool)
      modifies this
      ensures position == (if isDragging && mounted && pointer.Some? then pointer.value.Minus(dragOffset) else old(position))
      ensures item == old(item) && isDragging == old(isDragging) && dragOffset == old(dragOffset)
      ensures isEditing == old(isEditing) && editText == old(editText) && editSubtext == old(editSubtext)
    {
      if isDragging && mounted && pointer.Some? {
        position := pointer.value.Minus(dragOffset);
      }
    }

    /** Global `mouseup` / `touchend`: a drag ends and reports the card's current position. */
    method PointerUp() returns (call: Option<MoveCall>)
      modifies this
      ensures call == (if old(isDragging) then Some(MoveCall(item.id, position.x, position.y)) else None)
      ensures !isDragging
      ensures item == old(item) && position == old(position) && dragOffset == old(dragOffset)
      ensures isEditing == old(isEditing) && editText == old(editText) && editSubtext == old(editSubtext)
    {
      call := None;
      if isDragging {
        isDragging := false;
        call := Some(MoveCall(item.id, position.x, position.y));
      }
    }

    /** `handleEdit`: open the dialog; opening it loads the edit fields from the item. */
    method Edit()
      modifies this
      ensures isEditing
      ensures (editText, editSubtext)
           == (if old(isEditing) then (old(editText), old(editSubtext))
               else LoadedEdit(KindName(item.kind), item.content, old(editText), old(editSubtext)))
      ensures item == old(item) && position == old(position)
      ensures isDragging == old(isDragging) && dragOffset == old(dragOffset)
    {
      if !isEditing {
        isEditing := true;
        var loaded := LoadedEdit(KindName(item.kind), item.content, editText, editSubtext);
        editText, editSubtext := loaded.0, loaded.1;
      }
    }

    /** Typing into the dialog's first field. */
    method SetEditText(s: string)
      modifies this`editText
      ensures editText == s
    {
      editText := s;
    }

    /** Typing into the dialog's second field. */
    method SetEditSubtext(s: string)
      modifies this`editSubtext
      ensures editSubtext == s
    {
      editSubtext := s;
    }

    /** The dialog's close and Cancel buttons: nothing is written back. */
    method CancelEdit()
      modifies this`isEditing
      ensures !isEditing
    {
      isEditing := false;
    }

    /** `saveEdit`: report the edited content and close the dialog. */
    method SaveEdit() returns (call: UpdateCall)
      modifies this`isEditing
      ensures call == UpdateCall(item.id, SavedContent(KindName(item.kind), item.content, editText, editSubtext))
      ensures !isEditing
    {
      call := UpdateCall(item.id, SavedContent(KindName(item.kind), item.content, editText, editSubtext));
      isEditing := false;
    }

    /** `toggleTaskComplete`: a task reports its flipped content; other kinds do nothing. */
    method ToggleTaskComplete() returns (call: Option<UpdateCall>)
      ensures call.Some? <==> item.kind == Task
      ensures call.Some? ==> call.value == UpdateCall(item.id, ToggledContent(KindName(item.kind), item.content).value)
    {
      var toggled := ToggledContent(KindName(item.kind), item.content);
      call := if toggled.Some? then Some(UpdateCall(item.id, toggled.value)) else None;
    }
  }

  /**
   * A whole drag on a fresh card: press at `down` over the mounted card at
   * `rect`, move through `moves`, release. The card reports the item's
   * position shifted by how far the pointer travelled to its last position,
   * or the item's own position when the pointer never moved.
   */
  method DragGesture(item0: Item, down: Point, rect: Rect, moves: seq<Point>) returns (call: Option<MoveCall>)
    requires rect.TopLeft() == item0.position
    ensures call.Some?
    ensures call.value.id == item0.id
    ensures |moves| == 0 ==> call.value.x == item0.position.x && call.value.y == item0.position.y
    ensures |moves| > 0 ==>
      call.value.x == item0.position.x + (moves[|moves| - 1].x - down.x)
      && call.value.y == item0.position.y + (moves[|moves| - 1].y - down.y)
  {
    var card := new ItemController(item0);
    card.PointerDown(Some(down), Some(rect));
    var i := 0;
    while i < |moves|
      invariant 0 <= i <= |moves|
      invariant card.item == item0 && card.isDragging
      invariant card.dragOffset == down.Minus(rect.TopLeft())
      invariant i == 0 ==> card.position == item0.position
      invariant i > 0 ==> card.position == moves[i - 1].Minus(card.dragOffset)
    {
      card.PointerMove(Some(moves[i]), true);
      i := i + 1;
    }
    call := card.PointerUp();
  }
}
