/**
 * The add menu (client/src/components/AddItemMenu.tsx): where it is drawn so
 * that it stays inside the window, and which kind each of its buttons adds.
 * Its outside-click listener is modelled by `Whiteboard.WhiteboardView.MenuMouseDown`.
 */
module AddItemMenu {
  import opened Wrappers
  import opened Geometry
  import opened Schema

  /** The room the menu keeps free to its right and below it. */
  const MenuWidth := 160.0
  const MenuHeight := 220.0

  function Min(a: real, b: real): (m: real)
    ensures m <= a && m <= b
    ensures m == a || m == b
  {
    if a <= b then a else b
  }

  /** `adjustedPosition`: the requested corner, pulled left and up so the menu fits the window. */
  function AdjustedPosition(p: Point, innerWidth: real, innerHeight: real): (r: Point)
    ensures r.x <= p.x && r.x <= innerWidth - MenuWidth
    ensures r.y <= p.y && r.y <= innerHeight - MenuHeight
    ensures r.x == p.x || r.x == innerWidth - MenuWidth
    ensures r.y == p.y || r.y == innerHeight - MenuHeight
  {
    Point(Min(p.x, innerWidth - MenuWidth), Min(p.y, innerHeight - MenuHeight))
  }

  /** A position where the menu already fits is left alone. */
  lemma AdjustedKeepsFittingPosition(p: Point, innerWidth: real, innerHeight: real)
    requires p.x <= innerWidth - MenuWidth && p.y <= innerHeight - MenuHeight
    ensures AdjustedPosition(p, innerWidth, innerHeight) == p
  {
  }

  /** Adjusting an adjusted position changes nothing. */
  lemma AdjustIdempotent(p: Point, innerWidth: real, innerHeight: real)
    ensures var once := AdjustedPosition(p, innerWidth, innerHeight);
      AdjustedPosition(once, innerWidth, innerHeight) == once
  {
  }

  /** The menu's four buttons, top to bottom. */
  datatype MenuButton = TextNoteButton | TaskButton | ImageButton | EventButton

  const Buttons := [TextNoteButton, TaskButton, ImageButton, EventButton]

  /** The type string each button passes to `onAddItem`. */
  function OnAddItemArgument(b: MenuButton): string {
    match b
    case TextNoteButton => "text"
    case TaskButton => "task"
    case ImageButton => "image"
    case EventButton => "event"
  }

  /** The kind of item each button adds: the kind its `onAddItem` argument names. */
  function ButtonKind(b: MenuButton): (k: ItemKind)
    ensures ParseKind(OnAddItemArgument(b)) == Some(k)
  {
    match b
    case TextNoteButton => Text
    case TaskButton => Task
    case ImageButton => Image
    case EventButton => Event
  }

  /** Every kind can be added, by exactly one button. */
  lemma EachKindHasOneButton(k: ItemKind)
    ensures exists i :: 0 <= i < |Buttons| && ButtonKind(Buttons[i]) == k
    ensures forall i, j :: 0 <= i < |Buttons| && 0 <= j < |Buttons| && ButtonKind(Buttons[i]) == k && ButtonKind(Buttons[j]) == k ==> i == j
  {
    var i := match k case Text => 0 case Task => 1 case Image => 2 case Event => 3;
    assert ButtonKind(Buttons[i]) == k;
  }
}
