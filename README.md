# Schedule board: a verified model of its date-binding core

The Schedule board is a personal planning surface. Notes, tasks, events and
image cards sit on a free-form canvas above a horizontally scrolling timeline
of days. Each card is tied to a calendar date and is drawn with a connector
to that day's marker. This project models, in Dafny, the logic under that
surface, and proves what it does:

- the date helpers: date ranges, week views, and the closest-day searches;
- the rolling 45-day timeline window and its scroll transitions;
- the connector geometry, both the curved SVG connector and the straight
  canvas connector;
- the per-card drag and edit controller, with the content it writes back;
- the id-keyed list updates of both boards (the basic board and the canvas
  board), with their default contents;
- the zoom arithmetic: page zoom, canvas button zoom, and wheel zoom anchored
  at the pointer;
- the add menu's viewport clamp and buttons;
- the item and content schemas.

Conventions:

- Dates are integer day numbers. `addDays(d, n)` is `d + n`, and day 0 is
  1970-01-01, a Thursday.
- Coordinates are `real`.
- An item's `content` (JSON typed `any`) is a map from keys to string or
  boolean values. The zod schemas are a typed `Content` datatype, reached
  through a parse / serialise pair.
- Everything the browser measures or provides becomes a parameter:
  - DOM rectangles, pointer positions and the `data-date` attributes;
  - whether an element is mounted;
  - the server's answer;
  - a fresh id and "today".
- Each React state slot is a field of a class, and each `setState` is an
  immediate assignment.

One module per source file, plus `Wrappers` (an `Option` type) and
`Geometry` (points, rectangles, day markers, and the first-minimum scan that
both closest-day searches share).

The timeline window does not only grow. When the view nears the left edge,
`Timeline.tsx` moves `startDate` back five days, and the window effect then
regenerates exactly 45 days from the new start. Five days are
added in front, but the last day shown and every day appended at the tail
are dropped (`Timeline.BackwardRegenerationDropsTail`). Contiguity does hold
on every transition.

## Model

| member | source | states |
|---|---|---|
| Geometry.Abs | client/src/lib/utils/dateUtils.ts:79 | `Math.abs`: the result is non-negative and is `v` or `-v` |
| Geometry.ArgMinFirst | client/src/lib/utils/dateUtils.ts:73-85 | the index a strict-`<` scan keeps is a minimum of all entries and is strictly below every earlier entry, so the first minimum wins ties |
| Geometry.ArgMinFirstUnique | client/src/lib/utils/dateUtils.ts:73-85 | any index that is a minimum and strictly below all earlier entries is the scan's index |
| Geometry.ArgMinFirstStep | client/src/lib/utils/dateUtils.ts:81-84 | one scan step: the candidate changes to `i` exactly when `d[i]` is strictly smaller than the current candidate |
| DateUtils.DateRange | client/src/lib/utils/dateUtils.ts:6-15 | `max(n, 0)` dates, and date `i` is `start + i` |
| DateUtils.DateRangeContiguous | client/src/lib/utils/dateUtils.ts:6-15 | a generated range is contiguous (consecutive entries one day apart) and strictly increasing |
| DateUtils.GenerateDateRange | client/src/lib/utils/dateUtils.ts:6-15 | the push loop builds exactly `DateRange(start, n)`, including the empty result for `n <= 0` |
| DateUtils.GenerateCenteredDateRange | client/src/lib/utils/dateUtils.ts:20-24 | the range starts at `c - floor(n/2)`; for `n >= 1` it has `n` entries and `c` sits at index `floor(n/2)` |
| DateUtils.Weekday | client/src/lib/utils/dateUtils.ts:30 | the day of the week, 0 (Monday) to 6 |
| DateUtils.EpochWeekdays | client/src/lib/utils/dateUtils.ts:30 | day 0 (1970-01-01) is a Thursday (weekday 3) and day 4 a Monday (weekday 0) |
| DateUtils.WeekdayNext | client/src/lib/utils/dateUtils.ts:30 | the day after `d` has the next weekday, wrapping from Sunday (6) to Monday (0) |
| DateUtils.StartOfWeek | client/src/lib/utils/dateUtils.ts:30 | `startOfWeek(d, {weekStartsOn: 1})`: a Monday, on or at most six days before `d` |
| DateUtils.StartOfWeekShift | client/src/lib/utils/dateUtils.ts:37-48 | a week later (earlier) the week starts seven days later (earlier) |
| DateUtils.WeekDates | client/src/lib/utils/dateUtils.ts:29-32 | seven consecutive days from the Monday on or before `d`, and `d` is among them at its weekday's index |
| DateUtils.GenerateWeekDates | client/src/lib/utils/dateUtils.ts:29-32 | the method returns `WeekDates(d)`: seven days, Monday first, containing `d` |
| DateUtils.WeekOfItsOwnDays | client/src/lib/utils/dateUtils.ts:29-32 | asking for the week of any day of a shown week gives that same week |
| DateUtils.GetNextWeekDates | client/src/lib/utils/dateUtils.ts:37-40 | equals `WeekDates(d + 7)`, and every day is the current week's day plus 7 |
| DateUtils.GetPreviousWeekDates | client/src/lib/utils/dateUtils.ts:45-48 | equals `WeekDates(d - 7)`, and every day is the current week's day minus 7 |
| DateUtils.NextThenPreviousWeek | client/src/lib/utils/dateUtils.ts:37-48 | going back a week from the first day of the next week gives the current week again |
| DateUtils.ClosestDateElement | client/src/lib/utils/dateUtils.ts:67-88 | None exactly when the list is empty; otherwise an index into the list whose distance is at most every other element's, and strictly below every earlier element's |
| DateUtils.FindClosestDateElement | client/src/lib/utils/dateUtils.ts:67-88 | the `forEach` scan with `closest` / `minDistance` returns exactly `ClosestDateElement` |
| FindClosestDay.ClosestMarker | client/src/lib/utils/findClosestDay.ts:30-44 | a marker of minimal horizontal distance, the first of them on ties |
| FindClosestDay.FindClosestDay | client/src/lib/utils/findClosestDay.ts:7-58 | "now" with no markers or no timeline; otherwise the closest marker's `data-date`, or "now" if it has none; `y` plays no part |
| Timeline.Window | client/src/components/Timeline.tsx:14-24 | 45 contiguous days beginning at `startDate - 15`, with `startDate` at index 15 |
| Timeline.ExtendForward | client/src/components/Timeline.tsx:43-48 | five more days, `last+1 .. last+5`, after an unchanged prefix |
| Timeline.ExtendForwardContiguous | client/src/components/Timeline.tsx:43-48 | extending a contiguous window keeps it contiguous |
| Timeline.ExtendForwardRange | client/src/components/Timeline.tsx:41-48 | extending the range `DateRange(s, n)` gives `DateRange(s, n + 5)` |
| Timeline.BackwardRegenerationDropsTail | client/src/components/Timeline.tsx:34-40 | the left-edge branch's regenerated window starts five days earlier, is no longer than before, and no longer holds the last day shown |
| Timeline.EdgeOf | client/src/components/Timeline.tsx:34-49 | the left branch runs exactly when `scrollLeft < 200`; the right branch only when that fails and the remaining width is below 200 |
| Timeline.TimelineView.constructor | client/src/components/Timeline.tsx:10-24 | the first window is 45 days with today at index 15 |
| Timeline.TimelineView.GenerateDays | client/src/components/Timeline.tsx:14-24 | the 45-step push loop leaves `Window(startDate)` |
| Timeline.TimelineView.HandleScroll | client/src/components/Timeline.tsx:28-50 | left branch: start five days earlier, `scrollLeft += 700`, window regenerated; right branch: five days appended; otherwise nothing changes; the window stays a contiguous range in every case |
| Timeline.TimelineView.Scroll | client/src/components/Timeline.tsx:28-50 | after any scroll event the window is strictly increasing, and it shrinks only through a start-date move |
| Connector.ControlPoint | client/src/components/Connector.tsx:45-60 | the control point's x is the midpoint; its y is `0.8·dateY + 0.2·itemY` in both branches, strictly between the end points when the item is above the date, between them otherwise |
| Connector.PathBetween | client/src/components/Connector.tsx:35-60 | the path starts at the item's centre and ends at the date's top centre, both shifted by the scroll, with the control-point rule |
| Connector.PathScrollTranslates | client/src/components/Connector.tsx:41-59 | the path with a scroll offset is the unscrolled path translated by that offset |
| Connector.PathTranslationEquivariant | client/src/components/Connector.tsx:35-59 | moving both rectangles by `d` moves the whole path by `d` |
| Connector.FirstDateElement | client/src/components/Connector.tsx:23-28 | the first marker whose `data-date` equals the item's date, or None exactly when there is none |
| Connector.ConnectorPath | client/src/components/Connector.tsx:17-63 | no path exactly when the item element or a matching date marker is missing; otherwise the path between the item and the first matching marker |
| Connector.ConnectorColor | client/src/components/Connector.tsx:88-96 | `#999` exactly for a type string that is not one of the four kinds |
| Connector.ConnectorColorsDistinct | client/src/components/Connector.tsx:88-96 | the four kinds get four different colours |
| Connector.ConnectorView.constructor | client/src/components/Connector.tsx:12-13 | the first calculation's path, visible exactly when there is one |
| Connector.ConnectorView.CalculateConnectorPath | client/src/components/Connector.tsx:17-64 | a new path replaces the old one and shows it; an early return keeps the previous path and visibility |
| Connector.ConnectorView.Rendered | client/src/components/Connector.tsx:83-85 | something is drawn exactly when a path was computed |
| ConnectorLine.DrawConnector | client/src/lib/utils/connector.ts:8-59 | the closest day is searched at `offsetLeft + x`; with no day, a zero-length line at the item and nothing added; otherwise a line from the item to 15 below the day's bottom centre (container-relative), and the line and then a dot on its end are added |
| ConnectorLine.DistanceSquared | client/src/lib/utils/connector.ts:71-73 | the squared distance is never negative and is zero for coinciding points |
| ConnectorLine.DistanceSymmetric | client/src/lib/utils/connector.ts:71-73 | the distance does not depend on the order of the points |
| Schema.ParseKind | shared/schema.ts:66 | a type string names a kind exactly when it is one of the four kind names |
| Schema.KindNamesDistinct | shared/schema.ts:66 | different kinds have different names |
| Schema.ParseContent | shared/schema.ts:42-61 | content is accepted exactly when the kind's required string (`text`, or `title` for events) is present and every optional key that is present has its declared type; accepted content has that kind and carries the input's `text` or `title`, and a task's absent `completed` reads as false |
| Schema.ContentFields | shared/schema.ts:42-61 | serialised content uses only its schema's keys |
| Schema.ParseContentFields | shared/schema.ts:42-61 | serialising typed content and validating it again gives the same content back |
| Schema.ParsedContentKeepsSchemaKeys | shared/schema.ts:42-61 | validation keeps every declared key's value and strips every undeclared key |
| Schema.Inserted | shared/schema.ts:20-36 | a stored row gets its id and both timestamps, and omitting them gives back the insert shape |
| BasicWhiteboardItem.LoadedEdit | client/src/components/BasicWhiteboardItem.tsx:26-45 | an unknown type keeps both edit fields; otherwise the first field is read from one of the type's edited keys (`''` when absent or not a string), and the second comes from the other edited key, or keeps its previous value when the type edits one key |
| BasicWhiteboardItem.EditedKeys | client/src/components/BasicWhiteboardItem.tsx:124-160 | an unknown type edits no key; a known type edits one or two of its schema's keys, never `completed`, `url` or `location` |
| BasicWhiteboardItem.SavedContent | client/src/components/BasicWhiteboardItem.tsx:124-160 | only the type's edited keys are written, as strings; every other content key is kept; an unknown type keeps the content unchanged |
| BasicWhiteboardItem.SaveThenLoad | client/src/components/BasicWhiteboardItem.tsx:26-45 | opening the dialog after a save shows exactly the saved fields |
| BasicWhiteboardItem.LoadThenSave | client/src/components/BasicWhiteboardItem.tsx:124-160 | saving the fields as loaded writes the content back unchanged, when the edited keys already held strings |
| BasicWhiteboardItem.SavedContentParses | client/src/components/BasicWhiteboardItem.tsx:124-160 | a save of valid content is valid, shows the edited text, and keeps `completed`, `location` and `url` |
| BasicWhiteboardItem.ToggledContent | client/src/components/BasicWhiteboardItem.tsx:163-171 | only a task calls back; `completed` becomes the negation of its truthiness, and every other key is kept |
| BasicWhiteboardItem.ToggleTwice | client/src/components/BasicWhiteboardItem.tsx:163-171 | ticking twice restores content whose `completed` is a boolean |
| BasicWhiteboardItem.ToggledTaskParses | client/src/components/BasicWhiteboardItem.tsx:163-171 | a ticked valid task is a valid task with the same text and `completed` flipped |
| BasicWhiteboardItem.ItemColor | client/src/components/BasicWhiteboardItem.tsx:174-182 | a known type gets its connector's colour; an unknown type gets the text note's connector colour |
| BasicWhiteboardItem.BgColor | client/src/components/BasicWhiteboardItem.tsx:185-193 | a `#rrggbb` tint different from the card's accent colour, the text note's tint for an unknown type |
| BasicWhiteboardItem.ItemWidth | client/src/components/BasicWhiteboardItem.tsx:199-207 | between 160 and 200 px, and 180 px for an unknown type |
| BasicWhiteboardItem.ItemColorMatchesConnector | client/src/components/BasicWhiteboardItem.tsx:174-182 | a card's accent colour is its connector's colour |
| BasicWhiteboardItem.ItemColorsDistinct | client/src/components/BasicWhiteboardItem.tsx:174-193 | the four kinds have four different accents and four different tints |
| BasicWhiteboardItem.UnknownTypeLooksLikeText | client/src/components/BasicWhiteboardItem.tsx:174-207 | an unknown type gets the text note's colour, tint and 180 px width |
| BasicWhiteboardItem.ItemController.constructor | client/src/components/BasicWhiteboardItem.tsx:11-16 | the card starts at the item's position, not dragging, not editing, with empty edit fields |
| BasicWhiteboardItem.ItemController.ReceiveItem | client/src/components/BasicWhiteboardItem.tsx:21-45 | the local position follows a changed item position; an open dialog reloads its fields from the new item |
| BasicWhiteboardItem.ItemController.PointerDown | client/src/components/BasicWhiteboardItem.tsx:48-68 | with the element mounted and a pointer, `dragOffset = pointer - rect.topLeft` and dragging starts; the position is not changed |
| BasicWhiteboardItem.ItemController.PointerMove | client/src/components/BasicWhiteboardItem.tsx:72-87 | while dragging, `position = pointer - dragOffset`; otherwise nothing changes |
| BasicWhiteboardItem.ItemController.PointerUp | client/src/components/BasicWhiteboardItem.tsx:89-101 | a drag ends with one `onMove(id, position)`; a release when idle calls nothing |
| BasicWhiteboardItem.ItemController.Edit | client/src/components/BasicWhiteboardItem.tsx:119-121 | opening the dialog loads the per-type fields (`''` for missing ones) |
| BasicWhiteboardItem.ItemController.SetEditText | client/src/components/BasicWhiteboardItem.tsx:311 | typing sets the first field |
| BasicWhiteboardItem.ItemController.SetEditSubtext | client/src/components/BasicWhiteboardItem.tsx:338 | typing sets the second field |
| BasicWhiteboardItem.ItemController.CancelEdit | client/src/components/BasicWhiteboardItem.tsx:365 | the dialog closes and nothing is written |
| BasicWhiteboardItem.ItemController.SaveEdit | client/src/components/BasicWhiteboardItem.tsx:124-160 | `onUpdate` with `SavedContent` of the edit fields, and the dialog closes |
| BasicWhiteboardItem.ItemController.ToggleTaskComplete | client/src/components/BasicWhiteboardItem.tsx:163-171 | a callback happens exactly for a task, carrying the toggled content |
| BasicWhiteboardItem.DragGesture | client/src/components/BasicWhiteboardItem.tsx:48-101 | when the card's rectangle is at its position, a press, any moves and a release report `start + (last - down)`, or the start position with no moves |
| BasicWhiteboard.Patched | client/src/components/BasicWhiteboard.tsx:79-85 | the id, kind and connected date are kept; a position patch replaces only the position, a content patch only the content |
| BasicWhiteboard.ApplyPatch | client/src/components/BasicWhiteboard.tsx:79-85 | same length and order; items with the id get the patched field; all others are identical |
| BasicWhiteboard.ApplyPatchKeepsIdentity | client/src/components/BasicWhiteboard.tsx:79-85 | ids, kinds and connected dates are untouched |
| BasicWhiteboard.ApplyPatchUnknownId | client/src/components/BasicWhiteboard.tsx:79-85 | a patch for an unknown id changes nothing |
| BasicWhiteboard.ApplyPatchLastWins | client/src/components/BasicWhiteboard.tsx:102-106 | of two patches to the same field of one id, the later wins (content is replaced, not merged) |
| BasicWhiteboard.ApplyPatchIdempotent | client/src/components/BasicWhiteboard.tsx:79-85 | applying a patch twice equals applying it once |
| BasicWhiteboard.ApplyPatchCommutes | client/src/components/BasicWhiteboard.tsx:79-85 | patches to different ids commute |
| BasicWhiteboard.NewItemContent | client/src/components/BasicWhiteboard.tsx:36-51 | each kind's default content is valid for that kind's schema and uses only its declared keys |
| BasicWhiteboard.NewItemContentParses | client/src/components/BasicWhiteboard.tsx:36-51 | each kind's default content is valid for its schema and reads as the placeholder |
| BasicWhiteboard.Board.constructor | client/src/components/BasicWhiteboard.tsx:12-14 | no items, menu hidden, anchored at the origin |
| BasicWhiteboard.Board.LoadItems | client/src/components/BasicWhiteboard.tsx:18-30 | a successful fetch replaces the list; a failure leaves it |
| BasicWhiteboard.Board.AddItem | client/src/components/BasicWhiteboard.tsx:33-74 | the request carries the default content, the menu anchor and today; the answer is appended and the menu closes; a failure changes nothing |
| BasicWhiteboard.Board.UpdateItemPosition | client/src/components/BasicWhiteboard.tsx:77-97 | the list is patched locally whatever the server does, and the position patch is sent |
| BasicWhiteboard.Board.UpdateItemContent | client/src/components/BasicWhiteboard.tsx:100-120 | the matching item's content is replaced locally, and the content patch is sent |
| BasicWhiteboard.Board.HandleContextMenu | client/src/components/BasicWhiteboard.tsx:123-133 | a right-click opens the menu at `client - canvasRect.topLeft` |
| BasicWhiteboard.Board.HandleCanvasClick | client/src/components/BasicWhiteboard.tsx:136-140 | a click closes the menu |
| BasicWhiteboard.Board.HandleAddButton | client/src/components/BasicWhiteboard.tsx:162-172 | the add button opens the menu at the canvas centre |
| Whiteboard.DefaultContent | client/src/components/Whiteboard.tsx:109-122 | the default for a type string is valid content for the kind it names (a text note for any other string) and uses only that schema's keys |
| Whiteboard.DefaultContentParses | client/src/components/Whiteboard.tsx:109-122 | each default is valid for its kind; any other type string gets a valid `{text: 'New Item'}` note |
| Whiteboard.ConnectorLayer | client/src/components/Whiteboard.tsx:125-142 | an empty layer when no day is measured, otherwise two shapes per object |
| Whiteboard.LayerStep | client/src/components/Whiteboard.tsx:130-139 | drawing one more object appends its line and dot to the layer of the objects before it, or nothing when no day is measured |
| Whiteboard.ConnectorLayerPairs | client/src/components/Whiteboard.tsx:130-139 | object `i`'s line is at layer index `2i` and its dot, on the line's end, at `2i+1` |
| Whiteboard.Scale | client/src/components/Whiteboard.tsx:203 | `scale · 100 = zoom`, so the page range 50..200 gives 0.5..2 |
| Whiteboard.WhiteboardView.constructor | client/src/components/Whiteboard.tsx:19-22 | no objects, no menu, an 800×600 stage and no measured days |
| Whiteboard.WhiteboardView.UpdateConnectors | client/src/components/Whiteboard.tsx:125-142 | without a layer nothing changes; otherwise the day elements and the container are measured anew and the clear-and-redraw loop leaves exactly `ConnectorLayer` of the current objects at those measurements, which become the stored ones |
| Whiteboard.WhiteboardView.MountLayer | client/src/components/Whiteboard.tsx:145-146 | once the layer exists it shows the current objects' connectors at the current measurements |
| Whiteboard.WhiteboardView.ObserveTimeline | client/src/components/Whiteboard.tsx:25-48 | the observed day markers are stored and, with a layer, the connectors are redrawn against them and the current container |
| Whiteboard.WhiteboardView.Resize | client/src/components/Whiteboard.tsx:51-67 | the stage takes the container's size when known, and the layer is redrawn at the current measurements |
| Whiteboard.WhiteboardView.HandleWhiteboardClick | client/src/components/Whiteboard.tsx:70-83 | a click on empty stage space with a pointer opens the menu there |
| Whiteboard.WhiteboardView.HandleAddItem | client/src/components/Whiteboard.tsx:86-106 | a no-op without a menu; otherwise one item is appended, with the fresh id, the default content, the menu position and today, the menu closes, and the layer is redrawn at the current measurements |
| Whiteboard.WhiteboardView.HandleDragMove | client/src/components/Whiteboard.tsx:161-170 | only the matching id's position changes, and the layer is redrawn at the current measurements |
| Whiteboard.WhiteboardView.HandleDragEnd | client/src/components/Whiteboard.tsx:173-182 | the same list effect as a drag move |
| Whiteboard.WhiteboardView.HandleContentChange | client/src/components/Whiteboard.tsx:185-195 | only the matching id's content is replaced, and the layer is redrawn at the current measurements |
| Whiteboard.WhiteboardView.HandleCloseMenu | client/src/components/Whiteboard.tsx:198-200 | the menu closes |
| Whiteboard.WhiteboardView.MenuMouseDown | client/src/components/AddItemMenu.tsx:14-18 | a press outside the open menu closes it; one inside leaves it open |
| Whiteboard.WhiteboardView.MenuButtonClick | client/src/components/AddItemMenu.tsx:46-76 | a menu button adds an item of its kind at the menu position |
| Whiteboard.WhiteboardView.ConnectorCount | client/src/components/Whiteboard.tsx:130-139 | a mounted layer holds two shapes per object once days are known, none before |
| Whiteboard.MoveRedrawsOnlyItsConnector | client/src/components/Whiteboard.tsx:161-170 | moving one object leaves every other object's line and dot unchanged |
| Whiteboard.MovedConnectorStartsAtNewPosition | client/src/components/Whiteboard.tsx:161-170 | the moved object's line starts at its new position, with the dot on its end |
| Whiteboard.ConnectorFollowsPosition | client/src/lib/utils/connector.ts:15-43 | a connector depends on its object only through the position |
| Whiteboard.LayerFollowsPositions | client/src/components/Whiteboard.tsx:130-139 | object lists with the same positions draw the same layer |
| Whiteboard.ContentChangeKeepsLayer | client/src/components/Whiteboard.tsx:185-195 | a content change leaves the connector layer as it was |
| Canvas.ZoomedIn | client/src/lib/hooks/useCanvas.ts:37-39 | `min(s·scaleBy, 3)`: never above 3 or `s·scaleBy`, and equal to one of them |
| Canvas.ZoomedOut | client/src/lib/hooks/useCanvas.ts:41-43 | `max(s/scaleBy, 0.5)`: never below 0.5 or `s/scaleBy`, and equal to one of them |
| Canvas.ButtonsKeepScaleRange | client/src/lib/hooks/useCanvas.ts:37-43 | with the default factor 1.1, both buttons keep a scale in 0.5..3 in that range |
| Canvas.ZoomOutThenIn | client/src/lib/hooks/useCanvas.ts:37-43 | away from the lower clamp, out and then in restores the scale |
| Canvas.ZoomInThenOut | client/src/lib/hooks/useCanvas.ts:37-43 | away from the upper clamp, in and then out restores the scale |
| Canvas.WheelZoom | client/src/lib/hooks/useCanvas.ts:56-69 | for a positive scale and factor, the new scale is the old one multiplied by `scaleBy` when `deltaY > 0` and divided by it otherwise, with no clamp, and the new offset keeps the canvas point under the pointer fixed (`newPos + mousePointTo·newScale = pointer`) |
| Canvas.WheelInThenOut | client/src/lib/hooks/useCanvas.ts:56-69 | a wheel turn in and one out at the same pointer restore the stage exactly |
| Canvas.CanvasView.constructor | client/src/lib/hooks/useCanvas.ts:13-18 | scale 1, origin position, the given size, not dragging |
| Canvas.CanvasView.ZoomIn | client/src/lib/hooks/useCanvas.ts:37-39 | the scale becomes `ZoomedIn` and stays positive |
| Canvas.CanvasView.ZoomOut | client/src/lib/hooks/useCanvas.ts:41-43 | the scale becomes `ZoomedOut` and stays positive |
| Canvas.CanvasView.ZoomStage | client/src/lib/hooks/useCanvas.ts:45-72 | nothing happens without a stage or pointer; otherwise the stage becomes `WheelZoom` of itself |
| Canvas.CanvasView.Resize | client/src/lib/hooks/useCanvas.ts:21-30 | the size follows the container when it is known |
| Canvas.CanvasView.StartDragging | client/src/lib/hooks/useCanvas.ts:75-77 | the drag flag is set |
| Canvas.CanvasView.StopDragging | client/src/lib/hooks/useCanvas.ts:79-81 | the drag flag is cleared |
| Canvas.CanvasView.MoveStage | client/src/lib/hooks/useCanvas.ts:83-93 | the position follows the stage only while dragging |
| HomePage.ZoomedIn | client/src/pages/HomePage.tsx:10-12 | `min(z + 10, 200)`: never above 200 or `z + 10`, and equal to one of them |
| HomePage.ZoomedOut | client/src/pages/HomePage.tsx:14-16 | `max(z - 10, 50)`: never below 50 or `z - 10`, and equal to one of them |
| HomePage.AfterClicks | client/src/pages/HomePage.tsx:10-16 | no clicks leave the zoom as it was; any clicks keep it between `min(z, 50)` and `max(z, 200)` |
| HomePage.ClicksKeepRange | client/src/pages/HomePage.tsx:10-16 | any run of clicks keeps a zoom in 50..200 in that range |
| HomePage.ClampedAtEnds | client/src/pages/HomePage.tsx:10-16 | zoom in near 200 and zoom out near 50 hit the bound and are then idempotent |
| HomePage.OutThenIn | client/src/pages/HomePage.tsx:10-16 | for 60 ≤ z ≤ 200, out and then in returns z |
| HomePage.InThenOut | client/src/pages/HomePage.tsx:10-16 | for 50 ≤ z ≤ 190, in and then out returns z |
| HomePage.Page.constructor | client/src/pages/HomePage.tsx:8 | the zoom starts at 100 |
| HomePage.Page.HandleZoomIn | client/src/pages/HomePage.tsx:10-12 | the zoom becomes `ZoomedIn` and stays in range |
| HomePage.Page.HandleZoomOut | client/src/pages/HomePage.tsx:14-16 | the zoom becomes `ZoomedOut` and stays in range |
| HomePage.ZoomAfterClicks | client/src/pages/HomePage.tsx:8-16 | a fresh page driven by any clicks ends at `AfterClicks(100, clicks)`, within 50..200 |
| AddItemMenu.AdjustedPosition | client/src/components/AddItemMenu.tsx:28-31 | each coordinate is at most the requested one and at most its window bound (`W - 160`, `H - 220`), and equals one of the two |
| AddItemMenu.AdjustedKeepsFittingPosition | client/src/components/AddItemMenu.tsx:28-31 | a position where the menu fits is left unchanged |
| AddItemMenu.AdjustIdempotent | client/src/components/AddItemMenu.tsx:28-31 | adjusting twice equals adjusting once |
| AddItemMenu.ButtonKind | client/src/components/AddItemMenu.tsx:46-76 | each button adds the kind named by the type string it passes to `onAddItem` |
| AddItemMenu.EachKindHasOneButton | client/src/components/AddItemMenu.tsx:46-76 | the buttons (text, task, image, event) cover every kind, each by exactly one button |

## Left out

- The server (routes, storage, database, migrations), `fetch` and JSON. The server's answer is a parameter. storage.ts uses helpers that are not defined in the schema file and is not part of this model.
- DOM and Konva plumbing is not modelled; the model takes its values as parameters:
  - measured rectangles and scroll offsets;
  - `data-date` attributes, already read as day numbers;
  - whether an element is mounted ("ref is null" is a boolean or `None`);
  - pointer positions.

  Listener registration, the `setInterval` and `setTimeout` re-triggers, and layer drawing calls are not modelled either.
- Whiteboard.WhiteboardView: the stored day elements are represented by their rectangles. A redraw is given a fresh measurement of the same elements, so it must have as many rectangles as the last observation; only the timeline observer changes which elements there are. Element identity and document order beyond that count are not modelled.
- Timeline.TimelineView.HandleScroll: `scrollLeft += 700` is an unbounded addition. The browser clamps `scrollLeft` to `scrollWidth - clientWidth`, and the write fires another scroll event. Neither the clamp nor that follow-up event is modelled.
- Canvas.CanvasView.ZoomStage: `zoomStage` reads the old scale and offset from the Konva stage (`stage.scaleX()`, `stage.x()`, `stage.y()`). The model takes them from the hook's `scale` and `position`, assuming the stage shows exactly those.
- Timers and React scheduling:
  - Each handler's connector redraw stands for the redraw that the change's effect performs.
  - The redraw that `handleDragMove` runs from a callback holding the previous `objects` is not modelled separately.
  - Setting an edit field is immediate. React would defer it to the next render.
- Date formatting and time zones:
  - `format`, `isToday` and the `EEE` / `MMM d` labels are not modelled;
  - `toISOString` and `new Date(string)` parsing are not modelled.

  A connected date is compared with a marker's `data-date` as the same day number. The UTC/local-time difference between `toISOString` and the markers is not modelled.
- `calculateAngle` (`Math.atan2`) and the square root in `calculateDistance`: these are floating-point transcendental functions. Distance is modelled through its square.
- ConnectorLine.DistanceSquared: does not state that the square is strictly positive for distinct points. The sum-of-squares positivity over reals is not proved here.
- The `try`/`catch` in `findClosestDay`: the steps modelled cannot throw, so the catch path ("now") is not a separate case.
- `Infinity` as the initial minimum distance: the scans use "no candidate yet" instead, which selects the same element.
- BasicWhiteboardItem.LoadedEdit: `content.key || ''` is modelled as "the string value, or `''`". A truthy non-string value, such as a boolean `text`, would be copied into the field as-is. The model reads `''` for it.
- Canvas.WheelZoom: requires a positive stage scale and factor. The JavaScript result of dividing by a zero scale (`Infinity`/`NaN`) is not modelled. The class invariant of `Canvas.CanvasView` keeps the scale positive, given a positive `scaleBy`.
- Canvas.CanvasView.constructor: requires a positive `scaleBy`. The hook accepts any number but only behaves sensibly for a positive factor.
- Numbers are unbounded reals and integers, not IEEE doubles: rounding in `s · 1.1 / 1.1` and similar round trips is not modelled.
- Controls.tsx (a timer-driven scroll loop) and WhiteboardObject.tsx (Konva rendering sized from measured text) are not part of this model.
- Rendering markup (JSX, SVG path strings, CSS colours other than the type tables) is not modelled. The quadratic path is kept as its three points rather than as the `M … Q …` string.
