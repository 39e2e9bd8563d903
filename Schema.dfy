/**
 * The shared data shapes of the board (shared/schema.ts): the four item kinds,
 * the per-kind content schemas, the client-side item, and the stored row with
 * its insert shape.
 */
module Schema {
  import opened Wrappers
  import opened Geometry

  /** An item's `type`: exactly one of four kinds. */
  datatype ItemKind = Text | Task | Image | Event

  /** The string the kind travels as on the wire and in `switch (item.type)`. */
  function KindName(k: ItemKind): string {
    match k
    case Text => "text"
    case Task => "task"
    case Image => "image"
    case Event => "event"
  }

  /** Reading a `type` string: the kind whose name it is, if any. */
  function ParseKind(s: string): (r: Option<ItemKind>)
    ensures forall k :: r == Some(k) <==> KindName(k) == s
  {
    if s == "text" then Some(Text)
    else if s == "task" then Some(Task)
    else if s == "image" then Some(Image)
    else if s == "event" then Some(Event)
    else None
  }

  lemma KindNamesDistinct(k1: ItemKind, k2: ItemKind)
    ensures KindName(k1) == KindName(k2) ==> k1 == k2
  {
    assert ParseKind(KindName(k1)) == Some(k1);
  }

  /** A JSON value inside an item's `content` object, as far as the board reads or writes it. */
  datatype Value = Str(s: string) | Bool(b: bool)

  /** An item's `content` as stored: a loosely typed JSON object (`content: any`). */
  type Fields = map<string, Value>

  /** String fields of a content object, `''` when absent or not a string (`content.key || ''`). */
  function TextOf(c: Fields, key: string): string {
    if key in c && c[key].Str? then c[key].s else ""
  }

  /** The typed view of content that the per-kind zod schemas describe. */
  datatype Content =
    | TextNote(text: string, subtext: Option<string>)
    | TaskContent(text: string, completed: bool)
    | EventContent(title: string, time: Option<string>, location: Option<string>)
    | ImageContent(url: Option<string>, caption: Option<string>)

  function ContentKind(c: Content): ItemKind {
    match c
    case TextNote(_, _) => Text
    case TaskContent(_, _) => Task
    case EventContent(_, _, _) => Event
    case ImageContent(_, _) => Image
  }

  /** The keys each content schema declares. */
  function SchemaKeys(kind: ItemKind): set<string> {
    match kind
    case Text => {"text", "subtext"}
    case Task => {"text", "completed"}
    case Event => {"title", "time", "location"}
    case Image => {"url", "caption"}
  }

  /** `z.string()`: the key must hold a string. */
  function RequiredString(c: Fields, key: string): Option<string> {
    if key in c && c[key].Str? then Some(c[key].s) else None
  }

  /** `z.string().optional()`: absent is accepted as None; a non-string fails (outer None). */
  function OptionalString(c: Fields, key: string): Option<Option<string>> {
    if key !in c then Some(None)
    else if c[key].Str? then Some(Some(c[key].s))
    else None
  }

  /** `z.boolean().default(false)`: absent reads as false; a non-boolean fails. */
  function DefaultFalse(c: Fields, key: string): Option<bool> {
    if key !in c then Some(false)
    else if c[key].Bool? then Some(c[key].b)
    else None
  }

  /**
   * Validating a content object against its kind's schema (unknown keys are
   * stripped). Text and task content need a string `text`, event content a
   * string `title`; an optional key may be absent, but a value of the wrong
   * type is rejected; an absent `completed` reads as false.
   */
  function ParseContent(kind: ItemKind, c: Fields): (r: Option<Content>)
    ensures r.Some? ==> ContentKind(r.value) == kind
    ensures kind == Text ==>
      (r.Some? <==> "text" in c && c["text"].Str? && ("subtext" in c ==> c["subtext"].Str?))
    ensures kind == Task ==>
      (r.Some? <==> "text" in c && c["text"].Str? && ("completed" in c ==> c["completed"].Bool?))
    ensures kind == Event ==>
      (r.Some? <==> "title" in c && c["title"].Str? && ("time" in c ==> c["time"].Str?)
                    && ("location" in c ==> c["location"].Str?))
    ensures kind == Image ==>
      (r.Some? <==> ("url" in c ==> c["url"].Str?) && ("caption" in c ==> c["caption"].Str?))
    ensures r.Some? && (kind == Text || kind == Task) ==> r.value.text == c["text"].s
    ensures r.Some? && kind == Event ==> r.value.title == c["title"].s
    ensures r.Some? && kind == Task ==> r.value.completed == ("completed" in c && c["completed"].b)
  {
    match kind
    case Text =>
      (match (RequiredString(c, "text"), OptionalString(c, "subtext"))
       case (Some(t), Some(s)) => Some(TextNote(t, s))
       case _ => None)
    case Task =>
      (match (RequiredString(c, "text"), DefaultFalse(c, "completed"))
       case (Some(t), Some(b)) => Some(TaskContent(t, b))
       case _ => None)
    case Event =>
      (match (RequiredString(c, "title"), OptionalString(c, "time"), OptionalString(c, "location"))
       case (Some(t), Some(tm), Some(l)) => Some(EventContent(t, tm, l))
       case _ => None)
    case Image =>
      (match (OptionalString(c, "url"), OptionalString(c, "caption"))
       case (Some(u), Some(cap)) => Some(ImageContent(u, cap))
       case _ => None)
  }

  function OptionalEntry(key: string, o: Option<string>): Fields {
    if o.Some? then map[key := Str(o.value)] else map[]
  }

  /** The JSON object a typed content is written as (an absent optional field is an absent key). */
  function ContentFields(c: Content): (r: Fields)
    ensures r.Keys <= SchemaKeys(ContentKind(c))
  {
    match c
    case TextNote(t, s) => map["text" := Str(t)] + OptionalEntry("subtext", s)
    case TaskContent(t, b) => map["text" := Str(t), "completed" := Bool(b)]
    case EventContent(t, tm, l) => map["title" := Str(t)] + OptionalEntry("time", tm) + OptionalEntry("location", l)
    case ImageContent(u, cap) => OptionalEntry("url", u) + OptionalEntry("caption", cap)
  }

  /** Writing typed content out and validating it again gives it back. */
  lemma ParseContentFields(c: Content)
    ensures ParseContent(ContentKind(c), ContentFields(c)) == Some(c)
  {
  }

  /**
   * Validation keeps exactly the schema's keys: every declared key present in
   * the input comes back unchanged, and nothing outside the schema survives.
   */
  lemma ParsedContentKeepsSchemaKeys(kind: ItemKind, c: Fields)
    requires ParseContent(kind, c).Some?
    ensures var out := ContentFields(ParseContent(kind, c).value);
      && out.Keys <= SchemaKeys(kind)
      && (forall k :: k in c && k in SchemaKeys(kind) ==> k in out && out[k] == c[k])
  {
  }

  /** The client-side item (`WhiteboardItem`). `connectedDate` is a day number. */
  datatype Item = Item(id: string, kind: ItemKind, content: Fields, position: Point, connectedDate: int)

  /** A stored `whiteboard_objects` row. Timestamps are day numbers. */
  datatype ObjectRow = ObjectRow(
    id: int, userId: Option<int>, kind: string, content: Fields,
    positionX: int, positionY: int, connectedDate: int,
    createdAt: int, updatedAt: int)

  /** The insert shape: a row without `id`, `createdAt` and `updatedAt`. */
  datatype InsertObject = InsertObject(
    userId: Option<int>, kind: string, content: Fields,
    positionX: int, positionY: int, connectedDate: int)

  /** `createInsertSchema(...).omit({ id, createdAt, updatedAt })` applied to a row. */
  function Omit(row: ObjectRow): InsertObject {
    InsertObject(row.userId, row.kind, row.content, row.positionX, row.positionY, row.connectedDate)
  }

  /**
   * The row an insert becomes: the serial `id` and the `defaultNow()`
   * timestamps are attached, and omitting them again gives the insert back.
   */
  function Inserted(ins: InsertObject, id: int, now: int): (row: ObjectRow)
    ensures Omit(row) == ins
    ensures row.id == id && row.createdAt == now && row.updatedAt == now
  {
    ObjectRow(id, ins.userId, ins.kind, ins.content, ins.positionX, ins.positionY, ins.connectedDate, now, now)
  }
}
