/** The value tree and the layout of each part of a document: which form it takes and the exact
    lines it is printed as. */
module ToonLayout {
  import opened Options
  import opened ToonText
  import opened ToonNumber

  datatype Value =
    | Uninitialized
    | Null
    | Bool(b: bool)
    | Number(lexeme: string, reading: FloatReading)
    | Text(text: string)
    | Object(fields: seq<Field>)
    | Array(items: seq<Value>)

  datatype Field = Field(key: string, val: Value)

  /** A table column: a leaf when it has no children, an object of further columns otherwise. */
  datatype Col = Col(key: string, children: seq<Col>)

  /** What one field or array prints: the rest of the current line, and the lines below it. */
  datatype Chunk = Chunk(head: string, below: seq<Line>)

  const MAX_DEPTH := 1024

  predicate IsPrimitive(v: Value) { v.Null? || v.Bool? || v.Number? || v.Text? }

  predicate AllPrimitive(items: seq<Value>) { forall i | 0 <= i < |items| :: IsPrimitive(items[i]) }

  function FieldsOf(v: Value): seq<Field> { if v.Object? then v.fields else [] }

  /** The depth guard that runs before anything is printed. */
  predicate DepthAllowed(v: Value, depth: nat) {
    match v
    case Object(fields) => depth <= MAX_DEPTH && forall i | 0 <= i < |fields| :: DepthAllowed(fields[i].val, depth + 1)
    case Array(items) => depth <= MAX_DEPTH && forall i | 0 <= i < |items| :: DepthAllowed(items[i], depth + 1)
    case _ => true
  }

  // ---- Cells and rows ----

  function EncodePrimitive(v: Value): Option<string> {
    match v
    case Null => Some("null")
    case Bool(b) => Some(if b then "true" else "false")
    case Number(lexeme, reading) => CanonicalNumber(lexeme, reading)
    case Text(text) => Some(EncodeString(text))
    case _ => None
  }

  function RowText(cells: seq<Value>): Option<string> {
    if cells == [] then Some("")
    else
      var first :- EncodePrimitive(cells[0]);
      if |cells| == 1 then Some(first)
      else
        var more :- RowText(cells[1..]);
        Some(first + "," + more)
  }

  // ---- Choosing a table ----

  function Keys(fields: seq<Field>): (keys: seq<string>)
    ensures |keys| == |fields| && forall i | 0 <= i < |fields| :: keys[i] == fields[i].key
  {
    seq(|fields|, i requires 0 <= i < |fields| => fields[i].key)
  }

  predicate NoDuplicates(keys: seq<string>) { forall i, j | 0 <= i < j < |keys| :: keys[i] != keys[j] }

  function KeySet(keys: seq<string>): set<string> { set k | k in keys }

  predicate MatchesKeySet(v: Value, keys: set<string>) {
    && v.Object?
    && |v.fields| == |keys|
    && (forall i | 0 <= i < |v.fields| :: v.fields[i].key in keys)
    && NoDuplicates(Keys(v.fields))
  }

  /** The value a key has in an object; a later field overrides an earlier one. */
  function Lookup(fields: seq<Field>, key: string): (v: Value)
    ensures v == Uninitialized || exists i | 0 <= i < |fields| :: fields[i] == Field(key, v)
  {
    if fields == [] then Uninitialized
    else
      var last := fields[|fields| - 1];
      if last.key == key then last.val else Lookup(fields[..|fields| - 1], key)
  }

  function ColumnValues(objects: seq<Value>, key: string): (vals: seq<Value>)
    ensures |vals| == |objects|
    ensures forall i | 0 <= i < |objects| :: vals[i] == Lookup(FieldsOf(objects[i]), key)
  {
    seq(|objects|, i requires 0 <= i < |objects| => Lookup(FieldsOf(objects[i]), key))
  }

  /** The columns of a list of objects that share one key set, if every column is uniform. */
  function UniformColumns(vals: seq<Value>): Option<seq<Col>>
    requires vals != []
    decreases vals[0], 1, 0
  {
    if !vals[0].Object? || vals[0].fields == [] then None
    else
      var keys := Keys(vals[0].fields);
      if NoDuplicates(keys) && forall i | 1 <= i < |vals| :: MatchesKeySet(vals[i], KeySet(keys))
      then Columns(vals, keys)
      else None
  }

  function Columns(objects: seq<Value>, keys: seq<string>): Option<seq<Col>>
    requires objects != []
    decreases objects[0], 0, |keys|
  {
    if keys == [] then Some([])
    else
      var vals := ColumnValues(objects, keys[0]);
      var first :-
        if AllPrimitive(vals) then Some(Col(keys[0], []))
        else if !vals[0].Object? then None
        else
          var children :- UniformColumns(vals);
          Some(Col(keys[0], children));
      var more :- Columns(objects, keys[1..]);
      Some([first] + more)
  }

  function EntryValues(fields: seq<Field>): (vals: seq<Value>)
    ensures |vals| == |fields| && forall i | 0 <= i < |fields| :: vals[i] == fields[i].val
  {
    seq(|fields|, i requires 0 <= i < |fields| => fields[i].val)
  }

  /** The columns of an object of at least two uniform objects, printed as a keyed table. */
  function KeyedColumns(fields: seq<Field>): Option<seq<Col>> {
    if |fields| < 2 then None else UniformColumns(EntryValues(fields))
  }

  function LeafValues(fields: seq<Field>, cols: seq<Col>): seq<Value>
    decreases cols
  {
    if cols == [] then []
    else
      var v := Lookup(fields, cols[0].key);
      (if cols[0].children == [] then [v] else LeafValues(FieldsOf(v), cols[0].children))
      + LeafValues(fields, cols[1..])
  }

  // ---- Lines ----

  function ColText(col: Col): string {
    EncodeKey(col.key) + if col.children == [] then "" else "{" + ColsText(col.children) + "}"
  }

  function ColsText(cols: seq<Col>): string {
    if cols == [] then ""
    else if |cols| == 1 then ColText(cols[0])
    else ColText(cols[0]) + "," + ColsText(cols[1..])
  }

  function TableRows(items: seq<Value>, cols: seq<Col>, depth: nat): Option<seq<Line>> {
    if items == [] then Some([])
    else
      var row :- RowText(LeafValues(FieldsOf(items[0]), cols));
      var more :- TableRows(items[1..], cols, depth);
      Some([Line(depth, row)] + more)
  }

  function KeyedRows(entries: seq<Field>, cols: seq<Col>, depth: nat): Option<seq<Line>> {
    if entries == [] then Some([])
    else
      var row :- RowText(LeafValues(FieldsOf(entries[0].val), cols));
      var more :- KeyedRows(entries[1..], cols, depth);
      Some([Line(depth, EncodeKey(entries[0].key) + ": " + row)] + more)
  }

  function KeyedChunk(entries: seq<Field>, cols: seq<Col>, key: string, depth: nat): Option<Chunk> {
    if depth > MAX_DEPTH then None
    else
      var rows :- KeyedRows(entries, cols, depth);
      Some(Chunk(key + "[" + Digits(|entries|) + ":]{" + ColsText(cols) + "}:", rows))
  }

  function FieldsLines(fields: seq<Field>, depth: nat): Option<seq<Line>>
    decreases fields
  {
    if depth > MAX_DEPTH then None
    else if fields == [] then Some([])
    else
      var chunk :- FieldChunk(fields[0], depth);
      var more :- FieldsLines(fields[1..], depth);
      Some([Line(depth, chunk.head)] + chunk.below + more)
  }

  /** A field whose line prefix (indentation or list hyphen) is already printed. */
  function FieldChunk(f: Field, depth: nat): Option<Chunk>
    decreases f
  {
    match f.val
    case Array(items) => ArrayChunk(items, EncodeKey(f.key), depth + 1, true, true)
    case Object(fields) =>
      (match KeyedColumns(fields)
       case Some(cols) => KeyedChunk(fields, cols, EncodeKey(f.key), depth + 1)
       case None =>
         var below :- FieldsLines(fields, depth + 1);
         Some(Chunk(EncodeKey(f.key) + ":", below)))
    case _ =>
      var s :- EncodePrimitive(f.val);
      Some(Chunk(EncodeKey(f.key) + ": " + s, []))
  }

  /** An array whose line prefix is already printed; its rows or items go at `depth`. */
  function ArrayChunk(items: seq<Value>, key: string, depth: nat, allowTabular: bool, fieldEmpty: bool): Option<Chunk>
    decreases items, 1
  {
    var count := key + "[" + Digits(|items|) + "]";
    if items == [] then Some(Chunk(if fieldEmpty then key + ": []" else "[0]:", []))
    else if AllPrimitive(items) then
      var row :- RowText(items);
      Some(Chunk(count + ": " + row, []))
    else
      match if allowTabular then UniformColumns(items) else None
      case Some(cols) =>
        if depth > MAX_DEPTH then None
        else
          var rows :- TableRows(items, cols, depth);
          Some(Chunk(count + "{" + ColsText(cols) + "}:", rows))
      case None =>
        var below :- ListLines(items, depth);
        Some(Chunk(count + ":", below))
  }

  function ListLines(items: seq<Value>, depth: nat): Option<seq<Line>>
    decreases items, 0
  {
    if depth > MAX_DEPTH then None
    else if items == [] then Some([])
    else
      var item :- ItemLines(items[0], depth);
      var more :- ListLines(items[1..], depth);
      Some(item + more)
  }

  function ItemLines(item: Value, depth: nat): Option<seq<Line>>
    decreases item
  {
    match item
    case Object(fields) =>
      if fields == [] then Some([Line(depth, "-")])
      else
        var first :- FieldChunk(fields[0], depth + 1);
        var more :- FieldsLines(fields[1..], depth + 1);
        Some([Line(depth, "- " + first.head)] + first.below + more)
    case Array(items) =>
      var chunk :- ArrayChunk(items, "", depth + 1, false, false);
      Some([Line(depth, "- " + chunk.head)] + chunk.below)
    case _ =>
      var s :- EncodePrimitive(item);
      Some([Line(depth, "- " + s)])
  }

  /** The lines of a whole document whose root is a container; `None` when it cannot be encoded. */
  function DocumentLines(v: Value): Option<seq<Line>> {
    match v
    case Array(items) =>
      var chunk :- ArrayChunk(items, "", 1, true, false);
      Some([Line(0, chunk.head)] + chunk.below)
    case Object(fields) =>
      (match KeyedColumns(fields)
       case Some(cols) =>
         var chunk :- KeyedChunk(fields, cols, "", 1);
         Some([Line(0, chunk.head)] + chunk.below)
       case None => FieldsLines(fields, 0))
    case _ => None
  }

  function TrimNewline(s: string): string {
    if s != "" && s[|s| - 1] == '\n' then s[..|s| - 1] else s
  }

  /** The document text, before the size limit is applied. */
  function Document(v: Value): Option<string> {
    if !DepthAllowed(v, 0) then None
    else if v == Array([]) then Some("[]")
    else if v.Array? || v.Object? then
      var lines :- DocumentLines(v);
      Some(TrimNewline(Render(lines)))
    else EncodePrimitive(v)
  }
}
