/** A reader for the format: the reference that gives a document its meaning. It is written from the
    grammar alone and knows nothing about how the encoder chooses a form. */
module ToonDecoder {
  import opened Options
  import opened ToonText
  import opened ToonNumber
  import opened ToonLayout

  // ---- Cells ----

  /** An unquoted scalar. The lexeme of a number is already canonical, so no float is read. */
  function DecodeBare(s: string): Value {
    if s == "null" then Null
    else if s == "true" then Bool(true)
    else if s == "false" then Bool(false)
    else if NumericLike(s) then Number(s, Unreadable)
    else Text(s)
  }

  function CommaAt(s: string): (n: nat)
    ensures n <= |s|
    ensures n < |s| ==> s[n] == ','
  {
    if s == "" || s[0] == ',' then 0 else 1 + CommaAt(s[1..])
  }

  function ParseCell(s: string): (r: Option<(Value, string)>)
    ensures r.Some? ==> |r.value.1| <= |s|
  {
    if s != "" && s[0] == '"' then
      var (text, rest) :- ParseQuoted(s[1..]);
      Some((Text(text), rest))
    else
      var n := CommaAt(s);
      Some((DecodeBare(s[..n]), s[n..]))
  }

  function ParseRow(s: string): Option<seq<Value>>
    decreases |s|
  {
    var (cell, rest) :- ParseCell(s);
    if rest == "" then Some([cell])
    else if rest[0] != ',' then None
    else
      var more :- ParseRow(rest[1..]);
      Some([cell] + more)
  }

  function DecodePrimitive(s: string): Option<Value> {
    var row :- ParseRow(s);
    if |row| == 1 then Some(row[0]) else None
  }

  // ---- Table headers ----

  function ParseCols(s: string): (r: Option<(seq<Col>, string)>)
    ensures r.Some? ==> |r.value.1| < |s|
    decreases |s|, 0
  {
    var (key, afterKey) :- ParseKey(s);
    var (children, afterCol) :-
      if afterKey != "" && afterKey[0] == '{' then
        var (inner, afterInner) :- ParseCols(afterKey[1..]);
        if afterInner != "" && afterInner[0] == '}' then Some((inner, afterInner[1..])) else None
      else Some(([], afterKey));
    if afterCol != "" && afterCol[0] == ',' then
      var (more, rest) :- ParseCols(afterCol[1..]);
      Some(([Col(key, children)] + more, rest))
    else Some(([Col(key, children)], afterCol))
  }

  /** Puts the cells of a row back under the columns; what is left over follows. */
  function Unflatten(cols: seq<Col>, cells: seq<Value>): Option<(seq<Field>, seq<Value>)>
    decreases cols
  {
    if cols == [] then Some(([], cells))
    else
      var (val, after) :-
        if cols[0].children == [] then
          if cells == [] then None else Some((cells[0], cells[1..]))
        else
          var (inner, left) :- Unflatten(cols[0].children, cells);
          Some((Object(inner), left));
      var (more, rest) :- Unflatten(cols[1..], after);
      Some(([Field(cols[0].key, val)] + more, rest))
  }

  function DecodeRow(s: string, cols: seq<Col>): Option<Value> {
    var cells :- ParseRow(s);
    var (fields, left) :- Unflatten(cols, cells);
    if left == [] then Some(Object(fields)) else None
  }

  // ---- Lines ----

  predicate HasPrefix(prefix: string, s: string) { |prefix| <= |s| && s[..|prefix|] == prefix }

  function DecodeRows(n: nat, lines: seq<Line>, depth: nat, cols: seq<Col>): (r: Option<(seq<Value>, seq<Line>)>)
    ensures r.Some? ==> |r.value.1| <= |lines|
  {
    if n == 0 then Some(([], lines))
    else if lines == [] || lines[0].depth != depth then None
    else
      var row :- DecodeRow(lines[0].text, cols);
      var (more, rest) :- DecodeRows(n - 1, lines[1..], depth, cols);
      Some(([row] + more, rest))
  }

  function DecodeEntries(n: nat, lines: seq<Line>, depth: nat, cols: seq<Col>): (r: Option<(seq<Field>, seq<Line>)>)
    ensures r.Some? ==> |r.value.1| <= |lines|
  {
    if n == 0 then Some(([], lines))
    else if lines == [] || lines[0].depth != depth then None
    else
      var (key, after) :- ParseKey(lines[0].text);
      if !HasPrefix(": ", after) then None
      else
        var row :- DecodeRow(after[2..], cols);
        var (more, rest) :- DecodeEntries(n - 1, lines[1..], depth, cols);
        Some(([Field(key, row)] + more, rest))
  }

  /** Fields as long as the lines stay at `depth`. */
  function DecodeFields(lines: seq<Line>, depth: nat): (r: Option<(seq<Field>, seq<Line>)>)
    ensures r.Some? ==> |r.value.1| <= |lines|
    decreases |lines|, 0
  {
    if lines == [] || lines[0].depth != depth then Some(([], lines))
    else
      var (field, after) :- DecodeField(lines[0].text, lines[1..], depth);
      var (more, rest) :- DecodeFields(after, depth);
      Some(([field] + more, rest))
  }

  /** One field: the text of its first line, then the lines below. */
  function DecodeField(text: string, lines: seq<Line>, depth: nat): (r: Option<(Field, seq<Line>)>)
    ensures r.Some? ==> |r.value.1| <= |lines|
    decreases |lines|, 2
  {
    var (key, after) :- ParseKey(text);
    if after == ":" then
      var (fields, rest) :- DecodeFields(lines, depth + 1);
      Some((Field(key, Object(fields)), rest))
    else if after == ": []" then Some((Field(key, Array([])), lines))
    else if HasPrefix(": ", after) then
      var v :- DecodePrimitive(after[2..]);
      Some((Field(key, v), lines))
    else if HasPrefix("[", after) then
      var (v, rest) :- DecodeBracket(after[1..], lines, depth + 1);
      Some((Field(key, v), rest))
    else None
  }

  /** An array or keyed table, after its opening bracket; rows and items are at `depth`. */
  function DecodeBracket(text: string, lines: seq<Line>, depth: nat): (r: Option<(Value, seq<Line>)>)
    ensures r.Some? ==> |r.value.1| <= |lines|
    decreases |lines|, 1
  {
    var (n, after) :- ParseCount(text);
    if after == "]:" then
      var (items, rest) :- DecodeItems(n, lines, depth);
      Some((Array(items), rest))
    else if HasPrefix("]: ", after) then
      var items :- ParseRow(after[3..]);
      if |items| == n then Some((Array(items), lines)) else None
    else if HasPrefix("]{", after) then
      var (cols, close) :- ParseCols(after[2..]);
      if close != "}:" then None
      else
        var (items, rest) :- DecodeRows(n, lines, depth, cols);
        Some((Array(items), rest))
    else if HasPrefix(":]{", after) then
      var (cols, close) :- ParseCols(after[3..]);
      if close != "}:" then None
      else
        var (entries, rest) :- DecodeEntries(n, lines, depth, cols);
        Some((Object(entries), rest))
    else None
  }

  function DecodeItems(n: nat, lines: seq<Line>, depth: nat): (r: Option<(seq<Value>, seq<Line>)>)
    ensures r.Some? ==> |r.value.1| <= |lines|
    decreases |lines|, 0
  {
    if n == 0 then Some(([], lines))
    else if lines == [] || lines[0].depth != depth then None
    else
      var (item, after) :- DecodeItem(lines[0].text, lines[1..], depth);
      var (more, rest) :- DecodeItems(n - 1, after, depth);
      Some(([item] + more, rest))
  }

  /** Whether a line starts with a key rather than being a scalar. */
  predicate IsKeyLine(text: string) {
    match ParseKey(text)
    case None => false
    case Some((_, after)) => after != "" && (after[0] == ':' || after[0] == '[')
  }

  /** A list item, by the text of its hyphen line. */
  function DecodeItem(text: string, lines: seq<Line>, depth: nat): (r: Option<(Value, seq<Line>)>)
    ensures r.Some? ==> |r.value.1| <= |lines|
    decreases |lines|, 3
  {
    if text == "-" then Some((Object([]), lines))
    else if !HasPrefix("- ", text) then None
    else
      var body := text[2..];
      if HasPrefix("[", body) then DecodeBracket(body[1..], lines, depth + 1)
      else if IsKeyLine(body) then
        var (first, after) :- DecodeField(body, lines, depth + 1);
        var (more, rest) :- DecodeFields(after, depth + 1);
        Some((Object([first] + more), rest))
      else
        var v :- DecodePrimitive(body);
        Some((v, lines))
  }

  function DecodeRoot(text: string, lines: seq<Line>): Option<Value>
    requires lines != []
  {
    if HasPrefix("[", text) then
      var (v, rest) :- DecodeBracket(text[1..], lines[1..], 1);
      if rest == [] then Some(v) else None
    else if |lines| == 1 && !IsKeyLine(text) then DecodePrimitive(text)
    else
      var (fields, rest) :- DecodeFields(lines, 0);
      if rest == [] then Some(Object(fields)) else None
  }

  function Decode(text: string): Option<Value> {
    if text == "" then Some(Object([]))
    else if text == "[]" then Some(Array([]))
    else
      var lines :- ParseLines(text + "\n");
      if lines == [] || lines[0].depth != 0 then None
      else DecodeRoot(lines[0].text, lines)
  }
}
