/** Reading an encoded document gives back the value it was made from. */
module ToonRoundTrip {
  import opened Options
  import opened ToonText
  import opened ToonNumber
  import opened ToonLayout
  import opened ToonDecoder

  // ---- What the reader recovers: canonical numbers, and table rows in header order ----

  function SettledPrimitive(v: Value): Value {
    if v.Number? && CanonicalNumber(v.lexeme, v.reading).Some?
    then Number(CanonicalNumber(v.lexeme, v.reading).value, Unreadable)
    else v
  }

  function SettledCells(cells: seq<Value>): (settled: seq<Value>)
    ensures |settled| == |cells|
    ensures forall i | 0 <= i < |cells| :: settled[i] == SettledPrimitive(cells[i])
  {
    seq(|cells|, i requires 0 <= i < |cells| => SettledPrimitive(cells[i]))
  }

  function Arrange(fields: seq<Field>, cols: seq<Col>): (arranged: seq<Field>)
    ensures |arranged| == |cols|
    decreases cols
  {
    if cols == [] then []
    else
      var v := Lookup(fields, cols[0].key);
      var val :=
        if cols[0].children == [] then SettledPrimitive(v) else Object(Arrange(FieldsOf(v), cols[0].children));
      [Field(cols[0].key, val)] + Arrange(fields, cols[1..])
  }

  function ArrangeItems(items: seq<Value>, cols: seq<Col>): seq<Value> {
    if items == [] then []
    else [Object(Arrange(FieldsOf(items[0]), cols))] + ArrangeItems(items[1..], cols)
  }

  function ArrangeEntries(entries: seq<Field>, cols: seq<Col>): seq<Field> {
    if entries == [] then []
    else
      [Field(entries[0].key, Object(Arrange(FieldsOf(entries[0].val), cols)))] + ArrangeEntries(entries[1..], cols)
  }

  /** `tables` is false for list items, which never take a table form themselves. */
  function Settled(v: Value, tables: bool): Value
    decreases v
  {
    match v
    case Array(items) =>
      if tables && items != [] && !AllPrimitive(items) && UniformColumns(items).Some?
      then Array(ArrangeItems(items, UniformColumns(items).value))
      else Array(SettledItems(items))
    case Object(fields) =>
      if tables && KeyedColumns(fields).Some?
      then Object(ArrangeEntries(fields, KeyedColumns(fields).value))
      else Object(SettledFields(fields))
    case _ => SettledPrimitive(v)
  }

  function SettledItems(items: seq<Value>): (settled: seq<Value>)
    ensures |settled| == |items|
    decreases items
  {
    if items == [] then [] else [Settled(items[0], false)] + SettledItems(items[1..])
  }

  function SettledFields(fields: seq<Field>): (settled: seq<Field>)
    ensures |settled| == |fields|
    decreases fields
  {
    if fields == [] then []
    else [Field(fields[0].key, Settled(fields[0].val, true))] + SettledFields(fields[1..])
  }

  // ---- Cells and rows ----

  lemma {:induction false} CommaAtOf(s: string, rest: string)
    requires forall i | 0 <= i < |s| :: s[i] != ','
    requires rest == "" || rest[0] == ','
    ensures CommaAt(s + rest) == |s|
  {
    if s == "" {
      assert s + rest == rest;
    } else {
      assert (s + rest)[1..] == s[1..] + rest;
      CommaAtOf(s[1..], rest);
    }
  }

  /** An unquoted scalar's text: nothing in it is structural and it cannot be taken for a marker. */
  predicate BareText(s: string) {
    && GoodText(s)
    && s != "-"
    && s[0] != '#'
    && forall i | 0 <= i < |s| :: s[i] !in STRUCTURAL_CHARS
  }

  lemma StructuralMembers(c: char)
    ensures c in STRUCTURAL_CHARS <==>
            c == ':' || c == '"' || c == '\\' || c == '[' || c == ']' || c == '{' || c == '}' || c == ','
  {
    assert STRUCTURAL_CHARS == [':', '"', '\\', '[', ']', '{', '}', ','];
  }

  lemma BareParses(s: string, rest: string)
    requires BareText(s)
    requires rest == "" || rest[0] == ','
    ensures ParseCell(s + rest) == Some((DecodeBare(s), rest))
  {
    forall i | 0 <= i < |s| ensures s[i] != ',' { StructuralMembers(s[i]); }
    StructuralMembers(s[0]);
    CommaAtOf(s, rest);
    var t := s + rest;
    assert t[..|s|] == s && t[|s|..] == rest && t[0] == s[0];
  }

  lemma NumberIsBare(s: string)
    requires NumericLike(s)
    ensures BareText(s) && DecodeBare(s) == Number(s, Unreadable)
  {
    NumericChars(s);
    forall i | 0 <= i < |s| ensures s[i] !in STRUCTURAL_CHARS { StructuralMembers(s[i]); }
    assert !NumericLike("-");
  }

  lemma PlainTextIsBare(s: string)
    requires !NeedsQuoting(s)
    ensures BareText(s) && DecodeBare(s) == Text(s)
  {
  }

  lemma LiteralIsBare(s: string)
    requires s == "null" || s == "true" || s == "false"
    ensures BareText(s)
  {
    forall i | 0 <= i < |s| ensures s[i] !in STRUCTURAL_CHARS { StructuralMembers(s[i]); }
  }

  /** A primitive prints as a quoted string or as bare text that reads back as itself. */
  lemma PrimitiveForm(v: Value)
    requires EncodePrimitive(v).Some?
    ensures var s := EncodePrimitive(v).value;
            if v.Text? && NeedsQuoting(v.text) then s == Quote(v.text) && SettledPrimitive(v) == Text(v.text)
            else BareText(s) && DecodeBare(s) == SettledPrimitive(v)
  {
    match v
    case Number(lexeme, reading) =>
      CanonicalIsNumeric(lexeme, reading);
      NumberIsBare(CanonicalNumber(lexeme, reading).value);
    case Text(text) => if !NeedsQuoting(text) { PlainTextIsBare(text); }
    case Null => LiteralIsBare("null");
    case Bool(b) => LiteralIsBare(EncodePrimitive(v).value);
  }

  lemma CellRoundTrip(v: Value, rest: string)
    requires EncodePrimitive(v).Some?
    requires rest == "" || rest[0] == ','
    ensures ParseCell(EncodePrimitive(v).value + rest) == Some((SettledPrimitive(v), rest))
  {
    hide EncodePrimitive, SettledPrimitive, NeedsQuoting, ParseCell, Quote;
    PrimitiveForm(v);
    if v.Text? && NeedsQuoting(v.text) {
      QuotedParses(v.text, rest);
    } else {
      BareParses(EncodePrimitive(v).value, rest);
    }
  }

  lemma QuotedParses(text: string, rest: string)
    ensures ParseCell(Quote(text) + rest) == Some((Text(text), rest))
  {
    hide EscapeAll, ParseQuoted;
    var t := Quote(text) + rest;
    QuotedRoundTrip(text, rest);
    assert t[1..] == EscapeAll(text) + "\"" + rest;
  }

  lemma ParseRowCons(s: string, cell: Value, rest: string, more: seq<Value>)
    requires ParseCell(s) == Some((cell, "," + rest)) && ParseRow(rest) == Some(more)
    ensures ParseRow(s) == Some([cell] + more)
  {
    assert ("," + rest)[1..] == rest;
  }

  lemma {:induction false} RowRoundTrip(cells: seq<Value>)
    requires cells != [] && RowText(cells).Some?
    ensures ParseRow(RowText(cells).value) == Some(SettledCells(cells))
  {
    hide EncodePrimitive, ParseCell, SettledPrimitive;
    var first := EncodePrimitive(cells[0]).value;
    if |cells| == 1 {
      CellRoundTrip(cells[0], "");
      assert first + "" == first;
      assert SettledCells(cells) == [SettledPrimitive(cells[0])];
    } else {
      var more := RowText(cells[1..]).value;
      RowRoundTrip(cells[1..]);
      CellRoundTrip(cells[0], "," + more);
      assert first + "," + more == first + ("," + more);
      ParseRowCons(first + "," + more, SettledPrimitive(cells[0]), more, SettledCells(cells[1..]));
      assert SettledCells(cells) == [SettledPrimitive(cells[0])] + SettledCells(cells[1..]);
    }
  }

  lemma PrimitiveRoundTrip(v: Value)
    requires EncodePrimitive(v).Some?
    ensures DecodePrimitive(EncodePrimitive(v).value) == Some(SettledPrimitive(v))
  {
    RowRoundTrip([v]);
  }

  lemma QuotedIsGood(s: string)
    ensures GoodText(Quote(s))
  {
    EscapedIsPrintable(s);
  }

  /** A scalar alone on a line or behind a hyphen is not mistaken for a key, a header or a marker. */
  lemma PrimitiveIsNoKey(v: Value)
    requires EncodePrimitive(v).Some?
    ensures var s := EncodePrimitive(v).value; GoodText(s) && s[0] != '[' && !IsKeyLine(s)
  {
    PrimitiveForm(v);
    var s := EncodePrimitive(v).value;
    if v.Text? && NeedsQuoting(v.text) {
      QuotedIsGood(v.text);
      QuotedRoundTrip(v.text, "");
      assert s[1..] == EscapeAll(v.text) + "\"" + "";
    } else {
      StructuralMembers(s[0]);
      if IsKeyLine(s) {
        var n := KeyRun(s);
        assert s[n..][0] == s[n];
        StructuralMembers(s[n]);
        assert false;
      }
    }
  }

  lemma {:induction false} RowIsGood(cells: seq<Value>)
    requires cells != [] && RowText(cells).Some?
    ensures GoodText(RowText(cells).value)
  {
    PrimitiveIsNoKey(cells[0]);
    if |cells| > 1 {
      RowIsGood(cells[1..]);
    }
  }

  // ---- Columns ----

  /** What the reader makes of a column's text, up to the comma or brace behind it. */
  ghost predicate ReadsCol(s: string, col: Col, rest: string) {
    match ParseKey(s)
    case None => false
    case Some((key, after)) =>
      && key == col.key
      && if col.children == [] then after == rest
         else after != "" && after[0] == '{' && ParseCols(after[1..]) == Some((col.children, "}" + rest))
  }

  lemma ParseColsLast(s: string, col: Col, rest: string)
    requires ReadsCol(s, col, rest)
    requires rest != "" && rest[0] == '}'
    ensures ParseCols(s) == Some(([col], rest))
  {
    hide ParseKey;
    assert ("}" + rest)[1..] == rest;
    assert col == Col(col.key, col.children);
  }

  lemma ParseColsCons(s: string, col: Col, rest: string, more: seq<Col>, end: string)
    requires ReadsCol(s, col, "," + rest)
    requires ParseCols(rest) == Some((more, end))
    ensures ParseCols(s) == Some(([col] + more, end))
  {
    hide ParseKey;
    assert ("}" + ("," + rest))[1..] == "," + rest;
    assert ("," + rest)[1..] == rest;
    assert col == Col(col.key, col.children);
  }

  lemma {:induction false} ColRoundTrip(col: Col, rest: string)
    requires rest != "" && (rest[0] == '}' || rest[0] == ',')
    ensures ReadsCol(ColText(col) + rest, col, rest)
    decreases col
  {
    hide ParseKey, EncodeKey;
    if col.children == [] {
      assert EncodeKey(col.key) + "" == EncodeKey(col.key);
      KeyRoundTrip(col.key, rest);
    } else {
      var inner := ColsText(col.children);
      var after := "{" + inner + "}" + rest;
      assert ColText(col) + rest == EncodeKey(col.key) + after;
      KeyRoundTrip(col.key, after);
      ColsRoundTrip(col.children, "}" + rest);
      assert after[1..] == inner + ("}" + rest);
    }
  }

  lemma {:induction false} ColsRoundTrip(cols: seq<Col>, rest: string)
    requires cols != []
    requires rest != "" && rest[0] == '}'
    ensures ParseCols(ColsText(cols) + rest) == Some((cols, rest))
    decreases cols
  {
    hide ParseCols, ColText, ReadsCol;
    if |cols| == 1 {
      ColRoundTrip(cols[0], rest);
      ParseColsLast(ColText(cols[0]) + rest, cols[0], rest);
      assert cols == [cols[0]];
    } else {
      var more := ColsText(cols[1..]) + rest;
      assert ColsText(cols) + rest == ColText(cols[0]) + ("," + more);
      ColRoundTrip(cols[0], "," + more);
      ColsRoundTrip(cols[1..], rest);
      ParseColsCons(ColText(cols[0]) + ("," + more), cols[0], more, cols[1..], rest);
      assert cols == [cols[0]] + cols[1..];
    }
  }

  lemma SettledCellsConcat(a: seq<Value>, b: seq<Value>, more: seq<Value>)
    ensures SettledCells(a + b) + more == SettledCells(a) + (SettledCells(b) + more)
  {
    hide SettledPrimitive;
    assert SettledCells(a + b) == SettledCells(a) + SettledCells(b);
  }

  lemma {:induction false} UnflattenInverts(fields: seq<Field>, cols: seq<Col>, more: seq<Value>)
    ensures Unflatten(cols, SettledCells(LeafValues(fields, cols)) + more) == Some((Arrange(fields, cols), more))
    decreases cols
  {
    hide SettledPrimitive, Lookup;
    if cols == [] {
      assert SettledCells(LeafValues(fields, cols)) + more == more;
    } else {
      var v, children := Lookup(fields, cols[0].key), cols[0].children;
      var leaves := if children == [] then [v] else LeafValues(FieldsOf(v), children);
      var tail := SettledCells(LeafValues(fields, cols[1..])) + more;
      UnflattenInverts(fields, cols[1..], more);
      SettledCellsConcat(leaves, LeafValues(fields, cols[1..]), more);
      if children == [] {
        assert SettledCells(leaves) == [SettledPrimitive(v)];
      } else {
        UnflattenInverts(FieldsOf(v), children, tail);
      }
    }
  }

  lemma {:induction false} SomeLeaf(fields: seq<Field>, cols: seq<Col>)
    requires cols != []
    ensures LeafValues(fields, cols) != []
    decreases cols
  {
    if cols[0].children != [] {
      SomeLeaf(FieldsOf(Lookup(fields, cols[0].key)), cols[0].children);
    }
  }

  lemma TableRowRoundTrip(fields: seq<Field>, cols: seq<Col>)
    requires cols != [] && RowText(LeafValues(fields, cols)).Some?
    ensures var row := RowText(LeafValues(fields, cols)).value;
            GoodText(row) && DecodeRow(row, cols) == Some(Object(Arrange(fields, cols)))
  {
    var leaves := LeafValues(fields, cols);
    SomeLeaf(fields, cols);
    RowIsGood(leaves);
    RowRoundTrip(leaves);
    UnflattenInverts(fields, cols, []);
    assert SettledCells(leaves) + [] == SettledCells(leaves);
  }

  lemma {:induction false} RowsRoundTrip(items: seq<Value>, cols: seq<Col>, depth: nat, tail: seq<Line>)
    requires cols != [] && TableRows(items, cols, depth).Some?
    ensures var rows := TableRows(items, cols, depth).value;
            GoodLines(rows) && DecodeRows(|items|, rows + tail, depth, cols) == Some((ArrangeItems(items, cols), tail))
  {
    hide RowText, LeafValues, DecodeRow, Arrange;
    var rows := TableRows(items, cols, depth).value;
    if items == [] {
      assert rows + tail == tail;
    } else {
      TableRowRoundTrip(FieldsOf(items[0]), cols);
      RowsRoundTrip(items[1..], cols, depth, tail);
      var more := TableRows(items[1..], cols, depth).value;
      assert (rows + tail)[1..] == more + tail && (rows + tail)[0] == rows[0];
    }
  }

  lemma {:induction false} EntriesRoundTrip(entries: seq<Field>, cols: seq<Col>, depth: nat, tail: seq<Line>)
    requires cols != [] && KeyedRows(entries, cols, depth).Some?
    ensures var rows := KeyedRows(entries, cols, depth).value;
            && GoodLines(rows)
            && DecodeEntries(|entries|, rows + tail, depth, cols) == Some((ArrangeEntries(entries, cols), tail))
  {
    hide RowText, LeafValues, DecodeRow, Arrange, ParseKey, EncodeKey;
    var rows := KeyedRows(entries, cols, depth).value;
    if entries == [] {
      assert rows + tail == tail;
    } else {
      var key, row := entries[0].key, RowText(LeafValues(FieldsOf(entries[0].val), cols)).value;
      EntryLine(key, row);
      TableRowRoundTrip(FieldsOf(entries[0].val), cols);
      EntriesRoundTrip(entries[1..], cols, depth, tail);
      var more := KeyedRows(entries[1..], cols, depth).value;
      assert (rows + tail)[1..] == more + tail && (rows + tail)[0] == rows[0];
    }
  }

  lemma EntryLine(key: string, row: string)
    ensures ParseKey(EncodeKey(key) + ": " + row) == Some((key, ": " + row))
    ensures HasPrefix(": ", ": " + row) && (": " + row)[2..] == row
    ensures Printable(row) ==> GoodText(EncodeKey(key) + ": " + row)
  {
    KeyRoundTrip(key, ": " + row);
    EncodedKeyShape(key);
    assert EncodeKey(key) + ": " + row == EncodeKey(key) + (": " + row);
  }

  // ---- Brackets: the four forms behind `[` ----

  lemma BracketCount(n: nat, after: string)
    requires after != "" && !IsDigit(after[0])
    ensures ParseCount(Digits(n) + after) == Some((n, after))
  {
    CountRoundTrip(n, after);
  }

  lemma BracketList(n: nat, lines: seq<Line>, depth: nat, items: seq<Value>, rest: seq<Line>)
    requires DecodeItems(n, lines, depth) == Some((items, rest))
    ensures DecodeBracket(Digits(n) + "]:", lines, depth) == Some((Array(items), rest))
  {
    hide DecodeItems, Digits, ParseCount;
    BracketCount(n, "]:");
  }

  lemma BracketInline(items: seq<Value>, row: string, lines: seq<Line>, depth: nat)
    requires ParseRow(row) == Some(items)
    ensures DecodeBracket(Digits(|items|) + "]: " + row, lines, depth) == Some((Array(items), lines))
  {
    hide ParseRow, Digits, ParseCount;
    var after := "]: " + row;
    BracketCount(|items|, after);
    assert Digits(|items|) + "]: " + row == Digits(|items|) + after;
    assert after[3..] == row && after[..3] == "]: " && after[2] == ' ';
  }

  lemma BracketTable(n: nat, cols: seq<Col>, lines: seq<Line>, depth: nat, items: seq<Value>, rest: seq<Line>)
    requires cols != [] && DecodeRows(n, lines, depth, cols) == Some((items, rest))
    ensures DecodeBracket(Digits(n) + "]{" + ColsText(cols) + "}:", lines, depth) == Some((Array(items), rest))
  {
    hide DecodeRows, Digits, ParseCount, ParseCols, ColsText;
    var after := "]{" + (ColsText(cols) + "}:");
    BracketCount(n, after);
    assert Digits(n) + "]{" + ColsText(cols) + "}:" == Digits(n) + after;
    assert after[2..] == ColsText(cols) + "}:" && after[..2] == "]{" && after[1] == '{';
    ColsRoundTrip(cols, "}:");
  }

  lemma BracketKeyed(n: nat, cols: seq<Col>, lines: seq<Line>, depth: nat, entries: seq<Field>, rest: seq<Line>)
    requires cols != [] && DecodeEntries(n, lines, depth, cols) == Some((entries, rest))
    ensures DecodeBracket(Digits(n) + ":]{" + ColsText(cols) + "}:", lines, depth) == Some((Object(entries), rest))
  {
    hide DecodeEntries, Digits, ParseCount, ParseCols, ColsText;
    var after := ":]{" + (ColsText(cols) + "}:");
    BracketCount(n, after);
    assert Digits(n) + ":]{" + ColsText(cols) + "}:" == Digits(n) + after;
    assert after[3..] == ColsText(cols) + "}:" && after[..3] == ":]{" && after[0] == ':';
    ColsRoundTrip(cols, "}:");
  }

  // ---- Fields, by what follows the key ----

  /** Both the text of a field and its key's separator survive being put behind the key. */
  lemma KeyLine(key: string, after: string)
    requires after != "" && (after[0] == ':' || after[0] == '[')
    ensures ParseKey(EncodeKey(key) + after) == Some((key, after))
    ensures IsKeyLine(EncodeKey(key) + after) && (EncodeKey(key) + after)[0] != '['
    ensures Printable(after) ==> GoodText(EncodeKey(key) + after)
  {
    KeyRoundTrip(key, after);
    EncodedKeyShape(key);
  }

  lemma FieldOfPrimitive(f: Field, lines: seq<Line>, depth: nat)
    requires EncodePrimitive(f.val).Some?
    ensures DecodeField(EncodeKey(f.key) + ": " + EncodePrimitive(f.val).value, lines, depth)
            == Some((Field(f.key, SettledPrimitive(f.val)), lines))
  {
    hide EncodePrimitive, DecodePrimitive, SettledPrimitive, ParseKey, EncodeKey, IsKeyLine;
    var s := EncodePrimitive(f.val).value;
    var after := ": " + s;
    PrimitiveIsNoKey(f.val);
    PrimitiveRoundTrip(f.val);
    KeyLine(f.key, after);
    assert EncodeKey(f.key) + ": " + s == EncodeKey(f.key) + after;
    assert after[2..] == s && after[..2] == ": " && after[2] == s[0] != '[';
  }

  lemma FieldOfObject(key: string, lines: seq<Line>, depth: nat, fields: seq<Field>, rest: seq<Line>)
    requires DecodeFields(lines, depth + 1) == Some((fields, rest))
    ensures DecodeField(EncodeKey(key) + ":", lines, depth) == Some((Field(key, Object(fields)), rest))
  {
    hide DecodeFields, ParseKey, EncodeKey, IsKeyLine;
    KeyLine(key, ":");
  }

  lemma FieldOfEmptyArray(key: string, lines: seq<Line>, depth: nat)
    ensures DecodeField(EncodeKey(key) + ": []", lines, depth) == Some((Field(key, Array([])), lines))
  {
    hide ParseKey, EncodeKey, IsKeyLine;
    KeyLine(key, ": []");
  }

  lemma FieldOfBracket(key: string, inner: string, lines: seq<Line>, depth: nat, v: Value, rest: seq<Line>)
    requires DecodeBracket(inner, lines, depth + 1) == Some((v, rest))
    ensures DecodeField(EncodeKey(key) + ("[" + inner), lines, depth) == Some((Field(key, v), rest))
  {
    hide DecodeBracket, ParseKey, EncodeKey, IsKeyLine;
    var after := "[" + inner;
    KeyLine(key, after);
    assert after[1..] == inner && after[0] == '[' && after[..1] == "[";
  }

  // ---- List items ----

  lemma ItemOfPrimitive(v: Value, lines: seq<Line>, depth: nat)
    requires EncodePrimitive(v).Some?
    ensures DecodeItem("- " + EncodePrimitive(v).value, lines, depth) == Some((SettledPrimitive(v), lines))
  {
    hide EncodePrimitive, DecodePrimitive, SettledPrimitive, IsKeyLine;
    var s := EncodePrimitive(v).value;
    PrimitiveIsNoKey(v);
    PrimitiveRoundTrip(v);
    var text := "- " + s;
    assert text[2..] == s && text[..2] == "- ";
  }

  lemma ItemOfBracket(head: string, inner: string, lines: seq<Line>, depth: nat, v: Value, rest: seq<Line>)
    requires head == "" + ("[" + inner)
    requires DecodeBracket(inner, lines, depth + 1) == Some((v, rest))
    ensures DecodeItem("- " + head, lines, depth) == Some((v, rest))
  {
    hide DecodeBracket, IsKeyLine;
    var text := "- " + head;
    assert text[..2] == "- " && text[2..] == head == "[" + inner;
    assert head[1..] == inner && head[..1] == "[";
  }

  lemma ItemOfFields(head: string, lines: seq<Line>, depth: nat, first: Field, after: seq<Line>, more: seq<Field>,
                     rest: seq<Line>)
    requires IsKeyLine(head) && head != "" && head[0] != '['
    requires DecodeField(head, lines, depth + 1) == Some((first, after))
    requires DecodeFields(after, depth + 1) == Some((more, rest))
    ensures DecodeItem("- " + head, lines, depth) == Some((Object([first] + more), rest))
  {
    hide DecodeField, DecodeFields, IsKeyLine;
    var text := "- " + head;
    assert text[2..] == head && text[..2] == "- ";
  }

  // ---- Whole structures ----

  /** The lines that follow belong to an enclosing structure. */
  predicate Outside(tail: seq<Line>, depth: nat) { tail == [] || tail[0].depth < depth }

  /** The block of one field or item, cut off from the lines behind it. */
  lemma FirstBlock(head: Line, below: seq<Line>, more: seq<Line>, tail: seq<Line>)
    ensures var lines := [head] + below + more + tail;
            lines[0] == head && lines[1..] == below + (more + tail)
    ensures GoodText(head.text) && GoodLines(below) && GoodLines(more) ==> GoodLines([head] + below + more)
  {
  }

  lemma {:induction false} SettledCellsAreItems(items: seq<Value>)
    requires AllPrimitive(items)
    ensures SettledCells(items) == SettledItems(items)
  {
    if items != [] {
      SettledCellsAreItems(items[1..]);
      assert SettledCells(items) == [SettledPrimitive(items[0])] + SettledCells(items[1..]);
    }
  }

  lemma {:induction false} ColumnsNonEmpty(objects: seq<Value>, keys: seq<string>)
    requires objects != [] && Columns(objects, keys).Some?
    ensures |Columns(objects, keys).value| == |keys|
    decreases |keys|
  {
    if keys != [] {
      ColumnsNonEmpty(objects, keys[1..]);
    }
  }

  lemma UniformNonEmpty(vals: seq<Value>)
    requires vals != [] && UniformColumns(vals).Some?
    ensures UniformColumns(vals).value != []
  {
    ColumnsNonEmpty(vals, Keys(vals[0].fields));
  }

  lemma {:induction false} ColsPrintable(cols: seq<Col>)
    ensures Printable(ColsText(cols))
    decreases cols
  {
    hide EncodeKey;
    if cols != [] {
      EncodedKeyShape(cols[0].key);
      ColsPrintable(cols[0].children);
      ColsPrintable(cols[1..]);
    }
  }

  lemma HeaderPrintable(n: nat, open: string, cols: seq<Col>)
    requires Printable(open)
    ensures Printable("[" + Digits(n) + open + ColsText(cols) + "}:")
  {
    hide Digits, ColsText;
    ColsPrintable(cols);
    DigitsInvert(n);
  }

  lemma BehindBracket(key: string, count: string, after: string)
    ensures key + "[" + count + after == key + ("[" + (count + after))
  {
  }

  lemma TableHead(key: string, count: string, open: string, cols: string)
    ensures "[" + count + open + cols + "}:" == "[" + (count + open + cols + "}:")
    ensures key + "[" + count + open + cols + "}:" == key + ("[" + (count + open + cols + "}:"))
  {
  }

  /** An array in any of its bracketed forms; `inner` is what stands behind the bracket. */
  lemma {:induction false} ArrayRoundTrip(items: seq<Value>, key: string, depth: nat, tables: bool, fieldEmpty: bool,
                                          tail: seq<Line>) returns (inner: string)
    requires ArrayChunk(items, key, depth, tables, fieldEmpty).Some?
    requires items != [] || (!fieldEmpty && key == "")
    requires Outside(tail, depth)
    ensures var chunk := ArrayChunk(items, key, depth, tables, fieldEmpty).value;
            && chunk.head == key + ("[" + inner)
            && Printable("[" + inner)
            && GoodLines(chunk.below)
            && DecodeBracket(inner, chunk.below + tail, depth) == Some((Settled(Array(items), tables), tail))
    decreases items, 1
  {
    hide Digits, RowText, UniformColumns, TableRows, ColsText, ParseRow, DecodeBracket, ListLines, SettledPrimitive;
    hide IsPrimitive, SettledCells, ArrangeItems;
    var chunk := ArrayChunk(items, key, depth, tables, fieldEmpty).value;
    var n := |items|;
    DigitsInvert(n);
    if items == [] {
      inner := Digits(0) + "]:";
      ZeroDigits();
      BracketList(0, tail, depth, [], tail);
      assert [] + tail == tail;
    } else if AllPrimitive(items) {
      var row := RowText(items).value;
      inner := Digits(n) + "]: " + row;
      RowRoundTrip(items);
      RowIsGood(items);
      SettledCellsAreItems(items);
      BracketInline(SettledCells(items), row, tail, depth);
      assert [] + tail == tail;
      BehindBracket(key, Digits(n), "]: " + row);
      assert "]: " + row == "]" + (": " + row);
      assert inner == Digits(n) + ("]: " + row);
    } else if tables && UniformColumns(items).Some? {
      var cols := UniformColumns(items).value;
      inner := Digits(n) + "]{" + ColsText(cols) + "}:";
      UniformNonEmpty(items);
      RowsRoundTrip(items, cols, depth, tail);
      BracketTable(n, cols, chunk.below + tail, depth, ArrangeItems(items, cols), tail);
      HeaderPrintable(n, "]{", cols);
      TableHead(key, Digits(n), "]{", ColsText(cols));
      assert key + "[" + Digits(n) + "]" + "{" + ColsText(cols) + "}:" == key + "[" + Digits(n) + "]{" + ColsText(cols) + "}:";
    } else {
      inner := Digits(n) + "]:";
      ListRoundTrip(items, depth, tail);
      BracketList(n, chunk.below + tail, depth, SettledItems(items), tail);
      assert key + "[" + Digits(n) + "]" + ":" == key + ("[" + inner);
    }
  }

  lemma ZeroDigits()
    ensures Digits(0) == "0" && DecodeItems(0, [], 0) == Some(([], []))
  {
  }

  lemma {:induction false} ListRoundTrip(items: seq<Value>, depth: nat, tail: seq<Line>)
    requires ListLines(items, depth).Some?
    requires Outside(tail, depth + 1)
    ensures var lines := ListLines(items, depth).value;
            && GoodLines(lines)
            && (lines != [] ==> lines[0].depth == depth)
            && DecodeItems(|items|, lines + tail, depth) == Some((SettledItems(items), tail))
    decreases items, 0
  {
    hide ItemLines, DecodeItem, Settled;
    var lines := ListLines(items, depth).value;
    if items == [] {
      assert lines + tail == tail;
    } else {
      var item, more := ItemLines(items[0], depth).value, ListLines(items[1..], depth).value;
      ListRoundTrip(items[1..], depth, tail);
      ItemRoundTrip(items[0], depth, more + tail);
      assert (lines + tail)[1..] == item[1..] + (more + tail) && (lines + tail)[0] == item[0];
    }
  }

  lemma {:induction false} ItemRoundTrip(item: Value, depth: nat, tail: seq<Line>)
    requires ItemLines(item, depth).Some?
    requires Outside(tail, depth + 1)
    ensures var lines := ItemLines(item, depth).value;
            && lines != [] && lines[0].depth == depth
            && GoodLines(lines)
            && DecodeItem(lines[0].text, lines[1..] + tail, depth) == Some((Settled(item, false), tail))
    decreases item
  {
    hide EncodePrimitive, SettledPrimitive, DecodeItem, FieldChunk, ArrayChunk, FieldsLines, IsKeyLine, DecodeField;
    hide DecodeFields;
    var lines := ItemLines(item, depth).value;
    match item
    case Object(fields) =>
      if fields == [] {
        EmptyItem(tail, depth);
        assert lines[1..] + tail == tail;
      } else {
        ObjectItemRoundTrip(fields, depth, tail);
      }
    case Array(items) =>
      var inner := ArrayRoundTrip(items, "", depth + 1, false, false, tail);
      var chunk := ArrayChunk(items, "", depth + 1, false, false).value;
      ItemOfBracket(chunk.head, inner, chunk.below + tail, depth, Settled(item, false), tail);
      assert lines[1..] == chunk.below;
    case _ =>
      PrimitiveIsNoKey(item);
      ItemOfPrimitive(item, tail, depth);
      assert lines[1..] == [] && [] + tail == tail;
  }

  lemma {:induction false} ObjectItemRoundTrip(fields: seq<Field>, depth: nat, tail: seq<Line>)
    requires fields != [] && ItemLines(Object(fields), depth).Some?
    requires Outside(tail, depth + 1)
    ensures var lines := ItemLines(Object(fields), depth).value;
            && lines != [] && lines[0].depth == depth
            && GoodLines(lines)
            && DecodeItem(lines[0].text, lines[1..] + tail, depth) == Some((Object(SettledFields(fields)), tail))
    decreases fields, 0
  {
    hide DecodeItem, FieldChunk, FieldsLines, IsKeyLine, DecodeField, DecodeFields, Settled;
    var lines := ItemLines(Object(fields), depth).value;
    var first, more := FieldChunk(fields[0], depth + 1).value, FieldsLines(fields[1..], depth + 1).value;
    FieldsRoundTrip(fields[1..], depth + 1, tail);
    FieldRoundTrip(fields[0], depth + 1, more + tail);
    assert lines[1..] + tail == first.below + (more + tail);
    ItemOfFields(first.head, lines[1..] + tail, depth, SettledFields(fields)[0], more + tail,
                 SettledFields(fields[1..]), tail);
  }

  lemma EmptyItem(tail: seq<Line>, depth: nat)
    ensures DecodeItem("-", tail, depth) == Some((Object([]), tail))
  {
  }

  lemma {:induction false} FieldsRoundTrip(fields: seq<Field>, depth: nat, tail: seq<Line>)
    requires FieldsLines(fields, depth).Some?
    requires Outside(tail, depth)
    ensures var lines := FieldsLines(fields, depth).value;
            && GoodLines(lines)
            && (lines != [] ==> lines[0].depth == depth)
            && DecodeFields(lines + tail, depth) == Some((SettledFields(fields), tail))
    decreases fields
  {
    hide FieldChunk, DecodeField, Settled, IsKeyLine;
    var lines := FieldsLines(fields, depth).value;
    if fields == [] {
      assert lines + tail == tail;
    } else {
      var chunk, more := FieldChunk(fields[0], depth).value, FieldsLines(fields[1..], depth).value;
      FieldsRoundTrip(fields[1..], depth, tail);
      FieldRoundTrip(fields[0], depth, more + tail);
      FirstBlock(Line(depth, chunk.head), chunk.below, more, tail);
    }
  }

  lemma {:induction false} FieldRoundTrip(f: Field, depth: nat, tail: seq<Line>)
    requires FieldChunk(f, depth).Some?
    requires Outside(tail, depth + 1)
    ensures var chunk := FieldChunk(f, depth).value;
            && GoodText(chunk.head) && IsKeyLine(chunk.head) && chunk.head[0] != '['
            && GoodLines(chunk.below)
            && DecodeField(chunk.head, chunk.below + tail, depth) == Some((Field(f.key, Settled(f.val, true)), tail))
    decreases f
  {
    hide EncodeKey, EncodePrimitive, SettledPrimitive, DecodeField, IsKeyLine, ArrayChunk, KeyedChunk, KeyedColumns;
    hide FieldsLines, ParseKey;
    var chunk := FieldChunk(f, depth).value;
    match f.val
    case Array(items) =>
      if items == [] {
        EmptyArrayChunk(EncodeKey(f.key), depth + 1);
        KeyLine(f.key, ": []");
        FieldOfEmptyArray(f.key, tail, depth);
        assert chunk.below + tail == tail;
      } else {
        var inner := ArrayRoundTrip(items, EncodeKey(f.key), depth + 1, true, true, tail);
        KeyLine(f.key, "[" + inner);
        FieldOfBracket(f.key, inner, chunk.below + tail, depth, Settled(f.val, true), tail);
      }
    case Object(fields) =>
      if KeyedColumns(fields).Some? {
        var inner := KeyedRoundTrip(fields, EncodeKey(f.key), depth + 1, tail);
        KeyLine(f.key, "[" + inner);
        FieldOfBracket(f.key, inner, chunk.below + tail, depth, Settled(f.val, true), tail);
      } else {
        FieldsRoundTrip(fields, depth + 1, tail);
        KeyLine(f.key, ":");
        FieldOfObject(f.key, chunk.below + tail, depth, SettledFields(fields), tail);
      }
    case _ =>
      var s := EncodePrimitive(f.val).value;
      PrimitiveIsNoKey(f.val);
      assert EncodeKey(f.key) + ": " + s == EncodeKey(f.key) + (": " + s);
      KeyLine(f.key, ": " + s);
      FieldOfPrimitive(f, tail, depth);
      assert chunk.below + tail == tail;
  }

  lemma EmptyArrayChunk(key: string, depth: nat)
    ensures ArrayChunk([], key, depth, true, true) == Some(Chunk(key + ": []", []))
  {
  }

  /** An object of uniform objects in its keyed form. */
  lemma KeyedRoundTrip(fields: seq<Field>, key: string, depth: nat, tail: seq<Line>) returns (inner: string)
    requires KeyedColumns(fields).Some? && KeyedChunk(fields, KeyedColumns(fields).value, key, depth).Some?
    ensures var chunk := KeyedChunk(fields, KeyedColumns(fields).value, key, depth).value;
            && chunk.head == key + ("[" + inner)
            && Printable("[" + inner)
            && GoodLines(chunk.below)
            && DecodeBracket(inner, chunk.below + tail, depth) == Some((Settled(Object(fields), true), tail))
  {
    hide Digits, UniformColumns, KeyedRows, ColsText, DecodeBracket, ArrangeEntries;
    var cols := KeyedColumns(fields).value;
    var chunk := KeyedChunk(fields, cols, key, depth).value;
    var n := |fields|;
    inner := Digits(n) + ":]{" + ColsText(cols) + "}:";
    UniformNonEmpty(EntryValues(fields));
    EntriesRoundTrip(fields, cols, depth, tail);
    BracketKeyed(n, cols, chunk.below + tail, depth, ArrangeEntries(fields, cols), tail);
    HeaderPrintable(n, ":]{", cols);
    TableHead(key, Digits(n), ":]{", ColsText(cols));
  }
}
