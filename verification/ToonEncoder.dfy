/** The encoder itself: one builder that every write method appends to, each append checked against
    the size limit. Every method is proved to append exactly the text of the layout, and to fail
    exactly when that text does not exist or does not fit. */
module ToonEncoder {
  import opened Options
  import opened ToonText
  import opened ToonNumber
  import opened ToonLayout
  import opened ToonTables

  datatype EncodeError = TooLarge | TooDeep | MalformedNumber | NotPrimitive | UninitializedValue

  const MAX_BYTES := 4 * 1024 * 1024

  /** The length of a character in UTF-8. */
  function CharBytes(c: char): nat {
    if c < '\U{80}' then 1 else if c < '\U{800}' then 2 else if c < '\U{10000}' then 3 else 4
  }

  function ByteLen(s: string): nat {
    if s == "" then 0 else CharBytes(s[0]) + ByteLen(s[1..])
  }

  predicate Fits(s: string) { ByteLen(s) <= MAX_BYTES }

  lemma {:induction false} ByteLenConcat(a: string, b: string)
    ensures ByteLen(a + b) == ByteLen(a) + ByteLen(b)
  {
    if a == "" {
      assert a + b == b;
    } else {
      assert (a + b)[1..] == a[1..] + b;
      ByteLenConcat(a[1..], b);
    }
  }

  lemma {:induction false} ByteLenBound(s: string)
    ensures ByteLen(s) <= 4 * |s|
  {
    if s != "" {
      ByteLenBound(s[1..]);
    }
  }

  // ---- The texts the methods append ----

  function Then(a: Option<string>, b: Option<string>): Option<string> {
    if a.Some? && b.Some? then Some(a.value + b.value) else None
  }

  predicate Succeeds(total: Option<string>) { total.Some? && Fits(total.value) }

  /** The outcome of a write that was to leave `total` in the builder. */
  predicate Finished(err: Option<EncodeError>, now: string, total: Option<string>) {
    && Fits(now)
    && (err.None? <==> Succeeds(total))
    && (err.None? ==> now == total.value)
  }

  function LinesText(lines: Option<seq<Line>>): Option<string> {
    var ls :- lines;
    Some(Render(ls))
  }

  function ChunkText(chunk: Option<Chunk>): Option<string> {
    var c :- chunk;
    Some(c.head + "\n" + Render(c.below))
  }

  /** A block that fails makes everything it is part of fail. */
  lemma Sequenced(now: string, block: Option<string>, rest: Option<string>)
    ensures Then(Then(Some(now), block), rest) == Then(Some(now), Then(block, rest))
    ensures Succeeds(Then(Some(now), Then(block, rest))) ==> Succeeds(Then(Some(now), block))
  {
    if block.Some? && rest.Some? {
      assert now + block.value + rest.value == now + (block.value + rest.value);
      ByteLenConcat(now + block.value, rest.value);
    }
  }

  function Concat(parts: seq<string>): string {
    if parts == [] then "" else parts[0] + Concat(parts[1..])
  }

  lemma FieldsTextStep(fields: seq<Field>, depth: nat)
    requires fields != [] && depth <= MAX_DEPTH
    ensures LinesText(FieldsLines(fields, depth))
            == Then(Then(Some(Indent(depth)), ChunkText(FieldChunk(fields[0], depth))),
                    LinesText(FieldsLines(fields[1..], depth)))
  {
    hide FieldChunk, Indent;
    if FieldsLines(fields, depth).Some? {
      var chunk, more := FieldChunk(fields[0], depth).value, FieldsLines(fields[1..], depth).value;
      BlockText(Line(depth, chunk.head), chunk.below, more);
    }
  }

  lemma BlockText(head: Line, below: seq<Line>, more: seq<Line>)
    ensures Render([head] + below + more)
            == Indent(head.depth) + (head.text + "\n" + Render(below)) + Render(more)
  {
    hide Indent;
    assert [head] + below + more == [head] + (below + more);
    RenderConcat(below, more);
    var lines := [head] + (below + more);
    assert lines[1..] == below + more && lines[0] == head;
  }

  lemma ListTextStep(items: seq<Value>, depth: nat)
    requires items != [] && depth <= MAX_DEPTH
    ensures LinesText(ListLines(items, depth))
            == Then(LinesText(ItemLines(items[0], depth)), LinesText(ListLines(items[1..], depth)))
  {
    hide ItemLines, Render;
    if ListLines(items, depth).Some? {
      RenderConcat(ItemLines(items[0], depth).value, ListLines(items[1..], depth).value);
    }
  }

  lemma RowsTextStep(items: seq<Value>, cols: seq<Col>, depth: nat)
    requires items != []
    ensures var row := RowText(LeafValues(FieldsOf(items[0]), cols));
            LinesText(TableRows(items, cols, depth))
            == Then(if row.Some? then Some(Indent(depth) + row.value + "\n") else None,
                    LinesText(TableRows(items[1..], cols, depth)))
  {
    hide RowText, LeafValues, Indent;
    if TableRows(items, cols, depth).Some? {
      var lines := TableRows(items, cols, depth).value;
      assert lines[1..] == TableRows(items[1..], cols, depth).value;
    }
  }

  lemma EntriesTextStep(entries: seq<Field>, cols: seq<Col>, depth: nat)
    requires entries != []
    ensures var row := RowText(LeafValues(FieldsOf(entries[0].val), cols));
            LinesText(KeyedRows(entries, cols, depth))
            == Then(if row.Some? then Some(Indent(depth) + (EncodeKey(entries[0].key) + ": " + row.value) + "\n") else None,
                    LinesText(KeyedRows(entries[1..], cols, depth)))
  {
    hide RowText, LeafValues, Indent, EncodeKey;
    if KeyedRows(entries, cols, depth).Some? {
      var lines := KeyedRows(entries, cols, depth).value;
      assert lines[1..] == KeyedRows(entries[1..], cols, depth).value;
    }
  }

  // ---- Pure parts with loops ----

  method EncodePrimitiveValue(v: Value) returns (s: string, err: Option<EncodeError>)
    ensures err.None? <==> Succeeds(EncodePrimitive(v))
    ensures err.None? ==> s == EncodePrimitive(v).value
  {
    hide CanonicalNumber, EncodeString;
    s, err := "", None;
    match v
    case Uninitialized => err := Some(UninitializedValue);
    case Object(_) => err := Some(NotPrimitive);
    case Array(_) => err := Some(NotPrimitive);
    case Null =>
      s := "null";
      ByteLenBound(s);
    case Bool(b) =>
      s := if b then "true" else "false";
      ByteLenBound(s);
    case Number(lexeme, reading) =>
      var canonical := CanonicalNumber(lexeme, reading);
      if canonical.None? {
        err := Some(MalformedNumber);
      } else {
        s := canonical.value;
        if ByteLen(s) > MAX_BYTES {
          err := Some(TooLarge);
        }
      }
    case Text(text) =>
      s := EncodeText(text);
      if ByteLen(s) > MAX_BYTES {
        err := Some(TooLarge);
      }
  }

  method EncodeText(text: string) returns (s: string)
    ensures s == EncodeString(text)
  {
    if NeedsQuoting(text) {
      s := QuoteString(text);
    } else {
      s := text;
    }
  }

  lemma {:induction false} EscapeAllSnoc(s: string, c: char)
    ensures EscapeAll(s + [c]) == EscapeAll(s) + Escape(c)
  {
    hide Escape;
    if s == "" {
      assert s + [c] == [c] && [c][1..] == "";
    } else {
      assert (s + [c])[1..] == s[1..] + [c];
      EscapeAllSnoc(s[1..], c);
    }
  }

  method QuoteString(text: string) returns (s: string)
    ensures s == Quote(text)
  {
    hide Escape;
    s := "\"";
    for i := 0 to |text|
      invariant s == "\"" + EscapeAll(text[..i])
    {
      EscapeAllSnoc(text[..i], text[i]);
      assert text[..i + 1] == text[..i] + [text[i]];
      s := s + Escape(text[i]);
    }
    assert text[..|text|] == text;
    s := s + "\"";
  }

  method ValidateDepth(v: Value, depth: nat) returns (ok: bool)
    ensures ok == DepthAllowed(v, depth)
    decreases v
  {
    match v
    case Object(fields) =>
      if depth > MAX_DEPTH {
        return false;
      }
      for i := 0 to |fields|
        invariant forall k | 0 <= k < i :: DepthAllowed(fields[k].val, depth + 1)
      {
        var inner := ValidateDepth(fields[i].val, depth + 1);
        if !inner {
          return false;
        }
      }
      return true;
    case Array(items) =>
      if depth > MAX_DEPTH {
        return false;
      }
      for i := 0 to |items|
        invariant forall k | 0 <= k < i :: DepthAllowed(items[k], depth + 1)
      {
        var inner := ValidateDepth(items[i], depth + 1);
        if !inner {
          return false;
        }
      }
      return true;
    case _ => return true;
  }

  /** What remains of a row from cell `i` on, with the comma that separates it from the cells before. */
  function RowTail(cells: seq<Value>, i: nat): Option<string>
    requires i <= |cells|
  {
    if i == |cells| then Some("")
    else
      var row :- RowText(cells[i..]);
      Some(if i == 0 then row else "," + row)
  }

  lemma RowTailStep(cells: seq<Value>, i: nat)
    requires i < |cells|
    ensures RowTail(cells, i)
            == Then(Then(Some(if i == 0 then "" else ","), EncodePrimitive(cells[i])), RowTail(cells, i + 1))
  {
    hide EncodePrimitive;
    assert cells[i..][1..] == cells[i + 1..];
    var sep := if i == 0 then "" else ",";
    if EncodePrimitive(cells[i]).Some? {
      var s := EncodePrimitive(cells[i]).value;
      if i + 1 == |cells| {
        assert sep + s + "" == sep + s && "" + s == s;
      } else if RowText(cells[i + 1..]).Some? {
        var more := RowText(cells[i + 1..]).value;
        assert sep + s + ("," + more) == sep + (s + "," + more);
        assert "" + (s + "," + more) == s + "," + more;
      }
    }
  }

  method JoinPrimitives(cells: seq<Value>) returns (row: string, err: Option<EncodeError>)
    ensures err.None? <==> Succeeds(RowText(cells))
    ensures err.None? ==> row == RowText(cells).value
  {
    hide EncodePrimitive, RowText;
    var sb := new Builder();
    row := "";
    ghost var all := RowTail(cells, 0);
    assert all == RowText(cells) by { assert cells[0..] == cells; EmptyRow(); }
    assert Then(Some(""), all) == all by { if all.Some? { assert "" + all.value == all.value; } }
    for i := 0 to |cells|
      invariant Fits(sb.text)
      invariant Then(Some(sb.text), RowTail(cells, i)) == all
    {
      RowTailStep(cells, i);
      ghost var sep := if i == 0 then "" else ",";
      ghost var cell := Then(Some(sep), EncodePrimitive(cells[i]));
      Sequenced(sb.text, cell, RowTail(cells, i + 1));
      var s, e := EncodePrimitiveValue(cells[i]);
      if e.Some? {
        CellTooLarge(sb.text + sep, EncodePrimitive(cells[i]));
        assert cell.Some? ==> sb.text + cell.value == sb.text + sep + EncodePrimitive(cells[i]).value;
        return "", e;
      }
      var parts := if i > 0 then [",", s] else [s];
      ConcatPair(",", s);
      assert Concat(parts) == sep + s;
      e := sb.AppendEach(parts);
      if e.Some? {
        return "", e;
      }
    }
    assert sb.text + "" == sb.text;
    return sb.text, None;
  }

  lemma EmptyRow()
    ensures RowText([]) == Some("")
  {
  }

  lemma ConcatPair(a: string, b: string)
    ensures Concat([b]) == b && Concat([a, b]) == a + b
  {
    assert [a, b][1..] == [b] && [b][1..] == [];
    assert b + "" == b;
  }

  lemma CellTooLarge(before: string, cell: Option<string>)
    requires !Succeeds(cell)
    ensures cell.Some? ==> !Fits(before + cell.value)
  {
    if cell.Some? {
      ByteLenConcat(before, cell.value);
    }
  }

  // ---- Shapes of the appended texts ----

  lemma PartTooLarge(before: string, part: string, after: string)
    ensures !Fits(part) ==> !Fits(before + (part + after))
    ensures !Fits(before + part) ==> !Fits(before + (part + after))
    ensures before + (part + after) == before + part + after
  {
    ByteLenConcat(before, part);
    ByteLenConcat(before + part, after);
    assert before + (part + after) == before + part + after;
  }

  lemma Concat2(a: string, b: string)
    ensures Concat([a, b]) == a + b
  {
    ConcatPair(a, b);
  }

  lemma Concat3(a: string, b: string, c: string)
    ensures Concat([a, b, c]) == a + b + c
  {
    Concat2(b, c);
    assert [a, b, c][1..] == [b, c];
    assert a + (b + c) == a + b + c;
  }

  lemma Concat4(a: string, b: string, c: string, d: string)
    ensures Concat([a, b, c, d]) == a + b + c + d
  {
    Concat3(b, c, d);
    assert [a, b, c, d][1..] == [b, c, d];
    assert a + (b + c + d) == a + b + c + d;
  }

  lemma SingleLine(head: string)
    ensures ChunkText(Some(Chunk(head, []))) == Some(head + "\n")
  {
    assert head + "\n" + "" == head + "\n";
  }

  /** The text of a table: its header line, then its rows. */
  lemma TableText(key: string, count: string, cols: string, rows: Option<seq<Line>>)
    ensures ChunkText(match rows case None => None
                                 case Some(rs) => Some(Chunk(key + "[" + count + "]" + "{" + cols + "}:", rs)))
            == Then(Some(key + ("[" + count + "]{") + cols + "}:\n"), LinesText(rows))
  {
    assert key + "[" + count + "]" + "{" + cols + "}:" + "\n" == key + ("[" + count + "]{") + cols + "}:\n";
  }

  lemma KeyedText(key: string, count: string, cols: string, rows: Option<seq<Line>>)
    ensures ChunkText(match rows case None => None
                                 case Some(rs) => Some(Chunk(key + "[" + count + ":]{" + cols + "}:", rs)))
            == Then(Some(key + ("[" + count + ":]{") + cols + "}:\n"), LinesText(rows))
  {
    assert key + "[" + count + ":]{" + cols + "}:" + "\n" == key + ("[" + count + ":]{") + cols + "}:\n";
  }

  lemma ListText(key: string, count: string, below: Option<seq<Line>>)
    ensures ChunkText(match below case None => None
                                  case Some(ls) => Some(Chunk(key + "[" + count + "]" + ":", ls)))
            == Then(Some(key + ("[" + count + "]:\n")), LinesText(below))
  {
    assert key + "[" + count + "]" + ":" + "\n" == key + ("[" + count + "]:\n");
  }

  /** The columns of a header from column `i` on. */
  function ColsTail(cols: seq<Col>, i: nat): string
    requires i <= |cols|
  {
    if i == |cols| then "" else (if i == 0 then "" else ",") + ColsText(cols[i..])
  }

  lemma ColsTailStep(cols: seq<Col>, i: nat)
    requires i < |cols|
    ensures ColsTail(cols, i) == (if i == 0 then "" else ",") + (ColText(cols[i]) + ColsTail(cols, i + 1))
  {
    hide ColText;
    assert cols[i..][1..] == cols[i + 1..];
    if i + 1 == |cols| {
      assert ColText(cols[i]) + "" == ColText(cols[i]);
    } else {
      assert ColText(cols[i]) + "," + ColsText(cols[i + 1..]) == ColText(cols[i]) + ("," + ColsText(cols[i + 1..]));
    }
  }

  class Builder {
    var text: string

    constructor ()
      ensures text == ""
    {
      text := "";
    }

    method AppendString(s: string) returns (err: Option<EncodeError>)
      requires Fits(text)
      modifies this
      ensures Finished(err, text, Some(old(text) + s))
    {
      ByteLenConcat(text, s);
      if ByteLen(s) > MAX_BYTES - ByteLen(text) {
        return Some(TooLarge);
      }
      text := text + s;
      return None;
    }

    /** A run of appends, given up at the first that does not fit. */
    method AppendEach(parts: seq<string>) returns (err: Option<EncodeError>)
      requires Fits(text)
      modifies this
      ensures Finished(err, text, Some(old(text) + Concat(parts)))
    {
      for i := 0 to |parts|
        invariant Fits(text)
        invariant text + Concat(parts[i..]) == old(text) + Concat(parts)
      {
        assert parts[i..][1..] == parts[i + 1..];
        ByteLenConcat(text + parts[i], Concat(parts[i + 1..]));
        assert text + parts[i] + Concat(parts[i + 1..]) == text + Concat(parts[i..]);
        err := AppendString(parts[i]);
        if err.Some? {
          return;
        }
      }
      assert text + "" == text;
      return None;
    }

    method WriteColHeaders(cols: seq<Col>) returns (err: Option<EncodeError>)
      requires Fits(text)
      modifies this
      ensures Finished(err, text, Some(old(text) + ColsText(cols)))
      decreases cols
    {
      hide ColText, ColsText, ColsTail, Fits;
      ghost var total := text + ColsTail(cols, 0);
      assert ColsTail(cols, 0) == ColsText(cols) by { WholeCols(cols); }
      for i := 0 to |cols|
        invariant Fits(text)
        invariant text + ColsTail(cols, i) == total
      {
        ColsTailStep(cols, i);
        ghost var tail := ColsTail(cols, i + 1);
        ghost var start, sep := text, if i == 0 then "" else ",";
        assert start + (sep + (ColText(cols[i]) + tail)) == start + sep + (ColText(cols[i]) + tail);
        PartTooLarge(start, sep, ColText(cols[i]) + tail);
        if i > 0 {
          err := AppendString(",");
          if err.Some? {
            return;
          }
        }
        assert text == start + sep;
        PartTooLarge(text, ColText(cols[i]), tail);
        err := WriteColHeader(cols[i]);
        if err.Some? {
          return;
        }
      }
      NoColsLeft(cols);
      assert text + "" == text;
      return None;
    }

    method WriteColHeader(col: Col) returns (err: Option<EncodeError>)
      requires Fits(text)
      modifies this
      ensures Finished(err, text, Some(old(text) + ColText(col)))
      decreases col
    {
      hide ColsText, EncodeKey, Fits;
      ghost var start, key, inner := text, EncodeKey(col.key), ColsText(col.children);
      if |col.children| == 0 {
        assert start + (key + "") == start + key;
        err := AppendString(EncodeKey(col.key));
        return;
      }
      Concat2(key, "{");
      assert start + ColText(col) == start + (key + "{" + (inner + "}")) by {
        assert key + ("{" + inner + "}") == key + "{" + (inner + "}");
      }
      PartTooLarge(start, key + "{", inner + "}");
      err := AppendEach([EncodeKey(col.key), "{"]);
      if err.Some? {
        return;
      }
      PartTooLarge(text, inner, "}");
      err := WriteColHeaders(col.children);
      if err.Some? {
        return;
      }
      err := AppendString("}");
    }

    /** The header of an array table or keyed table, up to and including its line break. */
    method WriteTableHeader(key: string, count: string, cols: seq<Col>) returns (err: Option<EncodeError>)
      requires Fits(text)
      modifies this
      ensures Finished(err, text, Some(old(text) + (key + count + ColsText(cols) + "}:\n")))
    {
      hide ColsText, Fits;
      ghost var start, inner := text, ColsText(cols);
      Concat2(key, count);
      assert start + (key + count + inner + "}:\n") == start + (key + count + (inner + "}:\n")) by {
        assert key + count + inner + "}:\n" == key + count + (inner + "}:\n");
      }
      PartTooLarge(start, key + count, inner + "}:\n");
      err := AppendEach([key, count]);
      if err.Some? {
        return;
      }
      PartTooLarge(text, inner, "}:\n");
      err := WriteColHeaders(cols);
      if err.Some? {
        return;
      }
      err := AppendString("}:\n");
    }

    /** A table row, printed behind `prefix`: the indentation, and for a keyed table the entry's key. */
    method WriteRow(prefix: string, cells: seq<Value>) returns (err: Option<EncodeError>)
      requires Fits(text)
      modifies this
      ensures Finished(err, text, var row := RowText(cells);
                                  if row.Some? then Some(old(text) + (prefix + row.value + "\n")) else None)
    {
      hide RowText, Fits;
      var row, e := JoinPrimitives(cells);
      if e.Some? {
        if RowText(cells).Some? {
          PartTooLarge(text + prefix, RowText(cells).value, "\n");
          assert text + prefix + (RowText(cells).value + "\n") == text + (prefix + RowText(cells).value + "\n");
        }
        return e;
      }
      Concat3(prefix, row, "\n");
      err := AppendEach([prefix, row, "\n"]);
    }

    method WriteTabularArray(items: seq<Value>, cols: seq<Col>, key: string, depth: nat)
      returns (err: Option<EncodeError>)
      requires Fits(text)
      modifies this
      ensures Finished(err, text,
                       if depth > MAX_DEPTH then None
                       else Then(Some(old(text)),
                                 Then(Some(key + ("[" + Digits(|items|) + "]{") + ColsText(cols) + "}:\n"),
                                      LinesText(TableRows(items, cols, depth)))))
    {
      hide ColsText, TableRows, RowText, LeafValues, Digits, Indent, Fits;
      if depth > MAX_DEPTH {
        return Some(TooDeep);
      }
      ghost var header := Some(key + ("[" + Digits(|items|) + "]{") + ColsText(cols) + "}:\n");
      ghost var total := Then(Some(text), Then(header, LinesText(TableRows(items, cols, depth))));
      Sequenced(text, header, LinesText(TableRows(items, cols, depth)));
      err := WriteTableHeader(key, "[" + Digits(|items|) + "]{", cols);
      if err.Some? {
        return;
      }
      assert items[0..] == items;
      for i := 0 to |items|
        invariant Fits(text)
        invariant Then(Some(text), LinesText(TableRows(items[i..], cols, depth))) == total
      {
        assert items[i..][1..] == items[i + 1..];
        RowsTextStep(items[i..], cols, depth);
        var index := FieldIndex(items[i]);
        var cells := LeafValuesLoop(index, cols, items[i]);
        ghost var row := RowText(cells);
        Sequenced(text, if row.Some? then Some(Indent(depth) + row.value + "\n") else None,
                  LinesText(TableRows(items[i + 1..], cols, depth)));
        err := WriteRow(Indent(depth), cells);
        if err.Some? {
          return;
        }
      }
      NoLinesLeft(text, items[|items|..], [], cols, depth);
      return None;
    }

    method WriteKeyedTabular(fields: seq<Field>, cols: seq<Col>, key: string, depth: nat)
      returns (err: Option<EncodeError>)
      requires Fits(text)
      modifies this
      ensures Finished(err, text, Then(Some(old(text)), ChunkText(KeyedChunk(fields, cols, key, depth))))
    {
      hide ColsText, KeyedRows, RowText, LeafValues, Digits, Indent, EncodeKey, Fits;
      if depth > MAX_DEPTH {
        return Some(TooDeep);
      }
      KeyedText(key, Digits(|fields|), ColsText(cols), KeyedRows(fields, cols, depth));
      ghost var header := Some(key + ("[" + Digits(|fields|) + ":]{") + ColsText(cols) + "}:\n");
      ghost var total := Then(Some(text), Then(header, LinesText(KeyedRows(fields, cols, depth))));
      assert total == Then(Some(text), ChunkText(KeyedChunk(fields, cols, key, depth)));
      Sequenced(text, header, LinesText(KeyedRows(fields, cols, depth)));
      err := WriteTableHeader(key, "[" + Digits(|fields|) + ":]{", cols);
      if err.Some? {
        return;
      }
      assert fields[0..] == fields;
      for i := 0 to |fields|
        invariant Fits(text)
        invariant Then(Some(text), LinesText(KeyedRows(fields[i..], cols, depth))) == total
      {
        assert fields[i..][1..] == fields[i + 1..];
        EntriesTextStep(fields[i..], cols, depth);
        var index := FieldIndex(fields[i].val);
        var cells := LeafValuesLoop(index, cols, fields[i].val);
        ghost var row := RowText(cells);
        var prefix := Indent(depth) + (EncodeKey(fields[i].key) + ": ");
        if row.Some? {
          EntryPrefix(Indent(depth), EncodeKey(fields[i].key), row.value);
        }
        Sequenced(text, if row.Some? then Some(prefix + row.value + "\n") else None,
                  LinesText(KeyedRows(fields[i + 1..], cols, depth)));
        err := WriteRow(prefix, cells);
        if err.Some? {
          return;
        }
      }
      NoLinesLeft(text, [], fields[|fields|..], cols, depth);
      return None;
    }

    // The source also compares the builder's length with the limit on entry to the next method and to
    // WriteListItems; no append lets the builder grow beyond it, so those tests never fire.

    method WriteFields(fields: seq<Field>, depth: nat) returns (err: Option<EncodeError>)
      requires Fits(text)
      modifies this
      ensures Finished(err, text, Then(Some(old(text)), LinesText(FieldsLines(fields, depth))))
      decreases fields, 0
    {
      hide FieldsLines, FieldChunk, Indent, ChunkText, Fits;
      DeepFields(fields, depth);
      if depth > MAX_DEPTH {
        return Some(TooDeep);
      }
      ghost var total := Then(Some(text), LinesText(FieldsLines(fields, depth)));
      assert fields[0..] == fields;
      for i := 0 to |fields|
        invariant Fits(text)
        invariant Then(Some(text), LinesText(FieldsLines(fields[i..], depth))) == total
      {
        assert fields[i..][1..] == fields[i + 1..];
        FieldsTextStep(fields[i..], depth);
        Sequenced(text, Then(Some(Indent(depth)), ChunkText(FieldChunk(fields[i], depth))),
                  LinesText(FieldsLines(fields[i + 1..], depth)));
        err := WriteField(fields[i], depth);
        if err.Some? {
          return;
        }
      }
      assert fields[|fields|..] == [] && text + "" == text;
      return None;
    }

    method WriteField(f: Field, depth: nat) returns (err: Option<EncodeError>)
      requires Fits(text)
      modifies this
      ensures Finished(err, text,
                       Then(Some(old(text)), Then(Some(Indent(depth)), ChunkText(FieldChunk(f, depth)))))
      decreases f, 1
    {
      hide FieldChunk, Indent, ChunkText, Fits;
      Sequenced(text, Some(Indent(depth)), ChunkText(FieldChunk(f, depth)));
      err := AppendString(Indent(depth));
      if err.Some? {
        return;
      }
      err := WriteFieldBody(f, depth);
    }

    method WriteFieldBody(f: Field, depth: nat) returns (err: Option<EncodeError>)
      requires Fits(text)
      modifies this
      ensures Finished(err, text, Then(Some(old(text)), ChunkText(FieldChunk(f, depth))))
      decreases f, 0
    {
      hide EncodeKey, ArrayChunk, KeyedChunk, UniformColumns, FieldsLines, EncodePrimitive, Fits;
      if f.val.Array? {
        err := WriteArray(f.val.items, EncodeKey(f.key), depth + 1, true, true);
        return;
      }
      if f.val.Object? {
        var cols := KeyedTabularCols(f.val);
        if cols.Some? {
          err := WriteKeyedTabular(f.val.fields, cols.value, EncodeKey(f.key), depth + 1);
          return;
        }
      }
      FieldText(f, depth);
      Concat2(EncodeKey(f.key), ":");
      Sequenced(text, Some(EncodeKey(f.key) + ":"), FieldValueText(f.val, depth));
      err := AppendEach([EncodeKey(f.key), ":"]);
      if err.Some? {
        return;
      }
      err := WriteFieldValue(f, depth);
    }

    method WriteFieldValue(f: Field, depth: nat) returns (err: Option<EncodeError>)
      requires Fits(text) && !f.val.Array?
      modifies this
      ensures Finished(err, text, Then(Some(old(text)), FieldValueText(f.val, depth)))
      decreases f.val
    {
      hide FieldsLines, EncodePrimitive, Fits;
      if f.val.Object? {
        Sequenced(text, Some("\n"), LinesText(FieldsLines(f.val.fields, depth + 1)));
        err := AppendString("\n");
        if err.Some? {
          return;
        }
        err := WriteFields(f.val.fields, depth + 1);
        return;
      }
      var s, e := EncodePrimitiveValue(f.val);
      if e.Some? {
        if EncodePrimitive(f.val).Some? {
          PartTooLarge(text + " ", EncodePrimitive(f.val).value, "\n");
          assert text + " " + (EncodePrimitive(f.val).value + "\n") == text + (" " + EncodePrimitive(f.val).value + "\n");
        }
        return e;
      }
      Concat3(" ", s, "\n");
      err := AppendEach([" ", s, "\n"]);
    }

    method WriteArray(items: seq<Value>, key: string, depth: nat, allowTabular: bool, fieldEmpty: bool)
      returns (err: Option<EncodeError>)
      requires Fits(text)
      modifies this
      ensures Finished(err, text,
                       Then(Some(old(text)), ChunkText(ArrayChunk(items, key, depth, allowTabular, fieldEmpty))))
      decreases items, 1
    {
      hide UniformColumns, ListLines, RowText, Digits, TableRows, ColsText, IsPrimitive, Fits;
      if |items| == 0 {
        err := WriteEmptyArray(key, fieldEmpty);
        return;
      }
      var inline := AllPrimitiveLoop(items);
      if inline {
        err := WriteInlineArray(items, key);
        return;
      }
      var cols := TabularFields(items);
      if cols.Some? && allowTabular {
        TableText(key, Digits(|items|), ColsText(cols.value), TableRows(items, cols.value, depth));
        err := WriteTabularArray(items, cols.value, key, depth);
        return;
      }
      ListText(key, Digits(|items|), ListLines(items, depth));
      var count := "[" + Digits(|items|) + "]:\n";
      Concat2(key, count);
      Sequenced(text, Some(key + count), LinesText(ListLines(items, depth)));
      err := AppendEach([key, count]);
      if err.Some? {
        return;
      }
      err := WriteListItems(items, depth);
    }

    method WriteEmptyArray(key: string, fieldEmpty: bool) returns (err: Option<EncodeError>)
      requires Fits(text)
      modifies this
      ensures Finished(err, text, Then(Some(old(text)), ChunkText(Some(Chunk(if fieldEmpty then key + ": []" else "[0]:", [])))))
    {
      hide Fits;
      SingleLine(if fieldEmpty then key + ": []" else "[0]:");
      if fieldEmpty {
        assert key + ": []\n" == key + ": []" + "\n";
        err := AppendString(key + ": []\n");
      } else {
        assert "[0]:\n" == "[0]:" + "\n";
        err := AppendString("[0]:\n");
      }
    }

    method WriteInlineArray(items: seq<Value>, key: string) returns (err: Option<EncodeError>)
      requires Fits(text)
      modifies this
      ensures Finished(err, text,
                       Then(Some(old(text)),
                            ChunkText(match RowText(items)
                                      case None => None
                                      case Some(row) => Some(Chunk(key + "[" + Digits(|items|) + "]" + ": " + row, [])))))
    {
      hide RowText, Digits, Fits;
      var count := "[" + Digits(|items|) + "]: ";
      var row, e := JoinPrimitives(items);
      if RowText(items).Some? {
        InlineText(key, Digits(|items|), RowText(items).value);
      }
      if e.Some? {
        if RowText(items).Some? {
          PartTooLarge(text + (key + count), RowText(items).value, "\n");
          assert text + (key + count) + (RowText(items).value + "\n") == text + (key + count + RowText(items).value + "\n");
        }
        return e;
      }
      Concat4(key, count, row, "\n");
      err := AppendEach([key, count, row, "\n"]);
    }

    method WriteListItems(items: seq<Value>, depth: nat) returns (err: Option<EncodeError>)
      requires Fits(text)
      modifies this
      ensures Finished(err, text, Then(Some(old(text)), LinesText(ListLines(items, depth))))
      decreases items, 0
    {
      hide ListLines, ItemLines, Fits;
      DeepItems(items, depth);
      if depth > MAX_DEPTH {
        return Some(TooDeep);
      }
      ghost var total := Then(Some(text), LinesText(ListLines(items, depth)));
      assert items[0..] == items;
      for i := 0 to |items|
        invariant Fits(text)
        invariant Then(Some(text), LinesText(ListLines(items[i..], depth))) == total
      {
        assert items[i..][1..] == items[i + 1..];
        ListTextStep(items[i..], depth);
        Sequenced(text, LinesText(ItemLines(items[i], depth)), LinesText(ListLines(items[i + 1..], depth)));
        err := WriteListItem(items[i], depth);
        if err.Some? {
          return;
        }
      }
      assert items[|items|..] == [] && text + "" == text;
      return None;
    }

    method WriteListItem(item: Value, depth: nat) returns (err: Option<EncodeError>)
      requires Fits(text)
      modifies this
      ensures Finished(err, text, Then(Some(old(text)), LinesText(ItemLines(item, depth))))
      decreases item, 1
    {
      hide ItemLines, ArrayChunk, Indent, EncodePrimitive, Fits;
      match item
      case Object(_) =>
        err := WriteObjectListItem(item, depth);
      case Array(items) =>
        ArrayItemText(items, depth);
        Sequenced(text, Some(Indent(depth) + "- "), ChunkText(ArrayChunk(items, "", depth + 1, false, false)));
        err := AppendString(Indent(depth) + "- ");
        if err.Some? {
          return;
        }
        err := WriteArray(items, "", depth + 1, false, false);
      case _ =>
        PrimitiveItemText(item, depth);
        var s, e := EncodePrimitiveValue(item);
        if e.Some? {
          if EncodePrimitive(item).Some? {
            PartTooLarge(text + (Indent(depth) + "- "), EncodePrimitive(item).value, "\n");
            assert text + (Indent(depth) + "- ") + (EncodePrimitive(item).value + "\n")
                == text + (Indent(depth) + "- " + EncodePrimitive(item).value + "\n");
          }
          return e;
        }
        err := AppendString(Indent(depth) + "- " + s + "\n");
    }

    method WriteObjectListItem(item: Value, depth: nat) returns (err: Option<EncodeError>)
      requires Fits(text) && item.Object?
      modifies this
      ensures Finished(err, text, Then(Some(old(text)), LinesText(ItemLines(item, depth))))
      decreases item, 0
    {
      hide ItemLines, FieldChunk, FieldsLines, Indent, Fits;
      if |item.fields| == 0 {
        EmptyItemText(depth);
        assert Indent(depth) + "-\n" == Indent(depth) + "-" + "\n";
        err := AppendString(Indent(depth) + "-\n");
        return;
      }
      ObjectItemText(item.fields, depth);
      ghost var first := ChunkText(FieldChunk(item.fields[0], depth + 1));
      ghost var more := LinesText(FieldsLines(item.fields[1..], depth + 1));
      Sequenced(text, Some(Indent(depth) + "- "), Then(first, more));
      err := AppendString(Indent(depth) + "- ");
      if err.Some? {
        return;
      }
      Sequenced(text, first, more);
      err := WriteFieldBody(item.fields[0], depth + 1);
      if err.Some? {
        return;
      }
      err := WriteFields(item.fields[1..], depth + 1);
    }
  }

  lemma DeepFields(fields: seq<Field>, depth: nat)
    ensures depth > MAX_DEPTH ==> FieldsLines(fields, depth) == None
    ensures depth <= MAX_DEPTH ==> FieldsLines([], depth) == Some([])
  {
  }

  lemma DeepItems(items: seq<Value>, depth: nat)
    ensures depth > MAX_DEPTH ==> ListLines(items, depth) == None
    ensures depth <= MAX_DEPTH ==> ListLines([], depth) == Some([])
  {
  }

  /** What follows the colon of a field that is neither an array nor a keyed table. */
  function FieldValueText(v: Value, depth: nat): Option<string> {
    if v.Object? then Then(Some("\n"), LinesText(FieldsLines(v.fields, depth + 1)))
    else
      var s :- EncodePrimitive(v);
      Some(" " + s + "\n")
  }

  lemma FieldText(f: Field, depth: nat)
    requires !f.val.Array? && (f.val.Object? ==> KeyedColumns(f.val.fields).None?)
    ensures ChunkText(FieldChunk(f, depth)) == Then(Some(EncodeKey(f.key) + ":"), FieldValueText(f.val, depth))
  {
    hide EncodeKey, UniformColumns, FieldsLines, EncodePrimitive;
    var key := EncodeKey(f.key);
    if f.val.Object? {
      if FieldsLines(f.val.fields, depth + 1).Some? {
        var below := Render(FieldsLines(f.val.fields, depth + 1).value);
        assert key + ":" + "\n" + below == key + ":" + ("\n" + below);
      }
    } else if EncodePrimitive(f.val).Some? {
      var s := EncodePrimitive(f.val).value;
      SingleLine(key + ": " + s);
      assert key + ": " + s + "\n" == key + ":" + (" " + s + "\n");
    }
  }

  lemma InlineText(key: string, count: string, row: string)
    ensures ChunkText(Some(Chunk(key + "[" + count + "]" + ": " + row, [])))
            == Some(key + ("[" + count + "]: ") + row + "\n")
  {
    SingleLine(key + "[" + count + "]" + ": " + row);
    assert key + "[" + count + "]" + ": " + row == key + ("[" + count + "]: ") + row;
  }

  lemma ArrayItemText(items: seq<Value>, depth: nat)
    ensures LinesText(ItemLines(Array(items), depth))
            == Then(Some(Indent(depth) + "- "), ChunkText(ArrayChunk(items, "", depth + 1, false, false)))
  {
    hide ArrayChunk, Indent;
    var chunk := ArrayChunk(items, "", depth + 1, false, false);
    if chunk.Some? {
      BlockText(Line(depth, "- " + chunk.value.head), chunk.value.below, []);
      assert [Line(depth, "- " + chunk.value.head)] + chunk.value.below + []
          == [Line(depth, "- " + chunk.value.head)] + chunk.value.below;
      HyphenText(Indent(depth), chunk.value.head, Render(chunk.value.below), "");
      var text := chunk.value.head + "\n" + Render(chunk.value.below);
      assert text + "" == text;
    }
  }

  lemma HyphenText(indent: string, head: string, below: string, more: string)
    ensures indent + ("- " + head + "\n" + below) + more == indent + "- " + (head + "\n" + below + more)
  {
    assert "- " + head + "\n" + below == "- " + (head + "\n" + below);
  }

  lemma ObjectItemText(fields: seq<Field>, depth: nat)
    requires fields != []
    ensures LinesText(ItemLines(Object(fields), depth))
            == Then(Some(Indent(depth) + "- "),
                    Then(ChunkText(FieldChunk(fields[0], depth + 1)), LinesText(FieldsLines(fields[1..], depth + 1))))
  {
    hide FieldChunk, FieldsLines, Indent;
    var first, more := FieldChunk(fields[0], depth + 1), FieldsLines(fields[1..], depth + 1);
    if first.Some? && more.Some? {
      BlockText(Line(depth, "- " + first.value.head), first.value.below, more.value);
      HyphenText(Indent(depth), first.value.head, Render(first.value.below), Render(more.value));
    }
  }

  lemma PrimitiveItemText(item: Value, depth: nat)
    requires !item.Object? && !item.Array?
    ensures LinesText(ItemLines(item, depth))
            == (var s :- EncodePrimitive(item); Some(Indent(depth) + "- " + s + "\n"))
  {
    hide EncodePrimitive, Indent;
    if EncodePrimitive(item).Some? {
      var s := EncodePrimitive(item).value;
      OneLine(Line(depth, "- " + s));
      assert Indent(depth) + ("- " + s) + "\n" == Indent(depth) + "- " + s + "\n";
    }
  }

  lemma EmptyItemText(depth: nat)
    ensures LinesText(ItemLines(Object([]), depth)) == Some(Indent(depth) + "-" + "\n")
  {
    OneLine(Line(depth, "-"));
  }

  lemma OneLine(line: Line)
    ensures Render([line]) == Indent(line.depth) + line.text + "\n"
  {
    hide Indent;
    assert [line][1..] == [] && Render([]) == "";
    assert Indent(line.depth) + line.text + "\n" + "" == Indent(line.depth) + line.text + "\n";
  }

  lemma EntryPrefix(indent: string, key: string, row: string)
    ensures indent + (key + ": " + row) + "\n" == indent + (key + ": ") + row + "\n"
  {
    assert key + ": " + row == key + ": " + row;
    assert indent + (key + ": " + row) == indent + (key + ": ") + row;
  }

  lemma NoLinesLeft(now: string, items: seq<Value>, entries: seq<Field>, cols: seq<Col>, depth: nat)
    requires items == [] && entries == []
    ensures Then(Some(now), LinesText(TableRows(items, cols, depth))) == Some(now)
    ensures Then(Some(now), LinesText(KeyedRows(entries, cols, depth))) == Some(now)
  {
    assert now + "" == now;
  }

  lemma NoColsLeft(cols: seq<Col>)
    ensures ColsTail(cols, |cols|) == ""
  {
  }

  lemma WholeCols(cols: seq<Col>)
    ensures ColsTail(cols, 0) == ColsText(cols)
  {
    assert cols[0..] == cols;
    assert "" + ColsText(cols) == ColsText(cols);
  }

  // ---- The whole document ----

  /** What the builder holds before the last line break is cut: the text the limit applies to. */
  function Printed(v: Value): Option<string> {
    if v == Array([]) then Some("[]")
    else if v.Array? || v.Object? then LinesText(DocumentLines(v))
    else EncodePrimitive(v)
  }

  /** `Encode`: it succeeds exactly when the document exists and its text fits in 4 MiB. */
  method Encode(v: Value) returns (text: string, err: Option<EncodeError>)
    ensures err.None? <==> Document(v).Some? && Succeeds(Printed(v))
    ensures err.None? ==> Document(v) == Some(text) && ByteLen(text) <= MAX_BYTES
  {
    hide DepthAllowed, ArrayChunk, FieldsLines, KeyedChunk, UniformColumns, EncodePrimitive, ByteLen;
    var allowed := ValidateDepth(v, 0);
    if !allowed {
      return "", Some(TooDeep);
    }
    match v
    case Object(fields) =>
      text, err := EncodeRootObject(fields);
    case Array(items) =>
      text, err := EncodeRootArray(items);
    case _ =>
      text, err := EncodePrimitiveValue(v);
  }

  lemma TrimmedFits(s: string)
    ensures ByteLen(TrimNewline(s)) <= ByteLen(s)
  {
    if TrimNewline(s) != s {
      assert s == TrimNewline(s) + "\n";
      ByteLenConcat(TrimNewline(s), "\n");
    }
  }

  lemma RootBlock(chunk: Chunk)
    ensures Render([Line(0, chunk.head)] + chunk.below) == chunk.head + "\n" + Render(chunk.below)
  {
    BlockText(Line(0, chunk.head), chunk.below, []);
    assert [Line(0, chunk.head)] + chunk.below + [] == [Line(0, chunk.head)] + chunk.below;
    var text := chunk.head + "\n" + Render(chunk.below);
    assert "" + text + "" == text;
  }

  method EncodeRootArray(items: seq<Value>) returns (text: string, err: Option<EncodeError>)
    ensures err.None? <==> Succeeds(Printed(Array(items)))
    ensures err.None? ==> text == TrimNewline(Printed(Array(items)).value) && Fits(text)
  {
    hide ArrayChunk, Fits, TrimNewline, Render;
    if |items| == 0 {
      SmallText("[]");
      return "[]", None;
    }
    var sb := new Builder();
    SmallText("");
    var chunk := ArrayChunk(items, "", 1, true, false);
    if chunk.Some? {
      RootBlock(chunk.value);
      assert "" + ChunkText(chunk).value == ChunkText(chunk).value;
    }
    err := sb.WriteArray(items, "", 1, true, false);
    TrimmedIsSmaller(sb.text);
    text := TrimNewline(sb.text);
  }

  lemma SmallText(s: string)
    requires |s| <= 2
    ensures Fits(s) && (s == "[]" ==> TrimNewline(s) == s)
  {
    ByteLenBound(s);
  }

  lemma TrimmedIsSmaller(s: string)
    ensures Fits(s) ==> Fits(TrimNewline(s))
  {
    TrimmedFits(s);
  }

  method EncodeRootObject(fields: seq<Field>) returns (text: string, err: Option<EncodeError>)
    ensures err.None? <==> Succeeds(Printed(Object(fields)))
    ensures err.None? ==> text == TrimNewline(Printed(Object(fields)).value) && Fits(text)
  {
    hide KeyedChunk, FieldsLines, UniformColumns, Fits, TrimNewline, Render;
    var sb := new Builder();
    SmallText("");
    var cols := KeyedTabularCols(Object(fields));
    if cols.Some? {
      var chunk := KeyedChunk(fields, cols.value, "", 1);
      if chunk.Some? {
        RootBlock(chunk.value);
        assert "" + ChunkText(chunk).value == ChunkText(chunk).value;
      }
      err := sb.WriteKeyedTabular(fields, cols.value, "", 1);
    } else {
      var lines := LinesText(FieldsLines(fields, 0));
      if lines.Some? {
        assert "" + lines.value == lines.value;
      }
      err := sb.WriteFields(fields, 0);
    }
    TrimmedIsSmaller(sb.text);
    text := TrimNewline(sb.text);
  }
}
