/** The two main results about documents: the reader inverts the encoder on every value that can be
    encoded, and what it recovers is the same JSON value. */
module ToonDocument {
  import opened Options
  import opened ToonText
  import opened ToonNumber
  import opened ToonLayout
  import opened ToonDecoder
  import opened ToonRoundTrip

  // ---- From lines to text and back ----

  lemma {:induction false} RenderEnds(lines: seq<Line>)
    requires lines != []
    ensures Render(lines) != "" && Render(lines)[|Render(lines)| - 1] == '\n'
  {
    if |lines| > 1 {
      RenderEnds(lines[1..]);
    }
  }

  /** A document that is not the bare `[]` is read from the lines it was printed from. */
  lemma DecodeRendered(lines: seq<Line>)
    requires lines != [] && GoodLines(lines) && lines[0].depth == 0
    requires lines[0].text != "[]"
    ensures Decode(TrimNewline(Render(lines))) == DecodeRoot(lines[0].text, lines)
  {
    hide DecodeRoot, ParseLines;
    var text := TrimNewline(Render(lines));
    RenderEnds(lines);
    assert text + "\n" == Render(lines);
    LinesRoundTrip(lines);
    var first, more := lines[0].text, Render(lines[1..]);
    assert Render(lines) == first + "\n" + more by { assert Indent(0) + first == first; }
    LineEndOf(first, more);
    if text == "[]" { BareBrackets(text, first, more); }
    assert text != "";
  }

  lemma BareBrackets(text: string, first: string, more: string)
    requires text == "[]" && text + "\n" == first + "\n" + more && LineEnd(first + "\n" + more) == |first|
    ensures first == "[]"
  {
    assert LineEnd("[]" + "\n" + "") == 2 by { LineEndOf("[]", ""); }
    assert "[]" + "\n" + "" == text + "\n";
    assert first == (first + "\n" + more)[..2];
  }

  lemma BracketStartsWithDigit(inner: string, lines: seq<Line>, depth: nat)
    requires DecodeBracket(inner, lines, depth).Some?
    ensures "[" + inner != "[]" && HasPrefix("[", "[" + inner) && ("[" + inner)[1..] == inner
  {
    NoCountBeforeBracket(lines, depth);
    hide DecodeBracket;
    assert ("[" + inner)[1..] == inner && "[]"[1..] == "]";
  }

  lemma NoCountBeforeBracket(lines: seq<Line>, depth: nat)
    ensures DecodeBracket("]", lines, depth).None?
  {
    hide DecodeItems, ParseRow, ParseCols, DecodeRows, DecodeEntries;
  }

  lemma BracketDocument(head: string, inner: string, below: seq<Line>, v: Value)
    requires head == "" + ("[" + inner)
    requires Printable("[" + inner) && GoodLines(below)
    requires DecodeBracket(inner, below + [], 1) == Some((v, []))
    ensures Decode(TrimNewline(Render([Line(0, head)] + below))) == Some(v)
  {
    hide DecodeBracket, Decode, Printable, DecodeFields, IsKeyLine, Render, TrimNewline;
    var lines := [Line(0, head)] + below;
    BracketStartsWithDigit(inner, below + [], 1);
    assert head == "[" + inner;
    assert GoodText(head);
    DecodeRendered(lines);
    assert lines[1..] == below + [];
  }

  lemma PrimitiveDocument(v: Value)
    requires EncodePrimitive(v).Some?
    ensures Decode(EncodePrimitive(v).value) == Some(SettledPrimitive(v))
  {
    hide EncodePrimitive, SettledPrimitive, IsKeyLine, DecodePrimitive, DecodeFields, DecodeBracket, Decode;
    var s := EncodePrimitive(v).value;
    PrimitiveIsNoKey(v);
    PrimitiveRoundTrip(v);
    var lines := [Line(0, s)];
    assert Indent(0) == "" && Render([]) == "";
    assert Render(lines) == s + "\n";
    assert TrimNewline(Render(lines)) == s;
    DecodeRendered(lines);
  }

  lemma FieldsDocument(fields: seq<Field>)
    requires FieldsLines(fields, 0).Some?
    ensures Decode(TrimNewline(Render(FieldsLines(fields, 0).value))) == Some(Object(SettledFields(fields)))
  {
    hide FieldChunk, Decode, IsKeyLine, DecodeField, DecodeBracket, DecodePrimitive;
    var lines := FieldsLines(fields, 0).value;
    FieldsRoundTrip(fields, 0, []);
    assert lines + [] == lines;
    if fields == [] {
      EmptyDocument();
    } else {
      var more := FieldsLines(fields[1..], 0).value;
      FieldsRoundTrip(fields[1..], 0, []);
      FieldRoundTrip(fields[0], 0, more);
      assert lines[0].text == FieldChunk(fields[0], 0).value.head;
      assert !HasPrefix("[", lines[0].text);
      DecodeRendered(lines);
    }
  }

  lemma EmptyDocument()
    ensures Decode("") == Some(Object([]))
  {
  }

  /** Every encoded document reads back as the value it encodes, with canonical numbers and table rows
      in header order. */
  lemma DocumentRoundTrip(v: Value)
    requires Document(v).Some?
    ensures Decode(Document(v).value) == Some(Settled(v, true))
  {
    hide DepthAllowed, Decode, FieldsLines, ArrayChunk, KeyedChunk, KeyedColumns, EncodePrimitive, Settled, Render;
    hide SettledPrimitive, TrimNewline;
    match v
    case Array(items) =>
      if items == [] {
        EmptyArrayDocument();
      } else {
        var inner := ArrayRoundTrip(items, "", 1, true, false, []);
        var chunk := ArrayChunk(items, "", 1, true, false).value;
        BracketDocument(chunk.head, inner, chunk.below, Settled(v, true));
      }
    case Object(fields) =>
      if KeyedColumns(fields).Some? {
        var inner := KeyedRoundTrip(fields, "", 1, []);
        var chunk := KeyedChunk(fields, KeyedColumns(fields).value, "", 1).value;
        BracketDocument(chunk.head, inner, chunk.below, Settled(v, true));
      } else {
        FieldsDocument(fields);
        SettledPlainObject(fields);
      }
    case _ =>
      PrimitiveDocument(v);
      SettledScalar(v);
  }

  lemma EmptyArrayDocument()
    ensures Decode("[]") == Some(Settled(Array([]), true))
  {
  }

  lemma SettledPlainObject(fields: seq<Field>)
    requires KeyedColumns(fields).None?
    ensures Settled(Object(fields), true) == Object(SettledFields(fields))
  {
  }

  lemma SettledScalar(v: Value)
    requires !v.Array? && !v.Object?
    ensures Settled(v, true) == SettledPrimitive(v)
  {
  }

  // ---- The recovered value is the same JSON value ----

  predicate DuplicateFree(v: Value) {
    match v
    case Object(fields) =>
      NoDuplicates(Keys(fields)) && forall i | 0 <= i < |fields| :: DuplicateFree(fields[i].val)
    case Array(items) => forall i | 0 <= i < |items| :: DuplicateFree(items[i])
    case _ => true
  }

  /** The number `w` that was read back is worth what the number `v` denotes; a number that cannot be read is
      in no document. */
  ghost predicate SameNumber(v: Value, w: Value)
    requires v.Number?
  {
    if Readable(v.lexeme, v.reading) then
      w.Number? && NumericLike(w.lexeme) && Worth(NumeralOf(w.lexeme)) == Worth(Denoted(v.lexeme, v.reading))
    else w == v
  }

  lemma SettledNumber(v: Value)
    requires !v.Object? && !v.Array?
    ensures SameJson(v, SettledPrimitive(v))
  {
    hide Worth, NumeralOf, Denoted, NumericLike, CanonicalNumber, Readable;
    if v.Number? {
      CanonicalIffReadable(v.lexeme, v.reading);
      if Readable(v.lexeme, v.reading) { CanonicalKeepsValue(v.lexeme, v.reading); }
    }
  }

  /** Equality of a JSON value and one that was read back: the order of an object's fields does not matter,
      and numbers are compared by what they are worth. */
  ghost predicate SameJson(v: Value, w: Value)
    decreases v
  {
    match v
    case Object(fields) =>
      && w.Object?
      && |w.fields| == |fields|
      && NoDuplicates(Keys(w.fields))
      && forall i | 0 <= i < |fields| :: SomeField(fields[i], w.fields)
    case Array(items) =>
      && w.Array?
      && |w.items| == |items|
      && forall i | 0 <= i < |items| :: SameJson(items[i], w.items[i])
    case Number(_, _) => SameNumber(v, w)
    case _ => w == v
  }

  ghost predicate SomeField(f: Field, fields: seq<Field>)
    decreases f
  {
    exists j | 0 <= j < |fields| :: fields[j].key == f.key && SameJson(f.val, fields[j].val)
  }

  lemma {:induction false} LookupUnique(fields: seq<Field>, i: nat)
    requires i < |fields| && NoDuplicates(Keys(fields))
    ensures Lookup(fields, fields[i].key) == fields[i].val
  {
    var last := |fields| - 1;
    assert Keys(fields)[i] == fields[i].key && Keys(fields)[last] == fields[last].key;
    if i < last {
      assert forall k | 0 <= k < last :: Keys(fields[..last])[k] == Keys(fields)[k];
      LookupUnique(fields[..last], i);
    }
  }

  lemma {:induction false} ColumnAt(objects: seq<Value>, keys: seq<string>, j: nat)
    requires objects != [] && Columns(objects, keys).Some? && j < |keys|
    ensures |Columns(objects, keys).value| == |keys|
    ensures var col, vals := Columns(objects, keys).value[j], ColumnValues(objects, keys[j]);
            && col.key == keys[j]
            && if col.children == [] then AllPrimitive(vals) else UniformColumns(vals) == Some(col.children)
    decreases |keys|
  {
    hide UniformColumns, ColumnValues, AllPrimitive;
    ColumnsNonEmpty(objects, keys);
    if j > 0 {
      ColumnAt(objects, keys[1..], j - 1);
    } else {
      var vals := ColumnValues(objects, keys[0]);
      if !AllPrimitive(vals) {
        UniformNonEmpty(vals);
      }
    }
  }

  lemma {:induction false} ArrangeAt(fields: seq<Field>, cols: seq<Col>, j: nat)
    requires j < |cols|
    ensures var v := Lookup(fields, cols[j].key);
            Arrange(fields, cols)[j] == Field(cols[j].key,
              if cols[j].children == [] then SettledPrimitive(v) else Object(Arrange(FieldsOf(v), cols[j].children)))
    decreases |cols|
  {
    hide SettledPrimitive, Lookup;
    if j > 0 {
      ArrangeAt(fields, cols[1..], j - 1);
    }
  }

  lemma ArrangedKeys(fields: seq<Field>, cols: seq<Col>, keys: seq<string>)
    requires |cols| == |keys| && forall j | 0 <= j < |cols| :: cols[j].key == keys[j]
    ensures Keys(Arrange(fields, cols)) == keys
  {
    forall j | 0 <= j < |cols| ensures Keys(Arrange(fields, cols))[j] == keys[j] {
      ArrangeAt(fields, cols, j);
    }
  }

  lemma MemberIndex(keys: seq<string>, key: string) returns (j: nat)
    requires key in KeySet(keys)
    ensures j < |keys| && keys[j] == key
  {
    j :| j < |keys| && keys[j] == key;
  }

  lemma {:induction false} KeySetSize(keys: seq<string>)
    requires NoDuplicates(keys)
    ensures |KeySet(keys)| == |keys|
  {
    if keys != [] {
      KeySetSize(keys[1..]);
      assert KeySet(keys) == {keys[0]} + KeySet(keys[1..]);
      assert forall j | 0 <= j < |keys[1..]| :: keys[1..][j] == keys[j + 1] && keys[j + 1] != keys[0];
    }
  }

  /** Every object of a table has the keys of the first, each of them once. */
  lemma SharesKeys(vals: seq<Value>, i: nat)
    requires i < |vals| && UniformColumns(vals).Some?
    ensures vals[0].Object? && MatchesKeySet(vals[i], KeySet(Keys(vals[0].fields)))
    ensures NoDuplicates(Keys(vals[0].fields))
    ensures UniformColumns(vals) == Columns(vals, Keys(vals[0].fields))
  {
    hide Columns, MatchesKeySet, NoDuplicates, KeySet, Keys;
    if i == 0 { MatchesOwnKeys(vals[0].fields); }
  }

  lemma MatchesOwnKeys(fields: seq<Field>)
    requires NoDuplicates(Keys(fields))
    ensures MatchesKeySet(Object(fields), KeySet(Keys(fields)))
  {
    KeySetSize(Keys(fields));
    assert forall k | 0 <= k < |fields| :: fields[k].key == Keys(fields)[k];
  }

  /** Putting a row's values under the header's columns keeps the object. */
  lemma {:induction false} ArrangeIsSame(vals: seq<Value>, i: nat)
    requires i < |vals| && UniformColumns(vals).Some?
    ensures SameJson(vals[i], Object(Arrange(FieldsOf(vals[i]), UniformColumns(vals).value)))
    decreases vals[0]
  {
    hide UniformColumns, Columns, Arrange, SettledPrimitive, Lookup;
    SharesKeys(vals, i);
    var keys, cols, fields := Keys(vals[0].fields), UniformColumns(vals).value, vals[i].fields;
    var arranged := Arrange(fields, cols);
    ColumnsNonEmpty(vals, keys);
    forall j | 0 <= j < |keys| ensures cols[j].key == keys[j] { ColumnAt(vals, keys, j); }
    ArrangedKeys(fields, cols, keys);
    KeySetSize(keys);
    forall k | 0 <= k < |fields| ensures SomeField(fields[k], arranged) {
      var j := MemberIndex(keys, fields[k].key);
      ColumnAt(vals, keys, j);
      ArrangeAt(fields, cols, j);
      LookupUnique(fields, k);
      var column := ColumnValues(vals, keys[j]);
      assert column[i] == fields[k].val;
      if cols[j].children == [] {
        assert IsPrimitive(fields[k].val);
        SettledNumber(fields[k].val);
      } else {
        FirstColumnValue(vals, keys[j]);
        ArrangeIsSame(column, i);
      }
      assert arranged[j].key == fields[k].key && SameJson(fields[k].val, arranged[j].val);
    }
  }

  /** A nested column is made of parts of the table's objects, so the recursion is on smaller values. */
  lemma FirstColumnValue(vals: seq<Value>, key: string)
    requires vals != [] && UniformColumns(ColumnValues(vals, key)).Some?
    ensures ColumnValues(vals, key)[0] < vals[0]
  {
    var v := ColumnValues(vals, key)[0];
    assert v.Object?;
    assert v == Lookup(FieldsOf(vals[0]), key);
    var k :| 0 <= k < |FieldsOf(vals[0])| && FieldsOf(vals[0])[k] == Field(key, v);
    assert vals[0].fields[k].val == v;
  }

  lemma {:induction false} ArrangeItemsAt(items: seq<Value>, cols: seq<Col>, i: nat)
    requires i < |items|
    ensures |ArrangeItems(items, cols)| == |items|
    ensures ArrangeItems(items, cols)[i] == Object(Arrange(FieldsOf(items[i]), cols))
  {
    hide Arrange;
    if |items| > 1 {
      ArrangeItemsAt(items[1..], cols, if i == 0 then 0 else i - 1);
    }
  }

  lemma {:induction false} ArrangeEntriesAt(entries: seq<Field>, cols: seq<Col>, i: nat)
    requires i < |entries|
    ensures |ArrangeEntries(entries, cols)| == |entries|
    ensures ArrangeEntries(entries, cols)[i]
            == Field(entries[i].key, Object(Arrange(FieldsOf(entries[i].val), cols)))
  {
    hide Arrange;
    if |entries| > 1 {
      ArrangeEntriesAt(entries[1..], cols, if i == 0 then 0 else i - 1);
    }
  }

  lemma {:induction false} SettledItemsAt(items: seq<Value>, i: nat)
    requires i < |items|
    ensures SettledItems(items)[i] == Settled(items[i], false)
  {
    hide Settled;
    if i > 0 {
      SettledItemsAt(items[1..], i - 1);
    }
  }

  lemma {:induction false} SettledFieldsAt(fields: seq<Field>, i: nat)
    requires i < |fields|
    ensures SettledFields(fields)[i] == Field(fields[i].key, Settled(fields[i].val, true))
  {
    hide Settled;
    if i > 0 {
      SettledFieldsAt(fields[1..], i - 1);
    }
  }

  /** Objects are the same when their fields agree one by one. */
  lemma SameInOrder(fields: seq<Field>, others: seq<Field>)
    requires |fields| == |others| && NoDuplicates(Keys(fields))
    requires forall i | 0 <= i < |fields| :: others[i].key == fields[i].key && SameJson(fields[i].val, others[i].val)
    ensures SameJson(Object(fields), Object(others))
  {
    assert Keys(others) == Keys(fields);
    forall i | 0 <= i < |fields| ensures SomeField(fields[i], others) {
      assert others[i].key == fields[i].key;
    }
  }

  /** On values without duplicate keys, what the reader recovers is the same JSON value. */
  lemma {:induction false} SettledIsSame(v: Value, tables: bool)
    requires DuplicateFree(v)
    ensures SameJson(v, Settled(v, tables))
    decreases v
  {
    hide Arrange, UniformColumns, ArrangeItems, ArrangeEntries, SettledPrimitive, SettledItems, SettledFields, IsPrimitive;
    match v
    case Array(items) =>
      var w := Settled(v, tables);
      if tables && items != [] && !AllPrimitive(items) && UniformColumns(items).Some? {
        ArrangeItemsAt(items, UniformColumns(items).value, 0);
        forall i | 0 <= i < |items| ensures SameJson(items[i], w.items[i]) {
          ArrangeItemsAt(items, UniformColumns(items).value, i);
          ArrangeIsSame(items, i);
        }
      } else {
        forall i | 0 <= i < |items| ensures SameJson(items[i], w.items[i]) {
          SettledItemsAt(items, i);
          SettledIsSame(items[i], false);
        }
      }
    case Object(fields) =>
      var w := Settled(v, tables);
      if tables && KeyedColumns(fields).Some? {
        var cols := KeyedColumns(fields).value;
        ArrangeEntriesAt(fields, cols, 0);
        forall i | 0 <= i < |fields|
          ensures w.fields[i].key == fields[i].key && SameJson(fields[i].val, w.fields[i].val)
        {
          ArrangeEntriesAt(fields, cols, i);
          ArrangeIsSame(EntryValues(fields), i);
        }
      } else {
        forall i | 0 <= i < |fields|
          ensures w.fields[i].key == fields[i].key && SameJson(fields[i].val, w.fields[i].val)
        {
          SettledFieldsAt(fields, i);
          SettledIsSame(fields[i].val, true);
        }
      }
      SameInOrder(fields, w.fields);
    case _ => SettledNumber(v);
  }

  /** The promise of the format: a document that was produced reads back as the same JSON value. */
  lemma EncodeThenDecode(v: Value)
    requires DuplicateFree(v) && Document(v).Some?
    ensures Decode(Document(v).value).Some? && SameJson(v, Decode(Document(v).value).value)
  {
    hide DuplicateFree, Document, Decode, SameJson, Settled;
    DocumentRoundTrip(v);
    SettledIsSame(v, true);
  }
}
