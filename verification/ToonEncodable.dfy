/** Which values have a document at all. */
module ToonEncodable {
  import opened Options
  import opened ToonText
  import opened ToonNumber
  import opened ToonLayout
  import opened ToonRoundTrip
  import opened ToonDocument

  /** Every number in the value has a canonical form, and no part is missing. */
  predicate Prints(v: Value) {
    match v
    case Uninitialized => false
    case Number(lexeme, reading) => CanonicalNumber(lexeme, reading).Some?
    case Object(fields) => forall i | 0 <= i < |fields| :: Prints(fields[i].val)
    case Array(items) => forall i | 0 <= i < |items| :: Prints(items[i])
    case _ => true
  }

  predicate AllPrint(items: seq<Value>) { forall i | 0 <= i < |items| :: Prints(items[i]) }

  lemma PrimitivePrints(v: Value)
    ensures EncodePrimitive(v).Some? <==> IsPrimitive(v) && Prints(v)
  {
    hide CanonicalNumber;
  }

  /** A row of cells is written if and only if every cell is a primitive that prints. */
  lemma {:induction false} RowPrints(cells: seq<Value>)
    ensures RowText(cells).Some? <==> AllPrimitive(cells) && AllPrint(cells)
  {
    hide EncodePrimitive, Prints;
    if cells != [] {
      PrimitivePrints(cells[0]);
      RowPrints(cells[1..]);
      assert forall i | 0 < i < |cells| :: cells[i] == cells[1..][i - 1];
    }
  }

  predicate CellsPrint(cells: seq<Value>) { AllPrimitive(cells) && AllPrint(cells) }

  /** The cells under one column of an object. */
  function CellsUnder(fields: seq<Field>, col: Col): seq<Value> {
    var v := Lookup(fields, col.key);
    if col.children == [] then [v] else LeafValues(FieldsOf(v), col.children)
  }

  lemma CellsConcat(a: seq<Value>, b: seq<Value>)
    ensures CellsPrint(a + b) <==> CellsPrint(a) && CellsPrint(b)
  {
    hide Prints, IsPrimitive;
    assert forall i | 0 <= i < |a| :: (a + b)[i] == a[i];
    assert forall i | 0 <= i < |b| :: (a + b)[|a| + i] == b[i];
  }

  lemma NoCells()
    ensures CellsPrint([])
  {
  }

  lemma {:induction false} LeavesByColumn(fields: seq<Field>, cols: seq<Col>)
    ensures CellsPrint(LeafValues(fields, cols)) <==> forall j | 0 <= j < |cols| :: CellsPrint(CellsUnder(fields, cols[j]))
  {
    hide CellsPrint, Lookup;
    if cols == [] {
      NoCells();
    } else {
      LeavesByColumn(fields, cols[1..]);
      CellsConcat(CellsUnder(fields, cols[0]), LeafValues(fields, cols[1..]));
      assert LeafValues(fields, cols) == CellsUnder(fields, cols[0]) + LeafValues(fields, cols[1..]);
      assert forall j | 0 < j < |cols| :: cols[j] == cols[1..][j - 1];
    }
  }

  /** A table row holds all that is in the object: its cells print if and only if the object does. */
  lemma {:induction false} TableRowPrints(vals: seq<Value>, i: nat)
    requires i < |vals| && UniformColumns(vals).Some?
    ensures vals[i].Object? && (CellsPrint(LeafValues(vals[i].fields, UniformColumns(vals).value)) <==> Prints(vals[i]))
    decreases vals[0]
  {
    hide UniformColumns, Columns, Lookup, CellsPrint, Prints, LeafValues;
    SharesKeys(vals, i);
    var keys, cols, fields := Keys(vals[0].fields), UniformColumns(vals).value, vals[i].fields;
    ColumnsNonEmpty(vals, keys);
    LeavesByColumn(fields, cols);
    forall j | 0 <= j < |cols|
      ensures CellsPrint(CellsUnder(fields, cols[j])) <==> Prints(Lookup(fields, keys[j]))
      ensures exists k :: 0 <= k < |fields| && fields[k] == Field(keys[j], Lookup(fields, keys[j]))
    {
      ColumnAt(vals, keys, j);
      var column := ColumnValues(vals, keys[j]);
      assert column[i] == Lookup(fields, keys[j]);
      if cols[j].children == [] {
        OneCellPrints(column[i]);
      } else {
        FirstColumnValue(vals, keys[j]);
        TableRowPrints(column, i);
      }
    }
    FieldsCovered(fields, keys);
    PrintsByKey(vals[i], keys);
  }

  lemma OneCellPrints(v: Value)
    requires IsPrimitive(v)
    ensures CellsPrint([v]) <==> Prints(v)
    ensures v != Uninitialized
  {
    hide Prints;
    assert [v][0] == v;
  }

  lemma FieldsCovered(fields: seq<Field>, keys: seq<string>)
    requires MatchesKeySet(Object(fields), KeySet(keys))
    ensures forall k | 0 <= k < |fields| :: fields[k].key in keys && Lookup(fields, fields[k].key) == fields[k].val
  {
    hide Lookup;
    forall k | 0 <= k < |fields| ensures fields[k].key in keys && Lookup(fields, fields[k].key) == fields[k].val {
      LookupUnique(fields, k);
    }
  }

  lemma PrintsByKey(v: Value, keys: seq<string>)
    requires v.Object?
    requires forall k | 0 <= k < |v.fields| :: v.fields[k].key in keys && Lookup(v.fields, v.fields[k].key) == v.fields[k].val
    requires forall j | 0 <= j < |keys| :: exists k :: 0 <= k < |v.fields| && v.fields[k] == Field(keys[j], Lookup(v.fields, keys[j]))
    ensures Prints(v) <==> forall j | 0 <= j < |keys| :: Prints(Lookup(v.fields, keys[j]))
  {
    hide Lookup;
    if forall j | 0 <= j < |keys| :: Prints(Lookup(v.fields, keys[j])) {
      forall k | 0 <= k < |v.fields| ensures Prints(v.fields[k].val) {
        assert v.fields[k].key in keys;
        var j :| 0 <= j < |keys| && keys[j] == v.fields[k].key;
        assert Prints(Lookup(v.fields, keys[j]));
      }
    }
  }

  lemma {:induction false} TableRowsPrint(all: seq<Value>, cols: seq<Col>, from: nat, depth: nat)
    requires all != [] && UniformColumns(all) == Some(cols) && from <= |all|
    ensures TableRows(all[from..], cols, depth).Some? <==> AllPrint(all[from..])
    decreases |all| - from
  {
    hide UniformColumns, LeafValues, Prints, RowText;
    if from < |all| {
      var items := all[from..];
      TableRowPrints(all, from);
      RowPrints(LeafValues(FieldsOf(items[0]), cols));
      TableRowsPrint(all, cols, from + 1, depth);
      assert items[1..] == all[from + 1..] && items[0] == all[from];
      FirstAndRest(items);
    }
  }

  lemma FirstAndRest(items: seq<Value>)
    requires items != []
    ensures AllPrint(items) <==> Prints(items[0]) && AllPrint(items[1..])
  {
    hide Prints;
    assert forall i | 0 < i < |items| :: items[i] == items[1..][i - 1];
  }

  lemma {:induction false} KeyedRowsPrint(entries: seq<Field>, cols: seq<Col>, from: nat, depth: nat)
    requires EntryValues(entries) != [] && UniformColumns(EntryValues(entries)) == Some(cols) && from <= |entries|
    ensures KeyedRows(entries[from..], cols, depth).Some? <==> AllPrint(EntryValues(entries)[from..])
    decreases |entries| - from
  {
    hide UniformColumns, LeafValues, Prints, RowText, EntryValues;
    if from < |entries| {
      var rest, vals := entries[from..], EntryValues(entries);
      TableRowPrints(vals, from);
      assert FieldsOf(rest[0].val) == vals[from].fields;
      RowPrints(LeafValues(FieldsOf(rest[0].val), cols));
      KeyedRowsPrint(entries, cols, from + 1, depth);
      assert rest[1..] == entries[from + 1..] && vals[from..][1..] == vals[from + 1..];
      FirstAndRest(vals[from..]);
    }
  }

  lemma KeyedPrints(fields: seq<Field>, key: string, depth: nat)
    requires KeyedColumns(fields).Some?
    ensures KeyedChunk(fields, KeyedColumns(fields).value, key, depth).Some? <==> depth <= MAX_DEPTH && Prints(Object(fields))
  {
    hide UniformColumns, KeyedRows;
    var vals := EntryValues(fields);
    KeyedRowsPrint(fields, KeyedColumns(fields).value, 0, depth);
    assert fields[0..] == fields && vals[0..] == vals;
  }

  // ---- Which arrays are tables ----

  predicate SameKeys(a: seq<Field>, b: seq<Field>) { KeySet(Keys(a)) == KeySet(Keys(b)) }

  /** Objects with one set of keys, none repeated, of which every column holds scalars only or is again such a
      list of objects. */
  predicate Uniform(vals: seq<Value>)
    requires vals != []
    decreases vals[0]
  {
    && vals[0].Object? && vals[0].fields != []
    && (forall i | 0 <= i < |vals| ::
          vals[i].Object? && NoDuplicates(Keys(vals[i].fields)) && SameKeys(vals[i].fields, vals[0].fields))
    && forall j | 0 <= j < |vals[0].fields| ::
         var column := ColumnValues(vals, vals[0].fields[j].key);
         AllPrimitive(column) || (column[0].Object? && Uniform(column))
  }

  lemma SubsetOfSize(a: set<string>, b: set<string>)
    requires a <= b && |a| == |b|
    ensures a == b
  {
    if x :| x in b && x !in a {
      assert a <= b - {x};
      SmallerSet(a, b - {x});
    }
  }

  lemma {:induction false} SmallerSet(a: set<string>, b: set<string>)
    requires a <= b
    ensures |a| <= |b|
    decreases a
  {
    if a != {} {
      var x :| x in a;
      SmallerSet(a - {x}, b - {x});
    }
  }

  lemma MatchesIff(v: Value, keys: seq<string>)
    requires NoDuplicates(keys)
    ensures MatchesKeySet(v, KeySet(keys)) <==> v.Object? && NoDuplicates(Keys(v.fields)) && KeySet(Keys(v.fields)) == KeySet(keys)
  {
    KeySetSize(keys);
    if v.Object? && NoDuplicates(Keys(v.fields)) {
      KeySetSize(Keys(v.fields));
      assert forall i | 0 <= i < |v.fields| :: Keys(v.fields)[i] in KeySet(Keys(v.fields));
      if MatchesKeySet(v, KeySet(keys)) {
        SubsetOfSize(KeySet(Keys(v.fields)), KeySet(keys));
      }
    }
  }

  lemma {:induction false} ColumnsIff(vals: seq<Value>, keys: seq<string>)
    requires vals != []
    ensures Columns(vals, keys).Some? <==> forall j | 0 <= j < |keys| :: ColumnFits(vals, keys[j])
    decreases |keys|
  {
    hide UniformColumns, AllPrimitive;
    if keys != [] {
      ColumnsIff(vals, keys[1..]);
      assert forall j | 0 < j < |keys| :: keys[j] == keys[1..][j - 1];
      assert ColumnFits(vals, keys[0]) || Columns(vals, keys).None?;
    }
  }

  predicate ColumnFits(vals: seq<Value>, key: string)
    requires vals != []
  {
    var column := ColumnValues(vals, key);
    AllPrimitive(column) || (column[0].Object? && UniformColumns(column).Some?)
  }

  lemma KeySetsMatch(vals: seq<Value>)
    requires vals != [] && vals[0].Object?
    ensures var keys := Keys(vals[0].fields);
            (NoDuplicates(keys) && forall i | 1 <= i < |vals| :: MatchesKeySet(vals[i], KeySet(keys)))
            <==> forall i | 0 <= i < |vals| ::
                   vals[i].Object? && NoDuplicates(Keys(vals[i].fields)) && SameKeys(vals[i].fields, vals[0].fields)
  {
    var keys := Keys(vals[0].fields);
    if NoDuplicates(keys) {
      forall i | 0 <= i < |vals|
        ensures MatchesKeySet(vals[i], KeySet(keys))
                <==> vals[i].Object? && NoDuplicates(Keys(vals[i].fields)) && SameKeys(vals[i].fields, vals[0].fields)
      {
        MatchesIff(vals[i], keys);
      }
      hide MatchesKeySet;
      if forall i | 1 <= i < |vals| :: MatchesKeySet(vals[i], KeySet(keys)) { assert SameKeys(vals[0].fields, vals[0].fields); }
    }
  }

  /** A list has columns exactly when it is uniform. */
  lemma {:induction false} TableIffUniform(vals: seq<Value>)
    requires vals != []
    ensures UniformColumns(vals).Some? <==> Uniform(vals)
    decreases vals[0]
  {
    hide Columns, MatchesKeySet, SameKeys, NoDuplicates, AllPrimitive;
    if vals[0].Object? && vals[0].fields != [] {
      var keys := Keys(vals[0].fields);
      KeySetsMatch(vals);
      ColumnsIff(vals, keys);
      forall j | 0 <= j < |keys|
        ensures keys[j] == vals[0].fields[j].key
        ensures var column := ColumnValues(vals, keys[j]);
                ColumnFits(vals, keys[j]) <==> AllPrimitive(column) || (column[0].Object? && Uniform(column))
      {
        var column := ColumnValues(vals, keys[j]);
        if column[0].Object? {
          SmallerColumn(vals, keys[j]);
          TableIffUniform(column);
        }
      }
    }
  }

  lemma SmallerColumn(vals: seq<Value>, key: string)
    requires vals != [] && vals[0].Object? && ColumnValues(vals, key)[0].Object?
    ensures ColumnValues(vals, key)[0] < vals[0]
  {
    var v := ColumnValues(vals, key)[0];
    assert v == Lookup(FieldsOf(vals[0]), key);
    var k :| 0 <= k < |FieldsOf(vals[0])| && FieldsOf(vals[0])[k] == Field(key, v);
    assert vals[0].fields[k].val == v;
  }

  lemma {:induction false} OneRowEach(items: seq<Value>, cols: seq<Col>, depth: nat)
    requires TableRows(items, cols, depth).Some?
    ensures |TableRows(items, cols, depth).value| == |items|
  {
    hide RowText, LeafValues;
    if items != [] { OneRowEach(items[1..], cols, depth); }
  }

  lemma {:induction false} OneRowPerEntry(entries: seq<Field>, cols: seq<Col>, depth: nat)
    requires KeyedRows(entries, cols, depth).Some?
    ensures |KeyedRows(entries, cols, depth).value| == |entries|
  {
    hide RowText, LeafValues;
    if entries != [] { OneRowPerEntry(entries[1..], cols, depth); }
  }

  /** A field or root that holds a uniform array prints it as a table: one row for each object. */
  lemma UniformArrayIsTable(items: seq<Value>, key: string, depth: nat, fieldEmpty: bool)
    requires items != [] && Uniform(items) && ArrayChunk(items, key, depth, true, fieldEmpty).Some?
    ensures |ArrayChunk(items, key, depth, true, fieldEmpty).value.below| == |items|
    ensures !AllPrimitive(items)
  {
    hide ColsText, TableRows, UniformColumns;
    TableIffUniform(items);
    assert !IsPrimitive(items[0]);
    OneRowEach(items, UniformColumns(items).value, depth);
  }

  /** And a field that holds an object of two or more uniform objects prints it as a keyed table. */
  lemma UniformObjectIsTable(f: Field, depth: nat)
    requires f.val.Object? && |f.val.fields| >= 2 && Uniform(EntryValues(f.val.fields)) && FieldChunk(f, depth).Some?
    ensures |FieldChunk(f, depth).value.below| == |f.val.fields|
  {
    hide ColsText, KeyedRows, UniformColumns;
    TableIffUniform(EntryValues(f.val.fields));
    OneRowPerEntry(f.val.fields, KeyedColumns(f.val.fields).value, depth + 1);
  }

  lemma HeadOf(key: string, digits: string, rest: string)
    ensures var prefix, head := key + "[" + digits + "]", key + "[" + digits + "]" + rest; prefix <= head && head[|prefix|..] == rest
  {
  }

  /** The form of a non-empty array: on its own line exactly if it holds scalars only, a table exactly if it may be
      one and is uniform, and a list otherwise. */
  lemma ArrayFormIff(items: seq<Value>, key: string, depth: nat, tables: bool, fieldEmpty: bool)
    requires items != [] && ArrayChunk(items, key, depth, tables, fieldEmpty).Some?
    ensures var chunk, prefix := ArrayChunk(items, key, depth, tables, fieldEmpty).value, key + "[" + Digits(|items|) + "]";
            && prefix <= chunk.head && chunk.head[|prefix|..] != ""
            && (chunk.below == [] <==> AllPrimitive(items))
            && (chunk.head[|prefix|..][0] == '{' <==> !AllPrimitive(items) && tables && Uniform(items))
  {
    hide ColsText, TableRows, UniformColumns, ListLines, RowText, AllPrimitive, Digits, Uniform;
    TableIffUniform(items);
    var digits := Digits(|items|);
    if AllPrimitive(items) {
      HeadOf(key, digits, ": " + RowText(items).value);
      assert key + "[" + digits + "]" + ": " + RowText(items).value == key + "[" + digits + "]" + (": " + RowText(items).value);
    } else if tables && UniformColumns(items).Some? {
      var cols := ColsText(UniformColumns(items).value);
      OneRowEach(items, UniformColumns(items).value, depth);
      HeadOf(key, digits, "{" + cols + "}:");
      assert key + "[" + digits + "]" + "{" + cols + "}:" == key + "[" + digits + "]" + ("{" + cols + "}:");
    } else {
      HeadOf(key, digits, ":");
      SomeLine(items, depth);
    }
  }

  lemma SomeLine(items: seq<Value>, depth: nat)
    requires items != [] && ListLines(items, depth).Some?
    ensures ListLines(items, depth).value != []
  {
    hide FieldChunk, FieldsLines, ArrayChunk, EncodePrimitive;
    assert ItemLines(items[0], depth).value != [];
  }

  /** An array inside a list is never a table. */
  lemma NestedArrayIsNoTable(items: seq<Value>, depth: nat)
    requires items != [] && ItemLines(Array(items), depth).Some?
    ensures var text, prefix := ItemLines(Array(items), depth).value[0].text, "- " + ("[" + Digits(|items|) + "]");
            prefix <= text && text[|prefix|..] != "" && text[|prefix|..][0] != '{'
  {
    hide ArrayChunk, Uniform, AllPrimitive, Digits;
    ArrayFormIff(items, "", depth + 1, false, false);
    var head := ArrayChunk(items, "", depth + 1, false, false).value.head;
    assert "" + "[" + Digits(|items|) + "]" == "[" + Digits(|items|) + "]";
    assert ("- " + head)[2..] == head;
  }

  // ---- The depth guard ----

  function Largest(ns: seq<nat>): (n: nat)
    ensures forall i | 0 <= i < |ns| :: ns[i] <= n
    ensures ns != [] ==> n in ns
    ensures ns == [] ==> n == 0
  {
    if ns == [] then 0
    else
      var rest := Largest(ns[1..]);
      assert forall i | 0 < i < |ns| :: ns[i] == ns[1..][i - 1];
      if ns[0] >= rest then ns[0] else rest
  }

  /** How many containers lie one in the other. */
  function Nesting(v: Value): nat {
    match v
    case Object(fields) => 1 + Largest(seq(|fields|, i requires 0 <= i < |fields| => Nesting(fields[i].val)))
    case Array(items) => 1 + Largest(seq(|items|, i requires 0 <= i < |items| => Nesting(items[i])))
    case _ => 0
  }

  /** The guard bounds the nesting. */
  lemma {:induction false} DepthAllowedIff(v: Value, depth: nat)
    ensures DepthAllowed(v, depth) <==> Nesting(v) == 0 || depth + Nesting(v) - 1 <= MAX_DEPTH
    decreases v
  {
    match v
    case Object(fields) =>
      var ns := seq(|fields|, i requires 0 <= i < |fields| => Nesting(fields[i].val));
      forall i | 0 <= i < |fields| ensures DepthAllowed(fields[i].val, depth + 1) <==> ns[i] == 0 || depth + ns[i] <= MAX_DEPTH {
        DepthAllowedIff(fields[i].val, depth + 1);
      }
      LargestBound(ns, depth);
    case Array(items) =>
      var ns := seq(|items|, i requires 0 <= i < |items| => Nesting(items[i]));
      forall i | 0 <= i < |items| ensures DepthAllowed(items[i], depth + 1) <==> ns[i] == 0 || depth + ns[i] <= MAX_DEPTH {
        DepthAllowedIff(items[i], depth + 1);
      }
      LargestBound(ns, depth);
    case _ =>
  }

  lemma LargestBound(ns: seq<nat>, depth: nat)
    ensures (depth <= MAX_DEPTH && forall i | 0 <= i < |ns| :: ns[i] == 0 || depth + ns[i] <= MAX_DEPTH)
            <==> depth + Largest(ns) <= MAX_DEPTH
  {
    if ns != [] { var i :| 0 <= i < |ns| && ns[i] == Largest(ns); }
  }

  // ---- The parts of a document ----

  // Whether the lines of a part stay within the depth limit. An empty array, an inline array and the lone
  // hyphen of an empty object need no line below their own, whatever the depth.

  predicate FieldsRoom(fields: seq<Field>, depth: nat)
    decreases fields
  {
    depth <= MAX_DEPTH && forall i | 0 <= i < |fields| :: FieldRoom(fields[i], depth)
  }

  predicate FieldRoom(f: Field, depth: nat)
    decreases f
  {
    match f.val
    case Array(items) => ArrayRoom(items, depth + 1, true)
    case Object(fields) => if KeyedColumns(fields).Some? then depth + 1 <= MAX_DEPTH else FieldsRoom(fields, depth + 1)
    case _ => true
  }

  predicate ArrayRoom(items: seq<Value>, depth: nat, tables: bool)
    decreases items, 1
  {
    || items == []
    || AllPrimitive(items)
    || (depth <= MAX_DEPTH && ((tables && UniformColumns(items).Some?) || ItemsRoom(items, depth)))
  }

  predicate ItemsRoom(items: seq<Value>, depth: nat)
    decreases items, 0
  {
    forall i | 0 <= i < |items| :: ItemRoom(items[i], depth)
  }

  predicate ItemRoom(item: Value, depth: nat)
    decreases item
  {
    match item
    case Object(fields) => fields == [] || (FieldRoom(fields[0], depth + 1) && FieldsRoom(fields[1..], depth + 1))
    case Array(items) => ArrayRoom(items, depth + 1, false)
    case _ => true
  }

  lemma {:induction false} FieldsPrint(fields: seq<Field>, depth: nat)
    ensures FieldsLines(fields, depth).Some? <==> FieldsRoom(fields, depth) && Prints(Object(fields))
    decreases fields
  {
    hide FieldChunk, FieldRoom;
    if fields != [] {
      FieldPrints(fields[0], depth);
      FieldsPrint(fields[1..], depth);
      FirstField(fields);
      FirstFieldRoom(fields, depth);
    }
  }

  lemma FirstField(fields: seq<Field>)
    requires fields != []
    ensures Prints(Object(fields)) <==> Prints(fields[0].val) && Prints(Object(fields[1..]))
  {
    assert forall i | 0 < i < |fields| :: fields[i] == fields[1..][i - 1];
  }

  lemma FirstFieldRoom(fields: seq<Field>, depth: nat)
    requires fields != []
    ensures FieldsRoom(fields, depth) <==> FieldRoom(fields[0], depth) && FieldsRoom(fields[1..], depth)
  {
    hide FieldRoom;
    assert forall i | 0 < i < |fields| :: fields[i] == fields[1..][i - 1];
  }

  lemma {:induction false} FieldPrints(f: Field, depth: nat)
    ensures FieldChunk(f, depth).Some? <==> FieldRoom(f, depth) && Prints(f.val)
    decreases f
  {
    hide ArrayChunk, ArrayRoom, KeyedColumns, KeyedChunk, FieldsLines, FieldsRoom, EncodePrimitive;
    match f.val
    case Array(items) => ArrayPrints(items, EncodeKey(f.key), depth + 1, true, true);
    case Object(fields) =>
      if KeyedColumns(fields).Some? { KeyedPrints(fields, EncodeKey(f.key), depth + 1); } else { FieldsPrint(fields, depth + 1); }
    case _ => PrimitivePrints(f.val);
  }

  lemma {:induction false} ArrayPrints(items: seq<Value>, key: string, depth: nat, tables: bool, fieldEmpty: bool)
    ensures ArrayChunk(items, key, depth, tables, fieldEmpty).Some? <==> ArrayRoom(items, depth, tables) && AllPrint(items)
    decreases items, 1
  {
    hide ListLines, TableRows, UniformColumns, RowText, Prints, ItemsRoom;
    if items == [] {
    } else if AllPrimitive(items) {
      RowPrints(items);
    } else if tables && UniformColumns(items).Some? {
      TableRowsPrint(items, UniformColumns(items).value, 0, depth);
      assert items[0..] == items;
    } else {
      ListPrints(items, depth);
    }
  }

  lemma {:induction false} ListPrints(items: seq<Value>, depth: nat)
    ensures ListLines(items, depth).Some? <==> depth <= MAX_DEPTH && ItemsRoom(items, depth) && AllPrint(items)
    decreases items, 0
  {
    hide ItemLines, Prints, ItemRoom;
    if items != [] {
      ItemPrints(items[0], depth);
      ListPrints(items[1..], depth);
      FirstAndRest(items);
      FirstItemRoom(items, depth);
    }
  }

  lemma FirstItemRoom(items: seq<Value>, depth: nat)
    requires items != []
    ensures ItemsRoom(items, depth) <==> ItemRoom(items[0], depth) && ItemsRoom(items[1..], depth)
  {
    hide ItemRoom;
    assert forall i | 0 < i < |items| :: items[i] == items[1..][i - 1];
  }

  lemma {:induction false} ItemPrints(item: Value, depth: nat)
    ensures ItemLines(item, depth).Some? <==> ItemRoom(item, depth) && Prints(item)
    decreases item
  {
    hide ArrayChunk, ArrayRoom, FieldChunk, FieldRoom, FieldsLines, FieldsRoom, EncodePrimitive;
    match item
    case Object(fields) =>
      if fields != [] {
        FieldPrints(fields[0], depth + 1);
        FieldsPrint(fields[1..], depth + 1);
        FirstField(fields);
      }
    case Array(items) => ArrayPrints(items, "", depth + 1, false, false);
    case _ => PrimitivePrints(item);
  }

  // The guard and the room: below a field or a list item the guard counts at least as deep as the lines go.

  lemma {:induction false} FieldHasRoom(f: Field, depth: nat)
    requires DepthAllowed(f.val, depth + 1)
    ensures FieldRoom(f, depth)
    decreases f
  {
    hide KeyedColumns, ArrayRoom;
    match f.val
    case Array(items) => ArrayHasRoom(items, depth + 1, true);
    case Object(fields) => FieldsHaveRoom(fields, depth + 1);
    case _ =>
  }

  lemma {:induction false} FieldsHaveRoom(fields: seq<Field>, depth: nat)
    requires depth <= MAX_DEPTH && forall i | 0 <= i < |fields| :: DepthAllowed(fields[i].val, depth + 1)
    ensures FieldsRoom(fields, depth)
    decreases fields
  {
    hide FieldRoom, DepthAllowed;
    forall i | 0 <= i < |fields| ensures FieldRoom(fields[i], depth) { FieldHasRoom(fields[i], depth); }
  }

  lemma {:induction false} ArrayHasRoom(items: seq<Value>, depth: nat, tables: bool)
    requires DepthAllowed(Array(items), depth)
    ensures ArrayRoom(items, depth, tables)
    decreases items
  {
    hide ItemRoom, UniformColumns, AllPrimitive;
    forall i | 0 <= i < |items| ensures ItemRoom(items[i], depth) { ItemHasRoom(items[i], depth); }
  }

  lemma {:induction false} ItemHasRoom(item: Value, depth: nat)
    requires DepthAllowed(item, depth + 1)
    ensures ItemRoom(item, depth)
    decreases item
  {
    hide ArrayRoom, FieldRoom, FieldsRoom;
    match item
    case Object(fields) =>
      if fields != [] {
        FieldHasRoom(fields[0], depth + 1);
        FieldsHaveRoom(fields[1..], depth + 1);
      }
    case Array(items) => ArrayHasRoom(items, depth + 1, false);
    case _ =>
  }

  // ---- Whole documents ----

  /** A value whose root is not an array has a document if and only if it is nested no deeper than allowed
      and its numbers print. */
  lemma EncodableIff(v: Value)
    requires !v.Array?
    ensures Document(v).Some? <==> DepthAllowed(v, 0) && Prints(v)
  {
    hide FieldsLines, FieldsRoom, KeyedColumns, KeyedChunk, EncodePrimitive;
    match v
    case Object(fields) =>
      if DepthAllowed(v, 0) {
        FieldsHaveRoom(fields, 0);
        if KeyedColumns(fields).Some? { KeyedPrints(fields, "", 1); } else { FieldsPrint(fields, 0); }
      }
    case _ => PrimitivePrints(v);
  }

  /** The items of a root array are printed one deeper than the guard counts, so for such a root the guard
      does not decide: it has a document if and only if the lines have room as well. */
  lemma ArrayEncodableIff(items: seq<Value>)
    ensures Document(Array(items)).Some? <==> DepthAllowed(Array(items), 0) && ArrayRoom(items, 1, true) && AllPrint(items)
    ensures DepthAllowed(Array(items), 1) ==> ArrayRoom(items, 1, true)
  {
    hide ArrayChunk, ArrayRoom, Prints, DepthAllowed;
    ArrayPrints(items, "", 1, true, false);
    if DepthAllowed(Array(items), 1) { ArrayHasRoom(items, 1, true); }
    assert items == [] ==> ArrayRoom(items, 1, true) by { NoItemsRoom(); }
  }

  lemma NoItemsRoom()
    ensures ArrayRoom([], 1, true)
  {
  }

  /** Arrays nested `n` deep around one small object. */
  function Nest(n: nat): (v: Value)
    ensures n > 0 ==> v.Array?
  {
    if n == 0 then Object([Field("a", Null)]) else Array([Nest(n - 1)])
  }

  lemma {:induction false} NestDepth(n: nat, depth: nat)
    ensures DepthAllowed(Nest(n), depth) <==> depth + n <= MAX_DEPTH
    ensures Prints(Nest(n))
  {
    if n > 0 {
      NestDepth(n - 1, depth + 1);
      assert Nest(n).items[0] == Nest(n - 1);
    } else {
      assert Nest(0).fields[0].val == Null && DepthAllowed(Null, depth + 1);
    }
  }

  lemma {:induction false} NestedTooDeep(n: nat, depth: nat)
    requires depth + n >= MAX_DEPTH
    ensures !ItemRoom(Nest(n), depth)
    decreases n
  {
    hide UniformColumns;
    if n > 0 {
      NestedTooDeep(n - 1, depth + 1);
      var items := Nest(n).items;
      assert items[0] == Nest(n - 1) && !AllPrimitive(items);
      assert !ItemsRoom(items, depth + 1) && !ArrayRoom(items, depth + 1, false);
    } else {
      assert !FieldsRoom(Nest(0).fields[1..], depth + 1);
    }
  }

  /** The guard lets a root array through that cannot be printed. */
  lemma RootArrayNestsOneLess()
    ensures var v := Nest(MAX_DEPTH);
            v.Array? && DepthAllowed(v, 0) && Prints(v) && !ArrayRoom(v.items, 1, true) && Document(v).None?
  {
    hide DepthAllowed, Prints, ItemRoom;
    NestDepth(MAX_DEPTH, 0);
    NestedTooDeep(MAX_DEPTH - 1, 1);
    var inner := Nest(MAX_DEPTH - 1);
    assert Nest(MAX_DEPTH) == Array([inner]) && inner.Array?;
    assert UniformColumns([inner]).None? && !AllPrimitive([inner]) && [inner][0] == inner;
    ArrayEncodableIff([inner]);
  }
}
