/** The loops that decide whether values form a table and collect its cells, proved against the
    functions of the layout. */
module ToonTables {
  import opened Options
  import opened ToonLayout

  /** Reading a key of a field index; a missing key yields the zero value. */
  function At(index: map<string, Value>, key: string): Value {
    if key in index then index[key] else Uninitialized
  }

  ghost predicate Indexes(index: map<string, Value>, v: Value) {
    forall key :: At(index, key) == Lookup(FieldsOf(v), key)
  }

  ghost predicate AllIndex(indexes: seq<map<string, Value>>, vals: seq<Value>) {
    |indexes| == |vals| && forall i | 0 <= i < |vals| :: Indexes(indexes[i], vals[i])
  }

  method AllPrimitiveLoop(items: seq<Value>) returns (all: bool)
    ensures all == AllPrimitive(items)
  {
    for i := 0 to |items|
      invariant AllPrimitive(items[..i])
    {
      if !IsPrimitive(items[i]) {
        return false;
      }
      assert items[..i + 1] == items[..i] + [items[i]];
    }
    assert items[..|items|] == items;
    return true;
  }

  method AllNonEmptyObjects(vals: seq<Value>) returns (all: bool)
    ensures all <==> forall i | 0 <= i < |vals| :: vals[i].Object? && vals[i].fields != []
  {
    for i := 0 to |vals|
      invariant forall k | 0 <= k < i :: vals[k].Object? && vals[k].fields != []
    {
      if !vals[i].Object? || FieldsOf(vals[i]) == [] {
        return false;
      }
    }
    return true;
  }

  method FieldKeys(v: Value) returns (keys: seq<string>)
    ensures keys == Keys(FieldsOf(v))
  {
    var fields := FieldsOf(v);
    keys := [];
    for i := 0 to |fields|
      invariant keys == Keys(fields)[..i]
    {
      keys := keys + [fields[i].key];
    }
  }

  /** The set of the keys, unless one is repeated. */
  method NoDupKeySet(keys: seq<string>) returns (keySet: Option<set<string>>)
    ensures keySet == if NoDuplicates(keys) then Some(KeySet(keys)) else None
  {
    var seen: set<string> := {};
    for i := 0 to |keys|
      invariant seen == KeySet(keys[..i]) && NoDuplicates(keys[..i])
    {
      if keys[i] in seen {
        var j :| 0 <= j < i && keys[..i][j] == keys[i];
        assert keys[j] == keys[i];
        return None;
      }
      assert forall j | 0 <= j < i :: keys[..i][j] in seen;
      assert keys[..i + 1] == keys[..i] + [keys[i]];
      seen := seen + {keys[i]};
    }
    assert keys[..|keys|] == keys;
    return Some(seen);
  }

  method MatchesKeySetLoop(v: Value, keySet: set<string>) returns (matches: bool)
    ensures matches == MatchesKeySet(v, keySet)
  {
    if !v.Object? || |v.fields| != |keySet| {
      return false;
    }
    var fields := v.fields;
    var seen: set<string> := {};
    for i := 0 to |fields|
      invariant forall k | 0 <= k < i :: fields[k].key in keySet && fields[k].key in seen
      invariant forall key | key in seen :: exists k | 0 <= k < i :: fields[k].key == key
      invariant NoDuplicates(Keys(fields)[..i])
    {
      if fields[i].key !in keySet {
        return false;
      }
      if fields[i].key in seen {
        var k :| 0 <= k < i && fields[k].key == fields[i].key;
        assert Keys(fields)[k] == Keys(fields)[i];
        return false;
      }
      seen := seen + {fields[i].key};
    }
    assert Keys(fields)[..|fields|] == Keys(fields);
    return true;
  }

  lemma LookupLast(fields: seq<Field>, i: nat, key: string)
    requires i < |fields|
    ensures Lookup(fields[..i + 1], key) == if fields[i].key == key then fields[i].val else Lookup(fields[..i], key)
  {
    assert fields[..i + 1][..i] == fields[..i];
  }

  method FieldIndex(v: Value) returns (index: map<string, Value>)
    ensures Indexes(index, v)
  {
    hide Lookup;
    var fields := FieldsOf(v);
    index := map[];
    EmptyLookup(fields);
    for i := 0 to |fields|
      invariant forall key :: At(index, key) == Lookup(fields[..i], key)
    {
      ghost var before := index;
      index := index[fields[i].key := fields[i].val];
      forall key ensures At(index, key) == Lookup(fields[..i + 1], key) {
        LookupLast(fields, i, key);
        assert At(before, key) == Lookup(fields[..i], key);
      }
    }
    assert fields[..|fields|] == fields;
  }

  lemma EmptyLookup(fields: seq<Field>)
    ensures forall key :: Lookup(fields[..0], key) == Uninitialized
  {
  }

  method FieldIndexes(vals: seq<Value>) returns (indexes: seq<map<string, Value>>)
    ensures AllIndex(indexes, vals)
  {
    indexes := [];
    for i := 0 to |vals|
      invariant |indexes| == i && forall k | 0 <= k < i :: Indexes(indexes[k], vals[k])
    {
      var index := FieldIndex(vals[i]);
      indexes := indexes + [index];
    }
  }

  method ColumnOf(indexes: seq<map<string, Value>>, key: string, ghost objects: seq<Value>) returns (vals: seq<Value>)
    requires AllIndex(indexes, objects)
    ensures vals == ColumnValues(objects, key)
  {
    vals := [];
    for i := 0 to |indexes|
      invariant vals == ColumnValues(objects, key)[..i]
    {
      assert Indexes(indexes[i], objects[i]);
      vals := vals + [At(indexes[i], key)];
    }
  }

  function Joined(a: Option<seq<Col>>, b: Option<seq<Col>>): Option<seq<Col>> {
    if a.Some? && b.Some? then Some(a.value + b.value) else None
  }

  lemma JoinedLaws(a: Option<seq<Col>>, b: Option<seq<Col>>, c: Option<seq<Col>>)
    ensures Joined(a, Joined(b, c)) == Joined(Joined(a, b), c)
    ensures Joined(Some([]), a) == a
    ensures Joined(None, b) == None && Joined(a, None) == None
  {
    if a.Some? {
      assert [] + a.value == a.value;
      if b.Some? && c.Some? {
        assert a.value + (b.value + c.value) == a.value + b.value + c.value;
      }
    }
  }

  lemma ColumnsCons(objects: seq<Value>, keys: seq<string>)
    requires objects != [] && keys != []
    ensures Columns(objects, keys) == Joined(Columns(objects, [keys[0]]), Columns(objects, keys[1..]))
  {
    hide UniformColumns, ColumnValues, AllPrimitive;
    assert [keys[0]][1..] == [];
    assert Columns(objects, []) == Some([]);
    assert forall col: Col :: [col] + [] == [col];
  }

  lemma {:induction false} ColumnsSplit(objects: seq<Value>, keys: seq<string>, i: nat)
    requires objects != [] && i < |keys|
    ensures Columns(objects, keys[..i + 1]) == Joined(Columns(objects, keys[..i]), Columns(objects, [keys[i]]))
    ensures Columns(objects, [keys[i]]).None? ==> Columns(objects, keys).None?
    decreases i
  {
    NoColumns(objects);
    hide Columns, Joined;
    assert keys[..0] == [];
    ColumnsCons(objects, keys);
    var head, rest := Columns(objects, [keys[0]]), Columns(objects, keys[1..]);
    JoinedLaws(head, Columns(objects, keys[1..][..if i == 0 then 0 else i - 1]), Columns(objects, [keys[i]]));
    JoinedLaws(head, rest, None);
    if i == 0 {
      assert keys[..1] == [keys[0]];
    } else {
      ColumnsSplit(objects, keys[1..], i - 1);
      assert keys[1..][i - 1] == keys[i] && keys[..i][0] == keys[0] == keys[..i + 1][0];
      assert keys[..i][1..] == keys[1..][..i - 1] && keys[..i + 1][1..] == keys[1..][..i];
      ColumnsCons(objects, keys[..i]);
      ColumnsCons(objects, keys[..i + 1]);
    }
  }

  lemma OneColumn(objects: seq<Value>, key: string)
    requires objects != []
    ensures var vals := ColumnValues(objects, key);
            Columns(objects, [key]) ==
            if AllPrimitive(vals) then Some([Col(key, [])])
            else if vals[0].Object? && UniformColumns(vals).Some? then Some([Col(key, UniformColumns(vals).value)])
            else None
  {
    hide UniformColumns, ColumnValues, AllPrimitive;
    assert [key][1..] == [];
    assert Columns(objects, []) == Some([]);
    assert forall col: Col :: [col] + [] == [col];
  }

  lemma UniformOnlyObjects(vals: seq<Value>)
    requires vals != [] && UniformColumns(vals).Some?
    ensures forall i | 0 <= i < |vals| :: vals[i].Object? && vals[i].fields != []
  {
    hide Columns;
    var keys := Keys(vals[0].fields);
    assert keys[0] in KeySet(keys);
    assert |KeySet(keys)| != 0;
    forall i | 0 <= i < |vals| ensures vals[i].Object? && vals[i].fields != [] {
      assert i == 0 || MatchesKeySet(vals[i], KeySet(keys));
    }
  }

  method ClassifyColumns(indexes: seq<map<string, Value>>, keys: seq<string>, ghost objects: seq<Value>)
    returns (cols: Option<seq<Col>>)
    requires objects != [] && AllIndex(indexes, objects)
    ensures cols == Columns(objects, keys)
    decreases objects[0], 0
  {
    hide Columns, UniformColumns, AllPrimitive, Lookup;
    var done: seq<Col> := [];
    NoColumns(objects);
    assert keys[..0] == [];
    for i := 0 to |keys|
      invariant Columns(objects, keys[..i]) == Some(done)
    {
      ColumnsSplit(objects, keys, i);
      OneColumn(objects, keys[i]);
      var col := ClassifyColumn(indexes, keys[i], objects);
      if col.None? {
        return None;
      }
      done := done + [col.value];
    }
    assert keys[..|keys|] == keys;
    return Some(done);
  }

  lemma NoColumns(objects: seq<Value>)
    requires objects != []
    ensures Columns(objects, []) == Some([])
  {
  }

  lemma ColumnIsSmaller(objects: seq<Value>, key: string)
    requires objects != [] && ColumnValues(objects, key)[0].Object?
    ensures ColumnValues(objects, key)[0] < objects[0]
  {
    var v := ColumnValues(objects, key)[0];
    var k :| 0 <= k < |FieldsOf(objects[0])| && FieldsOf(objects[0])[k] == Field(key, v);
    assert objects[0].fields[k].val == v;
  }

  method ClassifyColumn(indexes: seq<map<string, Value>>, key: string, ghost objects: seq<Value>)
    returns (col: Option<Col>)
    requires objects != [] && AllIndex(indexes, objects)
    ensures Columns(objects, [key]) == if col.Some? then Some([col.value]) else None
    decreases objects[0], 0, 0
  {
    hide Columns, UniformColumns, AllPrimitive, Lookup;
    OneColumn(objects, key);
    var vals := ColumnOf(indexes, key, objects);
    var leaf := AllPrimitiveLoop(vals);
    if leaf {
      return Some(Col(key, []));
    }
    var nested := AllNonEmptyObjects(vals);
    if !nested {
      if UniformColumns(vals).Some? {
        UniformOnlyObjects(vals);
      }
      return None;
    }
    ColumnIsSmaller(objects, key);
    var children := SharedColumns(vals);
    if children.None? {
      return None;
    }
    return Some(Col(key, children.value));
  }

  /** The key-set comparison and classification shared by array tables, keyed tables and nested
      columns. */
  method SharedColumns(vals: seq<Value>) returns (cols: Option<seq<Col>>)
    requires vals != [] && vals[0].Object? && vals[0].fields != []
    ensures cols == UniformColumns(vals)
    decreases vals[0], 1
  {
    hide Columns, Lookup, MatchesKeySet;
    var keys := FieldKeys(vals[0]);
    var keySet := NoDupKeySet(keys);
    if keySet.None? {
      return None;
    }
    for i := 1 to |vals|
      invariant forall k | 1 <= k < i :: MatchesKeySet(vals[k], KeySet(keys))
    {
      var matches := MatchesKeySetLoop(vals[i], keySet.value);
      if !matches {
        return None;
      }
    }
    var indexes := FieldIndexes(vals);
    cols := ClassifyColumns(indexes, keys, vals);
  }

  method TabularFields(items: seq<Value>) returns (cols: Option<seq<Col>>)
    requires items != []
    ensures cols == UniformColumns(items)
  {
    hide Columns;
    if !items[0].Object? || FieldsOf(items[0]) == [] {
      return None;
    }
    cols := SharedColumns(items);
  }

  method KeyedTabularCols(v: Value) returns (cols: Option<seq<Col>>)
    ensures cols == KeyedColumns(FieldsOf(v))
  {
    hide UniformColumns;
    var fields := FieldsOf(v);
    if |fields| < 2 {
      return None;
    }
    var entries := [];
    for i := 0 to |fields|
      invariant entries == EntryValues(fields)[..i]
    {
      entries := entries + [fields[i].val];
    }
    assert entries == EntryValues(fields);
    var nested := AllNonEmptyObjects(entries);
    if !nested {
      if UniformColumns(entries).Some? {
        UniformOnlyObjects(entries);
      }
      return None;
    }
    cols := SharedColumns(entries);
  }

  lemma {:induction false} LeafValuesStep(fields: seq<Field>, cols: seq<Col>, i: nat)
    requires i < |cols|
    ensures var v := Lookup(fields, cols[i].key);
            LeafValues(fields, cols[..i + 1])
            == LeafValues(fields, cols[..i])
               + if cols[i].children == [] then [v] else LeafValues(FieldsOf(v), cols[i].children)
    decreases i
  {
    hide Lookup, FieldsOf;
    if i == 0 {
      assert cols[..1][1..] == [] && cols[..0] == [];
      assert LeafValues(fields, []) == [];
    } else {
      LeafValuesStep(fields, cols[1..], i - 1);
      assert cols[..i + 1][1..] == cols[1..][..i] && cols[..i][1..] == cols[1..][..i - 1];
      assert cols[..i][0] == cols[0] == cols[..i + 1][0];
    }
  }

  method LeafValuesLoop(index: map<string, Value>, cols: seq<Col>, ghost v: Value) returns (vals: seq<Value>)
    requires Indexes(index, v)
    ensures vals == LeafValues(FieldsOf(v), cols)
    decreases cols
  {
    hide Lookup, LeafValues;
    vals := [];
    NoLeaves(FieldsOf(v));
    assert cols[..0] == [];
    for i := 0 to |cols|
      invariant vals == LeafValues(FieldsOf(v), cols[..i])
    {
      LeafValuesStep(FieldsOf(v), cols, i);
      var cell := At(index, cols[i].key);
      if |cols[i].children| == 0 {
        vals := vals + [cell];
      } else {
        var inner := FieldIndex(cell);
        var more := LeafValuesLoop(inner, cols[i].children, cell);
        vals := vals + more;
      }
    }
    assert cols[..|cols|] == cols;
  }

  lemma NoLeaves(fields: seq<Field>)
    ensures LeafValues(fields, []) == []
  {
  }
}
