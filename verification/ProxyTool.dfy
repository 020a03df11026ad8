/** The in-place edits of one schema object and of the tool that holds it. */
module ProxyTool {
  import opened Options
  import opened Json
  import opened Schema
  import opened SchemaLoosening
  import opened ProxySchema

  const TRIM_SENSITIVE_KEYWORDS: seq<string> := [
    "required", "dependentRequired", "dependencies", "minProperties", "maxProperties", "minLength", "pattern",
    "format", "minItems", "contains", "minContains", "uniqueItems", "maxItems", "unevaluatedItems"
  ]

  const SUBSCHEMA_KEY_LIST: seq<string> := [
    "anyOf", "allOf", "prefixItems", "items", "additionalProperties", "then", "else", "propertyNames",
    "unevaluatedProperties"
  ]

  const SUBSCHEMA_MAP_KEY_LIST: seq<string> := [
    "properties", "patternProperties", "$defs", "definitions", "dependentSchemas"
  ]

  lemma KeywordLists()
    ensures forall k :: k in TRIM_SENSITIVE_KEYWORDS <==> k in TRIM_SENSITIVE
    ensures forall k :: k in SUBSCHEMA_KEY_LIST <==> k in SUBSCHEMA_KEYS
    ensures forall k :: k in SUBSCHEMA_MAP_KEY_LIST <==> k in SUBSCHEMA_MAP_KEYS
  {
  }

  lemma DistinctKeys()
    ensures forall i, j | 0 <= i < j < |SUBSCHEMA_KEY_LIST| :: SUBSCHEMA_KEY_LIST[i] != SUBSCHEMA_KEY_LIST[j]
    ensures forall i, j | 0 <= i < j < |SUBSCHEMA_MAP_KEY_LIST| :: SUBSCHEMA_MAP_KEY_LIST[i] != SUBSCHEMA_MAP_KEY_LIST[j]
    ensures forall k | k in SUBSCHEMA_MAP_KEY_LIST :: k !in SUBSCHEMA_KEY_LIST
  {
  }

  ghost predicate PartlyLoosened(m: map<string, Json>, now: map<string, Json>, done: seq<string>) {
    && now.Keys == m.Keys
    && forall k | k in m :: now[k] == if k in done then LoosenValue(k, m[k]) else m[k]
  }

  lemma PartValue(key: string, value: Json)
    ensures key in SUBSCHEMA_KEY_LIST ==> LoosenValue(key, value) == Loosen(value)
    ensures key in SUBSCHEMA_MAP_KEY_LIST ==>
              LoosenValue(key, value) ==
              (if value.Obj? then Obj(map k | k in value.fields :: Loosen(value.fields[k])) else value)
    ensures key !in SUBSCHEMA_KEY_LIST && key !in SUBSCHEMA_MAP_KEY_LIST ==> LoosenValue(key, value) == value
  {
    hide *;
    KeywordLists();
    DistinctKeys();
    LoosenValueCases(key, value);
  }

  lemma LoosenValueCases(key: string, value: Json)
    ensures key in SUBSCHEMA_KEYS ==> LoosenValue(key, value) == Loosen(value)
    ensures key !in SUBSCHEMA_KEYS && key in SUBSCHEMA_MAP_KEYS ==>
              LoosenValue(key, value) ==
              (if value.Obj? then Obj(map k | k in value.fields :: Loosen(value.fields[k])) else value)
    ensures key !in SUBSCHEMA_KEYS && key !in SUBSCHEMA_MAP_KEYS ==> LoosenValue(key, value) == value
  {
    hide Loosen;
  }

  /** Loosens every schema of a map of named schemas. */
  method LoosenNamed(named: map<string, Json>) returns (loose: map<string, Json>)
    ensures loose == map k | k in named :: Loosen(named[k])
  {
    hide Loosen;
    loose := named;
    var left := named.Keys;
    while left != {}
      invariant left <= named.Keys && loose.Keys == named.Keys
      invariant forall k | k in named :: loose[k] == if k in left then named[k] else Loosen(named[k])
    {
      var k :| k in left;
      loose := loose[k := Loosen(loose[k])];
      left := left - {k};
    }
  }

  lemma PlaceMiniSteps(s: Json)
    requires s.Obj?
    ensures "$ref" in s.fields || (!Objectish(s) && !Arrayish(s)) ==> PlaceMini(s).None?
    ensures "$ref" !in s.fields && (Objectish(s) || Arrayish(s)) ==>
              PlaceMini(s) ==
              (if PlaceOwn(s).None? || PlaceBranches(s, ListOf(s, "anyOf")).None? || PlaceBranches(s, ListOf(s, "allOf")).None?
               then None
               else Some(WithBranches(WithBranches(PlaceOwn(s).value, s, "anyOf", PlaceBranches(s, ListOf(s, "anyOf")).value),
                                      s, "allOf", PlaceBranches(s, ListOf(s, "allOf")).value)))
  {
    hide PlaceBranches, PlaceOwn, Objectish, Arrayish, ListOf, WithBranches;
  }

  /** What the first steps of placing leave alone. */
  lemma OwnSteps(s: Json, own: Json)
    requires s.Obj? && own == if Objectish(s) then PlaceProperty(s) else s
    ensures own.Obj? && PlaceOwn(s) == if Arrayish(s) then PlaceItem(own) else Some(own)
    ensures SameParts(s, own)
    ensures PlaceItem(own).Some? ==> PlaceItem(own).value.Obj? && SameParts(s, PlaceItem(own).value)
  {
    hide Objectish, Arrayish, MetaSchema, NoticeItemSchema, NamedOf;
  }

  ghost predicate SameParts(s: Json, t: Json)
    requires s.Obj? && t.Obj?
  {
    && (forall k | k in {"anyOf", "allOf", "type"} :: (k in t.fields <==> k in s.fields) && (k in s.fields ==> t.fields[k] == s.fields[k]))
    && LooseOutputSchema(t) == LooseOutputSchema(s)
  }

  lemma SameLoose(s: Json, t: Json)
    requires s.Obj? && t.Obj?
    requires "type" in t.fields <==> "type" in s.fields
    requires "type" in s.fields ==> t.fields["type"] == s.fields["type"]
    ensures LooseOutputSchema(t) == LooseOutputSchema(s)
  {
  }

  lemma NothingPlaced(s: Json)
    ensures PlaceBranches(s, []) == Some([])
  {
  }

  lemma {:induction false} OneBranchFails(s: Json, branches: seq<Json>, i: nat)
    requires forall j | 0 <= j < |branches| :: branches[j] < s
    requires i < |branches| && PlaceBranch(branches[i]).None?
    ensures PlaceBranches(s, branches).None?
    decreases |branches|
  {
    hide PlaceBranch;
    if i > 0 { OneBranchFails(s, branches[1..], i - 1); }
  }

  lemma {:induction false} AllBranchesPlaced(s: Json, branches: seq<Json>, placed: seq<Json>)
    requires forall j | 0 <= j < |branches| :: branches[j] < s
    requires |placed| == |branches| && forall j | 0 <= j < |branches| :: PlaceBranch(branches[j]) == Some(placed[j])
    ensures PlaceBranches(s, branches) == Some(placed)
    decreases |branches|
  {
    hide PlaceBranch;
    if branches != [] {
      AllBranchesPlaced(s, branches[1..], placed[1..]);
      assert placed == [placed[0]] + placed[1..];
    }
  }

  /** A schema object whose keywords are deleted and set in place. */
  class SchemaObject {
    var fields: map<string, Json>

    constructor (m: map<string, Json>)
      ensures fields == m
    {
      fields := m;
    }

    method DeleteTrimSensitive()
      modifies this
      ensures fields == WithoutTrimSensitive(old(fields))
    {
      hide TRIM_SENSITIVE, TRIM_SENSITIVE_KEYWORDS;
      KeywordLists();
      for i := 0 to |TRIM_SENSITIVE_KEYWORDS|
        invariant fields == map k | k in old(fields) && k !in TRIM_SENSITIVE_KEYWORDS[..i] :: old(fields)[k]
      {
        fields := fields - {TRIM_SENSITIVE_KEYWORDS[i]};
      }
      assert TRIM_SENSITIVE_KEYWORDS[..|TRIM_SENSITIVE_KEYWORDS|] == TRIM_SENSITIVE_KEYWORDS;
    }

    method RewriteOneOf()
      modifies this
      ensures fields == OneOfToAnyOf(old(fields))
    {
      if "oneOf" !in fields { return; }
      var branches := fields["oneOf"];
      fields := fields - {"oneOf"};
      if "anyOf" !in fields {
        fields := fields["anyOf" := branches];
        return;
      }
      var allOf := if "allOf" in fields && fields["allOf"].Arr? then fields["allOf"].items else [];
      fields := fields["allOf" := Arr(allOf + [Obj(map["anyOf" := branches])])];
    }

    method LoosenParts()
      modifies this
      ensures fields == LoosenSubschemas(old(fields))
    {
      hide LoosenValue, SUBSCHEMA_KEY_LIST, SUBSCHEMA_MAP_KEY_LIST, SUBSCHEMA_KEYS, SUBSCHEMA_MAP_KEYS, Loosen;
      DistinctKeys();
      ghost var m := fields;
      var keys, mapKeys := SUBSCHEMA_KEY_LIST, SUBSCHEMA_MAP_KEY_LIST;
      for i := 0 to |keys|
        invariant PartlyLoosened(m, fields, keys[..i])
      {
        var key := keys[i];
        if key in fields {
          PartValue(key, fields[key]);
          fields := fields[key := Loosen(fields[key])];
        }
        assert keys[..i + 1] == keys[..i] + [key];
      }
      assert keys[..|keys|] == keys;
      for i := 0 to |mapKeys|
        invariant PartlyLoosened(m, fields, keys + mapKeys[..i])
      {
        var key := mapKeys[i];
        if key in fields {
          PartValue(key, fields[key]);
          if fields[key].Obj? {
            var named := LoosenNamed(fields[key].fields);
            fields := fields[key := Obj(named)];
          }
        }
        assert mapKeys[..i + 1] == mapKeys[..i] + [key];
      }
      assert mapKeys[..|mapKeys|] == mapKeys;
      forall k | k in m && k !in keys && k !in mapKeys ensures LoosenValue(k, m[k]) == m[k] { PartValue(k, m[k]); }
    }

    method LoosenInPlace()
      modifies this
      ensures Obj(fields) == Loosen(Obj(old(fields)))
    {
      hide Loosen, OneOfToAnyOf, WithoutTrimSensitive, LoosenSubschemas;
      LoosenInSteps(fields);
      DeleteTrimSensitive();
      RewriteOneOf();
      LoosenParts();
    }

    /** Lets the notice in; after a failure only the type is still meaningful. */
    method PlaceNotice() returns (ok: bool)
      modifies this
      ensures ok == PlaceMini(Obj(old(fields))).Some?
      ensures ok ==> Obj(fields) == PlaceMini(Obj(old(fields))).value
      ensures LooseOutputSchema(Obj(fields)) == LooseOutputSchema(Obj(old(fields)))
    {
      hide PlaceBranches, PlaceMini, PlaceOwn, PlaceProperty, PlaceItem, Objectish, Arrayish, ListOf, WithBranches, LooseOutputSchema;
      var s := Obj(fields);
      PlaceMiniSteps(s);
      if "$ref" in fields { return false; }
      var objectish, arrayish := Objectish(s), Arrayish(s);
      if !objectish && !arrayish { return false; }
      if objectish { PlacePropertyInPlace(); }
      OwnSteps(s, Obj(fields));
      if arrayish {
        var placed := PlaceItemInPlace();
        if !placed { return false; }
      }
      assert PlaceOwn(s) == Some(Obj(fields));
      ok := PlaceBranchesInPlace("anyOf", s);
      if ok { ok := PlaceBranchesInPlace("allOf", s); }
      SameLoose(s, Obj(fields));
    }

    /** Places the notice in every branch under a keyword, stopping at the first that cannot take it. */
    method PlaceBranchesInPlace(keyword: string, ghost s: Json) returns (ok: bool)
      requires s.Obj?
      requires Has(Obj(fields), keyword) <==> Has(s, keyword)
      requires Has(s, keyword) ==> fields[keyword] == s.fields[keyword]
      requires keyword != "type"
      modifies this
      ensures ok == PlaceBranches(s, ListOf(s, keyword)).Some?
      ensures ok ==> Obj(fields) == WithBranches(Obj(old(fields)), s, keyword, PlaceBranches(s, ListOf(s, keyword)).value)
      ensures fields.Keys == old(fields).Keys
      ensures forall k | k in fields && k != keyword :: fields[k] == old(fields)[k]
    {
      hide PlaceBranch, PlaceBranches;
      if keyword !in fields || !fields[keyword].Arr? {
        NothingPlaced(s);
        return true;
      }
      var branches := fields[keyword].items;
      ghost var was := branches;
      assert was == ListOf(s, keyword);
      for i := 0 to |branches|
        invariant |branches| == |was| && branches[i..] == was[i..]
        invariant fields == old(fields)[keyword := Arr(branches)]
        invariant forall j | 0 <= j < i :: PlaceBranch(was[j]) == Some(branches[j])
      {
        var placed := PlaceBranch(branches[i]);
        if placed.None? {
          OneBranchFails(s, was, i);
          return false;
        }
        branches := branches[i := placed.value];
        fields := fields[keyword := Arr(branches)];
      }
      AllBranchesPlaced(s, was, branches);
      ok := true;
    }

    method PlacePropertyInPlace()
      modifies this
      ensures Obj(fields) == PlaceProperty(Obj(old(fields)))
    {
      hide MetaSchema;
      if "properties" !in fields || !fields["properties"].Obj? { fields := fields["properties" := Obj(map[])]; }
      var properties := fields["properties"].fields;
      if MINI !in properties { fields := fields["properties" := Obj(properties[MINI := MetaSchema()])]; }
    }

    method PlaceItemInPlace() returns (ok: bool)
      modifies this
      ensures ok == PlaceItem(Obj(old(fields))).Some?
      ensures Obj(fields) == if ok then PlaceItem(Obj(old(fields))).value else Obj(old(fields))
    {
      if "prefixItems" in fields { return false; }
      if "items" !in fields || fields["items"] == Bool(true) { return true; }
      if !fields["items"].Obj? { return false; }
      fields := fields["items" := Obj(map["anyOf" := Arr([fields["items"], NoticeItemSchema()])])];
      ok := true;
    }
  }

  /** A proxied tool; `None` is a missing output schema. */
  class Tool {
    var outputSchema: Option<Json>

    constructor (output: Option<Json>)
      ensures outputSchema == output
    {
      outputSchema := output;
    }

    method SetProxyOutputSchema()
      modifies this
      ensures outputSchema == ProxyOutputSchema(old(outputSchema))
    {
      hide Loosen, PlaceMini, NegationRefersOut, HasKnownDialect, LooseOutputSchema;
      if outputSchema.None? || !outputSchema.value.Obj? {
        if outputSchema == Some(Null) { outputSchema := None; }
        return;
      }
      var schema := outputSchema.value;
      if !HasKnownDialect(schema) || NegationRefersOut(schema) {
        outputSchema := Some(LooseOutputSchema(schema));
        return;
      }
      var edited := new SchemaObject(schema.fields);
      edited.LoosenInPlace();
      var ok := edited.PlaceNotice();
      outputSchema := Some(if ok then Obj(edited.fields) else LooseOutputSchema(Obj(edited.fields)));
    }
  }
}
