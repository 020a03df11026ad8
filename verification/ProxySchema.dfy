/** The output schema a proxied tool is listed with: loosened, and with room for the notice that says
    what a projected result leaves out. */
module ProxySchema {
  import opened Options
  import opened Json
  import opened Schema
  import opened SchemaLoosening
  import Projection

  const MINI := "__mini"

  // ---- The notice ----

  datatype Notice = Notice(msg: string, file: string, excluded: seq<string>, truncated: seq<Projection.Truncated>)

  function Strings(texts: seq<string>): Json { Arr(seq(|texts|, i requires 0 <= i < |texts| => Str(texts[i]))) }

  function Unless(empty: bool, key: string, value: Json): map<string, Json> { if empty then map[] else map[key := value] }

  function TruncationJson(t: Projection.Truncated): Json {
    Obj(map["path" := Str(t.path)] + Unless(t.chars == 0, "chars", Num(t.chars as real))
        + Unless(t.items == 0, "items", Num(t.items as real)))
  }

  function NoticeJson(notice: Notice): Json {
    Obj(Unless(notice.msg == "", "msg", Str(notice.msg)) + Unless(notice.file == "", "file", Str(notice.file))
        + Unless(notice.excluded == [], "excluded", Strings(notice.excluded))
        + Unless(notice.truncated == [], "truncated",
                 Arr(seq(|notice.truncated|, i requires 0 <= i < |notice.truncated| => TruncationJson(notice.truncated[i])))))
  }

  /** The value with the notice in it. */
  function Carried(v: Json, notice: Notice): Json {
    match v
    case Obj(fields) => Obj(fields[MINI := NoticeJson(notice)])
    case Arr(items) => Arr(items + [Obj(map[MINI := NoticeJson(notice)])])
    case _ => v
  }

  predicate MiniFree(v: Json) { v.Obj? && MINI !in v.fields }

  // ---- Its schema ----

  function TypeSchema(name: string): Json { Obj(map["type" := Str(name)]) }

  function ListSchema(items: Json): Json { Obj(map["type" := Str("array"), "items" := items]) }

  function ObjectSchema(properties: map<string, Json>): Json {
    Obj(map["type" := Str("object"), "properties" := Obj(properties)])
  }

  function ObjectSchemaWith(properties: map<string, Json>, required: string): Json {
    Obj(map["type" := Str("object"), "properties" := Obj(properties), "required" := Arr([Str(required)])])
  }

  function TruncatedItemsSchema(): Json {
    ListSchema(ObjectSchemaWith(
      map["path" := TypeSchema("string"), "chars" := TypeSchema("integer"), "items" := TypeSchema("integer")], "path"))
  }

  function MetaSchema(): Json {
    ObjectSchema(map[
      "msg" := TypeSchema("string"),
      "file" := TypeSchema("string"),
      "excluded" := ListSchema(TypeSchema("string")),
      "truncated" := TruncatedItemsSchema()])
  }

  function NoticeItemSchema(): Json { ObjectSchemaWith(map[MINI := MetaSchema()], MINI) }

  // ---- Placing it ----

  predicate TypeIncludes(s: Json, name: string) {
    Has(s, "type") && match s.fields["type"]
      case Str(t) => t == name
      case Arr(names) => Str(name) in names
      case _ => false
  }

  predicate Objectish(s: Json) { !Has(s, "type") || TypeIncludes(s, "object") }

  predicate Arrayish(s: Json) {
    TypeIncludes(s, "array") || (!Has(s, "type") && (Has(s, "items") || Has(s, "prefixItems")))
  }

  function PlaceProperty(s: Json): Json
    requires s.Obj?
  {
    var properties := NamedOf(s, "properties");
    Obj(s.fields["properties" := Obj(if MINI in properties then properties else properties[MINI := MetaSchema()])])
  }

  function PlaceItem(s: Json): Option<Json>
    requires s.Obj?
  {
    if "prefixItems" in s.fields then None
    else if "items" !in s.fields || s.fields["items"] == Bool(true) then Some(s)
    else if !s.fields["items"].Obj? then None
    else Some(Obj(s.fields["items" := Obj(map["anyOf" := Arr([s.fields["items"], NoticeItemSchema()])])]))
  }

  function PlaceOwn(s: Json): (placed: Option<Json>)
    requires s.Obj?
    ensures placed.Some? ==> placed.value.Obj?
  {
    var own := if Objectish(s) then PlaceProperty(s) else s;
    if Arrayish(s) then PlaceItem(own) else Some(own)
  }

  /** The schema with the notice allowed wherever its type admits an object or an array; None when a
      reference or a form of `items` stands in the way. */
  function PlaceMini(s: Json): (placed: Option<Json>)
    requires s.Obj?
    ensures placed.Some? ==> placed.value.Obj?
    decreases s, 0
  {
    if "$ref" in s.fields || (!Objectish(s) && !Arrayish(s)) then None
    else
      var own :- PlaceOwn(s);
      var anyOf :- PlaceBranches(s, ListOf(s, "anyOf"));
      var allOf :- PlaceBranches(s, ListOf(s, "allOf"));
      Some(WithBranches(WithBranches(own, s, "anyOf", anyOf), s, "allOf", allOf))
  }

  function WithBranches(placed: Json, s: Json, keyword: string, branches: seq<Json>): (r: Json)
    requires placed.Obj?
    ensures r.Obj?
  {
    if Has(s, keyword) && s.fields[keyword].Arr? then Obj(placed.fields[keyword := Arr(branches)]) else placed
  }

  function PlaceBranches(s: Json, branches: seq<Json>): (placed: Option<seq<Json>>)
    requires forall i | 0 <= i < |branches| :: branches[i] < s
    ensures placed.Some? ==> |placed.value| == |branches|
    ensures placed.Some? ==> forall i | 0 <= i < |branches| :: PlaceBranch(branches[i]) == Some(placed.value[i])
    decreases s, 0, |branches|
  {
    if branches == [] then Some([])
    else
      var first :- PlaceBranch(branches[0]);
      var rest :- PlaceBranches(s, branches[1..]);
      Some([first] + rest)
  }

  function PlaceBranch(branch: Json): Option<Json>
    decreases branch, 1
  {
    if !branch.Obj? || (!Objectish(branch) && !Arrayish(branch)) then Some(branch) else PlaceMini(branch)
  }

  // ---- The whole ----

  const KNOWN_DIALECTS: seq<string> := [
    "json-schema.org/draft-04/schema", "json-schema.org/draft-06/schema", "json-schema.org/draft-07/schema",
    "json-schema.org/draft/2019-09/schema", "json-schema.org/draft/2020-12/schema"
  ]

  function TrimSuffix(text: string, suffix: string): string {
    if |suffix| <= |text| && text[|text| - |suffix|..] == suffix then text[..|text| - |suffix|] else text
  }

  function TrimPrefix(text: string, prefix: string): string {
    if prefix <= text then text[|prefix|..] else text
  }

  predicate HasKnownDialect(s: Json) {
    Has(s, "$schema") && s.fields["$schema"].Str? ==>
      TrimPrefix(TrimPrefix(TrimSuffix(s.fields["$schema"].s, "#"), "https://"), "http://") in KNOWN_DIALECTS
  }

  /** All a result can be held to when the schema cannot be loosened: its type. */
  function LooseOutputSchema(s: Json): Json {
    if Has(s, "type") then Obj(map["type" := s.fields["type"]]) else Obj(map[])
  }

  /** `None` is a missing output schema. */
  function ProxyOutputSchema(output: Option<Json>): Option<Json> {
    match output
    case Some(Obj(m)) =>
      var schema := Obj(m);
      if !HasKnownDialect(schema) || NegationRefersOut(schema) then Some(LooseOutputSchema(schema))
      else
        var loose := Loosen(schema);
        if PlaceMini(loose).Some? then PlaceMini(loose) else Some(LooseOutputSchema(loose))
    case Some(Null) => None
    case _ => output
  }

  // ---- Notices match their schema ----

  /** How a schema object with none but these keywords judges a value. */
  lemma PlainSchema(n: nat, defs: Defs, s: Json, v: Json, d: Dialect)
    requires s.Obj? && s.fields.Keys <= {"type", "properties", "items", "required"}
    requires "items" in s.fields ==> !s.fields["items"].Arr?
    requires "type" in s.fields ==> TypeAllows(s.fields["type"], v)
    requires forall k | k in ListOf(s, "required") && k.Str? :: v.Obj? ==> k.s in v.fields
    requires forall k | k in NamedOf(s, "properties") && k in FieldsIn(v) ::
               Valid(n, defs, NamedOf(s, "properties")[k], FieldsIn(v)[k], d)
    requires "items" in s.fields ==> forall i | 0 <= i < |ItemsIn(v)| :: Valid(n, defs, s.fields["items"], ItemsIn(v)[i], d)
    ensures Valid(n, defs, s, v, d)
  {
    hide Valid, SimpleHolds, TypeAllows;
    assert forall k | k in s.fields :: k == "type" || k == "properties" || k == "items" || k == "required";
    assert "$ref" !in s.fields && "not" !in s.fields && "if" !in s.fields && "prefixItems" !in s.fields;
    PlainSimple(s, v, d);
    PlainProperties(n, defs, s, v, d);
    ValidObject(n, defs, s, v, d);
    assert ItemsHold(n, defs, s, v, d);
    assert BranchesHold(n, defs, s, v, d);
  }

  lemma PlainSimple(s: Json, v: Json, d: Dialect)
    requires s.Obj? && s.fields.Keys <= {"type", "properties", "items", "required"}
    requires "type" in s.fields ==> TypeAllows(s.fields["type"], v)
    requires forall k | k in ListOf(s, "required") && k.Str? :: v.Obj? ==> k.s in v.fields
    ensures SimpleHolds(s, v, d)
  {
    hide TypeAllows, ListOf;
    assert forall k | k in s.fields :: k == "type" || k == "properties" || k == "items" || k == "required";
    assert "enum" !in s.fields && "const" !in s.fields && "maxLength" !in s.fields;
  }

  lemma PlainProperties(n: nat, defs: Defs, s: Json, v: Json, d: Dialect)
    requires s.Obj? && s.fields.Keys <= {"type", "properties", "items", "required"}
    requires forall k | k in NamedOf(s, "properties") && k in FieldsIn(v) ::
               Valid(n, defs, NamedOf(s, "properties")[k], FieldsIn(v)[k], d)
    ensures PropertiesHold(n, defs, s, v, d)
  {
    hide Valid;
    assert forall k | k in s.fields :: k == "type" || k == "properties" || k == "items" || k == "required";
    assert "patternProperties" !in s.fields && "dependentSchemas" !in s.fields;
    assert "additionalProperties" !in s.fields && "propertyNames" !in s.fields;
  }

  lemma PlainVerdict(n: nat, defs: Defs, s: Json, v: Json, d: Dialect)
    requires s.Obj? && s.fields.Keys <= {"type", "properties", "items", "required"}
    requires "items" in s.fields ==> !s.fields["items"].Arr?
    ensures Valid(n, defs, s, v, d) <==>
              && ("type" in s.fields ==> TypeAllows(s.fields["type"], v))
              && (forall k | k in ListOf(s, "required") && k.Str? :: v.Obj? ==> k.s in v.fields)
              && (forall k | k in NamedOf(s, "properties") && k in FieldsIn(v) ::
                    Valid(n, defs, NamedOf(s, "properties")[k], FieldsIn(v)[k], d))
              && ("items" in s.fields ==> forall i | 0 <= i < |ItemsIn(v)| :: Valid(n, defs, s.fields["items"], ItemsIn(v)[i], d))
  {
    hide Valid, TypeAllows, ListOf, NamedOf;
    if Valid(n, defs, s, v, d) { PlainDemands(n, defs, s, v, d); }
    if && ("type" in s.fields ==> TypeAllows(s.fields["type"], v))
       && (forall k | k in ListOf(s, "required") && k.Str? :: v.Obj? ==> k.s in v.fields)
       && (forall k | k in NamedOf(s, "properties") && k in FieldsIn(v) ::
             Valid(n, defs, NamedOf(s, "properties")[k], FieldsIn(v)[k], d))
       && ("items" in s.fields ==> forall i | 0 <= i < |ItemsIn(v)| :: Valid(n, defs, s.fields["items"], ItemsIn(v)[i], d))
    {
      PlainSchema(n, defs, s, v, d);
    }
  }

  lemma PlainDemands(n: nat, defs: Defs, s: Json, v: Json, d: Dialect)
    requires s.Obj? && s.fields.Keys <= {"type", "properties", "items", "required"}
    requires "items" in s.fields ==> !s.fields["items"].Arr?
    requires Valid(n, defs, s, v, d)
    ensures "type" in s.fields ==> TypeAllows(s.fields["type"], v)
    ensures forall k | k in ListOf(s, "required") && k.Str? :: v.Obj? ==> k.s in v.fields
    ensures forall k | k in NamedOf(s, "properties") && k in FieldsIn(v) ::
              Valid(n, defs, NamedOf(s, "properties")[k], FieldsIn(v)[k], d)
    ensures "items" in s.fields ==> forall i | 0 <= i < |ItemsIn(v)| :: Valid(n, defs, s.fields["items"], ItemsIn(v)[i], d)
  {
    hide Valid, TypeAllows, BranchesHold, ConditionHolds, RefHolds;
    ValidObject(n, defs, s, v, d);
    assert forall k | k in s.fields :: k == "type" || k == "properties" || k == "items" || k == "required";
    NoneNamed(s, "prefixItems");
    RequiredHolds(s, v, d);
  }

  lemma RequiredHolds(s: Json, v: Json, d: Dialect)
    requires s.Obj? && SimpleHolds(s, v, d)
    ensures forall k | k in ListOf(s, "required") && k.Str? :: v.Obj? ==> k.s in v.fields
  {
    hide TypeAllows;
    if v.Obj? && "required" in s.fields {
      forall k | k in ListOf(s, "required") && k.Str? ensures k.s in v.fields {
        var i :| 0 <= i < |ListOf(s, "required")| && ListOf(s, "required")[i] == k;
      }
    }
  }

  lemma TypeVerdict(n: nat, defs: Defs, name: string, v: Json, d: Dialect)
    ensures Valid(n, defs, TypeSchema(name), v, d) <==> IsType(name, v)
  {
    hide Valid;
    NoneNamed(TypeSchema(name), "required");
    NoneNamed(TypeSchema(name), "properties");
    PlainVerdict(n, defs, TypeSchema(name), v, d);
  }

  /** What a notice must look like. */
  predicate LooksLikeNotice(v: Json) {
    && v.Obj?
    && (forall k | k in {"msg", "file"} && k in v.fields :: v.fields[k].Str?)
    && ("excluded" in v.fields ==> v.fields["excluded"].Arr? && forall i | 0 <= i < |v.fields["excluded"].items| :: v.fields["excluded"].items[i].Str?)
    && ("truncated" in v.fields ==>
          v.fields["truncated"].Arr? && forall i | 0 <= i < |v.fields["truncated"].items| :: LooksLikeCut(v.fields["truncated"].items[i]))
  }

  predicate LooksLikeCut(v: Json) {
    && v.Obj? && "path" in v.fields && v.fields["path"].Str?
    && forall k | k in {"chars", "items"} && k in v.fields :: IsType("integer", v.fields[k])
  }

  lemma CutVerdict(n: nat, defs: Defs, v: Json, d: Dialect)
    ensures Valid(n, defs, TruncatedItemsSchema().fields["items"], v, d) <==> LooksLikeCut(v)
  {
    hide Valid, IsType;
    var s := TruncatedItemsSchema().fields["items"];
    assert ListOf(s, "required") == [Str("path")];
    assert NamedOf(s, "properties") == map["path" := TypeSchema("string"), "chars" := TypeSchema("integer"), "items" := TypeSchema("integer")];
    PlainVerdict(n, defs, s, v, d);
    if v.Obj? {
      forall k | k in v.fields
        ensures Valid(n, defs, TypeSchema("string"), v.fields[k], d) <==> IsType("string", v.fields[k])
        ensures Valid(n, defs, TypeSchema("integer"), v.fields[k], d) <==> IsType("integer", v.fields[k])
      {
        TypeVerdict(n, defs, "string", v.fields[k], d);
        TypeVerdict(n, defs, "integer", v.fields[k], d);
      }
    }
    ObjectsAndTexts();
  }

  lemma ObjectsAndTexts()
    ensures forall v :: IsType("string", v) <==> v.Str?
    ensures forall v :: IsType("object", v) <==> v.Obj?
    ensures forall v :: IsType("array", v) <==> v.Arr?
  {
  }

  lemma ListVerdict(n: nat, defs: Defs, item: Json, v: Json, d: Dialect)
    requires !item.Arr?
    ensures Valid(n, defs, ListSchema(item), v, d) <==> v.Arr? && forall i | 0 <= i < |v.items| :: Valid(n, defs, item, v.items[i], d)
  {
    hide Valid, IsType;
    var s := ListSchema(item);
    NoneNamed(s, "required");
    NoneNamed(s, "properties");
    PlainVerdict(n, defs, s, v, d);
    ObjectsAndTexts();
    assert s.fields["type"] == Str("array") && s.fields["items"] == item && (v.Arr? ==> ItemsIn(v) == v.items);
    assert TypeAllows(Str("array"), v) <==> IsType("array", v);
  }

  lemma MetaParts(n: nat, defs: Defs, v: Json, d: Dialect)
    ensures Valid(n, defs, TypeSchema("string"), v, d) <==> v.Str?
    ensures Valid(n, defs, ListSchema(TypeSchema("string")), v, d) <==> v.Arr? && forall i | 0 <= i < |v.items| :: v.items[i].Str?
    ensures Valid(n, defs, TruncatedItemsSchema(), v, d) <==> v.Arr? && forall i | 0 <= i < |v.items| :: LooksLikeCut(v.items[i])
  {
    hide Valid, LooksLikeCut, IsType;
    ObjectsAndTexts();
    TypeVerdict(n, defs, "string", v, d);
    ListVerdict(n, defs, TypeSchema("string"), v, d);
    var cut := TruncatedItemsSchema().fields["items"];
    ListVerdict(n, defs, cut, v, d);
    if v.Arr? {
      forall i | 0 <= i < |v.items|
        ensures Valid(n, defs, TypeSchema("string"), v.items[i], d) <==> v.items[i].Str?
        ensures Valid(n, defs, cut, v.items[i], d) <==> LooksLikeCut(v.items[i])
      {
        TypeVerdict(n, defs, "string", v.items[i], d);
        CutVerdict(n, defs, v.items[i], d);
      }
    }
  }

  /** The schema placed for notices accepts exactly what looks like one. */
  lemma NoticeVerdict(n: nat, defs: Defs, v: Json, d: Dialect)
    ensures Valid(n, defs, MetaSchema(), v, d) <==> LooksLikeNotice(v)
    ensures Valid(n, defs, NoticeItemSchema(), v, d) <==> v.Obj? && MINI in v.fields && LooksLikeNotice(v.fields[MINI])
  {
    hide Valid, LooksLikeNotice, IsType, MetaSchema, TypeSchema, ListSchema;
    ObjectsAndTexts();
    MetaVerdict(n, defs, v, d);
    var s := NoticeItemSchema();
    assert NamedOf(s, "properties") == map[MINI := MetaSchema()] && ListOf(s, "required") == [Str(MINI)];
    PlainVerdict(n, defs, s, v, d);
    assert s.fields["type"] == Str("object") && "items" !in s.fields;
    assert TypeAllows(Str("object"), v) <==> IsType("object", v);
    assert Str(MINI) in ListOf(s, "required") && forall k | k in ListOf(s, "required") :: k == Str(MINI);
    if v.Obj? && MINI in v.fields {
      MetaVerdict(n, defs, v.fields[MINI], d);
      assert FieldsIn(v)[MINI] == v.fields[MINI] && NamedOf(s, "properties")[MINI] == MetaSchema();
    }
  }

  lemma MetaVerdict(n: nat, defs: Defs, v: Json, d: Dialect)
    ensures Valid(n, defs, MetaSchema(), v, d) <==> LooksLikeNotice(v)
  {
    hide Valid, LooksLikeCut, IsType, TruncatedItemsSchema, TypeSchema, ListSchema;
    ObjectsAndTexts();
    var s := MetaSchema();
    var properties := s.fields["properties"].fields;
    assert NamedOf(s, "properties") == properties;
    NoneNamed(s, "required");
    PlainVerdict(n, defs, s, v, d);
    if v.Obj? {
      forall k | k in v.fields
        ensures Valid(n, defs, TypeSchema("string"), v.fields[k], d) <==> v.fields[k].Str?
        ensures Valid(n, defs, ListSchema(TypeSchema("string")), v.fields[k], d)
                <==> v.fields[k].Arr? && forall i | 0 <= i < |v.fields[k].items| :: v.fields[k].items[i].Str?
        ensures Valid(n, defs, TruncatedItemsSchema(), v.fields[k], d)
                <==> v.fields[k].Arr? && forall i | 0 <= i < |v.fields[k].items| :: LooksLikeCut(v.fields[k].items[i])
      {
        MetaParts(n, defs, v.fields[k], d);
      }
      assert forall k | k in properties :: k == "msg" || k == "file" || k == "excluded" || k == "truncated";
    }
  }

  lemma TypeAccepts(n: nat, defs: Defs, name: string, v: Json, d: Dialect)
    requires IsType(name, v)
    ensures Valid(n, defs, TypeSchema(name), v, d)
  {
    hide Valid;
    PlainSchema(n, defs, TypeSchema(name), v, d);
  }

  lemma ListAccepts(n: nat, defs: Defs, item: Json, items: seq<Json>, d: Dialect)
    requires !item.Arr?
    requires forall i | 0 <= i < |items| :: Valid(n, defs, item, items[i], d)
    ensures Valid(n, defs, ListSchema(item), Arr(items), d)
  {
    hide Valid;
    PlainSchema(n, defs, ListSchema(item), Arr(items), d);
  }

  lemma ObjectAccepts(n: nat, defs: Defs, properties: map<string, Json>, fields: map<string, Json>, d: Dialect)
    requires forall k | k in properties && k in fields :: Valid(n, defs, properties[k], fields[k], d)
    ensures Valid(n, defs, ObjectSchema(properties), Obj(fields), d)
    ensures forall r: string | r in fields :: Valid(n, defs, ObjectSchemaWith(properties, r), Obj(fields), d)
  {
    hide Valid;
    var s := ObjectSchema(properties);
    assert NamedOf(s, "properties") == properties;
    PlainSchema(n, defs, s, Obj(fields), d);
    forall r: string | r in fields ensures Valid(n, defs, ObjectSchemaWith(properties, r), Obj(fields), d) {
      var s' := ObjectSchemaWith(properties, r);
      assert NamedOf(s', "properties") == properties && ListOf(s', "required") == [Str(r)];
      PlainSchema(n, defs, s', Obj(fields), d);
    }
  }

  lemma TruncationFits(n: nat, defs: Defs, t: Projection.Truncated, d: Dialect)
    ensures Valid(n, defs, TruncatedItemsSchema().fields["items"], TruncationJson(t), d)
  {
    hide Valid;
    TypeAccepts(n, defs, "string", Str(t.path), d);
    TypeAccepts(n, defs, "integer", Num(t.chars as real), d);
    TypeAccepts(n, defs, "integer", Num(t.items as real), d);
    var properties := map["path" := TypeSchema("string"), "chars" := TypeSchema("integer"), "items" := TypeSchema("integer")];
    ObjectAccepts(n, defs, properties, TruncationJson(t).fields, d);
  }

  /** Every notice the server can write satisfies the schema it places for notices. */
  lemma NoticeFits(n: nat, defs: Defs, notice: Notice, d: Dialect)
    ensures Valid(n, defs, MetaSchema(), NoticeJson(notice), d)
    ensures Valid(n, defs, NoticeItemSchema(), Obj(map[MINI := NoticeJson(notice)]), d)
  {
    hide Valid, TruncationJson, TypeSchema, TruncatedItemsSchema;
    TypeAccepts(n, defs, "string", Str(notice.msg), d);
    TypeAccepts(n, defs, "string", Str(notice.file), d);
    ExcludedFits(n, defs, notice, d);
    TruncatedFits(n, defs, notice, d);
    var properties := MetaSchema().fields["properties"].fields;
    assert MetaSchema() == ObjectSchema(properties);
    ObjectAccepts(n, defs, properties, NoticeJson(notice).fields, d);
    ObjectAccepts(n, defs, map[MINI := MetaSchema()], map[MINI := NoticeJson(notice)], d);
  }

  lemma ExcludedFits(n: nat, defs: Defs, notice: Notice, d: Dialect)
    ensures Valid(n, defs, ListSchema(TypeSchema("string")), Strings(notice.excluded), d)
  {
    hide Valid;
    forall i | 0 <= i < |notice.excluded| ensures Valid(n, defs, TypeSchema("string"), Strings(notice.excluded).items[i], d) {
      TypeAccepts(n, defs, "string", Str(notice.excluded[i]), d);
    }
    ListAccepts(n, defs, TypeSchema("string"), Strings(notice.excluded).items, d);
  }

  lemma TruncatedFits(n: nat, defs: Defs, notice: Notice, d: Dialect)
    ensures "truncated" in NoticeJson(notice).fields ==>
              Valid(n, defs, TruncatedItemsSchema(), NoticeJson(notice).fields["truncated"], d)
  {
    hide Valid, TruncationJson, TypeSchema;
    var items := seq(|notice.truncated|, i requires 0 <= i < |notice.truncated| => TruncationJson(notice.truncated[i]));
    var item := TruncatedItemsSchema().fields["items"];
    forall i | 0 <= i < |items| ensures Valid(n, defs, item, items[i], d) { TruncationFits(n, defs, notice.truncated[i], d); }
    ListAccepts(n, defs, item, items, d);
    assert TruncatedItemsSchema() == ListSchema(item);
  }

  // ---- Placing keeps values valid, with and without the notice ----

  /** A loosened schema under which a notice can be placed, in every branch: nothing in it is negated, it has
      no field of its own for notices, lists no container, lets fields be named `__mini`, and what depends on
      other fields tolerates one. */
  predicate Placeable(n: nat, defs: Defs, s: Json, d: Dialect)
    decreases s, 1
  {
    s.Obj? ==>
      && PlaceableInside(n, defs, s, d) && NamesMini(n, defs, s, d)
      && forall k | k in NamedOf(s, "dependentSchemas") :: Tolerant(n, defs, NamedOf(s, "dependentSchemas")[k], d)
  }

  /** The same but for field names and what depends on other fields of the object itself. */
  predicate PlaceableInside(n: nat, defs: Defs, s: Json, d: Dialect)
    decreases s, 0
  {
    s.Obj? ==>
      && (forall k | k in TRIM_SENSITIVE :: k !in s.fields)
      && PlainlyKeyed(s, d)
      && (forall i | 0 <= i < |ListOf(s, "anyOf")| :: Placeable(n, defs, ListOf(s, "anyOf")[i], d))
      && (forall i | 0 <= i < |ListOf(s, "allOf")| :: Placeable(n, defs, ListOf(s, "allOf")[i], d))
  }

  const VALUE_BOUND: set<string> := {"not", "if", "oneOf"}

  /** No object or array is among the values the schema lists. */
  predicate ListsScalars(s: Json) {
    && (Has(s, "enum") && s.fields["enum"].Arr? ==> forall v | v in s.fields["enum"].items :: IsScalar(v))
    && (Has(s, "const") ==> IsScalar(s.fields["const"]))
  }

  /** No rule for a particular field or pattern of fields covers `__mini`. */
  predicate SparesMini(s: Json, d: Dialect) {
    && MINI !in NamedOf(s, "properties") && MINI !in NamedOf(s, "dependentSchemas")
    && forall p | p in NamedOf(s, "patternProperties") :: !d.matches(p, MINI)
  }

  predicate PlainlyKeyed(s: Json, d: Dialect) {
    (forall k | k in VALUE_BOUND :: !Has(s, k)) && ListsScalars(s) && SparesMini(s, d)
  }

  predicate NamesMini(n: nat, defs: Defs, s: Json, d: Dialect) {
    Has(s, "propertyNames") ==> Valid(n, defs, s.fields["propertyNames"], Str(MINI), d)
  }

  /** A schema that judges an object as before when it gains a notice, although nothing is placed in it. The
      walk that places notices does not enter `dependentSchemas`. */
  predicate Tolerant(n: nat, defs: Defs, s: Json, d: Dialect)
    decreases n, s
  {
    s.Obj? ==>
      && (forall k | k in TRIM_SENSITIVE :: k !in s.fields)
      && (forall k | k in VALUE_BOUND :: k !in s.fields)
      && ListsScalars(s) && SparesMini(s, d) && NamesMini(n, defs, s, d)
      && ("additionalProperties" in s.fields ==> s.fields["additionalProperties"] == Bool(true) || s.fields["additionalProperties"] == Obj(map[]))
      && ("$ref" in s.fields && s.fields["$ref"].Str? && s.fields["$ref"].s in defs && n > 0 ==>
            Tolerant(n - 1, defs, defs[s.fields["$ref"].s], d))
      && (forall k | k in NamedOf(s, "dependentSchemas") :: Tolerant(n, defs, NamedOf(s, "dependentSchemas")[k], d))
      && (forall i | 0 <= i < |ListOf(s, "anyOf")| :: Tolerant(n, defs, ListOf(s, "anyOf")[i], d))
      && (forall i | 0 <= i < |ListOf(s, "allOf")| :: Tolerant(n, defs, ListOf(s, "allOf")[i], d))
  }

  /** A value that has gained a notice. */
  ghost predicate Gains(v: Json, x: Json, notice: Notice) {
    (MiniFree(v) || v.Arr?) && x == Carried(v, notice)
  }

  /** An object that gains a notice stays valid under a tolerant schema. */
  lemma {:induction false} TolerantAccepts(n: nat, defs: Defs, s: Json, v: Json, x: Json, notice: Notice, d: Dialect)
    requires Tolerant(n, defs, s, d) && MiniFree(v) && x == Carried(v, notice) && Valid(n, defs, s, v, d)
    ensures Valid(n, defs, s, x, d)
    decreases n, s, 1
  {
    hide Valid, SimpleHolds, PropertiesHold, ItemsHold, BranchesHold, Carried, MiniFree, RefHolds, ConditionHolds, Tolerant;
    if s.Obj? {
      ValidObject(n, defs, s, v, d);
      TolerantSimple(n, defs, s, v, x, notice, d);
      TolerantRef(n, defs, s, v, x, notice, d);
      TolerantProperties(n, defs, s, v, x, notice, d);
      TolerantBranches(n, defs, s, v, x, notice, d);
      ValidObject(n, defs, s, x, d);
    } else {
      NoObject(n, defs, s, v, x, d);
    }
  }

  lemma NoObject(n: nat, defs: Defs, s: Json, v: Json, x: Json, d: Dialect)
    requires !s.Obj?
    ensures Valid(n, defs, s, v, d) == Valid(n, defs, s, x, d)
  {
  }

  lemma TolerantSimple(n: nat, defs: Defs, s: Json, v: Json, x: Json, notice: Notice, d: Dialect)
    requires s.Obj? && Tolerant(n, defs, s, d) && MiniFree(v) && x == Carried(v, notice) && SimpleHolds(s, v, d)
    ensures SimpleHolds(s, x, d) && ConditionHolds(n, defs, s, x, d) && ItemsHold(n, defs, s, x, d)
  {
    hide ListOf, NamedOf, NoticeJson, TypeAllows, TRIM_SENSITIVE, Valid, SparesMini, NamesMini;
    assert "required" in TRIM_SENSITIVE by { CleanHasNone(Obj(map[])); }
    GainedType(v, x, notice);
    assert "not" in VALUE_BOUND && "if" in VALUE_BOUND;
    assert !IsScalar(v) && x.Obj?;
  }

  lemma {:induction false} TolerantRef(n: nat, defs: Defs, s: Json, v: Json, x: Json, notice: Notice, d: Dialect)
    requires s.Obj? && Tolerant(n, defs, s, d) && MiniFree(v) && x == Carried(v, notice) && RefHolds(n, defs, s, v, d)
    ensures RefHolds(n, defs, s, x, d)
    decreases n, s, 0
  {
    hide Valid, Carried, MiniFree, SparesMini, NamesMini;
    if "$ref" in s.fields && n > 0 { TolerantAccepts(n - 1, defs, defs[s.fields["$ref"].s], v, x, notice, d); }
  }

  lemma {:induction false} TolerantProperties(n: nat, defs: Defs, s: Json, v: Json, x: Json, notice: Notice, d: Dialect)
    requires s.Obj? && Tolerant(n, defs, s, d) && MiniFree(v) && x == Carried(v, notice) && PropertiesHold(n, defs, s, v, d)
    ensures PropertiesHold(n, defs, s, x, d)
    decreases n, s, 0
  {
    hide Valid, NoticeJson, TRIM_SENSITIVE, NamedOf, IsAdditional, ListOf, ListsScalars;
    assert forall k | k in FieldsIn(x) && k != MINI :: k in FieldsIn(v) && FieldsIn(x)[k] == FieldsIn(v)[k];
    forall y ensures Valid(n, defs, Bool(true), y, d) && Valid(n, defs, Obj(map[]), y, d) {
      TrueAccepts(n, defs, y, d);
      EmptyAccepts(n, defs, y, d);
    }
    forall k | k in NamedOf(s, "dependentSchemas") && k in FieldsIn(x)
      ensures Valid(n, defs, NamedOf(s, "dependentSchemas")[k], x, d)
    {
      SmallerNamed(s, "dependentSchemas", k);
      TolerantAccepts(n, defs, NamedOf(s, "dependentSchemas")[k], v, x, notice, d);
    }
  }

  lemma EmptyAccepts(n: nat, defs: Defs, v: Json, d: Dialect)
    ensures Valid(n, defs, Obj(map[]), v, d)
  {
    hide Valid;
    NoneNamed(Obj(map[]), "required");
    NoneNamed(Obj(map[]), "properties");
    PlainSchema(n, defs, Obj(map[]), v, d);
  }

  lemma {:induction false} TolerantBranches(n: nat, defs: Defs, s: Json, v: Json, x: Json, notice: Notice, d: Dialect)
    requires s.Obj? && Tolerant(n, defs, s, d) && MiniFree(v) && x == Carried(v, notice) && BranchesHold(n, defs, s, v, d)
    ensures BranchesHold(n, defs, s, x, d)
    decreases n, s, 0
  {
    hide Valid, Carried, MiniFree, TRIM_SENSITIVE, SparesMini, NamesMini, ListsScalars;
    assert "oneOf" in VALUE_BOUND;
    forall i | 0 <= i < |ListOf(s, "anyOf")| && Valid(n, defs, ListOf(s, "anyOf")[i], v, d)
      ensures Valid(n, defs, ListOf(s, "anyOf")[i], x, d)
    {
      TolerantAccepts(n, defs, ListOf(s, "anyOf")[i], v, x, notice, d);
    }
    forall i | 0 <= i < |ListOf(s, "allOf")| && Valid(n, defs, ListOf(s, "allOf")[i], v, d)
      ensures Valid(n, defs, ListOf(s, "allOf")[i], x, d)
    {
      TolerantAccepts(n, defs, ListOf(s, "allOf")[i], v, x, notice, d);
    }
  }

  lemma {:induction false} PlacedAccepts(n: nat, defs: Defs, s: Json, v: Json, x: Json, notice: Notice, d: Dialect)
    requires s.Obj? && Placeable(n, defs, s, d) && PlaceMini(s).Some?
    requires Gains(v, x, notice) && Valid(n, defs, s, v, d)
    ensures Valid(n, defs, PlaceMini(s).value, x, d)
    decreases s, 0, 2
  {
    hide Valid, Gains, PlaceableInside, PlaceMini;
    forall k | k in NamedOf(s, "dependentSchemas") && k in FieldsIn(v)
      ensures Valid(n, defs, NamedOf(s, "dependentSchemas")[k], x, d)
    {
      DependentAccepted(n, defs, s, v, k, d);
      GainedObject(v, x, notice);
      TolerantAccepts(n, defs, NamedOf(s, "dependentSchemas")[k], v, x, notice, d);
    }
    PlacedAcceptsIff(n, defs, s, v, x, notice, d);
  }

  lemma GainedObject(v: Json, x: Json, notice: Notice)
    requires Gains(v, x, notice) && v.Obj?
    ensures MiniFree(v) && x == Carried(v, notice)
  {
  }

  lemma DependentAccepted(n: nat, defs: Defs, s: Json, v: Json, k: string, d: Dialect)
    requires s.Obj? && Valid(n, defs, s, v, d) && k in NamedOf(s, "dependentSchemas") && k in FieldsIn(v)
    ensures Valid(n, defs, NamedOf(s, "dependentSchemas")[k], v, d)
  {
    hide Valid, SimpleHolds, ItemsHold, BranchesHold, NamedOf, IsAdditional;
    ValidObject(n, defs, s, v, d);
  }

  /** What depends on a field the value has accepts the value with the notice. */
  ghost predicate DependentsAccept(n: nat, defs: Defs, s: Json, v: Json, x: Json, d: Dialect) {
    forall k | k in NamedOf(s, "dependentSchemas") && k in FieldsIn(v) :: Valid(n, defs, NamedOf(s, "dependentSchemas")[k], x, d)
  }

  /** Where nothing else in the schema stands in the way, the value with its notice is valid under the placed
      schema exactly when an object may have a field of that name and what depends on its fields accepts it. */
  lemma {:induction false} PlacedAcceptsIff(n: nat, defs: Defs, s: Json, v: Json, x: Json, notice: Notice, d: Dialect)
    requires s.Obj? && PlaceableInside(n, defs, s, d) && PlaceMini(s).Some?
    requires Gains(v, x, notice) && Valid(n, defs, s, v, d)
    ensures Valid(n, defs, PlaceMini(s).value, x, d)
            <==> (v.Obj? ==> NamesMini(n, defs, s, d) && DependentsAccept(n, defs, s, v, x, d))
    decreases s, 0, 1
  {
    hide Valid, SimpleHolds, PropertiesHold, ItemsHold, BranchesHold, Gains, PlaceableInside, NamesMini, DependentsAccept, PlaceMini;
    var placed := PlaceMini(s).value;
    ValidObject(n, defs, s, v, d);
    PlacedFields(s);
    PlacedSimple(n, defs, s, v, x, notice, d);
    PlacedProperties(n, defs, s, v, x, notice, d);
    PlacedItems(n, defs, s, v, x, notice, d);
    PlacedBranches(n, defs, s, v, x, notice, d);
    PlacedConditions(n, defs, s, x, d);
    ValidObject(n, defs, placed, x, d);
  }

  lemma PlacedOwn(s: Json)
    requires s.Obj? && PlaceMini(s).Some?
    ensures "$ref" !in s.fields && PlaceOwn(s).Some?
    ensures forall k | k != "anyOf" && k != "allOf" ::
              (k in PlaceMini(s).value.fields <==> k in PlaceOwn(s).value.fields)
              && (k in PlaceOwn(s).value.fields ==> PlaceMini(s).value.fields[k] == PlaceOwn(s).value.fields[k])
  {
    hide Objectish, Arrayish, PlaceBranches, PlaceOwn;
  }

  /** Only these four keywords change. */
  lemma PlacedFields(s: Json)
    requires s.Obj? && PlaceMini(s).Some?
    ensures forall k | k !in {"properties", "items", "anyOf", "allOf"} ::
              (k in PlaceMini(s).value.fields <==> k in s.fields)
              && (k in s.fields ==> PlaceMini(s).value.fields[k] == s.fields[k])
    ensures "$ref" !in s.fields
  {
    hide Objectish, Arrayish, PlaceMini, MetaSchema, NoticeItemSchema, NamedOf;
    PlacedOwn(s);
  }

  lemma PlaceableHasNone(n: nat, defs: Defs, s: Json, d: Dialect)
    requires s.Obj? && PlaceableInside(n, defs, s, d)
    ensures forall k | k in VALUE_BOUND :: k !in s.fields
    ensures forall k | k in TRIM_SENSITIVE :: k !in s.fields
    ensures "required" in TRIM_SENSITIVE
    ensures ListsScalars(s) && SparesMini(s, d)
  {
    hide ListsScalars, SparesMini;
  }

  lemma GainedType(v: Json, x: Json, notice: Notice)
    requires Gains(v, x, notice)
    ensures forall types :: TypeAllows(types, v) == TypeAllows(types, x)
  {
    forall name: string ensures IsType(name, v) == IsType(name, x) {}
  }

  lemma PlacedSimple(n: nat, defs: Defs, s: Json, v: Json, x: Json, notice: Notice, d: Dialect)
    requires s.Obj? && PlaceableInside(n, defs, s, d) && PlaceMini(s).Some?
    requires Gains(v, x, notice) && SimpleHolds(s, v, d)
    ensures SimpleHolds(PlaceMini(s).value, x, d)
  {
    hide PlaceMini, ListOf, NamedOf, NoticeJson, TRIM_SENSITIVE, TypeAllows, PlaceableInside;
    PlacedFields(s);
    PlaceableHasNone(n, defs, s, d);
    GainedType(v, x, notice);
    assert !IsScalar(v);
    assert forall k | k in {"properties", "items", "anyOf", "allOf"} :: k !in TRIM_SENSITIVE by { NotDeleted(); }
    assert forall k | k in UNMODELLED :: k !in {"properties", "items", "anyOf", "allOf"};
  }

  lemma NotDeleted()
    ensures forall k | k in {"properties", "items", "anyOf", "allOf"} :: k !in TRIM_SENSITIVE
  {
  }

  lemma PlacedConditions(n: nat, defs: Defs, s: Json, x: Json, d: Dialect)
    requires s.Obj? && PlaceableInside(n, defs, s, d) && PlaceMini(s).Some?
    ensures RefHolds(n, defs, PlaceMini(s).value, x, d) && ConditionHolds(n, defs, PlaceMini(s).value, x, d)
  {
    hide PlaceMini, PlaceableInside, Valid;
    PlacedFields(s);
    PlaceableHasNone(n, defs, s, d);
    assert "not" in VALUE_BOUND && "if" in VALUE_BOUND;
    assert "$ref" !in PlaceMini(s).value.fields;
  }

  // Properties.

  lemma PlacedPropertyNames(s: Json)
    requires s.Obj? && PlaceMini(s).Some?
    ensures NamedOf(PlaceMini(s).value, "properties")
            == if Objectish(s) && MINI !in NamedOf(s, "properties") then NamedOf(s, "properties")[MINI := MetaSchema()]
               else NamedOf(s, "properties")
    ensures NamedOf(PlaceMini(s).value, "patternProperties") == NamedOf(s, "patternProperties")
    ensures NamedOf(PlaceMini(s).value, "dependentSchemas") == NamedOf(s, "dependentSchemas")
  {
    hide Objectish, Arrayish, PlaceMini, MetaSchema, NoticeItemSchema;
    PlacedOwn(s);
    OwnProperties(s);
    PlacedFields(s);
  }

  lemma OwnProperties(s: Json)
    requires s.Obj? && PlaceOwn(s).Some?
    ensures NamedOf(PlaceOwn(s).value, "properties")
            == if Objectish(s) && MINI !in NamedOf(s, "properties") then NamedOf(s, "properties")[MINI := MetaSchema()]
               else NamedOf(s, "properties")
  {
    hide Objectish, Arrayish, MetaSchema, NoticeItemSchema;
  }

  lemma AdmittedType(s: Json, v: Json)
    requires s.Obj? && ("type" in s.fields ==> TypeAllows(s.fields["type"], v))
    ensures v.Obj? ==> Objectish(s)
    ensures v.Arr? ==> Arrayish(s) || (!Has(s, "type") && !Has(s, "items") && !Has(s, "prefixItems"))
  {
  }

  lemma PlacedProperties(n: nat, defs: Defs, s: Json, v: Json, x: Json, notice: Notice, d: Dialect)
    requires s.Obj? && PlaceableInside(n, defs, s, d) && PlaceMini(s).Some?
    requires Gains(v, x, notice) && PropertiesHold(n, defs, s, v, d) && SimpleHolds(s, v, d)
    ensures PropertiesHold(n, defs, PlaceMini(s).value, x, d)
            <==> (v.Obj? ==> NamesMini(n, defs, s, d) && DependentsAccept(n, defs, s, v, x, d))
  {
    hide PlaceMini, Valid, MetaSchema, NoticeJson, TRIM_SENSITIVE, Objectish, Arrayish, NamedOf, TypeAllows, IsAdditional, ListOf;
    var placed := PlaceMini(s).value;
    PlacedFields(s);
    PlacedPropertyNames(s);
    PlaceableHasNone(n, defs, s, d);
    GainedFields(n, defs, s, v, x, notice, d);
    forall k ensures k != MINI && IsAdditional(placed, k, d) ==> IsAdditional(s, k, d) { StillAdditional(s, k, d); }
    StillAdditional(s, MINI, d);
  }

  lemma GainedFields(n: nat, defs: Defs, s: Json, v: Json, x: Json, notice: Notice, d: Dialect)
    requires s.Obj? && Gains(v, x, notice) && SimpleHolds(s, v, d)
    ensures forall k | k in FieldsIn(x) && k != MINI :: k in FieldsIn(v) && FieldsIn(x)[k] == FieldsIn(v)[k]
    ensures MINI in FieldsIn(x) ==> Objectish(s) && Valid(n, defs, MetaSchema(), FieldsIn(x)[MINI], d)
  {
    hide Valid, MetaSchema, NoticeJson, TRIM_SENSITIVE, Objectish, TypeAllows;
    AdmittedType(s, v);
    NoticeFits(n, defs, notice, d);
  }

  lemma StillAdditional(s: Json, k: string, d: Dialect)
    requires s.Obj? && PlaceMini(s).Some? && MINI !in NamedOf(s, "properties")
    ensures k != MINI && IsAdditional(PlaceMini(s).value, k, d) ==> IsAdditional(s, k, d)
    ensures Objectish(s) ==> !IsAdditional(PlaceMini(s).value, MINI, d)
  {
    hide PlaceMini, NamedOf, MetaSchema;
    PlacedPropertyNames(s);
  }

  lemma NoneNamed(s: Json, k: string)
    requires !Has(s, k)
    ensures NamedOf(s, k) == map[] && ListOf(s, k) == []
  {
  }

  // Items.

  lemma PlacedItemsOf(s: Json)
    requires s.Obj? && PlaceMini(s).Some?
    ensures var placed := PlaceMini(s).value;
            && (!Arrayish(s) || !Has(s, "items") || s.fields["items"] == Bool(true) ==>
                  (Has(placed, "items") <==> Has(s, "items")) && (Has(s, "items") ==> placed.fields["items"] == s.fields["items"]))
            && (Arrayish(s) ==> !Has(s, "prefixItems"))
            && (Arrayish(s) && Has(s, "items") && s.fields["items"] != Bool(true) ==>
                  && s.fields["items"].Obj?
                  && Has(placed, "items")
                  && placed.fields["items"] == Obj(map["anyOf" := Arr([s.fields["items"], NoticeItemSchema()])]))
  {
    hide Objectish, Arrayish, PlaceMini, MetaSchema, NoticeItemSchema, NamedOf;
    PlacedOwn(s);
  }

  lemma TrueAccepts(n: nat, defs: Defs, v: Json, d: Dialect)
    ensures Valid(n, defs, Bool(true), v, d)
  {
  }

  lemma PlacedItems(n: nat, defs: Defs, s: Json, v: Json, x: Json, notice: Notice, d: Dialect)
    requires s.Obj? && PlaceMini(s).Some?
    requires Gains(v, x, notice) && ItemsHold(n, defs, s, v, d) && SimpleHolds(s, v, d)
    ensures ItemsHold(n, defs, PlaceMini(s).value, x, d)
  {
    hide PlaceMini, Valid, MetaSchema, NoticeItemSchema, NoticeJson, TRIM_SENSITIVE, Objectish, Arrayish, TypeAllows;
    PlacedFields(s);
    PlacedItemsOf(s);
    AdmittedType(s, v);
    NoticeFits(n, defs, notice, d);
    var placed := PlaceMini(s).value;
    if x.Arr? && Arrayish(s) && Has(s, "items") {
      assert !Has(placed, "prefixItems");
      forall i | 0 <= i < |x.items| ensures Valid(n, defs, Bool(true), x.items[i], d) {
        TrueAccepts(n, defs, x.items[i], d);
      }
      if s.fields["items"].Obj? {
        assert forall i | 0 <= i < |v.items| :: Valid(n, defs, s.fields["items"], ItemsIn(v)[i], d);
        forall i | 0 <= i < |x.items| ensures Valid(n, defs, placed.fields["items"], x.items[i], d) {
          assert i < |v.items| ==> x.items[i] == ItemsIn(v)[i];
          assert i >= |v.items| ==> x.items[i] == Obj(map[MINI := NoticeJson(notice)]);
          EitherItem(n, defs, s.fields["items"], NoticeItemSchema(), x.items[i], d);
        }
      }
    }
  }

  lemma EitherItem(n: nat, defs: Defs, a: Json, b: Json, v: Json, d: Dialect)
    requires Valid(n, defs, a, v, d) || Valid(n, defs, b, v, d)
    ensures Valid(n, defs, Obj(map["anyOf" := Arr([a, b])]), v, d)
  {
    hide Valid;
    WrappedBranches(n, defs, Arr([a, b]), v, d);
    assert [a, b][0] == a && [a, b][1] == b;
  }

  // Branches.

  lemma PlacedParts(s: Json)
    requires s.Obj? && PlaceMini(s).Some?
    ensures PlaceOwn(s).Some?
    ensures PlaceBranches(s, ListOf(s, "anyOf")).Some? && PlaceBranches(s, ListOf(s, "allOf")).Some?
    ensures PlaceMini(s).value
            == WithBranches(WithBranches(PlaceOwn(s).value, s, "anyOf", PlaceBranches(s, ListOf(s, "anyOf")).value),
                            s, "allOf", PlaceBranches(s, ListOf(s, "allOf")).value)
  {
    hide Objectish, Arrayish, PlaceOwn, PlaceBranches, WithBranches, ListOf;
  }

  lemma OwnKeepsLists(s: Json)
    requires s.Obj? && PlaceOwn(s).Some?
    ensures forall k | k in {"anyOf", "allOf"} ::
              (k in PlaceOwn(s).value.fields <==> k in s.fields)
              && (k in s.fields ==> PlaceOwn(s).value.fields[k] == s.fields[k])
  {
    hide Objectish, Arrayish, MetaSchema, NoticeItemSchema, NamedOf;
  }

  lemma PlacedLists(s: Json)
    requires s.Obj? && PlaceMini(s).Some?
    ensures PlaceBranches(s, ListOf(s, "anyOf")).Some? && PlaceBranches(s, ListOf(s, "allOf")).Some?
    ensures ListOf(PlaceMini(s).value, "anyOf") == PlaceBranches(s, ListOf(s, "anyOf")).value
    ensures ListOf(PlaceMini(s).value, "allOf") == PlaceBranches(s, ListOf(s, "allOf")).value
    ensures Has(PlaceMini(s).value, "anyOf") && PlaceMini(s).value.fields["anyOf"].Arr? <==>
              Has(s, "anyOf") && s.fields["anyOf"].Arr?
  {
    hide PlaceMini, PlaceOwn, PlaceBranches;
    PlacedParts(s);
    OwnKeepsLists(s);
  }

  lemma {:induction false} PlacedBranches(n: nat, defs: Defs, s: Json, v: Json, x: Json, notice: Notice, d: Dialect)
    requires s.Obj? && PlaceableInside(n, defs, s, d) && PlaceMini(s).Some?
    requires Gains(v, x, notice) && BranchesHold(n, defs, s, v, d)
    ensures BranchesHold(n, defs, PlaceMini(s).value, x, d)
    decreases s, 0, 0
  {
    hide PlaceMini, Valid, Gains, TRIM_SENSITIVE, PlainlyKeyed, ListOf;
    PlacedLists(s);
    PlacedFields(s);
    PlaceableHasNone(n, defs, s, d);
    assert "oneOf" in VALUE_BOUND;
    var any, all := ListOf(s, "anyOf"), ListOf(s, "allOf");
    forall i | 0 <= i < |any| && Valid(n, defs, any[i], v, d)
      ensures Valid(n, defs, ListOf(PlaceMini(s).value, "anyOf")[i], x, d)
    {
      PlacedBranchAccepts(n, defs, any[i], v, x, notice, d);
    }
    forall i | 0 <= i < |all| && Valid(n, defs, all[i], v, d)
      ensures Valid(n, defs, ListOf(PlaceMini(s).value, "allOf")[i], x, d)
    {
      PlacedBranchAccepts(n, defs, all[i], v, x, notice, d);
    }
  }

  lemma {:induction false} PlacedBranchAccepts(n: nat, defs: Defs, b: Json, v: Json, x: Json, notice: Notice, d: Dialect)
    requires Placeable(n, defs, b, d) && PlaceBranch(b).Some?
    requires Gains(v, x, notice) && Valid(n, defs, b, v, d)
    ensures Valid(n, defs, PlaceBranch(b).value, x, d)
    decreases b, 1
  {
    if !b.Obj? {
    } else {
      BranchAdmits(n, defs, b, v, d);
      hide Valid, Placeable, Gains, PlaceMini;
      assert Objectish(b) || Arrayish(b) || PlaceBranch(b) == Some(b);
      PlacedAccepts(n, defs, b, v, x, notice, d);
    }
  }

  lemma BranchAdmits(n: nat, defs: Defs, b: Json, v: Json, d: Dialect)
    requires b.Obj? && Valid(n, defs, b, v, d) && (v.Obj? || v.Arr?)
    ensures Objectish(b) || Arrayish(b)
  {
    hide Objectish, Arrayish, TypeAllows, TRIM_SENSITIVE;
    AdmittedType(b, v);
    assert !Has(b, "type") ==> Objectish(b) by { Untyped(b); }
  }

  lemma Untyped(b: Json)
    ensures !Has(b, "type") ==> Objectish(b)
  {
  }

  // ---- Placing changes nothing for a value without a notice ----

  /** Neither the value, if it is an object, nor an item of it has a field for notices. */
  predicate NoNotice(v: Json) {
    && (v.Obj? ==> MINI !in v.fields)
    && (v.Arr? ==> forall i | 0 <= i < |v.items| :: v.items[i].Obj? ==> MINI !in v.items[i].fields)
  }

  /** The verdict on a value that carries no notice is the same before and after. */
  lemma {:induction false} PlacedKeepsVerdict(n: nat, defs: Defs, s: Json, v: Json, d: Dialect)
    requires s.Obj? && PlaceableInside(n, defs, s, d) && PlaceMini(s).Some? && NoNotice(v)
    ensures Valid(n, defs, PlaceMini(s).value, v, d) <==> Valid(n, defs, s, v, d)
    decreases s, 0, 1
  {
    hide Valid, SimpleHolds, PropertiesHold, ItemsHold, BranchesHold, PlaceableInside, PlaceMini, NoNotice;
    var placed := PlaceMini(s).value;
    ValidObject(n, defs, s, v, d);
    ValidObject(n, defs, placed, v, d);
    PlacedConditions(n, defs, s, v, d);
    UnplacedConditions(n, defs, s, v, d);
    SameSimple(n, defs, s, v, d);
    if SimpleHolds(s, v, d) { SameProperties(n, defs, s, v, d); }
    SameItems(n, defs, s, v, d);
    SameBranches(n, defs, s, v, d);
  }

  lemma UnplacedConditions(n: nat, defs: Defs, s: Json, v: Json, d: Dialect)
    requires s.Obj? && PlaceableInside(n, defs, s, d) && PlaceMini(s).Some?
    ensures RefHolds(n, defs, s, v, d) && ConditionHolds(n, defs, s, v, d)
  {
    hide PlaceMini, PlaceableInside, Valid;
    PlacedFields(s);
    PlaceableHasNone(n, defs, s, d);
    assert "not" in VALUE_BOUND && "if" in VALUE_BOUND;
  }

  lemma SameSimple(n: nat, defs: Defs, s: Json, v: Json, d: Dialect)
    requires s.Obj? && PlaceableInside(n, defs, s, d) && PlaceMini(s).Some?
    ensures SimpleHolds(PlaceMini(s).value, v, d) <==> SimpleHolds(s, v, d)
  {
    hide PlaceMini, ListOf, NamedOf, TRIM_SENSITIVE, TypeAllows, PlaceableInside;
    PlacedFields(s);
    PlaceableHasNone(n, defs, s, d);
    NotDeleted();
    assert forall k | k in UNMODELLED :: k !in {"properties", "items", "anyOf", "allOf"};
  }

  lemma SameProperties(n: nat, defs: Defs, s: Json, v: Json, d: Dialect)
    requires s.Obj? && PlaceableInside(n, defs, s, d) && PlaceMini(s).Some? && NoNotice(v)
    ensures PropertiesHold(n, defs, PlaceMini(s).value, v, d) <==> PropertiesHold(n, defs, s, v, d)
  {
    hide PlaceMini, Valid, MetaSchema, TRIM_SENSITIVE, Objectish, Arrayish, NamedOf, IsAdditional, ListOf;
    var placed := PlaceMini(s).value;
    PlacedFields(s);
    PlacedPropertyNames(s);
    PlaceableHasNone(n, defs, s, d);
    forall k | k != MINI ensures IsAdditional(placed, k, d) <==> IsAdditional(s, k, d) { SameAdditional(s, k, d); }
  }

  lemma SameAdditional(s: Json, k: string, d: Dialect)
    requires s.Obj? && PlaceMini(s).Some? && MINI !in NamedOf(s, "properties") && k != MINI
    ensures IsAdditional(PlaceMini(s).value, k, d) <==> IsAdditional(s, k, d)
  {
    hide PlaceMini, NamedOf, MetaSchema;
    PlacedPropertyNames(s);
  }

  lemma SameItems(n: nat, defs: Defs, s: Json, v: Json, d: Dialect)
    requires s.Obj? && PlaceMini(s).Some? && NoNotice(v)
    ensures ItemsHold(n, defs, PlaceMini(s).value, v, d) <==> ItemsHold(n, defs, s, v, d)
  {
    hide PlaceMini, Valid, ItemsHold, ItemHolds;
    var placed := PlaceMini(s).value;
    ItemByItem(n, defs, s, v, d);
    ItemByItem(n, defs, placed, v, d);
    forall i | 0 <= i < |ItemsIn(v)| ensures ItemHolds(n, defs, placed, v, i, d) <==> ItemHolds(n, defs, s, v, i, d) {
      SameItem(n, defs, s, v, i, d);
    }
  }

  lemma SameItem(n: nat, defs: Defs, s: Json, v: Json, i: nat, d: Dialect)
    requires s.Obj? && PlaceMini(s).Some? && NoNotice(v) && i < |ItemsIn(v)|
    ensures ItemHolds(n, defs, PlaceMini(s).value, v, i, d) <==> ItemHolds(n, defs, s, v, i, d)
  {
    hide PlaceMini, Valid, NoticeItemSchema, Arrayish;
    PlacedFields(s);
    PlacedItemsOf(s);
    ItemVerdict(n, defs, if Has(s, "items") then s.fields["items"] else s, ItemsIn(v)[i], d);
  }

  lemma ItemVerdict(n: nat, defs: Defs, item: Json, v: Json, d: Dialect)
    requires v.Obj? ==> MINI !in v.fields
    ensures Valid(n, defs, Obj(map["anyOf" := Arr([item, NoticeItemSchema()])]), v, d) <==> Valid(n, defs, item, v, d)
  {
    hide Valid, NoticeItemSchema, LooksLikeNotice;
    var branches := [item, NoticeItemSchema()];
    WrappedBranches(n, defs, Arr(branches), v, d);
    NoticeVerdict(n, defs, v, d);
    assert branches[0] == item && branches[1] == NoticeItemSchema();
  }

  lemma {:induction false} SameBranches(n: nat, defs: Defs, s: Json, v: Json, d: Dialect)
    requires s.Obj? && PlaceableInside(n, defs, s, d) && PlaceMini(s).Some? && NoNotice(v)
    ensures BranchesHold(n, defs, PlaceMini(s).value, v, d) <==> BranchesHold(n, defs, s, v, d)
    decreases s, 0, 0
  {
    hide PlaceMini, Valid, TRIM_SENSITIVE, PlainlyKeyed, ListOf, NoNotice;
    PlacedLists(s);
    PlacedFields(s);
    PlaceableHasNone(n, defs, s, d);
    assert "oneOf" in VALUE_BOUND;
    var placed, any, all := PlaceMini(s).value, ListOf(s, "anyOf"), ListOf(s, "allOf");
    forall i | 0 <= i < |any|
      ensures Valid(n, defs, ListOf(placed, "anyOf")[i], v, d) <==> Valid(n, defs, any[i], v, d)
    {
      SameBranchVerdict(n, defs, any[i], v, d);
    }
    forall i | 0 <= i < |all|
      ensures Valid(n, defs, ListOf(placed, "allOf")[i], v, d) <==> Valid(n, defs, all[i], v, d)
    {
      SameBranchVerdict(n, defs, all[i], v, d);
    }
  }

  lemma {:induction false} SameBranchVerdict(n: nat, defs: Defs, b: Json, v: Json, d: Dialect)
    requires Placeable(n, defs, b, d) && PlaceBranch(b).Some? && NoNotice(v)
    ensures Valid(n, defs, PlaceBranch(b).value, v, d) <==> Valid(n, defs, b, v, d)
    decreases b, 1
  {
    hide Valid, PlaceableInside, PlaceMini, NoNotice, Objectish, Arrayish;
    if b.Obj? && (Objectish(b) || Arrayish(b)) { PlacedKeepsVerdict(n, defs, b, v, d); }
  }

  /** A plain object schema gets exactly one more property. */
  lemma PlacedOnPlainObject(s: Json)
    requires s.Obj? && Has(s, "type") && s.fields["type"] == Str("object")
    requires !Has(s, "$ref") && !Has(s, "anyOf") && !Has(s, "allOf") && MINI !in NamedOf(s, "properties")
    ensures PlaceMini(s) == Some(Obj(s.fields["properties" := Obj(NamedOf(s, "properties")[MINI := MetaSchema()])]))
  {
    hide MetaSchema, NoticeItemSchema, NamedOf;
    NoneNamed(s, "anyOf");
    NoneNamed(s, "allOf");
    assert "object" != "array";
    NothingToPlace(s);
  }

  lemma NothingToPlace(s: Json)
    ensures PlaceBranches(s, []) == Some([])
  {
  }

  // ---- Placing accepts whatever was accepted, whichever keywords there are ----

  /** The schema has a property `__mini` of its own wherever it admits an object, except in a branch of
      `oneOf` that loosening has to wrap because there is an `anyOf` as well. */
  predicate DeclaresMini(s: Json) {
    s.Obj? && Objectish(s) ==>
      && MINI in NamedOf(s, "properties")
      && !("anyOf" in s.fields && "oneOf" in s.fields)
      && (forall i | 0 <= i < |ListOf(s, "anyOf")| :: DeclaresMini(ListOf(s, "anyOf")[i]))
      && (forall i | 0 <= i < |ListOf(s, "allOf")| :: DeclaresMini(ListOf(s, "allOf")[i]))
      && (forall i | 0 <= i < |ListOf(s, "oneOf")| :: DeclaresMini(ListOf(s, "oneOf")[i]))
  }

  predicate OwnMini(s: Json, v: Json) { MINI in FieldsIn(v) ==> DeclaresMini(s) }

  /** The placed schema accepts, as it stands, whatever the schema accepted: a value without a field
      `__mini`, or with one that the schema declares itself. */
  lemma {:induction false} PlacedStillAccepts(n: nat, defs: Defs, s: Json, v: Json, d: Dialect)
    requires s.Obj? && Clean(s) && PlaceMini(s).Some?
    requires OwnMini(s, v) && Valid(n, defs, s, v, d)
    ensures Valid(n, defs, PlaceMini(s).value, v, d)
    decreases s, 0, 1
  {
    hide Valid, SimpleHolds, PropertiesHold, ItemsHold, BranchesHold, Clean, PlaceMini, OwnMini;
    var placed := PlaceMini(s).value;
    ValidObject(n, defs, s, v, d);
    PlacedFields(s);
    StillSimple(s, v, d);
    StillConditions(n, defs, s, v, d);
    StillProperties(n, defs, s, v, d);
    StillItems(n, defs, s, v, d);
    StillBranches(n, defs, s, v, d);
    ValidObject(n, defs, placed, v, d);
  }

  lemma StillSimple(s: Json, v: Json, d: Dialect)
    requires s.Obj? && Clean(s) && PlaceMini(s).Some? && SimpleHolds(s, v, d)
    ensures SimpleHolds(PlaceMini(s).value, v, d)
  {
    hide PlaceMini, ListOf, NamedOf, TRIM_SENSITIVE, TypeAllows, SUBSCHEMA_KEYS, SUBSCHEMA_MAP_KEYS;
    PlacedFields(s);
    CleanHasNone(s);
    NotDeleted();
    assert forall k | k in UNMODELLED :: k !in {"properties", "items", "anyOf", "allOf"};
  }

  lemma CleanHasNone(s: Json)
    requires s.Obj? && Clean(s)
    ensures (forall k | k in TRIM_SENSITIVE :: k !in s.fields) && "required" in TRIM_SENSITIVE && "oneOf" !in s.fields
  {
  }

  lemma StillConditions(n: nat, defs: Defs, s: Json, v: Json, d: Dialect)
    requires s.Obj? && PlaceMini(s).Some? && ConditionHolds(n, defs, s, v, d)
    ensures RefHolds(n, defs, PlaceMini(s).value, v, d) && ConditionHolds(n, defs, PlaceMini(s).value, v, d)
  {
    hide PlaceMini, Valid;
    PlacedFields(s);
    assert "$ref" !in PlaceMini(s).value.fields;
  }

  lemma StillProperties(n: nat, defs: Defs, s: Json, v: Json, d: Dialect)
    requires s.Obj? && PlaceMini(s).Some? && OwnMini(s, v)
    requires PropertiesHold(n, defs, s, v, d) && SimpleHolds(s, v, d)
    ensures PropertiesHold(n, defs, PlaceMini(s).value, v, d)
  {
    hide PlaceMini, Valid, MetaSchema, TRIM_SENSITIVE, Objectish, Arrayish, NamedOf, TypeAllows, IsAdditional, ListOf, SimpleHolds;
    var placed := PlaceMini(s).value;
    PlacedFields(s);
    PlacedPropertyNames(s);
    AdmittedType(s, v) by { SimpleType(s, v, d); }
    forall k ensures IsAdditional(placed, k, d) ==> IsAdditional(s, k, d) { AdditionalBefore(s, k, d); }
  }

  lemma AdditionalBefore(s: Json, k: string, d: Dialect)
    requires s.Obj? && PlaceMini(s).Some?
    ensures IsAdditional(PlaceMini(s).value, k, d) ==> IsAdditional(s, k, d)
  {
    hide PlaceMini, NamedOf, MetaSchema, Objectish;
    PlacedPropertyNames(s);
  }

  lemma StillItems(n: nat, defs: Defs, s: Json, v: Json, d: Dialect)
    requires s.Obj? && PlaceMini(s).Some? && ItemsHold(n, defs, s, v, d)
    ensures ItemsHold(n, defs, PlaceMini(s).value, v, d)
  {
    hide PlaceMini, Valid, MetaSchema, NoticeItemSchema, TRIM_SENSITIVE, Objectish, Arrayish, TypeAllows;
    PlacedFields(s);
    PlacedItemsOf(s);
    var placed := PlaceMini(s).value;
    if Arrayish(s) && Has(s, "items") && s.fields["items"] != Bool(true) {
      assert !Has(placed, "prefixItems");
      forall i | 0 <= i < |ItemsIn(v)| ensures Valid(n, defs, placed.fields["items"], ItemsIn(v)[i], d) {
        EitherItem(n, defs, s.fields["items"], NoticeItemSchema(), ItemsIn(v)[i], d);
      }
    }
  }

  lemma {:induction false} StillBranches(n: nat, defs: Defs, s: Json, v: Json, d: Dialect)
    requires s.Obj? && Clean(s) && PlaceMini(s).Some?
    requires OwnMini(s, v) && BranchesHold(n, defs, s, v, d) && SimpleHolds(s, v, d)
    ensures BranchesHold(n, defs, PlaceMini(s).value, v, d)
    decreases s, 0, 0
  {
    hide PlaceMini, PlaceBranches, PlaceBranch, Valid, OwnMini, Clean, SimpleHolds, ListOf, TypeAllows;
    PlacedLists(s);
    PlacedFields(s);
    CleanHasNone(s);
    CleanBranches(s);
    SimpleType(s, v, d);
    OwnMiniBranches(s, v);
    var any, all := ListOf(s, "anyOf"), ListOf(s, "allOf");
    forall i | 0 <= i < |any| && Valid(n, defs, any[i], v, d)
      ensures Valid(n, defs, ListOf(PlaceMini(s).value, "anyOf")[i], v, d)
    {
      StillBranch(n, defs, any[i], v, d);
    }
    forall i | 0 <= i < |all| && Valid(n, defs, all[i], v, d)
      ensures Valid(n, defs, ListOf(PlaceMini(s).value, "allOf")[i], v, d)
    {
      StillBranch(n, defs, all[i], v, d);
    }
  }

  lemma SimpleType(s: Json, v: Json, d: Dialect)
    requires s.Obj? && SimpleHolds(s, v, d)
    ensures "type" in s.fields ==> TypeAllows(s.fields["type"], v)
  {
  }

  lemma CleanBranches(s: Json)
    requires s.Obj? && Clean(s)
    ensures forall i | 0 <= i < |ListOf(s, "anyOf")| :: Clean(ListOf(s, "anyOf")[i])
    ensures forall i | 0 <= i < |ListOf(s, "allOf")| :: Clean(ListOf(s, "allOf")[i])
  {
    hide TRIM_SENSITIVE, SUBSCHEMA_MAP_KEYS;
    assert "anyOf" in SUBSCHEMA_KEYS && "allOf" in SUBSCHEMA_KEYS;
    assert "anyOf" in s.fields ==> Clean(s.fields["anyOf"]);
    assert "allOf" in s.fields ==> Clean(s.fields["allOf"]);
  }

  lemma OwnMiniBranches(s: Json, v: Json)
    requires s.Obj? && OwnMini(s, v) && ("type" in s.fields ==> TypeAllows(s.fields["type"], v))
    ensures forall i | 0 <= i < |ListOf(s, "anyOf")| :: OwnMini(ListOf(s, "anyOf")[i], v)
    ensures forall i | 0 <= i < |ListOf(s, "allOf")| :: OwnMini(ListOf(s, "allOf")[i], v)
  {
    hide Objectish, TypeAllows, ListOf, NamedOf;
    AdmittedType(s, v);
  }

  lemma {:induction false} StillBranch(n: nat, defs: Defs, b: Json, v: Json, d: Dialect)
    requires Clean(b) && PlaceBranch(b).Some? && OwnMini(b, v) && Valid(n, defs, b, v, d)
    ensures Valid(n, defs, PlaceBranch(b).value, v, d)
    decreases b, 1
  {
    hide Valid, Clean, PlaceMini, OwnMini, Objectish, Arrayish;
    if b.Obj? && (Objectish(b) || Arrayish(b)) { PlacedStillAccepts(n, defs, b, v, d); }
  }

  lemma {:induction false} LoosenedDeclares(s: Json)
    requires DeclaresMini(s)
    ensures DeclaresMini(Loosen(s))
    decreases s
  {
    if s.Obj? {
      SameObjectish(s);
      if Objectish(s) {
        hide Loosen, NamedOf, ListOf, Objectish;
        forall i | 0 <= i < |ListOf(s, "anyOf")| ensures DeclaresMini(Loosen(ListOf(s, "anyOf")[i])) {
          LoosenedDeclares(ListOf(s, "anyOf")[i]);
        }
        forall i | 0 <= i < |ListOf(s, "allOf")| ensures DeclaresMini(Loosen(ListOf(s, "allOf")[i])) {
          LoosenedDeclares(ListOf(s, "allOf")[i]);
        }
        forall i | 0 <= i < |ListOf(s, "oneOf")| ensures DeclaresMini(Loosen(ListOf(s, "oneOf")[i])) {
          LoosenedDeclares(ListOf(s, "oneOf")[i]);
        }
        hide DeclaresMini;
        LoosenedLists(s);
        LoosenedNamed(s, "properties");
        DeclaredParts(Loosen(s));
      }
    } else {
      assert !Loosen(s).Obj?;
    }
  }

  lemma SameObjectish(s: Json)
    requires s.Obj?
    ensures Loosen(s).Obj? && (Objectish(Loosen(s)) <==> Objectish(s))
  {
    hide Loosen;
    Untouched(s, "type");
  }

  /** Without both, the branches of `anyOf` or `oneOf` become those of `anyOf`. */
  lemma LoosenedLists(s: Json)
    requires s.Obj? && !("anyOf" in s.fields && "oneOf" in s.fields)
    ensures Loosen(s).Obj? && "oneOf" !in Loosen(s).fields
    ensures ListOf(Loosen(s), "allOf") == LoosenAll(ListOf(s, "allOf"))
    ensures ListOf(Loosen(s), "anyOf") == LoosenAll(ListOf(s, if "oneOf" in s.fields then "oneOf" else "anyOf"))
  {
    hide Loosen;
    LoosenedBranches(s);
    LoosenKeepsShape(s);
  }

  lemma DeclaredParts(s: Json)
    requires s.Obj? && MINI in NamedOf(s, "properties") && "oneOf" !in s.fields
    requires forall i | 0 <= i < |ListOf(s, "anyOf")| :: DeclaresMini(ListOf(s, "anyOf")[i])
    requires forall i | 0 <= i < |ListOf(s, "allOf")| :: DeclaresMini(ListOf(s, "allOf")[i])
    ensures DeclaresMini(s)
  {
    hide Objectish, NamedOf;
    NoneNamed(s, "oneOf");
  }

  // ---- From the upstream's schema to the listed one ----

  /** What the upstream's schema has to be for the notice to fit, in every branch: once loosened, it is
      placeable. `defs` are the loosened definitions. */
  predicate NoticeReady(n: nat, defs: Defs, s: Json, d: Dialect)
    decreases s
  {
    s.Obj? ==>
      && (forall k | k in VALUE_BOUND && k != "oneOf" :: k !in s.fields)
      && ListsScalars(s) && SparesMini(s, d)
      && ("propertyNames" in s.fields ==> Valid(n, defs, Loosen(s.fields["propertyNames"]), Str(MINI), d))
      && (forall k | k in NamedOf(s, "dependentSchemas") :: Tolerant(n, defs, Loosen(NamedOf(s, "dependentSchemas")[k]), d))
      && (forall i | 0 <= i < |ListOf(s, "anyOf")| :: NoticeReady(n, defs, ListOf(s, "anyOf")[i], d))
      && (forall i | 0 <= i < |ListOf(s, "allOf")| :: NoticeReady(n, defs, ListOf(s, "allOf")[i], d))
      && (forall i | 0 <= i < |ListOf(s, "oneOf")| :: NoticeReady(n, defs, ListOf(s, "oneOf")[i], d))
  }

  /** The same however many references may be followed, from some number on. */
  ghost predicate TakesNotice(schema: Json, d: Dialect) {
    exists enough: nat :: ReadyFrom(enough, schema, d)
  }

  ghost predicate ReadyFrom(enough: nat, schema: Json, d: Dialect) {
    forall n: nat | enough <= n :: NoticeReady(n, DefsOf(Loosen(schema)), schema, d)
  }

  lemma {:induction false} LoosenedIsPlaceable(n: nat, defs: Defs, s: Json, d: Dialect)
    requires NoticeReady(n, defs, s, d)
    ensures Placeable(n, defs, Loosen(s), d)
    decreases s
  {
    if s.Obj? {
      hide Loosen, Placeable, NamedOf, ListOf;
      forall i | 0 <= i < |ListOf(s, "anyOf")| ensures Placeable(n, defs, Loosen(ListOf(s, "anyOf")[i]), d) {
        LoosenedIsPlaceable(n, defs, ListOf(s, "anyOf")[i], d);
      }
      forall i | 0 <= i < |ListOf(s, "allOf")| ensures Placeable(n, defs, Loosen(ListOf(s, "allOf")[i]), d) {
        LoosenedIsPlaceable(n, defs, ListOf(s, "allOf")[i], d);
      }
      forall i | 0 <= i < |ListOf(s, "oneOf")| ensures Placeable(n, defs, Loosen(ListOf(s, "oneOf")[i]), d) {
        LoosenedIsPlaceable(n, defs, ListOf(s, "oneOf")[i], d);
      }
      LoosenedKeys(n, defs, s, d);
      LoosenedAnyOf(n, defs, s, d);
      LoosenedAllOf(n, defs, s, d);
      PlaceableParts(n, defs, Loosen(s), d);
    } else {
      assert !Loosen(s).Obj?;
    }
  }

  ghost predicate AllPlaceable(n: nat, defs: Defs, branches: seq<Json>, d: Dialect) {
    forall i | 0 <= i < |branches| :: Placeable(n, defs, branches[i], d)
  }

  lemma PlaceableParts(n: nat, defs: Defs, s: Json, d: Dialect)
    requires s.Obj? && (forall k | k in TRIM_SENSITIVE :: k !in s.fields) && PlainlyKeyed(s, d) && NamesMini(n, defs, s, d)
    requires forall k | k in NamedOf(s, "dependentSchemas") :: Tolerant(n, defs, NamedOf(s, "dependentSchemas")[k], d)
    requires AllPlaceable(n, defs, ListOf(s, "anyOf"), d) && AllPlaceable(n, defs, ListOf(s, "allOf"), d)
    ensures Placeable(n, defs, s, d)
  {
    hide TRIM_SENSITIVE, PlainlyKeyed;
  }

  lemma LoosenedKeys(n: nat, defs: Defs, s: Json, d: Dialect)
    requires s.Obj? && NoticeReady(n, defs, s, d)
    ensures Loosen(s).Obj? && (forall k | k in TRIM_SENSITIVE :: k !in Loosen(s).fields) && PlainlyKeyed(Loosen(s), d)
    ensures NamesMini(n, defs, Loosen(s), d)
    ensures forall k | k in NamedOf(Loosen(s), "dependentSchemas") :: Tolerant(n, defs, NamedOf(Loosen(s), "dependentSchemas")[k], d)
  {
    hide Loosen, ListOf, NamedOf;
    LoosenedNamed(s, "properties");
    LoosenedNamed(s, "patternProperties");
    forall k ensures k in TRIM_SENSITIVE ==> k !in Loosen(s).fields { LoosenedField(s, k); }
    LoosenedNamed(s, "dependentSchemas");
    LoosenedSubschema(s, "propertyNames");
    forall k | k in VALUE_BOUND ensures k !in Loosen(s).fields { LoosenedField(s, k); }
    Untouched(s, "enum");
    Untouched(s, "const");
  }

  lemma LoosenedAnyOf(n: nat, defs: Defs, s: Json, d: Dialect)
    requires s.Obj? && AllPlaceable(n, defs, LoosenAll(ListOf(s, "anyOf")), d) && AllPlaceable(n, defs, LoosenAll(ListOf(s, "oneOf")), d)
    ensures Loosen(s).Obj? && AllPlaceable(n, defs, ListOf(Loosen(s), "anyOf"), d)
  {
    hide Loosen, Placeable;
    LoosenedBranches(s);
    LoosenKeepsShape(s);
  }

  lemma LoosenedAllOf(n: nat, defs: Defs, s: Json, d: Dialect)
    requires s.Obj? && AllPlaceable(n, defs, LoosenAll(ListOf(s, "allOf")), d) && AllPlaceable(n, defs, LoosenAll(ListOf(s, "oneOf")), d)
    ensures Loosen(s).Obj? && AllPlaceable(n, defs, ListOf(Loosen(s), "allOf"), d)
  {
    hide Loosen, Placeable;
    LoosenedBranches(s);
    LoosenKeepsShape(s);
    if "oneOf" in s.fields && "anyOf" in s.fields {
      var branches := Loosen(s.fields["oneOf"]);
      assert branches.Arr? ==> branches.items == LoosenAll(ListOf(s, "oneOf"));
      WrappedIsPlaceable(n, defs, branches, d);
    }
  }

  lemma WrappedIsPlaceable(n: nat, defs: Defs, branches: Json, d: Dialect)
    requires branches.Arr? ==> AllPlaceable(n, defs, branches.items, d)
    ensures Placeable(n, defs, Obj(map["anyOf" := branches]), d)
  {
    hide Placeable;
    var s := Obj(map["anyOf" := branches]);
    assert forall k | k in s.fields :: k == "anyOf";
    NotDeleted();
    assert ListOf(s, "anyOf") == if branches.Arr? then branches.items else [];
    NoneNamed(s, "allOf");
    NoneNamed(s, "properties");
    NoneNamed(s, "patternProperties");
    assert "anyOf" !in VALUE_BOUND;
    PlaceableParts(n, defs, s, d);
  }

  lemma PlacedSameDefs(s: Json)
    requires s.Obj? && PlaceMini(s).Some?
    ensures DefsOf(PlaceMini(s).value) == DefsOf(s)
  {
    hide PlaceMini, Entries;
    PlacedFields(s);
    assert NamedOf(PlaceMini(s).value, "$defs") == NamedOf(s, "$defs");
    assert NamedOf(PlaceMini(s).value, "definitions") == NamedOf(s, "definitions");
  }

  /** The type-only schema asks for no more than the type, which a trim and a notice keep. */
  lemma LooseAccepts(n: nat, defs: Defs, s: Json, v: Json, x: Json, d: Dialect)
    requires s.Obj? && SimpleHolds(s, v, d) && forall types :: TypeAllows(types, v) == TypeAllows(types, x)
    ensures Valid(n, defs, LooseOutputSchema(s), x, d)
  {
    hide Valid, TypeAllows, ListOf, TRIM_SENSITIVE;
    var loose := LooseOutputSchema(s);
    NoneNamed(loose, "required");
    NoneNamed(loose, "properties");
    PlainSchema(n, defs, loose, x, d);
  }

  /** And of no others. */
  lemma LooseVerdict(n: nat, defs: Defs, s: Json, v: Json, d: Dialect)
    requires s.Obj?
    ensures Valid(n, defs, LooseOutputSchema(s), v, d) <==> ("type" in s.fields ==> TypeAllows(s.fields["type"], v))
  {
    hide Valid, TypeAllows;
    var loose := LooseOutputSchema(s);
    NoneNamed(loose, "required");
    NoneNamed(loose, "properties");
    PlainVerdict(n, defs, loose, v, d);
  }

  /** Whether the schema the proxy lists is the loosened one with the notice placed, rather than its type only. */
  predicate ListsPlaced(schema: Json) {
    schema.Obj? && HasKnownDialect(schema) && !NegationRefersOut(schema) && Loosen(schema).Obj? && PlaceMini(Loosen(schema)).Some?
  }

  /** Then it judges a value without a notice exactly as the upstream's schema does leniently, if nothing in the
      schema stands in the notice's way; otherwise it asks for the type only. */
  lemma ListedVerdict(n: nat, schema: Json, v: Json, d: Dialect)
    requires schema.Obj?
    ensures var listed := ProxyOutputSchema(Some(schema));
            && listed.Some?
            && (ListsPlaced(schema) && NoNotice(v) && NoticeReady(n, DefsOf(Loosen(schema)), schema, d) ==>
                  (Valid(n, DefsOf(listed.value), listed.value, v, d) <==> Lenient(n, DefsOf(schema), schema, v, d)))
            && (!ListsPlaced(schema) ==>
                  (Valid(n, DefsOf(listed.value), listed.value, v, d) <==> ("type" in schema.fields ==> TypeAllows(schema.fields["type"], v))))
  {
    hide Valid, Lenient, Loosen, PlaceMini, NoticeReady, Placeable, NegationRefersOut, HasKnownDialect, LooseOutputSchema, DefsOf, NoNotice,
         TypeAllows;
    LoosenedIsObject(schema);
    ListedIsThere(schema);
    var loose, listed := Loosen(schema), ProxyOutputSchema(Some(schema)).value;
    if ListsPlaced(schema) {
      if NoNotice(v) && NoticeReady(n, DefsOf(loose), schema, d) {
        PlacedSameDefs(loose);
        LoosenedIsPlaceable(n, DefsOf(loose), schema, d);
        PlaceableIsInside(n, DefsOf(loose), loose, d);
        PlacedKeepsVerdict(n, DefsOf(loose), loose, v, d);
        LoosenReachesDefs(schema);
        DefsGuarded(schema);
        LoosenMeans(n, DefsOf(schema), schema, v, d);
      }
    } else {
      LooseVerdict(n, DefsOf(listed), schema, v, d);
    }
  }

  lemma PlaceableIsInside(n: nat, defs: Defs, s: Json, d: Dialect)
    requires s.Obj? && Placeable(n, defs, s, d)
    ensures PlaceableInside(n, defs, s, d)
  {
    hide PlaceableInside;
  }

  /** The value that is sent: the trimmed one as it is, or with the notice in it. */
  ghost predicate Sent(schema: Json, v: Json, w: Json, x: Json, notice: Notice, d: Dialect) {
    || (x == w && OwnMini(schema, v))
    || (x == Carried(w, notice) && TakesNotice(schema, d) && (MiniFree(v) || v.Arr?))
  }

  lemma TrimmedMini(schema: Json, v: Json, w: Json, t: Trim)
    requires Shortened(v, w, t)
    ensures MiniFree(v) || v.Arr? ==> MiniFree(w) || w.Arr?
    ensures OwnMini(schema, v) ==> OwnMini(schema, w)
  {
    hide DeclaresMini;
  }

  /** Whatever the proxy lists as a tool's output schema accepts the trimmed result, and accepts it with the
      notice in it, if the upstream's own schema accepted the result the trim started from. */
  lemma ListedAccepts(schema: Json, v: Json, w: Json, x: Json, notice: Notice, t: Trim, d: Dialect)
    requires schema.Obj? && Fragment(schema, t) && Satisfies(DefsOf(schema), schema, v, d)
    requires Shortened(v, w, t) && Sent(schema, v, w, x, notice, d)
    ensures var listed := ProxyOutputSchema(Some(schema));
            listed.Some? && Satisfies(DefsOf(listed.value), listed.value, x, d)
  {
    hide Valid, DefsOf, Loosen, PlaceMini, Fragment, TakesNotice, Placeable, NegationRefersOut, HasKnownDialect, Carried,
         LooseOutputSchema, Satisfies, Shortened, OwnMini, Clean;
    TrimmedMini(schema, v, w, t);
    var loose, listed := Loosen(schema), ProxyOutputSchema(Some(schema));
    LoosenedIsObject(schema);
    if listed == PlaceMini(loose) && listed.Some? {
      ShortenedStaysValid(schema, v, w, t, d);
      PlacedSameDefs(loose);
      PlacedSatisfied(schema, v, w, x, notice, d);
    } else {
      SentType(schema, v, w, x, notice, t, d);
      LooseSatisfied(schema, v, x, d);
    }
  }

  lemma SentType(schema: Json, v: Json, w: Json, x: Json, notice: Notice, t: Trim, d: Dialect)
    requires Shortened(v, w, t) && Sent(schema, v, w, x, notice, d)
    ensures forall types :: TypeAllows(types, v) == TypeAllows(types, x)
  {
    hide TypeAllows, OwnMini, TakesNotice, Shortened, Carried;
    SameType(v, w, t);
    TrimmedMini(schema, v, w, t);
    if x != w { GainedType(w, x, notice); }
  }

  lemma LoosenedIsObject(s: Json)
    requires s.Obj?
    ensures Loosen(s).Obj? && LooseOutputSchema(Loosen(s)) == LooseOutputSchema(s)
  {
    hide Loosen;
    Untouched(s, "type");
  }

  lemma PlacedSatisfied(schema: Json, v: Json, w: Json, x: Json, notice: Notice, d: Dialect)
    requires schema.Obj? && Loosen(schema).Obj? && PlaceMini(Loosen(schema)).Some?
    requires Satisfies(DefsOf(Loosen(schema)), Loosen(schema), w, d) && Sent(schema, v, w, x, notice, d)
    requires OwnMini(schema, v) ==> OwnMini(schema, w)
    requires MiniFree(v) || v.Arr? ==> MiniFree(w) || w.Arr?
    ensures Satisfies(DefsOf(Loosen(schema)), PlaceMini(Loosen(schema)).value, x, d)
  {
    hide Valid, PlaceMini, Placeable, DefsOf, Loosen, Clean, NoticeReady, Carried, DeclaresMini;
    var s := Loosen(schema);
    var defs := DefsOf(s);
    var valid: nat :| ValidFrom(valid, defs, s, w, d);
    var enough: nat := valid;
    if !(x == w && OwnMini(schema, v)) {
      var ready: nat :| ReadyFrom(ready, schema, d);
      enough := if ready > valid then ready else valid;
    }
    forall n: nat | enough <= n ensures Valid(n, DefsOf(s), PlaceMini(s).value, x, d) {
      if x == w && OwnMini(schema, v) {
        LoosenIsClean(schema);
        if DeclaresMini(schema) { LoosenedDeclares(schema); }
        PlacedStillAccepts(n, DefsOf(s), s, w, d);
      } else {
        LoosenedIsPlaceable(n, defs, schema, d);
        PlacedAccepts(n, defs, s, w, x, notice, d);
      }
    }
    assert ValidFrom(enough, DefsOf(s), PlaceMini(s).value, x, d);
  }

  lemma LooseSatisfied(s: Json, v: Json, x: Json, d: Dialect)
    requires s.Obj? && Satisfies(DefsOf(s), s, v, d) && forall types :: TypeAllows(types, v) == TypeAllows(types, x)
    ensures Satisfies(DefsOf(LooseOutputSchema(s)), LooseOutputSchema(s), x, d)
  {
    hide Valid, DefsOf, LooseOutputSchema, SimpleHolds, TypeAllows;
    var enough: nat :| ValidFrom(enough, DefsOf(s), s, v, d);
    assert Valid(enough, DefsOf(s), s, v, d);
    ValidObject(enough, DefsOf(s), s, v, d);
    var loose := LooseOutputSchema(s);
    forall n: nat ensures Valid(n, DefsOf(loose), loose, x, d) { LooseAccepts(n, DefsOf(loose), s, v, x, d); }
    assert ValidFrom(0, DefsOf(loose), loose, x, d);
  }

  /** The trim of a structured result. */
  function ResultTrim(cfg: Projection.Effective): Trim { Trim(Named(""), Some(cfg)) }

  /** The promise to clients that check structured content: the projection of a valid result is valid under
      the schema they were given, as it is and with its notice. */
  lemma ProjectedResultIsValid(schema: Json, v: Json, cfg: Projection.Effective, notice: Notice, d: Dialect)
    requires schema.Obj? && Fragment(schema, ResultTrim(cfg)) && Satisfies(DefsOf(schema), schema, v, d)
    ensures var listed := ProxyOutputSchema(Some(schema));
            && listed.Some?
            && (OwnMini(schema, v) ==> Satisfies(DefsOf(listed.value), listed.value, Projection.Apply(v, cfg), d))
            && (TakesNotice(schema, d) && (MiniFree(v) || v.Arr?) ==>
                  Satisfies(DefsOf(listed.value), listed.value, Carried(Projection.Apply(v, cfg), notice), d))
  {
    hide Satisfies, ProxyOutputSchema, Carried, TakesNotice, Fragment, DefsOf, OwnMini, Shortened, DeclaresMini;
    var t, w := ResultTrim(cfg), Projection.Apply(v, cfg);
    ProjectShortens(v, "", Projection.ROOT, cfg);
    if OwnMini(schema, v) { ListedAccepts(schema, v, w, w, notice, t, d); }
    if TakesNotice(schema, d) && (MiniFree(v) || v.Arr?) { ListedAccepts(schema, v, w, Carried(w, notice), notice, t, d); }
    ListedIsThere(schema);
  }

  lemma ListedIsThere(schema: Json)
    requires schema.Obj?
    ensures ProxyOutputSchema(Some(schema)).Some?
  {
    hide HasKnownDialect, NegationRefersOut, PlaceMini, LooseOutputSchema;
    LoosenedIsObject(schema);
  }

  // ---- What the notice cannot do without ----

  /** The condition on field names cannot be spared: an object with a notice is valid under the placed schema
      only if a field may be named so, and only if what depends on its other fields accepts the notice too. */
  lemma NoticeNeedsItsName(n: nat, defs: Defs, s: Json, v: Json, notice: Notice, d: Dialect)
    requires s.Obj? && PlaceMini(s).Some? && v.Obj? && Valid(n, defs, PlaceMini(s).value, Carried(v, notice), d)
    ensures NamesMini(n, defs, s, d)
    ensures forall k | k in NamedOf(s, "dependentSchemas") && k in v.fields ::
              Valid(n, defs, NamedOf(s, "dependentSchemas")[k], Carried(v, notice), d)
  {
    hide PlaceMini, Valid, NoticeJson, SimpleHolds, ItemsHold, BranchesHold, NamedOf, IsAdditional;
    ValidObject(n, defs, PlaceMini(s).value, Carried(v, notice), d);
    PlacedFields(s);
    PlacedPropertyNames(s);
    assert MINI in FieldsIn(Carried(v, notice));
  }

  const CLOSED := Obj(map["properties" := Obj(map["a" := Bool(true)]), "additionalProperties" := Bool(false)])

  const DEPENDENT := Obj(map["dependentSchemas" := Obj(map["a" := CLOSED])])

  /** The walk that places the notice does not enter `dependentSchemas`: a result that satisfies its schema may
      be rejected with the notice in it. */
  lemma DependentSchemaGap(notice: Notice, d: Dialect)
    ensures var v, listed := Obj(map["a" := Null]), ProxyOutputSchema(Some(DEPENDENT));
            && Satisfies(DefsOf(DEPENDENT), DEPENDENT, v, d) && MiniFree(v)
            && listed.Some? && Satisfies(DefsOf(listed.value), listed.value, v, d)
            && !Satisfies(DefsOf(listed.value), listed.value, Carried(v, notice), d)
  {
    hide Valid, PlaceMini, Loosen, NoticeJson, DefsOf;
    var v := Obj(map["a" := Null]);
    var x := Carried(v, notice);
    DependentListed();
    var placed := PlaceMini(DEPENDENT).value;
    assert NamedOf(DEPENDENT, "dependentSchemas")["a"] == CLOSED && "a" in v.fields;
    forall n: nat, defs ensures Valid(n, defs, DEPENDENT, v, d) && Valid(n, defs, placed, v, d) && !Valid(n, defs, placed, x, d) {
      ClosedVerdicts(n, defs, v, x, d);
      DependentAccepts(n, defs, v, d);
      OwnMiniFree(v);
      PlacedStillAccepts(n, defs, DEPENDENT, v, d);
      if Valid(n, defs, placed, x, d) { NoticeNeedsItsName(n, defs, DEPENDENT, v, notice, d); }
    }
    assert ValidFrom(0, DefsOf(DEPENDENT), DEPENDENT, v, d) && ValidFrom(0, DefsOf(placed), placed, v, d);
    forall enough: nat ensures !ValidFrom(enough, DefsOf(placed), placed, x, d) {
      assert !Valid(enough, DefsOf(placed), placed, x, d);
    }
  }

  lemma OwnMiniFree(v: Json)
    requires MiniFree(v)
    ensures OwnMini(DEPENDENT, v)
  {
  }

  lemma ClosedVerdicts(n: nat, defs: Defs, v: Json, x: Json, d: Dialect)
    requires v.Obj? && v.fields.Keys == {"a"} && x.Obj? && MINI in x.fields
    ensures Valid(n, defs, CLOSED, v, d) && !Valid(n, defs, CLOSED, x, d)
  {
    hide Valid, SimpleHolds, ItemsHold, BranchesHold;
    assert NamedOf(CLOSED, "properties") == map["a" := Bool(true)];
    NoneNamed(CLOSED, "patternProperties");
    NoneNamed(CLOSED, "dependentSchemas");
    ValidObject(n, defs, CLOSED, v, d);
    ValidObject(n, defs, CLOSED, x, d);
    forall y ensures Valid(n, defs, Bool(true), y, d) && !Valid(n, defs, Bool(false), y, d) {
      TrueAccepts(n, defs, y, d);
      FalseRejects(n, defs, y, d);
    }
    ClosedHasNoMore(CLOSED, n, defs, v, d);
    assert IsAdditional(CLOSED, MINI, d);
    assert PropertiesHold(n, defs, CLOSED, v, d) && !PropertiesHold(n, defs, CLOSED, x, d);
  }

  lemma FalseRejects(n: nat, defs: Defs, v: Json, d: Dialect)
    ensures !Valid(n, defs, Bool(false), v, d)
  {
  }

  lemma ClosedHasNoMore(s: Json, n: nat, defs: Defs, v: Json, d: Dialect)
    requires s.Obj? && s.fields.Keys <= {"properties", "additionalProperties", "dependentSchemas"} && v.Obj?
    ensures SimpleHolds(s, v, d) && RefHolds(n, defs, s, v, d) && ConditionHolds(n, defs, s, v, d)
    ensures ItemsHold(n, defs, s, v, d) && BranchesHold(n, defs, s, v, d)
  {
    hide Valid, TypeAllows;
    assert forall k | k in s.fields :: k == "properties" || k == "additionalProperties" || k == "dependentSchemas";
    NoneNamed(s, "required");
  }

  lemma DependentAccepts(n: nat, defs: Defs, v: Json, d: Dialect)
    requires v.Obj? && Valid(n, defs, CLOSED, v, d)
    ensures Valid(n, defs, DEPENDENT, v, d)
  {
    hide Valid, SimpleHolds, ItemsHold, BranchesHold;
    ClosedHasNoMore(DEPENDENT, n, defs, v, d);
    NoneNamed(DEPENDENT, "properties");
    NoneNamed(DEPENDENT, "patternProperties");
    assert NamedOf(DEPENDENT, "dependentSchemas") == map["a" := CLOSED];
    assert PropertiesHold(n, defs, DEPENDENT, v, d);
    ValidObject(n, defs, DEPENDENT, v, d);
  }

  lemma DependentListed()
    ensures Clean(DEPENDENT) && PlaceMini(DEPENDENT).Some? && ProxyOutputSchema(Some(DEPENDENT)) == PlaceMini(DEPENDENT)
  {
    DependentClean();
    CleanIsUntouched(DEPENDENT);
    DependentRefers();
    hide Loosen, Clean, NegationRefersOut;
    NoneNamed(DEPENDENT, "anyOf");
    NoneNamed(DEPENDENT, "allOf");
    NothingToPlace(DEPENDENT);
  }

  lemma ClosedClean()
    ensures Clean(CLOSED)
  {
    assert Clean(Bool(true)) && Clean(Bool(false));
    assert forall k | k in CLOSED.fields :: k == "properties" || k == "additionalProperties";
  }

  lemma DependentClean()
    ensures Clean(DEPENDENT)
  {
    hide CLOSED;
    ClosedClean();
    assert forall k | k in DEPENDENT.fields :: k == "dependentSchemas";
  }

  lemma DependentRefers()
    ensures !NegationRefersOut(DEPENDENT)
  {
    assert !NegationRefersOut(Bool(true)) && !NegationRefersOut(Bool(false));
    var properties := CLOSED.fields["properties"];
    assert !NegationRefersOut(properties);
    assert !NegationRefersOut(CLOSED) by {
      assert forall k | k in CLOSED.fields :: k == "properties" || k == "additionalProperties";
    }
    var dependent := DEPENDENT.fields["dependentSchemas"];
    assert !NegationRefersOut(dependent) by { assert forall k | k in dependent.fields :: k == "a"; }
    assert forall k | k in DEPENDENT.fields :: k == "dependentSchemas";
  }
}
