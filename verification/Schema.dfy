/** JSON Schema, as far as output schemas use it, and the loosening that lets a trimmed result pass. */
module Schema {
  import opened Json

  /** What the model leaves open: how patterns match, what a keyword the loosening deletes demands (it may
      look at the whole schema object), and what an assertion on numbers demands. */
  datatype Dialect = Dialect(
    matches: (string, string) -> bool,
    deleted: (string, Json, Json) -> bool,
    number: (string, Json, Json) -> bool)

  /** The entries of `$defs` and `definitions`, by the reference that names them. */
  type Defs = map<string, Json>

  const TRIM_SENSITIVE: set<string> := {
    "required", "dependentRequired", "dependencies", "minProperties", "maxProperties", "minLength", "pattern",
    "format", "minItems", "contains", "minContains", "uniqueItems", "maxItems", "unevaluatedItems"
  }

  const SUBSCHEMA_KEYS: set<string> := {
    "anyOf", "allOf", "prefixItems", "items", "additionalProperties", "then", "else", "propertyNames",
    "unevaluatedProperties"
  }

  const SUBSCHEMA_MAP_KEYS: set<string> := {
    "properties", "patternProperties", "$defs", "definitions", "dependentSchemas"
  }

  const NUMERIC: set<string> := {"minimum", "maximum", "exclusiveMinimum", "exclusiveMaximum", "multipleOf"}

  // ---- Reading a schema object ----

  predicate Has(s: Json, keyword: string) { s.Obj? && keyword in s.fields }

  function ListOf(s: Json, keyword: string): (items: seq<Json>)
    ensures forall i | 0 <= i < |items| :: items[i] < s
  {
    if Has(s, keyword) && s.fields[keyword].Arr? then s.fields[keyword].items else []
  }

  function NamedOf(s: Json, keyword: string): (named: map<string, Json>)
    ensures forall k | k in named :: named[k] < s
  {
    if Has(s, keyword) && s.fields[keyword].Obj? then s.fields[keyword].fields else map[]
  }

  predicate IsType(name: string, v: Json) {
    match v
    case Null => name == "null"
    case Bool(_) => name == "boolean"
    case Num(x) => name == "number" || (name == "integer" && x.Floor as real == x)
    case Str(_) => name == "string"
    case Arr(_) => name == "array"
    case Obj(_) => name == "object"
  }

  predicate TypeAllows(types: Json, v: Json) {
    match types
    case Str(name) => IsType(name, v)
    case Arr(names) => exists i | 0 <= i < |names| :: names[i].Str? && IsType(names[i].s, v)
    case _ => false
  }

  function FieldsIn(v: Json): map<string, Json> { if v.Obj? then v.fields else map[] }

  function ItemsIn(v: Json): seq<Json> { if v.Arr? then v.items else [] }

  // ---- Validity: `n` bounds how many references may be followed one inside the other ----

  predicate Valid(n: nat, defs: Defs, s: Json, v: Json, d: Dialect)
    decreases n, s, 3
  {
    match s
    case Bool(b) => b
    case Obj(_) =>
      && SimpleHolds(s, v, d)
      && RefHolds(n, defs, s, v, d)
      && ConditionHolds(n, defs, s, v, d)
      && PropertiesHold(n, defs, s, v, d)
      && ItemsHold(n, defs, s, v, d)
      && BranchesHold(n, defs, s, v, d)
    case _ => true
  }

  /** A value satisfies a schema when it is valid however many references may be followed, from some number on. */
  ghost predicate Satisfies(defs: Defs, s: Json, v: Json, d: Dialect) {
    exists enough: nat :: ValidFrom(enough, defs, s, v, d)
  }

  ghost predicate ValidFrom(enough: nat, defs: Defs, s: Json, v: Json, d: Dialect) {
    forall n: nat | enough <= n :: Valid(n, defs, s, v, d)
  }

  /** Keywords whose meaning is outside the model: nothing satisfies a schema object that has one. */
  const UNMODELLED: set<string> := {"unevaluatedProperties", "additionalItems", "$dynamicRef", "$recursiveRef"}

  /** Keywords without subschemas. */
  predicate SimpleHolds(s: Json, v: Json, d: Dialect)
    requires s.Obj?
  {
    && (forall k | k in UNMODELLED :: k !in s.fields)
    && ("type" in s.fields ==> TypeAllows(s.fields["type"], v))
    && ("enum" in s.fields && s.fields["enum"].Arr? ==> v in s.fields["enum"].items)
    && ("const" in s.fields ==> v == s.fields["const"])
    && ("required" in s.fields && v.Obj? ==>
          forall i | 0 <= i < |ListOf(s, "required")| && ListOf(s, "required")[i].Str? ::
            ListOf(s, "required")[i].s in v.fields)
    && ("maxLength" in s.fields && s.fields["maxLength"].Num? && v.Str? ==> |v.s| as real <= s.fields["maxLength"].n)
    && (forall k | k in s.fields && k in TRIM_SENSITIVE && k != "required" :: d.deleted(k, s, v))
    && (forall k | k in s.fields && k in NUMERIC && v.Num? :: d.number(k, s.fields[k], v))
  }

  /** A reference to an entry of the root's definitions; any other reference is outside the model and
      satisfied by nothing. */
  predicate RefHolds(n: nat, defs: Defs, s: Json, v: Json, d: Dialect)
    requires s.Obj?
    decreases n, s, 0
  {
    "$ref" in s.fields ==>
      && s.fields["$ref"].Str?
      && s.fields["$ref"].s in defs
      && (n > 0 ==> Valid(n - 1, defs, defs[s.fields["$ref"].s], v, d))
  }

  predicate ConditionHolds(n: nat, defs: Defs, s: Json, v: Json, d: Dialect)
    requires s.Obj?
    decreases n, s, 0
  {
    && ("not" in s.fields ==> !Valid(n, defs, s.fields["not"], v, d))
    && ("if" in s.fields ==>
          if Valid(n, defs, s.fields["if"], v, d)
          then "then" in s.fields ==> Valid(n, defs, s.fields["then"], v, d)
          else "else" in s.fields ==> Valid(n, defs, s.fields["else"], v, d))
  }

  /** Whether `additionalProperties` governs a field. */
  predicate IsAdditional(s: Json, k: string, d: Dialect) {
    k !in NamedOf(s, "properties") && forall p | p in NamedOf(s, "patternProperties") :: !d.matches(p, k)
  }

  predicate PropertiesHold(n: nat, defs: Defs, s: Json, v: Json, d: Dialect)
    requires s.Obj?
    decreases n, s, 0
  {
    && (forall k | k in NamedOf(s, "properties") && k in FieldsIn(v) ::
          Valid(n, defs, NamedOf(s, "properties")[k], FieldsIn(v)[k], d))
    && (forall p, k | p in NamedOf(s, "patternProperties") && k in FieldsIn(v) && d.matches(p, k) ::
          Valid(n, defs, NamedOf(s, "patternProperties")[p], FieldsIn(v)[k], d))
    && ("additionalProperties" in s.fields ==> forall k | k in FieldsIn(v) && IsAdditional(s, k, d) ::
          Valid(n, defs, s.fields["additionalProperties"], FieldsIn(v)[k], d))
    && ("propertyNames" in s.fields ==> forall k | k in FieldsIn(v) ::
          Valid(n, defs, s.fields["propertyNames"], Str(k), d))
    && (forall k | k in NamedOf(s, "dependentSchemas") && k in FieldsIn(v) ::
          Valid(n, defs, NamedOf(s, "dependentSchemas")[k], v, d))
  }

  /** `items` governs what `prefixItems` leaves; the array form of earlier drafts is positional itself. */
  predicate ItemsHold(n: nat, defs: Defs, s: Json, v: Json, d: Dialect)
    requires s.Obj?
    decreases n, s, 0
  {
    && (forall i | 0 <= i < |ListOf(s, "prefixItems")| && i < |ItemsIn(v)| ::
          Valid(n, defs, ListOf(s, "prefixItems")[i], ItemsIn(v)[i], d))
    && ("items" in s.fields ==>
          if s.fields["items"].Arr? then
            forall i | 0 <= i < |ListOf(s, "items")| && i < |ItemsIn(v)| ::
              Valid(n, defs, ListOf(s, "items")[i], ItemsIn(v)[i], d)
          else
            forall i | |ListOf(s, "prefixItems")| <= i < |ItemsIn(v)| ::
              Valid(n, defs, s.fields["items"], ItemsIn(v)[i], d))
  }

  predicate BranchesHold(n: nat, defs: Defs, s: Json, v: Json, d: Dialect)
    requires s.Obj?
    decreases n, s, 2
  {
    && (Has(s, "anyOf") && s.fields["anyOf"].Arr? ==> SomeBranch(n, defs, s, "anyOf", v, d))
    && (forall i | 0 <= i < |ListOf(s, "allOf")| :: Valid(n, defs, ListOf(s, "allOf")[i], v, d))
    && (Has(s, "oneOf") && s.fields["oneOf"].Arr? ==> OneBranch(n, defs, s, v, d))
  }

  predicate SomeBranch(n: nat, defs: Defs, s: Json, keyword: string, v: Json, d: Dialect)
    requires s.Obj?
    decreases n, s, 0
  {
    exists i | 0 <= i < |ListOf(s, keyword)| :: Valid(n, defs, ListOf(s, keyword)[i], v, d)
  }

  /** Exactly one branch of `oneOf` accepts the value. */
  predicate OneBranch(n: nat, defs: Defs, s: Json, v: Json, d: Dialect)
    requires s.Obj?
    decreases n, s, 1
  {
    && SomeBranch(n, defs, s, "oneOf", v, d)
    && forall i, j | 0 <= i < j < |ListOf(s, "oneOf")| ::
         !(Valid(n, defs, ListOf(s, "oneOf")[i], v, d) && Valid(n, defs, ListOf(s, "oneOf")[j], v, d))
  }

  // ---- Loosening ----

  /** What loosening makes of a keyword's value when the keyword stays in place. */
  function LoosenValue(key: string, value: Json): Json
    decreases value, 1
  {
    if key in SUBSCHEMA_KEYS then Loosen(value)
    else if key in SUBSCHEMA_MAP_KEYS && value.Obj? then Obj(map k | k in value.fields :: Loosen(value.fields[k]))
    else value
  }

  function LoosenAll(items: seq<Json>): (loose: seq<Json>)
    ensures |loose| == |items| && forall i | 0 <= i < |items| :: loose[i] == Loosen(items[i])
    decreases items
  {
    seq(|items|, i requires 0 <= i < |items| => Loosen(items[i]))
  }

  /** Deletes what a trim can break, turns `oneOf` into `anyOf` (behind an `allOf` if an `anyOf` is
      already there), and loosens every subschema except those under `not` and `if`. */
  function Loosen(s: Json): Json
    decreases s, 0
  {
    match s
    case Arr(items) => Arr(LoosenAll(items))
    case Obj(m) =>
      var kept := map k | k in m && k !in TRIM_SENSITIVE && k != "oneOf" :: LoosenValue(k, m[k]);
      if "oneOf" !in m then Obj(kept)
      else
        var branches := Loosen(m["oneOf"]);
        if "anyOf" !in m then Obj(kept["anyOf" := branches])
        else
          var all := if "allOf" in m && m["allOf"].Arr? then LoosenAll(m["allOf"].items) else [];
          Obj(kept["allOf" := Arr(all + [Obj(map["anyOf" := branches])])])
    case _ => s
  }

  // The same in the three steps of the source.

  function WithoutTrimSensitive(m: map<string, Json>): map<string, Json> {
    map k | k in m && k !in TRIM_SENSITIVE :: m[k]
  }

  function OneOfToAnyOf(m: map<string, Json>): map<string, Json> {
    if "oneOf" !in m then m
    else
      var rest := map k | k in m && k != "oneOf" :: m[k];
      if "anyOf" !in rest then rest["anyOf" := m["oneOf"]]
      else
        var allOf := if "allOf" in rest && rest["allOf"].Arr? then rest["allOf"].items else [];
        rest["allOf" := Arr(allOf + [Obj(map["anyOf" := m["oneOf"]])])]
  }

  function LoosenSubschemas(m: map<string, Json>): map<string, Json> {
    map k | k in m :: LoosenValue(k, m[k])
  }

  /** Loosening a schema object is deleting keywords, rewriting `oneOf`, then loosening subschemas, in
      that order. */
  lemma LoosenInSteps(m: map<string, Json>)
    ensures Loosen(Obj(m)) == Obj(LoosenSubschemas(OneOfToAnyOf(WithoutTrimSensitive(m))))
  {
    if "oneOf" !in m || "anyOf" !in m {
      StepsWithoutBoth(m);
    } else {
      StepsWithBoth(m);
    }
  }

  lemma StepsWithoutBoth(m: map<string, Json>)
    requires "oneOf" !in m || "anyOf" !in m
    ensures Loosen(Obj(m)).fields == LoosenSubschemas(OneOfToAnyOf(WithoutTrimSensitive(m)))
  {
    assert "oneOf" in m ==> LoosenValue("anyOf", m["oneOf"]) == Loosen(m["oneOf"]);
  }

  lemma StepsWithBoth(m: map<string, Json>)
    requires "oneOf" in m && "anyOf" in m
    ensures Loosen(Obj(m)).fields == LoosenSubschemas(OneOfToAnyOf(WithoutTrimSensitive(m)))
  {
    var branch := Obj(map["anyOf" := m["oneOf"]]);
    LoosenWrapped(m["oneOf"]);
    var trimmed := WithoutTrimSensitive(m);
    var allOf := if "allOf" in m && m["allOf"].Arr? then m["allOf"].items else [];
    assert "oneOf" in trimmed && "anyOf" in trimmed;
    assert "allOf" in m ==> "allOf" in trimmed && trimmed["allOf"] == m["allOf"];
    assert LoosenAll(allOf + [branch]) == LoosenAll(allOf) + [Loosen(branch)];
    LoosenAllOf(allOf + [branch]);
    var step := OneOfToAnyOf(trimmed);
    assert step["allOf"] == Arr(allOf + [branch]);
    SameKeys(m, step);
    assert allOf == [] ==> LoosenAll(allOf) == [];
    assert Loosen(Obj(m)).fields["allOf"] == Arr(LoosenAll(allOf) + [Loosen(branch)]);
  }

  lemma SameKeys(m: map<string, Json>, step: map<string, Json>)
    requires "oneOf" in m && "anyOf" in m && step == OneOfToAnyOf(WithoutTrimSensitive(m))
    ensures Loosen(Obj(m)).fields.Keys == LoosenSubschemas(step).Keys
    ensures forall k | k in step && k != "allOf" :: Loosen(Obj(m)).fields[k] == LoosenSubschemas(step)[k]
  {
    hide LoosenValue;
  }

  lemma LoosenAllOf(branches: seq<Json>)
    ensures LoosenValue("allOf", Arr(branches)) == Arr(LoosenAll(branches))
  {
  }

  lemma LoosenWrapped(branches: Json)
    ensures Loosen(Obj(map["anyOf" := branches])) == Obj(map["anyOf" := Loosen(branches)])
  {
    var m := map["anyOf" := branches];
    assert Loosen(Obj(m)).fields == map["anyOf" := Loosen(branches)];
  }
}
