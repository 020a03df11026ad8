/** What loosening an output schema guarantees: it never rejects what the schema accepted, and for
    schemas without negation, whose listed values a trim cannot break, it accepts every trimmed result as
    well. */
module SchemaLoosening {
  import opened Options
  import opened Json
  import opened Schema
  import Projection
  import Truncation

  // ---- The guard ----

  predicate ContainsRef(node: Json) {
    match node
    case Arr(items) => exists i | 0 <= i < |items| :: ContainsRef(items[i])
    case Obj(m) => "$ref" in m || exists k | k in m :: ContainsRef(m[k])
    case _ => false
  }

  /** Some `not` or `if` tests what a reference names. */
  predicate NegationRefersOut(node: Json) {
    match node
    case Arr(items) => exists i | 0 <= i < |items| :: NegationRefersOut(items[i])
    case Obj(m) => exists k | k in m :: ((k == "not" || k == "if") && ContainsRef(m[k])) || NegationRefersOut(m[k])
    case _ => false
  }

  // ---- How far a string may be cut ----

  /** What is known of the field that holds a value: its name (empty for the root and for items), nothing,
      or that the value is a field name itself, which no trim touches. */
  datatype Holder = Named(name: string) | Unknown | NameItself

  /** How values are trimmed: by a projection, or, without a configuration, in any way at all. */
  datatype Trim = Trim(holder: Holder, cfg: Option<Projection.Effective>)
  {
    /** The trim of the values that a subschema under `keyword` judges. */
    function Under(keyword: string, name: string): Trim {
      if keyword == "properties" then this.(holder := Named(name))
      else if keyword == "items" || keyword == "prefixItems" then this.(holder := Named(""))
      else if keyword == "propertyNames" then this.(holder := NameItself)
      else if keyword in {"anyOf", "allOf", "oneOf", "then", "else", "dependentSchemas"} then this
      else Anywhere()
    }

    function Anywhere(): Trim { this.(holder := Unknown) }

    function StringLimits(): set<int>
      requires cfg.Some?
    {
      match holder
      case Named(name) => {cfg.value.StringLimitFor(name)}
      case Unknown => cfg.value.stringLimits.Values + {cfg.value.defaultStringLimit}
      case NameItself => {}
    }

    /** What a string may be cut to. */
    function Shortenings(s: string): set<string> {
      if holder.NameItself? then {}
      else if cfg.None? then set i | 0 <= i <= |s| :: s[..i]
      else set limit | limit in StringLimits() :: Projection.ShortString(s, limit)
    }
  }

  /** `w` is what such a trim may leave of `v`. */
  ghost predicate Shortened(v: Json, w: Json, t: Trim)
    decreases v
  {
    match v
    case Str(s) => w == v || (w.Str? && w.s in t.Shortenings(s))
    case Arr(items) =>
      && w.Arr?
      && |w.items| <= |items|
      && forall i | 0 <= i < |w.items| :: Shortened(items[i], w.items[i], t.(holder := Named("")))
    case Obj(fields) =>
      && w.Obj?
      && w.fields.Keys <= fields.Keys
      && forall k | k in fields && k in w.fields :: Shortened(fields[k], w.fields[k], t.(holder := Named(k)))
    case _ => w == v
  }

  lemma {:induction false} ShortenedRefl(v: Json, t: Trim)
    ensures Shortened(v, v, t)
    decreases v
  {
    match v
    case Arr(items) =>
      forall i | 0 <= i < |items| ensures Shortened(items[i], items[i], t.(holder := Named(""))) {
        ShortenedRefl(items[i], t.(holder := Named("")));
      }
    case Obj(fields) =>
      forall k | k in fields ensures Shortened(fields[k], fields[k], t.(holder := Named(k))) {
        ShortenedRefl(fields[k], t.(holder := Named(k)));
      }
    case _ =>
  }

  lemma ShortenedAnywhere(v: Json, w: Json, t: Trim)
    requires Shortened(v, w, t)
    ensures Shortened(v, w, t.Anywhere())
  {
    if v.Str? && w != v && t.cfg.Some? { assert t.StringLimits() <= t.Anywhere().StringLimits(); }
  }

  /** Every trim is one of these when nothing is known about it. */
  lemma {:induction false} TrimmedIsShortened(v: Json, w: Json, t: Trim)
    requires Trimmed(v, w) && t.cfg.None? && !t.holder.NameItself?
    ensures Shortened(v, w, t)
    decreases v
  {
    match v
    case Str(s) => assert w.s == s[..|w.s|];
    case Arr(items) =>
      forall i | 0 <= i < |w.items| ensures Shortened(items[i], w.items[i], t.(holder := Named(""))) {
        TrimmedIsShortened(items[i], w.items[i], t.(holder := Named("")));
      }
    case Obj(fields) =>
      forall k | k in fields && k in w.fields ensures Shortened(fields[k], w.fields[k], t.(holder := Named(k))) {
        TrimmedIsShortened(fields[k], w.fields[k], t.(holder := Named(k)));
      }
    case _ =>
  }

  /** A projection cuts each string by the limit of the field that holds it. */
  lemma {:induction false} ProjectShortens(v: Json, name: string, place: Projection.Place, cfg: Projection.Effective)
    ensures Shortened(v, Projection.Project(v, name, place, cfg), Trim(Named(name), Some(cfg)))
    decreases v
  {
    hide Projection.ShouldSkip, Projection.StepInto, Projection.ShortString;
    match v
    case Str(s) => assert cfg.StringLimitFor(name) in Trim(Named(name), Some(cfg)).StringLimits();
    case Arr(items) =>
      var w := Projection.Project(v, name, place, cfg);
      forall i | 0 <= i < |w.items| ensures Shortened(items[i], w.items[i], Trim(Named(""), Some(cfg))) {
        ProjectShortens(items[i], "", Projection.StepInto(place, cfg, Projection.JqPath.Index(i)), cfg);
      }
    case Obj(fields) =>
      var w := Projection.Project(v, name, place, cfg);
      forall k | k in fields && k in w.fields ensures Shortened(fields[k], w.fields[k], Trim(Named(k), Some(cfg))) {
        ProjectShortens(fields[k], k, Projection.StepInto(place, cfg, Projection.JqPath.Key(k)), cfg);
      }
    case _ =>
  }

  // ---- Listed values ----

  /** No trim turns a listed value into one that is not listed: strings are cut only to other listed
      strings, and a container is listed only if it is empty. */
  predicate Kept(listed: seq<Json>, t: Trim) {
    forall i | 0 <= i < |listed| ::
      match listed[i]
      case Str(s) => forall short | short in t.Shortenings(s) :: Str(short) in listed
      case Arr(items) => items == []
      case Obj(fields) => fields == map[]
      case _ => true
  }

  predicate ListedKept(m: map<string, Json>, t: Trim) {
    && ("enum" in m && m["enum"].Arr? ==> Kept(m["enum"].items, t))
    && ("const" in m ==> Kept([m["const"]], t))
  }

  lemma KeptStaysListed(listed: seq<Json>, v: Json, w: Json, t: Trim)
    requires Kept(listed, t) && Shortened(v, w, t) && v in listed
    ensures w in listed
  {
    var i :| 0 <= i < |listed| && listed[i] == v;
    match v
    case Str(s) => assert w == v || Str(w.s) in listed;
    case Arr(items) => assert w.items == [] && w == v;
    case Obj(fields) => assert w.fields == map[] && w == v;
    case _ =>
  }

  /** A schema whose verdict on a value cannot change when the value is trimmed, apart from the keywords
      that loosening rewrites: no subschema is negated, and no listed value is cut away. */
  predicate Fragment(s: Json, t: Trim)
    decreases s
  {
    match s
    case Arr(items) => forall i | 0 <= i < |items| :: Fragment(items[i], t)
    case Obj(m) =>
      && "not" !in m && "if" !in m && ListedKept(m, t)
      && (forall k | k in m && (k in SUBSCHEMA_KEYS || k == "oneOf") :: Fragment(m[k], t.Under(k, "")))
      && (forall k, name | k in m && k in SUBSCHEMA_MAP_KEYS && m[k].Obj? && name in m[k].fields ::
            Fragment(m[k].fields[name], t.Under(k, name)))
    case _ => true
  }

  function LoosenDefs(defs: Defs): Defs { map r | r in defs :: Loosen(defs[r]) }

  /** What the theorem needs of one schema and a value with its trimmed form. */
  ghost predicate Fit(s: Json, v: Json, w: Json, t: Trim) {
    Shortened(v, w, t) && Safe(s, v == w, t)
  }

  ghost predicate Safe(s: Json, same: bool, t: Trim) {
    Fragment(s, t) || (same && !NegationRefersOut(s))
  }

  ghost predicate FitDefs(defs: Defs, same: bool, t: Trim) {
    forall r | r in defs :: Safe(defs[r], same, t.Anywhere())
  }

  // ---- A schema without references means the same whatever the definitions are ----

  lemma {:induction false} RefFree(n: nat, defs: Defs, n': nat, defs': Defs, s: Json, v: Json, d: Dialect)
    requires !ContainsRef(s)
    ensures Valid(n, defs, s, v, d) == Valid(n', defs', s, v, d)
    decreases s, 2
  {
    hide SimpleHolds, ConditionHolds, PropertiesHold, ItemsHold, BranchesHold;
    if s.Obj? {
      RefFreeCondition(n, defs, n', defs', s, v, d);
      RefFreeProperties(n, defs, n', defs', s, v, d);
      RefFreeItems(n, defs, n', defs', s, v, d);
      RefFreeBranches(n, defs, n', defs', s, v, d);
    }
  }

  lemma NoRefInside(s: Json, keyword: string)
    requires s.Obj? && !ContainsRef(s)
    ensures keyword in s.fields ==> !ContainsRef(s.fields[keyword])
    ensures forall i | 0 <= i < |ListOf(s, keyword)| :: !ContainsRef(ListOf(s, keyword)[i])
    ensures forall k | k in NamedOf(s, keyword) :: !ContainsRef(NamedOf(s, keyword)[k])
  {
  }

  lemma {:induction false} RefFreeBelow(n: nat, defs: Defs, n': nat, defs': Defs, s: Json, d: Dialect)
    ensures forall sub, x | sub < s && !ContainsRef(sub) :: Valid(n, defs, sub, x, d) == Valid(n', defs', sub, x, d)
    decreases s, 0
  {
    hide Valid, ContainsRef;
    forall sub, x | sub < s && !ContainsRef(sub) ensures Valid(n, defs, sub, x, d) == Valid(n', defs', sub, x, d) {
      RefFree(n, defs, n', defs', sub, x, d);
    }
  }

  lemma {:induction false} RefFreeCondition(n: nat, defs: Defs, n': nat, defs': Defs, s: Json, v: Json, d: Dialect)
    requires s.Obj? && !ContainsRef(s)
    ensures ConditionHolds(n, defs, s, v, d) == ConditionHolds(n', defs', s, v, d)
    decreases s, 1
  {
    hide Valid, ContainsRef, IsAdditional;
    RefFreeBelow(n, defs, n', defs', s, d);
    NoRefInside(s, "not");
    NoRefInside(s, "if");
    NoRefInside(s, "then");
    NoRefInside(s, "else");
  }

  lemma {:induction false} RefFreeProperties(n: nat, defs: Defs, n': nat, defs': Defs, s: Json, v: Json, d: Dialect)
    requires s.Obj? && !ContainsRef(s)
    ensures PropertiesHold(n, defs, s, v, d) == PropertiesHold(n', defs', s, v, d)
    decreases s, 1
  {
    hide Valid, ContainsRef, IsAdditional;
    RefFreeBelow(n, defs, n', defs', s, d);
    NoRefInside(s, "properties");
    NoRefInside(s, "patternProperties");
    NoRefInside(s, "dependentSchemas");
    NoRefInside(s, "additionalProperties");
    NoRefInside(s, "propertyNames");
  }

  lemma {:induction false} RefFreeItems(n: nat, defs: Defs, n': nat, defs': Defs, s: Json, v: Json, d: Dialect)
    requires s.Obj? && !ContainsRef(s)
    ensures ItemsHold(n, defs, s, v, d) == ItemsHold(n', defs', s, v, d)
    decreases s, 1
  {
    hide Valid, ContainsRef, IsAdditional;
    RefFreeBelow(n, defs, n', defs', s, d);
    NoRefInside(s, "prefixItems");
    NoRefInside(s, "items");
  }

  lemma {:induction false} RefFreeBranches(n: nat, defs: Defs, n': nat, defs': Defs, s: Json, v: Json, d: Dialect)
    requires s.Obj? && !ContainsRef(s)
    ensures BranchesHold(n, defs, s, v, d) == BranchesHold(n', defs', s, v, d)
    decreases s, 1
  {
    hide Valid, ContainsRef;
    RefFreeList(n, defs, n', defs', s, "anyOf", v, d);
    RefFreeList(n, defs, n', defs', s, "allOf", v, d);
    RefFreeList(n, defs, n', defs', s, "oneOf", v, d);
    SameOne(n, defs, n', defs', s, v, d);
  }

  lemma {:induction false} RefFreeList(n: nat, defs: Defs, n': nat, defs': Defs, s: Json, k: string, v: Json, d: Dialect)
    requires s.Obj? && !ContainsRef(s)
    ensures SameVerdicts(n, defs, n', defs', s, k, v, d)
    ensures SomeBranch(n, defs, s, k, v, d) == SomeBranch(n', defs', s, k, v, d)
    decreases s, 0
  {
    hide Valid, ContainsRef, ListOf;
    forall i | 0 <= i < |ListOf(s, k)|
      ensures Valid(n, defs, ListOf(s, k)[i], v, d) == Valid(n', defs', ListOf(s, k)[i], v, d)
    {
      NoRefInside(s, k);
      RefFree(n, defs, n', defs', ListOf(s, k)[i], v, d);
    }
  }

  ghost predicate SameVerdicts(n: nat, defs: Defs, n': nat, defs': Defs, s: Json, k: string, v: Json, d: Dialect) {
    forall i | 0 <= i < |ListOf(s, k)| ::
      Valid(n, defs, ListOf(s, k)[i], v, d) == Valid(n', defs', ListOf(s, k)[i], v, d)
  }

  lemma SameOne(n: nat, defs: Defs, n': nat, defs': Defs, s: Json, v: Json, d: Dialect)
    requires s.Obj? && SameVerdicts(n, defs, n', defs', s, "oneOf", v, d)
    ensures OneBranch(n, defs, s, v, d) == OneBranch(n', defs', s, v, d)
  {
    hide Valid, ListOf;
  }

  // ---- Reading a loosened schema object ----

  lemma LoosenedField(s: Json, k: string)
    requires s.Obj?
    ensures Loosen(s).Obj?
    ensures k in TRIM_SENSITIVE || k == "oneOf" ==> k !in Loosen(s).fields
    ensures k !in TRIM_SENSITIVE && k != "oneOf" && k != "anyOf" && k != "allOf" ==>
              (k in Loosen(s).fields <==> k in s.fields)
    ensures k !in TRIM_SENSITIVE && k != "oneOf" && k != "anyOf" && k != "allOf" && k in s.fields ==>
              Loosen(s).fields[k] == LoosenValue(k, s.fields[k])
  {
    hide LoosenValue;
    assert "anyOf" !in TRIM_SENSITIVE && "allOf" !in TRIM_SENSITIVE;
  }

  lemma LoosenedList(s: Json, k: string)
    requires s.Obj? && (k == "prefixItems" || k == "items")
    ensures Loosen(s).Obj? && ListOf(Loosen(s), k) == LoosenAll(ListOf(s, k))
    ensures Has(Loosen(s), k) <==> Has(s, k)
    ensures Has(s, k) ==> Loosen(s).fields[k] == Loosen(s.fields[k])
  {
    LoosenedField(s, k);
  }

  lemma LoosenedNamed(s: Json, k: string)
    requires s.Obj? && k in SUBSCHEMA_MAP_KEYS
    ensures Loosen(s).Obj? && NamedOf(Loosen(s), k).Keys == NamedOf(s, k).Keys
    ensures forall name | name in NamedOf(s, k) :: NamedOf(Loosen(s), k)[name] == Loosen(NamedOf(s, k)[name])
  {
    LoosenedField(s, k);
  }

  lemma LoosenedSubschema(s: Json, k: string)
    requires s.Obj?
    requires k == "additionalProperties" || k == "propertyNames" || k == "then" || k == "else"
    ensures Loosen(s).Obj? && (k in Loosen(s).fields <==> k in s.fields)
    ensures k in s.fields ==> Loosen(s).fields[k] == Loosen(s.fields[k])
  {
    LoosenedField(s, k);
  }

  lemma Untouched(s: Json, k: string)
    requires s.Obj? && k !in TRIM_SENSITIVE && k !in SUBSCHEMA_KEYS && k !in SUBSCHEMA_MAP_KEYS && k != "oneOf"
    ensures Loosen(s).Obj? && (k in Loosen(s).fields <==> k in s.fields)
    ensures k in s.fields ==> Loosen(s).fields[k] == s.fields[k]
  {
    LoosenedField(s, k);
  }

  /** Where the branches of a schema object go. */
  lemma LoosenedBranches(s: Json)
    requires s.Obj?
    ensures Loosen(s).Obj? && "oneOf" !in Loosen(s).fields
    ensures "oneOf" !in s.fields ==>
              && (Has(Loosen(s), "anyOf") <==> Has(s, "anyOf"))
              && (Has(s, "anyOf") ==> Loosen(s).fields["anyOf"] == Loosen(s.fields["anyOf"]))
              && ListOf(Loosen(s), "allOf") == LoosenAll(ListOf(s, "allOf"))
    ensures "oneOf" in s.fields && "anyOf" !in s.fields ==>
              && Has(Loosen(s), "anyOf") && Loosen(s).fields["anyOf"] == Loosen(s.fields["oneOf"])
              && ListOf(Loosen(s), "allOf") == LoosenAll(ListOf(s, "allOf"))
    ensures "oneOf" in s.fields && "anyOf" in s.fields ==>
              && Has(Loosen(s), "anyOf") && Loosen(s).fields["anyOf"] == Loosen(s.fields["anyOf"])
              && ListOf(Loosen(s), "allOf") == LoosenAll(ListOf(s, "allOf")) + [Obj(map["anyOf" := Loosen(s.fields["oneOf"])])]
  {
    assert "anyOf" !in TRIM_SENSITIVE && "allOf" !in TRIM_SENSITIVE && "oneOf" !in TRIM_SENSITIVE;
    assert "anyOf" in s.fields ==> LoosenValue("anyOf", s.fields["anyOf"]) == Loosen(s.fields["anyOf"]);
    assert "allOf" in s.fields ==> LoosenValue("allOf", s.fields["allOf"]) == Loosen(s.fields["allOf"]);
  }

  lemma LoosenedIsAdditional(s: Json, k: string, d: Dialect)
    requires s.Obj?
    ensures IsAdditional(Loosen(s), k, d) == IsAdditional(s, k, d)
  {
    hide Loosen;
    LoosenedNamed(s, "properties");
    LoosenedNamed(s, "patternProperties");
  }

  // ---- What a schema needs passes on to its parts ----

  lemma FitInside(s: Json, keyword: string, v: Json, w: Json, t: Trim)
    requires s.Obj? && Fit(s, v, w, t)
    requires keyword in SUBSCHEMA_KEYS || keyword in SUBSCHEMA_MAP_KEYS || keyword == "oneOf"
    ensures keyword !in SUBSCHEMA_MAP_KEYS ==>
              && (keyword in s.fields ==> Safe(s.fields[keyword], v == w, t.Under(keyword, "")))
              && forall i | 0 <= i < |ListOf(s, keyword)| :: Safe(ListOf(s, keyword)[i], v == w, t.Under(keyword, ""))
    ensures keyword in SUBSCHEMA_MAP_KEYS ==>
              forall k | k in NamedOf(s, keyword) :: Safe(NamedOf(s, keyword)[k], v == w, t.Under(keyword, k))
  {
    if Fragment(s, t) {
      FragmentInside(s, keyword, t);
    } else {
      GuardInside(s, keyword);
    }
  }

  lemma FragmentInside(s: Json, keyword: string, t: Trim)
    requires s.Obj? && Fragment(s, t)
    requires keyword in SUBSCHEMA_KEYS || keyword in SUBSCHEMA_MAP_KEYS || keyword == "oneOf"
    ensures keyword !in SUBSCHEMA_MAP_KEYS ==>
              && (keyword in s.fields ==> Fragment(s.fields[keyword], t.Under(keyword, "")))
              && forall i | 0 <= i < |ListOf(s, keyword)| :: Fragment(ListOf(s, keyword)[i], t.Under(keyword, ""))
    ensures keyword in SUBSCHEMA_MAP_KEYS ==>
              forall k | k in NamedOf(s, keyword) :: Fragment(NamedOf(s, keyword)[k], t.Under(keyword, k))
  {
    hide ListedKept;
    assert keyword !in SUBSCHEMA_MAP_KEYS && keyword in s.fields ==> Fragment(s.fields[keyword], t.Under(keyword, ""));
  }

  lemma GuardInside(s: Json, keyword: string)
    requires s.Obj? && !NegationRefersOut(s)
    ensures keyword in s.fields ==> !NegationRefersOut(s.fields[keyword])
    ensures forall i | 0 <= i < |ListOf(s, keyword)| :: !NegationRefersOut(ListOf(s, keyword)[i])
    ensures forall k | k in NamedOf(s, keyword) :: !NegationRefersOut(NamedOf(s, keyword)[k])
  {
    assert keyword in s.fields ==> !NegationRefersOut(s.fields[keyword]);
  }

  // ---- The theorem ----

  /** A value that satisfies a schema satisfies the loosened one, and so does what a trim leaves of it
      when the schema negates nothing and the trim cuts no listed string to an unlisted one. */
  lemma {:induction false} LoosenAccepts(n: nat, defs: Defs, s: Json, v: Json, w: Json, t: Trim, d: Dialect)
    requires Fit(s, v, w, t) && FitDefs(defs, v == w, t)
    requires Valid(n, defs, s, v, d)
    ensures Valid(n, LoosenDefs(defs), Loosen(s), w, d)
    decreases n, s, 2
  {
    hide SimpleHolds, RefHolds, ConditionHolds, PropertiesHold, ItemsHold, BranchesHold, Fit, FitDefs, LoosenValue;
    if s.Obj? {
      SimpleAccepts(s, v, w, t, d);
      RefAccepts(n, defs, s, v, w, t, d);
      ConditionAccepts(n, defs, s, v, w, t, d);
      PropertiesAccept(n, defs, s, v, w, t, d);
      ItemsAccept(n, defs, s, v, w, t, d);
      BranchesAccept(n, defs, s, v, w, t, d);
    }
  }

  lemma SimpleAccepts(s: Json, v: Json, w: Json, t: Trim, d: Dialect)
    requires s.Obj? && Fit(s, v, w, t) && SimpleHolds(s, v, d)
    ensures Loosen(s).Obj? && SimpleHolds(Loosen(s), w, d)
  {
    hide Loosen, NegationRefersOut, TypeAllows, ListOf, TRIM_SENSITIVE, NUMERIC, UNMODELLED;
    SimpleKept(s);
    SameType(v, w, t);
    ListedStays(s, v, w, t);
    ShortenedLength(v, w, t);
  }

  lemma ListedStays(s: Json, v: Json, w: Json, t: Trim)
    requires s.Obj? && Fit(s, v, w, t)
    ensures "enum" in s.fields && s.fields["enum"].Arr? && v in s.fields["enum"].items ==> w in s.fields["enum"].items
    ensures "const" in s.fields && v == s.fields["const"] ==> w == s.fields["const"]
  {
    if Fragment(s, t) {
      assert ListedKept(s.fields, t) by { hide ListedKept; }
      hide Fragment, Kept;
      if "enum" in s.fields && s.fields["enum"].Arr? && v in s.fields["enum"].items {
        KeptStaysListed(s.fields["enum"].items, v, w, t);
      }
      if "const" in s.fields && v == s.fields["const"] { KeptStaysListed([s.fields["const"]], v, w, t); }
    }
  }

  /** The keywords without subschemas: deleted or left as they are. */
  lemma SimpleKept(s: Json)
    requires s.Obj?
    ensures Loosen(s).Obj?
    ensures forall k | k in TRIM_SENSITIVE :: k !in Loosen(s).fields
    ensures "required" in TRIM_SENSITIVE
    ensures forall k | k in UNMODELLED :: k in Loosen(s).fields ==> k in s.fields
    ensures forall k | k in {"type", "enum", "const", "maxLength"} + NUMERIC ::
              (k in Loosen(s).fields <==> k in s.fields) && (k in s.fields ==> Loosen(s).fields[k] == s.fields[k])
  {
    hide Loosen;
    LoosenedField(s, "type");
    forall k ensures k in TRIM_SENSITIVE ==> k !in Loosen(s).fields { LoosenedField(s, k); }
    forall k | k in {"type", "enum", "const", "maxLength"} + NUMERIC
      ensures (k in Loosen(s).fields <==> k in s.fields) && (k in s.fields ==> Loosen(s).fields[k] == s.fields[k])
    {
      Untouched(s, k);
    }
    forall k | k in UNMODELLED ensures k in Loosen(s).fields ==> k in s.fields { LoosenedField(s, k); }
  }

  lemma ShortenedLength(v: Json, w: Json, t: Trim)
    requires Shortened(v, w, t)
    ensures v.Str? ==> w.Str? && |w.s| <= |v.s|
  {
  }

  lemma SameType(v: Json, w: Json, t: Trim)
    requires Shortened(v, w, t)
    ensures forall types :: TypeAllows(types, v) == TypeAllows(types, w)
  {
    forall name: string ensures IsType(name, v) == IsType(name, w) {}
  }

  lemma {:induction false} RefAccepts(n: nat, defs: Defs, s: Json, v: Json, w: Json, t: Trim, d: Dialect)
    requires s.Obj? && Fit(s, v, w, t) && FitDefs(defs, v == w, t)
    requires RefHolds(n, defs, s, v, d)
    ensures Loosen(s).Obj? && RefHolds(n, LoosenDefs(defs), Loosen(s), w, d)
    decreases n, s, 1
  {
    hide Loosen, NegationRefersOut, Fragment, Valid, Shortened;
    Untouched(s, "$ref");
    ShortenedAnywhere(v, w, t);
    if "$ref" in s.fields && n > 0 {
      LoosenAccepts(n - 1, defs, defs[s.fields["$ref"].s], v, w, t.Anywhere(), d);
    }
  }

  lemma {:induction false} ConditionAccepts(n: nat, defs: Defs, s: Json, v: Json, w: Json, t: Trim, d: Dialect)
    requires s.Obj? && Fit(s, v, w, t) && FitDefs(defs, v == w, t)
    requires ConditionHolds(n, defs, s, v, d)
    ensures Loosen(s).Obj? && ConditionHolds(n, LoosenDefs(defs), Loosen(s), w, d)
    decreases n, s, 1
  {
    hide Loosen, Valid, Shortened;
    Untouched(s, "not");
    Untouched(s, "if");
    LoosenedSubschema(s, "then");
    LoosenedSubschema(s, "else");
    FitInside(s, "then", v, w, t);
    FitInside(s, "else", v, w, t);
    if "not" in s.fields { RefFree(n, defs, n, LoosenDefs(defs), s.fields["not"], v, d); }
    if "if" in s.fields {
      RefFree(n, defs, n, LoosenDefs(defs), s.fields["if"], v, d);
      if Valid(n, defs, s.fields["if"], v, d) {
        if "then" in s.fields { LoosenAccepts(n, defs, s.fields["then"], v, w, t, d); }
      } else if "else" in s.fields {
        LoosenAccepts(n, defs, s.fields["else"], v, w, t, d);
      }
    }
  }

  lemma {:induction false} PropertiesAccept(n: nat, defs: Defs, s: Json, v: Json, w: Json, t: Trim, d: Dialect)
    requires s.Obj? && Fit(s, v, w, t) && FitDefs(defs, v == w, t)
    requires PropertiesHold(n, defs, s, v, d)
    ensures Loosen(s).Obj? && PropertiesHold(n, LoosenDefs(defs), Loosen(s), w, d)
    decreases n, s, 1
  {
    hide Loosen, Valid, NegationRefersOut, Fragment, IsAdditional, FitDefs, LoosenDefs, ListOf, NamedOf;
    LoosenedNamed(s, "properties");
    LoosenedNamed(s, "patternProperties");
    LoosenedNamed(s, "dependentSchemas");
    LoosenedSubschema(s, "additionalProperties");
    LoosenedSubschema(s, "propertyNames");
    FitInside(s, "properties", v, w, t);
    FitInside(s, "patternProperties", v, w, t);
    FitInside(s, "dependentSchemas", v, w, t);
    FitInside(s, "additionalProperties", v, w, t);
    FitInside(s, "propertyNames", v, w, t);
    forall k | k in FieldsIn(w)
      ensures k in NamedOf(s, "properties") ==>
                Valid(n, LoosenDefs(defs), Loosen(NamedOf(s, "properties")[k]), FieldsIn(w)[k], d)
      ensures forall p | p in NamedOf(s, "patternProperties") && d.matches(p, k) ::
                Valid(n, LoosenDefs(defs), Loosen(NamedOf(s, "patternProperties")[p]), FieldsIn(w)[k], d)
      ensures IsAdditional(Loosen(s), k, d) == IsAdditional(s, k, d)
      ensures IsAdditional(s, k, d) && "additionalProperties" in s.fields ==>
                Valid(n, LoosenDefs(defs), Loosen(s.fields["additionalProperties"]), FieldsIn(w)[k], d)
      ensures "propertyNames" in s.fields ==>
                Valid(n, LoosenDefs(defs), Loosen(s.fields["propertyNames"]), Str(k), d)
      ensures k in NamedOf(s, "dependentSchemas") ==>
                Valid(n, LoosenDefs(defs), Loosen(NamedOf(s, "dependentSchemas")[k]), w, d)
    {
      FieldAccepts(n, defs, s, v, w, k, t, d);
    }
  }

  lemma {:induction false} FieldAccepts(n: nat, defs: Defs, s: Json, v: Json, w: Json, k: string, t: Trim, d: Dialect)
    requires s.Obj? && Fit(s, v, w, t) && FitDefs(defs, v == w, t) && k in FieldsIn(w)
    requires PropertiesHold(n, defs, s, v, d)
    ensures IsAdditional(Loosen(s), k, d) == IsAdditional(s, k, d)
    ensures k in NamedOf(s, "properties") ==>
              Valid(n, LoosenDefs(defs), Loosen(NamedOf(s, "properties")[k]), FieldsIn(w)[k], d)
    ensures forall p | p in NamedOf(s, "patternProperties") && d.matches(p, k) ::
              Valid(n, LoosenDefs(defs), Loosen(NamedOf(s, "patternProperties")[p]), FieldsIn(w)[k], d)
    ensures IsAdditional(s, k, d) && "additionalProperties" in s.fields ==>
              Valid(n, LoosenDefs(defs), Loosen(s.fields["additionalProperties"]), FieldsIn(w)[k], d)
    ensures "propertyNames" in s.fields ==>
              Valid(n, LoosenDefs(defs), Loosen(s.fields["propertyNames"]), Str(k), d)
    ensures k in NamedOf(s, "dependentSchemas") ==>
              Valid(n, LoosenDefs(defs), Loosen(NamedOf(s, "dependentSchemas")[k]), w, d)
    decreases n, s, 0
  {
    hide Loosen, Valid, NegationRefersOut, Fragment, IsAdditional, FitDefs, LoosenDefs, ListOf, NamedOf;
    LoosenedIsAdditional(s, k, d);
    FitInside(s, "properties", v, w, t);
    FitInside(s, "patternProperties", v, w, t);
    FitInside(s, "dependentSchemas", v, w, t);
    FitInside(s, "additionalProperties", v, w, t);
    FitInside(s, "propertyNames", v, w, t);
    var x, y := FieldsIn(v)[k], FieldsIn(w)[k];
    var same := v == w;
    assert Shortened(x, y, t.(holder := Named(k)));
    hide Shortened;
    ShortenedAnywhere(x, y, t.(holder := Named(k)));
    FitDefsAny(defs, same, x == y, t, t.(holder := Named(k)));
    FitDefsAny(defs, same, x == y, t, t.Anywhere());
    if k in NamedOf(s, "properties") {
      LoosenAccepts(n, defs, NamedOf(s, "properties")[k], x, y, t.Under("properties", k), d);
    }
    forall p | p in NamedOf(s, "patternProperties") && d.matches(p, k)
      ensures Valid(n, LoosenDefs(defs), Loosen(NamedOf(s, "patternProperties")[p]), y, d)
    {
      LoosenAccepts(n, defs, NamedOf(s, "patternProperties")[p], x, y, t.Under("patternProperties", p), d);
    }
    if IsAdditional(s, k, d) && "additionalProperties" in s.fields {
      LoosenAccepts(n, defs, s.fields["additionalProperties"], x, y, t.Under("additionalProperties", ""), d);
    }
    if "propertyNames" in s.fields {
      FitDefsAny(defs, same, true, t, t.Under("propertyNames", ""));
      ShortenedRefl(Str(k), t.Under("propertyNames", ""));
      LoosenAccepts(n, defs, s.fields["propertyNames"], Str(k), Str(k), t.Under("propertyNames", ""), d);
    }
    if k in NamedOf(s, "dependentSchemas") { LoosenAccepts(n, defs, NamedOf(s, "dependentSchemas")[k], v, w, t, d); }
  }

  lemma FitDefsAny(defs: Defs, same: bool, smaller: bool, t: Trim, t': Trim)
    requires FitDefs(defs, same, t) && (same ==> smaller) && t.Anywhere() == t'.Anywhere()
    ensures FitDefs(defs, smaller, t')
  {
  }

  lemma {:induction false} ItemsAccept(n: nat, defs: Defs, s: Json, v: Json, w: Json, t: Trim, d: Dialect)
    requires s.Obj? && Fit(s, v, w, t) && FitDefs(defs, v == w, t)
    requires ItemsHold(n, defs, s, v, d)
    ensures Loosen(s).Obj? && ItemsHold(n, LoosenDefs(defs), Loosen(s), w, d)
    decreases n, s, 1
  {
    hide Loosen, Valid, NegationRefersOut, Fragment, FitDefs, LoosenDefs;
    LoosenedList(s, "prefixItems");
    LoosenedList(s, "items");
    FitInside(s, "prefixItems", v, w, t);
    FitInside(s, "items", v, w, t);
    LoosenKeepsShape(s);
    forall i | 0 <= i < |ItemsIn(w)|
      ensures i < |ListOf(s, "prefixItems")| ==>
                Valid(n, LoosenDefs(defs), Loosen(ListOf(s, "prefixItems")[i]), ItemsIn(w)[i], d)
      ensures i < |ListOf(s, "items")| ==> Valid(n, LoosenDefs(defs), Loosen(ListOf(s, "items")[i]), ItemsIn(w)[i], d)
      ensures Has(s, "items") && !s.fields["items"].Arr? && |ListOf(s, "prefixItems")| <= i ==>
                Valid(n, LoosenDefs(defs), Loosen(s.fields["items"]), ItemsIn(w)[i], d)
    {
      var x, y, t' := ItemsIn(v)[i], ItemsIn(w)[i], t.Under("items", "");
      assert Shortened(x, y, t') && t' == t.Under("prefixItems", "");
      FitDefsAny(defs, v == w, x == y, t, t');
      if i < |ListOf(s, "prefixItems")| { LoosenAccepts(n, defs, ListOf(s, "prefixItems")[i], x, y, t', d); }
      if i < |ListOf(s, "items")| { LoosenAccepts(n, defs, ListOf(s, "items")[i], x, y, t', d); }
      if Has(s, "items") && !s.fields["items"].Arr? && |ListOf(s, "prefixItems")| <= i {
        LoosenAccepts(n, defs, s.fields["items"], x, y, t', d);
      }
    }
  }

  lemma LoosenKeepsShape(s: Json)
    ensures forall k | Has(s, k) :: Loosen(s.fields[k]).Arr? == s.fields[k].Arr?
    ensures forall k | Has(s, k) && s.fields[k].Arr? :: Loosen(s.fields[k]).items == LoosenAll(s.fields[k].items)
  {
  }

  lemma {:induction false} BranchesAccept(n: nat, defs: Defs, s: Json, v: Json, w: Json, t: Trim, d: Dialect)
    requires s.Obj? && Fit(s, v, w, t) && FitDefs(defs, v == w, t)
    requires BranchesHold(n, defs, s, v, d)
    ensures Loosen(s).Obj? && BranchesHold(n, LoosenDefs(defs), Loosen(s), w, d)
    decreases n, s, 1
  {
    hide Loosen, Valid, NegationRefersOut, Fragment, FitDefs, LoosenDefs, SomeBranch, ListOf, Fit;
    LoosenedBranches(s);
    ListShapes(s);
    FitBranches(s, "anyOf", v, w, t);
    FitBranches(s, "allOf", v, w, t);
    FitBranches(s, "oneOf", v, w, t);
    BranchListAccepts(n, defs, s, "anyOf", v, w, t, d);
    BranchListAccepts(n, defs, s, "allOf", v, w, t, d);
    BranchListAccepts(n, defs, s, "oneOf", v, w, t, d);
    if "oneOf" in s.fields && "anyOf" in s.fields {
      WrappedBranches(n, LoosenDefs(defs), Loosen(s.fields["oneOf"]), w, d);
      var all, last := ListOf(Loosen(s), "allOf"), Obj(map["anyOf" := Loosen(s.fields["oneOf"])]);
      assert Valid(n, LoosenDefs(defs), last, w, d);
      assert forall i | 0 <= i < |all| :: i < |ListOf(s, "allOf")| || all[i] == last;
    }
    assert Has(Loosen(s), "anyOf") && Loosen(s).fields["anyOf"].Arr? ==>
        SomeBranch(n, LoosenDefs(defs), Loosen(s), "anyOf", w, d) by {
      SomeOf(n, LoosenDefs(defs), Loosen(s), "anyOf", w, d);
    }
  }

  lemma FitBranches(s: Json, k: string, v: Json, w: Json, t: Trim)
    requires s.Obj? && Fit(s, v, w, t) && k in {"anyOf", "allOf", "oneOf"}
    ensures forall i | 0 <= i < |ListOf(s, k)| :: Fit(ListOf(s, k)[i], v, w, t)
  {
    hide NegationRefersOut, Fragment, Shortened, ListOf;
    FitInside(s, k, v, w, t);
  }

  lemma SomeOf(n: nat, defs: Defs, s: Json, k: string, v: Json, d: Dialect)
    requires s.Obj?
    ensures Has(s, k) && s.fields[k].Arr? ==> SomeBranch(n, defs, s, k, v, d) == SomeValid(n, defs, s.fields[k].items, v, d)
  {
    hide Valid;
    if Has(s, k) && s.fields[k].Arr? {
      var items := ListOf(s, k);
      assert items == s.fields[k].items;
      assert SomeValid(n, defs, items, v, d) == SomeBranch(n, defs, s, k, v, d);
    }
  }

  ghost predicate SomeValid(n: nat, defs: Defs, branches: seq<Json>, v: Json, d: Dialect) {
    exists i | 0 <= i < |branches| :: Valid(n, defs, branches[i], v, d)
  }

  lemma ListShapes(s: Json)
    ensures forall k | Has(s, k) :: Loosen(s.fields[k]).Arr? == s.fields[k].Arr?
    ensures forall k | Has(s, k) && s.fields[k].Arr? ::
              ListOf(s, k) == s.fields[k].items && Loosen(s.fields[k]).items == LoosenAll(ListOf(s, k))
  {
  }

  lemma {:induction false} BranchListAccepts(n: nat, defs: Defs, s: Json, k: string, v: Json, w: Json, t: Trim, d: Dialect)
    requires s.Obj? && FitDefs(defs, v == w, t)
    requires forall i | 0 <= i < |ListOf(s, k)| :: Fit(ListOf(s, k)[i], v, w, t)
    ensures forall i | 0 <= i < |ListOf(s, k)| && Valid(n, defs, ListOf(s, k)[i], v, d) ::
              Valid(n, LoosenDefs(defs), LoosenAll(ListOf(s, k))[i], w, d)
    ensures SomeBranch(n, defs, s, k, v, d) ==> SomeValid(n, LoosenDefs(defs), LoosenAll(ListOf(s, k)), w, d)
    decreases n, s, 0
  {
    hide Loosen, Valid, FitDefs, LoosenDefs, Fit, ListOf;
    var branches := ListOf(s, k);
    forall i | 0 <= i < |branches| && Valid(n, defs, branches[i], v, d)
      ensures Valid(n, LoosenDefs(defs), LoosenAll(branches)[i], w, d)
    {
      LoosenAccepts(n, defs, branches[i], v, w, t, d);
    }
  }

  /** The branches that had to give way to an existing `anyOf` still demand what `anyOf` demands. */
  lemma WrappedBranches(n: nat, defs: Defs, branches: Json, v: Json, d: Dialect)
    ensures Valid(n, defs, Obj(map["anyOf" := branches]), v, d) <==>
              (branches.Arr? ==> SomeValid(n, defs, branches.items, v, d))
  {
    hide Valid, SomeBranch;
    var s := Obj(map["anyOf" := branches]);
    OnlyAnyOf(n, defs, s, v, d);
    SomeOf(n, defs, s, "anyOf", v, d);
  }

  lemma OnlyAnyOf(n: nat, defs: Defs, s: Json, v: Json, d: Dialect)
    requires s.Obj? && s.fields.Keys == {"anyOf"}
    ensures Valid(n, defs, s, v, d) == BranchesHold(n, defs, s, v, d)
  {
    hide BranchesHold, TypeAllows, Valid, SimpleHolds;
    assert forall k | k in s.fields :: k == "anyOf";
    assert "$ref" !in s.fields && "not" !in s.fields && "if" !in s.fields && "items" !in s.fields;
    assert PropertiesHold(n, defs, s, v, d);
    assert ItemsHold(n, defs, s, v, d) && ConditionHolds(n, defs, s, v, d) && RefHolds(n, defs, s, v, d);
    NoSimple(s, v, d);
    ValidObject(n, defs, s, v, d);
  }

  lemma ValidObject(n: nat, defs: Defs, s: Json, v: Json, d: Dialect)
    requires s.Obj?
    ensures Valid(n, defs, s, v, d) <==>
              && SimpleHolds(s, v, d) && RefHolds(n, defs, s, v, d) && ConditionHolds(n, defs, s, v, d)
              && PropertiesHold(n, defs, s, v, d) && ItemsHold(n, defs, s, v, d) && BranchesHold(n, defs, s, v, d)
  {
    hide SimpleHolds, RefHolds, ConditionHolds, PropertiesHold, ItemsHold, BranchesHold;
  }

  lemma NoSimple(s: Json, v: Json, d: Dialect)
    requires s.Obj? && s.fields.Keys == {"anyOf"}
    ensures SimpleHolds(s, v, d)
  {
    hide ListOf, TypeAllows;
    assert forall k | k in s.fields :: k == "anyOf";
  }

  // ---- Whole schemas, with their own definitions ----

  /** References to the entries of one map of definitions; names that a reference would have to escape are
      outside the model. */
  function RefsTo(prefix: string, names: set<string>): (refs: set<string>)
    ensures forall r | r in refs :: prefix <= r && r[|prefix|..] in names
  {
    set name | name in names && PlainName(name) && (prefix + name)[|prefix|..] == name :: prefix + name
  }

  predicate PlainName(name: string) {
    '~' !in name && '/' !in name && '%' !in name
  }

  function Entries(prefix: string, named: map<string, Json>): Defs {
    map r | r in RefsTo(prefix, named.Keys) :: named[r[|prefix|..]]
  }

  function DefsOf(root: Json): Defs {
    Entries("#/$defs/", NamedOf(root, "$defs")) + Entries("#/definitions/", NamedOf(root, "definitions"))
  }

  /** Loosening the schema loosens the definitions its references name. */
  lemma LoosenReachesDefs(root: Json)
    requires root.Obj?
    ensures DefsOf(Loosen(root)) == LoosenDefs(DefsOf(root))
  {
    LoosenedNamed(root, "$defs");
    LoosenedNamed(root, "definitions");
    hide Loosen, NamedOf, Entries, LoosenDefs;
    LoosenedEntries("#/$defs/", NamedOf(root, "$defs"), NamedOf(Loosen(root), "$defs"));
    LoosenedEntries("#/definitions/", NamedOf(root, "definitions"), NamedOf(Loosen(root), "definitions"));
    LoosenDefsJoin(Entries("#/$defs/", NamedOf(root, "$defs")), Entries("#/definitions/", NamedOf(root, "definitions")));
  }

  lemma LoosenDefsJoin(a: Defs, b: Defs)
    ensures LoosenDefs(a) + LoosenDefs(b) == LoosenDefs(a + b)
  {
    hide Loosen;
  }

  lemma LoosenedEntries(prefix: string, named: map<string, Json>, loose: map<string, Json>)
    requires loose.Keys == named.Keys && forall name | name in named :: loose[name] == Loosen(named[name])
    ensures Entries(prefix, loose) == LoosenDefs(Entries(prefix, named))
  {
    hide Loosen, RefsTo;
  }

  lemma FitOwnDefs(root: Json, v: Json, w: Json, t: Trim)
    requires root.Obj? && Fit(root, v, w, t)
    ensures FitDefs(DefsOf(root), v == w, t)
  {
    hide NegationRefersOut, Fragment, RefsTo, Shortened;
    FitInside(root, "$defs", v, w, t);
    FitInside(root, "definitions", v, w, t);
  }

  lemma LoosenKeepsSatisfied(root: Json, v: Json, w: Json, t: Trim, d: Dialect)
    requires Fit(root, v, w, t) && Satisfies(DefsOf(root), root, v, d)
    ensures Satisfies(DefsOf(Loosen(root)), Loosen(root), w, d)
  {
    hide Valid, Loosen, Fit, FitDefs;
    if root.Obj? {
      FitOwnDefs(root, v, w, t);
      LoosenReachesDefs(root);
    } else {
      NoDefs(root, v == w, t);
    }
    var enough: nat :| ValidFrom(enough, DefsOf(root), root, v, d);
    forall n: nat | enough <= n ensures Valid(n, DefsOf(Loosen(root)), Loosen(root), w, d) {
      LoosenAccepts(n, DefsOf(root), root, v, w, t, d);
    }
    assert ValidFrom(enough, DefsOf(Loosen(root)), Loosen(root), w, d);
  }

  lemma NoDefs(root: Json, same: bool, t: Trim)
    requires !root.Obj?
    ensures FitDefs(DefsOf(root), same, t) && LoosenDefs(DefsOf(root)) == DefsOf(Loosen(root))
  {
    EmptyDefs(root);
    EmptyDefs(Loosen(root));
  }

  lemma EmptyDefs(root: Json)
    requires !root.Obj?
    ensures DefsOf(root) == map[]
  {
    hide RefsTo;
    assert NamedOf(root, "$defs") == map[] && NamedOf(root, "definitions") == map[];
    assert Entries("#/$defs/", map[]) == map[] && Entries("#/definitions/", map[]) == map[];
  }

  /** Loosening only weakens, `not`, `if` and references included, as long as no negated subschema
      refers elsewhere. */
  lemma LoosenOnlyWeakens(root: Json, v: Json, d: Dialect)
    requires !NegationRefersOut(root)
    requires Satisfies(DefsOf(root), root, v, d)
    ensures Satisfies(DefsOf(Loosen(root)), Loosen(root), v, d)
  {
    hide Satisfies, NegationRefersOut, Fragment, Shortened;
    var t := Trim(Unknown, None);
    ShortenedRefl(v, t);
    LoosenKeepsSatisfied(root, v, v, t, d);
  }

  /** The loosened schema accepts whatever such a trim leaves of a value the schema accepts. */
  lemma ShortenedStaysValid(root: Json, v: Json, w: Json, t: Trim, d: Dialect)
    requires Fragment(root, t) && Shortened(v, w, t)
    requires Satisfies(DefsOf(root), root, v, d)
    ensures Satisfies(DefsOf(Loosen(root)), Loosen(root), w, d)
  {
    hide Satisfies, Loosen, DefsOf, Fragment, Shortened;
    LoosenKeepsSatisfied(root, v, w, t, d);
  }

  /** The same of any trim whatever: then a listed string needs all its prefixes listed. */
  lemma TrimmedStaysValid(root: Json, v: Json, w: Json, d: Dialect)
    requires Fragment(root, Trim(Unknown, None)) && Trimmed(v, w)
    requires Satisfies(DefsOf(root), root, v, d)
    ensures Satisfies(DefsOf(Loosen(root)), Loosen(root), w, d)
  {
    hide Satisfies, Loosen, DefsOf, Fragment;
    TrimmedIsShortened(v, w, Trim(Unknown, None));
    ShortenedStaysValid(root, v, w, Trim(Unknown, None), d);
  }

  // ---- What a loosened schema means, exactly ----

  /** Validity with the keywords that a trim can break left out and `oneOf` read as `anyOf`, except under `not`
      and `if`, where a schema means what it says. */
  predicate Lenient(n: nat, defs: Defs, s: Json, v: Json, d: Dialect)
    decreases n, s, 2
  {
    match s
    case Bool(b) => b
    case Obj(_) =>
      && LenientSimple(s, v, d)
      && LenientRef(n, defs, s, v, d)
      && LenientCondition(n, defs, s, v, d)
      && LenientProperties(n, defs, s, v, d)
      && LenientItems(n, defs, s, v, d)
      && LenientBranches(n, defs, s, v, d)
    case _ => true
  }

  predicate LenientSimple(s: Json, v: Json, d: Dialect)
    requires s.Obj?
  {
    && (forall k | k in UNMODELLED :: k !in s.fields)
    && ("type" in s.fields ==> TypeAllows(s.fields["type"], v))
    && ("enum" in s.fields && s.fields["enum"].Arr? ==> v in s.fields["enum"].items)
    && ("const" in s.fields ==> v == s.fields["const"])
    && ("maxLength" in s.fields && s.fields["maxLength"].Num? && v.Str? ==> |v.s| as real <= s.fields["maxLength"].n)
    && (forall k | k in s.fields && k in NUMERIC && v.Num? :: d.number(k, s.fields[k], v))
  }

  predicate LenientRef(n: nat, defs: Defs, s: Json, v: Json, d: Dialect)
    requires s.Obj?
    decreases n, s, 0
  {
    "$ref" in s.fields ==>
      s.fields["$ref"].Str? && s.fields["$ref"].s in defs && (n > 0 ==> Lenient(n - 1, defs, defs[s.fields["$ref"].s], v, d))
  }

  predicate LenientCondition(n: nat, defs: Defs, s: Json, v: Json, d: Dialect)
    requires s.Obj?
    decreases n, s, 0
  {
    && ("not" in s.fields ==> !Valid(n, defs, s.fields["not"], v, d))
    && ("if" in s.fields ==>
          if Valid(n, defs, s.fields["if"], v, d)
          then "then" in s.fields ==> Lenient(n, defs, s.fields["then"], v, d)
          else "else" in s.fields ==> Lenient(n, defs, s.fields["else"], v, d))
  }

  predicate LenientProperties(n: nat, defs: Defs, s: Json, v: Json, d: Dialect)
    requires s.Obj?
    decreases n, s, 1
  {
    forall k | k in FieldsIn(v) :: LenientField(n, defs, s, v, k, d)
  }

  /** All that is said of one field of an object. */
  predicate LenientField(n: nat, defs: Defs, s: Json, v: Json, k: string, d: Dialect)
    requires s.Obj? && k in FieldsIn(v)
    decreases n, s, 0
  {
    && (k in NamedOf(s, "properties") ==> Lenient(n, defs, NamedOf(s, "properties")[k], FieldsIn(v)[k], d))
    && (forall p | p in NamedOf(s, "patternProperties") && d.matches(p, k) ::
          Lenient(n, defs, NamedOf(s, "patternProperties")[p], FieldsIn(v)[k], d))
    && ("additionalProperties" in s.fields && IsAdditional(s, k, d) ==>
          Lenient(n, defs, s.fields["additionalProperties"], FieldsIn(v)[k], d))
    && ("propertyNames" in s.fields ==> Lenient(n, defs, s.fields["propertyNames"], Str(k), d))
    && (k in NamedOf(s, "dependentSchemas") ==> Lenient(n, defs, NamedOf(s, "dependentSchemas")[k], v, d))
  }

  predicate LenientItems(n: nat, defs: Defs, s: Json, v: Json, d: Dialect)
    requires s.Obj?
    decreases n, s, 1
  {
    forall i | 0 <= i < |ItemsIn(v)| :: LenientItem(n, defs, s, v, i, d)
  }

  predicate LenientItem(n: nat, defs: Defs, s: Json, v: Json, i: nat, d: Dialect)
    requires s.Obj? && i < |ItemsIn(v)|
    decreases n, s, 0
  {
    && (i < |ListOf(s, "prefixItems")| ==> Lenient(n, defs, ListOf(s, "prefixItems")[i], ItemsIn(v)[i], d))
    && (i < |ListOf(s, "items")| ==> Lenient(n, defs, ListOf(s, "items")[i], ItemsIn(v)[i], d))
    && (Has(s, "items") && !s.fields["items"].Arr? && |ListOf(s, "prefixItems")| <= i ==>
          Lenient(n, defs, s.fields["items"], ItemsIn(v)[i], d))
  }

  predicate LenientBranches(n: nat, defs: Defs, s: Json, v: Json, d: Dialect)
    requires s.Obj?
    decreases n, s, 1
  {
    && (Has(s, "anyOf") && s.fields["anyOf"].Arr? ==> LenientSome(n, defs, s, "anyOf", v, d))
    && (forall i | 0 <= i < |ListOf(s, "allOf")| :: Lenient(n, defs, ListOf(s, "allOf")[i], v, d))
    && (Has(s, "oneOf") && s.fields["oneOf"].Arr? ==> LenientSome(n, defs, s, "oneOf", v, d))
  }

  predicate LenientSome(n: nat, defs: Defs, s: Json, keyword: string, v: Json, d: Dialect)
    requires s.Obj?
    decreases n, s, 0
  {
    exists i | 0 <= i < |ListOf(s, keyword)| :: Lenient(n, defs, ListOf(s, keyword)[i], v, d)
  }

  ghost predicate Guarded(defs: Defs) { forall r | r in defs :: !NegationRefersOut(defs[r]) }

  /** A value is valid under the loosened schema exactly when it is leniently valid under the schema itself: nothing
      else is given up. */
  lemma {:induction false} LoosenMeans(n: nat, defs: Defs, s: Json, v: Json, d: Dialect)
    requires !NegationRefersOut(s) && Guarded(defs)
    ensures Valid(n, LoosenDefs(defs), Loosen(s), v, d) <==> Lenient(n, defs, s, v, d)
    decreases n, s, 2
  {
    hide Valid, LenientSimple, LenientRef, LenientCondition, LenientProperties, LenientItems, LenientBranches, LoosenDefs, Guarded, LoosenValue,
         SimpleHolds, RefHolds, ConditionHolds, PropertiesHold, ItemsHold, BranchesHold, NegationRefersOut;
    if s.Obj? {
      LoosenedField(s, "type");
      SimpleMeans(s, v, d);
      RefMeans(n, defs, s, v, d);
      ConditionMeans(n, defs, s, v, d);
      PropertiesMean(n, defs, s, v, d);
      ItemsMean(n, defs, s, v, d);
      BranchesMean(n, defs, s, v, d);
      hide Loosen;
      ValidObject(n, LoosenDefs(defs), Loosen(s), v, d);
    } else {
      NotAnObject(n, LoosenDefs(defs), s, v, d);
    }
  }

  lemma NotAnObject(n: nat, defs: Defs, s: Json, v: Json, d: Dialect)
    requires !s.Obj?
    ensures Valid(n, defs, Loosen(s), v, d) <==> (s.Bool? ==> s.b)
  {
  }

  lemma SimpleMeans(s: Json, v: Json, d: Dialect)
    requires s.Obj?
    ensures Loosen(s).Obj? && (SimpleHolds(Loosen(s), v, d) <==> LenientSimple(s, v, d))
  {
    hide Loosen, TypeAllows, ListOf, TRIM_SENSITIVE, NUMERIC;
    SimpleKept(s);
    forall k | k in UNMODELLED ensures k in Loosen(s).fields <==> k in s.fields {
      LoosenedField(s, k);
      UnmodelledStays(k);
    }
  }

  lemma UnmodelledStays(k: string)
    requires k in UNMODELLED
    ensures k !in TRIM_SENSITIVE && k != "oneOf" && k != "anyOf" && k != "allOf"
  {
  }

  lemma {:induction false} RefMeans(n: nat, defs: Defs, s: Json, v: Json, d: Dialect)
    requires s.Obj? && !NegationRefersOut(s) && Guarded(defs)
    ensures Loosen(s).Obj? && (RefHolds(n, LoosenDefs(defs), Loosen(s), v, d) <==> LenientRef(n, defs, s, v, d))
    decreases n, s, 1
  {
    hide Loosen, NegationRefersOut, Valid, Lenient;
    Untouched(s, "$ref");
    if "$ref" in s.fields && s.fields["$ref"].Str? && s.fields["$ref"].s in defs && n > 0 {
      LoosenMeans(n - 1, defs, defs[s.fields["$ref"].s], v, d);
    }
  }

  lemma NegationIsClosed(s: Json)
    requires s.Obj? && !NegationRefersOut(s)
    ensures "not" in s.fields ==> !ContainsRef(s.fields["not"])
    ensures "if" in s.fields ==> !ContainsRef(s.fields["if"])
  {
    hide ContainsRef;
  }

  lemma {:induction false} ConditionMeans(n: nat, defs: Defs, s: Json, v: Json, d: Dialect)
    requires s.Obj? && !NegationRefersOut(s) && Guarded(defs)
    ensures Loosen(s).Obj? && (ConditionHolds(n, LoosenDefs(defs), Loosen(s), v, d) <==> LenientCondition(n, defs, s, v, d))
    decreases n, s, 1
  {
    hide Loosen, NegationRefersOut, Valid, Lenient, Guarded, LoosenDefs;
    Untouched(s, "not");
    Untouched(s, "if");
    LoosenedSubschema(s, "then");
    LoosenedSubschema(s, "else");
    NegationIsClosed(s);
    GuardInside(s, "then");
    GuardInside(s, "else");
    if "not" in s.fields { RefFree(n, defs, n, LoosenDefs(defs), s.fields["not"], v, d); }
    if "if" in s.fields { RefFree(n, defs, n, LoosenDefs(defs), s.fields["if"], v, d); }
    if "then" in s.fields { LoosenMeans(n, defs, s.fields["then"], v, d); }
    if "else" in s.fields { LoosenMeans(n, defs, s.fields["else"], v, d); }
  }

  /** The conditions on an object's fields, gathered field by field. */
  predicate FieldHolds(n: nat, defs: Defs, s: Json, v: Json, k: string, d: Dialect)
    requires s.Obj? && k in FieldsIn(v)
  {
    && (k in NamedOf(s, "properties") ==> Valid(n, defs, NamedOf(s, "properties")[k], FieldsIn(v)[k], d))
    && (forall p | p in NamedOf(s, "patternProperties") && d.matches(p, k) ::
          Valid(n, defs, NamedOf(s, "patternProperties")[p], FieldsIn(v)[k], d))
    && ("additionalProperties" in s.fields && IsAdditional(s, k, d) ==>
          Valid(n, defs, s.fields["additionalProperties"], FieldsIn(v)[k], d))
    && ("propertyNames" in s.fields ==> Valid(n, defs, s.fields["propertyNames"], Str(k), d))
    && (k in NamedOf(s, "dependentSchemas") ==> Valid(n, defs, NamedOf(s, "dependentSchemas")[k], v, d))
  }

  lemma FieldByField(n: nat, defs: Defs, s: Json, v: Json, d: Dialect)
    requires s.Obj?
    ensures PropertiesHold(n, defs, s, v, d) <==> forall k | k in FieldsIn(v) :: FieldHolds(n, defs, s, v, k, d)
  {
    hide Valid, IsAdditional, NamedOf;
    if PropertiesHold(n, defs, s, v, d) {
      forall k | k in FieldsIn(v) ensures FieldHolds(n, defs, s, v, k, d) {}
    }
    if forall k | k in FieldsIn(v) :: FieldHolds(n, defs, s, v, k, d) {
      forall p, k | p in NamedOf(s, "patternProperties") && k in FieldsIn(v) && d.matches(p, k)
        ensures Valid(n, defs, NamedOf(s, "patternProperties")[p], FieldsIn(v)[k], d)
      {
        assert FieldHolds(n, defs, s, v, k, d);
      }
    }
  }

  lemma {:induction false} PropertiesMean(n: nat, defs: Defs, s: Json, v: Json, d: Dialect)
    requires s.Obj? && !NegationRefersOut(s) && Guarded(defs)
    ensures Loosen(s).Obj? && (PropertiesHold(n, LoosenDefs(defs), Loosen(s), v, d) <==> LenientProperties(n, defs, s, v, d))
    decreases n, s, 1
  {
    hide Loosen, Valid, Lenient, NegationRefersOut, Guarded, LoosenDefs, PropertiesHold, FieldHolds, LenientField;
    LoosenedField(s, "type");
    FieldByField(n, LoosenDefs(defs), Loosen(s), v, d);
    forall k | k in FieldsIn(v) ensures FieldHolds(n, LoosenDefs(defs), Loosen(s), v, k, d) <==> LenientField(n, defs, s, v, k, d) {
      FieldMeans(n, defs, s, v, k, d);
    }
  }

  lemma {:induction false} FieldMeans(n: nat, defs: Defs, s: Json, v: Json, k: string, d: Dialect)
    requires s.Obj? && !NegationRefersOut(s) && Guarded(defs) && k in FieldsIn(v)
    ensures Loosen(s).Obj? && (FieldHolds(n, LoosenDefs(defs), Loosen(s), v, k, d) <==> LenientField(n, defs, s, v, k, d))
    decreases n, s, 0
  {
    hide Loosen, Valid, Lenient, NegationRefersOut, Guarded, LoosenDefs, IsAdditional, NamedOf;
    LoosenedNamed(s, "properties");
    LoosenedNamed(s, "patternProperties");
    LoosenedNamed(s, "dependentSchemas");
    LoosenedSubschema(s, "additionalProperties");
    LoosenedSubschema(s, "propertyNames");
    LoosenedIsAdditional(s, k, d);
    GuardInside(s, "properties");
    GuardInside(s, "patternProperties");
    GuardInside(s, "dependentSchemas");
    GuardInside(s, "additionalProperties");
    GuardInside(s, "propertyNames");
    var x := FieldsIn(v)[k];
    if k in NamedOf(s, "properties") {
      SmallerNamed(s, "properties", k);
      LoosenMeans(n, defs, NamedOf(s, "properties")[k], x, d);
    }
    forall p | p in NamedOf(s, "patternProperties") && d.matches(p, k)
      ensures Valid(n, LoosenDefs(defs), Loosen(NamedOf(s, "patternProperties")[p]), x, d)
              <==> Lenient(n, defs, NamedOf(s, "patternProperties")[p], x, d)
    {
      SmallerNamed(s, "patternProperties", p);
      LoosenMeans(n, defs, NamedOf(s, "patternProperties")[p], x, d);
    }
    if "additionalProperties" in s.fields { LoosenMeans(n, defs, s.fields["additionalProperties"], x, d); }
    if "propertyNames" in s.fields { LoosenMeans(n, defs, s.fields["propertyNames"], Str(k), d); }
    if k in NamedOf(s, "dependentSchemas") {
      SmallerNamed(s, "dependentSchemas", k);
      LoosenMeans(n, defs, NamedOf(s, "dependentSchemas")[k], v, d);
    }
  }

  lemma SmallerNamed(s: Json, keyword: string, k: string)
    requires k in NamedOf(s, keyword)
    ensures NamedOf(s, keyword)[k] < s
  {
  }

  predicate ItemHolds(n: nat, defs: Defs, s: Json, v: Json, i: nat, d: Dialect)
    requires s.Obj? && i < |ItemsIn(v)|
  {
    && (i < |ListOf(s, "prefixItems")| ==> Valid(n, defs, ListOf(s, "prefixItems")[i], ItemsIn(v)[i], d))
    && (i < |ListOf(s, "items")| ==> Valid(n, defs, ListOf(s, "items")[i], ItemsIn(v)[i], d))
    && (Has(s, "items") && !s.fields["items"].Arr? && |ListOf(s, "prefixItems")| <= i ==>
          Valid(n, defs, s.fields["items"], ItemsIn(v)[i], d))
  }

  lemma ItemByItem(n: nat, defs: Defs, s: Json, v: Json, d: Dialect)
    requires s.Obj?
    ensures ItemsHold(n, defs, s, v, d) <==> forall i | 0 <= i < |ItemsIn(v)| :: ItemHolds(n, defs, s, v, i, d)
  {
    hide Valid;
    if forall i | 0 <= i < |ItemsIn(v)| :: ItemHolds(n, defs, s, v, i, d) {
      forall i | 0 <= i < |ItemsIn(v)|
        ensures i < |ListOf(s, "prefixItems")| ==> Valid(n, defs, ListOf(s, "prefixItems")[i], ItemsIn(v)[i], d)
        ensures i < |ListOf(s, "items")| ==> Valid(n, defs, ListOf(s, "items")[i], ItemsIn(v)[i], d)
        ensures Has(s, "items") && !s.fields["items"].Arr? && |ListOf(s, "prefixItems")| <= i ==>
                  Valid(n, defs, s.fields["items"], ItemsIn(v)[i], d)
      {
        assert ItemHolds(n, defs, s, v, i, d);
      }
    }
  }

  lemma {:induction false} ItemsMean(n: nat, defs: Defs, s: Json, v: Json, d: Dialect)
    requires s.Obj? && !NegationRefersOut(s) && Guarded(defs)
    ensures Loosen(s).Obj? && (ItemsHold(n, LoosenDefs(defs), Loosen(s), v, d) <==> LenientItems(n, defs, s, v, d))
    decreases n, s, 1
  {
    hide Loosen, Valid, Lenient, NegationRefersOut, Guarded, LoosenDefs, ItemsHold, ItemHolds, LenientItem;
    LoosenedField(s, "type");
    ItemByItem(n, LoosenDefs(defs), Loosen(s), v, d);
    forall i | 0 <= i < |ItemsIn(v)| ensures ItemHolds(n, LoosenDefs(defs), Loosen(s), v, i, d) <==> LenientItem(n, defs, s, v, i, d) {
      ItemMeans(n, defs, s, v, i, d);
    }
  }

  lemma {:induction false} ItemMeans(n: nat, defs: Defs, s: Json, v: Json, i: nat, d: Dialect)
    requires s.Obj? && !NegationRefersOut(s) && Guarded(defs) && i < |ItemsIn(v)|
    ensures Loosen(s).Obj? && (ItemHolds(n, LoosenDefs(defs), Loosen(s), v, i, d) <==> LenientItem(n, defs, s, v, i, d))
    decreases n, s, 0
  {
    hide Loosen, Valid, Lenient, NegationRefersOut, Guarded, LoosenDefs;
    LoosenedList(s, "prefixItems");
    LoosenedList(s, "items");
    LoosenKeepsShape(s);
    GuardInside(s, "prefixItems");
    GuardInside(s, "items");
    var x := ItemsIn(v)[i];
    if i < |ListOf(s, "prefixItems")| { LoosenMeans(n, defs, ListOf(s, "prefixItems")[i], x, d); }
    if i < |ListOf(s, "items")| { LoosenMeans(n, defs, ListOf(s, "items")[i], x, d); }
    if Has(s, "items") && !s.fields["items"].Arr? { LoosenMeans(n, defs, s.fields["items"], x, d); }
  }

  lemma {:induction false} BranchListMeans(n: nat, defs: Defs, s: Json, k: string, v: Json, d: Dialect)
    requires s.Obj? && !NegationRefersOut(s) && Guarded(defs)
    ensures forall i | 0 <= i < |ListOf(s, k)| ::
              Valid(n, LoosenDefs(defs), LoosenAll(ListOf(s, k))[i], v, d) <==> Lenient(n, defs, ListOf(s, k)[i], v, d)
    ensures SomeValid(n, LoosenDefs(defs), LoosenAll(ListOf(s, k)), v, d) <==> LenientSome(n, defs, s, k, v, d)
    decreases n, s, 0
  {
    hide Loosen, Valid, Lenient, NegationRefersOut, Guarded, LoosenDefs, ListOf;
    GuardInside(s, k);
    var branches := ListOf(s, k);
    forall i | 0 <= i < |branches|
      ensures Valid(n, LoosenDefs(defs), LoosenAll(branches)[i], v, d) <==> Lenient(n, defs, branches[i], v, d)
    {
      LoosenMeans(n, defs, branches[i], v, d);
    }
  }

  lemma {:induction false} BranchesMean(n: nat, defs: Defs, s: Json, v: Json, d: Dialect)
    requires s.Obj? && !NegationRefersOut(s) && Guarded(defs)
    ensures Loosen(s).Obj? && (BranchesHold(n, LoosenDefs(defs), Loosen(s), v, d) <==> LenientBranches(n, defs, s, v, d))
    decreases n, s, 1
  {
    hide Loosen, Valid, Lenient, NegationRefersOut, Guarded, LoosenDefs, SomeBranch, LenientSome, SomeValid, ListOf;
    LoosenedBranches(s);
    ListShapes(s);
    BranchListMeans(n, defs, s, "anyOf", v, d);
    BranchListMeans(n, defs, s, "allOf", v, d);
    BranchListMeans(n, defs, s, "oneOf", v, d);
    SomeOf(n, LoosenDefs(defs), Loosen(s), "anyOf", v, d);
    if "oneOf" in s.fields && "anyOf" in s.fields {
      WrappedBranches(n, LoosenDefs(defs), Loosen(s.fields["oneOf"]), v, d);
      var before, all := LoosenAll(ListOf(s, "allOf")), ListOf(Loosen(s), "allOf");
      var last := Obj(map["anyOf" := Loosen(s.fields["oneOf"])]);
      assert all == before + [last] && |before| == |ListOf(s, "allOf")|;
      AllAndLast(n, LoosenDefs(defs), before, last, v, d);
    }
    NoOneOf(n, LoosenDefs(defs), Loosen(s), v, d);
  }

  lemma AllAndLast(n: nat, defs: Defs, before: seq<Json>, last: Json, v: Json, d: Dialect)
    ensures (forall i | 0 <= i < |before + [last]| :: Valid(n, defs, (before + [last])[i], v, d))
            <==> (forall i | 0 <= i < |before| :: Valid(n, defs, before[i], v, d)) && Valid(n, defs, last, v, d)
  {
    hide Valid;
    assert forall i | 0 <= i < |before| :: (before + [last])[i] == before[i];
    assert (before + [last])[|before|] == last;
  }

  lemma NoOneOf(n: nat, defs: Defs, s: Json, v: Json, d: Dialect)
    requires s.Obj? && "oneOf" !in s.fields
    ensures BranchesHold(n, defs, s, v, d) <==>
              && (Has(s, "anyOf") && s.fields["anyOf"].Arr? ==> SomeBranch(n, defs, s, "anyOf", v, d))
              && (forall i | 0 <= i < |ListOf(s, "allOf")| :: Valid(n, defs, ListOf(s, "allOf")[i], v, d))
  {
    hide Valid, SomeBranch, ListOf;
  }

  ghost predicate LenientFrom(enough: nat, defs: Defs, s: Json, v: Json, d: Dialect) {
    forall n: nat | enough <= n :: Lenient(n, defs, s, v, d)
  }

  /** The same of whole schemas, however many references may be followed, from some number on. */
  lemma LoosenedSatisfiedIff(root: Json, v: Json, d: Dialect)
    requires root.Obj? && !NegationRefersOut(root)
    ensures Satisfies(DefsOf(Loosen(root)), Loosen(root), v, d) <==> exists enough: nat :: LenientFrom(enough, DefsOf(root), root, v, d)
  {
    hide Valid, Lenient, Loosen, DefsOf, NegationRefersOut;
    LoosenReachesDefs(root);
    DefsGuarded(root);
    var defs, loose := DefsOf(root), Loosen(root);
    forall n: nat ensures Valid(n, DefsOf(loose), loose, v, d) <==> Lenient(n, defs, root, v, d) { LoosenMeans(n, defs, root, v, d); }
    forall enough: nat ensures ValidFrom(enough, DefsOf(loose), loose, v, d) <==> LenientFrom(enough, defs, root, v, d) {}
  }

  lemma DefsGuarded(root: Json)
    requires root.Obj? && !NegationRefersOut(root)
    ensures Guarded(DefsOf(root))
  {
    hide NegationRefersOut, RefsTo;
    GuardInside(root, "$defs");
    GuardInside(root, "definitions");
  }

  // ---- Loosening does no more than it has to ----

  /** No schema object on the walk has a keyword that loosening deletes or rewrites. */
  predicate Clean(s: Json) {
    match s
    case Arr(items) => forall i | 0 <= i < |items| :: Clean(items[i])
    case Obj(m) =>
      && "oneOf" !in m && (forall k | k in TRIM_SENSITIVE :: k !in m)
      && (forall k | k in m && k in SUBSCHEMA_KEYS :: Clean(m[k]))
      && (forall k, name | k in m && k in SUBSCHEMA_MAP_KEYS && m[k].Obj? && name in m[k].fields :: Clean(m[k].fields[name]))
    case _ => true
  }

  /** A schema without those keywords is left exactly as it is. */
  lemma {:induction false} CleanIsUntouched(s: Json)
    requires Clean(s)
    ensures Loosen(s) == s
    decreases s
  {
    hide TRIM_SENSITIVE, SUBSCHEMA_KEYS, SUBSCHEMA_MAP_KEYS;
    match s
    case Arr(items) =>
      forall i | 0 <= i < |items| ensures Loosen(items[i]) == items[i] { CleanIsUntouched(items[i]); }
      assert LoosenAll(items) == items;
    case Obj(m) =>
      forall k | k in m ensures LoosenValue(k, m[k]) == m[k] {
        if k in SUBSCHEMA_KEYS {
          CleanIsUntouched(m[k]);
        } else if k in SUBSCHEMA_MAP_KEYS && m[k].Obj? {
          forall name | name in m[k].fields ensures Loosen(m[k].fields[name]) == m[k].fields[name] {
            assert Clean(m[k].fields[name]);
            CleanIsUntouched(m[k].fields[name]);
          }
          assert LoosenValue(k, m[k]).fields == m[k].fields;
        }
      }
      hide LoosenValue, Clean;
      assert Loosen(s).fields == m;
    case _ =>
  }

  /** A loosened schema has none of those keywords left, so loosening twice is loosening once. */
  lemma {:induction false} LoosenIsClean(s: Json)
    ensures Clean(Loosen(s))
    decreases s
  {
    match s
    case Arr(items) =>
      forall i | 0 <= i < |items| ensures Clean(Loosen(items[i])) { LoosenIsClean(items[i]); }
    case Obj(m) =>
      hide Clean, Loosen;
      forall k | k in m ensures PartIsClean(k, LoosenValue(k, m[k])) { LoosenIsCleanPart(s, k); }
      if "oneOf" in m { LoosenIsClean(m["oneOf"]); }
      LoosenedKeysClean(s);
    case _ =>
  }

  lemma LoosenTwice(s: Json)
    ensures Loosen(Loosen(s)) == Loosen(s)
  {
    hide Loosen, Clean;
    LoosenIsClean(s);
    CleanIsUntouched(Loosen(s));
  }

  ghost predicate PartIsClean(key: string, value: Json) {
    && (key in SUBSCHEMA_KEYS ==> Clean(value))
    && (key in SUBSCHEMA_MAP_KEYS && value.Obj? ==> forall name | name in value.fields :: Clean(value.fields[name]))
  }

  lemma {:induction false} LoosenIsCleanPart(s: Json, k: string)
    requires s.Obj? && k in s.fields
    ensures PartIsClean(k, LoosenValue(k, s.fields[k]))
    decreases s, 0
  {
    hide Loosen, Clean, TRIM_SENSITIVE;
    var value := s.fields[k];
    if k in SUBSCHEMA_KEYS {
      LoosenIsClean(value);
      KeysApart(k);
    } else if k in SUBSCHEMA_MAP_KEYS && value.Obj? {
      forall name | name in value.fields ensures Clean(Loosen(value.fields[name])) { LoosenIsClean(value.fields[name]); }
    }
  }

  lemma KeysApart(k: string)
    requires k in SUBSCHEMA_KEYS
    ensures k !in SUBSCHEMA_MAP_KEYS
  {
  }

  /** The keywords of a loosened object, those that the rewriting of `oneOf` adds included. */
  lemma LoosenedKeysClean(s: Json)
    requires s.Obj?
    requires forall k | k in s.fields :: PartIsClean(k, LoosenValue(k, s.fields[k]))
    requires "oneOf" in s.fields ==> Clean(Loosen(s.fields["oneOf"]))
    ensures Clean(Loosen(s))
  {
    hide Clean, LoosenValue, PartIsClean, Loosen;
    var loose := Loosen(s);
    LoosenedField(s, "type");
    forall k | k in loose.fields
      ensures PartIsClean(k, loose.fields[k]) && k !in TRIM_SENSITIVE && k != "oneOf"
    {
      LoosenedField(s, k);
      if k == "anyOf" { LoosenedAnyOfClean(s); }
      if k == "allOf" { LoosenedAllOfClean(s); }
    }
    CleanFromParts(loose);
  }

  lemma CleanFromParts(s: Json)
    requires s.Obj? && forall k | k in s.fields :: PartIsClean(k, s.fields[k]) && k !in TRIM_SENSITIVE && k != "oneOf"
    ensures Clean(s)
  {
    hide TRIM_SENSITIVE, SUBSCHEMA_KEYS, SUBSCHEMA_MAP_KEYS;
  }

  lemma LoosenedAnyOfClean(s: Json)
    requires s.Obj? && Loosen(s).Obj? && "anyOf" in Loosen(s).fields
    requires "anyOf" in s.fields ==> PartIsClean("anyOf", LoosenValue("anyOf", s.fields["anyOf"]))
    requires "oneOf" in s.fields ==> Clean(Loosen(s.fields["oneOf"]))
    ensures PartIsClean("anyOf", Loosen(s).fields["anyOf"])
  {
    hide Clean, Loosen;
    LoosenedBranches(s);
    KeysApart("anyOf");
  }

  lemma LoosenedAllOfClean(s: Json)
    requires s.Obj? && Loosen(s).Obj? && "allOf" in Loosen(s).fields
    requires "allOf" in s.fields ==> PartIsClean("allOf", LoosenValue("allOf", s.fields["allOf"]))
    requires "oneOf" in s.fields ==> Clean(Loosen(s.fields["oneOf"]))
    ensures PartIsClean("allOf", Loosen(s).fields["allOf"])
  {
    AllOfParts(s);
    KeysApart("allOf");
    if "oneOf" in s.fields { WrappedIsClean(Loosen(s.fields["oneOf"])); }
    hide Loosen;
  }

  lemma WrappedIsClean(branches: Json)
    requires Clean(branches)
    ensures Clean(Obj(map["anyOf" := branches]))
  {
    assert "anyOf" !in SUBSCHEMA_MAP_KEYS && "anyOf" !in TRIM_SENSITIVE;
  }

  lemma AllOfParts(s: Json)
    requires s.Obj? && Loosen(s).Obj? && "allOf" in Loosen(s).fields
    ensures var all := Loosen(s).fields["allOf"];
            || ("allOf" in s.fields && all == LoosenValue("allOf", s.fields["allOf"]))
            || ("oneOf" in s.fields && all == Arr([Obj(map["anyOf" := Loosen(s.fields["oneOf"])])]))
            || ("oneOf" in s.fields && "allOf" in s.fields && s.fields["allOf"].Arr?
                && LoosenValue("allOf", s.fields["allOf"]) == Arr(LoosenAll(s.fields["allOf"].items))
                && all == Arr(LoosenAll(s.fields["allOf"].items) + [Obj(map["anyOf" := Loosen(s.fields["oneOf"])])]))
  {
    assert "allOf" in SUBSCHEMA_KEYS;
    assert [] + [Obj(map["anyOf" := Loosen(Null)])] == [Obj(map["anyOf" := Loosen(Null)])];
  }

  // ---- When a projection keeps listed values listed ----

  predicate IsScalar(v: Json) { !v.Arr? && !v.Obj? }

  /** A limit leaves a string listed: it does not reach it, or cuts it to another listed string. */
  predicate StaysListed(s: string, limit: int, listed: seq<Json>) {
    limit <= 0 || |s| <= limit || Str(Truncation.Cut(s, limit)) in listed
  }

  /** Projection maps every listed scalar of a field to a listed value if and only if each listed string
      fits the field's limit or is cut to a listed string. */
  lemma ListedScalarsIff(listed: seq<Json>, name: string, place: Projection.Place, cfg: Projection.Effective)
    ensures (forall v | v in listed && IsScalar(v) :: Projection.Project(v, name, place, cfg) in listed)
            <==> (forall s | Str(s) in listed :: StaysListed(s, cfg.StringLimitFor(name), listed))
  {
    hide Truncation.Cut;
    var limit := cfg.StringLimitFor(name);
    forall s | Str(s) in listed
      ensures StaysListed(s, limit, listed) <==> Projection.Project(Str(s), name, place, cfg) in listed
    {
      assert Projection.Project(Str(s), name, place, cfg) == Str(Projection.ShortString(s, limit));
    }
    forall v | v in listed && IsScalar(v)
      ensures Projection.Project(v, name, place, cfg) in listed <==> (v.Str? ==> StaysListed(v.s, limit, listed))
    {
      if v.Str? { assert v == Str(v.s); }
    }
    hide StaysListed;
    assert forall s | Str(s) in listed :: IsScalar(Str(s));
    assert forall s | Str(s) in listed :: StaysListed(s, limit, listed) <==> Projection.Project(Str(s), name, place, cfg) in listed;
  }

  /** The fragment asks exactly that of the scalars a named field may hold. */
  lemma KeptIff(listed: seq<Json>, name: string, cfg: Projection.Effective)
    requires forall v | v in listed :: IsScalar(v)
    ensures Kept(listed, Trim(Named(name), Some(cfg)))
            <==> (forall s | Str(s) in listed :: StaysListed(s, cfg.StringLimitFor(name), listed))
  {
    hide Truncation.Cut;
    var t, limit := Trim(Named(name), Some(cfg)), cfg.StringLimitFor(name);
    assert t.StringLimits() == {limit};
    assert forall s :: t.Shortenings(s) == {Projection.ShortString(s, limit)};
    if Kept(listed, t) {
      forall s | Str(s) in listed ensures StaysListed(s, limit, listed) {
        var i :| 0 <= i < |listed| && listed[i] == Str(s);
        assert Projection.ShortString(s, limit) in t.Shortenings(s);
      }
    }
    if forall s | Str(s) in listed :: StaysListed(s, limit, listed) {
      assert forall i | 0 <= i < |listed| :: listed[i] in listed;
      forall i | 0 <= i < |listed| && listed[i].Str?
        ensures forall short | short in t.Shortenings(listed[i].s) :: Str(short) in listed
      {
        assert Str(listed[i].s) in listed;
        assert StaysListed(listed[i].s, limit, listed);
      }
    }
  }

  /** A schema object that only lists values. */
  ghost predicate OnlyLists(s: Json, listed: seq<Json>) {
    s == Obj(map["enum" := Arr(listed)]) || (|listed| == 1 && s == Obj(map["const" := listed[0]]))
  }

  lemma OnlyListed(n: nat, defs: Defs, s: Json, listed: seq<Json>, v: Json, d: Dialect)
    requires OnlyLists(s, listed)
    ensures Valid(n, defs, s, v, d) <==> v in listed
  {
    hide Valid, SimpleHolds;
    assert forall other | other in s.fields :: other == "enum" || other == "const";
    assert "$ref" !in s.fields && "not" !in s.fields && "if" !in s.fields && "items" !in s.fields;
    ValidObject(n, defs, s, v, d);
    ListsHoldNothingElse(n, defs, s, v, d);
    SimpleListed(s, listed, v, d);
  }

  lemma ListsHoldNothingElse(n: nat, defs: Defs, s: Json, v: Json, d: Dialect)
    requires s.Obj? && s.fields.Keys <= {"enum", "const"}
    ensures RefHolds(n, defs, s, v, d) && ConditionHolds(n, defs, s, v, d)
    ensures PropertiesHold(n, defs, s, v, d) && ItemsHold(n, defs, s, v, d) && BranchesHold(n, defs, s, v, d)
  {
    hide Valid;
    assert forall other | other in s.fields :: other == "enum" || other == "const";
    assert "$ref" !in s.fields && "not" !in s.fields && "if" !in s.fields && "items" !in s.fields;
  }

  lemma SimpleListed(s: Json, listed: seq<Json>, v: Json, d: Dialect)
    requires OnlyLists(s, listed)
    ensures SimpleHolds(s, v, d) == (v in listed)
  {
    hide ListOf, TypeAllows;
    assert forall other | other in s.fields :: other == "enum" || other == "const";
  }

  lemma ListsUntouched(s: Json, listed: seq<Json>)
    requires OnlyLists(s, listed)
    ensures Loosen(s) == s
  {
    hide Loosen, TRIM_SENSITIVE, SUBSCHEMA_KEYS, SUBSCHEMA_MAP_KEYS;
    assert Clean(s) by {
      assert forall other | other in s.fields :: other == "enum" || other == "const";
      ListingIsKept();
    }
    CleanIsUntouched(s);
  }

  lemma ListingIsKept()
    ensures forall k | k in {"enum", "const"} :: k !in TRIM_SENSITIVE && k !in SUBSCHEMA_KEYS && k !in SUBSCHEMA_MAP_KEYS
  {
  }

  /** For a field that lists scalars: loosening leaves the list alone, and the projection of every value it
      accepts is accepted again if and only if no listed string is cut to an unlisted one. */
  lemma ListedValuesIff(s: Json, listed: seq<Json>, name: string, place: Projection.Place, cfg: Projection.Effective, d: Dialect)
    requires OnlyLists(s, listed) && forall v | v in listed :: IsScalar(v)
    ensures (forall v | Satisfies(map[], s, v, d) :: Satisfies(map[], Loosen(s), Projection.Project(v, name, place, cfg), d))
            <==> (forall text | Str(text) in listed :: StaysListed(text, cfg.StringLimitFor(name), listed))
  {
    hide Valid, Loosen, Projection.Project, StaysListed;
    ListsUntouched(s, listed);
    forall v ensures Satisfies(map[], s, v, d) <==> v in listed { ListedSatisfied(s, listed, v, d); }
    ListedScalarsIff(listed, name, place, cfg);
  }

  lemma ListedSatisfied(s: Json, listed: seq<Json>, v: Json, d: Dialect)
    requires OnlyLists(s, listed)
    ensures Satisfies(map[], s, v, d) <==> v in listed
  {
    hide Valid, OnlyLists;
    forall n: nat ensures Valid(n, map[], s, v, d) <==> v in listed { OnlyListed(n, map[], s, listed, v, d); }
    if v in listed {
      assert ValidFrom(0, map[], s, v, d);
    } else {
      forall enough: nat ensures !ValidFrom(enough, map[], s, v, d) { assert !Valid(enough, map[], s, v, d); }
    }
  }

  /** The gap is real: a limit of one code point cuts the only listed string. */
  lemma ListedValueGap(name: string, place: Projection.Place, cfg: Projection.Effective, d: Dialect)
    requires cfg.StringLimitFor(name) == 1
    ensures var s := Obj(map["enum" := Arr([Str("abc")])]);
            exists v :: Satisfies(map[], s, v, d) && !Satisfies(map[], Loosen(s), Projection.Project(v, name, place, cfg), d)
  {
    hide Valid, Loosen, Projection.Project, Satisfies;
    var listed := [Str("abc")];
    Truncation.CutBounds("abc", 1);
    assert Str("abc") in listed && !StaysListed("abc", 1, listed);
    ListedValuesIff(Obj(map["enum" := Arr(listed)]), listed, name, place, cfg, d);
  }
}
