/** Projection of a tool result: dropping excluded fields and shortening arrays and strings, with a
    report for everything removed. Markup stripping is off. */
module Projection {
  import opened Options
  import opened Json
  import opened ExcludePath
  import opened JqPath
  import Truncation
  import Sorting

  // ---- Effective configuration ----

  datatype Defaults = Defaults(stringLimit: int)

  datatype Config = Config(
    includeOnly: seq<string>,
    exclude: seq<string>,
    arrayLimits: map<string, int>,
    stringLimits: map<string, int>)

  datatype Effective = Effective(
    includeOnly: seq<string>,
    exclude: seq<seq<Step>>,
    arrayLimits: map<string, int>,
    stringLimits: map<string, int>,
    defaultArrayLimit: int,
    defaultStringLimit: int)
  {
    function StringLimitFor(field: string): int {
      if field in stringLimits then stringLimits[field] else defaultStringLimit
    }

    function ArrayLimitFor(field: string): int {
      if field != "" && field in arrayLimits then arrayLimits[field] else defaultArrayLimit
    }
  }

  /** The rules that parse; the others are ignored. */
  function PrepareExclusions(rules: seq<string>): seq<seq<Step>> {
    if rules == [] then []
    else (match Parse(rules[0]) case Some(steps) => [steps] case None => []) + PrepareExclusions(rules[1..])
  }

  function MergeWithDefaults(cfg: Option<Config>, defaults: Defaults): Effective {
    match cfg
    case None => Effective([], [], map[], map[], 0, defaults.stringLimit)
    case Some(c) =>
      Effective(c.includeOnly, PrepareExclusions(c.exclude), c.arrayLimits, c.stringLimits,
                if "default" in c.arrayLimits then c.arrayLimits["default"] else 0,
                defaults.stringLimit)
  }

  /** The merged exclusions are exactly the step lists some configured rule denotes. */
  lemma {:induction false} ExclusionsAreRules(rules: seq<string>, steps: seq<Step>)
    ensures steps in PrepareExclusions(rules) <==> exists i | 0 <= i < |rules| :: Denotes(rules[i], steps)
  {
    hide Parse, Denotes;
    if rules != [] {
      ParseIffDenotes(rules[0], steps);
      ExclusionsAreRules(rules[1..], steps);
      var head := match Parse(rules[0]) case Some(s) => [s] case None => [];
      assert PrepareExclusions(rules) == head + PrepareExclusions(rules[1..]);
      if steps in PrepareExclusions(rules[1..]) {
        var i :| 0 <= i < |rules| - 1 && Denotes(rules[1..][i], steps);
        assert Denotes(rules[i + 1], steps);
      }
      if exists i | 0 <= i < |rules| :: Denotes(rules[i], steps) {
        var i :| 0 <= i < |rules| && Denotes(rules[i], steps);
        assert i > 0 ==> Denotes(rules[1..][i - 1], steps);
      }
    }
  }

  // ---- What is left of a value ----

  /** Where in the result the walk is: depth counts named containers only. */
  datatype Place = Place(depth: nat, path: seq<Seg>, steps: seq<Step>)

  const ROOT := Place(0, [], [])

  function StepInto(place: Place, cfg: Effective, seg: Seg): Place {
    Place(
      place.depth + (if seg.Key? then 1 else 0),
      place.path + [seg],
      if |cfg.exclude| > 0 then place.steps + [if seg.Key? then FieldStep(seg.key) else ItemStep] else [])
  }

  predicate IsExcluded(key: string, parent: seq<Step>, exclude: seq<seq<Step>>) {
    exists i | 0 <= i < |exclude| :: exclude[i] == parent + [FieldStep(key)]
  }

  predicate ShouldSkip(key: string, place: Place, cfg: Effective) {
    || IsExcluded(key, place.steps, cfg.exclude)
    || (place.depth == 0 && |cfg.includeOnly| > 0 && key !in cfg.includeOnly)
  }

  function KeptItems(items: seq<Json>, limit: int): (n: nat)
    ensures n <= |items|
  {
    if limit > 0 && |items| > limit then limit else |items|
  }

  function ShortString(s: string, limit: int): (short: string)
    ensures |short| <= |s|
  {
    if limit > 0 && |s| > limit then Truncation.Cut(s, limit) else s
  }

  /** `name` is the field the value belongs to, empty for the root and for array items. */
  function Project(v: Json, name: string, place: Place, cfg: Effective): Json
    decreases v
  {
    match v
    case Obj(fields) =>
      Obj(map k | k in fields && !ShouldSkip(k, place, cfg) ::
        Project(fields[k], k, StepInto(place, cfg, Key(k)), cfg))
    case Arr(items) =>
      Arr(seq(KeptItems(items, cfg.ArrayLimitFor(name)), i requires 0 <= i < |items| =>
        Project(items[i], "", StepInto(place, cfg, Index(i)), cfg)))
    case Str(s) => Str(ShortString(s, cfg.StringLimitFor(name)))
    case _ => v
  }

  // ---- Reports ----

  datatype Truncated = Truncated(path: string, chars: nat, items: nat)

  function PathText(path: seq<Seg>): string { FormatPath(PathTexts(path)) }

  /** The printed paths of all excluded fields. */
  function Excluded(v: Json, name: string, place: Place, cfg: Effective): set<string>
    decreases v
  {
    match v
    case Obj(fields) =>
      (set k | k in fields && ShouldSkip(k, place, cfg) :: PathText(place.path + [Key(k)])) +
      (set k, e | k in fields && !ShouldSkip(k, place, cfg) && e in Excluded(fields[k], k, StepInto(place, cfg, Key(k)), cfg)
        :: e)
    case Arr(items) =>
      set i, e | 0 <= i < KeptItems(items, cfg.ArrayLimitFor(name))
                 && e in Excluded(items[i], "", StepInto(place, cfg, Index(i)), cfg) :: e
    case _ => {}
  }

  /** A report for every array and string above its limit. */
  function Cuts(v: Json, name: string, place: Place, cfg: Effective): set<Truncated>
    decreases v
  {
    match v
    case Obj(fields) =>
      set k, e | k in fields && !ShouldSkip(k, place, cfg) && e in Cuts(fields[k], k, StepInto(place, cfg, Key(k)), cfg)
        :: e
    case Arr(items) =>
      var kept := KeptItems(items, cfg.ArrayLimitFor(name));
      (if kept < |items| then {Truncated(PathText(place.path), 0, |items| - kept)} else {}) +
      (set i, e | 0 <= i < kept && e in Cuts(items[i], "", StepInto(place, cfg, Index(i)), cfg) :: e)
    case Str(s) =>
      var limit := cfg.StringLimitFor(name);
      if limit > 0 && |s| > limit
      then {Truncated(PathText(place.path), |s| - |ShortString(s, limit)|, 0)}
      else {}
    case _ => {}
  }

  // ---- Projection only trims ----

  lemma {:induction false} ProjectTrims(v: Json, name: string, place: Place, cfg: Effective)
    ensures Trimmed(v, Project(v, name, place, cfg))
    decreases v
  {
    hide ShouldSkip, StepInto;
    match v
    case Obj(fields) =>
      forall k | k in fields ensures Trimmed(fields[k], Project(fields[k], k, StepInto(place, cfg, Key(k)), cfg)) {
        ProjectTrims(fields[k], k, StepInto(place, cfg, Key(k)), cfg);
      }
    case Arr(items) =>
      forall i | 0 <= i < |items| ensures Trimmed(items[i], Project(items[i], "", StepInto(place, cfg, Index(i)), cfg)) {
        ProjectTrims(items[i], "", StepInto(place, cfg, Index(i)), cfg);
      }
    case _ =>
  }

  ghost predicate NothingLost(cuts: set<Truncated>) { forall e | e in cuts :: e.chars == 0 && e.items == 0 }

  lemma OverLimitReports(v: Json, name: string, place: Place, cfg: Effective)
    ensures v.Arr? && KeptItems(v.items, cfg.ArrayLimitFor(name)) < |v.items| ==>
              Truncated(PathText(place.path), 0, |v.items| - KeptItems(v.items, cfg.ArrayLimitFor(name))) in Cuts(v, name, place, cfg)
    ensures v.Str? && ShortString(v.s, cfg.StringLimitFor(name)) != v.s ==>
              && |ShortString(v.s, cfg.StringLimitFor(name))| < |v.s|
              && Truncated(PathText(place.path), |v.s| - |ShortString(v.s, cfg.StringLimitFor(name))|, 0) in Cuts(v, name, place, cfg)
  {
    hide StepInto, PathText, Truncation.CutLength;
  }

  /** With nothing excluded and nothing lost to a limit, the value is unchanged. */
  lemma {:induction false} NothingLostNoChange(v: Json, name: string, place: Place, cfg: Effective)
    requires Excluded(v, name, place, cfg) == {} && NothingLost(Cuts(v, name, place, cfg))
    ensures Project(v, name, place, cfg) == v
    decreases v
  {
    hide ShouldSkip, StepInto, PathText, ShortString;
    OverLimitReports(v, name, place, cfg);
    match v
    case Obj(fields) =>
      forall k | k in fields
        ensures !ShouldSkip(k, place, cfg) && Project(fields[k], k, StepInto(place, cfg, Key(k)), cfg) == fields[k]
      {
        assert ShouldSkip(k, place, cfg) ==> PathText(place.path + [Key(k)]) in Excluded(v, name, place, cfg);
        NothingReportedBelow(v, name, place, cfg, k);
        NothingLostNoChange(fields[k], k, StepInto(place, cfg, Key(k)), cfg);
      }
    case Arr(items) =>
      forall i | 0 <= i < |items| ensures Project(items[i], "", StepInto(place, cfg, Index(i)), cfg) == items[i] {
        NothingReportedInItem(v, name, place, cfg, i);
        NothingLostNoChange(items[i], "", StepInto(place, cfg, Index(i)), cfg);
      }
    case _ =>
  }

  /** With nothing reported, the value is unchanged. */
  lemma NoReportNoChange(v: Json, name: string, place: Place, cfg: Effective)
    requires Excluded(v, name, place, cfg) == {} && Cuts(v, name, place, cfg) == {}
    ensures Project(v, name, place, cfg) == v
  {
    hide Excluded, Cuts, Project;
    NothingLostNoChange(v, name, place, cfg);
  }

  lemma NothingReportedBelow(v: Json, name: string, place: Place, cfg: Effective, k: string)
    requires v.Obj? && k in v.fields && !ShouldSkip(k, place, cfg)
    requires Excluded(v, name, place, cfg) == {} && NothingLost(Cuts(v, name, place, cfg))
    ensures Excluded(v.fields[k], k, StepInto(place, cfg, Key(k)), cfg) == {}
    ensures NothingLost(Cuts(v.fields[k], k, StepInto(place, cfg, Key(k)), cfg))
  {
    hide ShouldSkip, StepInto, PathText;
    forall e | e in Excluded(v.fields[k], k, StepInto(place, cfg, Key(k)), cfg) ensures e in Excluded(v, name, place, cfg) {
    }
    forall e | e in Cuts(v.fields[k], k, StepInto(place, cfg, Key(k)), cfg) ensures e in Cuts(v, name, place, cfg) {
    }
  }

  lemma NothingReportedInItem(v: Json, name: string, place: Place, cfg: Effective, i: nat)
    requires v.Arr? && i < KeptItems(v.items, cfg.ArrayLimitFor(name))
    requires Excluded(v, name, place, cfg) == {} && NothingLost(Cuts(v, name, place, cfg))
    ensures Excluded(v.items[i], "", StepInto(place, cfg, Index(i)), cfg) == {}
    ensures NothingLost(Cuts(v.items[i], "", StepInto(place, cfg, Index(i)), cfg))
  {
    hide StepInto, PathText;
    forall e | e in Excluded(v.items[i], "", StepInto(place, cfg, Index(i)), cfg) ensures e in Excluded(v, name, place, cfg) {
    }
    forall e | e in Cuts(v.items[i], "", StepInto(place, cfg, Index(i)), cfg) ensures e in Cuts(v, name, place, cfg) {
    }
  }

  // ---- Which paths survive ----

  function At(v: Json, path: seq<Seg>): Option<Json> {
    if path == [] then Some(v)
    else match path[0]
      case Key(k) => if v.Obj? && k in v.fields then At(v.fields[k], path[1..]) else None
      case Index(i) => if v.Arr? && i < |v.items| then At(v.items[i], path[1..]) else None
  }

  function StepsOf(path: seq<Seg>): (steps: seq<Step>)
    ensures |steps| == |path|
  {
    seq(|path|, i requires 0 <= i < |path| => if path[i].Key? then FieldStep(path[i].key) else ItemStep)
  }

  function KeyCount(path: seq<Seg>): nat {
    if path == [] then 0 else KeyCount(path[..|path| - 1]) + if path[|path| - 1].Key? then 1 else 0
  }

  function NameOf(path: seq<Seg>): string {
    if path != [] && path[|path| - 1].Key? then path[|path| - 1].key else ""
  }

  /** Whether the last step of a path is taken away: a field that an exclude rule names by its whole
      path, or that the include list omits while no named field encloses it; or an item beyond its
      array's limit. */
  predicate Removed(cfg: Effective, path: seq<Seg>)
    requires path != []
  {
    var parent, last := path[..|path| - 1], path[|path| - 1];
    match last
    case Key(k) =>
      || StepsOf(path) in cfg.exclude
      || (KeyCount(parent) == 0 && |cfg.includeOnly| > 0 && k !in cfg.includeOnly)
    case Index(i) =>
      var limit := cfg.ArrayLimitFor(NameOf(parent));
      limit > 0 && i >= limit
  }

  predicate Survives(cfg: Effective, path: seq<Seg>) {
    forall n | 0 < n <= |path| :: !Removed(cfg, path[..n])
  }

  function PlaceOf(path: seq<Seg>, cfg: Effective): Place {
    Place(KeyCount(path), path, if |cfg.exclude| > 0 then StepsOf(path) else [])
  }

  lemma PlaceOfStep(path: seq<Seg>, seg: Seg, cfg: Effective)
    ensures StepInto(PlaceOf(path, cfg), cfg, seg) == PlaceOf(path + [seg], cfg)
    ensures NameOf(path + [seg]) == if seg.Key? then seg.key else ""
  {
    assert (path + [seg])[..|path|] == path;
    assert StepsOf(path + [seg]) == StepsOf(path) + [if seg.Key? then FieldStep(seg.key) else ItemStep];
  }

  lemma SkipIsRemoved(path: seq<Seg>, k: string, cfg: Effective)
    ensures ShouldSkip(k, PlaceOf(path, cfg), cfg) <==> Removed(cfg, path + [Key(k)])
  {
    var whole := path + [Key(k)];
    assert whole[..|path|] == path;
    assert StepsOf(whole) == StepsOf(path) + [FieldStep(k)];
  }

  lemma KeptIsNotRemoved(path: seq<Seg>, items: seq<Json>, i: nat, cfg: Effective)
    requires i < |items|
    ensures i < KeptItems(items, cfg.ArrayLimitFor(NameOf(path))) <==> !Removed(cfg, path + [Index(i)])
  {
    assert (path + [Index(i)])[..|path|] == path;
  }

  lemma SurvivesStep(cfg: Effective, base: seq<Seg>, rest: seq<Seg>)
    requires rest != []
    ensures var next := base + [rest[0]];
            (forall n | |base| < n <= |base + rest| :: !Removed(cfg, (base + rest)[..n])) <==>
            !Removed(cfg, next) && forall n | |next| < n <= |next + rest[1..]| :: !Removed(cfg, (next + rest[1..])[..n])
  {
    hide Removed;
    var next := base + [rest[0]];
    assert base + rest == next + rest[1..];
    assert (base + rest)[..|next|] == next;
  }

  /** What projection leaves below a place, path by path. */
  lemma {:induction false} ProjectBelow(v: Json, base: seq<Seg>, rest: seq<Seg>, cfg: Effective)
    ensures At(Project(v, NameOf(base), PlaceOf(base, cfg), cfg), rest) ==
            if At(v, rest).Some? && forall n | |base| < n <= |base + rest| :: !Removed(cfg, (base + rest)[..n])
            then Some(Project(At(v, rest).value, NameOf(base + rest), PlaceOf(base + rest, cfg), cfg))
            else None
    decreases |rest|
  {
    hide Removed, ShouldSkip, PlaceOf, NameOf, StepInto, KeptItems, ShortString;
    if rest == [] {
      assert base + rest == base;
    } else {
      var next := base + [rest[0]];
      assert base + rest == next + rest[1..];
      SurvivesStep(cfg, base, rest);
      PlaceOfStep(base, rest[0], cfg);
      match rest[0]
      case Key(k) =>
        SkipIsRemoved(base, k, cfg);
        if v.Obj? && k in v.fields {
          ProjectBelow(v.fields[k], next, rest[1..], cfg);
        }
      case Index(i) =>
        if v.Arr? && i < |v.items| {
          KeptIsNotRemoved(base, v.items, i, cfg);
          ProjectBelow(v.items[i], next, rest[1..], cfg);
        }
    }
  }

  function Apply(v: Json, cfg: Effective): Json { Project(v, "", ROOT, cfg) }

  /** A path is in the projected value exactly when it is in the original and no step of it is removed;
      what stands there is the projection of what stood there. */
  lemma ProjectedPaths(v: Json, cfg: Effective, path: seq<Seg>)
    ensures At(Apply(v, cfg), path) ==
            if At(v, path).Some? && Survives(cfg, path)
            then Some(Project(At(v, path).value, NameOf(path), PlaceOf(path, cfg), cfg))
            else None
  {
    hide Removed, Project;
    assert PlaceOf([], cfg) == ROOT && StepsOf([]) == [];
    assert [] + path == path;
    ProjectBelow(v, [], path, cfg);
  }

  // ---- Everything removed is reported ----

  /** A field of `v` that `w` lacks although it has the object it was in. */
  ghost predicate Missing(v: Json, w: Json, path: seq<Seg>) {
    && path != [] && path[|path| - 1].Key?
    && At(v, path).Some?
    && At(w, path[..|path| - 1]).Some?
    && At(w, path).None?
  }

  /** An array or string of `v` that is shorter in `w`. */
  ghost predicate Shorter(v: Json, w: Json, path: seq<Seg>, chars: nat, items: nat) {
    match (At(v, path), At(w, path))
    case (Some(Arr(a)), Some(Arr(b))) => |b| < |a| && items == |a| - |b| && chars == 0
    case (Some(Str(s)), Some(Str(t))) => |t| < |s| && chars == |s| - |t| && items == 0
    case _ => false
  }

  lemma {:induction false} AtConcat(v: Json, a: seq<Seg>, b: seq<Seg>)
    ensures At(v, a + b) == if At(v, a).Some? then At(At(v, a).value, b) else None
  {
    if a == [] {
      assert a + b == b;
    } else {
      assert (a + b)[1..] == a[1..] + b && (a + b)[0] == a[0];
      match a[0]
      case Key(k) => if v.Obj? && k in v.fields { AtConcat(v.fields[k], a[1..], b); }
      case Index(i) => if v.Arr? && i < |v.items| { AtConcat(v.items[i], a[1..], b); }
    }
  }

  /** Reports made at a surviving path are among all reports. */
  lemma {:induction false} ReportsBelow(v: Json, base: seq<Seg>, rest: seq<Seg>, cfg: Effective)
    requires At(v, rest).Some?
    requires forall n | |base| < n <= |base + rest| :: !Removed(cfg, (base + rest)[..n])
    ensures Excluded(At(v, rest).value, NameOf(base + rest), PlaceOf(base + rest, cfg), cfg)
            <= Excluded(v, NameOf(base), PlaceOf(base, cfg), cfg)
    ensures Cuts(At(v, rest).value, NameOf(base + rest), PlaceOf(base + rest, cfg), cfg)
            <= Cuts(v, NameOf(base), PlaceOf(base, cfg), cfg)
    decreases |rest|
  {
    hide Removed, ShouldSkip, PlaceOf, NameOf, StepInto, KeptItems, ShortString, PathText;
    if rest == [] {
      assert base + rest == base;
    } else {
      var next := base + [rest[0]];
      assert base + rest == next + rest[1..];
      SurvivesStep(cfg, base, rest);
      PlaceOfStep(base, rest[0], cfg);
      match rest[0]
      case Key(k) =>
        SkipIsRemoved(base, k, cfg);
        ReportsBelow(v.fields[k], next, rest[1..], cfg);
      case Index(i) =>
        KeptIsNotRemoved(base, v.items, i, cfg);
        ReportsBelow(v.items[i], next, rest[1..], cfg);
    }
  }

  lemma ReportsAt(v: Json, cfg: Effective, path: seq<Seg>)
    requires At(v, path).Some? && Survives(cfg, path)
    ensures Excluded(At(v, path).value, NameOf(path), PlaceOf(path, cfg), cfg) <= Excluded(v, "", ROOT, cfg)
    ensures Cuts(At(v, path).value, NameOf(path), PlaceOf(path, cfg), cfg) <= Cuts(v, "", ROOT, cfg)
  {
    hide Removed, Excluded, Cuts;
    assert PlaceOf([], cfg) == ROOT && StepsOf([]) == [];
    assert [] + path == path;
    ReportsBelow(v, [], path, cfg);
  }

  /** Every missing field is among the reported paths. */
  lemma MissingIsReported(v: Json, cfg: Effective, path: seq<Seg>)
    requires Missing(v, Apply(v, cfg), path)
    ensures PathText(path) in Excluded(v, "", ROOT, cfg)
  {
    hide Removed, ShouldSkip, PathText, Project;
    var parent, k := path[..|path| - 1], path[|path| - 1].key;
    assert path == parent + [Key(k)];
    ProjectedPaths(v, cfg, path);
    ProjectedPaths(v, cfg, parent);
    AtConcat(v, parent, [Key(k)]);
    assert forall n | 0 < n < |path| :: path[..n] == parent[..n];
    assert path[..|path|] == path;
    assert Survives(cfg, parent) && !Survives(cfg, path);
    assert Removed(cfg, path);
    SkipIsRemoved(parent, k, cfg);
    ReportsAt(v, cfg, parent);
    var inner := At(v, parent).value;
    assert inner.Obj? && k in inner.fields;
    assert PathText(path) in Excluded(inner, NameOf(parent), PlaceOf(parent, cfg), cfg);
  }

  /** Every array and string that comes out shorter is reported with the number of items or code
      points it lost. */
  lemma ShorterIsReported(v: Json, cfg: Effective, path: seq<Seg>, chars: nat, items: nat)
    requires Shorter(v, Apply(v, cfg), path, chars, items)
    ensures Truncated(PathText(path), chars, items) in Cuts(v, "", ROOT, cfg)
  {
    hide Removed, ShouldSkip, PathText, StepInto;
    ProjectedPaths(v, cfg, path);
    ReportsAt(v, cfg, path);
    var at := At(v, path).value;
    assert Truncated(PathText(path), chars, items) in Cuts(at, NameOf(path), PlaceOf(path, cfg), cfg);
  }

  /** Every reported exclusion is a missing field. */
  lemma {:induction false} ExcludedIsRemoved(v: Json, base: seq<Seg>, cfg: Effective, e: string) returns (rest: seq<Seg>)
    requires e in Excluded(v, NameOf(base), PlaceOf(base, cfg), cfg)
    ensures rest != [] && rest[|rest| - 1].Key? && At(v, rest).Some? && e == PathText(base + rest)
    ensures Removed(cfg, base + rest)
    ensures forall n | |base| < n < |base + rest| :: !Removed(cfg, (base + rest)[..n])
    decreases v
  {
    hide Removed, ShouldSkip, PlaceOf, NameOf, StepInto, KeptItems, PathText;
    match v
    case Obj(fields) =>
      if k :| k in fields && ShouldSkip(k, PlaceOf(base, cfg), cfg) && e == PathText(PlaceOf(base, cfg).path + [Key(k)]) {
        SkipIsRemoved(base, k, cfg);
        PlacePath(base, cfg);
        rest := [Key(k)];
        assert At(fields[k], rest[1..]) == Some(fields[k]);
      } else {
        var k :| k in fields && !ShouldSkip(k, PlaceOf(base, cfg), cfg)
                 && e in Excluded(fields[k], k, StepInto(PlaceOf(base, cfg), cfg, Key(k)), cfg);
        SkipIsRemoved(base, k, cfg);
        PlaceOfStep(base, Key(k), cfg);
        var inner := ExcludedIsRemoved(fields[k], base + [Key(k)], cfg, e);
        rest := [Key(k)] + inner;
        RestStep(cfg, base, Key(k), inner);
      }
    case Arr(items) =>
      var i :| 0 <= i < KeptItems(items, cfg.ArrayLimitFor(NameOf(base)))
               && e in Excluded(items[i], "", StepInto(PlaceOf(base, cfg), cfg, Index(i)), cfg);
      KeptIsNotRemoved(base, items, i, cfg);
      PlaceOfStep(base, Index(i), cfg);
      var inner := ExcludedIsRemoved(items[i], base + [Index(i)], cfg, e);
      rest := [Index(i)] + inner;
      RestStep(cfg, base, Index(i), inner);
  }

  lemma PlacePath(base: seq<Seg>, cfg: Effective)
    ensures PlaceOf(base, cfg).path == base
  {
  }

  lemma RestStep(cfg: Effective, base: seq<Seg>, seg: Seg, inner: seq<Seg>)
    requires inner != [] && !Removed(cfg, base + [seg])
    requires var next := base + [seg]; forall n | |next| < n < |next + inner| :: !Removed(cfg, (next + inner)[..n])
    ensures var rest := [seg] + inner;
            && base + rest == base + [seg] + inner
            && rest[1..] == inner && rest[0] == seg && rest[|rest| - 1] == inner[|inner| - 1]
            && forall n | |base| < n < |base + rest| :: !Removed(cfg, (base + rest)[..n])
  {
    hide Removed;
    var rest := [seg] + inner;
    assert base + rest == base + [seg] + inner;
    assert (base + rest)[..|base| + 1] == base + [seg];
  }

  /** The exclusion report lists exactly the missing fields. */
  lemma ExclusionReportExact(v: Json, cfg: Effective, e: string)
    ensures e in Excluded(v, "", ROOT, cfg) <==> exists path :: Missing(v, Apply(v, cfg), path) && e == PathText(path)
  {
    hide Excluded, PathText, Apply, Missing;
    if e in Excluded(v, "", ROOT, cfg) {
      var path := ReportedIsRemoved(v, cfg, e);
      RemovedIsMissing(v, cfg, path);
    }
    forall path | Missing(v, Apply(v, cfg), path) ensures PathText(path) in Excluded(v, "", ROOT, cfg) {
      MissingIsReported(v, cfg, path);
    }
  }

  lemma ReportedIsRemoved(v: Json, cfg: Effective, e: string) returns (path: seq<Seg>)
    requires e in Excluded(v, "", ROOT, cfg)
    ensures path != [] && path[|path| - 1].Key? && At(v, path).Some? && e == PathText(path)
    ensures Removed(cfg, path) && forall n | 0 < n < |path| :: !Removed(cfg, path[..n])
  {
    hide Removed, Excluded, PathText, At;
    assert PlaceOf([], cfg) == ROOT && StepsOf([]) == [] && NameOf([]) == "";
    path := ExcludedIsRemoved(v, [], cfg, e);
    assert [] + path == path;
  }

  /** A field whose removal is the first on its path is missing. */
  lemma RemovedIsMissing(v: Json, cfg: Effective, path: seq<Seg>)
    requires path != [] && path[|path| - 1].Key? && At(v, path).Some?
    requires Removed(cfg, path) && forall n | 0 < n < |path| :: !Removed(cfg, path[..n])
    ensures Missing(v, Apply(v, cfg), path)
  {
    hide Removed, Project, PlaceOf, NameOf, At, Apply;
    var parent := path[..|path| - 1];
    assert path == parent + [path[|path| - 1]];
    AtConcat(v, parent, [path[|path| - 1]]);
    ProjectedPaths(v, cfg, path);
    ProjectedPaths(v, cfg, parent);
    assert path[..|path|] == path;
    forall n | 0 < n <= |parent| ensures !Removed(cfg, parent[..n]) { assert parent[..n] == path[..n]; }
  }

  /** The report a value itself gives rise to, whatever is inside it. */
  function OwnCut(v: Json, path: seq<Seg>, cfg: Effective): Option<Truncated> {
    match v
    case Arr(items) =>
      var kept := KeptItems(items, cfg.ArrayLimitFor(NameOf(path)));
      if kept < |items| then Some(Truncated(PathText(path), 0, |items| - kept)) else None
    case Str(s) =>
      var limit := cfg.StringLimitFor(NameOf(path));
      if limit > 0 && |s| > limit then Some(Truncated(PathText(path), |s| - |ShortString(s, limit)|, 0)) else None
    case _ => None
  }

  lemma CutsAreOwnOrBelow(v: Json, base: seq<Seg>, cfg: Effective, e: Truncated)
    requires e in Cuts(v, NameOf(base), PlaceOf(base, cfg), cfg)
    ensures OwnCut(v, base, cfg) == Some(e) || v.Obj? || v.Arr?
    ensures v.Obj? ==>
              exists k | k in v.fields && !ShouldSkip(k, PlaceOf(base, cfg), cfg) ::
                e in Cuts(v.fields[k], k, StepInto(PlaceOf(base, cfg), cfg, Key(k)), cfg)
    ensures v.Arr? && OwnCut(v, base, cfg) != Some(e) ==>
              exists i | 0 <= i < KeptItems(v.items, cfg.ArrayLimitFor(NameOf(base))) ::
                e in Cuts(v.items[i], "", StepInto(PlaceOf(base, cfg), cfg, Index(i)), cfg)
  {
    hide ShouldSkip, NameOf, StepInto, PathText, ShortString;
    PlacePath(base, cfg);
  }

  /** Every reported cut is that of a value whose path survives. */
  lemma {:induction false} CutHasPlace(v: Json, base: seq<Seg>, cfg: Effective, e: Truncated) returns (rest: seq<Seg>)
    requires e in Cuts(v, NameOf(base), PlaceOf(base, cfg), cfg)
    ensures At(v, rest).Some? && OwnCut(At(v, rest).value, base + rest, cfg) == Some(e)
    ensures forall n | |base| < n <= |base + rest| :: !Removed(cfg, (base + rest)[..n])
    decreases v
  {
    hide Removed, ShouldSkip, PlaceOf, NameOf, StepInto, KeptItems, PathText, OwnCut, Cuts;
    CutsAreOwnOrBelow(v, base, cfg, e);
    if OwnCut(v, base, cfg) == Some(e) {
      rest := [];
      assert base + rest == base;
    } else if v.Obj? {
      var k :| k in v.fields && !ShouldSkip(k, PlaceOf(base, cfg), cfg)
               && e in Cuts(v.fields[k], k, StepInto(PlaceOf(base, cfg), cfg, Key(k)), cfg);
      SkipIsRemoved(base, k, cfg);
      PlaceOfStep(base, Key(k), cfg);
      var inner := CutHasPlace(v.fields[k], base + [Key(k)], cfg, e);
      rest := [Key(k)] + inner;
      WholeStep(cfg, base, Key(k), inner);
    } else {
      var i :| 0 <= i < KeptItems(v.items, cfg.ArrayLimitFor(NameOf(base)))
               && e in Cuts(v.items[i], "", StepInto(PlaceOf(base, cfg), cfg, Index(i)), cfg);
      KeptIsNotRemoved(base, v.items, i, cfg);
      PlaceOfStep(base, Index(i), cfg);
      var inner := CutHasPlace(v.items[i], base + [Index(i)], cfg, e);
      rest := [Index(i)] + inner;
      WholeStep(cfg, base, Index(i), inner);
    }
  }

  lemma WholeStep(cfg: Effective, base: seq<Seg>, seg: Seg, inner: seq<Seg>)
    requires !Removed(cfg, base + [seg])
    requires var next := base + [seg]; forall n | |next| < n <= |next + inner| :: !Removed(cfg, (next + inner)[..n])
    ensures var rest := [seg] + inner;
            && base + rest == base + [seg] + inner && rest[1..] == inner && rest[0] == seg
            && forall n | |base| < n <= |base + rest| :: !Removed(cfg, (base + rest)[..n])
  {
    hide Removed;
    var rest := [seg] + inner;
    assert base + rest == base + [seg] + inner;
    assert (base + rest)[..|base| + 1] == base + [seg];
  }

  /** A string one code point over its limit that ends a sentence: cutting leaves it whole. */
  ghost predicate KeptWhole(v: Json, cfg: Effective, path: seq<Seg>) {
    && At(v, path).Some? && Survives(cfg, path)
    && match At(v, path).value
       case Str(s) =>
         var limit := cfg.StringLimitFor(NameOf(path));
         limit > 0 && |s| == limit + 1 && Truncation.IsSentenceEnd(s[limit])
       case _ => false
  }

  ghost predicate ReportDue(v: Json, cfg: Effective, path: seq<Seg>, chars: nat, items: nat) {
    Shorter(v, Apply(v, cfg), path, chars, items) || (KeptWhole(v, cfg, path) && chars == 0 && items == 0)
  }

  lemma WholeCut(s: string, limit: nat)
    requires 0 < limit < |s|
    ensures Truncation.CutLength(s, limit) == |s| <==> |s| == limit + 1 && Truncation.IsSentenceEnd(s[limit])
  {
    Truncation.CutBounds(s, limit);
  }

  lemma OwnCutIsDue(v: Json, cfg: Effective, path: seq<Seg>, chars: nat, items: nat)
    requires At(v, path).Some? && Survives(cfg, path)
    ensures ReportDue(v, cfg, path, chars, items)
            <==> OwnCut(At(v, path).value, path, cfg) == Some(Truncated(PathText(path), chars, items))
  {
    hide Removed, ShouldSkip, PathText, StepInto, Truncation.CutLength;
    ProjectedPaths(v, cfg, path);
    var at := At(v, path).value;
    if at.Str? {
      var limit := cfg.StringLimitFor(NameOf(path));
      if 0 < limit < |at.s| { WholeCut(at.s, limit); }
    }
  }

  lemma OwnCutIsReported(v: Json, cfg: Effective, path: seq<Seg>, e: Truncated)
    requires At(v, path).Some? && Survives(cfg, path) && OwnCut(At(v, path).value, path, cfg) == Some(e)
    ensures e in Cuts(v, "", ROOT, cfg)
  {
    hide Removed, ShouldSkip, PathText, StepInto, ShortString;
    ReportsAt(v, cfg, path);
    PlacePath(path, cfg);
  }

  lemma DueSurvives(v: Json, cfg: Effective, path: seq<Seg>, chars: nat, items: nat)
    requires ReportDue(v, cfg, path, chars, items)
    ensures At(v, path).Some? && Survives(cfg, path)
  {
    hide Removed, Project;
    ProjectedPaths(v, cfg, path);
  }

  /** The cut report lists exactly the arrays and strings that came out shorter, each with what it lost, and
      besides, with nothing lost, the strings one code point over their limit that end a sentence. */
  lemma CutReportExact(v: Json, cfg: Effective, e: Truncated)
    ensures e in Cuts(v, "", ROOT, cfg) <==>
              exists path, chars, items :: ReportDue(v, cfg, path, chars, items) && e == Truncated(PathText(path), chars, items)
  {
    hide Removed, Cuts, PathText, Project, OwnCut, ReportDue;
    if e in Cuts(v, "", ROOT, cfg) {
      assert PlaceOf([], cfg) == ROOT && StepsOf([]) == [] && NameOf([]) == "";
      var path := CutHasPlace(v, [], cfg, e);
      assert [] + path == path;
      OwnCutPath(At(v, path).value, path, cfg);
      OwnCutIsDue(v, cfg, path, e.chars, e.items);
      assert ReportDue(v, cfg, path, e.chars, e.items) && e == Truncated(PathText(path), e.chars, e.items);
    }
    forall path, chars, items | ReportDue(v, cfg, path, chars, items)
      ensures Truncated(PathText(path), chars, items) in Cuts(v, "", ROOT, cfg)
    {
      DueSurvives(v, cfg, path, chars, items);
      OwnCutIsDue(v, cfg, path, chars, items);
      OwnCutIsReported(v, cfg, path, Truncated(PathText(path), chars, items));
    }
  }

  lemma OwnCutPath(v: Json, path: seq<Seg>, cfg: Effective)
    ensures OwnCut(v, path, cfg).Some? ==> OwnCut(v, path, cfg).value.path == PathText(path)
  {
  }

  /** A report of nothing lost, for a string that comes out whole. */
  lemma ReportedWhole(cfg: Effective)
    requires cfg.StringLimitFor("") == 1
    ensures Apply(Str("a."), cfg) == Str("a.") && Truncated(".", 0, 0) in Cuts(Str("a."), "", ROOT, cfg)
  {
    hide Truncation.CutLength;
    WholeCut("a.", 1);
    assert "a."[..2] == "a.";
  }

  /** The value is unchanged if and only if nothing is excluded and every report is of nothing lost. */
  lemma UnchangedIff(v: Json, cfg: Effective)
    ensures Apply(v, cfg) == v <==>
              Excluded(v, "", ROOT, cfg) == {} && forall e | e in Cuts(v, "", ROOT, cfg) :: e.chars == 0 && e.items == 0
  {
    hide Project, Excluded, Cuts;
    if Apply(v, cfg) == v {
      forall e ensures e !in Excluded(v, "", ROOT, cfg) {
        ExclusionReportExact(v, cfg, e);
      }
      forall e | e in Cuts(v, "", ROOT, cfg) ensures e.chars == 0 && e.items == 0 {
        CutReportExact(v, cfg, e);
      }
    }
    if Excluded(v, "", ROOT, cfg) == {} && forall e | e in Cuts(v, "", ROOT, cfg) :: e.chars == 0 && e.items == 0 {
      NothingLostNoChange(v, "", ROOT, cfg);
    }
  }

  // ---- The recursive walk of the source, appending to two shared lists ----

  function Elems<T>(s: seq<T>): set<T> { set x | x in s }

  lemma ElemsSnoc<T>(s: seq<T>, x: T)
    ensures Elems(s + [x]) == Elems(s) + {x}
  {
  }

  /** The exclusions found in the fields visited so far. */
  function ExcludedIn(fields: map<string, Json>, done: set<string>, place: Place, cfg: Effective): set<string> {
    (set k | k in fields && k in done && ShouldSkip(k, place, cfg) :: PathText(place.path + [Key(k)])) +
    (set k, e | k in fields && k in done && !ShouldSkip(k, place, cfg)
                && e in Excluded(fields[k], k, StepInto(place, cfg, Key(k)), cfg) :: e)
  }

  function CutsIn(fields: map<string, Json>, done: set<string>, place: Place, cfg: Effective): set<Truncated> {
    set k, e | k in fields && k in done && !ShouldSkip(k, place, cfg)
               && e in Cuts(fields[k], k, StepInto(place, cfg, Key(k)), cfg) :: e
  }

  lemma VisitField(fields: map<string, Json>, done: set<string>, k: string, place: Place, cfg: Effective)
    requires k in fields && k !in done
    ensures ExcludedIn(fields, done + {k}, place, cfg) == ExcludedIn(fields, done, place, cfg) +
              if ShouldSkip(k, place, cfg) then {PathText(place.path + [Key(k)])}
              else Excluded(fields[k], k, StepInto(place, cfg, Key(k)), cfg)
    ensures CutsIn(fields, done + {k}, place, cfg) == CutsIn(fields, done, place, cfg) +
              if ShouldSkip(k, place, cfg) then {} else Cuts(fields[k], k, StepInto(place, cfg, Key(k)), cfg)
  {
    hide ShouldSkip, StepInto, PathText, Excluded, Cuts;
    var (before, after) := (ExcludedIn(fields, done, place, cfg), ExcludedIn(fields, done + {k}, place, cfg));
    var (cutsBefore, cutsAfter) := (CutsIn(fields, done, place, cfg), CutsIn(fields, done + {k}, place, cfg));
    if ShouldSkip(k, place, cfg) {
      assert after == before + {PathText(place.path + [Key(k)])};
      assert cutsAfter == cutsBefore;
    } else {
      var (inner, innerCuts) := (Excluded(fields[k], k, StepInto(place, cfg, Key(k)), cfg),
                                 Cuts(fields[k], k, StepInto(place, cfg, Key(k)), cfg));
      forall e | e in inner ensures e in after {}
      assert after == before + inner;
      forall e | e in innerCuts ensures e in cutsAfter {}
      assert cutsAfter == cutsBefore + innerCuts;
    }
  }

  lemma VisitedAll(v: Json, name: string, place: Place, cfg: Effective)
    requires v.Obj?
    ensures ExcludedIn(v.fields, v.fields.Keys, place, cfg) == Excluded(v, name, place, cfg)
    ensures CutsIn(v.fields, v.fields.Keys, place, cfg) == Cuts(v, name, place, cfg)
    ensures ExcludedIn(v.fields, {}, place, cfg) == {} && CutsIn(v.fields, {}, place, cfg) == {}
  {
    hide ShouldSkip, StepInto, PathText;
  }

  /** The exclusions and cuts found in the first `n` items of an array. */
  function ExcludedItems(items: seq<Json>, n: nat, place: Place, cfg: Effective): set<string>
    requires n <= |items|
  {
    set i, e | 0 <= i < n && e in Excluded(items[i], "", StepInto(place, cfg, Index(i)), cfg) :: e
  }

  function CutsItems(items: seq<Json>, n: nat, place: Place, cfg: Effective): set<Truncated>
    requires n <= |items|
  {
    set i, e | 0 <= i < n && e in Cuts(items[i], "", StepInto(place, cfg, Index(i)), cfg) :: e
  }

  lemma VisitItem(items: seq<Json>, n: nat, place: Place, cfg: Effective)
    requires n < |items|
    ensures ExcludedItems(items, n + 1, place, cfg)
            == ExcludedItems(items, n, place, cfg) + Excluded(items[n], "", StepInto(place, cfg, Index(n)), cfg)
    ensures CutsItems(items, n + 1, place, cfg)
            == CutsItems(items, n, place, cfg) + Cuts(items[n], "", StepInto(place, cfg, Index(n)), cfg)
  {
    hide StepInto, Excluded, Cuts;
    forall e | e in Excluded(items[n], "", StepInto(place, cfg, Index(n)), cfg)
      ensures e in ExcludedItems(items, n + 1, place, cfg)
    {
    }
    forall e | e in Cuts(items[n], "", StepInto(place, cfg, Index(n)), cfg)
      ensures e in CutsItems(items, n + 1, place, cfg)
    {
    }
  }

  class Reports {
    var excluded: seq<string>
    var truncated: seq<Truncated>

    constructor ()
      ensures excluded == [] && truncated == []
    {
      excluded, truncated := [], [];
    }

    ghost predicate Extends(excludedBefore: seq<string>, newExcluded: set<string>,
                            truncatedBefore: seq<Truncated>, newTruncated: set<Truncated>)
      reads this
    {
      && Elems(excluded) == Elems(excludedBefore) + newExcluded
      && Elems(truncated) == Elems(truncatedBefore) + newTruncated
    }

    method ProjectValue(v: Json, name: string, place: Place, cfg: Effective) returns (w: Json)
      modifies this
      ensures w == Project(v, name, place, cfg)
      ensures Extends(old(excluded), Excluded(v, name, place, cfg), old(truncated), Cuts(v, name, place, cfg))
      decreases v, 1
    {
      hide ShouldSkip, StepInto, PathText, ShortString;
      match v
      case Obj(_) => w := ProjectMap(v, name, place, cfg);
      case Arr(_) => w := ProjectArray(v, name, place, cfg);
      case Str(s) =>
        var limit := cfg.StringLimitFor(name);
        w := Str(ShortString(s, limit));
        if limit > 0 && |s| > limit {
          ElemsSnoc(truncated, Truncated(PathText(place.path), |s| - |w.s|, 0));
          truncated := truncated + [Truncated(PathText(place.path), |s| - |w.s|, 0)];
        }
      case _ => w := v;
    }

    method ProjectMap(v: Json, name: string, place: Place, cfg: Effective) returns (w: Json)
      requires v.Obj?
      modifies this
      ensures w == Project(v, name, place, cfg)
      ensures Extends(old(excluded), Excluded(v, name, place, cfg), old(truncated), Cuts(v, name, place, cfg))
      decreases v, 0
    {
      hide ShouldSkip, StepInto, PathText, ExcludedIn, CutsIn, Excluded, Cuts;
      VisitedAll(v, name, place, cfg);
      var fields, out := v.fields, map[];
      var left := fields.Keys;
      assert fields.Keys - left == {};
      while left != {}
        invariant left <= fields.Keys
        invariant out == map k | k in fields && k !in left && !ShouldSkip(k, place, cfg) ::
                           Project(fields[k], k, StepInto(place, cfg, Key(k)), cfg)
        invariant Extends(old(excluded), ExcludedIn(fields, fields.Keys - left, place, cfg),
                          old(truncated), CutsIn(fields, fields.Keys - left, place, cfg))
        decreases left
      {
        var k :| k in left;
        VisitField(fields, fields.Keys - left, k, place, cfg);
        assert fields.Keys - (left - {k}) == fields.Keys - left + {k};
        left := left - {k};
        if ShouldSkip(k, place, cfg) {
          ElemsSnoc(excluded, PathText(place.path + [Key(k)]));
          excluded := excluded + [PathText(place.path + [Key(k)])];
        } else {
          var inner := ProjectValue(fields[k], k, StepInto(place, cfg, Key(k)), cfg);
          out := out[k := inner];
        }
      }
      assert fields.Keys - {} == fields.Keys;
      return Obj(out);
    }

    method ProjectArray(v: Json, name: string, place: Place, cfg: Effective) returns (w: Json)
      requires v.Arr?
      modifies this
      ensures w == Project(v, name, place, cfg)
      ensures Extends(old(excluded), Excluded(v, name, place, cfg), old(truncated), Cuts(v, name, place, cfg))
      decreases v, 0
    {
      hide ShouldSkip, StepInto, PathText, ExcludedItems, CutsItems, Excluded, Cuts;
      var items := v.items;
      var kept := KeptItems(items, cfg.ArrayLimitFor(name));
      var out: seq<Json> := [];
      NoItems(items, place, cfg);
      for i := 0 to kept
        invariant |out| == i
        invariant forall j | 0 <= j < i :: out[j] == Project(items[j], "", StepInto(place, cfg, Index(j)), cfg)
        invariant Extends(old(excluded), ExcludedItems(items, i, place, cfg), old(truncated), CutsItems(items, i, place, cfg))
      {
        VisitItem(items, i, place, cfg);
        var inner := ProjectValue(items[i], "", StepInto(place, cfg, Index(i)), cfg);
        out := out + [inner];
      }
      AllItems(v, name, place, cfg);
      if kept < |items| {
        ElemsSnoc(truncated, Truncated(PathText(place.path), 0, |items| - kept));
        truncated := truncated + [Truncated(PathText(place.path), 0, |items| - kept)];
      }
      return Arr(out);
    }
  }

  lemma NoItems(items: seq<Json>, place: Place, cfg: Effective)
    ensures ExcludedItems(items, 0, place, cfg) == {} && CutsItems(items, 0, place, cfg) == {}
  {
  }

  lemma AllItems(v: Json, name: string, place: Place, cfg: Effective)
    requires v.Arr?
    ensures var kept := KeptItems(v.items, cfg.ArrayLimitFor(name));
            && Excluded(v, name, place, cfg) == ExcludedItems(v.items, kept, place, cfg)
            && Cuts(v, name, place, cfg)
               == (if kept < |v.items| then {Truncated(PathText(place.path), 0, |v.items| - kept)} else {})
                  + CutsItems(v.items, kept, place, cfg)
  {
    hide StepInto, PathText;
  }

  /** Without repetition. */
  predicate Distinct(xs: seq<string>) { forall i, j | 0 <= i < j < |xs| :: xs[i] != xs[j] }

  lemma SortedAgain(xs: seq<string>, ys: seq<string>)
    requires Distinct(xs) && multiset(ys) == multiset(xs) && Sorting.SortedBy(ys, (s: string) => s)
    ensures Distinct(ys) && Sorting.Sorted(ys) && Elems(ys) == Elems(xs)
  {
    hide Sorting.AtMost;
    SameElems(xs, ys);
    if i, j :| 0 <= i < j < |ys| && ys[i] == ys[j] { Twice(ys, i, j); OnceEach(xs, ys[i]); }
    assert forall i, j | 0 <= i < j < |ys| :: Sorting.AtMost(((s: string) => s)(ys[i]), ((s: string) => s)(ys[j]));
  }

  lemma SameElems<T>(xs: seq<T>, ys: seq<T>)
    requires multiset(ys) == multiset(xs)
    ensures Elems(ys) == Elems(xs)
  {
    forall x ensures x in ys <==> x in xs { assert x in ys <==> x in multiset(ys); assert x in xs <==> x in multiset(xs); }
  }

  lemma Twice(ys: seq<string>, i: nat, j: nat)
    requires i < j < |ys| && ys[i] == ys[j]
    ensures multiset(ys)[ys[i]] >= 2
  {
    assert ys == ys[..j] + [ys[j]] + ys[j + 1..];
    assert ys[i] == ys[..j][i] && ys[i] in multiset(ys[..j]);
  }

  lemma {:induction false} OnceEach(xs: seq<string>, x: string)
    requires Distinct(xs)
    ensures multiset(xs)[x] <= 1
  {
    if xs != [] {
      OnceEach(xs[1..], x);
      assert xs == [xs[0]] + xs[1..];
      if x == xs[0] { assert x !in xs[1..]; assert x !in multiset(xs[1..]); }
    }
  }

  /** Each collapsed path once, in order. */
  method CollapseExcluded(paths: seq<string>) returns (sorted: seq<string>)
    ensures Elems(sorted) == set p | p in paths :: Collapse(p)
    ensures Distinct(sorted) && Sorting.Sorted(sorted)
  {
    hide Collapse;
    var seen: set<string> := {};
    var out: seq<string> := [];
    for i := 0 to |paths|
      invariant seen == Elems(out) == set j | 0 <= j < i :: Collapse(paths[j])
      invariant forall a, b | 0 <= a < b < |out| :: out[a] != out[b]
    {
      var p := CollapseIndex(paths[i]);
      if p !in seen {
        seen := seen + {p};
        ElemsSnoc(out, p);
        out := out + [p];
      }
    }
    assert (set p | p in paths :: Collapse(p)) == set j | 0 <= j < |paths| :: Collapse(paths[j]);
    sorted := Sorting.Sort(out, (s: string) => s);
    SortedAgain(out, sorted);
  }

  // ---- What a configuration asks for, in its own terms ----

  /** A field's own limit, else the default of the configuration for all projections; 0 is no limit. */
  function ConfiguredStringLimit(cfg: Option<Config>, defaults: Defaults, field: string): int {
    if cfg.Some? && field in cfg.value.stringLimits then cfg.value.stringLimits[field] else defaults.stringLimit
  }

  /** A field's own limit, else the limit named `default`, else none. Items and the root have no field. */
  function ConfiguredArrayLimit(cfg: Option<Config>, field: string): int {
    if cfg.None? then 0
    else if field != "" && field in cfg.value.arrayLimits then cfg.value.arrayLimits[field]
    else if "default" in cfg.value.arrayLimits then cfg.value.arrayLimits["default"]
    else 0
  }

  /** Some rule denotes the path of the field, or the include list omits a field that no named field encloses;
      or the item is beyond the limit of its array. */
  ghost predicate TakenAway(cfg: Option<Config>, path: seq<Seg>)
    requires path != []
  {
    var parent, last := path[..|path| - 1], path[|path| - 1];
    match last
    case Key(k) =>
      cfg.Some? &&
        ((exists i | 0 <= i < |cfg.value.exclude| :: Denotes(cfg.value.exclude[i], StepsOf(path)))
         || (KeyCount(parent) == 0 && cfg.value.includeOnly != [] && k !in cfg.value.includeOnly))
    case Index(i) => ConfiguredArrayLimit(cfg, NameOf(parent)) > 0 && i >= ConfiguredArrayLimit(cfg, NameOf(parent))
  }

  ghost predicate Stays(cfg: Option<Config>, path: seq<Seg>) {
    forall n | 0 < n <= |path| :: !TakenAway(cfg, path[..n])
  }

  /** What stands where `x` stood: containers of the same kind, strings cut to the limit of their field. */
  predicate ComesOut(x: Json, y: Json, stringLimit: int) {
    match x
    case Obj(_) => y.Obj?
    case Arr(_) => y.Arr?
    case Str(s) => y == Str(if stringLimit > 0 && |s| > stringLimit then Truncation.Cut(s, stringLimit) else s)
    case _ => y == x
  }

  /** `w` is `v` as the configuration wants it, path by path. */
  ghost predicate Configured(v: Json, w: Json, cfg: Option<Config>, defaults: Defaults) {
    forall path :: FitsAt(v, w, cfg, defaults, path)
  }

  ghost predicate FitsAt(v: Json, w: Json, cfg: Option<Config>, defaults: Defaults, path: seq<Seg>) {
    && (At(w, path).Some? <==> At(v, path).Some? && Stays(cfg, path))
    && (At(w, path).Some? ==> ComesOut(At(v, path).value, At(w, path).value, ConfiguredStringLimit(cfg, defaults, NameOf(path))))
  }

  lemma MergedLimits(cfg: Option<Config>, defaults: Defaults, field: string)
    ensures MergeWithDefaults(cfg, defaults).StringLimitFor(field) == ConfiguredStringLimit(cfg, defaults, field)
    ensures MergeWithDefaults(cfg, defaults).ArrayLimitFor(field) == ConfiguredArrayLimit(cfg, field)
  {
  }

  lemma MergedRemoves(cfg: Option<Config>, defaults: Defaults, path: seq<Seg>)
    requires path != []
    ensures Removed(MergeWithDefaults(cfg, defaults), path) <==> TakenAway(cfg, path)
  {
    hide Denotes, PrepareExclusions, StepsOf, KeyCount, NameOf;
    MergedLimits(cfg, defaults, NameOf(path[..|path| - 1]));
    if cfg.Some? { ExclusionsAreRules(cfg.value.exclude, StepsOf(path)); }
  }

  lemma MergedSurvives(cfg: Option<Config>, defaults: Defaults, path: seq<Seg>)
    ensures Survives(MergeWithDefaults(cfg, defaults), path) <==> Stays(cfg, path)
  {
    hide Removed, TakenAway, MergeWithDefaults;
    forall n | 0 < n <= |path| ensures Removed(MergeWithDefaults(cfg, defaults), path[..n]) <==> TakenAway(cfg, path[..n]) {
      MergedRemoves(cfg, defaults, path[..n]);
    }
  }

  /** Merging and projecting do what the configuration asks for. */
  lemma ProjectsAsConfigured(v: Json, cfg: Option<Config>, defaults: Defaults)
    ensures Configured(v, Apply(v, MergeWithDefaults(cfg, defaults)), cfg, defaults)
  {
    hide MergeWithDefaults, Survives, Stays;
    var effective := MergeWithDefaults(cfg, defaults);
    forall path ensures FitsAt(v, Apply(v, effective), cfg, defaults, path) {
      ProjectedPaths(v, effective, path);
      MergedSurvives(cfg, defaults, path);
      MergedLimits(cfg, defaults, NameOf(path));
    }
  }

  /** Values of one kind, and the same one where they are not containers. */
  predicate Alike(x: Option<Json>, y: Option<Json>) {
    match (x, y)
    case (None, None) => true
    case (Some(Obj(_)), Some(Obj(_))) => true
    case (Some(Arr(_)), Some(Arr(_))) => true
    case _ => x == y
  }

  lemma {:induction false} AlikeEverywhere(x: Json, y: Json)
    requires forall path :: Alike(At(x, path), At(y, path))
    ensures x == y
    decreases x
  {
    assert Alike(At(x, []), At(y, []));
    match x
    case Obj(fields) =>
      forall k ensures k in fields <==> k in y.fields { FirstField(x, y, k); }
      forall k | k in fields ensures fields[k] == y.fields[k] {
        forall path ensures Alike(At(fields[k], path), At(y.fields[k], path)) {
          assert Alike(At(x, [Key(k)] + path), At(y, [Key(k)] + path));
          assert ([Key(k)] + path)[1..] == path;
        }
        AlikeEverywhere(fields[k], y.fields[k]);
      }
      assert fields == y.fields;
    case Arr(items) =>
      FirstItem(x, y, |items|);
      FirstItem(x, y, |y.items|);
      forall i | 0 <= i < |items| ensures items[i] == y.items[i] {
        forall path ensures Alike(At(items[i], path), At(y.items[i], path)) {
          assert Alike(At(x, [Index(i)] + path), At(y, [Index(i)] + path));
          assert ([Index(i)] + path)[1..] == path;
        }
        AlikeEverywhere(items[i], y.items[i]);
      }
      assert items == y.items;
    case _ =>
  }

  lemma FirstField(x: Json, y: Json, k: string)
    requires x.Obj? && y.Obj? && forall path :: Alike(At(x, path), At(y, path))
    ensures k in x.fields <==> k in y.fields
  {
    assert Alike(At(x, [Key(k)]), At(y, [Key(k)]));
    OneStep(x, Key(k));
    OneStep(y, Key(k));
  }

  lemma FirstItem(x: Json, y: Json, i: nat)
    requires x.Arr? && y.Arr? && forall path :: Alike(At(x, path), At(y, path))
    ensures i < |x.items| <==> i < |y.items|
  {
    assert Alike(At(x, [Index(i)]), At(y, [Index(i)]));
    OneStep(x, Index(i));
    OneStep(y, Index(i));
  }

  lemma OneStep(v: Json, seg: Seg)
    ensures At(v, [seg]).Some? <==> match seg case Key(k) => v.Obj? && k in v.fields case Index(i) => v.Arr? && i < |v.items|
  {
    assert [seg][1..] == [];
  }

  /** A configuration leaves no choice. */
  lemma ConfiguredOnce(v: Json, w: Json, w': Json, cfg: Option<Config>, defaults: Defaults)
    requires Configured(v, w, cfg, defaults) && Configured(v, w', cfg, defaults)
    ensures w == w'
  {
    hide Stays, Truncation.Cut;
    forall path ensures Alike(At(w, path), At(w', path)) {
      assert FitsAt(v, w, cfg, defaults, path) && FitsAt(v, w', cfg, defaults, path);
    }
    AlikeEverywhere(w, w');
  }

  lemma MergedKeepsWhole(v: Json, cfg: Option<Config>, defaults: Defaults, path: seq<Seg>)
    ensures KeptWhole(v, MergeWithDefaults(cfg, defaults), path) <==> WholeAtLimit(v, cfg, defaults, path)
  {
    hide MergeWithDefaults, Survives, Stays;
    MergedSurvives(cfg, defaults, path);
    MergedLimits(cfg, defaults, NameOf(path));
  }

  /** A string one code point over the limit of its field that ends a sentence. */
  ghost predicate WholeAtLimit(v: Json, cfg: Option<Config>, defaults: Defaults, path: seq<Seg>) {
    && At(v, path).Some? && Stays(cfg, path)
    && match At(v, path).value
       case Str(s) =>
         var limit := ConfiguredStringLimit(cfg, defaults, NameOf(path));
         limit > 0 && |s| == limit + 1 && Truncation.IsSentenceEnd(s[limit])
       case _ => false
  }

  datatype Result = Result(summary: Json, excludedKeys: seq<string>, truncated: seq<Truncated>)

  /** A result reports exactly the fields it misses, and exactly what came out shorter or whole at its limit. */
  ghost predicate ReportsAsConfigured(v: Json, r: Result, cfg: Option<Config>, defaults: Defaults) {
    && (forall e :: e in r.excludedKeys <==> exists path :: Missing(v, r.summary, path) && e == Collapse(PathText(path)))
    && (forall e :: e in r.truncated <==>
          exists path, chars, items :: CutDue(v, r.summary, cfg, defaults, path, chars, items) && e == Truncated(PathText(path), chars, items))
  }

  ghost predicate CutDue(v: Json, w: Json, cfg: Option<Config>, defaults: Defaults, path: seq<Seg>, chars: nat, items: nat) {
    Shorter(v, w, path, chars, items) || (WholeAtLimit(v, cfg, defaults, path) && chars == 0 && items == 0)
  }

  lemma ReportsMatch(v: Json, r: Result, cfg: Option<Config>, defaults: Defaults)
    requires var effective := MergeWithDefaults(cfg, defaults);
             && r.summary == Apply(v, effective)
             && Elems(r.excludedKeys) == ExcludedNames(v, effective)
             && Elems(r.truncated) == Cuts(v, "", ROOT, effective)
    ensures ReportsAsConfigured(v, r, cfg, defaults)
  {
    hide MergeWithDefaults, Project, Excluded, Cuts, Collapse, PathText, KeptWhole, WholeAtLimit, Missing, Shorter;
    var effective := MergeWithDefaults(cfg, defaults);
    forall e ensures e in r.excludedKeys <==> exists path :: Missing(v, r.summary, path) && e == Collapse(PathText(path)) {
      assert e in r.excludedKeys <==> e in Elems(r.excludedKeys);
      forall x ensures x in Excluded(v, "", ROOT, effective) <==> exists path :: Missing(v, r.summary, path) && x == PathText(path) {
        ExclusionReportExact(v, effective, x);
      }
    }
    forall e ensures e in r.truncated <==>
        exists path, chars, items :: CutDue(v, r.summary, cfg, defaults, path, chars, items) && e == Truncated(PathText(path), chars, items)
    {
      assert e in r.truncated <==> e in Elems(r.truncated);
      CutReportExact(v, effective, e);
      forall path, chars, items
        ensures CutDue(v, r.summary, cfg, defaults, path, chars, items) <==> ReportDue(v, effective, path, chars, items)
      {
        MergedKeepsWhole(v, cfg, defaults, path);
      }
    }
  }

  /** The excluded paths as they are reported. */
  function ExcludedNames(v: Json, cfg: Effective): set<string> { set e | e in Excluded(v, "", ROOT, cfg) :: Collapse(e) }

  method ApplyConfig(v: Json, cfg: Option<Config>, defaults: Defaults) returns (r: Result)
    ensures var effective := MergeWithDefaults(cfg, defaults);
            && r.summary == Apply(v, effective)
            && Elems(r.excludedKeys) == ExcludedNames(v, effective)
            && Elems(r.truncated) == Cuts(v, "", ROOT, effective)
    ensures Configured(v, r.summary, cfg, defaults) && ReportsAsConfigured(v, r, cfg, defaults)
    ensures Distinct(r.excludedKeys) && Sorting.Sorted(r.excludedKeys)
    ensures Sorting.SortedBy(r.truncated, (t: Truncated) => t.path)
  {
    hide Configured, ReportsAsConfigured, Project, Excluded, Cuts, Collapse, Sorting.AtMost;
    var effective := MergeWithDefaults(cfg, defaults);
    var reports := new Reports();
    var summary := reports.ProjectValue(v, "", ROOT, effective);
    var keys := CollapseExcluded(reports.excluded);
    var truncated := Sorting.Sort(reports.truncated, (t: Truncated) => t.path);
    SameElems(reports.truncated, truncated);
    assert Elems(reports.excluded) == Excluded(v, "", ROOT, effective);
    assert forall e :: e in reports.excluded <==> e in Excluded(v, "", ROOT, effective);
    r := Result(summary, keys, truncated);
    ProjectsAsConfigured(v, cfg, defaults);
    ReportsMatch(v, r, cfg, defaults);
  }

  /** Two results of the same projection name the same exclusions in the same order, whatever order the
      fields were walked in. */
  lemma ExcludedKeysDetermined(v: Json, cfg: Effective, a: seq<string>, b: seq<string>)
    requires Elems(a) == ExcludedNames(v, cfg) && Distinct(a) && Sorting.Sorted(a)
    requires Elems(b) == ExcludedNames(v, cfg) && Distinct(b) && Sorting.Sorted(b)
    ensures a == b
  {
    hide Excluded, Collapse, Sorting.AtMost;
    assert forall e :: e in a <==> e in Elems(a);
    assert forall e :: e in b <==> e in Elems(b);
    Sorting.SortedOnce(a, b);
  }

  /** A field dropped from the result appears in the notice as its path with array indexes left out. */
  lemma MissingFieldNamed(v: Json, cfg: Effective, path: seq<Seg>)
    requires Missing(v, Apply(v, cfg), path) && InertKeys(path)
    ensures FormatPath(Generalized(path)) in set e | e in Excluded(v, "", ROOT, cfg) :: Collapse(e)
  {
    hide Excluded, Collapse, Project, FormatPath;
    MissingIsReported(v, cfg, path);
    CollapsePrintedPath(path);
  }
}
