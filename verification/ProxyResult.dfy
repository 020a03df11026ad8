/** A proxied tool result: the parts of it that are projected, the one that carries the notice, and the
    document put together again. */
module ProxyResult {
  import opened Options
  import opened Json
  import opened Schema
  import opened SchemaLoosening
  import opened ProxySchema
  import Projection
  import ToonText

  datatype BlockKind = TextBlock | ResourceBlock | OtherBlock

  datatype Block = Block(kind: BlockKind, text: string)

  datatype UnitKind = Structured | JsonText | PlainText | ResourceText

  /** A part of the result that is projected on its own; `block` is -1 for the structured content. */
  datatype Unit = Unit(
    kind: UnitKind,
    block: int,
    prefix: string,
    value: Json,
    summary: Json,
    changed: bool,
    excluded: seq<string>,
    truncated: seq<Projection.Truncated>)

  /** How values are parsed from and printed to text. */
  datatype Codec = Codec(parse: string -> Option<Json>, encode: Json -> string)

  datatype Doc = Doc(structured: Option<Json>, encoded: Option<string>, content: seq<Block>)

  function NewUnit(kind: UnitKind, block: int, prefix: string, value: Json): Unit {
    Unit(kind, block, prefix, value, value, false, [], [])
  }

  function StructuredUnit(value: Json): Unit { NewUnit(Structured, -1, ".structuredContent", value) }

  function TextPrefix(i: nat): string { ".content[" + ToonText.Digits(i) + "].text" }

  function ResourcePrefix(i: nat): string { ".content[" + ToonText.Digits(i) + "].resource.text" }

  // ---- Collecting ----

  /** What a block contributes: a unit, a copy of the structured content, or nothing. */
  datatype Part = OneUnit(u: Unit) | Mirror | Nothing

  function PartOf(doc: Doc, i: nat, codec: Codec): Part
    requires i < |doc.content|
  {
    var b := doc.content[i];
    match b.kind
    case TextBlock =>
      (match codec.parse(b.text)
       case None => OneUnit(NewUnit(PlainText, i, TextPrefix(i), Str(b.text)))
       case Some(v) => if doc.structured == Some(v) then Mirror else OneUnit(NewUnit(JsonText, i, TextPrefix(i) + " | fromjson", v)))
    case ResourceBlock => OneUnit(NewUnit(ResourceText, i, ResourcePrefix(i), Str(b.text)))
    case OtherBlock => Nothing
  }

  /** The units and mirrors of the first `n` blocks, the structured content's unit first. */
  function UnitsOf(doc: Doc, n: nat, codec: Codec): (units: seq<Unit>)
    requires n <= |doc.content|
    ensures doc.structured.Some? ==> units != [] && units[0].kind.Structured?
  {
    if n == 0 then (if doc.structured.Some? then [StructuredUnit(doc.structured.value)] else [])
    else
      var before := UnitsOf(doc, n - 1, codec);
      match PartOf(doc, n - 1, codec)
      case OneUnit(u) => before + [u]
      case _ => before
  }

  function MirrorsOf(doc: Doc, n: nat, codec: Codec): seq<nat>
    requires n <= |doc.content|
  {
    if n == 0 then []
    else
      var before := MirrorsOf(doc, n - 1, codec);
      if PartOf(doc, n - 1, codec).Mirror? then before + [n - 1] else before
  }

  method CollectUnits(doc: Doc, codec: Codec) returns (units: seq<Unit>, mirrors: seq<nat>)
    ensures units == UnitsOf(doc, |doc.content|, codec) && mirrors == MirrorsOf(doc, |doc.content|, codec)
  {
    units, mirrors := [], [];
    if doc.structured.Some? { units := [StructuredUnit(doc.structured.value)]; }
    for i := 0 to |doc.content|
      invariant units == UnitsOf(doc, i, codec) && mirrors == MirrorsOf(doc, i, codec)
    {
      var b := doc.content[i];
      if b.kind.TextBlock? {
        var value := codec.parse(b.text);
        if value.None? {
          units := units + [NewUnit(PlainText, i, TextPrefix(i), Str(b.text))];
        } else if doc.structured.Some? && value.value == doc.structured.value {
          mirrors := mirrors + [i];
        } else {
          units := units + [NewUnit(JsonText, i, TextPrefix(i) + " | fromjson", value.value)];
        }
      } else if b.kind.ResourceBlock? {
        units := units + [NewUnit(ResourceText, i, ResourcePrefix(i), Str(b.text))];
      }
    }
  }

  /** A unit as it is collected, for the structured content or for one of the first `n` blocks. */
  predicate FitsBlock(u: Unit, mirrors: seq<nat>, n: nat) {
    && (if u.kind.Structured? then u.block == -1 else 0 <= u.block < n && u.block !in mirrors)
    && u.summary == u.value && !u.changed
  }

  /** No two units, and no unit and mirror, share a block. */
  ghost predicate Shaped(units: seq<Unit>, mirrors: seq<nat>, n: nat, hasStructured: bool) {
    && (hasStructured <==> units != [] && units[0].kind.Structured?)
    && (forall j | 0 < j < |units| :: !units[j].kind.Structured?)
    && (forall j | 0 <= j < |units| :: FitsBlock(units[j], mirrors, n))
    && (forall j, k | 0 <= j < k < |units| :: units[j].block != units[k].block)
    && (forall j | 0 <= j < |mirrors| :: mirrors[j] < n)
  }

  lemma {:induction false} UnitsAreShaped(doc: Doc, n: nat, codec: Codec)
    requires n <= |doc.content|
    ensures Shaped(UnitsOf(doc, n, codec), MirrorsOf(doc, n, codec), n, doc.structured.Some?)
  {
    hide Shaped, PartOf;
    if n == 0 {
      StartShaped(doc, codec);
    } else {
      UnitsAreShaped(doc, n - 1, codec);
      PartFits(doc, n - 1, codec);
      MoreShaped(UnitsOf(doc, n - 1, codec), MirrorsOf(doc, n - 1, codec), n - 1, doc.structured.Some?, PartOf(doc, n - 1, codec));
    }
  }

  lemma StartShaped(doc: Doc, codec: Codec)
    ensures Shaped(UnitsOf(doc, 0, codec), MirrorsOf(doc, 0, codec), 0, doc.structured.Some?)
  {
  }

  lemma PartFits(doc: Doc, i: nat, codec: Codec)
    requires i < |doc.content|
    ensures PartOf(doc, i, codec).OneUnit? ==>
              var u := PartOf(doc, i, codec).u; !u.kind.Structured? && u.block == i && u.summary == u.value && !u.changed
  {
  }

  lemma MoreShaped(units: seq<Unit>, mirrors: seq<nat>, n: nat, hasStructured: bool, part: Part)
    requires Shaped(units, mirrors, n, hasStructured)
    requires part.OneUnit? ==> !part.u.kind.Structured? && part.u.block == n && part.u.summary == part.u.value && !part.u.changed
    ensures Shaped(if part.OneUnit? then units + [part.u] else units, if part.Mirror? then mirrors + [n] else mirrors, n + 1, hasStructured)
  {
    var units', mirrors' := if part.OneUnit? then units + [part.u] else units, if part.Mirror? then mirrors + [n] else mirrors;
    assert forall j | 0 <= j < |units| :: units'[j] == units[j] && FitsBlock(units[j], mirrors, n);
    forall j | 0 <= j < |units'| ensures FitsBlock(units'[j], mirrors', n + 1) {
      assert j < |units| ==> units'[j] == units[j];
    }
  }

  lemma {:induction false} PartsAreKept(doc: Doc, n: nat, codec: Codec, i: nat)
    requires i < n <= |doc.content|
    ensures PartOf(doc, i, codec).OneUnit? ==> PartOf(doc, i, codec).u in UnitsOf(doc, n, codec)
    ensures PartOf(doc, i, codec).Mirror? <==> i in MirrorsOf(doc, n, codec)
    ensures forall u | u in UnitsOf(doc, n, codec) && u.block == i :: PartOf(doc, i, codec) == OneUnit(u)
  {
    hide PartOf;
    if i < n - 1 {
      PartsAreKept(doc, n - 1, codec, i);
      PartIsAt(doc, n - 1, codec);
    } else {
      OnlyEarlier(doc, n - 1, codec);
      PartIsAt(doc, n - 1, codec);
    }
  }

  lemma PartIsAt(doc: Doc, i: nat, codec: Codec)
    requires i < |doc.content|
    ensures PartOf(doc, i, codec).OneUnit? ==> PartOf(doc, i, codec).u.block == i
  {
  }

  lemma {:induction false} OnlyEarlier(doc: Doc, n: nat, codec: Codec)
    requires n <= |doc.content|
    ensures (forall u | u in UnitsOf(doc, n, codec) :: u.block < n) && forall i | i in MirrorsOf(doc, n, codec) :: i < n
  {
    hide PartOf;
    if n > 0 {
      OnlyEarlier(doc, n - 1, codec);
      PartIsAt(doc, n - 1, codec);
    }
  }

  /** What becomes of each block: a text that is no JSON and the text of a resource are projected as strings, JSON
      as what it says unless it says what the structured content says, and then it is a copy; nothing else is
      touched. */
  lemma EachBlockHasItsPart(doc: Doc, codec: Codec, i: nat)
    requires i < |doc.content|
    ensures var units, mirrors, b := UnitsOf(doc, |doc.content|, codec), MirrorsOf(doc, |doc.content|, codec), doc.content[i];
            match b.kind
            case TextBlock =>
              (match codec.parse(b.text)
               case None => NewUnit(PlainText, i, TextPrefix(i), Str(b.text)) in units && i !in mirrors
               case Some(v) =>
                 if doc.structured == Some(v) then i in mirrors && forall u | u in units :: u.block != i
                 else NewUnit(JsonText, i, TextPrefix(i) + " | fromjson", v) in units && i !in mirrors)
            case ResourceBlock => NewUnit(ResourceText, i, ResourcePrefix(i), Str(b.text)) in units && i !in mirrors
            case OtherBlock => i !in mirrors && forall u | u in units :: u.block != i
  {
    hide UnitsOf, MirrorsOf, TextPrefix, ResourcePrefix;
    PartsAreKept(doc, |doc.content|, codec, i);
  }

  // ---- The carrier ----

  /** Of the structured content if there is any, else the only JSON text block that is an object; it has to
      be able to take a notice. */
  function Carriers(units: seq<Unit>, n: nat): seq<nat>
    requires n <= |units|
  {
    if n == 0 then []
    else
      var before, u := Carriers(units, n - 1), units[n - 1];
      if CanCarry(u) then before + [n - 1] else before
  }

  function CarrierOf(units: seq<Unit>, hasStructured: bool): Option<nat>
    requires hasStructured ==> units != []
  {
    if hasStructured then if units[0].value.Arr? || MiniFree(units[0].value) then Some(0) else None
    else
      var all := Carriers(units, |units|);
      if |all| == 1 then Some(all[0]) else None
  }

  lemma {:induction false} CarriersFit(units: seq<Unit>, n: nat)
    requires n <= |units|
    ensures forall c: nat :: c in Carriers(units, n) <==> c < n && CanCarry(units[c])
  {
    hide CanCarry;
    if n > 0 { CarriersFit(units, n - 1); }
  }

  lemma {:induction false} CarriersIncrease(units: seq<Unit>, n: nat)
    requires n <= |units|
    ensures forall a, b | 0 <= a < b < |Carriers(units, n)| :: Carriers(units, n)[a] < Carriers(units, n)[b]
  {
    hide CanCarry;
    if n > 0 {
      CarriersIncrease(units, n - 1);
      CarriersFit(units, n - 1);
      var before := Carriers(units, n - 1);
      forall a | 0 <= a < |before| ensures before[a] < n - 1 { assert before[a] in before; }
    }
  }

  /** The structured content carries the notice if there is any and it can; without structured content, the only JSON
      text that can. */
  lemma CarrierIff(units: seq<Unit>, hasStructured: bool, j: nat)
    requires hasStructured ==> units != []
    ensures CarrierOf(units, hasStructured) == Some(j) <==>
              if hasStructured then j == 0 && (units[0].value.Arr? || MiniFree(units[0].value))
              else j < |units| && CanCarry(units[j]) && forall k | 0 <= k < |units| && CanCarry(units[k]) :: k == j
  {
    hide CanCarry, Carriers;
    if !hasStructured {
      var all := Carriers(units, |units|);
      CarriersFit(units, |units|);
      CarriersIncrease(units, |units|);
      if |all| == 1 { assert all[0] in all; }
      if j < |units| && CanCarry(units[j]) && forall k | 0 <= k < |units| && CanCarry(units[k]) :: k == j {
        assert j in all;
        forall a | 0 <= a < |all| ensures all[a] == j { assert all[a] in all; }
        TwoDiffer(all, j);
      }
    }
  }

  lemma TwoDiffer(js: seq<nat>, j: nat)
    requires forall a, b | 0 <= a < b < |js| :: js[a] < js[b]
    ensures |js| > 1 ==> js[0] != j || js[1] != j
  {
  }

  predicate CanCarry(u: Unit) { u.kind.JsonText? && MiniFree(u.value) }

  method PickCarrier(units: seq<Unit>, hasStructured: bool) returns (carrier: Option<nat>)
    requires hasStructured ==> units != []
    ensures carrier == CarrierOf(units, hasStructured)
  {
    if hasStructured {
      if units[0].value.Arr? || MiniFree(units[0].value) { return Some(0); }
      return None;
    }
    var found: Option<nat> := None;
    for i := 0 to |units|
      invariant var all := Carriers(units, i); |all| <= 1 && found == if all == [] then None else Some(all[0])
    {
      if CanCarry(units[i]) {
        if found.Some? {
          CarriersGrow(units, i + 1, |units|);
          return None;
        }
        found := Some(i);
      }
    }
    return found;
  }

  lemma {:induction false} CarriersGrow(units: seq<Unit>, m: nat, n: nat)
    requires m <= n <= |units|
    ensures |Carriers(units, m)| <= |Carriers(units, n)|
  {
    if m < n { CarriersGrow(units, m, n - 1); }
  }

  // ---- Projecting ----

  /** `p` is the unit `u` projected, with what its projection reported. */
  ghost predicate IsProjected(p: Unit, u: Unit, cfg: Projection.Effective) {
    && p == u.(summary := p.summary, changed := p.changed, excluded := p.excluded, truncated := p.truncated)
    && p.summary == Projection.Apply(u.value, cfg) && p.changed == (p.summary != u.value)
    && Projection.Elems(p.excluded) == Projection.ExcludedNames(u.value, cfg)
    && Projection.Elems(p.truncated) == Projection.Cuts(u.value, "", Projection.ROOT, cfg)
  }

  ghost predicate AreProjected(projected: seq<Unit>, units: seq<Unit>, cfg: Projection.Effective) {
    |projected| == |units| && forall i | 0 <= i < |units| :: IsProjected(projected[i], units[i], cfg)
  }

  // ---- The notice ----

  const PROXY_MSG := "Response filtered, some fields were excluded or truncated, use read(<file>, <jq filter>) to fetch full values."

  function Under(prefix: string, path: string): string { prefix + " | " + path }

  function CutUnder(prefix: string, t: Projection.Truncated): Projection.Truncated { t.(path := Under(prefix, t.path)) }

  /** The reports of the units, each path behind the prefix of its unit. */
  function NotedPaths(units: seq<Unit>): seq<string> {
    if units == [] then []
    else
      var last := units[|units| - 1];
      NotedPaths(units[..|units| - 1])
      + seq(|last.excluded|, i requires 0 <= i < |last.excluded| => Under(last.prefix, last.excluded[i]))
  }

  function NotedCuts(units: seq<Unit>): seq<Projection.Truncated> {
    if units == [] then []
    else
      var last := units[|units| - 1];
      NotedCuts(units[..|units| - 1])
      + seq(|last.truncated|, i requires 0 <= i < |last.truncated| => CutUnder(last.prefix, last.truncated[i]))
  }

  method ReportedPaths(units: seq<Unit>) returns (excluded: seq<string>, truncated: seq<Projection.Truncated>)
    ensures excluded == NotedPaths(units) && truncated == NotedCuts(units)
  {
    excluded, truncated := [], [];
    for i := 0 to |units|
      invariant excluded == NotedPaths(units[..i]) && truncated == NotedCuts(units[..i])
    {
      var u := units[i];
      var paths, cuts := [], [];
      for j := 0 to |u.excluded|
        invariant |paths| == j && forall k | 0 <= k < j :: paths[k] == Under(u.prefix, u.excluded[k])
      {
        paths := paths + [Under(u.prefix, u.excluded[j])];
      }
      for j := 0 to |u.truncated|
        invariant |cuts| == j && forall k | 0 <= k < j :: cuts[k] == CutUnder(u.prefix, u.truncated[k])
      {
        cuts := cuts + [CutUnder(u.prefix, u.truncated[j])];
      }
      assert units[..i + 1][..i] == units[..i] && units[..i + 1][i] == u;
      excluded, truncated := excluded + paths, truncated + cuts;
    }
    assert units[..|units|] == units;
  }

  ghost predicate GivesPath(u: Unit, e: string) { exists p | p in u.excluded :: e == Under(u.prefix, p) }

  lemma GivesPathInSeq(u: Unit, e: string)
    ensures GivesPath(u, e) <==> e in seq(|u.excluded|, i requires 0 <= i < |u.excluded| => Under(u.prefix, u.excluded[i]))
  {
    hide Under;
    var noted := seq(|u.excluded|, i requires 0 <= i < |u.excluded| => Under(u.prefix, u.excluded[i]));
    if p :| p in u.excluded && e == Under(u.prefix, p) {
      var k :| 0 <= k < |u.excluded| && u.excluded[k] == p;
      assert noted[k] == e;
    }
    if e in noted {
      var k :| 0 <= k < |noted| && noted[k] == e;
      assert u.excluded[k] in u.excluded;
    }
  }

  lemma {:induction false} NotedPathsAre(units: seq<Unit>, e: string)
    ensures e in NotedPaths(units) <==> exists i | 0 <= i < |units| :: GivesPath(units[i], e)
  {
    hide GivesPath;
    if units != [] {
      var init, last := units[..|units| - 1], units[|units| - 1];
      NotedPathsAre(init, e);
      GivesPathInSeq(last, e);
      assert forall i | 0 <= i < |init| :: init[i] == units[i];
    }
  }

  ghost predicate GivesCut(u: Unit, c: Projection.Truncated) { exists t | t in u.truncated :: c == CutUnder(u.prefix, t) }

  lemma GivesCutInSeq(u: Unit, c: Projection.Truncated)
    ensures GivesCut(u, c) <==> c in seq(|u.truncated|, i requires 0 <= i < |u.truncated| => CutUnder(u.prefix, u.truncated[i]))
  {
    hide CutUnder;
    var noted := seq(|u.truncated|, i requires 0 <= i < |u.truncated| => CutUnder(u.prefix, u.truncated[i]));
    if t :| t in u.truncated && c == CutUnder(u.prefix, t) {
      var k :| 0 <= k < |u.truncated| && u.truncated[k] == t;
      assert noted[k] == c;
    }
    if c in noted {
      var k :| 0 <= k < |noted| && noted[k] == c;
      assert u.truncated[k] in u.truncated;
    }
  }

  lemma {:induction false} NotedCutsAre(units: seq<Unit>, c: Projection.Truncated)
    ensures c in NotedCuts(units) <==> exists i | 0 <= i < |units| :: GivesCut(units[i], c)
  {
    hide GivesCut;
    if units != [] {
      var init, last := units[..|units| - 1], units[|units| - 1];
      NotedCutsAre(init, c);
      GivesCutInSeq(last, c);
      assert forall i | 0 <= i < |init| :: init[i] == units[i];
    }
  }

  /** No unit has anything to report. */
  ghost predicate Silent(units: seq<Unit>, cfg: Projection.Effective) {
    forall i | 0 <= i < |units| ::
      Projection.ExcludedNames(units[i].value, cfg) == {} && Projection.Cuts(units[i].value, "", Projection.ROOT, cfg) == {}
  }

  /** The notice names exactly what the projections of the units reported, unit by unit. */
  ghost predicate NotesAll(notice: Notice, units: seq<Unit>, cfg: Projection.Effective) {
    && (forall e :: e in notice.excluded <==>
          exists i, p | 0 <= i < |units| && p in Projection.ExcludedNames(units[i].value, cfg) :: e == Under(units[i].prefix, p))
    && (forall c :: c in notice.truncated <==>
          exists i, t | 0 <= i < |units| && t in Projection.Cuts(units[i].value, "", Projection.ROOT, cfg) ::
            c == CutUnder(units[i].prefix, t))
  }

  lemma NotedAll(notice: Notice, projected: seq<Unit>, units: seq<Unit>, cfg: Projection.Effective)
    requires AreProjected(projected, units, cfg)
    requires notice.excluded == NotedPaths(projected) && notice.truncated == NotedCuts(projected)
    ensures NotesAll(notice, units, cfg)
    ensures notice.excluded == [] && notice.truncated == [] <==> Silent(units, cfg)
  {
    hide NotedPaths, NotedCuts, Under, CutUnder, Projection.ExcludedNames, Projection.Cuts, Projection.Apply;
    assert forall i | 0 <= i < |units| :: IsProjected(projected[i], units[i], cfg);
    forall e ensures e in notice.excluded <==>
        exists i, p | 0 <= i < |units| && p in Projection.ExcludedNames(units[i].value, cfg) :: e == Under(units[i].prefix, p)
    {
      NotedPathsAre(projected, e);
      ElemsAre(projected, units, cfg);
    }
    forall c ensures c in notice.truncated <==>
        exists i, t | 0 <= i < |units| && t in Projection.Cuts(units[i].value, "", Projection.ROOT, cfg) :: c == CutUnder(units[i].prefix, t)
    {
      NotedCutsAre(projected, c);
      ElemsAre(projected, units, cfg);
    }
    SilentIff(notice, units, cfg);
  }

  lemma ElemsAre(projected: seq<Unit>, units: seq<Unit>, cfg: Projection.Effective)
    requires AreProjected(projected, units, cfg)
    ensures forall i, p | 0 <= i < |units| :: p in projected[i].excluded <==> p in Projection.ExcludedNames(units[i].value, cfg)
    ensures forall i, t | 0 <= i < |units| ::
              t in projected[i].truncated <==> t in Projection.Cuts(units[i].value, "", Projection.ROOT, cfg)
  {
    hide Projection.ExcludedNames, Projection.Cuts, Projection.Apply;
    forall i, p | 0 <= i < |units|
      ensures p in projected[i].excluded <==> p in Projection.ExcludedNames(units[i].value, cfg)
    {
      assert IsProjected(projected[i], units[i], cfg);
      assert p in projected[i].excluded <==> p in Projection.Elems(projected[i].excluded);
    }
    forall i, t | 0 <= i < |units|
      ensures t in projected[i].truncated <==> t in Projection.Cuts(units[i].value, "", Projection.ROOT, cfg)
    {
      assert IsProjected(projected[i], units[i], cfg);
      assert t in projected[i].truncated <==> t in Projection.Elems(projected[i].truncated);
    }
  }

  lemma SilentIff(notice: Notice, units: seq<Unit>, cfg: Projection.Effective)
    requires NotesAll(notice, units, cfg)
    ensures notice.excluded == [] && notice.truncated == [] <==> Silent(units, cfg)
  {
    hide NotesAll, Under, CutUnder, Projection.ExcludedNames, Projection.Cuts;
    EachIsNoted(notice, units, cfg);
    NotedFromSome(notice, units, cfg);
    assert Silent(units, cfg) ==> notice.excluded == [] && notice.truncated == [];
    if notice.excluded == [] && notice.truncated == [] {
      assert forall i, p | 0 <= i < |units| :: p !in Projection.ExcludedNames(units[i].value, cfg);
      assert forall i, t | 0 <= i < |units| :: t !in Projection.Cuts(units[i].value, "", Projection.ROOT, cfg);
    }
  }

  lemma EachIsNoted(notice: Notice, units: seq<Unit>, cfg: Projection.Effective)
    requires NotesAll(notice, units, cfg)
    ensures forall i, p | 0 <= i < |units| && p in Projection.ExcludedNames(units[i].value, cfg) ::
              Under(units[i].prefix, p) in notice.excluded
    ensures forall i, t | 0 <= i < |units| && t in Projection.Cuts(units[i].value, "", Projection.ROOT, cfg) ::
              CutUnder(units[i].prefix, t) in notice.truncated
  {
    hide Under, CutUnder, Projection.ExcludedNames, Projection.Cuts;
  }

  lemma NotedFromSome(notice: Notice, units: seq<Unit>, cfg: Projection.Effective)
    requires NotesAll(notice, units, cfg)
    ensures notice.excluded != [] ==> exists i | 0 <= i < |units| :: Projection.ExcludedNames(units[i].value, cfg) != {}
    ensures notice.truncated != [] ==> exists i | 0 <= i < |units| :: Projection.Cuts(units[i].value, "", Projection.ROOT, cfg) != {}
  {
    hide Under, CutUnder, Projection.ExcludedNames, Projection.Cuts;
    if notice.excluded != [] { assert notice.excluded[0] in notice.excluded; }
    if notice.truncated != [] { assert notice.truncated[0] in notice.truncated; }
  }

  /** What nothing was reported of is unchanged. */
  lemma SilentUnchanged(projected: seq<Unit>, units: seq<Unit>, cfg: Projection.Effective)
    requires AreProjected(projected, units, cfg) && Silent(units, cfg)
    ensures forall i | 0 <= i < |units| :: !projected[i].changed
  {
    hide Projection.Cuts, Projection.Excluded, Projection.Project;
    forall i | 0 <= i < |units| ensures !projected[i].changed {
      assert IsProjected(projected[i], units[i], cfg);
      NoNamesNoExclusions(units[i].value, cfg);
      Projection.NoReportNoChange(units[i].value, "", Projection.ROOT, cfg);
    }
  }

  lemma NoNamesNoExclusions(v: Json, cfg: Projection.Effective)
    requires Projection.ExcludedNames(v, cfg) == {}
    ensures Projection.Excluded(v, "", Projection.ROOT, cfg) == {}
  {
    hide Projection.Excluded, Projection.ExcludedNames;
    EachIsNamed(v, cfg);
    assert forall e :: e !in Projection.Excluded(v, "", Projection.ROOT, cfg);
  }

  lemma EachIsNamed(v: Json, cfg: Projection.Effective)
    ensures forall e | e in Projection.Excluded(v, "", Projection.ROOT, cfg) ::
              Projection.JqPath.Collapse(e) in Projection.ExcludedNames(v, cfg)
  {
    hide Projection.Excluded;
  }

  // ---- Putting together ----

  function WithNotice(u: Unit, notice: Notice): Unit {
    if u.summary.Obj? || u.summary.Arr? then u.(summary := Carried(u.summary, notice), changed := true) else u
  }

  function TextOf(u: Unit, codec: Codec): string {
    if u.kind.JsonText? then codec.encode(u.summary) else if u.summary.Str? then u.summary.s else ""
  }

  function SetAll(content: seq<Block>, where: seq<nat>, text: string): (r: seq<Block>)
    ensures |r| == |content|
  {
    seq(|content|, i requires 0 <= i < |content| => if i in where then content[i].(text := text) else content[i])
  }

  function Applied(doc: Doc, u: Unit, mirrors: seq<nat>, codec: Codec): (r: Doc)
    ensures |r.content| == |doc.content| && r.structured == doc.structured
  {
    if !u.changed then doc
    else if u.kind.Structured? then
      doc.(encoded := Some(codec.encode(u.summary)), content := SetAll(doc.content, mirrors, codec.encode(u.summary)))
    else if 0 <= u.block < |doc.content| then
      doc.(content := doc.content[u.block := doc.content[u.block].(text := TextOf(u, codec))])
    else doc
  }

  function AppliedAll(doc: Doc, units: seq<Unit>, n: nat, mirrors: seq<nat>, codec: Codec): (r: Doc)
    requires n <= |units|
    ensures |r.content| == |doc.content| && r.structured == doc.structured
  {
    if n == 0 then doc else Applied(AppliedAll(doc, units, n - 1, mirrors, codec), units[n - 1], mirrors, codec)
  }

  function NoticeText(notice: Notice, codec: Codec): string { "\n" + codec.encode(Obj(map[MINI := NoticeJson(notice)])) }

  predicate NoticeCarried(units: seq<Unit>, carrier: Option<nat>, mirrors: seq<nat>)
    requires carrier.Some? ==> carrier.value < |units|
  {
    carrier.Some? && (!units[carrier.value].kind.Structured? || |mirrors| > 0)
  }

  class Assembler {
    const codec: Codec
    const mirrors: seq<nat>
    var doc: Doc
    var units: array<Unit>

    constructor (doc': Doc, units': seq<Unit>, mirrors': seq<nat>, codec': Codec)
      ensures doc == doc' && units[..] == units' && mirrors == mirrors' && codec == codec' && fresh(units)
    {
      doc, mirrors, codec := doc', mirrors', codec';
      units := new Unit[|units'|](i requires 0 <= i < |units'| => units'[i]);
    }

    method Project(cfg: Option<Projection.Config>, defaults: Projection.Defaults)
      modifies units
      ensures AreProjected(units[..], old(units[..]), Projection.MergeWithDefaults(cfg, defaults))
    {
      hide Projection.Apply, Projection.ExcludedNames, Projection.Cuts, Projection.Sorting.AtMost;
      ghost var effective := Projection.MergeWithDefaults(cfg, defaults);
      for i := 0 to units.Length
        invariant forall j | 0 <= j < i :: IsProjected(units[j], old(units[j]), effective)
        invariant forall j | i <= j < units.Length :: units[j] == old(units[j])
      {
        var r := Projection.ApplyConfig(units[i].value, cfg, defaults);
        units[i] := units[i].(summary := r.summary, changed := r.summary != units[i].value,
                              excluded := r.excludedKeys, truncated := r.truncated);
      }
    }

    method AnyChanged() returns (any: bool)
      ensures any <==> exists i | 0 <= i < units.Length :: units[i].changed
    {
      for i := 0 to units.Length
        invariant forall j | 0 <= j < i :: !units[j].changed
      {
        if units[i].changed { return true; }
      }
      return false;
    }

    /** None, inside the result, when nothing was reported; an error when the full response cannot be stored. */
    method ProxyNotice(stored: Option<string>) returns (notice: Option<Option<Notice>>)
      ensures var paths, cuts := NotedPaths(units[..]), NotedCuts(units[..]);
              notice == if paths == [] && cuts == [] then Some(None)
                        else match stored
                             case None => None
                             case Some(key) => Some(Some(Notice(PROXY_MSG, key, paths, cuts)))
    {
      var excluded, truncated := ReportedPaths(units[..]);
      if |excluded| == 0 && |truncated| == 0 { return Some(None); }
      if stored.None? { return None; }
      return Some(Some(Notice(PROXY_MSG, stored.value, excluded, truncated)));
    }

    method Carry(i: nat, notice: Notice)
      requires i < units.Length
      modifies units
      ensures units[..] == old(units[..])[i := WithNotice(old(units[i]), notice)]
    {
      match units[i].summary
      case Obj(fields) =>
        units[i] := units[i].(summary := Obj(fields[MINI := NoticeJson(notice)]), changed := true);
      case Arr(items) =>
        units[i] := units[i].(summary := Arr(items + [Obj(map[MINI := NoticeJson(notice)])]), changed := true);
      case _ =>
    }

    method ApplyUnit(i: nat)
      requires i < units.Length
      modifies this`doc
      ensures doc == Applied(old(doc), units[i], mirrors, codec)
    {
      var u := units[i];
      if !u.changed { return; }
      if u.kind.Structured? {
        ApplyStructured(codec.encode(u.summary));
      } else if 0 <= u.block < |doc.content| {
        var b := doc.content[u.block];
        doc := doc.(content := doc.content[u.block := b.(text := TextOf(u, codec))]);
      }
    }

    /** The mirrors keep saying what the structured content says. */
    method ApplyStructured(encoded: string)
      modifies this`doc
      ensures doc == old(doc).(encoded := Some(encoded), content := SetAll(old(doc).content, mirrors, encoded))
    {
      var content := doc.content;
      for i := 0 to |mirrors|
        invariant content == SetAll(old(doc).content, mirrors[..i], encoded)
      {
        if mirrors[i] < |content| { content := content[mirrors[i] := content[mirrors[i]].(text := encoded)]; }
        assert mirrors[..i + 1] == mirrors[..i] + [mirrors[i]];
      }
      assert mirrors[..|mirrors|] == mirrors;
      doc := doc.(encoded := Some(encoded), content := content);
    }

    /** `noticeBlock` is where a block for the notice was appended, if one was. */
    method Assemble(carrier: Option<nat>, notice: Option<Notice>) returns (noticeBlock: Option<nat>)
      requires carrier.Some? ==> carrier.value < units.Length
      modifies this`doc, units
      ensures var carried := if carrier.Some? && notice.Some?
                             then old(units[..])[carrier.value := WithNotice(old(units[carrier.value]), notice.value)] else old(units[..]);
              var applied := AppliedAll(old(doc), carried, |carried|, mirrors, codec);
              && (noticeBlock.Some? <==> notice.Some? && !NoticeCarried(carried, carrier, mirrors))
              && (noticeBlock.None? ==> doc == applied)
              && (noticeBlock.Some? ==>
                    && noticeBlock.value == |applied.content|
                    && doc == applied.(content := applied.content + [Block(TextBlock, NoticeText(notice.value, codec))]))
    {
      if carrier.Some? && notice.Some? { Carry(carrier.value, notice.value); }
      ghost var carried, start := units[..], doc;
      for i := 0 to units.Length
        invariant units[..] == carried && doc == AppliedAll(start, carried, i, mirrors, codec)
      {
        ApplyUnit(i);
      }
      if notice.None? || (carrier.Some? && (!units[carrier.value].kind.Structured? || |mirrors| > 0)) { return None; }
      noticeBlock := Some(|doc.content|);
      doc := doc.(content := doc.content + [Block(TextBlock, NoticeText(notice.value, codec))]);
    }
  }

  // ---- The whole ----

  /** A unit that carries a notice still stands where it stood. */
  lemma CarrierCanCarry(units: seq<Unit>, hasStructured: bool)
    requires hasStructured ==> units != [] && units[0].kind.Structured?
    ensures CarrierOf(units, hasStructured).Some? ==>
              var c := CarrierOf(units, hasStructured).value;
              && c < |units|
              && (units[c].value.Arr? || MiniFree(units[c].value))
              && (units[c].kind.Structured? <==> hasStructured) && (!hasStructured ==> units[c].kind.JsonText?)
  {
    CarriersFit(units, |units|);
    if !hasStructured && |Carriers(units, |units|)| == 1 { assert Carriers(units, |units|)[0] in Carriers(units, |units|); }
  }

  /** Projection keeps an object an object and an array an array. */
  lemma ProjectionKeepsKind(v: Json, cfg: Projection.Effective)
    ensures v.Obj? ==> Projection.Apply(v, cfg).Obj?
    ensures v.Arr? ==> Projection.Apply(v, cfg).Arr?
  {
    Projection.ProjectTrims(v, "", Projection.ROOT, cfg);
  }

  /** Units that stand where `Shaped` units stood. */
  ghost predicate SamePlaces(units: seq<Unit>, shaped: seq<Unit>) {
    |units| == |shaped| && forall j | 0 <= j < |units| :: units[j].kind == shaped[j].kind && units[j].block == shaped[j].block
  }

  /** What putting the units in leaves of each block: the mirrors say what the structured content says, the
      block of a changed unit says what the unit says, and every other block is as it was. */
  lemma {:induction false} AppliedBlocks(doc: Doc, units: seq<Unit>, shaped: seq<Unit>, n: nat, mirrors: seq<nat>, codec: Codec,
                                         hasStructured: bool, i: nat)
    requires Shaped(shaped, mirrors, |doc.content|, hasStructured) && SamePlaces(units, shaped)
    requires n <= |units| && i < |doc.content|
    ensures var r := AppliedAll(doc, units, n, mirrors, codec);
            var top := n > 0 && hasStructured && units[0].changed;
            && r.encoded == (if top then Some(codec.encode(units[0].summary)) else doc.encoded)
            && (i in mirrors ==> r.content[i] == if top then doc.content[i].(text := codec.encode(units[0].summary)) else doc.content[i])
            && (forall j | 0 <= j < n && units[j].block == i && units[j].changed :: r.content[i] == doc.content[i].(text := TextOf(units[j], codec)))
            && (i !in mirrors && (forall j | 0 <= j < n && units[j].changed :: units[j].block != i) ==> r.content[i] == doc.content[i])
  {
    if n > 0 {
      AppliedBlocks(doc, units, shaped, n - 1, mirrors, codec, hasStructured, i);
      assert FitsBlock(shaped[n - 1], mirrors, |doc.content|);
      hide TextOf;
    }
  }

  function CarriedAll(units: seq<Unit>, carrier: Option<nat>, notice: Option<Notice>): (r: seq<Unit>)
    requires carrier.Some? ==> carrier.value < |units|
    ensures |r| == |units|
  {
    if carrier.Some? && notice.Some? then units[carrier.value := WithNotice(units[carrier.value], notice.value)] else units
  }

  lemma CarriedInPlace(projected: seq<Unit>, shaped: seq<Unit>, cfg: Projection.Effective, carrier: Option<nat>, notice: Option<Notice>)
    requires AreProjected(projected, shaped, cfg) && (carrier.Some? ==> carrier.value < |shaped|)
    ensures SamePlaces(CarriedAll(projected, carrier, notice), shaped)
  {
    hide Projection.Apply, Projection.ExcludedNames, Projection.Cuts, Carried;
    assert forall i | 0 <= i < |shaped| :: IsProjected(projected[i], shaped[i], cfg);
  }

  /** The document with the units put in. */
  function WithUnits(doc: Doc, units: seq<Unit>, codec: Codec): Doc {
    AppliedAll(doc, units, |units|, MirrorsOf(doc, |doc.content|, codec), codec)
  }

  /** A built result, and where a block for the notice was appended, if one was. */
  datatype Built = Built(doc: Doc, noticeBlock: Option<nat>)

  ghost predicate Carries(doc: Doc, codec: Codec, j: nat) {
    CarrierOf(UnitsOf(doc, |doc.content|, codec), doc.structured.Some?) == Some(j)
  }

  /** A unit as it is put in: its projection, with the notice if it is the one to carry it. */
  ghost function Outcome(doc: Doc, j: nat, notice: Notice, cfg: Projection.Effective, codec: Codec): Unit
    requires j < |UnitsOf(doc, |doc.content|, codec)|
  {
    var u := UnitsOf(doc, |doc.content|, codec)[j];
    var x := Projection.Apply(u.value, cfg);
    if Carries(doc, codec, j) then u.(summary := Carried(x, notice), changed := true) else u.(summary := x, changed := x != u.value)
  }

  /** Whether the notice is seen in a unit: in the block of the unit, or in a copy of the structured content. */
  ghost predicate CarrierShows(doc: Doc, codec: Codec) {
    exists j | 0 <= j < |UnitsOf(doc, |doc.content|, codec)| && Carries(doc, codec, j) ::
      !UnitsOf(doc, |doc.content|, codec)[j].kind.Structured? || |MirrorsOf(doc, |doc.content|, codec)| > 0
  }

  function Retold(b: Block, changed: bool, text: string): Block { if changed then b.(text := text) else b }

  /** How a result comes out that something was reported of, block by block: a unit's block says what the unit
      comes to, copies of the structured content stay copies of it, every other block is as it came, and a
      block for the notice is appended exactly when no text shows it otherwise. */
  ghost predicate Reported(doc: Doc, built: Built, notice: Notice, cfg: Projection.Effective, codec: Codec) {
    var units, mirrors, n := UnitsOf(doc, |doc.content|, codec), MirrorsOf(doc, |doc.content|, codec), |doc.content|;
    && NotesAll(notice, units, cfg) && notice.msg == PROXY_MSG
    && built.noticeBlock == (if CarrierShows(doc, codec) then None else Some(n))
    && |built.doc.content| == n + (if built.noticeBlock.Some? then 1 else 0)
    && (built.noticeBlock.Some? ==> built.doc.content[n] == Block(TextBlock, NoticeText(notice, codec)))
    && built.doc.structured == doc.structured
    && built.doc.encoded == EncodedContent(doc, notice, cfg, codec)
    && forall i | 0 <= i < n ::
         && (forall j | 0 <= j < |units| && units[j].block == i ::
               var o := Outcome(doc, j, notice, cfg, codec);
               built.doc.content[i] == Retold(doc.content[i], o.changed, TextOf(o, codec)))
         && (i in mirrors && units != [] ==>
               var o := Outcome(doc, 0, notice, cfg, codec);
               built.doc.content[i] == Retold(doc.content[i], o.changed, codec.encode(o.summary)))
         && (i !in mirrors && (forall j | 0 <= j < |units| :: units[j].block != i) ==> built.doc.content[i] == doc.content[i])
  }

  ghost function EncodedContent(doc: Doc, notice: Notice, cfg: Projection.Effective, codec: Codec): Option<string> {
    var units := UnitsOf(doc, |doc.content|, codec);
    if doc.structured.Some? && units != [] && Outcome(doc, 0, notice, cfg, codec).changed
    then Some(codec.encode(Outcome(doc, 0, notice, cfg, codec).summary)) else doc.encoded
  }

  /** A block shows the notice: it was made for it, or it prints the projection that carries it. */
  ghost predicate Shows(b: Block, doc: Doc, notice: Notice, cfg: Projection.Effective, codec: Codec) {
    || b == Block(TextBlock, NoticeText(notice, codec))
    || exists j | 0 <= j < |UnitsOf(doc, |doc.content|, codec)| && Carries(doc, codec, j) ::
         b.text == codec.encode(Carried(Projection.Apply(UnitsOf(doc, |doc.content|, codec)[j].value, cfg), notice))
  }

  /** Whatever was reported, some text block of the result shows the notice. */
  lemma NoticeReachesText(doc: Doc, built: Built, notice: Notice, cfg: Projection.Effective, codec: Codec)
    requires Reported(doc, built, notice, cfg, codec)
    ensures exists i :: 0 <= i < |built.doc.content| && Shows(built.doc.content[i], doc, notice, cfg, codec)
  {
    hide Projection.Apply, Carried, NotesAll, UnitsOf, MirrorsOf, NoticeText, CarrierOf;
    var units, mirrors, n := UnitsOf(doc, |doc.content|, codec), MirrorsOf(doc, |doc.content|, codec), |doc.content|;
    if CarrierShows(doc, codec) {
      var j :| 0 <= j < |units| && Carries(doc, codec, j) && (!units[j].kind.Structured? || |mirrors| > 0);
      UnitsAreShaped(doc, n, codec);
      CarrierCanCarry(units, doc.structured.Some?);
      assert FitsBlock(units[j], mirrors, n);
      var i: nat := if units[j].kind.Structured? then mirrors[0] else units[j].block;
      assert i in mirrors || units[j].block == i;
      assert Shows(built.doc.content[i], doc, notice, cfg, codec);
    } else {
      assert Shows(built.doc.content[n], doc, notice, cfg, codec);
    }
  }

  /** The units as they are put in are what they should come to. */
  lemma OutcomesAre(doc: Doc, projected: seq<Unit>, notice: Notice, cfg: Projection.Effective, codec: Codec)
    requires AreProjected(projected, UnitsOf(doc, |doc.content|, codec), cfg)
    ensures var units := UnitsOf(doc, |doc.content|, codec);
            var carrier := CarrierOf(units, doc.structured.Some?);
            && (carrier.Some? ==> carrier.value < |projected|)
            && forall j | 0 <= j < |units| ::
                 var o, c := Outcome(doc, j, notice, cfg, codec), CarriedAll(projected, carrier, Some(notice))[j];
                 c.kind == o.kind && c.block == o.block && c.summary == o.summary && c.changed == o.changed
  {
    hide Projection.Apply, Projection.ExcludedNames, Projection.Cuts, Carried, CarrierOf, UnitsOf;
    var units := UnitsOf(doc, |doc.content|, codec);
    UnitsAreShaped(doc, |doc.content|, codec);
    CarrierCanCarry(units, doc.structured.Some?);
    var carrier := CarrierOf(units, doc.structured.Some?);
    forall j | 0 <= j < |units|
      ensures var o, c := Outcome(doc, j, notice, cfg, codec), CarriedAll(projected, carrier, Some(notice))[j];
              c.kind == o.kind && c.block == o.block && c.summary == o.summary && c.changed == o.changed
    {
      assert IsProjected(projected[j], units[j], cfg);
      ProjectionKeepsKind(units[j].value, cfg);
    }
  }

  lemma OnlyUnitThere(carried: seq<Unit>, units: seq<Unit>, mirrors: seq<nat>, n: nat, hasStructured: bool, j: nat)
    requires Shaped(units, mirrors, n, hasStructured) && SamePlaces(carried, units) && j < |units|
    ensures forall k | 0 <= k < |units| && k != j :: carried[k].block != carried[j].block
    ensures carried[j].block >= 0 ==> units[j].block !in mirrors
  {
    assert FitsBlock(units[j], mirrors, n);
  }

  /** Putting the units in leaves this of one block. */
  lemma BlockComesOut(doc: Doc, carried: seq<Unit>, codec: Codec, i: nat)
    requires SamePlaces(carried, UnitsOf(doc, |doc.content|, codec)) && i < |doc.content|
    ensures var units, mirrors := UnitsOf(doc, |doc.content|, codec), MirrorsOf(doc, |doc.content|, codec);
            var b := WithUnits(doc, carried, codec).content[i];
            && (forall j | 0 <= j < |units| && units[j].block == i ::
                  b == Retold(doc.content[i], carried[j].changed, TextOf(carried[j], codec)))
            && (i in mirrors && units != [] ==> b == Retold(doc.content[i], carried[0].changed, codec.encode(carried[0].summary)))
            && (i !in mirrors && (forall j | 0 <= j < |units| :: units[j].block != i) ==> b == doc.content[i])
  {
    hide UnitsOf, MirrorsOf, AppliedAll, TextOf, Shaped;
    var units, mirrors := UnitsOf(doc, |doc.content|, codec), MirrorsOf(doc, |doc.content|, codec);
    UnitsAreShaped(doc, |doc.content|, codec);
    MirrorsNeedStructured(doc, |doc.content|, codec);
    AppliedBlocks(doc, carried, units, |carried|, mirrors, codec, doc.structured.Some?, i);
    forall j | 0 <= j < |units| && units[j].block == i
      ensures WithUnits(doc, carried, codec).content[i] == Retold(doc.content[i], carried[j].changed, TextOf(carried[j], codec))
    {
      OnlyUnitThere(carried, units, mirrors, |doc.content|, doc.structured.Some?, j);
    }
  }

  lemma {:induction false} MirrorsNeedStructured(doc: Doc, n: nat, codec: Codec)
    requires n <= |doc.content|
    ensures MirrorsOf(doc, n, codec) != [] ==> doc.structured.Some?
  {
    if n > 0 { MirrorsNeedStructured(doc, n - 1, codec); }
  }

  lemma {:induction false} FirstUnit(doc: Doc, n: nat, codec: Codec)
    requires n <= |doc.content| && doc.structured.Some?
    ensures UnitsOf(doc, n, codec) != [] && UnitsOf(doc, n, codec)[0] == StructuredUnit(doc.structured.value)
  {
    if n > 0 { FirstUnit(doc, n - 1, codec); }
  }

  /** Only the first unit prints the structured content. */
  lemma {:induction false} EncodedFirst(doc: Doc, units: seq<Unit>, shaped: seq<Unit>, n: nat, mirrors: seq<nat>, codec: Codec,
                                        hasStructured: bool)
    requires Shaped(shaped, mirrors, |doc.content|, hasStructured) && SamePlaces(units, shaped) && n <= |units|
    ensures AppliedAll(doc, units, n, mirrors, codec).encoded
            == if n > 0 && hasStructured && units[0].changed then Some(codec.encode(units[0].summary)) else doc.encoded
  {
    if n > 0 {
      EncodedFirst(doc, units, shaped, n - 1, mirrors, codec, hasStructured);
      assert units[n - 1].kind == shaped[n - 1].kind;
    }
  }

  /** Projects a result and puts it together again. Nothing is cut in silence: unless no unit has anything
      to report, and then the result is as it came, a text block shows a notice that names everything the
      projections reported, and every block comes out as its part does. When the structured content changes,
      every text block that was a copy of it is a copy of the new one. `stored` is the key the full response
      was stored under, if it could be. */
  method BuildResult(doc: Doc, cfg: Option<Projection.Config>, defaults: Projection.Defaults, stored: Option<string>, codec: Codec)
    returns (built: Option<Built>)
    ensures var effective := Projection.MergeWithDefaults(cfg, defaults);
            var silent := Silent(UnitsOf(doc, |doc.content|, codec), effective);
            && (built.None? <==> !silent && stored.None?)
            && (silent ==> built == Some(Built(doc, None)))
            && (!silent && stored.Some? ==>
                  exists notice: Notice :: notice.file == stored.value && Reported(doc, built.value, notice, effective, codec)
                    && exists i :: 0 <= i < |built.value.doc.content| && Shows(built.value.doc.content[i], doc, notice, effective, codec))
    ensures built.Some? && built.value.doc.encoded.Some? && built.value.doc.encoded != doc.encoded ==>
              && |doc.content| <= |built.value.doc.content|
              && forall i | 0 <= i < |doc.content| && i in MirrorsOf(doc, |doc.content|, codec) ::
                   built.value.doc.content[i] == doc.content[i].(text := built.value.doc.encoded.value)
  {
    hide Projection.Apply, AppliedAll, CarrierOf, UnitsOf, MirrorsOf, Carried, NoticeText, Shaped, Projection.MergeWithDefaults, Silent,
         NotedPaths, NotedCuts, NotesAll, AreProjected, Reported, Shows;
    var units, mirrors := CollectUnits(doc, codec);
    ghost var effective := Projection.MergeWithDefaults(cfg, defaults);
    UnitsAreShaped(doc, |doc.content|, codec);
    var assembler := new Assembler(doc, units, mirrors, codec);
    assembler.Project(cfg, defaults);
    ghost var projected := assembler.units[..];
    var carrier := PickCarrier(units, doc.structured.Some?);
    CarrierCanCarry(units, doc.structured.Some?);
    SameLength(projected, units, effective);
    var noted := assembler.ProxyNotice(stored);
    NotedAll(Notice(PROXY_MSG, "", NotedPaths(projected), NotedCuts(projected)), projected, units, effective);
    if noted.None? { return None; }
    var changed := assembler.AnyChanged();
    if noted.value.None? && !changed { return Some(Built(doc, None)); }
    if noted.value.None? {
      SilentUnchanged(projected, units, effective);
      assert false;
    }
    var notice := noted.value.value;
    NotedAll(notice, projected, units, effective);
    var noticeBlock := assembler.Assemble(carrier, Some(notice));
    built := Some(Built(assembler.doc, noticeBlock));
    BuiltReports(doc, built.value, projected, effective, notice, codec);
    NoticeReachesText(doc, built.value, notice, effective, codec);
    CopiesFollow(doc, built.value, notice, effective, codec);
  }

  lemma SameLength(projected: seq<Unit>, units: seq<Unit>, cfg: Projection.Effective)
    requires AreProjected(projected, units, cfg)
    ensures |projected| == |units|
  {
  }

  /** What the parts leave together is what is promised. */
  lemma BuiltReports(doc: Doc, built: Built, projected: seq<Unit>, cfg: Projection.Effective, notice: Notice, codec: Codec)
    requires var units, mirrors := UnitsOf(doc, |doc.content|, codec), MirrorsOf(doc, |doc.content|, codec);
             var carrier := CarrierOf(units, doc.structured.Some?);
             && AreProjected(projected, units, cfg) && NotesAll(notice, units, cfg) && notice.msg == PROXY_MSG
             && (carrier.Some? ==> carrier.value < |projected|)
             && var carried := CarriedAll(projected, carrier, Some(notice));
             var applied := WithUnits(doc, carried, codec);
             if NoticeCarried(carried, carrier, mirrors) then built == Built(applied, None)
             else built == Built(applied.(content := applied.content + [Block(TextBlock, NoticeText(notice, codec))]), Some(|doc.content|))
    ensures Reported(doc, built, notice, cfg, codec)
  {
    hide Projection.Apply, AppliedAll, CarrierOf, UnitsOf, MirrorsOf, Carried, NoticeText, NotesAll, AreProjected, CarriedAll, Outcome,
         TextOf, Shaped;
    var units, mirrors, n := UnitsOf(doc, |doc.content|, codec), MirrorsOf(doc, |doc.content|, codec), |doc.content|;
    var carrier := CarrierOf(units, doc.structured.Some?);
    var carried := CarriedAll(projected, carrier, Some(notice));
    UnitsAreShaped(doc, n, codec);
    CarriedInPlace(projected, units, cfg, carrier, Some(notice)) by { SameLength(projected, units, cfg); }
    OutcomesAre(doc, projected, notice, cfg, codec);
    SameText(doc, carried, notice, cfg, codec);
    CarrierShown(doc, carried, codec);
    EncodedAs(doc, carried, notice, cfg, codec);
    forall i | 0 <= i < n
      ensures built.doc.content[i] == WithUnits(doc, carried, codec).content[i]
      ensures forall j | 0 <= j < |units| && units[j].block == i ::
                var o := Outcome(doc, j, notice, cfg, codec);
                built.doc.content[i] == Retold(doc.content[i], o.changed, TextOf(o, codec))
      ensures i in mirrors && units != [] ==>
                var o := Outcome(doc, 0, notice, cfg, codec);
                built.doc.content[i] == Retold(doc.content[i], o.changed, codec.encode(o.summary))
      ensures i !in mirrors && (forall j | 0 <= j < |units| :: units[j].block != i) ==> built.doc.content[i] == doc.content[i]
    {
      BlockComesOut(doc, carried, codec, i);
    }
  }

  lemma SameText(doc: Doc, carried: seq<Unit>, notice: Notice, cfg: Projection.Effective, codec: Codec)
    requires |carried| == |UnitsOf(doc, |doc.content|, codec)|
    requires forall j | 0 <= j < |carried| ::
               carried[j].kind == Outcome(doc, j, notice, cfg, codec).kind && carried[j].summary == Outcome(doc, j, notice, cfg, codec).summary
    ensures forall j | 0 <= j < |carried| :: TextOf(carried[j], codec) == TextOf(Outcome(doc, j, notice, cfg, codec), codec)
  {
    hide Outcome, UnitsOf;
  }

  lemma CarrierShown(doc: Doc, carried: seq<Unit>, codec: Codec)
    requires SamePlaces(carried, UnitsOf(doc, |doc.content|, codec))
    ensures var carrier := CarrierOf(UnitsOf(doc, |doc.content|, codec), doc.structured.Some?);
            && (carrier.Some? ==> carrier.value < |carried|)
            && (NoticeCarried(carried, carrier, MirrorsOf(doc, |doc.content|, codec)) <==> CarrierShows(doc, codec))
  {
    hide UnitsOf, MirrorsOf, CarrierOf;
    var units := UnitsOf(doc, |doc.content|, codec);
    UnitsAreShaped(doc, |doc.content|, codec);
    CarrierCanCarry(units, doc.structured.Some?);
    var carrier := CarrierOf(units, doc.structured.Some?);
    if carrier.Some? { assert Carries(doc, codec, carrier.value); }
  }

  lemma EncodedAs(doc: Doc, carried: seq<Unit>, notice: Notice, cfg: Projection.Effective, codec: Codec)
    requires SamePlaces(carried, UnitsOf(doc, |doc.content|, codec))
    requires forall j | 0 <= j < |carried| ::
               carried[j].changed == Outcome(doc, j, notice, cfg, codec).changed && carried[j].summary == Outcome(doc, j, notice, cfg, codec).summary
    ensures WithUnits(doc, carried, codec).encoded == EncodedContent(doc, notice, cfg, codec)
  {
    hide Outcome, UnitsOf, MirrorsOf, AppliedAll;
    UnitsAreShaped(doc, |doc.content|, codec);
    EncodedFirst(doc, carried, UnitsOf(doc, |doc.content|, codec), |carried|, MirrorsOf(doc, |doc.content|, codec), codec, doc.structured.Some?);
  }

  /** Where the structured content changed, its copies changed with it. */
  lemma CopiesFollow(doc: Doc, built: Built, notice: Notice, cfg: Projection.Effective, codec: Codec)
    requires Reported(doc, built, notice, cfg, codec)
    ensures built.doc.encoded.Some? && built.doc.encoded != doc.encoded ==>
              && |doc.content| <= |built.doc.content|
              && forall i | 0 <= i < |doc.content| && i in MirrorsOf(doc, |doc.content|, codec) ::
                   built.doc.content[i] == doc.content[i].(text := built.doc.encoded.value)
  {
    hide UnitsOf, MirrorsOf, Outcome, NotesAll, NoticeText, CarrierShows;
  }

  // ---- The client's check of the structured content ----

  /** The structured content of a result says `x`: printed anew, or left as it came. */
  ghost predicate Says(result: Doc, doc: Doc, x: Json, codec: Codec) {
    result.encoded == Some(codec.encode(x)) || (doc.structured == Some(x) && result.encoded == doc.encoded)
  }

  /** The structured content of whatever result is built from a valid one is valid under the schema the tool
      is listed with: as it came when nothing was reported, projected and with its notice otherwise. */
  lemma BuiltContentIsValid(schema: Json, doc: Doc, built: Built, notice: Notice, cfg: Projection.Effective, codec: Codec, d: Dialect)
    returns (x: Json)
    requires schema.Obj? && Fragment(schema, ResultTrim(cfg)) && doc.structured.Some?
    requires Satisfies(DefsOf(schema), schema, doc.structured.value, d)
    requires OwnMini(schema, doc.structured.value)
    requires (MiniFree(doc.structured.value) || doc.structured.value.Arr?) && !Silent(UnitsOf(doc, |doc.content|, codec), cfg) ==>
               TakesNotice(schema, d)
    requires if Silent(UnitsOf(doc, |doc.content|, codec), cfg) then built == Built(doc, None)
             else Reported(doc, built, notice, cfg, codec)
    ensures Says(built.doc, doc, x, codec)
    ensures var listed := ProxyOutputSchema(Some(schema));
            listed.Some? && Satisfies(DefsOf(listed.value), listed.value, x, d)
  {
    hide Satisfies, ProxyOutputSchema, TakesNotice, Fragment, DefsOf, OwnMini, Projection.Apply, Carried, NotesAll, Silent;
    var v := doc.structured.value;
    ProjectedResultIsValid(schema, v, cfg, notice, d);
    x := Projection.Apply(v, cfg);
    if Silent(UnitsOf(doc, |doc.content|, codec), cfg) {
      SilentSame(doc, cfg, codec);
    } else {
      FirstUnit(doc, |doc.content|, codec);
      CarrierCanCarry(UnitsOf(doc, |doc.content|, codec), true);
      if Carries(doc, codec, 0) { x := Carried(x, notice); }
    }
  }

  lemma SilentSame(doc: Doc, cfg: Projection.Effective, codec: Codec)
    requires doc.structured.Some? && Silent(UnitsOf(doc, |doc.content|, codec), cfg)
    ensures Projection.Apply(doc.structured.value, cfg) == doc.structured.value
  {
    hide Projection.Excluded, Projection.Cuts, Projection.Project;
    FirstUnit(doc, |doc.content|, codec);
    NoNamesNoExclusions(doc.structured.value, cfg);
    Projection.NoReportNoChange(doc.structured.value, "", Projection.ROOT, cfg);
  }
}
