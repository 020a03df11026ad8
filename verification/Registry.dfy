/** The registry of upstream tools and its three indexes. */
module Registry {
  import opened Aliases

  datatype ToolDef = ToolDef(name: string, schema: string)

  /** `alias` is empty for a tool that goes by its own name. */
  datatype Entry = Entry(server: string, upstreamName: string, alias: string, def: ToolDef) {
    function Name(): string { if alias != "" then alias else upstreamName }
    function FullName(): string { server + "." + Name() }
  }

  datatype Params = Params(name: string, defs: seq<ToolDef>, hides: string -> bool, aliases: map<string, string>)

  datatype Index = Index(tools: map<string, Entry>, hidden: map<string, Entry>, byServer: map<string, seq<Entry>>)

  function ListFor(byServer: map<string, seq<Entry>>, server: string): seq<Entry> {
    if server in byServer then byServer[server] else []
  }

  // ---- What the operations make of the indexes ----

  function DefNames(defs: seq<ToolDef>): (names: seq<string>)
    ensures |names| == |defs| && forall i | 0 <= i < |defs| :: names[i] == defs[i].name
  {
    seq(|defs|, i requires 0 <= i < |defs| => defs[i].name)
  }

  function EntryFor(p: Params, def: ToolDef): Entry {
    Entry(p.name, def.name, Resolved(DefNames(p.defs), p.aliases).AliasFor(def.name), def)
  }

  predicate Seen(entries: seq<Entry>, fullName: string) {
    exists i | 0 <= i < |entries| :: entries[i].FullName() == fullName
  }

  /** The entries for the first `n` definitions: those with a valid name, without repetition. */
  function EntriesOf(p: Params, n: nat): seq<Entry>
    requires n <= |p.defs|
  {
    if n == 0 then []
    else
      var before, e := EntriesOf(p, n - 1), EntryFor(p, p.defs[n - 1]);
      if ValidToolName(p.defs[n - 1].name) && !Seen(before, e.FullName()) then before + [e] else before
  }

  function Insert(ix: Index, e: Entry, hidden: bool): Index {
    if hidden then ix.(hidden := ix.hidden[e.FullName() := e])
    else
      ix.(tools := ix.tools[e.FullName() := e], byServer := ix.byServer[e.server := ListFor(ix.byServer, e.server) + [e]])
  }

  function InsertAll(ix: Index, entries: seq<Entry>, hides: string -> bool): Index {
    if entries == [] then ix
    else
      var last := entries[|entries| - 1];
      Insert(InsertAll(ix, entries[..|entries| - 1], hides), last, hides(last.upstreamName))
  }

  function Added(ix: Index, p: Params): Index { InsertAll(ix, EntriesOf(p, |p.defs|), p.hides) }

  function Removed(ix: Index, server: string): Index {
    Index(map k | k in ix.tools && ix.tools[k].server != server :: ix.tools[k],
          map k | k in ix.hidden && ix.hidden[k].server != server :: ix.hidden[k],
          ix.byServer - {server})
  }

  function Replaced(ix: Index, p: Params): Index { Added(Removed(ix, p.name), p) }

  // ---- What holds of the indexes at all times ----

  ghost predicate Filed(entries: map<string, Entry>) {
    forall k | k in entries :: entries[k].FullName() == k && ValidServerName(entries[k].server)
  }

  ghost predicate ListedOnce(ix: Index) {
    && (forall k | k in ix.tools :: ix.tools[k] in ListFor(ix.byServer, ix.tools[k].server))
    && (forall s | s in ix.byServer :: ix.byServer[s] != [])
    && (forall s, i | s in ix.byServer && 0 <= i < |ix.byServer[s]| ::
          && ix.byServer[s][i].server == s
          && ix.byServer[s][i].FullName() in ix.tools
          && ix.tools[ix.byServer[s][i].FullName()] == ix.byServer[s][i])
    && (forall s | s in ix.byServer :: Distinct(ix.byServer[s]))
  }

  ghost predicate Distinct(entries: seq<Entry>) {
    forall i, j | 0 <= i < j < |entries| :: entries[i].FullName() != entries[j].FullName()
  }

  ghost predicate WellIndexed(ix: Index) {
    Filed(ix.tools) && Filed(ix.hidden) && ix.tools.Keys !! ix.hidden.Keys && ListedOnce(ix)
  }

  predicate Absent(ix: Index, server: string) {
    && (forall k | k in ix.tools :: ix.tools[k].server != server)
    && (forall k | k in ix.hidden :: ix.hidden[k].server != server)
    && server !in ix.byServer
  }

  /** An operation on one server leaves every other server's entries alone. */
  ghost predicate OthersUntouched(before: Index, after: Index, server: string) {
    && (forall k | k in before.tools && before.tools[k].server != server :: k in after.tools && after.tools[k] == before.tools[k])
    && (forall k | k in after.tools && after.tools[k].server != server :: k in before.tools && before.tools[k] == after.tools[k])
    && (forall k | k in before.hidden && before.hidden[k].server != server :: k in after.hidden && after.hidden[k] == before.hidden[k])
    && (forall k | k in after.hidden && after.hidden[k].server != server :: k in before.hidden && before.hidden[k] == after.hidden[k])
    && (forall s | s != server :: ListFor(after.byServer, s) == ListFor(before.byServer, s))
  }

  /** The upstream names the registry knows a server's tools by. */
  function NamesListed(ix: Index, server: string): set<string> {
    (set k | k in ix.tools && ix.tools[k].server == server :: ix.tools[k].upstreamName) +
    (set k | k in ix.hidden && ix.hidden[k].server == server :: ix.hidden[k].upstreamName)
  }

  /** The names of a tool list that can be registered at all. */
  function ValidNames(defs: seq<ToolDef>): set<string> {
    set i | 0 <= i < |defs| && ValidToolName(defs[i].name) :: defs[i].name
  }

  // ---- Full names ----

  lemma DotInside(s: string, a: string, t: string, b: string)
    requires s + "." + a == t + "." + b
    ensures |s| < |t| ==> t[|s|] == '.'
  {
    var whole := s + "." + a;
    assert whole[|s|] == '.';
  }

  lemma FullNameSplits(s: string, a: string, t: string, b: string)
    requires ValidServerName(s) && ValidServerName(t)
    requires s + "." + a == t + "." + b
    ensures s == t && a == b
  {
    var whole := s + "." + a;
    DotInside(s, a, t, b);
    DotInside(t, b, s, a);
    assert s == whole[..|s|] && t == whole[..|t|];
    assert a == whole[|s| + 1..] && b == whole[|t| + 1..];
  }

  lemma SeenNameIsVisible(p: Params, def: ToolDef)
    requires def in p.defs && ValidToolName(def.name)
    ensures EntryFor(p, def).Name() == Visible(DefNames(p.defs), p.aliases, def.name)
    ensures EntryFor(p, def).upstreamName == def.name && EntryFor(p, def).server == p.name
    ensures def.name in DefNames(p.defs)
  {
    hide Claimants;
    var i :| 0 <= i < |p.defs| && p.defs[i] == def;
    assert DefNames(p.defs)[i] == def.name;
  }

  /** Two entries share a full name only if they are for the same tool. */
  lemma SameFullName(p: Params, a: ToolDef, b: ToolDef)
    requires a in p.defs && b in p.defs && ValidToolName(a.name) && ValidToolName(b.name)
    requires ValidServerName(p.name)
    ensures EntryFor(p, a).FullName() == EntryFor(p, b).FullName() <==> a.name == b.name
  {
    hide Visible, EntryFor, ValidToolName, ValidServerName;
    SeenNameIsVisible(p, a);
    SeenNameIsVisible(p, b);
    if EntryFor(p, a).FullName() == EntryFor(p, b).FullName() {
      FullNameSplits(p.name, EntryFor(p, a).Name(), p.name, EntryFor(p, b).Name());
      if a.name != b.name { VisibleNamesDiffer(DefNames(p.defs), p.aliases, a.name, b.name); }
    }
  }

  /** An entry for one of the definitions that can be registered. */
  ghost predicate Fits(p: Params, e: Entry) {
    exists j | 0 <= j < |p.defs| :: ValidToolName(p.defs[j].name) && e == EntryFor(p, p.defs[j])
  }

  lemma FitsServer(p: Params, e: Entry)
    requires Fits(p, e)
    ensures e.server == p.name
  {
  }

  lemma {:induction false} EntriesFit(p: Params, n: nat)
    requires n <= |p.defs|
    ensures forall i | 0 <= i < |EntriesOf(p, n)| :: Fits(p, EntriesOf(p, n)[i])
    ensures Distinct(EntriesOf(p, n))
  {
    hide ValidToolName, EntryFor;
    if n > 0 {
      EntriesFit(p, n - 1);
      var before, e := EntriesOf(p, n - 1), EntryFor(p, p.defs[n - 1]);
      assert EntriesOf(p, n) == before || EntriesOf(p, n) == before + [e];
    }
  }

  function UpstreamNames(entries: seq<Entry>): set<string> { set i | 0 <= i < |entries| :: entries[i].upstreamName }

  /** The entries are for exactly the valid names of the list. */
  lemma {:induction false} EntriesCoverNames(p: Params, n: nat)
    requires ValidServerName(p.name) && n <= |p.defs|
    ensures UpstreamNames(EntriesOf(p, n)) == ValidNames(p.defs[..n])
  {
    hide ValidToolName, ValidServerName, EntryFor, ValidNames, UpstreamNames, Seen;
    if n > 0 {
      EntriesCoverNames(p, n - 1);
      var before, def := EntriesOf(p, n - 1), p.defs[n - 1];
      NamesGrow(p.defs, n);
      if ValidToolName(def.name) {
        SeenNameIsVisible(p, def);
        if Seen(before, EntryFor(p, def).FullName()) {
          SeenIsListed(p, n - 1, def);
        } else {
          NamesSnoc(before, EntryFor(p, def));
        }
      }
    } else {
      assert UpstreamNames(EntriesOf(p, n)) == {} == ValidNames(p.defs[..n]) by { NoNames(p); }
    }
  }

  lemma NoNames(p: Params)
    ensures UpstreamNames([]) == {} && ValidNames(p.defs[..0]) == {}
  {
  }

  lemma NamesSnoc(entries: seq<Entry>, e: Entry)
    ensures UpstreamNames(entries + [e]) == UpstreamNames(entries) + {e.upstreamName}
  {
    assert forall i | 0 <= i < |entries| :: (entries + [e])[i] == entries[i];
    assert (entries + [e])[|entries|] == e;
  }

  lemma SeenIsListed(p: Params, n: nat, def: ToolDef)
    requires ValidServerName(p.name) && n <= |p.defs| && def in p.defs && ValidToolName(def.name)
    requires Seen(EntriesOf(p, n), EntryFor(p, def).FullName())
    ensures def.name in UpstreamNames(EntriesOf(p, n))
  {
    hide ValidToolName, ValidServerName, EntryFor;
    EntriesFit(p, n);
    var entries := EntriesOf(p, n);
    var i :| 0 <= i < |entries| && entries[i].FullName() == EntryFor(p, def).FullName();
    var j :| 0 <= j < |p.defs| && ValidToolName(p.defs[j].name) && entries[i] == EntryFor(p, p.defs[j]);
    SameFullName(p, p.defs[j], def);
    SeenNameIsVisible(p, p.defs[j]);
  }

  lemma NamesGrow(defs: seq<ToolDef>, n: nat)
    requires 0 < n <= |defs|
    ensures ValidNames(defs[..n]) == ValidNames(defs[..n - 1]) + if ValidToolName(defs[n - 1].name) then {defs[n - 1].name} else {}
  {
    hide ValidToolName;
  }

  // ---- The operations keep the indexes in order ----

  /** What holds once some entries of one server have been inserted where it had none. */
  ghost predicate Holding(before: Index, ix: Index, server: string, entries: seq<Entry>, hides: string -> bool) {
    && WellIndexed(ix)
    && OthersUntouched(before, ix, server)
    && OnlyThese(ix, server, entries)
    && AllThese(ix, entries, hides)
    && ListFor(ix.byServer, server) == Shown(entries, hides)
  }

  /** A server has no other entries than these. */
  ghost predicate OnlyThese(ix: Index, server: string, entries: seq<Entry>) {
    && (forall k | k in ix.tools && ix.tools[k].server == server :: Seen(entries, k))
    && (forall k | k in ix.hidden && ix.hidden[k].server == server :: Seen(entries, k))
  }

  /** Each of these entries is in the index it belongs to. */
  ghost predicate AllThese(ix: Index, entries: seq<Entry>, hides: string -> bool) {
    forall i | 0 <= i < |entries| :: FiledUnder(if hides(entries[i].upstreamName) then ix.hidden else ix.tools, entries[i])
  }

  predicate FiledUnder(filed: map<string, Entry>, e: Entry) { e.FullName() in filed && filed[e.FullName()] == e }

  /** The entries that are not hidden, in order. */
  function Shown(entries: seq<Entry>, hides: string -> bool): seq<Entry> {
    if entries == [] then []
    else
      var before, last := Shown(entries[..|entries| - 1], hides), entries[|entries| - 1];
      if hides(last.upstreamName) then before else before + [last]
  }

  lemma {:induction false} InsertAllHolds(before: Index, server: string, entries: seq<Entry>, hides: string -> bool)
    requires WellIndexed(before) && Absent(before, server) && ValidServerName(server)
    requires Distinct(entries) && forall i | 0 <= i < |entries| :: entries[i].server == server
    ensures Holding(before, InsertAll(before, entries, hides), server, entries, hides)
    decreases |entries|
  {
    if entries == [] {
    } else {
      hide Holding;
      var most, last := entries[..|entries| - 1], entries[|entries| - 1];
      assert entries == most + [last];
      InsertAllHolds(before, server, most, hides);
      InsertHolds(before, InsertAll(before, most, hides), server, most, last, hides);
    }
  }

  lemma InsertHolds(before: Index, ix: Index, server: string, entries: seq<Entry>, e: Entry, hides: string -> bool)
    requires Holding(before, ix, server, entries, hides) && ValidServerName(server)
    requires e.server == server && Distinct(entries + [e])
    ensures Holding(before, Insert(ix, e, hides(e.upstreamName)), server, entries + [e], hides)
  {
    hide Holding, Insert, ValidServerName, Distinct;
    FullNameIsNew(before, ix, server, entries, e, hides);
    if hides(e.upstreamName) {
      InsertHiddenHolds(before, ix, server, entries, e, hides);
    } else {
      InsertShownHolds(before, ix, server, entries, e, hides);
    }
  }

  lemma FullNameIsNew(before: Index, ix: Index, server: string, entries: seq<Entry>, e: Entry, hides: string -> bool)
    requires Holding(before, ix, server, entries, hides) && ValidServerName(server)
    requires e.server == server && Distinct(entries + [e])
    ensures e.FullName() !in ix.tools && e.FullName() !in ix.hidden
    ensures !Seen(entries, e.FullName())
  {
    hide OthersUntouched, ListedOnce, Shown;
    DistinctLast(entries, e);
    NewAmong(ix.tools, e, entries);
    NewAmong(ix.hidden, e, entries);
  }

  lemma DistinctLast(entries: seq<Entry>, e: Entry)
    requires Distinct(entries + [e])
    ensures !Seen(entries, e.FullName())
  {
    assert (entries + [e])[|entries|] == e;
    assert forall i | 0 <= i < |entries| :: (entries + [e])[i] == entries[i];
  }

  lemma NewAmong(filed: map<string, Entry>, e: Entry, entries: seq<Entry>)
    requires Filed(filed) && ValidServerName(e.server) && !Seen(entries, e.FullName())
    requires forall k | k in filed && filed[k].server == e.server :: Seen(entries, k)
    ensures e.FullName() !in filed
  {
    hide ValidServerName;
    var fn := e.FullName();
    if fn in filed { FullNameSplits(e.server, e.Name(), filed[fn].server, filed[fn].Name()); }
  }

  lemma SeenSnoc(entries: seq<Entry>, e: Entry)
    ensures forall k | Seen(entries, k) :: Seen(entries + [e], k)
    ensures Seen(entries + [e], e.FullName())
  {
    assert (entries + [e])[|entries|] == e;
    forall k | Seen(entries, k) ensures Seen(entries + [e], k) {
      var i :| 0 <= i < |entries| && entries[i].FullName() == k;
      assert (entries + [e])[i] == entries[i];
    }
  }

  lemma InsertHiddenHolds(before: Index, ix: Index, server: string, entries: seq<Entry>, e: Entry, hides: string -> bool)
    requires Holding(before, ix, server, entries, hides) && ValidServerName(server)
    requires e.server == server && e.FullName() !in ix.tools && e.FullName() !in ix.hidden && !Seen(entries, e.FullName())
    requires hides(e.upstreamName)
    ensures Holding(before, Insert(ix, e, true), server, entries + [e], hides)
  {
    hide Seen, ValidServerName, OnlyThese, AllThese, OthersUntouched, ListedOnce;
    ShownSnoc(entries, e, hides);
    InsertTouchesNoOther(before, ix, e, true);
    InsertAddsOne(ix, entries, e, hides);
    HiddenListedOnce(ix, e);
  }

  lemma ShownSnoc(entries: seq<Entry>, e: Entry, hides: string -> bool)
    ensures Shown(entries + [e], hides) == Shown(entries, hides) + if hides(e.upstreamName) then [] else [e]
  {
    assert (entries + [e])[..|entries|] == entries;
  }

  lemma InsertTouchesNoOther(before: Index, ix: Index, e: Entry, hidden: bool)
    requires OthersUntouched(before, ix, e.server)
    requires e.FullName() !in ix.tools && e.FullName() !in ix.hidden
    ensures OthersUntouched(before, Insert(ix, e, hidden), e.server)
  {
  }

  lemma InsertAddsOne(ix: Index, entries: seq<Entry>, e: Entry, hides: string -> bool)
    requires OnlyThese(ix, e.server, entries) && AllThese(ix, entries, hides) && !Seen(entries, e.FullName())
    ensures var after := Insert(ix, e, hides(e.upstreamName));
            OnlyThese(after, e.server, entries + [e]) && AllThese(after, entries + [e], hides)
  {
    NotSeen(entries, e.FullName());
    SeenSnoc(entries, e);
    hide Seen;
    var after := Insert(ix, e, hides(e.upstreamName));
    assert forall i | 0 <= i < |entries| :: FiledUnder(if hides(entries[i].upstreamName) then after.hidden else after.tools, entries[i]);
  }

  lemma HiddenListedOnce(ix: Index, e: Entry)
    requires ListedOnce(ix)
    ensures ListedOnce(Insert(ix, e, true))
  {
  }

  lemma NotSeen(entries: seq<Entry>, fullName: string)
    requires !Seen(entries, fullName)
    ensures forall i | 0 <= i < |entries| :: entries[i].FullName() != fullName
  {
  }

  lemma InsertShownHolds(before: Index, ix: Index, server: string, entries: seq<Entry>, e: Entry, hides: string -> bool)
    requires Holding(before, ix, server, entries, hides) && ValidServerName(server)
    requires e.server == server && e.FullName() !in ix.tools && e.FullName() !in ix.hidden && !Seen(entries, e.FullName())
    requires !hides(e.upstreamName)
    ensures Holding(before, Insert(ix, e, false), server, entries + [e], hides)
  {
    hide Seen, ValidServerName, OnlyThese, AllThese, OthersUntouched, ListedOnce;
    ShownSnoc(entries, e, hides);
    InsertTouchesNoOther(before, ix, e, false);
    InsertAddsOne(ix, entries, e, hides);
    ShownListedOnce(ix, e);
  }

  lemma ShownListedOnce(ix: Index, e: Entry)
    requires ListedOnce(ix) && e.FullName() !in ix.tools
    ensures ListedOnce(Insert(ix, e, false))
  {
    var after := Insert(ix, e, false);
    var list := ListFor(ix.byServer, e.server);
    assert forall i | 0 <= i < |list| :: list[i].FullName() in ix.tools;
    assert after.byServer[e.server] == list + [e];
    assert Distinct(list + [e]);
  }

  lemma AddedHolds(ix: Index, p: Params)
    requires WellIndexed(ix) && Absent(ix, p.name) && ValidServerName(p.name)
    ensures Holding(ix, Added(ix, p), p.name, EntriesOf(p, |p.defs|), p.hides)
  {
    hide WellIndexed, Absent, Holding, ValidServerName, EntriesOf;
    var entries := EntriesOf(p, |p.defs|);
    EntriesFit(p, |p.defs|);
    forall i | 0 <= i < |entries| ensures entries[i].server == p.name { FitsServer(p, entries[i]); }
    InsertAllHolds(ix, p.name, entries, p.hides);
  }

  /** Adding a server that is not there lists exactly the valid names of its tools and touches no other
      server. */
  lemma AddedKeeps(ix: Index, p: Params)
    requires WellIndexed(ix) && Absent(ix, p.name) && ValidServerName(p.name)
    ensures WellIndexed(Added(ix, p)) && OthersUntouched(ix, Added(ix, p), p.name)
    ensures NamesListed(Added(ix, p), p.name) == ValidNames(p.defs)
  {
    hide Added, Filed, ListedOnce, Absent, ValidServerName, EntriesOf, Shown, ValidNames, OthersUntouched;
    var after, entries := Added(ix, p), EntriesOf(p, |p.defs|);
    AddedHolds(ix, p);
    EntriesCoverNames(p, |p.defs|);
    EntriesFit(p, |p.defs|);
    assert p.defs[..|p.defs|] == p.defs;
    forall i | 0 <= i < |entries| ensures entries[i].server == p.name { FitsServer(p, entries[i]); }
    NamesOfThese(after, p.name, entries, p.hides);
  }

  lemma NamesOfThese(ix: Index, server: string, entries: seq<Entry>, hides: string -> bool)
    requires OnlyThese(ix, server, entries) && AllThese(ix, entries, hides) && ix.tools.Keys !! ix.hidden.Keys
    requires forall i | 0 <= i < |entries| :: entries[i].server == server
    ensures NamesListed(ix, server) == UpstreamNames(entries)
  {
    forall name | name in NamesListed(ix, server) ensures name in UpstreamNames(entries) {
      if k :| k in ix.tools && ix.tools[k].server == server && ix.tools[k].upstreamName == name {
        var i :| 0 <= i < |entries| && entries[i].FullName() == k;
        assert FiledUnder(if hides(entries[i].upstreamName) then ix.hidden else ix.tools, entries[i]);
      } else {
        var k :| k in ix.hidden && ix.hidden[k].server == server && ix.hidden[k].upstreamName == name;
        var i :| 0 <= i < |entries| && entries[i].FullName() == k;
        assert FiledUnder(if hides(entries[i].upstreamName) then ix.hidden else ix.tools, entries[i]);
      }
    }
    forall i | 0 <= i < |entries| ensures entries[i].upstreamName in NamesListed(ix, server) {
      assert FiledUnder(if hides(entries[i].upstreamName) then ix.hidden else ix.tools, entries[i]);
    }
  }

  /** Removing a server leaves nothing of it and touches no other server. */
  lemma RemovedKeeps(ix: Index, server: string)
    requires WellIndexed(ix)
    ensures WellIndexed(Removed(ix, server)) && OthersUntouched(ix, Removed(ix, server), server)
    ensures Absent(Removed(ix, server), server) && NamesListed(Removed(ix, server), server) == {}
  {
    hide ValidServerName, ListedOnce, OthersUntouched;
    RemovedListedOnce(ix, server);
    RemovedTouchesNoOther(ix, server);
  }

  lemma RemovedTouchesNoOther(ix: Index, server: string)
    ensures OthersUntouched(ix, Removed(ix, server), server)
  {
  }

  lemma RemovedListedOnce(ix: Index, server: string)
    requires ListedOnce(ix)
    ensures ListedOnce(Removed(ix, server))
  {
    hide Distinct;
    var after := Removed(ix, server);
    assert forall s | s != server :: ListFor(after.byServer, s) == ListFor(ix.byServer, s);
    forall s, i | s in after.byServer && 0 <= i < |after.byServer[s]|
      ensures after.byServer[s][i].server == s && after.byServer[s][i].FullName() in after.tools
      ensures after.tools[after.byServer[s][i].FullName()] == after.byServer[s][i]
    {
      assert after.byServer[s][i] == ix.byServer[s][i];
    }
  }

  /** Replacing a server's tools lists exactly the valid names of the new ones, whatever was there. */
  lemma ReplacedKeeps(ix: Index, p: Params)
    requires WellIndexed(ix) && ValidServerName(p.name)
    ensures WellIndexed(Replaced(ix, p)) && OthersUntouched(ix, Replaced(ix, p), p.name)
    ensures NamesListed(Replaced(ix, p), p.name) == ValidNames(p.defs)
  {
    hide WellIndexed, Absent, Removed, Added, OthersUntouched, ValidServerName, ValidNames, NamesListed;
    RemovedKeeps(ix, p.name);
    AddedKeeps(Removed(ix, p.name), p);
    UntouchedThrough(ix, Removed(ix, p.name), Replaced(ix, p), p.name);
  }

  lemma UntouchedThrough(a: Index, b: Index, c: Index, server: string)
    requires OthersUntouched(a, b, server) && OthersUntouched(b, c, server)
    ensures OthersUntouched(a, c, server)
  {
  }

  /** A registered tool that is not hidden is found under its visible name and leads to its upstream name. */
  lemma LookupFinds(ix: Index, p: Params, name: string)
    requires WellIndexed(ix) && Absent(ix, p.name) && ValidServerName(p.name)
    requires name in ValidNames(p.defs) && !p.hides(name)
    ensures var fullName := p.name + "." + Visible(DefNames(p.defs), p.aliases, name);
            fullName in Added(ix, p).tools && Added(ix, p).tools[fullName].upstreamName == name
  {
    hide Added, WellIndexed, Absent, ValidServerName, EntriesOf, Shown, OthersUntouched, EntryFor, ValidToolName, Visible;
    var entries := EntriesOf(p, |p.defs|);
    AddedHolds(ix, p);
    EntriesCoverNames(p, |p.defs|);
    EntriesFit(p, |p.defs|);
    assert p.defs[..|p.defs|] == p.defs;
    assert name in UpstreamNames(entries);
    var i :| 0 <= i < |entries| && entries[i].upstreamName == name;
    assert Fits(p, entries[i]);
    var j :| 0 <= j < |p.defs| && ValidToolName(p.defs[j].name) && entries[i] == EntryFor(p, p.defs[j]);
    SeenNameIsVisible(p, p.defs[j]);
    assert FiledUnder(if p.hides(entries[i].upstreamName) then Added(ix, p).hidden else Added(ix, p).tools, entries[i]);
  }

  // ---- What a server's entries say ----

  function FullNameOf(p: Params, name: string): string { p.name + "." + Visible(DefNames(p.defs), p.aliases, name) }

  predicate FiledAs(filed: map<string, Entry>, fullName: string, server: string, name: string) {
    fullName in filed && filed[fullName].server == server && filed[fullName].upstreamName == name
  }

  /** The server has an entry for each valid name of the list and no other, under the visible name, among the
      hidden tools if the permissions hide it and among the shown ones if not. */
  ghost predicate ShowsAs(ix: Index, p: Params) {
    && (forall name | name in ValidNames(p.defs) ::
          FiledAs(if p.hides(name) then ix.hidden else ix.tools, FullNameOf(p, name), p.name, name))
    && (forall k | k in ix.tools && ix.tools[k].server == p.name :: Belongs(p, k, ix.tools[k].upstreamName, false))
    && (forall k | k in ix.hidden && ix.hidden[k].server == p.name :: Belongs(p, k, ix.hidden[k].upstreamName, true))
  }

  ghost predicate Belongs(p: Params, fullName: string, name: string, hidden: bool) {
    name in ValidNames(p.defs) && p.hides(name) == hidden && fullName == FullNameOf(p, name)
  }

  lemma FitsBelongs(p: Params, e: Entry)
    requires ValidServerName(p.name) && Fits(p, e)
    ensures e.server == p.name && e.upstreamName in ValidNames(p.defs) && e.FullName() == FullNameOf(p, e.upstreamName)
  {
    hide ValidToolName, Visible, EntryFor, ValidServerName;
    var j :| 0 <= j < |p.defs| && ValidToolName(p.defs[j].name) && e == EntryFor(p, p.defs[j]);
    SeenNameIsVisible(p, p.defs[j]);
    FitsServer(p, e);
  }

  lemma TheseShow(ix: Index, p: Params, entries: seq<Entry>)
    requires OnlyThese(ix, p.name, entries) && AllThese(ix, entries, p.hides) && ix.tools.Keys !! ix.hidden.Keys
    requires forall i | 0 <= i < |entries| ::
               && entries[i].server == p.name && entries[i].upstreamName in ValidNames(p.defs)
               && entries[i].FullName() == FullNameOf(p, entries[i].upstreamName)
    requires UpstreamNames(entries) == ValidNames(p.defs)
    ensures ShowsAs(ix, p)
  {
    hide ValidNames, FullNameOf;
    forall name | name in ValidNames(p.defs)
      ensures FiledAs(if p.hides(name) then ix.hidden else ix.tools, FullNameOf(p, name), p.name, name)
    {
      assert name in UpstreamNames(entries);
      var i :| 0 <= i < |entries| && entries[i].upstreamName == name;
      assert FiledUnder(if p.hides(entries[i].upstreamName) then ix.hidden else ix.tools, entries[i]);
    }
    forall k | k in ix.tools && ix.tools[k].server == p.name ensures Belongs(p, k, ix.tools[k].upstreamName, false) {
      var i :| 0 <= i < |entries| && entries[i].FullName() == k;
      assert FiledUnder(if p.hides(entries[i].upstreamName) then ix.hidden else ix.tools, entries[i]);
    }
    forall k | k in ix.hidden && ix.hidden[k].server == p.name ensures Belongs(p, k, ix.hidden[k].upstreamName, true) {
      var i :| 0 <= i < |entries| && entries[i].FullName() == k;
      assert FiledUnder(if p.hides(entries[i].upstreamName) then ix.hidden else ix.tools, entries[i]);
    }
  }

  lemma AddedShows(ix: Index, p: Params)
    requires WellIndexed(ix) && Absent(ix, p.name) && ValidServerName(p.name)
    ensures ShowsAs(Added(ix, p), p)
  {
    hide Added, Filed, ListedOnce, Absent, ValidServerName, EntriesOf, Shown, ValidNames, OthersUntouched, Fits, ShowsAs;
    var after, entries := Added(ix, p), EntriesOf(p, |p.defs|);
    AddedHolds(ix, p);
    EntriesCoverNames(p, |p.defs|);
    EntriesFit(p, |p.defs|);
    assert p.defs[..|p.defs|] == p.defs;
    forall i | 0 <= i < |entries|
      ensures entries[i].server == p.name && entries[i].upstreamName in ValidNames(p.defs)
      ensures entries[i].FullName() == FullNameOf(p, entries[i].upstreamName)
    {
      FitsBelongs(p, entries[i]);
    }
    TheseShow(after, p, entries);
  }

  /** After its tools are replaced, a server's entries are those of the new list, permissions and aliases. */
  lemma ReplacedShows(ix: Index, p: Params)
    requires WellIndexed(ix) && ValidServerName(p.name)
    ensures ShowsAs(Replaced(ix, p), p)
  {
    hide WellIndexed, Absent, Removed, Added, ValidServerName, ShowsAs, OthersUntouched;
    RemovedKeeps(ix, p.name);
    AddedShows(Removed(ix, p.name), p);
  }

  lemma StillShows(before: Index, after: Index, server: string, p: Params)
    requires OthersUntouched(before, after, server) && p.name != server && ShowsAs(before, p)
    ensures ShowsAs(after, p)
  {
    hide Belongs, ValidNames, FullNameOf;
  }

  // ---- Runs ----

  datatype Op = Remove(server: string) | Replace(p: Params) | AddNew(p: Params)

  /** Servers have valid names, and one is added without being replaced only when it is not there. */
  predicate Allowed(ix: Index, op: Op) {
    match op
    case Remove(_) => true
    case Replace(p) => ValidServerName(p.name)
    case AddNew(p) => ValidServerName(p.name) && Absent(ix, p.name)
  }

  function Apply(ix: Index, op: Op): Index {
    match op
    case Remove(server) => Removed(ix, server)
    case Replace(p) => Replaced(ix, p)
    case AddNew(p) => Added(ix, p)
  }

  function Target(op: Op): string { match op case Remove(server) => server case Replace(p) => p.name case AddNew(p) => p.name }

  const EMPTY := Index(map[], map[], map[])

  function After(ops: seq<Op>): Index {
    if ops == [] then EMPTY else Apply(After(ops[..|ops| - 1]), ops[|ops| - 1])
  }

  predicate AllAllowed(ops: seq<Op>) {
    ops != [] ==> AllAllowed(ops[..|ops| - 1]) && Allowed(After(ops[..|ops| - 1]), ops[|ops| - 1])
  }

  /** After any run of operations the indexes agree: no tool is both shown and hidden, and each shown tool
      is in its server's list exactly once. */
  lemma {:induction false} RunKeepsIndexes(ops: seq<Op>)
    requires AllAllowed(ops)
    ensures WellIndexed(After(ops))
    decreases |ops|
  {
    if ops != [] {
      hide WellIndexed, Apply, Allowed;
      RunKeepsIndexes(ops[..|ops| - 1]);
      OpKeeps(After(ops[..|ops| - 1]), ops[|ops| - 1]);
    }
  }

  lemma OpKeeps(ix: Index, op: Op)
    requires WellIndexed(ix) && Allowed(ix, op)
    ensures WellIndexed(Apply(ix, op)) && OthersUntouched(ix, Apply(ix, op), Target(op))
  {
    hide WellIndexed, OthersUntouched, Removed, Replaced, Added, ValidServerName, Absent;
    match op
    case Remove(server) => RemovedKeeps(ix, server);
    case Replace(p) => ReplacedKeeps(ix, p);
    case AddNew(p) => AddedKeeps(ix, p);
  }

  // ---- The registry object ----

  class ToolRegistry {
    var tools: map<string, Entry>
    var hidden: map<string, Entry>
    var byServer: map<string, seq<Entry>>

    ghost function Ix(): Index
      reads this
    {
      Index(tools, hidden, byServer)
    }

    constructor ()
      ensures Ix() == EMPTY
    {
      tools, hidden, byServer := map[], map[], map[];
    }

    method InsertEntry(server: string, e: Entry, hide': bool)
      requires e.server == server
      modifies this
      ensures Ix() == Insert(old(Ix()), e, hide')
    {
      if hide' {
        hidden := hidden[e.FullName() := e];
        return;
      }
      tools := tools[e.FullName() := e];
      byServer := byServer[server := (if server in byServer then byServer[server] else []) + [e]];
    }

    method AddServer(p: Params)
      modifies this
      ensures Ix() == Added(old(Ix()), p)
    {
      hide Insert, ValidToolName, Resolved;
      var resolution := ResolveAliases(DefNames(p.defs), p.aliases);
      var seen := {};
      for i := 0 to |p.defs|
        invariant Ix() == InsertAll(old(Ix()), EntriesOf(p, i), p.hides)
        invariant forall n :: n in seen <==> Seen(EntriesOf(p, i), n)
      {
        var def := p.defs[i];
        if !ValidToolName(def.name) { continue; }
        var entry := Entry(p.name, def.name, resolution.AliasFor(def.name), def);
        assert entry == EntryFor(p, def);
        if entry.FullName() in seen { continue; }
        seen := seen + {entry.FullName()};
        AppendEntry(old(Ix()), EntriesOf(p, i), entry, p.hides);
        InsertEntry(p.name, entry, p.hides(def.name));
      }
    }

    method RemoveServer(server: string)
      requires WellIndexed(Ix())
      modifies this
      ensures Ix() == Removed(old(Ix()), server)
    {
      hide WellIndexed;
      var list := if server in byServer then byServer[server] else [];
      ListedAreSeen(Ix(), server, list);
      DeleteTools(list);
      DeleteHidden(server);
      byServer := byServer - {server};
    }

    method DeleteTools(list: seq<Entry>)
      modifies this`tools
      ensures tools == map k | k in old(tools) && !Seen(list, k) :: old(tools)[k]
    {
      hide Seen;
      NothingSeen();
      for i := 0 to |list|
        invariant tools == map k | k in old(tools) && !Seen(list[..i], k) :: old(tools)[k]
      {
        tools := tools - {list[i].FullName()};
        AppendEntry(EMPTY, list[..i], list[i], _ => false);
        assert list[..i + 1] == list[..i] + [list[i]];
      }
      assert list[..|list|] == list;
    }

    method DeleteHidden(server: string)
      modifies this`hidden
      ensures hidden == map k | k in old(hidden) && old(hidden)[k].server != server :: old(hidden)[k]
    {
      var left := hidden.Keys;
      while left != {}
        invariant left <= hidden.Keys <= old(hidden).Keys
        invariant forall k | k in hidden :: hidden[k] == old(hidden)[k]
        invariant forall k | k in old(hidden) :: k in hidden <==> k in left || old(hidden)[k].server != server
      {
        var key :| key in left;
        if hidden[key].server == server { hidden := hidden - {key}; }
        left := left - {key};
      }
    }

    method ReplaceServer(p: Params)
      requires WellIndexed(Ix())
      modifies this
      ensures Ix() == Replaced(old(Ix()), p)
    {
      RemoveServer(p.name);
      AddServer(p);
    }
  }

  lemma NothingSeen()
    ensures forall n :: !Seen([], n)
  {
  }

  lemma AppendEntry(ix: Index, entries: seq<Entry>, e: Entry, hides: string -> bool)
    ensures InsertAll(ix, entries + [e], hides) == Insert(InsertAll(ix, entries, hides), e, hides(e.upstreamName))
    ensures forall n :: Seen(entries + [e], n) <==> Seen(entries, n) || n == e.FullName()
  {
    assert (entries + [e])[..|entries|] == entries;
    SeenSnoc(entries, e);
    SeenOnly(entries, e);
  }

  lemma SeenOnly(entries: seq<Entry>, e: Entry)
    ensures forall n | Seen(entries + [e], n) :: Seen(entries, n) || n == e.FullName()
  {
    forall n | Seen(entries + [e], n) ensures Seen(entries, n) || n == e.FullName() {
      var i :| 0 <= i < |entries + [e]| && (entries + [e])[i].FullName() == n;
      assert i < |entries| ==> entries[i] == (entries + [e])[i];
    }
  }

  /** A server's list leads to all of its shown tools and no others. */
  lemma ListedAreSeen(ix: Index, server: string, list: seq<Entry>)
    requires WellIndexed(ix) && list == ListFor(ix.byServer, server)
    ensures forall k | k in ix.tools :: Seen(list, k) <==> ix.tools[k].server == server
  {
    hide ValidServerName;
    forall k | k in ix.tools ensures Seen(list, k) <==> ix.tools[k].server == server {
      if ix.tools[k].server == server {
        var i :| 0 <= i < |list| && list[i] == ix.tools[k];
        assert list[i].FullName() == k;
      }
    }
  }
}
