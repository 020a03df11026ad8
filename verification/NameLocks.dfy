/** Reference-counted locks, one per name, kept in a map only while somebody refers to them. */
module NameLocks {
  import opened Options

  type Tid = nat
  type Lid = nat

  /** A lock object; `holder` is the thread that has it. */
  datatype Entry = Entry(refs: nat, holder: Option<Tid>)

  /** Where a thread is: waiting for an entry it has counted itself on, holding it, or between giving it up
      and uncounting itself. */
  datatype Pc =
    | Outside
    | Blocked(name: string, lid: Lid)
    | Inside(name: string, lid: Lid)
    | Leaving(name: string, lid: Lid)

  datatype State = State(locks: map<string, Lid>, objs: map<Lid, Entry>, pcs: map<Tid, Pc>)

  const START := State(map[], map[], map[])

  function PcOf(s: State, t: Tid): Pc { if t in s.pcs then s.pcs[t] else Outside }

  datatype Move =
    | Lock(name: string, newLid: Lid)
    | TryLock(name: string, newLid: Lid)
    | Acquire
    | Unlock
    | Uncount

  predicate Enabled(s: State, t: Tid, m: Move) {
    match m
    case Lock(_, newLid) => PcOf(s, t).Outside? && newLid !in s.objs
    case TryLock(_, newLid) => PcOf(s, t).Outside? && newLid !in s.objs
    case Acquire => PcOf(s, t).Blocked? && PcOf(s, t).lid in s.objs && s.objs[PcOf(s, t).lid].holder.None?
    case Unlock => PcOf(s, t).Inside? && PcOf(s, t).lid in s.objs
    case Uncount => PcOf(s, t).Leaving? && PcOf(s, t).lid in s.objs && s.objs[PcOf(s, t).lid].refs > 0
  }

  /** The entry for a name, made if there is none. */
  function WithEntry(s: State, name: string, newLid: Lid): State {
    if name in s.locks then s else s.(locks := s.locks[name := newLid], objs := s.objs[newLid := Entry(0, None)])
  }

  /** The object of an entry; in every reachable state a name in the map has one. */
  function EntryAt(s: State, lid: Lid): Entry { if lid in s.objs then s.objs[lid] else Entry(0, None) }

  function Put(s: State, t: Tid, pc: Pc, lid: Lid, e: Entry): State {
    s.(objs := s.objs[lid := e], pcs := s.pcs[t := pc])
  }

  function Take(s: State, t: Tid, m: Move): State
    requires Enabled(s, t, m)
  {
    match m
    case Lock(name, newLid) =>
      var s1 := WithEntry(s, name, newLid);
      var lid := s1.locks[name];
      var e := EntryAt(s1, lid);
      Put(s1, t, Blocked(name, lid), lid, e.(refs := e.refs + 1))
    case TryLock(name, newLid) =>
      var s1 := WithEntry(s, name, newLid);
      var lid := s1.locks[name];
      var e := EntryAt(s1, lid);
      if e.holder.Some? then s1 else Put(s1, t, Inside(name, lid), lid, Entry(e.refs + 1, Some(t)))
    case Acquire =>
      var pc := PcOf(s, t);
      Put(s, t, Inside(pc.name, pc.lid), pc.lid, s.objs[pc.lid].(holder := Some(t)))
    case Unlock =>
      var pc := PcOf(s, t);
      Put(s, t, Leaving(pc.name, pc.lid), pc.lid, s.objs[pc.lid].(holder := None))
    case Uncount =>
      var pc := PcOf(s, t);
      var e := s.objs[pc.lid];
      var s1 := Put(s, t, Outside, pc.lid, e.(refs := e.refs - 1));
      if e.refs == 1 then s1.(locks := s1.locks - {pc.name}) else s1
  }

  // ---- What holds in every reachable state ----

  predicate Refers(pc: Pc, lid: Lid) { !pc.Outside? && pc.lid == lid }

  /** The threads that refer to an entry. */
  function Referring(s: State, lid: Lid): set<Tid> {
    set t | t in s.pcs && Refers(s.pcs[t], lid)
  }

  /** An entry counts the threads that refer to it. */
  ghost predicate RefsCounted(s: State) {
    forall lid | lid in s.objs :: s.objs[lid].refs == |Referring(s, lid)|
  }

  /** Every thread that refers to an entry refers to the one in the map for its name. */
  ghost predicate RefersToMapped(s: State) {
    forall t: Tid :: MappedAt(s, PcOf(s, t))
  }

  predicate MappedAt(s: State, pc: Pc) { pc.Outside? || (pc.name in s.locks && s.locks[pc.name] == pc.lid) }

  ghost predicate HoldersInside(s: State) {
    && (forall lid | lid in s.objs && s.objs[lid].holder.Some? :: InsideAt(PcOf(s, s.objs[lid].holder.value), lid))
    && (forall t: Tid :: HoldsIts(s, t, PcOf(s, t)))
  }

  predicate HoldsIts(s: State, t: Tid, pc: Pc) { pc.Inside? ==> pc.lid in s.objs && s.objs[pc.lid].holder == Some(t) }

  predicate InsideAt(pc: Pc, lid: Lid) { pc.Inside? && pc.lid == lid }

  /** No entry stays in the map without references, and different names have different entries. */
  ghost predicate MapFits(s: State) {
    && (forall name | name in s.locks :: s.locks[name] in s.objs && s.objs[s.locks[name]].refs > 0)
    && (forall a, b | a in s.locks && b in s.locks && s.locks[a] == s.locks[b] :: a == b)
    && (forall lid | lid in s.objs && s.objs[lid].refs > 0 :: exists name :: name in s.locks && s.locks[name] == lid)
  }

  ghost predicate Inv(s: State) { RefsCounted(s) && RefersToMapped(s) && HoldersInside(s) && MapFits(s) }

  // ---- Every step keeps it ----

  /** How the set of referring threads changes when one thread moves. */
  lemma ReferringMoves(s: State, s': State, t: Tid, pc: Pc, lid: Lid)
    requires s'.pcs == s.pcs[t := pc]
    ensures Referring(s', lid) == if Refers(pc, lid) then Referring(s, lid) + {t} else Referring(s, lid) - {t}
    ensures t in Referring(s, lid) <==> Refers(PcOf(s, t), lid)
  {
  }

  lemma CountsMoved(s: State, s': State, t: Tid, pc: Pc, lid: Lid)
    requires RefsCounted(s) && s'.pcs == s.pcs[t := pc]
    requires forall l | l in s'.objs && l != lid :: l in s.objs && s'.objs[l].refs == s.objs[l].refs && !Refers(pc, l) && !Refers(PcOf(s, t), l)
    requires lid in s'.objs
    requires var before := if lid in s.objs then s.objs[lid].refs else |Referring(s, lid)|;
             s'.objs[lid].refs == before + (if Refers(pc, lid) then 1 else 0) - (if Refers(PcOf(s, t), lid) then 1 else 0)
    ensures RefsCounted(s')
  {
    forall l | l in s'.objs ensures s'.objs[l].refs == |Referring(s', l)| {
      ReferringMoves(s, s', t, pc, l);
    }
  }

  lemma UnmappedUnreferred(s: State, lid: Lid)
    requires Inv(s) && lid !in s.objs
    ensures Referring(s, lid) == {}
  {
    forall t | t in s.pcs ensures !Refers(s.pcs[t], lid) {
      assert MappedAt(s, PcOf(s, t));
    }
  }

  lemma MappedIsDistinct(s: State, name: string, newLid: Lid)
    requires Inv(s) && newLid !in s.objs
    ensures var s1 := WithEntry(s, name, newLid);
            && s1.locks[name] in s1.objs
            && s1.objs[s1.locks[name]].refs == |Referring(s, s1.locks[name])|
            && (forall a | a in s1.locks :: s1.locks[a] in s1.objs && (s1.locks[a] == s1.locks[name] <==> a == name))
            && (name in s.locks ==> s1 == s)
  {
    if name !in s.locks { UnmappedUnreferred(s, newLid); }
  }

  /** A thread gains a reference to the entry for a name, made if need be. */
  lemma JoinKeeps(s: State, t: Tid, name: string, newLid: Lid, pc: Pc, holder: Option<Tid>)
    requires Inv(s) && newLid !in s.objs && PcOf(s, t).Outside?
    requires var s1 := WithEntry(s, name, newLid);
             var lid := s1.locks[name];
             && lid in s1.objs && !pc.Outside? && !pc.Leaving? && pc.name == name && pc.lid == lid
             && (if pc.Inside? then s1.objs[lid].holder.None? && holder == Some(t) else holder == s1.objs[lid].holder)
    ensures var s1 := WithEntry(s, name, newLid);
            var lid := s1.locks[name];
            Inv(Put(s1, t, pc, lid, Entry(s1.objs[lid].refs + 1, holder)))
  {
    hide RefsCounted, RefersToMapped, HoldersInside, MapFits, FitsBut, Referring;
    var s1 := WithEntry(s, name, newLid);
    var lid := s1.locks[name];
    var s' := Put(s1, t, pc, lid, Entry(s1.objs[lid].refs + 1, holder));
    SamePcs(s, name, newLid);
    JoinCounts(s, t, name, newLid, pc, holder);
    EntryMade(s, name, newLid);
    hide Put, WithEntry;
    JoinHolders(s1, s', t, pc, lid, holder);
    JoinMaps(s1, s', t, pc, lid, holder);
  }

  lemma SamePcs(s: State, name: string, newLid: Lid)
    ensures WithEntry(s, name, newLid).pcs == s.pcs && name in WithEntry(s, name, newLid).locks
  {
  }

  /** The map fits, but the entry for one name may not be counted yet. */
  ghost predicate FitsBut(s: State, name: string) {
    && (forall a | a in s.locks :: s.locks[a] in s.objs && (a != name ==> s.objs[s.locks[a]].refs > 0))
    && (forall a, b | a in s.locks && b in s.locks && s.locks[a] == s.locks[b] :: a == b)
    && (forall lid | lid in s.objs && s.objs[lid].refs > 0 :: exists a :: a in s.locks && s.locks[a] == lid)
  }

  /** Making an entry keeps everything but the count of the new one. */
  lemma EntryMade(s: State, name: string, newLid: Lid)
    requires RefersToMapped(s) && HoldersInside(s) && MapFits(s) && newLid !in s.objs
    ensures var s1 := WithEntry(s, name, newLid);
            && RefersToMapped(s1) && HoldersInside(s1)
            && FitsBut(s1, name)
  {
    hide RefersToMapped, HoldersInside, MapFits, FitsBut;
    EntryMadeThreads(s, name, newLid);
    if name in s.locks { FitsAlready(s, name); } else { EntryMadeMaps(s, name, newLid); }
  }

  lemma FitsAlready(s: State, name: string)
    requires MapFits(s)
    ensures FitsBut(s, name)
  {
  }

  lemma EntryMadeMaps(s: State, name: string, newLid: Lid)
    requires MapFits(s) && name !in s.locks && newLid !in s.objs
    ensures FitsBut(WithEntry(s, name, newLid), name)
  {
    var s1 := WithEntry(s, name, newLid);
    forall a | a in s1.locks ensures s1.locks[a] == if a == name then newLid else s.locks[a] {}
    forall lid | lid in s1.objs && s1.objs[lid].refs > 0 ensures exists a :: a in s1.locks && s1.locks[a] == lid {
      var a :| a in s.locks && s.locks[a] == lid;
      assert a in s1.locks && s1.locks[a] == lid;
    }
  }

  lemma EntryMadeThreads(s: State, name: string, newLid: Lid)
    requires RefersToMapped(s) && HoldersInside(s) && newLid !in s.objs
    ensures RefersToMapped(WithEntry(s, name, newLid)) && HoldersInside(WithEntry(s, name, newLid))
  {
    var s1 := WithEntry(s, name, newLid);
    forall t: Tid ensures MappedAt(s1, PcOf(s1, t)) { assert MappedAt(s, PcOf(s, t)); }
    forall t: Tid ensures HoldsIts(s1, t, PcOf(s1, t)) { assert HoldsIts(s, t, PcOf(s, t)); }
  }

  lemma JoinHolders(s1: State, s': State, t: Tid, pc: Pc, lid: Lid, holder: Option<Tid>)
    requires RefersToMapped(s1) && HoldersInside(s1) && PcOf(s1, t).Outside? && lid in s1.objs
    requires !pc.Outside? && !pc.Leaving? && pc.name in s1.locks && s1.locks[pc.name] == lid && pc.lid == lid
    requires if pc.Inside? then s1.objs[lid].holder.None? && holder == Some(t) else holder == s1.objs[lid].holder
    requires s' == Put(s1, t, pc, lid, Entry(s1.objs[lid].refs + 1, holder))
    ensures RefersToMapped(s') && HoldersInside(s')
  {
    forall t': Tid ensures MappedAt(s', PcOf(s', t')) { assert MappedAt(s1, PcOf(s1, t')); }
    forall l | l in s'.objs && s'.objs[l].holder.Some? ensures InsideAt(PcOf(s', s'.objs[l].holder.value), l) {
      assert s1.objs[l].holder.Some? ==> InsideAt(PcOf(s1, s1.objs[l].holder.value), l);
    }
    forall t': Tid ensures HoldsIts(s', t', PcOf(s', t')) { assert HoldsIts(s1, t', PcOf(s1, t')); }
  }

  lemma JoinMaps(s1: State, s': State, t: Tid, pc: Pc, lid: Lid, holder: Option<Tid>)
    requires !pc.Outside? && pc.name in s1.locks && s1.locks[pc.name] == lid && lid in s1.objs
    requires FitsBut(s1, pc.name)
    requires s' == Put(s1, t, pc, lid, Entry(s1.objs[lid].refs + 1, holder))
    ensures MapFits(s')
  {
    forall l | l in s'.objs && s'.objs[l].refs > 0 ensures exists a :: a in s'.locks && s'.locks[a] == l {
      if l == lid {
        assert s'.locks[pc.name] == l;
      } else {
        var a :| a in s1.locks && s1.locks[a] == l;
        assert a in s'.locks && s'.locks[a] == l;
      }
    }
  }

  lemma JoinCounts(s: State, t: Tid, name: string, newLid: Lid, pc: Pc, holder: Option<Tid>)
    requires Inv(s) && newLid !in s.objs && PcOf(s, t).Outside?
    requires var s1 := WithEntry(s, name, newLid);
             s1.locks[name] in s1.objs && !pc.Outside? && pc.lid == s1.locks[name]
    ensures var s1 := WithEntry(s, name, newLid);
            var lid := s1.locks[name];
            RefsCounted(Put(s1, t, pc, lid, Entry(s1.objs[lid].refs + 1, holder)))
  {
    var s1 := WithEntry(s, name, newLid);
    var lid := s1.locks[name];
    MappedIsDistinct(s, name, newLid);
    hide Referring;
    if name !in s.locks { UnmappedUnreferred(s, newLid); }
    CountsMoved(s, Put(s1, t, pc, lid, Entry(s1.objs[lid].refs + 1, holder)), t, pc, lid);
  }

  /** A thread gets or gives up the entry it refers to. */
  lemma HandOver(s: State, t: Tid, pc: Pc, holder: Option<Tid>)
    requires Inv(s) && !PcOf(s, t).Outside? && PcOf(s, t).lid in s.objs
    requires !pc.Outside? && pc.name == PcOf(s, t).name && pc.lid == PcOf(s, t).lid
    requires (pc.Inside? && holder == Some(t) && s.objs[pc.lid].holder.None?) || (pc.Leaving? && holder.None? && PcOf(s, t).Inside?)
    ensures Inv(Put(s, t, pc, pc.lid, s.objs[pc.lid].(holder := holder)))
  {
    var s' := Put(s, t, pc, pc.lid, s.objs[pc.lid].(holder := holder));
    CountsMoved(s, s', t, pc, pc.lid) by { hide Referring; }
    hide RefsCounted, Referring;
    HandOverHolders(s, s', t, pc, holder);
    HandOverMaps(s, s', t, pc, holder);
  }

  lemma HandOverMaps(s: State, s': State, t: Tid, pc: Pc, holder: Option<Tid>)
    requires RefersToMapped(s) && MapFits(s) && !PcOf(s, t).Outside? && PcOf(s, t).lid in s.objs
    requires !pc.Outside? && pc.name == PcOf(s, t).name && pc.lid == PcOf(s, t).lid
    requires s' == Put(s, t, pc, pc.lid, s.objs[pc.lid].(holder := holder))
    ensures RefersToMapped(s') && MapFits(s')
  {
    forall t': Tid ensures MappedAt(s', PcOf(s', t')) { assert MappedAt(s, PcOf(s, t')); }
    forall l | l in s'.objs && s'.objs[l].refs > 0 ensures exists a :: a in s'.locks && s'.locks[a] == l {
      var a :| a in s.locks && s.locks[a] == l;
      assert a in s'.locks && s'.locks[a] == l;
    }
  }

  lemma HandOverHolders(s: State, s': State, t: Tid, pc: Pc, holder: Option<Tid>)
    requires HoldersInside(s) && !PcOf(s, t).Outside? && PcOf(s, t).lid in s.objs
    requires !pc.Outside? && pc.lid == PcOf(s, t).lid
    requires (pc.Inside? && holder == Some(t) && s.objs[pc.lid].holder.None?) || (pc.Leaving? && holder.None? && PcOf(s, t).Inside?)
    requires s' == Put(s, t, pc, pc.lid, s.objs[pc.lid].(holder := holder))
    ensures HoldersInside(s')
  {
    forall l | l in s'.objs && s'.objs[l].holder.Some? ensures InsideAt(PcOf(s', s'.objs[l].holder.value), l) {
      assert l != pc.lid ==> InsideAt(PcOf(s, s.objs[l].holder.value), l);
    }
    forall t': Tid ensures HoldsIts(s', t', PcOf(s', t')) { assert HoldsIts(s, t', PcOf(s, t')) && HoldsIts(s, t, PcOf(s, t)); }
  }

  lemma UncountKeeps(s: State, t: Tid)
    requires Inv(s) && Enabled(s, t, Uncount)
    ensures Inv(Take(s, t, Uncount))
  {
    var pc, s' := PcOf(s, t), Take(s, t, Uncount);
    assert MappedAt(s, pc);
    UncountCounts(s, t);
    if s.objs[pc.lid].refs == 1 { OnlyReference(s, t); }
    hide RefsCounted, Referring;
    UncountMapped(s, s', t);
    UncountHolders(s, s', t);
    UncountMaps(s, s', t);
  }

  lemma UncountMapped(s: State, s': State, t: Tid)
    requires RefersToMapped(s) && PcOf(s, t).Leaving? && s'.pcs == s.pcs[t := Outside]
    requires s'.locks == s.locks
             || (s'.locks == s.locks - {PcOf(s, t).name}
                 && forall t': Tid | t' != t && !PcOf(s, t').Outside? :: PcOf(s, t').name != PcOf(s, t).name)
    ensures RefersToMapped(s')
  {
    forall t': Tid ensures MappedAt(s', PcOf(s', t')) { assert MappedAt(s, PcOf(s, t')); }
  }

  lemma UncountHolders(s: State, s': State, t: Tid)
    requires HoldersInside(s) && PcOf(s, t).Leaving? && PcOf(s, t).lid in s.objs && s'.pcs == s.pcs[t := Outside]
    requires s'.objs.Keys == s.objs.Keys && forall l | l in s.objs :: s'.objs[l].holder == s.objs[l].holder
    ensures HoldersInside(s')
  {
    forall l | l in s'.objs && s'.objs[l].holder.Some? ensures InsideAt(PcOf(s', s'.objs[l].holder.value), l) {
      assert InsideAt(PcOf(s, s.objs[l].holder.value), l);
    }
    forall t': Tid ensures HoldsIts(s', t', PcOf(s', t')) { assert HoldsIts(s, t', PcOf(s, t')); }
  }

  lemma UncountMaps(s: State, s': State, t: Tid)
    requires MapFits(s) && Enabled(s, t, Uncount)
    requires PcOf(s, t).name in s.locks && s.locks[PcOf(s, t).name] == PcOf(s, t).lid
    requires s' == Take(s, t, Uncount)
    ensures MapFits(s')
  {
    var lid := PcOf(s, t).lid;
    hide Enabled;
    assert s'.objs == s.objs[lid := s'.objs[lid]] && s'.objs[lid].refs == s.objs[lid].refs - 1;
    assert s'.locks == if s.objs[lid].refs == 1 then s.locks - {PcOf(s, t).name} else s.locks;
    hide Take;
    forall l | l in s'.objs && s'.objs[l].refs > 0 ensures exists a :: a in s'.locks && s'.locks[a] == l {
      var a :| a in s.locks && s.locks[a] == l;
      assert a in s'.locks && s'.locks[a] == l;
    }
  }

  lemma UncountCounts(s: State, t: Tid)
    requires Inv(s) && Enabled(s, t, Uncount)
    ensures RefsCounted(Take(s, t, Uncount))
  {
    hide Referring;
    CountsMoved(s, Take(s, t, Uncount), t, Outside, PcOf(s, t).lid);
  }

  /** The last thread to leave is the only one that still referred to the entry. */
  lemma OnlyReference(s: State, t: Tid)
    requires Inv(s) && PcOf(s, t).Leaving? && PcOf(s, t).lid in s.objs && s.objs[PcOf(s, t).lid].refs == 1
    ensures forall t': Tid | t' != t :: !Refers(PcOf(s, t'), PcOf(s, t).lid)
    ensures forall t': Tid | t' != t && !PcOf(s, t').Outside? :: PcOf(s, t').name != PcOf(s, t).name
  {
    var lid := PcOf(s, t).lid;
    var all := Referring(s, lid);
    assert t in all && |all - {t}| == 0;
    forall t': Tid | t' != t ensures !Refers(PcOf(s, t'), lid) {
      assert t' !in all - {t};
    }
    assert MappedAt(s, PcOf(s, t));
    forall t': Tid | t' != t && !PcOf(s, t').Outside? ensures PcOf(s, t').name != PcOf(s, t).name {
      assert MappedAt(s, PcOf(s, t'));
    }
  }

  lemma LockKeeps(s: State, t: Tid, name: string, newLid: Lid)
    requires Inv(s) && PcOf(s, t).Outside? && newLid !in s.objs
    ensures Inv(Take(s, t, Lock(name, newLid)))
  {
    hide RefsCounted, RefersToMapped, HoldersInside, MapFits;
    HeldIsMapped(s, name, newLid);
    SamePcs(s, name, newLid);
    var s1 := WithEntry(s, name, newLid);
    hide Inv, WithEntry, Put;
    JoinKeeps(s, t, name, newLid, Blocked(name, s1.locks[name]), s1.objs[s1.locks[name]].holder);
  }

  lemma TryLockKeeps(s: State, t: Tid, name: string, newLid: Lid)
    requires Inv(s) && PcOf(s, t).Outside? && newLid !in s.objs
    ensures Inv(Take(s, t, TryLock(name, newLid)))
  {
    hide RefsCounted, RefersToMapped, HoldersInside, MapFits;
    HeldIsMapped(s, name, newLid);
    SamePcs(s, name, newLid);
    var s1 := WithEntry(s, name, newLid);
    hide Inv, WithEntry, Put;
    if s1.objs[s1.locks[name]].holder.None? {
      JoinKeeps(s, t, name, newLid, Inside(name, s1.locks[name]), Some(t));
    }
  }

  lemma StepKeeps(s: State, t: Tid, m: Move)
    requires Inv(s) && Enabled(s, t, m)
    ensures Inv(Take(s, t, m))
  {
    hide Inv, WithEntry;
    match m
    case Lock(name, newLid) => LockKeeps(s, t, name, newLid);
    case TryLock(name, newLid) => TryLockKeeps(s, t, name, newLid);
    case Acquire => HandOver(s, t, Inside(PcOf(s, t).name, PcOf(s, t).lid), Some(t));
    case Unlock => HandOver(s, t, Leaving(PcOf(s, t).name, PcOf(s, t).lid), None);
    case Uncount => UncountKeeps(s, t);
  }

  /** An entry made on the spot is free, so a failed TryLock leaves none behind. */
  lemma HeldIsMapped(s: State, name: string, newLid: Lid)
    requires Inv(s) && newLid !in s.objs
    ensures var s1 := WithEntry(s, name, newLid);
            s1.locks[name] in s1.objs && (s1.objs[s1.locks[name]].holder.Some? ==> s1 == s)
  {
    hide RefsCounted, RefersToMapped, HoldersInside;
  }

  // ---- Runs ----

  ghost predicate IsStep(s: State, s': State) { exists t, m :: StepBy(s, s', t, m) }

  ghost predicate StepBy(s: State, s': State, t: Tid, m: Move) { Enabled(s, t, m) && s' == Take(s, t, m) }

  ghost predicate IsRun(run: seq<State>) {
    run != [] && run[0] == START && forall i | 0 <= i < |run| - 1 :: IsStep(run[i], run[i + 1])
  }

  lemma {:induction false} RunKeepsInv(run: seq<State>, i: nat)
    requires IsRun(run) && i < |run|
    ensures Inv(run[i])
  {
    if i > 0 {
      RunKeepsInv(run, i - 1);
      hide Inv, Enabled, Take;
      assert IsStep(run[i - 1], run[i - 1 + 1]);
      var t, m :| StepBy(run[i - 1], run[i], t, m);
      StepKeeps(run[i - 1], t, m);
    }
  }

  /** At most one thread holds a name, whatever entries have come and gone for it. */
  lemma OneHolderPerName(run: seq<State>, i: nat, a: Tid, b: Tid)
    requires IsRun(run) && i < |run|
    requires PcOf(run[i], a).Inside? && PcOf(run[i], b).Inside? && PcOf(run[i], a).name == PcOf(run[i], b).name
    ensures a == b
  {
    RunKeepsInv(run, i);
    hide IsRun, RefsCounted;
    assert MappedAt(run[i], PcOf(run[i], a)) && MappedAt(run[i], PcOf(run[i], b));
    assert HoldsIts(run[i], a, PcOf(run[i], a)) && HoldsIts(run[i], b, PcOf(run[i], b));
  }

  /** A thread that refers to an entry finds it in the map under its name, counted. */
  lemma ReferencesAreCounted(run: seq<State>, i: nat, t: Tid)
    requires IsRun(run) && i < |run| && !PcOf(run[i], t).Outside?
    ensures var s, pc := run[i], PcOf(run[i], t);
            && pc.name in s.locks && s.locks[pc.name] == pc.lid
            && pc.lid in s.objs && s.objs[pc.lid].refs == |Referring(s, pc.lid)| && t in Referring(s, pc.lid)
  {
    RunKeepsInv(run, i);
    hide IsRun, HoldersInside;
    assert MappedAt(run[i], PcOf(run[i], t));
  }

  /** A thread waits for the holder of its name and for nothing else. */
  lemma OnlyHoldersBlock(run: seq<State>, i: nat, t: Tid)
    requires IsRun(run) && i < |run|
    ensures var s, pc := run[i], PcOf(run[i], t);
            && (pc.Blocked? ==> pc.lid in s.objs && (Enabled(s, t, Acquire) <==> s.objs[pc.lid].holder.None?))
            && (pc.Inside? ==> Enabled(s, t, Unlock))
            && (pc.Leaving? ==> Enabled(s, t, Uncount))
  {
    if !PcOf(run[i], t).Outside? { ReferencesAreCounted(run, i, t); }
    hide IsRun;
  }

  /** An entry is in the map only while some thread refers to it. */
  lemma NoEntryUnreferred(run: seq<State>, i: nat, name: string)
    requires IsRun(run) && i < |run| && name in run[i].locks
    ensures exists t: Tid :: !PcOf(run[i], t).Outside? && PcOf(run[i], t).name == name
  {
    var s := run[i];
    RunKeepsInv(run, i);
    hide IsRun, HoldersInside;
    var lid := s.locks[name];
    assert |Referring(s, lid)| > 0;
    var t :| t in Referring(s, lid);
    assert MappedAt(s, PcOf(s, t));
  }

  /** Trying for a name succeeds exactly when no thread holds it, and otherwise changes nothing. */
  lemma TryLockIff(run: seq<State>, i: nat, t: Tid, name: string, newLid: Lid)
    requires IsRun(run) && i < |run| && Enabled(run[i], t, TryLock(name, newLid))
    ensures var s, s' := run[i], Take(run[i], t, TryLock(name, newLid));
            && (PcOf(s', t).Inside? <==> !exists t': Tid :: PcOf(s, t').Inside? && PcOf(s, t').name == name)
            && (PcOf(s', t).Inside? ==> PcOf(s', t).name == name)
            && (!PcOf(s', t).Inside? ==> s' == s)
  {
    RunKeepsInv(run, i);
    hide IsRun;
    var s := run[i];
    HeldIsMapped(s, name, newLid);
    if name in s.locks {
      HolderIff(s, name);
    } else if t': Tid :| PcOf(s, t').Inside? && PcOf(s, t').name == name {
      InsideIsMapped(s, t');
    }
    hide Inv;
  }

  lemma InsideIsMapped(s: State, t: Tid)
    requires Inv(s) && PcOf(s, t).Inside?
    ensures PcOf(s, t).name in s.locks && s.locks[PcOf(s, t).name] == PcOf(s, t).lid
    ensures PcOf(s, t).lid in s.objs && s.objs[PcOf(s, t).lid].holder == Some(t)
  {
    hide RefsCounted, MapFits;
    assert MappedAt(s, PcOf(s, t)) && HoldsIts(s, t, PcOf(s, t));
  }

  /** The holder recorded for a name is the thread inside under it. */
  lemma HolderIff(s: State, name: string)
    requires Inv(s) && name in s.locks && s.locks[name] in s.objs
    ensures s.objs[s.locks[name]].holder.Some? <==> exists t: Tid :: PcOf(s, t).Inside? && PcOf(s, t).name == name
  {
    hide RefsCounted;
    var lid := s.locks[name];
    if s.objs[lid].holder.Some? {
      var t := s.objs[lid].holder.value;
      assert InsideAt(PcOf(s, t), lid) && MappedAt(s, PcOf(s, t));
      assert s.locks[PcOf(s, t).name] == s.locks[name];
    }
    forall t: Tid | PcOf(s, t).Inside? && PcOf(s, t).name == name ensures s.objs[lid].holder.Some? { InsideIsMapped(s, t); }
  }
}
