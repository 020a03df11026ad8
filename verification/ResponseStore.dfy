/** The response store's bookkeeping: which files count against the budget while writes, expiry and failed
    deletions interleave. */
module ResponseStore {
  datatype File = File(path: string, size: nat, expires: int)

  function Sum(files: seq<File>): nat {
    if files == [] then 0 else files[0].size + Sum(files[1..])
  }

  lemma {:induction false} SumConcat(a: seq<File>, b: seq<File>)
    ensures Sum(a + b) == Sum(a) + Sum(b)
  {
    if a == [] {
      assert a + b == b;
    } else {
      SumConcat(a[1..], b);
      assert (a + b)[1..] == a[1..] + b;
    }
  }

  // ---- Expiry ----

  predicate Alive(f: File, now: int) { f.expires > now }

  /** The files that are alive, or those that are not, in order. */
  function Select(files: seq<File>, now: int, alive: bool): seq<File> {
    if files == [] then []
    else
      var before, last := Select(files[..|files| - 1], now, alive), files[|files| - 1];
      if Alive(last, now) == alive then before + [last] else before
  }

  lemma SelectSnoc(files: seq<File>, f: File, now: int, alive: bool)
    ensures Select(files + [f], now, alive) == Select(files, now, alive) + if Alive(f, now) == alive then [f] else []
  {
    assert (files + [f])[..|files|] == files;
  }

  /** Nothing is lost: the two halves have the size of the whole. */
  lemma {:induction false} SelectSplitsSize(files: seq<File>, now: int)
    ensures Sum(Select(files, now, true)) + Sum(Select(files, now, false)) == Sum(files)
  {
    if files != [] {
      var most, last := files[..|files| - 1], files[|files| - 1];
      SelectSplitsSize(most, now);
      assert files == most + [last];
      SelectSnoc(most, last, now, true);
      SelectSnoc(most, last, now, false);
      SumConcat(most, [last]);
      SumConcat(Select(most, now, Alive(last, now)), [last]);
      hide Select;
      assert Sum([last]) == last.size;
      assert forall alive :: Select(most, now, alive) + [] == Select(most, now, alive);
    }
  }

  /** Every file is in one of the halves, as often as in the whole. */
  lemma {:induction false} SelectSplitsFiles(files: seq<File>, now: int)
    ensures multiset(Select(files, now, true)) + multiset(Select(files, now, false)) == multiset(files)
  {
    if files != [] {
      var most, last := files[..|files| - 1], files[|files| - 1];
      var side := Alive(last, now);
      SelectSplitsFiles(most, now);
      assert files == most + [last];
      assert Select(files, now, side) == Select(most, now, side) + [last] && Select(files, now, !side) == Select(most, now, !side);
      hide Select;
      assert multiset(Select(files, now, side)) == multiset(Select(most, now, side)) + multiset{last};
    }
  }

  /** Each half has only what belongs in it. */
  lemma {:induction false} SelectSelects(files: seq<File>, now: int, alive: bool)
    ensures forall i | 0 <= i < |Select(files, now, alive)| :: Alive(Select(files, now, alive)[i], now) == alive
  {
    if files != [] { SelectSelects(files[..|files| - 1], now, alive); }
  }

  lemma NoneSelected(files: seq<File>, now: int)
    ensures forall alive :: Select(files[..0], now, alive) == []
  {
  }

  lemma SelectNext(files: seq<File>, n: nat, now: int)
    requires n < |files|
    ensures forall alive :: Select(files[..n + 1], now, alive) ==
                            Select(files[..n], now, alive) + if Alive(files[n], now) == alive then [files[n]] else []
  {
    assert files[..n + 1] == files[..n] + [files[n]];
    forall alive ensures Select(files[..n + 1], now, alive) ==
                         Select(files[..n], now, alive) + if Alive(files[n], now) == alive then [files[n]] else [] {
      SelectSnoc(files[..n], files[n], now, alive);
    }
  }

  // ---- The budget ----

  /** How many files the budget takes from the front; the last one always stays. */
  function Overshoot(files: seq<File>, used: int, budget: nat): (k: nat)
    ensures files != [] ==> k < |files|
    ensures k <= |files|
  {
    if budget == 0 || used <= budget || |files| <= 1 then 0 else 1 + Overshoot(files[1..], used - files[0].size, budget)
  }

  lemma OvershootStep(files: seq<File>, used: int, budget: nat)
    requires files != []
    ensures Sum(files) == files[0].size + Sum(files[1..])
    ensures budget != 0 && used > budget && |files| > 1 ==>
              Overshoot(files, used, budget) == 1 + Overshoot(files[1..], used - files[0].size, budget)
  {
  }

  lemma OvershootEnds(files: seq<File>, used: int, budget: nat)
    requires budget == 0 || used <= budget || |files| <= 1
    ensures Overshoot(files, used, budget) == 0
  {
  }

  /** The shortest front run: with it gone the rest is within the budget or one file is left, and with any
      less gone it is neither. */
  lemma {:induction false} OvershootIsShortest(files: seq<File>, budget: nat)
    ensures var k := Overshoot(files, Sum(files), budget);
            && (budget > 0 ==> Sum(files[k..]) <= budget || |files| - k <= 1)
            && (forall j | 0 <= j < k :: Sum(files[j..]) > budget && |files| - j > 1)
  {
    var k := Overshoot(files, Sum(files), budget);
    assert files[0..] == files;
    if k > 0 {
      OvershootIsShortest(files[1..], budget);
      assert files[1..][k - 1..] == files[k..];
      forall j | 0 <= j < k ensures Sum(files[j..]) > budget && |files| - j > 1 {
        if j > 0 { assert files[1..][j - 1..] == files[j..]; }
      }
    }
  }

  // ---- The store ----

  /** Keeps the living files of a slice in place, at its front, and copies the expired ones out. */
  method PartitionByExpiry(files: array<File>, lo: nat, hi: nat, now: int) returns (kept: nat, expired: seq<File>)
    requires lo <= hi <= files.Length
    modifies files
    ensures lo <= kept <= hi
    ensures files[lo..kept] == Select(old(files[lo..hi]), now, true)
    ensures expired == Select(old(files[lo..hi]), now, false)
    ensures (forall i | lo <= i < kept :: Alive(files[i], now)) && forall i | 0 <= i < |expired| :: !Alive(expired[i], now)
  {
    hide Select;
    ghost var all := files[lo..hi];
    kept, expired := lo, [];
    var i := lo;
    ghost var alive: seq<File> := [];
    NoneSelected(all, now);
    while i < hi
      invariant lo <= kept <= i <= hi
      invariant forall j | i <= j < hi :: files[j] == all[j - lo]
      invariant files[lo..kept] == alive && alive == Select(all[..i - lo], now, true)
      invariant expired == Select(all[..i - lo], now, false)
    {
      var f := files[i];
      SelectNext(all, i - lo, now);
      if f.expires > now {
        files[kept] := f;
        kept := kept + 1;
        assert files[lo..kept] == alive + [f];
        alive := alive + [f];
      } else {
        expired := expired + [f];
      }
      i := i + 1;
    }
    assert all[..hi - lo] == all;
    SelectSelects(all, now, true);
    SelectSelects(all, now, false);
    assert forall j | lo <= j < kept :: files[j] == files[lo..kept][j - lo];
  }

  /** The listed files are a slice of an array, as the loops leave it. */
  class Store {
    const budget: nat
    const ttl: int
    var backing: array<File>
    var lo: nat
    var hi: nat
    var usedBytes: int

    ghost predicate Valid()
      reads this
    {
      lo <= hi <= backing.Length
    }

    ghost function Files(): seq<File>
      requires Valid()
      reads this, backing
    {
      backing[lo..hi]
    }

    /** What the size bookkeeping is for. */
    ghost predicate Counted()
      requires Valid()
      reads this, backing
    {
      usedBytes == Sum(Files())
    }

    constructor (budget': nat, ttl': int)
      ensures Valid() && Files() == [] && Counted() && budget == budget' && ttl == ttl' && fresh(backing)
    {
      budget, ttl := budget', ttl';
      backing := new File[0];
      lo, hi, usedBytes := 0, 0, 0;
    }

    method Discount(files: seq<File>)
      modifies this`usedBytes
      ensures usedBytes == old(usedBytes) - Sum(files)
    {
      var i := 0;
      while i < |files|
        invariant 0 <= i <= |files| && usedBytes == old(usedBytes) - Sum(files[..i])
      {
        SumConcat(files[..i], [files[i]]);
        assert files[..i + 1] == files[..i] + [files[i]];
        usedBytes := usedBytes - files[i].size;
        i := i + 1;
      }
      assert files[..|files|] == files;
    }

    method Charge(files: seq<File>)
      modifies this`usedBytes
      ensures usedBytes == old(usedBytes) + Sum(files)
    {
      var i := 0;
      while i < |files|
        invariant 0 <= i <= |files| && usedBytes == old(usedBytes) + Sum(files[..i])
      {
        SumConcat(files[..i], [files[i]]);
        assert files[..i + 1] == files[..i] + [files[i]];
        usedBytes := usedBytes + files[i].size;
        i := i + 1;
      }
      assert files[..|files|] == files;
    }

    /** The half of eviction that runs under the lock; the files returned are to be removed from disk. */
    method TakeExpired(now: int) returns (toRemove: seq<File>)
      requires Valid() && Counted()
      modifies this`hi, this`usedBytes, backing
      ensures Valid() && Counted()
      ensures Files() == Select(old(Files()), now, true) && toRemove == Select(old(Files()), now, false)
    {
      hide Select;
      SelectSplitsSize(Files(), now);
      var kept, expired := PartitionByExpiry(backing, lo, hi, now);
      Discount(expired);
      hi := kept;
      toRemove := expired;
    }

    method EvictOvershoot() returns (out: seq<File>)
      requires Valid() && Counted()
      modifies this`lo, this`usedBytes
      ensures Valid() && Counted()
      ensures var files, k := old(Files()), Overshoot(old(Files()), old(usedBytes), budget);
              out == files[..k] && Files() == files[k..]
    {
      hide Sum, Overshoot;
      ghost var files, k := Files(), Overshoot(Files(), usedBytes, budget);
      out := [];
      if budget == 0 || usedBytes <= budget {
        OvershootEnds(files, usedBytes, budget);
        return;
      }
      while usedBytes > budget && hi - lo > 1
        invariant Valid() && lo == old(lo) + |out| && |out| <= k && out == files[..|out|]
        invariant Counted() && k == |out| + Overshoot(Files(), usedBytes, budget)
      {
        OvershootStep(Files(), usedBytes, budget);
        assert Files()[1..] == backing[lo + 1..hi];
        assert files[|out|] == backing[lo];
        out := out + [backing[lo]];
        usedBytes := usedBytes - backing[lo].size;
        lo := lo + 1;
      }
      OvershootEnds(Files(), usedBytes, budget);
    }

    /** The half of a write that runs under the lock, once the file is on disk. */
    method RecordWrite(path: string, size: nat, now: int) returns (toRemove: seq<File>)
      requires Valid() && Counted()
      modifies this, backing
      ensures Valid() && Counted() && (backing == old(backing) || fresh(backing))
      ensures var files := old(Files()) + [File(path, size, now + ttl)];
              var k := Overshoot(files, Sum(files), budget);
              toRemove == files[..k] && Files() == files[k..]
    {
      ghost var files := Files() + [File(path, size, now + ttl)];
      SumConcat(Files(), [File(path, size, now + ttl)]);
      Append([File(path, size, now + ttl)]);
      usedBytes := usedBytes + size;
      toRemove := EvictOvershoot();
    }

    /** Appends as a slice does: in place while there is room, else into a larger array. */
    method Append(more: seq<File>)
      requires Valid()
      modifies this`backing, this`lo, this`hi, backing
      ensures Valid() && Files() == old(Files()) + more && (backing == old(backing) || fresh(backing))
    {
      var files := backing[lo..hi] + more;
      if hi + |more| <= backing.Length {
        forall i | 0 <= i < |more| { backing[hi + i] := more[i]; }
        hi := hi + |more|;
        assert backing[lo..hi] == files;
        return;
      }
      backing := new File[|files|](i requires 0 <= i < |files| => files[i]);
      lo, hi := 0, |files|;
    }

    /** Puts files that could not be removed back at the front. */
    method RestoreRemoveFailed(failed: seq<File>)
      requires Valid() && Counted()
      modifies this
      ensures Valid() && Counted() && Files() == failed + old(Files())
    {
      hide Sum;
      assert failed == [] ==> failed + Files() == Files();
      if |failed| == 0 { return; }
      SumConcat(failed, Files());
      Charge(failed);
      var files := failed + backing[lo..hi];
      backing := new File[|files|](i requires 0 <= i < |files| => files[i]);
      lo, hi := 0, |files|;
      assert Files() == files;
    }
  }

  // ---- Writers and the cleaner, step by step ----

  type Tid = nat

  /** A thread between creating a file and recording it, or working through the files it has to remove. */
  datatype Pc =
    | Idle
    | Created(f: File)
    | Removing(todo: seq<File>, failed: seq<File>)

  datatype Place = Unrecorded(t: Tid) | Listed | BeingRemoved(t: Tid) | Gone

  /** `place` says where the file last created under each name is. */
  datatype System = System(files: seq<File>, used: int, pcs: map<Tid, Pc>, place: map<string, Place>)

  const START := System([], 0, map[], map[])

  function PcOf(s: System, t: Tid): Pc { if t in s.pcs then s.pcs[t] else Idle }

  datatype Move =
    | Create(f: File)
    | Record
    | Expire(now: int)
    | RemoveOne(fails: bool)
    | Restore

  /** No file of this name is on disk; one that was there before may be gone. */
  predicate FreeName(s: System, path: string) { path in s.place ==> s.place[path] == Gone }

  predicate Enabled(s: System, t: Tid, m: Move) {
    match m
    case Create(f) => PcOf(s, t).Idle? && FreeName(s, f.path)
    case Record => PcOf(s, t).Created?
    case Expire(_) => PcOf(s, t).Idle?
    case RemoveOne(_) => PcOf(s, t).Removing? && PcOf(s, t).todo != []
    case Restore => PcOf(s, t).Removing? && PcOf(s, t).todo == []
  }

  function Paths(files: seq<File>): set<string> { set i | 0 <= i < |files| :: files[i].path }

  function PlaceAll(place: map<string, Place>, files: seq<File>, where: Place): map<string, Place> {
    map path | path in place.Keys + Paths(files) :: if path in Paths(files) then where else place[path]
  }

  function Take(s: System, t: Tid, m: Move, budget: nat): System
    requires Enabled(s, t, m)
  {
    match m
    case Create(f) => s.(pcs := s.pcs[t := Created(f)], place := PlaceAll(s.place, [f], Unrecorded(t)))
    case Record =>
      var files := s.files + [PcOf(s, t).f];
      var k := Overshoot(files, s.used + PcOf(s, t).f.size, budget);
      System(files[k..], s.used + PcOf(s, t).f.size - Sum(files[..k]), s.pcs[t := Removing(files[..k], [])],
             PlaceAll(PlaceAll(s.place, [PcOf(s, t).f], Listed), files[..k], BeingRemoved(t)))
    case Expire(now) =>
      var expired := Select(s.files, now, false);
      System(Select(s.files, now, true), s.used - Sum(expired), s.pcs[t := Removing(expired, [])],
             PlaceAll(s.place, expired, BeingRemoved(t)))
    case RemoveOne(fails) =>
      var f, todo := PcOf(s, t).todo[0], PcOf(s, t).todo[1..];
      if fails then s.(pcs := s.pcs[t := Removing(todo, PcOf(s, t).failed + [f])])
      else s.(pcs := s.pcs[t := Removing(todo, PcOf(s, t).failed)], place := PlaceAll(s.place, [f], Gone))
    case Restore =>
      var failed := PcOf(s, t).failed;
      System(failed + s.files, s.used + Sum(failed), s.pcs[t := Idle], PlaceAll(s.place, failed, Listed))
  }

  // ---- What holds in every reachable state ----

  function NotYetRecorded(pc: Pc): seq<File> { if pc.Created? then [pc.f] else [] }

  function ToRemove(pc: Pc): seq<File> { if pc.Removing? then pc.todo + pc.failed else [] }

  ghost predicate Distinct(files: seq<File>) {
    forall i, j | 0 <= i < j < |files| :: files[i].path != files[j].path
  }

  /** A place has exactly these files. */
  ghost predicate Holds(place: map<string, Place>, where: Place, files: seq<File>) {
    Distinct(files) && forall path :: path in Paths(files) <==> path in place && place[path] == where
  }

  ghost predicate ThreadFits(s: System, t: Tid, pc: Pc) {
    Holds(s.place, Unrecorded(t), NotYetRecorded(pc)) && Holds(s.place, BeingRemoved(t), ToRemove(pc))
  }

  ghost predicate Inv(s: System) {
    s.used == Sum(s.files) && Holds(s.place, Listed, s.files) && forall t: Tid :: ThreadFits(s, t, PcOf(s, t))
  }

  // ---- Files move from place to place ----

  /** Places other than these have the files they had. */
  ghost predicate Preserves(place: map<string, Place>, place': map<string, Place>, except: set<Place>) {
    forall where, files | where !in except && Holds(place, where, files) :: Holds(place', where, files)
  }

  lemma PreservesThrough(a: map<string, Place>, b: map<string, Place>, c: map<string, Place>, x: set<Place>, y: set<Place>)
    requires Preserves(a, b, x) && Preserves(b, c, y)
    ensures Preserves(a, c, x + y)
  {
    hide Holds;
  }

  /** Files that leave a place; all places other than where they go are as before. */
  lemma Leaves(place: map<string, Place>, moved: seq<File>, from: Place, before: seq<File>, after: seq<File>, to: Place)
    requires Holds(place, from, before) && from != to && Distinct(after)
    requires Paths(moved) <= Paths(before) && Paths(after) == Paths(before) - Paths(moved)
    ensures Holds(PlaceAll(place, moved, to), from, after)
    ensures Preserves(place, PlaceAll(place, moved, to), {from, to})
  {
    hide Distinct, Paths;
    forall where, files | where !in {from, to} && Holds(place, where, files)
      ensures Holds(PlaceAll(place, moved, to), where, files)
    {
      assert Paths(files) !! Paths(before);
    }
  }

  /** Files that arrive at a place. */
  lemma Arrives(place: map<string, Place>, moved: seq<File>, to: Place, before: seq<File>, after: seq<File>)
    requires Holds(place, to, before) && Distinct(after) && Paths(after) == Paths(before) + Paths(moved)
    ensures Holds(PlaceAll(place, moved, to), to, after)
  {
    hide Distinct, Paths;
  }

  lemma PathsConcat(a: seq<File>, b: seq<File>)
    ensures Paths(a + b) == Paths(a) + Paths(b) && Paths(b + a) == Paths(a) + Paths(b)
    ensures Distinct(a + b) <==> Distinct(a) && Distinct(b) && Paths(a) !! Paths(b)
    ensures Distinct(b + a) <==> Distinct(a) && Distinct(b) && Paths(a) !! Paths(b)
  {
    PathsJoin(a, b);
    PathsJoin(b, a);
  }

  lemma PathsJoin(a: seq<File>, b: seq<File>)
    ensures Paths(a + b) == Paths(a) + Paths(b)
    ensures Distinct(a + b) <==> Distinct(a) && Distinct(b) && Paths(a) !! Paths(b)
  {
    var c := a + b;
    assert forall i | 0 <= i < |a| :: c[i] == a[i];
    assert forall i | 0 <= i < |b| :: c[|a| + i] == b[i];
    if Distinct(c) {
      forall i, j | 0 <= i < j < |a| ensures a[i].path != a[j].path { assert c[i].path != c[j].path; }
      forall i, j | 0 <= i < j < |b| ensures b[i].path != b[j].path { assert c[|a| + i].path != c[|a| + j].path; }
      forall i, j | 0 <= i < |a| && 0 <= j < |b| ensures a[i].path != b[j].path { assert c[i].path != c[|a| + j].path; }
    }
    if Distinct(a) && Distinct(b) && Paths(a) !! Paths(b) {
      forall i, j | 0 <= i < j < |c| ensures c[i].path != c[j].path {
        assert j < |a| ==> c[i] == a[i] && c[j] == a[j];
        assert i >= |a| ==> c[i] == b[i - |a|] && c[j] == b[j - |a|];
        assert i < |a| <= j ==> a[i].path in Paths(a) && b[j - |a|].path in Paths(b);
      }
    }
  }

  lemma OnePath(f: File)
    ensures Paths([f]) == {f.path} && Distinct([f]) && Distinct([]) && Paths([]) == {}
  {
    assert [f][0] == f;
  }

  lemma {:induction false} SelectPaths(files: seq<File>, now: int)
    requires Distinct(files)
    ensures Distinct(Select(files, now, true)) && Distinct(Select(files, now, false))
    ensures Paths(Select(files, now, true)) + Paths(Select(files, now, false)) == Paths(files)
    ensures Paths(Select(files, now, true)) !! Paths(Select(files, now, false))
  {
    hide Paths, Distinct, Select;
    if files == [] {
      OnePath(File("", 0, 0));
      NoneSelected(files, now);
      assert files[..0] == files;
    } else {
      var n := |files| - 1;
      var most, last := files[..n], files[n];
      var side := Alive(last, now);
      assert files == most + [last] && files[..n + 1] == files;
      PathsConcat(most, [last]);
      OnePath(last);
      SelectPaths(most, now);
      SelectNext(files, n, now);
      PathsConcat(Select(most, now, side), [last]);
      assert Select(files, now, side) == Select(most, now, side) + [last];
      assert Select(files, now, !side) == Select(most, now, !side);
    }
  }

  /** The same for all threads but the one that moved. */
  lemma OthersFit(s: System, s': System, t: Tid, pc: Pc, except: set<Place>)
    requires Inv(s) && s'.pcs == s.pcs[t := pc] && Preserves(s.place, s'.place, except)
    requires forall where | where in except :: where.Listed? || where.Gone? || where.t == t
    requires ThreadFits(s', t, pc)
    ensures forall t': Tid :: ThreadFits(s', t', PcOf(s', t'))
  {
    hide Holds;
    forall t': Tid ensures ThreadFits(s', t', PcOf(s', t')) {
      assert ThreadFits(s, t', PcOf(s, t'));
    }
  }

  lemma HandsNow(s: System, t: Tid)
    requires Inv(s)
    ensures Holds(s.place, Unrecorded(t), NotYetRecorded(PcOf(s, t))) && Holds(s.place, BeingRemoved(t), ToRemove(PcOf(s, t)))
    ensures Holds(s.place, Listed, s.files) && s.used == Sum(s.files) && Distinct(s.files)
    ensures Distinct(ToRemove(PcOf(s, t)))
  {
    assert ThreadFits(s, t, PcOf(s, t));
    hide Paths, Distinct;
  }

  /** From nowhere, or under the name of a file that is gone. */
  lemma Appears(place: map<string, Place>, f: File, to: Place)
    requires (f.path in place ==> place[f.path] == Gone) && Holds(place, to, []) && to != Gone
    ensures Holds(PlaceAll(place, [f], to), to, [f]) && Preserves(place, PlaceAll(place, [f], to), {to, Gone})
  {
    OnePath(f);
    hide Paths, Distinct;
  }

  lemma CreateKeeps(s: System, t: Tid, f: File, budget: nat)
    requires Inv(s) && Enabled(s, t, Create(f))
    ensures Inv(Take(s, t, Create(f), budget))
  {
    hide Holds, Paths, Distinct, Sum, PlaceAll, Preserves;
    HandsNow(s, t);
    var s' := Take(s, t, Create(f), budget);
    Appears(s.place, f, Unrecorded(t));
    Kept(s.place, s'.place, {Unrecorded(t), Gone}, Listed, s.files);
    Kept(s.place, s'.place, {Unrecorded(t), Gone}, BeingRemoved(t), []);
    OthersFit(s, s', t, Created(f), {Unrecorded(t), Gone});
  }

  lemma Kept(place: map<string, Place>, place': map<string, Place>, except: set<Place>, where: Place, files: seq<File>)
    requires Preserves(place, place', except) && where !in except && Holds(place, where, files)
    ensures Holds(place', where, files)
  {
    hide Holds;
  }

  lemma RecordKeeps(s: System, t: Tid, budget: nat)
    requires Inv(s) && Enabled(s, t, Record)
    ensures Inv(Take(s, t, Record, budget))
  {
    hide Holds, Paths, Distinct, Sum, Overshoot, PlaceAll, Preserves;
    HandsNow(s, t);
    var s', f := Take(s, t, Record, budget), PcOf(s, t).f;
    var files := s.files + [f];
    var k := Overshoot(files, s.used + f.size, budget);
    var out, kept, listed := files[..k], files[k..], PlaceAll(s.place, [f], Listed);
    assert out + kept == files && out + [] == out;
    RecordSums(s.files, f, out, kept);
    RecordListed(s.place, t, s.files, f);
    PathsConcat(out, kept);
    Leaves(listed, out, Listed, files, kept, BeingRemoved(t));
    OnePath(f);
    Arrives(listed, out, BeingRemoved(t), [], out);
    Kept(listed, s'.place, {Listed, BeingRemoved(t)}, Unrecorded(t), []);
    PreservesThrough(s.place, listed, s'.place, {Unrecorded(t), Listed}, {Listed, BeingRemoved(t)});
    OthersFit(s, s', t, Removing(out, []), {Unrecorded(t), Listed} + {Listed, BeingRemoved(t)});
  }

  lemma RecordSums(files: seq<File>, f: File, out: seq<File>, kept: seq<File>)
    requires out + kept == files + [f]
    ensures Sum(files) + f.size - Sum(out) == Sum(kept)
  {
    SumConcat(files, [f]);
    SumConcat(out, kept);
  }

  /** A created file joins the list. */
  lemma RecordListed(place: map<string, Place>, t: Tid, files: seq<File>, f: File)
    requires Holds(place, Unrecorded(t), [f]) && Holds(place, Listed, files) && Holds(place, BeingRemoved(t), [])
    ensures var listed := PlaceAll(place, [f], Listed);
            && Holds(listed, Listed, files + [f]) && Holds(listed, Unrecorded(t), []) && Holds(listed, BeingRemoved(t), [])
            && Distinct(files + [f]) && Preserves(place, listed, {Unrecorded(t), Listed})
  {
    OnePath(f);
    PathsConcat(files, [f]);
    Apart(place, Unrecorded(t), [f], Listed, files);
    hide Paths, Distinct, PlaceAll;
    Leaves(place, [f], Unrecorded(t), [f], [], Listed);
    Arrives(place, [f], Listed, files, files + [f]);
    Kept(place, PlaceAll(place, [f], Listed), {Unrecorded(t), Listed}, BeingRemoved(t), []);
  }

  lemma Apart(place: map<string, Place>, a: Place, files: seq<File>, b: Place, files': seq<File>)
    requires Holds(place, a, files) && Holds(place, b, files') && a != b
    ensures Paths(files) !! Paths(files') && Distinct(files) && Distinct(files')
  {
  }

  lemma ExpireKeeps(s: System, t: Tid, now: int, budget: nat)
    requires Inv(s) && Enabled(s, t, Expire(now))
    ensures Inv(Take(s, t, Expire(now), budget))
  {
    hide Holds, Paths, Distinct, Sum, Select, PlaceAll, Preserves;
    HandsNow(s, t);
    var s', expired, kept := Take(s, t, Expire(now), budget), Select(s.files, now, false), Select(s.files, now, true);
    SelectSplitsSize(s.files, now);
    SelectPaths(s.files, now);
    OnePath(File("", 0, 0));
    assert expired + [] == expired;
    Leaves(s.place, expired, Listed, s.files, kept, BeingRemoved(t));
    Arrives(s.place, expired, BeingRemoved(t), [], expired);
    Kept(s.place, s'.place, {Listed, BeingRemoved(t)}, Unrecorded(t), []);
    OthersFit(s, s', t, Removing(expired, []), {Listed, BeingRemoved(t)});
  }

  lemma RemoveKeeps(s: System, t: Tid, fails: bool, budget: nat)
    requires Inv(s) && Enabled(s, t, RemoveOne(fails))
    ensures Inv(Take(s, t, RemoveOne(fails), budget))
  {
    hide Holds, Paths, Distinct, Sum, PlaceAll, Preserves;
    HandsNow(s, t);
    var s', pc := Take(s, t, RemoveOne(fails), budget), PcOf(s, t);
    var f, todo := pc.todo[0], pc.todo[1..];
    assert pc.todo + pc.failed == [f] + (todo + pc.failed);
    assert todo + (pc.failed + [f]) == (todo + pc.failed) + [f];
    OnePath(f);
    PathsConcat([f], todo + pc.failed);
    if fails {
      SamePlace(s.place, BeingRemoved(t), [f] + (todo + pc.failed), (todo + pc.failed) + [f]);
      OthersFit(s, s', t, Removing(todo, pc.failed + [f]), {}) by { Unmoved(s.place); }
    } else {
      Leaves(s.place, [f], BeingRemoved(t), pc.todo + pc.failed, todo + pc.failed, Gone);
      Kept(s.place, s'.place, {BeingRemoved(t), Gone}, Listed, s.files);
      Kept(s.place, s'.place, {BeingRemoved(t), Gone}, Unrecorded(t), []);
      OthersFit(s, s', t, Removing(todo, pc.failed), {BeingRemoved(t), Gone});
    }
  }

  lemma Unmoved(place: map<string, Place>)
    ensures Preserves(place, place, {})
  {
  }

  lemma SamePlace(place: map<string, Place>, where: Place, files: seq<File>, files': seq<File>)
    requires Holds(place, where, files) && Paths(files') == Paths(files) && Distinct(files')
    ensures Holds(place, where, files')
  {
    hide Paths, Distinct;
  }

  lemma RestoreKeeps(s: System, t: Tid, budget: nat)
    requires Inv(s) && Enabled(s, t, Restore)
    ensures Inv(Take(s, t, Restore, budget))
  {
    hide Holds, Paths, Distinct, Sum, PlaceAll, Preserves;
    HandsNow(s, t);
    var s', failed := Take(s, t, Restore, budget), PcOf(s, t).failed;
    assert PcOf(s, t).todo + failed == failed;
    SumConcat(failed, s.files);
    OnePath(File("", 0, 0));
    PathsConcat(failed, s.files);
    Apart(s.place, BeingRemoved(t), failed, Listed, s.files);
    Leaves(s.place, failed, BeingRemoved(t), failed, [], Listed);
    Arrives(s.place, failed, Listed, s.files, failed + s.files);
    Kept(s.place, s'.place, {BeingRemoved(t), Listed}, Unrecorded(t), []);
    OthersFit(s, s', t, Idle, {BeingRemoved(t), Listed});
  }

  // ---- Runs ----

  ghost predicate IsStep(s: System, s': System, budget: nat) { exists t, m :: StepBy(s, s', t, m, budget) }

  ghost predicate StepBy(s: System, s': System, t: Tid, m: Move, budget: nat) { Enabled(s, t, m) && s' == Take(s, t, m, budget) }

  ghost predicate IsRun(run: seq<System>, budget: nat) {
    run != [] && run[0] == START && forall i | 0 <= i < |run| - 1 :: IsStep(run[i], run[i + 1], budget)
  }

  lemma StepKeeps(s: System, t: Tid, m: Move, budget: nat)
    requires Inv(s) && Enabled(s, t, m)
    ensures Inv(Take(s, t, m, budget))
  {
    hide Inv, Take;
    match m
    case Create(f) => CreateKeeps(s, t, f, budget);
    case Record => RecordKeeps(s, t, budget);
    case Expire(now) => ExpireKeeps(s, t, now, budget);
    case RemoveOne(fails) => RemoveKeeps(s, t, fails, budget);
    case Restore => RestoreKeeps(s, t, budget);
  }

  lemma {:induction false} RunKeepsInv(run: seq<System>, budget: nat, i: nat)
    requires IsRun(run, budget) && i < |run|
    ensures Inv(run[i])
  {
    if i > 0 {
      RunKeepsInv(run, budget, i - 1);
      hide Inv, Enabled, Take;
      assert IsStep(run[i - 1], run[i - 1 + 1], budget);
      var t, m :| StepBy(run[i - 1], run[i], t, m, budget);
      StepKeeps(run[i - 1], t, m, budget);
    }
  }

  /** In every interleaving the store counts exactly the sizes of the files it lists. */
  lemma UsedIsSumOfListed(run: seq<System>, budget: nat, i: nat)
    requires IsRun(run, budget) && i < |run|
    ensures run[i].used == Sum(run[i].files)
  {
    RunKeepsInv(run, budget, i);
    hide IsRun, Holds;
  }

  /** Every file ever created is in exactly one place: not recorded yet, listed once, in the hands of the one
      thread removing it, or gone. */
  lemma EveryFileInOnePlace(run: seq<System>, budget: nat, i: nat, path: string)
    requires IsRun(run, budget) && i < |run| && path in run[i].place
    ensures var s, where := run[i], run[i].place[path];
            && (path in Paths(s.files) <==> where == Listed)
            && (forall t: Tid :: path in Paths(NotYetRecorded(PcOf(s, t))) <==> where == Unrecorded(t))
            && (forall t: Tid :: path in Paths(ToRemove(PcOf(s, t))) <==> where == BeingRemoved(t))
    ensures Distinct(run[i].files) && forall t: Tid :: Distinct(ToRemove(PcOf(run[i], t)))
  {
    var s := run[i];
    RunKeepsInv(run, budget, i);
    hide IsRun, Paths, Distinct;
    forall t: Tid
      ensures path in Paths(NotYetRecorded(PcOf(s, t))) <==> s.place[path] == Unrecorded(t)
      ensures path in Paths(ToRemove(PcOf(s, t))) <==> s.place[path] == BeingRemoved(t)
      ensures Distinct(ToRemove(PcOf(s, t)))
    {
      assert ThreadFits(s, t, PcOf(s, t));
    }
  }

  /** Recording a file never removes that file: it stays listed whatever the budget. */
  lemma JustWrittenStays(s: System, t: Tid, budget: nat)
    requires Enabled(s, t, Record)
    ensures var files := Take(s, t, Record, budget).files; files != [] && files[|files| - 1] == PcOf(s, t).f
  {
  }
}
