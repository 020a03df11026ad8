/** The worker that refreshes one upstream's tool list: requests coalesce, one pass runs at a time, and a
    pass that a request overtakes does not count as current. */
module Refresher {
  import opened Options

  // ---- Freshness ----

  /** Times count from the zero time. An unmanaged list stays current until a change is announced. */
  datatype Freshness = Freshness(managed: bool, until: nat) {
    predicate Stale(now: nat) { managed && now >= until }

    function Expire(): Freshness { if managed then Freshness(true, 0) else this }

    function Combine(page: Freshness): Freshness {
      if !managed || !page.managed then UNMANAGED
      else if page.until < until then page
      else this
    }
  }

  const UNMANAGED := Freshness(false, 0)

  /** The freshness of a list gathered from pages, which must not be none. */
  function Gathered(pages: seq<Freshness>): Freshness
    requires pages != []
  {
    if |pages| == 1 then pages[0] else Gathered(pages[..|pages| - 1]).Combine(pages[|pages| - 1])
  }

  /** A list is stale as soon as any page is, provided every page has a lifetime. */
  lemma {:induction false} GatheredStale(pages: seq<Freshness>, now: nat)
    requires pages != []
    ensures Gathered(pages).managed <==> forall i | 0 <= i < |pages| :: pages[i].managed
    ensures Gathered(pages).Stale(now) <==>
              (forall i | 0 <= i < |pages| :: pages[i].managed) && exists i | 0 <= i < |pages| :: pages[i].Stale(now)
  {
    if |pages| == 1 {
      assert pages[0].Stale(now) == Gathered(pages).Stale(now);
    } else {
      var most, last := pages[..|pages| - 1], pages[|pages| - 1];
      GatheredStale(most, now);
      assert pages == most + [last];
      if forall i | 0 <= i < |pages| :: pages[i].managed {
        assert Gathered(pages).Stale(now) == (Gathered(most).Stale(now) || last.Stale(now));
        if Gathered(most).Stale(now) {
          var i :| 0 <= i < |most| && most[i].Stale(now);
          assert pages[i].Stale(now);
        }
      }
    }
  }

  // ---- Paging ----

  const MAX_PAGES := 10

  datatype Page = Page(tools: seq<string>, nextCursor: string, freshness: Freshness)

  /** What asking for a page comes to; `gone` is whether the caller has given up. */
  datatype Reply = Got(page: Page) | Failed(gone: bool)

  datatype ToolList = ToolList(tools: seq<string>, freshness: Freshness)

  function AllTools(pages: seq<Page>): seq<string> {
    if pages == [] then [] else AllTools(pages[..|pages| - 1]) + pages[|pages| - 1].tools
  }

  function Lifetimes(pages: seq<Page>): (fs: seq<Freshness>)
    ensures |fs| == |pages| && forall i | 0 <= i < |pages| :: fs[i] == pages[i].freshness
  {
    seq(|pages|, i requires 0 <= i < |pages| => pages[i].freshness)
  }

  /** The list the pages so far make; the zero list before the first. */
  function ListOf(pages: seq<Page>): ToolList {
    if pages == [] then ToolList([], UNMANAGED) else ToolList(AllTools(pages), Gathered(Lifetimes(pages)))
  }

  lemma ListSnoc(pages: seq<Page>, page: Page)
    ensures ListOf(pages + [page]) ==
            ToolList(ListOf(pages).tools + page.tools,
                     if pages == [] then page.freshness else ListOf(pages).freshness.Combine(page.freshness))
  {
    var more := pages + [page];
    assert more[..|pages|] == pages && more[|pages|] == page;
    assert Lifetimes(more) == Lifetimes(pages) + [page.freshness];
    assert Lifetimes(more)[..|pages|] == Lifetimes(pages);
    assert AllTools(more) == AllTools(pages) + page.tools;
    assert AllTools([]) == [];
  }

  /** The pages `fetch` answered, each asked for with the cursor the one before gave. */
  predicate Follow(fetch: (nat, string) -> Reply, pages: seq<Page>) {
    forall i | 0 <= i < |pages| :: fetch(i, Cursor(pages[..i])) == Got(pages[i])
  }

  predicate Ended(pages: seq<Page>) { pages != [] && pages[|pages| - 1].nextCursor == "" }

  predicate Repeats(pages: seq<Page>) {
    pages != [] && exists i | 0 <= i < |pages| - 1 :: pages[i].nextCursor == Cursor(pages)
  }

  predicate Halts(fetch: (nat, string) -> Reply, pages: seq<Page>) {
    Ended(pages) || Repeats(pages) || |pages| >= MAX_PAGES || fetch(|pages|, Cursor(pages)).Failed?
  }

  /** The pages one listing reads: it stops at the first occasion to, and not before. */
  predicate Walked(fetch: (nat, string) -> Reply, pages: seq<Page>) {
    Follow(fetch, pages) && Halts(fetch, pages) && forall i | 0 <= i < |pages| :: !Halts(fetch, pages[..i])
  }

  lemma {:induction false} OneWalk(fetch: (nat, string) -> Reply, a: seq<Page>, b: seq<Page>)
    requires Walked(fetch, a) && Walked(fetch, b)
    ensures a == b && |a| <= MAX_PAGES
  {
    hide Halts;
    var n := if |a| < |b| then |a| else |b|;
    SameStart(fetch, a, b, n);
    assert a[..|a|] == a && b[..|b|] == b;
    WithinCap(fetch, a);
  }

  lemma WithinCap(fetch: (nat, string) -> Reply, pages: seq<Page>)
    requires Walked(fetch, pages)
    ensures |pages| <= MAX_PAGES
  {
    hide Halts;
    if |pages| > MAX_PAGES { AtCap(fetch, pages[..MAX_PAGES]); }
  }

  lemma AtCap(fetch: (nat, string) -> Reply, pages: seq<Page>)
    requires |pages| >= MAX_PAGES
    ensures Halts(fetch, pages)
  {
  }

  lemma {:induction false} SameStart(fetch: (nat, string) -> Reply, a: seq<Page>, b: seq<Page>, n: nat)
    requires Follow(fetch, a) && Follow(fetch, b) && n <= |a| && n <= |b|
    ensures a[..n] == b[..n]
  {
    if n > 0 {
      SameStart(fetch, a, b, n - 1);
      assert Got(a[n - 1]) == Got(b[n - 1]);
      assert a[..n] == a[..n - 1] + [a[n - 1]] && b[..n] == b[..n - 1] + [b[n - 1]];
    }
  }

  /** What the pages make of the listing: the whole list, one cut short, or nothing. */
  function Outcome(fetch: (nat, string) -> Reply, pages: seq<Page>): Option<ToolList> {
    var list := ListOf(pages);
    if Ended(pages) then Some(list)
    else if Repeats(pages) || |pages| >= MAX_PAGES then Some(list.(freshness := list.freshness.Expire()))
    else match fetch(|pages|, Cursor(pages))
         case Failed(gone) =>
           if AllTools(pages) == [] || gone then None else Some(list.(freshness := list.freshness.Expire()))
         case Got(_) => None
  }

  /** Gathers at most ten pages. A list cut short by an error, a repeated cursor or the cap is kept, but
      counts as stale from the start if it has a lifetime at all. */
  method Paginate(fetch: (nat, string) -> Reply) returns (r: Option<ToolList>)
    ensures exists pages :: Walked(fetch, pages) && r == Outcome(fetch, pages)
  {
    hide Follow, ListOf, AllTools, Halts, Outcome, Repeats;
    var list := ToolList([], UNMANAGED);
    var cursor := "";
    var seen := {};
    ghost var pages := [];
    NoPages(fetch);
    for i := 0 to MAX_PAGES
      invariant |pages| == i && Follow(fetch, pages) && list == ListOf(pages) && list.tools == AllTools(pages)
      invariant cursor == Cursor(pages)
      invariant pages != [] ==> cursor != ""
      invariant seen == Cursors(pages)
      invariant !Repeats(pages)
      invariant forall j | 0 <= j < |pages| :: !Halts(fetch, pages[..j])
    {
      var reply := fetch(i, cursor);
      WhetherHalts(fetch, pages);
      if reply.Failed? {
        assert Walked(fetch, pages);
        if |list.tools| > 0 && !reply.gone { return Some(list.(freshness := list.freshness.Expire())); }
        return None;
      }
      var page := reply.page;
      PageAdded(fetch, pages, page);
      Further(fetch, pages, page);
      WhetherHalts(fetch, pages + [page]);
      list := ToolList(list.tools + page.tools, if i == 0 then page.freshness else list.freshness.Combine(page.freshness));
      pages := pages + [page];
      if page.nextCursor == "" {
        assert Walked(fetch, pages);
        return Some(list);
      }
      if page.nextCursor in seen {
        assert Walked(fetch, pages);
        return Some(list.(freshness := list.freshness.Expire()));
      }
      CursorsSnoc(pages[..i], page);
      assert pages == pages[..i] + [page];
      seen := seen + {page.nextCursor};
      cursor := page.nextCursor;
    }
    WhetherHalts(fetch, pages);
    assert Walked(fetch, pages);
    return Some(list.(freshness := list.freshness.Expire()));
  }

  lemma WhetherHalts(fetch: (nat, string) -> Reply, pages: seq<Page>)
    ensures Ended(pages) || Repeats(pages) || |pages| >= MAX_PAGES ==> Halts(fetch, pages)
    ensures fetch(|pages|, Cursor(pages)).Failed? ==> Halts(fetch, pages)
    ensures !Ended(pages) && !Repeats(pages) && |pages| < MAX_PAGES && fetch(|pages|, Cursor(pages)).Got? ==>
              !Halts(fetch, pages)
    ensures Ended(pages) ==> Outcome(fetch, pages) == Some(ListOf(pages))
    ensures !Ended(pages) && (Repeats(pages) || |pages| >= MAX_PAGES) ==>
              Outcome(fetch, pages) == Some(ListOf(pages).(freshness := ListOf(pages).freshness.Expire()))
    ensures !Ended(pages) && !Repeats(pages) && |pages| < MAX_PAGES && fetch(|pages|, Cursor(pages)).Failed? ==>
              Outcome(fetch, pages)
              == if AllTools(pages) == [] || fetch(|pages|, Cursor(pages)).gone then None
                 else Some(ListOf(pages).(freshness := ListOf(pages).freshness.Expire()))
  {
    hide Repeats, ListOf, AllTools;
  }

  /** One more page: it repeats a cursor exactly when an earlier page gave the same one. */
  lemma Further(fetch: (nat, string) -> Reply, pages: seq<Page>, page: Page)
    requires !Halts(fetch, pages) && forall j | 0 <= j < |pages| :: !Halts(fetch, pages[..j])
    ensures Repeats(pages + [page]) <==> page.nextCursor in Cursors(pages)
    ensures forall j | 0 <= j < |pages| + 1 :: !Halts(fetch, (pages + [page])[..j])
  {
    hide Halts;
    var more := pages + [page];
    assert forall j | 0 <= j < |pages| :: more[j] == pages[j];
    assert more[|pages|] == page;
    forall j | 0 <= j < |pages| + 1 ensures !Halts(fetch, more[..j]) {
      assert more[..j] == pages[..j];
      assert pages[..|pages|] == pages;
    }
  }

  function Cursors(pages: seq<Page>): set<string> { set page <- pages :: page.nextCursor }

  lemma CursorsSnoc(pages: seq<Page>, page: Page)
    ensures Cursors(pages + [page]) == Cursors(pages) + {page.nextCursor}
  {
  }

  function Cursor(pages: seq<Page>): string { if pages == [] then "" else pages[|pages| - 1].nextCursor }

  lemma NoPages(fetch: (nat, string) -> Reply)
    ensures Follow(fetch, []) && ListOf([]) == ToolList([], UNMANAGED) && AllTools([]) == [] && !Repeats([])
  {
  }

  lemma PageAdded(fetch: (nat, string) -> Reply, pages: seq<Page>, page: Page)
    requires Follow(fetch, pages) && fetch(|pages|, Cursor(pages)) == Got(page)
    ensures Follow(fetch, pages + [page])
    ensures ListOf(pages + [page]) ==
            ToolList(ListOf(pages).tools + page.tools,
                     if pages == [] then page.freshness else ListOf(pages).freshness.Combine(page.freshness))
    ensures ListOf(pages + [page]).tools == AllTools(pages + [page]) && ListOf(pages).tools == AllTools(pages)
  {
    hide Follow;
    FollowSnoc(fetch, pages, page);
    ListSnoc(pages, page);
    assert AllTools([]) == [];
  }

  lemma FollowSnoc(fetch: (nat, string) -> Reply, pages: seq<Page>, page: Page)
    requires Follow(fetch, pages) && fetch(|pages|, Cursor(pages)) == Got(page)
    ensures Follow(fetch, pages + [page])
  {
    var more := pages + [page];
    assert more[..|pages|] == pages;
    assert forall i | 0 <= i < |pages| :: more[i] == pages[i] && more[..i] == pages[..i];
  }

  // ---- The refresher's fields ----

  /** Channels are numbered as they are made; `closings` lists the close calls in order. */
  datatype Fields = Fields(stopped: bool, running: bool, pending: bool, freshness: Freshness, channels: nat, closings: seq<nat>)

  const FRESH := Fields(false, false, false, UNMANAGED, 0, [])

  function Started(f: Fields): Fields { if f.running then f else f.(running := true, channels := f.channels + 1) }

  function Requested(f: Fields): Fields {
    if f.stopped then f else Started(f.(freshness := f.freshness.Expire(), pending := true))
  }

  function RefreshedIfStale(f: Fields, now: nat): Fields {
    if f.stopped || f.running || !f.freshness.Stale(now) then f else Started(f.(pending := true))
  }

  function PublishedWith(f: Fields, freshness: Freshness): Fields { if f.pending then f else f.(freshness := freshness) }

  predicate Continues(f: Fields) { f.pending && !f.stopped }

  function AfterNext(f: Fields): Fields {
    if Continues(f) then f.(pending := false)
    else f.(running := false, closings := f.closings + if f.channels > 0 then [f.channels - 1] else [])
  }

  class ToolListRefresher {
    var stopped: bool
    var running: bool
    var pending: bool
    var freshness: Freshness
    var channels: nat
    var closings: seq<nat>

    ghost function State(): Fields
      reads this
    {
      Fields(stopped, running, pending, freshness, channels, closings)
    }

    constructor ()
      ensures State() == FRESH
    {
      stopped, running, pending := false, false, false;
      freshness, channels, closings := UNMANAGED, 0, [];
    }

    method StartLocked() returns (spawns: bool)
      modifies this
      ensures State() == Started(old(State())) && spawns == !old(running)
    {
      if running { return false; }
      running := true;
      channels := channels + 1;
      spawns := true;
    }

    method Request() returns (spawns: bool)
      modifies this
      ensures State() == Requested(old(State()))
      ensures spawns == (!old(stopped) && !old(running))
    {
      if stopped { return false; }
      freshness := freshness.Expire();
      pending := true;
      spawns := StartLocked();
    }

    /** The channel to wait on, if there is a refresh to wait for. */
    method RefreshIfStale(now: nat) returns (done: Option<nat>, spawns: bool)
      modifies this
      ensures State() == RefreshedIfStale(old(State()), now)
      ensures spawns == (running && !old(running))
      ensures done.Some? <==> !old(stopped) && (old(running) || old(freshness).Stale(now))
      ensures done.Some? && channels > 0 ==> done.value == channels - 1
    {
      spawns := false;
      if stopped { return None, false; }
      if !running {
        if !freshness.Stale(now) { return None, false; }
        pending := true;
        spawns := StartLocked();
      }
      done := Some(if channels > 0 then channels - 1 else 0);
    }

    method Published(f: Freshness)
      modifies this
      ensures State() == PublishedWith(old(State()), f)
    {
      if !pending { freshness := f; }
    }

    method Next() returns (more: bool)
      modifies this
      ensures State() == AfterNext(old(State())) && more == Continues(old(State()))
    {
      if !pending || stopped {
        running := false;
        closings := closings + if channels > 0 then [channels - 1] else [];
        return false;
      }
      pending := false;
      more := true;
    }

    method Stop()
      modifies this`stopped
      ensures State() == old(State()).(stopped := true)
    {
      stopped := true;
    }
  }

  // ---- Workers and callers, step by step ----

  type Wid = nat

  datatype Pc = AtNext | Passing(began: nat) | Over

  datatype Event = Request | PassBegins | PassPublishes(began: nat, recorded: bool)

  datatype System = System(f: Fields, workers: seq<Pc>, log: seq<Event>)

  datatype Move =
    | CallerRequests
    | CallerAwaits(now: nat)
    | OthersPublish(freshness: Freshness)
    | CallerStops
    | WorkerNext(w: Wid)
    | WorkerPublishes(w: Wid, freshness: Freshness)
    | WorkerGivesUp(w: Wid)

  predicate Enabled(s: System, m: Move) {
    match m
    case WorkerNext(w) => w < |s.workers| && s.workers[w].AtNext?
    case WorkerPublishes(w, _) => w < |s.workers| && s.workers[w].Passing?
    case WorkerGivesUp(w) => w < |s.workers| && s.workers[w].Passing?
    case _ => true
  }

  /** Starting spawns a worker in the same step, under the lock. */
  function With(s: System, f: Fields): System {
    s.(f := f, workers := if f.channels > s.f.channels then s.workers + [AtNext] else s.workers)
  }

  function Take(s: System, m: Move): System
    requires Enabled(s, m)
  {
    match m
    case CallerRequests =>
      With(s, Requested(s.f)).(log := if s.f.stopped then s.log else s.log + [Event.Request])
    case CallerAwaits(now) => With(s, RefreshedIfStale(s.f, now))
    case OthersPublish(freshness) => s.(f := PublishedWith(s.f, freshness))
    case CallerStops => s.(f := s.f.(stopped := true))
    case WorkerNext(w) =>
      if Continues(s.f) then
        s.(f := AfterNext(s.f), workers := s.workers[w := Passing(|s.log|)], log := s.log + [PassBegins])
      else s.(f := AfterNext(s.f), workers := s.workers[w := Over])
    case WorkerPublishes(w, freshness) =>
      s.(f := PublishedWith(s.f, freshness), workers := s.workers[w := AtNext],
         log := s.log + [PassPublishes(s.workers[w].began, !s.f.pending)])
    case WorkerGivesUp(w) => s.(workers := s.workers[w := AtNext])
  }

  const START := System(FRESH, [], [])

  // ---- What holds in every reachable state ----

  predicate Live(s: System, w: Wid) { w < |s.workers| && !s.workers[w].Over? }

  /** There is a worker exactly while `running` is set, never two, and it is the last one spawned. */
  ghost predicate OneWorker(s: System) {
    && |s.workers| == s.f.channels
    && forall w: Wid | w < |s.workers| :: Live(s, w) <==> s.f.running && w == |s.workers| - 1
  }

  /** Every channel made is closed once, except the one of the worker still running. */
  ghost predicate ClosedOnce(f: Fields) {
    && |f.closings| == f.channels - (if f.running then 1 else 0)
    && forall i | 0 <= i < |f.closings| :: f.closings[i] == i
  }

  predicate RequestedSince(log: seq<Event>, began: nat) {
    exists i | began < i < |log| :: log[i].Request?
  }

  predicate PassSince(log: seq<Event>, i: nat) {
    exists j | i < j < |log| :: log[j].PassBegins?
  }

  ghost predicate RequestsServed(s: System) {
    forall i | 0 <= i < |s.log| && s.log[i].Request? :: s.f.pending || PassSince(s.log, i)
  }

  ghost predicate PassesKnown(s: System) {
    forall w: Wid | w < |s.workers| && s.workers[w].Passing? ::
      && s.workers[w].began < |s.log| && s.log[s.workers[w].began].PassBegins?
      && (s.f.pending <==> RequestedSince(s.log, s.workers[w].began))
  }

  /** No pass was recorded after a request had overtaken it. */
  ghost predicate OvertakenNotRecorded(log: seq<Event>) {
    forall j, i | 0 <= j < |log| && log[j].PassPublishes? && log[j].recorded && log[j].began < i < j :: !log[i].Request?
  }

  ghost predicate Inv(s: System) {
    && OneWorker(s) && ClosedOnce(s.f) && (s.f.pending && !s.f.stopped ==> s.f.running)
    && RequestsServed(s) && PassesKnown(s) && OvertakenNotRecorded(s.log)
  }

  // ---- Every step keeps it ----

  lemma LiveIsLast(s: System, w: Wid)
    requires OneWorker(s) && Live(s, w)
    ensures s.f.running && w == |s.workers| - 1
  {
  }

  lemma WorkersKept(s: System, m: Move)
    requires OneWorker(s) && Enabled(s, m)
    ensures OneWorker(Take(s, m))
  {
    var s' := Take(s, m);
    if m.WorkerNext? || m.WorkerPublishes? || m.WorkerGivesUp? {
      assert Live(s, m.w);
      LiveIsLast(s, m.w);
    }
    forall w: Wid | w < |s'.workers| ensures Live(s', w) <==> s'.f.running && w == |s'.workers| - 1 {
      assert w < |s.workers| ==> (Live(s, w) <==> s.f.running && w == |s.workers| - 1);
    }
  }

  lemma ClosingsKept(s: System, m: Move)
    requires OneWorker(s) && ClosedOnce(s.f) && Enabled(s, m)
    ensures ClosedOnce(Take(s, m).f)
  {
    if m.WorkerNext? {
      assert Live(s, m.w);
      LiveIsLast(s, m.w);
    }
  }

  lemma LogGrows(log: seq<Event>, e: Event)
    ensures forall i: nat | PassSince(log, i) :: PassSince(log + [e], i)
    ensures e.PassBegins? ==> forall i | 0 <= i < |log| :: PassSince(log + [e], i)
    ensures forall b: nat | b < |log| :: RequestedSince(log + [e], b) <==> RequestedSince(log, b) || e.Request?
    ensures !RequestedSince(log + [e], |log|)
  {
    var more := log + [e];
    assert more[|log|] == e && forall i | 0 <= i < |log| :: more[i] == log[i];
    forall i: nat | PassSince(log, i) ensures PassSince(more, i) {
      var j :| i < j < |log| && log[j].PassBegins?;
      assert more[j].PassBegins?;
    }
    forall b: nat | b < |log| ensures RequestedSince(more, b) <==> RequestedSince(log, b) || e.Request? {
      if RequestedSince(log, b) {
        var i :| b < i < |log| && log[i].Request?;
        assert more[i].Request?;
      } else if e.Request? {
        assert more[|log|].Request?;
      }
    }
  }

  lemma RequestsKept(s: System, m: Move)
    requires Inv(s) && Enabled(s, m)
    ensures RequestsServed(Take(s, m))
  {
    var s' := Take(s, m);
    hide OneWorker, ClosedOnce, PassesKnown, OvertakenNotRecorded, PassSince;
    if s'.log != s.log {
      var e := s'.log[|s.log|];
      assert s'.log == s.log + [e];
      LogGrows(s.log, e);
    }
  }

  lemma PassesKept(s: System, m: Move)
    requires Inv(s) && Enabled(s, m)
    ensures PassesKnown(Take(s, m))
  {
    var s' := Take(s, m);
    hide ClosedOnce, RequestsServed, OvertakenNotRecorded, RequestedSince;
    if s'.log != s.log {
      var e := s'.log[|s.log|];
      assert s'.log == s.log + [e];
      LogGrows(s.log, e);
    }
    forall w: Wid | w < |s'.workers| && s'.workers[w].Passing?
      ensures s'.workers[w].began < |s'.log| && s'.log[s'.workers[w].began].PassBegins?
      ensures s'.f.pending <==> RequestedSince(s'.log, s'.workers[w].began)
    {
      PassKept(s, m, w);
    }
  }

  lemma PassKept(s: System, m: Move, w: Wid)
    requires Inv(s) && Enabled(s, m) && w < |Take(s, m).workers| && Take(s, m).workers[w].Passing?
    ensures var s' := Take(s, m);
            && s'.workers[w].began < |s'.log| && s'.log[s'.workers[w].began].PassBegins?
            && (s'.f.pending <==> RequestedSince(s'.log, s'.workers[w].began))
  {
    var s' := Take(s, m);
    WorkersKept(s, m);
    assert Live(s', w);
    hide ClosedOnce, RequestsServed, OvertakenNotRecorded, RequestedSince;
    if s'.log != s.log {
      var e := s'.log[|s.log|];
      assert s'.log == s.log + [e];
      LogGrows(s.log, e);
    }
    if m.WorkerNext? && w == m.w {
      assert s'.workers[w].began == |s.log| && !s'.f.pending;
    } else {
      assert w < |s.workers| && s.workers[w].Passing? && Live(s, w);
      assert (m.WorkerNext? || m.WorkerPublishes? || m.WorkerGivesUp?) ==> Live(s, m.w);
    }
  }

  lemma RecordsKept(s: System, m: Move)
    requires Inv(s) && Enabled(s, m)
    ensures OvertakenNotRecorded(Take(s, m).log)
  {
    hide OneWorker, ClosedOnce, RequestsServed;
    var s' := Take(s, m);
    if m.WorkerPublishes? {
      var began := s.workers[m.w].began;
      assert s'.log == s.log + [PassPublishes(began, !s.f.pending)];
      assert !s.f.pending ==> !RequestedSince(s.log, began);
    }
  }

  lemma StepKeeps(s: System, m: Move)
    requires Inv(s) && Enabled(s, m)
    ensures Inv(Take(s, m))
  {
    WorkersKept(s, m);
    ClosingsKept(s, m);
    RequestsKept(s, m);
    PassesKept(s, m);
    RecordsKept(s, m);
    assert m.WorkerNext? ==> Live(s, m.w);
    hide RequestsServed, PassesKnown, OvertakenNotRecorded, ClosedOnce;
  }

  // ---- Runs ----

  ghost predicate IsStep(s: System, s': System) { exists m :: StepBy(s, s', m) }

  ghost predicate StepBy(s: System, s': System, m: Move) { Enabled(s, m) && s' == Take(s, m) }

  ghost predicate IsRun(run: seq<System>) {
    run != [] && run[0] == START && forall i | 0 <= i < |run| - 1 :: IsStep(run[i], run[i + 1])
  }

  lemma {:induction false} RunKeepsInv(run: seq<System>, i: nat)
    requires IsRun(run) && i < |run|
    ensures Inv(run[i])
  {
    if i > 0 {
      RunKeepsInv(run, i - 1);
      hide Inv, Enabled, Take;
      assert IsStep(run[i - 1], run[i - 1 + 1]);
      var m :| StepBy(run[i - 1], run[i], m);
      StepKeeps(run[i - 1], m);
    }
  }

  /** A pending request on a refresher that is not stopped always has its worker, and never two. */
  lemma PendingHasWorker(run: seq<System>, i: nat)
    requires IsRun(run) && i < |run| && run[i].f.pending && !run[i].f.stopped
    ensures run[i].workers != [] && Live(run[i], |run[i].workers| - 1)
    ensures forall w: Wid :: Live(run[i], w) ==> w == |run[i].workers| - 1
  {
    RunKeepsInv(run, i);
    hide IsRun, RequestsServed, PassesKnown, OvertakenNotRecorded, ClosedOnce;
    assert run[i].workers != [] by { assert ClosedOnce(run[i].f) by { RunKeepsInv(run, i); } ChannelWhileRunning(run[i]); }
    assert Live(run[i], |run[i].workers| - 1);
  }

  lemma ChannelWhileRunning(s: System)
    requires OneWorker(s) && ClosedOnce(s.f) && s.f.running
    ensures s.workers != []
  {
  }

  /** Every channel is closed at most once, and all of them by the time no worker runs. */
  lemma ChannelsClosedOnce(run: seq<System>, i: nat)
    requires IsRun(run) && i < |run|
    ensures forall a, b | 0 <= a < b < |run[i].f.closings| :: run[i].f.closings[a] != run[i].f.closings[b]
    ensures !run[i].f.running ==> forall c: nat | c < run[i].f.channels :: c in run[i].f.closings
    ensures run[i].f.running ==> run[i].f.channels > 0 && run[i].f.channels - 1 !in run[i].f.closings
  {
    RunKeepsInv(run, i);
    hide IsRun, RequestsServed, PassesKnown, OvertakenNotRecorded, OneWorker;
    forall c: nat | !run[i].f.running && c < run[i].f.channels ensures c in run[i].f.closings {
      assert run[i].f.closings[c] == c;
    }
  }

  /** Every request is followed by a pass that begins after it, unless the refresher was stopped or the pass
      is still to come and its worker is there. */
  lemma RequestsAreServed(run: seq<System>, i: nat, r: nat)
    requires IsRun(run) && i < |run| && r < |run[i].log| && run[i].log[r].Request?
    ensures || PassSince(run[i].log, r)
            || run[i].f.stopped
            || (run[i].f.running && run[i].workers != [] && Live(run[i], |run[i].workers| - 1))
  {
    RunKeepsInv(run, i);
    hide IsRun, PassesKnown, OvertakenNotRecorded, PassSince;
    if run[i].f.pending && !run[i].f.stopped { PendingHasWorker(run, i); }
  }

  /** When the last worker is gone and the refresher was not stopped, every request has been served. */
  lemma ServedWhenQuiet(run: seq<System>, i: nat, r: nat)
    requires IsRun(run) && i < |run| && !run[i].f.running && !run[i].f.stopped
    requires r < |run[i].log| && run[i].log[r].Request?
    ensures PassSince(run[i].log, r)
  {
    hide IsRun, PassSince;
    RequestsAreServed(run, i, r);
  }

  /** A list fetched by a pass that a request overtook is never recorded as fresh. */
  lemma OvertakenStaysStale(run: seq<System>, i: nat, j: nat, r: nat)
    requires IsRun(run) && i < |run|
    requires r < j < |run[i].log| && run[i].log[j].PassPublishes? && run[i].log[j].began < r && run[i].log[r].Request?
    ensures !run[i].log[j].recorded
  {
    RunKeepsInv(run, i);
    hide IsRun, PassesKnown, RequestsServed, OneWorker, ClosedOnce;
  }

  // ---- What becomes of the freshness ----

  /** A worker that publishes records its list's freshness exactly if no request came in since its pass began;
      otherwise the freshness stays as the request left it. */
  lemma PublishRecordsIff(run: seq<System>, i: nat, w: Wid, freshness: Freshness)
    requires IsRun(run) && i + 1 < |run| && StepBy(run[i], run[i + 1], WorkerPublishes(w, freshness))
    ensures run[i + 1].f.freshness
            == if RequestedSince(run[i].log, run[i].workers[w].began) then run[i].f.freshness else freshness
  {
    RunKeepsInv(run, i);
    hide IsRun, RequestsServed, OvertakenNotRecorded, OneWorker, ClosedOnce, RequestedSince;
  }

  /** No other step changes it, except that a request expires it and that a list published in another way, as
      after a reconnect, is recorded while nothing is pending. */
  lemma FreshnessMoves(s: System, m: Move)
    requires Enabled(s, m) && !m.WorkerPublishes?
    ensures Take(s, m).f.freshness ==
            match m
            case CallerRequests => if s.f.stopped then s.f.freshness else s.f.freshness.Expire()
            case OthersPublish(freshness) => if s.f.pending then s.f.freshness else freshness
            case _ => s.f.freshness
  {
  }

  ghost predicate Makes(moves: seq<Move>, run: seq<System>) {
    && |run| == |moves| + 1 && run[0] == START
    && forall i | 0 <= i < |moves| :: StepBy(run[i], run[i + 1], moves[i])
  }

  lemma MadeIsRun(moves: seq<Move>, run: seq<System>)
    requires Makes(moves, run)
    ensures IsRun(run)
  {
    hide Enabled, Take;
    forall i | 0 <= i < |run| - 1 ensures IsStep(run[i], run[i + 1]) { assert StepBy(run[i], run[i + 1], moves[i]); }
  }

  lemma LogLengthens(s: System, m: Move)
    requires Enabled(s, m)
    ensures s.log <= Take(s, m).log
    ensures m.CallerRequests? && !s.f.stopped ==> Take(s, m).log == s.log + [Event.Request]
  {
  }

  /** Whether a move publishes a list that was fetched after the log was `r` long, or fetched in another way. */
  predicate Renews(s: System, m: Move, r: nat) {
    m.OthersPublish? || (m.WorkerPublishes? && m.w < |s.workers| && s.workers[m.w].Passing? && s.workers[m.w].began > r)
  }

  /** A request leaves the list expired until a pass that began after it publishes, or another publication. */
  lemma {:induction false} ExpiredUntilRenewed(moves: seq<Move>, run: seq<System>, i: nat, k: nat)
    requires Makes(moves, run) && i < k < |run| && moves[i].CallerRequests? && !run[i].f.stopped
    requires forall j | i < j < k :: !Renews(run[j], moves[j], |run[i].log|)
    ensures run[k].f.freshness == run[i].f.freshness.Expire()
    ensures |run[i].log| < |run[k].log| && run[k].log[|run[i].log|].Request?
    decreases k
  {
    var r := |run[i].log|;
    assert StepBy(run[k - 1], run[k - 1 + 1], moves[k - 1]);
    LogLengthens(run[k - 1], moves[k - 1]);
    MadeIsRun(moves, run);
    if k - 1 == i {
      FreshnessMoves(run[i], moves[i]);
    } else {
      hide IsRun;
      ExpiredUntilRenewed(moves, run, i, k - 1);
      assert !Renews(run[k - 1], moves[k - 1], r);
      if moves[k - 1].WorkerPublishes? {
        PublishRecordsIff(run, k - 1, moves[k - 1].w, moves[k - 1].freshness);
        RunKeepsInv(run, k - 1);
        OvertakenHere(run[k - 1], moves[k - 1].w, r);
      } else {
        FreshnessMoves(run[k - 1], moves[k - 1]);
      }
    }
  }

  lemma OvertakenHere(s: System, w: Wid, r: nat)
    requires Inv(s) && w < |s.workers| && s.workers[w].Passing? && s.workers[w].began <= r < |s.log| && s.log[r].Request?
    ensures RequestedSince(s.log, s.workers[w].began)
  {
    hide OneWorker, ClosedOnce, RequestsServed, OvertakenNotRecorded;
  }

  /** A caller who finds the list stale starts a worker that has a pass to make, unless the refresher is stopped or
      a worker runs already; one who finds it current starts nothing. */
  lemma AwaitStarts(s: System, now: nat)
    ensures var s' := Take(s, CallerAwaits(now));
            if !s.f.stopped && !s.f.running && s.f.freshness.Stale(now)
            then s'.f.running && s'.f.pending && s'.workers == s.workers + [AtNext] && s'.f.freshness == s.f.freshness
            else s' == s
  {
  }
}
