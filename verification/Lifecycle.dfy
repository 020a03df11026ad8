/** Upstreams being installed, removed, reconnected, refreshed and re-aliased by any number of threads.
    The network runs between the steps; every step re-checks what it relies on. */
module Lifecycle {
  import opened Options
  import opened Aliases
  import opened Registry

  type Tid = nat
  type Uid = nat
  type Conn = nat

  /** An install request: `gen` is the removal count it saw when it began, `since` when that was. */
  datatype Install = Install(name: string, gen: nat, refuseIfRunning: bool, since: nat)

  /** What is left to do once the upstream that has to go is closed. */
  datatype Job = Placed(name: string, u: Uid, added: bool) | Gone(name: string)

  datatype Pc =
    | Idle
    // Installing; from Checking on under the server lock.
    | Dialing(inst: Install)
    | Listing(inst: Install, c: Conn)
    | Waiting(inst: Install, c: Conn, defs: seq<ToolDef>)
    | Checking(inst: Install, c: Conn, defs: seq<ToolDef>)
    | Rejecting(inst: Install, c: Conn)
    // Removing, under the server lock.
    | Detaching(name: string)
    // Taking an upstream down and publishing what replaces it, under the server lock.
    | Retiring(job: Job, u: Uid)
    | Reading(job: Job, u: Uid)
    | Closing(job: Job, u: Uid, c: Conn)
    | Publishing(job: Job)
    // Reconnecting.
    | Redialing(u: Uid)
    | Relisting(u: Uid, c: Conn)
    | Swapping(u: Uid, c: Conn, defs: seq<ToolDef>)
    | SwapReady(u: Uid, c: Conn, defs: seq<ToolDef>)
    | Stale(u: Uid, c: Conn, defs: seq<ToolDef>, prior: Conn)
    // Refreshing.
    | Refreshing(u: Uid, c: Conn)
    // Publishing a list fetched for an upstream; from Comparing on under the server lock.
    | Offering(u: Uid, c: Conn, defs: seq<ToolDef>)
    | Comparing(u: Uid, c: Conn, defs: seq<ToolDef>)
    | Adopted(u: Uid)
    // Re-applying aliases, under the server lock.
    | Reapplying(todo: seq<Uid>)

  /** `mu` is the thread swapping the connection; `retiredBy` is the thread that took the upstream out. */
  datatype Upstream = Upstream(name: string, conn: Conn, lastDefs: seq<ToolDef>, cancelled: bool,
                               mu: Option<Tid>, retiredBy: Option<Tid>)

  /** Who answers for a connection. */
  datatype Owner = Thread(t: Tid) | Up(u: Uid) | Closed

  datatype Event = RemovalOf(name: string) | InstallOf(name: string, since: nat)

  datatype State = State(
    upstreams: map<string, Uid>,
    objs: map<Uid, Upstream>,
    removeGen: map<string, nat>,
    reg: Index,
    owner: map<Conn, Owner>,
    lock: Option<Tid>,
    pcs: map<Tid, Pc>,
    log: seq<Event>)

  const START := State(map[], map[], map[], EMPTY, map[], None, map[], [])

  function PcOf(s: State, t: Tid): Pc { if t in s.pcs then s.pcs[t] else Idle }

  function GenOf(s: State, name: string): nat { if name in s.removeGen then s.removeGen[name] else 0 }

  predicate IsCurrent(s: State, u: Uid) {
    u in s.objs && s.objs[u].name in s.upstreams && s.upstreams[s.objs[u].name] == u
  }

  /** The upstream is current, not cancelled, and still on this connection. */
  predicate IsCurrentConn(s: State, u: Uid, c: Conn) {
    IsCurrent(s, u) && !s.objs[u].cancelled && s.objs[u].conn == c
  }

  // ---- Steps ----

  /** Aliases and hidden names as the configuration has them at the moment of a publication. */
  datatype View = View(hides: string -> bool, aliases: map<string, string>)

  datatype Move =
    | BeginInstall(name: string, refuseIfRunning: bool)
    | BeginRemoval(name: string)
    | BeginReconnect(u: Uid)
    | BeginRefresh(u: Uid)
    | BeginReapply(todo: seq<Uid>)
    | NetworkFails(retry: bool)
    | Dialed(c: Conn)
    | ToolsArrive(defs: seq<ToolDef>)
    | Proceed(view: View, newU: Uid)

  predicate LockFree(s: State) { s.lock.None? }

  predicate MuFree(s: State, u: Uid) { u in s.objs && s.objs[u].mu.None? }

  ghost predicate Enabled(s: State, t: Tid, m: Move) {
    var pc := PcOf(s, t);
    match m
    case BeginInstall(name, _) => pc.Idle? && LockFree(s) && ValidServerName(name)
    case BeginRemoval(_) => pc.Idle? && LockFree(s)
    case BeginReconnect(u) => pc.Idle? && u in s.objs
    case BeginRefresh(u) => pc.Idle? && MuFree(s, u)
    case BeginReapply(todo) => pc.Idle? && LockFree(s) && forall u :: u in todo <==> IsCurrent(s, u)
    case NetworkFails(_) => pc.Dialing? || pc.Listing? || pc.Redialing? || pc.Relisting? || pc.Refreshing?
    case Dialed(c) => (pc.Dialing? || pc.Redialing?) && c !in s.owner
    case ToolsArrive(_) => pc.Listing? || pc.Relisting? || pc.Refreshing?
    case Proceed(_, newU) =>
      match pc
      case Waiting(_, _, _) => LockFree(s)
      case Checking(_, _, _) => newU !in s.objs
      case Reading(_, u) => MuFree(s, u)
      case Swapping(u, _, _) => MuFree(s, u)
      case Offering(_, _, _) => LockFree(s)
      case Comparing(u, _, _) => MuFree(s, u)
      case Rejecting(_, _) => true
      case Detaching(_) => true
      case Retiring(_, u) => u in s.objs
      case Closing(_, _, _) => true
      case Publishing(job) => job.Placed? ==> job.u in s.objs
      case SwapReady(u, _, _) => u in s.objs
      case Stale(_, _, _, _) => true
      case Adopted(u) => u in s.objs
      case Reapplying(todo) => todo != [] ==> todo[0] in s.objs
      case _ => false
  }

  function To(s: State, t: Tid, pc: Pc): State { s.(pcs := s.pcs[t := pc]) }

  function Lock(s: State, t: Tid, pc: Pc): State { To(s, t, pc).(lock := Some(t)) }

  function Unlock(s: State, t: Tid): State { To(s, t, Idle).(lock := None) }

  function Owned(s: State, c: Conn, o: Owner): State { s.(owner := s.owner[c := o]) }

  function SetUp(s: State, u: Uid, up: Upstream): State { s.(objs := s.objs[u := up]) }

  function ParamsFor(up: Upstream, view: View): Params { Params(up.name, up.lastDefs, view.hides, view.aliases) }

  /** Takes an upstream out of use, if there is one, before the job that follows. */
  function Retire(s: State, t: Tid, prior: Option<Uid>, job: Job): State {
    if prior.None? || prior.value !in s.objs then To(s, t, Publishing(job))
    else To(SetUp(s, prior.value, s.objs[prior.value].(retiredBy := Some(t))), t, Retiring(job, prior.value))
  }

  function UpstreamNamed(s: State, name: string): Option<Uid> {
    if name in s.upstreams then Some(s.upstreams[name]) else None
  }

  function SwapBegun(s: State, t: Tid, u: Uid, c: Conn, defs: seq<ToolDef>): State
    requires u in s.objs
  {
    To(SetUp(s, u, s.objs[u].(mu := Some(t))), t, SwapReady(u, c, defs))
  }

  function SwappedConn(s: State, t: Tid, u: Uid, c: Conn, defs: seq<ToolDef>): State
    requires u in s.objs
  {
    var prior := s.objs[u].conn;
    To(SetUp(Owned(Owned(s, prior, Thread(t)), c, Up(u)), u, s.objs[u].(conn := c, mu := None)), t, Stale(u, c, defs, prior))
  }

  predicate MayInstall(s: State, inst: Install) {
    GenOf(s, inst.name) == inst.gen && !(inst.refuseIfRunning && inst.name in s.upstreams)
  }

  function PutUp(s: State, t: Tid, inst: Install, c: Conn, defs: seq<ToolDef>, newU: Uid): State
    requires newU !in s.objs
  {
    var prior := UpstreamNamed(s, inst.name);
    var placed := s.(
      upstreams := s.upstreams[inst.name := newU],
      objs := s.objs[newU := Upstream(inst.name, c, defs, false, None, None)],
      owner := s.owner[c := Up(newU)],
      log := s.log + [InstallOf(inst.name, inst.since)]);
    Retire(placed, t, prior, Placed(inst.name, newU, prior.None?))
  }

  function Published(s: State, job: Job, view: View): Index
    requires job.Placed? ==> job.u in s.objs
  {
    match job
    case Placed(name, u, added) =>
      var p := ParamsFor(s.objs[u], view).(name := name);
      if added then Registry.Added(s.reg, p) else Registry.Replaced(s.reg, p)
    case Gone(name) => Registry.Removed(s.reg, name)
  }

  function RemovalBegun(s: State, t: Tid, name: string): State {
    Lock(s, t, Detaching(name)).(removeGen := s.removeGen[name := GenOf(s, name) + 1], log := s.log + [RemovalOf(name)])
  }

  function Detached(s: State, t: Tid, name: string): State {
    Retire(s.(upstreams := s.upstreams - {name}), t, UpstreamNamed(s, name), Gone(name))
  }

  function Cancelled(s: State, t: Tid, job: Job, u: Uid): State
    requires u in s.objs
  {
    To(SetUp(s, u, s.objs[u].(cancelled := true)), t, Reading(job, u))
  }

  function ClosedLast(s: State, t: Tid, job: Job, c: Conn): State { To(Owned(s, c, Closed), t, Publishing(job)) }

  function JobPublished(s: State, t: Tid, job: Job, view: View): State
    requires job.Placed? ==> job.u in s.objs
  {
    Unlock(s, t).(reg := Published(s, job, view))
  }

  function Adopts(s: State, t: Tid, u: Uid, defs: seq<ToolDef>): State
    requires u in s.objs
  {
    To(SetUp(s, u, s.objs[u].(lastDefs := defs)), t, Adopted(u))
  }

  function AdoptedPublished(s: State, t: Tid, u: Uid, view: View): State
    requires u in s.objs
  {
    Unlock(s, t).(reg := Registry.Replaced(s.reg, ParamsFor(s.objs[u], view)))
  }

  function ReappliedOne(s: State, t: Tid, todo: seq<Uid>, view: View): State
    requires todo != [] && todo[0] in s.objs
  {
    var up := s.objs[todo[0]];
    var reg := if up.lastDefs == [] then s.reg else Registry.Replaced(s.reg, ParamsFor(up, view));
    To(s, t, Reapplying(todo[1..])).(reg := reg)
  }

  function Take(s: State, t: Tid, m: Move): State
    requires Enabled(s, t, m)
  {
    var pc := PcOf(s, t);
    match m
    case BeginInstall(name, refuse) => To(s, t, Dialing(Install(name, GenOf(s, name), refuse, |s.log|)))
    case BeginRemoval(name) => RemovalBegun(s, t, name)
    case BeginReconnect(u) => To(s, t, Redialing(u))
    case BeginRefresh(u) => if IsCurrentConn(s, u, s.objs[u].conn) then To(s, t, Refreshing(u, s.objs[u].conn)) else s
    case BeginReapply(todo) => Lock(s, t, Reapplying(todo))
    case NetworkFails(retry) => AfterFailure(s, t, retry)
    case Dialed(c) => To(Owned(s, c, Thread(t)), t, if pc.Dialing? then Listing(pc.inst, c) else Relisting(pc.u, c))
    case ToolsArrive(defs) =>
      To(s, t, match pc
               case Listing(inst, c) => Waiting(inst, c, defs)
               case Relisting(u, c) => Swapping(u, c, defs)
               case Refreshing(u, c) => Offering(u, c, defs))
    case Proceed(view, newU) => Advance(s, t, view, newU)
  }

  /** A failed dial or listing; a connection in hand is closed. */
  function AfterFailure(s: State, t: Tid, retry: bool): State
    requires Enabled(s, t, NetworkFails(retry))
  {
    match PcOf(s, t)
    case Dialing(inst) => To(s, t, if retry then Dialing(inst) else Idle)
    case Listing(inst, c) => To(Owned(s, c, Closed), t, if retry then Dialing(inst) else Idle)
    case Redialing(u) => To(s, t, if retry then Redialing(u) else Idle)
    case Relisting(u, c) => To(Owned(s, c, Closed), t, if retry then Redialing(u) else Idle)
    case Refreshing(_, _) => To(s, t, Idle)
  }

  function Advance(s: State, t: Tid, view: View, newU: Uid): State
    requires Enabled(s, t, Proceed(view, newU))
  {
    match PcOf(s, t)
    case Waiting(inst, c, defs) => Lock(s, t, Checking(inst, c, defs))
    case Checking(inst, c, defs) =>
      if MayInstall(s, inst) then PutUp(s, t, inst, c, defs, newU) else To(s, t, Rejecting(inst, c))
    case Rejecting(_, c) => Unlock(Owned(s, c, Closed), t)
    case Detaching(name) => Detached(s, t, name)
    case Retiring(job, u) => Cancelled(s, t, job, u)
    case Reading(job, u) => To(s, t, Closing(job, u, s.objs[u].conn))
    case Closing(job, _, c) => ClosedLast(s, t, job, c)
    case Publishing(job) => JobPublished(s, t, job, view)
    case Swapping(u, c, defs) =>
      if s.objs[u].cancelled then To(Owned(s, c, Closed), t, Idle)
      else SwapBegun(s, t, u, c, defs)
    case SwapReady(u, c, defs) =>
      SwappedConn(s, t, u, c, defs)
    case Stale(u, c, defs, prior) => To(Owned(s, prior, Closed), t, Offering(u, c, defs))
    case Offering(u, c, defs) => Lock(s, t, Comparing(u, c, defs))
    case Comparing(u, c, defs) =>
      if IsCurrentConn(s, u, c) then Adopts(s, t, u, defs) else Unlock(s, t)
    case Adopted(u) => AdoptedPublished(s, t, u, view)
    case Reapplying(todo) =>
      if todo == [] then Unlock(s, t) else ReappliedOne(s, t, todo, view)
  }

  // ---- What every reachable state satisfies ----

  predicate HoldsLock(pc: Pc) {
    || pc.Checking? || pc.Rejecting? || pc.Detaching? || pc.Retiring? || pc.Reading? || pc.Closing?
    || pc.Publishing? || pc.Comparing? || pc.Adopted? || pc.Reapplying?
  }

  /** The server whose registry entries a thread in the middle of an update has yet to bring up to date. */
  function Unsettled(s: State, pc: Pc): Option<string> {
    match pc
    case Retiring(job, _) => Some(job.name)
    case Reading(job, _) => Some(job.name)
    case Closing(job, _, _) => Some(job.name)
    case Publishing(job) => Some(job.name)
    case Adopted(u) => if u in s.objs then Some(s.objs[u].name) else None
    case _ => None
  }

  /** The registry lists a server's valid tool names if the server is up, and nothing of it otherwise. */
  ghost predicate Agrees(s: State, name: string) {
    if name in s.upstreams then
      s.upstreams[name] in s.objs && NamesListed(s.reg, name) == ValidNames(s.objs[s.upstreams[name]].lastDefs)
    else
      Absent(s.reg, name) && NamesListed(s.reg, name) == {}
  }

  ghost predicate RegistryAgrees(s: State) {
    && WellIndexed(s.reg)
    && forall name :: Pending(s) == Some(name) || Agrees(s, name)
  }

  function Pending(s: State): Option<string> {
    if s.lock.Some? then Unsettled(s, PcOf(s, s.lock.value)) else None
  }

  ghost predicate LockHeldBy(s: State) {
    forall t: Tid :: s.lock == Some(t) <==> HoldsLock(PcOf(s, t))
  }

  ghost predicate NamesFit(s: State) {
    && (forall name | name in s.upstreams :: s.upstreams[name] in s.objs && s.objs[s.upstreams[name]].name == name)
    && (forall u | u in s.objs :: ValidServerName(s.objs[u].name))
  }

  /** What a job relies on while its upstream is taken down. */
  ghost predicate JobFits(s: State, job: Job) {
    match job
    case Placed(name, u, added) =>
      && name in s.upstreams && s.upstreams[name] == u && u in s.objs
      && (added ==> Absent(s.reg, name))
    case Gone(name) => name !in s.upstreams
  }

  /** The upstream a thread is taking down. */
  function DownOf(pc: Pc): Option<Uid> {
    match pc
    case Retiring(_, u) => Some(u)
    case Reading(_, u) => Some(u)
    case Closing(_, u, _) => Some(u)
    case _ => None
  }

  predicate TakesDown(pc: Pc, u: Uid) { DownOf(pc) == Some(u) }

  ghost predicate PcFits(s: State, t: Tid, pc: Pc) {
    match pc
    case Idle => true
    case Dialing(inst) => ValidServerName(inst.name)
    case Listing(inst, c) => ValidServerName(inst.name) && Holds(s, t, c)
    case Waiting(inst, c, _) => ValidServerName(inst.name) && Holds(s, t, c)
    case Checking(inst, c, _) => ValidServerName(inst.name) && Holds(s, t, c)
    case Rejecting(_, c) => Holds(s, t, c)
    case Detaching(_) => true
    case Retiring(job, u) => JobFits(s, job) && u in s.objs && s.objs[u].retiredBy == Some(t)
    case Reading(job, u) => JobFits(s, job) && u in s.objs && s.objs[u].retiredBy == Some(t) && s.objs[u].cancelled
    case Closing(job, u, c) =>
      && JobFits(s, job) && u in s.objs && s.objs[u].retiredBy == Some(t) && s.objs[u].cancelled
      && s.objs[u].mu.None? && s.objs[u].conn == c
    case Publishing(job) => JobFits(s, job)
    case Redialing(u) => u in s.objs
    case Relisting(u, c) => u in s.objs && Holds(s, t, c)
    case Swapping(u, c, _) => u in s.objs && Holds(s, t, c)
    case SwapReady(u, c, _) => u in s.objs && Holds(s, t, c) && s.objs[u].mu == Some(t)
    case Stale(u, _, _, prior) => u in s.objs && Holds(s, t, prior)
    case Refreshing(u, _) => u in s.objs
    case Offering(u, _, _) => u in s.objs
    case Comparing(u, _, _) => u in s.objs
    case Adopted(u) => IsCurrent(s, u)
    case Reapplying(todo) => forall u | u in todo :: IsCurrent(s, u)
  }

  predicate Holds(s: State, t: Tid, c: Conn) { c in s.owner && s.owner[c] == Thread(t) }

  /** The connection in a thread's hands. */
  function HeldConn(pc: Pc): Option<Conn> {
    match pc
    case Stale(_, _, _, prior) => Some(prior)
    case Listing(_, c) => Some(c)
    case Waiting(_, c, _) => Some(c)
    case Checking(_, c, _) => Some(c)
    case Rejecting(_, c) => Some(c)
    case Relisting(_, c) => Some(c)
    case Swapping(_, c, _) => Some(c)
    case SwapReady(_, c, _) => Some(c)
    case _ => None
  }

  predicate HeldBy(pc: Pc, c: Conn) { HeldConn(pc) == Some(c) }

  ghost predicate ThreadsFit(s: State) { forall t: Tid :: PcFits(s, t, PcOf(s, t)) }

  /** Every connection is in a thread's hands, in use by an upstream, or closed. */
  ghost predicate ConnsOwned(s: State) {
    && (forall c | c in s.owner ::
          && (s.owner[c].Thread? ==> HeldBy(PcOf(s, s.owner[c].t), c))
          && (s.owner[c].Up? ==> s.owner[c].u in s.objs && s.objs[s.owner[c].u].conn == c))
    && (forall u | u in s.objs ::
          s.objs[u].conn in s.owner &&
          (s.owner[s.objs[u].conn] == Up(u)
           || (s.owner[s.objs[u].conn] == Closed && s.objs[u].cancelled && s.objs[u].mu.None?)))
  }

  /** An upstream is current and live, or some thread took it out and has closed it or is about to. */
  ghost predicate RetiredAreClosed(s: State) {
    forall u | u in s.objs :: UpstreamFits(s, u, s.objs[u])
  }

  ghost predicate UpstreamFits(s: State, u: Uid, up: Upstream) {
      && (up.mu.Some? ==> PcOf(s, up.mu.value).SwapReady? && PcOf(s, up.mu.value).u == u)
      && (IsCurrent(s, u) ==> up.retiredBy.None? && !up.cancelled)
      && (!IsCurrent(s, u) ==>
            && up.retiredBy.Some?
            && (TakesDown(PcOf(s, up.retiredBy.value), u)
                || (up.cancelled && up.conn in s.owner && s.owner[up.conn] == Closed)))
  }

  function InstOf(pc: Pc): Option<Install> {
    match pc
    case Dialing(inst) => Some(inst)
    case Listing(inst, _) => Some(inst)
    case Waiting(inst, _, _) => Some(inst)
    case Checking(inst, _, _) => Some(inst)
    case _ => None
  }

  function Removals(log: seq<Event>, name: string): nat {
    if log == [] then 0
    else Removals(log[..|log| - 1], name) + if log[|log| - 1] == RemovalOf(name) then 1 else 0
  }

  /** The removal counts are those of the history, and an install took place only if the server was not
      removed after the request began. */
  ghost predicate HistoryFits(s: State) {
    && (forall name :: GenOf(s, name) == Removals(s.log, name))
    && (forall t: Tid :: InstallFits(s, PcOf(s, t)))
    && NoStaleInstall(s.log)
  }

  predicate InstallFits(s: State, pc: Pc) {
    InstOf(pc).Some? ==>
      var inst := InstOf(pc).value;
      inst.since <= |s.log| && inst.gen == Removals(s.log[..inst.since], inst.name)
  }

  ghost predicate NoStaleInstall(log: seq<Event>) {
    forall j, k | 0 <= j < |log| && log[j].InstallOf? && log[j].since <= k < j :: log[k] != RemovalOf(log[j].name)
  }

  ghost predicate Inv(s: State) {
    NamesFit(s) && LockHeldBy(s) && ThreadsFit(s) && ConnsOwned(s) && RetiredAreClosed(s) && HistoryFits(s) && RegistryAgrees(s)
  }

  // ---- Every step keeps it ----

  lemma StartFits()
    ensures Inv(START)
  {
    assert forall name :: Absent(EMPTY, name) && NamesListed(EMPTY, name) == {};
  }

  // A step moves one thread. What it leaves alone for the others:

  ghost predicate OnlyMoves(s: State, s': State, t: Tid) {
    forall t': Tid | t' != t :: PcOf(s', t') == PcOf(s, t')
  }

  ghost predicate ObjectsEvolve(s: State, s': State, t: Tid) {
    forall u | u in s.objs :: u in s'.objs && Evolves(s.objs[u], s'.objs[u], t)
  }

  predicate Evolves(up: Upstream, up': Upstream, t: Tid) {
    && up'.name == up.name
    && (up.cancelled ==> up'.cancelled)
    && (up.retiredBy.Some? ==> up'.retiredBy == up.retiredBy)
    && (up.cancelled && up.mu.None? ==> up'.mu.None? && up'.conn == up.conn)
    && (up.mu.Some? && up.mu != Some(t) ==> up'.mu == up.mu)
  }

  ghost predicate OthersKeepConns(s: State, s': State, t: Tid) {
    forall c | c in s.owner && s.owner[c].Thread? && s.owner[c].t != t :: c in s'.owner && s'.owner[c] == s.owner[c]
  }

  ghost predicate Considerate(s: State, s': State, t: Tid) {
    && OnlyMoves(s, s', t) && ObjectsEvolve(s, s', t) && OthersKeepConns(s, s', t)
    && (s.lock == Some(t) || (s'.upstreams == s.upstreams && s'.reg == s.reg))
  }

  lemma OthersStillFit(s: State, s': State, t: Tid)
    requires ThreadsFit(s) && LockHeldBy(s) && Considerate(s, s', t)
    requires PcFits(s', t, PcOf(s', t))
    ensures ThreadsFit(s')
  {
    hide Absent, ValidServerName;
    forall t': Tid | t' != t ensures PcFits(s', t', PcOf(s', t')) {
      OtherStillFits(s, s', t, t');
    }
  }

  lemma OtherStillFits(s: State, s': State, t: Tid, t': Tid)
    requires ThreadsFit(s) && LockHeldBy(s) && Considerate(s, s', t) && t' != t
    ensures PcFits(s', t', PcOf(s', t'))
  {
    hide Absent, ValidServerName;
    assert PcFits(s, t', PcOf(s, t'));
    assert s.lock == Some(t') <==> HoldsLock(PcOf(s, t'));
  }

  // Group by group.

  lemma LockStays(s: State, s': State, t: Tid)
    requires LockHeldBy(s) && OnlyMoves(s, s', t)
    requires var was, now := HoldsLock(PcOf(s, t)), HoldsLock(PcOf(s', t));
             || (s'.lock == s.lock && now == was)
             || (s.lock.None? && s'.lock == Some(t) && now)
             || (s.lock == Some(t) && s'.lock.None? && !now)
    ensures LockHeldBy(s')
  {
    forall t': Tid ensures s'.lock == Some(t') <==> HoldsLock(PcOf(s', t')) {
      assert s.lock == Some(t') <==> HoldsLock(PcOf(s, t'));
    }
  }

  /** The upstreams are as they were, apart from their tool lists, and so are the connections' owners. */
  ghost predicate SameUpstreams(s: State, s': State) {
    && s'.upstreams == s.upstreams && s'.owner == s.owner && s'.objs.Keys == s.objs.Keys
    && forall u | u in s.objs :: s'.objs[u] == s.objs[u].(lastDefs := s'.objs[u].lastDefs)
  }

  /** What a thread holds or takes down in one place it still does in the other. */
  predicate KeepsDuties(pc: Pc, pc': Pc) {
    && (HeldConn(pc).None? || HeldConn(pc') == HeldConn(pc))
    && (DownOf(pc).None? || DownOf(pc') == DownOf(pc))
    && !pc.SwapReady?
  }

  predicate SameDuties(s: State, s': State, t: Tid) { KeepsDuties(PcOf(s, t), PcOf(s', t)) }

  /** An upstream that the step does not concern. */
  lemma Passes(s: State, s': State, t: Tid, v: Uid)
    requires v in s.objs && v in s'.objs && s'.objs[v] == s.objs[v].(lastDefs := s'.objs[v].lastDefs)
    requires OnlyMoves(s, s', t) && UpstreamFits(s, v, s.objs[v]) && IsCurrent(s', v) == IsCurrent(s, v)
    requires DownOf(PcOf(s, t)) == Some(v) ==> DownOf(PcOf(s', t)) == Some(v)
    requires !(PcOf(s, t).SwapReady? && PcOf(s, t).u == v)
    requires var c := s.objs[v].conn; c in s.owner && s.owner[c] == Closed ==> c in s'.owner && s'.owner[c] == Closed
    ensures UpstreamFits(s', v, s'.objs[v])
  {
    hide DownOf, IsCurrent;
  }

  lemma AllPass(s: State, s': State, t: Tid)
    requires RetiredAreClosed(s) && OnlyMoves(s, s', t) && SameUpstreams(s, s') && SameDuties(s, s', t)
    ensures RetiredAreClosed(s')
  {
    hide UpstreamFits, DownOf, HeldConn, OnlyMoves;
    forall u | u in s'.objs ensures UpstreamFits(s', u, s'.objs[u]) {
      assert UpstreamFits(s, u, s.objs[u]);
      Passes(s, s', t, u);
    }
  }

  lemma UpstreamsStay(s: State, s': State, t: Tid)
    requires NamesFit(s) && ConnsOwned(s) && RetiredAreClosed(s)
    requires OnlyMoves(s, s', t) && SameUpstreams(s, s') && SameDuties(s, s', t)
    ensures NamesFit(s') && ConnsOwned(s') && RetiredAreClosed(s')
  {
    hide ValidServerName, HeldConn, DownOf, RetiredAreClosed;
    AllPass(s, s', t);
  }

  lemma HistoryStays(s: State, s': State, t: Tid)
    requires HistoryFits(s) && OnlyMoves(s, s', t) && s'.log == s.log && s'.removeGen == s.removeGen
    requires InstallFits(s', PcOf(s', t))
    ensures HistoryFits(s')
  {
    hide Removals, NoStaleInstall;
    forall t': Tid ensures InstallFits(s', PcOf(s', t')) {
      assert InstallFits(s, PcOf(s, t'));
    }
  }

  lemma RegistryStays(s: State, s': State)
    requires RegistryAgrees(s) && s'.reg == s.reg && s'.upstreams == s.upstreams && s'.objs == s.objs
    requires Pending(s).None? || Pending(s') == Pending(s)
    ensures RegistryAgrees(s')
  {
    hide WellIndexed, NamesListed, ValidNames, Absent;
    forall name ensures Pending(s') == Some(name) || Agrees(s', name) {
      assert Pending(s) == Some(name) || Agrees(s, name);
    }
  }

  /** Steps that only move the thread, and perhaps take or release the server lock. */
  lemma QuietStep(s: State, s': State, t: Tid)
    requires Inv(s) && OnlyMoves(s, s', t) && SameDuties(s, s', t)
    requires s' == s.(pcs := s'.pcs, lock := s'.lock)
    requires PcFits(s', t, PcOf(s', t)) && InstallFits(s', PcOf(s', t))
    requires var was, now := HoldsLock(PcOf(s, t)), HoldsLock(PcOf(s', t));
             || (s'.lock == s.lock && now == was)
             || (s.lock.None? && s'.lock == Some(t) && now)
             || (s.lock == Some(t) && s'.lock.None? && !now)
    requires s.lock == Some(t) ==> Unsettled(s, PcOf(s, t)).None? || (s'.lock == Some(t) && Unsettled(s', PcOf(s', t)) == Unsettled(s, PcOf(s, t)))
    ensures Inv(s')
  {
    hide NamesFit, ConnsOwned, RetiredAreClosed, ThreadsFit, PcFits, RegistryAgrees, HistoryFits, InstallFits, SameDuties;
    LockStays(s, s', t);
    UpstreamsStay(s, s', t);
    HistoryStays(s, s', t);
    RegistryStays(s, s');
    OthersStillFit(s, s', t);
  }

  /** The quiet step from one place to another. */
  lemma QuietTo(s: State, t: Tid, pc: Pc, pc': Pc, lock': Option<Tid>)
    requires Inv(s) && PcOf(s, t) == pc && KeepsDuties(pc, pc')
    requires PcFits(s, t, pc') && InstallFits(s, pc')
    requires || (lock' == s.lock && HoldsLock(pc') == HoldsLock(pc))
             || (s.lock.None? && lock' == Some(t) && HoldsLock(pc'))
             || (HoldsLock(pc) && lock'.None? && !HoldsLock(pc'))
    requires Unsettled(s, pc).None? || (lock' == s.lock && Unsettled(s, pc') == Unsettled(s, pc))
    ensures Inv(To(s, t, pc').(lock := lock'))
  {
    PcFitsNow(s, t);
    hide Inv, Removals, HeldConn, DownOf, HoldsLock, Unsettled, PcFits, InstallFits;
    var s' := To(s, t, pc').(lock := lock');
    assert PcFits(s', t, pc') by { SamePlace(s, s', t, pc'); }
    assert SameDuties(s, s', t);
    hide PcFits, HeldBy, TakesDown, HoldsLock, SameDuties;
    QuietStep(s, s', t);
  }

  lemma SamePlace(s: State, s': State, t: Tid, pc: Pc)
    requires s' == s.(pcs := s'.pcs, lock := s'.lock) && PcFits(s, t, pc)
    ensures PcFits(s', t, pc)
  {
    hide Absent;
  }

  lemma PcFitsNow(s: State, t: Tid)
    requires Inv(s)
    ensures PcFits(s, t, PcOf(s, t)) && InstallFits(s, PcOf(s, t))
    ensures s.lock == Some(t) <==> HoldsLock(PcOf(s, t))
    ensures forall name | name in s.upstreams :: s.upstreams[name] in s.objs && s.objs[s.upstreams[name]].name == name
  {
    hide PcFits, InstallFits, HoldsLock, ConnsOwned, RetiredAreClosed, RegistryAgrees;
  }

  lemma GenIsCount(s: State)
    requires Inv(s)
    ensures forall name :: GenOf(s, name) == Removals(s.log, name)
  {
    hide Removals, NamesFit, ConnsOwned, RetiredAreClosed, RegistryAgrees, ThreadsFit, LockHeldBy;
  }

  lemma BeginsInstall(s: State, t: Tid, name: string, refuse: bool)
    requires Inv(s) && PcOf(s, t) == Idle && ValidServerName(name)
    ensures Inv(To(s, t, Dialing(Install(name, GenOf(s, name), refuse, |s.log|))))
  {
    GenIsCount(s);
    hide Inv, ValidServerName, Removals, Holds, JobFits, IsCurrent, LockHeldBy;
    assert s.log[..|s.log|] == s.log;
    QuietTo(s, t, Idle, Dialing(Install(name, GenOf(s, name), refuse, |s.log|)), s.lock);
  }

  lemma BeginsOther(s: State, t: Tid, pc': Pc)
    requires Inv(s) && PcOf(s, t) == Idle
    requires (pc'.Redialing? || pc'.Refreshing?) && pc'.u in s.objs
    ensures Inv(To(s, t, pc'))
  {
    hide Inv, ValidServerName, Removals, Holds, JobFits, IsCurrent, LockHeldBy;
    QuietTo(s, t, Idle, pc', s.lock);
  }

  lemma BeginsReapply(s: State, t: Tid, todo: seq<Uid>)
    requires Inv(s) && PcOf(s, t) == Idle && s.lock.None? && forall u :: u in todo <==> IsCurrent(s, u)
    ensures Inv(Lock(s, t, Reapplying(todo)))
  {
    hide Inv, ValidServerName, Removals, Holds, JobFits, IsCurrent, LockHeldBy;
    QuietTo(s, t, Idle, Reapplying(todo), Some(t));
  }

  lemma FailsEmptyHanded(s: State, t: Tid, retry: bool)
    requires Inv(s) && (PcOf(s, t).Dialing? || PcOf(s, t).Redialing? || PcOf(s, t).Refreshing?)
    ensures Inv(To(s, t, if retry then PcOf(s, t) else Idle))
  {
    hide Inv, ValidServerName, Removals, Holds, JobFits, IsCurrent, LockHeldBy;
    PcFitsNow(s, t);
    var pc := PcOf(s, t);
    assert PcFits(s, t, Idle) && InstallFits(s, Idle) by { IdleFits(s, t); }
    hide PcFits, InstallFits;
    if retry { QuietTo(s, t, pc, pc, s.lock); } else { QuietTo(s, t, pc, Idle, s.lock); }
  }

  lemma InstallListArrives(s: State, t: Tid, inst: Install, c: Conn, defs: seq<ToolDef>)
    requires Inv(s) && PcOf(s, t) == Listing(inst, c)
    ensures Inv(To(s, t, Waiting(inst, c, defs)))
  {
    hide Inv, ValidServerName, Removals, Holds, JobFits, IsCurrent, LockHeldBy;
    PcFitsNow(s, t);
    QuietTo(s, t, Listing(inst, c), Waiting(inst, c, defs), s.lock);
  }

  lemma ReconnectListArrives(s: State, t: Tid, u: Uid, c: Conn, defs: seq<ToolDef>)
    requires Inv(s) && PcOf(s, t) == Relisting(u, c)
    ensures Inv(To(s, t, Swapping(u, c, defs)))
  {
    hide Inv, ValidServerName, Removals, Holds, JobFits, IsCurrent, LockHeldBy;
    PcFitsNow(s, t);
    QuietTo(s, t, Relisting(u, c), Swapping(u, c, defs), s.lock);
  }

  lemma RefreshListArrives(s: State, t: Tid, u: Uid, c: Conn, defs: seq<ToolDef>)
    requires Inv(s) && PcOf(s, t) == Refreshing(u, c)
    ensures Inv(To(s, t, Offering(u, c, defs)))
  {
    hide Inv, ValidServerName, Removals, Holds, JobFits, IsCurrent, LockHeldBy;
    PcFitsNow(s, t);
    QuietTo(s, t, Refreshing(u, c), Offering(u, c, defs), s.lock);
  }

  lemma InstallTakesLock(s: State, t: Tid, inst: Install, c: Conn, defs: seq<ToolDef>)
    requires Inv(s) && PcOf(s, t) == Waiting(inst, c, defs) && s.lock.None?
    ensures Inv(Lock(s, t, Checking(inst, c, defs)))
  {
    hide Inv, ValidServerName, Removals, Holds, JobFits, IsCurrent, LockHeldBy;
    PcFitsNow(s, t);
    QuietTo(s, t, Waiting(inst, c, defs), Checking(inst, c, defs), Some(t));
  }

  lemma PublicationTakesLock(s: State, t: Tid, u: Uid, c: Conn, defs: seq<ToolDef>)
    requires Inv(s) && PcOf(s, t) == Offering(u, c, defs) && s.lock.None?
    ensures Inv(Lock(s, t, Comparing(u, c, defs)))
  {
    hide Inv, ValidServerName, Removals, Holds, JobFits, IsCurrent, LockHeldBy;
    PcFitsNow(s, t);
    QuietTo(s, t, Offering(u, c, defs), Comparing(u, c, defs), Some(t));
  }

  lemma CheckRejects(s: State, t: Tid, inst: Install, c: Conn, defs: seq<ToolDef>)
    requires Inv(s) && PcOf(s, t) == Checking(inst, c, defs)
    ensures Inv(To(s, t, Rejecting(inst, c)))
  {
    hide Inv, ValidServerName, Removals, Holds, JobFits, IsCurrent, LockHeldBy;
    PcFitsNow(s, t);
    QuietTo(s, t, Checking(inst, c, defs), Rejecting(inst, c), s.lock);
  }

  lemma ReadsLastConn(s: State, t: Tid, job: Job, u: Uid)
    requires Inv(s) && PcOf(s, t) == Reading(job, u) && MuFree(s, u)
    ensures Inv(To(s, t, Closing(job, u, s.objs[u].conn)))
  {
    hide Inv, ValidServerName, Removals, Holds, JobFits, IsCurrent, LockHeldBy;
    PcFitsNow(s, t);
    QuietTo(s, t, Reading(job, u), Closing(job, u, s.objs[u].conn), s.lock);
  }

  lemma SectionEnds(s: State, t: Tid)
    requires Inv(s) && (PcOf(s, t).Comparing? || PcOf(s, t).Reapplying?)
    ensures Inv(Unlock(s, t))
  {
    hide Inv, PcFits;
    PcFitsNow(s, t);
    assert PcFits(s, t, Idle) by { IdleFits(s, t); }
    NothingToKeep(PcOf(s, t));
    hide InstallFits, KeepsDuties, HoldsLock, Unsettled;
    QuietTo(s, t, PcOf(s, t), Idle, None);
  }

  lemma NothingToKeep(pc: Pc)
    requires pc.Comparing? || pc.Reapplying?
    ensures KeepsDuties(pc, Idle) && HoldsLock(pc) && !HoldsLock(Idle) && forall s :: Unsettled(s, pc).None?
  {
  }

  lemma IdleFits(s: State, t: Tid)
    ensures PcFits(s, t, Idle) && InstallFits(s, Idle)
  {
  }

  // ---- Closing a connection in hand ----

  lemma CloseStep(s: State, s': State, t: Tid, c: Conn)
    requires Inv(s) && OnlyMoves(s, s', t)
    requires HeldBy(PcOf(s, t), c) && Holds(s, t, c)
    requires s' == s.(pcs := s'.pcs, lock := s'.lock, owner := s.owner[c := Closed])
    requires !PcOf(s, t).SwapReady? && forall u :: !TakesDown(PcOf(s, t), u)
    requires PcFits(s', t, PcOf(s', t)) && InstallFits(s', PcOf(s', t))
    requires var was, now := HoldsLock(PcOf(s, t)), HoldsLock(PcOf(s', t));
             (s'.lock == s.lock && now == was) || (s.lock == Some(t) && s'.lock.None? && !now)
    requires Unsettled(s, PcOf(s, t)).None?
    ensures Inv(s')
  {
    hide NamesFit, ConnsOwned, RetiredAreClosed, ThreadsFit, PcFits, RegistryAgrees, HistoryFits, InstallFits;
    LockStays(s, s', t);
    CloseKeepsConns(s, s', t, c);
    HistoryStays(s, s', t);
    RegistryStays(s, s');
    OthersStillFit(s, s', t);
  }

  lemma CloseKeepsConns(s: State, s': State, t: Tid, c: Conn)
    requires NamesFit(s) && ConnsOwned(s) && RetiredAreClosed(s) && OnlyMoves(s, s', t)
    requires HeldBy(PcOf(s, t), c) && Holds(s, t, c)
    requires s' == s.(pcs := s'.pcs, lock := s'.lock, owner := s.owner[c := Closed])
    requires !PcOf(s, t).SwapReady? && forall u :: !TakesDown(PcOf(s, t), u)
    ensures NamesFit(s') && ConnsOwned(s') && RetiredAreClosed(s')
  {
    hide ValidServerName, DownOf, UpstreamFits;
    forall u | u in s'.objs ensures UpstreamFits(s', u, s'.objs[u]) {
      assert UpstreamFits(s, u, s.objs[u]);
      assert !TakesDown(PcOf(s, t), u);
      Passes(s, s', t, u);
    }
  }

  /** Closing the connection in hand, from one place to another. */
  lemma CloseTo(s: State, t: Tid, pc: Pc, pc': Pc, c: Conn, lock': Option<Tid>)
    requires Inv(s) && PcOf(s, t) == pc && HeldBy(pc, c) && !pc.SwapReady?
    requires pc'.Idle? || (InstOf(pc).Some? && pc' == Dialing(InstOf(pc).value)) || (pc.Relisting? && pc' == Redialing(pc.u))
             || (pc.Stale? && pc' == Offering(pc.u, pc.c, pc.defs))
    requires (lock' == s.lock && HoldsLock(pc') == HoldsLock(pc)) || (HoldsLock(pc) && lock'.None? && !HoldsLock(pc'))
    ensures Inv(To(Owned(s, c, Closed), t, pc').(lock := lock'))
  {
    hide Inv, PcFits, InstallFits, TakesDown, Unsettled, Holds, HoldsLock;
    PcFitsNow(s, t);
    CloserHasNoDuty(s, t, pc, c);
    CloserFits(s, t, pc, pc', c, lock');
    CloseStep(s, To(Owned(s, c, Closed), t, pc').(lock := lock'), t, c);
  }

  lemma CloserHasNoDuty(s: State, t: Tid, pc: Pc, c: Conn)
    requires PcFits(s, t, pc) && HeldBy(pc, c) && !pc.SwapReady?
    ensures Holds(s, t, c) && Unsettled(s, pc).None? && forall u :: !TakesDown(pc, u)
  {
    hide Removals, ValidServerName, JobFits, IsCurrent;
  }

  lemma CloserFits(s: State, t: Tid, pc: Pc, pc': Pc, c: Conn, lock': Option<Tid>)
    requires PcFits(s, t, pc) && InstallFits(s, pc) && HeldBy(pc, c)
    requires pc'.Idle? || (InstOf(pc).Some? && pc' == Dialing(InstOf(pc).value)) || (pc.Relisting? && pc' == Redialing(pc.u))
             || (pc.Stale? && pc' == Offering(pc.u, pc.c, pc.defs))
    ensures var s' := To(Owned(s, c, Closed), t, pc').(lock := lock'); PcFits(s', t, pc') && InstallFits(s', pc')
  {
    hide Removals, ValidServerName, JobFits, IsCurrent;
  }

  // ---- Connections that are dialled and swapped ----

  lemma InstallDials(s: State, t: Tid, inst: Install, c: Conn)
    requires Inv(s) && PcOf(s, t) == Dialing(inst) && c !in s.owner
    ensures Inv(To(Owned(s, c, Thread(t)), t, Listing(inst, c)))
  {
    PcFitsNow(s, t);
    assert ValidServerName(inst.name) && InstallFits(s, Dialing(inst));
    hide Inv, Removals, ValidServerName;
    DialStep(s, t, Dialing(inst), Listing(inst, c), c);
  }

  lemma ReconnectDials(s: State, t: Tid, u: Uid, c: Conn)
    requires Inv(s) && PcOf(s, t) == Redialing(u) && c !in s.owner
    ensures Inv(To(Owned(s, c, Thread(t)), t, Relisting(u, c)))
  {
    hide Inv;
    PcFitsNow(s, t);
    DialStep(s, t, Redialing(u), Relisting(u, c), c);
  }

  lemma DialStep(s: State, t: Tid, pc: Pc, pc': Pc, c: Conn)
    requires Inv(s) && PcOf(s, t) == pc && c !in s.owner
    requires !HoldsLock(pc) && !HoldsLock(pc') && !pc.SwapReady?
    requires (forall cc :: !HeldBy(pc, cc)) && HeldBy(pc', c) && forall u :: !TakesDown(pc, u)
    requires var s' := To(Owned(s, c, Thread(t)), t, pc'); PcFits(s', t, pc') && InstallFits(s', pc')
    ensures Inv(To(Owned(s, c, Thread(t)), t, pc'))
  {
    hide Inv, HoldsLock, HeldBy, TakesDown, PcFits, InstallFits, Considerate;
    PcFitsNow(s, t);
    var s' := To(Owned(s, c, Thread(t)), t, pc');
    DialParts(s, t, pc, pc', c);
    TouchesNone(s, s', t, {c});
    Assemble(s, s', t);
  }

  lemma TouchesNone(s: State, s': State, t: Tid, conns: set<Conn>)
    requires s'.pcs == s.pcs[t := PcOf(s', t)] && s'.upstreams == s.upstreams && s'.reg == s.reg && s'.objs == s.objs
    requires forall c | c in s.owner && c !in conns :: c in s'.owner && s'.owner[c] == s.owner[c]
    requires forall c | c in conns && c in s.owner :: s.owner[c].Thread? ==> s.owner[c].t == t
    ensures Considerate(s, s', t)
  {
  }

  lemma DialParts(s: State, t: Tid, pc: Pc, pc': Pc, c: Conn)
    requires Inv(s) && PcOf(s, t) == pc && c !in s.owner
    requires !HoldsLock(pc) && !HoldsLock(pc') && !pc.SwapReady?
    requires (forall cc :: !HeldBy(pc, cc)) && HeldBy(pc', c) && forall u :: !TakesDown(pc, u)
    ensures var s' := To(Owned(s, c, Thread(t)), t, pc');
            NamesFit(s') && ConnsOwned(s') && RetiredAreClosed(s') && RegistryAgrees(s')
  {
    PcFitsNow(s, t);
    var s' := To(Owned(s, c, Thread(t)), t, pc');
    hide ThreadsFit, LockHeldBy, RegistryAgrees, HistoryFits, ConnsOwned, RetiredAreClosed, NamesFit, PcFits, HeldBy, TakesDown, HoldsLock;
    DialKeepsConns(s, s', t, c);
    RegistryStays(s, s');
  }

  lemma DialKeepsConns(s: State, s': State, t: Tid, c: Conn)
    requires NamesFit(s) && ConnsOwned(s) && RetiredAreClosed(s) && OnlyMoves(s, s', t)
    requires c !in s.owner && (forall c' :: !HeldBy(PcOf(s, t), c')) && HeldBy(PcOf(s', t), c)
    requires s' == s.(pcs := s'.pcs, owner := s.owner[c := Thread(t)])
    requires !PcOf(s, t).SwapReady? && forall u :: !TakesDown(PcOf(s, t), u)
    ensures NamesFit(s') && ConnsOwned(s') && RetiredAreClosed(s')
  {
    hide ValidServerName, DownOf, UpstreamFits, HeldConn;
    forall u | u in s'.objs ensures UpstreamFits(s', u, s'.objs[u]) {
      assert UpstreamFits(s, u, s.objs[u]);
      assert !TakesDown(PcOf(s, t), u);
      Passes(s, s', t, u);
    }
  }

  /** The swap begins with a look at the upstream's context, under its own lock. */
  lemma SwapBegins(s: State, t: Tid, u: Uid, c: Conn, defs: seq<ToolDef>)
    requires Inv(s) && PcOf(s, t) == Swapping(u, c, defs) && MuFree(s, u) && !s.objs[u].cancelled
    ensures Inv(SwapBegun(s, t, u, c, defs))
  {
    var s' := SwapBegun(s, t, u, c, defs);
    hide Inv, PcFits, InstallFits, Considerate, Holds, SwapBegun, PcOf;
    SwappingFits(s, t);
    SwapBegunFits(s, t, u, c, defs);
    SwapBeginsParts(s, s', t, u, c, defs);
    Assemble(s, s', t);
  }

  lemma SwapBegunFits(s: State, t: Tid, u: Uid, c: Conn, defs: seq<ToolDef>)
    requires MuFree(s, u) && !s.objs[u].cancelled && Holds(s, t, c)
    ensures var s' := SwapBegun(s, t, u, c, defs);
            && PcOf(s', t) == SwapReady(u, c, defs)
            && PcFits(s', t, SwapReady(u, c, defs)) && InstallFits(s', SwapReady(u, c, defs)) && Considerate(s, s', t)
            && s'.lock == s.lock && s'.log == s.log && s'.removeGen == s.removeGen
  {
    var s' := SwapBegun(s, t, u, c, defs);
    hide Considerate, PcFits, InstallFits;
    assert PcFits(s', t, SwapReady(u, c, defs)) by { SwapReadyFits(s, s', t, u, c, defs); }
    assert InstallFits(s', SwapReady(u, c, defs)) by { NoInstall(s', SwapReady(u, c, defs)); }
    TouchesOne(s, s', t, u, {});
  }

  lemma SwappingFits(s: State, t: Tid)
    requires Inv(s) && (PcOf(s, t).Swapping? || PcOf(s, t).SwapReady?)
    ensures PcOf(s, t).u in s.objs && Holds(s, t, PcOf(s, t).c)
    ensures PcOf(s, t).SwapReady? ==> s.objs[PcOf(s, t).u].mu == Some(t)
  {
    hide Inv;
    PcFitsNow(s, t);
  }

  lemma SwapReadyFits(s: State, s': State, t: Tid, u: Uid, c: Conn, defs: seq<ToolDef>)
    requires s'.owner == s.owner && Holds(s, t, c) && u in s'.objs && s'.objs[u].mu == Some(t)
    ensures PcFits(s', t, SwapReady(u, c, defs))
  {
  }

  lemma NoInstall(s: State, pc: Pc)
    requires InstOf(pc).None?
    ensures InstallFits(s, pc)
  {
  }

  /** A step that changes at most one upstream and the owners of a few connections no other thread has. */
  lemma TouchesOne(s: State, s': State, t: Tid, u: Uid, conns: set<Conn>)
    requires s'.pcs == s.pcs[t := PcOf(s', t)] && s'.upstreams == s.upstreams && s'.reg == s.reg
    requires u in s.objs ==> u in s'.objs && s'.objs == s.objs[u := s'.objs[u]] && Evolves(s.objs[u], s'.objs[u], t)
    requires u !in s.objs ==> s'.objs == s.objs
    requires forall c | c in s.owner && c !in conns :: c in s'.owner && s'.owner[c] == s.owner[c]
    requires forall c | c in conns && c in s.owner :: s.owner[c].Thread? ==> s.owner[c].t == t
    ensures Considerate(s, s', t)
  {
  }

  /** The groups together, for a step that leaves the history as it is. */
  lemma Assemble(s: State, s': State, t: Tid)
    requires Inv(s) && Considerate(s, s', t) && s'.log == s.log && s'.removeGen == s.removeGen
    requires NamesFit(s') && ConnsOwned(s') && RetiredAreClosed(s') && RegistryAgrees(s')
    requires PcFits(s', t, PcOf(s', t)) && InstallFits(s', PcOf(s', t))
    requires var was, now := HoldsLock(PcOf(s, t)), HoldsLock(PcOf(s', t));
             || (s'.lock == s.lock && now == was)
             || (s.lock.None? && s'.lock == Some(t) && now)
             || (s.lock == Some(t) && s'.lock.None? && !now)
    ensures Inv(s')
  {
    hide ThreadsFit, LockHeldBy, RegistryAgrees, HistoryFits, ConnsOwned, RetiredAreClosed, NamesFit, PcFits, InstallFits, HoldsLock;
    LockStays(s, s', t);
    HistoryStays(s, s', t);
    OthersStillFit(s, s', t);
  }

  lemma SwapBeginsParts(s: State, s': State, t: Tid, u: Uid, c: Conn, defs: seq<ToolDef>)
    requires Inv(s) && PcOf(s, t) == Swapping(u, c, defs) && MuFree(s, u) && !s.objs[u].cancelled
    requires s' == SwapBegun(s, t, u, c, defs)
    ensures NamesFit(s') && ConnsOwned(s') && RetiredAreClosed(s') && RegistryAgrees(s')
  {
    hide ThreadsFit, LockHeldBy, RegistryAgrees, HistoryFits, ConnsOwned, RetiredAreClosed, NamesFit;
    SwapBeginsKeeps(s, s', t, u, c, defs);
    PendingElsewhere(s, s', t);
    RegistryUnmoved(s, s');
  }

  /** A thread outside the server lock has nothing pending. */
  lemma PendingElsewhere(s: State, s': State, t: Tid)
    requires Inv(s) && !HoldsLock(PcOf(s, t)) && s'.lock == s.lock && OnlyMoves(s, s', t)
    requires forall u | u in s.objs :: u in s'.objs && s'.objs[u].name == s.objs[u].name
    requires s'.objs.Keys == s.objs.Keys
    ensures Pending(s') == Pending(s)
  {
    hide Inv;
    PcFitsNow(s, t);
  }

  lemma RegistryUnmoved(s: State, s': State)
    requires RegistryAgrees(s) && NamesFit(s) && s'.reg == s.reg && s'.upstreams == s.upstreams
    requires forall u | u in s.objs :: u in s'.objs && s'.objs[u].lastDefs == s.objs[u].lastDefs
    requires Pending(s).None? || Pending(s') == Pending(s)
    ensures RegistryAgrees(s')
  {
    hide WellIndexed, NamesListed, ValidNames, Absent, ValidServerName, Pending;
    forall name ensures Pending(s') == Some(name) || Agrees(s', name) {
      assert Pending(s) == Some(name) || Agrees(s, name);
    }
  }

  lemma SwapBeginsKeeps(s: State, s': State, t: Tid, u: Uid, c: Conn, defs: seq<ToolDef>)
    requires NamesFit(s) && ConnsOwned(s) && RetiredAreClosed(s)
    requires PcOf(s, t) == Swapping(u, c, defs) && MuFree(s, u) && !s.objs[u].cancelled
    requires s' == SwapBegun(s, t, u, c, defs)
    ensures NamesFit(s') && ConnsOwned(s') && RetiredAreClosed(s')
  {
    hide ValidServerName, HeldConn, DownOf, UpstreamFits;
    SameConnInHand(u, c, defs);
    TakesNothingDown(PcOf(s, t));
    forall v | v in s'.objs ensures UpstreamFits(s', v, s'.objs[v]) {
      assert UpstreamFits(s, v, s.objs[v]);
      assert !TakesDown(PcOf(s, t), v);
      if v != u { Passes(s, s', t, v); } else { SwapHolderFits(s, s', t, u, c, defs); }
    }
  }

  lemma SwapHolderFits(s: State, s': State, t: Tid, u: Uid, c: Conn, defs: seq<ToolDef>)
    requires PcOf(s, t) == Swapping(u, c, defs) && MuFree(s, u) && UpstreamFits(s, u, s.objs[u])
    requires s' == SwapBegun(s, t, u, c, defs)
    ensures UpstreamFits(s', u, s'.objs[u])
  {
  }

  lemma SameConnInHand(u: Uid, c: Conn, defs: seq<ToolDef>)
    ensures forall cc :: HeldBy(Swapping(u, c, defs), cc) <==> cc == c
    ensures forall cc :: HeldBy(SwapReady(u, c, defs), cc) <==> cc == c
    ensures forall cc, prior :: HeldBy(Stale(u, c, defs, prior), cc) <==> cc == prior
  {
  }

  lemma TakesNothingDown(pc: Pc)
    requires !pc.Retiring? && !pc.Reading? && !pc.Closing?
    ensures forall v :: !TakesDown(pc, v)
  {
  }

  lemma SwapEnds(s: State, t: Tid, u: Uid, c: Conn, defs: seq<ToolDef>)
    requires Inv(s) && PcOf(s, t) == SwapReady(u, c, defs) && u in s.objs
    ensures Inv(SwappedConn(s, t, u, c, defs))
  {
    var s' := SwappedConn(s, t, u, c, defs);
    hide Inv, PcFits, InstallFits, Considerate, SwappedConn, Holds, PcOf, HoldsLock, NamesFit, ConnsOwned, RetiredAreClosed,
         RegistryAgrees;
    SwappingFits(s, t);
    SwapEndsParts(s, s', t, u, c, defs);
    SwapTouches(s, t, u, c, defs);
    StaleFits(s', t, u, c, defs, s.objs[u].conn);
    Assemble(s, s', t);
  }

  lemma SwapTouches(s: State, t: Tid, u: Uid, c: Conn, defs: seq<ToolDef>)
    requires u in s.objs && s.objs[u].mu == Some(t) && Holds(s, t, c)
    requires s.objs[u].conn in s.owner && s.owner[s.objs[u].conn] == Up(u)
    ensures Considerate(s, SwappedConn(s, t, u, c, defs), t)
    ensures var s' := SwappedConn(s, t, u, c, defs);
            && PcOf(s', t) == Stale(u, c, defs, s.objs[u].conn) && u in s'.objs
            && s'.lock == s.lock && s'.log == s.log && s'.removeGen == s.removeGen
  {
    hide Considerate;
    TouchesOne(s, SwappedConn(s, t, u, c, defs), t, u, {c, s.objs[u].conn});
  }

  lemma StaleFits(s: State, t: Tid, u: Uid, c: Conn, defs: seq<ToolDef>, prior: Conn)
    requires u in s.objs && Holds(s, t, prior)
    ensures PcFits(s, t, Stale(u, c, defs, prior)) && InstallFits(s, Stale(u, c, defs, prior))
    ensures !HoldsLock(Stale(u, c, defs, prior)) && !HoldsLock(SwapReady(u, c, defs))
  {
  }

  lemma SwappingIsUp(s: State, u: Uid)
    requires Inv(s) && u in s.objs && s.objs[u].mu.Some?
    ensures s.objs[u].conn in s.owner && s.owner[s.objs[u].conn] == Up(u)
  {
    hide ThreadsFit, LockHeldBy, RegistryAgrees, HistoryFits, RetiredAreClosed, NamesFit, HeldBy;
  }

  lemma SwapEndsParts(s: State, s': State, t: Tid, u: Uid, c: Conn, defs: seq<ToolDef>)
    requires Inv(s) && PcOf(s, t) == SwapReady(u, c, defs) && u in s.objs
    requires s' == SwappedConn(s, t, u, c, defs)
    ensures NamesFit(s') && ConnsOwned(s') && RetiredAreClosed(s') && RegistryAgrees(s') && Holds(s', t, s.objs[u].conn)
    ensures s.objs[u].conn in s.owner && s.owner[s.objs[u].conn] == Up(u)
  {
    SwappingFits(s, t);
    SwappingIsUp(s, u);
    SwapKeepsPending(s, t, u, c, defs);
    hide ThreadsFit, LockHeldBy, RegistryAgrees, HistoryFits, ConnsOwned, RetiredAreClosed, NamesFit, Holds, SwappedConn, Pending,
         HoldsLock, PcOf;
    SwapKeepsLists(s, t, u, c, defs);
    SwapEndsKeepsConns(s, s', t, u, c, defs);
    SwapEndsKeepsUps(s, s', t, u, c, defs);
    RegistryUnmoved(s, s');
  }

  lemma SwapKeepsPending(s: State, t: Tid, u: Uid, c: Conn, defs: seq<ToolDef>)
    requires Inv(s) && PcOf(s, t) == SwapReady(u, c, defs) && u in s.objs
    ensures Pending(SwappedConn(s, t, u, c, defs)) == Pending(s)
  {
    hide Inv, Pending;
    PendingElsewhere(s, SwappedConn(s, t, u, c, defs), t);
  }

  lemma SwapKeepsLists(s: State, t: Tid, u: Uid, c: Conn, defs: seq<ToolDef>)
    requires u in s.objs
    ensures var s' := SwappedConn(s, t, u, c, defs);
            && s'.reg == s.reg && s'.upstreams == s.upstreams
            && forall v | v in s.objs :: v in s'.objs && s'.objs[v].lastDefs == s.objs[v].lastDefs
  {
  }

  lemma SwapEndsKeepsConns(s: State, s': State, t: Tid, u: Uid, c: Conn, defs: seq<ToolDef>)
    requires ConnsOwned(s)
    requires PcOf(s, t) == SwapReady(u, c, defs) && u in s.objs && Holds(s, t, c) && s.objs[u].mu == Some(t)
    requires s' == SwappedConn(s, t, u, c, defs)
    ensures ConnsOwned(s') && Holds(s', t, s.objs[u].conn)
  {
    hide HeldConn;
    SameConnInHand(u, c, defs);
    var prior := s.objs[u].conn;
    assert s.owner[prior] == Up(u) && prior != c;
    forall v | v in s.objs && v != u ensures s.objs[v].conn != c && s.objs[v].conn != prior {
      assert s.owner[s.objs[v].conn] == Up(v) || s.owner[s.objs[v].conn] == Closed;
    }
  }

  lemma SwapEndsKeepsUps(s: State, s': State, t: Tid, u: Uid, c: Conn, defs: seq<ToolDef>)
    requires NamesFit(s) && ConnsOwned(s) && RetiredAreClosed(s)
    requires PcOf(s, t) == SwapReady(u, c, defs) && u in s.objs && Holds(s, t, c) && s.objs[u].mu == Some(t)
    requires s' == SwappedConn(s, t, u, c, defs)
    ensures NamesFit(s') && RetiredAreClosed(s')
  {
    hide ValidServerName, HeldConn, DownOf, UpstreamFits;
    TakesNothingDown(PcOf(s, t));
    var prior := s.objs[u].conn;
    assert s.owner[prior] == Up(u) && prior != c;
    forall v | v in s'.objs ensures UpstreamFits(s', v, s'.objs[v]) {
      assert UpstreamFits(s, v, s.objs[v]);
      assert !TakesDown(PcOf(s, t), v);
      if v != u {
        assert s.owner[s.objs[v].conn] == Up(v) || s.owner[s.objs[v].conn] == Closed;
        Passes(s, s', t, v);
      } else {
        SwappedFits(s, t, u, c, defs);
      }
    }
  }

  lemma SwappedFits(s: State, t: Tid, u: Uid, c: Conn, defs: seq<ToolDef>)
    requires PcOf(s, t) == SwapReady(u, c, defs) && u in s.objs && UpstreamFits(s, u, s.objs[u])
    requires s.objs[u].conn in s.owner && s.owner[s.objs[u].conn] == Up(u)
    ensures var s' := SwappedConn(s, t, u, c, defs); UpstreamFits(s', u, s'.objs[u])
  {
  }

  // ---- History ----

  lemma RemovalsSnoc(log: seq<Event>, e: Event, name: string)
    ensures Removals(log + [e], name) == Removals(log, name) + if e == RemovalOf(name) then 1 else 0
  {
    assert (log + [e])[..|log|] == log;
  }

  /** Equal counts mean that nothing was removed in between. */
  lemma {:induction false} NoRemovalBetween(log: seq<Event>, since: nat, name: string)
    requires since <= |log|
    ensures Removals(log[..since], name) <= Removals(log, name)
    ensures Removals(log[..since], name) == Removals(log, name) ==> forall k | since <= k < |log| :: log[k] != RemovalOf(name)
    decreases |log|
  {
    if since == |log| {
      assert log[..since] == log;
    } else {
      var most := log[..|log| - 1];
      assert log == most + [log[|log| - 1]] && most[..since] == log[..since];
      RemovalsSnoc(most, log[|log| - 1], name);
      NoRemovalBetween(most, since, name);
    }
  }

  lemma EventAppended(s: State, s': State, t: Tid, e: Event)
    requires HistoryFits(s) && OnlyMoves(s, s', t) && s'.log == s.log + [e]
    requires InstOf(PcOf(s', t)).None?
    requires e.RemovalOf? ==> s'.removeGen == s.removeGen[e.name := GenOf(s, e.name) + 1]
    requires e.InstallOf? ==> s'.removeGen == s.removeGen && e.since <= |s.log|
                              && Removals(s.log[..e.since], e.name) == GenOf(s, e.name)
    ensures HistoryFits(s')
  {
    hide Removals;
    forall name ensures GenOf(s', name) == Removals(s'.log, name) { RemovalsSnoc(s.log, e, name); }
    forall t': Tid ensures InstallFits(s', PcOf(s', t')) {
      assert InstallFits(s, PcOf(s, t'));
      if InstOf(PcOf(s', t')).Some? {
        var since := InstOf(PcOf(s', t')).value.since;
        assert (s.log + [e])[..since] == s.log[..since];
      }
    }
    if e.InstallOf? { NoRemovalBetween(s.log, e.since, e.name); }
    StaleInstallSnoc(s.log, e);
  }

  lemma StaleInstallSnoc(log: seq<Event>, e: Event)
    requires NoStaleInstall(log)
    requires e.InstallOf? ==> forall k | e.since <= k < |log| :: log[k] != RemovalOf(e.name)
    ensures NoStaleInstall(log + [e])
  {
  }

  // ---- Removing and installing ----

  /** The groups together, whatever the step does to the history. */
  lemma AssembleAll(s: State, s': State, t: Tid)
    requires Inv(s) && Considerate(s, s', t) && HistoryFits(s')
    requires NamesFit(s') && ConnsOwned(s') && RetiredAreClosed(s') && RegistryAgrees(s')
    requires PcFits(s', t, PcOf(s', t))
    requires var was, now := HoldsLock(PcOf(s, t)), HoldsLock(PcOf(s', t));
             || (s'.lock == s.lock && now == was)
             || (s.lock.None? && s'.lock == Some(t) && now)
             || (s.lock == Some(t) && s'.lock.None? && !now)
    ensures Inv(s')
  {
    hide ThreadsFit, LockHeldBy, RegistryAgrees, HistoryFits, ConnsOwned, RetiredAreClosed, NamesFit, PcFits, HoldsLock;
    LockStays(s, s', t);
    OthersStillFit(s, s', t);
  }

  lemma RemovalBegins(s: State, t: Tid, name: string)
    requires Inv(s) && PcOf(s, t) == Idle && s.lock.None?
    ensures Inv(RemovalBegun(s, t, name))
  {
    var s' := RemovalBegun(s, t, name);
    RemovalBeginsParts(s, t, name);
    hide Inv;
    assert PcFits(s', t, Detaching(name));
    hide PcFits, Considerate;
    TouchesNone(s, s', t, {});
    AssembleAll(s, s', t);
  }

  lemma RemovalBeginsParts(s: State, t: Tid, name: string)
    requires Inv(s) && PcOf(s, t) == Idle && s.lock.None?
    ensures var s' := RemovalBegun(s, t, name);
            NamesFit(s') && ConnsOwned(s') && RetiredAreClosed(s') && RegistryAgrees(s') && HistoryFits(s')
  {
    var s' := RemovalBegun(s, t, name);
    hide ThreadsFit, LockHeldBy, RegistryAgrees, HistoryFits, ConnsOwned, RetiredAreClosed, NamesFit;
    UpstreamsStay(s, s', t);
    EventAppended(s, s', t, RemovalOf(name));
    RegistryStays(s, s');
  }

  // The server is taken out of the map of upstreams.

  lemma Detaches(s: State, t: Tid, name: string)
    requires Inv(s) && PcOf(s, t) == Detaching(name)
    ensures Inv(Detached(s, t, name))
  {
    hide Detached, PcFits, Considerate;
    var s' := Detached(s, t, name);
    PcFitsNow(s, t);
    DetachedParts(s, t, name);
    DetachedFits(s, t, name);
    DetachedHistory(s, t, name);
    hide Inv;
    Assemble(s, s', t);
  }

  lemma DetachedHistory(s: State, t: Tid, name: string)
    ensures Detached(s, t, name).log == s.log && Detached(s, t, name).removeGen == s.removeGen
  {
  }

  lemma DetachedFits(s: State, t: Tid, name: string)
    requires Inv(s) && PcOf(s, t) == Detaching(name) && (name in s.upstreams ==> s.upstreams[name] in s.objs)
    ensures var s' := Detached(s, t, name);
            && PcFits(s', t, PcOf(s', t)) && InstallFits(s', PcOf(s', t)) && Considerate(s, s', t)
            && HoldsLock(PcOf(s', t)) && s'.lock == s.lock
  {
    hide Inv, Considerate, PcFits, InstallFits;
    PcFitsNow(s, t);
    if name in s.upstreams { CurrentIsLive(s, s.upstreams[name]); }
    DetachedPlace(s, t, name);
    DetachedTouches(s, t, name);
  }

  lemma DetachedPlace(s: State, t: Tid, name: string)
    requires name in s.upstreams ==> s.upstreams[name] in s.objs
    ensures var s' := Detached(s, t, name);
            && PcFits(s', t, PcOf(s', t)) && InstallFits(s', PcOf(s', t)) && HoldsLock(PcOf(s', t)) && s'.lock == s.lock
  {
  }

  lemma DetachedTouches(s: State, t: Tid, name: string)
    requires s.lock == Some(t)
    requires name in s.upstreams ==>
               var u := s.upstreams[name]; u in s.objs && s.objs[u].retiredBy.None? && !s.objs[u].cancelled
    ensures Considerate(s, Detached(s, t, name), t)
  {
  }

  lemma CurrentIsLive(s: State, u: Uid)
    requires Inv(s) && IsCurrent(s, u)
    ensures s.objs[u].retiredBy.None? && !s.objs[u].cancelled
    ensures s.objs[u].conn in s.owner && s.owner[s.objs[u].conn] == Up(u)
  {
    assert UpstreamFits(s, u, s.objs[u]);
    hide ThreadsFit, LockHeldBy, RegistryAgrees, HistoryFits, NamesFit, HeldBy, TakesDown;
  }

  lemma DetachedParts(s: State, t: Tid, name: string)
    requires Inv(s) && PcOf(s, t) == Detaching(name) && (name in s.upstreams ==> s.upstreams[name] in s.objs)
    ensures var s' := Detached(s, t, name);
            NamesFit(s') && ConnsOwned(s') && RetiredAreClosed(s') && RegistryAgrees(s')
  {
    PcFitsNow(s, t);
    hide ThreadsFit, LockHeldBy, RegistryAgrees, HistoryFits, ConnsOwned, RetiredAreClosed, NamesFit, PcFits;
    DetachedConns(s, t, name);
    DetachedUps(s, t, name);
    DetachedRegistry(s, t, name);
  }

  lemma DetachedConns(s: State, t: Tid, name: string)
    requires ConnsOwned(s) && PcOf(s, t) == Detaching(name) && (name in s.upstreams ==> s.upstreams[name] in s.objs)
    ensures ConnsOwned(Detached(s, t, name))
  {
    hide HeldConn;
    assert forall c :: !HeldBy(Detaching(name), c) by { DetachingHoldsNone(name); }
  }

  lemma DetachingHoldsNone(name: string)
    ensures forall c :: !HeldBy(Detaching(name), c)
  {
  }

  lemma DetachedUps(s: State, t: Tid, name: string)
    requires NamesFit(s) && RetiredAreClosed(s) && PcOf(s, t) == Detaching(name)
    ensures NamesFit(Detached(s, t, name)) && RetiredAreClosed(Detached(s, t, name))
  {
    hide ValidServerName, UpstreamFits, DownOf;
    var s' := Detached(s, t, name);
    forall v | v in s'.objs ensures UpstreamFits(s', v, s'.objs[v]) {
      assert UpstreamFits(s, v, s.objs[v]);
      if name in s.upstreams && v == s.upstreams[name] {
        DetachedRetires(s, t, name);
      } else {
        TakesNothingDown(PcOf(s, t));
        assert !TakesDown(PcOf(s, t), v);
        Passes(s, s', t, v);
      }
    }
  }

  lemma DetachedRetires(s: State, t: Tid, name: string)
    requires NamesFit(s) && PcOf(s, t) == Detaching(name) && name in s.upstreams
    requires var v := s.upstreams[name]; v in s.objs && UpstreamFits(s, v, s.objs[v])
    ensures var v, s' := s.upstreams[name], Detached(s, t, name); UpstreamFits(s', v, s'.objs[v])
  {
    hide ValidServerName;
  }

  lemma DetachedRegistry(s: State, t: Tid, name: string)
    requires NamesFit(s) && RegistryAgrees(s) && PcOf(s, t) == Detaching(name) && s.lock == Some(t)
    ensures RegistryAgrees(Detached(s, t, name))
  {
    hide WellIndexed, NamesListed, ValidNames, Absent, ValidServerName;
    var s' := Detached(s, t, name);
    assert Pending(s') == Some(name);
    forall n | n != name ensures Agrees(s', n) { assert Agrees(s, n); }
  }

  // A checked install puts its upstream in place.

  lemma InstallFitsNow(s: State, t: Tid, inst: Install, c: Conn, defs: seq<ToolDef>)
    requires Inv(s) && PcOf(s, t) == Checking(inst, c, defs)
    ensures ValidServerName(inst.name) && Holds(s, t, c) && s.lock == Some(t) && Pending(s).None?
    ensures inst.since <= |s.log| && inst.gen == Removals(s.log[..inst.since], inst.name)
    ensures inst.name !in s.upstreams ==> Absent(s.reg, inst.name)
    ensures inst.name in s.upstreams ==> s.upstreams[inst.name] in s.objs && IsCurrent(s, s.upstreams[inst.name])
  {
    PcFitsNow(s, t);
    assert inst.name !in s.upstreams ==> Agrees(s, inst.name) by {
      hide ThreadsFit, LockHeldBy, HistoryFits, ConnsOwned, RetiredAreClosed, NamesFit, Removals, WellIndexed, NamesListed, Absent;
      assert Pending(s).None?;
    }
    hide Inv, Absent, NamesListed, Removals, ValidServerName;
  }

  lemma PutsUp(s: State, t: Tid, inst: Install, c: Conn, defs: seq<ToolDef>, newU: Uid)
    requires Inv(s) && PcOf(s, t) == Checking(inst, c, defs) && MayInstall(s, inst) && newU !in s.objs
    ensures Inv(PutUp(s, t, inst, c, defs, newU))
  {
    var s' := PutUp(s, t, inst, c, defs, newU);
    PcFitsNow(s, t);
    PutUpParts(s, t, inst, c, defs, newU);
    PutUpFits(s, t, inst, c, defs, newU);
    hide Inv, PcFits, Considerate, PutUp;
    AssembleAll(s, s', t);
  }

  lemma PutUpFits(s: State, t: Tid, inst: Install, c: Conn, defs: seq<ToolDef>, newU: Uid)
    requires Inv(s) && PcOf(s, t) == Checking(inst, c, defs) && newU !in s.objs
    requires inst.name in s.upstreams ==> s.upstreams[inst.name] in s.objs
    ensures var s' := PutUp(s, t, inst, c, defs, newU);
            && PcFits(s', t, PcOf(s', t)) && Considerate(s, s', t)
            && HoldsLock(PcOf(s', t)) && s'.lock == s.lock && s.lock == Some(t)
  {
    InstallFitsNow(s, t, inst, c, defs);
    var s' := PutUp(s, t, inst, c, defs, newU);
    hide Inv, Absent, Removals, ValidServerName, Considerate, PcFits, HoldsLock, PutUp;
    if inst.name in s.upstreams { CurrentIsLive(s, s.upstreams[inst.name]); }
    PutUpTouches(s, t, inst, c, defs, newU);
    PutUpPlace(s, t, inst, c, defs, newU);
  }

  lemma PutUpPlace(s: State, t: Tid, inst: Install, c: Conn, defs: seq<ToolDef>, newU: Uid)
    requires newU !in s.objs
    requires inst.name !in s.upstreams ==> Absent(s.reg, inst.name)
    ensures var s' := PutUp(s, t, inst, c, defs, newU);
            PcFits(s', t, PcOf(s', t)) && HoldsLock(PcOf(s', t)) && s'.lock == s.lock
  {
    hide Absent, ValidServerName;
  }

  lemma PutUpTouches(s: State, t: Tid, inst: Install, c: Conn, defs: seq<ToolDef>, newU: Uid)
    requires newU !in s.objs && Holds(s, t, c) && s.lock == Some(t)
    requires inst.name in s.upstreams ==>
               var u := s.upstreams[inst.name]; u in s.objs && s.objs[u].retiredBy.None? && !s.objs[u].cancelled
    ensures Considerate(s, PutUp(s, t, inst, c, defs, newU), t)
  {
  }

  lemma PutUpParts(s: State, t: Tid, inst: Install, c: Conn, defs: seq<ToolDef>, newU: Uid)
    requires Inv(s) && PcOf(s, t) == Checking(inst, c, defs) && MayInstall(s, inst) && newU !in s.objs
    requires inst.name in s.upstreams ==> s.upstreams[inst.name] in s.objs
    ensures var s' := PutUp(s, t, inst, c, defs, newU);
            NamesFit(s') && ConnsOwned(s') && RetiredAreClosed(s') && RegistryAgrees(s') && HistoryFits(s')
  {
    InstallFitsNow(s, t, inst, c, defs);
    GenIsCount(s);
    hide ThreadsFit, LockHeldBy, RegistryAgrees, HistoryFits, ConnsOwned, RetiredAreClosed, NamesFit, Absent, Removals, ValidServerName;
    PutUpConns(s, t, inst, c, defs, newU);
    PutUpUps(s, t, inst, c, defs, newU);
    PutUpRegistry(s, t, inst, c, defs, newU);
    PutUpHistory(s, t, inst, c, defs, newU);
  }

  lemma PutUpHistory(s: State, t: Tid, inst: Install, c: Conn, defs: seq<ToolDef>, newU: Uid)
    requires HistoryFits(s) && PcOf(s, t) == Checking(inst, c, defs) && MayInstall(s, inst) && newU !in s.objs
    requires inst.name in s.upstreams ==> s.upstreams[inst.name] in s.objs
    requires inst.since <= |s.log| && inst.gen == Removals(s.log[..inst.since], inst.name)
    ensures HistoryFits(PutUp(s, t, inst, c, defs, newU))
  {
    hide HistoryFits, Removals;
    EventAppended(s, PutUp(s, t, inst, c, defs, newU), t, InstallOf(inst.name, inst.since));
  }

  lemma PutUpConns(s: State, t: Tid, inst: Install, c: Conn, defs: seq<ToolDef>, newU: Uid)
    requires ConnsOwned(s) && PcOf(s, t) == Checking(inst, c, defs) && newU !in s.objs && Holds(s, t, c)
    requires inst.name in s.upstreams ==> s.upstreams[inst.name] in s.objs
    ensures ConnsOwned(PutUp(s, t, inst, c, defs, newU))
  {
    hide HeldConn;
    assert forall cc :: HeldBy(Checking(inst, c, defs), cc) <==> cc == c by { CheckingHolds(inst, c, defs); }
    forall v | v in s.objs ensures s.objs[v].conn != c {
      assert s.owner[s.objs[v].conn] == Up(v) || s.owner[s.objs[v].conn] == Closed;
    }
  }

  lemma CheckingHolds(inst: Install, c: Conn, defs: seq<ToolDef>)
    ensures forall cc :: HeldBy(Checking(inst, c, defs), cc) <==> cc == c
  {
  }

  lemma PutUpUps(s: State, t: Tid, inst: Install, c: Conn, defs: seq<ToolDef>, newU: Uid)
    requires NamesFit(s) && ConnsOwned(s) && RetiredAreClosed(s) && PcOf(s, t) == Checking(inst, c, defs)
    requires newU !in s.objs && Holds(s, t, c) && ValidServerName(inst.name)
    requires inst.name in s.upstreams ==> s.upstreams[inst.name] in s.objs
    ensures NamesFit(PutUp(s, t, inst, c, defs, newU)) && RetiredAreClosed(PutUp(s, t, inst, c, defs, newU))
  {
    hide ValidServerName, UpstreamFits;
    var s' := PutUp(s, t, inst, c, defs, newU);
    forall v | v in s.objs ensures UpstreamFits(s', v, s'.objs[v]) {
      assert UpstreamFits(s, v, s.objs[v]);
      if inst.name in s.upstreams && v == s.upstreams[inst.name] {
        PutUpRetires(s, t, inst, c, defs, newU);
      } else {
        PutUpPasses(s, t, inst, c, defs, newU, v);
      }
    }
    assert UpstreamFits(s', newU, s'.objs[newU]) by { PutUpIsLive(s, t, inst, c, defs, newU); }
  }

  lemma PutUpIsLive(s: State, t: Tid, inst: Install, c: Conn, defs: seq<ToolDef>, newU: Uid)
    requires newU !in s.objs && (inst.name in s.upstreams ==> s.upstreams[inst.name] in s.objs)
    ensures var s' := PutUp(s, t, inst, c, defs, newU); newU in s'.objs && UpstreamFits(s', newU, s'.objs[newU])
  {
  }

  lemma PutUpRetires(s: State, t: Tid, inst: Install, c: Conn, defs: seq<ToolDef>, newU: Uid)
    requires NamesFit(s) && PcOf(s, t) == Checking(inst, c, defs) && newU !in s.objs && inst.name in s.upstreams
    requires var v := s.upstreams[inst.name]; v in s.objs && UpstreamFits(s, v, s.objs[v])
    ensures var v, s' := s.upstreams[inst.name], PutUp(s, t, inst, c, defs, newU); UpstreamFits(s', v, s'.objs[v])
  {
    hide ValidServerName;
  }

  lemma PutUpPasses(s: State, t: Tid, inst: Install, c: Conn, defs: seq<ToolDef>, newU: Uid, v: Uid)
    requires NamesFit(s) && ConnsOwned(s) && PcOf(s, t) == Checking(inst, c, defs) && newU !in s.objs && Holds(s, t, c)
    requires inst.name in s.upstreams ==> s.upstreams[inst.name] in s.objs
    requires v in s.objs && UpstreamFits(s, v, s.objs[v]) && !(inst.name in s.upstreams && v == s.upstreams[inst.name])
    ensures var s' := PutUp(s, t, inst, c, defs, newU); UpstreamFits(s', v, s'.objs[v])
  {
    hide ValidServerName, HeldConn, UpstreamFits, DownOf;
    assert !TakesDown(Checking(inst, c, defs), v) by { TakesNothingDown(Checking(inst, c, defs)); }
    assert s.owner[s.objs[v].conn] == Up(v) || s.owner[s.objs[v].conn] == Closed;
    var s' := PutUp(s, t, inst, c, defs, newU);
    assert s'.objs[v] == s.objs[v] && s.objs[v].conn != c;
    Passes(s, s', t, v);
  }

  lemma PutUpRegistry(s: State, t: Tid, inst: Install, c: Conn, defs: seq<ToolDef>, newU: Uid)
    requires NamesFit(s) && RegistryAgrees(s) && PcOf(s, t) == Checking(inst, c, defs) && s.lock == Some(t)
    requires newU !in s.objs
    ensures RegistryAgrees(PutUp(s, t, inst, c, defs, newU))
  {
    hide WellIndexed, NamesListed, ValidNames, Absent, ValidServerName;
    var s' := PutUp(s, t, inst, c, defs, newU);
    assert Pending(s') == Some(inst.name);
    forall n | n != inst.name ensures Agrees(s', n) { assert Agrees(s, n); }
  }

  // The upstream that has to go is cancelled, then its last connection closed.

  lemma Cancels(s: State, t: Tid, job: Job, u: Uid)
    requires Inv(s) && PcOf(s, t) == Retiring(job, u) && u in s.objs
    ensures Inv(Cancelled(s, t, job, u))
  {
    var s' := Cancelled(s, t, job, u);
    PcFitsNow(s, t);
    CancelParts(s, t, job, u);
    CancelFits(s, t, job, u);
    hide Inv, PcFits, Considerate, InstallFits;
    Assemble(s, s', t);
  }

  lemma CancelFits(s: State, t: Tid, job: Job, u: Uid)
    requires Inv(s) && PcOf(s, t) == Retiring(job, u) && u in s.objs
    ensures var s' := Cancelled(s, t, job, u);
            PcFits(s', t, PcOf(s', t)) && InstallFits(s', PcOf(s', t)) && Considerate(s, s', t)
  {
    hide Inv, Absent;
    PcFitsNow(s, t);
    var s' := Cancelled(s, t, job, u);
    assert PcFits(s', t, Reading(job, u)) && InstallFits(s', Reading(job, u));
    hide PcFits, InstallFits, Considerate;
    TouchesOne(s, s', t, u, {});
  }

  lemma CancelParts(s: State, t: Tid, job: Job, u: Uid)
    requires Inv(s) && PcOf(s, t) == Retiring(job, u) && u in s.objs
    ensures var s' := Cancelled(s, t, job, u);
            NamesFit(s') && ConnsOwned(s') && RetiredAreClosed(s') && RegistryAgrees(s')
  {
    var s' := Cancelled(s, t, job, u);
    RetiringFits(s, t, job, u);
    hide ThreadsFit, LockHeldBy, HistoryFits, ConnsOwned, RetiredAreClosed, NamesFit, RegistryAgrees, Cancelled, Pending, PcOf;
    CancelUps(s, t, job, u);
    CancelKeepsLists(s, t, job, u);
    RegistryUnmoved(s, s');
  }

  lemma RetiringFits(s: State, t: Tid, job: Job, u: Uid)
    requires Inv(s) && PcOf(s, t) == Retiring(job, u)
    ensures s.lock == Some(t) && u in s.objs && s.objs[u].retiredBy == Some(t)
  {
    hide Inv, JobFits;
    PcFitsNow(s, t);
  }

  lemma CancelKeepsLists(s: State, t: Tid, job: Job, u: Uid)
    requires s.lock == Some(t) && u in s.objs && PcOf(s, t) == Retiring(job, u)
    ensures var s' := Cancelled(s, t, job, u);
            && s'.reg == s.reg && s'.upstreams == s.upstreams && Pending(s') == Pending(s)
            && forall v | v in s.objs :: v in s'.objs && s'.objs[v].lastDefs == s.objs[v].lastDefs
  {
  }

  lemma CancelUps(s: State, t: Tid, job: Job, u: Uid)
    requires NamesFit(s) && ConnsOwned(s) && RetiredAreClosed(s) && PcOf(s, t) == Retiring(job, u) && u in s.objs
    requires s.objs[u].retiredBy == Some(t)
    ensures NamesFit(Cancelled(s, t, job, u)) && ConnsOwned(Cancelled(s, t, job, u)) && RetiredAreClosed(Cancelled(s, t, job, u))
  {
    hide ValidServerName, HeldConn, DownOf, UpstreamFits;
    RetiringHoldsNone(job, u);
    assert !HeldBy(Retiring(job, u), 0);
    var s' := Cancelled(s, t, job, u);
    forall v | v in s'.objs ensures UpstreamFits(s', v, s'.objs[v]) {
      assert UpstreamFits(s, v, s.objs[v]);
      if v == u { CancelledFits(s, t, job, u); } else { OnlyDown(job, u); Passes(s, s', t, v); }
    }
  }

  lemma OnlyDown(job: Job, u: Uid)
    ensures DownOf(Retiring(job, u)) == Some(u) == DownOf(Reading(job, u))
    ensures forall c :: DownOf(Closing(job, u, c)) == Some(u)
  {
  }

  lemma CancelledFits(s: State, t: Tid, job: Job, u: Uid)
    requires PcOf(s, t) == Retiring(job, u) && u in s.objs && s.objs[u].retiredBy == Some(t) && UpstreamFits(s, u, s.objs[u])
    ensures var s' := Cancelled(s, t, job, u); UpstreamFits(s', u, s'.objs[u])
  {
  }

  lemma RetiringHoldsNone(job: Job, u: Uid)
    ensures forall c :: !HeldBy(Retiring(job, u), c)
    ensures forall c, cc :: !HeldBy(Closing(job, u, c), cc)
    ensures forall c :: !HeldBy(Publishing(job), c)
  {
  }

  lemma ClosesLast(s: State, t: Tid, job: Job, u: Uid, c: Conn)
    requires Inv(s) && PcOf(s, t) == Closing(job, u, c)
    ensures Inv(ClosedLast(s, t, job, c))
  {
    var s' := ClosedLast(s, t, job, c);
    PcFitsNow(s, t);
    CloseLastParts(s, t, job, u, c);
    CloseLastFits(s, t, job, u, c);
    hide Inv, PcFits, Considerate, InstallFits;
    Assemble(s, s', t);
  }

  lemma LastIsOwned(s: State, t: Tid, job: Job, u: Uid, c: Conn)
    requires Inv(s) && PcOf(s, t) == Closing(job, u, c)
    ensures u in s.objs && s.objs[u].conn == c && s.objs[u].cancelled && s.objs[u].mu.None? && s.objs[u].retiredBy == Some(t)
    ensures c in s.owner && (s.owner[c] == Up(u) || s.owner[c] == Closed)
    ensures JobFits(s, job)
  {
    PcFitsNow(s, t);
    hide ThreadsFit, LockHeldBy, HistoryFits, RetiredAreClosed, NamesFit, RegistryAgrees, HeldBy, JobFits;
  }

  lemma CloseLastFits(s: State, t: Tid, job: Job, u: Uid, c: Conn)
    requires Inv(s) && PcOf(s, t) == Closing(job, u, c)
    ensures var s' := ClosedLast(s, t, job, c);
            PcFits(s', t, PcOf(s', t)) && InstallFits(s', PcOf(s', t)) && Considerate(s, s', t)
  {
    hide Inv, Absent;
    LastIsOwned(s, t, job, u, c);
    PcFitsNow(s, t);
    var s' := ClosedLast(s, t, job, c);
    assert PcFits(s', t, Publishing(job)) && InstallFits(s', Publishing(job));
    hide PcFits, InstallFits, Considerate;
    TouchesNone(s, s', t, {c});
  }

  lemma CloseLastParts(s: State, t: Tid, job: Job, u: Uid, c: Conn)
    requires Inv(s) && PcOf(s, t) == Closing(job, u, c)
    ensures var s' := ClosedLast(s, t, job, c);
            NamesFit(s') && ConnsOwned(s') && RetiredAreClosed(s') && RegistryAgrees(s')
  {
    LastIsOwned(s, t, job, u, c);
    PcFitsNow(s, t);
    var s' := ClosedLast(s, t, job, c);
    hide ThreadsFit, LockHeldBy, HistoryFits, ConnsOwned, RetiredAreClosed, NamesFit, RegistryAgrees, PcFits;
    CloseLastUps(s, t, job, u, c);
    RegistryStays(s, s');
  }

  lemma CloseLastUps(s: State, t: Tid, job: Job, u: Uid, c: Conn)
    requires NamesFit(s) && ConnsOwned(s) && RetiredAreClosed(s) && PcOf(s, t) == Closing(job, u, c)
    requires u in s.objs && s.objs[u].conn == c && s.objs[u].cancelled && s.objs[u].mu.None?
    requires c in s.owner && (s.owner[c] == Up(u) || s.owner[c] == Closed)
    ensures NamesFit(ClosedLast(s, t, job, c)) && ConnsOwned(ClosedLast(s, t, job, c)) && RetiredAreClosed(ClosedLast(s, t, job, c))
  {
    hide ValidServerName, HeldConn, DownOf, UpstreamFits;
    RetiringHoldsNone(job, u);
    OnlyDown(job, u);
    var s' := ClosedLast(s, t, job, c);
    forall v | v in s'.objs ensures UpstreamFits(s', v, s'.objs[v]) {
      assert UpstreamFits(s, v, s.objs[v]);
      if v == u { ClosedFits(s, t, job, u, c); } else { Passes(s, s', t, v); }
    }
  }

  lemma ClosedFits(s: State, t: Tid, job: Job, u: Uid, c: Conn)
    requires PcOf(s, t) == Closing(job, u, c) && u in s.objs && s.objs[u].conn == c && s.objs[u].cancelled
    requires c in s.owner && UpstreamFits(s, u, s.objs[u])
    ensures var s' := ClosedLast(s, t, job, c); UpstreamFits(s', u, s'.objs[u])
  {
  }

  // ---- Publishing ----

  /** A server's names do not change when another server is updated. */
  lemma OthersAgree(before: Index, after: Index, server: string, name: string)
    requires OthersUntouched(before, after, server) && name != server && WellIndexed(after)
    ensures NamesListed(after, name) == NamesListed(before, name)
    ensures Absent(before, name) ==> Absent(after, name)
  {
    hide WellIndexed;
    ShownAgree(before, after, server, name);
    if Absent(before, name) { OthersStayAbsent(before, after, server, name); }
  }

  lemma ShownAgree(before: Index, after: Index, server: string, name: string)
    requires OthersUntouched(before, after, server) && name != server
    ensures NamesListed(after, name) == NamesListed(before, name)
  {
    assert forall k | k in after.tools && after.tools[k].server == name :: k in before.tools && before.tools[k] == after.tools[k];
    assert forall k | k in after.hidden && after.hidden[k].server == name :: k in before.hidden && before.hidden[k] == after.hidden[k];
  }

  lemma OthersStayAbsent(before: Index, after: Index, server: string, name: string)
    requires OthersUntouched(before, after, server) && name != server && WellIndexed(after) && Absent(before, name)
    ensures Absent(after, name)
  {
    hide Filed, Distinct;
    assert ListFor(after.byServer, name) == ListFor(before.byServer, name) == [];
  }

  /** A thread under the server lock brings the entries of one server up to date. */
  lemma PublishStep(s: State, s': State, t: Tid, name: string)
    requires Inv(s) && s.lock == Some(t) && (Pending(s).None? || Pending(s) == Some(name))
    requires s' == s.(pcs := s.pcs[t := PcOf(s', t)], lock := s'.lock, reg := s'.reg)
    requires WellIndexed(s'.reg) && OthersUntouched(s.reg, s'.reg, name) && Agrees(s', name)
    requires SameDuties(s, s', t) && PcFits(s', t, PcOf(s', t)) && InstallFits(s', PcOf(s', t))
    requires (s'.lock == Some(t) && HoldsLock(PcOf(s', t))) || (s'.lock.None? && !HoldsLock(PcOf(s', t)))
    ensures Inv(s')
  {
    PcFitsNow(s, t);
    hide ThreadsFit, LockHeldBy, HistoryFits, ConnsOwned, RetiredAreClosed, NamesFit, RegistryAgrees, PcFits, InstallFits,
         SameDuties, HoldsLock, WellIndexed, OthersUntouched, Agrees, Considerate, Pending;
    UpstreamsStay(s, s', t);
    PublishedAgrees(s, s', name);
    LockedTouches(s, s', t);
    Assemble(s, s', t);
  }

  lemma LockedTouches(s: State, s': State, t: Tid)
    requires s.lock == Some(t) && s' == s.(pcs := s.pcs[t := PcOf(s', t)], lock := s'.lock, reg := s'.reg)
    ensures Considerate(s, s', t)
  {
  }

  lemma PublishedAgrees(s: State, s': State, name: string)
    requires RegistryAgrees(s) && (Pending(s).None? || Pending(s) == Some(name))
    requires s'.upstreams == s.upstreams && s'.objs == s.objs
    requires WellIndexed(s'.reg) && OthersUntouched(s.reg, s'.reg, name) && Agrees(s', name)
    ensures RegistryAgrees(s')
  {
    hide WellIndexed, OthersUntouched, NamesListed, ValidNames, Absent, Pending;
    forall n ensures Agrees(s', n) {
      if n != name {
        assert Agrees(s, n);
        OthersAgree(s.reg, s'.reg, name, n);
      }
    }
  }

  lemma IdleStep(s: State, s': State, t: Tid)
    requires PcOf(s, t).Publishing? || PcOf(s, t).Adopted?
    requires PcOf(s', t).Idle?
    ensures SameDuties(s, s', t) && PcFits(s', t, Idle) && InstallFits(s', Idle) && !HoldsLock(Idle)
  {
  }

  lemma JobFitsNow(s: State, t: Tid, job: Job)
    requires Inv(s) && PcOf(s, t) == Publishing(job)
    ensures JobFits(s, job) && s.lock == Some(t) && Pending(s) == Some(job.name) && WellIndexed(s.reg)
    ensures job.Placed? ==> s.objs[job.u].name == job.name && ValidServerName(job.name)
  {
    PcFitsNow(s, t);
    hide ThreadsFit, LockHeldBy, HistoryFits, ConnsOwned, RetiredAreClosed, WellIndexed, Absent, ValidServerName, Agrees;
  }

  lemma Publishes(s: State, t: Tid, job: Job, view: View)
    requires Inv(s) && PcOf(s, t) == Publishing(job) && (job.Placed? ==> job.u in s.objs)
    ensures Inv(JobPublished(s, t, job, view))
  {
    var s' := JobPublished(s, t, job, view);
    hide Inv, JobFits;
    JobFitsNow(s, t, job);
    JobSettles(s, t, job, view);
    hide Published, SameDuties, WellIndexed, OthersUntouched, Agrees, PcFits, InstallFits, Pending;
    IdleStep(s, s', t);
    PublishStep(s, s', t, job.name);
  }

  lemma JobSettles(s: State, t: Tid, job: Job, view: View)
    requires JobFits(s, job) && WellIndexed(s.reg)
    requires job.Placed? ==> s.objs[job.u].name == job.name && ValidServerName(job.name)
    ensures var s' := JobPublished(s, t, job, view);
            WellIndexed(s'.reg) && OthersUntouched(s.reg, s'.reg, job.name) && Agrees(s', job.name)
  {
    hide WellIndexed, OthersUntouched, Absent, ValidServerName, Registry.Added, Registry.Replaced, Registry.Removed, NamesListed, ValidNames;
    match job
    case Placed(name, u, added) =>
      var p := ParamsFor(s.objs[u], view).(name := name);
      if added { AddedKeeps(s.reg, p); } else { ReplacedKeeps(s.reg, p); }
    case Gone(name) => RemovedKeeps(s.reg, name);
  }

  // A fetched list is adopted, then published.

  lemma Adopting(s: State, t: Tid, u: Uid, c: Conn, defs: seq<ToolDef>)
    requires Inv(s) && PcOf(s, t) == Comparing(u, c, defs) && IsCurrentConn(s, u, c)
    ensures Inv(Adopts(s, t, u, defs))
    ensures ListOf(Adopts(s, t, u, defs), s.objs[u].name) == Some(defs)
  {
    var s' := Adopts(s, t, u, defs);
    PcFitsNow(s, t);
    AdoptParts(s, t, u, c, defs);
    AdoptFits(s, t, u, c, defs);
    hide Inv, PcFits, Considerate, InstallFits;
    Assemble(s, s', t);
  }

  lemma AdoptFits(s: State, t: Tid, u: Uid, c: Conn, defs: seq<ToolDef>)
    requires PcOf(s, t) == Comparing(u, c, defs) && IsCurrentConn(s, u, c)
    ensures var s' := Adopts(s, t, u, defs);
            PcFits(s', t, PcOf(s', t)) && InstallFits(s', PcOf(s', t)) && Considerate(s, s', t)
  {
    var s' := Adopts(s, t, u, defs);
    assert PcFits(s', t, Adopted(u)) && InstallFits(s', Adopted(u));
    hide PcFits, InstallFits, Considerate;
    TouchesOne(s, s', t, u, {});
  }

  lemma AdoptParts(s: State, t: Tid, u: Uid, c: Conn, defs: seq<ToolDef>)
    requires Inv(s) && PcOf(s, t) == Comparing(u, c, defs) && IsCurrentConn(s, u, c)
    ensures var s' := Adopts(s, t, u, defs);
            NamesFit(s') && ConnsOwned(s') && RetiredAreClosed(s') && RegistryAgrees(s')
  {
    var s' := Adopts(s, t, u, defs);
    PcFitsNow(s, t);
    hide ThreadsFit, LockHeldBy, HistoryFits, ConnsOwned, RetiredAreClosed, NamesFit, RegistryAgrees, SameDuties, SameUpstreams, PcFits;
    assert SameDuties(s, s', t) by { ComparingDuties(s, s', t); }
    assert SameUpstreams(s, s') by { AdoptsList(s, t, u, defs); }
    UpstreamsStay(s, s', t);
    AdoptRegistry(s, t, u, c, defs);
  }

  lemma ComparingDuties(s: State, s': State, t: Tid)
    requires PcOf(s, t).Comparing?
    ensures SameDuties(s, s', t)
  {
  }

  lemma AdoptsList(s: State, t: Tid, u: Uid, defs: seq<ToolDef>)
    requires u in s.objs
    ensures SameUpstreams(s, Adopts(s, t, u, defs))
  {
  }

  lemma AdoptRegistry(s: State, t: Tid, u: Uid, c: Conn, defs: seq<ToolDef>)
    requires NamesFit(s) && RegistryAgrees(s) && PcOf(s, t) == Comparing(u, c, defs) && s.lock == Some(t) && IsCurrent(s, u)
    ensures RegistryAgrees(Adopts(s, t, u, defs))
  {
    hide WellIndexed, NamesListed, ValidNames, Absent, ValidServerName;
    var s' := Adopts(s, t, u, defs);
    assert Pending(s') == Some(s.objs[u].name);
    forall n | n != s.objs[u].name ensures Agrees(s', n) { assert Agrees(s, n); }
  }

  lemma CurrentNow(s: State, t: Tid, u: Uid)
    requires Inv(s) && (PcOf(s, t) == Adopted(u) || (PcOf(s, t).Reapplying? && u in PcOf(s, t).todo))
    ensures IsCurrent(s, u) && s.lock == Some(t) && WellIndexed(s.reg) && ValidServerName(s.objs[u].name)
    ensures Pending(s) == if PcOf(s, t).Adopted? then Some(s.objs[u].name) else None
  {
    WellNow(s);
    CurrentFits(s, t, u);
    hide Inv, WellIndexed, ValidServerName, IsCurrent;
    assert IsCurrent(s, u) ==> u in s.objs by { CurrentExists(s, u); }
  }

  lemma CurrentExists(s: State, u: Uid)
    ensures IsCurrent(s, u) ==> u in s.objs
  {
  }

  lemma CurrentFits(s: State, t: Tid, u: Uid)
    requires Inv(s) && (PcOf(s, t) == Adopted(u) || (PcOf(s, t).Reapplying? && u in PcOf(s, t).todo))
    ensures IsCurrent(s, u) && s.lock == Some(t)
  {
    hide Inv, IsCurrent;
    PcFitsNow(s, t);
  }

  lemma WellNow(s: State)
    requires Inv(s)
    ensures WellIndexed(s.reg) && forall u | u in s.objs :: ValidServerName(s.objs[u].name)
  {
    hide ThreadsFit, LockHeldBy, HistoryFits, ConnsOwned, RetiredAreClosed, WellIndexed, ValidServerName, Agrees;
  }

  /** Replacing the entries of a current upstream by its list settles its server. */
  lemma ReplaceSettles(s: State, s': State, u: Uid, view: View)
    requires IsCurrent(s, u) && WellIndexed(s.reg) && ValidServerName(s.objs[u].name)
    requires s'.upstreams == s.upstreams && s'.objs == s.objs && s'.reg == Registry.Replaced(s.reg, ParamsFor(s.objs[u], view))
    ensures WellIndexed(s'.reg) && OthersUntouched(s.reg, s'.reg, s.objs[u].name) && Agrees(s', s.objs[u].name)
  {
    hide WellIndexed, OthersUntouched, Absent, ValidServerName, Registry.Replaced, NamesListed, ValidNames;
    ReplacedKeeps(s.reg, ParamsFor(s.objs[u], view));
  }

  lemma PublishesAdopted(s: State, t: Tid, u: Uid, view: View)
    requires Inv(s) && PcOf(s, t) == Adopted(u) && u in s.objs
    ensures Inv(AdoptedPublished(s, t, u, view))
    ensures IsCurrent(s, u) && NamesListed(AdoptedPublished(s, t, u, view).reg, s.objs[u].name) == ValidNames(s.objs[u].lastDefs)
  {
    var s' := AdoptedPublished(s, t, u, view);
    hide Inv, SameDuties, WellIndexed, OthersUntouched, Agrees, PcFits, InstallFits, Pending, Registry.Replaced;
    CurrentNow(s, t, u);
    ReplaceSettles(s, s', u, view);
    IdleStep(s, s', t);
    PublishStep(s, s', t, s.objs[u].name);
  }

  // Aliases are re-applied one upstream after the other.

  lemma ReappliesOne(s: State, t: Tid, todo: seq<Uid>, view: View)
    requires Inv(s) && PcOf(s, t) == Reapplying(todo) && todo != [] && todo[0] in s.objs
    ensures Inv(ReappliedOne(s, t, todo, view))
  {
    var u, s' := todo[0], ReappliedOne(s, t, todo, view);
    hide Inv, SameDuties, WellIndexed, OthersUntouched, Agrees, PcFits, InstallFits, Pending, Registry.Replaced, IsCurrent;
    CurrentNow(s, t, u);
    ReapplyFits(s, s', t, todo);
    if s.objs[u].lastDefs == [] {
      assert s' == To(s, t, Reapplying(todo[1..])).(lock := s.lock);
      ReapplySkips(s, t, todo);
    } else {
      ReplaceSettles(s, s', u, view);
      PublishStep(s, s', t, s.objs[u].name);
    }
  }

  lemma ReapplyFits(s: State, s': State, t: Tid, todo: seq<Uid>)
    requires Inv(s) && PcOf(s, t) == Reapplying(todo) && todo != []
    requires PcOf(s', t) == Reapplying(todo[1..]) && s'.upstreams == s.upstreams && s'.objs == s.objs
    ensures SameDuties(s, s', t) && PcFits(s', t, Reapplying(todo[1..])) && InstallFits(s', Reapplying(todo[1..]))
  {
    hide Inv, IsCurrent;
    PcFitsNow(s, t);
    forall u ensures IsCurrent(s, u) == IsCurrent(s', u) { SameCurrent(s, s', u); }
  }

  lemma SameCurrent(s: State, s': State, u: Uid)
    requires s'.upstreams == s.upstreams && s'.objs == s.objs
    ensures IsCurrent(s, u) == IsCurrent(s', u)
  {
  }

  lemma ReapplySkips(s: State, t: Tid, todo: seq<Uid>)
    requires Inv(s) && PcOf(s, t) == Reapplying(todo) && todo != []
    ensures Inv(To(s, t, Reapplying(todo[1..])).(lock := s.lock))
  {
    hide Inv, IsCurrent;
    PcFitsNow(s, t);
    QuietTo(s, t, Reapplying(todo), Reapplying(todo[1..]), s.lock);
  }

  // ---- Runs ----

  lemma BeginKeeps(s: State, t: Tid, m: Move)
    requires Inv(s) && Enabled(s, t, m)
    requires !m.Proceed? && !m.NetworkFails? && !m.Dialed? && !m.ToolsArrive?
    ensures Inv(Take(s, t, m))
  {
    hide Inv, ValidServerName, IsCurrent, To, Lock, GenOf, IsCurrentConn, RemovalBegun;
    match m
    case BeginInstall(name, refuse) => BeginsInstall(s, t, name, refuse);
    case BeginRemoval(name) => RemovalBegins(s, t, name);
    case BeginReconnect(u) => BeginsOther(s, t, Redialing(u));
    case BeginRefresh(u) => BeginsOther(s, t, Refreshing(u, s.objs[u].conn));
    case BeginReapply(todo) => BeginsReapply(s, t, todo);
  }

  lemma FailureKeeps(s: State, t: Tid, m: Move)
    requires Inv(s) && Enabled(s, t, m)
    requires m.NetworkFails?
    ensures Inv(Take(s, t, m))
  {
    hide Inv, To;
    var pc, retry := PcOf(s, t), m.retry;
    match pc
    case Listing(inst, c) =>
      CloseTo(s, t, pc, if retry then Dialing(inst) else Idle, c, s.lock);
      SameLock(Owned(s, c, Closed), t, if retry then Dialing(inst) else Idle, s.lock);
    case Relisting(u, c) =>
      CloseTo(s, t, pc, if retry then Redialing(u) else Idle, c, s.lock);
      SameLock(Owned(s, c, Closed), t, if retry then Redialing(u) else Idle, s.lock);
    case _ => FailsEmptyHanded(s, t, retry && !pc.Refreshing?);
  }

  lemma SameLock(s: State, t: Tid, pc: Pc, lock: Option<Tid>)
    ensures s.lock == lock ==> To(s, t, pc).(lock := lock) == To(s, t, pc)
  {
  }

  lemma NetworkKeeps(s: State, t: Tid, m: Move)
    requires Inv(s) && Enabled(s, t, m)
    requires m.Dialed? || m.ToolsArrive?
    ensures Inv(Take(s, t, m))
  {
    hide Inv, To, Owned;
    match PcOf(s, t)
    case Dialing(inst) => InstallDials(s, t, inst, m.c);
    case Redialing(u) => ReconnectDials(s, t, u, m.c);
    case Listing(inst, c) => InstallListArrives(s, t, inst, c, m.defs);
    case Relisting(u, c) => ReconnectListArrives(s, t, u, c, m.defs);
    case Refreshing(u, c) => RefreshListArrives(s, t, u, c, m.defs);
  }

  lemma ProceedKeeps(s: State, t: Tid, m: Move)
    requires Inv(s) && Enabled(s, t, m)
    requires m.Proceed?
    ensures Inv(Take(s, t, m))
  {
    hide Inv, To, Lock, Unlock, Owned, Retire, PutUp, MayInstall, IsCurrentConn, SetUp, SwappedConn, Detached, Cancelled,
         ClosedLast, JobPublished, Adopts, AdoptedPublished, ReappliedOne, MuFree;
    var pc := PcOf(s, t);
    match pc
    case Waiting(inst, c, defs) => InstallTakesLock(s, t, inst, c, defs);
    case Checking(inst, c, defs) =>
      if MayInstall(s, inst) { PutsUp(s, t, inst, c, defs, m.newU); } else { CheckRejects(s, t, inst, c, defs); }
    case Rejecting(inst, c) => RejectEnds(s, t, inst, c);
    case Detaching(name) => Detaches(s, t, name);
    case Retiring(job, u) => Cancels(s, t, job, u);
    case Reading(job, u) => ReadsLastConn(s, t, job, u);
    case Closing(job, u, c) => ClosesLast(s, t, job, u, c);
    case Publishing(job) => Publishes(s, t, job, m.view);
    case Swapping(u, c, defs) => SwapDecides(s, t, u, c, defs);
    case SwapReady(u, c, defs) => SwapEnds(s, t, u, c, defs);
    case Stale(u, c, defs, prior) => StaleEnds(s, t, u, c, defs, prior);
    case Offering(u, c, defs) => PublicationTakesLock(s, t, u, c, defs);
    case Comparing(u, c, defs) => if IsCurrentConn(s, u, c) { Adopting(s, t, u, c, defs); } else { SectionEnds(s, t); }
    case Adopted(u) => PublishesAdopted(s, t, u, m.view);
    case Reapplying(todo) => if todo == [] { SectionEnds(s, t); } else { ReappliesOne(s, t, todo, m.view); }
  }

  lemma RejectEnds(s: State, t: Tid, inst: Install, c: Conn)
    requires Inv(s) && PcOf(s, t) == Rejecting(inst, c)
    ensures Inv(Unlock(Owned(s, c, Closed), t))
  {
    hide Inv;
    CloseTo(s, t, Rejecting(inst, c), Idle, c, None);
  }

  lemma SwapDecides(s: State, t: Tid, u: Uid, c: Conn, defs: seq<ToolDef>)
    requires Inv(s) && PcOf(s, t) == Swapping(u, c, defs) && MuFree(s, u)
    ensures s.objs[u].cancelled ==> Inv(To(Owned(s, c, Closed), t, Idle))
    ensures !s.objs[u].cancelled ==> Inv(SwapBegun(s, t, u, c, defs))
  {
    hide Inv;
    if s.objs[u].cancelled {
      CloseTo(s, t, Swapping(u, c, defs), Idle, c, s.lock);
      SameLock(Owned(s, c, Closed), t, Idle, s.lock);
    } else {
      SwapBegins(s, t, u, c, defs);
    }
  }

  lemma StaleEnds(s: State, t: Tid, u: Uid, c: Conn, defs: seq<ToolDef>, prior: Conn)
    requires Inv(s) && PcOf(s, t) == Stale(u, c, defs, prior)
    ensures Inv(To(Owned(s, prior, Closed), t, Offering(u, c, defs)))
  {
    hide Inv;
    CloseTo(s, t, Stale(u, c, defs, prior), Offering(u, c, defs), prior, s.lock);
    SameLock(Owned(s, prior, Closed), t, Offering(u, c, defs), s.lock);
  }

  lemma StepKeeps(s: State, t: Tid, m: Move)
    requires Inv(s) && Enabled(s, t, m)
    ensures Inv(Take(s, t, m))
  {
    hide Inv, Enabled, Take;
    if m.Proceed? {
      ProceedKeeps(s, t, m);
    } else if m.NetworkFails? {
      FailureKeeps(s, t, m);
    } else if m.Dialed? || m.ToolsArrive? {
      NetworkKeeps(s, t, m);
    } else {
      BeginKeeps(s, t, m);
    }
  }

  ghost predicate IsStep(s: State, s': State) { exists t, m :: StepBy(s, s', t, m) }

  ghost predicate StepBy(s: State, s': State, t: Tid, m: Move) { Enabled(s, t, m) && s' == Take(s, t, m) }

  /** A run: a sequence of states from the empty server, each made from the one before by some thread. */
  ghost predicate IsRun(run: seq<State>) {
    run != [] && run[0] == START && forall i | 0 <= i < |run| - 1 :: IsStep(run[i], run[i + 1])
  }

  lemma {:induction false} RunKeepsInv(run: seq<State>, i: nat)
    requires IsRun(run) && i < |run|
    ensures Inv(run[i])
  {
    hide Inv, Enabled, Take;
    if i == 0 {
      StartFits();
    } else {
      RunKeepsInv(run, i - 1);
      assert IsStep(run[i - 1], run[i - 1 + 1]);
      var t, m :| StepBy(run[i - 1], run[i], t, m);
      StepKeeps(run[i - 1], t, m);
    }
  }

  /** A thread at work waits for the network or for a lock and for nothing else: whatever upstream a step of
      its own looks up is there. */
  lemma OnlyLocksBlock(run: seq<State>, i: nat, t: Tid, view: View, newU: Uid)
    requires IsRun(run) && i < |run| && newU !in run[i].objs
    ensures var s, pc := run[i], PcOf(run[i], t);
            && (pc.Waiting? || pc.Offering? ==> (Enabled(s, t, Proceed(view, newU)) <==> LockFree(s)))
            && (pc.Reading? || pc.Swapping? || pc.Comparing? ==>
                  pc.u in s.objs && (Enabled(s, t, Proceed(view, newU)) <==> s.objs[pc.u].mu.None?))
            && (HoldsLock(pc) && !pc.Reading? && !pc.Comparing? ==> Enabled(s, t, Proceed(view, newU)))
            && (pc.SwapReady? || pc.Stale? ==> Enabled(s, t, Proceed(view, newU)))
  {
    hide Inv, PcFits, Enabled, HoldsLock;
    RunKeepsInv(run, i);
    PcFitsNow(run[i], t);
    hide IsRun;
    LocksBlock(run[i], t, view, newU);
  }

  lemma LocksBlock(s: State, t: Tid, view: View, newU: Uid)
    requires PcFits(s, t, PcOf(s, t)) && newU !in s.objs
    ensures var pc := PcOf(s, t);
            && (pc.Waiting? || pc.Offering? ==> (Enabled(s, t, Proceed(view, newU)) <==> LockFree(s)))
            && (pc.Reading? || pc.Swapping? || pc.Comparing? ==>
                  pc.u in s.objs && (Enabled(s, t, Proceed(view, newU)) <==> s.objs[pc.u].mu.None?))
            && (HoldsLock(pc) && !pc.Reading? && !pc.Comparing? ==> Enabled(s, t, Proceed(view, newU)))
            && (pc.SwapReady? || pc.Stale? ==> Enabled(s, t, Proceed(view, newU)))
  {
    hide ValidServerName, Absent, Holds;
    match PcOf(s, t)
    case Reapplying(todo) => assert todo == [] || todo[0] in todo;
    case _ =>
  }

  /** Whenever the server lock is free, the registry lists tools for a server only if the server has a
      current upstream, and then exactly the valid distinct names of the list that upstream adopted last. */
  lemma RegistryMatchesUpstreams(run: seq<State>, i: nat, name: string)
    requires IsRun(run) && i < |run| && run[i].lock.None?
    ensures name !in run[i].upstreams ==> NamesListed(run[i].reg, name) == {} && Absent(run[i].reg, name)
    ensures name in run[i].upstreams ==>
              && run[i].upstreams[name] in run[i].objs
              && NamesListed(run[i].reg, name) == ValidNames(run[i].objs[run[i].upstreams[name]].lastDefs)
    ensures WellIndexed(run[i].reg)
  {
    RunKeepsInv(run, i);
    hide WellIndexed, Absent, NamesListed, ValidNames, ThreadsFit, LockHeldBy, HistoryFits, ConnsOwned, RetiredAreClosed, NamesFit;
    assert Agrees(run[i], name);
  }

  /** An install that began before a removal of its server never takes effect after it. */
  lemma StaleInstallsNeverHappen(run: seq<State>, i: nat, j: nat, k: nat)
    requires IsRun(run) && i < |run|
    requires k < j < |run[i].log| && run[i].log[j].InstallOf? && run[i].log[k] == RemovalOf(run[i].log[j].name)
    ensures k < run[i].log[j].since
  {
    RunKeepsInv(run, i);
    hide Removals, ThreadsFit, LockHeldBy, RegistryAgrees, ConnsOwned, RetiredAreClosed, NamesFit;
  }

  /** Every connection ever dialled is in the hands of a thread still at work, in use by a current upstream,
      about to be closed by the thread that retired its upstream, or closed. */
  lemma ConnectionsAccountedFor(run: seq<State>, i: nat, c: Conn)
    requires IsRun(run) && i < |run| && c in run[i].owner
    ensures var s := run[i];
            || s.owner[c] == Closed
            || (exists t: Tid :: HeldBy(PcOf(s, t), c))
            || (exists u :: IsCurrent(s, u) && s.objs[u].conn == c && !s.objs[u].cancelled)
            || (exists u, t: Tid :: u in s.objs && s.objs[u].conn == c && TakesDown(PcOf(s, t), u))
  {
    var s := run[i];
    RunKeepsInv(run, i);
    hide ThreadsFit, LockHeldBy, RegistryAgrees, HistoryFits, NamesFit, HeldBy, TakesDown, IsCurrent;
    if s.owner[c].Up? {
      var u := s.owner[c].u;
      assert UpstreamFits(s, u, s.objs[u]);
    } else if s.owner[c].Thread? {
      assert HeldBy(PcOf(s, s.owner[c].t), c);
    }
  }

  /** Once all threads have come to rest, a connection is either closed or a current upstream's own. */
  lemma AtRestAllClosedOrCurrent(run: seq<State>, i: nat, c: Conn)
    requires IsRun(run) && i < |run| && c in run[i].owner
    requires forall t: Tid :: PcOf(run[i], t).Idle?
    ensures run[i].owner[c] == Closed || exists u :: IsCurrent(run[i], u) && run[i].objs[u].conn == c
  {
    hide IsRun, IsCurrent;
    ConnectionsAccountedFor(run, i, c);
  }

  /** The connection of a current upstream is never closed under it. */
  lemma CurrentConnectionIsOpen(run: seq<State>, i: nat, u: Uid)
    requires IsRun(run) && i < |run| && IsCurrent(run[i], u)
    ensures run[i].objs[u].conn in run[i].owner && run[i].owner[run[i].objs[u].conn] == Up(u)
    ensures !run[i].objs[u].cancelled
  {
    hide IsRun, IsCurrent;
    RunKeepsInv(run, i);
    CurrentIsLive(run[i], u);
  }

  // ---- Which list a server is registered with ----

  /** A move and the thread that makes it. */
  datatype Deed = Deed(t: Tid, m: Move)

  /** The moves that make a run. */
  ghost predicate Makes(deeds: seq<Deed>, run: seq<State>) {
    && |run| == |deeds| + 1 && run[0] == START
    && forall i | 0 <= i < |deeds| :: StepBy(run[i], run[i + 1], deeds[i].t, deeds[i].m)
  }

  lemma {:induction false} RunIsMade(run: seq<State>) returns (deeds: seq<Deed>)
    requires IsRun(run)
    ensures Makes(deeds, run)
  {
    hide Enabled, Take;
    if |run| == 1 {
      deeds := [];
    } else {
      var n := |run| - 1;
      var most := run[..n];
      assert forall i | 0 <= i < n - 1 :: IsStep(most[i], most[i + 1]) by {
        assert forall i | 0 <= i < n - 1 :: IsStep(run[i], run[i + 1]);
      }
      deeds := RunIsMade(most);
      assert IsStep(run[n - 1], run[n - 1 + 1]);
      var t, m :| StepBy(run[n - 1], run[n], t, m);
      deeds := deeds + [Deed(t, m)];
    }
  }

  lemma MadeIsRun(deeds: seq<Deed>, run: seq<State>)
    requires Makes(deeds, run)
    ensures IsRun(run)
  {
    hide Enabled, Take;
    forall i | 0 <= i < |run| - 1 ensures IsStep(run[i], run[i + 1]) {
      assert StepBy(run[i], run[i + 1], deeds[i].t, deeds[i].m);
    }
  }

  /** What a step should do to the list a server is registered with. */
  datatype Change = NoChange | HandsOver(name: string, defs: seq<ToolDef>) | Withdraws(name: string)

  ghost predicate RemovedSince(s: State, inst: Install) {
    exists k | inst.since <= k < |s.log| :: s.log[k] == RemovalOf(inst.name)
  }

  /** A list fetched for an upstream is handed over if the upstream is its server's, not cancelled and still on
      the connection the list came from; the list of an install if the server was not removed since the request
      began and is not running where that is refused. */
  ghost function ChangeOf(s: State, deed: Deed): Change {
    if !deed.m.Proceed? then NoChange
    else
      match PcOf(s, deed.t)
      case Comparing(u, c, defs) =>
        if u in s.objs && s.objs[u].name in s.upstreams && s.upstreams[s.objs[u].name] == u && !s.objs[u].cancelled && s.objs[u].conn == c
        then HandsOver(s.objs[u].name, defs) else NoChange
      case Checking(inst, _, defs) =>
        if !RemovedSince(s, inst) && !(inst.refuseIfRunning && inst.name in s.upstreams)
        then HandsOver(inst.name, defs) else NoChange
      case Detaching(name) => Withdraws(name)
      case _ => NoChange
  }

  /** The list handed over for a server last, unless it was withdrawn since. */
  ghost function Latest(deeds: seq<Deed>, run: seq<State>, i: nat, name: string): Option<seq<ToolDef>>
    requires i < |run| && i <= |deeds|
  {
    if i == 0 then None
    else
      match ChangeOf(run[i - 1], deeds[i - 1])
      case HandsOver(n, defs) => if n == name then Some(defs) else Latest(deeds, run, i - 1, name)
      case Withdraws(n) => if n == name then None else Latest(deeds, run, i - 1, name)
      case NoChange => Latest(deeds, run, i - 1, name)
  }

  ghost function ListOf(s: State, name: string): Option<seq<ToolDef>> {
    if name in s.upstreams && s.upstreams[name] in s.objs then Some(s.objs[s.upstreams[name]].lastDefs) else None
  }

  /** The connection a thread fetched from and the list it got, while it has them in hand. */
  function HandOf(pc: Pc): Option<(Conn, seq<ToolDef>)> {
    match pc
    case Waiting(_, c, defs) => Some((c, defs))
    case Checking(_, c, defs) => Some((c, defs))
    case Swapping(_, c, defs) => Some((c, defs))
    case SwapReady(_, c, defs) => Some((c, defs))
    case Stale(_, c, defs, _) => Some((c, defs))
    case Offering(_, c, defs) => Some((c, defs))
    case Comparing(_, c, defs) => Some((c, defs))
    case _ => None
  }

  /** The last list that arrived for a thread, and where from. */
  ghost function LastFetch(deeds: seq<Deed>, run: seq<State>, i: nat, t: Tid): Option<(Conn, seq<ToolDef>)>
    requires i < |run| && i <= |deeds|
  {
    if i == 0 then None
    else if deeds[i - 1].t == t && deeds[i - 1].m.ToolsArrive? then
      (match ConnOf(PcOf(run[i - 1], t)) case Some(c) => Some((c, deeds[i - 1].m.defs)) case None => None)
    else LastFetch(deeds, run, i - 1, t)
  }

  lemma {:induction false} RemovalBetween(log: seq<Event>, since: nat, k: nat, name: string)
    requires since <= k < |log| && log[k] == RemovalOf(name)
    ensures Removals(log[..since], name) < Removals(log, name)
    decreases |log|
  {
    var most := log[..|log| - 1];
    assert log == most + [log[|log| - 1]] && most[..since] == log[..since];
    RemovalsSnoc(most, log[|log| - 1], name);
    NoRemovalBetween(most, since, name);
    if k < |most| { RemovalBetween(most, since, k, name); }
  }

  lemma {:induction false} SameRemovals(log: seq<Event>, since: nat, name: string)
    requires since <= |log| && forall k | since <= k < |log| :: log[k] != RemovalOf(name)
    ensures Removals(log[..since], name) == Removals(log, name)
    decreases |log|
  {
    if since == |log| {
      assert log[..since] == log;
    } else {
      var most := log[..|log| - 1];
      assert log == most + [log[|log| - 1]] && most[..since] == log[..since];
      RemovalsSnoc(most, log[|log| - 1], name);
      SameRemovals(most, since, name);
    }
  }

  lemma MayInstallIff(s: State, t: Tid, inst: Install, c: Conn, defs: seq<ToolDef>)
    requires Inv(s) && PcOf(s, t) == Checking(inst, c, defs)
    ensures MayInstall(s, inst) <==> !RemovedSince(s, inst) && !(inst.refuseIfRunning && inst.name in s.upstreams)
  {
    InstallFitsNow(s, t, inst, c, defs);
    assert GenOf(s, inst.name) == Removals(s.log, inst.name) by { hide Removals; }
    hide Inv, Removals;
    if RemovedSince(s, inst) {
      var k :| inst.since <= k < |s.log| && s.log[k] == RemovalOf(inst.name);
      RemovalBetween(s.log, inst.since, k, inst.name);
    } else {
      SameRemovals(s.log, inst.since, inst.name);
    }
  }

  /** One step changes the list of one server at most, as it should. */
  lemma StepLists(s: State, deed: Deed, name: string)
    requires Inv(s) && Enabled(s, deed.t, deed.m)
    ensures ListOf(Take(s, deed.t, deed.m), name) ==
            match ChangeOf(s, deed)
            case HandsOver(n, defs) => if n == name then Some(defs) else ListOf(s, name)
            case Withdraws(n) => if n == name then None else ListOf(s, name)
            case NoChange => ListOf(s, name)
  {
    hide Inv, RemovedSince, Enabled, Take, MayInstall;
    PcFitsNow(s, deed.t);
    if !deed.m.Proceed? {
      OtherMovesKeepLists(s, deed.t, deed.m);
    } else {
      match PcOf(s, deed.t)
      case Checking(inst, c, defs) => CheckLists(s, deed, inst, c, defs, name);
      case Comparing(u, c, defs) => CompareLists(s, deed, u, c, defs, name);
      case Detaching(n) => DetachLists(s, deed, n, name);
      case _ => OtherStepsKeepLists(s, deed.t, deed.m);
    }
  }

  ghost predicate SameLists(s: State, s': State) {
    s'.upstreams == s.upstreams && forall u | u in s.objs :: u in s'.objs && s'.objs[u].lastDefs == s.objs[u].lastDefs
  }

  lemma OtherMovesKeepLists(s: State, t: Tid, m: Move)
    requires Enabled(s, t, m) && !m.Proceed?
    ensures SameLists(s, Take(s, t, m))
  {
    hide GenOf, IsCurrentConn, ValidServerName, IsCurrent;
  }

  lemma TakesAdvance(s: State, t: Tid, m: Move)
    requires Enabled(s, t, m) && m.Proceed?
    ensures Take(s, t, m) == Advance(s, t, m.view, m.newU)
  {
    hide Enabled, Advance;
  }

  lemma OtherStepsKeepLists(s: State, t: Tid, m: Move)
    requires Enabled(s, t, m) && m.Proceed?
    requires !PcOf(s, t).Checking? && !PcOf(s, t).Comparing? && !PcOf(s, t).Detaching?
    ensures SameLists(s, Take(s, t, m))
  {
    hide Enabled, Advance, SameLists;
    TakesAdvance(s, t, m);
    if HoldsLock(PcOf(s, t)) { LockedStepsKeepLists(s, t, m); } else { FreeStepsKeepLists(s, t, m); }
  }

  lemma LockedStepsKeepLists(s: State, t: Tid, m: Move)
    requires Enabled(s, t, m) && m.Proceed? && HoldsLock(PcOf(s, t))
    requires !PcOf(s, t).Checking? && !PcOf(s, t).Comparing? && !PcOf(s, t).Detaching?
    ensures SameLists(s, Advance(s, t, m.view, m.newU))
  {
    hide MayInstall, PutUp, Detached, Published, ValidServerName, IsCurrentConn, GenOf, Registry.Replaced, ParamsFor, SwapBegun, SwappedConn,
         Adopts, Retire, IsCurrent, LockFree;
    match PcOf(s, t)
    case Retiring(job, u) =>
    case Reapplying(todo) =>
    case _ =>
  }

  lemma FreeStepsKeepLists(s: State, t: Tid, m: Move)
    requires Enabled(s, t, m) && m.Proceed? && !HoldsLock(PcOf(s, t))
    ensures SameLists(s, Advance(s, t, m.view, m.newU))
  {
    hide MayInstall, PutUp, Detached, Published, ValidServerName, IsCurrentConn, GenOf, Registry.Replaced, ParamsFor, JobPublished, Cancelled,
         ClosedLast, Adopts, AdoptedPublished, ReappliedOne, Retire, IsCurrent, LockFree;
    match PcOf(s, t)
    case Swapping(u, c, defs) =>
    case SwapReady(u, c, defs) =>
    case _ =>
  }

  lemma CheckLists(s: State, deed: Deed, inst: Install, c: Conn, defs: seq<ToolDef>, name: string)
    requires Inv(s) && Enabled(s, deed.t, deed.m) && deed.m.Proceed? && PcOf(s, deed.t) == Checking(inst, c, defs)
    ensures ListOf(Take(s, deed.t, deed.m), name)
            == if ChangeOf(s, deed) == HandsOver(inst.name, defs) && inst.name == name then Some(defs) else ListOf(s, name)
    ensures ChangeOf(s, deed) == HandsOver(inst.name, defs) || ChangeOf(s, deed) == NoChange
  {
    hide Inv, RemovedSince, MayInstall, ValidServerName;
    MayInstallIff(s, deed.t, inst, c, defs);
    PcFitsNow(s, deed.t);
  }

  lemma CompareLists(s: State, deed: Deed, u: Uid, c: Conn, defs: seq<ToolDef>, name: string)
    requires Inv(s) && Enabled(s, deed.t, deed.m) && deed.m.Proceed? && PcOf(s, deed.t) == Comparing(u, c, defs)
    ensures u in s.objs
    ensures ListOf(Take(s, deed.t, deed.m), name)
            == if ChangeOf(s, deed) == HandsOver(s.objs[u].name, defs) && s.objs[u].name == name then Some(defs) else ListOf(s, name)
    ensures ChangeOf(s, deed) == HandsOver(s.objs[u].name, defs) || ChangeOf(s, deed) == NoChange
  {
    hide Inv, ValidServerName;
    PcFitsNow(s, deed.t);
  }

  lemma DetachLists(s: State, deed: Deed, n: string, name: string)
    requires Inv(s) && Enabled(s, deed.t, deed.m) && deed.m.Proceed? && PcOf(s, deed.t) == Detaching(n)
    ensures ListOf(Take(s, deed.t, deed.m), name) == if n == name then None else ListOf(s, name)
    ensures ChangeOf(s, deed) == Withdraws(n)
  {
    hide Inv, ValidServerName;
    PcFitsNow(s, deed.t);
  }

  function ConnOf(pc: Pc): Option<Conn> {
    match pc
    case Listing(_, c) => Some(c)
    case Relisting(_, c) => Some(c)
    case Refreshing(_, c) => Some(c)
    case _ => None
  }

  /** A thread has in hand what arrived for it, from where it fetched it, until it lets go of it. */
  lemma StepHands(s: State, deed: Deed)
    requires Enabled(s, deed.t, deed.m)
    ensures forall t | t != deed.t :: PcOf(Take(s, deed.t, deed.m), t) == PcOf(s, t)
    ensures var pc, hand := PcOf(s, deed.t), HandOf(PcOf(Take(s, deed.t, deed.m), deed.t));
            hand.Some? ==>
              if deed.m.ToolsArrive? then ConnOf(pc).Some? && hand == Some((ConnOf(pc).value, deed.m.defs)) else HandOf(pc) == hand
  {
    if deed.m.Proceed? { StepHandsOn(s, deed.t, deed.m); } else { OtherMovesHandOn(s, deed.t, deed.m); }
  }

  lemma OtherMovesHandOn(s: State, t: Tid, m: Move)
    requires Enabled(s, t, m) && !m.Proceed?
    ensures forall t' | t' != t :: PcOf(Take(s, t, m), t') == PcOf(s, t')
    ensures var pc, hand := PcOf(s, t), HandOf(PcOf(Take(s, t, m), t));
            hand.Some? ==> if m.ToolsArrive? then ConnOf(pc).Some? && hand == Some((ConnOf(pc).value, m.defs)) else HandOf(pc) == hand
  {
    hide Enabled, Take;
    if m.NetworkFails? || m.Dialed? || m.ToolsArrive? {
      AnswersHandOn(s, t, m);
    } else {
      BeginningsHandOn(s, t, m);
    }
  }

  lemma AnswersHandOn(s: State, t: Tid, m: Move)
    requires Enabled(s, t, m) && (m.NetworkFails? || m.Dialed? || m.ToolsArrive?)
    ensures forall t' | t' != t :: PcOf(Take(s, t, m), t') == PcOf(s, t')
    ensures var pc, hand := PcOf(s, t), HandOf(PcOf(Take(s, t, m), t));
            hand.Some? ==> if m.ToolsArrive? then ConnOf(pc).Some? && hand == Some((ConnOf(pc).value, m.defs)) else HandOf(pc) == hand
  {
    hide AfterFailure, LockFree, MuFree, IsCurrent;
    if m.NetworkFails? { FailuresHandOn(s, t, m.retry); }
  }

  lemma BeginningsHandOn(s: State, t: Tid, m: Move)
    requires Enabled(s, t, m) && !m.Proceed? && !m.NetworkFails? && !m.Dialed? && !m.ToolsArrive?
    ensures forall t' | t' != t :: PcOf(Take(s, t, m), t') == PcOf(s, t')
    ensures HandOf(PcOf(Take(s, t, m), t)).None?
  {
    hide GenOf, IsCurrentConn, ValidServerName, IsCurrent, LockFree, MuFree, AfterFailure, Advance;
  }

  lemma FailuresHandOn(s: State, t: Tid, retry: bool)
    requires Enabled(s, t, NetworkFails(retry))
    ensures forall t' | t' != t :: PcOf(AfterFailure(s, t, retry), t') == PcOf(s, t')
    ensures HandOf(PcOf(AfterFailure(s, t, retry), t)).None?
  {
  }

  lemma StepHandsOn(s: State, t: Tid, m: Move)
    requires Enabled(s, t, m) && m.Proceed?
    ensures forall t' | t' != t :: PcOf(Take(s, t, m), t') == PcOf(s, t')
    ensures var hand := HandOf(PcOf(Take(s, t, m), t)); hand.Some? ==> HandOf(PcOf(s, t)) == hand
  {
    hide Enabled, Advance;
    TakesAdvance(s, t, m);
    if HoldsLock(PcOf(s, t)) { LockedStepsHandOn(s, t, m); } else { FreeStepsHandOn(s, t, m); }
  }

  lemma LockedStepsHandOn(s: State, t: Tid, m: Move)
    requires Enabled(s, t, m) && m.Proceed? && HoldsLock(PcOf(s, t))
    ensures forall t' | t' != t :: PcOf(Advance(s, t, m.view, m.newU), t') == PcOf(s, t')
    ensures HandOf(PcOf(Advance(s, t, m.view, m.newU), t)).None?
  {
    hide Enabled, Advance, HoldsLock;
    if PcOf(s, t).Checking? || PcOf(s, t).Detaching? {
      UpstreamStepsHandOn(s, t, m);
    } else {
      PlainLockedStepsHandOn(s, t, m);
    }
  }

  lemma UpstreamStepsHandOn(s: State, t: Tid, m: Move)
    requires Enabled(s, t, m) && m.Proceed? && (PcOf(s, t).Checking? || PcOf(s, t).Detaching?)
    ensures forall t' | t' != t :: PcOf(Advance(s, t, m.view, m.newU), t') == PcOf(s, t')
    ensures HandOf(PcOf(Advance(s, t, m.view, m.newU), t)).None?
  {
    hide MayInstall, LockFree, PutUp, Detached;
    match PcOf(s, t)
    case Checking(inst, c, defs) => if MayInstall(s, inst) { PutUpHandsOn(s, t, inst, c, defs, m.newU); }
    case Detaching(name) => DetachedHandsOn(s, t, name);
  }

  lemma PlainLockedStepsHandOn(s: State, t: Tid, m: Move)
    requires Enabled(s, t, m) && m.Proceed? && HoldsLock(PcOf(s, t)) && !PcOf(s, t).Checking? && !PcOf(s, t).Detaching?
    ensures forall t' | t' != t :: PcOf(Advance(s, t, m.view, m.newU), t') == PcOf(s, t')
    ensures HandOf(PcOf(Advance(s, t, m.view, m.newU), t)).None?
  {
    hide MayInstall, Published, IsCurrentConn, Registry.Replaced, ParamsFor, SwapBegun, SwappedConn, LockFree, MuFree, PutUp, Detached;
  }

  lemma PutUpHandsOn(s: State, t: Tid, inst: Install, c: Conn, defs: seq<ToolDef>, newU: Uid)
    requires newU !in s.objs
    ensures forall t' | t' != t :: PcOf(PutUp(s, t, inst, c, defs, newU), t') == PcOf(s, t')
    ensures HandOf(PcOf(PutUp(s, t, inst, c, defs, newU), t)).None?
  {
  }

  lemma DetachedHandsOn(s: State, t: Tid, name: string)
    ensures forall t' | t' != t :: PcOf(Detached(s, t, name), t') == PcOf(s, t')
    ensures HandOf(PcOf(Detached(s, t, name), t)).None?
  {
  }

  lemma FreeStepsHandOn(s: State, t: Tid, m: Move)
    requires Enabled(s, t, m) && m.Proceed? && !HoldsLock(PcOf(s, t))
    ensures forall t' | t' != t :: PcOf(Advance(s, t, m.view, m.newU), t') == PcOf(s, t')
    ensures var hand := HandOf(PcOf(Advance(s, t, m.view, m.newU), t)); hand.Some? ==> HandOf(PcOf(s, t)) == hand
  {
    hide MayInstall, PutUp, Detached, Published, ValidServerName, IsCurrentConn, GenOf, Registry.Replaced, ParamsFor, JobPublished, Cancelled,
         ClosedLast, Adopts, AdoptedPublished, ReappliedOne, Retire, IsCurrent, LockFree;
    match PcOf(s, t)
    case Swapping(u, c, defs) =>
    case SwapReady(u, c, defs) =>
    case _ =>
  }

  lemma {:induction false} ListsFit(deeds: seq<Deed>, run: seq<State>, i: nat, name: string, t: Tid)
    requires Makes(deeds, run) && i < |run|
    ensures ListOf(run[i], name) == Latest(deeds, run, i, name)
    ensures HandOf(PcOf(run[i], t)).Some? ==> HandOf(PcOf(run[i], t)) == LastFetch(deeds, run, i, t)
  {
    hide Enabled, Take, ChangeOf;
    if i > 0 {
      ListsFit(deeds, run, i - 1, name, t);
      MadeIsRun(deeds, run);
      RunKeepsInv(run, i - 1);
      assert StepBy(run[i - 1], run[i - 1 + 1], deeds[i - 1].t, deeds[i - 1].m);
      StepLists(run[i - 1], deeds[i - 1], name);
      StepHands(run[i - 1], deeds[i - 1]);
    }
  }

  /** In every run, whenever the server lock is free, a server has an upstream exactly if a list was handed over
      for it and not withdrawn since, and the registry then lists exactly the valid names of the last such list. */
  lemma RegistryListsLatest(deeds: seq<Deed>, run: seq<State>, i: nat, name: string)
    requires Makes(deeds, run) && i < |run| && run[i].lock.None?
    ensures name in run[i].upstreams <==> Latest(deeds, run, i, name).Some?
    ensures NamesListed(run[i].reg, name)
            == match Latest(deeds, run, i, name) case Some(defs) => ValidNames(defs) case None => {}
  {
    hide Makes, Latest, NamesListed, ValidNames;
    MadeIsRun(deeds, run) by { assert Makes(deeds, run); }
    RegistryMatchesUpstreams(run, i, name);
    ListsFit(deeds, run, i, name, 0);
  }

  /** And a list that is handed over is the one that arrived last for the thread that hands it over, from the
      connection it is compared or installed with. */
  lemma HandedOverAsFetched(deeds: seq<Deed>, run: seq<State>, i: nat)
    requires Makes(deeds, run) && i < |deeds| && ChangeOf(run[i], deeds[i]).HandsOver?
    ensures LastFetch(deeds, run, i, deeds[i].t) == HandOf(PcOf(run[i], deeds[i].t))
    ensures HandOf(PcOf(run[i], deeds[i].t)).Some? && HandOf(PcOf(run[i], deeds[i].t)).value.1 == ChangeOf(run[i], deeds[i]).defs
  {
    ListsFit(deeds, run, i, "", deeds[i].t);
    hide Makes, RemovedSince, LastFetch;
  }

  // ---- Under which names and permissions a server's tools are listed ----

  /** A publication, or the step of a reload that comes to a server, reads the aliases and permissions in force. */
  ghost function ViewChange(s: State, deed: Deed): Option<(string, View)> {
    if !deed.m.Proceed? then None
    else
      match PcOf(s, deed.t)
      case Publishing(Placed(name, _, _)) => Some((name, deed.m.view))
      case Adopted(u) => if u in s.objs then Some((s.objs[u].name, deed.m.view)) else None
      case Reapplying(todo) => if todo != [] && todo[0] in s.objs then Some((s.objs[todo[0]].name, deed.m.view)) else None
      case _ => None
  }

  ghost function LastView(deeds: seq<Deed>, run: seq<State>, i: nat, name: string): Option<View>
    requires i < |run| && i <= |deeds|
  {
    if i == 0 then None
    else
      match ViewChange(run[i - 1], deeds[i - 1])
      case Some((n, view)) => if n == name then Some(view) else LastView(deeds, run, i - 1, name)
      case None => LastView(deeds, run, i - 1, name)
  }

  function Registered(name: string, defs: seq<ToolDef>, view: View): Params { Params(name, defs, view.hides, view.aliases) }

  /** Unless an update of the server is under way, its tools are listed as this view has them. */
  ghost predicate ViewFits(s: State, name: string, view: Option<View>) {
    Pending(s) != Some(name) && ListOf(s, name).Some? && ListOf(s, name).value != [] ==>
      view.Some? && ShowsAs(s.reg, Registered(name, ListOf(s, name).value, view.value))
  }

  /** What a step does to the registry: to the entries of one server at most. */
  ghost predicate RegMoves(s: State, s': State, deed: Deed) {
    match ViewChange(s, deed)
    case Some((n, view)) =>
      && ListOf(s, n).Some?
      && if ListOf(s, n).value == [] && PcOf(s, deed.t).Reapplying? then s'.reg == s.reg
         else OthersUntouched(s.reg, s'.reg, n) && ShowsAs(s'.reg, Registered(n, ListOf(s, n).value, view))
    case None =>
      || s'.reg == s.reg
      || exists n :: n !in s.upstreams && OthersUntouched(s.reg, s'.reg, n)
  }

  lemma PublishMoves(s: State, deed: Deed, job: Job)
    requires Inv(s) && Enabled(s, deed.t, deed.m) && deed.m.Proceed? && PcOf(s, deed.t) == Publishing(job)
    ensures RegMoves(s, Take(s, deed.t, deed.m), deed)
  {
    hide Inv, Enabled, Advance, Take, WellIndexed, OthersUntouched, ShowsAs, Published, Absent, ListOf;
    PcFitsNow(s, deed.t);
    TakesAdvance(s, deed.t, deed.m);
    assert job.Placed? ==> job.u in s.objs;
    PublishesJob(s, deed.t, job, deed.m.view, deed.m.newU);
    JobMoves(s, job, deed.m.view);
  }

  lemma PublishesJob(s: State, t: Tid, job: Job, view: View, newU: Uid)
    requires Enabled(s, t, Proceed(view, newU)) && PcOf(s, t) == Publishing(job)
    ensures job.Placed? ==> job.u in s.objs
    ensures Advance(s, t, view, newU).reg == Published(s, job, view)
  {
    hide Published;
  }

  lemma JobMoves(s: State, job: Job, view: View)
    requires Inv(s) && JobFits(s, job)
    ensures match job
            case Placed(name, u, _) =>
              && ListOf(s, name).Some?
              && OthersUntouched(s.reg, Published(s, job, view), name)
              && ShowsAs(Published(s, job, view), Registered(name, ListOf(s, name).value, view))
            case Gone(name) => name !in s.upstreams && OthersUntouched(s.reg, Published(s, job, view), name)
  {
    assert WellIndexed(s.reg) by { hide WellIndexed; }
    hide Inv, WellIndexed, OthersUntouched, ShowsAs, ValidServerName, Registry.Added, Registry.Replaced, Registry.Removed, Absent;
    match job
    case Placed(name, u, added) =>
      var p := Registered(name, s.objs[u].lastDefs, view);
      NameIs(s, name);
      NameValid(s, u);
      if added { AddedShows(s.reg, p); AddedKeeps(s.reg, p); } else { ReplacedShows(s.reg, p); ReplacedKeeps(s.reg, p); }
    case Gone(name) => RemovedKeeps(s.reg, name);
  }

  lemma NameIs(s: State, name: string)
    requires Inv(s) && name in s.upstreams
    ensures s.upstreams[name] in s.objs && s.objs[s.upstreams[name]].name == name
  {
    hide ThreadsFit, LockHeldBy, HistoryFits, ConnsOwned, RetiredAreClosed, RegistryAgrees, ValidServerName;
  }

  lemma NameValid(s: State, u: Uid)
    requires Inv(s) && u in s.objs
    ensures ValidServerName(s.objs[u].name)
  {
    hide ThreadsFit, LockHeldBy, HistoryFits, ConnsOwned, RetiredAreClosed, RegistryAgrees, ValidServerName;
  }

  lemma ListOfCurrent(s: State, u: Uid)
    requires IsCurrent(s, u)
    ensures ListOf(s, s.objs[u].name) == Some(s.objs[u].lastDefs)
  {
  }

  lemma ReplacedMoves(s: State, u: Uid, view: View)
    requires Inv(s) && IsCurrent(s, u)
    ensures var n, reg := s.objs[u].name, Registry.Replaced(s.reg, ParamsFor(s.objs[u], view));
            ListOf(s, n).Some? && OthersUntouched(s.reg, reg, n) && ShowsAs(reg, Registered(n, ListOf(s, n).value, view))
  {
    assert WellIndexed(s.reg) by { hide WellIndexed; }
    hide Inv, WellIndexed, OthersUntouched, ShowsAs, ValidServerName, Registry.Replaced, ListOf;
    NameValid(s, u);
    ListOfCurrent(s, u);
    var p := Registered(s.objs[u].name, s.objs[u].lastDefs, view);
    ReplacedShows(s.reg, p);
    ReplacedKeeps(s.reg, p);
  }

  lemma AdoptedAdvances(s: State, t: Tid, m: Move, u: Uid)
    requires Enabled(s, t, m) && m.Proceed? && PcOf(s, t) == Adopted(u)
    ensures u in s.objs && Advance(s, t, m.view, m.newU).reg == Registry.Replaced(s.reg, ParamsFor(s.objs[u], m.view))
  {
    hide Registry.Replaced, ParamsFor;
  }

  lemma AdoptedMoves(s: State, deed: Deed, u: Uid)
    requires Inv(s) && Enabled(s, deed.t, deed.m) && deed.m.Proceed? && PcOf(s, deed.t) == Adopted(u)
    ensures RegMoves(s, Take(s, deed.t, deed.m), deed)
  {
    hide Inv, Enabled, Advance, Take, OthersUntouched, ShowsAs, ListOf, Registry.Replaced, ParamsFor;
    PcFitsNow(s, deed.t);
    TakesAdvance(s, deed.t, deed.m);
    AdoptedAdvances(s, deed.t, deed.m, u);
    ReplacedMoves(s, u, deed.m.view);
  }

  lemma ReapplyAdvances(s: State, t: Tid, m: Move, todo: seq<Uid>)
    requires Enabled(s, t, m) && m.Proceed? && PcOf(s, t) == Reapplying(todo)
    ensures todo == [] ==> Advance(s, t, m.view, m.newU).reg == s.reg
    ensures todo != [] ==> todo[0] in s.objs
                           && Advance(s, t, m.view, m.newU).reg == if s.objs[todo[0]].lastDefs == [] then s.reg
                                                                   else Registry.Replaced(s.reg, ParamsFor(s.objs[todo[0]], m.view))
  {
    hide Registry.Replaced, ParamsFor;
  }

  lemma ReapplyMoves(s: State, deed: Deed, todo: seq<Uid>)
    requires Inv(s) && Enabled(s, deed.t, deed.m) && deed.m.Proceed? && PcOf(s, deed.t) == Reapplying(todo)
    ensures RegMoves(s, Take(s, deed.t, deed.m), deed)
  {
    hide Inv, Enabled, Advance, Take, OthersUntouched, ShowsAs, ListOf, Registry.Replaced, ParamsFor;
    PcFitsNow(s, deed.t);
    TakesAdvance(s, deed.t, deed.m);
    ReapplyAdvances(s, deed.t, deed.m, todo);
    if todo != [] {
      assert todo[0] in todo;
      ReplacedMoves(s, todo[0], deed.m.view);
      ListOfCurrent(s, todo[0]);
    }
  }

  lemma OtherStepsKeepRegistry(s: State, t: Tid, m: Move)
    requires Enabled(s, t, m)
    requires m.Proceed? ==> !PcOf(s, t).Publishing? && !PcOf(s, t).Adopted? && !PcOf(s, t).Reapplying?
    ensures Take(s, t, m).reg == s.reg
  {
    if m.Proceed? {
      hide Enabled, Advance;
      TakesAdvance(s, t, m);
      OtherAdvancesKeepRegistry(s, t, m.view, m.newU);
    } else {
      hide GenOf, IsCurrentConn, ValidServerName, IsCurrent;
    }
  }

  lemma OtherAdvancesKeepRegistry(s: State, t: Tid, view: View, newU: Uid)
    requires Enabled(s, t, Proceed(view, newU)) && !PcOf(s, t).Publishing? && !PcOf(s, t).Adopted? && !PcOf(s, t).Reapplying?
    ensures Advance(s, t, view, newU).reg == s.reg
  {
    hide Enabled, Advance;
    if ChangesUpstreams(PcOf(s, t)) {
      UpstreamStepsKeepRegistry(s, t, view, newU);
    } else {
      PlainStepsKeepRegistry(s, t, view, newU);
    }
  }

  predicate ChangesUpstreams(pc: Pc) { pc.Checking? || pc.Detaching? || pc.Retiring? || pc.Swapping? || pc.SwapReady? }

  lemma UpstreamStepsKeepRegistry(s: State, t: Tid, view: View, newU: Uid)
    requires Enabled(s, t, Proceed(view, newU)) && ChangesUpstreams(PcOf(s, t))
    ensures Advance(s, t, view, newU).reg == s.reg
  {
    hide MayInstall, LockFree, Retire, SwapBegun, SwappedConn, PutUp, Cancelled, SetUp;
    match PcOf(s, t)
    case Checking(inst, c, defs) => PutUpKeepsRegistry(s, t, inst, c, defs, newU);
    case Detaching(name) => RetireKeepsRegistry(s.(upstreams := s.upstreams - {name}), t, UpstreamNamed(s, name), Gone(name));
    case Retiring(job, u) => assert Cancelled(s, t, job, u).reg == s.reg by { CancelKeepsRegistry(s, t, job, u); }
    case Swapping(u, c, defs) => SwapKeepsRegistry(s, t, u, c, defs);
    case SwapReady(u, c, defs) => SwapKeepsRegistry(s, t, u, c, defs);
  }

  lemma RetireKeepsRegistry(s: State, t: Tid, prior: Option<Uid>, job: Job)
    ensures Retire(s, t, prior, job).reg == s.reg
  {
  }

  lemma PutUpKeepsRegistry(s: State, t: Tid, inst: Install, c: Conn, defs: seq<ToolDef>, newU: Uid)
    requires newU !in s.objs
    ensures PutUp(s, t, inst, c, defs, newU).reg == s.reg
  {
  }

  lemma CancelKeepsRegistry(s: State, t: Tid, job: Job, u: Uid)
    requires u in s.objs
    ensures Cancelled(s, t, job, u).reg == s.reg
  {
  }

  lemma SwapKeepsRegistry(s: State, t: Tid, u: Uid, c: Conn, defs: seq<ToolDef>)
    requires u in s.objs
    ensures SwapBegun(s, t, u, c, defs).reg == s.reg && SwappedConn(s, t, u, c, defs).reg == s.reg
  {
  }

  lemma PlainStepsKeepRegistry(s: State, t: Tid, view: View, newU: Uid)
    requires Enabled(s, t, Proceed(view, newU)) && !ChangesUpstreams(PcOf(s, t))
    requires !PcOf(s, t).Publishing? && !PcOf(s, t).Adopted? && !PcOf(s, t).Reapplying?
    ensures Advance(s, t, view, newU).reg == s.reg
  {
    hide MayInstall, LockFree, IsCurrentConn, Published, JobPublished, AdoptedPublished, ReappliedOne, PutUp, Detached,
         Cancelled, SwapBegun, SwappedConn, Adopts, SetUp, Retire, UpstreamNamed;
    if PcOf(s, t).Comparing? && IsCurrentConn(s, PcOf(s, t).u, PcOf(s, t).c) {
      AdoptsKeepsRegistry(s, t, PcOf(s, t).u, PcOf(s, t).defs);
    }
  }

  lemma AdoptsKeepsRegistry(s: State, t: Tid, u: Uid, defs: seq<ToolDef>)
    requires u in s.objs
    ensures Adopts(s, t, u, defs).reg == s.reg
  {
  }

  lemma StepMovesRegistry(s: State, deed: Deed)
    requires Inv(s) && Enabled(s, deed.t, deed.m)
    ensures RegMoves(s, Take(s, deed.t, deed.m), deed)
  {
    hide Inv, Enabled, Take, OthersUntouched, ShowsAs;
    if deed.m.Proceed? {
      match PcOf(s, deed.t)
      case Publishing(job) => PublishMoves(s, deed, job);
      case Adopted(u) => AdoptedMoves(s, deed, u);
      case Reapplying(todo) =>
        ReapplyMoves(s, deed, todo);
      case _ => OtherStepsKeepRegistry(s, deed.t, deed.m);
    } else {
      OtherStepsKeepRegistry(s, deed.t, deed.m);
    }
  }

  /** An update of a server, once begun, is under way until its publication. */
  lemma PendingUntilPublished(s: State, deed: Deed, name: string)
    requires Inv(s) && Enabled(s, deed.t, deed.m)
    requires Pending(s) == Some(name) || (ChangeOf(s, deed).HandsOver? && ChangeOf(s, deed).name == name)
    ensures var s' := Take(s, deed.t, deed.m);
            || Pending(s') == Some(name)
            || (ViewChange(s, deed).Some? && ViewChange(s, deed).value.0 == name)
            || name !in s'.upstreams
  {
    hide Inv, Enabled, Take, Advance, RemovedSince, MayInstall;
    PcFitsNow(s, deed.t);
    StepHands(s, deed);
    if s.lock == Some(deed.t) || ChangeOf(s, deed).HandsOver? {
      assert deed.m.Proceed? by { LockHolderProceeds(s, deed); }
      TakesAdvance(s, deed.t, deed.m);
      HolderStaysPending(s, deed, name);
    } else {
      OthersWait(s, deed);
    }
  }

  lemma LockHolderProceeds(s: State, deed: Deed)
    requires Enabled(s, deed.t, deed.m) && (HoldsLock(PcOf(s, deed.t)) || ChangeOf(s, deed).HandsOver?)
    ensures deed.m.Proceed?
  {
    hide RemovedSince, ValidServerName, IsCurrent;
  }

  lemma HolderStaysPending(s: State, deed: Deed, name: string)
    requires Inv(s) && Enabled(s, deed.t, deed.m) && deed.m.Proceed? && HoldsLock(PcOf(s, deed.t)) && s.lock == Some(deed.t)
    requires Pending(s) == Some(name) || (ChangeOf(s, deed).HandsOver? && ChangeOf(s, deed).name == name)
    ensures var s' := Advance(s, deed.t, deed.m.view, deed.m.newU);
            || Pending(s') == Some(name)
            || (ViewChange(s, deed).Some? && ViewChange(s, deed).value.0 == name)
            || name !in s'.upstreams
  {
    hide Inv, RemovedSince, MayInstall, Published, PutUp, Adopts, Detached, Cancelled, ClosedLast, Advance, Enabled;
    PcFitsNow(s, deed.t);
    match PcOf(s, deed.t)
    case Checking(inst, c, defs) =>
      MayInstallIff(s, deed.t, inst, c, defs);
      CheckingPends(s, deed.t, inst, c, defs, deed.m);
    case Comparing(u, c, defs) => ComparingPends(s, deed.t, u, c, defs, deed.m);
    case Retiring(job, u) => ChainPends(s, deed.t, deed.m);
    case Reading(job, u) => ChainPends(s, deed.t, deed.m);
    case Closing(job, u, c) => ChainPends(s, deed.t, deed.m);
    case Publishing(job) => PublishEnds(s, deed.t, job, deed.m);
    case _ =>
  }

  lemma CheckingPends(s: State, t: Tid, inst: Install, c: Conn, defs: seq<ToolDef>, m: Move)
    requires Enabled(s, t, m) && m.Proceed? && PcOf(s, t) == Checking(inst, c, defs) && s.lock == Some(t) && MayInstall(s, inst)
    ensures Pending(Advance(s, t, m.view, m.newU)) == Some(inst.name)
  {
    hide MayInstall, ValidServerName;
  }

  lemma ComparingPends(s: State, t: Tid, u: Uid, c: Conn, defs: seq<ToolDef>, m: Move)
    requires Enabled(s, t, m) && m.Proceed? && PcOf(s, t) == Comparing(u, c, defs) && s.lock == Some(t) && IsCurrentConn(s, u, c)
    ensures u in s.objs && Pending(Advance(s, t, m.view, m.newU)) == Some(s.objs[u].name)
  {
  }

  lemma ChainPends(s: State, t: Tid, m: Move)
    requires Enabled(s, t, m) && m.Proceed? && s.lock == Some(t)
    requires PcOf(s, t).Retiring? || PcOf(s, t).Reading? || PcOf(s, t).Closing?
    ensures Pending(Advance(s, t, m.view, m.newU)) == Some(PcOf(s, t).job.name) == Pending(s)
  {
    hide MayInstall, ValidServerName, PutUp, Detached, Adopts, IsCurrentConn, Published;
  }

  lemma PublishEnds(s: State, t: Tid, job: Job, m: Move)
    requires Enabled(s, t, m) && m.Proceed? && PcOf(s, t) == Publishing(job) && JobFits(s, job)
    ensures job.Gone? ==> job.name !in Advance(s, t, m.view, m.newU).upstreams
  {
    hide Published;
  }

  lemma OthersWait(s: State, deed: Deed)
    requires Inv(s) && Enabled(s, deed.t, deed.m) && s.lock.Some? && s.lock != Some(deed.t)
    ensures Pending(Take(s, deed.t, deed.m)) == Pending(s)
  {
    hide Inv, Enabled, Take, Advance;
    PcFitsNow(s, s.lock.value);
    PcFitsNow(s, deed.t);
    StepHands(s, deed);
    if deed.m.Proceed? {
      TakesAdvance(s, deed.t, deed.m);
      FreeStepsKeepLock(s, deed.t, deed.m);
    } else {
      OtherMovesKeepLock(s, deed.t, deed.m);
    }
  }

  ghost predicate LockAndNames(s: State, s': State) {
    s'.lock == s.lock && forall u | u in s.objs :: u in s'.objs && s'.objs[u].name == s.objs[u].name
  }

  lemma OtherMovesKeepLock(s: State, t: Tid, m: Move)
    requires Enabled(s, t, m) && !m.Proceed? && s.lock.Some?
    ensures LockAndNames(s, Take(s, t, m))
  {
    hide GenOf, IsCurrentConn, ValidServerName, IsCurrent;
  }

  lemma FreeStepsKeepLock(s: State, t: Tid, m: Move)
    requires Enabled(s, t, m) && m.Proceed? && !HoldsLock(PcOf(s, t)) && s.lock.Some?
    ensures LockAndNames(s, Advance(s, t, m.view, m.newU))
  {
    hide MayInstall, PutUp, Detached, Published, ValidServerName, IsCurrentConn, GenOf, Registry.Replaced, ParamsFor, JobPublished, Cancelled,
         ClosedLast, Adopts, AdoptedPublished, ReappliedOne, Retire, IsCurrent;
    match PcOf(s, t)
    case Swapping(u, c, defs) =>
    case SwapReady(u, c, defs) =>
    case _ =>
  }

  function NextView(change: Option<(string, View)>, name: string, view: Option<View>): Option<View> {
    match change
    case Some((n, v)) => if n == name then Some(v) else view
    case None => view
  }

  lemma StepViews(s: State, deed: Deed, name: string, view: Option<View>)
    requires Inv(s) && Enabled(s, deed.t, deed.m) && ViewFits(s, name, view)
    ensures ViewFits(Take(s, deed.t, deed.m), name, NextView(ViewChange(s, deed), name, view))
  {
    hide Inv, Enabled, Take, ChangeOf, ViewChange, ShowsAs, ListOf, Pending, OthersUntouched;
    var s' := Take(s, deed.t, deed.m);
    StepLists(s, deed, name);
    StepMovesRegistry(s, deed);
    if Pending(s) == Some(name) || (ChangeOf(s, deed).HandsOver? && ChangeOf(s, deed).name == name) {
      PendingUntilPublished(s, deed, name);
    }
    if Pending(s') != Some(name) && ListOf(s', name).Some? && ListOf(s', name).value != [] {
      ListedIsUp(s', name);
      ListedIsUp(s, name);
      ListsUnlessHanded(s, deed, name);
      RegistryAfter(s, s', deed, name, view);
    }
  }

  lemma ListedIsUp(s: State, name: string)
    ensures ListOf(s, name).Some? ==> name in s.upstreams
  {
  }

  /** Publishing hands nothing over. */
  lemma ListsUnlessHanded(s: State, deed: Deed, name: string)
    requires Inv(s) && Enabled(s, deed.t, deed.m)
    ensures ViewChange(s, deed).Some? ==> ChangeOf(s, deed) == NoChange
  {
    hide Inv, RemovedSince;
  }

  lemma RegistryAfter(s: State, s': State, deed: Deed, name: string, view: Option<View>)
    requires RegMoves(s, s', deed) && ViewFits(s, name, view)
    requires ListOf(s', name).Some? && ListOf(s', name).value != [] && name in s.upstreams
    requires ListOf(s', name) == ListOf(s, name)
    requires Pending(s) == Some(name) ==> ViewChange(s, deed).Some? && ViewChange(s, deed).value.0 == name
    ensures var next := NextView(ViewChange(s, deed), name, view);
            next.Some? && ShowsAs(s'.reg, Registered(name, ListOf(s', name).value, next.value))
  {
    hide ListOf, Pending, ViewChange, ShowsAs, OthersUntouched;
    var defs := ListOf(s, name).value;
    match ViewChange(s, deed)
    case Some((n, v)) =>
      if n != name && s'.reg != s.reg { StillShows(s.reg, s'.reg, n, Registered(name, defs, view.value)); }
    case None =>
      if s'.reg != s.reg {
        var n :| n !in s.upstreams && OthersUntouched(s.reg, s'.reg, n);
        StillShows(s.reg, s'.reg, n, Registered(name, defs, view.value));
      }
  }

  lemma {:induction false} ViewsFit(deeds: seq<Deed>, run: seq<State>, i: nat, name: string)
    requires Makes(deeds, run) && i < |run|
    ensures ViewFits(run[i], name, LastView(deeds, run, i, name))
  {
    hide Enabled, Take, ViewChange, ViewFits;
    if i == 0 {
      assert ViewFits(START, name, None) by { NothingAtStart(name); }
    } else {
      ViewsFit(deeds, run, i - 1, name);
      MadeIsRun(deeds, run);
      RunKeepsInv(run, i - 1);
      assert StepBy(run[i - 1], run[i - 1 + 1], deeds[i - 1].t, deeds[i - 1].m);
      StepViews(run[i - 1], deeds[i - 1], name, LastView(deeds, run, i - 1, name));
    }
  }

  lemma NothingAtStart(name: string)
    ensures ViewFits(START, name, None)
  {
  }

  /** In every run, whenever the server lock is free, the tools of each server that has some are listed under the
      aliases and permissions that were in force when the server was last published or reloaded: each valid name of
      its list under its visible name, shown or hidden as permitted, and nothing else. */
  lemma RegistryShowsLastView(deeds: seq<Deed>, run: seq<State>, i: nat, name: string)
    requires Makes(deeds, run) && i < |run| && run[i].lock.None?
    requires Latest(deeds, run, i, name).Some? && Latest(deeds, run, i, name).value != []
    ensures LastView(deeds, run, i, name).Some?
    ensures ShowsAs(run[i].reg, Registered(name, Latest(deeds, run, i, name).value, LastView(deeds, run, i, name).value))
  {
    hide Makes, Latest, LastView, ShowsAs, ListOf;
    ListsFit(deeds, run, i, name, 0);
    ViewsFit(deeds, run, i, name);
  }
}
