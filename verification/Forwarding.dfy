/** The stdio proxy's recovery: any number of concurrent forwards over one link to a daemon that may be
    gone, refuse the token or have lost the session. */
module Forwarding {
  import opened Options

  const MAX_ATTEMPTS := 3

  datatype LinkState = LinkState(token: string, generation: nat)

  // ---- What a reply proves ----

  datatype Outcome = Ok | TransportDown | Unauthorized | NotInitialized | Other

  /** What comes of sending a request; `status` with whether its body could be read and whether it is the
      daemon's "not initialized" error. */
  datatype Reply = Unbuildable | DialError | LaterError | Status(code: nat, readable: bool, notInitialized: bool)

  function Classify(reply: Reply): Outcome {
    match reply
    case Unbuildable => Other
    case DialError => TransportDown
    case LaterError => Other
    case Status(code, readable, notInitialized) =>
      if code == 401 then Unauthorized
      else if code >= 400 then Other
      else if !readable then Other
      else if notInitialized then NotInitialized
      else Ok
  }

  /** A request may have been executed unless the connection was never made, or the daemon turned it away
      before processing: for its token, or for want of a session. */
  predicate MayHaveRun(reply: Reply) {
    match reply
    case Unbuildable => false
    case DialError => false
    case LaterError => true
    case Status(code, readable, notInitialized) => code != 401 && !(code < 400 && readable && notInitialized)
  }

  predicate Retryable(out: Outcome) { out.TransportDown? || out.Unauthorized? || out.NotInitialized? }

  /** Only requests that did not run are sent again. */
  lemma RetryableDidNotRun(reply: Reply)
    ensures Retryable(Classify(reply)) ==> !MayHaveRun(reply)
  {
  }

  /** Exactly these replies are retried: a dial that failed, a refused token, and a reply that could be read and
      says that the session is not initialized. */
  lemma RetryableIff(reply: Reply)
    ensures Retryable(Classify(reply)) <==>
              || reply.DialError?
              || (reply.Status? && (reply.code == 401 || (reply.code < 400 && reply.readable && reply.notInitialized)))
  {
  }

  // ---- The link ----

  /** What recovering answers: the state to go on with, and the error of the last resolve, if any. */
  datatype Recovery = Recovery(state: LinkState, err: Option<string>)

  datatype Resolved = Token(token: string) | Failure(err: string)

  predicate MustResolve(link: LinkState, failedGen: nat, resolver: bool) { link.generation == failedGen && resolver }

  /** A resolve always starts a new generation; a failed one keeps the token. */
  function AfterResolve(link: LinkState, r: Resolved): LinkState {
    LinkState(if r.Token? then r.token else link.token, link.generation + 1)
  }

  function ErrorOf(r: Resolved): Option<string> { if r.Token? then None else Some(r.err) }

  /** The token in force after a number of resolves: that of the last successful one. */
  function TokenAfter(first: string, results: seq<Resolved>): string {
    if results == [] then first
    else
      var last := results[|results| - 1];
      if last.Token? then last.token else TokenAfter(first, results[..|results| - 1])
  }

  class DaemonLink {
    var state: LinkState
    var resolveErr: Option<string>
    ghost const first: string
    ghost var results: seq<Resolved>

    /** The generation counts the resolves, the token is the last successful one's, and the stored error
        is the last resolve's. */
    ghost predicate Valid()
      reads this
    {
      && state == LinkState(TokenAfter(first, results), |results|)
      && resolveErr == if results == [] then None else ErrorOf(results[|results| - 1])
    }

    constructor (token: string)
      ensures Valid() && state == LinkState(token, 0) && results == []
    {
      first := token;
      state, resolveErr, results := LinkState(token, 0), None, [];
    }

    /** `resolver` is what resolving would come to; None when there is no resolver. */
    method Recover(failedGen: nat, resolver: Option<Resolved>) returns (r: Recovery)
      requires Valid()
      modifies this
      ensures Valid()
      ensures var resolves := MustResolve(old(state), failedGen, resolver.Some?);
              && results == old(results) + (if resolves then [resolver.value] else [])
              && r == Recovery(state, resolveErr)
              && (!resolves ==> state == old(state) && resolveErr == old(resolveErr))
    {
      var current := state;
      if current.generation != failedGen || resolver.None? { return Recovery(current, resolveErr); }
      resolveErr := None;
      results := results + [resolver.value];
      assert results[..|results| - 1] == old(results);
      match resolver.value
      case Failure(err) =>
        state := LinkState(current.token, current.generation + 1);
        resolveErr := Some(err);
        return Recovery(state, Some(err));
      case Token(token) =>
        state := LinkState(token, current.generation + 1);
        return Recovery(state, None);
    }
  }

  // ---- Concurrent forwards ----

  type Tid = nat

  datatype Kind = Initialize | Initialized | Plain

  datatype Ev = Sent(state: LinkState, out: Outcome, ran: bool) | Shook(state: LinkState)

  datatype Pc =
    | Ready(state: LinkState)
    | Failed(state: LinkState, out: Outcome)
    | Resolving(state: LinkState)
    | Shaking(next: LinkState)
    | Restoring(next: LinkState)
    | Recovered(next: LinkState)
    | Observing(state: LinkState, out: Outcome)
    | Done(out: Outcome)

  /** One forward; `trace` is what it has sent and the handshakes it has replayed. */
  datatype Call = Call(kind: Kind, attempt: nat, pc: Pc, trace: seq<Ev>)

  datatype State = State(
    resolver: bool,
    first: string,
    link: LinkState,
    err: Option<string>,
    lock: Option<Tid>,
    results: seq<Resolved>,
    calls: map<Tid, Call>,
    initialized: bool,
    clientReady: bool,
    bound: seq<LinkState>)

  function Start(token: string, resolver: bool): State {
    State(resolver, token, LinkState(token, 0), None, None, [], map[], false, false, [])
  }

  datatype Move =
    | Begin(kind: Kind)
    | Send(reply: Reply, ran: bool)
    | Resolve(r: Resolved)
    | Proceed

  predicate Enabled(s: State, t: Tid, m: Move) {
    match m
    case Begin(_) => t !in s.calls
    case Send(reply, ran) => t in s.calls && s.calls[t].pc.Ready? && (ran ==> MayHaveRun(reply))
    case Resolve(_) => t in s.calls && s.calls[t].pc.Resolving?
    case Proceed =>
      t in s.calls &&
      match s.calls[t].pc
      case Failed(_, out) => out.NotInitialized? || s.lock.None?
      case Shaking(_) => true
      case Restoring(_) => true
      case Recovered(_) => true
      case Observing(_, _) => true
      case _ => false
  }

  function Put(s: State, t: Tid, call: Call): State { s.(calls := s.calls[t := call]) }

  /** Where a forward goes with the state it has recovered. */
  function Continue(kind: Kind, next: LinkState): Pc { if kind.Initialize? then Recovered(next) else Shaking(next) }

  function LastSend(trace: seq<Ev>): (e: Option<Ev>)
    ensures e.Some? ==> e.value.Sent?
  {
    if trace == [] then None
    else if trace[|trace| - 1].Sent? then Some(trace[|trace| - 1])
    else LastSend(trace[..|trace| - 1])
  }

  /** A forward that is not sent again answers with its last reply. */
  function GiveUp(call: Call): Call {
    match LastSend(call.trace)
    case Some(e) => call.(pc := Observing(e.state, e.out))
    case None => call
  }

  /** A recovery helps only if it went without error and brought a new generation. */
  function Resume(call: Call, failed: LinkState, r: Recovery): Call {
    if r.err.Some? || r.state.generation == failed.generation then GiveUp(call) else call.(pc := Continue(call.kind, r.state))
  }

  function Take(s: State, t: Tid, m: Move): State
    requires Enabled(s, t, m)
  {
    match m
    case Begin(kind) => Put(s, t, Call(kind, 0, Ready(s.link), []))
    case Send(reply, ran) =>
      var call, out := s.calls[t], Classify(reply);
      var sent := call.(trace := call.trace + [Sent(call.pc.state, out, ran)]);
      Put(s, t, sent.(pc := if Retryable(out) then Failed(call.pc.state, out) else Observing(call.pc.state, out)))
    case Resolve(r) =>
      var call := s.calls[t];
      var next := AfterResolve(s.link, r);
      Put(s.(link := next, err := ErrorOf(r), lock := None, results := s.results + [r]), t,
          Resume(call, call.pc.state, Recovery(next, ErrorOf(r))))
    case Proceed => Advance(s, t)
  }

  function Advance(s: State, t: Tid): State
    requires Enabled(s, t, Proceed)
  {
    var call := s.calls[t];
    match call.pc
    case Failed(state, out) =>
      if out.NotInitialized? then
        Put(s, t, call.(pc := if call.kind.Initialize? then Observing(state, out) else Shaking(state)))
      else if MustResolve(s.link, state.generation, s.resolver) then
        Put(s.(lock := Some(t), err := None), t, call.(pc := Resolving(state)))
      else
        Put(s, t, Resume(call, state, Recovery(s.link, s.err)))
    case Shaking(next) => Put(s, t, call.(pc := Restoring(next), trace := call.trace + [Shook(next)]))
    case Restoring(next) =>
      Put(s.(initialized := true, bound := if s.clientReady then s.bound + [next] else s.bound), t, call.(pc := Recovered(next)))
    case Recovered(next) =>
      if call.attempt + 1 == MAX_ATTEMPTS then Put(s, t, GiveUp(call))
      else Put(s, t, call.(pc := Ready(next), attempt := call.attempt + 1))
    case Observing(state, out) => Observed(Put(s, t, call.(pc := Done(out))), call.kind, state, out)
  }

  /** What a forward that succeeded says about the session. */
  function Observed(s: State, kind: Kind, state: LinkState, out: Outcome): State {
    if !out.Ok? then s
    else if kind.Initialize? then s.(initialized := true)
    else if kind.Initialized? && s.initialized then s.(clientReady := true, bound := s.bound + [state])
    else s
  }

  // ---- What holds in every reachable state ----

  function Sends(trace: seq<Ev>): nat {
    if trace == [] then 0 else Sends(trace[..|trace| - 1]) + if trace[|trace| - 1].Sent? then 1 else 0
  }

  function Runs(trace: seq<Ev>): nat {
    if trace == [] then 0
    else Runs(trace[..|trace| - 1]) + if trace[|trace| - 1].Sent? && trace[|trace| - 1].ran then 1 else 0
  }

  /** A state that a retry after this send may use. */
  predicate Follows(kind: Kind, sent: Ev, next: LinkState) {
    sent.Sent? &&
    match sent.out
    case TransportDown => next.generation > sent.state.generation
    case Unauthorized => next.generation > sent.state.generation
    case NotInitialized => !kind.Initialize? && next == sent.state
    case _ => false
  }

  /** Each send after the first comes after a send it may follow, and unless it is an initialize, right
      after a handshake on the very state it uses. */
  predicate LegalAt(kind: Kind, trace: seq<Ev>, j: nat)
    requires j < |trace|
  {
    match trace[j]
    case Sent(state, _, _) =>
      j == 0 ||
      (if kind.Initialize? then Follows(kind, trace[j - 1], state)
       else j >= 2 && trace[j - 1] == Shook(state) && Follows(kind, trace[j - 2], state))
    case Shook(next) => !kind.Initialize? && j >= 1 && Follows(kind, trace[j - 1], next)
  }

  predicate Legal(kind: Kind, trace: seq<Ev>) { forall j | 0 <= j < |trace| :: LegalAt(kind, trace, j) }

  /** What a forward has done by the time it gets to a place. */
  predicate CallFits(call: Call) {
    var n := |call.trace|;
    && Legal(call.kind, call.trace)
    && match call.pc
       case Ready(state) =>
         && call.attempt < MAX_ATTEMPTS && Sends(call.trace) == call.attempt && Runs(call.trace) == 0
         && (call.attempt == 0 ==> call.trace == [])
         && (call.attempt > 0 ==> ReadyToSend(call.kind, call.trace, state))
       case Failed(state, out) =>
         && Sent1(call) && Runs(call.trace) == 0 && call.trace[n - 1] == Sent(state, out, false) && Retryable(out)
       case Resolving(state) =>
         && Sent1(call) && Runs(call.trace) == 0 && call.trace[n - 1].Sent? && call.trace[n - 1].state == state
         && (call.trace[n - 1].out.TransportDown? || call.trace[n - 1].out.Unauthorized?)
       case Shaking(next) => Sent1(call) && Runs(call.trace) == 0 && !call.kind.Initialize? && Follows(call.kind, call.trace[n - 1], next)
       case Restoring(next) => Sent1(call) && Runs(call.trace) == 0 && !call.kind.Initialize? && ReadyToSend(call.kind, call.trace, next)
       case Recovered(next) => Sent1(call) && Runs(call.trace) == 0 && ReadyToSend(call.kind, call.trace, next)
       case _ => Sends(call.trace) <= MAX_ATTEMPTS && Runs(call.trace) <= 1
  }

  predicate Sent1(call: Call) {
    call.trace != [] && call.attempt < MAX_ATTEMPTS && Sends(call.trace) == call.attempt + 1
  }

  predicate ReadyToSend(kind: Kind, trace: seq<Ev>, next: LinkState) {
    var n := |trace|;
    if kind.Initialize? then n >= 1 && Follows(kind, trace[n - 1], next)
    else n >= 2 && trace[n - 1] == Shook(next) && Follows(kind, trace[n - 2], next)
  }

  /** The state was the link's at some time. */
  predicate Paired(s: State, state: LinkState) {
    state.generation <= |s.results| && state.token == TokenAfter(s.first, s.results[..state.generation])
  }

  function StatesOf(pc: Pc): set<LinkState> {
    match pc
    case Ready(state) => {state}
    case Failed(state, _) => {state}
    case Resolving(state) => {state}
    case Shaking(next) => {next}
    case Restoring(next) => {next}
    case Recovered(next) => {next}
    case Observing(state, _) => {state}
    case Done(_) => {}
  }

  ghost predicate LinkFits(s: State) {
    && s.link == LinkState(TokenAfter(s.first, s.results), |s.results|)
    && (s.lock.None? ==> s.err == if s.results == [] then None else ErrorOf(s.results[|s.results| - 1]))
    && (s.lock.Some? ==> s.lock.value in s.calls && s.calls[s.lock.value].pc == Resolving(s.link) && s.resolver)
  }

  ghost predicate CallsFit(s: State) {
    && (forall t | t in s.calls :: CallFits(s.calls[t]))
    && (forall t, state | t in s.calls && state in StatesOf(s.calls[t].pc) :: Paired(s, state))
    && (forall t, j | t in s.calls && 0 <= j < |s.calls[t].trace| :: Paired(s, s.calls[t].trace[j].state))
    && (forall t | t in s.calls && s.calls[t].pc.Resolving? :: s.lock == Some(t))
    && (forall i | 0 <= i < |s.bound| :: Paired(s, s.bound[i]))
  }

  ghost predicate Inv(s: State) { LinkFits(s) && CallsFit(s) }

  lemma TraceSnoc(kind: Kind, trace: seq<Ev>, e: Ev)
    ensures Sends(trace + [e]) == Sends(trace) + if e.Sent? then 1 else 0
    ensures Runs(trace + [e]) == Runs(trace) + if e.Sent? && e.ran then 1 else 0
    ensures Legal(kind, trace) && LegalAt(kind, trace + [e], |trace|) ==> Legal(kind, trace + [e])
  {
    hide Follows;
    assert (trace + [e])[..|trace|] == trace;
    forall j | 0 <= j < |trace| && LegalAt(kind, trace, j) ensures LegalAt(kind, trace + [e], j) {
      assert forall i | 0 <= i <= j :: (trace + [e])[i] == trace[i];
    }
  }

  /** A forward that moves on without touching the link. */
  lemma Moves(s: State, s': State, t: Tid, call': Call)
    requires Inv(s) && s.lock != Some(t)
    requires s' == s.(calls := s.calls[t := call'], initialized := s'.initialized, clientReady := s'.clientReady, bound := s'.bound)
    requires CallFits(call') && !call'.pc.Resolving?
    requires forall state | state in StatesOf(call'.pc) :: Paired(s, state)
    requires forall j | 0 <= j < |call'.trace| :: Paired(s, call'.trace[j].state)
    requires forall i | 0 <= i < |s'.bound| :: Paired(s, s'.bound[i])
    ensures Inv(s')
  {
    hide CallFits, StatesOf;
    assert forall state :: Paired(s', state) == Paired(s, state);
  }

  lemma CallNow(s: State, t: Tid)
    requires Inv(s) && t in s.calls
    ensures CallFits(s.calls[t])
    ensures forall state | state in StatesOf(s.calls[t].pc) :: Paired(s, state)
    ensures forall j | 0 <= j < |s.calls[t].trace| :: Paired(s, s.calls[t].trace[j].state)
    ensures forall i | 0 <= i < |s.bound| :: Paired(s, s.bound[i])
    ensures Paired(s, s.link)
    ensures s.calls[t].pc.Resolving? <==> s.lock == Some(t)
  {
    hide CallFits, StatesOf;
    assert s.results[..|s.results|] == s.results;
  }

  lemma BeginKeeps(s: State, t: Tid, kind: Kind)
    requires Inv(s) && t !in s.calls
    ensures Inv(Take(s, t, Begin(kind)))
  {
    var call := Call(kind, 0, Ready(s.link), []);
    assert Paired(s, s.link) by { assert s.results[..|s.results|] == s.results; }
    assert CallFits(call);
    assert s.lock != Some(t) && forall i | 0 <= i < |s.bound| :: Paired(s, s.bound[i]);
    hide Inv, CallFits, Paired;
    Moves(s, Put(s, t, call), t, call);
  }

  lemma SendKeeps(s: State, t: Tid, reply: Reply, ran: bool)
    requires Inv(s) && Enabled(s, t, Send(reply, ran))
    ensures Inv(Take(s, t, Send(reply, ran)))
  {
    var call, out := s.calls[t], Classify(reply);
    var sent := call.(trace := call.trace + [Sent(call.pc.state, out, ran)]);
    var call' := sent.(pc := if Retryable(out) then Failed(call.pc.state, out) else Observing(call.pc.state, out));
    CallNow(s, t);
    RetryableDidNotRun(reply);
    SendFits(call, out, ran);
    hide Inv, CallFits, Classify, Paired, MayHaveRun;
    Moves(s, Put(s, t, call'), t, call');
  }

  lemma SendFits(call: Call, out: Outcome, ran: bool)
    requires CallFits(call) && call.pc.Ready? && (Retryable(out) ==> !ran)
    ensures var sent := call.(trace := call.trace + [Sent(call.pc.state, out, ran)]);
            CallFits(sent.(pc := if Retryable(out) then Failed(call.pc.state, out) else Observing(call.pc.state, out)))
  {
    hide Follows;
    TraceSnoc(call.kind, call.trace, Sent(call.pc.state, out, ran));
  }

  lemma ResumeFits(s: State, call: Call, failed: LinkState, r: Recovery)
    requires CallFits(call) && r.state.generation >= failed.generation
    requires call.pc == Resolving(failed) || (call.pc.Failed? && call.pc.state == failed && !call.pc.out.NotInitialized?)
    ensures CallFits(Resume(call, failed, r))
    ensures Resume(call, failed, r).trace == call.trace && Resume(call, failed, r).kind == call.kind
    ensures StatesOf(Resume(call, failed, r).pc) <= {failed, r.state} && !Resume(call, failed, r).pc.Resolving?
  {
    hide Legal;
    assert LastSend(call.trace) == Some(call.trace[|call.trace| - 1]);
  }

  lemma {:induction false} LastSendIn(trace: seq<Ev>)
    ensures Sends(trace) > 0 ==> LastSend(trace).Some?
    ensures LastSend(trace).Some? ==> LastSend(trace).value.Sent? && LastSend(trace).value in trace
  {
    if trace != [] {
      LastSendIn(trace[..|trace| - 1]);
      assert trace == trace[..|trace| - 1] + [trace[|trace| - 1]];
    }
  }

  lemma ResolveKeeps(s: State, t: Tid, r: Resolved)
    requires Inv(s) && Enabled(s, t, Resolve(r))
    ensures Inv(Take(s, t, Resolve(r)))
  {
    hide CallFits, Resume, Paired, StatesOf, AfterResolve;
    var call, s' := s.calls[t], Take(s, t, Resolve(r));
    var next := AfterResolve(s.link, r);
    CallNow(s, t);
    assert call.pc == Resolving(s.link);
    assert next.generation == s.link.generation + 1 && next == LinkState(TokenAfter(s.first, s'.results), |s'.results|) by {
      AfterResolveCounts(s, r);
    }
    ResumeFits(s, call, s.link, Recovery(next, ErrorOf(r)));
    StillPaired(s, s', r);
    assert LinkFits(s') by { hide CallsFit; }
  }

  lemma AfterResolveCounts(s: State, r: Resolved)
    requires LinkFits(s)
    ensures AfterResolve(s.link, r) == LinkState(TokenAfter(s.first, s.results + [r]), |s.results| + 1)
  {
    assert (s.results + [r])[..|s.results|] == s.results;
  }

  /** A resolve leaves earlier generations paired as they were and pairs the new one. */
  lemma StillPaired(s: State, s': State, r: Resolved)
    requires s.link == LinkState(TokenAfter(s.first, s.results), |s.results|)
    requires s'.first == s.first && s'.results == s.results + [r]
    ensures forall state | Paired(s, state) :: Paired(s', state)
    ensures Paired(s', AfterResolve(s.link, r))
  {
    forall state | Paired(s, state) ensures Paired(s', state) {
      assert s'.results[..state.generation] == s.results[..state.generation];
    }
    assert s'.results[..|s.results|] == s.results && s'.results[..|s'.results|] == s'.results;
  }

  lemma LockKeeps(s: State, t: Tid)
    requires Inv(s) && Enabled(s, t, Proceed) && s.calls[t].pc.Failed? && !s.calls[t].pc.out.NotInitialized?
    requires MustResolve(s.link, s.calls[t].pc.state.generation, s.resolver)
    ensures Inv(Advance(s, t))
  {
    var call, s' := s.calls[t], Advance(s, t);
    assert call.pc.state in StatesOf(call.pc);
    assert Paired(s, call.pc.state) && s.results[..|s.results|] == s.results;
    assert call.pc.state == s.link;
    assert CallFits(s'.calls[t]);
    hide CallFits;
    assert forall state :: Paired(s', state) == Paired(s, state);
  }

  lemma FailedKeeps(s: State, t: Tid)
    requires Inv(s) && Enabled(s, t, Proceed) && s.calls[t].pc.Failed?
    ensures Inv(Advance(s, t))
  {
    var call := s.calls[t];
    var state, out := call.pc.state, call.pc.out;
    CallNow(s, t);
    if out.NotInitialized? {
      hide Inv, Paired;
      Moves(s, Advance(s, t), t, call.(pc := if call.kind.Initialize? then Observing(state, out) else Shaking(state)));
    } else if MustResolve(s.link, state.generation, s.resolver) {
      LockKeeps(s, t);
    } else {
      ResumeFits(s, call, state, Recovery(s.link, s.err));
      hide Inv, Resume, CallFits, Paired, StatesOf;
      assert forall next | next in StatesOf(Resume(call, state, Recovery(s.link, s.err)).pc) :: next in {state, s.link};
      Moves(s, Advance(s, t), t, Resume(call, state, Recovery(s.link, s.err)));
    }
  }

  lemma ShakeKeeps(s: State, t: Tid)
    requires Inv(s) && Enabled(s, t, Proceed) && s.calls[t].pc.Shaking?
    ensures Inv(Advance(s, t))
  {
    var call := s.calls[t];
    var next := call.pc.next;
    var call' := call.(pc := Restoring(next), trace := call.trace + [Shook(next)]);
    CallNow(s, t);
    TraceSnoc(call.kind, call.trace, Shook(next));
    assert CallFits(call');
    hide Inv, CallFits, Paired;
    Moves(s, Put(s, t, call'), t, call');
  }

  lemma RestoreKeeps(s: State, t: Tid)
    requires Inv(s) && Enabled(s, t, Proceed) && s.calls[t].pc.Restoring?
    ensures Inv(Advance(s, t))
  {
    var call := s.calls[t];
    var next := call.pc.next;
    var call' := call.(pc := Recovered(next));
    CallNow(s, t);
    assert CallFits(call') by { hide Legal, ReadyToSend; }
    hide Inv, CallFits, Paired;
    Moves(s, Advance(s, t), t, call');
  }

  lemma RecoveredKeeps(s: State, t: Tid)
    requires Inv(s) && Enabled(s, t, Proceed) && s.calls[t].pc.Recovered?
    ensures Inv(Advance(s, t))
  {
    var call := s.calls[t];
    var next := call.pc.next;
    var call' := if call.attempt + 1 == MAX_ATTEMPTS then GiveUp(call)
                 else call.(pc := Ready(next), attempt := call.attempt + 1);
    hide Inv, Paired, CallFits;
    CallNow(s, t);
    RecoveredFits(call);
    LastSendIn(call.trace);
    Moves(s, Put(s, t, call'), t, call');
  }

  lemma RecoveredFits(call: Call)
    requires CallFits(call) && call.pc.Recovered?
    ensures Sends(call.trace) == call.attempt + 1
    ensures call.attempt + 1 == MAX_ATTEMPTS ==> CallFits(GiveUp(call)) && GiveUp(call).pc.Observing?
    ensures call.attempt + 1 != MAX_ATTEMPTS ==> CallFits(call.(pc := Ready(call.pc.next), attempt := call.attempt + 1))
  {
    hide Legal, ReadyToSend;
    LastSendIn(call.trace);
  }

  lemma ObserveKeeps(s: State, t: Tid)
    requires Inv(s) && Enabled(s, t, Proceed) && s.calls[t].pc.Observing?
    ensures Inv(Advance(s, t))
  {
    var call, s' := s.calls[t], Advance(s, t);
    var call' := call.(pc := Done(call.pc.out));
    CallNow(s, t);
    assert CallFits(call') by { hide Inv, Legal; }
    assert call.pc.state in StatesOf(call.pc) && StatesOf(Done(call.pc.out)) == {};
    ObservedFrame(Put(s, t, call'), call.kind, call.pc.state, call.pc.out);
    hide Inv, CallFits, Paired, Observed, StatesOf;
    Moves(s, s', t, call');
  }

  lemma ObservedFrame(s: State, kind: Kind, state: LinkState, out: Outcome)
    ensures var s' := Observed(s, kind, state, out);
            && s' == s.(initialized := s'.initialized, clientReady := s'.clientReady, bound := s'.bound)
            && (s'.bound == s.bound || s'.bound == s.bound + [state])
  {
  }

  lemma SameSetting(s: State, t: Tid, m: Move)
    requires Enabled(s, t, m)
    ensures Take(s, t, m).first == s.first && Take(s, t, m).resolver == s.resolver
  {
    hide Resume, Classify, Continue, MayHaveRun;
  }

  lemma StepKeeps(s: State, t: Tid, m: Move)
    requires Inv(s) && Enabled(s, t, m)
    ensures Inv(Take(s, t, m)) && Take(s, t, m).first == s.first && Take(s, t, m).resolver == s.resolver
  {
    hide Inv;
    SameSetting(s, t, m);
    hide Advance;
    match m
    case Begin(kind) => BeginKeeps(s, t, kind);
    case Send(reply, ran) => SendKeeps(s, t, reply, ran);
    case Resolve(r) => ResolveKeeps(s, t, r);
    case Proceed =>
      match s.calls[t].pc
      case Failed(_, _) => FailedKeeps(s, t);
      case Shaking(_) => ShakeKeeps(s, t);
      case Restoring(_) => RestoreKeeps(s, t);
      case Recovered(_) => RecoveredKeeps(s, t);
      case Observing(_, _) => ObserveKeeps(s, t);
  }

  // ---- Runs ----

  ghost predicate IsStep(s: State, s': State) { exists t, m :: StepBy(s, s', t, m) }

  ghost predicate StepBy(s: State, s': State, t: Tid, m: Move) { Enabled(s, t, m) && s' == Take(s, t, m) }

  ghost predicate IsRun(run: seq<State>, token: string, resolver: bool) {
    run != [] && run[0] == Start(token, resolver) && forall i | 0 <= i < |run| - 1 :: IsStep(run[i], run[i + 1])
  }

  lemma {:induction false} RunKeepsInv(run: seq<State>, token: string, resolver: bool, i: nat)
    requires IsRun(run, token, resolver) && i < |run|
    ensures Inv(run[i]) && run[i].first == token && run[i].resolver == resolver
  {
    if i > 0 {
      RunKeepsInv(run, token, resolver, i - 1);
      hide Inv, Enabled, Take;
      assert IsStep(run[i - 1], run[i - 1 + 1]);
      var t, m :| StepBy(run[i - 1], run[i], t, m);
      StepKeeps(run[i - 1], t, m);
    }
  }

  /** However many forwards recover at once, each message is sent at most three times and executed at most
      once. */
  lemma SentThriceRunOnce(run: seq<State>, token: string, resolver: bool, i: nat, t: Tid)
    requires IsRun(run, token, resolver) && i < |run| && t in run[i].calls
    ensures Sends(run[i].calls[t].trace) <= MAX_ATTEMPTS && Runs(run[i].calls[t].trace) <= 1
  {
    RunKeepsInv(run, token, resolver, i);
    assert CallFits(run[i].calls[t]);
    hide Legal, Follows, ReadyToSend;
  }

  /** A retry after a failed dial or a refused token uses a newer generation than the send that failed; one
      after a lost session uses the same state; and unless the message is an initialize, the retry comes
      right after a handshake on the state it uses. */
  lemma RetriesAreLegal(run: seq<State>, token: string, resolver: bool, i: nat, t: Tid, j: nat)
    requires IsRun(run, token, resolver) && i < |run| && t in run[i].calls
    requires var trace := run[i].calls[t].trace; 0 < j < |trace| && trace[j].Sent?
    ensures var kind, trace := run[i].calls[t].kind, run[i].calls[t].trace;
            && (kind.Initialize? ==> Follows(kind, trace[j - 1], trace[j].state))
            && (!kind.Initialize? ==>
                  j >= 2 && trace[j - 1] == Shook(trace[j].state) && Follows(kind, trace[j - 2], trace[j].state))
  {
    RunKeepsInv(run, token, resolver, i);
    assert CallFits(run[i].calls[t]);
    hide Follows, ReadyToSend, Sends, Runs;
    assert LegalAt(run[i].calls[t].kind, run[i].calls[t].trace, j);
  }

  /** The generation counts the resolves, so each generation is resolved at most once; at most one caller
      resolves at a time, and it is resolving the current generation. */
  lemma GenerationCountsResolves(run: seq<State>, token: string, resolver: bool, i: nat, t: Tid, t': Tid)
    requires IsRun(run, token, resolver) && i < |run| && t in run[i].calls && t' in run[i].calls
    ensures run[i].link.generation == |run[i].results|
    ensures run[i].calls[t].pc.Resolving? ==> run[i].calls[t].pc.state == run[i].link
    ensures run[i].calls[t].pc.Resolving? && run[i].calls[t'].pc.Resolving? ==> t == t'
  {
    RunKeepsInv(run, token, resolver, i);
    hide CallFits;
  }

  /** Every state a forward uses pairs a generation with the token of the last resolve that had succeeded
      by then. */
  lemma SnapshotsPairTokens(run: seq<State>, token: string, resolver: bool, i: nat, t: Tid, j: nat)
    requires IsRun(run, token, resolver) && i < |run| && t in run[i].calls && j < |run[i].calls[t].trace|
    ensures var state := run[i].calls[t].trace[j].state;
            state.generation <= |run[i].results| && state.token == TokenAfter(token, run[i].results[..state.generation])
  {
    RunKeepsInv(run, token, resolver, i);
    hide CallFits;
    assert Paired(run[i], run[i].calls[t].trace[j].state);
  }

  /** A caller that failed on an old generation never resolves; if the last resolve failed, it gives up with
      that error. */
  lemma LateCallersFailFast(run: seq<State>, token: string, resolver: bool, i: nat, t: Tid)
    requires IsRun(run, token, resolver) && i < |run| && Enabled(run[i], t, Proceed)
    requires run[i].calls[t].pc.Failed? && !run[i].calls[t].pc.out.NotInitialized?
    requires run[i].calls[t].pc.state.generation < run[i].link.generation
    ensures var s, s' := run[i], Take(run[i], t, Proceed);
            && s'.results == s.results && s'.lock == s.lock && s'.link == s.link
            && |s.results| > 0
            && (s.results[|s.results| - 1].Failure? ==> s'.calls[t].pc.Observing?)
            && (s.results[|s.results| - 1].Token? ==> s'.calls[t].pc == Continue(s.calls[t].kind, s.link))
  {
    RunKeepsInv(run, token, resolver, i);
    hide CallFits;
  }

  // ---- Why a forward ends ----

  /** The reasons not to send again: the last reply was a success or may have been acted on; the message was
      sent as often as allowed; an initialize has no session to restore; or the link could not be recovered,
      because a resolve failed since or there is no resolver. */
  ghost predicate Reason(s: State, call: Call) {
    LastSend(call.trace).Some? &&
    var e := LastSend(call.trace).value;
    && e.Sent?
    && match e.out
       case Ok => true
       case Other => true
       case NotInitialized => call.kind.Initialize? || Sends(call.trace) == MAX_ATTEMPTS
       case _ =>
         || Sends(call.trace) == MAX_ATTEMPTS
         || !s.resolver
         || exists n | e.state.generation <= n < |s.results| :: s.results[n].Failure?
  }

  /** What a forward has ended with is its last reply. */
  predicate Answers(call: Call) {
    match call.pc
    case Observing(state, out) => LastSend(call.trace).Some? && LastSend(call.trace).value.Sent?
      && LastSend(call.trace).value.state == state && LastSend(call.trace).value.out == out
    case Done(out) => LastSend(call.trace).Some? && LastSend(call.trace).value.Sent? && LastSend(call.trace).value.out == out
    case _ => true
  }

  ghost predicate Reasoned(s: State, call: Call) {
    Answers(call) && (call.pc.Observing? || call.pc.Done? ==> Reason(s, call))
  }

  ghost predicate ReasonedAt(s: State, t: Tid) { t in s.calls && Reasoned(s, s.calls[t]) }

  ghost predicate Reasons(s: State) { forall t | t in s.calls :: Reasoned(s, s.calls[t]) }

  lemma OthersReasoned(s: State, s': State, t: Tid)
    requires Reasons(s) && s'.resolver == s.resolver && s.results <= s'.results
    requires ReasonedAt(s', t) && s'.calls == s.calls[t := s'.calls[t]]
    ensures Reasons(s')
  {
    hide LastSend, Sends, Answers;
    forall t' | t' in s'.calls && t' != t ensures Reasoned(s', s'.calls[t']) { assert Reasoned(s, s.calls[t']); }
  }

  lemma SendReasoned(s: State, t: Tid, reply: Reply, ran: bool)
    requires Enabled(s, t, Send(reply, ran))
    ensures ReasonedAt(Take(s, t, Send(reply, ran)), t)
  {
    hide Sends, Classify, MayHaveRun;
    var call, out := s.calls[t], Classify(reply);
    assert LastSend(call.trace + [Sent(call.pc.state, out, ran)]) == Some(Sent(call.pc.state, out, ran));
  }

  lemma ResumeReasoned(s: State, call: Call, failed: LinkState, r: Recovery)
    requires CallFits(call)
    requires call.pc == Resolving(failed) || (call.pc.Failed? && call.pc.state == failed && !call.pc.out.NotInitialized?)
    requires r.err.Some? ==> !s.resolver || exists n | failed.generation <= n < |s.results| :: s.results[n].Failure?
    requires r.state.generation == failed.generation ==> !s.resolver
    ensures Reasoned(s, Resume(call, failed, r))
  {
    hide Legal, Sends;
    assert LastSend(call.trace) == Some(call.trace[|call.trace| - 1]);
  }

  lemma ResolveReasoned(s: State, t: Tid, r: Resolved)
    requires Inv(s) && Enabled(s, t, Resolve(r))
    ensures ReasonedAt(Take(s, t, Resolve(r)), t)
  {
    hide CallFits, Resume, Reasoned, Paired, StatesOf;
    CallNow(s, t);
    var call, s' := s.calls[t], Take(s, t, Resolve(r));
    assert call.pc == Resolving(s.link);
    assert s'.results[|s.results|] == r;
    ResumeReasoned(s', call, s.link, Recovery(AfterResolve(s.link, r), ErrorOf(r)));
  }

  lemma FailedReasoned(s: State, t: Tid)
    requires Inv(s) && Enabled(s, t, Proceed) && s.calls[t].pc.Failed?
    ensures ReasonedAt(Advance(s, t), t)
  {
    hide CallFits, Resume, Paired, StatesOf, Sends;
    CallNow(s, t);
    var call := s.calls[t];
    var state, out := call.pc.state, call.pc.out;
    if out.NotInitialized? {
      assert LastSend(call.trace) == Some(Sent(state, out, false)) by { FailedLast(call); }
    } else if !MustResolve(s.link, state.generation, s.resolver) {
      assert Paired(s, state) by { assert state in StatesOf(call.pc) by { FailedState(call.pc); } }
      NotAhead(s, state);
      hide Reasoned;
      assert s.err.Some? ==> s.results[|s.results| - 1].Failure?;
      assert s.err.Some? ==> !s.resolver || state.generation <= |s.results| - 1;
      ResumeReasoned(Advance(s, t), call, state, Recovery(s.link, s.err));
    }
  }

  lemma FailedLast(call: Call)
    requires CallFits(call) && call.pc.Failed?
    ensures LastSend(call.trace) == Some(Sent(call.pc.state, call.pc.out, false))
  {
    hide Legal, Sends;
  }

  lemma FailedState(pc: Pc)
    requires pc.Failed?
    ensures pc.state in StatesOf(pc)
  {
  }

  lemma NotAhead(s: State, state: LinkState)
    requires Inv(s) && Paired(s, state)
    ensures state.generation <= s.link.generation == |s.results|
  {
    hide CallsFit;
  }

  lemma RecoveredReasoned(s: State, t: Tid)
    requires Inv(s) && Enabled(s, t, Proceed) && s.calls[t].pc.Recovered?
    ensures ReasonedAt(Advance(s, t), t)
  {
    hide CallFits, Sends, Paired, StatesOf, Legal;
    var call := s.calls[t];
    CallNow(s, t);
    RecoveredFits(call);
    LastSendIn(call.trace);
  }

  lemma ObservingReasoned(s: State, t: Tid)
    requires Reasons(s) && Enabled(s, t, Proceed) && s.calls[t].pc.Observing?
    ensures ReasonedAt(Advance(s, t), t)
  {
    hide Sends, Observed, LastSend;
    var call := s.calls[t];
    assert Reasoned(s, call);
    ObservedFrame(Put(s, t, call.(pc := Done(call.pc.out))), call.kind, call.pc.state, call.pc.out);
  }

  lemma BetweenReasoned(s: State, t: Tid)
    requires Enabled(s, t, Proceed) && (s.calls[t].pc.Shaking? || s.calls[t].pc.Restoring?)
    ensures ReasonedAt(Advance(s, t), t)
  {
    hide Sends, LastSend, Reason;
  }

  lemma AdvanceReasoned(s: State, t: Tid)
    requires Inv(s) && Reasons(s) && Enabled(s, t, Proceed)
    ensures ReasonedAt(Advance(s, t), t)
  {
    hide Inv, Reasons, Sends, LastSend, Reason, ReasonedAt;
    match s.calls[t].pc
    case Failed(_, _) => FailedReasoned(s, t);
    case Recovered(_) => RecoveredReasoned(s, t);
    case Observing(_, _) => ObservingReasoned(s, t);
    case _ => BetweenReasoned(s, t);
  }

  /** A step moves one forward, and no result is forgotten. */
  ghost predicate MovesOne(s: State, s': State, t: Tid) {
    s'.resolver == s.resolver && s.results <= s'.results && t in s'.calls && s'.calls == s.calls[t := s'.calls[t]]
  }

  lemma OnlyCallMoves(s: State, t: Tid, m: Move)
    requires Enabled(s, t, m)
    ensures MovesOne(s, Take(s, t, m), t)
  {
    hide Resume, Classify, Continue, MayHaveRun, GiveUp, Advance;
    if m.Proceed? { OnlyCallAdvances(s, t); }
  }

  lemma OnlyCallAdvances(s: State, t: Tid)
    requires Enabled(s, t, Proceed)
    ensures MovesOne(s, Advance(s, t), t)
  {
    hide Resume, Classify, Continue, MayHaveRun, GiveUp, Observed;
    var call := s.calls[t];
    match call.pc
    case Observing(state, out) => ObservedFrame(Put(s, t, call.(pc := Done(out))), call.kind, state, out);
    case _ =>
  }

  lemma MoverReasoned(s: State, t: Tid, m: Move)
    requires Inv(s) && Reasons(s) && Enabled(s, t, m)
    ensures ReasonedAt(Take(s, t, m), t)
  {
    hide Inv, Reasons, ReasonedAt, Reasoned, Advance;
    match m
    case Begin(kind) => BeginReasoned(s, t, kind);
    case Send(reply, ran) => SendReasoned(s, t, reply, ran);
    case Resolve(r) => ResolveReasoned(s, t, r);
    case Proceed => AdvanceReasoned(s, t);
  }

  lemma StepReasons(s: State, t: Tid, m: Move)
    requires Inv(s) && Reasons(s) && Enabled(s, t, m)
    ensures Reasons(Take(s, t, m))
  {
    hide Inv, Reasons, ReasonedAt, Reasoned, Advance, Take;
    OnlyCallMoves(s, t, m);
    MoverReasoned(s, t, m);
    OthersReasoned(s, Take(s, t, m), t);
  }

  lemma BeginReasoned(s: State, t: Tid, kind: Kind)
    ensures ReasonedAt(Put(s, t, Call(kind, 0, Ready(s.link), [])), t)
  {
  }

  lemma {:induction false} RunReasons(run: seq<State>, token: string, resolver: bool, i: nat)
    requires IsRun(run, token, resolver) && i < |run|
    ensures Reasons(run[i])
  {
    if i > 0 {
      RunReasons(run, token, resolver, i - 1);
      RunKeepsInv(run, token, resolver, i - 1);
      hide Inv, Enabled, Take, Reasons;
      assert IsStep(run[i - 1], run[i - 1 + 1]);
      var t, m :| StepBy(run[i - 1], run[i], t, m);
      StepReasons(run[i - 1], t, m);
    }
  }

  /** A forward ends with its last reply, and only for a reason: it is sent again as long as its last reply
      allows, it was sent less than three times, and the link could be recovered. */
  lemma EndsForAReason(run: seq<State>, token: string, resolver: bool, i: nat, t: Tid)
    requires IsRun(run, token, resolver) && i < |run| && t in run[i].calls
    requires run[i].calls[t].pc.Observing? || run[i].calls[t].pc.Done?
    ensures var call := run[i].calls[t];
            && LastSend(call.trace).Some? && LastSend(call.trace).value.out == call.pc.out
            && Reason(run[i], call)
  {
    RunReasons(run, token, resolver, i);
    assert Reasoned(run[i], run[i].calls[t]);
    hide IsRun, Reasons, LastSend, Sends;
  }

  // ---- What is known of the session ----

  function Shakes(trace: seq<Ev>): nat {
    if trace == [] then 0 else Shakes(trace[..|trace| - 1]) + if trace[|trace| - 1].Shook? then 1 else 0
  }

  /** A forward that has set the session up: an initialize that succeeded, or a handshake replayed to its end. */
  predicate SetsUp(call: Call) {
    || (call.kind.Initialize? && call.pc == Done(Ok))
    || Shakes(call.trace) > (if call.pc.Restoring? then 1 else 0)
  }

  ghost predicate SetUpBy(s: State, t: Tid) { t in s.calls && SetsUp(s.calls[t]) }

  /** A forward that has told the daemon that the client is ready. */
  ghost predicate ReadiedBy(s: State, t: Tid) { t in s.calls && s.calls[t].kind.Initialized? && s.calls[t].pc == Done(Ok) }

  ghost predicate SessionFits(s: State) {
    && (s.initialized <==> exists t :: SetUpBy(s, t))
    && (s.clientReady ==> s.initialized && s.bound != [] && exists t :: ReadiedBy(s, t))
  }

  /** How one step changes what is known of the session, and what its forward has done for it. */
  ghost predicate SessionMoves(s: State, s': State, t: Tid) {
    && (s'.initialized <==> s.initialized || SetUpBy(s', t))
    && (SetUpBy(s, t) ==> SetUpBy(s', t))
    && (ReadiedBy(s, t) ==> ReadiedBy(s', t))
    && (s'.clientReady ==> s.clientReady || (s'.initialized && s'.bound != [] && ReadiedBy(s', t)))
    && |s.bound| <= |s'.bound|
  }

  lemma ShakesSnoc(trace: seq<Ev>, e: Ev)
    ensures Shakes(trace + [e]) == Shakes(trace) + if e.Shook? then 1 else 0
  {
    assert (trace + [e])[..|trace|] == trace;
  }

  lemma SessionFollows(s: State, s': State, t: Tid)
    requires SessionFits(s) && SessionMoves(s, s', t) && MovesOne(s, s', t)
    ensures SessionFits(s')
  {
    hide SetsUp;
    assert forall u | u != t :: SetUpBy(s', u) == SetUpBy(s, u);
    assert forall u | u != t :: ReadiedBy(s', u) == ReadiedBy(s, u);
  }

  lemma SendMovesSession(s: State, t: Tid, reply: Reply, ran: bool)
    requires Enabled(s, t, Send(reply, ran)) && SessionFits(s)
    ensures SessionMoves(s, Take(s, t, Send(reply, ran)), t)
  {
    hide Shakes, Classify, MayHaveRun;
    ShakesSnoc(s.calls[t].trace, Sent(s.calls[t].pc.state, Classify(reply), ran));
    assert SetUpBy(Take(s, t, Send(reply, ran)), t) <==> SetUpBy(s, t);
  }

  lemma ResumeSetsUp(call: Call, failed: LinkState, r: Recovery)
    ensures Resume(call, failed, r).kind == call.kind && Resume(call, failed, r).trace == call.trace
    ensures Resume(call, failed, r).pc == call.pc || (!Resume(call, failed, r).pc.Done? && !Resume(call, failed, r).pc.Restoring?)
  {
  }

  lemma ResolveMovesSession(s: State, t: Tid, r: Resolved)
    requires Enabled(s, t, Resolve(r)) && SessionFits(s)
    ensures SessionMoves(s, Take(s, t, Resolve(r)), t)
  {
    hide Shakes, Resume, AfterResolve;
    ResumeSetsUp(s.calls[t], s.calls[t].pc.state, Recovery(AfterResolve(s.link, r), ErrorOf(r)));
    assert SetUpBy(Take(s, t, Resolve(r)), t) <==> SetUpBy(s, t);
  }

  lemma AdvanceMovesSession(s: State, t: Tid)
    requires Inv(s) && Enabled(s, t, Proceed) && SessionFits(s)
    ensures SessionMoves(s, Advance(s, t), t)
  {
    hide Shakes, Resume, GiveUp, Inv;
    var call := s.calls[t];
    match call.pc
    case Failed(state, out) =>
      ResumeSetsUp(call, state, Recovery(s.link, s.err));
      assert SetUpBy(Advance(s, t), t) <==> SetUpBy(s, t);
    case Shaking(next) =>
      ShakesSnoc(call.trace, Shook(next));
      assert SetUpBy(Advance(s, t), t) <==> SetUpBy(s, t);
    case Restoring(next) => RestoringShook(s, t);
    case Recovered(next) =>
      GiveUpSetsUp(call);
      assert SetUpBy(Advance(s, t), t) <==> SetUpBy(s, t);
    case Observing(_, _) => ObserveMovesSession(s, t);
  }

  lemma ObserveMovesSession(s: State, t: Tid)
    requires Enabled(s, t, Proceed) && SessionFits(s) && s.calls[t].pc.Observing?
    ensures SessionMoves(s, Advance(s, t), t)
  {
    hide Shakes;
    var call, s' := s.calls[t], Advance(s, t);
    assert s'.calls[t] == call.(pc := Done(call.pc.out));
    assert SetUpBy(s', t) <==> SetUpBy(s, t) || (call.kind.Initialize? && call.pc.out.Ok?);
    assert SetUpBy(s, t) ==> s.initialized;
  }

  lemma GiveUpSetsUp(call: Call)
    ensures GiveUp(call).kind == call.kind && GiveUp(call).trace == call.trace
    ensures GiveUp(call).pc == call.pc || GiveUp(call).pc.Observing?
  {
  }

  lemma RestoringShook(s: State, t: Tid)
    requires Inv(s) && t in s.calls && s.calls[t].pc.Restoring?
    ensures Shakes(s.calls[t].trace) > 0
  {
    CallNow(s, t);
    hide Inv, Legal, Follows;
    var trace := s.calls[t].trace;
    assert trace[|trace| - 1].Shook?;
  }

  lemma StepKeepsSession(s: State, t: Tid, m: Move)
    requires Inv(s) && SessionFits(s) && Enabled(s, t, m)
    ensures SessionFits(Take(s, t, m))
  {
    hide Inv, SessionFits, SessionMoves, Advance, MovesOne;
    OnlyCallMoves(s, t, m);
    StepMovesSession(s, t, m);
    SessionFollows(s, Take(s, t, m), t);
  }

  lemma StepMovesSession(s: State, t: Tid, m: Move)
    requires Inv(s) && SessionFits(s) && Enabled(s, t, m)
    ensures SessionMoves(s, Take(s, t, m), t)
  {
    hide Inv, SessionFits, SessionMoves, Advance;
    match m
    case Begin(kind) => BeginMovesSession(s, t, kind);
    case Send(reply, ran) => SendMovesSession(s, t, reply, ran);
    case Resolve(r) => ResolveMovesSession(s, t, r);
    case Proceed => AdvanceMovesSession(s, t);
  }

  lemma BeginMovesSession(s: State, t: Tid, kind: Kind)
    requires t !in s.calls && SessionFits(s)
    ensures SessionMoves(s, Put(s, t, Call(kind, 0, Ready(s.link), [])), t)
  {
    assert !SetsUp(Call(kind, 0, Ready(s.link), []));
  }

  /** The proxy takes the session for set up exactly when some initialize succeeded or some handshake was replayed, and
      follows notifications only once the client has said that it is ready. */
  lemma {:induction false} SessionAsSetUp(run: seq<State>, token: string, resolver: bool, i: nat)
    requires IsRun(run, token, resolver) && i < |run|
    ensures SessionFits(run[i])
  {
    if i > 0 {
      SessionAsSetUp(run, token, resolver, i - 1);
      RunKeepsInv(run, token, resolver, i - 1);
      hide Inv, Enabled, Take, SessionFits;
      assert IsStep(run[i - 1], run[i - 1 + 1]);
      var t, m :| StepBy(run[i - 1], run[i], t, m);
      StepKeepsSession(run[i - 1], t, m);
    }
  }

  /** While the client is ready, each replayed handshake binds the stream to the state it was replayed on. */
  lemma RestoringBinds(s: State, t: Tid)
    requires Enabled(s, t, Proceed) && s.calls[t].pc.Restoring?
    ensures var s' := Advance(s, t);
            s'.initialized && if s.clientReady then s'.bound == s.bound + [s.calls[t].pc.next] else s'.bound == s.bound
  {
  }
}
