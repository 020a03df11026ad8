/** The proxy's notification stream: many callers say which daemon the stream should be on, one runner
    follows them, woken through a channel with one slot. */
module NotificationRunner {
  import opened Options
  import opened Forwarding

  type Sid = nat

  // ---- The shared fields ----

  /** `bound` is whether any caller has said where to connect; `wake` is the token in the channel. */
  datatype Desired = Desired(bound: bool, state: LinkState, wake: bool)

  predicate Outdated(d: Desired, state: LinkState) { d.bound && state.generation < d.state.generation }

  function Bound(d: Desired, state: LinkState): Desired {
    if Outdated(d, state) then d else d.(bound := true, state := state)
  }

  class DesiredStream {
    var bound: bool
    var desired: LinkState
    var wake: bool

    ghost function Fields(): Desired
      reads this
    {
      Desired(bound, desired, wake)
    }

    constructor ()
      ensures !bound && !wake
    {
      bound, desired, wake := false, LinkState("", 0), false;
    }

    method Bind(state: LinkState)
      modifies this
      ensures Fields() == if Outdated(old(Fields()), state) then old(Fields()) else Bound(old(Fields()), state).(wake := true)
      ensures old(bound) ==> bound && old(desired).generation <= desired.generation
    {
      if bound && state.generation < desired.generation { return; }
      bound := true;
      desired := state;
      Signal();
    }

    /** Fills the slot; does nothing when it is full. */
    method Signal()
      modifies this`wake
      ensures wake
    {
      if !wake { wake := true; }
    }
  }

  // ---- The runner and the binders, step by step ----

  /** `Starting` holds the state that was read and is about to be connected to. */
  datatype Pc =
    | Top
    | Starting(state: LinkState)
    | WaitingForBind
    | Waiting(sid: Sid)
    | Woken(sid: Sid)
    | Stopping(sid: Sid, leaving: bool)
    | Delaying
    | Exited

  datatype Stream = Stream(state: LinkState, running: bool, cancelled: bool)

  /** `written` are the callers of Bind between writing the fields and signalling. */
  datatype Machine = Machine(d: Desired, closed: bool, written: set<Tid>, pc: Pc, streams: map<Sid, Stream>)

  const START := Machine(Desired(false, LinkState("", 0), false), false, {}, Top, map[])

  datatype Move =
    | BindWrites(t: Tid, state: LinkState)
    | BindSignals(t: Tid)
    | Closes
    | StreamEnds(sid: Sid)
    | RunnerSteps(newSid: Sid)
    | RunnerWakes
    | RunnerSeesClose
    | RunnerSeesEnd(writerFailed: bool)
    | TimerFires

  predicate Enabled(m: Machine, move: Move) {
    match move
    case BindWrites(t, _) => t !in m.written
    case BindSignals(t) => t in m.written
    case Closes => true
    case StreamEnds(sid) => sid in m.streams && m.streams[sid].running
    case RunnerSteps(newSid) =>
      (match m.pc
       case Top => true
       case Starting(_) => newSid !in m.streams
       case Woken(sid) => sid in m.streams
       case Stopping(sid, _) => sid in m.streams && !m.streams[sid].running
       case _ => false)
    case RunnerWakes => m.d.wake && (m.pc.WaitingForBind? || m.pc.Waiting? || m.pc.Delaying?)
    case RunnerSeesClose => m.closed && (m.pc.WaitingForBind? || (m.pc.Waiting? && m.pc.sid in m.streams) || m.pc.Delaying?)
    case RunnerSeesEnd(_) => m.pc.Waiting? && m.pc.sid in m.streams && !m.streams[m.pc.sid].running
    case TimerFires => m.pc.Delaying?
  }

  function Cancel(m: Machine, sid: Sid): Machine
    requires sid in m.streams
  {
    m.(streams := m.streams[sid := m.streams[sid].(cancelled := true)])
  }

  function Take(m: Machine, move: Move): Machine
    requires Enabled(m, move)
  {
    match move
    case BindWrites(t, state) =>
      if Outdated(m.d, state) then m else m.(d := Bound(m.d, state), written := m.written + {t})
    case BindSignals(t) => m.(d := m.d.(wake := true), written := m.written - {t})
    case Closes => m.(closed := true)
    case StreamEnds(sid) => m.(streams := m.streams[sid := m.streams[sid].(running := false)])
    case RunnerSteps(newSid) =>
      (match m.pc
       case Top => m.(pc := if m.d.bound then Starting(m.d.state) else WaitingForBind)
       case Starting(state) => m.(streams := m.streams[newSid := Stream(state, true, false)], pc := Waiting(newSid))
       case Woken(sid) =>
         if m.d.bound && m.d.state != m.streams[sid].state then Cancel(m, sid).(pc := Stopping(sid, false))
         else m.(pc := Waiting(sid))
       case Stopping(sid, leaving) => m.(pc := if leaving then Exited else Top))
    case RunnerWakes => m.(d := m.d.(wake := false), pc := if m.pc.Waiting? then Woken(m.pc.sid) else Top)
    case RunnerSeesClose =>
      if m.pc.Waiting? then Cancel(m, m.pc.sid).(pc := Stopping(m.pc.sid, true)) else m.(pc := Exited)
    case RunnerSeesEnd(writerFailed) => Cancel(m, m.pc.sid).(pc := if writerFailed then Exited else Delaying)
    case TimerFires => m.(pc := Top)
  }

  // ---- What holds in every reachable state ----

  function ActiveOf(pc: Pc): Option<Sid> {
    match pc
    case Waiting(sid) => Some(sid)
    case Woken(sid) => Some(sid)
    case Stopping(sid, _) => Some(sid)
    case _ => None
  }

  /** The runner believes the stream should be where this says, and will look again only when woken. */
  function Belief(m: Machine): Option<LinkState> {
    match m.pc
    case Starting(state) => Some(state)
    case Waiting(sid) => if sid in m.streams then Some(m.streams[sid].state) else None
    case _ => None
  }

  predicate WakeupDue(m: Machine) { m.d.wake || m.written != {} }

  ghost predicate Inv(m: Machine) {
    && (ActiveOf(m.pc).Some? ==> ActiveOf(m.pc).value in m.streams)
    && (forall sid | sid in m.streams && m.streams[sid].running :: ActiveOf(m.pc) == Some(sid))
    && (Belief(m).Some? && m.d.bound && m.d.state != Belief(m).value ==> WakeupDue(m))
    && (m.pc.WaitingForBind? && m.d.bound ==> WakeupDue(m))
    && (m.pc.Starting? || m.pc.Waiting? || m.pc.Woken? ==> m.d.bound)
    && (m.pc.Stopping? && m.pc.leaving ==> m.closed)
  }

  lemma StepKeeps(m: Machine, move: Move)
    requires Inv(m) && Enabled(m, move)
    ensures Inv(Take(m, move))
  {
    hide Outdated;
    match move
    case BindWrites(_, _) => assert move.t in Take(m, move).written || Take(m, move) == m;
    case RunnerSteps(_) => RunnerKeeps(m, move);
    case _ =>
  }

  lemma RunnerKeeps(m: Machine, move: Move)
    requires Inv(m) && Enabled(m, move) && move.RunnerSteps?
    ensures Inv(Take(m, move))
  {
  }

  /** The generation asked for never decreases, and once some caller has bound the stream it stays bound. */
  lemma GenerationNeverDecreases(m: Machine, move: Move)
    requires Enabled(m, move) && m.d.bound
    ensures Take(m, move).d.bound && m.d.state.generation <= Take(m, move).d.state.generation
  {
  }

  ghost predicate IsStep(m: Machine, m': Machine) { exists move :: StepBy(m, m', move) }

  ghost predicate StepBy(m: Machine, m': Machine, move: Move) { Enabled(m, move) && m' == Take(m, move) }

  ghost predicate IsRun(run: seq<Machine>) {
    run != [] && run[0] == START && forall i | 0 <= i < |run| - 1 :: IsStep(run[i], run[i + 1])
  }

  lemma {:induction false} RunKeepsInv(run: seq<Machine>, i: nat)
    requires IsRun(run) && i < |run|
    ensures Inv(run[i])
  {
    hide Inv, Enabled, Take;
    if i == 0 {
      assert Inv(START) by { StartFits(); }
    } else {
      RunKeepsInv(run, i - 1);
      assert IsStep(run[i - 1], run[i - 1 + 1]);
      var move :| StepBy(run[i - 1], run[i], move);
      StepKeeps(run[i - 1], move);
    }
  }

  lemma StartFits()
    ensures Inv(START)
  {
  }

  /** Over a whole run, for every interleaving of Bind calls. */
  lemma {:induction false} DesiredIsMonotone(run: seq<Machine>, i: nat, j: nat)
    requires IsRun(run) && i <= j < |run| && run[i].d.bound
    ensures run[j].d.bound && run[i].d.state.generation <= run[j].d.state.generation
    decreases j
  {
    hide Enabled, Take;
    if i < j {
      DesiredIsMonotone(run, i, j - 1);
      assert IsStep(run[j - 1], run[j - 1 + 1]);
      var move :| StepBy(run[j - 1], run[j], move);
      GenerationNeverDecreases(run[j - 1], move);
    }
  }

  /** At most one stream is alive, and none once the runner has left. */
  lemma OneStreamAtMost(run: seq<Machine>, i: nat, a: Sid, b: Sid)
    requires IsRun(run) && i < |run|
    requires a in run[i].streams && run[i].streams[a].running
    ensures !run[i].pc.Exited?
    ensures b in run[i].streams && run[i].streams[b].running ==> a == b
  {
    RunKeepsInv(run, i);
    hide IsRun;
  }

  /** No wakeup is lost: a runner blocked on a stream that is not the one asked for, or blocked waiting to
      be told, has a token to find or a caller about to leave one. */
  lemma NoLostWakeup(run: seq<Machine>, i: nat)
    requires IsRun(run) && i < |run| && run[i].d.bound
    requires var m := run[i];
             m.pc.WaitingForBind? || (m.pc.Waiting? && m.pc.sid in m.streams && m.streams[m.pc.sid].state != m.d.state)
    ensures run[i].d.wake || exists t: Tid :: t in run[i].written
  {
    RunKeepsInv(run, i);
    hide IsRun;
  }

  /** Once nobody is in the middle of a Bind and no token is left, a runner that waits on a stream is on the
      one asked for last. */
  lemma SettledOnDesired(run: seq<Machine>, i: nat)
    requires IsRun(run) && i < |run| && run[i].written == {} && !run[i].d.wake && run[i].pc.Waiting?
    ensures run[i].pc.sid in run[i].streams
    ensures run[i].d.bound && run[i].streams[run[i].pc.sid].state == run[i].d.state
  {
    RunKeepsInv(run, i);
    hide IsRun;
  }

  // ---- Which state is the one asked for ----

  /** The moves that make a run. */
  ghost predicate Makes(moves: seq<Move>, run: seq<Machine>) {
    && |run| == |moves| + 1 && run[0] == START
    && forall i | 0 <= i < |moves| :: StepBy(run[i], run[i + 1], moves[i])
  }

  lemma {:induction false} RunIsMade(run: seq<Machine>) returns (moves: seq<Move>)
    requires IsRun(run)
    ensures Makes(moves, run)
  {
    hide Enabled, Take;
    if |run| == 1 {
      moves := [];
    } else {
      var n := |run| - 1;
      var most := run[..n];
      assert forall i | 0 <= i < n - 1 :: IsStep(most[i], most[i + 1]) by {
        assert forall i | 0 <= i < n - 1 :: IsStep(run[i], run[i + 1]);
      }
      moves := RunIsMade(most);
      assert IsStep(run[n - 1], run[n - 1 + 1]);
      var move :| StepBy(run[n - 1], run[n], move);
      moves := moves + [move];
    }
  }

  /** The `k`-th move asks for `state`, and none of the first `n` asks for a newer generation, nor a later one for
      the same. */
  ghost predicate AsksLast(moves: seq<Move>, n: nat, k: int, state: LinkState)
    requires n <= |moves|
  {
    && 0 <= k < n && moves[k].BindWrites? && moves[k].state == state
    && forall j | 0 <= j < n && moves[j].BindWrites? ::
         moves[j].state.generation <= state.generation && (j > k ==> moves[j].state.generation < state.generation)
  }

  /** In every run the stream is asked to be on the newest state that any caller has named, and of several with
      its generation on the one named last. */
  lemma {:induction false} DesiredIsNewest(moves: seq<Move>, run: seq<Machine>, i: nat)
    requires Makes(moves, run) && i < |run|
    ensures run[i].d.bound <==> exists k :: 0 <= k < i && moves[k].BindWrites?
    ensures run[i].d.bound ==> exists k :: AsksLast(moves, i, k, run[i].d.state)
  {
    hide Enabled;
    if i > 0 {
      DesiredIsNewest(moves, run, i - 1);
      var m, move := run[i - 1], moves[i - 1];
      assert StepBy(m, run[i - 1 + 1], move);
      if move.BindWrites? {
        if m.d.bound {
          var k :| AsksLast(moves, i - 1, k, m.d.state);
          assert AsksLast(moves, i, if move.state.generation < m.d.state.generation then k else i - 1, run[i].d.state);
        } else {
          assert AsksLast(moves, i, i - 1, run[i].d.state);
        }
      } else {
        OnlyBindAsks(m, move);
        if m.d.bound {
          var k :| AsksLast(moves, i - 1, k, m.d.state);
          assert AsksLast(moves, i, k, run[i].d.state);
        }
      }
    }
  }

  lemma OnlyBindAsks(m: Machine, move: Move)
    requires Enabled(m, move) && !move.BindWrites?
    ensures Take(m, move).d.bound == m.d.bound && Take(m, move).d.state == m.d.state
  {
  }

  /** The runner leaves only when it was told to, or when the client can no longer be written to. */
  ghost predicate MayLeave(moves: seq<Move>, n: nat, m: Machine)
    requires n <= |moves|
  {
    m.closed || exists k | 0 <= k < n :: moves[k].RunnerSeesEnd? && moves[k].writerFailed
  }

  lemma {:induction false} LeavesForAReason(moves: seq<Move>, run: seq<Machine>, i: nat)
    requires Makes(moves, run) && i < |run| && run[i].pc.Exited?
    ensures MayLeave(moves, i, run[i])
  {
    hide Enabled;
    var m, move := run[i - 1], moves[i - 1];
    assert StepBy(m, run[i - 1 + 1], move);
    MadeKeepsInv(moves, run, i - 1);
    if m.pc.Exited? { LeavesForAReason(moves, run, i - 1); }
    ClosedStays(m, move);
    if !m.pc.Exited? { WhoLeaves(m, move); }
  }

  lemma MadeKeepsInv(moves: seq<Move>, run: seq<Machine>, i: nat)
    requires Makes(moves, run) && i < |run|
    ensures Inv(run[i])
  {
    hide Enabled, Take, Inv;
    forall j | 0 <= j < |run| - 1 ensures IsStep(run[j], run[j + 1]) { assert StepBy(run[j], run[j + 1], moves[j]); }
    RunKeepsInv(run, i);
  }

  lemma ClosedStays(m: Machine, move: Move)
    requires Enabled(m, move)
    ensures m.closed ==> Take(m, move).closed
  {
  }

  lemma WhoLeaves(m: Machine, move: Move)
    requires Inv(m) && Enabled(m, move) && Take(m, move).pc.Exited? && !m.pc.Exited?
    ensures Take(m, move).closed || (move.RunnerSeesEnd? && move.writerFailed)
  {
    hide Outdated;
  }
}
