/**
 * A value model of one `RitualStateMachine`: its session id, current state and
 * history, and what `transition` and `force_reset` make of them
 * (backend/agent/tools.py). The class in RitualMachines is proved to follow it.
 */
module RitualHistory {
  import opened RitualStates

  datatype MachineView = MachineView(
    sessionId: string,
    current: RitualState,
    history: seq<RitualStateEvent>)

  /** A machine as the dataclass builds it: IDLE, with an empty history. */
  function FreshView(sessionId: string): MachineView
  {
    MachineView(sessionId, Idle, [])
  }

  /** The state a history leaves a machine in: IDLE until something is recorded. */
  function StateAfter(history: seq<RitualStateEvent>): RitualState
  {
    if history == [] then Idle else history[|history| - 1].state
  }

  /**
   * The machine invariant: the current state is the state of the last recorded
   * event (IDLE while nothing is recorded), and every event names this session.
   */
  ghost predicate Consistent(m: MachineView)
  {
    m.current == StateAfter(m.history) &&
    forall i :: 0 <= i < |m.history| ==> m.history[i].sessionId == m.sessionId
  }

  /** One call on the machine: `transition(target, payload)` or `force_reset()`, at clock reading `now`. */
  datatype Op =
    | TransitionOp(target: RitualState, payload: Payload, now: int)
    | ForceResetOp(now: int)

  /** The event a successful call appends. */
  function EventOf(m: MachineView, op: Op): RitualStateEvent
  {
    match op
    case TransitionOp(target, payload, now) => RitualStateEvent(target, m.sessionId, now, payload)
    case ForceResetOp(now) => RitualStateEvent(Idle, m.sessionId, now, ForcedPayload)
  }

  /** Whether the call returns normally: a reset always does, a transition when the table allows it. */
  predicate Succeeds(m: MachineView, op: Op)
  {
    op.ForceResetOp? || CanTransition(m.current, op.target)
  }

  /**
   * The machine after the call: a call that returns normally moves to its event's
   * state and appends that event; a call that raises changes nothing.
   */
  function ApplyOp(m: MachineView, op: Op): MachineView
  {
    if Succeeds(m, op) then
      var e := EventOf(m, op);
      MachineView(m.sessionId, e.state, m.history + [e])
    else m
  }

  /** The machine after a sequence of calls, raising ones included. */
  function Replay(m: MachineView, ops: seq<Op>): MachineView
    decreases |ops|
  {
    if ops == [] then m else Replay(ApplyOp(m, ops[0]), ops[1..])
  }

  /** How many of the calls returned normally. */
  function SuccessCount(m: MachineView, ops: seq<Op>): nat
    decreases |ops|
  {
    if ops == [] then 0
    else (if Succeeds(m, ops[0]) then 1 else 0) + SuccessCount(ApplyOp(m, ops[0]), ops[1..])
  }

  /**
   * Every call keeps the machine invariant and the session id, and leaves the
   * earlier history as it was: the history grows by exactly the call's event
   * when it returns normally, and by nothing when it raises.
   */
  lemma ApplyOpConsistent(m: MachineView, op: Op)
    requires Consistent(m)
    ensures Consistent(ApplyOp(m, op))
    ensures ApplyOp(m, op).sessionId == m.sessionId
    ensures |ApplyOp(m, op).history| == |m.history| + (if Succeeds(m, op) then 1 else 0)
    ensures ApplyOp(m, op).history[..|m.history|] == m.history
  {
    var r := ApplyOp(m, op);
    assert r.history[..|m.history|] == m.history;
    if Succeeds(m, op) {
      assert forall i :: 0 <= i < |m.history| ==> r.history[i] == m.history[i];
    }
  }

  /** The invariant holds after any sequence of calls; a fresh machine has it. */
  lemma {:induction false} ReplayConsistent(m: MachineView, ops: seq<Op>)
    requires Consistent(m)
    ensures Consistent(Replay(m, ops))
    decreases |ops|
  {
    if ops != [] {
      ApplyOpConsistent(m, ops[0]);
      ReplayConsistent(ApplyOp(m, ops[0]), ops[1..]);
    }
  }

  /**
   * History is append-only: earlier entries are never changed, and it grows by
   * exactly one event per call that returned normally.
   */
  lemma {:induction false} ReplayHistory(m: MachineView, ops: seq<Op>)
    ensures Replay(m, ops).sessionId == m.sessionId
    ensures |Replay(m, ops).history| == |m.history| + SuccessCount(m, ops)
    ensures Replay(m, ops).history[..|m.history|] == m.history
    decreases |ops|
  {
    if ops != [] {
      var m' := ApplyOp(m, ops[0]);
      ReplayHistory(m', ops[1..]);
      assert m'.history[..|m.history|] == m.history;
      var h := Replay(m, ops).history;
      assert h[..|m'.history|] == m'.history;
      assert h[..|m.history|] == h[..|m'.history|][..|m.history|];
    }
  }

  /**
   * Starting from a fresh machine, the history length is the number of
   * successful transitions plus resets, and the state is the last event's.
   */
  lemma FreshReplay(sessionId: string, ops: seq<Op>)
    ensures |Replay(FreshView(sessionId), ops).history| == SuccessCount(FreshView(sessionId), ops)
    ensures Replay(FreshView(sessionId), ops).current == StateAfter(Replay(FreshView(sessionId), ops).history)
  {
    ReplayHistory(FreshView(sessionId), ops);
    ReplayConsistent(FreshView(sessionId), ops);
  }

  /** Replaying a longer sequence is replaying its prefix and then the last call. */
  lemma {:induction false} ReplaySnoc(m: MachineView, ops: seq<Op>, op: Op)
    ensures Replay(m, ops + [op]) == ApplyOp(Replay(m, ops), op)
    ensures SuccessCount(m, ops + [op]) == SuccessCount(m, ops) + (if Succeeds(Replay(m, ops), op) then 1 else 0)
    decreases |ops|
  {
    if ops == [] {
      assert ([] + [op])[1..] == [];
    } else {
      assert (ops + [op])[0] == ops[0];
      assert (ops + [op])[1..] == ops[1..] + [op];
      ReplaySnoc(ApplyOp(m, ops[0]), ops[1..], op);
    }
  }

  /** Replaying two sequences one after the other is replaying their concatenation. */
  lemma {:induction false} ReplayAppend(m: MachineView, a: seq<Op>, b: seq<Op>)
    ensures Replay(m, a + b) == Replay(Replay(m, a), b)
    ensures SuccessCount(m, a + b) == SuccessCount(m, a) + SuccessCount(Replay(m, a), b)
    decreases |a|
  {
    if a == [] {
      assert a + b == b;
    } else {
      assert (a + b)[0] == a[0];
      assert (a + b)[1..] == a[1..] + b;
      ReplayAppend(ApplyOp(m, a[0]), a[1..], b);
    }
  }

  /** A forced reset returns normally from every state and lands in IDLE with the forced marker. */
  lemma ForceResetFromAnyState(m: MachineView, now: int)
    ensures Succeeds(m, ForceResetOp(now))
    ensures ApplyOp(m, ForceResetOp(now)).current == Idle
    ensures ApplyOp(m, ForceResetOp(now)).history
      == m.history + [RitualStateEvent(Idle, m.sessionId, now, ForcedPayload)]
  {
  }
}
