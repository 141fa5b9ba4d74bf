/**
 * The pacing orchestration `chat` / `chat_with_state` (backend/agent/graph.py):
 * repair the session if it was left mid-ritual, drive it through INVOKED and
 * CONTEMPLATING, let the agent answer, sleep out what is left of the drawn
 * contemplation delay, and drive it through REVEALING to COMPLETE.
 *
 * The agent call, the clock and the random draw come in as parameters: `outcome`
 * is what `app.invoke` returned or raised, `elapsed` the measured duration of that
 * call, `now` the clock reading on entry, and `delay` the drawn contemplation delay,
 * all durations in milliseconds.
 */
module Pacing {
  import opened Wrappers
  import opened RitualStates
  import opened RitualHistory
  import opened RitualMachines

  /** `TIMING_CONFIG`, in milliseconds. */
  const ContemplationMinMs: int := 1500
  const ContemplationMaxMs: int := 4000
  /** Declared in `TIMING_CONFIG` but read nowhere in `chat`; kept here as documentation only. */
  const CompleteToIdleMs: int := 2000
  const LlmTimeoutMs: int := 30000

  /** What the agent call did: returned its message list (their contents), or raised. */
  datatype AgentOutcome = Replied(messages: seq<string>) | Raised(error: string)

  /** Why `chat` raised: the agent call raised, or its message list was empty (`[-1]` fails). */
  datatype ChatError = AgentFailed(error: string) | NoMessages

  /** What `chat` returns, together with the duration it slept. */
  datatype ChatReply = ChatReply(response: string, slept: nat)

  function Max(a: int, b: int): int
  {
    if a < b then b else a
  }

  /**
   * The sleep after the agent call: `delay - elapsed` when that is positive, else
   * none. The delay is a floor on the total: a fast call is padded up to it and a
   * slow call is never shortened.
   */
  function SleepDuration(delay: int, elapsed: int): (d: nat)
    ensures elapsed + d == Max(delay, elapsed)
    ensures d > 0 <==> elapsed < delay
    ensures 0 <= elapsed ==> d <= Max(delay, 0)
  {
    var remaining := delay - elapsed;
    if remaining > 0 then remaining else 0
  }

  /** The calls `chat` makes before the agent call: a reset when needed, then INVOKED and CONTEMPLATING. */
  function InvocationOps(accepting: bool, now: int): seq<Op>
  {
    (if accepting then [] else [ForceResetOp(now)]) +
    [TransitionOp(Invoked, NoPayload, now), TransitionOp(Contemplating, NoPayload, now)]
  }

  /** The calls `chat` makes after the sleep: REVEALING with the response, then COMPLETE. */
  function RevelationOps(response: string, at: int): seq<Op>
  {
    [TransitionOp(Revealing, ResponsePayload(response), at), TransitionOp(Complete, NoPayload, at)]
  }

  /** The events the reset (if needed), INVOKED and CONTEMPLATING record. */
  function InvocationEvents(sessionId: string, accepting: bool, now: int): seq<RitualStateEvent>
  {
    (if accepting then [] else [RitualStateEvent(Idle, sessionId, now, ForcedPayload)]) +
    [RitualStateEvent(Invoked, sessionId, now, NoPayload),
     RitualStateEvent(Contemplating, sessionId, now, NoPayload)]
  }

  /** The events REVEALING and COMPLETE record. */
  function RevelationEvents(sessionId: string, response: string, at: int): seq<RitualStateEvent>
  {
    [RitualStateEvent(Revealing, sessionId, at, ResponsePayload(response)),
     RitualStateEvent(Complete, sessionId, at, NoPayload)]
  }

  /** The events a successful `chat` records. */
  function ChatEvents(sessionId: string, accepting: bool, response: string, now: int, at: int): seq<RitualStateEvent>
  {
    InvocationEvents(sessionId, accepting, now) + RevelationEvents(sessionId, response, at)
  }

  /** The reset guard at the top of `chat`: a session that is not accepting input is force-reset. */
  function Guarded(m: MachineView, now: int): MachineView
  {
    if Accepting(m.current) then m else ApplyOp(m, ForceResetOp(now))
  }

  /** The session after the guard and the INVOKED and CONTEMPLATING calls. */
  function Invocation(m: MachineView, now: int): MachineView
  {
    ApplyOp(ApplyOp(Guarded(m, now), TransitionOp(Invoked, NoPayload, now)),
            TransitionOp(Contemplating, NoPayload, now))
  }

  /** The session after the REVEALING and COMPLETE calls. */
  function Revelation(m: MachineView, response: string, at: int): MachineView
  {
    ApplyOp(ApplyOp(m, TransitionOp(Revealing, ResponsePayload(response), at)),
            TransitionOp(Complete, NoPayload, at))
  }

  /**
   * The reset guard makes INVOKED legal: from any state, the guard, INVOKED and
   * CONTEMPLATING leave the session in CONTEMPLATING with the reset (if needed)
   * and the two transitions recorded.
   */
  lemma InvocationEffect(m: MachineView, now: int)
    ensures var v := Invocation(m, now);
      v.sessionId == m.sessionId &&
      v.current == Contemplating &&
      v.history == m.history + InvocationEvents(m.sessionId, Accepting(m.current), now)
  {
    var g := Guarded(m, now);
    assert Accepting(g.current);
    assert g.history == m.history + (if Accepting(m.current) then [] else [RitualStateEvent(Idle, m.sessionId, now, ForcedPayload)]);
  }

  /** From CONTEMPLATING, REVEALING and COMPLETE are recorded and the session ends COMPLETE. */
  lemma RevelationEffect(m: MachineView, response: string, at: int)
    requires m.current == Contemplating
    ensures var v := Revelation(m, response, at);
      v.sessionId == m.sessionId &&
      v.current == Complete &&
      v.history == m.history + RevelationEvents(m.sessionId, response, at)
  {
  }

  /**
   * The whole consultation, from any state: the session ends COMPLETE, with the
   * reset (if needed) and the four transitions recorded, 4 or 5 new events.
   */
  lemma ConsultationEffect(m: MachineView, response: string, now: int, at: int)
    ensures var v := Revelation(Invocation(m, now), response, at);
      v.sessionId == m.sessionId &&
      v.current == Complete &&
      v.history == m.history + ChatEvents(m.sessionId, Accepting(m.current), response, now, at) &&
      |v.history| == |m.history| + (if Accepting(m.current) then 4 else 5)
  {
    var acc := Accepting(m.current);
    var i := Invocation(m, now);
    InvocationEffect(m, now);
    RevelationEffect(i, response, at);
    var inv := InvocationEvents(m.sessionId, acc, now);
    var rev := RevelationEvents(m.sessionId, response, at);
    assert (m.history + inv) + rev == m.history + (inv + rev);
  }

  /** The first part of `chat` is the replay of `InvocationOps`, and every one of those calls succeeds. */
  lemma InvocationReplay(m: MachineView, now: int)
    ensures var ops := InvocationOps(Accepting(m.current), now);
      Replay(m, ops) == Invocation(m, now) &&
      SuccessCount(m, ops) == |ops|
  {
    var acc := Accepting(m.current);
    var g := Guarded(m, now);
    var guard: seq<Op> := if acc then [] else [ForceResetOp(now)];
    if acc {
      assert Replay(m, guard) == g;
    } else {
      ReplaySnoc(m, [], ForceResetOp(now));
      assert [] + [ForceResetOp(now)] == guard;
      assert Replay(m, guard) == g;
    }
    assert SuccessCount(m, guard) == |guard|;
    var op1 := TransitionOp(Invoked, NoPayload, now);
    var op2 := TransitionOp(Contemplating, NoPayload, now);
    var g1 := ApplyOp(g, op1);
    assert Succeeds(g, op1) && g1.current == Invoked;
    assert Succeeds(g1, op2);
    ReplaySnoc(m, guard, op1);
    var ops1 := guard + [op1];
    ReplaySnoc(m, ops1, op2);
    assert ops1 + [op2] == InvocationOps(acc, now);
  }

  /** From CONTEMPLATING, the last part of `chat` is the replay of `RevelationOps`, and both calls succeed. */
  lemma RevelationReplay(m: MachineView, response: string, at: int)
    requires m.current == Contemplating
    ensures var ops := RevelationOps(response, at);
      Replay(m, ops) == Revelation(m, response, at) &&
      SuccessCount(m, ops) == |ops|
  {
    var op1 := TransitionOp(Revealing, ResponsePayload(response), at);
    ReplaySnoc(m, [], op1);
    assert [] + [op1] == [op1];
    ReplaySnoc(m, [op1], TransitionOp(Complete, NoPayload, at));
    assert [op1] + [TransitionOp(Complete, NoPayload, at)] == RevelationOps(response, at);
  }

  /**
   * None of the calls `chat` makes raises: after the guard, INVOKED,
   * CONTEMPLATING, REVEALING and COMPLETE all succeed, 4 calls in all, or 5 when a
   * reset was needed.
   */
  lemma ChatOpsSucceed(m: MachineView, response: string, now: int, at: int)
    ensures var ops := InvocationOps(Accepting(m.current), now) + RevelationOps(response, at);
      SuccessCount(m, ops) == |ops| == (if Accepting(m.current) then 4 else 5) &&
      Replay(m, ops) == Revelation(Invocation(m, now), response, at)
  {
    var inv := InvocationOps(Accepting(m.current), now);
    InvocationReplay(m, now);
    InvocationEffect(m, now);
    RevelationReplay(Invocation(m, now), response, at);
    ReplayAppend(m, inv, RevelationOps(response, at));
  }

  /**
   * The result of `chat` and the session it leaves, from the session it finds:
   * each step is the machine call `chat` makes at that point.
   */
  function ChatEffect(m: MachineView, delay: int, outcome: AgentOutcome, elapsed: int, now: int)
    : (r: (Result<ChatReply, ChatError>, MachineView))
    ensures r.0.Err? <==> outcome.Raised? || outcome.messages == []
    ensures outcome.Raised? ==> r.0 == Err(AgentFailed(outcome.error))
    ensures outcome.Replied? && outcome.messages == [] ==> r.0 == Err(NoMessages)
    ensures r.0.Ok? ==>
      r.0.value.response == outcome.messages[|outcome.messages| - 1] &&
      elapsed + r.0.value.slept == Max(delay, elapsed)
    ensures r.1.sessionId == m.sessionId
    ensures r.1.current == (if r.0.Ok? then Complete else Contemplating)
  {
    var contemplating := Invocation(m, now);
    InvocationEffect(m, now);
    match outcome
    case Raised(error) => (Err(AgentFailed(error)), contemplating)
    case Replied(messages) =>
      var slept := SleepDuration(delay, elapsed);
      if messages == [] then (Err(NoMessages), contemplating)
      else
        var response := messages[|messages| - 1];
        var at := now + elapsed + slept;
        RevelationEffect(contemplating, response, at);
        (Ok(ChatReply(response, slept)), Revelation(contemplating, response, at))
  }

  /**
   * `ChatEffect` from its steps: the session after INVOKED and CONTEMPLATING, and
   * then, when the agent replied, after REVEALING and COMPLETE at the end of the sleep.
   */
  lemma ChatEffectFrom(m: MachineView, delay: int, outcome: AgentOutcome, elapsed: int, now: int,
                       r: Result<ChatReply, ChatError>, v: MachineView)
    requires outcome.Raised? ==> r == Err(AgentFailed(outcome.error)) && v == Invocation(m, now)
    requires outcome.Replied? && outcome.messages == [] ==> r == Err(NoMessages) && v == Invocation(m, now)
    requires outcome.Replied? && outcome.messages != [] ==>
      var response := outcome.messages[|outcome.messages| - 1];
      var slept := SleepDuration(delay, elapsed);
      r == Ok(ChatReply(response, slept)) && v == Revelation(Invocation(m, now), response, now + elapsed + slept)
    ensures (r, v) == ChatEffect(m, delay, outcome, elapsed, now)
  {
  }

  /**
   * When the agent call raises, or returns no message, `chat` raises too: it has
   * made the calls of `InvocationOps`, all of them successful, and leaves the
   * session in CONTEMPLATING, from where the next `chat` resets it.
   */
  lemma ChatEffectOnFailure(m: MachineView, delay: int, outcome: AgentOutcome, elapsed: int, now: int)
    requires outcome.Raised? || outcome.messages == []
    ensures var (r, m') := ChatEffect(m, delay, outcome, elapsed, now);
      r == (if outcome.Raised? then Err(AgentFailed(outcome.error)) else Err(NoMessages)) &&
      m' == Replay(m, InvocationOps(Accepting(m.current), now)) &&
      m'.sessionId == m.sessionId &&
      m'.current == Contemplating &&
      !Accepting(m'.current)
  {
    InvocationReplay(m, now);
    InvocationEffect(m, now);
  }

  /**
   * When the agent call returns messages, `chat` returns the last one's content,
   * having slept so that the agent call plus the sleep last `max(delay, elapsed)`.
   * Its calls are those of `InvocationOps` and `RevelationOps`, all successful; the
   * session ends COMPLETE with the reset (if one was needed) and the four
   * transitions recorded. REVEALING carries the response, and it and COMPLETE are
   * stamped `max(delay, elapsed)` after the start.
   */
  lemma ChatEffectOnReply(m: MachineView, delay: int, messages: seq<string>, elapsed: int, now: int)
    requires messages != []
    ensures var (r, m') := ChatEffect(m, delay, Replied(messages), elapsed, now);
      var acc := Accepting(m.current);
      var response := messages[|messages| - 1];
      var at := now + Max(delay, elapsed);
      r.Ok? &&
      r.value.response == response &&
      elapsed + r.value.slept == Max(delay, elapsed) &&
      m'.current == Complete &&
      m'.history == m.history + ChatEvents(m.sessionId, acc, response, now, at) &&
      |m'.history| == |m.history| + (if acc then 4 else 5)
  {
    var response := messages[|messages| - 1];
    var at := now + Max(delay, elapsed);
    var slept := SleepDuration(delay, elapsed);
    assert now + elapsed + slept == at;
    ChatEffectFrom(m, delay, Replied(messages), elapsed, now,
                   Ok(ChatReply(response, slept)), Revelation(Invocation(m, now), response, at));
    ConsultationEffect(m, response, now, at);
  }

  /**
   * A session left in CONTEMPLATING by a failed agent call is repaired by the
   * next `chat`: it is force-reset first (the forced IDLE event comes right after
   * the old history) and the consultation then completes with five new events.
   */
  lemma RetryAfterFailure(m: MachineView, delay: int, failed: AgentOutcome, elapsed: int, now: int,
                          delay2: int, messages: seq<string>, elapsed2: int, now2: int)
    requires failed.Raised? || failed.messages == []
    requires messages != []
    ensures var m1 := ChatEffect(m, delay, failed, elapsed, now).1;
      var (r2, m2) := ChatEffect(m1, delay2, Replied(messages), elapsed2, now2);
      r2.Ok? &&
      m2.current == Complete &&
      |m2.history| == |m1.history| + 5 &&
      m2.history[|m1.history|] == RitualStateEvent(Idle, m.sessionId, now2, ForcedPayload)
  {
    var m1 := ChatEffect(m, delay, failed, elapsed, now).1;
    ChatEffectOnFailure(m, delay, failed, elapsed, now);
    ChatEffectOnReply(m1, delay2, messages, elapsed2, now2);
    var m2 := ChatEffect(m1, delay2, Replied(messages), elapsed2, now2).1;
    var at := now2 + Max(delay2, elapsed2);
    assert m2.history[|m1.history|]
      == ChatEvents(m1.sessionId, false, messages[|messages| - 1], now2, at)[0];
  }

  /** The first half of `chat`'s machine calls: the reset guard, INVOKED, CONTEMPLATING. */
  method Invoke(ritual: RitualStateMachine, now: int)
    requires ritual.Valid()
    modifies ritual
    ensures ritual.Valid()
    ensures ritual.listeners == old(ritual.listeners)
    ensures ritual.currentState == Contemplating
    ensures ritual.View() == Invocation(old(ritual.View()), now)
    ensures ritual.NotifiedSince(old(ritual.stateHistory), old(ritual.deliveries))
  {
    ghost var h0, d0 := ritual.stateHistory, ritual.deliveries;
    ritual.NotifiedSinceNow();
    if !ritual.IsAcceptingInput() {
      var _ := ritual.ForceReset(now);
    }
    ghost var h1, d1 := ritual.stateHistory, ritual.deliveries;
    var invoked := ritual.Transition(Invoked, NoPayload, now);
    assert invoked.Ok?;
    NotifiedChain(ritual.listeners, h0, d0, h1, d1, ritual.stateHistory, ritual.deliveries);
    ghost var h2, d2 := ritual.stateHistory, ritual.deliveries;
    var contemplating := ritual.Transition(Contemplating, NoPayload, now);
    assert contemplating.Ok?;
    NotifiedChain(ritual.listeners, h0, d0, h2, d2, ritual.stateHistory, ritual.deliveries);
  }

  /** The second half of `chat`'s machine calls: REVEALING with the response, COMPLETE. */
  method Reveal(ritual: RitualStateMachine, response: string, at: int)
    requires ritual.Valid()
    requires ritual.currentState == Contemplating
    modifies ritual
    ensures ritual.Valid()
    ensures ritual.listeners == old(ritual.listeners)
    ensures ritual.View() == Revelation(old(ritual.View()), response, at)
    ensures ritual.NotifiedSince(old(ritual.stateHistory), old(ritual.deliveries))
  {
    ghost var h0, d0 := ritual.stateHistory, ritual.deliveries;
    var revealing := ritual.Transition(Revealing, ResponsePayload(response), at);
    assert revealing.Ok?;
    ghost var h1, d1 := ritual.stateHistory, ritual.deliveries;
    var complete := ritual.Transition(Complete, NoPayload, at);
    assert complete.Ok?;
    NotifiedChain(ritual.listeners, h0, d0, h1, d1, ritual.stateHistory, ritual.deliveries);
  }

  /**
   * The calls on one session's machine that `chat` makes once it has looked the
   * machine up; `ChatEffect` says what they amount to.
   */
  method Consult(ritual: RitualStateMachine, delay: int, outcome: AgentOutcome, elapsed: nat, now: int)
    returns (r: Result<ChatReply, ChatError>)
    requires ritual.Valid()
    modifies ritual
    ensures ritual.Valid()
    ensures ritual.listeners == old(ritual.listeners)
    ensures (r, ritual.View()) == ChatEffect(old(ritual.View()), delay, outcome, elapsed, now)
    ensures ritual.NotifiedSince(old(ritual.stateHistory), old(ritual.deliveries))
  {
    ghost var h0, d0 := ritual.stateHistory, ritual.deliveries;
    ghost var start := ritual.View();
    Invoke(ritual, now);
    var slept := SleepDuration(delay, elapsed);
    if outcome.Raised? {
      r := Err(AgentFailed(outcome.error));
    } else if outcome.messages == [] {
      r := Err(NoMessages);
    } else {
      var response := outcome.messages[|outcome.messages| - 1];
      ghost var h1, d1 := ritual.stateHistory, ritual.deliveries;
      Reveal(ritual, response, now + elapsed + slept);
      NotifiedChain(ritual.listeners, h0, d0, h1, d1, ritual.stateHistory, ritual.deliveries);
      r := Ok(ChatReply(response, slept));
    }
    ChatEffectFrom(start, delay, outcome, elapsed, now, r, ritual.View());
  }

  /**
   * `chat(message, session_id)`: looks the session up (creating it if needed)
   * and consults it. The message itself only reaches the agent, whose answer is
   * `outcome`; no other session is touched.
   */
  method Chat(registry: RitualRegistry, sessionId: string, delay: int, outcome: AgentOutcome, elapsed: nat, now: int)
    returns (r: Result<ChatReply, ChatError>)
    requires registry.Valid()
    requires ContemplationMinMs <= delay <= ContemplationMaxMs
    modifies registry, if sessionId in registry.sessions then {registry.sessions[sessionId]} else {}
    ensures registry.Valid()
    ensures sessionId in registry.sessions
    ensures registry.sessions == old(registry.sessions)[sessionId := registry.sessions[sessionId]]
    ensures sessionId in old(registry.sessions) ==> registry.sessions == old(registry.sessions)
    ensures (r, registry.sessions[sessionId].View())
      == ChatEffect(old(registry.ViewOf(sessionId)), delay, outcome, elapsed, now)
    ensures registry.sessions[sessionId].listeners == old(registry.ListenersOf(sessionId))
    ensures registry.sessions[sessionId].NotifiedSince(
      old(registry.ViewOf(sessionId)).history, old(registry.DeliveriesOf(sessionId)))
  {
    var ritual := registry.GetRitualMachine(sessionId);
    r := Consult(ritual, delay, outcome, elapsed, now);
  }

  /**
   * `chat_with_state(message, session_id)`: `chat`, then the session's state
   * info, which after a successful consultation reports COMPLETE and accepting
   * input and counts the 4 (or 5) new events.
   */
  method ChatWithState(registry: RitualRegistry, sessionId: string, delay: int, outcome: AgentOutcome, elapsed: nat, now: int)
    returns (r: Result<(string, StateInfo), ChatError>)
    requires registry.Valid()
    requires ContemplationMinMs <= delay <= ContemplationMaxMs
    modifies registry, if sessionId in registry.sessions then {registry.sessions[sessionId]} else {}
    ensures registry.Valid()
    ensures sessionId in registry.sessions
    ensures registry.sessions == old(registry.sessions)[sessionId := registry.sessions[sessionId]]
    ensures sessionId in old(registry.sessions) ==> registry.sessions == old(registry.sessions)
    ensures registry.sessions[sessionId].View()
      == ChatEffect(old(registry.ViewOf(sessionId)), delay, outcome, elapsed, now).1
    ensures registry.sessions[sessionId].listeners == old(registry.ListenersOf(sessionId))
    ensures registry.sessions[sessionId].NotifiedSince(
      old(registry.ViewOf(sessionId)).history, old(registry.DeliveriesOf(sessionId)))
    ensures r.Err? <==> outcome.Raised? || outcome.messages == []
    ensures outcome.Raised? ==> r == Err(AgentFailed(outcome.error))
    ensures outcome.Replied? && outcome.messages == [] ==> r == Err(NoMessages)
    ensures r.Err? ==> registry.sessions[sessionId].currentState == Contemplating
    ensures r.Ok? ==>
      var start := old(registry.ViewOf(sessionId));
      registry.sessions[sessionId].currentState == Complete &&
      registry.sessions[sessionId].stateHistory == start.history
        + ChatEvents(sessionId, Accepting(start.current), r.value.0, now, now + Max(delay, elapsed)) &&
      r.value.1 == registry.sessions[sessionId].GetStateInfo()
    ensures r.Ok? ==>
      var info := r.value.1;
      r.value.0 == outcome.messages[|outcome.messages| - 1] &&
      info.currentState == Value(Complete) &&
      info.sessionId == sessionId &&
      info.acceptingInput &&
      info.historyLength == |registry.sessions[sessionId].stateHistory| &&
      info.historyLength == |old(registry.ViewOf(sessionId)).history|
        + (if Accepting(old(registry.ViewOf(sessionId)).current) then 4 else 5)
  {
    ghost var start := registry.ViewOf(sessionId);
    if outcome.Replied? && outcome.messages != [] {
      ChatEffectOnReply(start, delay, outcome.messages, elapsed, now);
    } else {
      ChatEffectOnFailure(start, delay, outcome, elapsed, now);
    }
    var reply := Chat(registry, sessionId, delay, outcome, elapsed, now);
    if reply.Err? {
      return Err(reply.error);
    }
    var ritual := registry.GetRitualMachine(sessionId);
    var info := ritual.GetStateInfo();
    r := Ok((reply.value.response, info));
  }
}
