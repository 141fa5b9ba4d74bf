/**
 * The per-session `RitualStateMachine` and the registry `_ritual_sessions` with
 * `get_ritual_machine` / `clear_ritual_session` (backend/agent/tools.py).
 */
module RitualMachines {
  import opened Wrappers
  import opened RitualStates
  import opened RitualHistory

  /** The dictionary `get_state_info` returns. */
  datatype StateInfo = StateInfo(
    currentState: string,
    sessionId: string,
    acceptingInput: bool,
    historyLength: nat)

  class RitualStateMachine {
    const sessionId: string
    var currentState: RitualState
    var stateHistory: seq<RitualStateEvent>
    var listeners: seq<Listener>
    /** Every listener call made so far, in the order they were made. */
    var deliveries: seq<Delivery>

    /** The machine's session id, state and history as a value. */
    function View(): MachineView
      reads this
    {
      MachineView(sessionId, currentState, stateHistory)
    }

    ghost predicate Valid()
      reads this
    {
      Consistent(View())
    }

    /**
     * Since the machine held history `h0` and delivery log `d0`, its history has
     * only grown, and every event recorded after `h0` has been handed to every
     * listener, event by event and listener by listener, in order.
     */
    ghost predicate NotifiedSince(h0: seq<RitualStateEvent>, d0: seq<Delivery>)
      reads this
    {
      NotifiedBetween(listeners, h0, d0, stateHistory, deliveries)
    }

    /** Nothing recorded is nothing delivered. */
    lemma NotifiedSinceNow()
      ensures NotifiedSince(stateHistory, deliveries)
    {
      NotifiedNone(listeners, stateHistory, deliveries);
    }

    /** The dataclass constructor: IDLE, empty history, no listeners (it only logs). */
    constructor (sessionId: string)
      ensures this.sessionId == sessionId
      ensures View() == FreshView(sessionId)
      ensures listeners == [] && deliveries == []
      ensures Valid()
    {
      this.sessionId := sessionId;
      currentState := Idle;
      stateHistory := [];
      listeners := [];
      deliveries := [];
    }

    /**
     * `transition(new_state, payload)`: raises when the table has no such edge and
     * changes nothing; otherwise records the event and hands it to every listener.
     */
    method Transition(newState: RitualState, payload: Payload, now: int)
      returns (r: Result<RitualStateEvent, RitualStateError>)
      requires Valid()
      modifies this
      ensures Valid()
      ensures listeners == old(listeners)
      ensures r.Ok? <==> CanTransition(old(currentState), newState)
      ensures r.Err? ==>
        r.error == InvalidTransition(old(currentState), newState) &&
        currentState == old(currentState) &&
        stateHistory == old(stateHistory) &&
        deliveries == old(deliveries)
      ensures r.Ok? ==>
        r.value == RitualStateEvent(newState, sessionId, now, payload) &&
        currentState == newState &&
        stateHistory == old(stateHistory) + [r.value] &&
        deliveries == old(deliveries) + Deliveries(listeners, r.value)
      ensures View() == ApplyOp(old(View()), TransitionOp(newState, payload, now))
      ensures NotifiedSince(old(stateHistory), old(deliveries))
    {
      if newState !in ValidTransitions(currentState) {
        NotifiedSinceNow();
        return Err(InvalidTransition(currentState, newState));
      }
      ApplyOpConsistent(View(), TransitionOp(newState, payload, now));
      NotifiedStep(listeners, stateHistory, deliveries, RitualStateEvent(newState, sessionId, now, payload));
      currentState := newState;
      var event := RitualStateEvent(newState, sessionId, now, payload);
      stateHistory := stateHistory + [event];
      NotifyListeners(event);
      r := Ok(event);
    }

    /** `force_reset()`: IDLE from any state, recorded with the forced marker. */
    method ForceReset(now: int) returns (e: RitualStateEvent)
      requires Valid()
      modifies this
      ensures Valid()
      ensures listeners == old(listeners)
      ensures e == RitualStateEvent(Idle, sessionId, now, ForcedPayload)
      ensures currentState == Idle
      ensures stateHistory == old(stateHistory) + [e]
      ensures deliveries == old(deliveries) + Deliveries(listeners, e)
      ensures View() == ApplyOp(old(View()), ForceResetOp(now))
      ensures NotifiedSince(old(stateHistory), old(deliveries))
    {
      ApplyOpConsistent(View(), ForceResetOp(now));
      NotifiedStep(listeners, stateHistory, deliveries, RitualStateEvent(Idle, sessionId, now, ForcedPayload));
      currentState := Idle;
      e := RitualStateEvent(Idle, sessionId, now, ForcedPayload);
      stateHistory := stateHistory + [e];
      NotifyListeners(e);
    }

    /** `add_listener(callback)`: the state and history, and so the invariant, are untouched. */
    method AddListener(listener: Listener)
      modifies this`listeners
      ensures listeners == old(listeners) + [listener]
      ensures View() == old(View())
    {
      listeners := listeners + [listener];
    }

    /**
     * `_notify_listeners(event)`: calls each listener in turn; a listener that
     * raises is logged and the loop goes on. It runs only once the event is
     * recorded, so a listener sees the new state and the event at the end of the
     * history. The state and history are untouched.
     */
    method NotifyListeners(event: RitualStateEvent)
      requires stateHistory != [] && stateHistory[|stateHistory| - 1] == event && currentState == event.state
      modifies this`deliveries
      ensures deliveries == old(deliveries) + Deliveries(listeners, event)
      ensures View() == old(View())
    {
      for i := 0 to |listeners|
        invariant deliveries == old(deliveries) + Deliveries(listeners[..i], event)
      {
        assert listeners[..i + 1][..i] == listeners[..i];
        deliveries := deliveries + [Delivery(i, event, listeners[i].raises)];
      }
      assert listeners[..|listeners|] == listeners;
    }

    /** `is_accepting_input()`. */
    function IsAcceptingInput(): (b: bool)
      reads this
      ensures b <==> currentState == Idle || currentState == Complete
      ensures b <==> CanTransition(currentState, Invoked)
    {
      Accepting(currentState)
    }

    /** `get_state_info()`: a read-only snapshot. */
    function GetStateInfo(): (info: StateInfo)
      reads this
      ensures ParseState(info.currentState) == Some(currentState)
      ensures info.sessionId == sessionId
      ensures info.acceptingInput <==> CanTransition(currentState, Invoked)
      ensures info.historyLength == |stateHistory|
    {
      ValueParseInverse(currentState, Value(currentState));
      StateInfo(Value(currentState), sessionId, IsAcceptingInput(), |stateHistory|)
    }
  }

  /** The module-level dictionary `_ritual_sessions`, as an object. */
  class RitualRegistry {
    var sessions: map<string, RitualStateMachine>

    /** Each entry is filed under its own session id and keeps the machine invariant. */
    ghost predicate Valid()
      reads this, sessions.Values
    {
      forall id :: id in sessions ==> sessions[id].sessionId == id && sessions[id].Valid()
    }

    /** The machine `get_ritual_machine(id)` would hand out, as a value. */
    ghost function ViewOf(id: string): MachineView
      reads this, sessions.Values
    {
      if id in sessions then sessions[id].View() else FreshView(id)
    }

    /** The listeners of that machine: none for a machine yet to be created. */
    ghost function ListenersOf(id: string): seq<Listener>
      reads this, sessions.Values
    {
      if id in sessions then sessions[id].listeners else []
    }

    /** The listener calls that machine has made: none for a machine yet to be created. */
    ghost function DeliveriesOf(id: string): seq<Delivery>
      reads this, sessions.Values
    {
      if id in sessions then sessions[id].deliveries else []
    }

    /** Two session ids never share a machine. */
    lemma DistinctMachines(a: string, b: string)
      requires Valid()
      requires a in sessions && b in sessions && a != b
      ensures sessions[a] != sessions[b]
    {
    }

    constructor ()
      ensures sessions == map[]
      ensures Valid()
    {
      sessions := map[];
    }

    /** `get_ritual_machine(id)`: the existing machine, or a fresh IDLE one filed under `id`. */
    method GetRitualMachine(sessionId: string) returns (m: RitualStateMachine)
      requires Valid()
      modifies this
      ensures Valid()
      ensures m.sessionId == sessionId
      ensures sessionId in old(sessions) ==> m == old(sessions)[sessionId] && sessions == old(sessions)
      ensures sessionId !in old(sessions) ==>
        fresh(m) && sessions == old(sessions)[sessionId := m] &&
        m.View() == FreshView(sessionId) && m.listeners == [] && m.deliveries == []
      ensures sessions[sessionId] == m && m.View() == old(ViewOf(sessionId))
      ensures m.listeners == old(ListenersOf(sessionId)) && m.deliveries == old(DeliveriesOf(sessionId))
    {
      if sessionId !in sessions {
        m := new RitualStateMachine(sessionId);
        sessions := sessions[sessionId := m];
      } else {
        m := sessions[sessionId];
      }
    }

    /** `clear_ritual_session(id)`: removes that entry only; nothing happens when it is absent. */
    method ClearRitualSession(sessionId: string)
      requires Valid()
      modifies this
      ensures Valid()
      ensures sessions == old(sessions) - {sessionId}
      ensures sessionId !in old(sessions) ==> sessions == old(sessions)
    {
      if sessionId in sessions {
        sessions := sessions - {sessionId};
      }
    }
  }
}
