# Ritual pacing state machine — a Dafny model

This project models the pacing core of the Oracle of Delphi chatbot. One ritual
state machine exists per chat session. It moves through IDLE, INVOKED,
CONTEMPLATING, REVEALING and COMPLETE along a fixed transition table. It records
every change as an event in an append-only history and hands each event to its
registered listeners. A process-wide registry maps session ids to machines. The
orchestrator `chat` drives a session through one consultation. It pads the agent
call with a randomly drawn contemplation delay, so that the call plus the sleep
takes at least that long.

Modules, one concern each:

- `Wrappers` (wrappers.dfy): `Option` and `Result`, standing in for Python's
  `Optional` and for raised exceptions.
- `RitualStates` (ritual_states.dfy): the `RitualState` enum and its string
  values, `VALID_TRANSITIONS`, the event payloads, `RitualStateEvent` and
  `to_dict`, `RitualStateError` with its message (`Invalid: <from> → <to>`), and
  the calls `_notify_listeners` makes.
- `RitualHistory` (ritual_history.dfy): a value model of one machine
  (`MachineView`: session id, current state, history). It has the effect of one
  call (`ApplyOp`) and of a sequence of calls (`Replay`), with the machine
  invariant and the append-only lemmas.
- `RitualMachines` (ritual_machines.dfy): the class `RitualStateMachine`, whose
  fields the methods update in place, and the class `RitualRegistry`, which holds
  the `_ritual_sessions` dictionary as a `map` field. `Transition` and
  `ForceReset` are proved to follow `ApplyOp`, to keep the invariant and to hand
  each new event to every listener. `AddListener` and `NotifyListeners` change
  only the listener list and the delivery log, and are proved to leave the
  state and history alone.
- `Pacing` (pacing.dfy): `chat` and `chat_with_state`. The lookup and the
  machine calls are methods. `ChatEffect` is the pure description they are proved
  against. The lemmas about `ChatEffect` state what a consultation promises.

The machine invariant (`RitualHistory.Consistent`, the class's `Valid()`) is
required and kept by every method that changes the state or the history. It has
two parts:

- The current state is the state of the last recorded event, or IDLE while
  nothing is recorded.
- Every event names the machine's own session.

Durations and clock readings are integers in milliseconds. The
`TIMING_CONFIG` values are `Pacing.ContemplationMinMs` (1500),
`ContemplationMaxMs` (4000), `CompleteToIdleMs` (2000) and `LlmTimeoutMs` (30000).

The delivery log is tied to the history by `NotifiedSince(h0, d0)`. Since the
machine held history `h0` and log `d0`, the history has only grown, and the log
has grown by exactly the new events, each handed to every listener in turn.
Every method that records events ensures it, from `Transition` up to
`ChatWithState`.

Three points of the code's behaviour that the model keeps as written:

- The dataclass constructor only logs its initialization. It does not record an
  event, so a fresh machine has an empty history. After `n` successful calls the
  history length is `n`, not `n + 1`, and a fresh machine's `history_length` is 0.
- `chat` imposes no timeout on the agent call. `llm_timeout` and
  `complete_to_idle` are declared in the configuration but never read.
- `get_ritual_machine` is a plain check-then-insert with no lock.

## Model

| member | source | states |
|---|---|---|
| `RitualStates.ValueParseInverse` | backend/agent/tools.py:13-19 | a state and its enum value correspond one to one: `RitualState(v)` gives back `s` exactly when `s.value == v` |
| `RitualStates.ValidTransitions` | backend/agent/tools.py:27-33 | the table is total; every state has one or two successors and none is its own successor; exactly COMPLETE has two |
| `RitualStates.IdleOnlyInvokes` | backend/agent/tools.py:27-28 | from IDLE, a transition is legal exactly when its target is INVOKED |
| `RitualStates.Accepting` | backend/agent/tools.py:125-127 | the accepting states (IDLE, COMPLETE) are exactly those from which INVOKED is a legal next state |
| `RitualStates.ToDict` | backend/agent/tools.py:51-57 | the dictionary form of an event reads back to the same event (state, session id, timestamp, payload) |
| `RitualStates.RitualStateError.Message` | backend/agent/tools.py:74 | the message is `Invalid: ` followed by the source state's value, an arrow, and the target state's value; its length is fixed by the two values |
| `RitualStates.Deliveries` | backend/agent/tools.py:115-120 | one listener call per registered listener |
| `RitualStates.DeliveriesInOrder` | backend/agent/tools.py:115-120 | notification calls every listener exactly once with the event, in registration order, and a raising listener does not stop the later ones |
| `RitualStates.NotifiedAppend` | backend/agent/tools.py:86-88 | notifying two runs of events in turn makes the same listener calls as notifying their concatenation |
| `RitualStates.NotifiedStep` | backend/agent/tools.py:86-88 | appending one event and notifying it makes the log cover exactly that new event |
| `RitualStates.NotifiedChain` | backend/agent/tools.py:86-88 | when the log covers the events recorded from one history to a second and from the second to a third, it covers those recorded from the first to the third |
| `RitualHistory.ApplyOpConsistent` | backend/agent/tools.py:71-109 | every call keeps the invariant (the state equals the last event's state, and every event names the session) and the session id; the earlier history is unchanged, and it grows by one event exactly when the call returns normally |
| `RitualHistory.ReplayConsistent` | backend/agent/tools.py:71-109 | the invariant holds after any sequence of transitions and resets |
| `RitualHistory.ReplayHistory` | backend/agent/tools.py:86-107 | history is append-only: earlier entries never change, and it grows by one event per call that returned normally |
| `RitualHistory.ReplaySnoc` | backend/agent/tools.py:71-109 | replaying calls one after another composes: the last call applies to the state the earlier ones left |
| `RitualHistory.ReplayAppend` | backend/agent/tools.py:71-109 | replaying two call sequences in turn is replaying their concatenation, and the successes add up |
| `RitualHistory.FreshReplay` | backend/agent/tools.py:63-69 | from a fresh machine (IDLE, empty history) the history length is the number of successful transitions plus resets, and the state is the last event's, or IDLE |
| `RitualHistory.ForceResetFromAnyState` | backend/agent/tools.py:95-109 | a reset succeeds from every state, lands in IDLE and appends exactly one event with the `{"forced": True}` payload |
| `RitualMachines.RitualStateMachine.constructor` | backend/agent/tools.py:60-69 | a new machine is IDLE with an empty history and no listeners |
| `RitualMachines.RitualStateMachine.Transition` | backend/agent/tools.py:71-89 | succeeds iff the target is in the table entry of the current state; on failure it raises the error naming both states and leaves state, history and deliveries unchanged; on success it sets the state, appends the event (target, session id, clock, payload) and delivers it to every listener; the listeners are unchanged |
| `RitualMachines.RitualStateMachine.ForceReset` | backend/agent/tools.py:95-109 | sets IDLE from any state and appends and delivers one event with the forced payload; the listeners are unchanged |
| `RitualMachines.RitualStateMachine.AddListener` | backend/agent/tools.py:111-113 | appends the listener to the registration list and leaves state and history alone |
| `RitualMachines.RitualStateMachine.NotifyListeners` | backend/agent/tools.py:77-120 | is called only once the event is the last entry of the history and its state is the current state; records one call per registered listener, in order, whether or not a listener raises, and leaves state and history alone |
| `RitualMachines.RitualStateMachine.IsAcceptingInput` | backend/agent/tools.py:125-127 | true iff the state is IDLE or COMPLETE, that is, iff INVOKED is a legal next state |
| `RitualMachines.RitualStateMachine.GetStateInfo` | backend/agent/tools.py:129-136 | reports the state's enum value, the session id, an accepting flag that agrees with the table, and the history length |
| `RitualMachines.RitualRegistry.constructor` | backend/agent/tools.py:139 | the registry starts empty |
| `RitualMachines.RitualRegistry.DistinctMachines` | backend/agent/tools.py:142-146 | two session ids never share a machine |
| `RitualMachines.RitualRegistry.GetRitualMachine` | backend/agent/tools.py:142-146 | returns the filed machine when the id is present and changes nothing; otherwise it files a fresh IDLE machine, with no listeners and no deliveries, under that id and leaves the other entries alone |
| `RitualMachines.RitualRegistry.ClearRitualSession` | backend/agent/tools.py:149-152 | removes exactly that key, and does nothing when the key is absent |
| `Pacing.SleepDuration` | backend/agent/graph.py:82-84 | sleeps only when the delay exceeds the elapsed time; the elapsed time plus the sleep is `max(delay, elapsed)`, so the delay is a floor that never shortens a slow call |
| `Pacing.InvocationEffect` | backend/agent/graph.py:71-75 | from any state, the reset guard makes INVOKED legal; after the guard, INVOKED and CONTEMPLATING the session is in CONTEMPLATING, with the forced reset (if needed) and the two events appended |
| `Pacing.RevelationEffect` | backend/agent/graph.py:88-89 | from CONTEMPLATING, REVEALING (with the response payload) and COMPLETE are appended and the session ends COMPLETE |
| `Pacing.ConsultationEffect` | backend/agent/graph.py:71-89 | from any state, the whole consultation ends COMPLETE, with the events of the reset (if needed) and the four transitions appended: 4 new events, or 5 |
| `Pacing.InvocationReplay` | backend/agent/graph.py:71-75 | the calls of the first part (reset when needed, INVOKED, CONTEMPLATING) all succeed, and their replay is the first part of the consultation |
| `Pacing.RevelationReplay` | backend/agent/graph.py:88-89 | from CONTEMPLATING, REVEALING and COMPLETE both succeed, and their replay is the last part of the consultation |
| `Pacing.ChatOpsSucceed` | backend/agent/graph.py:71-89 | none of the calls `chat` makes raises: all 4 (or 5, with the reset) succeed, and their replay is the consultation |
| `Pacing.ChatEffect` | backend/agent/graph.py:71-91 | `chat` raises exactly when the agent call raised (its error propagates) or returned no message; otherwise it returns the last message's content and a sleep making the call plus the sleep `max(delay, elapsed)`; the session keeps its id and ends COMPLETE on success, CONTEMPLATING on an error |
| `Pacing.ChatEffectOnFailure` | backend/agent/graph.py:71-79 | when the agent call raises (or returns no message) the error propagates and the session is left in CONTEMPLATING, not accepting input |
| `Pacing.ChatEffectOnReply` | backend/agent/graph.py:71-91 | a reply returns the last message's content; the call plus the sleep last `max(delay, elapsed)`; the session ends COMPLETE; the history is the old one plus the forced reset (if needed), INVOKED, CONTEMPLATING, REVEALING with `{"response": response}`, and COMPLETE |
| `Pacing.RetryAfterFailure` | backend/agent/graph.py:71-75 | the `chat` after a failed one force-resets the session first and then completes with five new events |
| `Pacing.Invoke` | backend/agent/graph.py:71-75 | the machine calls of the first part of `chat` (reset when not accepting, INVOKED, CONTEMPLATING) have the effect `Invocation` describes, end in CONTEMPLATING, keep the invariant and the listeners, and deliver every new event to every listener |
| `Pacing.Reveal` | backend/agent/graph.py:86-89 | from CONTEMPLATING, the REVEALING and COMPLETE calls have the effect `Revelation` describes, keep the invariant and the listeners, and deliver both events to every listener |
| `Pacing.Consult` | backend/agent/graph.py:71-91 | the machine calls of `chat` have exactly the effect `ChatEffect` describes, keep the invariant and the listeners, and deliver every new event to every listener |
| `Pacing.Chat` | backend/agent/graph.py:65-91 | looks up or creates the session, touches no other entry, has the effect `ChatEffect` describes on that session, and delivers every new event to that session's unchanged listeners |
| `Pacing.ChatWithState` | backend/agent/graph.py:94-98 | keeps an already filed machine in place and leaves the session as `ChatEffect` describes; on success returns the response and exactly the session's `get_state_info()`, which reports COMPLETE, accepting input, the session id, and a history length 4 (or 5) greater than before, the history being the old one plus the reset (if needed) and the four transitions; it raises exactly when the agent call raised (that error) or returned no message (`NoMessages`), and then leaves the session in CONTEMPLATING; every new event is delivered to the session's unchanged listeners |

## Left out

- Randomness: `get_contemplation_delay` (`random.uniform`) is not modelled. The
  drawn delay is the `delay` parameter of `Chat`. It is required to lie between
  the configured minimum and maximum, which is what the draw guarantees.
- The agent: `create_agent`, `get_agent`, the LangGraph/Groq construction, the
  API-key check and the conversation thread config are foreign library code.
  `app.invoke` is the `outcome` parameter: the contents of the returned
  messages, or the error it raised. The user's `message` only reaches that call,
  so the model drops it. An empty message list models the `IndexError` of
  `result["messages"][-1]`.
- Clock and sleep: `time.time()` readings are parameters (`now`, and `elapsed`
  for the measured agent call). `time.sleep` is not performed; its duration is
  returned as `ChatReply.slept`.
- Chat: in `chat`, transitions, listener calls and logging take no time. The
  reset, INVOKED and CONTEMPLATING events are stamped `now`. REVEALING and
  COMPLETE are stamped at the agent call's start plus its duration plus the
  sleep.
- Floating point: seconds as floats become integer milliseconds.
- Logging (`logger.*`, `_log_transition`) has no effect on state and is not
  modelled.
- Listeners: callbacks are arbitrary Python callables. A listener is modelled by
  whether it raises. What a callback does is recorded as a machine-wide log of
  `Delivery` entries (listener index, event, whether it raised), in call order.
  Effects a callback might have on the machine itself are not modelled.
- Concurrency: the registry has no lock and sessions are not serialized. That
  race is not modelled.
- `VALID_TRANSITIONS.get(state, [])`: the default list is unreachable, because
  the table is total. The model looks the table up directly.
- Value semantics: events and payloads are values here. In Python, the event
  `transition` returns is the very object stored in `state_history`, and the
  payload dict is the caller's own (backend/agent/tools.py:79-88, 56). A caller
  that mutates either changes the recorded history. "Earlier entries never
  change" is proved for the machine's own calls only.
- Payloads: `transition` accepts any dict (backend/agent/tools.py:71). The model
  knows only the payloads the core builds: none, `{"forced": True}`,
  `{"response": text}`, and dictionaries of booleans and strings.
- Listener exceptions: `except Exception` (backend/agent/tools.py:119) swallows
  ordinary exceptions only. A `BaseException` such as `KeyboardInterrupt` would
  escape after the state and history were updated. A listener here either
  returns or raises an ordinary exception.
- ChatEffect: on the empty-reply path, `chat` still sleeps before `[-1]` raises
  (backend/agent/graph.py:83-86). `NoMessages` does not report how long it slept.
- Constructor arguments and the agent lookup: the dataclass also accepts
  `current_state`, `state_history` and `_listeners` as constructor arguments
  (backend/agent/tools.py:63-66). The model's constructor takes only the id, so
  every machine starts IDLE with an empty history, and `Valid()` holds for it.
  `get_agent()` (backend/agent/graph.py:68) can raise after the lookup and before
  the reset guard, leaving the session filed but untouched; the agent is always
  available here.
- Defaults: `session_id="default"` (backend/agent/graph.py:65, 94) and
  `payload=None` are not modelled as defaults. Callers pass them; `NoPayload`
  stands for `None`.
- Consult: `elapsed` is a `nat` here and in `Chat` and `ChatWithState`, which
  rules out a wall clock that steps backwards during the agent call
  (backend/agent/graph.py:80). `SleepDuration` itself accepts any integer.
- HTTP layer: backend/api/main.py and backend/api/models.py only pass data to
  and from `chat_with_state`. They are not part of this model.
