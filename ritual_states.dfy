/**
 * The ritual states, the table of legal transitions, the event record emitted on
 * every state change, and the order in which listeners are handed that event
 * (backend/agent/tools.py).
 */
module RitualStates {
  import opened Wrappers

  /** The five canonical ritual states. */
  datatype RitualState = Idle | Invoked | Contemplating | Revealing | Complete

  /** The state's enum value, as reported to the front end. */
  function Value(s: RitualState): string
  {
    match s
    case Idle => "IDLE"
    case Invoked => "INVOKED"
    case Contemplating => "CONTEMPLATING"
    case Revealing => "REVEALING"
    case Complete => "COMPLETE"
  }

  /** `RitualState(v)`: the state whose enum value is `v`, if there is one. */
  function ParseState(v: string): Option<RitualState>
  {
    if v == "IDLE" then Some(Idle)
    else if v == "INVOKED" then Some(Invoked)
    else if v == "CONTEMPLATING" then Some(Contemplating)
    else if v == "REVEALING" then Some(Revealing)
    else if v == "COMPLETE" then Some(Complete)
    else None
  }

  /** Enum values and states correspond one to one. */
  lemma ValueParseInverse(s: RitualState, v: string)
    ensures ParseState(v) == Some(s) <==> Value(s) == v
  {
    match s
    case Idle =>
    case Invoked =>
    case Contemplating =>
    case Revealing =>
    case Complete =>
  }

  /**
   * `VALID_TRANSITIONS[s]`, in the order the table lists it. The table is total,
   * every state has a successor, no state is its own successor, and COMPLETE is
   * the only state with two successors.
   */
  function ValidTransitions(s: RitualState): (next: seq<RitualState>)
    ensures 1 <= |next| <= 2
    ensures |next| == 2 <==> s == Complete
    ensures s !in next
  {
    match s
    case Idle => [Invoked]
    case Invoked => [Contemplating]
    case Contemplating => [Revealing]
    case Revealing => [Complete]
    case Complete => [Idle, Invoked]
  }

  /** The membership test `transition` performs before changing anything. */
  predicate CanTransition(from: RitualState, to: RitualState)
  {
    to in ValidTransitions(from)
  }

  /**
   * The states in which the oracle accepts a new question. They are exactly the
   * states from which INVOKED is a legal next state.
   */
  predicate Accepting(s: RitualState)
    ensures Accepting(s) <==> CanTransition(s, Invoked)
  {
    s == Idle || s == Complete
  }

  /** From IDLE the only legal target is INVOKED. */
  lemma IdleOnlyInvokes(to: RitualState)
    ensures CanTransition(Idle, to) <==> to == Invoked
  {
  }

  /** One free-form value of an event payload. */
  datatype PayloadValue = BoolValue(b: bool) | TextValue(text: string)

  /** `Optional[dict]`: no payload, or a string-keyed dictionary. */
  datatype Payload = NoPayload | Dict(entries: map<string, PayloadValue>)

  /** `{"forced": True}`, the payload of a forced reset. */
  const ForcedPayload: Payload := Dict(map["forced" := BoolValue(true)])

  /** `{"response": response}`, the payload of the REVEALING transition. */
  function ResponsePayload(response: string): Payload
  {
    Dict(map["response" := TextValue(response)])
  }

  /** Event emitted on a state transition; `timestamp` is a clock reading in milliseconds. */
  datatype RitualStateEvent = RitualStateEvent(
    state: RitualState,
    sessionId: string,
    timestamp: int,
    payload: Payload)

  /** The dictionary `to_dict` builds: the state appears as its enum value. */
  datatype EventDict = EventDict(
    state: string,
    sessionId: string,
    timestamp: int,
    payload: Payload)

  /** Reads an event back from its dictionary form; fails on an unknown state value. */
  function FromDict(d: EventDict): Option<RitualStateEvent>
  {
    match ParseState(d.state)
    case None => None
    case Some(s) => Some(RitualStateEvent(s, d.sessionId, d.timestamp, d.payload))
  }

  /** `RitualStateEvent.to_dict`: the dictionary form loses nothing. */
  function ToDict(e: RitualStateEvent): (d: EventDict)
    ensures FromDict(d) == Some(e)
    ensures ParseState(d.state) == Some(e.state)
  {
    ValueParseInverse(e.state, Value(e.state));
    EventDict(Value(e.state), e.sessionId, e.timestamp, e.payload)
  }

  /** `RitualStateError`: an attempted edge absent from the table. */
  datatype RitualStateError = InvalidTransition(from: RitualState, to: RitualState)
  {
    /** The exception's message, `Invalid: <from> → <to>`: it names the source state, then the target. */
    function Message(): (msg: string)
      ensures |msg| == 12 + |Value(from)| + |Value(to)|
      ensures msg[..9] == "Invalid: "
      ensures msg[9..9 + |Value(from)|] == Value(from)
      ensures msg[9 + |Value(from)|..|msg| - |Value(to)|] == " \U{2192} "
      ensures msg[|msg| - |Value(to)|..] == Value(to)
    {
      "Invalid: " + Value(from) + " \U{2192} " + Value(to)
    }
  }

  /**
   * A registered listener callback. The model keeps only whether the callback
   * raises; what it does with the event happens outside the core.
   */
  datatype Listener = Listener(name: string, raises: bool)

  /**
   * One call of a listener: the index of the listener in registration order, the
   * event it was handed, and whether the call raised (and was swallowed).
   */
  datatype Delivery = Delivery(listener: nat, event: RitualStateEvent, raised: bool)

  /** The calls `_notify_listeners(e)` makes, in the order it makes them: one per listener. */
  function Deliveries(listeners: seq<Listener>, e: RitualStateEvent): (calls: seq<Delivery>)
    ensures |calls| == |listeners|
  {
    if listeners == [] then []
    else
      var last := |listeners| - 1;
      Deliveries(listeners[..last], e) + [Delivery(last, e, listeners[last].raises)]
  }

  /**
   * Every registered listener is called exactly once with the event, in
   * registration order, whether or not an earlier listener raised.
   */
  lemma {:induction false} DeliveriesInOrder(listeners: seq<Listener>, e: RitualStateEvent)
    ensures |Deliveries(listeners, e)| == |listeners|
    ensures forall k :: 0 <= k < |listeners| ==>
      Deliveries(listeners, e)[k] == Delivery(k, e, listeners[k].raises)
  {
    if listeners != [] {
      var last := |listeners| - 1;
      DeliveriesInOrder(listeners[..last], e);
    }
  }

  /** The calls made for a run of events, each event handed to every listener in turn. */
  function Notified(listeners: seq<Listener>, events: seq<RitualStateEvent>): seq<Delivery>
  {
    if events == [] then [] else Deliveries(listeners, events[0]) + Notified(listeners, events[1..])
  }

  /** Notifying two runs of events in turn is notifying their concatenation. */
  lemma {:induction false} NotifiedAppend(listeners: seq<Listener>, a: seq<RitualStateEvent>, b: seq<RitualStateEvent>)
    ensures Notified(listeners, a + b) == Notified(listeners, a) + Notified(listeners, b)
  {
    if a == [] {
      assert a + b == b;
    } else {
      assert (a + b)[0] == a[0];
      assert (a + b)[1..] == a[1..] + b;
      NotifiedAppend(listeners, a[1..], b);
    }
  }

  /**
   * Between a machine holding history `h0` with delivery log `d0` and the same
   * machine holding `h1` with `d1`: the history has only grown, and the listener
   * calls made in between are exactly the events recorded after `h0`, each handed
   * to every listener in turn.
   */
  ghost predicate NotifiedBetween(listeners: seq<Listener>, h0: seq<RitualStateEvent>, d0: seq<Delivery>,
                                  h1: seq<RitualStateEvent>, d1: seq<Delivery>)
  {
    |h0| <= |h1| && h1[..|h0|] == h0 && d1 == d0 + Notified(listeners, h1[|h0|..])
  }

  /** Recording nothing calls no listener. */
  lemma NotifiedNone(listeners: seq<Listener>, h: seq<RitualStateEvent>, d: seq<Delivery>)
    ensures NotifiedBetween(listeners, h, d, h, d)
  {
    assert h[|h|..] == [];
    assert d + [] == d;
  }

  /** Recording one event and running `_notify_listeners` on it. */
  lemma NotifiedStep(listeners: seq<Listener>, h: seq<RitualStateEvent>, d: seq<Delivery>, e: RitualStateEvent)
    ensures NotifiedBetween(listeners, h, d, h + [e], d + Deliveries(listeners, e))
  {
    assert (h + [e])[..|h|] == h;
    assert (h + [e])[|h|..] == [e];
    assert [e][1..] == [];
    assert Deliveries(listeners, e) + [] == Deliveries(listeners, e);
  }

  /** Two prefixes in a row: the first stretch followed by the second is what the longest adds to the shortest. */
  lemma PrefixChain<T>(a: seq<T>, b: seq<T>, c: seq<T>)
    requires |a| <= |b| <= |c| && b[..|a|] == a && c[..|b|] == b
    ensures c[..|a|] == a
    ensures c[|a|..] == b[|a|..] + c[|b|..]
  {
    assert c[..|a|] == c[..|b|][..|a|];
    forall i | 0 <= i < |c| - |a|
      ensures c[|a|..][i] == (b[|a|..] + c[|b|..])[i]
    {
      if |a| + i < |b| {
        assert c[|a| + i] == c[..|b|][|a| + i];
      }
    }
  }

  /** Appending two runs in turn is appending their concatenation. */
  lemma AppendChain<T>(d0: seq<T>, d1: seq<T>, d2: seq<T>, a: seq<T>, b: seq<T>)
    requires d1 == d0 + a && d2 == d1 + b
    ensures d2 == d0 + (a + b)
  {
    assert (d0 + a) + b == d0 + (a + b);
  }

  /**
   * Chaining two stretches of history: when the listener calls covered the events
   * recorded from `h0` to `h1` and then those from `h1` to `h2`, they cover the
   * events recorded from `h0` to `h2`.
   */
  lemma NotifiedChain(listeners: seq<Listener>, h0: seq<RitualStateEvent>, d0: seq<Delivery>,
                      h1: seq<RitualStateEvent>, d1: seq<Delivery>, h2: seq<RitualStateEvent>, d2: seq<Delivery>)
    requires NotifiedBetween(listeners, h0, d0, h1, d1)
    requires NotifiedBetween(listeners, h1, d1, h2, d2)
    ensures NotifiedBetween(listeners, h0, d0, h2, d2)
  {
    PrefixChain(h0, h1, h2);
    var x, y := h1[|h0|..], h2[|h1|..];
    NotifiedAppend(listeners, x, y);
    AppendChain(d0, d1, d2, Notified(listeners, x), Notified(listeners, y));
  }
}
