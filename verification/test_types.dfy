/** The state and event lists both tests declare
    (`std::tuple<State1, State2, State3>` and
    `std::tuple<Event1, Event2, Event3, Event4>`), and the ids they induce:
    a type's id is its position in its list. */
module TestTypes {
  import opened Wrappers
  import opened MachineBase
  import opened DispatchKey
  import opened Dispatch

  datatype State = State1 | State2 | State3

  datatype Event = Event1 | Event2 | Event3 | Event4

  const States: seq<State> := [State1, State2, State3]

  const Events: seq<Event> := [Event1, Event2, Event3, Event4]

  /** `S::id`: the position of `s` in the state list. */
  function StateId(s: State): (id: int)
    ensures 0 <= id < |States| && States[id] == s
  {
    match s
    case State1 => 0
    case State2 => 1
    case State3 => 2
  }

  /** `E::id`: the position of `e` in the event list. */
  function EventId(e: Event): (id: int)
    ensures 0 <= id < |Events| && Events[id] == e
  {
    match e
    case Event1 => 0
    case Event2 => 1
    case Event3 => 2
    case Event4 => 3
  }

  /** Distinct states have distinct ids. */
  lemma StateIdInjective(s1: State, s2: State)
    ensures StateId(s1) == StateId(s2) <==> s1 == s2
  {
  }

  /** The case label of `on_event(S, E)`. */
  function Label(s: State, e: Event): (k: int)
    ensures k == StateId(s) + EventId(e) * StateLimit
  {
    Key(StateId(s), EventId(e))
  }

  function StateFromId(id: int): (s: Option<State>)
    ensures s.Some? <==> 0 <= id < |States|
    ensures s.Some? ==> StateId(s.value) == id
  {
    if id == 0 then Some(State1)
    else if id == 1 then Some(State2)
    else if id == 2 then Some(State3)
    else None
  }

  function EventFromId(id: int): (e: Option<Event>)
    ensures e.Some? <==> 0 <= id < |Events|
    ensures e.Some? ==> EventId(e.value) == id
  {
    if id == 0 then Some(Event1)
    else if id == 1 then Some(Event2)
    else if id == 2 then Some(Event3)
    else if id == 3 then Some(Event4)
    else None
  }

  /** The (state, event) pair whose label a key is, if any. */
  function PairOf(k: int): Option<(State, Event)>
  {
    if k < 0 then None
    else
      match (StateFromId(StateOf(k)), EventFromId(EventOf(k)))
      case (Some(s), Some(e)) => Some((s, e))
      case _ => None
  }

  /** Decoding the label of a pair gives the pair back. */
  lemma PairOfLabel(s: State, e: Event)
    ensures PairOf(Label(s, e)) == Some((s, e))
  {
    KeyRoundTrip(StateId(s), EventId(e));
  }

  /** A key that decodes to a pair is that pair's label. */
  lemma LabelOfPair(k: int, s: State, e: Event)
    requires PairOf(k) == Some((s, e))
    ensures k == Label(s, e)
  {
    assert k == EventOf(k) * StateLimit + StateOf(k);
  }

  /** The handlers of a table declared one `on_event` per (state, event)
      pair: each pair's rule, if it has one, under the pair's label. */
  function HandlersOf<R>(rule: (State, Event) -> Option<Handler<R>>): map<int, Handler<R>>
  {
    map k | 0 <= k < IntLimit && PairOf(k).Some? && rule(PairOf(k).value.0, PairOf(k).value.1).Some?
      :: rule(PairOf(k).value.0, PairOf(k).value.1).value
  }

  /** A pair's label is registered exactly when the pair has a rule, and
      selects that rule; no other key is registered. */
  lemma HandlersOfLabel<R>(rule: (State, Event) -> Option<Handler<R>>, s: State, e: Event)
    ensures Label(s, e) in HandlersOf(rule) <==> rule(s, e).Some?
    ensures rule(s, e).Some? ==> HandlersOf(rule)[Label(s, e)] == rule(s, e).value
  {
    PairOfLabel(s, e);
  }

  /** Every registered key is the label of a pair. */
  lemma HandlersOfKeys<R>(rule: (State, Event) -> Option<Handler<R>>, k: int)
    requires k in HandlersOf(rule)
    ensures PairOf(k).Some?
    ensures k == Label(PairOf(k).value.0, PairOf(k).value.1)
  {
    LabelOfPair(k, PairOf(k).value.0, PairOf(k).value.1);
  }

  /** Looking up the label of a machine's state with an event finds the rule
      of that state and event; a state id outside the list finds nothing. */
  lemma LookupByState<R>(rule: (State, Event) -> Option<Handler<R>>, m: Machine, e: Event)
    requires ValidState(m.state)
    ensures Key(m.state, EventId(e)) in HandlersOf(rule) <==>
            StateFromId(m.state).Some? && rule(StateFromId(m.state).value, e).Some?
    ensures Key(m.state, EventId(e)) in HandlersOf(rule) ==>
            HandlersOf(rule)[Key(m.state, EventId(e))] == rule(StateFromId(m.state).value, e).value
  {
    var k := Key(m.state, EventId(e));
    if StateFromId(m.state).Some? {
      HandlersOfLabel(rule, StateFromId(m.state).value, e);
    } else if k in HandlersOf(rule) {
      HandlersOfKeys(rule, k);
      KeyRoundTrip(m.state, EventId(e));
    }
  }

  /** The machine resting in `s` with nothing pending. */
  function At(s: State): (m: Machine)
    ensures ValidState(m.state) && !InTransition(m)
  {
    Create(StateId(s))
  }

  /** `current_state_is<S>()`. */
  function CurrentStateIs(m: Machine, s: State): (b: bool)
    ensures b <==> StateFromId(m.state) == Some(s)
  {
    m.state == StateId(s)
  }

  /** The ids of a sequence of events, in order. */
  function EventIds(es: seq<Event>): (ids: seq<int>)
    ensures |ids| == |es|
    ensures forall i :: 0 <= i < |es| ==> ids[i] == EventId(es[i])
  {
    seq(|es|, i requires 0 <= i < |es| => EventId(es[i]))
  }
}
