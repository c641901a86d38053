/** `TransitionTable` of test/state_machine_test.cpp: all nine (state, event)
    pairs of the first three events are handled, Event_j leading to State_j
    from every state; each handler returns the name of its pair; Event4 falls
    to `on_no_match`, and the post-switch return is never reached. Also the
    event sequence that `main` drives. */
module FullTable {
  import opened Wrappers
  import opened MachineBase
  import opened DispatchKey
  import opened Dispatch
  import opened TestTypes

  const NoTransition: string := "NO TRANSITION"

  const ShouldNeverHappen: string := "SHOULD NEVER HAPPEN"

  function StateName(s: State): string
  {
    match s
    case State1 => "State1"
    case State2 => "State2"
    case State3 => "State3"
  }

  function EventName(e: Event): string
  {
    match e
    case Event1 => "Event1"
    case Event2 => "Event2"
    case Event3 => "Event3"
    case Event4 => "Event4"
  }

  /** The string a handler returns: its state, a space, its event. */
  function PairName(s: State, e: Event): string
  {
    StateName(s) + " " + EventName(e)
  }

  /** The state Event_j leads to, for j in 1..3. */
  function TargetOf(e: Event): State
    requires e != Event4
  {
    match e
    case Event1 => State1
    case Event2 => State2
    case Event3 => State3
  }

  /** The `on_event` lines of `TransitionTable`: every pair but those of
      Event4, each returning its literal name. */
  function Rule(s: State, e: Event): (r: Option<Handler<string>>)
    ensures r.None? <==> e == Event4
    ensures r.Some? ==> r.value.target == Some(StateId(TargetOf(e)))
  {
    match (s, e)
    case (State1, Event1) => Some(Handler("State1 Event1", Some(StateId(State1))))
    case (State1, Event2) => Some(Handler("State1 Event2", Some(StateId(State2))))
    case (State1, Event3) => Some(Handler("State1 Event3", Some(StateId(State3))))
    case (State2, Event1) => Some(Handler("State2 Event1", Some(StateId(State1))))
    case (State2, Event2) => Some(Handler("State2 Event2", Some(StateId(State2))))
    case (State2, Event3) => Some(Handler("State2 Event3", Some(StateId(State3))))
    case (State3, Event1) => Some(Handler("State3 Event1", Some(StateId(State1))))
    case (State3, Event2) => Some(Handler("State3 Event2", Some(StateId(State2))))
    case (State3, Event3) => Some(Handler("State3 Event3", Some(StateId(State3))))
    case (_, Event4) => None
  }

  /** The rules, `on_no_match() { return "NO TRANSITION"; }`, and
      `return "SHOULD NEVER HAPPEN"` after the switch. */
  function TransitionTable(): (t: Table<string>)
    ensures WellFormed(t)
    ensures t.handlers == HandlersOf(Rule)
    ensures t.noMatch == Some(NoTransition)
    ensures t.fallThrough == ShouldNeverHappen
    ensures forall k :: k in t.handlers ==> t.handlers[k].result != t.fallThrough
  {
    var t := Table(HandlersOf(Rule), Some(NoTransition), ShouldNeverHappen);
    assert WellFormed(t) && forall k :: k in t.handlers ==> t.handlers[k].result != t.fallThrough by {
      forall k | k in t.handlers
        ensures t.handlers[k].target.Some? ==> ValidState(t.handlers[k].target.value)
        ensures t.handlers[k].result != t.fallThrough
      {
        HandlersOfKeys(Rule, k);
      }
    }
    t
  }

  /** `sm.process_event(event)` on a `StateMachine<TransitionTable, State1>`. */
  function Process(m: Machine, e: Event): (o: Outcome<string>)
    requires ValidState(m.state)
    ensures o.result != ShouldNeverHappen
    ensures e == Event4 || StateFromId(m.state).None? ==> o.result == NoTransition && o.after == m
    ensures e != Event4 && StateFromId(m.state).Some? ==>
              o.result == PairName(StateFromId(m.state).value, e)
              && o.after == Machine(StateId(TargetOf(e)), NoTarget)
  {
    LookupByState(Rule, m, e);
    FallThroughUnreachable(TransitionTable(), m, EventId(e));
    var o := ProcessEvent(TransitionTable(), m, EventId(e));
    if e != Event4 && StateFromId(m.state).Some? then
      RuleOfPair(StateFromId(m.state).value, e);
      o
    else
      o
  }

  /** For i, j in 1..3, Event_j in State_i runs the handler of exactly that
      pair, which returns the pair's name and moves to State_j. */
  lemma HandledPairs(s: State, e: Event)
    requires e != Event4
    ensures Process(At(s), e).ran == RanHandler(Label(s, e))
    ensures Process(At(s), e).result == PairName(s, e)
    ensures Process(At(s), e).after == At(TargetOf(e))
  {
    RuleOfPair(s, e);
    HandlersOfLabel(Rule, s, e);
  }

  /** Each rule of the first three events names its pair and requests
      Event_j's state. */
  lemma RuleOfPair(s: State, e: Event)
    requires e != Event4
    ensures Rule(s, e) == Some(Handler(PairName(s, e), Some(StateId(TargetOf(e)))))
  {
    match (s, e)
    case (State1, Event1) => assert PairName(s, e) == "State1 Event1";
    case (State1, Event2) => assert PairName(s, e) == "State1 Event2";
    case (State1, Event3) => assert PairName(s, e) == "State1 Event3";
    case (State2, Event1) => assert PairName(s, e) == "State2 Event1";
    case (State2, Event2) => assert PairName(s, e) == "State2 Event2";
    case (State2, Event3) => assert PairName(s, e) == "State2 Event3";
    case (State3, Event1) => assert PairName(s, e) == "State3 Event1";
    case (State3, Event2) => assert PairName(s, e) == "State3 Event2";
    case (State3, Event3) => assert PairName(s, e) == "State3 Event3";
  }

  /** Event4 has no handler in any state: `on_no_match` answers and the state
      stays. */
  lemma Event4HitsNoMatch(s: State)
    ensures Process(At(s), Event4).ran == RanNoMatch
    ensures Process(At(s), Event4).result == NoTransition
    ensures Process(At(s), Event4).after == At(s)
  {
    HandlersOfLabel(Rule, s, Event4);
  }

  /** One round of `main`'s loop, Event1 to Event4, ends in State3 from any
      state, and its last call is answered by `on_no_match`. */
  lemma RoundEndsInState3(s: State)
    ensures var o1 := Process(At(s), Event1);
      var o2 := Process(o1.after, Event2);
      var o3 := Process(o2.after, Event3);
      var o4 := Process(o3.after, Event4);
      o4.after == At(State3) && o4.result == NoTransition
  {
    HandledPairs(s, Event1);
    HandledPairs(State1, Event2);
    HandledPairs(State2, Event3);
    Event4HitsNoMatch(State3);
  }

  /** With `on_no_match` present the post-switch value is never returned,
      whatever the state and event ids. */
  lemma NeverReturnsShouldNeverHappen(m: Machine, e: int)
    requires ValidState(m.state) && ValidEvent(e)
    ensures ProcessEvent(TransitionTable(), m, e).result != ShouldNeverHappen
  {
    FallThroughUnreachable(TransitionTable(), m, e);
  }

  /** The loop of `main`: `iterations` rounds of Event1, Event2, Event3,
      Event4 from State1. Every completed round ends in State3. */
  method DriveMain(iterations: nat) returns (m: Machine, last: string)
    ensures iterations == 0 ==> m == At(State1)
    ensures iterations > 0 ==> m == At(State3) && last == NoTransition
  {
    m := At(State1);
    last := "";
    var x := 0;
    while x < iterations
      invariant x <= iterations
      invariant x == 0 ==> m == At(State1)
      invariant x > 0 ==> m == At(State3) && last == NoTransition
    {
      RoundEndsInState3(if x == 0 then State1 else State3);
      var o1 := Process(m, Event1);
      var o2 := Process(o1.after, Event2);
      var o3 := Process(o2.after, Event3);
      var o4 := Process(o3.after, Event4);
      m, last := o4.after, o4.result;
      x := x + 1;
    }
  }
}
