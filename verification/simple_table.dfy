/** `ATransitionTable` and `TestStateMachine` of test/test_simple.cpp: a
    three-state cycle driven forwards by Event1 and backwards by Event2,
    Event3 handled in place, Event4 unhandled and no `on_no_match`. Every
    handler returns the address of its event's `data`. */
module SimpleTable {
  import opened Wrappers
  import opened MachineBase
  import opened DispatchKey
  import opened Dispatch
  import opened TestTypes

  /** `&eventN.data` for one of the test's event objects, or `nullptr`. */
  datatype DataRef = Null | DataOf(event: Event)

  /** The `on_event` lines of `ATransitionTable`, one per handled pair. */
  function Rule(s: State, e: Event): (r: Option<Handler<DataRef>>)
    ensures r.None? <==> e == Event4
    ensures r.Some? ==> r.value.result == DataOf(e)
    ensures e == Event1 ==> r.Some? && r.value.target == Some((StateId(s) + 1) % |States|)
    ensures e == Event2 ==> r.Some? && r.value.target == Some((StateId(s) + 2) % |States|)
    ensures e == Event3 ==> r.Some? && r.value.target.None?
  {
    match (s, e)
    case (State1, Event1) => Some(Handler(DataOf(Event1), Some(StateId(State2))))
    case (State2, Event1) => Some(Handler(DataOf(Event1), Some(StateId(State3))))
    case (State3, Event1) => Some(Handler(DataOf(Event1), Some(StateId(State1))))
    case (State1, Event2) => Some(Handler(DataOf(Event2), Some(StateId(State3))))
    case (State2, Event2) => Some(Handler(DataOf(Event2), Some(StateId(State1))))
    case (State3, Event2) => Some(Handler(DataOf(Event2), Some(StateId(State2))))
    case (_, Event3) => Some(Handler(DataOf(Event3), None))
    case (_, Event4) => None
  }

  /** No `on_no_match`, and `return nullptr` after the switch. */
  function ATransitionTable(): (t: Table<DataRef>)
    ensures WellFormed(t)
    ensures t.handlers == HandlersOf(Rule)
    ensures t.noMatch.None?
    ensures t.fallThrough == Null
  {
    var t := Table(HandlersOf(Rule), None, Null);
    assert WellFormed(t) by {
      forall k | k in t.handlers
        ensures t.handlers[k].target.Some? ==> ValidState(t.handlers[k].target.value)
      {
        HandlersOfKeys(Rule, k);
      }
    }
    t
  }

  /** `sm.process_event(event)` from a resting state runs that pair's rule. */
  lemma ProcessRunsRule(s: State, e: Event)
    ensures Process(At(s), e).ran.RanHandler? <==> Rule(s, e).Some?
    ensures Rule(s, e).Some? ==> Process(At(s), e).ran == RanHandler(Label(s, e))
    ensures Rule(s, e).Some? ==> Process(At(s), e).result == Rule(s, e).value.result
    ensures Rule(s, e).None? ==> Process(At(s), e).result == Null && Process(At(s), e).after == At(s)
  {
    HandlersOfLabel(Rule, s, e);
  }

  /** `TestStateMachine sm;`, a `StateMachine<ATransitionTable, State1>`. */
  function NewMachine(): (m: Machine)
    ensures CurrentStateIs(m, State1)
    ensures !InTransition(m)
  {
    Create(StateId(State1))
  }

  /** `sm.process_event(event)`. */
  function Process(m: Machine, e: Event): (o: Outcome<DataRef>)
    requires ValidState(m.state)
    ensures StateFromId(m.state).Some? ==> (o.result == Null <==> e == Event4)
    ensures o.result != Null ==> o.result == DataOf(e)
    ensures StateFromId(m.state).None? ==> o.result == Null && o.after == m
    ensures StateFromId(m.state).Some? && !InTransition(m) ==>
              StateFromId(o.after.state).Some? && !InTransition(o.after)
  {
    LookupByState(Rule, m, e);
    ProcessEvent(ATransitionTable(), m, EventId(e))
  }

  /** Event1 moves State1 to State2, State2 to State3 and State3 to State1. */
  lemma Event1CyclesForward()
    ensures Process(At(State1), Event1).after == At(State2)
    ensures Process(At(State2), Event1).after == At(State3)
    ensures Process(At(State3), Event1).after == At(State1)
  {
    ProcessRunsRule(State1, Event1);
    ProcessRunsRule(State2, Event1);
    ProcessRunsRule(State3, Event1);
  }

  /** Event2 moves State1 to State3, State3 to State2 and State2 to State1. */
  lemma Event2CyclesBackward()
    ensures Process(At(State1), Event2).after == At(State3)
    ensures Process(At(State3), Event2).after == At(State2)
    ensures Process(At(State2), Event2).after == At(State1)
  {
    ProcessRunsRule(State1, Event2);
    ProcessRunsRule(State2, Event2);
    ProcessRunsRule(State3, Event2);
  }

  /** Event2 undoes Event1 and Event1 undoes Event2, from every state. */
  lemma Event1AndEvent2AreInverse(s: State)
    ensures Process(Process(At(s), Event1).after, Event2).after == At(s)
    ensures Process(Process(At(s), Event2).after, Event1).after == At(s)
  {
    Event1CyclesForward();
    Event2CyclesBackward();
  }

  /** Event3 is handled in every state and leaves the state unchanged. */
  lemma Event3KeepsState(s: State)
    ensures Process(At(s), Event3).after == At(s)
    ensures Process(At(s), Event3).ran == RanHandler(Label(s, Event3))
  {
  }

  /** A handled event returns its own `data` address; Event4, which no frame
      handles, returns the post-switch `nullptr` and changes nothing. */
  lemma ResultIsEventData(s: State, e: Event)
    ensures e != Event4 ==> Process(At(s), e).result == DataOf(e)
    ensures Process(At(s), e).result == Null <==> e == Event4
    ensures e == Event4 ==> Process(At(s), e).after == At(s)
    ensures e == Event4 ==> Process(At(s), e).ran == RanNothing
  {
    ProcessRunsRule(s, e);
  }

  /** The events `test_transition` sends, in order. */
  const TransitionEvents: seq<Event> :=
    [Event1, Event1, Event1, Event2, Event2, Event2, Event3, Event1]

  /** The states `test_transition` checks: before the first call and after
      each call. */
  const TransitionStates: seq<State> :=
    [State1, State2, State3, State1, State3, State2, State1, State1, State2]

  /** The state an event leads to in the cycle: Event1 one step forward,
      Event2 one step back, Event3 and Event4 nowhere. */
  function CycleStep(s: State, e: Event): State
  {
    match (s, e)
    case (State1, Event1) => State2
    case (State2, Event1) => State3
    case (State3, Event1) => State1
    case (State1, Event2) => State3
    case (State2, Event2) => State1
    case (State3, Event2) => State2
    case _ => s
  }

  /** From a resting state, every event leaves the machine resting in the
      state the cycle predicts. */
  lemma ProcessFollowsCycle(s: State, e: Event)
    ensures Process(At(s), e).after == At(CycleStep(s, e))
  {
    ProcessRunsRule(s, e);
  }

  /** Each call of `test_transition` moves the machine from the state the
      test checks before it to the state it checks after it. */
  lemma TransitionSteps()
    ensures |TransitionStates| == |TransitionEvents| + 1
    ensures forall i :: 0 <= i < |TransitionEvents| ==>
              Process(At(TransitionStates[i]), TransitionEvents[i]).after == At(TransitionStates[i + 1])
  {
    forall i | 0 <= i < |TransitionEvents|
      ensures Process(At(TransitionStates[i]), TransitionEvents[i]).after == At(TransitionStates[i + 1])
    {
      ProcessFollowsCycle(TransitionStates[i], TransitionEvents[i]);
      assert TransitionStates[i + 1] == CycleStep(TransitionStates[i], TransitionEvents[i]);
    }
  }

  /** `test_transition`: from State1, E1 E1 E1 E2 E2 E2 E3 E1 ends in State2. */
  lemma TestTransition()
    ensures Run(ATransitionTable(), NewMachine(), EventIds(TransitionEvents)) == At(State2)
  {
    var t := ATransitionTable();
    var ids := EventIds(TransitionEvents);
    var ms := seq(|TransitionStates|, i requires 0 <= i < |TransitionStates| => At(TransitionStates[i]));
    TransitionSteps();
    forall i | 0 <= i < |ids|
      ensures ProcessEvent(t, ms[i], ids[i]).after == ms[i + 1]
    {
      assert ProcessEvent(t, ms[i], ids[i]) == Process(At(TransitionStates[i]), TransitionEvents[i]);
    }
    RunFollowsTrace(t, ms, ids);
  }

  /** `test_result`: four calls on one fresh machine return `&event1.data`,
      `&event2.data`, `&event3.data` and `nullptr`, in that order. */
  lemma TestResult()
    ensures var o1 := Process(NewMachine(), Event1);
      var o2 := Process(o1.after, Event2);
      var o3 := Process(o2.after, Event3);
      var o4 := Process(o3.after, Event4);
      && o1.result == DataOf(Event1)
      && o2.result == DataOf(Event2)
      && o3.result == DataOf(Event3)
      && o4.result == Null
  {
    Event1AndEvent2AreInverse(State1);
    Event3KeepsState(State1);
    ResultIsEventData(State1, Event1);
    ResultIsEventData(State2, Event2);
    ResultIsEventData(State1, Event3);
    ResultIsEventData(State1, Event4);
  }
}
