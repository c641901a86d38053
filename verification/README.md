# switch_sm in Dafny

A model of `switch_sm`, a small finite-state-machine dispatch engine that
allocates nothing. Every call to `process_event` follows the same steps:

1. The current state id and the event id are packed into one dispatch key,
   `state | (event_id << 15)`.
2. The key selects one frame of a `switch`: a `transition(S, E, T)` frame, the
   `if_no_transition` (`on_no_match`) frame, or no frame at all.
3. A matched frame calls `exit_state(T::id)` through the scoped guard `sm_ref`
   and runs its body once.
4. The guard's destructor commits the pending target into `state` at most once.

The model is functional:

- The machine (`state`, `target`) and the guard are immutable records.
- A transition table is a map from case label to handler (result, optional
  target), plus the optional no-match result and the value returned after the
  switch.
- `process_event` is a pure function that computes the key, looks it up, runs
  at most one body and commits at most once.

Modules:

- `MachineBase`: `state_machine_base` and `sm_ref`.
- `DispatchKey`: key packing. OR is defined bit by bit on naturals and proved to
  be addition on disjoint bits.
- `Dispatch`: table, lookup, `process_event`, runs of event sequences.
- `Scaffolding`: the loop control of one switch frame.
- `Detail`: `detail::TupleSwitch`.
- `TestTypes`: the state and event lists the tests declare, with their ids.
- `SimpleTable`: test/test_simple.cpp.
- `FullTable`: test/state_machine_test.cpp.

The tests use a later spelling of the API (`on_event`, `transit_to`,
`on_no_match`, `StateMachine`, `current_state_is`). Its meaning matches the
header's `transition`, `if_no_transition` and `state`:

- An `on_event` with `transit_to(T)` is a handler whose target is `T`.
- An `on_event` without `transit_to` is a handler with no target, so the state
  does not change.
- A table without `on_no_match` falls through to its post-switch `return`.

The engine does not require a no-match handler: `ATransitionTable` in
test/test_simple.cpp has none, and an unmatched event returns `nullptr`. The
model makes the no-match handler an `Option`; its absence leads to the
post-switch value.

A handler body that runs off its end without returning leaves the switch, so
the functor returns its post-switch value. The model records such a handler
with the post-switch value as its result (`Scaffolding.RunFrame`,
`Scaffolding.ProcessEventByFrames`).

## Model

| member | source | states |
|---|---|---|
| MachineBase.Create | include/switch_sm.hpp:5-7 | A new machine is in the initial state with no transition pending (`target_state == -1`). |
| MachineBase.CompleteTransition | include/switch_sm.hpp:9-20 | Afterwards nothing is pending. A pending target becomes the state. Without a pending target the machine is unchanged. |
| MachineBase.CompleteTransitionIdempotent | include/switch_sm.hpp:9-16 | Completing twice gives the same machine as completing once. |
| MachineBase.Open | include/switch_sm.hpp:28 | A new guard refers to the machine unchanged and has no transition requested. |
| MachineBase.ExitState | include/switch_sm.hpp:34-39 | `exit_state(T)` records `T` as target and marks the guard. The state the handler sees through `state()` is unchanged. |
| MachineBase.Close | include/switch_sm.hpp:29-32 | The destructor commits exactly when `exit_state` was called in the scope. Otherwise the machine is untouched. |
| MachineBase.GuardWithoutRequestIsNoOp | include/switch_sm.hpp:28-32 | A scope with no `exit_state` changes neither `state` nor `target_state`. |
| MachineBase.GuardCommitsRequest | include/switch_sm.hpp:29-39 | After `exit_state(T)` with `T >= 0`, `state()` still shows the old state. After the scope, `state == T` and `target_state == -1`. |
| MachineBase.LastRequestWins | include/switch_sm.hpp:34-37 | Calling `exit_state` a second time overrides the first. Only the last request reaches the commit. |
| MachineBase.CommitAtMostOnce | include/switch_sm.hpp:29-32 | Once the guard has committed, nothing is pending, and a further `complete_transition` changes nothing. |
| DispatchKey.BitOr | include/switch_sm.hpp:48 | The bitwise OR of two non-negative values is at least each of them and at most their sum. |
| DispatchKey.OrDisjoint | include/switch_sm.hpp:48 | OR of a value below 2^n with a multiple of 2^n is their sum. |
| DispatchKey.ShiftFitsExactly | include/switch_sm.hpp:48 | `event_id << 15` stays below 2^31 exactly when `event_id < 2^16`. This is the bound that rules out signed overflow. |
| DispatchKey.Key | include/switch_sm.hpp:48 | For `state < 2^15` and `event_id < 2^16`, the bitwise OR of `state` and `event_id << 15` equals `state + event_id * 2^15` and fits in a signed int. |
| DispatchKey.KeyRoundTrip | include/switch_sm.hpp:48 | Masking and shifting a key gives back the state id and the event id it was packed from. |
| DispatchKey.KeyDecodeRoundTrip | include/switch_sm.hpp:48 | Every non-negative int key decodes to valid ids that pack back to the same key. |
| DispatchKey.KeyInjective | include/switch_sm.hpp:62 | The key equals the case label of `(S::id, E::id)` if and only if both ids match. |
| DispatchKey.KeyZero | include/switch_sm.hpp:54 | Key 0 is produced only by state id 0 with event id 0. |
| Dispatch.Lookup | include/switch_sm.hpp:48-72 | The corrected switch, which differs from include/switch_sm.hpp:54 only at key 0. A label match selects its handler. Otherwise the key reaches the no-match frame exactly when the table has one. Otherwise control leaves the switch. |
| Dispatch.HeaderLookup | include/switch_sm.hpp:45-54 | The switch as written. Key 0 always leaves the switch, whatever the table holds. Any other key selects its handler if and only if it is a label of the table, reaches the no-match body if and only if it is not a label and the table has one, and otherwise leaves the switch. |
| Dispatch.HeaderCaseZeroSkipsNoMatch | include/switch_sm.hpp:45-72 | Example table with only a no-match frame: as written, key 0 skips that frame while key 1 reaches it. The corrected lookup routes key 0 to it too. |
| Dispatch.HeaderAgreesAwayFromZero | include/switch_sm.hpp:45-72 | The header routes a pair the same way as the corrected lookup if and only if the pair is not (0, 0), or key 0 leaves the switch anyway. |
| Dispatch.ProcessEvent | include/switch_sm.hpp:86-90 | A handler runs if and only if its label is the current key, and its result is returned unchanged. The no-match body runs if and only if no label matches and the table has one. Otherwise the post-switch value is returned. Only a handler with a target changes the machine, ending in `(T, -1)`. |
| Dispatch.RanHandlerMatchesPair | include/switch_sm.hpp:62 | The handler labelled `(S, E)` runs if and only if the machine is in `S` and the event is `E`. No other handler runs. |
| Dispatch.RanHandlerDecodes | include/switch_sm.hpp:62-63 | When the current key is a label, a handler runs, and its label decodes to the current state and the dispatched event, so it gets the event as its own type. |
| Dispatch.ProcessEventKeepsInvariant | include/switch_sm.hpp:26-43 | With valid targets in the table, the state stays a valid id. A call that starts with nothing pending ends with nothing pending. |
| Dispatch.FallThroughUnreachable | include/switch_sm.hpp:68-72 | If the table has a no-match value and no body returns the post-switch value, that value is never returned. |
| Dispatch.Run | include/switch_sm.hpp:86-90 | A sequence of events keeps the state a valid id, and a run that starts with nothing pending ends with nothing pending. |
| Dispatch.RunFollowsTrace | include/switch_sm.hpp:86-90 | If each step of a trace of machines is one `process_event`, a run ends in the trace's last machine. |
| Dispatch.RunAppend | include/switch_sm.hpp:86-90 | Running `a` and then `b` equals running `a + b`: the final state depends only on the start state and the events. |
| Scaffolding.ProcessEventByFrames | include/switch_sm.hpp:45-90 | Running the frame the key selects through the loop of one frame (or leaving the switch when none is selected) gives the same result and the same machine as `process_event`. |
| Scaffolding.RunFrame | include/switch_sm.hpp:56-72 | The loop of one frame runs the body exactly once. A `transition` frame calls `exit_state` exactly once; a frame without a target never does. The result is the body's return value, or the post-switch value if the body falls off its end. The frame reports a throw exactly when the body throws. Afterwards, whether the body returned, fell off or threw, the state is `T` with nothing pending, because `~sm_ref` also runs during unwinding; a frame without a target leaves the machine unchanged. |
| Detail.TupleSwitch | test/test_tuple_switch.cpp:29-44 | `TupleSwitch(i, f)` invokes `f` on the i-th element exactly once: its counter rises by one and every other counter stays. |
| Detail.SwitchAllCounts | test/test_tuple_switch.cpp:29-38 | After a series of calls, each counter equals its start value plus the number of calls that selected it. |
| Detail.DistinctIndicesSelectDistinctElements | test/test_tuple_switch.cpp:39-44 | Two in-range indices have the same effect if and only if they are equal, so every index selects its own element. |
| Detail.TupleSwitchScenario | test/test_tuple_switch.cpp:23-45 | The test's counters: 1, 2 and 4 calls at index 0 give 1, 2 and 4. Indices 1, 2 and 3 then give 1 each. |
| TestTypes.StateId | test/test_simple.cpp:14 | A state's id is its position in `std::tuple<State1, State2, State3>`. |
| TestTypes.EventId | test/test_simple.cpp:15 | An event's id is its position in `std::tuple<Event1, Event2, Event3, Event4>`. |
| TestTypes.StateIdInjective | test/test_simple.cpp:14 | Two states have the same id if and only if they are the same state. |
| TestTypes.StateFromId | test/test_simple.cpp:14 | An id names a state if and only if it lies in [0, 3), and that state has the id. |
| TestTypes.EventFromId | test/test_simple.cpp:15 | An id names an event if and only if it lies in [0, 4), and that event has the id. |
| TestTypes.Label | test/test_simple.cpp:23 | The label of `on_event(S, E)` is `S::id + E::id * 2^15`. |
| TestTypes.PairOfLabel | test/test_simple.cpp:21-32 | Decoding the label of a pair gives that pair. |
| TestTypes.LabelOfPair | test/test_simple.cpp:21-32 | A key that decodes to a pair is the label of that pair. |
| TestTypes.HandlersOfLabel | test/test_simple.cpp:21-32 | A pair's label is in the table if and only if the pair has an `on_event` line, and it selects that line's handler. |
| TestTypes.HandlersOfKeys | test/test_simple.cpp:21-32 | Every key in the table is the label of some pair. |
| TestTypes.LookupByState | test/test_simple.cpp:19-34 | The current state's key with an event is in the table if and only if the state id names a listed state whose pair has an `on_event` line; it then selects that line's handler. |
| TestTypes.CurrentStateIs | test/test_simple.cpp:45-55 | `current_state_is<S>()` holds if and only if the state id decodes to `S`. |
| SimpleTable.Rule | test/test_simple.cpp:23-31 | Every pair but those of Event4 has an `on_event` line, returning its event's `data`. Event1 transits one step forward in the cycle State1, State2, State3, Event2 one step back, and Event3 has no `transit_to`. |
| SimpleTable.ATransitionTable | test/test_simple.cpp:17-35 | Every target is a valid state, the handlers are the `on_event` lines under their labels, there is no `on_no_match`, and the post-switch value is `nullptr`. |
| SimpleTable.Process | test/test_simple.cpp:19-34 | From a listed state, the result is `nullptr` if and only if the event is Event4; any other result is the event's own `data`. A state id outside the list matches no label. A resting machine in a listed state ends resting in a listed state. |
| SimpleTable.NewMachine | test/test_simple.cpp:37-45 | A new `TestStateMachine` is in State1 with nothing pending. |
| SimpleTable.ProcessRunsRule | test/test_simple.cpp:19-34 | From a resting state, an event runs the handler of its `on_event` line if and only if one exists, and returns that handler's result. Otherwise it returns `nullptr` and leaves the machine as it was. |
| SimpleTable.Event1CyclesForward | test/test_simple.cpp:23-25 | Event1 moves State1 to State2, State2 to State3, and State3 to State1. |
| SimpleTable.Event2CyclesBackward | test/test_simple.cpp:26-28 | Event2 moves State1 to State3, State3 to State2, and State2 to State1. |
| SimpleTable.Event1AndEvent2AreInverse | test/test_simple.cpp:23-28 | From every state, Event2 undoes Event1 and Event1 undoes Event2. |
| SimpleTable.Event3KeepsState | test/test_simple.cpp:29-31 | Event3 is handled in every state by its own handler and does not change the state. |
| SimpleTable.ResultIsEventData | test/test_simple.cpp:23-33 | A handled event returns the address of its own `data`. The result is `nullptr` if and only if the event is Event4, which has no handler, leaves the state unchanged and runs no body. |
| SimpleTable.ProcessFollowsCycle | test/test_simple.cpp:23-31 | From a resting state, every event leaves the machine resting in the state the cycle predicts: one forward for Event1, one back for Event2, unchanged otherwise. |
| SimpleTable.TransitionSteps | test/test_simple.cpp:44-55 | Each call in `test_transition` takes the machine from the state the test checks before the call to the state it checks after it. |
| SimpleTable.TestTransition | test/test_simple.cpp:43-56 | From State1, the events E1 E1 E1 E2 E2 E2 E3 E1 end in State2. |
| SimpleTable.TestResult | test/test_simple.cpp:58-64 | Four calls in a row on one new machine, with Event1 to Event4, return `&event1.data`, `&event2.data`, `&event3.data` and `nullptr`. |
| FullTable.Rule | test/state_machine_test.cpp:26-61 | Every pair but those of Event4 has an `on_event` line, and Event_j transits to State_j. |
| FullTable.TransitionTable | test/state_machine_test.cpp:20-66 | Every target is valid, the handlers are the `on_event` lines under their labels, `on_no_match` returns "NO TRANSITION", the post-switch value is "SHOULD NEVER HAPPEN", and no handler returns it. |
| FullTable.Process | test/state_machine_test.cpp:20-66 | The result is never "SHOULD NEVER HAPPEN". Event4, or a state id outside the list, gets "NO TRANSITION" and changes nothing. Event_j in State_i returns "State_i Event_j" and ends resting in State_j. |
| FullTable.RuleOfPair | test/state_machine_test.cpp:26-61 | For i, j in 1..3, the `on_event(State_i, Event_j)` line returns "State_i Event_j" and transits to State_j. |
| FullTable.HandledPairs | test/state_machine_test.cpp:26-61 | Event_j in State_i runs exactly the handler for that pair. It returns the pair's name and moves to State_j. |
| FullTable.Event4HitsNoMatch | test/state_machine_test.cpp:62 | Event4 has no handler in any state. `on_no_match` answers "NO TRANSITION" and the state does not change. |
| FullTable.NeverReturnsShouldNeverHappen | test/state_machine_test.cpp:62-64 | For every valid state id and event id, "SHOULD NEVER HAPPEN" is never returned. |
| FullTable.RoundEndsInState3 | test/state_machine_test.cpp:141-144 | From any state, one round of Event1, Event2, Event3, Event4 ends in State3, and the last call returns "NO TRANSITION". |
| FullTable.DriveMain | test/state_machine_test.cpp:137-145 | The loop in `main` starts in State1, and every completed iteration ends in State3. |

## Findings

| source | as written | input that shows it | evidently intended | confidence | as-written member | corrected member |
|---|---|---|---|---|---|---|
| include/switch_sm.hpp:54 | The scaffolding of `transitions` owns the label `case 0`. Key 0 re-enters the table body at its first frame, and that frame's `goto break_out` leaves the switch. | State id 0 with event id 0 in a table that has an `if_no_transition` frame: the post-switch value is returned, not the no-match body. A `transition` for that pair would duplicate `case 0` and not compile. | Key 0 is routed like any other key: to its handler, or else to the no-match frame. | medium; not executed | Dispatch.HeaderLookup, Dispatch.HeaderCaseZeroSkipsNoMatch | Dispatch.Lookup |

The rest of the model uses the corrected `Dispatch.Lookup`. The tests need it:
both tables declare a handler for (State1, Event1), whose key is 0.

## Left out

- The `switch`/`goto`/`for(;;)` macro scaffolding is modelled by its meaning: `Dispatch.Lookup` for frame selection and `Scaffolding.RunFrame` for the loop of one frame. The macro text itself is not modelled.
- `void *` event passing, `static_cast`, `std::result_of` and the perfect forwarding in `make_state_machine` are C++ typing devices with no behaviour of their own. The event a handler receives is fixed by its label (`Dispatch.RanHandlerDecodes`).
- Handler results are modelled as values chosen per (state, event) pair. In test/test_simple.cpp a result is the address of the event object's `data`. It is modelled as `DataOf(event)` because each event type has exactly one object in that test.
- The later API header (`on_event`, `transit_to`, `on_no_match`, `StateMachine`, `current_state_is`) is not part of this model. Its meaning is taken from how the tests use it.
- The implementation of `detail::TupleSwitch` is not in include/switch_sm.hpp; its contract comes from test/test_tuple_switch.cpp. An index outside the list is excluded by a precondition because the test never uses one.
- Entry/exit hooks and `start` do not appear in the header, so they are not modelled.
- Compile-time errors (a type missing from its list, two handlers for one pair) are not modelled as runtime behaviour. `HandlersOf` gives each pair at most one handler by construction. `Dispatch.HeaderAccepts` records the header's duplicate-`case 0` rejection.
- Timing and output with `std::chrono` and `std::cout` are benchmarking, not behaviour. The Boost.MSM comparison is compiled out (`TEST_MSM 0`) and is a foreign library.
- FullTable.DriveMain takes the iteration count as a parameter. `main` uses 100 * 1000 * 1000; the loop's `unsigned int` counter does not wrap for that bound.
- Exceptions are modelled only inside one frame: `Scaffolding.RunFrame` reports that the body threw and commits the requested target, as `~sm_ref` does while the stack unwinds. The propagation of the exception out of `process_event` is not modelled; `Dispatch.ProcessEvent` takes every handler body to return.
- The gtest framework is not modelled. Static counters appear only through the counts the assertions check.
- State ids are bounded by 2^15 and event ids by 2^16 (`DispatchKey.ValidState`, `DispatchKey.ValidEvent`). Larger event ids would overflow the signed `event_id << 15`, which is undefined behaviour in C++.
- There is no concurrency in the engine, and none is modelled.
