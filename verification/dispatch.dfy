/** A transition table functor and `process_event` (include/switch_sm.hpp
    lines 45-90): the key of the current state and the event selects one
    frame of the switch; a matched frame requests its target through the
    guard, and the guard commits when the call ends. */
module Dispatch {
  import opened Wrappers
  import opened MachineBase
  import opened DispatchKey

  /** One `transition(S, E, T)` frame, or in the later spelling one
      `on_event(S, E)` with an optional `transit_to(T)`: the value its body
      returns and the state id it requests, if any. */
  datatype Handler<R> = Handler(result: R, target: Option<int>)

  /** A table functor: its frames keyed by case label, the body of
      `if_no_transition` / `on_no_match` when there is one, and the value the
      functor returns after the switch. */
  datatype Table<R> = Table(handlers: map<int, Handler<R>>, noMatch: Option<R>, fallThrough: R)

  /** The frame control reaches for one key. */
  datatype Route<R> = ToHandler(h: Handler<R>) | ToNoMatch(r: R) | ToFallThrough

  /** Which body `process_event` ran: a handler (by its label), the no-match
      body, or none at all. */
  datatype Ran = RanHandler(key: int) | RanNoMatch | RanNothing

  /** The functor's return value, the machine after the guard's scope, and
      which body ran. */
  datatype Outcome<R> = Outcome(result: R, after: Machine, ran: Ran)

  /** Every label is a key of valid ids and every requested target is a
      valid state id: what `S::id`, `E::id` and `T::id` guarantee. */
  predicate WellFormed<R>(t: Table<R>)
  {
    forall k :: k in t.handlers ==>
      0 <= k < IntLimit
      && (t.handlers[k].target.Some? ==> ValidState(t.handlers[k].target.value))
  }

  /** The switch: a label match wins, otherwise the `default:` frame if the
      table has one, otherwise control leaves the switch. */
  function Lookup<R>(t: Table<R>, key: int): (r: Route<R>)
    ensures r.ToHandler? <==> key in t.handlers
    ensures r.ToHandler? ==> r.h == t.handlers[key]
    ensures r.ToNoMatch? <==> key !in t.handlers && t.noMatch.Some?
    ensures r.ToNoMatch? ==> r.r == t.noMatch.value
  {
    if key in t.handlers then ToHandler(t.handlers[key])
    else if t.noMatch.Some? then ToNoMatch(t.noMatch.value)
    else ToFallThrough
  }

  /** The switch of include/switch_sm.hpp as written: the scaffolding owns
      the label `case 0`, which re-enters the table body at its first frame,
      whose `goto break_out` leaves the switch. */
  function HeaderLookup<R>(t: Table<R>, key: int): (r: Route<R>)
    ensures r.ToHandler? <==> key != 0 && key in t.handlers
    ensures r.ToHandler? ==> r.h == t.handlers[key]
    ensures r.ToNoMatch? <==> key != 0 && key !in t.handlers && t.noMatch.Some?
    ensures r.ToNoMatch? ==> r.r == t.noMatch.value
    ensures r.ToFallThrough? <==> key == 0 || (key !in t.handlers && t.noMatch.None?)
  {
    if key == 0 then ToFallThrough else Lookup(t, key)
  }

  /** The header rejects a table with a frame for key 0: its label would
      duplicate the scaffolding's `case 0`. */
  predicate HeaderAccepts<R>(t: Table<R>)
  {
    0 !in t.handlers
  }

  /** The header's quirk on a concrete table: with a `default:` frame and no
      handlers, the first state with the first event never reaches the
      default, whereas every other key does. */
  lemma HeaderCaseZeroSkipsNoMatch<R>(noMatch: R, fallThrough: R)
    ensures var t := Table(map[], Some(noMatch), fallThrough);
      && HeaderAccepts(t)
      && HeaderLookup(t, Key(0, 0)) == ToFallThrough
      && HeaderLookup(t, Key(1, 0)) == ToNoMatch(noMatch)
      && Lookup(t, Key(0, 0)) == ToNoMatch(noMatch)
  {
  }

  /** The header and the corrected switch agree on every key except 0. */
  lemma HeaderAgreesAwayFromZero<R>(t: Table<R>, s: int, e: int)
    requires ValidState(s) && ValidEvent(e)
    ensures HeaderLookup(t, Key(s, e)) == Lookup(t, Key(s, e)) <==>
            !(s == 0 && e == 0) || Lookup(t, 0) == ToFallThrough
  {
    KeyZero(s, e);
  }

  /** `process_event(event)`: open the guard, run the frame the key selects,
      call `exit_state` when that frame requests a target, and commit as the
      guard closes. */
  function ProcessEvent<R>(t: Table<R>, m: Machine, e: int): (o: Outcome<R>)
    requires ValidState(m.state) && ValidEvent(e)
    ensures o.ran.RanHandler? <==> Key(m.state, e) in t.handlers
    ensures o.ran.RanHandler? ==> o.ran.key == Key(m.state, e)
    ensures o.ran.RanHandler? ==> o.result == t.handlers[o.ran.key].result
    ensures o.ran.RanNoMatch? <==> Key(m.state, e) !in t.handlers && t.noMatch.Some?
    ensures o.ran.RanNoMatch? ==> o.result == t.noMatch.value
    ensures o.ran.RanNothing? ==> o.result == t.fallThrough
    ensures !o.ran.RanHandler? ==> o.after == m
    ensures o.ran.RanHandler? && t.handlers[o.ran.key].target.None? ==> o.after == m
    ensures o.ran.RanHandler? && t.handlers[o.ran.key].target.Some?
            && t.handlers[o.ran.key].target.value >= 0
            ==> o.after == Machine(t.handlers[o.ran.key].target.value, NoTarget)
  {
    var key := Key(m.state, e);
    var g := Open(m);
    match Lookup(t, key)
    case ToHandler(h) =>
      var g' := if h.target.Some? then ExitState(g, h.target.value) else g;
      Outcome(h.result, Close(g'), RanHandler(key))
    case ToNoMatch(r) => Outcome(r, Close(g), RanNoMatch)
    case ToFallThrough => Outcome(t.fallThrough, Close(g), RanNothing)
  }

  /** The handler that runs is the one whose label names exactly the current
      state and the dispatched event, so it receives the event as its own
      event type. */
  lemma RanHandlerMatchesPair<R>(t: Table<R>, m: Machine, e: int, s0: int, e0: int)
    requires ValidState(m.state) && ValidEvent(e)
    requires ValidState(s0) && ValidEvent(e0)
    requires Key(s0, e0) in t.handlers
    ensures ProcessEvent(t, m, e).ran == RanHandler(Key(s0, e0)) <==> m.state == s0 && e == e0
  {
    KeyInjective(m.state, e, s0, e0);
  }

  /** The handler that runs receives the event that was dispatched. */
  lemma RanHandlerDecodes<R>(t: Table<R>, m: Machine, e: int)
    requires ValidState(m.state) && ValidEvent(e)
    requires Key(m.state, e) in t.handlers
    ensures ProcessEvent(t, m, e).ran.RanHandler?
    ensures StateOf(ProcessEvent(t, m, e).ran.key) == m.state
    ensures EventOf(ProcessEvent(t, m, e).ran.key) == e
  {
    KeyRoundTrip(m.state, e);
  }

  /** A well-formed table keeps the state a valid id, and a machine with no
      pending target has none after the call. */
  lemma ProcessEventKeepsInvariant<R>(t: Table<R>, m: Machine, e: int)
    requires WellFormed(t)
    requires ValidState(m.state) && ValidEvent(e)
    ensures ValidState(ProcessEvent(t, m, e).after.state)
    ensures !InTransition(m) ==> !InTransition(ProcessEvent(t, m, e).after)
  {
  }

  /** With a no-match body whose value differs from the post-switch value and
      handlers that never return it either, the post-switch value is never
      returned. */
  lemma FallThroughUnreachable<R>(t: Table<R>, m: Machine, e: int)
    requires ValidState(m.state) && ValidEvent(e)
    requires t.noMatch.Some? && t.noMatch.value != t.fallThrough
    requires forall k :: k in t.handlers ==> t.handlers[k].result != t.fallThrough
    ensures ProcessEvent(t, m, e).result != t.fallThrough
    ensures !ProcessEvent(t, m, e).ran.RanNothing?
  {
  }

  predicate ValidEvents(events: seq<int>)
  {
    forall i :: 0 <= i < |events| ==> ValidEvent(events[i])
  }

  /** The machine after processing `events` one after the other. */
  function Run<R>(t: Table<R>, m: Machine, events: seq<int>): (r: Machine)
    requires WellFormed(t) && ValidState(m.state) && ValidEvents(events)
    ensures ValidState(r.state)
    ensures !InTransition(m) ==> !InTransition(r)
    decreases |events|
  {
    if |events| == 0 then m
    else
      ProcessEventKeepsInvariant(t, m, events[0]);
      Run(t, ProcessEvent(t, m, events[0]).after, events[1..])
  }

  /** A run visits the machines of a trace whose every step is one
      `process_event`, and ends at the trace's last machine. */
  lemma {:induction false} RunFollowsTrace<R>(t: Table<R>, ms: seq<Machine>, events: seq<int>)
    requires WellFormed(t) && ValidEvents(events)
    requires |ms| == |events| + 1
    requires forall i :: 0 <= i < |ms| ==> ValidState(ms[i].state)
    requires forall i :: 0 <= i < |events| ==> ProcessEvent(t, ms[i], events[i]).after == ms[i + 1]
    ensures Run(t, ms[0], events) == ms[|events|]
    decreases |events|
  {
    if |events| != 0 {
      RunFollowsTrace(t, ms[1..], events[1..]);
    }
  }

  /** Processing two sequences in turn is processing their concatenation. */
  lemma {:induction false} RunAppend<R>(t: Table<R>, m: Machine, a: seq<int>, b: seq<int>)
    requires WellFormed(t) && ValidState(m.state) && ValidEvents(a) && ValidEvents(b)
    ensures ValidEvents(a + b)
    ensures Run(t, m, a + b) == Run(t, Run(t, m, a), b)
    decreases |a|
  {
    assert ValidEvents(a + b) by {
      forall i | 0 <= i < |a + b|
        ensures ValidEvent((a + b)[i])
      {
        if i < |a| { assert (a + b)[i] == a[i]; } else { assert (a + b)[i] == b[i - |a|]; }
      }
    }
    if |a| == 0 {
      assert a + b == b;
    } else {
      ProcessEventKeepsInvariant(t, m, a[0]);
      var m' := ProcessEvent(t, m, a[0]).after;
      assert (a + b)[1..] == a[1..] + b;
      RunAppend(t, m', a[1..], b);
    }
  }
}
