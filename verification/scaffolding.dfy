/** The control flow of one frame of the switch (include/switch_sm.hpp
    lines 56-72). A `transition` frame loops on `_sm_ref.in_transition`: the
    first pass calls `exit_state(T::id)` and runs the body, a second pass
    (reached only when the body does not return) leaves the switch. An
    `if_no_transition` frame is entered through its `default:` label, past its
    `if (true) goto break_out`, so that test only fires on a second pass. */
module Scaffolding {
  import opened Wrappers
  import opened MachineBase
  import opened DispatchKey
  import opened Dispatch

  /** A handler body: it returns a value, runs to its end, or throws. */
  datatype Body<R> = Returns(value: R) | FallsOff | Throws

  /** Runs one frame under a fresh guard. `target` is `Some(T::id)` for a
      `transition` frame, and `None` both for an `on_event` without
      `transit_to` and for the `if_no_transition` frame.
      Returns the functor's result (`fallThrough` when the body leaves the
      switch; meaningless when it throws), whether the body threw, the
      machine after the guard's scope (the destructor also runs while an
      exception unwinds), and how many times the body and `exit_state` ran. */
  method RunFrame<R>(m: Machine, target: Option<int>, body: Body<R>, fallThrough: R)
    returns (result: R, threw: bool, after: Machine, bodyRuns: nat, exitCalls: nat)
    requires target.Some? ==> target.value >= 0
    ensures bodyRuns == 1
    ensures exitCalls == (if target.Some? then 1 else 0)
    ensures threw <==> body.Throws?
    ensures body.Returns? ==> result == body.value
    ensures body.FallsOff? ==> result == fallThrough
    ensures target.Some? ==> after == Machine(target.value, NoTarget)
    ensures target.None? ==> after == m
  {
    var g := Open(m);
    var entered := false;
    var done := false;
    result := fallThrough;
    threw := false;
    bodyRuns, exitCalls := 0, 0;
    while !done
      invariant bodyRuns <= 1
      invariant entered <==> bodyRuns == 1
      invariant exitCalls == (if target.Some? && entered then 1 else 0)
      invariant g == (if target.Some? && entered then ExitState(Open(m), target.value) else Open(m))
      invariant done ==> entered
      invariant entered && !body.FallsOff? ==> done
      invariant threw <==> entered && body.Throws?
      invariant result == (if done && body.Returns? then body.value else fallThrough)
      decreases (if done then 0 else 1) + (if entered then 0 else 1)
    {
      var breakOut := if target.Some? then g.requested else entered;
      if breakOut {
        done := true;
      } else {
        if target.Some? {
          g := ExitState(g, target.value);
          exitCalls := exitCalls + 1;
        }
        entered := true;
        bodyRuns := bodyRuns + 1;
        match body
        case Returns(v) =>
          result := v;
          done := true;
        case Throws =>
          threw := true;
          done := true;
        case FallsOff =>
      }
    }
    after := Close(g);
  }

  /** `process_event` assembled from frames: the key selects a handler frame,
      run with its target and a body returning its result, or the
      `if_no_transition` frame, run with no target; with neither, control
      leaves the switch. A body that runs off its end is a handler whose
      result is the post-switch value, so the table's handlers already
      cover it. The frame-by-frame run agrees with `ProcessEvent`. */
  method ProcessEventByFrames<R>(t: Table<R>, m: Machine, e: int) returns (result: R, after: Machine)
    requires WellFormed(t)
    requires ValidState(m.state) && ValidEvent(e)
    ensures result == ProcessEvent(t, m, e).result
    ensures after == ProcessEvent(t, m, e).after
  {
    var threw, bodyRuns, exitCalls;
    match Lookup(t, Key(m.state, e))
    case ToHandler(h) =>
      result, threw, after, bodyRuns, exitCalls := RunFrame(m, h.target, Returns(h.result), t.fallThrough);
    case ToNoMatch(r) =>
      result, threw, after, bodyRuns, exitCalls := RunFrame(m, None, Returns(r), t.fallThrough);
    case ToFallThrough =>
      result, after := t.fallThrough, m;
  }
}
