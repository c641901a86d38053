/** The machine record `state_machine_base` and the scoped guard `sm_ref` of
    include/switch_sm.hpp. Both are immutable values here: every member that
    mutates a field in C++ is a function returning the updated value, and the
    guard's destructor is the explicit `Close` step. */
module MachineBase {

  /** The value of `target_state` while no transition is pending. */
  const NoTarget: int := -1

  /** `state_machine_base`: the current state id and the pending target id. */
  datatype Machine = Machine(state: int, target: int)

  /** `in_transition()`: a target other than the sentinel is pending. */
  predicate InTransition(m: Machine)
  {
    m.target != NoTarget
  }

  /** The constructor `state_machine_base(initial_state)`. */
  function Create(initial: int): (m: Machine)
    ensures m.state == initial
    ensures !InTransition(m)
  {
    Machine(initial, NoTarget)
  }

  /** `complete_transition()`: moves a pending target into the state. */
  function CompleteTransition(m: Machine): (r: Machine)
    ensures !InTransition(r)
    ensures InTransition(m) ==> r.state == m.target
    ensures !InTransition(m) ==> r == m
  {
    if InTransition(m) then Machine(m.target, NoTarget) else m
  }

  /** Committing twice is the same as committing once. */
  lemma CompleteTransitionIdempotent(m: Machine)
    ensures CompleteTransition(CompleteTransition(m)) == CompleteTransition(m)
  {
  }

  /** `sm_ref`: the machine it refers to and whether `exit_state` was called
      during its scope. */
  datatype Guard = Guard(sm: Machine, requested: bool)

  /** The guard's constructor: nothing requested yet. */
  function Open(m: Machine): (g: Guard)
    ensures g.sm == m
    ensures !g.requested
  {
    Guard(m, false)
  }

  /** `sm_ref::state()`: the state the handler observes. */
  function ObservedState(g: Guard): int
  {
    g.sm.state
  }

  /** `exit_state(next_state)`: records the target and marks the guard, but
      leaves the observed state alone. */
  function ExitState(g: Guard, next: int): (r: Guard)
    ensures r.requested
    ensures r.sm.target == next
    ensures ObservedState(r) == ObservedState(g)
  {
    Guard(g.sm.(target := next), true)
  }

  /** The guard's destructor: commits only when `exit_state` was called. */
  function Close(g: Guard): (m: Machine)
    ensures !g.requested ==> m == g.sm
    ensures g.requested ==> !InTransition(m)
    ensures g.requested && InTransition(g.sm) ==> m.state == g.sm.target
    ensures g.requested && !InTransition(g.sm) ==> m == g.sm
  {
    if g.requested then CompleteTransition(g.sm) else g.sm
  }

  /** A scope without `exit_state` changes neither field, even when the
      machine already had a target pending. */
  lemma GuardWithoutRequestIsNoOp(m: Machine)
    ensures Close(Open(m)) == m
  {
  }

  /** After `exit_state(next)` with a real state id the handler still sees the
      old state; once the scope exits the state is `next` and nothing is
      pending any more. */
  lemma GuardCommitsRequest(m: Machine, next: int)
    requires next >= 0
    ensures ObservedState(ExitState(Open(m), next)) == m.state
    ensures Close(ExitState(Open(m), next)) == Machine(next, NoTarget)
  {
  }

  /** Only the last `exit_state` of a scope matters. */
  lemma LastRequestWins(g: Guard, first: int, second: int)
    ensures ExitState(ExitState(g, first), second) == ExitState(g, second)
  {
  }

  /** A commit that follows the guard's own commit changes nothing, so a
      transition is never applied twice. */
  lemma CommitAtMostOnce(g: Guard)
    requires g.requested
    ensures !InTransition(Close(g))
    ensures CompleteTransition(Close(g)) == Close(g)
  {
  }
}
