/**
 * The transition algorithm of the abstract event-driven state machine, stated
 * as what happens once the event has been dispatched: given whether the
 * event ended up aborted, what dispatch threw and which new state the event
 * resolves to, which hooks run next, whether the state is committed, and what
 * is thrown.
 */
module Transitions {
  import opened Values
  import opened Exceptions
  import opened Events

  /** One call `_transition` makes on its hooks. */
  datatype Hook =
      /** `trigger($event)`, with the event's fields as they were handed over. */
    | Triggered(event: TransitionEvent, name: string, transition: string, target: Value,
                params: map<string, Value>)
      /** `_getNewState($event)`. */
    | ResolvedNewState(event: TransitionEvent)
      /** `_setState($state)`. */
    | StateSet(state: Value)

  /** The hooks called after dispatch, the committed state if any, and what is thrown. */
  datatype Run = Run(after: seq<Hook>, committed: Option<Value>, error: Option<Exception>)

  const MSG_ABORTED := "Transition \"%1$s\" was aborted"
  const MSG_NULL_STATE := "Status after transition \"%1$s\" is null"
  const MSG_LISTENER_THREW := "An event for transition \"%1$s\" threw an exception"

  /**
   * Steps 3 to 7 of `_transition($t)` on machine `machine`, after `trigger`
   * has run on `ev`: `aborted` is the event's abort flag, `thrown` what
   * `trigger` threw, and `resolved` what `_getNewState($ev)` returns.
   */
  function AfterDispatch(machine: object, ev: TransitionEvent, t: string, aborted: Value,
                         thrown: Option<Exception>, resolved: Value): (r: Run)
    // a throwable that is not an Exception escapes the catch untouched
    ensures thrown.Some? && !IsCatchable(thrown.value) ==> r == Run([], None, thrown)
    // abort beats an exception: nothing is resolved or committed, the exception becomes `previous`
    ensures (thrown.None? || IsCatchable(thrown.value)) && Truthy(aborted) ==>
              r == Run([], None, Some(NewCouldNotTransition(MSG_ABORTED, 0, thrown, machine, Some(t))))
    // a null new state is not committed; the exception it raises drops what dispatch threw
    ensures (thrown.None? || IsCatchable(thrown.value)) && !Truthy(aborted) && resolved == Null ==>
              r == Run([ResolvedNewState(ev)], None,
                       Some(NewCouldNotTransition(MSG_NULL_STATE, 0, None, machine, None)))
    // otherwise the new state is committed by exactly one `_setState`, even when dispatch threw
    ensures r.committed.Some? <==>
              (thrown.None? || IsCatchable(thrown.value)) && !Truthy(aborted) && resolved != Null
    ensures r.committed.Some? ==>
              r.committed.value == resolved && r.after == [ResolvedNewState(ev), StateSet(resolved)]
    ensures r.committed.None? ==> forall s :: StateSet(s) !in r.after
    // after the commit, what dispatch threw is rethrown wrapped
    ensures r.committed.Some? && thrown.Some? ==>
              r.error == Some(NewStateMachineError(MSG_LISTENER_THREW, 0, thrown, machine))
    // the call returns normally exactly when nothing was thrown, aborted or null
    ensures r.error.None? <==> thrown.None? && !Truthy(aborted) && resolved != Null
    ensures r.error.None? ==> r.committed.Some?
    ensures r.error.Some? && r.error.value.CouldNotTransition? ==> r.committed.None?
    ensures r.error.Some? && IsCatchable(r.error.value) ==>
              IsStateMachineException(r.error.value) && r.error.value.stateMachine == machine
  {
    if thrown.Some? && !IsCatchable(thrown.value) then
      Run([], None, thrown)
    else if Truthy(aborted) then
      Run([], None, Some(NewCouldNotTransition(MSG_ABORTED, 0, thrown, machine, Some(t))))
    else if resolved == Null then
      Run([ResolvedNewState(ev)], None,
          Some(NewCouldNotTransition(MSG_NULL_STATE, 0, None, machine, None)))
    else if thrown.Some? then
      Run([ResolvedNewState(ev), StateSet(resolved)], Some(resolved),
          Some(NewStateMachineError(MSG_LISTENER_THREW, 0, thrown, machine)))
    else
      Run([ResolvedNewState(ev), StateSet(resolved)], Some(resolved), None)
  }
}
