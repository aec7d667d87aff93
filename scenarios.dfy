/**
 * Client code that drives a machine through the outcomes its unit tests
 * exercise; each outcome follows from the contracts alone. Each scenario
 * takes a machine whose listeners and params are as described.
 */
module Scenarios {
  import opened Values
  import opened Exceptions
  import opened Events
  import opened Collaborators
  import opened Transitions
  import opened Machine

  /** A machine is created with the fields it is given. */
  method CreateDraftMachine() returns (m: EventStateMachine)
    ensures m.state == Str("draft") && m.eventParams == map[]
    ensures m.eventManager.listeners == [] && m.eventFactory.makesTransitionEvents
    ensures m.possibleTransitions == map[Str("draft") := ["submit"]]
  {
    var em := new EventManager([]);
    var ef := new EventFactory(true);
    var made := EventStateMachine.New(em, ef, Str("draft"), map[Str("draft") := ["submit"]]);
    m := made.value;
  }

  /** No listeners: the machine moves to the state named by the transition. */
  method NoListenersMoveToTransition(m: EventStateMachine)
    requires m.eventManager.listeners == [] && m.eventFactory.makesTransitionEvents
    requires m.eventParams == map[] && m.state == Str("draft")
    requires m.possibleTransitions == map[Str("draft") := ["submit"]]
    modifies m
  {
    assert m.PossibleTransitions() == ["submit"];
    var r, ev, thrown := m.Transition("submit");
    ghost var initial := map[K_PARAM_CURRENT_STATE := Str("draft")];
    assert EventParams(map[], Str("draft")) == initial;
    assert ev.Mutable() == Flags(initial, Bool(false), Null) && thrown.None?;
    assert NewState(ev.params, "submit") == Str("submit");
    assert r == Success(m) && m.state == Str("submit");
    assert m.PossibleTransitions() == [];
  }

  /** A listener aborts: the state stays and CouldNotTransition carries the transition. */
  method AbortKeepsState(m: EventStateMachine)
    requires m.eventManager.listeners == [Abort(Bool(true))] && m.eventFactory.makesTransitionEvents
    requires m.eventParams == map[] && m.state == Str("pending")
    modifies m
  {
    var r, ev, thrown := m.Transition("cancel");
    ghost var initial := map[K_PARAM_CURRENT_STATE := Str("pending")];
    assert EventParams(map[], Str("pending")) == initial;
    ghost var start := Flags(initial, Bool(false), Null);
    assert Dispatch([Abort(Bool(true))], start) == (start.(aborted := Bool(true)), None) by {
      var ls := [Abort(Bool(true))];
      assert ls[1..] == [];
      assert Dispatch(ls, start) == Dispatch([], start.(aborted := Bool(true)));
    }
    assert ev.transitionAborted == Bool(true) && thrown.None?;
    assert m.state == Str("pending");
    assert r == Failure(CouldNotTransition(MSG_ABORTED, 0, None, m, Some("cancel")));
  }

  /** A listener throws: the state is still committed, then StateMachineException wraps the error. */
  method ThrowStillCommits(m: EventStateMachine)
    requires m.eventManager.listeners == [Throw(Raised(7))] && m.eventFactory.makesTransitionEvents
    requires m.eventParams == map[] && m.state == Str("s")
    modifies m
  {
    var r, ev, thrown := m.Transition("t");
    ghost var initial := map[K_PARAM_CURRENT_STATE := Str("s")];
    assert EventParams(map[], Str("s")) == initial;
    assert thrown == Some(Raised(7)) && ev.Mutable() == Flags(initial, Bool(false), Null);
    assert NewState(ev.params, "t") == Str("t");
    assert m.state == Str("t");
    assert r == Failure(StateMachineError(MSG_LISTENER_THREW, 0, Some(Raised(7)), m));
  }

  /** Abort and then a throw: CouldNotTransition wins, with the error as previous. */
  method AbortBeatsThrow(m: EventStateMachine)
    requires m.eventManager.listeners == [Abort(Bool(true)), Throw(Raised(7))]
    requires m.eventFactory.makesTransitionEvents
    requires m.eventParams == map[] && m.state == Str("s")
    modifies m
  {
    var r, ev, thrown := m.Transition("t");
    ghost var initial := map[K_PARAM_CURRENT_STATE := Str("s")];
    assert EventParams(map[], Str("s")) == initial;
    ghost var start := Flags(initial, Bool(false), Null);
    ghost var ls := [Abort(Bool(true)), Throw(Raised(7))];
    assert Dispatch(ls, start) == (start.(aborted := Bool(true)), Some(Raised(7))) by {
      assert ls[1..] == [Throw(Raised(7))];
    }
    assert ev.transitionAborted == Bool(true) && thrown == Some(Raised(7));
    assert m.state == Str("s");
    assert r == Failure(CouldNotTransition(MSG_ABORTED, 0, Some(Raised(7)), m, Some("t")));
  }

  /** A listener sets `new_state` to null: the state stays and CouldNotTransition has no transition. */
  method NullNewStateKeepsState(m: EventStateMachine)
    requires m.eventManager.listeners == [SetParam(K_PARAM_NEW_STATE, Null)]
    requires m.eventFactory.makesTransitionEvents
    requires m.eventParams == map[] && m.state == Str("s")
    modifies m
  {
    var r, ev, thrown := m.Transition("t");
    ghost var initial := map[K_PARAM_CURRENT_STATE := Str("s")];
    assert EventParams(map[], Str("s")) == initial;
    ghost var start := Flags(initial, Bool(false), Null);
    ghost var written := Flags(initial[K_PARAM_NEW_STATE := Null], Bool(false), Null);
    assert Dispatch([SetParam(K_PARAM_NEW_STATE, Null)], start) == (written, None) by {
      var ls := [SetParam(K_PARAM_NEW_STATE, Null)];
      assert ls[1..] == [];
      assert Dispatch(ls, start) == Dispatch([], written);
    }
    assert ev.Mutable() == written && thrown.None?;
    assert K_PARAM_NEW_STATE in ev.params && ev.params[K_PARAM_NEW_STATE] == Null;
    assert NewState(ev.params, "t") == Null;
    assert AfterDispatch(m, ev, "t", Null, None, Null).committed.None?;
    assert m.state == Str("s");
    assert r == Failure(CouldNotTransition(MSG_NULL_STATE, 0, None, m, None));
  }
}
