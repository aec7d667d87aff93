/**
 * The concrete event state machine: it has no state graph of its own; the
 * new state comes from the event's `new_state` param, or is the transition
 * itself. A table of possible transitions per state answers queries only.
 */
module Machine {
  import opened Values
  import opened Exceptions
  import opened Events
  import opened Collaborators
  import opened Transitions

  const K_PARAM_CURRENT_STATE := "current_state"
  const K_PARAM_NEW_STATE := "new_state"
  const K_PARAM_TRANSITION := "transition"
  const DEFAULT_EVENT_NAME_FORMAT := "on_transition"

  const MSG_NOT_STRING := "Argument is not a string or stringable object"
  const MSG_NOT_ARRAY := "Argument is not an array"
  const MSG_NOT_TRANSITION_EVENT := "Created event instance is not a transition event"
  const MSG_NO_EVENT_MANAGER := "EventStateMachine::__construct(): Argument #1 ($eventManager) must be of type EventManagerInterface"
  const MSG_NO_EVENT_FACTORY := "EventStateMachine::__construct(): Argument #2 ($eventFactory) must be of type EventFactoryInterface"

  /**
   * `_getNewState`: the event's `new_state` param whenever the key exists,
   * even when it holds null, and otherwise the event's transition.
   */
  function NewState(params: map<string, Value>, transition: string): (r: Value)
    ensures K_PARAM_NEW_STATE in params ==> r == params[K_PARAM_NEW_STATE]
    ensures K_PARAM_NEW_STATE !in params ==> r == Str(transition)
  {
    if K_PARAM_NEW_STATE in params then params[K_PARAM_NEW_STATE] else Str(transition)
  }

  /**
   * The new state is null only when a `new_state` param exists and is null;
   * where `getParam` would say null for a missing key, the transition is used.
   */
  lemma NewStateAgainstGetParam(params: map<string, Value>, transition: string)
    ensures NewState(params, transition) == Null <==>
              K_PARAM_NEW_STATE in params && params[K_PARAM_NEW_STATE] == Null
    ensures NewState(params, transition) ==
              if ParamOf(params, K_PARAM_NEW_STATE) != Null then ParamOf(params, K_PARAM_NEW_STATE)
              else if K_PARAM_NEW_STATE in params then Null
              else Str(transition)
  {
  }

  /**
   * PHP's array union `$left + $right`: every key of either side, with the
   * value of the left operand wherever both have the key.
   */
  function ArrayUnion(left: map<string, Value>, right: map<string, Value>): (r: map<string, Value>)
    ensures r.Keys == left.Keys + right.Keys
    ensures forall k :: k in left ==> r[k] == left[k]
    ensures forall k :: k in right && k !in left ==> r[k] == right[k]
  {
    right + left
  }

  /**
   * `_getTransitionEventParams`: the static params plus `current_state`;
   * a static param named `current_state` is kept over the machine's state.
   */
  function EventParams(staticParams: map<string, Value>, current: Value): (r: map<string, Value>)
    ensures r.Keys == staticParams.Keys + {K_PARAM_CURRENT_STATE}
    ensures forall k :: k in staticParams ==> r[k] == staticParams[k]
    ensures r[K_PARAM_CURRENT_STATE] ==
              if K_PARAM_CURRENT_STATE in staticParams then staticParams[K_PARAM_CURRENT_STATE] else current
  {
    ArrayUnion(staticParams, map[K_PARAM_CURRENT_STATE := current])
  }

  /**
   * `sprintf($format, $arg)` for a format whose one directive is `%s`: the
   * first `%s` is replaced by the argument.
   */
  function Sprintf(format: string, arg: string): string
  {
    if |format| < 2 then format
    else if format[0] == '%' && format[1] == 's' then arg + format[2..]
    else [format[0]] + Sprintf(format[1..], arg)
  }

  /** A format without `%` is its own result, whatever the argument. */
  lemma {:induction false} SprintfLiteral(format: string, arg: string)
    requires '%' !in format
    ensures Sprintf(format, arg) == format
  {
    if |format| >= 2 {
      assert format[0] != '%';
      assert '%' !in format[1..] by {
        forall i | 0 <= i < |format[1..]| ensures format[1..][i] != '%' {
          assert format[1..][i] == format[i + 1];
        }
      }
      SprintfLiteral(format[1..], arg);
    }
  }

  /** In a format whose one directive is `%s`, the argument takes its place. */
  lemma {:induction false} SprintfPlaceholder(prefix: string, suffix: string, arg: string)
    requires '%' !in prefix && '%' !in suffix
    ensures Sprintf(prefix + "%s" + suffix, arg) == prefix + arg + suffix
  {
    var format := prefix + "%s" + suffix;
    if |prefix| == 0 {
      assert format == "%s" + suffix;
      assert format[2..] == suffix;
    } else {
      var tail := prefix[1..];
      assert prefix == [prefix[0]] + tail;
      assert prefix[0] in prefix;
      assert '%' !in tail by {
        forall c | c in tail ensures c != '%' {
          assert c in prefix;
        }
      }
      var rest := tail + "%s" + suffix;
      assert format == [prefix[0]] + rest;
      assert format[1..] == rest;
      SprintfPlaceholder(tail, suffix, arg);
      assert Sprintf(format, arg) == [prefix[0]] + Sprintf(rest, arg);
    }
  }

  /** Under the default format every event is named `on_transition`. */
  lemma DefaultEventName(t: string)
    ensures Sprintf(DEFAULT_EVENT_NAME_FORMAT, t) == "on_transition"
  {
    SprintfLiteral(DEFAULT_EVENT_NAME_FORMAT, t);
  }

  /** `_isValidString` for a name format; null is also accepted by the setter. */
  predicate IsNameFormat(v: Value)
  {
    v.Null? || v.Str?
  }

  /**
   * What the constructor throws, if anything: PHP rejects a missing event
   * manager or factory before the body runs; the body then rejects a name
   * format that is neither null nor a string, and params that are not an array.
   */
  function CreationError(em: EventManager?, ef: EventFactory?, nameFormat: Value, params: Value)
    : (r: Option<Exception>)
    ensures r.None? <==> em != null && ef != null && IsNameFormat(nameFormat) && params.Arr?
    ensures em == null ==> r == Some(PhpError(MSG_NO_EVENT_MANAGER))
    ensures em != null && ef == null ==> r == Some(PhpError(MSG_NO_EVENT_FACTORY))
    ensures em != null && ef != null && !IsNameFormat(nameFormat) ==>
              r == Some(InvalidArgument(MSG_NOT_STRING, nameFormat))
    ensures em != null && ef != null && IsNameFormat(nameFormat) && !params.Arr? ==>
              r == Some(InvalidArgument(MSG_NOT_ARRAY, params))
  {
    if em == null then Some(PhpError(MSG_NO_EVENT_MANAGER))
    else if ef == null then Some(PhpError(MSG_NO_EVENT_FACTORY))
    else if !IsNameFormat(nameFormat) then Some(InvalidArgument(MSG_NOT_STRING, nameFormat))
    else if !params.Arr? then Some(InvalidArgument(MSG_NOT_ARRAY, params))
    else None
  }

  /**
   * With no listeners and no static `new_state` param, a transition commits
   * the transition's own name as the new state and throws nothing.
   */
  lemma NoListenersTakeTransition(machine: object, ev: TransitionEvent, t: string,
                                  staticParams: map<string, Value>, current: Value)
    requires K_PARAM_NEW_STATE !in staticParams
    ensures var (f, thrown) := Dispatch([], Flags(EventParams(staticParams, current), Bool(false), Null));
            AfterDispatch(machine, ev, t, f.aborted, thrown, NewState(f.params, t))
              == Run([ResolvedNewState(ev), StateSet(Str(t))], Some(Str(t)), None)
  {
  }

  /**
   * A first listener that aborts and stops propagation decides the outcome:
   * whatever the later listeners would do, the state is not committed and the
   * call throws CouldNotTransition for `t`.
   */
  lemma StoppedAbortFails(machine: object, ev: TransitionEvent, t: string,
                          rest: seq<Listener>, params: map<string, Value>)
    ensures var (f, thrown) := Dispatch([Abort(Bool(true)), StopPropagation(Bool(true))] + rest,
                                        Flags(params, Bool(false), Null));
            var run := AfterDispatch(machine, ev, t, f.aborted, thrown, NewState(f.params, t));
            run.committed.None? && run.after == []
            && run.error == Some(CouldNotTransition(MSG_ABORTED, 0, None, machine, Some(t)))
  {
    var first := [Abort(Bool(true)), StopPropagation(Bool(true))];
    var start := Flags(params, Bool(false), Null);
    var stopped := Flags(params, Bool(true), Bool(true));
    assert Dispatch(first, start) == (stopped, None) by {
      assert first[1..] == [StopPropagation(Bool(true))];
      assert first[1..][1..] == [];
    }
    StoppedAbortIsFinal(first, rest, start);
  }

  class EventStateMachine {
    var eventManager: EventManager
    var eventFactory: EventFactory
    var state: Value
    var eventNameFormat: Option<string>
    var target: Value
    var eventParams: map<string, Value>
    var possibleTransitions: map<Value, seq<string>>
    /** The hooks `_transition` has called, oldest first. */
    ghost var trace: seq<Hook>

    constructor (eventManager: EventManager, eventFactory: EventFactory, state: Value)
      ensures this.eventManager == eventManager && this.eventFactory == eventFactory
      ensures this.state == state && eventNameFormat == None && target == Null
      ensures eventParams == map[] && possibleTransitions == map[] && trace == []
    {
      this.eventManager := eventManager;
      this.eventFactory := eventFactory;
      this.state := state;
      eventNameFormat := None;
      target := Null;
      eventParams := map[];
      possibleTransitions := map[];
      trace := [];
    }

    /** `new EventStateMachine(...)`, which fails by throwing `CreationError`. */
    static method New(em: EventManager?, ef: EventFactory?, state: Value,
                      transitions: map<Value, seq<string>>, nameFormat: Value := Null,
                      target: Value := Null, params: Value := Arr(map[]))
      returns (r: Result<EventStateMachine, Exception>)
      ensures r.Failure? <==> CreationError(em, ef, nameFormat, params).Some?
      ensures r.Failure? ==> r.error == CreationError(em, ef, nameFormat, params).value
      ensures r.Success? ==>
                fresh(r.value) && r.value.eventManager == em && r.value.eventFactory == ef
                && r.value.state == state
                && r.value.eventNameFormat == (if nameFormat.Str? then Some(nameFormat.s) else None)
                && r.value.target == target && r.value.eventParams == params.entries
                && r.value.possibleTransitions == transitions && r.value.trace == []
    {
      if em == null || ef == null {
        return Failure(CreationError(em, ef, nameFormat, params).value);
      }
      var m := new EventStateMachine(em, ef, state);
      var err := m.SetEventNameFormat(nameFormat);
      if err.Some? {
        return Failure(err.value);
      }
      m.SetTarget(target);
      err := m.SetEventParams(params);
      if err.Some? {
        return Failure(err.value);
      }
      m.SetPossibleTransitions(transitions);
      return Success(m);
    }

    function EventNameFormat(): (r: string)
      reads this`eventNameFormat
      ensures eventNameFormat.None? ==> r == DEFAULT_EVENT_NAME_FORMAT
      ensures eventNameFormat.Some? ==> r == eventNameFormat.value
    {
      match eventNameFormat
      case None => DEFAULT_EVENT_NAME_FORMAT
      case Some(f) => f
    }

    /**
     * `_generateEventName`: the name format applied to the transition; under
     * the default format the name is the same for every transition.
     */
    function EventName(t: string): (r: string)
      reads this`eventNameFormat
      ensures eventNameFormat.None? ==> r == DEFAULT_EVENT_NAME_FORMAT
    {
      DefaultEventName(t);
      Sprintf(EventNameFormat(), t)
    }

    /** `getPossibleTransitions`: the entry for the current state, or none when it has no entry. */
    function PossibleTransitions(): (r: seq<string>)
      reads this
      ensures state in possibleTransitions ==> r == possibleTransitions[state]
      ensures state !in possibleTransitions ==> r == []
    {
      if state in possibleTransitions then possibleTransitions[state] else []
    }

    /** `canTransition`; the container membership test is given as `has`. */
    function CanTransition(t: string, has: (seq<string>, string) -> bool): bool
      reads this
    {
      has(PossibleTransitions(), t)
    }

    /** `_setEventNameFormat`: null or a string is stored, anything else is rejected. */
    method SetEventNameFormat(v: Value) returns (err: Option<Exception>)
      modifies this`eventNameFormat
      ensures err.Some? <==> !IsNameFormat(v)
      ensures err.Some? ==> err.value == InvalidArgument(MSG_NOT_STRING, v)
                            && eventNameFormat == old(eventNameFormat)
      ensures err.None? ==> eventNameFormat == (if v.Str? then Some(v.s) else None)
    {
      if !IsNameFormat(v) {
        return Some(InvalidArgument(MSG_NOT_STRING, v));
      }
      eventNameFormat := if v.Str? then Some(v.s) else None;
      return None;
    }

    /** `_setEventParams`: an array is stored, anything else is rejected. */
    method SetEventParams(v: Value) returns (err: Option<Exception>)
      modifies this`eventParams
      ensures err.Some? <==> !v.Arr?
      ensures err.Some? ==> err.value == InvalidArgument(MSG_NOT_ARRAY, v)
                            && eventParams == old(eventParams)
      ensures err.None? ==> eventParams == v.entries
    {
      if !v.Arr? {
        return Some(InvalidArgument(MSG_NOT_ARRAY, v));
      }
      eventParams := v.entries;
      return None;
    }

    method SetTarget(target: Value)
      modifies this`target
      ensures this.target == target
    {
      this.target := target;
    }

    method SetPossibleTransitions(transitions: map<Value, seq<string>>)
      modifies this`possibleTransitions
      ensures possibleTransitions == transitions
    {
      possibleTransitions := transitions;
    }

    /** `_setState`, recorded in the trace. */
    method SetState(s: Value)
      modifies this`state, this`trace
      ensures state == s && trace == old(trace) + [StateSet(s)]
    {
      state := s;
      trace := trace + [StateSet(s)];
    }

    /**
     * `_createTransitionEvent`: asks the event factory for the event and
     * rejects what is not a transition event.
     */
    method CreateTransitionEvent(name: string, t: string, target: Value, params: map<string, Value>)
      returns (r: Result<TransitionEvent, Exception>)
      ensures r.Failure? <==> !eventFactory.makesTransitionEvents
      ensures r.Failure? ==> r.error == OutOfRange(MSG_NOT_TRANSITION_EVENT)
      ensures r.Success? ==> fresh(r.value) && r.value.name == name && r.value.transition == t
                             && r.value.target == target && r.value.params == params
                             && r.value.propagationStopped == Bool(false)
                             && r.value.transitionAborted == Null
    {
      var made := eventFactory.Make(name, t, target, params);
      if made.None? {
        return Failure(OutOfRange(MSG_NOT_TRANSITION_EVENT));
      }
      return Success(made.value);
    }

    /**
     * What one `_transition(t)` call did, between the state before it and the
     * state after: `ev` is the event it built (null when the factory made no
     * transition event), `thrown` what `trigger` threw and `error` what the
     * call itself threw.
     */
    twostate predicate Transitioned(t: string, new ev: TransitionEvent?, new thrown: Option<Exception>,
                                    new error: Option<Exception>)
      reads this, ev
    {
      if !eventFactory.makesTransitionEvents then
        ev == null && thrown.None? && error == Some(OutOfRange(MSG_NOT_TRANSITION_EVENT))
        && state == old(state) && trace == old(trace)
      else
        ev != null && fresh(ev)
        // the event is built for the transition
        && ev.name == EventName(t) && ev.transition == t && ev.target == target
        // dispatch ran once, from the freshly built event
        && (ev.Mutable(), thrown) ==
             Dispatch(eventManager.listeners,
                      Flags(EventParams(eventParams, old(state)), Bool(false), Null))
        && var run := AfterDispatch(this, ev, t, ev.transitionAborted, thrown,
                                    NewState(ev.params, t));
           trace == old(trace)
                    + [Triggered(ev, EventName(t), t, target, EventParams(eventParams, old(state)))]
                    + run.after
           && error == run.error
           && state == (if run.committed.Some? then run.committed.value else old(state))
    }

    /** `_transition($transition)`. */
    method ApplyTransition(t: string)
      returns (error: Option<Exception>, ghost ev: TransitionEvent?, ghost thrown: Option<Exception>)
      modifies this`state, this`trace
      ensures Transitioned(t, ev, thrown, error)
    {
      var name := EventName(t);
      var made := CreateTransitionEvent(name, t, target, EventParams(eventParams, state));
      if made.Failure? {
        return Some(made.error), null, None;
      }
      var event := made.value;
      ev := event;
      trace := trace + [Triggered(event, event.name, event.transition, event.target, event.params)];
      var caught := eventManager.Trigger(event);
      thrown := caught;
      if caught.Some? && !IsCatchable(caught.value) {
        return caught, ev, thrown;
      }
      if Truthy(event.transitionAborted) {
        return Some(NewCouldNotTransition(MSG_ABORTED, 0, caught, this, Some(t))), ev, thrown;
      }
      trace := trace + [ResolvedNewState(event)];
      var newState := NewState(event.params, event.transition);
      if newState == Null {
        return Some(NewCouldNotTransition(MSG_NULL_STATE, 0, None, this, None)), ev, thrown;
      }
      SetState(newState);
      if caught.Some? {
        error := Some(NewStateMachineError(MSG_LISTENER_THREW, 0, caught, this));
      } else {
        error := None;
      }
    }

    /** `transition($transition)`: the same machine on success. */
    method Transition(t: string)
      returns (r: Result<EventStateMachine, Exception>, ghost ev: TransitionEvent?,
               ghost thrown: Option<Exception>)
      modifies this`state, this`trace
      ensures r.Success? ==> r.value == this
      ensures Transitioned(t, ev, thrown, if r.Success? then None else Some(r.error))
    {
      var error;
      error, ev, thrown := ApplyTransition(t);
      if error.Some? {
        r := Failure(error.value);
      } else {
        r := Success(this);
      }
    }
  }
}
