/**
 * Stand-ins for the two collaborators the machine is given: the PSR event
 * manager that dispatches a transition event to its listeners, and the event
 * factory that builds the event. Both are outside the modelled code; they are
 * here so that the machine has something concrete to call. Each listener is
 * described by the one thing it does to the event.
 */
module Collaborators {
  import opened Values
  import opened Exceptions
  import opened Events

  datatype Listener =
    | Abort(flag: Value)                      // $event->abortTransition($flag)
    | StopPropagation(flag: Value)            // $event->stopPropagation($flag)
    | SetParam(key: string, value: Value)     // one entry of the params written
    | SetParams(params: map<string, Value>)   // $event->setParams($params)
    | Throw(error: Exception)                 // the listener throws

  /** What a listener that does not throw leaves in the event. */
  function Apply(l: Listener, f: Flags): Flags
    requires !l.Throw?
  {
    match l
    case Abort(v) => f.(aborted := v)
    case StopPropagation(v) => f.(stopped := v)
    case SetParam(k, v) => f.(params := f.params[k := v])
    case SetParams(m) => f.(params := m)
  }

  /**
   * The listeners run in order until one throws or one has stopped
   * propagation; the result is the event afterwards and what was thrown.
   */
  function Dispatch(ls: seq<Listener>, f: Flags): (Flags, Option<Exception>)
    decreases |ls|
  {
    if |ls| == 0 || Truthy(f.stopped) then (f, None)
    else if ls[0].Throw? then (f, Some(ls[0].error))
    else Dispatch(ls[1..], Apply(ls[0], f))
  }

  /** Dispatching to `a + b` is dispatching to `a`, then to `b` unless `a` threw. */
  lemma {:induction false} DispatchConcat(a: seq<Listener>, b: seq<Listener>, f: Flags)
    ensures Dispatch(a + b, f) ==
            if Dispatch(a, f).1.Some? then Dispatch(a, f) else Dispatch(b, Dispatch(a, f).0)
    decreases |a|
  {
    if |a| == 0 {
      assert a + b == b;
    } else if Truthy(f.stopped) {
    } else if a[0].Throw? {
      assert (a + b)[0] == a[0];
    } else {
      assert (a + b)[0] == a[0];
      assert (a + b)[1..] == a[1..] + b;
      DispatchConcat(a[1..], b, Apply(a[0], f));
    }
  }

  /**
   * Once the listeners so far have aborted and stopped propagation, no later
   * listener can change the event: stopping propagation is what makes an
   * abort hold.
   */
  lemma StoppedAbortIsFinal(a: seq<Listener>, b: seq<Listener>, f: Flags)
    requires Dispatch(a, f).1.None?
    requires Truthy(Dispatch(a, f).0.stopped) && Truthy(Dispatch(a, f).0.aborted)
    ensures Dispatch(a + b, f) == Dispatch(a, f)
    ensures Truthy(Dispatch(a + b, f).0.aborted)
  {
    DispatchConcat(a, b, f);
    if |b| > 0 {
      assert Dispatch(b, Dispatch(a, f).0) == (Dispatch(a, f).0, None);
    }
  }

  /** Without a stop, a later listener may take an abort back. */
  lemma UnstoppedAbortCanBeUndone(params: map<string, Value>)
    ensures !Truthy(Dispatch([Abort(Bool(true)), Abort(Bool(false))],
                             Flags(params, Bool(false), Null)).0.aborted)
  {
    var ls := [Abort(Bool(true)), Abort(Bool(false))];
    var f := Flags(params, Bool(false), Null);
    assert ls[1..] == [Abort(Bool(false))];
    assert ls[1..][1..] == [];
    assert Dispatch(ls, f) == Dispatch([Abort(Bool(false))], f.(aborted := Bool(true)));
  }

  class EventManager {
    const listeners: seq<Listener>

    constructor (listeners: seq<Listener>)
      ensures this.listeners == listeners
    {
      this.listeners := listeners;
    }

    /** `trigger($event)`: runs the listeners against the event, in place. */
    method Trigger(e: TransitionEvent) returns (thrown: Option<Exception>)
      modifies e`params, e`propagationStopped, e`transitionAborted
      ensures (e.Mutable(), thrown) == Dispatch(listeners, old(e.Mutable()))
    {
      ghost var start := e.Mutable();
      var i := 0;
      while i < |listeners| && !Truthy(e.propagationStopped)
        invariant 0 <= i <= |listeners|
        invariant Dispatch(listeners, start) == Dispatch(listeners[i..], e.Mutable())
      {
        assert listeners[i..][0] == listeners[i];
        assert listeners[i..][1..] == listeners[i + 1..];
        var l := listeners[i];
        if l.Throw? {
          return Some(l.error);
        }
        match l {
          case Abort(v) => e.AbortTransition(v);
          case StopPropagation(v) => e.StopPropagation(v);
          case SetParam(k, v) => e.SetParams(e.params[k := v]);
          case SetParams(m) => e.SetParams(m);
        }
        i := i + 1;
      }
      return None;
    }
  }

  class EventFactory {
    /** Whether `make` builds transition events or objects of some other kind. */
    const makesTransitionEvents: bool

    constructor (makesTransitionEvents: bool)
      ensures this.makesTransitionEvents == makesTransitionEvents
    {
      this.makesTransitionEvents := makesTransitionEvents;
    }

    /** `make(descriptor)`; `None` stands for an object that is not a transition event. */
    method Make(name: string, transition: string, target: Value, params: map<string, Value>)
      returns (r: Option<TransitionEvent>)
      ensures r.Some? <==> makesTransitionEvents
      ensures r.Some? ==> fresh(r.value) && r.value.name == name && r.value.transition == transition
                          && r.value.target == target && r.value.params == params
                          && r.value.propagationStopped == Bool(false)
                          && r.value.transitionAborted == Null
    {
      if makesTransitionEvents {
        var e := new TransitionEvent(name, transition, target, params);
        r := Some(e);
      } else {
        r := None;
      }
    }
  }
}
