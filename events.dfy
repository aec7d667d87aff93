/** The transition event: a mutable record shared between the machine and its listeners. */
module Events {
  import opened Values

  /** The part of an event that listeners change: params, propagation flag, abort flag. */
  datatype Flags = Flags(params: map<string, Value>, stopped: Value, aborted: Value)

  /**
   * `getParam`: the value stored under `key`, or null when `isset` fails,
   * that is when the key is missing or holds null.
   */
  function ParamOf(params: map<string, Value>, key: string): (r: Value)
    ensures r != Null <==> key in params && params[key] != Null
    ensures r != Null ==> r == params[key]
    ensures key !in params ==> r == Null
  {
    if key in params && params[key] != Null then params[key] else Null
  }

  class TransitionEvent {
    var name: string
    var transition: string
    var target: Value
    var params: map<string, Value>
    var propagationStopped: Value
    /** Not set by the constructor: it keeps PHP's property default, null. */
    var transitionAborted: Value

    constructor (name: string, transition: string, target: Value := Null,
                 params: map<string, Value> := map[])
      ensures this.name == name && this.transition == transition
      ensures this.target == target && this.params == params
      ensures propagationStopped == Bool(false)
      ensures transitionAborted == Null && !Truthy(transitionAborted)
    {
      this.name := name;
      this.transition := transition;
      this.target := target;
      this.params := params;
      propagationStopped := Bool(false);
      transitionAborted := Null;
    }

    function Mutable(): Flags
      reads this
    {
      Flags(params, propagationStopped, transitionAborted)
    }

    method SetName(name: string)
      modifies this`name
      ensures this.name == name
    {
      this.name := name;
    }

    method SetParams(params: map<string, Value>)
      modifies this`params
      ensures this.params == params
    {
      this.params := params;
    }

    method SetTarget(target: Value)
      modifies this`target
      ensures this.target == target
    {
      this.target := target;
    }

    method StopPropagation(flag: Value)
      modifies this`propagationStopped
      ensures propagationStopped == flag
    {
      propagationStopped := flag;
    }

    method AbortTransition(flag: Value)
      modifies this`transitionAborted
      ensures transitionAborted == flag
    {
      transitionAborted := flag;
    }
  }
}
