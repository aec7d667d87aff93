/**
 * The exception payloads raised by the state machine and by the code around it.
 * `CouldNotTransition` and `StateMachineError` are the two state-machine
 * exception classes; both share the base class `AbstractBaseStateMachineException`,
 * which `IsStateMachineException` recognises.
 */
module Exceptions {
  import opened Values

  datatype Exception =
      /** CouldNotTransitionException: message, code, previous, state machine, transition. */
    | CouldNotTransition(message: string, code: int, previous: Option<Exception>,
                         stateMachine: object?, transition: Option<string>)
      /** StateMachineException: message, code, previous, state machine; no transition. */
    | StateMachineError(message: string, code: int, previous: Option<Exception>,
                        stateMachine: object?)
      /** InvalidArgumentException carrying the rejected argument. */
    | InvalidArgument(message: string, argument: Value)
      /** OutOfRangeException. */
    | OutOfRange(message: string)
      /** A container lookup of a key that is not there (NotFoundExceptionInterface). */
    | NotFound(key: string)
      /** Any other exception, such as one a listener throws. */
    | Raised(id: nat)
      /** A PHP `Error` (a TypeError, say): a throwable that is not an `Exception`. */
    | PhpError(message: string)

  /** True of the exceptions that implement the state-machine exception interface. */
  predicate IsStateMachineException(e: Exception)
  {
    e.CouldNotTransition? || e.StateMachineError?
  }

  /** True of the throwables that `catch (Exception $e)` catches. */
  predicate IsCatchable(e: Exception)
  {
    !e.PhpError?
  }

  /** `new CouldNotTransitionException(...)`, with the constructor's defaults. */
  function NewCouldNotTransition(message: string := "", code: int := 0,
                                 previous: Option<Exception> := None,
                                 stateMachine: object? := null,
                                 transition: Option<string> := None): (e: Exception)
    requires previous.None? || IsCatchable(previous.value)
    ensures e.CouldNotTransition? && IsStateMachineException(e) && IsCatchable(e)
    ensures e.message == message && e.code == code && e.previous == previous
    ensures e.stateMachine == stateMachine
    ensures e.transition == transition
  {
    CouldNotTransition(message, code, previous, stateMachine, transition)
  }

  /** `new StateMachineException(...)`, with the constructor's defaults. */
  function NewStateMachineError(message: string := "", code: int := 0,
                                previous: Option<Exception> := None,
                                stateMachine: object? := null): (e: Exception)
    requires previous.None? || IsCatchable(previous.value)
    ensures e.StateMachineError? && IsStateMachineException(e) && IsCatchable(e)
    ensures !e.CouldNotTransition?
    ensures e.message == message && e.code == code && e.previous == previous
    ensures e.stateMachine == stateMachine
  {
    StateMachineError(message, code, previous, stateMachine)
  }

  /** Constructed without arguments, a CouldNotTransitionException holds '', 0 and three nulls. */
  lemma CouldNotTransitionDefaults()
    ensures NewCouldNotTransition() == CouldNotTransition("", 0, None, null, None)
  {
  }

  /** Constructed without arguments, a StateMachineException holds '', 0 and two nulls. */
  lemma StateMachineErrorDefaults()
    ensures NewStateMachineError() == StateMachineError("", 0, None, null)
  {
  }
}
