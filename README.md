# Event-driven state machine — a Dafny model

RebelCode's event state machine has no state graph of its own. To apply a
transition, it builds a *transition event* that carries:

- the transition,
- a target,
- the machine's static event params plus `current_state`.

It hands that event to a PSR event manager. The listeners may do three things:

- abort the transition,
- stop propagation,
- rewrite the params.

Afterwards the machine reads the event back:

- An aborted event throws `CouldNotTransitionException`.
- Otherwise the new state is the event's `new_state` param whenever that key exists (even if it is null), and the transition's own name otherwise.
- A null new state throws `CouldNotTransitionException`.
- Any other new state is committed, even if a listener threw. The listener's exception is then rethrown wrapped in a `StateMachineException`.

A factory builds machines from a config container. It falls back to its own defaults for the optional keys.

The modules follow the program:

- `Values`: PHP values, with PHP truthiness. `Str` stands for a string or a stringable object.
- `Exceptions`: one datatype for the throwables involved. It includes the two state-machine exception classes and their constructors' defaults.
- `Events`: `TransitionEvent` as a class with mutable fields, and `getParam` (`isset` semantics) as `ParamOf` on the event's params.
- `Collaborators`: stand-ins for the event manager and the event factory.
  - Each listener is described by the one thing it does.
  - `Dispatch` is the reference definition of a dispatch.
  - `EventManager.Trigger` runs the listeners in place and is proved against `Dispatch`.
- `Transitions`: the outcome of `_transition` once dispatch is over (`AfterDispatch`). It covers:
  - which hooks run next,
  - whether the state is committed,
  - what is thrown.
- `Machine`:
  - the parts of `EventStateMachine` that compute values: new state, event params as a PHP array union, event name, constructor validation;
  - the class itself;
  - `Transitioned`, which relates the machine before and after one `_transition` call, including a ghost trace of the hooks it called;
  - `ApplyTransition` and `Transition`, which are proved to satisfy `Transitioned`.
- `Factory`: how `EventStateMachineFactory` normalises its defaults and how `make` resolves a config against them.
- `Scenarios`: client code. It drives machines through the outcomes the unit tests exercise (no listeners, abort, throw, abort plus throw) and through the null-new-state branch of `_transition` (src/AbstractEventStateMachine.php:45-51), and states each outcome from the contracts alone.

Two behaviours of the code are easy to misread:

- When the static params already contain `current_state`, the static value is kept. PHP's `$static + $transition` lets its left operand win (`EventParams`, `ArrayUnion`).
- A null new state raises `CouldNotTransitionException`, not a plain `StateMachineException`. That exception has no previous exception and no transition (`AfterDispatch`).

## Model

| member | source | states |
|---|---|---|
| Exceptions.NewCouldNotTransition | src/Exception/CouldNotTransitionException.php:40-51 | the exception keeps the message, code, previous exception, state machine and transition it is given, and is a catchable state-machine exception |
| Exceptions.NewStateMachineError | src/Exception/StateMachineException.php:25-34 | the exception keeps message, code, previous exception and state machine; it is a state-machine exception and has no transition |
| Exceptions.CouldNotTransitionDefaults | src/Exception/CouldNotTransitionException.php:40-46 | with no arguments the exception holds an empty message, code 0, and no previous exception, machine or transition |
| Exceptions.StateMachineErrorDefaults | src/Exception/StateMachineException.php:25-30 | with no arguments the exception holds an empty message, code 0, and no previous exception or machine |
| Events.ParamOf | src/TransitionEvent.php:145-150 | `getParam` is non-null exactly when the key exists and holds a non-null value, and then it is that value; a missing key gives null |
| Events.TransitionEvent.constructor | src/TransitionEvent.php:105-116 | a new event holds the given name, transition, target and params; propagation is not stopped and the abort flag is null, which is falsy |
| Events.TransitionEvent.SetName | src/TransitionEvent.php:133-138 | the name becomes the argument; nothing else changes |
| Events.TransitionEvent.SetParams | src/TransitionEvent.php:167-172 | the params become the argument; nothing else changes |
| Events.TransitionEvent.SetTarget | src/TransitionEvent.php:191-196 | the target becomes the argument; nothing else changes |
| Events.TransitionEvent.StopPropagation | src/TransitionEvent.php:213-218 | the propagation flag becomes the argument as given (not coerced to bool); nothing else changes |
| Events.TransitionEvent.AbortTransition | src/TransitionEvent.php:235-240 | the abort flag becomes the argument as given; nothing else changes |
| Collaborators.DispatchConcat | src/EventStateMachine.php:40-45 | dispatching to two groups of listeners in turn is dispatching to the first, then to the second unless the first threw |
| Collaborators.StoppedAbortIsFinal | src/EventStateMachine.php:47-50 | once the listeners so far have aborted and stopped propagation, later listeners change nothing and the event stays aborted |
| Collaborators.UnstoppedAbortCanBeUndone | src/EventStateMachine.php:47-49 | without a stop, a later listener calling `abortTransition(false)` takes the abort back |
| Collaborators.EventManager.Trigger | src/AbstractEventStateMachine.php:28-32 | running the listeners in place leaves the event's params and flags, and returns what was thrown, as `Dispatch` defines them |
| Collaborators.EventFactory.Make | src/EventStateMachine.php:553-560 | the factory yields a fresh transition event with the given descriptor, or an object that is not a transition event |
| Transitions.AfterDispatch | src/AbstractEventStateMachine.php:34-61 | a PHP Error escapes untouched. Abort wins over a thrown exception, which becomes `previous`, and the transition is named. A null new state commits nothing and drops the exception. Otherwise exactly one `_setState(new state)` runs, even after a throw, and the exception is rethrown wrapped. The call returns normally iff nothing was thrown, aborted or null. Every catchable error is a state-machine exception naming the machine |
| Machine.NewState | src/EventStateMachine.php:310-317 | the new state is the `new_state` param whenever that key exists (null included), and otherwise the transition |
| Machine.NewStateAgainstGetParam | src/EventStateMachine.php:314-316 | the new state is null iff `new_state` exists and holds null; compared with `getParam`, only a null-valued key differs |
| Machine.ArrayUnion | src/EventStateMachine.php:534 | PHP `+` on arrays: keys of both sides, with the left operand's value wherever both have the key |
| Machine.EventParams | src/EventStateMachine.php:529-535 | the event params are the static params plus `current_state`; they keep every static value, including a static `current_state` |
| Machine.SprintfLiteral | src/EventStateMachine.php:515-518 | a name format without `%` is the event name for every transition |
| Machine.SprintfPlaceholder | src/EventStateMachine.php:515-518 | in a name format whose one directive is `%s`, the transition takes the place of the `%s` |
| Machine.DefaultEventName | src/EventStateMachine.php:84 | under the default format every event is named `on_transition` |
| Machine.CreationError | src/EventStateMachine.php:238-255 | construction fails iff the manager or factory is missing, the name format is neither null nor a string, or the params are not an array; each case gives its error, checked in constructor order |
| Machine.NoListenersTakeTransition | src/EventStateMachine.php:35-38 | with no listeners and no static `new_state`, the transition's name is committed and nothing is thrown |
| Machine.StoppedAbortFails | src/EventStateMachine.php:47-50 | a first listener that aborts and stops propagation means no state is committed and CouldNotTransition names the transition, whatever later listeners do |
| Machine.EventStateMachine.constructor | src/EventStateMachine.php:247-249 | a bare machine holds its manager, factory and state, with default format, target, params and transitions |
| Machine.EventStateMachine.New | src/EventStateMachine.php:238-255 | fails exactly with `CreationError`; otherwise a fresh machine holds every argument, a null format meaning the default |
| Machine.EventStateMachine.EventName | src/EventStateMachine.php:515-518 | the event name is the name format applied to the transition; with no format stored, every transition's event is named `on_transition` |
| Machine.EventStateMachine.EventNameFormat | src/EventStateMachine.php:420-425 | the stored format, or `on_transition` when none is stored |
| Machine.EventStateMachine.PossibleTransitions | src/EventStateMachine.php:293-303 | the transitions listed for the current state, or none when the state has no entry |
| Machine.EventStateMachine.SetEventNameFormat | src/EventStateMachine.php:436-450 | rejects exactly the values that are neither null nor a string and then leaves the format alone; otherwise stores it |
| Machine.EventStateMachine.SetEventParams | src/EventStateMachine.php:473-484 | rejects exactly the non-arrays and then leaves the params alone; otherwise stores the array |
| Machine.EventStateMachine.SetTarget | src/EventStateMachine.php:406-411 | the target becomes the argument |
| Machine.EventStateMachine.SetPossibleTransitions | src/PossibleTransitionsAwareTrait.php:48-51 | the transition table becomes the argument |
| Machine.EventStateMachine.SetState | src/AbstractEventStateMachine.php:95-102 | the state becomes the argument, and the call is recorded in the trace |
| Machine.EventStateMachine.CreateTransitionEvent | src/EventStateMachine.php:551-572 | fails with OutOfRange exactly when the factory's product is not a transition event; otherwise returns a fresh event holding name, transition, target and params |
| Machine.EventStateMachine.ApplyTransition | src/AbstractEventStateMachine.php:23-61 | one `_transition` call. The event is built from the name format, the target and the event params of the state before. Dispatch runs once on it. The trace, the new state and the error are those `AfterDispatch` gives; a non-transition event fails before any dispatch |
| Machine.EventStateMachine.Transition | src/EventStateMachine.php:281-286 | as `ApplyTransition`, returning the machine itself when nothing was thrown |
| Factory.Pick | src/EventStateMachineFactory.php:250-252 | a config value present under the key wins over the factory's default |
| Factory.Resolve | src/EventStateMachineFactory.php:245-269 | missing `initial_state`, then missing `transitions`, give not-found errors; otherwise each optional key comes from the config when present and from the defaults when absent |
| Factory.AbsentParamsWithNullDefaultFail | src/EventStateMachineFactory.php:235-237 | a factory built without params cannot make a machine from a config without `event_params`; if all else is valid, the error is the machine's not-an-array error for null |
| Factory.StaticParamsUsedWhenAbsent | src/EventStateMachineFactory.php:266-268 | with no `event_params` in the config, the machine gets the factory's params and `make` succeeds |
| Factory.NormalizeStringable | src/EventStateMachineFactory.php:231-233 | accepts exactly strings or stringables, unchanged |
| Factory.NormalizeArray | src/EventStateMachineFactory.php:235-237 | accepts exactly arrays, unchanged |
| Factory.EventStateMachineFactory.constructor | src/EventStateMachineFactory.php:227-229 | the factory holds the defaults it is given |
| Factory.EventStateMachineFactory.New | src/EventStateMachineFactory.php:220-238 | a non-null format must be stringable and non-null params must be an array, checked in that order; null defaults stay null; otherwise the factory holds every argument |
| Factory.EventStateMachineFactory.Make | src/EventStateMachineFactory.php:245-273 | fails exactly with the config's resolution error or the machine's construction error; otherwise a fresh machine holds the resolved settings |
| Scenarios.CreateDraftMachine | test/unit/EventStateMachineTest.php:219-255 | a machine created with an initial state and a transition table holds them, with empty static params |

## Left out

- Message translation (`__`) is left out: each exception's message is its untranslated template, with `%1$s` not substituted.
- Exception codes: the machine passes `null` as every code, and the model records `0`, the value PHP's `Exception` constructor coerces it to. `getCode` and `getPrevious` are the datatype's fields.
- `Sprintf` models `sprintf` only for formats with no directive or a single `%s`. Other directives, `%%`, positional or width specifiers, and the error PHP raises for a format with more directives than arguments are not modelled; an event name is characterised only for formats without `%` and formats whose one `%` starts a `%s`.
- The event manager and the event factory are outside this repository. They are stand-ins: the PSR listener registry, listener priorities and named-event matching are not modelled, and every listener sees every event. Each listener does exactly one thing, so a handler that stops propagation and then throws cannot be written; no dispatch ends with propagation stopped and an exception thrown, which `AfterDispatch` would not distinguish anyway, as it ignores the stop flag.
- The factory's `make` descriptor keys ('name', 'transition', 'target', 'params') are replaced by direct arguments.
- The container helpers (`_containerGet`, `_containerHas`, `_normalizeContainer`, `_normalizeArray` on machine params) are modelled only on the values these paths use: a config is a record of optional fields, and transitions are a map from state to a list of transition names. Objects implementing `ContainerInterface` or `ArrayAccess` as containers are not modelled.
- Machine.EventStateMachine.CanTransition: the membership test of `_containerHas` is a parameter, so its contract states nothing about membership.
- Stringable objects are modelled as `Str`; `(string)` casts of them are the identity, and `__toString` side effects are not modelled. `Truthy` treats every `Str` as a string, so a stringable object whose text is `""` or `"0"` counts as falsy, while PHP treats every object as truthy.
- `StateAwareTrait` (`_getState`, `_setState`) and the event's `_setTransition` and `getStateMachine` are not part of this model. The state is a field, and transitions are strings.
- Machine.EventStateMachine.SetState: the constructor's own `_setState` call is not recorded in the ghost trace, so the trace starts empty.
- The setters' fluent `return $this` is not modelled; setters return nothing or an error.
- Machine.EventStateMachine.New: the object PHP allocates before a constructor throws is not modelled; a failing `New` returns only the error.
- Floats and resources are not among the modelled PHP values.
- Factory.NormalizeArray: refuses every object, though `_normalizeArray` converts a `stdClass` or a `Traversable` into an array; the model has no array view of objects.
- Factory.EventStateMachineFactory.New: for the same reason, a `stdClass` or `Traversable` given as the default params is refused, where PHP stores its array form.
- Collaborators.EventFactory.Make: the stand-in factory never throws and always builds an event holding exactly the descriptor's name, transition, target and params, with propagation not stopped and the abort flag null. The real factory only has to return a `TransitionEventInterface`, which may already be aborted or may carry another transition; `_getNewState` reads the event's own transition. `Transitioned` (the event's name and transition equal to those asked for, and dispatch starting from unset flags) relies on these three assumptions.
- Factory.EventStateMachineFactory.Make: `make()` without a config (its default `null`) is not modelled; what the container helpers throw for a null container is outside this repository.
- A listener that rethrows on a later dispatch, or one that replaces the event object, is not modelled. The event is the same object from creation to the end of the call.
