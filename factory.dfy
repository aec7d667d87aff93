/**
 * The factory that creates event state machines from a config, falling back
 * to its own defaults for the optional keys.
 */
module Factory {
  import opened Values
  import opened Exceptions
  import opened Collaborators
  import opened Machine

  const K_CFG_EVENT_MANAGER := "event_manager"
  const K_CFG_EVENT_FACTORY := "event_factory"
  const K_CFG_INITIAL_STATE := "initial_state"
  const K_CFG_TRANSITIONS := "transitions"
  const K_CFG_EVENT_NAME_FORMAT := "event_name_format"
  const K_CFG_EVENT_TARGET := "event_target"
  const K_CFG_EVENT_PARAMS := "event_params"

  const MSG_NOT_STRINGABLE := "Argument is not a valid string or stringable object"
  const MSG_NOT_ARRAYLIKE := "Argument is not a valid array"

  /** A config container: `None` where the key is absent. */
  datatype Config = Config(
    initialState: Option<Value>,
    transitions: Option<map<Value, seq<string>>>,
    eventManager: Option<EventManager?>,
    eventFactory: Option<EventFactory?>,
    eventNameFormat: Option<Value>,
    eventTarget: Option<Value>,
    eventParams: Option<Value>)

  /** The defaults a factory holds for the optional keys. */
  datatype Defaults = Defaults(
    eventManager: EventManager?,
    eventFactory: EventFactory?,
    eventNameFormat: Value,
    eventParams: Value,
    eventTarget: Value)

  /** The constructor arguments `make` arrives at. */
  datatype Settings = Settings(
    initialState: Value,
    transitions: map<Value, seq<string>>,
    eventManager: EventManager?,
    eventFactory: EventFactory?,
    eventNameFormat: Value,
    eventTarget: Value,
    eventParams: Value)

  /** `has($key) ? get($key) : $default` for one key. */
  function Pick<T>(present: Option<T>, fallback: T): (r: T)
    ensures present.Some? ==> r == present.value
    ensures present.None? ==> r == fallback
  {
    if present.Some? then present.value else fallback
  }

  /**
   * The arguments `make` passes to the machine: `initial_state` and
   * `transitions` must be in the config (a missing one is a not-found error),
   * every other key comes from the config when present and from the defaults
   * otherwise.
   */
  function Resolve(cfg: Config, d: Defaults): (r: Result<Settings, Exception>)
    ensures cfg.initialState.None? ==> r == Failure(NotFound(K_CFG_INITIAL_STATE))
    ensures cfg.initialState.Some? && cfg.transitions.None? ==>
              r == Failure(NotFound(K_CFG_TRANSITIONS))
    ensures r.Success? <==> cfg.initialState.Some? && cfg.transitions.Some?
    ensures r.Success? ==>
              r.value.initialState == cfg.initialState.value
              && r.value.transitions == cfg.transitions.value
              && r.value.eventManager ==
                   (if cfg.eventManager.Some? then cfg.eventManager.value else d.eventManager)
              && r.value.eventFactory ==
                   (if cfg.eventFactory.Some? then cfg.eventFactory.value else d.eventFactory)
              && r.value.eventNameFormat ==
                   (if cfg.eventNameFormat.Some? then cfg.eventNameFormat.value else d.eventNameFormat)
              && r.value.eventTarget ==
                   (if cfg.eventTarget.Some? then cfg.eventTarget.value else d.eventTarget)
              && r.value.eventParams ==
                   (if cfg.eventParams.Some? then cfg.eventParams.value else d.eventParams)
  {
    if cfg.initialState.None? then Failure(NotFound(K_CFG_INITIAL_STATE))
    else if cfg.transitions.None? then Failure(NotFound(K_CFG_TRANSITIONS))
    else Success(Settings(
      cfg.initialState.value,
      cfg.transitions.value,
      Pick(cfg.eventManager, d.eventManager),
      Pick(cfg.eventFactory, d.eventFactory),
      Pick(cfg.eventNameFormat, d.eventNameFormat),
      Pick(cfg.eventTarget, d.eventTarget),
      Pick(cfg.eventParams, d.eventParams)))
  }

  /** What `make` throws for a config, if anything. */
  function MakeError(cfg: Config, d: Defaults): Option<Exception>
  {
    match Resolve(cfg, d)
    case Failure(e) => Some(e)
    case Success(s) => CreationError(s.eventManager, s.eventFactory, s.eventNameFormat, s.eventParams)
  }

  /**
   * With no `event_params` in the config and a null default, `make` fails
   * however the rest is set: the machine refuses params that are not an array.
   */
  lemma AbsentParamsWithNullDefaultFail(cfg: Config, d: Defaults)
    requires cfg.eventParams.None? && d.eventParams == Null
    ensures MakeError(cfg, d).Some?
    ensures cfg.initialState.Some? && cfg.transitions.Some?
            && Pick(cfg.eventManager, d.eventManager) != null
            && Pick(cfg.eventFactory, d.eventFactory) != null
            && IsNameFormat(Pick(cfg.eventNameFormat, d.eventNameFormat)) ==>
              MakeError(cfg, d) == Some(InvalidArgument(MSG_NOT_ARRAY, Null))
  {
  }

  /**
   * The factory's own params are used when the config has none: with the keys
   * `make` needs present and valid collaborators, `make` succeeds and the
   * machine's params are the factory's.
   */
  lemma StaticParamsUsedWhenAbsent(cfg: Config, d: Defaults, m: map<string, Value>)
    requires cfg.initialState.Some? && cfg.transitions.Some?
    requires cfg.eventParams.None? && d.eventParams == Arr(m)
    requires Pick(cfg.eventManager, d.eventManager) != null
    requires Pick(cfg.eventFactory, d.eventFactory) != null
    requires IsNameFormat(Pick(cfg.eventNameFormat, d.eventNameFormat))
    ensures MakeError(cfg, d).None?
    ensures Resolve(cfg, d).Success? && Resolve(cfg, d).value.eventParams.entries == m
  {
  }

  /** `_normalizeStringable`: a string or stringable is kept, anything else rejected. */
  function NormalizeStringable(v: Value): (r: Result<Value, Exception>)
    ensures r.Success? <==> v.Str?
    ensures r.Success? ==> r.value == v
    ensures r.Failure? ==> r.error == InvalidArgument(MSG_NOT_STRINGABLE, v)
  {
    if v.Str? then Success(v) else Failure(InvalidArgument(MSG_NOT_STRINGABLE, v))
  }

  /** `_normalizeArray`: an array is kept, anything else rejected. */
  function NormalizeArray(v: Value): (r: Result<Value, Exception>)
    ensures r.Success? <==> v.Arr?
    ensures r.Success? ==> r.value == v
    ensures r.Failure? ==> r.error == InvalidArgument(MSG_NOT_ARRAYLIKE, v)
  {
    if v.Arr? then Success(v) else Failure(InvalidArgument(MSG_NOT_ARRAYLIKE, v))
  }

  class EventStateMachineFactory {
    var eventManager: EventManager?
    var eventFactory: EventFactory?
    var eventNameFormat: Value
    var eventParams: Value
    var eventTarget: Value

    constructor (eventManager: EventManager?, eventFactory: EventFactory?, eventNameFormat: Value,
                 eventParams: Value, eventTarget: Value)
      ensures this.eventManager == eventManager && this.eventFactory == eventFactory
      ensures this.eventNameFormat == eventNameFormat && this.eventParams == eventParams
      ensures this.eventTarget == eventTarget
    {
      this.eventManager := eventManager;
      this.eventFactory := eventFactory;
      this.eventNameFormat := eventNameFormat;
      this.eventParams := eventParams;
      this.eventTarget := eventTarget;
    }

    /**
     * `new EventStateMachineFactory(...)`: the name format and the params are
     * normalised only when they are not null; a null default stays null.
     */
    static method New(em: EventManager? := null, ef: EventFactory? := null,
                      nameFormat: Value := Null, params: Value := Null, target: Value := Null)
      returns (r: Result<EventStateMachineFactory, Exception>)
      ensures !nameFormat.Null? && !nameFormat.Str? ==>
                r == Failure(InvalidArgument(MSG_NOT_STRINGABLE, nameFormat))
      ensures (nameFormat.Null? || nameFormat.Str?) && !params.Null? && !params.Arr? ==>
                r == Failure(InvalidArgument(MSG_NOT_ARRAYLIKE, params))
      ensures r.Success? <==> (nameFormat.Null? || nameFormat.Str?) && (params.Null? || params.Arr?)
      ensures r.Success? ==>
                fresh(r.value) && r.value.eventManager == em && r.value.eventFactory == ef
                && r.value.eventNameFormat == nameFormat && r.value.eventParams == params
                && r.value.eventTarget == target
    {
      var format := Null;
      if !nameFormat.Null? {
        var n := NormalizeStringable(nameFormat);
        if n.Failure? {
          return Failure(n.error);
        }
        format := n.value;
      }
      var ps := Null;
      if !params.Null? {
        var n := NormalizeArray(params);
        if n.Failure? {
          return Failure(n.error);
        }
        ps := n.value;
      }
      var f := new EventStateMachineFactory(em, ef, format, ps, target);
      return Success(f);
    }

    function StoredDefaults(): Defaults
      reads this
    {
      Defaults(eventManager, eventFactory, eventNameFormat, eventParams, eventTarget)
    }

    /** `make($config)`. */
    method Make(cfg: Config) returns (r: Result<EventStateMachine, Exception>)
      ensures r.Failure? <==> MakeError(cfg, StoredDefaults()).Some?
      ensures r.Failure? ==> r.error == MakeError(cfg, StoredDefaults()).value
      ensures r.Success? ==>
                var s := Resolve(cfg, StoredDefaults()).value;
                fresh(r.value) && r.value.state == s.initialState
                && r.value.possibleTransitions == s.transitions
                && r.value.eventManager == s.eventManager && r.value.eventFactory == s.eventFactory
                && r.value.eventNameFormat ==
                     (if s.eventNameFormat.Str? then Some(s.eventNameFormat.s) else None)
                && r.value.target == s.eventTarget && r.value.eventParams == s.eventParams.entries
                && r.value.trace == []
    {
      var resolved := Resolve(cfg, StoredDefaults());
      if resolved.Failure? {
        return Failure(resolved.error);
      }
      var s := resolved.value;
      r := EventStateMachine.New(s.eventManager, s.eventFactory, s.initialState, s.transitions,
                                 s.eventNameFormat, s.eventTarget, s.eventParams);
    }
  }
}
