/**
 * StateMachine: configures itself through an ArrayConfigurator, initialises
 * an entity to the initial state and applies named transitions to it,
 * dispatching a fixed sequence of notifications on the way.
 *
 * The pure functions InitializeSpec, CanSpec and ApplySpec say what one call
 * does to the entity's state and which notifications it dispatches; the class
 * StateMachine does it step by step on objects and is proved against them.
 */
module StateMachines {
  import opened Wrappers
  import opened PhpStrings
  import opened StateTypes
  import opened States
  import opened Transitions
  import opened Loading
  import Config

  datatype Phase = Before | After

  /**
   * A dispatched notification with the states it carries: StateMachineEvent
   * for initialisation, TransitionEvent (with the transition's name) around
   * apply(), StateEvent around the change of state.
   */
  datatype Event =
    | Initialization(phase: Phase)
    | ApplyTransition(phase: Phase, from: State, to: State, transition: string)
    | StateChange(phase: Phase, from: State, to: State)

  /** The name the dispatcher is called with. */
  function EventName(e: Event): string {
    match e
    case Initialization(Before) => "onBeforeInitialize"
    case Initialization(After) => "onAfterInitialize"
    case ApplyTransition(Before, _, _, _) => "onBeforeApplyTransition"
    case ApplyTransition(After, _, _, _) => "onAfterApplyTransition"
    case StateChange(Before, _, _) => "onBeforeStateChange"
    case StateChange(After, _, _) => "onAfterStateChange"
  }

  /** The exceptions the machine raises or lets through, by cause. */
  datatype MachineError =
    | NoInitialStateDefined                              // getInitialState()
    | UnknownTransition(name: string)                    // getTransitionByName()
    | NoState                                            // an entity without a state handed to the transition's can()
    | NotApplicable(transition: string, state: string)   // apply(): the transition does not accept the state
    | InFinalState                                       // apply(): the entity is in a FINAL state
    | TransitionFailed(error: TransitionError)           // thrown by the transition's own apply()

  /** What one call does to an entity: its result, the entity's state afterwards, the notifications dispatched. */
  datatype Step = Step(result: Result<bool, MachineError>, state: Option<State>, events: seq<Event>)

  // ----- initialize() -----

  /**
   * initialize(): an entity that has a state is left alone and false returned;
   * otherwise onBeforeInitialize is dispatched, then the initial state is set
   * (an error when there is none), onAfterInitialize dispatched and true returned.
   */
  function InitializeSpec(initial: Option<State>, current: Option<State>): (r: Step)
    ensures current.Some? ==> r == Step(Success(false), current, [])
    ensures r.result == Success(true) <==> current.None? && initial.Some?
    ensures r.result == Success(true) ==> r.state == initial && r.events == [Initialization(Before), Initialization(After)]
    ensures current.None? && initial.None? ==> r == Step(Failure(NoInitialStateDefined), None, [Initialization(Before)])
  {
    if current.Some? then Step(Success(false), current, [])
    else if initial.None? then Step(Failure(NoInitialStateDefined), current, [Initialization(Before)])
    else Step(Success(true), initial, [Initialization(Before), Initialization(After)])
  }

  /** A second initialize() after a successful one changes nothing and dispatches nothing. */
  lemma InitializeOnlyOnce(initial: Option<State>, current: Option<State>)
    requires InitializeSpec(initial, current).result.Success?
    ensures var second := InitializeSpec(initial, InitializeSpec(initial, current).state);
      second == Step(Success(false), InitializeSpec(initial, current).state, [])
  {
  }

  // ----- can() -----

  /**
   * can(): the transition under the trimmed name, asked whether it accepts the
   * entity's state.
   */
  function CanSpec(transitions: map<string, TransitionValue>, name: string, current: Option<State>): (r: Result<bool, MachineError>)
    ensures Trim(name) !in transitions <==> r == Failure(UnknownTransition(Trim(name)))
    ensures Trim(name) in transitions && current.None? ==> r == Failure(NoState)
    ensures Trim(name) in transitions && current.Some? ==>
      r == Success(exists i :: 0 <= i < |transitions[Trim(name)].added| && transitions[Trim(name)].added[i].name == current.value.name)
  {
    var key := Trim(name);
    if key !in transitions then Failure(UnknownTransition(key))
    else if current.None? then Failure(NoState)
    else Success(transitions[key].Can(current.value))
  }

  // ----- apply() -----

  /**
   * apply(): the checks in order (known transition, a state, accepted by the
   * transition, not FINAL) raise before anything is dispatched; then
   * onBeforeApplyTransition, the transition's own apply() with the action's
   * result `outcome`, and, when the state changes, onBeforeStateChange, the new
   * state and onAfterStateChange; finally onAfterApplyTransition. The result
   * says whether the state changed.
   */
  function ApplySpec(transitions: map<string, TransitionValue>, name: string, current: Option<State>, outcome: int): (r: Step)
    ensures r.result.Failure? ==> r.state == current
    ensures r.events == [] <==> r.result.Failure? && !r.result.error.TransitionFailed?
    ensures current.Some? && current.value.stateType == TYPE_FINAL ==> r.result.Failure? && r.events == []
    ensures r.result.Success? ==> current.Some? && r.state.Some? && (r.result.value <==> r.state != current)
    ensures r.result.Success? ==>
      && Trim(name) in transitions
      && |r.events| == (if r.result.value then 4 else 2)
      && r.events[0] == ApplyTransition(Before, current.value, current.value, transitions[Trim(name)].name)
      && r.events[|r.events| - 1] == ApplyTransition(After, current.value, r.state.value, transitions[Trim(name)].name)
    ensures r.result == Success(true) ==>
      r.events[1] == StateChange(Before, current.value, r.state.value) && r.events[2] == StateChange(After, current.value, r.state.value)
    ensures Trim(name) in transitions && current.Some? && transitions[Trim(name)].Can(current.value) && current.value.stateType == TYPE_FINAL ==>
      r == Step(Failure(InFinalState), current, [])
  {
    var key := Trim(name);
    if key !in transitions then Step(Failure(UnknownTransition(key)), current, [])
    else if current.None? then Step(Failure(NoState), current, [])
    else
      var t := transitions[key];
      var from := current.value;
      if !t.Can(from) then Step(Failure(NotApplicable(t.name, from.name)), current, [])
      else if from.stateType == TYPE_FINAL then Step(Failure(InFinalState), current, [])
      else Fire(t.name, from, Resolve(t, from, outcome).0)
  }

  /**
   * What apply() does once the checks pass, given what the transition named
   * `transition` yields from `from`: onBeforeApplyTransition, and, when the
   * transition yields a state, the change between its two notifications when
   * the state differs, then onAfterApplyTransition. A transition that fails
   * leaves the state and has dispatched only the first notification.
   */
  function Fire(transition: string, from: State, yielded: Result<State, TransitionError>): (r: Step)
    ensures r.events != [] && r.events[0] == ApplyTransition(Before, from, from, transition)
    ensures r.result.Failure? ==> r.state == Some(from) && r.events == [r.events[0]] && r.result.error.TransitionFailed?
    ensures r.result.Success? ==>
      && r.state.Some? && (r.result.value <==> r.state.value != from)
      && |r.events| == (if r.result.value then 4 else 2)
      && r.events[|r.events| - 1] == ApplyTransition(After, from, r.state.value, transition)
    ensures r.result == Success(true) ==>
      r.events[1] == StateChange(Before, from, r.state.value) && r.events[2] == StateChange(After, from, r.state.value)
  {
    var before := ApplyTransition(Before, from, from, transition);
    match yielded
    case Failure(e) => Step(Failure(TransitionFailed(e)), Some(from), [before])
    case Success(to) =>
      var changed := to != from;
      var change := if changed then [StateChange(Before, from, to), StateChange(After, from, to)] else [];
      Step(Success(changed), Some(to), [before] + change + [ApplyTransition(After, from, to, transition)])
  }

  /**
   * The checks apply() makes before dispatching anything, each with its own
   * error: the transition unknown under the trimmed name, no state, a state
   * the transition does not accept.
   */
  lemma ApplyChecks(transitions: map<string, TransitionValue>, name: string, current: Option<State>, outcome: int)
    ensures Trim(name) !in transitions ==>
      ApplySpec(transitions, name, current, outcome) == Step(Failure(UnknownTransition(Trim(name))), current, [])
    ensures Trim(name) in transitions && current.None? ==>
      ApplySpec(transitions, name, current, outcome) == Step(Failure(NoState), current, [])
    ensures Trim(name) in transitions && current.Some? && !transitions[Trim(name)].Can(current.value) ==>
      ApplySpec(transitions, name, current, outcome) ==
        Step(Failure(NotApplicable(transitions[Trim(name)].name, current.value.name)), current, [])
  {
  }

  /** Once the checks pass, apply() fires the transition on what its own apply() yields. */
  lemma ApplyFires(transitions: map<string, TransitionValue>, name: string, from: State, outcome: int)
    requires Trim(name) in transitions && transitions[Trim(name)].Can(from) && from.stateType != TYPE_FINAL
    ensures ApplySpec(transitions, name, Some(from), outcome) ==
      Fire(transitions[Trim(name)].name, from, Resolve(transitions[Trim(name)], from, outcome).0)
  {
  }

  /** A change of state dispatches exactly four notifications, in this order. */
  lemma ChangeNotifications(transition: string, from: State, to: State)
    requires to != from
    ensures Fire(transition, from, Success(to)).events == [
      ApplyTransition(Before, from, from, transition), StateChange(Before, from, to),
      StateChange(After, from, to), ApplyTransition(After, from, to, transition)]
  {
  }

  /**
   * can() foretells apply(): a transition that cannot take the state makes
   * apply() raise without dispatching anything; one that can, on a state that
   * is not FINAL, gets as far as onBeforeApplyTransition.
   */
  lemma CanForetellsApply(transitions: map<string, TransitionValue>, name: string, current: Option<State>, outcome: int)
    requires CanSpec(transitions, name, current).Success?
    ensures !CanSpec(transitions, name, current).value ==>
      ApplySpec(transitions, name, current, outcome) ==
        Step(Failure(NotApplicable(transitions[Trim(name)].name, current.value.name)), current, [])
    ensures CanSpec(transitions, name, current).value && current.value.stateType != TYPE_FINAL ==>
      ApplySpec(transitions, name, current, outcome).events[0] ==
        ApplyTransition(Before, current.value, current.value, transitions[Trim(name)].name)
  {
  }

  /**
   * apply() succeeds exactly when the transition is known, the entity has a
   * state that the transition accepts and that is not FINAL, and the
   * transition has an output state at the resulting condition; the new state
   * is that output state.
   */
  lemma ApplySucceedsIff(transitions: map<string, TransitionValue>, name: string, current: Option<State>, outcome: int)
    ensures ApplySpec(transitions, name, current, outcome).result.Success? <==>
      && Trim(name) in transitions && current.Some?
      && transitions[Trim(name)].Can(current.value)
      && current.value.stateType != TYPE_FINAL
      && Resolve(transitions[Trim(name)], current.value, outcome).0.Success?
    ensures ApplySpec(transitions, name, current, outcome).result.Success? ==>
      ApplySpec(transitions, name, current, outcome).state == Some(Resolve(transitions[Trim(name)], current.value, outcome).0.value)
  {
  }

  /** A call of apply() on an entity: the transition's name and the result its action returns. */
  datatype Call = Call(transition: string, outcome: int)

  /** The entity's state after the calls in order, a call that raises leaving it as it was. */
  function Run(transitions: map<string, TransitionValue>, current: Option<State>, calls: seq<Call>): Option<State> {
    if calls == [] then current
    else
      var last := calls[|calls| - 1];
      ApplySpec(transitions, last.transition, Run(transitions, current, calls[..|calls| - 1]), last.outcome).state
  }

  /** A FINAL state is never left, whatever is applied. */
  lemma {:induction false} FinalStateIsAbsorbing(transitions: map<string, TransitionValue>, s: State, calls: seq<Call>)
    requires s.stateType == TYPE_FINAL
    ensures Run(transitions, Some(s), calls) == Some(s)
  {
    if calls != [] {
      FinalStateIsAbsorbing(transitions, s, calls[..|calls| - 1]);
    }
  }

  /**
   * What a successful configure() gives the machine: states keyed by name and
   * valid, transitions keyed by name whose states all belong to the state list.
   */
  predicate Wired(states: map<string, State>, transitions: map<string, TransitionValue>) {
    && Config.KeyedStates(states)
    && (forall k :: k in transitions ==> transitions[k].name == k && Config.Built(states, transitions[k]))
  }

  /** Running two call sequences one after the other is running their concatenation. */
  lemma {:induction false} RunConcat(transitions: map<string, TransitionValue>, current: Option<State>, first: seq<Call>, second: seq<Call>)
    ensures Run(transitions, current, first + second) == Run(transitions, Run(transitions, current, first), second)
  {
    if second == [] {
      assert first + second == first;
    } else {
      assert (first + second)[..|first + second| - 1] == first + second[..|second| - 1];
      RunConcat(transitions, current, first, second[..|second| - 1]);
    }
  }

  /** apply() either leaves the state alone or moves the entity to one of the configured states. */
  lemma ApplyReachesConfiguredStates(states: map<string, State>, transitions: map<string, TransitionValue>, name: string, current: Option<State>, outcome: int)
    requires Wired(states, transitions)
    ensures var after := ApplySpec(transitions, name, current, outcome).state;
      after == current || (after.Some? && after.value in states.Values)
  {
    var key := Trim(name);
    if key in transitions && current.Some? {
      var t := transitions[key];
      var res := Resolve(t, current.value, outcome);
      if res.0.Success? {
        assert res.0.value == t.outputs[res.1.condition];
      }
    }
  }

  /** However many transitions are applied, the entity is in its starting state or in a configured one. */
  lemma {:induction false} RunStaysInConfiguredStates(states: map<string, State>, transitions: map<string, TransitionValue>, current: Option<State>, calls: seq<Call>)
    requires Wired(states, transitions)
    ensures var after := Run(transitions, current, calls);
      after == current || (after.Some? && after.value in states.Values)
  {
    if calls != [] {
      var last := calls[|calls| - 1];
      RunStaysInConfiguredStates(states, transitions, current, calls[..|calls| - 1]);
      ApplyReachesConfiguredStates(states, transitions, last.transition, Run(transitions, current, calls[..|calls| - 1]), last.outcome);
    }
  }

  /** An entity whose state the machine manages (IStatefulObject); null is None. */
  class StatefulObject {
    var state: Option<State>

    /** A new entity has no state. */
    constructor()
      ensures state == None
    {
      state := None;
    }

    /** getState() */
    function GetState(): Option<State>
      reads this
    {
      state
    }

    /** setState() */
    method SetState(s: State)
      modifies this`state
      ensures state == Some(s)
    {
      state := Some(s);
    }
  }

  class StateMachine {
    const configLoader: Config.ArrayConfigurator
    var stateList: map<string, State>
    var transitionList: map<string, Transition>
    /** The values of the transition objects in transitionList, up to their conditions. */
    ghost var transitionValues: map<string, TransitionValue>
    /** The notifications dispatched so far, in order. */
    var events: seq<Event>

    /**
     * The loader is valid, the transition objects mirror their values, and the
     * lists are as a successful load leaves them. The transition objects are
     * shared with the loader, which the machine does not consult about them
     * after configure().
     */
    ghost predicate Valid()
      reads this`stateList, this`transitionList, this`transitionValues
      reads configLoader, transitionList.Values
    {
      && configLoader.Valid()
      && Config.Mirrors(transitionList, transitionValues)
      && Wired(stateList, transitionValues)
    }

    /** The constructor: the loader kept, empty lists, nothing dispatched. */
    constructor(loader: Config.ArrayConfigurator)
      requires loader.Valid()
      ensures Valid()
      ensures configLoader == loader && stateList == map[] && transitionList == map[] && events == []
    {
      configLoader := loader;
      stateList := map[];
      transitionList := map[];
      transitionValues := map[];
      events := [];
    }

    /** The event dispatcher: records the notification. */
    method Dispatch(e: Event)
      requires Valid()
      modifies this`events
      ensures Valid()
      ensures events == old(events) + [e]
    {
      events := events + [e];
    }

    /**
     * configure(): lets the loader load the configuration, raising what it
     * raises, then takes over its state and transition lists.
     */
    method Configure(config: RawConfig) returns (r: Option<ConfigError>)
      requires Valid()
      modifies this, configLoader
      ensures Valid()
      ensures (r, configLoader.Value()) == Config.LoadSpec(old(configLoader.Value()), config)
      ensures r.Some? ==> stateList == old(stateList) && transitionList == old(transitionList) && transitionValues == old(transitionValues)
      ensures r.None? ==> stateList == configLoader.stateList && transitionList == configLoader.transitionList
      ensures r.None? ==> transitionValues == configLoader.transitionValues
      ensures events == old(events)
    {
      ghost var before := configLoader.Value();
      r := configLoader.Load(config);
      if r.Some? {
        return;
      }
      Config.LoadedConfigurationIsWellFormed(before, config);
      TakeOverLists();
    }

    /** The assignments of configure(): the loader's lists become the machine's. */
    method TakeOverLists()
      requires configLoader.Valid() && Wired(configLoader.stateList, configLoader.transitionValues)
      requires Config.Mirrors(configLoader.transitionList, configLoader.transitionValues)
      modifies this`stateList, this`transitionList, this`transitionValues
      ensures Valid()
      ensures stateList == configLoader.stateList && transitionList == configLoader.transitionList
      ensures transitionValues == configLoader.transitionValues
    {
      ghost var list := configLoader.transitionList;
      assert Config.Mirrors(list, configLoader.transitionValues);
      stateList, transitionList, transitionValues := configLoader.stateList, configLoader.transitionList, configLoader.transitionValues;
      assert Config.Mirrors(list, transitionValues);
    }

    /** getInitialState(): the loader's initial state, or an error when it has none. */
    function GetInitialState(): (r: Result<State, MachineError>)
      reads this`stateList, this`transitionList, this`transitionValues
      reads configLoader, transitionList.Values
      requires Valid()
      ensures r.Failure? <==> configLoader.initialState.None?
      ensures r.Failure? ==> r.error == NoInitialStateDefined
      ensures r.Success? ==> Some(r.value) == configLoader.initialState && Config.IsInitial(r.value)
    {
      if configLoader.GetInitialState().None? then Failure(NoInitialStateDefined)
      else Success(configLoader.GetInitialState().value)
    }

    /** initialize() */
    method Initialize(entity: StatefulObject) returns (r: Result<bool, MachineError>)
      requires Valid()
      modifies entity`state, this`events
      ensures Valid()
      ensures var spec := InitializeSpec(configLoader.initialState, old(entity.state));
        r == spec.result && entity.state == spec.state && events == old(events) + spec.events
    {
      if entity.GetState().Some? {
        return Success(false);
      }
      Dispatch(Initialization(Before));
      var initial := GetInitialState();
      if initial.Failure? {
        return Failure(initial.error);
      }
      entity.SetState(initial.value);
      Dispatch(Initialization(After));
      r := Success(true);
    }

    /** getTransitionByName(): the transition under the trimmed name, or an error. */
    function GetTransitionByName(name: string): (r: Result<Transition, MachineError>)
      reads this
      ensures r.Success? <==> Trim(name) in transitionList
      ensures r.Success? ==> r.value == transitionList[Trim(name)]
      ensures r.Failure? ==> r.error == UnknownTransition(Trim(name))
    {
      var key := Trim(name);
      if key !in transitionList then Failure(UnknownTransition(key)) else Success(transitionList[key])
    }

    /** can(): reads the entity and the transition, changes nothing. */
    method Can(name: string, entity: StatefulObject) returns (r: Result<bool, MachineError>)
      requires Valid()
      ensures r == CanSpec(transitionValues, name, entity.state)
    {
      var transition := GetTransitionByName(name);
      if transition.Failure? {
        return Failure(transition.error);
      }
      var current := entity.GetState();
      if current.None? {
        return Failure(NoState);
      }
      var t := transition.value;
      assert t.Value().Configured().added == transitionValues[Trim(name)].Configured().added;
      r := Success(t.Can(current.value));
    }

    /**
     * The call of the transition's own apply(): the result is what the value
     * of the transition promises, and the condition it stores does not change
     * what the machine holds about it.
     */
    method ApplyTransitionObject(t: Transition, key: string, from: State, outcome: int) returns (to: Result<State, TransitionError>)
      requires Valid() && key in transitionList && t == transitionList[key]
      modifies this`events, t`condition
      ensures Valid()
      ensures to == Resolve(transitionValues[key], from, outcome).0
      ensures events == old(events) + [ApplyTransition(Before, from, from, transitionValues[key].name)]
    {
      Dispatch(ApplyTransition(Before, from, from, t.name));
      ghost var tv := t.Value();
      Config.MirrorsSplit(transitionList, transitionValues, t);
      to := t.Apply(from, outcome);
      assert t.Value().Configured() == tv.Configured();
      ResolveIgnoresCondition(tv, transitionValues[key], from, outcome);
      Config.MirrorsSplit(transitionList, transitionValues, t);
    }

    /**
     * apply(): the checks, then onBeforeApplyTransition, the transition's own
     * apply() (which stores `outcome`, the action's result, as its condition
     * when it has an action), the change of state between its two
     * notifications when the state differs, and onAfterApplyTransition.
     */
    method Apply(name: string, entity: StatefulObject, outcome: int) returns (r: Result<bool, MachineError>)
      requires Valid()
      modifies entity`state, this`events, transitionList.Values
      ensures Valid()
      ensures var spec := ApplySpec(transitionValues, name, old(entity.state), outcome);
        r == spec.result && entity.state == spec.state && events == old(events) + spec.events
    {
      var checked := CheckApplicable(name, entity);
      if checked.Failure? {
        return Failure(checked.error);
      }
      ApplyFires(transitionValues, name, entity.state.value, outcome);
      r := FireTransition(checked.value, Trim(name), entity, outcome);
    }

    /**
     * The checks apply() makes before dispatching anything, in order: the
     * transition known, the entity holding a state the transition accepts,
     * that state not FINAL. On success the transition object; otherwise the
     * error apply() raises, whatever the action would return.
     */
    method CheckApplicable(name: string, entity: StatefulObject) returns (r: Result<Transition, MachineError>)
      requires Valid()
      ensures r.Success? <==>
        && Trim(name) in transitionValues && entity.state.Some?
        && transitionValues[Trim(name)].Can(entity.state.value)
        && entity.state.value.stateType != TYPE_FINAL
      ensures r.Success? ==> Trim(name) in transitionList && r.value == transitionList[Trim(name)]
      ensures r.Failure? ==> forall outcome :: ApplySpec(transitionValues, name, entity.state, outcome) == Step(Failure(r.error), entity.state, [])
    {
      var transition := GetTransitionByName(name);
      if transition.Failure? {
        return Failure(transition.error);
      }
      var t := transition.value;
      var current := entity.GetState();
      if current.None? {
        return Failure(NoState);
      }
      assert t.Value().Configured().added == transitionValues[Trim(name)].Configured().added;
      if !t.Can(current.value) {
        return Failure(NotApplicable(t.name, current.value.name));
      }
      if current.value.stateType == TYPE_FINAL {
        return Failure(InFinalState);
      }
      r := Success(t);
    }

    /** The part of apply() after the checks. */
    method FireTransition(t: Transition, key: string, entity: StatefulObject, outcome: int) returns (r: Result<bool, MachineError>)
      requires Valid() && key in transitionList && t == transitionList[key] && entity.state.Some?
      modifies entity`state, this`events, t`condition
      ensures Valid()
      ensures var from := old(entity.state).value;
        var spec := Fire(transitionValues[key].name, from, Resolve(transitionValues[key], from, outcome).0);
        r == spec.result && entity.state == spec.state && events == old(events) + spec.events
    {
      var from := entity.state.value;
      ghost var log := events;
      var to := ApplyTransitionObject(t, key, from, outcome);
      if to.Failure? {
        return Failure(TransitionFailed(to.error));
      }
      Complete(entity, t.name, from, to.value, log);
      r := Success(to.value != from);
    }

    /**
     * The rest of apply() once the transition has yielded `to`: the change of
     * state between its two notifications when the state differs, then
     * onAfterApplyTransition. `log` is what had been dispatched before
     * onBeforeApplyTransition.
     */
    method Complete(entity: StatefulObject, transition: string, from: State, to: State, ghost log: seq<Event>)
      requires Valid() && entity.state == Some(from)
      requires events == log + [ApplyTransition(Before, from, from, transition)]
      modifies entity`state, this`events
      ensures Valid() && entity.state == Some(to)
      ensures events == log + Fire(transition, from, Success(to)).events
    {
      var after := ApplyTransition(After, from, to, transition);
      if to != from {
        var changing := StateChange(Before, from, to);
        var changedTo := StateChange(After, from, to);
        Dispatch(changing);
        entity.SetState(to);
        Dispatch(changedTo);
        Dispatch(after);
        assert Fire(transition, from, Success(to)).events == [ApplyTransition(Before, from, from, transition), changing, changedTo, after];
      } else {
        Dispatch(after);
      }
    }
  }
}
