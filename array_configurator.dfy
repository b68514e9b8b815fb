/**
 * ArrayConfigurator: loads states and transitions from an array, keys both by
 * name, records the initial state and insists on exactly one INITIAL state.
 *
 * The loops are specified as folds over the entries' results (the state each
 * state entry constructs, the transition each transition entry builds), so that
 * the facts about the folds do not depend on how one entry is resolved.
 */
module Config {
  import opened Wrappers
  import opened PhpStrings
  import opened StateTypes
  import opened States
  import opened Transitions
  import opened Loading

  predicate IsInitial(s: State) {
    s.stateType == TYPE_INITIAL
  }

  /** getStateByName(): the state stored under the trimmed name, or null. */
  function StateByName(states: map<string, State>, name: string): (r: Option<State>)
    ensures r.Some? <==> Trim(name) in states
    ensures r.Some? ==> r.value == states[Trim(name)] && r.value in states.Values
  {
    var key := Trim(name);
    if key !in states then None else Some(states[key])
  }

  /** getStateByName() as the lookup the transition loop uses. */
  function Lookup(states: map<string, State>): string -> Option<State> {
    n => StateByName(states, n)
  }

  // ----- loadStates() -----

  /** The state each entry constructs, or the error it raises, in order. */
  function ResolveAll(entries: seq<StateEntry>): (rs: seq<Result<State, ConfigError>>)
    ensures |rs| == |entries|
    ensures ValidResults(rs)
  {
    seq(|entries|, i requires 0 <= i < |entries| => ResolveStateEntry(entries[i]))
  }

  /** Result i is the state entry i constructs, or its error. */
  lemma ResolveAllConstructs(entries: seq<StateEntry>)
    ensures Constructs(entries, ResolveAll(entries))
  {
  }

  /** Each result is what its entry constructs. */
  predicate Constructs(entries: seq<StateEntry>, rs: seq<Result<State, ConfigError>>) {
    |rs| == |entries| && forall i :: 0 <= i < |entries| ==> rs[i] == ResolveStateEntry(entries[i])
  }

  /** Every constructed state is valid. */
  predicate ValidResults(rs: seq<Result<State, ConfigError>>) {
    forall i :: 0 <= i < |rs| && rs[i].Success? ==> rs[i].value.Valid()
  }

  /** Every state valid and stored under its own name. */
  predicate KeyedStates(states: map<string, State>) {
    forall k :: k in states ==> states[k].name == k && states[k].Valid()
  }

  /** What loadStates() leaves behind: its result and the initial state it recorded on the way. */
  datatype StatesLoad = StatesLoad(states: Result<map<string, State>, ConfigError>, initial: Option<State>)

  /**
   * What loadStates() keeps while it runs: states keyed by name and valid, the
   * recorded initial state INITIAL and present by name, and every INITIAL state
   * in the list the recorded one.
   */
  predicate Consistent(l: StatesLoad) {
    && (l.initial.Some? ==> l.initial.value.Valid() && IsInitial(l.initial.value))
    && (l.states.Success? ==>
          && (forall k :: k in l.states.value ==> l.states.value[k].name == k && l.states.value[k].Valid())
          && (l.initial.Some? ==> l.initial.value.name in l.states.value)
          && (forall k :: k in l.states.value && IsInitial(l.states.value[k]) ==> l.initial == Some(l.states.value[k])))
  }

  /**
   * One iteration of loadStates(): after a failure nothing more happens; a
   * second INITIAL state fails; otherwise the state is stored under its name
   * and, when INITIAL, recorded.
   */
  function AddState(prev: StatesLoad, res: Result<State, ConfigError>): StatesLoad {
    if prev.states.Failure? then prev
    else match res
      case Failure(e) => StatesLoad(Failure(e), prev.initial)
      case Success(s) =>
        if IsInitial(s) && prev.initial.Some? then StatesLoad(Failure(SecondInitialState), prev.initial)
        else StatesLoad(Success(prev.states.value[s.name := s]), if IsInitial(s) then Some(s) else prev.initial)
  }

  /** loadStates() over the constructed states in order, from an empty list and no initial state. */
  function StatesAfter(rs: seq<Result<State, ConfigError>>): StatesLoad {
    if rs == [] then StatesLoad(Success(map[]), None)
    else AddState(StatesAfter(rs[..|rs| - 1]), rs[|rs| - 1])
  }

  /** One iteration keeps what loadStates() keeps. */
  lemma AddStateKeepsConsistent(prev: StatesLoad, res: Result<State, ConfigError>)
    requires Consistent(prev) && (res.Success? ==> res.value.Valid())
    ensures Consistent(AddState(prev, res))
  {
  }

  /** On valid states loadStates() keeps its invariant from start to end. */
  lemma {:induction false} StatesAfterConsistent(rs: seq<Result<State, ConfigError>>)
    requires ValidResults(rs)
    ensures Consistent(StatesAfter(rs))
  {
    if rs != [] {
      var front := rs[..|rs| - 1];
      assert ValidResults(front) by {
        assert forall i :: 0 <= i < |front| ==> front[i] == rs[i];
      }
      StatesAfterConsistent(front);
      AddStateKeepsConsistent(StatesAfter(front), rs[|rs| - 1]);
    }
  }

  /** The loop step: the states after one more entry. */
  lemma StatesAfterStep(rs: seq<Result<State, ConfigError>>, i: nat)
    requires i < |rs|
    ensures StatesAfter(rs[..i + 1]) == AddState(StatesAfter(rs[..i]), rs[i])
  {
    assert rs[..i + 1][..i] == rs[..i];
  }

  /** Every entry constructs a state. */
  predicate AllResolve(rs: seq<Result<State, ConfigError>>) {
    forall i :: 0 <= i < |rs| ==> rs[i].Success?
  }

  /** The number of entries that construct an INITIAL state. */
  function InitialCount(rs: seq<Result<State, ConfigError>>): nat {
    if rs == [] then 0
    else
      var last := rs[|rs| - 1];
      InitialCount(rs[..|rs| - 1]) + (if last.Success? && IsInitial(last.value) then 1 else 0)
  }

  /** Once a prefix of the entries fails, nothing after it changes the outcome. */
  lemma {:induction false} StatesFailureSticks(rs: seq<Result<State, ConfigError>>, j: nat)
    requires j <= |rs| && StatesAfter(rs[..j]).states.Failure?
    ensures StatesAfter(rs) == StatesAfter(rs[..j])
  {
    if j < |rs| {
      assert rs[..|rs| - 1][..j] == rs[..j];
      StatesFailureSticks(rs[..|rs| - 1], j);
    } else {
      assert rs[..j] == rs;
    }
  }

  /**
   * loadStates() succeeds exactly when every entry constructs a state and at
   * most one of them is INITIAL; then the initial state is recorded exactly
   * when there is one.
   */
  lemma {:induction false} StatesLoadedIff(rs: seq<Result<State, ConfigError>>)
    ensures StatesAfter(rs).states.Success? <==> AllResolve(rs) && InitialCount(rs) <= 1
    ensures StatesAfter(rs).states.Success? ==> (StatesAfter(rs).initial.Some? <==> InitialCount(rs) == 1)
  {
    if rs != [] {
      var front := rs[..|rs| - 1];
      StatesLoadedIff(front);
      assert AllResolve(rs) <==> AllResolve(front) && rs[|rs| - 1].Success? by {
        assert forall i :: 0 <= i < |front| ==> front[i] == rs[i];
      }
    }
  }

  /** After a successful loadStates() the keys are exactly the names of the constructed states. */
  lemma {:induction false} StateKeys(rs: seq<Result<State, ConfigError>>, k: string)
    requires StatesAfter(rs).states.Success?
    ensures k in StatesAfter(rs).states.value <==> exists i :: 0 <= i < |rs| && rs[i].Success? && rs[i].value.name == k
  {
    if rs != [] {
      var front := rs[..|rs| - 1];
      StateKeys(front, k);
      if k in StatesAfter(front).states.value {
        var i :| 0 <= i < |front| && front[i].Success? && front[i].value.name == k;
        assert rs[i] == front[i];
      }
      if i :| 0 <= i < |rs| - 1 && rs[i].Success? && rs[i].value.name == k {
        assert front[i] == rs[i];
      }
    }
  }

  /** A state declared again under the same name replaces the earlier one: the last declaration wins. */
  lemma {:induction false} LastDeclarationWins(rs: seq<Result<State, ConfigError>>, i: nat)
    requires StatesAfter(rs).states.Success?
    requires i < |rs| && rs[i].Success?
    requires forall j :: i < j < |rs| && rs[j].Success? ==> rs[j].value.name != rs[i].value.name
    ensures rs[i].value.name in StatesAfter(rs).states.value
    ensures StatesAfter(rs).states.value[rs[i].value.name] == rs[i].value
  {
    var front := rs[..|rs| - 1];
    if i < |rs| - 1 {
      assert front[i] == rs[i];
      LastDeclarationWins(front, i);
    }
  }

  // ----- loadTransitions() -----

  /** A transition as loadTransitions() builds it: valid, condition 0, every state one of the loaded ones. */
  predicate Built(states: map<string, State>, t: TransitionValue) {
    && t.Valid() && t.condition == 0
    && (forall i :: 0 <= i < |t.added| ==> t.added[i] in states.Values)
    && (forall i :: 0 <= i < |t.outputs| ==> t.outputs[i] in states.Values)
  }

  /** A transition built against the loaded states refers only to loaded states. */
  lemma BuildRefersToLoadedStates(states: map<string, State>, e: TransitionEntry)
    requires BuildTransition(Lookup(states), e).Success?
    ensures Built(states, BuildTransition(Lookup(states), e).value)
  {
    var t := BuildTransition(Lookup(states), e).value;
    forall i | 0 <= i < |t.added|
      ensures t.added[i] in states.Values
    {
      assert Lookup(states)(e.from.value[i]) == Some(t.added[i]);
    }
    forall i | 0 <= i < |t.outputs|
      ensures t.outputs[i] in states.Values
    {
      assert Lookup(states)(e.to.value[i]) == Some(t.outputs[i]);
    }
  }

  /** Each result is what its entry builds against the loaded states. */
  predicate Builds(states: map<string, State>, entries: seq<TransitionEntry>, bs: seq<Result<TransitionValue, ConfigError>>) {
    |bs| == |entries| && forall i :: 0 <= i < |entries| ==> bs[i] == BuildTransition(Lookup(states), entries[i])
  }

  predicate BuiltResults(states: map<string, State>, bs: seq<Result<TransitionValue, ConfigError>>) {
    forall i :: 0 <= i < |bs| && bs[i].Success? ==> Built(states, bs[i].value)
  }

  /** The transition each entry builds against the loaded states, or the error it raises, in order. */
  function BuildAll(states: map<string, State>, entries: seq<TransitionEntry>): (bs: seq<Result<TransitionValue, ConfigError>>)
    ensures |bs| == |entries|
    ensures BuiltResults(states, bs)
  {
    var bs := seq(|entries|, i requires 0 <= i < |entries| => BuildTransition(Lookup(states), entries[i]));
    assert BuiltResults(states, bs) by {
      forall i | 0 <= i < |bs| && bs[i].Success?
        ensures Built(states, bs[i].value)
      {
        BuildRefersToLoadedStates(states, entries[i]);
      }
    }
    bs
  }

  /** Result i is the transition entry i builds against the loaded states, or its error. */
  lemma BuildAllBuilds(states: map<string, State>, entries: seq<TransitionEntry>)
    ensures Builds(states, entries, BuildAll(states, entries))
  {
  }

  /** One iteration of loadTransitions(): the transition stored under its name, or the first error kept. */
  function AddTransition(prev: Result<map<string, TransitionValue>, ConfigError>, b: Result<TransitionValue, ConfigError>): (r: Result<map<string, TransitionValue>, ConfigError>)
    ensures prev.Failure? ==> r == prev
    ensures prev.Success? && b.Failure? ==> r == Failure(b.error)
    ensures prev.Success? && b.Success? ==> r == Success(prev.value[b.value.name := b.value])
  {
    match prev
    case Failure(_) => prev
    case Success(m) =>
      match b
      case Failure(e) => Failure(e)
      case Success(t) => Success(m[t.name := t])
  }

  /**
   * loadTransitions() over the built transitions in order: each is stored
   * under its name, a later one replacing an earlier one; the first failure
   * fails the load. Every stored transition is keyed by its name and refers
   * only to loaded states.
   */
  function TransitionsAfter(states: map<string, State>, bs: seq<Result<TransitionValue, ConfigError>>): (r: Result<map<string, TransitionValue>, ConfigError>)
    requires BuiltResults(states, bs)
    ensures r.Success? ==> forall k :: k in r.value ==> r.value[k].name == k && Built(states, r.value[k])
  {
    if bs == [] then Success(map[])
    else AddTransition(TransitionsAfter(states, bs[..|bs| - 1]), bs[|bs| - 1])
  }

  /** The loop step: the transitions after one more entry. */
  lemma TransitionsAfterStep(states: map<string, State>, bs: seq<Result<TransitionValue, ConfigError>>, i: nat)
    requires BuiltResults(states, bs) && i < |bs|
    ensures TransitionsAfter(states, bs[..i + 1]) == AddTransition(TransitionsAfter(states, bs[..i]), bs[i])
  {
    assert bs[..i + 1][..i] == bs[..i];
  }

  /** Once a prefix of the entries fails, loading all of them fails with the same error. */
  lemma {:induction false} TransitionsFailureSticks(states: map<string, State>, bs: seq<Result<TransitionValue, ConfigError>>, j: nat)
    requires BuiltResults(states, bs)
    requires j <= |bs| && TransitionsAfter(states, bs[..j]).Failure?
    ensures TransitionsAfter(states, bs) == TransitionsAfter(states, bs[..j])
  {
    if j < |bs| {
      assert bs[..|bs| - 1][..j] == bs[..j];
      TransitionsFailureSticks(states, bs[..|bs| - 1], j);
    } else {
      assert bs[..j] == bs;
    }
  }

  /** loadTransitions() succeeds exactly when every entry builds. */
  lemma {:induction false} TransitionsLoadedIff(states: map<string, State>, bs: seq<Result<TransitionValue, ConfigError>>)
    requires BuiltResults(states, bs)
    ensures TransitionsAfter(states, bs).Success? <==> forall i :: 0 <= i < |bs| ==> bs[i].Success?
  {
    if bs != [] {
      var front := bs[..|bs| - 1];
      TransitionsLoadedIff(states, front);
      assert forall i :: 0 <= i < |front| ==> front[i] == bs[i];
    }
  }

  /** After a successful loadTransitions() the keys are exactly the names of the built transitions. */
  lemma {:induction false} TransitionKeys(states: map<string, State>, bs: seq<Result<TransitionValue, ConfigError>>, k: string)
    requires BuiltResults(states, bs) && TransitionsAfter(states, bs).Success?
    ensures k in TransitionsAfter(states, bs).value <==> exists i :: 0 <= i < |bs| && bs[i].Success? && bs[i].value.name == k
  {
    if bs != [] {
      var front := bs[..|bs| - 1];
      assert forall i :: 0 <= i < |front| ==> front[i] == bs[i];
      TransitionKeys(states, front, k);
      if k in TransitionsAfter(states, front).value {
        var i :| 0 <= i < |front| && front[i].Success? && front[i].value.name == k;
        assert bs[i] == front[i];
      }
      if i :| 0 <= i < |bs| - 1 && bs[i].Success? && bs[i].value.name == k {
        assert front[i] == bs[i];
      }
    }
  }

  /** A transition declared again under the same name replaces the earlier one: the last declaration wins. */
  lemma {:induction false} LastTransitionWins(states: map<string, State>, bs: seq<Result<TransitionValue, ConfigError>>, i: nat)
    requires BuiltResults(states, bs) && TransitionsAfter(states, bs).Success?
    requires i < |bs| && bs[i].Success?
    requires forall j :: i < j < |bs| && bs[j].Success? ==> bs[j].value.name != bs[i].value.name
    ensures bs[i].value.name in TransitionsAfter(states, bs).value
    ensures TransitionsAfter(states, bs).value[bs[i].value.name] == bs[i].value
  {
    var front := bs[..|bs| - 1];
    assert forall j :: 0 <= j < |front| ==> front[j] == bs[j];
    if i < |bs| - 1 {
      LastTransitionWins(states, front, i);
    }
  }

  // ----- load() -----

  /** The state entries of an array configuration, constructed. */
  function Resolved(config: RawConfig): (rs: seq<Result<State, ConfigError>>)
    requires config.ConfigArray?
    ensures ValidResults(rs) && |rs| == |config.StateEntries()|
    ensures Constructs(config.StateEntries(), rs)
  {
    ResolveAll(config.StateEntries())
  }

  /** Everything an ArrayConfigurator holds, with each transition by its value. */
  datatype ConfiguratorValue = ConfiguratorValue(
    stateList: map<string, State>,
    transitionList: map<string, TransitionValue>,
    initialState: Option<State>)

  /**
   * load() on a configurator holding `v`: the error it raises, if any, and what
   * the configurator holds afterwards. A failing step leaves the fields it did
   * not reach as they were; the initial state is reset by every array load.
   */
  function LoadSpec(v: ConfiguratorValue, config: RawConfig): (r: (Option<ConfigError>, ConfiguratorValue))
    ensures config.NotAnArray? ==> r == (Some(NotAnArrayConfig), v)
    ensures r.0.None? ==> r.1.initialState.Some?
    ensures config.ConfigArray? ==> r.1.initialState == StatesAfter(Resolved(config)).initial
    ensures config.ConfigArray? && StatesAfter(Resolved(config)).states.Failure? ==> r.1.stateList == v.stateList
  {
    if config.NotAnArray? then (Some(NotAnArrayConfig), v)
    else
      var loaded := StatesAfter(Resolved(config));
      match loaded.states
      case Failure(e) => (Some(e), v.(initialState := loaded.initial))
      case Success(states) =>
        match TransitionsAfter(states, BuildAll(states, config.TransitionEntries()))
        case Failure(e) => (Some(e), v.(stateList := states, initialState := loaded.initial))
        case Success(ts) =>
          var w := ConfiguratorValue(states, ts, loaded.initial);
          if loaded.initial.None? then (Some(NoInitialState), w) else (None, w)
  }

  /** load() when the states fail: that error, the state list kept, the initial state as far as it got. */
  lemma LoadSpecStatesFail(v: ConfiguratorValue, config: RawConfig)
    requires config.ConfigArray? && StatesAfter(Resolved(config)).states.Failure?
    ensures LoadSpec(v, config) ==
      (Some(StatesAfter(Resolved(config)).states.error), v.(initialState := StatesAfter(Resolved(config)).initial))
  {
  }

  /** load() when the states load: the outcome of the transitions and of the initial-state check. */
  lemma LoadSpecStatesLoaded(v: ConfiguratorValue, config: RawConfig, states: map<string, State>)
    requires config.ConfigArray? && StatesAfter(Resolved(config)).states == Success(states)
    ensures var ts := TransitionsAfter(states, BuildAll(states, config.TransitionEntries()));
      var initial := StatesAfter(Resolved(config)).initial;
      && (ts.Failure? ==> LoadSpec(v, config) == (Some(ts.error), v.(stateList := states, initialState := initial)))
      && (ts.Success? ==> LoadSpec(v, config).1 == ConfiguratorValue(states, ts.value, initial))
      && (ts.Success? ==> LoadSpec(v, config).0 == if initial.None? then Some(NoInitialState) else None)
  {
  }

  /** Every transition entry of the configuration builds against the states it loads. */
  predicate AllBuild(config: RawConfig)
    requires config.ConfigArray? && StatesAfter(Resolved(config)).states.Success?
  {
    var states := StatesAfter(Resolved(config)).states.value;
    var bs := BuildAll(states, config.TransitionEntries());
    forall i :: 0 <= i < |bs| ==> bs[i].Success?
  }

  /**
   * load() succeeds exactly when the value is an array, every state entry
   * constructs a state, exactly one of them is INITIAL, and every transition
   * entry builds against the loaded states.
   */
  lemma LoadSucceedsIff(v: ConfiguratorValue, config: RawConfig)
    ensures LoadSpec(v, config).0.None? <==>
      && config.ConfigArray?
      && AllResolve(Resolved(config))
      && InitialCount(Resolved(config)) == 1
      && StatesAfter(Resolved(config)).states.Success?
      && AllBuild(config)
  {
    if config.ConfigArray? {
      var rs := Resolved(config);
      StatesLoadedIff(rs);
      if StatesAfter(rs).states.Success? {
        var states := StatesAfter(rs).states.value;
        TransitionsLoadedIff(states, BuildAll(states, config.TransitionEntries()));
      }
    }
  }

  /** Without an INITIAL state among otherwise valid entries, load() fails for the missing initial state. */
  lemma NoInitialStateIsRejected(v: ConfiguratorValue, config: RawConfig)
    requires config.ConfigArray? && AllResolve(Resolved(config)) && InitialCount(Resolved(config)) == 0
    requires StatesAfter(Resolved(config)).states.Success? ==> AllBuild(config)
    ensures LoadSpec(v, config).0 == Some(NoInitialState)
  {
    var rs := Resolved(config);
    StatesLoadedIff(rs);
    var states := StatesAfter(rs).states.value;
    TransitionsLoadedIff(states, BuildAll(states, config.TransitionEntries()));
  }

  /**
   * An INITIAL state after one INITIAL state among states that all construct
   * fails loadStates() with the second-initial error, whatever follows it.
   */
  lemma SecondInitialStateIsRejected(rs: seq<Result<State, ConfigError>>, j: nat)
    requires j < |rs| && AllResolve(rs[..j]) && InitialCount(rs[..j]) == 1
    requires rs[j].Success? && IsInitial(rs[j].value)
    ensures StatesAfter(rs).states == Failure(SecondInitialState)
  {
    StatesLoadedIff(rs[..j]);
    StatesAfterStep(rs, j);
    StatesFailureSticks(rs, j + 1);
  }

  /**
   * Once the states load, the outcome, the state list and the initial state do
   * not depend on what was loaded before; a successful load replaces everything.
   */
  lemma ReloadForgetsEarlierLoads(v: ConfiguratorValue, w: ConfiguratorValue, config: RawConfig)
    requires config.ConfigArray? && StatesAfter(Resolved(config)).states.Success?
    ensures LoadSpec(v, config).0 == LoadSpec(w, config).0
    ensures LoadSpec(v, config).1.stateList == LoadSpec(w, config).1.stateList
    ensures LoadSpec(v, config).1.initialState == LoadSpec(w, config).1.initialState
    ensures LoadSpec(v, config).0.None? ==> LoadSpec(v, config).1 == LoadSpec(w, config).1
  {
    var states := StatesAfter(Resolved(config)).states.value;
    LoadSpecStatesLoaded(v, config, states);
    LoadSpecStatesLoaded(w, config, states);
  }

  /**
   * What a successful load() leaves: states keyed by name; the INITIAL states
   * in the list are the recorded initial state, which may have been replaced
   * under its name by a later non-INITIAL state; transitions keyed by name whose
   * input and output states all belong to the state list.
   */
  predicate WellFormed(c: ConfiguratorValue) {
    && KeyedStates(c.stateList)
    && c.initialState.Some? && c.initialState.value.Valid() && IsInitial(c.initialState.value)
    && c.initialState.value.name in c.stateList
    && (forall k :: k in c.stateList && IsInitial(c.stateList[k]) ==> c.stateList[k] == c.initialState.value)
    && (forall k :: k in c.transitionList ==> c.transitionList[k].name == k && Built(c.stateList, c.transitionList[k]))
  }

  /** A successful load() always leaves a well-formed configuration. */
  lemma LoadedConfigurationIsWellFormed(v: ConfiguratorValue, config: RawConfig)
    requires LoadSpec(v, config).0.None?
    ensures WellFormed(LoadSpec(v, config).1)
  {
    StatesAfterConsistent(Resolved(config));
  }

  /**
   * A map of transition objects and the map of their values: the same keys,
   * every object valid, stored under its own name, with the given value up to
   * the condition. The objects are shared with the state machine, whose
   * apply() changes their conditions; nothing here reads a condition.
   */
  ghost predicate Mirrors(list: map<string, Transition>, values: map<string, TransitionValue>)
    reads list.Values
  {
    && list.Keys == values.Keys
    && forall k :: k in list ==> list[k].Valid() && list[k].name == k && list[k].Value().Configured() == values[k].Configured()
  }

  /** Mirrors for the entries that do not hold `t`; it does not read `t`. */
  ghost predicate MirrorsBesides(list: map<string, Transition>, values: map<string, TransitionValue>, t: Transition)
    reads set o | o in list.Values && o != t
  {
    && list.Keys == values.Keys
    && forall k :: k in list && list[k] != t ==>
         list[k].Valid() && list[k].name == k && list[k].Value().Configured() == values[k].Configured()
  }

  /** What the entries holding `t` say about it. */
  ghost predicate MirrorsAt(list: map<string, Transition>, values: map<string, TransitionValue>, t: Transition)
    reads t
  {
    forall k :: k in list && k in values && list[k] == t ==> t.name == k && t.Value().Configured() == values[k].Configured()
  }

  /**
   * Mirrors splits into a part that does not read `t` and a part about `t`,
   * so that changing `t`'s condition keeps the first part by framing.
   */
  lemma MirrorsSplit(list: map<string, Transition>, values: map<string, TransitionValue>, t: Transition)
    ensures Mirrors(list, values) <==> MirrorsBesides(list, values, t) && MirrorsAt(list, values, t) && (t in list.Values ==> t.Valid())
  {
    if MirrorsBesides(list, values, t) && MirrorsAt(list, values, t) && (t in list.Values ==> t.Valid()) {
      forall k | k in list
        ensures list[k].Valid() && list[k].name == k && list[k].Value().Configured() == values[k].Configured()
      {
        if list[k] == t {
          assert t in list.Values;
        }
      }
    }
  }

  /** Storing a valid transition under its name keeps the two maps in step. */
  lemma MirrorsStore(list: map<string, Transition>, values: map<string, TransitionValue>, t: Transition)
    requires Mirrors(list, values) && t.Valid()
    ensures Mirrors(list[t.name := t], values[t.name := t.Value()])
  {
  }

  class ArrayConfigurator {
    var stateList: map<string, State>
    var transitionList: map<string, Transition>
    var initialState: Option<State>
    /** The values of the transition objects in transitionList. */
    ghost var transitionValues: map<string, TransitionValue>

    ghost function Value(): ConfiguratorValue
      reads this
    {
      ConfiguratorValue(stateList, transitionValues, initialState)
    }

    /**
     * States keyed by name, a value for every transition, the initial state
     * INITIAL. That the transition objects have those values is stated
     * separately (Mirrors), because the objects are shared with the state
     * machine, which changes their conditions.
     */
    ghost predicate Valid()
      reads this
    {
      && KeyedStates(stateList)
      && transitionList.Keys == transitionValues.Keys
      && (initialState.Some? ==> initialState.value.Valid() && IsInitial(initialState.value))
    }

    /** A new configurator: empty lists and no initial state. */
    constructor()
      ensures Valid()
      ensures Value() == ConfiguratorValue(map[], map[], None)
    {
      stateList := map[];
      transitionList := map[];
      initialState := None;
      transitionValues := map[];
    }

    /** getInitialState() */
    function GetInitialState(): Option<State>
      reads this
    {
      initialState
    }

    /** setInitialState() */
    method SetInitialState(s: State)
      modifies this`initialState
      ensures initialState == Some(s)
    {
      initialState := Some(s);
    }

    /**
     * The body of loadStates()'s loop once the entry is resolved: a second
     * INITIAL state fails, an INITIAL one is recorded, the state is stored
     * under its name.
     */
    method AddToList(list: map<string, State>, resolved: Result<State, ConfigError>) returns (r: Result<map<string, State>, ConfigError>)
      modifies this`initialState
      ensures StatesLoad(r, initialState) == AddState(StatesLoad(Success(list), old(initialState)), resolved)
    {
      if resolved.Failure? {
        return Failure(resolved.error);
      }
      var state := resolved.value;
      if state.stateType == TYPE_INITIAL {
        if GetInitialState().Some? {
          return Failure(SecondInitialState);
        }
        SetInitialState(state);
      }
      r := Success(list[state.name := state]);
    }

    /** One pass of loadStates()'s loop: the i-th entry constructed and added. */
    method LoadEntry(entries: seq<StateEntry>, i: nat, list: map<string, State>) returns (next: Result<map<string, State>, ConfigError>)
      requires i < |entries|
      requires StatesAfter(ResolveAll(entries)[..i]) == StatesLoad(Success(list), initialState)
      modifies this`initialState
      ensures StatesAfter(ResolveAll(entries)[..i + 1]) == StatesLoad(next, initialState)
    {
      var resolved := ResolveStateEntry(entries[i]);
      StatesAfterStep(ResolveAll(entries), i);
      next := AddToList(list, resolved);
    }

    /** loadStates(): resets the initial state, then constructs and stores the states in order. */
    method LoadStates(entries: seq<StateEntry>) returns (r: Result<map<string, State>, ConfigError>)
      modifies this`initialState
      ensures r == StatesAfter(ResolveAll(entries)).states
      ensures initialState == StatesAfter(ResolveAll(entries)).initial
    {
      ghost var rs := ResolveAll(entries);
      initialState := None;
      var list := map[];
      var i := 0;
      while i < |entries|
        invariant 0 <= i <= |entries|
        invariant StatesAfter(rs[..i]) == StatesLoad(Success(list), initialState)
      {
        var next := LoadEntry(entries, i, list);
        if next.Failure? {
          StatesFailureSticks(rs, i + 1);
          return next;
        }
        list := next.value;
        i := i + 1;
      }
      assert rs[..i] == rs;
      r := Success(list);
    }

    /** One pass of loadTransitions()'s loop: the i-th entry built and stored under its name. */
    static method StoreEntry(states: map<string, State>, entries: seq<TransitionEntry>, i: nat,
                             list: map<string, Transition>, ghost values: map<string, TransitionValue>)
      returns (next: Result<map<string, Transition>, ConfigError>, ghost nextValues: map<string, TransitionValue>)
      requires i < |entries|
      requires Mirrors(list, values)
      requires TransitionsAfter(states, BuildAll(states, entries)[..i]) == Success(values)
      ensures next.Success? ==> Mirrors(next.value, nextValues)
      ensures next.Success? ==> TransitionsAfter(states, BuildAll(states, entries)[..i + 1]) == Success(nextValues)
      ensures next.Failure? ==> TransitionsAfter(states, BuildAll(states, entries)[..i + 1]) == Failure(next.error)
    {
      var built := NewTransition(Lookup(states), entries[i]);
      TransitionsAfterStep(states, BuildAll(states, entries), i);
      if built.Failure? {
        return Failure(built.error), values;
      }
      var transition := built.value;
      MirrorsStore(list, values, transition);
      next := Success(list[transition.name := transition]);
      nextValues := values[transition.name := transition.Value()];
    }

    /**
     * loadTransitions(): builds every transition against the state list and
     * stores it under its name; the ghost result is their values.
     */
    method LoadTransitions(entries: seq<TransitionEntry>) returns (r: Result<map<string, Transition>, ConfigError>, ghost values: map<string, TransitionValue>)
      ensures r.Failure? <==> TransitionsAfter(stateList, BuildAll(stateList, entries)).Failure?
      ensures r.Failure? ==> r.error == TransitionsAfter(stateList, BuildAll(stateList, entries)).error
      ensures r.Success? ==> Mirrors(r.value, values)
      ensures r.Success? ==> values == TransitionsAfter(stateList, BuildAll(stateList, entries)).value
    {
      ghost var bs := BuildAll(stateList, entries);
      var list: map<string, Transition> := map[];
      values := map[];
      var i := 0;
      while i < |entries|
        invariant 0 <= i <= |entries|
        invariant Mirrors(list, values)
        invariant TransitionsAfter(stateList, bs[..i]) == Success(values)
      {
        var next, nextValues := StoreEntry(stateList, entries, i, list, values);
        if next.Failure? {
          TransitionsFailureSticks(stateList, bs, i + 1);
          return next, values;
        }
        list, values := next.value, nextValues;
        i := i + 1;
      }
      assert bs[..i] == bs;
      r := Success(list);
    }

    /** The assignment of the state list. */
    method SetStateList(states: map<string, State>)
      requires Valid()
      requires KeyedStates(states)
      modifies this`stateList
      ensures Valid()
      ensures stateList == states
    {
      stateList := states;
    }

    /** The assignment of the transition list, with the values of its transitions. */
    method SetTransitionList(list: map<string, Transition>, ghost values: map<string, TransitionValue>)
      requires Valid() && Mirrors(list, values)
      modifies this`transitionList, this`transitionValues
      ensures Valid() && Mirrors(transitionList, transitionValues)
      ensures transitionList == list && transitionValues == values
    {
      transitionList, transitionValues := list, values;
    }

    /**
     * The rest of load() once the states are loaded: the state list assigned,
     * the transitions loaded against it and assigned, the initial state checked.
     */
    method Install(states: map<string, State>, entries: seq<TransitionEntry>) returns (r: Option<ConfigError>)
      requires Valid()
      requires KeyedStates(states)
      modifies this`stateList, this`transitionList, this`transitionValues
      ensures Valid()
      ensures stateList == states && initialState == old(initialState)
      ensures var ts := TransitionsAfter(states, BuildAll(states, entries));
        && (ts.Failure? ==> r == Some(ts.error) && transitionValues == old(transitionValues) && transitionList == old(transitionList))
        && (ts.Success? ==> transitionValues == ts.value && Mirrors(transitionList, transitionValues))
        && (ts.Success? ==> r == if initialState.None? then Some(NoInitialState) else None)
    {
      SetStateList(states);
      var transitions, values := LoadTransitions(entries);
      if transitions.Failure? {
        return Some(transitions.error);
      }
      SetTransitionList(transitions.value, values);
      if GetInitialState().None? {
        return Some(NoInitialState);
      }
      r := None;
    }

    /**
     * load(): rejects a non-array, then assigns the state list, then the
     * transition list, and finally insists on an initial state.
     */
    method Load(config: RawConfig) returns (r: Option<ConfigError>)
      requires Valid()
      modifies this
      ensures Valid()
      ensures (r, Value()) == LoadSpec(old(Value()), config)
      ensures r.None? ==> Mirrors(transitionList, transitionValues)
      ensures transitionList == old(transitionList) || Mirrors(transitionList, transitionValues)
    {
      if config.NotAnArray? {
        return Some(NotAnArrayConfig);
      }
      ghost var v := Value();
      var states := LoadStates(config.StateEntries());
      StatesAfterConsistent(ResolveAll(config.StateEntries()));
      if states.Failure? {
        LoadSpecStatesFail(v, config);
        return Some(states.error);
      }
      LoadSpecStatesLoaded(v, config, states.value);
      r := Install(states.value, config.TransitionEntries());
    }
  }
}
