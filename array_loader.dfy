/**
 * ArrayLoader: the second loader of an array configuration. Unlike
 * ArrayConfigurator it appends states and transitions to plain lists in
 * declaration order, keeps same-named entries side by side, looks states up
 * by a linear search for the first one with the name, knows no 'default'
 * option for transitions and does not care how many states are INITIAL.
 */
module Configuration {
  import opened Wrappers
  import opened PhpStrings
  import opened StateTypes
  import opened States
  import opened Transitions
  import opened Loading
  import Config

  // ----- getStateByName() -----

  /** The first state in the list carrying exactly `name`, or None. */
  function FirstNamed(states: seq<State>, name: string): (r: Option<State>)
    ensures r.None? <==> forall i :: 0 <= i < |states| ==> states[i].name != name
    ensures r.Some? ==> r.value.name == name && r.value in states
  {
    if states == [] then None
    else if states[0].name == name then Some(states[0])
    else FirstNamed(states[1..], name)
  }

  /** The state at index i is found when no earlier state carries its name: the first match wins. */
  lemma {:induction false} FirstNamedIsFirst(states: seq<State>, i: nat)
    requires i < |states|
    requires forall j :: 0 <= j < i ==> states[j].name != states[i].name
    ensures FirstNamed(states, states[i].name) == Some(states[i])
  {
    if i > 0 {
      assert states[1..][i - 1] == states[i];
      FirstNamedIsFirst(states[1..], i - 1);
    }
  }

  /** getStateByName() as the lookup the transition loop uses: the name trimmed, then searched. */
  function Lookup(states: seq<State>): string -> Option<State> {
    n => FirstNamed(states, Trim(n))
  }

  // ----- The loops, as folds over the entries' results -----

  /**
   * A loop that appends what each entry yields and stops at the first entry
   * that raises: the list of all results in order, or the first error.
   */
  function Collect<T>(rs: seq<Result<T, ConfigError>>): Result<seq<T>, ConfigError> {
    if rs == [] then Success([])
    else
      var prev := Collect(rs[..|rs| - 1]);
      if prev.Failure? then prev
      else if rs[|rs| - 1].Failure? then Failure(rs[|rs| - 1].error)
      else Success(prev.value + [rs[|rs| - 1].value])
  }

  /** The loop succeeds exactly when every entry does, and then lists their values in order. */
  lemma {:induction false} CollectMeaning<T>(rs: seq<Result<T, ConfigError>>)
    ensures Collect(rs).Success? <==> forall i :: 0 <= i < |rs| ==> rs[i].Success?
    ensures Collect(rs).Success? ==>
      |Collect(rs).value| == |rs| && forall i :: 0 <= i < |rs| ==> rs[i] == Success(Collect(rs).value[i])
  {
    if rs != [] {
      var front := rs[..|rs| - 1];
      CollectMeaning(front);
      assert forall i :: 0 <= i < |front| ==> front[i] == rs[i];
    }
  }

  /** The loop step: the list after one more entry. */
  lemma CollectStep<T>(rs: seq<Result<T, ConfigError>>, i: nat, xs: seq<T>)
    requires i < |rs| && Collect(rs[..i]) == Success(xs)
    ensures rs[i].Failure? ==> Collect(rs[..i + 1]) == Failure(rs[i].error)
    ensures rs[i].Success? ==> Collect(rs[..i + 1]) == Success(xs + [rs[i].value])
  {
    assert rs[..i + 1][..i] == rs[..i];
  }

  /** Once a prefix of the entries fails, the whole loop fails with the same error. */
  lemma {:induction false} CollectFailureSticks<T>(rs: seq<Result<T, ConfigError>>, j: nat)
    requires j <= |rs| && Collect(rs[..j]).Failure?
    ensures Collect(rs) == Collect(rs[..j])
  {
    if j < |rs| {
      assert rs[..|rs| - 1][..j] == rs[..j];
      CollectFailureSticks(rs[..|rs| - 1], j);
    } else {
      assert rs[..j] == rs;
    }
  }

  /** The error raised is that of the first entry that fails. */
  lemma CollectReportsFirstFailure<T>(rs: seq<Result<T, ConfigError>>, i: nat)
    requires i < |rs| && rs[i].Failure?
    requires forall j :: 0 <= j < i ==> rs[j].Success?
    ensures Collect(rs) == Failure(rs[i].error)
  {
    var prefix := rs[..i];
    assert forall j :: 0 <= j < |prefix| ==> prefix[j] == rs[j];
    CollectMeaning(prefix);
    CollectStep(rs, i, Collect(prefix).value);
    CollectFailureSticks(rs, i + 1);
  }

  // ----- loadStates() -----

  /** One state per entry, state i being the one entry i constructs. */
  predicate ConstructedInOrder(entries: seq<StateEntry>, ss: seq<State>) {
    |ss| == |entries| && forall i :: 0 <= i < |entries| ==> Success(ss[i]) == ResolveStateEntry(entries[i])
  }

  /** loadStates(): every state constructed and appended in order, duplicates kept. */
  function StatesList(entries: seq<StateEntry>): (r: Result<seq<State>, ConfigError>)
    ensures r.Success? ==> forall i :: 0 <= i < |r.value| ==> r.value[i].Valid()
    ensures r.Success? ==> ConstructedInOrder(entries, r.value)
  {
    CollectMeaning(Config.ResolveAll(entries));
    Collect(Config.ResolveAll(entries))
  }

  // ----- loadTransitions() -----

  /**
   * The transition an entry builds here: the resolver knows no 'default'
   * option, so an entry giving one is refused before anything else; otherwise
   * the entry builds as for ArrayConfigurator, never the default transition.
   */
  function BuildLoaderTransition(lookup: string -> Option<State>, e: TransitionEntry): (r: Result<TransitionValue, ConfigError>)
    ensures e.isDefault.Some? ==> r == Failure(UndefinedOption(Trim(e.key)))
    ensures e.isDefault.None? ==> r == BuildTransition(lookup, e)
    ensures r.Success? ==> !r.value.isDefault
  {
    if e.isDefault.Some? then Failure(UndefinedOption(Trim(e.key))) else BuildTransition(lookup, e)
  }

  /** A transition as loadTransitions() builds it: valid, condition 0, not the default, every state one of the loaded ones. */
  predicate Built(states: seq<State>, t: TransitionValue) {
    && t.Valid() && t.condition == 0 && !t.isDefault
    && (forall i :: 0 <= i < |t.added| ==> t.added[i] in states)
    && (forall i :: 0 <= i < |t.outputs| ==> t.outputs[i] in states)
  }

  /** A transition built against the loaded list refers only to states of that list. */
  lemma BuildRefersToLoadedStates(states: seq<State>, e: TransitionEntry)
    requires BuildLoaderTransition(Lookup(states), e).Success?
    ensures Built(states, BuildLoaderTransition(Lookup(states), e).value)
  {
    var t := BuildLoaderTransition(Lookup(states), e).value;
    forall i | 0 <= i < |t.added|
      ensures t.added[i] in states
    {
      assert Lookup(states)(e.from.value[i]) == Some(t.added[i]);
    }
    forall i | 0 <= i < |t.outputs|
      ensures t.outputs[i] in states
    {
      assert Lookup(states)(e.to.value[i]) == Some(t.outputs[i]);
    }
  }

  /** One transition per entry, transition i being the one entry i builds against the list. */
  predicate BuiltInOrder(states: seq<State>, entries: seq<TransitionEntry>, ts: seq<TransitionValue>) {
    |ts| == |entries| && forall i :: 0 <= i < |entries| ==> Success(ts[i]) == BuildLoaderTransition(Lookup(states), entries[i])
  }

  /** Every transition in the results was built against the list. */
  predicate BuiltResults(states: seq<State>, bs: seq<Result<TransitionValue, ConfigError>>) {
    forall i :: 0 <= i < |bs| && bs[i].Success? ==> Built(states, bs[i].value)
  }

  /** Every transition was built against the list. */
  predicate AllBuilt(states: seq<State>, ts: seq<TransitionValue>) {
    forall i :: 0 <= i < |ts| ==> Built(states, ts[i])
  }

  /** The transition each entry builds against the loaded list, or the error it raises, in order. */
  function BuildAll(states: seq<State>, entries: seq<TransitionEntry>): (bs: seq<Result<TransitionValue, ConfigError>>)
    ensures |bs| == |entries|
    ensures BuiltResults(states, bs)
  {
    var bs := seq(|entries|, i requires 0 <= i < |entries| => BuildLoaderTransition(Lookup(states), entries[i]));
    assert BuiltResults(states, bs) by {
      forall i | 0 <= i < |bs| && bs[i].Success?
        ensures Built(states, bs[i].value)
      {
        BuildRefersToLoadedStates(states, entries[i]);
      }
    }
    bs
  }

  /** Result i is the transition entry i builds against the loaded list, or its error. */
  lemma BuildAllBuilds(states: seq<State>, entries: seq<TransitionEntry>)
    ensures var bs := BuildAll(states, entries);
      forall i :: 0 <= i < |entries| ==> bs[i] == BuildLoaderTransition(Lookup(states), entries[i])
  {
  }

  /** loadTransitions(): every transition built and appended in order, duplicates kept. */
  function TransitionsList(states: seq<State>, entries: seq<TransitionEntry>): (r: Result<seq<TransitionValue>, ConfigError>)
    ensures r.Success? ==> |r.value| == |entries| && AllBuilt(states, r.value)
    ensures r.Success? ==> BuiltInOrder(states, entries, r.value)
  {
    CollectMeaning(BuildAll(states, entries));
    Collect(BuildAll(states, entries))
  }

  // ----- load() -----

  /** Everything an ArrayLoader holds, with each transition by its value. */
  datatype LoaderValue = LoaderValue(stateList: seq<State>, transitionList: seq<TransitionValue>)

  /**
   * load() on a loader holding `v`: the error it raises, if any, and what the
   * loader holds afterwards. The state list is assigned before the transitions
   * are loaded, so a failing transition leaves the new states and the old
   * transitions; there is no check on the initial state.
   */
  function LoadSpec(v: LoaderValue, config: RawConfig): (r: (Option<ConfigError>, LoaderValue))
    ensures config.NotAnArray? ==> r == (Some(NotAnArrayConfig), v)
    ensures config.ConfigArray? && StatesList(config.StateEntries()).Failure? ==>
      r == (Some(StatesList(config.StateEntries()).error), v)
  {
    if config.NotAnArray? then (Some(NotAnArrayConfig), v)
    else
      match StatesList(config.StateEntries())
      case Failure(e) => (Some(e), v)
      case Success(states) =>
        match TransitionsList(states, config.TransitionEntries())
        case Failure(e) => (Some(e), v.(stateList := states))
        case Success(ts) => (None, LoaderValue(states, ts))
  }

  /**
   * Once the state section is loaded, load() ends as loadTransitions() does:
   * on an exception the new states are kept with the old transitions; otherwise
   * both lists are the new ones.
   */
  lemma LoadSpecStatesLoaded(v: LoaderValue, config: RawConfig, states: seq<State>)
    requires config.ConfigArray? && StatesList(config.StateEntries()) == Success(states)
    ensures var ts := TransitionsList(states, config.TransitionEntries());
      && (ts.Failure? ==> LoadSpec(v, config) == (Some(ts.error), v.(stateList := states)))
      && (ts.Success? ==> LoadSpec(v, config) == (None, LoaderValue(states, ts.value)))
  {
  }

  /**
   * When the states load and transition entry i is the first that does not
   * build, load() raises that entry's error, holds the new states and keeps
   * the transitions it held before.
   */
  lemma FirstFailingTransitionIsReported(v: LoaderValue, config: RawConfig, states: seq<State>, i: nat)
    requires config.ConfigArray? && StatesList(config.StateEntries()) == Success(states)
    requires i < |config.TransitionEntries()|
    requires BuildLoaderTransition(Lookup(states), config.TransitionEntries()[i]).Failure?
    requires forall j :: 0 <= j < i ==> BuildLoaderTransition(Lookup(states), config.TransitionEntries()[j]).Success?
    ensures LoadSpec(v, config) ==
      (Some(BuildLoaderTransition(Lookup(states), config.TransitionEntries()[i]).error), v.(stateList := states))
  {
    BuildAllBuilds(states, config.TransitionEntries());
    CollectReportsFirstFailure(BuildAll(states, config.TransitionEntries()), i);
  }

  /**
   * load() succeeds exactly when the value is an array, every state entry
   * constructs a state and every transition entry builds against them; then
   * the lists hold one state per state entry and one transition per
   * transition entry, in declaration order.
   */
  lemma LoadSucceedsIff(v: LoaderValue, config: RawConfig)
    ensures LoadSpec(v, config).0.None? <==>
      && config.ConfigArray?
      && Config.AllResolve(Config.ResolveAll(config.StateEntries()))
      && var states := StatesList(config.StateEntries());
         states.Success? &&
         forall i :: 0 <= i < |config.TransitionEntries()| ==> BuildAll(states.value, config.TransitionEntries())[i].Success?
    ensures LoadSpec(v, config).0.None? ==>
      && |LoadSpec(v, config).1.stateList| == |config.StateEntries()|
      && (forall i :: 0 <= i < |config.StateEntries()| ==>
            Success(LoadSpec(v, config).1.stateList[i]) == ResolveStateEntry(config.StateEntries()[i]))
      && |LoadSpec(v, config).1.transitionList| == |config.TransitionEntries()|
      && (forall i :: 0 <= i < |config.TransitionEntries()| ==>
            Success(LoadSpec(v, config).1.transitionList[i]) ==
              BuildLoaderTransition(Lookup(LoadSpec(v, config).1.stateList), config.TransitionEntries()[i]))
  {
    if config.ConfigArray? {
      var rs := Config.ResolveAll(config.StateEntries());
      CollectMeaning(rs);
      if Collect(rs).Success? {
        CollectMeaning(BuildAll(Collect(rs).value, config.TransitionEntries()));
      }
    }
  }

  /**
   * Unlike ArrayConfigurator, the loader accepts any number of INITIAL states:
   * when every state entry constructs a state and there are no transitions,
   * the loader succeeds, while ArrayConfigurator succeeds only with exactly
   * one INITIAL state.
   */
  lemma InitialCountOnlyMattersToConfigurator(v: LoaderValue, w: Config.ConfiguratorValue, config: RawConfig)
    requires config.ConfigArray? && config.TransitionEntries() == []
    requires Config.AllResolve(Config.ResolveAll(config.StateEntries()))
    ensures LoadSpec(v, config).0.None?
    ensures Config.LoadSpec(w, config).0.None? <==> Config.InitialCount(Config.Resolved(config)) == 1
  {
    Config.LoadSucceedsIff(w, config);
    Config.StatesLoadedIff(Config.Resolved(config));
    CollectMeaning(Config.ResolveAll(config.StateEntries()));
  }

  /** What a successful load() leaves: valid states, and transitions over them that are never the default. */
  predicate WellFormed(l: LoaderValue) {
    && (forall i :: 0 <= i < |l.stateList| ==> l.stateList[i].Valid())
    && AllBuilt(l.stateList, l.transitionList)
  }

  /** A successful load() leaves a well-formed loader, whatever it held before. */
  lemma LoadedListsAreWellFormed(v: LoaderValue, w: LoaderValue, config: RawConfig)
    requires LoadSpec(v, config).0.None?
    ensures WellFormed(LoadSpec(v, config).1)
    ensures LoadSpec(w, config) == LoadSpec(v, config)
  {
  }

  /**
   * A list of transition objects and the list of their values: the same
   * length, every object valid, with the given value.
   */
  ghost predicate Mirrors(list: seq<Transition>, values: seq<TransitionValue>)
    reads set t | t in list
  {
    && |list| == |values|
    && forall i :: 0 <= i < |list| ==> list[i].Valid() && list[i].Value() == values[i]
  }

  /** Appending a valid transition keeps the two lists in step. */
  lemma MirrorsAppend(list: seq<Transition>, values: seq<TransitionValue>, t: Transition)
    requires Mirrors(list, values) && t.Valid()
    ensures Mirrors(list + [t], values + [t.Value()])
  {
  }

  class ArrayLoader {
    var stateList: seq<State>
    var transitionList: seq<Transition>
    /** The values of the transition objects in transitionList. */
    ghost var transitionValues: seq<TransitionValue>

    ghost function Value(): LoaderValue
      reads this
    {
      LoaderValue(stateList, transitionValues)
    }

    /** Every state valid and every transition object valid. */
    ghost predicate Valid()
      reads this, set t | t in transitionList
    {
      && (forall i :: 0 <= i < |stateList| ==> stateList[i].Valid())
      && Mirrors(transitionList, transitionValues)
    }

    /** A new loader: empty lists. */
    constructor()
      ensures Valid()
      ensures Value() == LoaderValue([], [])
    {
      stateList := [];
      transitionList := [];
      transitionValues := [];
    }

    /** getStateList() */
    function GetStateList(): seq<State>
      reads this
    {
      stateList
    }

    /** getStateByName(): trims the name and returns the first state in the list carrying it. */
    method GetStateByName(name: string) returns (r: Option<State>)
      ensures r == FirstNamed(stateList, Trim(name))
    {
      var key := Trim(name);
      var i := 0;
      while i < |stateList|
        invariant 0 <= i <= |stateList|
        invariant forall j :: 0 <= j < i ==> stateList[j].name != key
      {
        if stateList[i].name == key {
          FirstNamedIsFirst(stateList, i);
          return Some(stateList[i]);
        }
        i := i + 1;
      }
      r := None;
    }

    /** One pass of loadStates()'s loop: the i-th entry constructed and appended. */
    static method AppendState(entries: seq<StateEntry>, i: nat, list: seq<State>) returns (next: Result<seq<State>, ConfigError>)
      requires i < |entries| && Collect(Config.ResolveAll(entries)[..i]) == Success(list)
      ensures next.Success? ==> next == Collect(Config.ResolveAll(entries)[..i + 1])
      ensures next.Failure? ==> next == Collect(Config.ResolveAll(entries))
    {
      var resolved := ResolveStateEntry(entries[i]);
      CollectStep(Config.ResolveAll(entries), i, list);
      if resolved.Failure? {
        CollectFailureSticks(Config.ResolveAll(entries), i + 1);
        return Failure(resolved.error);
      }
      next := Success(list + [resolved.value]);
    }

    /** loadStates(): constructs the states in order and appends each to a new list. */
    static method LoadStates(entries: seq<StateEntry>) returns (r: Result<seq<State>, ConfigError>)
      ensures r == StatesList(entries)
    {
      ghost var rs := Config.ResolveAll(entries);
      var list := [];
      var i := 0;
      while i < |entries|
        invariant 0 <= i <= |entries|
        invariant Collect(rs[..i]) == Success(list)
      {
        var next := AppendState(entries, i, list);
        if next.Failure? {
          return next;
        }
        list := next.value;
        i := i + 1;
      }
      assert rs[..i] == rs;
      r := Success(list);
    }

    /** The body of loadTransitions()'s loop: the 'default' option refused, then the transition built. */
    static method NewLoaderTransition(lookup: string -> Option<State>, e: TransitionEntry) returns (r: Result<Transition, ConfigError>)
      ensures BuildLoaderTransition(lookup, e).Failure? ==> r == Failure(BuildLoaderTransition(lookup, e).error)
      ensures BuildLoaderTransition(lookup, e).Success? ==>
        r.Success? && fresh(r.value) && r.value.Valid() && r.value.Value() == BuildLoaderTransition(lookup, e).value
    {
      if e.isDefault.Some? {
        return Failure(UndefinedOption(Trim(e.key)));
      }
      r := NewTransition(lookup, e);
    }

    /** One pass of loadTransitions()'s loop: the i-th entry built and appended. */
    static method AppendTransition(states: seq<State>, entries: seq<TransitionEntry>, i: nat,
                                   list: seq<Transition>, ghost values: seq<TransitionValue>)
      returns (next: Result<seq<Transition>, ConfigError>, ghost nextValues: seq<TransitionValue>)
      requires i < |entries|
      requires Mirrors(list, values)
      requires Collect(BuildAll(states, entries)[..i]) == Success(values)
      ensures next.Success? ==> Mirrors(next.value, nextValues)
      ensures next.Success? ==> Collect(BuildAll(states, entries)[..i + 1]) == Success(nextValues)
      ensures next.Failure? ==> Collect(BuildAll(states, entries)) == Failure(next.error)
    {
      var built := NewLoaderTransition(Lookup(states), entries[i]);
      CollectStep(BuildAll(states, entries), i, values);
      if built.Failure? {
        CollectFailureSticks(BuildAll(states, entries), i + 1);
        return Failure(built.error), values;
      }
      var transition := built.value;
      MirrorsAppend(list, values, transition);
      next := Success(list + [transition]);
      nextValues := values + [transition.Value()];
    }

    /**
     * loadTransitions(): builds every transition against the state list (getStateByName()
     * reads it) and appends it to a new list; the ghost result is their values.
     */
    static method LoadTransitions(states: seq<State>, entries: seq<TransitionEntry>) returns (r: Result<seq<Transition>, ConfigError>, ghost values: seq<TransitionValue>)
      ensures r.Failure? ==> TransitionsList(states, entries) == Failure(r.error)
      ensures r.Success? ==> Mirrors(r.value, values) && TransitionsList(states, entries) == Success(values)
    {
      ghost var bs := BuildAll(states, entries);
      var list: seq<Transition> := [];
      values := [];
      var i := 0;
      while i < |entries|
        invariant 0 <= i <= |entries|
        invariant Mirrors(list, values)
        invariant Collect(bs[..i]) == Success(values)
      {
        var next, nextValues := AppendTransition(states, entries, i, list, values);
        if next.Failure? {
          return next, values;
        }
        list, values := next.value, nextValues;
        i := i + 1;
      }
      assert bs[..i] == bs;
      r := Success(list);
    }

    /** The assignment of the state list. */
    method SetStateList(states: seq<State>)
      requires Valid()
      requires forall i :: 0 <= i < |states| ==> states[i].Valid()
      modifies this`stateList
      ensures Valid()
      ensures stateList == states
    {
      stateList := states;
    }

    /** The assignment of the transition list, with the values of its transitions. */
    method SetTransitionList(list: seq<Transition>, ghost values: seq<TransitionValue>)
      requires Valid() && Mirrors(list, values)
      modifies this`transitionList, this`transitionValues
      ensures Valid()
      ensures transitionList == list && transitionValues == values
    {
      transitionList, transitionValues := list, values;
    }

    /**
     * load(): rejects a non-array, then assigns the state list and then the
     * transition list; nothing checks the initial state.
     */
    method Load(config: RawConfig) returns (r: Option<ConfigError>)
      requires Valid()
      modifies this
      ensures Valid()
      ensures (r, Value()) == LoadSpec(old(Value()), config)
    {
      if config.NotAnArray? {
        return Some(NotAnArrayConfig);
      }
      var states := LoadStates(config.StateEntries());
      if states.Failure? {
        return Some(states.error);
      }
      SetStateList(states.value);
      var transitions, values := LoadTransitions(stateList, config.TransitionEntries());
      if transitions.Failure? {
        return Some(transitions.error);
      }
      SetTransitionList(transitions.value, values);
      r := None;
    }
  }
}
