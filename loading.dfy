/**
 * What both configuration loaders (ArrayConfigurator and ArrayLoader) share:
 * the shape of a configuration after the option resolvers have applied their
 * defaults and normalisers, the configuration errors, and the construction of
 * one state and of one transition from their entries.
 */
module Loading {
  import opened Wrappers
  import opened PhpStrings
  import opened StateTypes
  import opened States
  import opened Transitions

  /** The value given for an action's target: PHP's is_object() test on it. */
  datatype TargetValue = AnObject(handle: nat) | NotAnObject

  /**
   * An action descriptor: the target (under 'service' for ArrayConfigurator,
   * 'object' for ArrayLoader), 'method' and 'arguments'; None is a missing key.
   */
  datatype ActionEntry = ActionEntry(target: Option<TargetValue>, methodName: Option<string>, arguments: Option<seq<int>>)

  /**
   * One entry of the 'states' section: a bare string value, which names a
   * NORMAL state, or an option array under a key, whose 'type' is optional.
   */
  datatype StateEntry =
    | Bare(name: string)
    | Configured(key: string, stateType: Option<string>)

  /**
   * One entry of the 'transitions' section under its key, with 'from' and 'to'
   * already cast to lists; None is a missing key.
   */
  datatype TransitionEntry = TransitionEntry(
    key: string,
    from: Option<seq<string>>,
    to: Option<seq<string>>,
    isDefault: Option<bool>,
    action: Option<ActionEntry>)

  /** The value given to load(): not an array at all, or an array whose sections may be missing. */
  datatype RawConfig =
    | NotAnArray
    | ConfigArray(states: Option<seq<StateEntry>>, transitions: Option<seq<TransitionEntry>>)
  {
    /** The 'states' section after array_merge with the defaults. */
    function StateEntries(): seq<StateEntry>
      requires ConfigArray?
    {
      states.GetOr([])
    }

    /** The 'transitions' section after array_merge with the defaults. */
    function TransitionEntries(): seq<TransitionEntry>
      requires ConfigArray?
    {
      transitions.GetOr([])
    }
  }

  /** InvalidConfigurationException and the option resolvers' exceptions, by cause. */
  datatype ConfigError =
    | NotAnArrayConfig
    | UnsupportedStateType(stateType: string)
    | SecondInitialState
    | NoInitialState
    | MissingFromOrTo(transition: string)
    | UndefinedOption(transition: string)
    | UndefinedFromState(state: string, transition: string)
    | UndefinedToState(state: string, transition: string)
    | MissingActionOption(transition: string)
    | TargetNotAnObject(transition: string)
    | EmptyMethodName(transition: string)

  /** The name a state entry gives its state, before trimming. */
  function EntryName(e: StateEntry): string {
    match e
    case Bare(n) => n
    case Configured(k, _) => k
  }

  /** NORMAL, the default type, is unchanged by the normaliser. */
  lemma NormalIsNormalized()
    ensures NormalizeType(TYPE_NORMAL) == TYPE_NORMAL
  {
    assert Trim(TYPE_NORMAL) == TYPE_NORMAL by {
      assert IsTrimmed(TYPE_NORMAL);
    }
    SupportedTypesUpper();
  }

  /**
   * The state an entry constructs: the resolver defaults the type to NORMAL,
   * trims and upper-cases it and refuses an unsupported one; the State
   * constructor then trims the name.
   */
  function ResolveStateEntry(e: StateEntry): (r: Result<State, ConfigError>)
    ensures r.Success? ==> r.value.Valid() && r.value.name == Trim(EntryName(e))
    ensures e.Bare? ==> r == Success(State(Trim(e.name), TYPE_NORMAL))
    ensures e.Configured? ==> (r.Success? <==> NormalizeType(e.stateType.GetOr(TYPE_NORMAL)) in SupportedTypes())
    ensures e.Configured? && r.Success? ==> r.value.stateType == NormalizeType(e.stateType.GetOr(TYPE_NORMAL))
    ensures r.Failure? ==> e.Configured? && r.error == UnsupportedStateType(NormalizeType(e.stateType.GetOr(TYPE_NORMAL)))
  {
    var typ := if e.Bare? then TYPE_NORMAL else e.stateType.GetOr(TYPE_NORMAL);
    var normalized := NormalizeType(typ);
    NormalIsNormalized();
    NormalizeTypeIdempotent(typ);
    if normalized !in SupportedTypes() then Failure(UnsupportedStateType(normalized))
    else Success(NewState(EntryName(e), normalized).value)
  }

  /**
   * The foreach over a 'from' or 'to' list: every name looked up in order; the
   * first one the lookup does not know is reported, trimmed.
   */
  function ResolveNames(lookup: string -> Option<State>, names: seq<string>): (r: Result<seq<State>, string>)
    ensures r.Success? ==> |r.value| == |names| && forall i :: 0 <= i < |names| ==> lookup(names[i]) == Some(r.value[i])
    ensures r.Success? <==> forall i :: 0 <= i < |names| ==> lookup(names[i]).Some?
  {
    if names == [] then Success([])
    else
      var front := names[..|names| - 1];
      var last := names[|names| - 1];
      match ResolveNames(lookup, front)
      case Failure(n) => Failure(n)
      case Success(states) =>
        match lookup(last)
        case None => Failure(Trim(last))
        case Some(s) => Success(states + [s])
  }

  /** Once a prefix of the names fails, the whole list fails with the same name. */
  lemma {:induction false} ResolveNamesFailureSticks(lookup: string -> Option<State>, names: seq<string>, j: nat)
    requires j <= |names| && ResolveNames(lookup, names[..j]).Failure?
    ensures ResolveNames(lookup, names) == ResolveNames(lookup, names[..j])
  {
    if j < |names| {
      var front := names[..|names| - 1];
      assert front[..j] == names[..j];
      ResolveNamesFailureSticks(lookup, front, j);
      assert ResolveNames(lookup, front).Failure?;
    } else {
      assert names[..j] == names;
    }
  }

  /** The reported name is the trimmed first name the lookup does not know. */
  lemma {:induction false} ResolveNamesReportsFirstUnknown(lookup: string -> Option<State>, names: seq<string>, i: nat)
    requires i < |names| && lookup(names[i]).None?
    requires forall j :: 0 <= j < i ==> lookup(names[j]).Some?
    ensures ResolveNames(lookup, names) == Failure(Trim(names[i]))
  {
    var prefix := names[..i + 1];
    assert prefix[..i] == names[..i];
    assert ResolveNames(lookup, prefix[..i]).Success?;
    ResolveNamesFailureSticks(lookup, names, i + 1);
  }

  /**
   * The action descriptor check: both required keys present, the target an
   * object, the method name not empty; the Action stores the method trimmed and
   * the arguments defaulted to [].
   */
  function ResolveAction(entry: Option<ActionEntry>, transition: string): (r: Result<Option<Action>, ConfigError>)
    ensures entry.None? ==> r == Success(None)
    ensures r.Success? && entry.Some? ==>
      && r.value.Some?
      && entry.value.target.Some? && entry.value.target.value == AnObject(r.value.value.target)
      && entry.value.methodName.Some? && entry.value.methodName.value != ""
      && r.value.value.methodName == Trim(entry.value.methodName.value)
      && r.value.value.arguments == entry.value.arguments.GetOr([])
    ensures entry.Some? && (entry.value.target.None? || entry.value.methodName.None?) ==> r == Failure(MissingActionOption(transition))
    ensures entry.Some? && entry.value.target == Some(NotAnObject) && entry.value.methodName.Some? ==> r == Failure(TargetNotAnObject(transition))
    ensures entry.Some? && entry.value.target.Some? && entry.value.target.value.AnObject? && entry.value.methodName == Some("") ==> r == Failure(EmptyMethodName(transition))
    ensures entry.Some? && entry.value.target.Some? && entry.value.target.value.AnObject? ==>
      (r.Success? <==> entry.value.methodName.Some? && entry.value.methodName.value != "")
  {
    match entry
    case None => Success(None)
    case Some(a) =>
      if a.target.None? || a.methodName.None? then Failure(MissingActionOption(transition))
      else if !a.target.value.AnObject? then Failure(TargetNotAnObject(transition))
      else if a.methodName.value == "" then Failure(EmptyMethodName(transition))
      else Success(Some(Action(a.target.value.handle, Trim(a.methodName.value), a.arguments.GetOr([]))))
  }

  /**
   * The transition an entry constructs, with `lookup` as the loader's
   * getStateByName(): the name trimmed, both lists required, every 'from' name
   * then every 'to' name resolved in order, the default flag (false when
   * absent) and the action checked and bound.
   */
  function BuildTransition(lookup: string -> Option<State>, e: TransitionEntry): (r: Result<TransitionValue, ConfigError>)
    ensures r.Success? ==> r.value.Valid() && r.value.name == Trim(e.key) && r.value.condition == 0
    ensures r.Success? ==>
      && e.from.Some? && |r.value.added| == |e.from.value|
      && forall i :: 0 <= i < |e.from.value| ==> lookup(e.from.value[i]) == Some(r.value.added[i])
    ensures r.Success? ==>
      && e.to.Some? && |r.value.outputs| == |e.to.value|
      && forall i :: 0 <= i < |e.to.value| ==> lookup(e.to.value[i]) == Some(r.value.outputs[i])
    ensures r.Success? ==> r.value.isDefault == e.isDefault.GetOr(false)
    ensures r.Success? ==> ResolveAction(e.action, Trim(e.key)) == Success(r.value.action)
    ensures e.from.None? || e.to.None? ==> r == Failure(MissingFromOrTo(Trim(e.key)))
    ensures r.Success? <==>
      && e.from.Some? && e.to.Some?
      && (forall i :: 0 <= i < |e.from.value| ==> lookup(e.from.value[i]).Some?)
      && (forall i :: 0 <= i < |e.to.value| ==> lookup(e.to.value[i]).Some?)
      && ResolveAction(e.action, Trim(e.key)).Success?
  {
    var name := Trim(e.key);
    if e.from.None? || e.to.None? then Failure(MissingFromOrTo(name))
    else match ResolveNames(lookup, e.from.value)
      case Failure(n) => Failure(UndefinedFromState(n, name))
      case Success(froms) =>
        match ResolveNames(lookup, e.to.value)
        case Failure(n) => Failure(UndefinedToState(n, name))
        case Success(tos) =>
          match ResolveAction(e.action, name)
          case Failure(err) => Failure(err)
          case Success(act) => Success(TransitionValue(name, froms, tos, 0, act, e.isDefault.GetOr(false)))
  }

  /**
   * An undefined 'from' or 'to' name fails the transition with an error that
   * names the trimmed state and the transition; 'from' names are checked first.
   */
  lemma UndefinedStateIsReported(lookup: string -> Option<State>, e: TransitionEntry, i: nat)
    requires e.from.Some? && e.to.Some?
    requires i < |e.from.value| && lookup(e.from.value[i]).None?
    requires forall j :: 0 <= j < i ==> lookup(e.from.value[j]).Some?
    ensures BuildTransition(lookup, e) == Failure(UndefinedFromState(Trim(e.from.value[i]), Trim(e.key)))
  {
    ResolveNamesReportsFirstUnknown(lookup, e.from.value, i);
  }

  /**
   * With every 'from' name known, the first unknown 'to' name fails the
   * transition with an error naming that state, trimmed, and the transition.
   */
  lemma UndefinedToStateIsReported(lookup: string -> Option<State>, e: TransitionEntry, i: nat)
    requires e.from.Some? && e.to.Some?
    requires forall j :: 0 <= j < |e.from.value| ==> lookup(e.from.value[j]).Some?
    requires i < |e.to.value| && lookup(e.to.value[i]).None?
    requires forall j :: 0 <= j < i ==> lookup(e.to.value[j]).Some?
    ensures BuildTransition(lookup, e) == Failure(UndefinedToState(Trim(e.to.value[i]), Trim(e.key)))
  {
    ResolveNamesReportsFirstUnknown(lookup, e.to.value, i);
  }

  /**
   * With every state name known, an action descriptor that fails its check
   * fails the transition with that very error.
   */
  lemma ActionErrorPassesThrough(lookup: string -> Option<State>, e: TransitionEntry)
    requires e.from.Some? && e.to.Some?
    requires forall j :: 0 <= j < |e.from.value| ==> lookup(e.from.value[j]).Some?
    requires forall j :: 0 <= j < |e.to.value| ==> lookup(e.to.value[j]).Some?
    requires ResolveAction(e.action, Trim(e.key)).Failure?
    ensures BuildTransition(lookup, e) == Failure(ResolveAction(e.action, Trim(e.key)).error)
  {
  }

  /** Action result k selects the k-th declared 'to' state. */
  lemma ActionCodeSelectsDeclaredTo(lookup: string -> Option<State>, e: TransitionEntry, s: State, k: int)
    requires BuildTransition(lookup, e).Success?
    requires BuildTransition(lookup, e).value.action.Some?
    requires BuildTransition(lookup, e).value.Can(s)
    requires 0 <= k < |e.to.value|
    ensures Resolve(BuildTransition(lookup, e).value, s, k).0 == Success(lookup(e.to.value[k]).value)
  {
  }

  /**
   * The body of the transitions loop: constructs the Transition object and
   * adds every resolved 'from' and 'to' state, sets the default flag and binds
   * the action, failing as BuildTransition does.
   */
  method NewTransition(lookup: string -> Option<State>, e: TransitionEntry) returns (r: Result<Transition, ConfigError>)
    ensures BuildTransition(lookup, e).Failure? ==> r == Failure(BuildTransition(lookup, e).error)
    ensures BuildTransition(lookup, e).Success? ==>
      r.Success? && fresh(r.value) && r.value.Valid() && r.value.Value() == BuildTransition(lookup, e).value
  {
    var transition := new Transition(e.key);
    if e.from.None? || e.to.None? {
      return Failure(MissingFromOrTo(transition.name));
    }
    var unknownFrom := AddFromStates(transition, lookup, e.from.value);
    if unknownFrom.Some? {
      return Failure(UndefinedFromState(unknownFrom.value, transition.name));
    }
    var unknownTo := AddToStates(transition, lookup, e.to.value);
    if unknownTo.Some? {
      return Failure(UndefinedToState(unknownTo.value, transition.name));
    }
    transition.SetDefault(e.isDefault.GetOr(false));
    var action := ResolveAction(e.action, transition.name);
    if action.Failure? {
      return Failure(action.error);
    }
    if action.value.Some? {
      transition.SetAction(action.value.value);
    }
    r := Success(transition);
  }

  /**
   * The 'from' loop: every name looked up and added as an input state, until
   * the first name the lookup does not know, which is returned trimmed.
   */
  method AddFromStates(transition: Transition, lookup: string -> Option<State>, froms: seq<string>) returns (unknown: Option<string>)
    requires transition.Valid() && transition.addedInputs == []
    modifies transition`inputs, transition`addedInputs
    ensures transition.Valid()
    ensures ResolveNames(lookup, froms).Failure? ==> unknown == Some(ResolveNames(lookup, froms).error)
    ensures ResolveNames(lookup, froms).Success? ==>
      unknown.None? && transition.Value() == old(transition.Value()).(added := ResolveNames(lookup, froms).value)
  {
    var i := 0;
    while i < |froms|
      invariant 0 <= i <= |froms|
      invariant transition.Valid()
      invariant ResolveNames(lookup, froms[..i]) == Success(transition.addedInputs)
      invariant transition.Value() == old(transition.Value()).(added := transition.addedInputs)
    {
      var state := lookup(froms[i]);
      assert froms[..i + 1][..i] == froms[..i];
      if state.None? {
        ResolveNamesFailureSticks(lookup, froms, i + 1);
        return Some(Trim(froms[i]));
      }
      transition.AddInputState(state.value);
      i := i + 1;
    }
    assert froms[..i] == froms;
    unknown := None;
  }

  /**
   * The 'to' loop: every name looked up and added as an output state, until
   * the first name the lookup does not know, which is returned trimmed.
   */
  method AddToStates(transition: Transition, lookup: string -> Option<State>, tos: seq<string>) returns (unknown: Option<string>)
    requires transition.Valid() && transition.outputs == []
    modifies transition`outputs
    ensures transition.Valid()
    ensures ResolveNames(lookup, tos).Failure? ==> unknown == Some(ResolveNames(lookup, tos).error)
    ensures ResolveNames(lookup, tos).Success? ==>
      unknown.None? && transition.Value() == old(transition.Value()).(outputs := ResolveNames(lookup, tos).value)
  {
    var j := 0;
    while j < |tos|
      invariant 0 <= j <= |tos|
      invariant transition.Valid()
      invariant ResolveNames(lookup, tos[..j]) == Success(transition.outputs)
      invariant transition.Value() == old(transition.Value()).(outputs := transition.outputs)
    {
      var state := lookup(tos[j]);
      assert tos[..j + 1][..j] == tos[..j];
      if state.None? {
        ResolveNamesFailureSticks(lookup, tos, j + 1);
        return Some(Trim(tos[j]));
      }
      transition.AddOutputState(state.value);
      j := j + 1;
    }
    assert tos[..j] == tos;
    unknown := None;
  }

}
