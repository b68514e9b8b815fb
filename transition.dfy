/**
 * A named transition (Transition): the input states it accepts, keyed by name,
 * the output states it can produce, indexed by position, an integer condition
 * that picks the output, and an optional action whose result becomes the
 * condition.
 */
module Transitions {
  import opened Wrappers
  import opened PhpStrings
  import opened States

  /**
   * A bound action: the target object (by an opaque handle), the method name
   * and the argument list. Running it is a call into foreign code; its integer
   * result is passed to Apply as `outcome`.
   */
  datatype Action = Action(target: nat, methodName: string, arguments: seq<int>)

  datatype TransitionError =
    | InputStateRejected(transition: string, state: string)  // InvalidArgumentException in apply()
    | NoOutputState(condition: int, transition: string)      // Exception in apply()

  /** The input-state map after addInputState() was called with `added`, in order. */
  function InputMap(added: seq<State>): (m: map<string, State>)
    ensures forall k :: k in m ==> m[k].name == k
  {
    if added == [] then map[]
    else
      var last := added[|added| - 1];
      InputMap(added[..|added| - 1])[last.name := last]
  }

  /** A name is a key of the input map exactly when some added state carries it. */
  lemma {:induction false} InputMapKeys(added: seq<State>, name: string)
    ensures name in InputMap(added) <==> exists i :: 0 <= i < |added| && added[i].name == name
  {
    if added != [] {
      var front := added[..|added| - 1];
      InputMapKeys(front, name);
      if name in InputMap(front) {
        var i :| 0 <= i < |front| && front[i].name == name;
        assert added[i].name == name;
      }
      if i :| 0 <= i < |added| - 1 && added[i].name == name {
        assert front[i].name == name;
      }
    }
  }

  /** Adding a state whose name is already present keeps the set of input names as it is. */
  lemma ReAddKeepsInputNames(added: seq<State>, s: State)
    requires exists i :: 0 <= i < |added| && added[i].name == s.name
    ensures InputMap(added + [s]).Keys == InputMap(added).Keys
    ensures |InputMap(added + [s])| == |InputMap(added)|
  {
    InputMapKeys(added, s.name);
    assert (added + [s])[..|added|] == added;
  }

  /** Adding a state with a new name grows the set of input names by one. */
  lemma NewNameGrowsInputNames(added: seq<State>, s: State)
    requires forall i :: 0 <= i < |added| ==> added[i].name != s.name
    ensures InputMap(added + [s]).Keys == InputMap(added).Keys + {s.name}
    ensures |InputMap(added + [s])| == |InputMap(added)| + 1
  {
    InputMapKeys(added, s.name);
    assert (added + [s])[..|added|] == added;
  }

  /**
   * Everything a Transition object holds. `added` is the sequence of states
   * passed to addInputState(); the input map itself is InputMap(added).
   */
  datatype TransitionValue = TransitionValue(
    name: string,
    added: seq<State>,
    outputs: seq<State>,
    condition: int,
    action: Option<Action>,
    isDefault: bool)
  {
    /** What every operation keeps: a trimmed name, and condition 0 while no action is bound. */
    predicate Valid() {
      IsTrimmed(name) && (action.None? ==> condition == 0)
    }

    /** Everything but the condition: what the configuration fixes and apply() keeps. */
    function Configured(): TransitionValue {
      this.(condition := 0)
    }

    /** can(): the state's name is a key of the input map. */
    predicate Can(s: State)
      ensures Can(s) <==> exists i :: 0 <= i < |added| && added[i].name == s.name
    {
      InputMapKeys(added, s.name);
      s.name in InputMap(added)
    }
  }

  /**
   * apply() on a value: the result, and the transition afterwards. Only the
   * condition can change, and only when an action is bound and the input
   * state is accepted.
   */
  function Resolve(v: TransitionValue, s: State, outcome: int): (r: (Result<State, TransitionError>, TransitionValue))
    ensures r.1 == v.(condition := r.1.condition)
    ensures !v.Can(s) ==> r.0 == Failure(InputStateRejected(v.name, s.name)) && r.1 == v
    ensures v.Can(s) ==> r.1.condition == (if v.action.Some? then outcome else v.condition)
    ensures r.0.Success? <==> v.Can(s) && 0 <= r.1.condition < |v.outputs|
    ensures r.0.Success? ==> r.0.value == v.outputs[r.1.condition]
    ensures v.Can(s) && !(0 <= r.1.condition < |v.outputs|) ==> r.0 == Failure(NoOutputState(r.1.condition, v.name))
    ensures v.Valid() ==> r.1.Valid()
  {
    if !v.Can(s) then (Failure(InputStateRejected(v.name, s.name)), v)
    else
      var after := if v.action.Some? then v.(condition := outcome) else v;
      if 0 <= after.condition < |after.outputs| then (Success(after.outputs[after.condition]), after)
      else (Failure(NoOutputState(after.condition, after.name)), after)
  }

  /** Without an action a valid transition always resolves to its first output state. */
  lemma NoActionSelectsFirstOutput(v: TransitionValue, s: State, outcome: int)
    requires v.Valid() && v.action.None? && v.Can(s)
    ensures Resolve(v, s, outcome).0 == if v.outputs == [] then Failure(NoOutputState(0, v.name)) else Success(v.outputs[0])
    ensures Resolve(v, s, outcome).1 == v
  {
  }

  /** With an action returning k, the condition becomes k and the k-th output state is chosen. */
  lemma ActionSelectsOutput(v: TransitionValue, s: State, k: int)
    requires v.action.Some? && v.Can(s)
    ensures Resolve(v, s, k).1 == v.(condition := k)
    ensures Resolve(v, s, k).0 == if 0 <= k < |v.outputs| then Success(v.outputs[k]) else Failure(NoOutputState(k, v.name))
  {
  }

  /**
   * apply() does not depend on a condition left behind by an earlier apply():
   * two valid transitions that differ at most in their conditions resolve
   * alike and stay alike.
   */
  lemma ResolveIgnoresCondition(v: TransitionValue, w: TransitionValue, s: State, outcome: int)
    requires v.Valid() && w.Valid() && v.Configured() == w.Configured()
    ensures Resolve(v, s, outcome).0 == Resolve(w, s, outcome).0
    ensures Resolve(v, s, outcome).1.Configured() == v.Configured()
  {
    assert v.added == w.added;
  }

  class Transition {
    var name: string
    var inputs: map<string, State>
    ghost var addedInputs: seq<State>
    var outputs: seq<State>
    var condition: int
    var action: Option<Action>
    var isDefault: bool

    /** The abstract value of this transition. */
    ghost function Value(): TransitionValue
      reads this
    {
      TransitionValue(name, addedInputs, outputs, condition, action, isDefault)
    }

    ghost predicate Valid()
      reads this
    {
      inputs == InputMap(addedInputs) && Value().Valid()
    }

    /** The constructor: a trimmed name, no states, condition 0, no action, not the default. */
    constructor(name: string)
      ensures Valid()
      ensures Value() == TransitionValue(Trim(name), [], [], 0, None, false)
    {
      this.name := Trim(name);
      inputs := map[];
      addedInputs := [];
      outputs := [];
      condition := 0;
      action := None;
      isDefault := false;
    }

    /** setName(): the name is stored trimmed. */
    method SetName(name: string)
      requires Valid()
      modifies this`name
      ensures Valid()
      ensures Value() == old(Value()).(name := Trim(name))
    {
      this.name := Trim(name);
    }

    /** hasInputState(): some state with the same name was added as an input state. */
    function HasInputState(s: State): (r: bool)
      reads this
      requires Valid()
      ensures r <==> exists i :: 0 <= i < |addedInputs| && addedInputs[i].name == s.name
      ensures r == Value().Can(s)
    {
      InputMapKeys(addedInputs, s.name);
      s.name in inputs
    }

    /** can(): the same test as hasInputState(). */
    function Can(s: State): (r: bool)
      reads this
      requires Valid()
      ensures r <==> exists i :: 0 <= i < |addedInputs| && addedInputs[i].name == s.name
    {
      HasInputState(s)
    }

    /** hasOutputState(): an output state was added at position `c`. */
    function HasOutputState(c: int): (r: bool)
      reads this
      ensures r <==> 0 <= c < |outputs|
    {
      0 <= c < |outputs|
    }

    /** getOutputState(): the output state added at position `c`, or null. */
    function GetOutputState(c: int): (r: Option<State>)
      reads this
      ensures r.Some? <==> HasOutputState(c)
      ensures r.Some? ==> r.value == outputs[c]
    {
      if !HasOutputState(c) then None else Some(outputs[c])
    }

    /** addInputState(): stores the state under its name; a same-named state is replaced. */
    method AddInputState(s: State)
      requires Valid()
      modifies this`inputs, this`addedInputs
      ensures Valid()
      ensures Value() == old(Value()).(added := old(addedInputs) + [s])
      ensures inputs == old(inputs)[s.name := s]
    {
      assert (addedInputs + [s])[..|addedInputs|] == addedInputs;
      inputs := inputs[s.name := s];
      addedInputs := addedInputs + [s];
    }

    /** addOutputState(): appends, so the n-th added output state has index n. */
    method AddOutputState(s: State)
      requires Valid()
      modifies this`outputs
      ensures Valid()
      ensures Value() == old(Value()).(outputs := old(outputs) + [s])
    {
      outputs := outputs + [s];
    }

    /** setAction(): binds the action. */
    method SetAction(a: Action)
      requires Valid()
      modifies this`action
      ensures Valid()
      ensures Value() == old(Value()).(action := Some(a))
    {
      action := Some(a);
    }

    /** setCondition(): a protected setter that apply() calls with the action's result. */
    method SetCondition(c: int)
      modifies this`condition
      ensures Value() == old(Value()).(condition := c)
    {
      condition := c;
    }

    /** isDefault() */
    function IsDefault(): bool
      reads this
    {
      isDefault
    }

    /** setDefault(): sets the default flag, to true when no argument is given. */
    method SetDefault(status: bool := true)
      requires Valid()
      modifies this`isDefault
      ensures Valid()
      ensures Value() == old(Value()).(isDefault := status)
    {
      isDefault := status;
    }

    /**
     * apply(): rejects a state that is not an input state; otherwise, when an
     * action is bound, stores its result `outcome` as the condition, and
     * returns the output state at that index, failing when there is none.
     */
    method Apply(s: State, outcome: int) returns (r: Result<State, TransitionError>)
      requires Valid()
      modifies this`condition
      ensures Valid()
      ensures (r, Value()) == Resolve(old(Value()), s, outcome)
    {
      if !HasInputState(s) {
        return Failure(InputStateRejected(name, s.name));
      }
      if action.Some? {
        SetCondition(outcome);
      }
      if !HasOutputState(condition) {
        return Failure(NoOutputState(condition, name));
      }
      r := Success(GetOutputState(condition).value);
    }
  }
}
