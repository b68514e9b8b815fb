/**
 * A state of the machine: a trimmed name and one of the four types (State).
 * The core never changes a state after constructing it, so a state is a value
 * here; the setters return the updated value instead of changing an object.
 */
module States {
  import opened Wrappers
  import opened PhpStrings
  import opened StateTypes

  datatype State = State(name: string, stateType: string) {

    /** What the constructor guarantees: a trimmed name and a supported, upper-case type. */
    predicate Valid() {
      IsTrimmed(name) && stateType in SupportedTypes()
    }
  }

  /** setType()'s InvalidArgumentException, carrying the normalised type it refused. */
  datatype StateError = UnsupportedType(stateType: string)

  /** The type setType() stores: trimmed, then upper-cased. */
  function NormalizeType(t: string): (r: string)
    ensures IsTrimmed(r)
    ensures forall i :: 0 <= i < |r| ==> !('a' <= r[i] <= 'z')
  {
    ToUpperKeepsTrimmed(Trim(t));
    ToUpper(Trim(t))
  }

  /** Normalising an already normalised type changes nothing. */
  lemma NormalizeTypeIdempotent(t: string)
    ensures NormalizeType(NormalizeType(t)) == NormalizeType(t)
  {
    ToUpperKeepsTrimmed(Trim(t));
    ToUpperIdempotent(Trim(t));
  }

  /** setName(): the name is stored trimmed. */
  function SetName(s: State, name: string): (r: State)
    ensures r.name == Trim(name) && IsTrimmed(r.name)
    ensures r.stateType == s.stateType
  {
    s.(name := Trim(name))
  }

  /**
   * setType(): the type is trimmed and upper-cased, then checked; an unsupported
   * type is refused and the state keeps its old type.
   */
  function SetType(s: State, t: string): (r: Result<State, StateError>)
    ensures r.Success? <==> NormalizeType(t) in SupportedTypes()
    ensures r.Success? ==> r.value.name == s.name && r.value.stateType == NormalizeType(t)
    ensures r.Failure? ==> r.error == UnsupportedType(NormalizeType(t))
  {
    var normalized := NormalizeType(t);
    ToUpperIdempotent(Trim(t));
    if !IsSupportedType(normalized) then Failure(UnsupportedType(normalized))
    else Success(s.(stateType := normalized))
  }

  /** The constructor: setName() then setType(); a constructed state is always valid. */
  function NewState(name: string, t: string): (r: Result<State, StateError>)
    ensures r.Success? <==> NormalizeType(t) in SupportedTypes()
    ensures r.Success? ==> r.value == State(Trim(name), NormalizeType(t)) && r.value.Valid()
    ensures r.Failure? ==> r.error == UnsupportedType(NormalizeType(t))
  {
    SetType(SetName(State("", TYPE_NORMAL), name), t)
  }

  /** __toString(): the name. */
  function ToString(s: State): (r: string)
    ensures r == s.name
  {
    s.name
  }

  /** Upper- or lower-case type names construct the same state ("final" is stored as FINAL). */
  lemma {:induction false} NewStateIgnoresTypeCase(name: string, a: string, b: string)
    requires ToUpper(Trim(a)) == ToUpper(Trim(b))
    ensures NewState(name, a) == NewState(name, b)
  {
  }
}
