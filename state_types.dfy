/** The four state types and the case-insensitive test for them (StateTypes). */
module StateTypes {
  import opened PhpStrings

  const TYPE_INITIAL: string := "INITIAL"
  const TYPE_NORMAL: string := "NORMAL"
  const TYPE_FINAL: string := "FINAL"
  const TYPE_BREAKPOINT: string := "BREAKPOINT"

  /** getSupportedTypes(): the supported types, in declaration order. */
  function SupportedTypes(): (r: seq<string>)
    ensures |r| == 4
    ensures r[0] == TYPE_INITIAL && r[1] == TYPE_NORMAL && r[2] == TYPE_FINAL && r[3] == TYPE_BREAKPOINT
  {
    [TYPE_INITIAL, TYPE_NORMAL, TYPE_FINAL, TYPE_BREAKPOINT]
  }

  /** The foreach over the list with an early `return true` on a strict match. */
  function Scan(types: seq<string>, t: string): (found: bool)
    ensures found <==> t in types
  {
    if types == [] then false
    else if types[0] == t then true
    else Scan(types[1..], t)
  }

  /** isSupportedType(): upper-cases (without trimming) and looks the result up. */
  function IsSupportedType(t: string): (r: bool)
    ensures r <==> ToUpper(t) in SupportedTypes()
    ensures r <==> ToUpper(t) in {TYPE_INITIAL, TYPE_NORMAL, TYPE_FINAL, TYPE_BREAKPOINT}
  {
    Scan(SupportedTypes(), ToUpper(t))
  }

  /** The four supported types are trimmed. */
  lemma SupportedTypesTrimmed()
    ensures forall t :: t in SupportedTypes() ==> IsTrimmed(t)
  {
  }

  /** The four supported types are already upper-case. */
  lemma SupportedTypesUpper()
    ensures ToUpper(TYPE_INITIAL) == TYPE_INITIAL && ToUpper(TYPE_NORMAL) == TYPE_NORMAL
    ensures ToUpper(TYPE_FINAL) == TYPE_FINAL && ToUpper(TYPE_BREAKPOINT) == TYPE_BREAKPOINT
  {
    InitialUpper();
    NormalUpper();
    FinalUpper();
    BreakpointUpper();
  }

  // Proof steps of SupportedTypesUpper, one per type, each spelling the type
  // out character by character; kept apart so that each proof stays small.

  lemma InitialUpper()
    ensures ToUpper(TYPE_INITIAL) == TYPE_INITIAL
  {
    var s := TYPE_INITIAL;
    assert s == ['I', 'N', 'I', 'T', 'I', 'A', 'L'];
    forall i | 0 <= i < |s|
      ensures !('a' <= s[i] <= 'z')
    {
    }
    ToUpperOfUpper(s);
  }

  lemma NormalUpper()
    ensures ToUpper(TYPE_NORMAL) == TYPE_NORMAL
  {
    var s := TYPE_NORMAL;
    assert s == ['N', 'O', 'R', 'M', 'A', 'L'];
    forall i | 0 <= i < |s|
      ensures !('a' <= s[i] <= 'z')
    {
    }
    ToUpperOfUpper(s);
  }

  lemma FinalUpper()
    ensures ToUpper(TYPE_FINAL) == TYPE_FINAL
  {
    var s := TYPE_FINAL;
    assert s == ['F', 'I', 'N', 'A', 'L'];
    forall i | 0 <= i < |s|
      ensures !('a' <= s[i] <= 'z')
    {
    }
    ToUpperOfUpper(s);
  }

  lemma BreakpointUpper()
    ensures ToUpper(TYPE_BREAKPOINT) == TYPE_BREAKPOINT
  {
    var s := TYPE_BREAKPOINT;
    assert s == ['B', 'R', 'E', 'A', 'K', 'P', 'O', 'I', 'N', 'T'];
    forall i | 0 <= i < |s|
      ensures !('a' <= s[i] <= 'z')
    {
    }
    ToUpperOfUpper(s);
  }

  /** The test ignores case: two strings with the same upper case are both supported or both not. */
  lemma {:induction false} SupportedTypeIgnoresCase(a: string, b: string)
    requires ToUpper(a) == ToUpper(b)
    ensures IsSupportedType(a) == IsSupportedType(b)
  {
  }

  /** A supported type written in any case is supported ("final" as well as "FINAL"). */
  lemma UpperCaseOfSupported(t: string)
    ensures IsSupportedType(t) <==> IsSupportedType(ToUpper(t))
  {
    ToUpperIdempotent(t);
  }

  /**
   * isSupportedType() does not trim: a string with a strippable character at
   * either end is never supported.
   */
  lemma UntrimmedIsUnsupported(t: string)
    requires !IsTrimmed(t)
    ensures !IsSupportedType(t)
  {
    ToUpperKeepsTrimmed(t);
    SupportedTypesTrimmed();
  }
}
