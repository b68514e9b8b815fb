/**
 * The two PHP string builtins the core relies on: trim() with its default
 * character list and strtoupper() in the "C" locale (ASCII letters only).
 */
module PhpStrings {

  /** The characters trim() strips by default: space, tab, newline, carriage return, NUL and vertical tab. */
  predicate IsTrimChar(c: char) {
    c == ' ' || c == '\t' || c == '\n' || c == '\r' || c == '\0' || c == '\U{B}'
  }

  /** A string with no strippable character at either end. */
  predicate IsTrimmed(s: string) {
    s == [] || (!IsTrimChar(s[0]) && !IsTrimChar(s[|s| - 1]))
  }

  /** ltrim(): drops the strippable characters at the front. */
  function TrimLeft(s: string): (r: string)
    ensures |r| <= |s| && r == s[|s| - |r|..]
    ensures r == [] || !IsTrimChar(r[0])
    ensures forall i :: 0 <= i < |s| - |r| ==> IsTrimChar(s[i])
  {
    if s != [] && IsTrimChar(s[0]) then TrimLeft(s[1..]) else s
  }

  /** rtrim(): drops the strippable characters at the back. */
  function TrimRight(s: string): (r: string)
    ensures |r| <= |s| && r == s[..|r|]
    ensures r == [] || !IsTrimChar(r[|r| - 1])
    ensures forall i :: |r| <= i < |s| ==> IsTrimChar(s[i])
  {
    if s != [] && IsTrimChar(s[|s| - 1]) then TrimRight(s[..|s| - 1]) else s
  }

  /** trim(): the string without strippable characters at either end. */
  function Trim(s: string): (r: string)
    ensures IsTrimmed(r)
    ensures |r| <= |s|
    ensures IsTrimmed(s) ==> r == s
  {
    var l := TrimLeft(s);
    var r := TrimRight(l);
    assert r != [] ==> r[0] == l[0];
    r
  }

  /** s[i..j] is what is left of s once only strippable characters before i and from j on are dropped. */
  predicate StripsTo(s: string, i: int, j: int) {
    && 0 <= i <= j <= |s|
    && (forall k :: 0 <= k < i ==> IsTrimChar(s[k]))
    && (forall k :: j <= k < |s| ==> IsTrimChar(s[k]))
  }

  /**
   * trim() keeps a slice s[i..j] of the input and drops only strippable
   * characters before i and from j on; with IsTrimmed of the result this
   * fixes the result.
   */
  lemma TrimStripsEnds(s: string)
    ensures exists i, j :: StripsTo(s, i, j) && Trim(s) == s[i..j]
  {
    var l := TrimLeft(s);
    var i := |s| - |l|;
    assert StripsTo(s, i, i + |Trim(s)|) && Trim(s) == s[i..i + |Trim(s)|];
  }

  /**
   * Conversely, dropping strippable characters from both ends until a
   * trimmed slice is left gives exactly trim()'s result.
   */
  lemma TrimIsOnlyTrimmedSlice(s: string, i: int, j: int)
    requires StripsTo(s, i, j) && IsTrimmed(s[i..j])
    ensures Trim(s) == s[i..j]
  {
    var l := TrimLeft(s);
    var p := |s| - |l|;
    if i < j {
      assert !IsTrimChar(s[i]) && !IsTrimChar(s[j - 1]);
      assert p == i;
      var r := TrimRight(l);
      assert |r| == j - i;
      assert r == s[i..j];
    } else {
      assert forall k :: 0 <= k < |s| ==> IsTrimChar(s[k]);
      assert l == [];
    }
  }

  /** Trimming twice is trimming once. */
  lemma TrimIdempotent(s: string)
    ensures Trim(Trim(s)) == Trim(s)
  {
  }

  /** strtoupper() on one character: only 'a'..'z' change. */
  function UpperChar(c: char): (u: char)
    ensures 'a' <= c <= 'z' ==> 'A' <= u <= 'Z' && u as int == c as int - 32
    ensures !('a' <= c <= 'z') ==> u == c
  {
    if 'a' <= c <= 'z' then (c as int - 32) as char else c
  }

  /** strtoupper(): every character upper-cased, the length kept. */
  function ToUpper(s: string): (r: string)
    ensures |r| == |s|
    ensures forall i :: 0 <= i < |s| ==> r[i] == UpperChar(s[i])
  {
    if s == [] then [] else [UpperChar(s[0])] + ToUpper(s[1..])
  }

  /** A string without lower-case ASCII letters is its own upper case. */
  lemma {:induction false} ToUpperOfUpper(s: string)
    requires forall i :: 0 <= i < |s| ==> !('a' <= s[i] <= 'z')
    ensures ToUpper(s) == s
  {
    if s != [] {
      ToUpperOfUpper(s[1..]);
    }
  }

  /** Upper-casing twice is upper-casing once. */
  lemma ToUpperIdempotent(s: string)
    ensures ToUpper(ToUpper(s)) == ToUpper(s)
  {
    ToUpperOfUpper(ToUpper(s));
  }

  /** Upper-casing neither creates nor removes a strippable character at an end. */
  lemma ToUpperKeepsTrimmed(s: string)
    ensures IsTrimmed(ToUpper(s)) <==> IsTrimmed(s)
  {
  }
}
