/** Java-level vocabulary shared by the model: nullable references, thrown
    exceptions and the boxed integer widths of the Baichuan records. */
module Lang {

  /** A reference that may be null. */
  datatype Option<+T> = None | Some(value: T)

  /** A call that either returns a value or throws. */
  datatype Result<+T, +E> = Success(value: T) | Failure(error: E)

  /** A check that either passes or throws. */
  datatype Outcome<+E> = Pass | Fail(error: E)

  /** The exceptions the modelled code raises, with their messages. */
  datatype JavaError =
    | IllegalArgument(message: string)   // Spring's Assert.notNull / Assert.isTrue
    | IllegalState(message: string)
    | NullPointer                         // unboxing a null Integer or Boolean

  /** java.lang.Integer values. */
  newtype Int32 = x: int | -0x8000_0000 <= x < 0x8000_0000

  /** java.lang.Long values. */
  newtype Int64 = x: int | -0x8000_0000_0000_0000 <= x < 0x8000_0000_0000_0000

  /** Integer.longValue(): the widening conversion, which never changes the value. */
  function Widen(x: Int32): (r: Int64)
    ensures r as int == x as int
  {
    x as int as Int64
  }

  /** Every character is one that String.trim() strips (code point at most U+0020). */
  predicate TrimsToEmpty(s: string)
  {
    forall i :: 0 <= i < |s| ==> s[i] <= ' '
  }

  /** The leading-character loop of String.trim(). */
  function TrimStart(s: string): (t: string)
    ensures |t| <= |s|
    ensures forall i :: 0 <= i < |t| ==> t[i] == s[|s| - |t| + i]
    ensures forall i :: 0 <= i < |s| - |t| ==> s[i] <= ' '
    ensures t != [] ==> ' ' < t[0]
    decreases |s|
  {
    if s != [] && s[0] <= ' ' then TrimStart(s[1..]) else s
  }

  /** The trailing-character loop of String.trim(). */
  function TrimEnd(s: string): (t: string)
    ensures |t| <= |s|
    ensures forall i :: 0 <= i < |t| ==> t[i] == s[i]
    ensures forall i :: |t| <= i < |s| ==> s[i] <= ' '
    ensures t != [] ==> ' ' < t[|t| - 1]
    decreases |s|
  {
    if s != [] && s[|s| - 1] <= ' ' then TrimEnd(s[..|s| - 1]) else s
  }

  /** Trimming leaves nothing exactly when every character is one it strips,
      and what it leaves starts with a character it keeps. */
  lemma TrimBothEnds(s: string, u: string, t: string)
    requires u == TrimStart(s) && t == TrimEnd(u)
    ensures t == [] <==> TrimsToEmpty(s)
    ensures t != [] ==> ' ' < t[0]
  {
    if t == [] {
      assert u == [];
    }
    if u != [] {
      assert u[0] == s[|s| - |u|];
    }
    if t != [] {
      assert t[0] == u[0];
    }
  }

  /** String.trim(): drops the leading and trailing characters up to U+0020. */
  function Trim(s: string): (t: string)
    ensures t == [] <==> TrimsToEmpty(s)
    ensures t != [] ==> ' ' < t[0] && ' ' < t[|t| - 1]
  {
    var u := TrimStart(s);
    var t := TrimEnd(u);
    TrimBothEnds(s, u, t);
    t
  }
}
