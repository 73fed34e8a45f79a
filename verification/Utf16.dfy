// Text as JavaScript has it: UTF-16 code units, and the searches and cuts the
// message code makes in it.
module Utf16 {
  newtype Unit = x: int | 0 <= x < 0x1_0000

  type Text = seq<Unit>

  /** The units of a literal; every literal here is ASCII or in the basic plane. */
  function U(s: string): (t: Text)
    ensures |t| == |s|
    ensures forall i | 0 <= i < |s| && s[i] as int < 0x1_0000 :: t[i] as int == s[i] as int
  {
    if s == "" then []
    else [if s[0] as int < 0x1_0000 then s[0] as int as Unit else 0xFFFD] + U(s[1..])
  }

  predicate IsHigh(u: Unit) {
    0xD800 <= u <= 0xDBFF
  }

  predicate IsLow(u: Unit) {
    0xDC00 <= u <= 0xDFFF
  }

  /** Well-formed UTF-16, section 3.9 of the Unicode Standard: every high surrogate
      is followed by a low one, and every low one follows a high one. */
  predicate WellFormed(s: Text) {
    && (forall i | 0 <= i < |s| && IsHigh(s[i]) :: i + 1 < |s| && IsLow(s[i + 1]))
    && (forall i | 0 <= i < |s| && IsLow(s[i]) :: i > 0 && IsHigh(s[i - 1]))
  }

  /** lastIndexOf: the last place of a unit, or -1. */
  function LastIndex(s: Text, u: Unit): (k: int)
    ensures -1 <= k < |s|
    ensures k >= 0 ==> s[k] == u
    ensures forall i | k < i < |s| :: s[i] != u
  {
    if s == [] then -1 else if s[|s| - 1] == u then |s| - 1 else LastIndex(s[..|s| - 1], u)
  }

  predicate StartsWith(s: Text, prefix: Text) {
    |prefix| <= |s| && s[..|prefix|] == prefix
  }

  /** At most `max` units from the front, without a high surrogate left at the cut. */
  function SafeSlice(s: Text, max: nat): (r: Text)
    ensures |r| <= max && |r| <= |s| && r == s[..|r|]
    ensures |r| >= (if max <= |s| then max else |s|) - 1
    ensures r != [] && |r| < |s| && |r| < max ==> IsHigh(s[|r|])
  {
    var end := if max < |s| then max else |s|;
    if end > 0 && IsHigh(s[end - 1]) then s[..end - 1] else s[..end]
  }

  /** A cut of well-formed text is well formed. */
  lemma CutIsWellFormed(s: Text, k: nat)
    requires WellFormed(s) && k <= |s| && (k == 0 || !IsHigh(s[k - 1]))
    ensures WellFormed(s[..k])
    ensures WellFormed(s[k..])
  {
    assert forall i | 0 <= i < |s| - k :: s[k..][i] == s[k + i];
  }

  lemma SafeSliceWellFormed(s: Text, max: nat)
    requires WellFormed(s)
    ensures WellFormed(SafeSlice(s, max))
    ensures max >= |s| ==> SafeSlice(s, max) == s
  {
    var r := SafeSlice(s, max);
    var end := if max < |s| then max else |s|;
    if end > 1 && IsHigh(s[end - 1]) {
      assert !IsHigh(s[end - 2]);
    }
    CutIsWellFormed(s, |r|);
  }

  lemma ConcatWellFormed(a: Text, b: Text)
    requires WellFormed(a) && WellFormed(b)
    ensures WellFormed(a + b)
  {
    var s := a + b;
    forall i | 0 <= i < |s| && IsHigh(s[i]) ensures i + 1 < |s| && IsLow(s[i + 1]) {
      if i < |a| {
        assert IsHigh(a[i]);
      } else {
        assert IsHigh(b[i - |a|]);
      }
    }
    forall i | 0 <= i < |s| && IsLow(s[i]) ensures i > 0 && IsHigh(s[i - 1]) {
      if i < |a| {
        assert IsLow(a[i]);
      } else {
        assert IsLow(b[i - |a|]);
      }
    }
  }
}
