// src/near/dao.ts: exact printing of a yoctoNEAR amount as NEAR, and the reader
// that turns a typed amount back into yoctoNEAR.
module Amount {
  import opened Wrappers
  import opened Decimal

  const DECIMALS: nat := 24
  const MAX_WHOLE_DIGITS: nat := 12

  // One NEAR in yoctoNEAR, 10^24, and the first amount past twelve integer
  // digits, 10^36.
  const ONE_NEAR: nat := 1_000_000_000_000_000_000_000_000
  const TOO_LARGE: nat := 1_000_000_000_000_000_000_000_000_000_000_000_000

  function PadStart(s: string, width: nat): string {
    if |s| < width then Zeros(width - |s|) + s else s
  }

  /** Drops the longest run of zeros at the end, as `replace(/0+$/, '')` does. */
  function TrimZeros(s: string): (t: string)
    ensures |t| <= |s| && t == s[..|t|]
    ensures forall i | |t| <= i < |s| :: s[i] == '0'
    ensures t != "" ==> t[|t| - 1] != '0'
  {
    if s != "" && s[|s| - 1] == '0' then TrimZeros(s[..|s| - 1]) else s
  }

  function FormatYoctoNear(yocto: string): string
    requires AllDigits(yocto)
  {
    Printed(Value(yocto) / ONE_NEAR, Value(yocto) % ONE_NEAR)
  }

  function Printed(whole: nat, rest: nat): string {
    var frac := TrimZeros(PadStart(Digits(rest), DECIMALS));
    if frac != "" then Digits(whole) + "." + frac else Digits(whole)
  }

  /** Where the first '.' is, or the length when there is none. */
  function DotAt(s: string): (k: nat)
    ensures k <= |s|
    ensures k < |s| ==> s[k] == '.'
    ensures forall i | 0 <= i < k :: s[i] != '.'
  {
    if s == "" || s[0] == '.' then 0 else 1 + DotAt(s[1..])
  }

  function WholePart(near: string): string {
    near[..DotAt(near)]
  }

  function FracPart(near: string): string {
    if DotAt(near) < |near| then near[DotAt(near) + 1..] else ""
  }

  /** The pattern ^\d+(\.\d+)?$ */
  predicate LooksLikeAmount(near: string) {
    && WholePart(near) != "" && AllDigits(WholePart(near))
    && AllDigits(FracPart(near))
    && (DotAt(near) < |near| ==> FracPart(near) != "")
  }

  /** The exact decimal meaning of "<whole>.<frac>" at 24 decimals. */
  function YoctoOf(whole: string, frac: string): nat
    requires AllDigits(whole) && AllDigits(frac) && |frac| <= DECIMALS
  {
    Value(whole) * ONE_NEAR + Value(frac + Zeros(DECIMALS - |frac|))
  }

  function ParseNearToYocto(near: string): Option<string> {
    if !LooksLikeAmount(near) then None
    else if |WholePart(near)| > MAX_WHOLE_DIGITS || |FracPart(near)| > DECIMALS then None
    else
      var y := YoctoOf(WholePart(near), FracPart(near));
      if y == 0 then None else Some(Digits(y))
  }

  /** The shape every printed amount has: no leading zero, and a fraction only
      when it is needed and then without trailing zeros. */
  predicate Canonical(near: string) {
    && LooksLikeAmount(near)
    && (near[0] == '0' ==> |WholePart(near)| == 1)
    && (FracPart(near) != "" ==> FracPart(near)[|FracPart(near)| - 1] != '0')
  }

  lemma DotOfParts(whole: string, frac: string)
    requires whole != "" && AllDigits(whole) && AllDigits(frac)
    ensures WholePart(whole) == whole && FracPart(whole) == ""
    ensures WholePart(whole + "." + frac) == whole && FracPart(whole + "." + frac) == frac
  {
    var s := whole + "." + frac;
    var k := DotAt(s);
    assert s[|whole|] == '.';
    assert forall i | 0 <= i < |whole| :: s[i] == whole[i] && whole[i] != '.';
    assert k == |whole|;
    assert s[..k] == whole;
    assert s[k + 1..] == frac;
    assert DotAt(whole) == |whole|;
  }

  lemma BelowOneNear(s: string)
    requires AllDigits(s) && |s| == DECIMALS
    ensures Value(s) < ONE_NEAR
  {
    PowersAreTheConstants();
    ValueBound(s);
  }

  lemma PadLength(r: nat)
    requires r < ONE_NEAR
    ensures |PadStart(Digits(r), DECIMALS)| == DECIMALS
  {
    PowersAreTheConstants();
    DigitsLength(r, DECIMALS);
  }

  /** What the printer's fraction is, digit for digit: cut off nothing but zeros. */
  lemma FractionValue(r: nat)
    requires r < ONE_NEAR
    ensures var f := TrimZeros(PadStart(Digits(r), DECIMALS));
            |f| <= DECIMALS && AllDigits(f) && Value(f + Zeros(DECIMALS - |f|)) == r
  {
    PadLength(r);
    PadKeepsValue(r);
    var p := PadStart(Digits(r), DECIMALS);
    var f := TrimZeros(p);
    assert f + Zeros(DECIMALS - |f|) == p;
  }

  lemma PadKeepsValue(r: nat)
    ensures AllDigits(PadStart(Digits(r), DECIMALS)) && Value(PadStart(Digits(r), DECIMALS)) == r
  {
    ValueOfDigits(r);
    if |Digits(r)| < DECIMALS {
      LeadingZeros(DECIMALS - |Digits(r)|, Digits(r));
    }
  }

  lemma SplitYocto(y: nat)
    ensures y == (y / ONE_NEAR) * ONE_NEAR + y % ONE_NEAR
  {
  }

  /** The printed form is always canonical, whatever the amount. */
  lemma FormatIsCanonical(yocto: string)
    requires AllDigits(yocto)
    ensures Canonical(FormatYoctoNear(yocto))
    ensures var near := FormatYoctoNear(yocto);
            |FracPart(near)| <= DECIMALS && YoctoOf(WholePart(near), FracPart(near)) == Value(yocto)
  {
    var y := Value(yocto);
    var f := TrimZeros(PadStart(Digits(y % ONE_NEAR), DECIMALS));
    FractionValue(y % ONE_NEAR);
    DotOfParts(Digits(y / ONE_NEAR), f);
    ValueOfDigits(y / ONE_NEAR);
    SplitYocto(y);
    if f == "" {
      ZerosAreZero(DECIMALS);
      assert f + Zeros(DECIMALS) == Zeros(DECIMALS);
    }
  }

  lemma PowersAreTheConstants()
    ensures Pow10(DECIMALS) == ONE_NEAR
    ensures Pow10(MAX_WHOLE_DIGITS) * ONE_NEAR == TOO_LARGE
  {
    assert Pow10(6) == 1_000_000;
    assert Pow10(12) == 1_000_000_000_000;
    assert Pow10(18) == 1_000_000_000_000_000_000;
    assert Pow10(24) == ONE_NEAR;
  }

  /** Printing an amount and reading it back gives the same yoctoNEAR integer for
      exactly the amounts above zero and below 10^36: zero and anything longer than
      twelve integer digits are refused. */
  lemma AmountRoundTrip(y: nat)
    ensures ParseNearToYocto(FormatYoctoNear(Digits(y))) == Some(Digits(y)) <==> 0 < y < TOO_LARGE
    ensures !(0 < y < TOO_LARGE) ==> ParseNearToYocto(FormatYoctoNear(Digits(y))) == None
  {
    ValueOfDigits(y);
    FormatIsCanonical(Digits(y));
    var near := FormatYoctoNear(Digits(y));
    assert WholePart(near) == Digits(y / ONE_NEAR) by {
      FractionValue(y % ONE_NEAR);
      DotOfParts(Digits(y / ONE_NEAR), TrimZeros(PadStart(Digits(y % ONE_NEAR), DECIMALS)));
    }
    DigitsLength(y / ONE_NEAR, MAX_WHOLE_DIGITS);
    PowersAreTheConstants();
  }

  /** The other way round: a canonical text that is accepted is what its amount
      prints as. */
  lemma CanonicalTextRoundTrip(near: string, yocto: string)
    requires Canonical(near) && ParseNearToYocto(near) == Some(yocto)
    ensures AllDigits(yocto) && FormatYoctoNear(yocto) == near
  {
    var whole, frac := WholePart(near), FracPart(near);
    var padded := frac + Zeros(DECIMALS - |frac|);
    BelowOneNear(padded);
    ValueOfDigits(YoctoOf(whole, frac));
    FormatOfSum(yocto, Value(whole), Value(padded));
    CanonicalTextIsPrinted(near);
  }

  lemma FormatOfSum(yocto: string, w: nat, r: nat)
    requires AllDigits(yocto) && Value(yocto) == w * ONE_NEAR + r && r < ONE_NEAR
    ensures FormatYoctoNear(yocto) == Printed(w, r)
  {
    QuotientAndRemainder(Value(yocto), w, r);
  }

  lemma CanonicalTextIsPrinted(near: string)
    requires Canonical(near) && |FracPart(near)| <= DECIMALS
    ensures Printed(Value(WholePart(near)), Value(FracPart(near) + Zeros(DECIMALS - |FracPart(near)|))) == near
  {
    assert WholePart(near)[0] == near[0];
    WholeIsPrinted(WholePart(near));
    FracIsPrinted(FracPart(near), FracPart(near) + Zeros(DECIMALS - |FracPart(near)|));
    PartsMakeWhole(near);
  }

  lemma WholeIsPrinted(whole: string)
    requires whole != "" && AllDigits(whole) && (whole[0] == '0' ==> |whole| == 1)
    ensures Digits(Value(whole)) == whole
  {
    DigitsOfValue(whole);
  }

  lemma FracIsPrinted(frac: string, padded: string)
    requires AllDigits(frac) && |frac| <= DECIMALS && (frac != "" ==> frac[|frac| - 1] != '0')
    requires padded == frac + Zeros(DECIMALS - |frac|)
    ensures AllDigits(padded) && TrimZeros(PadStart(Digits(Value(padded)), DECIMALS)) == frac
  {
    PadIsPadded(padded);
    TrimOfPadded(frac, DECIMALS - |frac|);
  }

  lemma QuotientAndRemainder(y: nat, w: nat, r: nat)
    requires y == w * ONE_NEAR + r && r < ONE_NEAR
    ensures y / ONE_NEAR == w && y % ONE_NEAR == r
  {
  }

  lemma PartsMakeWhole(near: string)
    requires LooksLikeAmount(near)
    ensures near == if FracPart(near) == "" then WholePart(near) else WholePart(near) + "." + FracPart(near)
  {
    var k := DotAt(near);
    if k < |near| {
      assert near == near[..k] + [near[k]] + near[k + 1..];
    }
  }

  /** Re-padding the numeral of a 24-digit string restores the string. */
  lemma PadIsPadded(p: string)
    requires |p| == DECIMALS && AllDigits(p)
    ensures PadStart(Digits(Value(p)), DECIMALS) == p
  {
    var k := LeadingZeroCount(p);
    if k == DECIMALS {
      assert p == Zeros(DECIMALS - 1) + "0";
      LeadingZeros(DECIMALS - 1, "0");
      assert "0"[..0] == "";
      assert Value("0") == 0;
    } else {
      assert p == Zeros(k) + p[k..];
      LeadingZeros(k, p[k..]);
      DigitsOfValue(p[k..]);
    }
  }

  function LeadingZeroCount(s: string): (k: nat)
    ensures k <= |s|
    ensures forall i | 0 <= i < k :: s[i] == '0'
    ensures k < |s| ==> s[k] != '0'
  {
    if s != "" && s[0] == '0' then 1 + LeadingZeroCount(s[1..]) else 0
  }

  lemma {:induction false} TrimOfPadded(f: string, k: nat)
    requires f != "" ==> f[|f| - 1] != '0'
    ensures TrimZeros(f + Zeros(k)) == f
  {
    if k == 0 {
      assert f + Zeros(k) == f;
    } else {
      TrimOfPadded(f, k - 1);
      assert (f + Zeros(k))[..|f| + k - 1] == f + Zeros(k - 1);
    }
  }

  // ---- What is accepted ----

  lemma {:induction false} ValueOfJoined(a: string, b: string)
    requires AllDigits(a) && AllDigits(b)
    ensures AllDigits(a + b) && Value(a + b) == Value(a) * Pow10(|b|) + Value(b)
  {
    if b == "" {
      assert a + b == a;
    } else {
      ValueOfJoined(a, b[..|b| - 1]);
      assert (a + b)[..|a + b| - 1] == a + b[..|b| - 1];
      TimesTen(Value(a), Pow10(|b| - 1));
    }
  }

  lemma TimesTen(x: nat, y: nat)
    ensures x * (10 * y) == x * y * 10
  {
  }

  /** An amount as typed, with or without a fraction. */
  function Typed(whole: string, frac: string): string {
    if frac == "" then whole else whole + "." + frac
  }

  /** Any such text with up to twelve and up to 24 digits, not all of them zero, is
      read for exactly what it says: its digits as one numeral, shifted to 24 decimals. */
  lemma ParseIsExact(whole: string, frac: string)
    requires whole != "" && AllDigits(whole) && AllDigits(frac)
    ensures ParseNearToYocto(Typed(whole, frac)) ==
              if |whole| > 12 || |frac| > 24 || Value(whole + frac) == 0 then None
              else Some(Digits(Value(whole + frac) * Pow10(24 - |frac|)))
  {
    TypedParts(whole, frac);
    if |frac| <= 24 {
      YoctoIsShifted(whole, frac);
    }
  }

  lemma TypedParts(whole: string, frac: string)
    requires whole != "" && AllDigits(whole) && AllDigits(frac)
    ensures LooksLikeAmount(Typed(whole, frac)) && WholePart(Typed(whole, frac)) == whole && FracPart(Typed(whole, frac)) == frac
  {
    DotOfParts(whole, frac);
  }

  lemma YoctoIsShifted(whole: string, frac: string)
    requires AllDigits(whole) && AllDigits(frac) && |frac| <= 24
    ensures AllDigits(whole + frac) && YoctoOf(whole, frac) == Value(whole + frac) * Pow10(24 - |frac|)
    ensures YoctoOf(whole, frac) == 0 <==> Value(whole + frac) == 0
  {
    var k := 24 - |frac|;
    ValueOfJoined(whole, frac);
    ValueOfJoined(frac, Zeros(k));
    ZerosAreZero(k);
    PowersAdd(|frac|, k);
    PowersAreTheConstants();
    Distributed(Value(whole), Pow10(|frac|), Value(frac), Pow10(k));
  }

  lemma {:induction false} PowersAdd(a: nat, b: nat)
    ensures Pow10(a + b) == Pow10(a) * Pow10(b)
  {
    if b > 0 {
      PowersAdd(a, b - 1);
      TimesTen(Pow10(a), Pow10(b - 1));
    }
  }

  lemma Distributed(w: nat, a: nat, f: nat, b: nat)
    requires b > 0
    ensures (w * a + f) * b == w * (a * b) + f * b
    ensures w * a + f == 0 <==> (w * a + f) * b == 0
  {
  }

  /** Nothing else is accepted. */
  lemma AcceptedIsTyped(near: string)
    requires ParseNearToYocto(near).Some?
    ensures var whole, frac := WholePart(near), FracPart(near);
            whole != "" && AllDigits(whole) && AllDigits(frac) && near == Typed(whole, frac)
  {
    PartsMakeWhole(near);
  }

  /** Two amounts never print alike. */
  lemma FormatInjective(a: nat, b: nat)
    requires FormatYoctoNear(Digits(a)) == FormatYoctoNear(Digits(b))
    ensures a == b
  {
    ValueOfDigits(a);
    ValueOfDigits(b);
    FormatIsCanonical(Digits(a));
    FormatIsCanonical(Digits(b));
  }
}
