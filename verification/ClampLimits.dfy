// Accepted messages whose clamp is not accepted: what plain tags and short entities
// keep away.
module ClampLimits {
  import opened Wrappers
  import opened Utf16
  import opened Html
  import opened HtmlGrammar
  import opened Format
  import opened FormatLaws
  import opened ClampLaws
  import opened ClampExact
  import opened Composing

  const SMALL_A: Unit := 97
  const SMALL_B: Unit := 98
  const TWO: Unit := 50
  const SPACE: Unit := 32

  function Xs(n: nat): (s: Text)
    ensures |s| == n && forall i | 0 <= i < n :: s[i] == SMALL_X
  {
    seq(n, _ => SMALL_X)
  }

  lemma XsFirst(n: nat)
    requires n > 0
    ensures Xs(n) == [SMALL_X] + Xs(n - 1)
  {
  }

  lemma {:induction false} XsParse(n: nat, rest: Text, stack: seq<Text>)
    ensures Parse(Xs(n) + rest, stack) == Parse(rest, stack)
  {
    if n == 0 {
      assert Xs(0) + rest == rest;
    } else {
      var s := Xs(n) + rest;
      XsFirst(n);
      ParseToken(s, stack);
      assert s[1..] == Xs(n - 1) + rest;
      XsParse(n - 1, rest, stack);
    }
  }

  lemma BIsAllowed()
    ensures IsAllowed([SMALL_B]) && IsAllowed([SMALL_A])
  {
    SpelledOut([SMALL_B], 0);
    SpelledOut([SMALL_A], 11);
  }

  // ---- A digit after the name ----

  const B2: Text := [LT, SMALL_B, TWO, GT]
  const END_B: Text := [LT, SLASH, SMALL_B, GT]
  const END_B2: Text := [LT, SLASH, SMALL_B, TWO, GT]

  lemma B2IsTag(rest: Text)
    ensures TagAt(B2 + rest, NameKind) == Some(Tag(false, [SMALL_B], 4))
    ensures TagAt(B2 + rest, OpenNameKind) == Some(Tag(false, [SMALL_B, TWO], 4))
  {
    var s := B2 + rest;
    assert s[0] == LT && s[1] == SMALL_B && s[2] == TWO && s[3] == GT;
    RunIs(s, 1, InsideKind, 2);
    RunIs(s, 1, NameKind, 1);
    RunIs(s, 1, OpenNameKind, 2);
    assert s[1..2] == [SMALL_B] && s[1..3] == [SMALL_B, TWO];
    IsTag(s, NameKind);
    IsTag(s, OpenNameKind);
    assert Lower([SMALL_B]) == [SMALL_B] && Lower([SMALL_B, TWO]) == [SMALL_B, TWO];
  }

  lemma EndBIsTag(rest: Text)
    ensures TagAt(END_B + rest, NameKind) == Some(Tag(true, [SMALL_B], 4)) == TagAt(END_B + rest, OpenNameKind)
  {
    var s := END_B + rest;
    assert s[0] == LT && s[1] == SLASH && s[2] == SMALL_B && s[3] == GT;
    RunIs(s, 2, InsideKind, 1);
    RunIs(s, 2, NameKind, 1);
    RunIs(s, 2, OpenNameKind, 1);
    assert s[2..3] == [SMALL_B];
    IsTag(s, NameKind);
    IsTag(s, OpenNameKind);
    assert Lower([SMALL_B]) == [SMALL_B];
  }

  lemma EndB2IsTag()
    ensures TagAt(END_B2, NameKind) == Some(Tag(true, [SMALL_B], 5))
  {
    RunIs(END_B2, 2, InsideKind, 2);
    RunIs(END_B2, 2, NameKind, 1);
    assert END_B2[2..3] == [SMALL_B];
    IsTag(END_B2, NameKind);
    assert Lower([SMALL_B]) == [SMALL_B];
  }

  function DigitTag(n: nat): Text {
    B2 + (END_B + Xs(n))
  }

  lemma B2Parses(rest: Text)
    ensures Parse(B2 + rest, []) == Parse(rest, [[SMALL_B]])
  {
    BIsAllowed();
    B2IsTag(rest);
    ParseToken(B2 + rest, []);
    assert (B2 + rest)[4..] == rest;
    assert [] + [[SMALL_B]] == [[SMALL_B]];
  }

  lemma EndBParses(rest: Text)
    ensures Parse(END_B + rest, [[SMALL_B]]) == Parse(rest, [])
  {
    BIsAllowed();
    EndBIsTag(rest);
    ParseToken(END_B + rest, [[SMALL_B]]);
    assert (END_B + rest)[4..] == rest;
    assert [[SMALL_B]][..0] == [];
  }

  lemma DigitTagParses(n: nat, rest: Text)
    ensures Parse(DigitTag(n) + rest, []) == Parse(rest, [])
  {
    Assoc(B2, END_B + Xs(n), rest);
    Assoc(END_B, Xs(n), rest);
    B2Parses(END_B + (Xs(n) + rest));
    EndBParses(Xs(n) + rest);
    XsParse(n, rest, []);
  }

  lemma DigitTagStaysOpen(n: nat)
    ensures OpenTagsFrom(DigitTag(n) + [ELLIPSIS], []) == [[SMALL_B, TWO]]
  {
    var s2 := END_B + (Xs(n) + [ELLIPSIS]);
    var s := B2 + s2;
    assert DigitTag(n) + [ELLIPSIS] == s;
    B2IsTag(s2);
    EndBIsTag(Xs(n) + [ELLIPSIS]);
    OpenTagsAt(s, []);
    assert s[4..] == s2;
    assert [] + [[SMALL_B, TWO]] == [[SMALL_B, TWO]];
    OpenTagsAt(s2, [[SMALL_B, TWO]]);
    assert s2[4..] == Xs(n) + [ELLIPSIS];
    SkipPlainUnits(Xs(n), [ELLIPSIS], [[SMALL_B, TWO]]);
    EllipsisOpensNothing([[SMALL_B, TWO]]);
  }

  /** Where the validator reads a tag name and a digit, openTags reads one name: the
      clamp then closes a tag that was closed. */
  lemma DigitAfterTagName()
    ensures Valid(DigitTag(5000)) && !Valid(ClampMessage(DigitTag(5000)))
  {
    DigitTagParses(5000, []);
    assert DigitTag(5000) + [] == DigitTag(5000);
    DigitTagKept();
    DigitTagStaysOpen(4032);
    CloserOfB2();
    var tail := [ELLIPSIS] + END_B2;
    Assoc(DigitTag(4032), [ELLIPSIS], END_B2);
    assert ClampMessage(DigitTag(5000)) == DigitTag(4032) + tail;
    DigitTagParses(4032, tail);
    ExtraCloserFails();
  }

  lemma CloserOfB2()
    ensures Closers([[SMALL_B, TWO]]) == END_B2
  {
    assert [[SMALL_B, TWO]][..0] == [];
    assert Closer([SMALL_B, TWO]) + [] == END_B2;
  }

  lemma ExtraCloserFails()
    ensures Parse([ELLIPSIS] + END_B2, []) == None
  {
    var tail := [ELLIPSIS] + END_B2;
    ParseToken(tail, []);
    assert tail[1..] == END_B2;
    EndB2IsTag();
    ParseToken(END_B2, []);
  }

  lemma DigitTagKept()
    ensures Kept(DigitTag(5000)) == DigitTag(4032)
  {
    var s := DigitTag(5000);
    var cut := DigitTag(4032);
    assert s[..CUT_AT] == cut;
    assert s[CUT_AT - 1] == SMALL_X;
    assert SafeSlice(s, CUT_AT) == cut;
    assert cut[7] == GT && forall i | 7 < i < |cut| :: cut[i] == SMALL_X;
    assert forall i | 0 <= i < |cut| :: cut[i] != AMP;
  }

  // ---- A mark inside a tag ----

  const OPEN_A: Text := [LT, SMALL_A, SPACE]
  const END_A: Text := [LT, SLASH, SMALL_A, GT]

  /** A tag "<a ...>" with `inside` in it, closed again, after `n` units of text. */
  function MarkedTag(n: nat, inside: Text): Text {
    Xs(n) + (OPEN_A + (inside + ([GT] + END_A)))
  }

  lemma OpenAIsTag(inside: Text, rest: Text)
    requires forall i | 0 <= i < |inside| :: inside[i] != GT
    ensures TagAt(OPEN_A + (inside + ([GT] + rest)), NameKind) == Some(Tag(false, [SMALL_A], |inside| + 4))
    ensures (OPEN_A + (inside + ([GT] + rest)))[|inside| + 4..] == rest
  {
    assert OPEN_A + (inside + ([GT] + rest)) == OpeningTag([SMALL_A], [SPACE] + inside) + rest;
    OpenerIsTagText([SMALL_A], [SPACE] + inside);
    TagTextIs(OpeningTag([SMALL_A], [SPACE] + inside), rest, false, [SMALL_A]);
  }

  lemma EndAIsTag()
    ensures TagAt(END_A, NameKind) == Some(Tag(true, [SMALL_A], 4))
  {
    assert END_A == Closer([SMALL_A]) == END_A + [];
    CloserIsTagText([SMALL_A]);
    TagTextIs(END_A, [], true, [SMALL_A]);
  }

  lemma MarkedTagIsValid(n: nat, inside: Text)
    requires forall i | 0 <= i < |inside| :: inside[i] != GT
    ensures Valid(MarkedTag(n, inside))
  {
    var s := OPEN_A + (inside + ([GT] + END_A));
    XsParse(n, s, []);
    BIsAllowed();
    OpenAIsTag(inside, END_A);
    ParseToken(s, []);
    assert [] + [[SMALL_A]] == [[SMALL_A]];
    EndAPops();
  }

  lemma EndAPops()
    ensures Parse(END_A, [[SMALL_A]]) == Some([])
  {
    BIsAllowed();
    EndAIsTag();
    ParseToken(END_A, [[SMALL_A]]);
    assert END_A[4..] == [] && [[SMALL_A]][..0] == [];
  }

  /** A torn tag before the ellipsis is refused. */
  lemma TornTagFails(n: nat)
    ensures !Valid(CloseOpenTags(Xs(n) + OPEN_A + [ELLIPSIS]))
  {
    var torn := OPEN_A + [ELLIPSIS];
    Assoc(Xs(n), OPEN_A, [ELLIPSIS]);
    SkipPlainUnits(Xs(n), torn, []);
    TornTagIsNone();
    assert Closers([]) == [] && Xs(n) + OPEN_A + [ELLIPSIS] + [] == Xs(n) + torn;
    XsParse(n, torn, []);
    ParseToken(torn, []);
  }

  lemma TornTagIsNone()
    ensures TagAt(OPEN_A + [ELLIPSIS], NameKind) == None && OpenTagsFrom(OPEN_A + [ELLIPSIS], []) == []
  {
    var torn := OPEN_A + [ELLIPSIS];
    NoGtNoTag(torn, NameKind);
    NoGtNoTag(torn, OpenNameKind);
    assert torn[1..] == [SMALL_A, SPACE, ELLIPSIS];
    SkipPlainUnits([SMALL_A, SPACE, ELLIPSIS], [], []);
    assert [SMALL_A, SPACE, ELLIPSIS] + [] == [SMALL_A, SPACE, ELLIPSIS];
  }

  lemma NoGtNoTag(s: Text, kind: Kind)
    requires forall i | 0 <= i < |s| :: s[i] != GT
    ensures TagAt(s, kind) == None
  {
  }

  /** A '<' inside a tag: the clamp cuts at it and leaves the tag torn. */
  lemma LtInsideTag()
    ensures Valid(MarkedTag(4035, [LT] + Xs(100))) && !Valid(ClampMessage(MarkedTag(4035, [LT] + Xs(100))))
  {
    var s := MarkedTag(4035, [LT] + Xs(100));
    var cut := Xs(4035) + (OPEN_A + [LT, SMALL_X]);
    MarkedTagIsValid(4035, [LT] + Xs(100));
    assert s[..CUT_AT] == cut && s[CUT_AT - 1] == SMALL_X;
    assert SafeSlice(s, CUT_AT) == cut;
    LtIsDropped(cut);
    TornTagFails(4035);
  }

  lemma LtIsDropped(cut: Text)
    requires cut == Xs(4035) + (OPEN_A + [LT, SMALL_X])
    ensures DropShortHalfEntity(DropHalfTag(cut)) == Xs(4035) + OPEN_A
  {
    assert cut[4038] == LT && cut[4039] == SMALL_X;
    assert forall i | 0 <= i < |cut| :: cut[i] != GT && cut[i] != AMP;
    assert LastIndex(cut, LT) == 4038 && LastIndex(cut, GT) == -1;
    assert cut[..4038] == Xs(4035) + OPEN_A;
  }

  function AmpTag(): Text {
    Xs(4030) + (OPEN_A + ([AMP] + ([GT] + (Xs(100) + END_A))))
  }

  lemma AmpTagIsValid()
    ensures Valid(AmpTag())
  {
    var rest := Xs(100) + END_A;
    var s := OPEN_A + ([AMP] + ([GT] + rest));
    XsParse(4030, s, []);
    BIsAllowed();
    OpenAIsTag([AMP], rest);
    ParseToken(s, []);
    assert [] + [[SMALL_A]] == [[SMALL_A]];
    XsParse(100, END_A, [[SMALL_A]]);
    EndAPops();
  }

  lemma AmpIsDropped(cut: Text)
    requires cut == Xs(4030) + (OPEN_A + ([AMP, GT] + Xs(5)))
    ensures DropShortHalfEntity(DropHalfTag(cut)) == Xs(4030) + OPEN_A
  {
    assert cut[4030] == LT && cut[4033] == AMP && cut[4034] == GT && |cut| == 4040;
    assert forall i | 4034 < i < |cut| :: cut[i] == SMALL_X;
    assert forall i | 0 <= i < |cut| :: cut[i] != SEMI;
    assert LastIndex(cut, GT) == 4034 && LastIndex(cut, AMP) == 4033 && LastIndex(cut, SEMI) == -1;
    assert LastIndex(cut, LT) <= 4034;
    assert cut[..4033] == Xs(4030) + OPEN_A;
  }

  /** An '&' inside a tag shortly before the cut is taken for a torn entity. */
  lemma AmpInsideTag()
    ensures Valid(AmpTag()) && !Valid(ClampMessage(AmpTag()))
  {
    AmpTagIsValid();
    AmpTagCut();
    AmpIsDropped(SafeSlice(AmpTag(), CUT_AT));
    TornTagFails(4030);
  }

  lemma AmpTagCut()
    ensures |AmpTag()| > MESSAGE_LIMIT && SafeSlice(AmpTag(), CUT_AT) == Xs(4030) + (OPEN_A + ([AMP, GT] + Xs(5)))
  {
    var cut := Xs(4030) + (OPEN_A + ([AMP, GT] + Xs(5)));
    assert AmpTag()[..CUT_AT] == cut;
    assert AmpTag()[CUT_AT - 1] == SMALL_X;
  }

  // ---- A long entity at the cut ----

  function Zeros(n: nat): (s: Text)
    ensures |s| == n && forall i | 0 <= i < n :: s[i] == 48
  {
    seq(n, _ => 48)
  }

  /** "&#000...0;" with twenty zeros, after `n` units and before a hundred more. */
  function EntityText(n: nat): Text {
    Xs(n) + LongEntity()
  }

  function LongEntity(): Text {
    [AMP, HASH] + (Zeros(20) + ([SEMI] + Xs(100)))
  }

  lemma LongEntityLength()
    ensures EntityLength(LongEntity()) == 23 && LongEntity()[0] == AMP && LongEntity()[23..] == Xs(100)
  {
    var s := LongEntity();
    assert s[0] == AMP && s[1] == HASH && s[2] == 48 && s[22] == SEMI;
    SecondUnitTells(s);
    assert s[..2] == [AMP, HASH] && s[..3][2] == 48;
    assert forall i | 2 <= i < 22 :: s[i] == 48;
    RunIs(s, 2, DigitKind, 20);
  }

  lemma {:induction false} XsWhole(n: nat, rest: Text, m: nat)
    requires m <= |rest|
    ensures Whole(Xs(n) + rest, n + m) == n + Whole(rest, m)
    ensures PlainTags(Xs(n) + rest) == PlainTags(rest)
  {
    if n == 0 {
      assert Xs(0) + rest == rest;
    } else {
      var s := Xs(n) + rest;
      XsFirst(n);
      assert s[0] == SMALL_X && s[1..] == Xs(n - 1) + rest;
      WholeStep(s, n + m);
      XsWhole(n - 1, rest, m);
    }
  }

  lemma LongEntityIsFine()
    ensures Parse(LongEntity(), []) == Some([]) && PlainTags(LongEntity()) && Whole(LongEntity(), 14) == 0
  {
    LongEntityLength();
    ParseToken(LongEntity(), []);
    XsParse(100, [], []);
    XsWhole(100, [], 0);
    assert Xs(100) + [] == Xs(100);
  }

  lemma LongEntityIsCut()
    ensures |EntityText(4026)| > CUT_AT && CutLength(EntityText(4026)) == CUT_AT && EntityText(4026)[4026] == AMP
  {
    LongEntityLength();
    assert EntityText(4026)[CUT_AT - 1] == 48;
  }

  /** A numeric entity of more than twelve units that the cut tears is not dropped. */
  lemma LongEntityAtTheCut()
    ensures Valid(EntityText(4026)) && PlainTags(EntityText(4026)) && !Valid(ClampMessage(EntityText(4026)))
  {
    LongEntityIsFine();
    LongEntityLength();
    XsParse(4026, LongEntity(), []);
    XsWhole(4026, LongEntity(), 14);
    LongEntityIsCut();
    ClampStaysValid(EntityText(4026));
  }
}
