// Escaped text: what the recipient reads is what was written, in one piece, cut to a
// budget, or split over several messages.
module FormatLaws {
  import opened Wrappers
  import opened Utf16
  import opened Html
  import opened Format

  // ---- Escaping unit by unit ----

  /** A unit as it stands once only some entities are decoded. */
  function Enc(plainLt: bool, plainGt: bool, u: Unit): (r: Text)
    ensures 0 < |r| <= 5
  {
    if u == AMP then AMP_ENTITY
    else if u == LT && !plainLt then LT_ENTITY
    else if u == GT && !plainGt then GT_ENTITY
    else [u]
  }

  function EncText(plainLt: bool, plainGt: bool, s: Text): Text {
    if s == [] then [] else Enc(plainLt, plainGt, s[0]) + EncText(plainLt, plainGt, s[1..])
  }

  /** An escaped text, unit by unit. */
  function EscText(s: Text): Text {
    EncText(false, false, s)
  }

  lemma {:induction false} EncConcat(plainLt: bool, plainGt: bool, a: Text, b: Text)
    ensures EncText(plainLt, plainGt, a + b) == EncText(plainLt, plainGt, a) + EncText(plainLt, plainGt, b)
  {
    if a == [] {
      assert a + b == b;
    } else {
      EncConcat(plainLt, plainGt, a[1..], b);
      assert (a + b)[1..] == a[1..] + b && (a + b)[0] == a[0];
      Assoc(Enc(plainLt, plainGt, a[0]), EncText(plainLt, plainGt, a[1..]), EncText(plainLt, plainGt, b));
    }
  }

  lemma Assoc(a: Text, b: Text, c: Text)
    ensures a + (b + c) == (a + b) + c
  {
  }

  lemma ReplaceUnitStep(s: Text, u: Unit, put: Text)
    requires s != []
    ensures ReplaceAll(s, [u], put) == (if s[0] == u then put else [s[0]]) + ReplaceAll(s[1..], [u], put)
  {
    assert s[..1] == [s[0]];
  }

  lemma {:induction false} ReplaceUnitConcat(a: Text, b: Text, u: Unit, put: Text)
    ensures ReplaceAll(a + b, [u], put) == ReplaceAll(a, [u], put) + ReplaceAll(b, [u], put)
  {
    if a == [] {
      assert a + b == b;
    } else {
      ReplaceUnitConcat(a[1..], b, u, put);
      ReplaceUnitStep(a, u, put);
      ReplaceUnitStep(a + b, u, put);
      assert (a + b)[1..] == a[1..] + b;
      Assoc(if a[0] == u then put else [a[0]], ReplaceAll(a[1..], [u], put), ReplaceAll(b, [u], put));
    }
  }

  lemma EscConcat(a: Text, b: Text)
    ensures Esc(a + b) == Esc(a) + Esc(b)
  {
    ReplaceUnitConcat(a, b, AMP, AMP_ENTITY);
    var a1, b1 := ReplaceAll(a, [AMP], AMP_ENTITY), ReplaceAll(b, [AMP], AMP_ENTITY);
    ReplaceUnitConcat(a1, b1, LT, LT_ENTITY);
    ReplaceUnitConcat(ReplaceAll(a1, [LT], LT_ENTITY), ReplaceAll(b1, [LT], LT_ENTITY), GT, GT_ENTITY);
  }

  lemma {:induction false} ReplaceAbsent(s: Text, u: Unit, put: Text)
    requires forall i | 0 <= i < |s| :: s[i] != u
    ensures ReplaceAll(s, [u], put) == s
  {
    if s != [] {
      ReplaceAbsent(s[1..], u, put);
      assert s == [s[0]] + s[1..];
    }
  }

  lemma ReplaceOne(u: Unit, put: Text)
    ensures ReplaceAll([u], [u], put) == put
  {
    assert [u][1..] == [] && ReplaceAll([], [u], put) == [];
    assert put + [] == put;
  }

  lemma EscOne(u: Unit)
    ensures Esc([u]) == Enc(false, false, u)
  {
    if u == AMP {
      ReplaceOne(AMP, AMP_ENTITY);
      ReplaceAbsent(AMP_ENTITY, LT, LT_ENTITY);
      ReplaceAbsent(AMP_ENTITY, GT, GT_ENTITY);
    } else if u == LT {
      ReplaceAbsent([u], AMP, AMP_ENTITY);
      ReplaceOne(LT, LT_ENTITY);
      ReplaceAbsent(LT_ENTITY, GT, GT_ENTITY);
    } else if u == GT {
      ReplaceAbsent([u], AMP, AMP_ENTITY);
      ReplaceAbsent([u], LT, LT_ENTITY);
      ReplaceOne(GT, GT_ENTITY);
    } else {
      ReplaceAbsent([u], AMP, AMP_ENTITY);
      ReplaceAbsent([u], LT, LT_ENTITY);
      ReplaceAbsent([u], GT, GT_ENTITY);
    }
  }

  /** The three replacements one after the other escape each character once. */
  lemma {:induction false} EscIsUnitwise(s: Text)
    ensures Esc(s) == EscText(s)
  {
    if s == [] {
      assert Esc(s) == [];
    } else {
      EscOne(s[0]);
      EscIsUnitwise(s[1..]);
      EscConcat([s[0]], s[1..]);
      assert s == [s[0]] + s[1..];
    }
  }

  // ---- Decoding ----

  lemma {:induction false} PassOver(a: Text, rest: Text, what: Text, put: Text)
    requires what != [] && forall i | 0 <= i < |a| :: !StartsWith((a + rest)[i..], what)
    ensures ReplaceAll(a + rest, what, put) == a + ReplaceAll(rest, what, put)
  {
    if a == [] {
      assert a + rest == rest;
    } else {
      assert (a + rest)[0..] == a + rest;
      assert (a + rest)[1..] == a[1..] + rest;
      forall i | 0 <= i < |a[1..]| ensures !StartsWith((a[1..] + rest)[i..], what) {
        assert (a + rest)[i + 1..] == (a[1..] + rest)[i..];
      }
      PassOver(a[1..], rest, what, put);
    }
  }

  /** An entity is passed over by the search for another one. */
  lemma PassEntity(a: Text, rest: Text, what: Text, put: Text)
    requires a in {AMP_ENTITY, GT_ENTITY, LT_ENTITY} && what in {LT_ENTITY, GT_ENTITY, QUOT_ENTITY, AMP_ENTITY} && a != what
    ensures ReplaceAll(a + rest, what, put) == a + ReplaceAll(rest, what, put)
  {
    forall i | 0 <= i < |a| ensures !StartsWith((a + rest)[i..], what) {
      assert (a + rest)[i..][0] == a[i];
      if i == 0 {
        assert (a + rest)[i..][1] == a[1];
        assert (a + rest)[i..][2] == a[2];
      }
    }
    PassOver(a, rest, what, put);
  }

  lemma PassUnit(u: Unit, rest: Text, what: Text, put: Text)
    requires u != AMP && what in {LT_ENTITY, GT_ENTITY, QUOT_ENTITY, AMP_ENTITY}
    ensures ReplaceAll([u] + rest, what, put) == [u] + ReplaceAll(rest, what, put)
  {
    assert ([u] + rest)[0] == u && ([u] + rest)[1..] == rest;
  }

  lemma TakeEntity(rest: Text, what: Text, put: Text)
    requires what != []
    ensures ReplaceAll(what + rest, what, put) == put + ReplaceAll(rest, what, put)
  {
    assert (what + rest)[..|what|] == what && (what + rest)[|what|..] == rest;
  }

  lemma {:induction false} DecodeLt(s: Text)
    ensures ReplaceAll(EncText(false, false, s), LT_ENTITY, [LT]) == EncText(true, false, s)
  {
    if s != [] {
      var rest := EncText(false, false, s[1..]);
      DecodeLt(s[1..]);
      if s[0] == LT {
        TakeEntity(rest, LT_ENTITY, [LT]);
      } else if s[0] == AMP || s[0] == GT {
        PassEntity(Enc(false, false, s[0]), rest, LT_ENTITY, [LT]);
      } else {
        PassUnit(s[0], rest, LT_ENTITY, [LT]);
      }
    }
  }

  lemma {:induction false} DecodeGt(s: Text)
    ensures ReplaceAll(EncText(true, false, s), GT_ENTITY, [GT]) == EncText(true, true, s)
  {
    if s != [] {
      var rest := EncText(true, false, s[1..]);
      DecodeGt(s[1..]);
      if s[0] == GT {
        TakeEntity(rest, GT_ENTITY, [GT]);
      } else if s[0] == AMP {
        PassEntity(AMP_ENTITY, rest, GT_ENTITY, [GT]);
      } else {
        PassUnit(s[0], rest, GT_ENTITY, [GT]);
      }
    }
  }

  lemma {:induction false} NoQuot(s: Text)
    ensures ReplaceAll(EncText(true, true, s), QUOT_ENTITY, [QUOTE]) == EncText(true, true, s)
  {
    if s != [] {
      NoQuot(s[1..]);
      if s[0] == AMP {
        PassEntity(AMP_ENTITY, EncText(true, true, s[1..]), QUOT_ENTITY, [QUOTE]);
      } else {
        PassUnit(s[0], EncText(true, true, s[1..]), QUOT_ENTITY, [QUOTE]);
      }
    }
  }

  lemma NumericOnPlain(u: Unit, rest: Text)
    requires DecodeNumeric(rest).Some? && !(u == AMP && rest != [] && rest[0] == HASH)
    ensures DecodeNumeric([u] + rest) == Some([u] + DecodeNumeric(rest).value)
  {
    var s := [u] + rest;
    assert s[1..] == rest;
    assert |s| >= 2 ==> s[..2] == [u, rest[0]];
  }

  lemma NumericPassesAmp(rest: Text)
    requires DecodeNumeric(rest).Some?
    ensures DecodeNumeric(AMP_ENTITY + rest) == Some(AMP_ENTITY + DecodeNumeric(rest).value)
  {
    var r4 := [SEMI] + rest;
    var r3 := [112 as Unit] + r4;
    var r2 := [109 as Unit] + r3;
    var r1 := [97 as Unit] + r2;
    NumericOnPlain(SEMI, rest);
    NumericOnPlain(112, r4);
    NumericOnPlain(109, r3);
    NumericOnPlain(97, r2);
    NumericOnPlain(AMP, r1);
    FiveUnits(rest);
    FiveUnits(DecodeNumeric(rest).value);
  }

  lemma FiveUnits(rest: Text)
    ensures AMP_ENTITY + rest == [AMP] + ([97] + ([109] + ([112] + ([SEMI] + rest))))
  {
  }

  lemma {:induction false} NoNumeric(s: Text)
    ensures DecodeNumeric(EncText(true, true, s)) == Some(EncText(true, true, s))
  {
    if s != [] {
      var rest := EncText(true, true, s[1..]);
      NoNumeric(s[1..]);
      if s[0] == AMP {
        NumericPassesAmp(rest);
      } else {
        NumericOnPlain(s[0], rest);
      }
    }
  }

  lemma {:induction false} DecodeAmp(s: Text)
    ensures ReplaceAll(EncText(true, true, s), AMP_ENTITY, [AMP]) == s
  {
    if s != [] {
      DecodeAmp(s[1..]);
      assert s == [s[0]] + s[1..];
      if s[0] == AMP {
        TakeEntity(EncText(true, true, s[1..]), AMP_ENTITY, [AMP]);
      } else {
        assert Enc(true, true, s[0]) == [s[0]];
        PassUnit(s[0], EncText(true, true, s[1..]), AMP_ENTITY, [AMP]);
      }
    }
  }

  lemma {:induction false} EscHasNoTags(s: Text)
    ensures forall i | 0 <= i < |EscText(s)| :: EscText(s)[i] != LT && EscText(s)[i] != GT
  {
    if s != [] {
      EscHasNoTags(s[1..]);
      var e := Enc(false, false, s[0]);
      forall i | 0 <= i < |EscText(s)| ensures EscText(s)[i] != LT && EscText(s)[i] != GT {
        assert EscText(s)[i] == if i < |e| then e[i] else EscText(s[1..])[i - |e|];
      }
    }
  }

  lemma {:induction false} NothingToStrip(s: Text)
    requires forall i | 0 <= i < |s| :: s[i] != LT
    ensures StripTags(s) == s
  {
    if s != [] {
      NothingToStrip(s[1..]);
      assert s == [s[0]] + s[1..];
    }
  }

  /** What was escaped reads back as it was written, whatever it was. */
  lemma EscReadsBack(s: Text)
    ensures HtmlToPlain(Esc(s)) == Some(s)
  {
    EscIsUnitwise(s);
    EscHasNoTags(s);
    NothingToStrip(EscText(s));
    DecodeLt(s);
    DecodeGt(s);
    NoQuot(s);
    NoNumeric(s);
    DecodeAmp(s);
  }

  // ---- Cutting escaped text ----

  lemma {:induction false} LastIndexConcat(a: Text, b: Text, u: Unit)
    ensures LastIndex(a + b, u) == if LastIndex(b, u) >= 0 then |a| + LastIndex(b, u) else LastIndex(a, u)
  {
    var k := if LastIndex(b, u) >= 0 then |a| + LastIndex(b, u) else LastIndex(a, u);
    assert forall i | 0 <= i < |b| :: (a + b)[|a| + i] == b[i];
    assert forall i | 0 <= i < |a| :: (a + b)[i] == a[i];
    assert k >= 0 ==> (a + b)[k] == u;
    assert forall i | k < i < |a + b| :: (a + b)[i] != u;
  }

  lemma EncSnoc(s: Text, k: nat)
    requires k < |s|
    ensures EscText(s[..k + 1]) == EscText(s[..k]) + Enc(false, false, s[k])
  {
    EncConcat(false, false, s[..k], [s[k]]);
    assert s[..k + 1] == s[..k] + [s[k]];
    assert [s[k]][1..] == [] && EncText(false, false, []) == [];
    assert EncText(false, false, [s[k]]) == Enc(false, false, s[k]);
  }

  /** In escaped text every ampersand has its ';' after it. */
  lemma {:induction false} EscIsClosed(s: Text, k: nat)
    requires k <= |s|
    ensures LastIndex(EscText(s[..k]), AMP) <= LastIndex(EscText(s[..k]), SEMI)
  {
    if k == 0 {
      assert s[..k] == [];
    } else {
      EscIsClosed(s, k - 1);
      OneMoreIsClosed(s, k - 1);
    }
  }

  lemma OneMoreIsClosed(s: Text, k: nat)
    requires k < |s| && LastIndex(EscText(s[..k]), AMP) <= LastIndex(EscText(s[..k]), SEMI)
    ensures LastIndex(EscText(s[..k + 1]), AMP) <= LastIndex(EscText(s[..k + 1]), SEMI)
  {
    EncSnoc(s, k);
    ClosedStaysClosed(EscText(s[..k]), Enc(false, false, s[k]), s[k]);
  }

  lemma ClosedStaysClosed(a: Text, e: Text, u: Unit)
    requires LastIndex(a, AMP) <= LastIndex(a, SEMI) && e == Enc(false, false, u)
    ensures LastIndex(a + e, AMP) <= LastIndex(a + e, SEMI)
  {
    LastIndexConcat(a, e, AMP);
    LastIndexConcat(a, e, SEMI);
    EntityCloses(u);
  }

  lemma EntityCloses(u: Unit)
    ensures var e := Enc(false, false, u);
            && (LastIndex(e, AMP) >= 0 ==> LastIndex(e, SEMI) == |e| - 1 > 0)
  {
    var e := Enc(false, false, u);
    if u in {AMP, LT, GT} {
      assert e[|e| - 1] == SEMI;
    }
  }

  /** How many units of `s` fit whole into the first `n` units of its escaped form. */
  function Fitting(s: Text, n: nat): (k: nat)
    ensures k <= |s| && |EscText(s[..k])| <= n
    ensures k < |s| ==> n < |EscText(s[..k + 1])|
  {
    FitFrom(s, n, 0)
  }

  function FitFrom(s: Text, n: nat, k: nat): (r: nat)
    requires k <= |s| && |EscText(s[..k])| <= n
    ensures k <= r <= |s| && |EscText(s[..r])| <= n
    ensures r < |s| ==> n < |EscText(s[..r + 1])|
    decreases |s| - k
  {
    if k < |s| && |EscText(s[..k + 1])| <= n then FitFrom(s, n, k + 1) else k
  }

  lemma {:induction false} EscGrows(s: Text, k: nat)
    requires k <= |s|
    ensures EscText(s) == EscText(s[..k]) + EscText(s[k..])
  {
    EncConcat(false, false, s[..k], s[k..]);
    assert s == s[..k] + s[k..];
  }

  /** What is left of a cut once a half-cut entity is dropped is escaped text. */
  lemma DropLeavesWhole(s: Text, n: nat)
    requires n <= |EscText(s)|
    ensures var k := Fitting(s, n);
            DropHalfEntity(EscText(s)[..n]) == EscText(s[..k]) && n <= |EscText(s[..k])| + 4
  {
    var k := Fitting(s, n);
    var whole := EscText(s[..k]);
    EscGrows(s, k);
    EscIsClosed(s, k);
    if k == |s| {
      assert s[..k] == s;
      assert EscText(s)[..n] == whole;
    } else {
      EncSnoc(s, k);
      var e, m := Enc(false, false, s[k]), n - |whole|;
      EscGrows(s, k + 1);
      assert EscText(s)[..n] == whole + e[..m];
      PartialEntity(whole, s[k], m);
    }
  }

  lemma PartialEntity(whole: Text, u: Unit, m: nat)
    requires m < |Enc(false, false, u)| && LastIndex(whole, AMP) <= LastIndex(whole, SEMI)
    ensures DropHalfEntity(whole + Enc(false, false, u)[..m]) == whole
  {
    PartDrops(whole, Enc(false, false, u)[..m]);
  }

  predicate BeginsEntity(part: Text) {
    part != [] ==> part[0] == AMP && forall i | 0 < i < |part| :: part[i] != AMP && part[i] != SEMI
  }

  lemma PartDrops(whole: Text, part: Text)
    requires BeginsEntity(part) && LastIndex(whole, AMP) <= LastIndex(whole, SEMI)
    ensures DropHalfEntity(whole + part) == whole
  {
    LastIndexConcat(whole, part, AMP);
    LastIndexConcat(whole, part, SEMI);
    if part == [] {
      assert whole + part == whole;
    } else {
      assert LastIndex(part, AMP) == 0 && LastIndex(part, SEMI) == -1;
      assert (whole + part)[..|whole|] == whole;
    }
  }

  // ---- A field ----

  /** A cut of the escaped form at a whole unit leaves no surrogate behind. */
  lemma {:induction false} EscKeepsSurrogates(s: Text, k: nat)
    requires k <= |s| && k > 0 && IsHigh(s[k - 1])
    ensures EscText(s[..k]) != [] && EscText(s[..k])[|EscText(s[..k])| - 1] == s[k - 1]
  {
    EncSnoc(s, k - 1);
  }

  /** If the kept part ended in half a surrogate pair, the cut would have stopped
      before it. */
  lemma KeptIsWellFormed(s: Text, max: nat)
    requires WellFormed(s) && max < |EscText(s)|
    ensures WellFormed(s[..Fitting(s, |SafeSlice(EscText(s), max)|)])
  {
    var r := |SafeSlice(EscText(s), max)|;
    var k := Fitting(s, r);
    if 0 < k < |s| && IsHigh(s[k - 1]) {
      EscKeepsSurrogates(s, k);
      EncSnoc(s, k);
      EscGrows(s, k);
      assert Enc(false, false, s[k]) == [s[k]];
      assert |EscText(s[..k])| == r;
      assert EscText(s)[r - 1] == EscText(s[..k])[r - 1];
      SafeSliceEnds(EscText(s), max);
    }
    CutIsWellFormed(s, k);
  }

  lemma SafeSliceEnds(t: Text, max: nat)
    requires max < |t|
    ensures var r := SafeSlice(t, max); r != [] && |r| == max ==> !IsHigh(r[|r| - 1])
    ensures |SafeSlice(t, max)| < max ==> IsHigh(t[|SafeSlice(t, max)|])
  {
  }

  /** A field is the whole text escaped when that fits, and otherwise a beginning of
      it escaped, as much as fits but for at most five units, and an ellipsis; a
      text in well-formed UTF-16 is cut into one. */
  lemma FieldIsAPrefix(s: Text, max: nat) returns (k: nat)
    ensures k <= |s| && |Field(s, max)| <= max + 1
    ensures |Esc(s)| <= max ==> k == |s| && Field(s, max) == Esc(s)
    ensures |Esc(s)| > max ==> Field(s, max) == Esc(s[..k]) + [ELLIPSIS] && max - 5 <= |Esc(s[..k])| <= max
    ensures WellFormed(s) ==> WellFormed(s[..k])
  {
    EscIsUnitwise(s);
    if |Esc(s)| <= max {
      k := |s|;
      assert s[..k] == s;
    } else {
      var cut := SafeSlice(EscText(s), max);
      k := Fitting(s, |cut|);
      EscIsUnitwise(s[..k]);
      DropLeavesWhole(s, |cut|);
      assert cut == EscText(s)[..|cut|];
      if WellFormed(s) {
        KeptIsWellFormed(s, max);
      }
    }
  }

  lemma EllipsisStays()
    ensures Esc([ELLIPSIS]) == [ELLIPSIS]
  {
    EscIsUnitwise([ELLIPSIS]);
    assert [ELLIPSIS][1..] == [] && EscText([]) == [];
  }

  /** A field is some text escaped: what it shows. */
  lemma FieldIsEscaped(s: Text, max: nat) returns (k: nat)
    ensures k <= |s| && Field(s, max) == Esc(if |Esc(s)| <= max then s else s[..k] + [ELLIPSIS])
  {
    k := FieldIsAPrefix(s, max);
    EscConcat(s[..k], [ELLIPSIS]);
    EllipsisStays();
  }

  /** So it is valid wherever it is put, and reads back as what it shows. */
  lemma FieldReadsBack(s: Text, max: nat, stack: seq<Text>) returns (k: nat)
    ensures k <= |s| && Parse(Field(s, max), stack) == Some(stack)
    ensures HtmlToPlain(Field(s, max)) == Some(if |Esc(s)| <= max then s else s[..k] + [ELLIPSIS])
  {
    k := FieldIsEscaped(s, max);
    var shown := if |Esc(s)| <= max then s else s[..k] + [ELLIPSIS];
    EscReadsBack(shown);
    EscIsUnitwise(shown);
    EscParses(shown, stack);
  }

  // ---- Chunks ----

  /** The parts of any text put together are the text, and each fits a message. */
  lemma ChunksStep(s: Text)
    requires |s| > MESSAGE_LIMIT
    ensures Chunks(s) == [ChunkHead(s)] + Chunks(s[|ChunkHead(s)|..])
  {
  }

  lemma ConcatFirst(head: Text, parts: seq<Text>)
    ensures Concat([head] + parts) == head + Concat(parts)
  {
    assert ([head] + parts)[1..] == parts;
  }

  lemma {:induction false} ChunksConserve(s: Text)
    ensures Concat(Chunks(s)) == s
    ensures forall i | 0 <= i < |Chunks(s)| :: |Chunks(s)[i]| <= MESSAGE_LIMIT && (s != [] ==> Chunks(s)[i] != [])
    decreases |s|
  {
    if |s| <= MESSAGE_LIMIT {
      ConcatFirst(s, []);
      assert [s] + [] == [s];
    } else {
      var head := ChunkHead(s);
      ChunksConserve(s[|head|..]);
      ChunksStep(s);
      FirstFits(head, Chunks(s[|head|..]));
      ConcatFirst(head, Chunks(s[|head|..]));
    }
  }

  lemma FirstFits(head: Text, parts: seq<Text>)
    requires head != [] && |head| <= MESSAGE_LIMIT
    requires forall i | 0 <= i < |parts| :: |parts[i]| <= MESSAGE_LIMIT && parts[i] != []
    ensures forall i | 0 <= i < |[head] + parts| :: |([head] + parts)[i]| <= MESSAGE_LIMIT && ([head] + parts)[i] != []
  {
  }

  /** The head of a long escaped text is a beginning of the text, escaped. */
  lemma HeadOfEscaped(s: Text) returns (k: nat)
    requires |EscText(s)| > MESSAGE_LIMIT
    ensures 0 < k <= |s| && ChunkHead(EscText(s)) == EscText(s[..k])
    ensures EscText(s)[|EscText(s[..k])|..] == EscText(s[k..])
    ensures WellFormed(s) ==> WellFormed(s[..k]) && WellFormed(s[k..])
  {
    var cut := SafeSlice(EscText(s), MESSAGE_LIMIT);
    k := Fitting(s, |cut|);
    EscHasNoTags(s);
    assert cut == EscText(s)[..|cut|];
    DropLeavesWhole(s, |cut|);
    EscGrows(s, k);
    NonemptyMeansSome(s, k);
    if WellFormed(s) {
      KeptIsWellFormed(s, MESSAGE_LIMIT);
      RestIsWellFormed(s, k);
    }
  }

  lemma NonemptyMeansSome(s: Text, k: nat)
    requires k <= |s| && |EscText(s[..k])| > 0
    ensures k > 0
  {
    assert s[..0] == [];
  }

  lemma RestIsWellFormed(s: Text, k: nat)
    requires WellFormed(s) && k <= |s| && WellFormed(s[..k])
    ensures WellFormed(s[k..])
  {
    assert k > 0 ==> s[..k][k - 1] == s[k - 1];
    CutIsWellFormed(s, k);
  }

  function EscEach(pieces: seq<Text>): (r: seq<Text>)
    ensures |r| == |pieces| && forall i | 0 <= i < |r| :: r[i] == Esc(pieces[i])
  {
    seq(|pieces|, i requires 0 <= i < |pieces| => Esc(pieces[i]))
  }

  lemma {:induction false} ChunkPieces(s: Text) returns (pieces: seq<Text>)
    ensures Chunks(EscText(s)) == EscEach(pieces) && Concat(pieces) == s
    ensures WellFormed(s) ==> forall i | 0 <= i < |pieces| :: WellFormed(pieces[i])
    decreases |s|
  {
    EscIsUnitwise(s);
    if |EscText(s)| <= MESSAGE_LIMIT {
      pieces := [s];
      ConcatFirst(s, []);
      assert [s] + [] == [s];
      assert EscEach([s]) == [Esc(s)];
    } else {
      var k := HeadOfEscaped(s);
      EscIsUnitwise(s[..k]);
      var more := ChunkPieces(s[k..]);
      pieces := [s[..k]] + more;
      ChunksStep(EscText(s));
      ConcatFirst(s[..k], more);
      assert EscEach(pieces) == [Esc(s[..k])] + EscEach(more);
      assert s == s[..k] + s[k..];
    }
  }

  /** The parts of an escaped text are pieces of the text, each escaped whole: sent
      one by one and read one by one they give the text back; and pieces of
      well-formed UTF-16 are well formed. */
  lemma ChunksOfEscaped(s: Text) returns (pieces: seq<Text>)
    ensures Chunks(Esc(s)) == EscEach(pieces) && Concat(pieces) == s
    ensures forall i | 0 <= i < |pieces| :: HtmlToPlain(Chunks(Esc(s))[i]) == Some(pieces[i])
    ensures WellFormed(s) ==> forall i | 0 <= i < |pieces| :: WellFormed(pieces[i])
  {
    EscIsUnitwise(s);
    pieces := ChunkPieces(s);
    forall i | 0 <= i < |pieces| ensures HtmlToPlain(EscEach(pieces)[i]) == Some(pieces[i]) {
      EscReadsBack(pieces[i]);
    }
  }

  /** Escaped text is valid HTML wherever it is put. */
  lemma {:induction false} EscParses(s: Text, stack: seq<Text>)
    ensures Parse(EscText(s), stack) == Some(stack)
  {
    if s != [] {
      EscParses(s[1..], stack);
      EntityIsToken(s[0], EscText(s[1..]), stack);
    }
  }

  lemma EntityIsToken(u: Unit, rest: Text, stack: seq<Text>)
    ensures Parse(Enc(false, false, u) + rest, stack) == Parse(rest, stack)
  {
    var e := Enc(false, false, u);
    assert (e + rest)[..|e|] == e && (e + rest)[|e|..] == rest;
    assert |e| > 1 ==> (e + rest)[1] == e[1];
    assert StartsWith(e + rest, AMP_ENTITY) ==> (e + rest)[1] == AMP_ENTITY[1];
  }
}
