// What clampMessage keeps of an accepted message: whole tokens, tags left open, and
// the length and the surrogates of its result.
module ClampLaws {
  import opened Wrappers
  import opened Utf16
  import opened Html
  import opened Format
  import opened FormatLaws

  // ---- Tokens are local ----

  /** Texts that agree on their first `m` units have the same runs in there. */
  lemma RunAgrees(s: Text, t: Text, from: nat, kind: Kind, m: nat)
    requires m <= |s| && m <= |t| && s[..m] == t[..m] && from <= m
    requires from + Run(s, from, kind) < m
    ensures Run(t, from, kind) == Run(s, from, kind)
  {
    var a, b := Run(s, from, kind), Run(t, from, kind);
    assert forall i | 0 <= i < m :: s[i] == s[..m][i] == t[i];
    assert !OfKind(t[from + a], kind);
    assert forall i | from <= i < from + a :: OfKind(t[i], kind);
  }

  lemma StartsAgree(s: Text, t: Text, prefix: Text, m: nat)
    requires m <= |s| && m <= |t| && s[..m] == t[..m] && |prefix| <= m
    ensures StartsWith(s, prefix) == StartsWith(t, prefix)
  {
    assert s[..|prefix|] == s[..m][..|prefix|] == t[..m][..|prefix|] == t[..|prefix|];
  }

  /** What an entity looks like: an ampersand, then neither of the two marks until
      the ';' that ends it, and none of the tag marks. */
  lemma EntityShape(s: Text)
    ensures var n := EntityLength(s);
            n > 0 ==> (
              && 4 <= n <= |s| && s[0] == AMP && s[n - 1] == SEMI
              && forall i | 0 < i < n - 1 :: s[i] != AMP && s[i] != SEMI && s[i] != LT && s[i] != GT)
  {
    var n := EntityLength(s);
    if StartsWith(s, AMP_ENTITY) {
      assert forall i | 0 <= i < 5 :: s[i] == s[..5][i];
    } else if StartsWith(s, LT_ENTITY) || StartsWith(s, GT_ENTITY) {
      assert forall i | 0 <= i < 4 :: s[i] == s[..4][i];
    } else if StartsWith(s, QUOT_ENTITY) {
      assert forall i | 0 <= i < 6 :: s[i] == s[..6][i];
    } else if StartsWith(s, [AMP, HASH, SMALL_X]) {
      assert forall i | 0 <= i < 3 :: s[i] == s[..3][i];
    } else if StartsWith(s, [AMP, HASH]) {
      assert forall i | 0 <= i < 2 :: s[i] == s[..2][i];
    }
  }

  lemma EntityAgrees(s: Text, t: Text, m: nat)
    requires m <= |s| && m <= |t| && s[..m] == t[..m] && 0 < EntityLength(s) <= m
    ensures EntityLength(t) == EntityLength(s)
  {
    EntityShape(s);
    assert forall i | 0 <= i < m :: s[i] == s[..m][i] == t[i];
    if StartsWith(s, AMP_ENTITY) {
      StartsAgree(s, t, AMP_ENTITY, m);
    } else if StartsWith(s, LT_ENTITY) {
      StartsAgree(s, t, LT_ENTITY, m);
      assert t[1] == LT_ENTITY[1];
    } else if StartsWith(s, GT_ENTITY) {
      StartsAgree(s, t, GT_ENTITY, m);
      assert t[1] == GT_ENTITY[1];
    } else if StartsWith(s, QUOT_ENTITY) {
      StartsAgree(s, t, QUOT_ENTITY, m);
      assert t[1] == QUOT_ENTITY[1];
    } else {
      NumericAgrees(s, t, m);
    }
  }

  lemma NumericAgrees(s: Text, t: Text, m: nat)
    requires m <= |s| && m <= |t| && s[..m] == t[..m] && 0 < EntityLength(s) <= m
    requires !StartsWith(s, AMP_ENTITY) && !StartsWith(s, LT_ENTITY) && !StartsWith(s, GT_ENTITY) && !StartsWith(s, QUOT_ENTITY)
    ensures EntityLength(t) == EntityLength(s)
  {
    EntityShape(s);
    assert s[1] == s[..2][1] == HASH;
    assert s[1] == s[..m][1] == t[1] && s[2] == s[..m][2] == t[2];
    SecondUnitTells(t);
    StartsAgree(s, t, [AMP, HASH, SMALL_X], m);
    StartsAgree(s, t, [AMP, HASH], m);
    if StartsWith(s, [AMP, HASH, SMALL_X]) {
      RunAgrees(s, t, 3, HexKind, m);
      assert s[3 + Run(s, 3, HexKind)] == t[3 + Run(s, 3, HexKind)];
    } else {
      RunAgrees(s, t, 2, DigitKind, m);
      assert s[2 + Run(s, 2, DigitKind)] == t[2 + Run(s, 2, DigitKind)];
    }
  }

  lemma SecondUnitTells(t: Text)
    requires |t| >= 2 && t[1] == HASH
    ensures !StartsWith(t, AMP_ENTITY) && !StartsWith(t, LT_ENTITY) && !StartsWith(t, GT_ENTITY) && !StartsWith(t, QUOT_ENTITY)
  {
    assert |t| >= 5 ==> t[..5][1] == HASH;
    assert |t| >= 4 ==> t[..4][1] == HASH;
    assert |t| >= 6 ==> t[..6][1] == HASH;
  }

  function NameStart(s: Text): nat {
    if 1 < |s| && s[1] == SLASH then 2 else 1
  }

  function TagName(s: Text, kind: Kind): Text
    requires NameStart(s) <= |s|
  {
    Lower(s[NameStart(s)..NameStart(s) + Run(s, NameStart(s), kind)])
  }

  predicate HasTag(s: Text) {
    var start := NameStart(s);
    start < |s| && s[0] == LT && IsLetter(s[start]) && start + Run(s, start, InsideKind) < |s|
  }

  lemma TagIs(s: Text, kind: Kind)
    requires TagAt(s, kind).Some?
    ensures HasTag(s)
    ensures TagAt(s, kind) == Some(Tag(NameStart(s) == 2, TagName(s, kind), NameStart(s) + Run(s, NameStart(s), InsideKind) + 1))
  {
  }

  lemma IsTag(s: Text, kind: Kind)
    requires HasTag(s)
    ensures TagAt(s, kind) == Some(Tag(NameStart(s) == 2, TagName(s, kind), NameStart(s) + Run(s, NameStart(s), InsideKind) + 1))
  {
  }

  lemma SameUnits(s: Text, t: Text, m: nat)
    requires m <= |s| && m <= |t| && s[..m] == t[..m]
    ensures forall i | 0 <= i < m :: s[i] == t[i]
  {
    forall i | 0 <= i < m ensures s[i] == t[i] {
      assert s[..m][i] == s[i] && t[..m][i] == t[i];
    }
  }

  lemma TagRunsAgree(s: Text, t: Text, kind: Kind, m: nat)
    requires m <= |s| && m <= |t| && s[..m] == t[..m] && kind in {NameKind, OpenNameKind}
    requires TagAt(s, kind).Some? && TagAt(s, kind).value.length <= m
    ensures var start := NameStart(s);
            && NameStart(t) == start < m && t[0] == LT && IsLetter(t[start])
            && Run(t, start, InsideKind) == Run(s, start, InsideKind) && start + Run(s, start, InsideKind) < m
            && Run(t, start, kind) == Run(s, start, kind) && start + Run(s, start, kind) < m
  {
    TagIs(s, kind);
    SameUnits(s, t, m);
    var start := NameStart(s);
    RunAgrees(s, t, start, InsideKind, m);
    NameEndsInside(s, start, kind);
    RunAgrees(s, t, start, kind, m);
  }

  /** A tag of `s` is the same tag of any text that begins with it. */
  lemma TagAgrees(s: Text, t: Text, kind: Kind, m: nat)
    requires m <= |s| && m <= |t| && s[..m] == t[..m] && kind in {NameKind, OpenNameKind}
    requires TagAt(s, kind).Some? && TagAt(s, kind).value.length <= m
    ensures TagAt(t, kind) == TagAt(s, kind)
  {
    TagRunsAgree(s, t, kind, m);
    TagIs(s, kind);
    SameName(s, t, kind, m);
    SameTag(s, t, kind);
  }

  lemma SameTag(s: Text, t: Text, kind: Kind)
    requires HasTag(s) && HasTag(t) && NameStart(t) == NameStart(s) && TagName(t, kind) == TagName(s, kind)
    requires Run(t, NameStart(t), InsideKind) == Run(s, NameStart(s), InsideKind)
    ensures TagAt(t, kind) == TagAt(s, kind)
  {
    IsTag(s, kind);
    IsTag(t, kind);
  }

  lemma SameName(s: Text, t: Text, kind: Kind, m: nat)
    requires m <= |s| && m <= |t| && s[..m] == t[..m]
    requires var start := NameStart(s);
             NameStart(t) == start <= m && Run(t, start, kind) == Run(s, start, kind) && start + Run(s, start, kind) <= m
    ensures TagName(t, kind) == TagName(s, kind)
  {
    SameSlice(s, t, m, NameStart(s), NameStart(s) + Run(s, NameStart(s), kind));
  }

  lemma SameSlice(s: Text, t: Text, m: nat, from: nat, to: nat)
    requires m <= |s| && m <= |t| && s[..m] == t[..m] && from <= to <= m
    ensures s[from..to] == t[from..to]
  {
    SameUnits(s, t, m);
  }

  lemma NameEndsInside(s: Text, start: nat, kind: Kind)
    requires start <= |s| && kind in {NameKind, OpenNameKind} && start + Run(s, start, InsideKind) < |s|
    ensures Run(s, start, kind) <= Run(s, start, InsideKind)
  {
    var n, inside := Run(s, start, kind), Run(s, start, InsideKind);
    assert s[start + inside] == GT;
    assert forall i | start <= i < start + n :: OfKind(s[i], kind) && s[i] != GT;
  }

  lemma TokenAgrees(s: Text, t: Text, stack: seq<Text>, m: nat)
    requires 0 < m <= |s| && m <= |t| && s[..m] == t[..m] && 0 < TokenLength(s) <= m
    ensures TokenLength(t) == TokenLength(s) && TokenEffect(t, stack) == TokenEffect(s, stack)
  {
    assert s[0] == s[..m][0] == t[0];
    if s[0] == AMP {
      EntityAgrees(s, t, m);
    } else if s[0] == LT {
      TagAgrees(s, t, NameKind, m);
    }
  }

  // ---- Parsing pieces ----

  lemma ParseToken(s: Text, stack: seq<Text>)
    requires s != []
    ensures var n := TokenLength(s);
            Parse(s, stack) == if n == 0 || TokenEffect(s, stack).None? then None else Parse(s[n..], TokenEffect(s, stack).value)
  {
  }

  lemma AppendToken(a: Text, b: Text, stack: seq<Text>)
    requires a != [] && TokenLength(a) > 0
    ensures TokenLength(a + b) == TokenLength(a) && TokenEffect(a + b, stack) == TokenEffect(a, stack)
    ensures (a + b)[TokenLength(a)..] == a[TokenLength(a)..] + b
  {
    assert (a + b)[..|a|] == a[..|a|];
    TokenAgrees(a, a + b, stack, |a|);
  }

  lemma {:induction false} ParseAppend(a: Text, b: Text, stack: seq<Text>)
    requires Parse(a, stack).Some?
    ensures Parse(a + b, stack) == Parse(b, Parse(a, stack).value)
    decreases |a|
  {
    if a == [] {
      assert a + b == b;
    } else {
      ParseToken(a, stack);
      ParseToken(a + b, stack);
      AppendToken(a, b, stack);
      ParseAppend(a[TokenLength(a)..], b, TokenEffect(a, stack).value);
    }
  }

  /** How much of the first `n` units are whole tokens. */
  function Whole(s: Text, n: nat): (k: nat)
    requires n <= |s|
    ensures k <= n
    decreases |s|
  {
    if s == [] || TokenLength(s) == 0 || TokenLength(s) > n then 0
    else TokenLength(s) + Whole(s[TokenLength(s)..], n - TokenLength(s))
  }

  lemma {:induction false} WholeParses(s: Text, stack: seq<Text>, n: nat)
    requires n <= |s| && Parse(s, stack).Some?
    ensures Parse(s[..Whole(s, n)], stack).Some?
    ensures Whole(s, n) < n ==> TokenLength(s[Whole(s, n)..]) > n - Whole(s, n)
    decreases |s|
  {
    if s != [] {
      ParseToken(s, stack);
      var len := TokenLength(s);
      if len <= n {
        var k := Whole(s, n);
        WholeParses(s[len..], TokenEffect(s, stack).value, n - len);
        WholeOne(s, stack, k, len);
      } else {
        assert s[..0] == [] && s[0..] == s;
      }
    }
  }

  lemma WholeOne(s: Text, stack: seq<Text>, k: nat, len: nat)
    requires s != [] && 0 < len == TokenLength(s) <= k <= |s| && TokenEffect(s, stack).Some?
    ensures Parse(s[..k], stack) == Parse(s[len..][..k - len], TokenEffect(s, stack).value)
    ensures s[len..][k - len..] == s[k..]
  {
    assert s[..k][..k] == s[..k];
    TokenAgrees(s, s[..k], stack, k);
    ParseToken(s[..k], stack);
    assert s[..k][len..] == s[len..][..k - len];
  }

  // ---- Plain tags ----

  /** No '<' or '&' inside the tag `s` begins with, and no digit after its name. */
  predicate TagIsPlain(s: Text)
    requires TagAt(s, NameKind).Some?
  {
    TagIs(s, NameKind);
    var start := NameStart(s);
    && (forall i | 0 < i < TagAt(s, NameKind).value.length :: s[i] != LT && s[i] != AMP)
    && start + Run(s, start, NameKind) < |s| && !IsDigit(s[start + Run(s, start, NameKind)])
  }

  /** All tags of an accepted text are plain. */
  predicate PlainTags(s: Text)
    decreases |s|
  {
    if s == [] || TokenLength(s) == 0 then true
    else (s[0] == LT && TagAt(s, NameKind).Some? ==> TagIsPlain(s)) && PlainTags(s[TokenLength(s)..])
  }

  /** Of a plain tag openTags reads the same name. */
  lemma PlainName(s: Text)
    requires TagAt(s, NameKind).Some? && TagIsPlain(s)
    ensures TagAt(s, OpenNameKind) == TagAt(s, NameKind)
  {
    TagIs(s, NameKind);
    IsTag(s, OpenNameKind);
    var start := NameStart(s);
    var a, b := Run(s, start, NameKind), Run(s, start, OpenNameKind);
    assert forall i | start <= i < start + a :: OfKind(s[i], NameKind) && OfKind(s[i], OpenNameKind);
    assert !OfKind(s[start + a], OpenNameKind);
    assert a == b;
  }

  lemma {:induction false} PlainPrefix(s: Text, k: nat)
    requires k <= |s| && k == Whole(s, k) && PlainTags(s)
    ensures PlainTags(s[..k])
    decreases |s|
  {
    if k > 0 && s != [] && TokenLength(s) > 0 {
      var len := TokenLength(s);
      WholeSplits(s, k, len);
      PlainStep(s);
      PlainPrefix(s[len..], k - len);
      PlainPrefixOne(s, k, len);
    }
  }

  lemma PlainPrefixOne(s: Text, k: nat, len: nat)
    requires s != [] && 0 < len == TokenLength(s) <= k <= |s| && PlainTags(s) && PlainTags(s[len..][..k - len])
    ensures PlainTags(s[..k])
  {
    PrefixToken(s, k, len);
    if s[0] == LT {
      PlainFirst(s);
      PrefixTagIsPlain(s, k);
    }
    PlainOn(s[..k], len);
  }

  /** A token that begins with '<' is a tag, and a plain one. */
  lemma PlainFirst(s: Text)
    requires s != [] && s[0] == LT && TokenLength(s) > 0 && PlainTags(s)
    ensures TagAt(s, NameKind).Some? && TagIsPlain(s)
  {
  }

  lemma PlainOn(s: Text, len: nat)
    requires s != [] && 0 < len == TokenLength(s) && PlainTags(s[len..])
    requires s[0] == LT && TagAt(s, NameKind).Some? ==> TagIsPlain(s)
    ensures PlainTags(s)
  {
  }

  lemma PrefixToken(s: Text, k: nat, len: nat)
    requires s != [] && 0 < len == TokenLength(s) <= k <= |s|
    ensures TokenLength(s[..k]) == len && s[..k][len..] == s[len..][..k - len] && s[..k][0] == s[0]
  {
    assert s[..k][..k] == s[..k];
    TokenAgrees(s, s[..k], [], k);
  }

  lemma PrefixTagIsPlain(s: Text, k: nat)
    requires s != [] && s[0] == LT && 0 < TokenLength(s) <= k <= |s| && TagAt(s, NameKind).Some? && TagIsPlain(s)
    ensures TagAt(s[..k], NameKind).Some? && TagIsPlain(s[..k])
  {
    assert s[..k][..k] == s[..k];
    TagAgrees(s, s[..k], NameKind, k);
    PlainTagAgrees(s, s[..k], k);
  }

  lemma WholeSplits(s: Text, k: nat, len: nat)
    requires k <= |s| && s != [] && 0 < len == TokenLength(s) && 0 < k == Whole(s, k)
    ensures len <= k && k - len == Whole(s[len..], k - len)
  {
  }

  lemma PlainTagAgrees(s: Text, t: Text, m: nat)
    requires m <= |s| && m <= |t| && s[..m] == t[..m]
    requires TagAt(s, NameKind).Some? && TagAt(s, NameKind).value.length <= m && TagIsPlain(s) && TagAt(t, NameKind) == TagAt(s, NameKind)
    ensures TagIsPlain(t)
  {
    SameUnits(s, t, m);
    TagIs(s, NameKind);
    TagRunsAgree(s, t, NameKind, m);
  }

  // ---- Where the marks are ----

  /** In whole tokens the last '<' has its '>' after it. */
  lemma {:induction false} TagsClose(s: Text, stack: seq<Text>)
    requires Parse(s, stack).Some?
    ensures LastIndex(s, LT) <= LastIndex(s, GT)
    decreases |s|
  {
    if s != [] {
      ParseToken(s, stack);
      var n := TokenLength(s);
      TagsClose(s[n..], TokenEffect(s, stack).value);
      TokenClosesTag(s);
      ClosedTogether(s, n, LT, GT);
    }
  }

  lemma TokenClosesTag(s: Text)
    requires s != [] && TokenLength(s) > 0
    ensures LastIndex(s[..TokenLength(s)], LT) <= LastIndex(s[..TokenLength(s)], GT)
  {
    var n := TokenLength(s);
    var token := s[..n];
    if s[0] == AMP {
      EntityShape(s);
      assert forall i | 0 <= i < n :: token[i] != LT;
    } else if s[0] == LT {
      assert token[n - 1] == GT;
    }
  }

  /** In whole tokens with plain tags the last '&' has its ';' after it. */
  lemma {:induction false} EntitiesClose(s: Text, stack: seq<Text>)
    requires Parse(s, stack).Some? && PlainTags(s)
    ensures LastIndex(s, AMP) <= LastIndex(s, SEMI)
    decreases |s|
  {
    if s != [] {
      ParseToken(s, stack);
      var n := TokenLength(s);
      PlainStep(s);
      EntitiesClose(s[n..], TokenEffect(s, stack).value);
      TokenClosesEntity(s);
      ClosedTogether(s, n, AMP, SEMI);
    }
  }

  /** If the second mark comes last on both sides, it comes last. */
  lemma ClosedTogether(s: Text, n: nat, u: Unit, v: Unit)
    requires n <= |s| && LastIndex(s[..n], u) <= LastIndex(s[..n], v) && LastIndex(s[n..], u) <= LastIndex(s[n..], v)
    ensures LastIndex(s, u) <= LastIndex(s, v)
  {
    assert s == s[..n] + s[n..];
    LastIndexConcat(s[..n], s[n..], u);
    LastIndexConcat(s[..n], s[n..], v);
  }

  lemma TokenClosesEntity(s: Text)
    requires s != [] && TokenLength(s) > 0 && PlainTags(s)
    ensures LastIndex(s[..TokenLength(s)], AMP) <= LastIndex(s[..TokenLength(s)], SEMI)
  {
    var n := TokenLength(s);
    var token := s[..n];
    if s[0] == AMP {
      EntityShape(s);
      assert token[n - 1] == SEMI;
    } else {
      assert forall i | 0 <= i < n :: token[i] != AMP;
    }
  }

  // ---- The tags left open ----

  lemma {:induction false} SkipPlainUnits(a: Text, b: Text, stack: seq<Text>)
    requires forall i | 0 <= i < |a| :: a[i] != LT
    ensures OpenTagsFrom(a + b, stack) == OpenTagsFrom(b, stack)
  {
    if a == [] {
      assert a + b == b;
    } else {
      assert (a + b)[1..] == a[1..] + b;
      SkipPlainUnits(a[1..], b, stack);
    }
  }

  /** Over whole tokens with plain tags openTags keeps the validator's stack. */
  lemma {:induction false} OpenTagsAgree(a: Text, b: Text, stack: seq<Text>)
    requires Parse(a, stack).Some? && PlainTags(a)
    ensures OpenTagsFrom(a + b, stack) == OpenTagsFrom(b, Parse(a, stack).value)
    decreases |a|
  {
    if a == [] {
      assert a + b == b;
    } else {
      ParseToken(a, stack);
      var n := TokenLength(a);
      OpenTagsToken(a, b, stack);
      OpenTagsAgree(a[n..], b, TokenEffect(a, stack).value);
    }
  }

  lemma OpenTagsToken(a: Text, b: Text, stack: seq<Text>)
    requires a != [] && TokenLength(a) > 0 && TokenEffect(a, stack).Some? && PlainTags(a)
    ensures OpenTagsFrom(a + b, stack) == OpenTagsFrom(a[TokenLength(a)..] + b, TokenEffect(a, stack).value)
  {
    if a[0] == LT {
      OpenTagsTag(a, b, stack);
    } else {
      OpenTagsOther(a, b, stack);
    }
  }

  lemma OpenTagsOther(a: Text, b: Text, stack: seq<Text>)
    requires a != [] && TokenLength(a) > 0 && a[0] != LT
    ensures OpenTagsFrom(a + b, stack) == OpenTagsFrom(a[TokenLength(a)..] + b, stack)
  {
    OtherTokenHasNoLt(a);
    SkipFirst(a, TokenLength(a), b, stack);
  }

  lemma SkipFirst(a: Text, n: nat, b: Text, stack: seq<Text>)
    requires n <= |a| && forall i | 0 <= i < n :: a[i] != LT
    ensures OpenTagsFrom(a + b, stack) == OpenTagsFrom(a[n..] + b, stack)
  {
    assert a + b == a[..n] + (a[n..] + b);
    SkipPlainUnits(a[..n], a[n..] + b, stack);
  }

  lemma OtherTokenHasNoLt(s: Text)
    requires s != [] && TokenLength(s) > 0 && s[0] != LT
    ensures forall i | 0 <= i < TokenLength(s) :: s[i] != LT
  {
    if s[0] == AMP {
      EntityShape(s);
    }
  }

  lemma OpenTagsTag(a: Text, b: Text, stack: seq<Text>)
    requires a != [] && a[0] == LT && TokenLength(a) > 0 && TokenEffect(a, stack).Some? && TagIsPlain(a)
    ensures OpenTagsFrom(a + b, stack) == OpenTagsFrom(a[TokenLength(a)..] + b, TokenEffect(a, stack).value)
  {
    PlainName(a);
    assert (a + b)[..|a|] == a[..|a|];
    TagAgrees(a, a + b, OpenNameKind, |a|);
    OpenTagsAt(a + b, stack);
    assert (a + b)[TokenLength(a)..] == a[TokenLength(a)..] + b;
    PushedIsEffect(a, stack);
  }

  lemma OpenTagsAt(s: Text, stack: seq<Text>)
    requires TagAt(s, OpenNameKind).Some?
    ensures OpenTagsFrom(s, stack) ==
              OpenTagsFrom(s[TagAt(s, OpenNameKind).value.length..], Pushed(stack, TagAt(s, OpenNameKind).value))
  {
  }

  lemma PushedIsEffect(s: Text, stack: seq<Text>)
    requires s != [] && s[0] == LT && TokenLength(s) > 0 && TokenEffect(s, stack).Some?
    ensures TagAt(s, NameKind).Some? && TagAt(s, NameKind).value.length == TokenLength(s)
    ensures Pushed(stack, TagAt(s, NameKind).value) == TokenEffect(s, stack).value
  {
  }

  // ---- Closing ----

  predicate GoodName(name: Text) {
    && name != [] && IsLetter(name[0]) && (forall i | 0 <= i < |name| :: IsNameUnit(name[i]))
    && Lower(name) == name && IsAllowed(name)
  }

  predicate GoodNames(stack: seq<Text>) {
    forall i | 0 <= i < |stack| :: GoodName(stack[i])
  }

  lemma TagNameIsGood(s: Text)
    requires TagAt(s, NameKind).Some? && IsAllowed(TagAt(s, NameKind).value.name)
    ensures GoodName(TagAt(s, NameKind).value.name)
  {
    TagIs(s, NameKind);
    var start := NameStart(s);
    var written := s[start..start + Run(s, start, NameKind)];
    assert written[0] == s[start];
    assert forall i | 0 <= i < |written| :: written[i] == s[start + i] && OfKind(s[start + i], NameKind);
    LowerTwice(written);
  }

  lemma LowerTwice(s: Text)
    ensures Lower(Lower(s)) == Lower(s)
  {
    assert forall i | 0 <= i < |s| :: LowerUnit(LowerUnit(s[i])) == LowerUnit(s[i]);
  }

  lemma {:induction false} StackStaysGood(s: Text, stack: seq<Text>)
    requires Parse(s, stack).Some? && GoodNames(stack)
    ensures GoodNames(Parse(s, stack).value)
    decreases |s|
  {
    if s != [] {
      ParseToken(s, stack);
      if s[0] == LT {
        TagNameIsGood(s);
      }
      StackStaysGood(s[TokenLength(s)..], TokenEffect(s, stack).value);
    }
  }

  lemma RunIs(s: Text, from: nat, kind: Kind, n: nat)
    requires from + n < |s| && !OfKind(s[from + n], kind) && forall i | from <= i < from + n :: OfKind(s[i], kind)
    ensures Run(s, from, kind) == n
  {
  }

  lemma {:induction false} AmongMore(name: Text, m: nat, n: nat)
    requires m <= n <= |ALLOWED_HTML_TAGS| && AmongLast(name, m)
    ensures AmongLast(name, n)
  {
    if m < n {
      AmongMore(name, m, n - 1);
    }
  }

  // ---- The clamp ----

  /** The cut of a text that is too long, and how much of it is whole tokens. */
  function CutLength(s: Text): (n: nat)
    ensures n <= |s| && n <= CUT_AT && SafeSlice(s, CUT_AT) == s[..n]
  {
    |SafeSlice(s, CUT_AT)|
  }

  /** An entity begins more than twelve units before the cut and ends after it. */
  predicate LongEntityAtCut(s: Text) {
    var n := CutLength(s);
    var k := Whole(s, n);
    k < n && s[k] == AMP && n - k > ENTITY_TAIL
  }

  function Kept(s: Text): Text {
    DropShortHalfEntity(DropHalfTag(SafeSlice(s, CUT_AT)))
  }

  lemma PrefixDrop(a: Text, part: Text, u: Unit, v: Unit)
    requires part != [] && part[0] == u && LastIndex(part, u) == 0 && LastIndex(part, v) == -1
    ensures LastIndex(a + part, u) == |a| > LastIndex(a + part, v) && (a + part)[..|a|] == a
  {
    LastIndexConcat(a, part, u);
    LastIndexConcat(a, part, v);
  }

  lemma NoneInPart(a: Text, part: Text, u: Unit, v: Unit)
    requires LastIndex(part, u) == -1 && LastIndex(part, v) == -1
    ensures LastIndex(a + part, u) == LastIndex(a, u) && LastIndex(a + part, v) == LastIndex(a, v)
  {
    LastIndexConcat(a, part, u);
    LastIndexConcat(a, part, v);
  }

  /** What the cut has of the token it falls into. */
  function Torn(s: Text): Text {
    s[Whole(s, CutLength(s))..CutLength(s)]
  }

  lemma CutSplits(s: Text)
    ensures var n := CutLength(s); var k := Whole(s, n);
            s[..n] == s[..k] + Torn(s) && |Torn(s)| == n - k && forall i | 0 <= i < n - k :: Torn(s)[i] == s[k..][i]
  {
  }

  /** A torn token is the beginning of a tag or of an entity. */
  lemma TornShape(s: Text)
    requires Parse(s, []).Some? && PlainTags(s) && Torn(s) != []
    ensures var p := Torn(s);
            || (p[0] == LT && forall i | 0 < i < |p| :: p[i] != LT && p[i] != GT && p[i] != AMP)
            || (p[0] == AMP && forall i | 0 < i < |p| :: p[i] != LT && p[i] != GT && p[i] != AMP && p[i] != SEMI)
  {
    var n := CutLength(s);
    var k := Whole(s, n);
    WholeParses(s, [], n);
    CutSplits(s);
    TornTagIsPlain(s, n);
    var rest := Remaining(s, n);
    if rest[0] == AMP {
      EntityShape(rest);
    } else if rest[0] == LT {
      TagIs(rest, NameKind);
      NoGtInTag(rest);
    }
  }

  lemma NoGtInTag(s: Text)
    requires TagAt(s, NameKind).Some?
    ensures forall i | 0 <= i < TagAt(s, NameKind).value.length - 1 :: s[i] != GT
  {
    TagIs(s, NameKind);
    assert forall i | NameStart(s) <= i < NameStart(s) + Run(s, NameStart(s), InsideKind) :: OfKind(s[i], InsideKind);
  }

  lemma PlainStep(s: Text)
    requires s != [] && TokenLength(s) > 0 && PlainTags(s)
    ensures PlainTags(s[TokenLength(s)..])
  {
  }

  lemma WholeStep(s: Text, n: nat)
    requires n <= |s| && s != [] && 0 < TokenLength(s) <= n
    ensures Whole(s, n) == TokenLength(s) + Whole(s[TokenLength(s)..], n - TokenLength(s))
  {
  }

  /** The text from the first token on that does not end within `n` units. */
  function Remaining(s: Text, n: nat): Text
    requires n <= |s|
  {
    s[Whole(s, n)..]
  }

  lemma RemainingStep(s: Text, n: nat)
    requires n <= |s| && s != [] && 0 < TokenLength(s) <= n
    ensures Remaining(s, n) == Remaining(s[TokenLength(s)..], n - TokenLength(s))
  {
    WholeStep(s, n);
  }

  /** If the token the cut falls into is a tag, it is a plain one. */
  lemma {:induction false} TornTagIsPlain(s: Text, n: nat)
    requires n <= |s| && PlainTags(s) && Remaining(s, n) != [] && TokenLength(Remaining(s, n)) > 0
    ensures Remaining(s, n)[0] == LT && TagAt(Remaining(s, n), NameKind).Some? ==> TagIsPlain(Remaining(s, n))
    decreases |s|
  {
    if s != [] && 0 < TokenLength(s) <= n {
      PlainStep(s);
      RemainingStep(s, n);
      TornTagIsPlain(s[TokenLength(s)..], n - TokenLength(s));
    }
  }

  lemma {:induction false} WholeIsWhole(s: Text, n: nat)
    requires n <= |s|
    ensures Whole(s, Whole(s, n)) == Whole(s, n)
    decreases |s|
  {
    if s != [] && 0 < TokenLength(s) <= n {
      WholeIsWhole(s[TokenLength(s)..], n - TokenLength(s));
    }
  }

  /** The whole tokens before the cut. */
  function Before(s: Text): Text {
    s[..Whole(s, CutLength(s))]
  }

  lemma BeforeFacts(s: Text)
    requires Parse(s, []).Some? && PlainTags(s)
    ensures Parse(Before(s), []).Some? && PlainTags(Before(s)) && GoodNames(Parse(Before(s), []).value)
    ensures LastIndex(Before(s), LT) <= LastIndex(Before(s), GT) && LastIndex(Before(s), AMP) <= LastIndex(Before(s), SEMI)
  {
    var n := CutLength(s);
    WholeParses(s, [], n);
    WholeIsWhole(s, n);
    PlainPrefix(s, Whole(s, n));
    StackStaysGood(Before(s), []);
    TagsClose(Before(s), []);
    EntitiesClose(Before(s), []);
  }

  /** The clamp keeps the whole tokens before the cut, and a torn entity too when
      more than twelve units of it are there. */
  lemma WhatIsKept(s: Text)
    requires Parse(s, []).Some? && PlainTags(s)
    ensures Kept(s) == if LongEntityAtCut(s) then Before(s) + Torn(s) else Before(s)
    ensures LongEntityAtCut(s) ==> Torn(s)[0] == AMP && |Torn(s)| > ENTITY_TAIL
  {
    BeforeFacts(s);
    CutSplits(s);
    TornIsLong(s);
    if Torn(s) != [] {
      TornShape(s);
    }
    KeptOf(Before(s), Torn(s));
  }

  lemma TornIsLong(s: Text)
    ensures LongEntityAtCut(s) <==> Torn(s) != [] && Torn(s)[0] == AMP && |Torn(s)| > ENTITY_TAIL
  {
    CutSplits(s);
  }

  /** What the two drops make of whole tokens and a torn one. */
  lemma KeptOf(a: Text, part: Text)
    requires LastIndex(a, LT) <= LastIndex(a, GT) && LastIndex(a, AMP) <= LastIndex(a, SEMI)
    requires part != [] ==>
               || (part[0] == LT && forall i | 0 < i < |part| :: part[i] != LT && part[i] != GT && part[i] != AMP)
               || (part[0] == AMP && forall i | 0 < i < |part| :: part[i] != LT && part[i] != GT && part[i] != AMP && part[i] != SEMI)
    ensures DropShortHalfEntity(DropHalfTag(a + part)) ==
              if part != [] && part[0] == AMP && |part| > ENTITY_TAIL then a + part else a
  {
    if part == [] {
      assert a + part == a;
    } else if part[0] == LT {
      TornTagIsDropped(a, part);
    } else {
      TornEntity(a, part);
    }
  }

  lemma TornTagIsDropped(a: Text, part: Text)
    requires LastIndex(a, LT) <= LastIndex(a, GT) && LastIndex(a, AMP) <= LastIndex(a, SEMI)
    requires part != [] && part[0] == LT && forall i | 0 < i < |part| :: part[i] != LT && part[i] != GT
    ensures DropShortHalfEntity(DropHalfTag(a + part)) == a
  {
    PrefixDrop(a, part, LT, GT);
  }

  lemma TornEntity(a: Text, part: Text)
    requires LastIndex(a, LT) <= LastIndex(a, GT) && LastIndex(a, AMP) <= LastIndex(a, SEMI)
    requires part != [] && part[0] == AMP && forall i | 0 < i < |part| :: part[i] != LT && part[i] != GT && part[i] != AMP && part[i] != SEMI
    ensures DropShortHalfEntity(DropHalfTag(a + part)) == if |part| <= ENTITY_TAIL then a else a + part
  {
    NoneInPart(a, part, LT, GT);
    PrefixDrop(a, part, AMP, SEMI);
  }

  lemma EllipsisOpensNothing(stack: seq<Text>)
    ensures OpenTagsFrom([ELLIPSIS], stack) == stack
  {
    assert [ELLIPSIS][1..] == [];
    assert OpenTagsFrom([], stack) == stack;
  }

  // ---- Length and surrogates ----

  /** A clamp fits a message whenever the closers it appends fit in 55 units. */
  lemma ClampFits(s: Text)
    requires |s| > MESSAGE_LIMIT ==> |Closers(OpenTagsFrom(Kept(s) + [ELLIPSIS], []))| <= 55
    ensures |ClampMessage(s)| <= MESSAGE_LIMIT
  {
  }

  lemma {:induction false} OpenNamesAreAscii(s: Text, stack: seq<Text>)
    requires forall i | 0 <= i < |stack| :: NoSurrogates(stack[i])
    ensures forall i | 0 <= i < |OpenTagsFrom(s, stack)| :: NoSurrogates(OpenTagsFrom(s, stack)[i])
    decreases |s|
  {
    if s != [] {
      var tag := TagAt(s, OpenNameKind);
      if tag.None? {
        OpenNamesAreAscii(s[1..], stack);
      } else {
        OpenNameIsAscii(s);
        OpenNamesAreAscii(s[tag.value.length..], Pushed(stack, tag.value));
      }
    }
  }

  predicate NoSurrogates(s: Text) {
    forall i | 0 <= i < |s| :: s[i] < 0xD800
  }

  lemma OpenNameIsAscii(s: Text)
    requires TagAt(s, OpenNameKind).Some?
    ensures NoSurrogates(TagAt(s, OpenNameKind).value.name)
  {
    TagIs(s, OpenNameKind);
    var start := NameStart(s);
    var written := s[start..start + Run(s, start, OpenNameKind)];
    assert forall i | 0 <= i < |written| :: written[i] == s[start + i] && OfKind(s[start + i], OpenNameKind);
  }

  lemma {:induction false} ClosersAreAscii(stack: seq<Text>)
    requires forall i | 0 <= i < |stack| :: NoSurrogates(stack[i])
    ensures NoSurrogates(Closers(stack))
  {
    if stack != [] {
      ClosersAreAscii(stack[..|stack| - 1]);
      assert NoSurrogates(Closer(stack[|stack| - 1]));
    }
  }

  /** The clamp of well-formed UTF-16 is well-formed UTF-16. */
  lemma ClampIsWellFormed(s: Text)
    requires WellFormed(s)
    ensures WellFormed(ClampMessage(s))
  {
    if |s| > MESSAGE_LIMIT {
      ClampKeepsSurrogates(s);
      var stack := OpenTagsFrom(Kept(s) + [ELLIPSIS], []);
      OpenNamesAreAscii(Kept(s) + [ELLIPSIS], []);
      ClosersAreAscii(stack);
      ConcatWellFormed(Kept(s), [ELLIPSIS]);
      ConcatWellFormed(Kept(s) + [ELLIPSIS], Closers(stack));
    }
  }

  /** In well-formed text nothing is cut between surrogates. */
  lemma ClampKeepsSurrogates(s: Text)
    requires WellFormed(s) && |s| > MESSAGE_LIMIT
    ensures WellFormed(Kept(s)) && Kept(s) == s[..|Kept(s)|]
  {
    SafeSliceWellFormed(s, CUT_AT);
    var cut := SafeSlice(s, CUT_AT);
    MarkCutIsWellFormed(cut, LT);
    var kept := DropHalfTag(cut);
    MarkCutIsWellFormed(kept, AMP);
  }

  lemma MarkCutIsWellFormed(s: Text, mark: Unit)
    requires WellFormed(s) && mark in {LT, AMP}
    ensures LastIndex(s, mark) >= 0 ==> WellFormed(s[..LastIndex(s, mark)])
  {
    var k := LastIndex(s, mark);
    if k >= 0 {
      assert k > 0 ==> !IsHigh(s[k - 1]);
      CutIsWellFormed(s, k);
    }
  }
}
