// clampMessage against the validator: for every accepted message, exactly when its
// clamp is accepted again.
module ClampExact {
  import opened Wrappers
  import opened Utf16
  import opened Html
  import opened Format
  import opened FormatLaws
  import opened ClampLaws

  // ---- Names ----

  /** What the validator takes for the name when openTags takes `name`. */
  function Trunc(name: Text): Text {
    name[..Run(name, 0, NameKind)]
  }

  function Truncs(names: seq<Text>): (r: seq<Text>)
    ensures |r| == |names| && forall i | 0 <= i < |r| :: r[i] == Trunc(names[i])
  {
    seq(|names|, i requires 0 <= i < |names| => Trunc(names[i]))
  }

  // ---- Tags that openTags finds ----

  /** A name openTags may read, in lower case. */
  predicate OpenName(name: Text) {
    && name != [] && IsLetter(name[0]) && (forall i | 0 <= i < |name| :: OfKind(name[i], OpenNameKind))
    && Lower(name) == name
  }

  predicate OpenNames(stack: seq<Text>) {
    forall i | 0 <= i < |stack| :: OpenName(stack[i])
  }

  lemma TagNameIsOpen(s: Text)
    requires TagAt(s, OpenNameKind).Some?
    ensures OpenName(TagAt(s, OpenNameKind).value.name)
  {
    TagIs(s, OpenNameKind);
    var start := NameStart(s);
    var written := s[start..start + Run(s, start, OpenNameKind)];
    assert written[0] == s[start];
    assert forall i | 0 <= i < |written| :: written[i] == s[start + i] && OfKind(s[start + i], OpenNameKind);
    LowerTwice(written);
  }

  lemma {:induction false} OpenTagsHaveNames(s: Text, stack: seq<Text>)
    requires OpenNames(stack)
    ensures OpenNames(OpenTagsFrom(s, stack))
    decreases |s|
  {
    if s != [] {
      var tag := TagAt(s, OpenNameKind);
      if tag.None? {
        OpenTagsHaveNames(s[1..], stack);
      } else {
        TagNameIsOpen(s);
        OpenTagsHaveNames(s[tag.value.length..], Pushed(stack, tag.value));
      }
    }
  }

  /** Over whole tokens openTags finds the tags the validator finds. */
  lemma {:induction false} OpenTagsOver(a: Text, b: Text, stack: seq<Text>, open: seq<Text>)
    requires Parse(a, stack).Some?
    ensures OpenTagsFrom(a + b, open) == OpenTagsFrom(b, OpenTagsFrom(a, open))
    decreases |a|
  {
    if a == [] {
      assert a + b == b;
    } else {
      ParseToken(a, stack);
      var n := TokenLength(a);
      var open' := if a[0] == LT then Pushed(open, TagAt(a, OpenNameKind).value) else open;
      OneTokenOn(a, b, open);
      OneTokenOn(a, [], open);
      assert a + [] == a && a[n..] + [] == a[n..];
      OpenTagsOver(a[n..], b, TokenEffect(a, stack).value, open');
    }
  }

  lemma OneTokenOn(a: Text, b: Text, open: seq<Text>)
    requires a != [] && TokenLength(a) > 0
    ensures a[0] == LT ==> TagAt(a, OpenNameKind).Some?
    ensures OpenTagsFrom(a + b, open) ==
              OpenTagsFrom(a[TokenLength(a)..] + b, if a[0] == LT then Pushed(open, TagAt(a, OpenNameKind).value) else open)
  {
    if a[0] == LT {
      OneTagOn(a, b, open);
    } else {
      OpenTagsOther(a, b, open);
    }
  }

  /** openTags and the validator read tags of the same length. */
  lemma SameLength(s: Text)
    requires s != [] && s[0] == LT && TokenLength(s) > 0
    ensures TagAt(s, OpenNameKind).Some? && TagAt(s, OpenNameKind).value.length == TokenLength(s)
  {
    TagIs(s, NameKind);
    IsTag(s, OpenNameKind);
  }

  lemma OneTagOn(a: Text, b: Text, open: seq<Text>)
    requires a != [] && a[0] == LT && TokenLength(a) > 0
    ensures TagAt(a, OpenNameKind).Some?
    ensures OpenTagsFrom(a + b, open) == OpenTagsFrom(a[TokenLength(a)..] + b, Pushed(open, TagAt(a, OpenNameKind).value))
  {
    SameLength(a);
    assert (a + b)[..|a|] == a[..|a|];
    TagAgrees(a, a + b, OpenNameKind, |a|);
    OpenTagsAt(a + b, open);
    assert (a + b)[TokenLength(a)..] == a[TokenLength(a)..] + b;
  }

  /** Without a '>' no tag ends. */
  lemma {:induction false} NoGtOpensNothing(s: Text, open: seq<Text>)
    requires forall i | 0 <= i < |s| :: s[i] != GT
    ensures OpenTagsFrom(s, open) == open
    decreases |s|
  {
    if s != [] {
      NoGtOpensNothing(s[1..], open);
    }
  }

  // ---- Closers ----

  lemma CloserRuns(s: Text, name: Text)
    requires OpenName(name) && |s| > |name| + 2 && s[|name| + 2] == GT && forall i | 0 <= i < |name| :: s[i + 2] == name[i]
    ensures Run(s, 2, InsideKind) == |name| && Run(s, 2, NameKind) == Run(name, 0, NameKind)
    ensures IsLetter(s[2]) && s[2..2 + Run(name, 0, NameKind)] == Trunc(name)
  {
    var n, r := |name|, Run(name, 0, NameKind);
    assert s[2] == name[0];
    assert forall i | 2 <= i < n + 2 :: s[i] == name[i - 2] && name[i - 2] != GT;
    RunIs(s, 2, InsideKind, n);
    RunIs(s, 2, NameKind, r);
  }

  /** The closer of a name openTags found is, to the validator, that of its trunk. */
  lemma CloserIsTag(name: Text, rest: Text)
    requires OpenName(name)
    ensures TagAt(Closer(name) + rest, NameKind) == Some(Tag(true, Trunc(name), |name| + 3))
  {
    var s := Closer(name) + rest;
    CloserRuns(s, name);
    LowerPrefix(name, Run(name, 0, NameKind));
    IsTag(s, NameKind);
  }

  lemma LowerPrefix(name: Text, r: nat)
    requires Lower(name) == name && r <= |name|
    ensures Lower(name[..r]) == name[..r]
  {
    assert forall i | 0 <= i < r :: LowerUnit(name[..r][i]) == Lower(name)[i];
  }

  /** One closer of a name openTags found, before anything. */
  lemma CloserParses(name: Text, rest: Text, stack: seq<Text>)
    requires OpenName(name) && GoodNames(stack)
    ensures Parse(Closer(name) + rest, stack) ==
              if stack != [] && stack[|stack| - 1] == Trunc(name) then Parse(rest, stack[..|stack| - 1]) else None
  {
    var s := Closer(name) + rest;
    CloserIsTag(name, rest);
    ParseToken(s, stack);
    assert s[|name| + 3..] == rest;
    assert stack != [] ==> GoodName(stack[|stack| - 1]);
  }

  /** Two stacks are the same if their tops and what is under them are. */
  lemma TopAndUnder(open: seq<Text>, stack: seq<Text>)
    requires open != []
    ensures stack == Truncs(open) <==>
              stack != [] && stack[|stack| - 1] == Trunc(open[|open| - 1]) && stack[..|stack| - 1] == Truncs(open[..|open| - 1])
  {
    var below := open[..|open| - 1];
    assert Truncs(open) == Truncs(below) + [Trunc(open[|open| - 1])];
    if stack != [] {
      assert stack == stack[..|stack| - 1] + [stack[|stack| - 1]];
    }
  }

  /** The closers close what is open if and only if the names are the same to the
      validator. */
  lemma {:induction false} ClosersClose(open: seq<Text>, stack: seq<Text>)
    requires OpenNames(open) && GoodNames(stack)
    ensures Parse(Closers(open), stack) == Some([]) <==> stack == Truncs(open)
  {
    if open == [] {
      assert Closers(open) == [] && Truncs(open) == [];
    } else {
      CloserParses(open[|open| - 1], Closers(open[..|open| - 1]), stack);
      TopAndUnder(open, stack);
      if stack != [] {
        ClosersClose(open[..|open| - 1], stack[..|stack| - 1]);
      }
    }
  }

  // ---- A torn entity ----

  lemma EntityIsAscii(s: Text)
    ensures forall i | 0 <= i < EntityLength(s) :: s[i] < 128
  {
    var n := EntityLength(s);
    if StartsWith(s, AMP_ENTITY) {
      assert forall i | 0 <= i < 5 :: s[i] == s[..5][i];
    } else if StartsWith(s, LT_ENTITY) || StartsWith(s, GT_ENTITY) {
      assert forall i | 0 <= i < 4 :: s[i] == s[..4][i];
    } else if StartsWith(s, QUOT_ENTITY) {
      assert forall i | 0 <= i < 6 :: s[i] == s[..6][i];
    } else if StartsWith(s, [AMP, HASH, SMALL_X]) {
      assert forall i | 0 <= i < 3 :: s[i] == s[..3][i];
    } else if StartsWith(s, [AMP, HASH]) {
      assert forall i | 0 <= i < 2 :: s[i] == s[..2][i];
    }
  }

  /** The beginning of an entity before an ellipsis is refused. */
  lemma TornEntityFails(part: Text, rest: Text, stack: seq<Text>)
    requires part != [] && part[0] == AMP && forall i | 0 <= i < |part| :: part[i] != SEMI
    requires rest != [] && rest[0] == ELLIPSIS
    ensures Parse(part + rest, stack) == None
  {
    var s := part + rest;
    assert s[|part|] == ELLIPSIS && forall i | 0 <= i < |part| :: s[i] == part[i];
    EntityShape(s);
    EntityIsAscii(s);
    ParseToken(s, stack);
  }

  // ---- A torn tag ----

  /** With no closer after it a torn tag is refused. */
  lemma UnclosedTagFails(part: Text, stack: seq<Text>)
    requires part != [] && part[0] == LT && forall i | 0 <= i < |part| :: part[i] != GT
    ensures Parse(part + [ELLIPSIS], stack) == None
  {
    var s := part + [ELLIPSIS];
    assert forall i | 0 <= i < |s| :: s[i] != GT;
    NoGtNoTag(s);
    ParseToken(s, stack);
  }

  lemma NoGtNoTag(s: Text)
    requires forall i | 0 <= i < |s| :: s[i] != GT
    ensures TagAt(s, NameKind) == None
  {
  }

  /** A tag that breaks off at a mark inside it has its whole name before that. */
  lemma NameBeforeMark(token: Text, j: nat)
    requires TagAt(token, NameKind).Some? && 0 < j < TagAt(token, NameKind).value.length && token[j] in {LT, AMP}
    ensures var start := NameStart(token); start < j && start + Run(token, start, NameKind) <= j
    ensures forall i | 0 <= i < j :: token[i] != GT
  {
    TagIs(token, NameKind);
    NoGtInTag(token);
    var start := NameStart(token);
    assert forall i | start <= i < start + Run(token, start, NameKind) :: OfKind(token[i], NameKind);
  }

  lemma NameRunEnds(s: Text, token: Text, start: nat, j: nat)
    requires start <= j < |token| && j < |s| && start + Run(token, start, NameKind) <= j
    requires (forall i | 0 <= i < j :: s[i] == token[i]) && !IsNameUnit(s[j])
    ensures Run(s, start, NameKind) == Run(token, start, NameKind)
  {
    var r := Run(token, start, NameKind);
    assert forall i | start <= i < start + r :: OfKind(token[i], NameKind);
    assert start + r < j ==> !OfKind(token[start + r], NameKind);
    RunIs(s, start, NameKind, r);
  }

  lemma InsideRunEnds(s: Text, part: Text, name: Text, rest: Text, start: nat)
    requires s == part + ([ELLIPSIS] + (Closer(name) + rest)) && start <= |part|
    requires OpenName(name) && forall i | 0 <= i < |part| :: part[i] != GT
    ensures start + Run(s, start, InsideKind) == |part| + |name| + 3 < |s|
  {
    var j, n := |part|, |name|;
    assert s[j] == ELLIPSIS && s[j + 1] == LT && s[j + 2] == SLASH && s[j + n + 3] == GT;
    assert forall i | j + 3 <= i < j + n + 3 :: s[i] == name[i - j - 3] && name[i - j - 3] != GT;
    assert forall i | 0 <= i < j :: s[i] == part[i];
    RunIs(s, start, InsideKind, j + n + 3 - start);
  }

  /** Two texts whose tags begin alike and have names of one length have one name. */
  lemma SameBeginningSameName(s: Text, token: Text, j: nat)
    requires 1 < j <= |token| && j <= |s| && s[..j] == token[..j]
    requires NameStart(token) + Run(token, NameStart(token), NameKind) <= j
    requires Run(s, NameStart(token), NameKind) == Run(token, NameStart(token), NameKind)
    ensures NameStart(s) == NameStart(token) && TagName(s, NameKind) == TagName(token, NameKind)
  {
    assert s[..j][1] == s[1] && token[..j][1] == token[1];
    SameSlice(s, token, j, NameStart(token), NameStart(token) + Run(token, NameStart(token), NameKind));
  }

  /** With a closer after it, it keeps its name, and the closer ends it. */
  lemma TornTagEnds(token: Text, j: nat, name: Text, rest: Text)
    requires TagAt(token, NameKind).Some? && 0 < j < TagAt(token, NameKind).value.length && token[j] in {LT, AMP}
    requires OpenName(name)
    ensures var tag := TagAt(token, NameKind).value;
            TagAt(token[..j] + ([ELLIPSIS] + (Closer(name) + rest)), NameKind) == Some(Tag(tag.closing, tag.name, j + |name| + 4))
  {
    var s := token[..j] + ([ELLIPSIS] + (Closer(name) + rest));
    TagIs(token, NameKind);
    NameBeforeMark(token, j);
    assert s[..j] == token[..j] && s[j] == ELLIPSIS;
    TornTagIs(s, token, j, name, rest);
    IsTag(s, NameKind);
  }

  lemma TornTagIs(s: Text, token: Text, j: nat, name: Text, rest: Text)
    requires HasTag(token) && NameStart(token) < j < |token| && OpenName(name) && forall i | 0 <= i < j :: token[i] != GT
    requires NameStart(token) + Run(token, NameStart(token), NameKind) <= j
    requires s == token[..j] + ([ELLIPSIS] + (Closer(name) + rest)) && s[..j] == token[..j] && s[j] == ELLIPSIS
    ensures HasTag(s) && NameStart(s) == NameStart(token) && TagName(s, NameKind) == TagName(token, NameKind)
    ensures NameStart(s) + Run(s, NameStart(s), InsideKind) == j + |name| + 3
  {
    SameUnits(s, token, j);
    NameRunEnds(s, token, NameStart(token), j);
    SameBeginningSameName(s, token, j);
    InsideRunEnds(s, token[..j], name, rest, NameStart(token));
  }

  /** So the text goes on with what the whole tag would have left open. */
  lemma TornTagParses(token: Text, j: nat, name: Text, rest: Text, stack: seq<Text>)
    requires token != [] && token[0] == LT && 0 < j < TokenLength(token) && token[j] in {LT, AMP}
    requires TokenEffect(token, stack).Some? && OpenName(name)
    ensures Parse(token[..j] + ([ELLIPSIS] + (Closer(name) + rest)), stack) == Parse(rest, TokenEffect(token, stack).value)
  {
    var s := token[..j] + ([ELLIPSIS] + (Closer(name) + rest));
    assert s[0] == LT;
    TornTagEnds(token, j, name, rest);
    Assoc([ELLIPSIS], Closer(name), rest);
    EffectThenRest(s, j + |name| + 4, rest, stack, TokenEffect(token, stack).value);
  }

  lemma EffectThenRest(s: Text, n: nat, rest: Text, stack: seq<Text>, after: seq<Text>)
    requires s != [] && 0 < n == TokenLength(s) && TokenEffect(s, stack) == Some(after) && s[n..] == rest
    ensures Parse(s, stack) == Parse(rest, after)
  {
    ParseToken(s, stack);
  }

  // ---- A text broken off in a token ----

  /** `a` is whole tokens that leave `stack` open, `token` is how the text goes on,
      and the text breaks off `j` units into the first token of that. */
  ghost predicate Breaks(a: Text, token: Text, j: nat, stack: seq<Text>) {
    && Parse(a, []) == Some(stack) && GoodNames(stack) && Parse(token, stack) == Some([])
    && j <= |token| && (j > 0 ==> TokenLength(token) > j)
  }

  /** When the text breaks off between two tokens, openTags must have found open what
      the validator has open; when it breaks off inside a tag, the first closer ends
      that tag, and the other closers must fit what is open after it. */
  predicate Mends(a: Text, token: Text, j: nat, stack: seq<Text>)
    requires j > 0 ==> token != []
  {
    var open := OpenTagsFrom(a, []);
    if j == 0 then stack == Truncs(open)
    else token[0] == LT && open != [] && TokenEffect(token, stack) == Some(Truncs(open[..|open| - 1]))
  }

  lemma PartHasNoGt(token: Text, j: nat)
    requires j <= |token| && (j > 0 ==> TokenLength(token) > j)
    ensures forall i | 0 <= i < j :: token[i] != GT
  {
    if j > 0 {
      if token[0] == AMP {
        EntityShape(token);
      } else if token[0] == LT {
        NoGtInTag(token);
      }
    }
  }

  /** What stands after whole tokens when the text is closed. */
  function Ending(a: Text, part: Text): Text {
    part + ([ELLIPSIS] + Closers(OpenTagsFrom(a, [])))
  }

  lemma ClosedIs(a: Text, part: Text)
    requires Parse(a, []).Some? && forall i | 0 <= i < |part| :: part[i] != GT
    ensures CloseOpenTags((a + part) + [ELLIPSIS]) == a + Ending(a, part)
  {
    var tail := part + [ELLIPSIS];
    var open := OpenTagsFrom(a, []);
    Assoc(a, part, [ELLIPSIS]);
    OpenTagsOver(a, tail, [], []);
    NoGtOpensNothing(tail, open);
    Assoc(a, tail, Closers(open));
    Assoc(part, [ELLIPSIS], Closers(open));
  }

  lemma ClosedParses(a: Text, token: Text, j: nat, stack: seq<Text>)
    requires Breaks(a, token, j, stack)
    ensures Valid(CloseOpenTags((a + token[..j]) + [ELLIPSIS])) <==> Parse(Ending(a, token[..j]), stack) == Some([])
  {
    PartHasNoGt(token, j);
    ClosedIs(a, token[..j]);
    ParseAppend(a, Ending(a, token[..j]), []);
  }

  lemma WholeMends(a: Text, stack: seq<Text>)
    requires GoodNames(stack)
    ensures Parse(Ending(a, []), stack) == Some([]) <==> stack == Truncs(OpenTagsFrom(a, []))
  {
    var open := OpenTagsFrom(a, []);
    assert Ending(a, []) == [ELLIPSIS] + Closers(open);
    EllipsisThen(Closers(open), stack);
    OpenTagsHaveNames(a, []);
    ClosersClose(open, stack);
  }

  lemma EllipsisThen(rest: Text, stack: seq<Text>)
    ensures Parse([ELLIPSIS] + rest, stack) == Parse(rest, stack)
  {
    ParseToken([ELLIPSIS] + rest, stack);
    assert ([ELLIPSIS] + rest)[1..] == rest;
  }

  lemma EntityNeverMends(a: Text, token: Text, j: nat, stack: seq<Text>)
    requires 0 < j < |token| && TokenLength(token) > j && token[0] != LT
    ensures Parse(Ending(a, token[..j]), stack) == None
  {
    EntityShape(token);
    TornEntityFails(token[..j], [ELLIPSIS] + Closers(OpenTagsFrom(a, [])), stack);
  }

  lemma TagMends(a: Text, token: Text, j: nat, stack: seq<Text>)
    requires 0 < j < |token| && TokenLength(token) > j && token[0] == LT && token[j] in {LT, AMP}
    requires GoodNames(stack) && TokenEffect(token, stack).Some?
    ensures Parse(Ending(a, token[..j]), stack) == Some([]) <==> Mends(a, token, j, stack)
  {
    var open := OpenTagsFrom(a, []);
    PartHasNoGt(token, j);
    if open == [] {
      assert Ending(a, token[..j]) == token[..j] + [ELLIPSIS];
      UnclosedTagFails(token[..j], stack);
    } else {
      var below := open[..|open| - 1];
      OpenTagsHaveNames(a, []);
      TornTagParses(token, j, open[|open| - 1], Closers(below), stack);
      EffectIsGood(token, stack);
      ClosersClose(below, TokenEffect(token, stack).value);
    }
  }

  lemma EffectIsGood(s: Text, stack: seq<Text>)
    requires s != [] && s[0] == LT && TokenLength(s) > 0 && GoodNames(stack) && TokenEffect(s, stack).Some?
    ensures GoodNames(TokenEffect(s, stack).value)
  {
    TagNameIsGood(s);
  }

  /** Where no tag breaks off but at a mark inside it, closing what is open makes the
      text valid if and only if it mends it. */
  lemma ClosingMendsExactly(a: Text, token: Text, j: nat, stack: seq<Text>)
    requires Breaks(a, token, j, stack)
    requires j > 0 && token[0] == LT ==> j < |token| && token[j] in {LT, AMP}
    ensures Valid(CloseOpenTags((a + token[..j]) + [ELLIPSIS])) <==> Mends(a, token, j, stack)
  {
    ClosedParses(a, token, j, stack);
    if j == 0 {
      assert token[..0] == [];
      WholeMends(a, stack);
    } else if token[0] == LT {
      ParseToken(token, stack);
      TagMends(a, token, j, stack);
    } else {
      EntityNeverMends(a, token, j, stack);
    }
  }

  // ---- What the clamp keeps ----

  /** What is kept is a beginning of the cut; it is shorter only where a mark of a tag
      or an entity stood, and no tag is left open at its end if it is not. */
  lemma KeptEnds(s: Text)
    ensures var n, m := CutLength(s), |Kept(s)|;
            && m <= n && Kept(s) == s[..m]
            && if m == n then LastIndex(s[..n], LT) <= LastIndex(s[..n], GT) else s[m] in {LT, AMP}
  {
    var n := CutLength(s);
    var cut := s[..n];
    var whole := DropHalfTag(cut);
    assert LastIndex(cut, LT) >= 0 ==> cut[LastIndex(cut, LT)] == s[LastIndex(cut, LT)];
    assert whole == s[..|whole|];
    assert LastIndex(whole, AMP) >= 0 ==> whole[LastIndex(whole, AMP)] == s[LastIndex(whole, AMP)];
  }

  /** Any beginning of an accepted text breaks off in a token, or between two. */
  lemma BeginningBreaks(s: Text, m: nat) returns (stack: seq<Text>)
    requires Valid(s) && m <= |s|
    ensures var k := Whole(s, m); Breaks(s[..k], s[k..], m - k, stack)
  {
    var k := Whole(s, m);
    WholeParses(s, [], m);
    stack := Parse(s[..k], []).value;
    assert s == s[..k] + s[k..];
    ParseAppend(s[..k], s[k..], []);
    StackStaysGood(s[..k], []);
  }

  /** A '<' without a '>' after it leaves a tag open. */
  lemma OpenTagAtEnd(s: Text, m: nat, k: nat)
    requires k < m <= |s| && s[k] == LT && forall i | k <= i < m :: s[i] != GT
    ensures LastIndex(s[..m], LT) > LastIndex(s[..m], GT)
  {
    assert s[..m][k] == LT && forall i | k <= i < m :: s[..m][i] == s[i];
  }

  /** A tag that is kept in part breaks off at a '<' or an '&' inside it. */
  lemma TagBreaksAtMark(s: Text, m: nat, k: nat)
    requires k < m == |Kept(s)| <= |s| && s[k] == LT && forall i | k <= i < m :: s[i] != GT
    ensures m < |s| && s[m] in {LT, AMP}
  {
    KeptEnds(s);
    OpenTagAtEnd(s, m, k);
  }

  /** What the beginning of `m` units breaks, closing it mends. */
  predicate MendsAt(s: Text, m: nat) {
    m <= |s| && SettledMends(s[..Whole(s, m)], s[Whole(s, m)..], m - Whole(s, m), Parse(s[..Whole(s, m)], []))
  }

  predicate SettledMends(a: Text, token: Text, j: nat, settled: Option<seq<Text>>)
    requires j > 0 ==> token != []
  {
    settled.Some? && Mends(a, token, j, settled.value)
  }

  lemma BeginningMendsExactly(s: Text, m: nat)
    requires Valid(s) && m <= |s|
    requires var k := Whole(s, m); k < m && s[k] == LT ==> m < |s| && s[m] in {LT, AMP}
    ensures Valid(CloseOpenTags(s[..m] + [ELLIPSIS])) <==> MendsAt(s, m)
  {
    var k := Whole(s, m);
    var stack := BeginningBreaks(s, m);
    SplitBeginning(s, m, k);
    ClosingMendsExactly(s[..k], s[k..], m - k, stack);
  }

  lemma SplitBeginning(s: Text, m: nat, k: nat)
    requires k <= m <= |s|
    ensures s[..m] == s[..k] + s[k..][..m - k]
    ensures forall i | k <= i < |s| :: s[k..][i - k] == s[i]
  {
  }

  lemma TornLength(s: Text, m: nat)
    requires Valid(s) && m <= |s|
    ensures Whole(s, m) < m ==> TokenLength(s[Whole(s, m)..]) > m - Whole(s, m)
  {
    WholeParses(s, [], m);
  }

  lemma PartOfBeginning(s: Text, m: nat, k: nat)
    requires k <= m <= |s| && (k < m ==> TokenLength(s[k..]) > m - k)
    ensures forall i | k <= i < m :: s[i] != GT
  {
    PartHasNoGt(s[k..], m - k);
    assert forall i | k <= i < m :: s[i] == s[k..][i - k];
  }

  lemma KeptBreaks(s: Text, m: nat)
    requires Valid(s) && m == |Kept(s)| <= |s|
    ensures var k := Whole(s, m); k < m && s[k] == LT ==> m < |s| && s[m] in {LT, AMP}
  {
    var k := Whole(s, m);
    TornLength(s, m);
    PartOfBeginning(s, m, k);
    if k < m && s[k] == LT {
      TagBreaksAtMark(s, m, k);
    }
  }

  /** For every accepted text the clamp is accepted if and only if the text is short
      enough to be left alone or the closers mend what the cut broke. */
  lemma ClampStaysValidExactly(s: Text)
    requires Valid(s)
    ensures Valid(ClampMessage(s)) <==> |s| <= MESSAGE_LIMIT || MendsAt(s, |Kept(s)|)
  {
    if |s| > MESSAGE_LIMIT {
      KeptEnds(s);
      KeptBreaks(s, |Kept(s)|);
      BeginningMendsExactly(s, |Kept(s)|);
    }
  }

  // ---- Plain tags ----

  /** A name the validator has open is its own trunk. */
  lemma GoodIsWhole(stack: seq<Text>)
    requires GoodNames(stack)
    ensures Truncs(stack) == stack
  {
    forall i | 0 <= i < |stack| ensures Trunc(stack[i]) == stack[i] {
      assert GoodName(stack[i]);
    }
  }

  lemma PlainWholeMends(s: Text, k: nat)
    requires k <= |s| && Whole(s, k) == k && PlainTags(s[..k]) && Parse(s[..k], []).Some? && GoodNames(Parse(s[..k], []).value)
    ensures MendsAt(s, k)
  {
    OpenTagsAgree(s[..k], [], []);
    assert s[..k] + [] == s[..k];
    GoodIsWhole(Parse(s[..k], []).value);
  }

  /** If all tags are plain the closers mend everything but a long torn entity. */
  lemma PlainMends(s: Text)
    requires Valid(s) && PlainTags(s)
    ensures MendsAt(s, |Kept(s)|) <==> !LongEntityAtCut(s)
  {
    var n := CutLength(s);
    KeptLength(s);
    if !LongEntityAtCut(s) {
      BeforeFacts(s);
      WholeIsWhole(s, n);
      PlainWholeMends(s, Whole(s, n));
    }
  }

  lemma KeptLength(s: Text)
    requires Valid(s) && PlainTags(s)
    ensures |Kept(s)| == if LongEntityAtCut(s) then CutLength(s) else Whole(s, CutLength(s))
  {
    WhatIsKept(s);
    CutSplits(s);
  }

  /** For an accepted text whose tags are plain the clamp is accepted if and only if
      no entity begins more than twelve units before the cut and ends after it. */
  lemma ClampStaysValid(s: Text)
    requires Valid(s) && PlainTags(s)
    ensures Valid(ClampMessage(s)) <==> |s| <= MESSAGE_LIMIT || !LongEntityAtCut(s)
  {
    ClampStaysValidExactly(s);
    PlainMends(s);
  }
}
