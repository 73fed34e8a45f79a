// What the validator of scripts/harness.ts accepts, as a grammar: units that mean
// themselves, entities, and allowed tags that close what they opened.
module HtmlGrammar {
  import opened Wrappers
  import opened Utf16
  import opened Html
  import opened ClampLaws

  datatype Node = Plain(unit: Unit) | Entity(text: Text) | Element(name: Text, opener: Text, inner: Forest, closer: Text)

  datatype Forest = Nil | Cons(head: Node, tail: Forest)

  function Written(n: Node): Text {
    match n
    case Plain(unit) => [unit]
    case Entity(text) => text
    case Element(_, opener, inner, closer) => opener + Spelled(inner) + closer
  }

  function Spelled(f: Forest): Text {
    match f
    case Nil => []
    case Cons(head, tail) => Written(head) + Spelled(tail)
  }

  /** "&#" or "&#x", one or more digits, and a ';'. */
  predicate IsNumeric(e: Text, prefix: Text, kind: Kind) {
    && |e| > |prefix| + 1 && e[..|prefix|] == prefix && e[|e| - 1] == SEMI
    && forall i | |prefix| <= i < |e| - 1 :: OfKind(e[i], kind)
  }

  predicate IsEntity(e: Text) {
    || e == AMP_ENTITY || e == LT_ENTITY || e == GT_ENTITY || e == QUOT_ENTITY
    || IsNumeric(e, [AMP, HASH], DigitKind) || IsNumeric(e, [AMP, HASH, SMALL_X], HexKind)
  }

  /** The name runs from `from` to `k`, and no further. */
  predicate NameTo(t: Text, from: nat, k: nat, name: Text) {
    && from < k < |t| && name == Lower(t[from..k])
    && (forall i | from <= i < k :: IsNameUnit(t[i])) && !IsNameUnit(t[k])
  }

  /** '<', a name that begins with a letter, anything but '>', and '>'; a closing tag
      has a '/' before the name. */
  predicate IsTagText(t: Text, closing: bool, name: Text) {
    var from := if closing then 2 else 1;
    && |t| > from + 1 && t[0] == LT && t[|t| - 1] == GT && (closing ==> t[1] == SLASH) && IsLetter(t[from])
    && (forall i | 0 <= i < |t| - 1 :: t[i] != GT)
    && exists k: nat :: k < |t| && NameTo(t, from, k, name)
  }

  predicate IsFine(n: Node) {
    match n
    case Plain(unit) => unit != AMP && unit != LT && unit != GT
    case Entity(text) => IsEntity(text)
    case Element(name, opener, inner, closer) =>
      IsAllowed(name) && IsTagText(opener, false, name) && IsTagText(closer, true, name) && AllFine(inner)
  }

  predicate AllFine(f: Forest) {
    match f
    case Nil => true
    case Cons(head, tail) => IsFine(head) && AllFine(tail)
  }

  // ---- Tokens ----

  lemma NumericIs(e: Text, rest: Text, prefix: Text, kind: Kind)
    requires IsNumeric(e, prefix, kind) && kind in {DigitKind, HexKind}
    ensures StartsWith(e + rest, prefix) && NumericLength(e + rest, |prefix|, kind) == |e|
  {
    var s := e + rest;
    assert s[..|prefix|] == e[..|prefix|];
    assert forall i | 0 <= i < |e| :: s[i] == e[i];
    RunIs(s, |prefix|, kind, |e| - 1 - |prefix|);
  }

  lemma NamedIs(e: Text, rest: Text)
    requires e == AMP_ENTITY || e == LT_ENTITY || e == GT_ENTITY || e == QUOT_ENTITY
    ensures EntityLength(e + rest) == |e|
  {
    var s := e + rest;
    assert s[..|e|] == e;
    assert s[1] == e[1] && s[2] == e[2];
    assert StartsWith(s, AMP_ENTITY) ==> s[..5][2] == 109;
    assert StartsWith(s, LT_ENTITY) || StartsWith(s, GT_ENTITY) ==> s[..4][1] != 113;
  }

  lemma ThirdUnitTells(s: Text)
    requires |s| >= 3 && s[2] != SMALL_X
    ensures !StartsWith(s, [AMP, HASH, SMALL_X])
  {
    assert s[..3][2] == s[2];
  }

  lemma EntityIs(e: Text, rest: Text)
    requires IsEntity(e)
    ensures e[0] == AMP && EntityLength(e + rest) == |e|
  {
    var s := e + rest;
    if IsNumeric(e, [AMP, HASH], DigitKind) {
      NumericIs(e, rest, [AMP, HASH], DigitKind);
      assert e[..2] == [AMP, HASH] && s[2] == e[2] && IsDigit(s[2]);
      assert s[1] == e[..2][1] == HASH && e[0] == e[..2][0];
      SecondUnitTells(s);
      ThirdUnitTells(s);
    } else if IsNumeric(e, [AMP, HASH, SMALL_X], HexKind) {
      NumericIs(e, rest, [AMP, HASH, SMALL_X], HexKind);
      assert s[1] == e[..3][1] == HASH && e[0] == e[..3][0];
      SecondUnitTells(s);
    } else {
      NamedIs(e, rest);
    }
  }

  lemma NumericWas(s: Text, prefix: Text, kind: Kind)
    requires StartsWith(s, prefix) && prefix != [] && NumericLength(s, |prefix|, kind) > 0
    ensures NumericLength(s, |prefix|, kind) <= |s| && IsNumeric(s[..NumericLength(s, |prefix|, kind)], prefix, kind)
  {
    var e := s[..NumericLength(s, |prefix|, kind)];
    assert e[..|prefix|] == s[..|prefix|];
  }

  lemma EntityWas(s: Text)
    requires EntityLength(s) > 0
    ensures EntityLength(s) <= |s| && IsEntity(s[..EntityLength(s)])
  {
    if !StartsWith(s, AMP_ENTITY) && !StartsWith(s, LT_ENTITY) && !StartsWith(s, GT_ENTITY) && !StartsWith(s, QUOT_ENTITY) {
      if StartsWith(s, [AMP, HASH, SMALL_X]) {
        NumericWas(s, [AMP, HASH, SMALL_X], HexKind);
      } else {
        NumericWas(s, [AMP, HASH], DigitKind);
      }
    }
  }

  lemma TagRuns(t: Text, s: Text, from: nat, k: nat, name: Text)
    requires |t| > from + 1 && |s| >= |t| && t[|t| - 1] == GT && (forall i | 0 <= i < |t| - 1 :: t[i] != GT)
    requires NameTo(t, from, k, name) && forall i | 0 <= i < |t| :: s[i] == t[i]
    ensures Run(s, from, InsideKind) == |t| - 1 - from && Run(s, from, NameKind) == k - from && Lower(s[from..k]) == name
  {
    RunIs(s, from, InsideKind, |t| - 1 - from);
    RunIs(s, from, NameKind, k - from);
    assert s[from..k] == t[from..k];
  }

  lemma TagTextIs(t: Text, rest: Text, closing: bool, name: Text)
    requires IsTagText(t, closing, name)
    ensures TagAt(t + rest, NameKind) == Some(Tag(closing, name, |t|))
  {
    var s, from: nat := t + rest, if closing then 2 else 1;
    var k: nat :| k < |t| && NameTo(t, from, k, name);
    assert forall i | 0 <= i < |t| :: s[i] == t[i];
    TagRuns(t, s, from, k, name);
    assert NameStart(s) == from;
    IsTag(s, NameKind);
  }

  lemma TagTextWas(s: Text)
    requires TagAt(s, NameKind).Some?
    ensures var tag := TagAt(s, NameKind).value; IsTagText(s[..tag.length], tag.closing, tag.name)
  {
    TagIs(s, NameKind);
    var tag, from := TagAt(s, NameKind).value, NameStart(s);
    var t := s[..tag.length];
    NameEndsInside(s, from, NameKind);
    var k := from + Run(s, from, NameKind);
    assert t[from..k] == s[from..k];
    assert NameTo(t, from, k, tag.name);
  }

  // ---- What is fine is accepted ----

  lemma TokenParses(token: Text, rest: Text, stack: seq<Text>)
    requires token != [] && TokenLength(token + rest) == |token| && TokenEffect(token + rest, stack).Some?
    ensures Parse(token + rest, stack) == Parse(rest, TokenEffect(token + rest, stack).value)
  {
    ParseToken(token + rest, stack);
    assert (token + rest)[|token|..] == rest;
  }

  lemma TagsParseOn(t: Text, rest: Text, closing: bool, name: Text, stack: seq<Text>)
    requires IsTagText(t, closing, name) && IsAllowed(name)
    ensures !closing ==> Parse(t + rest, stack) == Parse(rest, stack + [name])
    ensures closing ==> Parse(t + rest, stack + [name]) == Parse(rest, stack)
  {
    TagTextIs(t, rest, closing, name);
    assert (stack + [name])[..|stack|] == stack;
    TokenParses(t, rest, if closing then stack + [name] else stack);
  }

  lemma ElementWritten(name: Text, opener: Text, inner: Forest, closer: Text, rest: Text)
    ensures Written(Element(name, opener, inner, closer)) + rest == opener + (Spelled(inner) + (closer + rest))
  {
    FourParts(opener, Spelled(inner), closer, rest);
  }

  lemma FourParts(a: Text, b: Text, c: Text, d: Text)
    ensures a + b + c + d == a + (b + (c + d))
  {
  }

  lemma {:induction false} FineParses(f: Forest, rest: Text, stack: seq<Text>)
    requires AllFine(f)
    ensures Parse(Spelled(f) + rest, stack) == Parse(rest, stack)
    decreases f
  {
    match f
    case Nil => assert Spelled(f) + rest == rest;
    case Cons(head, tail) =>
      assert Spelled(f) + rest == Written(head) + (Spelled(tail) + rest);
      NodeParses(head, Spelled(tail) + rest, stack);
      FineParses(tail, rest, stack);
  }

  lemma {:induction false} NodeParses(n: Node, rest: Text, stack: seq<Text>)
    requires IsFine(n)
    ensures Parse(Written(n) + rest, stack) == Parse(rest, stack)
    decreases n
  {
    match n
    case Plain(_) => TokenParses(Written(n), rest, stack);
    case Entity(text) =>
      EntityIs(text, rest);
      TokenParses(text, rest, stack);
    case Element(name, opener, inner, closer) =>
      ElementWritten(name, opener, inner, closer, rest);
      TagsParseOn(opener, Spelled(inner) + (closer + rest), false, name, stack);
      FineParses(inner, closer + rest, stack + [name]);
      TagsParseOn(closer, rest, true, name, stack);
  }

  // ---- What is accepted is fine ----

  /** What is read up to the closer of the tag on top, or to the end when none is open. */
  predicate ReadTo(s: Text, stack: seq<Text>, f: Forest, closer: Text, rest: Text) {
    && AllFine(f) && s == Spelled(f) + (closer + rest)
    && if stack == [] then closer == [] && rest == []
       else IsTagText(closer, true, stack[|stack| - 1]) && Parse(rest, stack[..|stack| - 1]) == Some([])
  }

  lemma ReadOn(n: Node, s: Text, stack: seq<Text>, f: Forest, closer: Text, rest: Text)
    requires IsFine(n) && ReadTo(s, stack, f, closer, rest)
    ensures ReadTo(Written(n) + s, stack, Cons(n, f), closer, rest)
  {
  }

  lemma {:induction false} AcceptedIsFine(s: Text, stack: seq<Text>) returns (f: Forest, closer: Text, rest: Text)
    requires Parse(s, stack) == Some([])
    ensures ReadTo(s, stack, f, closer, rest)
    decreases |s|, 1
  {
    if s == [] {
      f, closer, rest := Nil, [], [];
    } else {
      ParseToken(s, stack);
      var n := TokenLength(s);
      var token, after := s[..n], s[n..];
      assert s == token + after;
      if s[0] == LT {
        f, closer, rest := AcceptedTag(s, stack);
      } else {
        var node := if s[0] == AMP then Entity(token) else Plain(s[0]);
        if s[0] == AMP {
          EntityWas(s);
        }
        f, closer, rest := AcceptedIsFine(after, stack);
        ReadOn(node, after, stack, f, closer, rest);
        f := Cons(node, f);
      }
    }
  }

  lemma {:induction false} AcceptedTag(s: Text, stack: seq<Text>) returns (f: Forest, closer: Text, rest: Text)
    requires s != [] && s[0] == LT && Parse(s, stack) == Some([])
    ensures ReadTo(s, stack, f, closer, rest)
    decreases |s|, 0
  {
    ParseToken(s, stack);
    var tag := TagAt(s, NameKind).value;
    var token, after := s[..tag.length], s[tag.length..];
    assert s == token + after;
    TagTextWas(s);
    if tag.closing {
      f, closer, rest := Nil, token, after;
      assert Spelled(f) + (closer + rest) == s;
    } else {
      f, closer, rest := AcceptedElement(token, tag.name, after, stack);
    }
  }

  lemma {:induction false} AcceptedElement(opener: Text, name: Text, after: Text, stack: seq<Text>) returns (f: Forest, closer: Text, rest: Text)
    requires IsTagText(opener, false, name) && IsAllowed(name) && Parse(after, stack + [name]) == Some([])
    ensures ReadTo(opener + after, stack, f, closer, rest)
    decreases |after|, 2
  {
    var inner, end, more := AcceptedIsFine(after, stack + [name]);
    OpenedReads(stack, name, after, inner, end, more);
    f, closer, rest := AcceptedIsFine(more, stack);
    var node := Element(name, opener, inner, end);
    ReadOn(node, more, stack, f, closer, rest);
    ElementWritten(name, opener, inner, end, more);
    f := Cons(node, f);
  }

  lemma OpenedReads(stack: seq<Text>, name: Text, after: Text, inner: Forest, end: Text, more: Text)
    requires ReadTo(after, stack + [name], inner, end, more)
    ensures IsTagText(end, true, name) && Parse(more, stack) == Some([]) && |more| < |after|
  {
    assert (stack + [name])[..|stack|] == stack;
  }

  /** A text is accepted if and only if it can be read as nested elements of allowed
      tags, entities and plain units. */
  lemma ValidExactly(s: Text)
    ensures Valid(s) <==> exists f :: AllFine(f) && Spelled(f) == s
  {
    if Valid(s) {
      var f, closer, rest := AcceptedIsFine(s, []);
      assert Spelled(f) + ([] + []) == Spelled(f);
    }
    if f :| AllFine(f) && Spelled(f) == s {
      FineParses(f, [], []);
      assert s + [] == s;
    }
  }

  /** The allowed names are the listed ones. */
  lemma {:induction false} AllowedIsListed(name: Text, n: nat) returns (k: nat)
    requires n <= |ALLOWED_HTML_TAGS| && AmongLast(name, n)
    ensures k < |ALLOWED_HTML_TAGS| && name == U(ALLOWED_HTML_TAGS[k])
  {
    k := |ALLOWED_HTML_TAGS| - n;
    if name != U(ALLOWED_HTML_TAGS[k]) {
      k := AllowedIsListed(name, n - 1);
    }
  }
}
