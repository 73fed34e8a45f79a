// src/bot/format.ts: messages composed of escaped texts, bounded fields and the
// structural tags put around them.
module Composing {
  import opened Wrappers
  import opened Utf16
  import opened Html
  import opened HtmlGrammar
  import opened Format
  import opened FormatLaws
  import opened ClampLaws

  datatype Wrap = Bold | Code | Expandable

  datatype Message =
    | Said(text: Text)
    | Bounded(text: Text, max: nat)
    | Wrapped(wrap: Wrap, inner: Message)
    | Joined(first: Message, second: Message)

  /** b, code and blockquote. */
  function Name(w: Wrap): Text {
    match w
    case Bold => [98]
    case Code => [99, 111, 100, 101]
    case Expandable => [98, 108, 111, 99, 107, 113, 117, 111, 116, 101]
  }

  /** " expandable", where it is asked for. */
  function Extra(w: Wrap): Text {
    if w == Expandable then [32, 101, 120, 112, 97, 110, 100, 97, 98, 108, 101] else []
  }

  function OpeningTag(name: Text, extra: Text): Text {
    [LT] + name + extra + [GT]
  }

  function Opener(w: Wrap): Text {
    OpeningTag(Name(w), Extra(w))
  }

  function Render(m: Message): Text {
    match m
    case Said(text) => Esc(text)
    case Bounded(text, max) => Field(text, max)
    case Wrapped(w, inner) => Opener(w) + Render(inner) + Closer(Name(w))
    case Joined(first, second) => Render(first) + Render(second)
  }

  /** The words of a message. */
  function Words(m: Message): Text {
    match m
    case Said(text) => text
    case Bounded(text, _) => text
    case Wrapped(_, inner) => Words(inner)
    case Joined(first, second) => Words(first) + Words(second)
  }

  predicate Unbounded(m: Message) {
    match m
    case Said(_) => true
    case Bounded(_, _) => false
    case Wrapped(_, inner) => Unbounded(inner)
    case Joined(first, second) => Unbounded(first) && Unbounded(second)
  }

  /** `c` is `m` with each field cut to its budget. */
  predicate Cut(m: Message, c: Message) {
    match m
    case Said(_) => c == m
    case Bounded(text, max) =>
      c.Said? && if |Esc(text)| <= max then c.text == text else exists k :: 0 <= k <= |text| && CutTo(text, max, k, c.text)
    case Wrapped(w, inner) => c.Wrapped? && c.wrap == w && Cut(inner, c.inner)
    case Joined(first, second) => c.Joined? && Cut(first, c.first) && Cut(second, c.second)
  }

  /** A beginning that takes up the budget but for at most five units, and an ellipsis. */
  predicate CutTo(text: Text, max: nat, k: nat, shown: Text)
    requires k <= |text|
  {
    shown == text[..k] + [ELLIPSIS] && max - 5 <= |Esc(text[..k])| <= max
  }

  lemma FieldIsCut(text: Text, max: nat) returns (shown: Text)
    ensures Field(text, max) == Esc(shown) && Cut(Bounded(text, max), Said(shown))
  {
    var k := FieldIsAPrefix(text, max);
    if |Esc(text)| <= max {
      shown := text;
    } else {
      shown := text[..k] + [ELLIPSIS];
      EscConcat(text[..k], [ELLIPSIS]);
      EllipsisStays();
      assert CutTo(text, max, k, shown);
    }
  }

  lemma {:induction false} MessageIsCut(m: Message) returns (c: Message)
    ensures Cut(m, c) && Unbounded(c) && Render(c) == Render(m)
  {
    match m
    case Said(_) => c := m;
    case Bounded(text, max) =>
      var shown := FieldIsCut(text, max);
      c := Said(shown);
    case Wrapped(w, inner) =>
      var d := MessageIsCut(inner);
      c := Wrapped(w, d);
    case Joined(first, second) =>
      var d := MessageIsCut(first);
      var e := MessageIsCut(second);
      c := Joined(d, e);
  }

  // ---- The tags ----

  predicate IsName(name: Text) {
    name != [] && forall i | 0 <= i < |name| :: 97 <= name[i] <= 122
  }

  /** What may follow a name before the tag ends. */
  predicate IsExtra(extra: Text) {
    (extra == [] || !IsNameUnit(extra[0])) && forall i | 0 <= i < |extra| :: extra[i] != GT
  }

  lemma NameIs(w: Wrap)
    ensures IsName(Name(w)) && IsExtra(Extra(w))
  {
  }

  lemma SpelledOut(name: Text, k: nat)
    requires k < |ALLOWED_HTML_TAGS| && |name| == |ALLOWED_HTML_TAGS[k]|
    requires forall i | 0 <= i < |name| :: ALLOWED_HTML_TAGS[k][i] as int == name[i] as int
    ensures IsAllowed(name)
  {
    assert name == U(ALLOWED_HTML_TAGS[k]);
    assert AmongLast(name, |ALLOWED_HTML_TAGS| - k);
    AmongMore(name, |ALLOWED_HTML_TAGS| - k, |ALLOWED_HTML_TAGS|);
  }

  lemma NameIsAllowed(w: Wrap)
    ensures IsAllowed(Name(w))
  {
    match w
    case Bold => SpelledOut(Name(w), 0);
    case Code => SpelledOut(Name(w), 9);
    case Expandable => SpelledOut(Name(w), 12);
  }

  lemma OpenerIsTagText(name: Text, extra: Text)
    requires IsName(name) && IsExtra(extra)
    ensures IsTagText(OpeningTag(name, extra), false, name)
  {
    var t, k := OpeningTag(name, extra), 1 + |name|;
    assert t[1..k] == name && Lower(name) == name;
    assert forall i | k <= i < k + |extra| :: t[i] == extra[i - k];
    assert NameTo(t, 1, k, name);
  }

  lemma CloserIsTagText(name: Text)
    requires IsName(name)
    ensures IsTagText(Closer(name), true, name)
  {
    var t, k := Closer(name), 2 + |name|;
    assert t[2..k] == name && Lower(name) == name;
    assert NameTo(t, 2, k, name);
  }

  lemma TagsParse(w: Wrap, rest: Text, stack: seq<Text>)
    ensures Parse(Opener(w) + rest, stack) == Parse(rest, stack + [Name(w)])
    ensures Parse(Closer(Name(w)) + rest, stack + [Name(w)]) == Parse(rest, stack)
  {
    NameIs(w);
    NameIsAllowed(w);
    OpenerIsTagText(Name(w), Extra(w));
    TagsParseOn(Opener(w), rest, false, Name(w), stack);
    CloserIsTagText(Name(w));
    TagsParseOn(Closer(Name(w)), rest, true, Name(w), stack);
  }

  /** A tag is stripped from the front. */
  lemma TagIsStripped(tag: Text, rest: Text)
    requires |tag| > 2 && tag[0] == LT && tag[|tag| - 1] == GT && forall i | 0 < i < |tag| - 1 :: tag[i] != GT
    ensures StripTags(tag + rest) == StripTags(rest)
  {
    var s := tag + rest;
    assert forall i | 0 <= i < |tag| :: s[i] == tag[i];
    RunIs(s, 1, InsideKind, |tag| - 2);
    assert s[|tag|..] == rest;
  }

  lemma TagsAreStripped(w: Wrap, rest: Text)
    ensures StripTags(Opener(w) + rest) == StripTags(rest) == StripTags(Closer(Name(w)) + rest)
  {
    NameIs(w);
    TagIsStripped(Opener(w), rest);
    TagIsStripped(Closer(Name(w)), rest);
  }

  lemma PlainUnitIsKept(u: Unit, rest: Text)
    requires u != LT
    ensures StripTags([u] + rest) == [u] + StripTags(rest)
  {
    assert ([u] + rest)[1..] == rest;
  }

  lemma FirstApart(s: Text, rest: Text)
    requires s != []
    ensures s + rest == [s[0]] + (s[1..] + rest)
  {
  }

  lemma {:induction false} PlainIsKept(s: Text, rest: Text)
    requires forall i | 0 <= i < |s| :: s[i] != LT
    ensures StripTags(s + rest) == s + StripTags(rest)
  {
    if s == [] {
      assert s + rest == rest;
    } else {
      PlainIsKept(s[1..], rest);
      PlainUnitIsKept(s[0], s[1..] + rest);
      FirstApart(s, rest);
      FirstApart(s, StripTags(rest));
    }
  }

  // ---- The message ----

  lemma {:induction false} EscParsesOn(s: Text, rest: Text, stack: seq<Text>)
    ensures Parse(EscText(s) + rest, stack) == Parse(rest, stack)
  {
    if s == [] {
      assert EscText(s) + rest == rest;
    } else {
      EscParsesOn(s[1..], rest, stack);
      EntityIsToken(s[0], EscText(s[1..]) + rest, stack);
      Assoc(Enc(false, false, s[0]), EscText(s[1..]), rest);
    }
  }

  lemma WrappedAssoc(w: Wrap, inner: Message, rest: Text)
    ensures Render(Wrapped(w, inner)) + rest == Opener(w) + (Render(inner) + (Closer(Name(w)) + rest))
  {
  }

  lemma {:induction false} CutParses(c: Message, rest: Text, stack: seq<Text>)
    requires Unbounded(c)
    ensures Parse(Render(c) + rest, stack) == Parse(rest, stack)
    decreases c
  {
    match c
    case Said(text) =>
      EscIsUnitwise(text);
      EscParsesOn(text, rest, stack);
    case Wrapped(w, inner) =>
      WrappedAssoc(w, inner, rest);
      TagsParse(w, Render(inner) + (Closer(Name(w)) + rest), stack);
      CutParses(inner, Closer(Name(w)) + rest, stack + [Name(w)]);
      TagsParse(w, rest, stack);
    case Joined(first, second) =>
      Assoc(Render(first), Render(second), rest);
      CutParses(first, Render(second) + rest, stack);
      CutParses(second, rest, stack);
  }

  lemma {:induction false} CutStrips(c: Message, rest: Text)
    requires Unbounded(c)
    ensures StripTags(Render(c) + rest) == EscText(Words(c)) + StripTags(rest)
    decreases c
  {
    match c
    case Said(text) =>
      EscIsUnitwise(text);
      EscHasNoTags(text);
      PlainIsKept(EscText(text), rest);
    case Wrapped(w, inner) =>
      WrappedAssoc(w, inner, rest);
      TagsAreStripped(w, Render(inner) + (Closer(Name(w)) + rest));
      CutStrips(inner, Closer(Name(w)) + rest);
      TagsAreStripped(w, rest);
    case Joined(first, second) =>
      Assoc(Render(first), Render(second), rest);
      CutStrips(first, Render(second) + rest);
      CutStrips(second, rest);
      EncConcat(false, false, Words(first), Words(second));
      Assoc(EscText(Words(first)), EscText(Words(second)), StripTags(rest));
  }

  /** Every composed message is valid HTML, and its recipient reads its words, with
      each field cut to its budget, whatever anybody wrote in them. */
  lemma ComposedReadsBack(m: Message) returns (c: Message)
    ensures Valid(Render(m))
    ensures Cut(m, c) && HtmlToPlain(Render(m)) == Some(Words(c))
  {
    c := MessageIsCut(m);
    assert Render(c) + [] == Render(c);
    CutParses(c, [], []);
    CutStrips(c, []);
    StrippedIsEscaped(Render(c), Words(c));
  }

  lemma StrippedIsEscaped(html: Text, words: Text)
    requires StripTags(html) == EscText(words) + StripTags([])
    ensures HtmlToPlain(html) == Some(words)
  {
    EscReadsBack(words);
    EscIsUnitwise(words);
    EscHasNoTags(words);
    NothingToStrip(EscText(words));
    assert EscText(words) + [] == EscText(words);
  }

  /** What a message can come to: its budgets, and the texts that have none. */
  function Budget(m: Message): nat {
    match m
    case Said(text) => |Esc(text)|
    case Bounded(_, max) => max + 1
    case Wrapped(w, inner) => |Opener(w)| + Budget(inner) + |Closer(Name(w))|
    case Joined(first, second) => Budget(first) + Budget(second)
  }

  lemma {:induction false} ComposedFits(m: Message)
    ensures |Render(m)| <= Budget(m)
  {
    match m
    case Said(_) =>
    case Bounded(text, max) => var _ := FieldIsAPrefix(text, max);
    case Wrapped(_, inner) => ComposedFits(inner);
    case Joined(first, second) =>
      ComposedFits(first);
      ComposedFits(second);
  }

  /** So a message whose budgets fit a message is sent as it was composed. */
  lemma ComposedIsNotCut(m: Message)
    requires Budget(m) <= MESSAGE_LIMIT
    ensures ClampMessage(Render(m)) == Render(m) && Chunks(Render(m)) == [Render(m)]
  {
    ComposedFits(m);
  }
}
