// scripts/harness.ts: the validator that stands for Telegram's HTML parser, and the
// decoder that reads a message as its recipient sees it.
module Html {
  import opened Wrappers
  import opened Utf16

  const AMP: Unit := 38
  const LT: Unit := 60
  const GT: Unit := 62
  const SEMI: Unit := 59
  const HASH: Unit := 35
  const SLASH: Unit := 47
  const DASH: Unit := 45
  const SMALL_X: Unit := 120
  const QUOTE: Unit := 34

  const AMP_ENTITY: Text := [38, 97, 109, 112, 59]
  const LT_ENTITY: Text := [38, 108, 116, 59]
  const GT_ENTITY: Text := [38, 103, 116, 59]
  const QUOT_ENTITY: Text := [38, 113, 117, 111, 116, 59]

  predicate IsDigit(u: Unit) {
    48 <= u <= 57
  }

  predicate IsHexDigit(u: Unit) {
    IsDigit(u) || 65 <= u <= 70 || 97 <= u <= 102
  }

  predicate IsLetter(u: Unit) {
    65 <= u <= 90 || 97 <= u <= 122
  }

  /** A unit the validator's tag name may go on with. */
  predicate IsNameUnit(u: Unit) {
    IsLetter(u) || u == DASH
  }

  function LowerUnit(u: Unit): Unit {
    if 65 <= u <= 90 then u + 32 else u
  }

  function Lower(s: Text): (r: Text)
    ensures |r| == |s| && forall i | 0 <= i < |r| :: r[i] == LowerUnit(s[i])
  {
    seq(|s|, i requires 0 <= i < |s| => LowerUnit(s[i]))
  }

  const ALLOWED_HTML_TAGS: seq<string> := [
    "b", "strong", "i", "em", "u", "ins", "s", "strike", "del", "code", "pre", "a", "blockquote", "tg-spoiler", "span"]

  /** The name is one of the last `n` of them. */
  predicate AmongLast(name: Text, n: nat)
    requires n <= |ALLOWED_HTML_TAGS|
  {
    n > 0 && (name == U(ALLOWED_HTML_TAGS[|ALLOWED_HTML_TAGS| - n]) || AmongLast(name, n - 1))
  }

  predicate IsAllowed(name: Text) {
    AmongLast(name, |ALLOWED_HTML_TAGS|)
  }

  // ---- Runs ----

  datatype Kind = DigitKind | HexKind | NameKind | OpenNameKind | InsideKind

  predicate OfKind(u: Unit, kind: Kind) {
    match kind
    case DigitKind => IsDigit(u)
    case HexKind => IsHexDigit(u)
    case NameKind => IsNameUnit(u)
    case OpenNameKind => IsNameUnit(u) || IsDigit(u)
    case InsideKind => u != GT
  }

  /** How many units from `from` on are of the kind, as a greedy class matches. */
  function Run(s: Text, from: nat, kind: Kind): (n: nat)
    requires from <= |s|
    ensures from + n <= |s|
    ensures forall i | from <= i < from + n :: OfKind(s[i], kind)
    ensures from + n < |s| ==> !OfKind(s[from + n], kind)
    decreases |s| - from
  {
    if from < |s| && OfKind(s[from], kind) then 1 + Run(s, from + 1, kind) else 0
  }

  /** The length of a numeric entity: `prefix` units, a run of digits, and a ';'. */
  function NumericLength(s: Text, prefix: nat, kind: Kind): nat {
    if prefix <= |s| && Run(s, prefix, kind) > 0 && prefix + Run(s, prefix, kind) < |s| && s[prefix + Run(s, prefix, kind)] == SEMI
    then prefix + Run(s, prefix, kind) + 1 else 0
  }

  /** The length of the entity `s` begins with, or 0. */
  function EntityLength(s: Text): nat {
    if StartsWith(s, AMP_ENTITY) then 5
    else if StartsWith(s, LT_ENTITY) || StartsWith(s, GT_ENTITY) then 4
    else if StartsWith(s, QUOT_ENTITY) then 6
    else if StartsWith(s, [AMP, HASH, SMALL_X]) then NumericLength(s, 3, HexKind)
    else if StartsWith(s, [AMP, HASH]) then NumericLength(s, 2, DigitKind)
    else 0
  }

  /** A tag at the front: whether it closes, its name as written, its length. */
  datatype Tag = Tag(closing: bool, name: Text, length: nat)

  /** A tag whose name goes on with units of `kind`. */
  function TagAt(s: Text, kind: Kind): (r: Option<Tag>)
    ensures r.Some? ==> 0 < r.value.length <= |s| && s[0] == LT && s[r.value.length - 1] == GT
  {
    if s == [] || s[0] != LT then None
    else
      var start := if 1 < |s| && s[1] == SLASH then 2 else 1;
      if start >= |s| || !IsLetter(s[start]) then None
      else
        var inside := Run(s, start, InsideKind);
        if start + inside >= |s| then None
        else Some(Tag(start == 2, Lower(s[start..start + Run(s, start, kind)]), start + inside + 1))
  }

  // ---- The validator ----

  /** The stack of open tags after the first token, which must be a unit that means
      itself, a whole entity, or an allowed tag that fits. */
  function TokenLength(s: Text): (n: nat)
    requires s != []
    ensures n <= |s|
  {
    if s[0] == AMP then EntityLength(s)
    else if s[0] == GT then 0
    else if s[0] == LT then (var tag := TagAt(s, NameKind); if tag.Some? && IsAllowed(tag.value.name) then tag.value.length else 0)
    else 1
  }

  function TokenEffect(s: Text, stack: seq<Text>): Option<seq<Text>>
    requires s != []
  {
    if s[0] != LT then Some(stack)
    else
      var tag := TagAt(s, NameKind);
      if tag.None? then None
      else if !tag.value.closing then Some(stack + [tag.value.name])
      else if stack != [] && stack[|stack| - 1] == tag.value.name then Some(stack[..|stack| - 1])
      else None
  }

  /** What stays open at the end of `s`, if everything in it is well formed. */
  function Parse(s: Text, stack: seq<Text>): Option<seq<Text>>
    decreases |s|
  {
    if s == [] then Some(stack)
    else
      var n := TokenLength(s);
      if n == 0 || TokenEffect(s, stack).None? then None
      else Parse(s[n..], TokenEffect(s, stack).value)
  }

  predicate Valid(s: Text) {
    Parse(s, []) == Some([])
  }

  /** One token on. */
  lemma ParseOn(s: Text, stack: seq<Text>, n: nat, after: Option<seq<Text>>)
    requires s != [] && n == TokenLength(s) && after == if n == 0 then None else TokenEffect(s, stack)
    ensures after.None? ==> Parse(s, stack) == None
    ensures after.Some? ==> 0 < n <= |s| && Parse(s, stack) == Parse(s[n..], after.value)
  {
  }

  /** One turn of the validator's loop at the front of `s`: how far it goes on, and
      the stack it leaves; None where it throws. */
  method TakeToken(s: Text, stack: seq<Text>) returns (length: nat, after: Option<seq<Text>>)
    requires s != []
    ensures length == TokenLength(s)
    ensures after == if length == 0 then None else TokenEffect(s, stack)
  {
    if s[0] == AMP {
      length := EntityLength(s);
      after := if length == 0 then None else Some(stack);
    } else if s[0] == GT {
      length, after := 0, None;
    } else if s[0] == LT {
      var tag := TagAt(s, NameKind);
      if tag.None? || !IsAllowed(tag.value.name) {
        return 0, None;
      }
      length := tag.value.length;
      if tag.value.closing {
        if stack == [] || stack[|stack| - 1] != tag.value.name {
          return length, None;
        }
        after := Some(stack[..|stack| - 1]);
      } else {
        after := Some(stack + [tag.value.name]);
      }
    } else {
      length, after := 1, Some(stack);
    }
  }

  method TakeNext(s: Text, stack: seq<Text>) returns (length: nat, after: Option<seq<Text>>)
    requires s != []
    ensures after.None? ==> Parse(s, stack) == None
    ensures after.Some? ==> 0 < length <= |s| && Parse(s, stack) == Parse(s[length..], after.value)
  {
    length, after := TakeToken(s, stack);
    ParseOn(s, stack, length, after);
  }

  method AssertValidHtml(s: Text) returns (accepted: bool)
    ensures accepted <==> Valid(s)
  {
    var stack: seq<Text> := [];
    var rest := s;
    while rest != []
      invariant Parse(s, []) == Parse(rest, stack)
      decreases |rest|
    {
      var length, after := TakeNext(rest, stack);
      if after.None? {
        return false;
      }
      rest, stack := rest[length..], after.value;
    }
    accepted := stack == [];
  }

  // ---- The decoder ----

  /** Every leftmost, non-overlapping occurrence replaced. */
  function ReplaceAll(s: Text, what: Text, put: Text): Text
    requires what != []
    decreases |s|
  {
    if s == [] then []
    else if StartsWith(s, what) then put + ReplaceAll(s[|what|..], what, put)
    else [s[0]] + ReplaceAll(s[1..], what, put)
  }

  function StripTags(s: Text): Text
    decreases |s|
  {
    if s == [] then []
    else
      var inside := Run(s, 1, InsideKind);
      if s[0] == LT && inside > 0 && 1 + inside < |s| then StripTags(s[inside + 2..]) else [s[0]] + StripTags(s[1..])
  }

  function DigitsValue(s: Text): nat
    requires forall i | 0 <= i < |s| :: IsDigit(s[i])
  {
    if s == [] then 0
    else
      assert IsDigit(s[|s| - 1]);
      10 * DigitsValue(s[..|s| - 1]) + (s[|s| - 1] as int - 48)
  }

  /** String.fromCodePoint, which throws beyond the last code point. */
  function FromCodePoint(n: nat): Option<Text> {
    if n < 0x1_0000 then Some([n as Unit])
    else if n < 0x11_0000 then
      var high, low := (n - 0x1_0000) / 0x400, (n - 0x1_0000) % 0x400;
      assert high < 0x400;
      Some([(0xD800 + high) as Unit, (0xDC00 + low) as Unit])
    else None
  }

  function DecodeNumeric(s: Text): Option<Text>
    decreases |s|
  {
    if s == [] then Some([])
    else
      var n := if StartsWith(s, [AMP, HASH]) then NumericLength(s, 2, DigitKind) else 0;
      var rest := DecodeNumeric(if n > 0 then s[n..] else s[1..]);
      var here := if n > 0 then FromCodePoint(DigitsValue(s[2..n - 1])) else Some([s[0]]);
      if rest.None? || here.None? then None else Some(here.value + rest.value)
  }

  /** htmlToPlain: tags stripped, entities decoded, the ampersand last. */
  function HtmlToPlain(s: Text): Option<Text> {
    var named := ReplaceAll(ReplaceAll(ReplaceAll(StripTags(s), LT_ENTITY, [LT]), GT_ENTITY, [GT]), QUOT_ENTITY, [QUOTE]);
    var numeric := DecodeNumeric(named);
    if numeric.None? then None else Some(ReplaceAll(numeric.value, AMP_ENTITY, [AMP]))
  }
}
