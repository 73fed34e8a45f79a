// src/bot/format.ts: escaping, and cutting messages to Telegram's limits.
module Format {
  import opened Wrappers
  import opened Utf16
  import opened Html

  const MESSAGE_LIMIT: nat := 4096
  const CUT_AT: nat := 4040
  const ENTITY_TAIL: nat := 12
  const ELLIPSIS: Unit := 0x2026

  /** Escapes the three significant characters, the ampersand first. */
  function Esc(s: Text): Text {
    ReplaceAll(ReplaceAll(ReplaceAll(s, [AMP], AMP_ENTITY), [LT], LT_ENTITY), [GT], GT_ENTITY)
  }

  /** Drops an entity that began in `cut` and did not end in it. */
  function DropHalfEntity(cut: Text): Text {
    var amp := LastIndex(cut, AMP);
    if amp > LastIndex(cut, SEMI) then cut[..amp] else cut
  }

  function DropHalfTag(cut: Text): Text {
    var lt := LastIndex(cut, LT);
    if lt > LastIndex(cut, GT) then cut[..lt] else cut
  }

  /** Trims an escaped fragment without splitting an entity. */
  function ClampEscaped(escaped: Text, max: nat): Text {
    if |escaped| <= max then escaped else DropHalfEntity(SafeSlice(escaped, max)) + [ELLIPSIS]
  }

  function Field(s: Text, max: nat): Text {
    ClampEscaped(Esc(s), max)
  }

  // ---- Tags left open ----

  /** The tags that openTags' pattern finds, pushed and popped; a closer that does
      not match the top is passed over. */
  function OpenTagsFrom(s: Text, stack: seq<Text>): seq<Text>
    decreases |s|
  {
    if s == [] then stack
    else
      var tag := TagAt(s, OpenNameKind);
      if tag.None? then OpenTagsFrom(s[1..], stack)
      else OpenTagsFrom(s[tag.value.length..], Pushed(stack, tag.value))
  }

  function Pushed(stack: seq<Text>, tag: Tag): seq<Text> {
    if !tag.closing then stack + [tag.name]
    else if stack != [] && stack[|stack| - 1] == tag.name then stack[..|stack| - 1]
    else stack
  }

  function Closer(name: Text): Text {
    [LT, SLASH] + name + [GT]
  }

  function Closers(stack: seq<Text>): Text {
    if stack == [] then [] else Closer(stack[|stack| - 1]) + Closers(stack[..|stack| - 1])
  }

  function CloseOpenTags(s: Text): Text {
    s + Closers(OpenTagsFrom(s, []))
  }

  /** An entity half cut off at the end is dropped only if no more than twelve units
      of it are there. */
  function DropShortHalfEntity(cut: Text): Text {
    var amp := LastIndex(cut, AMP);
    if amp > LastIndex(cut, SEMI) && |cut| - amp <= ENTITY_TAIL then cut[..amp] else cut
  }

  function ClampMessage(s: Text): Text {
    if |s| <= MESSAGE_LIMIT then s
    else CloseOpenTags(DropShortHalfEntity(DropHalfTag(SafeSlice(s, CUT_AT))) + [ELLIPSIS])
  }

  // ---- Chunks ----

  /** The head chunkMessage takes off a text that is too long. */
  function ChunkHead(rest: Text): (head: Text)
    requires |rest| > MESSAGE_LIMIT
    ensures 0 < |head| <= MESSAGE_LIMIT && head == rest[..|head|]
  {
    var head := DropHalfEntity(DropHalfTag(SafeSlice(rest, MESSAGE_LIMIT)));
    if head == [] then SafeSlice(rest, MESSAGE_LIMIT) else head
  }

  function Chunks(rest: Text): seq<Text>
    decreases |rest|
  {
    if |rest| <= MESSAGE_LIMIT then [rest] else [ChunkHead(rest)] + Chunks(rest[|ChunkHead(rest)|..])
  }

  function Concat(parts: seq<Text>): Text {
    if parts == [] then [] else parts[0] + Concat(parts[1..])
  }

  // ---- The code's loops ----

  /** One turn of openTags' search. */
  lemma OpenTagsOn(s: Text, i: nat, stack: seq<Text>)
    requires i < |s|
    ensures var tag := TagAt(s[i..], OpenNameKind);
            OpenTagsFrom(s[i..], stack) ==
              if tag.None? then OpenTagsFrom(s[i + 1..], stack) else OpenTagsFrom(s[i + tag.value.length..], Pushed(stack, tag.value))
  {
    var tag := TagAt(s[i..], OpenNameKind);
    assert s[i..][1..] == s[i + 1..];
    if tag.Some? {
      assert s[i..][tag.value.length..] == s[i + tag.value.length..];
    }
  }

  /** One match of the pattern, or one unit that starts none. */
  method NextTag(html: Text, i: nat, stack: seq<Text>) returns (next: nat, after: seq<Text>)
    requires i < |html|
    ensures i < next <= |html| && OpenTagsFrom(html[i..], stack) == OpenTagsFrom(html[next..], after)
  {
    OpenTagsOn(html, i, stack);
    var tag := TagAt(html[i..], OpenNameKind);
    if tag.None? {
      next, after := i + 1, stack;
    } else {
      next, after := i + tag.value.length, Pushed(stack, tag.value);
    }
  }

  method OpenTags(html: Text) returns (stack: seq<Text>)
    ensures stack == OpenTagsFrom(html, [])
  {
    stack := [];
    var i := 0;
    while i < |html|
      invariant 0 <= i <= |html|
      invariant OpenTagsFrom(html, []) == OpenTagsFrom(html[i..], stack)
    {
      i, stack := NextTag(html, i, stack);
    }
  }

  lemma OneCloser(out: Text, stack: seq<Text>, i: nat)
    requires i < |stack|
    ensures out + Closers(stack[..i + 1]) == (out + Closer(stack[i])) + Closers(stack[..i])
  {
    assert stack[..i + 1][..i] == stack[..i];
  }

  method AppendClosers(html: Text) returns (out: Text)
    ensures out == CloseOpenTags(html)
  {
    var stack := OpenTags(html);
    out := html;
    var i := |stack|;
    assert stack[..i] == stack;
    while i > 0
      invariant 0 <= i <= |stack|
      invariant out + Closers(stack[..i]) == html + Closers(stack)
    {
      i := i - 1;
      OneCloser(out, stack, i);
      out := out + Closer(stack[i]);
    }
    assert out + Closers([]) == out;
  }

  method Clamp(text: Text) returns (out: Text)
    ensures out == ClampMessage(text)
  {
    if |text| <= MESSAGE_LIMIT {
      return text;
    }
    var cut := SafeSlice(text, CUT_AT);
    var lt := LastIndex(cut, LT);
    if lt > LastIndex(cut, GT) {
      cut := cut[..lt];
    }
    var amp := LastIndex(cut, AMP);
    if amp > LastIndex(cut, SEMI) && |cut| - amp <= ENTITY_TAIL {
      cut := cut[..amp];
    }
    out := AppendClosers(cut + [ELLIPSIS]);
  }

  /** The head as the loop of chunkMessage cuts it. */
  method CutHead(rest: Text) returns (head: Text)
    requires |rest| > MESSAGE_LIMIT
    ensures head == ChunkHead(rest)
  {
    head := SafeSlice(rest, MESSAGE_LIMIT);
    var lt := LastIndex(head, LT);
    if lt > LastIndex(head, GT) {
      head := head[..lt];
    }
    var amp := LastIndex(head, AMP);
    if amp > LastIndex(head, SEMI) {
      head := head[..amp];
    }
    if |head| == 0 {
      head := SafeSlice(rest, MESSAGE_LIMIT);
    }
  }

  lemma ChunksOn(parts: seq<Text>, rest: Text)
    requires |rest| > MESSAGE_LIMIT
    ensures parts + Chunks(rest) == (parts + [ChunkHead(rest)]) + Chunks(rest[|ChunkHead(rest)|..])
  {
  }

  lemma ChunksEnd(rest: Text)
    requires |rest| <= MESSAGE_LIMIT
    ensures Chunks(rest) == [rest]
  {
  }

  /** One turn of chunkMessage's loop. */
  method TakeHead(parts: seq<Text>, rest: Text) returns (parts': seq<Text>, rest': Text)
    requires |rest| > MESSAGE_LIMIT
    ensures |rest'| < |rest| && parts' + Chunks(rest') == parts + Chunks(rest)
  {
    ChunksOn(parts, rest);
    var head := CutHead(rest);
    parts' := parts + [head];
    rest' := rest[|head|..];
  }

  method ChunkMessage(text: Text) returns (parts: seq<Text>)
    ensures parts == Chunks(text)
  {
    parts := [];
    var rest := text;
    while |rest| > MESSAGE_LIMIT
      invariant parts + Chunks(rest) == Chunks(text)
      decreases |rest|
    {
      parts, rest := TakeHead(parts, rest);
    }
    ChunksEnd(rest);
    parts := parts + [rest];
  }
}
