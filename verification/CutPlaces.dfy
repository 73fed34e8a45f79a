// Where clampMessage and chunkMessage cut, said by the marks in the text, and what
// the result contains.
module CutPlaces {
  import opened Wrappers
  import opened Utf16
  import opened Html
  import opened Format

  /** The most of `s` that is no longer than `max` and leaves no high surrogate at its
      end without its other half. */
  function CutAt(s: Text, max: nat): nat
    requires 0 < max < |s|
  {
    if IsHigh(s[max - 1]) then max - 1 else max
  }

  /** `i` is the last place of `mark` in the first `n` units, with no `end` after it. */
  predicate TornAt(s: Text, n: nat, mark: Unit, end: Unit, i: nat)
    requires n <= |s|
  {
    i < n && s[i] == mark && forall j | i < j < n :: s[j] != mark && s[j] != end
  }

  /** Every such mark is followed by its end. */
  predicate AllEnded(s: Text, n: nat, mark: Unit, end: Unit)
    requires n <= |s|
  {
    forall i | 0 <= i < n && s[i] == mark :: exists j :: i < j < n && s[j] == end
  }

  /** Either the last mark is torn, or every mark is ended. */
  lemma MarkEndsOrNot(s: Text, n: nat, mark: Unit, end: Unit)
    requires n <= |s| && mark != end
    ensures var k := LastIndex(s[..n], mark);
            if k > LastIndex(s[..n], end) then 0 <= k < n && TornAt(s, n, mark, end, k) else AllEnded(s, n, mark, end)
  {
    var cut := s[..n];
    var k, e := LastIndex(cut, mark), LastIndex(cut, end);
    assert forall i | 0 <= i < n :: s[i] == cut[i];
    if k <= e {
      forall i | 0 <= i < n && s[i] == mark ensures exists j :: i < j < n && s[j] == end {
        assert cut[i] == mark && i <= k;
        assert i < e < n && s[e] == end;
      }
    }
  }

  // ---- The clamp ----

  /** A text that fits is left alone. */
  lemma ShortIsKept(s: Text)
    requires |s| <= 4096
    ensures ClampMessage(s) == s
  {
  }

  /** Where a tag is torn by the cut at `n`, that is where the text ends; else at `n`. */
  predicate EndsAtTag(s: Text, n: nat, m: nat)
    requires n <= |s|
  {
    m <= n && if m < n then TornAt(s, n, LT, GT, m) else AllEnded(s, n, LT, GT)
  }

  /** Where an entity is torn at `n` with no more than twelve units of it there, that
      is where the text ends; else at `n`. */
  predicate EndsAtEntity(s: Text, n: nat, m: nat, most: nat)
    requires n <= |s|
  {
    && m <= n
    && if m < n then TornAt(s, n, AMP, SEMI, m) && n - m <= most
       else AllEnded(s, n, AMP, SEMI) || exists i :: 0 <= i < n && TornAt(s, n, AMP, SEMI, i) && n - i > most
  }

  lemma DropTagEnds(s: Text, n: nat)
    requires n <= |s|
    ensures var r := DropHalfTag(s[..n]); r == s[..|r|] && EndsAtTag(s, n, |r|)
  {
    MarkEndsOrNot(s, n, LT, GT);
  }

  lemma DropShortEntityEnds(s: Text, n: nat)
    requires n <= |s|
    ensures var r := DropShortHalfEntity(s[..n]); r == s[..|r|] && EndsAtEntity(s, n, |r|, 12)
  {
    MarkEndsOrNot(s, n, AMP, SEMI);
  }

  /** A longer one is cut at 4040, or at 4039 where that would tear a surrogate pair;
      then at the tag torn there; then at the entity torn there, if no more than twelve
      units of it are left; and an ellipsis and closers follow. */
  lemma LongIsCut(s: Text) returns (m: nat, k: nat, open: seq<Text>)
    requires |s| > 4096
    ensures m <= |s| && EndsAtTag(s, CutAt(s, 4040), m) && EndsAtEntity(s, m, k, 12)
    ensures ClampMessage(s) == s[..k] + [ELLIPSIS] + Closers(open)
  {
    var n := CutAt(s, 4040);
    DropTagEnds(s, n);
    var cut := DropHalfTag(s[..n]);
    m := |cut|;
    DropShortEntityEnds(s, m);
    k := |DropShortHalfEntity(cut)|;
    open := OpenTagsFrom(s[..k] + [ELLIPSIS], []);
  }

  /** Closers are closing tags, one for each name, the last opened first. */
  lemma {:induction false} ClosersAre(names: seq<Text>, i: nat)
    requires i < |names|
    ensures Closers(names) == Closers(names[i..]) + Closers(names[..i])
    ensures names[i..] == [names[i]] ==> Closers(names[i..]) == [LT, SLASH] + names[i] + [GT]
    decreases |names|
  {
    var n := |names| - 1;
    if i == n {
      assert names[i..] == [names[i]] && names[i..][..0] == [];
      assert Closers([]) == [];
      assert Closers(names[i..]) == Closer(names[i]) + [];
    } else {
      ClosersAre(names[..n], i);
      assert names[..n][i..] == names[i..][..n - i] && names[..n][..i] == names[..i];
      assert names[i..][|names[i..]| - 1] == names[n];
    }
  }

  // ---- The parts of a chunked text ----

  lemma DropEntityEnds(s: Text, n: nat)
    requires n <= |s|
    ensures var r := DropHalfEntity(s[..n]);
            r == s[..|r|] && if |r| < n then TornAt(s, n, AMP, SEMI, |r|) else AllEnded(s, n, AMP, SEMI)
  {
    MarkEndsOrNot(s, n, AMP, SEMI);
  }

  /** A part ends at 4096, or at 4095 where that would tear a surrogate pair; or at the
      tag torn there, and then at the entity torn there; but where that would leave
      nothing the tag or the entity is torn after all. */
  lemma PartEnds(s: Text) returns (m: nat, k: nat)
    requires |s| > 4096
    ensures m <= |s| && EndsAtTag(s, CutAt(s, 4096), m)
    ensures k <= m && if k < m then TornAt(s, m, AMP, SEMI, k) else AllEnded(s, m, AMP, SEMI)
    ensures ChunkHead(s) == s[..if k == 0 then CutAt(s, 4096) else k]
  {
    var n := CutAt(s, 4096);
    DropTagEnds(s, n);
    m := |DropHalfTag(s[..n])|;
    DropEntityEnds(s, m);
    k := |DropHalfEntity(s[..m])|;
  }

  /** A text that fits is one part; a longer one is its head and the parts of the rest. */
  lemma PartsAre(s: Text)
    ensures |s| <= 4096 ==> Chunks(s) == [s]
    ensures |s| > 4096 ==> Chunks(s) == [ChunkHead(s)] + Chunks(s[|ChunkHead(s)|..])
  {
  }

  /** No `mark` opens something of which an `inner` comes before the end. */
  predicate NotInside(s: Text, inner: Unit, mark: Unit, end: Unit) {
    forall i, j | 0 <= i < j < |s| && s[i] == mark && s[j] == inner :: exists g :: i < g < j && s[g] == end
  }

  /** So where no tag or entity begins inside a tag, and no entity inside an entity, no
      part ends inside a tag or an entity but one that would have been empty. */
  lemma PartsEndOutside(s: Text) returns (k: nat)
    requires |s| > 4096
    requires NotInside(s, LT, LT, GT) && NotInside(s, AMP, LT, GT) && NotInside(s, AMP, AMP, SEMI)
    ensures k <= |s| && AllEnded(s, k, LT, GT) && AllEnded(s, k, AMP, SEMI)
    ensures ChunkHead(s) == s[..if k == 0 then CutAt(s, 4096) else k]
  {
    var m: nat;
    m, k := PartEnds(s);
  }

}
