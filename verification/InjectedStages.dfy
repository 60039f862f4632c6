/** What the stages that strip embedded blocks leave (builtin-plugins/codex-runtime/src/session_messages.rs). Each
    stage removes the blocks of one tag, but a later cut can join the two ends of an earlier tag's marker. */
module InjectedStages {
  import opened Wrappers
  import opened Text
  import opened InjectedText

  // ---------------------------------------------------------------------------------------------
  // All stages
  // ---------------------------------------------------------------------------------------------

  lemma {:induction false} SubsequenceLength(a: string, b: string)
    requires IsSubsequence(a, b)
    ensures |a| <= |b| && (|a| == |b| ==> a == b)
  {
    if a != [] {
      if a[0] == b[0] && IsSubsequence(a[1..], b[1..]) {
        SubsequenceLength(a[1..], b[1..]);
        assert |a| == |b| ==> a == [b[0]] + b[1..];
      } else {
        SubsequenceLength(a, b[1..]);
      }
    }
  }

  /** The stages leave a text as it is exactly when it has no block of any tag. */
  lemma {:induction false} StagesFixCleanTexts(s: string, tags: seq<Tag>)
    requires AllClose(tags)
    ensures StrippedOfAll(s, tags) == s <==> forall tag :: tag in tags ==> !HasBlock(s, tag)
  {
    StagesOnlyDelete(s, tags);
    if tags != [] && StrippedOfAll(s, tags) == s {
      var front, last := tags[..|tags| - 1], tags[|tags| - 1];
      var earlier := StrippedOfAll(s, front);
      assert tags == front + [last];
      StagesOnlyDelete(s, front);
      StrippedIsSubsequence(earlier, last);
      SubsequenceLength(earlier, s);
      SubsequenceLength(s, earlier);
      StagesFixCleanTexts(s, front);
    }
  }

  lemma {:induction false} StagesAppend(s: string, a: seq<Tag>, b: seq<Tag>)
    requires AllClose(a) && AllClose(b)
    ensures AllClose(a + b) && StrippedOfAll(s, a + b) == StrippedOfAll(StrippedOfAll(s, a), b)
  {
    if b == [] {
      assert a + b == a;
    } else {
      StagesAppend(s, a, b[..|b| - 1]);
      assert (a + b)[..|a + b| - 1] == a + b[..|b| - 1];
    }
  }

  // ---------------------------------------------------------------------------------------------
  // One cut
  // ---------------------------------------------------------------------------------------------

  datatype Span = Span(start: nat, end: nat)

  predicate IsSpan(s: string, cut: Span) {
    cut.start < cut.end <= |s|
  }

  function Without(s: string, cut: Span): string {
    if IsSpan(s, cut) then s[..cut.start] + s[cut.end..] else s
  }

  /** The characters on both sides of the cut spell `p`, beginning at `at` before it. */
  predicate Straddles(s: string, cut: Span, p: string, at: int)
    requires IsSpan(s, cut)
  {
    && 0 <= at < cut.start < at + |p| && cut.end + (at + |p| - cut.start) <= |s|
    && s[at..cut.start] + s[cut.end..cut.end + (at + |p| - cut.start)] == p
  }

  /** An occurrence in the text without the cut, told by the text with it: before, after, or across. */
  predicate LeftAt(s: string, cut: Span, p: string, at: int)
    requires IsSpan(s, cut)
  {
    if at + |p| <= cut.start then OccursAt(s, p, at)
    else if cut.start <= at then OccursAt(s, p, at + (cut.end - cut.start))
    else Straddles(s, cut, p, at)
  }

  lemma {:induction false} SliceAcross(a: string, b: string, i: nat, j: nat)
    requires i <= |a| <= j <= |a + b|
    ensures (a + b)[i..j] == a[i..] + b[..j - |a|]
  {}

  lemma {:induction false} LeftAtIsOccurrence(s: string, cut: Span, p: string, at: int)
    requires IsSpan(s, cut)
    ensures OccursAt(Without(s, cut), p, at) <==> LeftAt(s, cut, p, at)
  {
    var t, d := Without(s, cut), cut.end - cut.start;
    if 0 <= at && at + |p| <= |t| {
      if at + |p| <= cut.start {
        assert t[at..at + |p|] == s[at..at + |p|];
      } else if cut.start <= at {
        assert t[at..at + |p|] == s[at + d..at + d + |p|];
      } else {
        SliceAcross(s[..cut.start], s[cut.end..], at, at + |p|);
        assert s[..cut.start][at..] == s[at..cut.start];
        assert s[cut.end..][..at + |p| - cut.start] == s[cut.end..cut.end + (at + |p| - cut.start)];
      }
    }
  }

  predicate Touches(cut: Span, at: int, length: nat) {
    at < cut.end && cut.start < at + length
  }

  /** A block of the tag keeps both its markers. */
  ghost predicate Spares(s: string, cut: Span, tag: Tag) {
    exists p, q ::
      && p <= q && OccursAt(s, tag.open, p) && OccursAt(s, tag.close, q)
      && !Touches(cut, p, |tag.open|) && !Touches(cut, q, |tag.close|)
  }

  /** The cut joins the two ends of a marker that makes a block with one at or after it, or before it. */
  ghost predicate Splices(s: string, cut: Span, tag: Tag)
    requires IsSpan(s, cut)
  {
    exists p, q ::
      && p <= q && LeftAt(s, cut, tag.open, p) && LeftAt(s, cut, tag.close, q)
      && (Straddles(s, cut, tag.open, p) || Straddles(s, cut, tag.close, q))
  }

  /** Where a position of the text is once the cut is out. */
  function Moved(cut: Span, at: int): int {
    if at < cut.end then at else at - (cut.end - cut.start)
  }

  lemma {:induction false} UntouchedOccurs(s: string, cut: Span, p: string, at: int)
    requires IsSpan(s, cut) && OccursAt(s, p, at) && !Touches(cut, at, |p|)
    ensures OccursAt(Without(s, cut), p, Moved(cut, at))
  {
    LeftAtIsOccurrence(s, cut, p, Moved(cut, at));
  }

  lemma {:induction false} SparedIsLeft(s: string, cut: Span, tag: Tag)
    requires IsSpan(s, cut) && tag.close != "" && Spares(s, cut, tag)
    ensures HasBlock(Without(s, cut), tag)
  {
    var p, q :| p <= q && OccursAt(s, tag.open, p) && OccursAt(s, tag.close, q)
      && !Touches(cut, p, |tag.open|) && !Touches(cut, q, |tag.close|);
    UntouchedOccurs(s, cut, tag.open, p);
    UntouchedOccurs(s, cut, tag.close, q);
    assert Moved(cut, p) <= Moved(cut, q);
  }

  function MovedBack(cut: Span, length: nat, at: int): int {
    if at + length <= cut.start then at else at + (cut.end - cut.start)
  }

  lemma {:induction false} LeftWasUntouched(s: string, cut: Span, p: string, at: int)
    requires IsSpan(s, cut) && LeftAt(s, cut, p, at) && !Straddles(s, cut, p, at)
    ensures OccursAt(s, p, MovedBack(cut, |p|, at)) && !Touches(cut, MovedBack(cut, |p|, at), |p|)
  {}

  lemma {:induction false} LeftIsSparedOrSpliced(s: string, cut: Span, tag: Tag)
    requires IsSpan(s, cut) && tag.close != "" && HasBlock(Without(s, cut), tag)
    ensures Spares(s, cut, tag) || Splices(s, cut, tag)
  {
    var p, q :| p <= q && OccursAt(Without(s, cut), tag.open, p) && OccursAt(Without(s, cut), tag.close, q);
    LeftAtIsOccurrence(s, cut, tag.open, p);
    LeftAtIsOccurrence(s, cut, tag.close, q);
    if !Straddles(s, cut, tag.open, p) && !Straddles(s, cut, tag.close, q) {
      LeftWasUntouched(s, cut, tag.open, p);
      LeftWasUntouched(s, cut, tag.close, q);
      assert MovedBack(cut, |tag.open|, p) <= MovedBack(cut, |tag.close|, q);
    }
  }

  /** A cut leaves a block of the tag exactly when it spares one or splices one. */
  lemma {:induction false} CutLeavesBlockExactly(s: string, cut: Span, tag: Tag)
    requires IsSpan(s, cut) && tag.close != ""
    ensures HasBlock(Without(s, cut), tag) <==> Spares(s, cut, tag) || Splices(s, cut, tag)
  {
    if Spares(s, cut, tag) {
      SparedIsLeft(s, cut, tag);
    } else if Splices(s, cut, tag) {
      var p, q :| p <= q && LeftAt(s, cut, tag.open, p) && LeftAt(s, cut, tag.close, q);
      LeftAtIsOccurrence(s, cut, tag.open, p);
      LeftAtIsOccurrence(s, cut, tag.close, q);
      assert OccursAt(Without(s, cut), tag.open, p) && OccursAt(Without(s, cut), tag.close, q);
    } else if HasBlock(Without(s, cut), tag) {
      LeftIsSparedOrSpliced(s, cut, tag);
    }
  }

  /** In a text without such a block, exactly a splice makes one. */
  lemma {:induction false} CutMakesBlockExactly(s: string, cut: Span, tag: Tag)
    requires IsSpan(s, cut) && tag.close != "" && !HasBlock(s, tag)
    ensures HasBlock(Without(s, cut), tag) <==> Splices(s, cut, tag)
  {
    CutLeavesBlockExactly(s, cut, tag);
  }

  // ---------------------------------------------------------------------------------------------
  // The cuts of all stages
  // ---------------------------------------------------------------------------------------------

  function AfterCuts(s: string, cuts: seq<Span>): string {
    if cuts == [] then s else Without(AfterCuts(s, cuts[..|cuts| - 1]), cuts[|cuts| - 1])
  }

  predicate IsSpanAt(s: string, cuts: seq<Span>, t: nat) {
    t < |cuts| && IsSpan(AfterCuts(s, cuts[..t]), cuts[t])
  }

  ghost predicate AreSpans(s: string, cuts: seq<Span>) {
    forall t :: 0 <= t < |cuts| ==> IsSpanAt(s, cuts, t)
  }

  ghost predicate SplicesAt(s: string, cuts: seq<Span>, t: nat, tag: Tag) {
    IsSpanAt(s, cuts, t) && Splices(AfterCuts(s, cuts[..t]), cuts[t], tag)
  }

  ghost predicate SparesAt(s: string, cuts: seq<Span>, t: nat, tag: Tag) {
    IsSpanAt(s, cuts, t) && Spares(AfterCuts(s, cuts[..t]), cuts[t], tag)
  }

  /** Every cut from the `from`th on spares a block of the tag. */
  ghost predicate SparedFrom(s: string, cuts: seq<Span>, from: nat, tag: Tag) {
    forall u :: from <= u < |cuts| ==> SparesAt(s, cuts, u, tag)
  }

  /** Some cut splices a block of the tag, and every later one spares one. */
  ghost predicate SplicedForGood(s: string, cuts: seq<Span>, tag: Tag) {
    exists t: nat :: SplicesAt(s, cuts, t, tag) && SparedFrom(s, cuts, t + 1, tag)
  }

  lemma {:induction false} SameInPrefix(s: string, cuts: seq<Span>, n: nat, t: nat, tag: Tag)
    requires t < n <= |cuts|
    ensures IsSpanAt(s, cuts[..n], t) == IsSpanAt(s, cuts, t)
    ensures SplicesAt(s, cuts[..n], t, tag) == SplicesAt(s, cuts, t, tag)
    ensures SparesAt(s, cuts[..n], t, tag) == SparesAt(s, cuts, t, tag)
  {
    PrefixOfPrefix(cuts, n, t);
  }

  lemma {:induction false} SparedInPrefix(s: string, cuts: seq<Span>, from: nat, tag: Tag)
    requires cuts != [] && from < |cuts|
    ensures var n := |cuts| - 1;
      SparedFrom(s, cuts, from, tag) <==> SparedFrom(s, cuts[..n], from, tag) && SparesAt(s, cuts, n, tag)
  {
    var n := |cuts| - 1;
    forall u: nat | u < n ensures SparesAt(s, cuts[..n], u, tag) == SparesAt(s, cuts, u, tag) {
      SameInPrefix(s, cuts, n, u, tag);
    }
  }

  lemma {:induction false} SplicedLast(s: string, cuts: seq<Span>, tag: Tag)
    requires cuts != [] && SplicedForGood(s, cuts, tag)
    ensures var n := |cuts| - 1;
      SplicesAt(s, cuts, n, tag) || (SparesAt(s, cuts, n, tag) && SplicedForGood(s, cuts[..n], tag))
  {
    var n := |cuts| - 1;
    var t: nat :| SplicesAt(s, cuts, t, tag) && SparedFrom(s, cuts, t + 1, tag);
    if t < n {
      SparedInPrefix(s, cuts, t + 1, tag);
      SameInPrefix(s, cuts, n, t, tag);
    }
  }

  lemma {:induction false} SplicedMore(s: string, cuts: seq<Span>, tag: Tag)
    requires cuts != []
    requires var n := |cuts| - 1;
      SplicesAt(s, cuts, n, tag) || (SparesAt(s, cuts, n, tag) && SplicedForGood(s, cuts[..n], tag))
    ensures SplicedForGood(s, cuts, tag)
  {
    var n := |cuts| - 1;
    if SplicesAt(s, cuts, n, tag) {
      assert SparedFrom(s, cuts, n + 1, tag);
    } else {
      var t: nat :| SplicesAt(s, cuts[..n], t, tag) && SparedFrom(s, cuts[..n], t + 1, tag);
      SparedInPrefix(s, cuts, t + 1, tag);
      SameInPrefix(s, cuts, n, t, tag);
    }
  }

  /** After any cuts on a text without such a block, one is there exactly when some cut spliced one and every later
      cut spared one. */
  lemma {:induction false} CutsLeaveBlockExactly(s: string, cuts: seq<Span>, tag: Tag)
    requires AreSpans(s, cuts) && tag.close != "" && !HasBlock(s, tag)
    ensures HasBlock(AfterCuts(s, cuts), tag) <==> SplicedForGood(s, cuts, tag)
  {
    if cuts != [] {
      var n := |cuts| - 1;
      forall t | 0 <= t < n ensures IsSpanAt(s, cuts[..n], t) {
        SameInPrefix(s, cuts, n, t, tag);
      }
      CutsLeaveBlockExactly(s, cuts[..n], tag);
      assert IsSpanAt(s, cuts, n);
      CutLeavesBlockExactly(AfterCuts(s, cuts[..n]), cuts[n], tag);
      if SplicedForGood(s, cuts, tag) {
        SplicedLast(s, cuts, tag);
      } else if HasBlock(AfterCuts(s, cuts), tag) {
        SplicedMore(s, cuts, tag);
      }
      if SparesAt(s, cuts, n, tag) {
        SparesBlockOf(AfterCuts(s, cuts[..n]), cuts[n], tag);
      }
    }
  }

  lemma {:induction false} SparesBlockOf(s: string, cut: Span, tag: Tag)
    requires Spares(s, cut, tag)
    ensures HasBlock(s, tag)
  {}

  function CutsOf(s: string, tag: Tag): seq<Span>
    requires tag.close != ""
    decreases |s|
  {
    match FirstBlock(s, tag)
    case None => []
    case Some(block) => [Span(block.0, block.1)] + CutsOf(s[..block.0] + s[block.1..], tag)
  }

  /** The cuts of one stage after another. */
  function StageCuts(s: string, tags: seq<Tag>): seq<Span>
    requires AllClose(tags)
  {
    if tags == [] then []
    else
      var n := |tags| - 1;
      StageCuts(s, tags[..n]) + CutsOf(StrippedOfAll(s, tags[..n]), tags[n])
  }

  lemma {:induction false} AfterMoreCuts(s: string, a: seq<Span>, b: seq<Span>)
    ensures AfterCuts(s, a + b) == AfterCuts(AfterCuts(s, a), b)
  {
    if b == [] {
      assert a + b == a;
    } else {
      AfterMoreCuts(s, a, b[..|b| - 1]);
      assert (a + b)[..|a + b| - 1] == a + b[..|b| - 1];
    }
  }

  lemma {:induction false} MoreSpans(s: string, a: seq<Span>, b: seq<Span>)
    requires AreSpans(s, a) && AreSpans(AfterCuts(s, a), b)
    ensures AreSpans(s, a + b)
  {
    forall t | 0 <= t < |a + b| ensures IsSpanAt(s, a + b, t) {
      if t < |a| {
        assert (a + b)[..t] == a[..t];
        assert IsSpanAt(s, a, t);
      } else {
        assert (a + b)[..t] == a + b[..t - |a|];
        AfterMoreCuts(s, a, b[..t - |a|]);
        assert IsSpanAt(AfterCuts(s, a), b, t - |a|);
      }
    }
  }

  lemma {:induction false} OneCut(s: string, cut: Span)
    ensures AfterCuts(s, [cut]) == Without(s, cut)
    ensures IsSpan(s, cut) ==> AreSpans(s, [cut])
  {
    assert [cut][..0] == [];
  }

  lemma {:induction false} CutsStrip(s: string, tag: Tag)
    requires tag.close != ""
    ensures AreSpans(s, CutsOf(s, tag)) && AfterCuts(s, CutsOf(s, tag)) == Stripped(s, tag)
    decreases |s|
  {
    var first := FirstBlock(s, tag);
    if first.Some? {
      var cut := Span(first.value.0, first.value.1);
      var rest := s[..cut.start] + s[cut.end..];
      CutsStrip(rest, tag);
      OneCut(s, cut);
      AfterMoreCuts(s, [cut], CutsOf(rest, tag));
      MoreSpans(s, [cut], CutsOf(rest, tag));
    }
  }

  lemma {:induction false} StageCutsStrip(s: string, tags: seq<Tag>)
    requires AllClose(tags)
    ensures AreSpans(s, StageCuts(s, tags)) && AfterCuts(s, StageCuts(s, tags)) == StrippedOfAll(s, tags)
  {
    if tags != [] {
      var front, last := tags[..|tags| - 1], tags[|tags| - 1];
      StageCutsStrip(s, front);
      CutsStrip(StrippedOfAll(s, front), last);
      AfterMoreCuts(s, StageCuts(s, front), CutsOf(StrippedOfAll(s, front), last));
      MoreSpans(s, StageCuts(s, front), CutsOf(StrippedOfAll(s, front), last));
    }
  }

  /** For every text and every stage: a block of its tag is left at the end exactly when some cut of a later stage
      splices one and every cut after that spares one. */
  lemma {:induction false} StageLeavesBlockExactly(s: string, tags: seq<Tag>, k: nat)
    requires AllClose(tags) && k < |tags|
    ensures var stripped := StrippedOfAll(s, tags[..k + 1]);
      HasBlock(StrippedOfAll(s, tags), tags[k])
      <==> SplicedForGood(stripped, StageCuts(stripped, tags[k + 1..]), tags[k])
  {
    var stripped, later := StrippedOfAll(s, tags[..k + 1]), tags[k + 1..];
    assert tags == tags[..k + 1] + later;
    StagesAppend(s, tags[..k + 1], later);
    StagesOnlyDelete(s, tags[..k + 1]);
    StageCutsStrip(stripped, later);
    CutsLeaveBlockExactly(stripped, StageCuts(stripped, later), tags[k]);
  }

  // ---------------------------------------------------------------------------------------------
  // Texts made of whole markers and other characters
  // ---------------------------------------------------------------------------------------------

  datatype Part = Whole(marker: string) | Other(c: char)

  function Spelling(part: Part): string {
    match part
    case Whole(marker) => marker
    case Other(c) => [c]
  }

  function Spell(parts: seq<Part>): string {
    if parts == [] then "" else Spelling(parts[0]) + Spell(parts[1..])
  }

  /** Angle brackets at both ends and nowhere else. */
  predicate IsMarker(m: string) {
    && |m| > 1 && m[0] == '<' && m[|m| - 1] == '>'
    && (forall i :: 0 < i < |m| ==> m[i] != '<') && (forall i :: 0 <= i < |m| - 1 ==> m[i] != '>')
  }

  ghost predicate AreParts(parts: seq<Part>) {
    forall part :: part in parts && part.Whole? ==> IsMarker(part.marker)
  }

  /** The marker stands at part `n`, whole or as `length` other characters. */
  predicate StandsAt(parts: seq<Part>, m: string, n: nat, length: nat) {
    && n + length <= |parts|
    && ((length == 1 && parts[n] == Whole(m))
        || (length == |m| && forall x :: 0 <= x < length ==> parts[n + x] == Other(m[x])))
  }

  lemma {:induction false} SpellAppend(a: seq<Part>, b: seq<Part>)
    ensures Spell(a + b) == Spell(a) + Spell(b)
  {
    if a == [] {
      assert a + b == b;
    } else {
      SpellAppend(a[1..], b);
      assert (a + b)[1..] == a[1..] + b;
      Reassociate(Spelling(a[0]), Spell(a[1..]), Spell(b));
    }
  }

  lemma {:induction false} SpellSplit(parts: seq<Part>, n: nat)
    requires n <= |parts|
    ensures Spell(parts) == Spell(parts[..n]) + Spell(parts[n..])
  {
    SpellAppend(parts[..n], parts[n..]);
    assert parts[..n] + parts[n..] == parts;
  }

  /** Text without an opening bracket at the start is spelled by other characters. */
  lemma {:induction false} OthersAtStart(parts: seq<Part>, t: string)
    requires AreParts(parts) && StartsWith(Spell(parts), t) && '<' !in t
    ensures |t| <= |parts| && forall x :: 0 <= x < |t| ==> parts[x] == Other(t[x])
  {
    if t != "" {
      var first := Spelling(parts[0]);
      assert t[0] == Spell(parts)[..|t|][0];
      assert t[0] == first[0];
      assert parts[0].Other?;
      assert Spell(parts)[1..] == Spell(parts[1..]);
      assert Spell(parts[1..])[..|t| - 1] == Spell(parts)[..|t|][1..];
      OthersAtStart(parts[1..], t[1..]);
      assert forall x :: 1 <= x < |t| ==> parts[x] == parts[1..][x - 1] && t[x] == t[1..][x - 1];
    }
  }

  lemma {:induction false} SameMarker(s: string, m: string, w: string)
    requires IsMarker(m) && IsMarker(w) && StartsWith(s, m) && StartsWith(s, w)
    ensures m == w
  {
    assert forall i :: 0 <= i < |m| ==> m[i] == s[..|m|][i] == s[i];
    assert forall i :: 0 <= i < |w| ==> w[i] == s[..|w|][i] == s[i];
    assert m[|m| - 1] == '>' && w[|w| - 1] == '>';
    assert |m| == |w|;
  }

  lemma {:induction false} MarkerStandsFirst(parts: seq<Part>, m: string) returns (length: nat)
    requires AreParts(parts) && IsMarker(m) && StartsWith(Spell(parts), m)
    ensures StandsAt(parts, m, 0, length)
  {
    var text, first := Spell(parts), Spelling(parts[0]);
    if parts[0].Whole? {
      assert text[..|first|] == first;
      SameMarker(text, m, first);
      length := 1;
    } else {
      length := |m|;
      assert text[1..] == Spell(parts[1..]);
      assert Spell(parts[1..])[..|m| - 1] == text[..|m|][1..] == m[1..];
      OthersAtStart(parts[1..], m[1..]);
      assert text[0] == text[..|m|][0];
      assert forall x :: 1 <= x < |m| ==> parts[x] == parts[1..][x - 1] && m[x] == m[1..][x - 1];
    }
  }

  lemma {:induction false} StandsLater(parts: seq<Part>, m: string, n: nat, length: nat)
    requires parts != [] && StandsAt(parts[1..], m, n, length)
    ensures StandsAt(parts, m, n + 1, length)
    ensures |Spell(parts[..n + 1])| == |Spelling(parts[0])| + |Spell(parts[1..][..n])|
  {
    assert parts[..n + 1][1..] == parts[1..][..n];
  }

  /** Markers occur in such a text only where they stand as parts: none begins or ends inside a whole one. */
  lemma {:induction false} MarkersStand(parts: seq<Part>, m: string, at: nat) returns (n: nat, length: nat)
    requires AreParts(parts) && IsMarker(m) && OccursAt(Spell(parts), m, at)
    ensures StandsAt(parts, m, n, length) && |Spell(parts[..n])| == at
  {
    var text, first := Spell(parts), Spelling(parts[0]);
    if at >= |first| {
      assert Spell(parts[1..])[at - |first|..at - |first| + |m|] == text[at..at + |m|];
      n, length := MarkersStand(parts[1..], m, at - |first|);
      StandsLater(parts, m, n, length);
      n := n + 1;
    } else {
      assert first[at] == text[at] == text[at..at + |m|][0] == '<';
      assert at == 0;
      n := 0;
      length := MarkerStandsFirst(parts, m);
    }
  }

  lemma {:induction false} SpellOne(part: Part)
    ensures Spell([part]) == Spelling(part)
  {
    assert [part][1..] == [];
  }

  lemma {:induction false} OthersSpell(parts: seq<Part>, t: string)
    requires |parts| == |t| && forall x :: 0 <= x < |t| ==> parts[x] == Other(t[x])
    ensures Spell(parts) == t
  {
    if t != "" {
      OthersSpell(parts[1..], t[1..]);
      assert t == [t[0]] + t[1..];
    }
  }

  lemma {:induction false} StandingSpells(parts: seq<Part>, m: string, n: nat, length: nat)
    requires StandsAt(parts, m, n, length)
    ensures Spell(parts[n..n + length]) == m
  {
    if length == 1 && parts[n] == Whole(m) {
      assert parts[n..n + length] == [Whole(m)];
      SpellOne(Whole(m));
    } else {
      OthersSpell(parts[n..n + length], m);
    }
  }

  lemma {:induction false} OccursBetween(a: string, m: string, c: string)
    ensures OccursAt((a + m) + c, m, |a|)
  {
    assert ((a + m) + c)[|a|..|a| + |m|] == m;
  }

  lemma {:induction false} SpellThrough(parts: seq<Part>, n: nat, m: nat)
    requires n <= m <= |parts|
    ensures Spell(parts[..m]) == Spell(parts[..n]) + Spell(parts[n..m])
  {
    assert parts[..m] == parts[..n] + parts[n..m];
    SpellAppend(parts[..n], parts[n..m]);
  }

  lemma {:induction false} StandingOccurs(parts: seq<Part>, m: string, n: nat, length: nat)
    requires StandsAt(parts, m, n, length)
    ensures OccursAt(Spell(parts), m, |Spell(parts[..n])|)
    ensures |Spell(parts[..n + length])| == |Spell(parts[..n])| + |m|
  {
    StandingSpells(parts, m, n, length);
    SpellThrough(parts, n, n + length);
    SpellSplit(parts, n + length);
    OccursBetween(Spell(parts[..n]), m, Spell(parts[n + length..]));
  }

  lemma {:induction false} EarlierIsShorter(parts: seq<Part>, a: nat, b: nat)
    requires AreParts(parts) && a <= b <= |parts|
    ensures |Spell(parts[..a])| + (b - a) <= |Spell(parts[..b])|
  {
    if a < b {
      EarlierIsShorter(parts, a, b - 1);
      assert parts[..b] == parts[..b - 1] + [parts[b - 1]];
      SpellAppend(parts[..b - 1], [parts[b - 1]]);
      SpellOne(parts[b - 1]);
      assert parts[b - 1] in parts;
    }
  }

  lemma {:induction false} NextLineIsPart(parts: seq<Part>, n: nat) returns (next: nat)
    requires AreParts(parts) && n <= |parts|
    ensures n <= next <= |parts|
    ensures var text, end := Spell(parts), |Spell(parts[..n])|;
      end <= |text| && |Spell(parts[..next])| == if end < |text| && text[end] == '\n' then end + 1 else end
  {
    var text, end := Spell(parts), |Spell(parts[..n])|;
    SpellSplit(parts, n);
    next := n;
    if n < |parts| && text[end] == '\n' {
      assert parts[n..][0] == parts[n];
      assert text[end] == Spelling(parts[n])[0];
      assert parts[n] in parts;
      next := n + 1;
      assert parts[..n + 1] == parts[..n] + [parts[n]];
      SpellAppend(parts[..n], [parts[n]]);
      SpellOne(parts[n]);
    }
  }

  lemma {:induction false} FirstBlockOccurs(s: string, tag: Tag) returns (start: nat, closeStart: nat)
    requires FirstBlock(s, tag).Some?
    ensures start <= closeStart && OccursAt(s, tag.open, start) && OccursAt(s, tag.close, closeStart)
    ensures FirstBlock(s, tag) == Some((start, BlockEnd(s, tag, closeStart)))
  {
    start := Find(s, tag.open).value;
    FindFromIsFirst(s, tag.open, 0);
    FindFromIsFirst(s, tag.close, start);
    closeStart := FindFrom(s, tag.close, start).value;
  }

  lemma {:induction false} MarkerStarts(parts: seq<Part>, m: string, at: nat) returns (n: nat)
    requires AreParts(parts) && IsMarker(m) && OccursAt(Spell(parts), m, at)
    ensures n <= |parts| && |Spell(parts[..n])| == at
  {
    var length;
    n, length := MarkersStand(parts, m, at);
  }

  lemma {:induction false} MarkerEnds(parts: seq<Part>, m: string, at: nat) returns (n: nat)
    requires AreParts(parts) && IsMarker(m) && OccursAt(Spell(parts), m, at)
    ensures n <= |parts| && |Spell(parts[..n])| == at + |m|
  {
    var first, length := MarkersStand(parts, m, at);
    StandingOccurs(parts, m, first, length);
    n := first + length;
  }

  lemma {:induction false} BlockEndIsPart(parts: seq<Part>, tag: Tag, closeStart: nat) returns (n: nat)
    requires AreParts(parts) && IsMarker(tag.close) && OccursAt(Spell(parts), tag.close, closeStart)
    ensures n <= |parts| && |Spell(parts[..n])| == BlockEnd(Spell(parts), tag, closeStart)
  {
    n := MarkerEnds(parts, tag.close, closeStart);
    n := NextLineIsPart(parts, n);
  }

  lemma {:induction false} ShorterIsEarlier(parts: seq<Part>, a: nat, b: nat)
    requires AreParts(parts) && a <= |parts| && b <= |parts| && |Spell(parts[..a])| < |Spell(parts[..b])|
    ensures a < b
  {
    if b <= a {
      EarlierIsShorter(parts, b, a);
    }
  }

  /** A cut takes out parts as a whole. */
  lemma {:induction false} CutTakesParts(parts: seq<Part>, tag: Tag) returns (a: nat, b: nat)
    requires AreParts(parts) && IsMarker(tag.open) && IsMarker(tag.close) && FirstBlock(Spell(parts), tag).Some?
    ensures a < b <= |parts|
    ensures FirstBlock(Spell(parts), tag) == Some((|Spell(parts[..a])|, |Spell(parts[..b])|))
  {
    var start, closeStart := FirstBlockOccurs(Spell(parts), tag);
    a := MarkerStarts(parts, tag.open, start);
    b := BlockEndIsPart(parts, tag, closeStart);
    ShorterIsEarlier(parts, a, b);
  }

  lemma {:induction false} SpellWithout(parts: seq<Part>, a: nat, b: nat)
    requires a <= b <= |parts|
    ensures var text, start, end := Spell(parts), |Spell(parts[..a])|, |Spell(parts[..b])|;
      start <= |text| && end <= |text| && text[..start] + text[end..] == Spell(parts[..a] + parts[b..])
  {
    SpellSplit(parts, a);
    SpellSplit(parts, b);
    SpellAppend(parts[..a], parts[b..]);
  }

  /** Whole markers of the tag, one before the other. */
  predicate IsPair(parts: seq<Part>, tag: Tag, n: nat, m: nat) {
    n < m < |parts| && parts[n] == Whole(tag.open) && parts[m] == Whole(tag.close)
  }

  ghost predicate HasPair(parts: seq<Part>, tag: Tag) {
    exists n: nat, m: nat :: IsPair(parts, tag, n, m)
  }

  ghost predicate FewerPairs(left: seq<Part>, parts: seq<Part>) {
    && (forall part :: part in left ==> part in parts)
    && forall tag :: HasPair(left, tag) ==> HasPair(parts, tag)
  }

  lemma {:induction false} CutLeavesFewer(parts: seq<Part>, a: nat, b: nat)
    requires a <= b <= |parts|
    ensures FewerPairs(parts[..a] + parts[b..], parts)
  {
    var left := parts[..a] + parts[b..];
    forall tag | HasPair(left, tag) ensures HasPair(parts, tag) {
      var n: nat, m: nat :| IsPair(left, tag, n, m);
      assert IsPair(parts, tag, if n < a then n else n + (b - a), if m < a then m else m + (b - a));
    }
  }

  /** A stage leaves a text made of some of the parts, and makes no pair of any tag. */
  lemma {:induction false} StageTakesParts(parts: seq<Part>, tag: Tag) returns (left: seq<Part>)
    requires AreParts(parts) && IsMarker(tag.open) && IsMarker(tag.close)
    ensures Stripped(Spell(parts), tag) == Spell(left) && FewerPairs(left, parts)
    decreases |parts|
  {
    if FirstBlock(Spell(parts), tag).None? {
      left := parts;
    } else {
      var a, b := CutTakesParts(parts, tag);
      SpellWithout(parts, a, b);
      CutLeavesFewer(parts, a, b);
      OneBlockLess(Spell(parts), tag);
      left := StageTakesParts(parts[..a] + parts[b..], tag);
    }
  }

  // ---------------------------------------------------------------------------------------------
  // Which texts are stripped clean
  // ---------------------------------------------------------------------------------------------

  /** Names without angle brackets, without a slash in front, and none twice. */
  predicate AreNames(names: seq<string>) {
    && (forall i :: 0 <= i < |names| ==> IsName(names[i]))
    && forall i, j :: 0 <= i < j < |names| ==> names[i] != names[j]
  }

  predicate IsName(name: string) {
    '<' !in name && '>' !in name && (name == "" || name[0] != '/')
  }

  function TagsOf(names: seq<string>): (tags: seq<Tag>)
    ensures |tags| == |names| && forall i :: 0 <= i < |names| ==> tags[i] == Wrapping(names[i])
    ensures AllClose(tags)
  {
    seq(|names|, i requires 0 <= i < |names| => Wrapping(names[i]))
  }

  predicate IsMarkerOf(m: string, tag: Tag) {
    m == tag.open || m == tag.close
  }

  /** Whole markers of these tags, and other characters from this set. */
  ghost predicate Composed(parts: seq<Part>, tags: seq<Tag>, chars: iset<char>) {
    forall part :: part in parts ==>
      match part
      case Whole(m) => exists tag :: tag in tags && IsMarkerOf(m, tag)
      case Other(c) => c in chars
  }

  ghost predicate Spellable(m: string, chars: iset<char>) {
    forall c :: c in m ==> c in chars
  }

  ghost predicate LeaveNone(s: string, tags: seq<Tag>)
    requires AllClose(tags)
  {
    forall tag :: tag in tags ==> !HasBlock(StrippedOfAll(s, tags), tag)
  }

  lemma {:induction false} NamedMarkers(name: string)
    requires IsName(name)
    ensures var tag := Wrapping(name);
      && IsMarker(tag.open) && IsMarker(tag.close) && tag.open != tag.close
      && forall c :: c in tag.open ==> c in tag.close
  {
    var tag := Wrapping(name);
    assert |tag.open| < |tag.close|;
    assert tag.close == "</" + name + ">";
  }

  lemma {:induction false} ComposedAreParts(parts: seq<Part>, names: seq<string>, chars: iset<char>)
    requires AreNames(names) && Composed(parts, TagsOf(names), chars)
    ensures AreParts(parts)
  {
    forall part | part in parts && part.Whole? ensures IsMarker(part.marker) {
      var tag :| tag in TagsOf(names) && IsMarkerOf(part.marker, tag);
      var i :| 0 <= i < |names| && TagsOf(names)[i] == tag;
      NamedMarkers(names[i]);
    }
  }

  /** A marker that the other characters cannot spell stands as a whole. */
  lemma {:induction false} StandsWhole(parts: seq<Part>, tags: seq<Tag>, chars: iset<char>, m: string, at: nat)
    returns (n: nat)
    requires AreParts(parts) && Composed(parts, tags, chars) && IsMarker(m) && !Spellable(m, chars)
    requires OccursAt(Spell(parts), m, at)
    ensures n < |parts| && parts[n] == Whole(m) && |Spell(parts[..n])| == at
  {
    var length;
    n, length := MarkersStand(parts, m, at);
    if !(length == 1 && parts[n] == Whole(m)) {
      forall c | c in m ensures c in chars {
        var x :| 0 <= x < |m| && m[x] == c;
        assert parts[n + x] == Other(m[x]);
        assert parts[n + x] in parts;
      }
    }
  }

  /** Blocks of a tag that the other characters cannot spell are pairs of whole markers. */
  lemma {:induction false} BlockIsPair(parts: seq<Part>, tags: seq<Tag>, chars: iset<char>, name: string)
    requires AreParts(parts) && Composed(parts, tags, chars) && IsName(name)
    requires !Spellable(Wrapping(name).open, chars)
    ensures HasBlock(Spell(parts), Wrapping(name)) <==> HasPair(parts, Wrapping(name))
  {
    var text, tag := Spell(parts), Wrapping(name);
    NamedMarkers(name);
    if HasBlock(text, tag) {
      var i, j :| i <= j && OccursAt(text, tag.open, i) && OccursAt(text, tag.close, j);
      var n := StandsWhole(parts, tags, chars, tag.open, i);
      var m := StandsWhole(parts, tags, chars, tag.close, j);
      if m < n {
        EarlierIsShorter(parts, m, n);
      }
      assert IsPair(parts, tag, n, m);
    }
    if HasPair(parts, tag) {
      var n: nat, m: nat :| IsPair(parts, tag, n, m);
      StandingOccurs(parts, tag.open, n, 1);
      StandingOccurs(parts, tag.close, m, 1);
      EarlierIsShorter(parts, n, m);
    }
  }

  lemma {:induction false} OneStageTakesParts(parts: seq<Part>, names: seq<string>, chars: iset<char>, k: nat)
    returns (left: seq<Part>)
    requires AreNames(names) && Composed(parts, TagsOf(names), chars) && k < |names|
    ensures Stripped(Spell(parts), Wrapping(names[k])) == Spell(left)
    ensures FewerPairs(left, parts) && Composed(left, TagsOf(names), chars)
    ensures !Spellable(Wrapping(names[k]).open, chars) ==> !HasPair(left, Wrapping(names[k]))
  {
    var tag := Wrapping(names[k]);
    ComposedAreParts(parts, names, chars);
    NamedMarkers(names[k]);
    left := StageTakesParts(parts, tag);
    ComposedAreParts(left, names, chars);
    StrippedHasNoBlock(Spell(parts), tag);
    if !Spellable(tag.open, chars) {
      BlockIsPair(left, TagsOf(names), chars, names[k]);
    }
  }

  ghost predicate NoPairsOf(left: seq<Part>, names: seq<string>, chars: iset<char>, k: nat)
    requires k <= |names|
  {
    forall i :: 0 <= i < k && !Spellable(Wrapping(names[i]).open, chars) ==> !HasPair(left, Wrapping(names[i]))
  }

  lemma {:induction false} OneMoreStage(s: string, tags: seq<Tag>, k: nat)
    requires AllClose(tags) && k < |tags|
    ensures StrippedOfAll(s, tags[..k + 1]) == Stripped(StrippedOfAll(s, tags[..k]), tags[k])
  {
    PrefixOfPrefix(tags, k + 1, k);
  }

  /** After some stages: still such a text, without pairs of the tags that are done. */
  lemma {:induction false} StagesTakeParts(parts: seq<Part>, names: seq<string>, chars: iset<char>, k: nat)
    returns (left: seq<Part>)
    requires AreNames(names) && Composed(parts, TagsOf(names), chars) && k <= |names|
    ensures StrippedOfAll(Spell(parts), TagsOf(names)[..k]) == Spell(left)
    ensures Composed(left, TagsOf(names), chars) && NoPairsOf(left, names, chars, k)
  {
    left := parts;
    if k > 0 {
      var earlier := StagesTakeParts(parts, names, chars, k - 1);
      OneMoreStage(Spell(parts), TagsOf(names), k - 1);
      left := OneStageTakesParts(earlier, names, chars, k - 1);
    }
  }

  /** Nothing is left when the other characters can spell the opening marker of no tag but the last. */
  lemma {:induction false} UnspellableLeaveNone(parts: seq<Part>, names: seq<string>, chars: iset<char>)
    requires AreNames(names) && Composed(parts, TagsOf(names), chars)
    requires forall i :: 0 <= i < |names| - 1 ==> !Spellable(Wrapping(names[i]).open, chars)
    ensures LeaveNone(Spell(parts), TagsOf(names))
  {
    var tags, k := TagsOf(names), |names|;
    var left := StagesTakeParts(parts, names, chars, k);
    assert tags[..k] == tags;
    ComposedAreParts(left, names, chars);
    StagesOnlyDelete(Spell(parts), tags);
    forall tag | tag in tags ensures !HasBlock(Spell(left), tag) {
      var i :| 0 <= i < k && tags[i] == tag;
      if i < k - 1 {
        BlockIsPair(left, tags, chars, names[i]);
      }
    }
  }

  function Others(t: string): (parts: seq<Part>)
    ensures |parts| == |t| && forall i :: 0 <= i < |t| ==> parts[i] == Other(t[i])
  {
    seq(|t|, i requires 0 <= i < |t| => Other(t[i]))
  }

  /** An opening marker in single characters, with a block of another tag before its last. */
  function SplitMarker(name: string, inside: string): seq<Part> {
    Others("<" + name)
    + [Whole(Wrapping(inside).open), Whole(Wrapping(inside).close), Other('>'), Whole(Wrapping(name).close)]
  }

  lemma {:induction false} OpensDiffer(name: string, other: string)
    requires IsName(name) && IsName(other)
    ensures Wrapping(name).open != Wrapping(other).close
    ensures name != other ==> Wrapping(name).open != Wrapping(other).open
    ensures name != other ==> Wrapping(name).close != Wrapping(other).close
  {
    var a, b := Wrapping(name), Wrapping(other);
    assert a.open[1..|a.open| - 1] == name && b.open[1..|b.open| - 1] == other;
    assert a.close[2..|a.close| - 1] == name && b.close[2..|b.close| - 1] == other;
    assert b.close[1] == '/';
    assert name != "" ==> a.open[1] == name[0];
    assert name == "" ==> a.open[1] == '>';
  }

  lemma {:induction false} RunIsOthers(parts: seq<Part>, m: string, n: nat, length: nat)
    requires n + length <= |parts| && length == |m| && forall x :: 0 <= x < length ==> parts[n + x] == Other(m[x])
    ensures forall y :: n <= y < n + length ==> parts[y] == Other(m[y - n])
  {
    forall y | n <= y < n + length ensures parts[y] == Other(m[y - n]) {
      assert parts[n + (y - n)] == Other(m[y - n]);
    }
  }

  lemma {:induction false} SplitBrackets(name: string, inside: string)
    requires IsName(name)
    ensures var parts := SplitMarker(name, inside);
      forall x :: 0 <= x < |parts| ==>
        (parts[x] == Other('<') ==> x == 0) && (parts[x] == Other('>') ==> x == |name| + 3)
  {
    var parts := SplitMarker(name, inside);
    assert forall x :: 0 < x < |name| + 1 ==> parts[x] == Other(name[x - 1]) && name[x - 1] in name;
  }

  /** No run of its single characters spells a whole marker. */
  lemma {:induction false} SplitStandsWhole(name: string, inside: string, m: string, n: nat, length: nat)
    requires IsName(name) && IsMarker(m) && StandsAt(SplitMarker(name, inside), m, n, length)
    ensures length == 1 && SplitMarker(name, inside)[n] == Whole(m)
  {
    var parts := SplitMarker(name, inside);
    SplitBrackets(name, inside);
    assert parts[|name| + 1].Whole?;
    if !(length == 1 && parts[n] == Whole(m)) {
      RunIsOthers(parts, m, n, length);
    }
  }

  lemma {:induction false} SpellCons(part: Part, parts: seq<Part>)
    ensures Spell([part] + parts) == Spelling(part) + Spell(parts)
  {
    assert ([part] + parts)[1..] == parts;
  }

  lemma {:induction false} SpellFour(a: Part, b: Part, c: Part, d: Part)
    ensures Spell([a, b, c, d]) == Spelling(a) + (Spelling(b) + (Spelling(c) + Spelling(d)))
  {
    assert [a, b, c, d] == [a] + ([b] + ([c] + [d]));
    SpellCons(a, [b] + ([c] + [d]));
    SpellCons(b, [c] + [d]);
    SpellCons(c, [d]);
    SpellOne(d);
  }

  lemma {:induction false} SplitSpells(name: string, inside: string)
    ensures Spell(SplitMarker(name, inside))
         == ("<" + name) + (Wrapping(inside).open + (Wrapping(inside).close + (">" + Wrapping(name).close)))
  {
    var i, c := Wrapping(inside), Wrapping(name).close;
    SpellAppend(Others("<" + name), [Whole(i.open), Whole(i.close), Other('>'), Whole(c)]);
    OthersSpell(Others("<" + name), "<" + name);
    SpellFour(Whole(i.open), Whole(i.close), Other('>'), Whole(c));
  }

  lemma {:induction false} SplitIsParts(name: string, inside: string)
    requires IsName(name) && IsName(inside)
    ensures AreParts(SplitMarker(name, inside))
  {
    NamedMarkers(name);
    NamedMarkers(inside);
  }

  lemma {:induction false} SplitMarkerStands(name: string, inside: string, m: string, at: nat) returns (n: nat)
    requires IsName(name) && IsName(inside) && IsMarker(m) && OccursAt(Spell(SplitMarker(name, inside)), m, at)
    ensures n < |name| + 5 && SplitMarker(name, inside)[n] == Whole(m)
    ensures |Spell(SplitMarker(name, inside)[..n])| == at
  {
    SplitIsParts(name, inside);
    var length;
    n, length := MarkersStand(SplitMarker(name, inside), m, at);
    SplitStandsWhole(name, inside, m, n, length);
  }

  lemma {:induction false} SplitWholes(name: string, inside: string, m: string, n: nat)
    requires n < |name| + 5 && SplitMarker(name, inside)[n] == Whole(m)
    ensures IsMarkerOf(m, Wrapping(inside)) || m == Wrapping(name).close
    ensures m == Wrapping(inside).open && m != Wrapping(inside).close && m != Wrapping(name).close ==> n == |name| + 1
    ensures m == Wrapping(inside).close && m != Wrapping(inside).open && m != Wrapping(name).close ==> n == |name| + 2
  {}

  lemma {:induction false} SplitHoldsOther(name: string, inside: string, other: string)
    requires IsName(name) && IsName(inside) && IsName(other) && other != inside
    ensures !HasBlock(Spell(SplitMarker(name, inside)), Wrapping(other))
  {
    var text, open := Spell(SplitMarker(name, inside)), Wrapping(other).open;
    NamedMarkers(other);
    OpensDiffer(other, inside);
    OpensDiffer(other, name);
    forall at: nat ensures !OccursAt(text, open, at) {
      if OccursAt(text, open, at) {
        var n := SplitMarkerStands(name, inside, open, at);
        SplitWholes(name, inside, open, n);
      }
    }
  }

  lemma {:induction false} SplitPositions(name: string, inside: string)
    ensures var parts, h := SplitMarker(name, inside), |name| + 1;
      && |Spell(parts[..h])| == h && parts[h] == Whole(Wrapping(inside).open)
      && |Spell(parts[..h + 1])| == h + |Wrapping(inside).open|
  {
    var parts, h, i := SplitMarker(name, inside), |name| + 1, Wrapping(inside);
    assert parts[..h] == Others("<" + name);
    OthersSpell(Others("<" + name), "<" + name);
    assert parts[..h + 1] == parts[..h] + [Whole(i.open)];
    SpellAppend(parts[..h], [Whole(i.open)]);
    SpellOne(Whole(i.open));
  }

  /** Each marker of the inner tag occurs in it at one place. */
  lemma {:induction false} InnerOccursOnce(name: string, inside: string, m: string, at: nat)
    requires IsName(name) && IsName(inside) && name != inside && IsMarkerOf(m, Wrapping(inside))
    requires OccursAt(Spell(SplitMarker(name, inside)), m, at)
    ensures at == |name| + 1 + if m == Wrapping(inside).open then 0 else |Wrapping(inside).open|
  {
    NamedMarkers(inside);
    OpensDiffer(inside, name);
    var n := SplitMarkerStands(name, inside, m, at);
    SplitWholes(name, inside, m, n);
    SplitPositions(name, inside);
  }

  lemma {:induction false} FirstOfOne(s: string, p: string, from: nat, at: nat)
    requires from <= at && OccursAt(s, p, at) && forall i: nat :: OccursAt(s, p, i) ==> i == at
    ensures FindFrom(s, p, from) == Some(at)
  {
    FindFromIsFirst(s, p, from);
  }

  /** The inner block is the first one of its tag. */
  lemma {:induction false} InnerOpensFirst(name: string, inside: string)
    requires IsName(name) && IsName(inside) && name != inside
    ensures Find(Spell(SplitMarker(name, inside)), Wrapping(inside).open) == Some(|name| + 1)
  {
    var text, open := Spell(SplitMarker(name, inside)), Wrapping(inside).open;
    InnerOccurs(name, inside);
    forall x: nat | OccursAt(text, open, x) ensures x == |name| + 1 {
      InnerOccursOnce(name, inside, open, x);
    }
    FirstOfOne(text, open, 0, |name| + 1);
  }

  lemma {:induction false} InnerClosesFirst(name: string, inside: string)
    requires IsName(name) && IsName(inside) && name != inside
    ensures |name| + 1 <= |Spell(SplitMarker(name, inside))|
    ensures FindFrom(Spell(SplitMarker(name, inside)), Wrapping(inside).close, |name| + 1)
         == Some(|name| + 1 + |Wrapping(inside).open|)
  {
    var text, i := Spell(SplitMarker(name, inside)), Wrapping(inside);
    InnerOccurs(name, inside);
    OpensDiffer(inside, inside);
    forall x: nat | OccursAt(text, i.close, x) ensures x == |name| + 1 + |i.open| {
      InnerOccursOnce(name, inside, i.close, x);
    }
    FirstOfOne(text, i.close, |name| + 1, |name| + 1 + |i.open|);
  }

  lemma {:induction false} PiecesOccur(a: string, b: string, c: string, d: string)
    ensures OccursAt(a + (b + (c + d)), b, |a|) && OccursAt(a + (b + (c + d)), c, |a| + |b|)
  {
    var s := a + (b + (c + d));
    assert s[|a|..|a| + |b|] == b && s[|a| + |b|..|a| + |b| + |c|] == c;
  }

  lemma {:induction false} InnerOccurs(name: string, inside: string)
    ensures var text, i, at := Spell(SplitMarker(name, inside)), Wrapping(inside), |name| + 1;
      OccursAt(text, i.open, at) && OccursAt(text, i.close, at + |i.open|)
  {
    SplitSpells(name, inside);
    PiecesOccur("<" + name, Wrapping(inside).open, Wrapping(inside).close, ">" + Wrapping(name).close);
  }

  lemma {:induction false} PairIsBlock(tag: Tag)
    ensures HasBlock(tag.open + tag.close, tag)
  {
    var s, n := tag.open + tag.close, |tag.open|;
    assert s[0..n] == tag.open && s[n..n + |tag.close|] == tag.close;
    assert OccursAt(s, tag.open, 0) && OccursAt(s, tag.close, n);
  }

  lemma {:induction false} PairIsOwn(name: string, other: string)
    requires IsName(name) && IsName(other) && name != other
    ensures !HasBlock(Wrapping(name).open + Wrapping(name).close, Wrapping(other))
  {
    var tag, open := Wrapping(name), Wrapping(other).open;
    var parts := [Whole(tag.open), Whole(tag.close)];
    NamedMarkers(name);
    NamedMarkers(other);
    OpensDiffer(other, name);
    SpellAppend([Whole(tag.open)], [Whole(tag.close)]);
    SpellOne(Whole(tag.open));
    SpellOne(Whole(tag.close));
    assert parts == [Whole(tag.open)] + [Whole(tag.close)];
    forall at: nat ensures !OccursAt(Spell(parts), open, at) {
      if OccursAt(Spell(parts), open, at) {
        var n, length := MarkersStand(parts, open, at);
      }
    }
  }

  lemma {:induction false} OuterPieces(a: string, b: string, c: string, d: string)
    ensures var s := a + (b + (c + d));
      |a| + |b| + |c| <= |s| && s[..|a|] == a && s[|a| + |b| + |c|..] == d
  {}

  lemma {:induction false} NoLineFeed(s: string, end: nat, after: string)
    requires end <= |s| && s[end..] == after && after != "" && after[0] != '\n'
    ensures FromNextLine(s, end) == after
  {
    assert s[end] == after[0];
  }

  /** Where cutting out the first block leaves no other, that is all that stripping does. */
  lemma {:induction false} OnlyBlockDisappears(s: string, tag: Tag, start: nat, closeStart: nat, rest: string)
    requires tag.close != "" && Find(s, tag.open) == Some(start)
    requires start <= |s| && FindFrom(s, tag.close, start) == Some(closeStart)
    requires closeStart + |tag.close| <= |s| && s[..start] + FromNextLine(s, closeStart + |tag.close|) == rest
    requires !HasBlock(rest, tag)
    ensures Stripped(s, tag) == rest
  {
    BlockDisappears(s, tag, start, closeStart);
    StrippedIsNormalForm(rest, tag);
  }

  lemma {:induction false} MiddleBlockDisappears(before: string, tag: Tag, after: string)
    requires tag.close != "" && after != "" && after[0] != '\n' && !HasBlock(before + after, tag)
    requires var s := before + (tag.open + (tag.close + after));
      Find(s, tag.open) == Some(|before|) && FindFrom(s, tag.close, |before|) == Some(|before| + |tag.open|)
    ensures Stripped(before + (tag.open + (tag.close + after)), tag) == before + after
  {
    var s := before + (tag.open + (tag.close + after));
    OuterPieces(before, tag.open, tag.close, after);
    NoLineFeed(s, |before| + |tag.open| + |tag.close|, after);
    OnlyBlockDisappears(s, tag, |before|, |before| + |tag.open|, before + after);
  }

  /** Cutting the inner block out puts the outer marker together. */
  lemma {:induction false} InnerCutJoins(name: string, inside: string)
    requires IsName(name) && IsName(inside) && name != inside
    ensures Stripped(Spell(SplitMarker(name, inside)), Wrapping(inside)) == Wrapping(name).open + Wrapping(name).close
  {
    var close := Wrapping(name).close;
    SplitSpells(name, inside);
    InnerOpensFirst(name, inside);
    InnerClosesFirst(name, inside);
    PairIsOwn(name, inside);
    Reassociate("<" + name, ">", close);
    MiddleBlockDisappears("<" + name, Wrapping(inside), ">" + close);
  }

  /** A tag but the last, split by a block of the last, is left after all stages. */
  lemma {:induction false} SplitMarkerIsLeft(names: seq<string>, k: nat)
    requires AreNames(names) && k + 1 < |names|
    ensures var text := Spell(SplitMarker(names[k], names[|names| - 1]));
      HasBlock(StrippedOfAll(text, TagsOf(names)), Wrapping(names[k]))
  {
    var tags, n := TagsOf(names), |names| - 1;
    var text := Spell(SplitMarker(names[k], names[n]));
    forall i | 0 <= i < n ensures !HasBlock(text, tags[..n][i]) {
      SplitHoldsOther(names[k], names[n], names[i]);
    }
    StagesOnlyDelete(text, tags[..n]);
    InnerCutJoins(names[k], names[n]);
    PairIsBlock(Wrapping(names[k]));
  }

  lemma {:induction false} SplitIsComposed(names: seq<string>, k: nat, chars: iset<char>)
    requires AreNames(names) && k + 1 < |names| && Spellable(Wrapping(names[k]).open, chars)
    ensures Composed(SplitMarker(names[k], names[|names| - 1]), TagsOf(names), chars)
  {
    var tags, parts := TagsOf(names), SplitMarker(names[k], names[|names| - 1]);
    var open := Wrapping(names[k]).open;
    assert tags[k] in tags && tags[|names| - 1] in tags;
    assert open[|open| - 1] == '>';
    assert forall i :: 0 <= i < |names[k]| + 1 ==> parts[i] == Other(open[i]);
  }

  /** Every text made of whole markers and of characters from a set is stripped clean by all stages, exactly when
      those characters can spell the opening marker of no tag but the last. */
  lemma {:induction false} StagesLeaveNoneExactly(names: seq<string>, chars: iset<char>)
    requires AreNames(names)
    ensures (forall parts :: Composed(parts, TagsOf(names), chars) ==> LeaveNone(Spell(parts), TagsOf(names)))
      <==> forall i :: 0 <= i < |names| - 1 ==> !Spellable(Wrapping(names[i]).open, chars)
  {
    if k :| 0 <= k < |names| - 1 && Spellable(Wrapping(names[k]).open, chars) {
      var parts := SplitMarker(names[k], names[|names| - 1]);
      SplitIsComposed(names, k, chars);
      SplitMarkerIsLeft(names, k);
      assert TagsOf(names)[k] in TagsOf(names);
      assert !LeaveNone(Spell(parts), TagsOf(names));
    } else {
      forall parts | Composed(parts, TagsOf(names), chars) ensures LeaveNone(Spell(parts), TagsOf(names)) {
        UnspellableLeaveNone(parts, names, chars);
      }
    }
  }

  ghost predicate BeginsMarker(s: string, tags: seq<Tag>, i: nat) {
    exists tag :: tag in tags && (OccursAt(s, tag.open, i) || OccursAt(s, tag.close, i))
  }

  /** Every opening bracket of the text begins a marker of one of the tags. */
  ghost predicate BracketsBeginMarkers(s: string, tags: seq<Tag>) {
    forall i :: 0 <= i < |s| && s[i] == '<' ==> BeginsMarker(s, tags, i)
  }

  lemma {:induction false} SuffixBeginsMarkers(s: string, tags: seq<Tag>, n: nat)
    requires n <= |s| && BracketsBeginMarkers(s, tags)
    ensures BracketsBeginMarkers(s[n..], tags)
  {
    forall i | 0 <= i < |s| - n && s[n..][i] == '<' ensures BeginsMarker(s[n..], tags, i) {
      assert s[n + i] == '<' && BeginsMarker(s, tags, n + i);
      var tag :| tag in tags && (OccursAt(s, tag.open, n + i) || OccursAt(s, tag.close, n + i));
      OccursInSuffix(s, tag.open, n, i);
      OccursInSuffix(s, tag.close, n, i);
    }
  }

  lemma {:induction false} OccursInSuffix(s: string, p: string, n: nat, i: nat)
    requires n <= |s|
    ensures OccursAt(s[n..], p, i) <==> OccursAt(s, p, n + i)
  {
    if n + i + |p| <= |s| {
      assert s[n..][i..i + |p|] == s[n + i..n + i + |p|];
    }
  }

  predicate IsNoBracket(c: char) { c != '<' }

  ghost function NoBrackets(): iset<char> {
    iset c: char | IsNoBracket(c)
  }

  lemma {:induction false} MarkerInFront(s: string, tags: seq<Tag>) returns (tag: Tag, m: string)
    requires BeginsMarker(s, tags, 0)
    ensures tag in tags && IsMarkerOf(m, tag) && StartsWith(s, m)
  {
    tag :| tag in tags && (OccursAt(s, tag.open, 0) || OccursAt(s, tag.close, 0));
    m := if OccursAt(s, tag.open, 0) then tag.open else tag.close;
    assert s[0..|m|] == m;
  }

  lemma {:induction false} FirstPart(s: string, names: seq<string>) returns (part: Part)
    requires s != "" && AreNames(names) && BracketsBeginMarkers(s, TagsOf(names))
    ensures StartsWith(s, Spelling(part)) && Spelling(part) != "" && Composed([part], TagsOf(names), NoBrackets())
  {
    part := Other(s[0]);
    if s[0] == '<' {
      assert BeginsMarker(s, TagsOf(names), 0);
      var tag, m := MarkerInFront(s, TagsOf(names));
      part := Whole(m);
      var i :| 0 <= i < |names| && TagsOf(names)[i] == tag;
      NamedMarkers(names[i]);
    }
  }

  lemma {:induction false} PartsOf(s: string, names: seq<string>) returns (parts: seq<Part>)
    requires AreNames(names) && BracketsBeginMarkers(s, TagsOf(names))
    ensures Spell(parts) == s && Composed(parts, TagsOf(names), NoBrackets())
    decreases |s|
  {
    parts := [];
    if s != "" {
      var part := FirstPart(s, names);
      var length := |Spelling(part)|;
      SuffixBeginsMarkers(s, TagsOf(names), length);
      var more := PartsOf(s[length..], names);
      parts := [part] + more;
      SpellCons(part, more);
      assert part in [part];
    }
  }

  /** So a text is stripped clean when each of its opening brackets begins a marker. */
  lemma {:induction false} BracketedLeaveNone(s: string, names: seq<string>)
    requires AreNames(names) && BracketsBeginMarkers(s, TagsOf(names))
    ensures LeaveNone(s, TagsOf(names))
  {
    var parts := PartsOf(s, names);
    forall i | 0 <= i < |names| - 1 ensures !Spellable(Wrapping(names[i]).open, NoBrackets()) {
      var open := Wrapping(names[i]).open;
      assert open[0] == '<' && '<' in open && !IsNoBracket('<');
    }
    UnspellableLeaveNone(parts, names, NoBrackets());
  }

  // ---------------------------------------------------------------------------------------------
  // The seven stages
  // ---------------------------------------------------------------------------------------------

  const EMBEDDED_NAMES: seq<string> := [
    "environment_context", "turn_aborted", "subagent_notification", "collaboration_mode",
    "permissions instructions", "skills_instructions", "plugins_instructions"]

  lemma {:induction false} EmbeddedTagsAreNamed()
    ensures EMBEDDED_TAGS == TagsOf(EMBEDDED_NAMES)
  {}

  lemma {:induction false} EmbeddedArePlain()
    ensures forall i :: 0 <= i < |EMBEDDED_NAMES| ==> IsName(EMBEDDED_NAMES[i])
  {}

  lemma {:induction false} EmbeddedDiffer()
    ensures forall i, j :: 0 <= i < j < |EMBEDDED_NAMES| ==> EMBEDDED_NAMES[i] != EMBEDDED_NAMES[j]
  {
    assert EMBEDDED_NAMES[0][0] == 'e' && EMBEDDED_NAMES[5][0] == 's';
  }

  lemma {:induction false} EmbeddedAreNames()
    ensures AreNames(EMBEDDED_NAMES)
  {
    EmbeddedArePlain();
    EmbeddedDiffer();
  }

  /** The seven stages clean every text made of whole markers and of characters from a set exactly when those
      characters cannot spell the opening marker of any of the first six tags. */
  lemma {:induction false} SevenStagesLeaveNoneExactly(chars: iset<char>)
    ensures AllClose(EMBEDDED_TAGS) && |EMBEDDED_TAGS| == 7
    ensures (forall parts :: Composed(parts, EMBEDDED_TAGS, chars) ==> LeaveNone(Spell(parts), EMBEDDED_TAGS))
      <==> forall i :: 0 <= i < 6 ==> !Spellable(EMBEDDED_TAGS[i].open, chars)
  {
    EmbeddedTagsAreNamed();
    EmbeddedAreNames();
    StagesLeaveNoneExactly(EMBEDDED_NAMES, chars);
  }

  /** They clean every text in which each opening bracket begins one of the fourteen markers. */
  lemma {:induction false} SevenStagesCleanBracketed(s: string)
    requires BracketsBeginMarkers(s, EMBEDDED_TAGS)
    ensures AllClose(EMBEDDED_TAGS) && LeaveNone(s, EMBEDDED_TAGS)
  {
    EmbeddedTagsAreNamed();
    EmbeddedAreNames();
    BracketedLeaveNone(s, EMBEDDED_NAMES);
  }

  /** A text on which they leave a block: `<environment_context` and `>`, with an empty `plugins_instructions` block
      between and `</environment_context>` behind. */
  lemma {:induction false} SevenStagesLeaveBlock()
    ensures AllClose(EMBEDDED_TAGS)
    ensures var s := Spell(SplitMarker("environment_context", "plugins_instructions"));
      HasBlock(StrippedOfAll(s, EMBEDDED_TAGS), Wrapping("environment_context"))
  {
    EmbeddedTagsAreNamed();
    EmbeddedAreNames();
    SplitMarkerIsLeft(EMBEDDED_NAMES, 0);
  }
}
