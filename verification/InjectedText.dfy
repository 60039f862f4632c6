/** Hiding the context blocks that Codex injects into user messages
    (builtin-plugins/codex-runtime/src/session_messages.rs). */
module InjectedText {
  import opened Wrappers
  import opened Text

  // ---------------------------------------------------------------------------------------------
  // Searching
  // ---------------------------------------------------------------------------------------------

  /** The first position from `from` on where the pattern occurs. */
  function FindFrom(s: string, p: string, from: nat): (r: Option<nat>)
    requires from <= |s|
    ensures r.Some? ==> from <= r.value && r.value + |p| <= |s|
    decreases |s| - from
  {
    if OccursAt(s, p, from) then Some(from)
    else if from == |s| then None
    else FindFrom(s, p, from + 1)
  }

  /** It is the first occurrence, if there is one. */
  lemma {:induction false} FindFromIsFirst(s: string, p: string, from: nat)
    requires from <= |s|
    ensures FindFrom(s, p, from).Some? ==> OccursAt(s, p, FindFrom(s, p, from).value)
    ensures forall i :: from <= i <= |s| && OccursAt(s, p, i) ==>
      FindFrom(s, p, from).Some? && FindFrom(s, p, from).value <= i
    decreases |s| - from
  {
    if !OccursAt(s, p, from) && from < |s| {
      FindFromIsFirst(s, p, from + 1);
    }
  }

  function Find(s: string, p: string): Option<nat> {
    FindFrom(s, p, 0)
  }

  // ---------------------------------------------------------------------------------------------
  // Subsequences
  // ---------------------------------------------------------------------------------------------

  predicate IsSubsequence(a: string, b: string) {
    a == [] || (b != [] && ((a[0] == b[0] && IsSubsequence(a[1..], b[1..])) || IsSubsequence(a, b[1..])))
  }

  lemma {:induction false} SubsequenceSelf(a: string)
    ensures IsSubsequence(a, a)
  {
    if a != [] {
      SubsequenceSelf(a[1..]);
    }
  }

  lemma {:induction false} SubsequenceTrans(a: string, b: string, c: string)
    requires IsSubsequence(a, b) && IsSubsequence(b, c)
    ensures IsSubsequence(a, c)
    decreases |c|
  {
    if a != [] {
      if b[0] == c[0] && IsSubsequence(b[1..], c[1..]) {
        if a[0] == b[0] && IsSubsequence(a[1..], b[1..]) {
          SubsequenceTrans(a[1..], b[1..], c[1..]);
        } else {
          SubsequenceTrans(a, b[1..], c[1..]);
        }
      } else {
        SubsequenceTrans(a, b, c[1..]);
      }
    }
  }

  lemma {:induction false} SubsequenceSkip(a: string, skipped: string, b: string)
    requires IsSubsequence(a, b)
    ensures IsSubsequence(a, skipped + b)
  {
    if skipped == [] {
      assert skipped + b == b;
    } else {
      SubsequenceSkip(a, skipped[1..], b);
      assert (skipped + b)[1..] == skipped[1..] + b;
    }
  }

  /** Deleting a range leaves a subsequence. */
  lemma {:induction false} SubsequenceDelete(a: string, deleted: string, b: string)
    ensures IsSubsequence(a + b, a + deleted + b)
  {
    if a == [] {
      SubsequenceSelf(b);
      SubsequenceSkip(b, deleted, b);
      assert a + b == b && a + deleted + b == deleted + b;
    } else {
      SubsequenceDelete(a[1..], deleted, b);
      assert (a + b)[1..] == a[1..] + b && (a + deleted + b)[1..] == a[1..] + deleted + b;
    }
  }

  // ---------------------------------------------------------------------------------------------
  // Wrapped blocks
  // ---------------------------------------------------------------------------------------------

  datatype Tag = Tag(open: string, close: string)

  /** An opening tag with a closing tag at or after it. */
  ghost predicate HasBlock(s: string, tag: Tag) {
    exists i, j :: i <= j && OccursAt(s, tag.open, i) && OccursAt(s, tag.close, j)
  }

  /** The end of the block that starts at `start`, with the line feed after it. */
  function BlockEnd(s: string, tag: Tag, closeStart: nat): (end: nat)
    requires closeStart + |tag.close| <= |s|
    ensures closeStart + |tag.close| <= end <= |s|
  {
    var end := closeStart + |tag.close|;
    if end < |s| && s[end] == '\n' then end + 1 else end
  }

  /** The first opening tag and the first closing tag from there, if both exist. */
  function FirstBlock(s: string, tag: Tag): (r: Option<(nat, nat)>)
    ensures r.Some? ==> r.value.0 + |tag.close| <= r.value.1 <= |s|
  {
    match Find(s, tag.open)
    case None => None
    case Some(start) =>
      match FindFrom(s, tag.close, start)
      case None => None
      case Some(closeStart) => Some((start, BlockEnd(s, tag, closeStart)))
  }

  function Stripped(s: string, tag: Tag): string
    requires tag.close != ""
    decreases |s|
  {
    match FirstBlock(s, tag)
    case None => s
    case Some(block) => Stripped(s[..block.0] + s[block.1..], tag)
  }

  /** The search for the first pair misses no block: when the first opening tag has no closing tag after it,
      no later one has. */
  lemma {:induction false} FirstBlockIsComplete(s: string, tag: Tag)
    ensures FirstBlock(s, tag).None? <==> !HasBlock(s, tag)
  {
    FindFromIsFirst(s, tag.open, 0);
    if Find(s, tag.open).Some? {
      FindFromIsFirst(s, tag.close, Find(s, tag.open).value);
    }
  }

  /** `strip_all_wrapped_blocks`: terminates for any non-empty closing tag. */
  method StripAllWrappedBlocks(text: string, tag: Tag) returns (content: string)
    requires tag.close != ""
    ensures content == Stripped(text, tag)
  {
    content := text;
    while true
      invariant Stripped(content, tag) == Stripped(text, tag)
      decreases |content|
    {
      var block := FirstBlock(content, tag);
      if block.None? {
        break;
      }
      content := content[..block.value.0] + content[block.value.1..];
    }
  }

  /** No opening tag followed by its closing tag is left. */
  lemma {:induction false} StrippedHasNoBlock(s: string, tag: Tag)
    requires tag.close != ""
    ensures !HasBlock(Stripped(s, tag), tag)
    decreases |s|
  {
    FirstBlockIsComplete(s, tag);
    var first := FirstBlock(s, tag);
    if first.Some? {
      StrippedHasNoBlock(s[..first.value.0] + s[first.value.1..], tag);
    }
  }

  lemma {:induction false} CutOut(s: string, tag: Tag) returns (before: string, block: string, after: string)
    requires tag.close != "" && FirstBlock(s, tag).Some?
    ensures s == before + block + after && block != "" && Stripped(s, tag) == Stripped(before + after, tag)
  {
    var start, end := FirstBlock(s, tag).value.0, FirstBlock(s, tag).value.1;
    before, block, after := s[..start], s[start..end], s[end..];
  }

  /** Stripping only deletes. */
  lemma {:induction false} StrippedIsSubsequence(s: string, tag: Tag)
    requires tag.close != ""
    ensures IsSubsequence(Stripped(s, tag), s)
    decreases |s|
  {
    if FirstBlock(s, tag).None? {
      SubsequenceSelf(s);
    } else {
      var before, block, after := CutOut(s, tag);
      StrippedIsSubsequence(before + after, tag);
      SubsequenceDelete(before, block, after);
      SubsequenceTrans(Stripped(s, tag), before + after, s);
    }
  }

  lemma {:induction false} OneBlockLess(s: string, tag: Tag)
    requires tag.close != "" && FirstBlock(s, tag).Some?
    ensures var block := FirstBlock(s, tag).value;
      Stripped(s, tag) == Stripped(s[..block.0] + s[block.1..], tag)
  {}

  /** The text from `end` on, without the line feed it starts with. */
  function FromNextLine(s: string, end: nat): string
    requires end <= |s|
  {
    if end < |s| && s[end] == '\n' then s[end + 1..] else s[end..]
  }

  lemma {:induction false} BlockBounds(s: string, tag: Tag, start: nat, closeStart: nat)
    requires tag.close != "" && Find(s, tag.open) == Some(start)
    requires start <= |s| && FindFrom(s, tag.close, start) == Some(closeStart)
    ensures start < closeStart + |tag.close| <= |s|
    ensures FirstBlock(s, tag).Some? && FirstBlock(s, tag).value.0 == start
    ensures s[FirstBlock(s, tag).value.1..] == FromNextLine(s, closeStart + |tag.close|)
  {}

  /** A first block goes as a whole, with one line feed after it, and what stood around it is joined. */
  lemma {:induction false} BlockDisappears(s: string, tag: Tag, start: nat, closeStart: nat)
    requires tag.close != "" && Find(s, tag.open) == Some(start)
    requires start <= |s| && FindFrom(s, tag.close, start) == Some(closeStart)
    ensures start < closeStart + |tag.close| <= |s|
    ensures Stripped(s, tag) == Stripped(s[..start] + FromNextLine(s, closeStart + |tag.close|), tag)
  {
    BlockBounds(s, tag, start, closeStart);
    OneBlockLess(s, tag);
  }

  /** Stripping changes a text exactly when it has a block, and a second time changes nothing. */
  lemma {:induction false} StrippedIsNormalForm(s: string, tag: Tag)
    requires tag.close != ""
    ensures Stripped(s, tag) == s <==> !HasBlock(s, tag)
    ensures Stripped(Stripped(s, tag), tag) == Stripped(s, tag)
  {
    StrippedHasNoBlock(s, tag);
    FirstBlockIsComplete(s, tag);
    FirstBlockIsComplete(Stripped(s, tag), tag);
  }

  // ---------------------------------------------------------------------------------------------
  // Known prefixes
  // ---------------------------------------------------------------------------------------------

  function Wrapping(name: string): Tag {
    Tag("<" + name + ">", "</" + name + ">")
  }

  const AGENTS_START: string := "# AGENTS.md instructions"
  const INSTRUCTIONS: Tag := Wrapping("INSTRUCTIONS")

  const PREFIX_TAGS: seq<Tag> := [
    Wrapping("environment_context"), Wrapping("turn_aborted"), Wrapping("subagent_notification"),
    Wrapping("collaboration_mode"), Wrapping("permissions instructions")]

  const EMBEDDED_TAGS: seq<Tag> :=
    PREFIX_TAGS + [Wrapping("skills_instructions"), Wrapping("plugins_instructions")]

  predicate AllClose(tags: seq<Tag>) {
    forall tag :: tag in tags ==> tag.close != ""
  }

  /** What follows the first closing marker. */
  function StripThrough(s: string, marker: string): (r: Option<string>)
    ensures r.Some? <==> Contains(s, marker)
    ensures r.Some? ==> |r.value| + |marker| <= |s|
  {
    FindFromIsFirst(s, marker, 0);
    match Find(s, marker)
    case None => None
    case Some(i) => Some(s[i + |marker|..])
  }

  function StripWrapped(s: string, tag: Tag): Option<string> {
    if StartsWith(s, tag.open) then StripThrough(s, tag.close) else None
  }

  /** The first of the tags that wraps a block at the start. */
  function StripFirst(s: string, tags: seq<Tag>): (r: Option<string>)
    ensures r.Some? <==> exists tag :: tag in tags && StartsWith(s, tag.open) && Contains(s, tag.close)
    ensures r.Some? ==> exists tag :: tag in tags && StripWrapped(s, tag) == r
  {
    if tags == [] then None
    else
      assert tags == [tags[0]] + tags[1..];
      var first := StripWrapped(s, tags[0]);
      if first.Some? then first else StripFirst(s, tags[1..])
  }

  predicate IsAgentsText(s: string) {
    StartsWith(s, AGENTS_START) && Contains(s, INSTRUCTIONS.open) && Contains(s, INSTRUCTIONS.close)
  }

  /** The text opens a known block that is closed somewhere after. */
  ghost predicate StartsInjected(s: string) {
    IsAgentsText(s) || exists tag :: tag in PREFIX_TAGS && StartsWith(s, tag.open) && Contains(s, tag.close)
  }

  /** The marker ends the piece and does not occur before. */
  predicate EndsAtFirst(piece: string, marker: string) {
    EndsWith(piece, marker) && forall i :: 0 <= i < |piece| - |marker| ==> !OccursAt(piece, marker, i)
  }

  /** A text that consists of the piece and the rest opens a block of this tag, and the piece goes up to its first
      closing marker. */
  predicate IsBlockOf(piece: string, rest: string, tag: Tag) {
    StartsWith(piece + rest, tag.open) && EndsAtFirst(piece, tag.close)
  }

  ghost predicate IsKnownBlock(piece: string, rest: string) {
    || (IsBlockOf(piece, rest, Tag(AGENTS_START, INSTRUCTIONS.close)) && Contains(piece + rest, INSTRUCTIONS.open))
    || exists tag :: tag in PREFIX_TAGS && IsBlockOf(piece, rest, tag)
  }

  lemma {:induction false} FirstThrough(s: string, marker: string) returns (piece: string, rest: string)
    requires Contains(s, marker)
    ensures s == piece + rest && StripThrough(s, marker) == Some(rest) && EndsAtFirst(piece, marker)
  {
    FindFromIsFirst(s, marker, 0);
    var i := Find(s, marker).value;
    piece, rest := s[..i + |marker|], s[i + |marker|..];
    forall j | 0 <= j < i ensures !OccursAt(piece, marker, j) {
      assert piece[j..j + |marker|] == s[j..j + |marker|];
      assert OccursAt(piece, marker, j) == OccursAt(s, marker, j);
    }
  }

  lemma {:induction false} ThroughFirst(piece: string, rest: string, marker: string)
    requires EndsAtFirst(piece, marker)
    ensures StripThrough(piece + rest, marker) == Some(rest)
  {
    var s, end := piece + rest, |piece| - |marker|;
    FindFromIsFirst(s, marker, 0);
    forall j | 0 <= j <= end ensures OccursAt(s, marker, j) == OccursAt(piece, marker, j) {
      assert piece[j..j + |marker|] == s[j..j + |marker|];
    }
    assert OccursAt(piece, marker, end);
    assert s[end + |marker|..] == rest;
  }

  /** The opening markers tell the tags apart, and none starts with white space or like an AGENTS.md text. */
  predicate ToldApart(tags: seq<Tag>) {
    && (forall tag :: tag in tags ==> tag.close != "" && |tag.open| > 1 && tag.open[0] == '<')
    && (forall a, b :: a in tags && b in tags && a != b ==> a.open[1] != b.open[1])
  }

  lemma {:induction false} WrappingMarks(name: string)
    requires name != ""
    ensures var tag := Wrapping(name);
      tag.close != "" && |tag.open| > 1 && tag.open[0] == '<' && tag.open[1] == name[0]
  {}

  lemma {:induction false} TagsToldApart()
    ensures ToldApart(PREFIX_TAGS)
  {
    WrappingMarks("environment_context");
    WrappingMarks("turn_aborted");
    WrappingMarks("subagent_notification");
    WrappingMarks("collaboration_mode");
    WrappingMarks("permissions instructions");
  }

  lemma {:induction false} TagsClose()
    ensures AllClose(PREFIX_TAGS) && AllClose(EMBEDDED_TAGS) && INSTRUCTIONS.close != ""
  {}

  lemma {:induction false} StartsAt(s: string, p: string, i: nat)
    requires StartsWith(s, p) && i < |p|
    ensures s[i] == p[i]
  {
    assert s[..|p|][i] == s[i];
  }

  /** Tags that are told apart leave only one way to strip a block. */
  lemma {:induction false} FirstOfTags(piece: string, rest: string, tags: seq<Tag>, tag: Tag)
    requires ToldApart(tags) && tag in tags && IsBlockOf(piece, rest, tag)
    ensures StripFirst(piece + rest, tags) == Some(rest) && piece != "" && piece[0] == '<'
  {
    var s := piece + rest;
    ThroughFirst(piece, rest, tag.close);
    assert StripWrapped(s, tag) == Some(rest);
    StartsAt(s, tag.open, 0);
    StartsAt(s, tag.open, 1);
    assert StartsWith(s, tag.open) && Contains(s, tag.close);
    assert StripFirst(s, tags).Some?;
    var other :| other in tags && StripWrapped(s, other) == StripFirst(s, tags);
    StartsAt(s, other.open, 1);
  }

  function StripKnownPrefix(s: string): (r: Option<string>)
    ensures r.Some? <==> StartsInjected(s)
    ensures r.Some? ==> |r.value| < |s|
  {
    TagsClose();
    if IsAgentsText(s) then StripThrough(s, INSTRUCTIONS.close) else StripFirst(s, PREFIX_TAGS)
  }

  lemma {:induction false} FirstIsBlock(s: string, tags: seq<Tag>) returns (tag: Tag, piece: string, rest: string)
    requires StripFirst(s, tags).Some?
    ensures s == piece + rest && StripFirst(s, tags) == Some(rest)
    ensures tag in tags && IsBlockOf(piece, rest, tag)
  {
    tag :| tag in tags && StripWrapped(s, tag) == StripFirst(s, tags);
    piece, rest := FirstThrough(s, tag.close);
  }

  /** Stripping cuts off one whole known block. */
  lemma {:induction false} StripIsBlock(s: string) returns (piece: string, rest: string)
    requires StartsInjected(s)
    ensures s == piece + rest && StripKnownPrefix(s) == Some(rest) && IsKnownBlock(piece, rest)
  {
    if IsAgentsText(s) {
      piece, rest := FirstThrough(s, INSTRUCTIONS.close);
      assert IsBlockOf(piece, rest, Tag(AGENTS_START, INSTRUCTIONS.close));
    } else {
      var tag;
      tag, piece, rest := FirstIsBlock(s, PREFIX_TAGS);
    }
  }

  lemma {:induction false} AgentsMark(s: string)
    ensures |AGENTS_START| > 0 && (StartsWith(s, AGENTS_START) ==> s != "" && s[0] == '#')
  {
    if StartsWith(s, AGENTS_START) {
      StartsAt(s, AGENTS_START, 0);
    }
  }

  lemma {:induction false} AgentsIsStripped(piece: string, rest: string)
    requires IsBlockOf(piece, rest, Tag(AGENTS_START, INSTRUCTIONS.close))
    requires Contains(piece + rest, INSTRUCTIONS.open)
    ensures StripKnownPrefix(piece + rest) == Some(rest) && piece != "" && piece[0] == '#'
  {
    AgentsMark(piece + rest);
    ThroughFirst(piece, rest, INSTRUCTIONS.close);
  }

  lemma {:induction false} TaggedIsStripped(piece: string, rest: string, tag: Tag)
    requires tag in PREFIX_TAGS && IsBlockOf(piece, rest, tag)
    ensures StripKnownPrefix(piece + rest) == Some(rest) && piece != "" && piece[0] == '<'
  {
    TagsToldApart();
    FirstOfTags(piece, rest, PREFIX_TAGS, tag);
    AgentsMark(piece + rest);
  }

  /** Every known block is cut off as a whole, whatever follows it. */
  lemma {:induction false} BlockIsStripped(piece: string, rest: string)
    requires IsKnownBlock(piece, rest)
    ensures StripKnownPrefix(piece + rest) == Some(rest) && piece != "" && !IsWhitespace(piece[0])
  {
    if tag :| tag in PREFIX_TAGS && IsBlockOf(piece, rest, tag) {
      TaggedIsStripped(piece, rest, tag);
    } else {
      AgentsIsStripped(piece, rest);
    }
  }

  function LeadingBlank(s: string): string {
    if s != [] && IsWhitespace(s[0]) then [s[0]] + LeadingBlank(s[1..]) else ""
  }

  lemma {:induction false} TrimStartCuts(s: string)
    ensures s == LeadingBlank(s) + TrimStart(s) && IsBlank(LeadingBlank(s))
    ensures TrimStart(s) != "" ==> !IsWhitespace(TrimStart(s)[0])
  {
    if s != [] && IsWhitespace(s[0]) {
      TrimStartCuts(s[1..]);
      Reassociate([s[0]], LeadingBlank(s[1..]), TrimStart(s[1..]));
    }
  }

  lemma {:induction false} TrimStartSkips(blank: string, s: string)
    requires IsBlank(blank)
    ensures TrimStart(blank + s) == TrimStart(s)
  {
    if blank == "" {
      assert blank + s == s;
    } else {
      assert (blank + s)[1..] == blank[1..] + s;
      TrimStartSkips(blank[1..], s);
    }
  }

  /** What the loop of `user_visible_content` leaves. */
  function PrefixStripped(content: string): string
    decreases |content|
  {
    TrimStartCuts(content);
    match StripKnownPrefix(TrimStart(content))
    case None => TrimStart(content)
    case Some(rest) => PrefixStripped(rest)
  }

  method StripPrefixes(content: string) returns (remaining: string)
    ensures remaining == PrefixStripped(content)
  {
    remaining := TrimStart(content);
    TrimStartCuts(content);
    while true
      invariant TrimStart(remaining) == remaining
      invariant PrefixStripped(remaining) == PrefixStripped(content)
      decreases |remaining|
    {
      var stripped := StripKnownPrefix(remaining);
      if stripped.None? {
        break;
      }
      TrimStartCuts(stripped.value);
      remaining := TrimStart(stripped.value);
    }
  }

  /** The pieces, in front of the rest, are white space and whole known blocks. */
  ghost predicate IsInjectedPrefix(pieces: seq<string>, rest: string) {
    pieces == []
    || ((IsBlank(pieces[0]) || IsKnownBlock(pieces[0], Flatten(pieces[1..]) + rest))
        && IsInjectedPrefix(pieces[1..], rest))
  }

  predicate StartsVisible(s: string) {
    s == "" || !IsWhitespace(s[0])
  }

  lemma {:induction false} OneMorePiece(piece: string, pieces: seq<string>, rest: string, tail: string)
    requires IsInjectedPrefix(pieces, rest) && Flatten(pieces) + rest == tail
    requires IsBlank(piece) || IsKnownBlock(piece, tail)
    ensures IsInjectedPrefix([piece] + pieces, rest) && Flatten([piece] + pieces) + rest == piece + tail
  {
    assert ([piece] + pieces)[1..] == pieces;
    FlattenCons(piece, pieces);
    Reassociate(piece, Flatten(pieces), rest);
  }

  lemma {:induction false} DropOne(content: string) returns (blank: string, piece: string, rest: string)
    requires StartsInjected(TrimStart(content))
    ensures content == blank + (piece + rest) && |rest| < |content|
    ensures IsBlank(blank) && IsKnownBlock(piece, rest) && PrefixStripped(content) == PrefixStripped(rest)
  {
    TrimStartCuts(content);
    blank := LeadingBlank(content);
    piece, rest := StripIsBlock(TrimStart(content));
  }

  /** What is dropped in front is white space and known blocks, each up to its first closing marker, and what is
      left starts with neither. */
  lemma {:induction false} DroppedIsInjected(content: string) returns (pieces: seq<string>)
    ensures IsInjectedPrefix(pieces, PrefixStripped(content)) && Flatten(pieces) + PrefixStripped(content) == content
    ensures StartsVisible(PrefixStripped(content)) && !StartsInjected(PrefixStripped(content))
    decreases |content|
  {
    var left := PrefixStripped(content);
    if StartsInjected(TrimStart(content)) {
      var blank, piece, rest := DropOne(content);
      pieces := DroppedIsInjected(rest);
      OneMorePiece(piece, pieces, left, rest);
      OneMorePiece(blank, [piece] + pieces, left, piece + rest);
      pieces := [blank] + ([piece] + pieces);
    } else {
      TrimStartCuts(content);
      assert Flatten([]) + left == left;
      OneMorePiece(LeadingBlank(content), [], left, left);
      pieces := [LeadingBlank(content)] + [];
    }
  }

  lemma {:induction false} InjectedIsDropped(pieces: seq<string>, rest: string)
    requires IsInjectedPrefix(pieces, rest) && StartsVisible(rest) && !StartsInjected(rest)
    ensures PrefixStripped(Flatten(pieces) + rest) == rest
  {
    if pieces == [] {
      assert Flatten(pieces) + rest == rest;
    } else {
      var piece, tail := pieces[0], Flatten(pieces[1..]) + rest;
      InjectedIsDropped(pieces[1..], rest);
      Reassociate(piece, Flatten(pieces[1..]), rest);
      if IsBlank(piece) {
        TrimStartSkips(piece, tail);
      } else {
        BlockIsStripped(piece, tail);
        assert TrimStart(piece + tail) == piece + tail;
      }
    }
  }

  /** The loop leaves exactly the one rest that starts with neither white space nor a known block and has nothing
      but these in front of it. */
  lemma {:induction false} PrefixStrippedExactly(content: string, rest: string)
    ensures rest == PrefixStripped(content) <==>
      && StartsVisible(rest) && !StartsInjected(rest)
      && exists pieces :: IsInjectedPrefix(pieces, rest) && Flatten(pieces) + rest == content
  {
    if rest == PrefixStripped(content) {
      var pieces := DroppedIsInjected(content);
    } else if pieces :| IsInjectedPrefix(pieces, rest) && Flatten(pieces) + rest == content {
      if StartsVisible(rest) && !StartsInjected(rest) {
        InjectedIsDropped(pieces, rest);
      }
    }
  }

  // ---------------------------------------------------------------------------------------------
  // The visible text
  // ---------------------------------------------------------------------------------------------

  /** One stripping stage per tag, in order. */
  function StrippedOfAll(s: string, tags: seq<Tag>): string
    requires AllClose(tags)
  {
    if tags == [] then s else Stripped(StrippedOfAll(s, tags[..|tags| - 1]), tags[|tags| - 1])
  }

  /** The stages together delete only, keep a text without any of the blocks as it is, and leave no block of the
      last stage's tag. */
  lemma {:induction false} StagesOnlyDelete(s: string, tags: seq<Tag>)
    requires AllClose(tags)
    ensures IsSubsequence(StrippedOfAll(s, tags), s)
    ensures (forall i :: 0 <= i < |tags| ==> !HasBlock(s, tags[i])) ==> StrippedOfAll(s, tags) == s
    ensures tags != [] ==> !HasBlock(StrippedOfAll(s, tags), tags[|tags| - 1])
  {
    if tags == [] {
      SubsequenceSelf(s);
    } else {
      var n := |tags| - 1;
      var earlier := StrippedOfAll(s, tags[..n]);
      StagesOnlyDelete(s, tags[..n]);
      StrippedHasNoBlock(earlier, tags[n]);
      StrippedIsSubsequence(earlier, tags[n]);
      StrippedIsNormalForm(earlier, tags[n]);
      SubsequenceTrans(Stripped(earlier, tags[n]), earlier, s);
    }
  }

  lemma {:induction false} TrimIsSubsequence(s: string)
    ensures IsSubsequence(Trim(s), s)
    ensures Trim(s) != "" ==> !IsWhitespace(Trim(s)[|Trim(s)| - 1])
  {
    TrimStartCuts(s);
    SubsequenceSelf(TrimStart(s));
    SubsequenceSkip(TrimStart(s), LeadingBlank(s), TrimStart(s));
    TrimEndIsSubsequence(TrimStart(s));
    SubsequenceTrans(Trim(s), TrimStart(s), s);
  }

  lemma {:induction false} TrimEndIsSubsequence(s: string)
    ensures IsSubsequence(TrimEnd(s), s)
    ensures TrimEnd(s) != "" ==> !IsWhitespace(TrimEnd(s)[|TrimEnd(s)| - 1])
  {
    SubsequenceSelf(s);
    if s != [] && IsWhitespace(s[|s| - 1]) {
      var t := s[..|s| - 1];
      TrimEndIsSubsequence(t);
      SubsequenceDelete(t, [s[|s| - 1]], "");
      assert t + "" == t && t + [s[|s| - 1]] + "" == s;
      SubsequenceTrans(TrimEnd(s), t, s);
    }
  }

  /** `strip_embedded_runtime_instruction_blocks`. */
  method StripEmbedded(text: string, tags: seq<Tag>) returns (cleaned: string)
    requires AllClose(tags)
    ensures cleaned == StrippedOfAll(text, tags)
  {
    cleaned := text;
    var i := 0;
    while i < |tags|
      invariant 0 <= i <= |tags|
      invariant AllClose(tags[..i]) && cleaned == StrippedOfAll(text, tags[..i])
    {
      assert tags[..i + 1][..i] == tags[..i];
      cleaned := StripAllWrappedBlocks(cleaned, tags[i]);
      i := i + 1;
    }
    assert tags[..i] == tags;
  }

  lemma {:induction false} TrimEndBlank(s: string)
    ensures TrimEnd(s) == "" <==> IsBlank(s)
  {
    if s != "" && IsWhitespace(s[|s| - 1]) {
      TrimEndBlank(s[..|s| - 1]);
      assert s == s[..|s| - 1] + [s[|s| - 1]];
    }
  }

  lemma {:induction false} TrimBlank(s: string)
    ensures Trim(s) == "" <==> IsBlank(s)
  {
    TrimStartCuts(s);
    TrimEndBlank(TrimStart(s));
    if TrimStart(s) != "" {
      assert s[|LeadingBlank(s)|] == TrimStart(s)[0];
    }
  }

  /** The message without its injected prefix and without the blocks embedded in the rest. */
  function WithoutInjected(content: string): string {
    TagsClose();
    StrippedOfAll(PrefixStripped(content), EMBEDDED_TAGS)
  }

  lemma {:induction false} ShownIsSubsequence(content: string)
    ensures IsSubsequence(Trim(WithoutInjected(content)), content)
  {
    TagsClose();
    var rest, left := PrefixStripped(content), WithoutInjected(content);
    var pieces := DroppedIsInjected(content);
    SubsequenceSelf(rest);
    SubsequenceSkip(rest, Flatten(pieces), rest);
    StagesOnlyDelete(rest, EMBEDDED_TAGS);
    SubsequenceTrans(left, rest, content);
    TrimIsSubsequence(left);
    SubsequenceTrans(Trim(left), left, content);
  }

  /** `user_visible_content`: nothing exactly when only white space is left besides what was injected, and else
      the rest of the message, in its order, ending in none that is white space. */
  method UserVisibleContent(content: string) returns (visible: Option<string>)
    ensures visible.None? <==> IsBlank(WithoutInjected(content))
    ensures visible.Some? ==> visible.value == Trim(WithoutInjected(content))
    ensures visible.Some? ==> visible.value != "" && IsSubsequence(visible.value, content)
    ensures visible.Some? ==> !IsWhitespace(visible.value[|visible.value| - 1])
  {
    TagsClose();
    var remaining := StripPrefixes(content);
    var cleaned := StripEmbedded(remaining, EMBEDDED_TAGS);
    assert cleaned == WithoutInjected(content);
    ShownIsSubsequence(content);
    TrimIsSubsequence(cleaned);
    TrimBlank(cleaned);
    visible := if Trim(cleaned) == "" then None else Some(Trim(cleaned));
  }
}
