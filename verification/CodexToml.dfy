/** Editing the user's Codex `config.toml` in place: splitting it into table blocks, removing Niuma's hook
    blocks and appending a new one (crates/niuma-core/src/codex_hook.rs). */
module CodexToml {
  import opened Text
  import opened HookQuoting

  // ---------------------------------------------------------------------------------------------
  // Blocks of lines
  // ---------------------------------------------------------------------------------------------

  /** A line that opens an array-of-tables element. */
  predicate IsHeader(line: string) {
    StartsWith(Trim(line), "[[") && EndsWith(Trim(line), "]]")
  }

  /** How many lines come before the next header. */
  function BodyLength(lines: seq<string>): (n: nat)
    ensures n <= |lines|
  {
    if lines == [] || IsHeader(lines[0]) then 0 else 1 + BodyLength(lines[1..])
  }

  /** A block is a line and the lines up to the next header. */
  function GroupLines(lines: seq<string>): seq<seq<string>>
    decreases |lines|
  {
    if lines == [] then []
    else
      var n := 1 + BodyLength(lines[1..]);
      [lines[..n]] + GroupLines(lines[n..])
  }

  function Joined(groups: seq<seq<string>>): (r: seq<string>)
    ensures |r| == |groups| && forall i :: 0 <= i < |groups| ==> r[i] == Flatten(groups[i])
  {
    if groups == [] then [] else [Flatten(groups[0])] + Joined(groups[1..])
  }

  function SplitBlocks(config: string): seq<string> {
    Joined(GroupLines(InclusiveLines(config)))
  }

  predicate IsGroup(g: seq<string>) {
    g != [] && forall i :: 1 <= i < |g| ==> !IsHeader(g[i])
  }

  predicate AllHeaded(gs: seq<seq<string>>) {
    forall i :: 0 <= i < |gs| ==> IsGroup(gs[i]) && IsHeader(gs[i][0])
  }

  /** Only the first block may lack a header. */
  predicate WellSplit(gs: seq<seq<string>>) {
    gs != [] ==> IsGroup(gs[0]) && AllHeaded(gs[1..])
  }

  lemma {:induction false} BodyLengthOf(body: seq<string>, rest: seq<string>)
    requires forall i :: 0 <= i < |body| ==> !IsHeader(body[i])
    requires rest == [] || IsHeader(rest[0])
    ensures BodyLength(body + rest) == |body|
  {
    if body == [] {
      assert body + rest == rest;
    } else {
      assert (body + rest)[1..] == body[1..] + rest;
      BodyLengthOf(body[1..], rest);
    }
  }

  lemma {:induction false} BodyLengthShape(lines: seq<string>)
    ensures forall i :: 0 <= i < BodyLength(lines) ==> !IsHeader(lines[i])
    ensures BodyLength(lines) < |lines| ==> IsHeader(lines[BodyLength(lines)])
  {
    if lines != [] && !IsHeader(lines[0]) {
      BodyLengthShape(lines[1..]);
      forall i | 0 <= i < BodyLength(lines) ensures !IsHeader(lines[i]) {
        if i > 0 {
          assert lines[i] == lines[1..][i - 1];
        }
      }
    }
  }

  /** A complete block comes off the front. */
  lemma {:induction false} GroupFirst(g: seq<string>, rest: seq<string>)
    requires IsGroup(g) && (rest == [] || IsHeader(rest[0]))
    ensures GroupLines(g + rest) == [g] + GroupLines(rest)
  {
    assert (g + rest)[1..] == g[1..] + rest;
    BodyLengthOf(g[1..], rest);
    assert (g + rest)[..|g|] == g && (g + rest)[|g|..] == rest;
  }

  lemma {:induction false} FirstGroup(lines: seq<string>) returns (g: seq<string>, rest: seq<string>)
    requires lines != []
    ensures lines == g + rest && IsGroup(g) && (rest == [] || IsHeader(rest[0]))
    ensures GroupLines(lines) == [g] + GroupLines(rest) && |rest| < |lines|
  {
    var n := 1 + BodyLength(lines[1..]);
    BodyLengthShape(lines[1..]);
    assert n < |lines| ==> lines[n] == lines[1..][n - 1];
    assert forall i :: 1 <= i < n ==> lines[i] == lines[1..][i - 1];
    g, rest := lines[..n], lines[n..];
  }

  lemma {:induction false} GroupLinesShape(lines: seq<string>)
    ensures WellSplit(GroupLines(lines)) && Flatten(GroupLines(lines)) == lines
    ensures lines != [] && IsHeader(lines[0]) ==> AllHeaded(GroupLines(lines))
    decreases |lines|
  {
    if lines != [] {
      var g, rest := FirstGroup(lines);
      GroupLinesShape(rest);
      FlattenCons(g, GroupLines(rest));
      HeadedCons(g, GroupLines(rest));
      assert lines[0] == g[0];
    }
  }

  lemma {:induction false} HeadedCons(g: seq<string>, gs: seq<seq<string>>)
    requires IsGroup(g) && AllHeaded(gs)
    ensures WellSplit([g] + gs) && (IsHeader(g[0]) ==> AllHeaded([g] + gs))
  {
    assert ([g] + gs)[1..] == gs;
  }

  lemma {:induction false} HeadedStart(gs: seq<seq<string>>)
    requires AllHeaded(gs)
    ensures Flatten(gs) == [] || IsHeader(Flatten(gs)[0])
  {}

  /** Blocks are recovered from their lines: grouping is the inverse of concatenating well-split blocks. */
  lemma {:induction false} GroupLinesOf(gs: seq<seq<string>>)
    requires WellSplit(gs)
    ensures GroupLines(Flatten(gs)) == gs
  {
    if gs != [] {
      HeadedStart(gs[1..]);
      GroupFirst(gs[0], Flatten(gs[1..]));
      GroupLinesOf(gs[1..]);
      assert gs == [gs[0]] + gs[1..];
    }
  }

  lemma {:induction false} GroupAppendStep(g: seq<string>, rest: seq<string>, b: seq<string>)
    requires IsGroup(g) && (rest == [] || IsHeader(rest[0])) && (b == [] || IsHeader(b[0]))
    requires GroupLines(rest + b) == GroupLines(rest) + GroupLines(b)
    ensures GroupLines((g + rest) + b) == GroupLines(g + rest) + GroupLines(b)
  {
    AppendStart(rest, b);
    GroupFirst(g, rest);
    GroupFirst(g, rest + b);
    Reassociate(g, rest, b);
    Reassociate([g], GroupLines(rest), GroupLines(b));
  }

  lemma {:induction false} GroupAppend(a: seq<string>, b: seq<string>)
    requires b == [] || IsHeader(b[0])
    ensures GroupLines(a + b) == GroupLines(a) + GroupLines(b)
    decreases |a|
  {
    if a == [] {
      assert a + b == b;
    } else {
      var g, rest := FirstGroup(a);
      GroupAppend(rest, b);
      GroupAppendStep(g, rest, b);
    }
  }

  lemma {:induction false} AppendStart(a: seq<string>, b: seq<string>)
    requires (a == [] || IsHeader(a[0])) && (b == [] || IsHeader(b[0]))
    ensures a + b == [] || IsHeader((a + b)[0])
  {
    if a == [] {
      assert a + b == b;
    }
  }

  lemma {:induction false} JoinedText(gs: seq<seq<string>>)
    ensures Flatten(Joined(gs)) == Flatten(Flatten(gs))
  {
    if gs != [] {
      JoinedText(gs[1..]);
      FlattenAppend(gs[0], Flatten(gs[1..]));
      assert Joined(gs)[1..] == Joined(gs[1..]);
    }
  }

  /** Splitting loses nothing. */
  lemma {:induction false} SplitIsLossless(config: string)
    ensures Flatten(SplitBlocks(config)) == config
  {
    InclusiveLinesShape(config);
    GroupLinesShape(InclusiveLines(config));
    JoinedText(GroupLines(InclusiveLines(config)));
  }

  lemma {:induction false} SplitOfGroups(gs: seq<seq<string>>)
    requires WellSplit(gs) && WellLined(Flatten(gs))
    ensures InclusiveLines(Flatten(Joined(gs))) == Flatten(gs) && SplitBlocks(Flatten(Joined(gs))) == Joined(gs)
  {
    JoinedText(gs);
    InclusiveLinesOf(Flatten(gs));
    GroupLinesOf(gs);
  }

  lemma {:induction false} JoinedAppend(a: seq<seq<string>>, b: seq<seq<string>>)
    ensures Joined(a + b) == Joined(a) + Joined(b)
  {}

  /** The blocks still to come are those of the block being filled and the unread lines. */
  ghost predicate SplitSoFar(lines: seq<string>, finished: seq<seq<string>>, filling: seq<string>, unread: seq<string>)
  {
    && (filling == [] || IsGroup(filling))
    && GroupLines(lines) == finished + GroupLines(filling + unread)
  }

  lemma {:induction false} SplitStart(lines: seq<string>)
    ensures SplitSoFar(lines, [], [], lines)
  {
    assert [] + lines == lines;
  }

  lemma {:induction false} SplitFlush(lines: seq<string>, finished: seq<seq<string>>, filling: seq<string>,
                                      unread: seq<string>)
    requires SplitSoFar(lines, finished, filling, unread) && filling != [] && (unread == [] || IsHeader(unread[0]))
    ensures SplitSoFar(lines, finished + [filling], [], unread)
    ensures Joined(finished + [filling]) == Joined(finished) + [Flatten(filling)]
  {
    GroupFirst(filling, unread);
    assert [] + unread == unread;
    assert finished + ([filling] + GroupLines(unread)) == finished + [filling] + GroupLines(unread);
    JoinedAppend(finished, [filling]);
  }

  lemma {:induction false} SplitFill(lines: seq<string>, finished: seq<seq<string>>, filling: seq<string>, line: string,
                                     unread: seq<string>)
    requires SplitSoFar(lines, finished, filling, [line] + unread) && (filling == [] || !IsHeader(line))
    ensures SplitSoFar(lines, finished, filling + [line], unread)
    ensures Flatten(filling + [line]) == Flatten(filling) + line
  {
    assert filling + ([line] + unread) == filling + [line] + unread;
    FlattenAppend(filling, [line]);
    FlattenOne(line);
  }

  lemma {:induction false} NextLine(lines: seq<string>, i: nat)
    requires WellLined(lines) && i < |lines|
    ensures lines[i] != "" && lines[i..] == [lines[i]] + lines[i + 1..]
  {}

  /** `split_toml_blocks`: one pass over the lines with the block being filled. */
  method SplitTomlBlocks(config: string) returns (blocks: seq<string>)
    ensures blocks == SplitBlocks(config)
    ensures Flatten(blocks) == config
  {
    var lines := InclusiveLines(config);
    InclusiveLinesShape(config);
    blocks := [];
    var current := "";
    ghost var finished: seq<seq<string>> := [];
    ghost var filling: seq<string> := [];
    var i := 0;
    SplitStart(lines);
    assert lines[0..] == lines;
    while i < |lines|
      invariant 0 <= i <= |lines|
      invariant blocks == Joined(finished) && current == Flatten(filling)
      invariant current == "" <==> filling == []
      invariant SplitSoFar(lines, finished, filling, lines[i..])
    {
      var line := lines[i];
      NextLine(lines, i);
      var trimmed := Trim(line);
      if StartsWith(trimmed, "[[") && EndsWith(trimmed, "]]") && current != "" {
        SplitFlush(lines, finished, filling, lines[i..]);
        finished, filling := finished + [filling], [];
        blocks := blocks + [current];
        current := "";
      }
      SplitFill(lines, finished, filling, line, lines[i + 1..]);
      filling := filling + [line];
      current := current + line;
      i := i + 1;
    }
    assert lines[i..] == [];
    if current != "" {
      SplitFlush(lines, finished, filling, []);
      finished, filling := finished + [filling], [];
      blocks := blocks + [current];
    }
    assert finished + GroupLines([]) == finished;
    SplitIsLossless(config);
  }

  // ---------------------------------------------------------------------------------------------
  // Removing Niuma's blocks
  // ---------------------------------------------------------------------------------------------

  predicate IsHookLine(line: string) {
    StartsWith(TrimStart(line), "command") && Contains(line, MARKER) && Contains(line, SOURCE)
  }

  /** The first line that is not blank, trimmed. */
  function FirstTrimmed(lines: seq<string>): string {
    if lines == [] then "" else if Trim(lines[0]) != "" then Trim(lines[0]) else FirstTrimmed(lines[1..])
  }

  predicate IsHookHeader(trimmed: string) {
    StartsWith(trimmed, "[[hooks.") && EndsWith(trimmed, ".hooks]]")
  }

  predicate AnyHookLine(lines: seq<string>) {
    exists i | 0 <= i < |lines| :: IsHookLine(lines[i])
  }

  predicate IsNiumaBlock(block: string) {
    IsHookHeader(FirstTrimmed(Lines(block))) && AnyHookLine(Lines(block))
  }

  function Kept(blocks: seq<string>): seq<string> {
    if blocks == [] then [] else (if IsNiumaBlock(blocks[0]) then [] else [blocks[0]]) + Kept(blocks[1..])
  }

  function Removed(config: string): string {
    Flatten(Kept(SplitBlocks(config)))
  }

  lemma {:induction false} KeptAppend(a: seq<string>, b: seq<string>)
    ensures Kept(a + b) == Kept(a) + Kept(b)
  {
    if a == [] {
      assert a + b == b;
    } else {
      assert (a + b)[1..] == a[1..] + b;
      KeptAppend(a[1..], b);
    }
  }

  /** What is kept, by membership and in order: exactly the blocks that are not Niuma's. */
  lemma {:induction false} KeptMembers(blocks: seq<string>, block: string)
    ensures block in Kept(blocks) <==> block in blocks && !IsNiumaBlock(block)
  {
    if blocks != [] {
      KeptMembers(blocks[1..], block);
      assert blocks == [blocks[0]] + blocks[1..];
    }
  }

  ghost predicate NoneNiuma(blocks: seq<string>) {
    forall block :: block in blocks ==> !IsNiumaBlock(block)
  }

  lemma {:induction false} CleanIsKept(blocks: seq<string>)
    requires NoneNiuma(blocks)
    ensures Kept(blocks) == blocks
  {
    if blocks != [] {
      CleanIsKept(blocks[1..]);
      assert blocks == [blocks[0]] + blocks[1..];
    }
  }

  lemma {:induction false} KeptIsClean(blocks: seq<string>)
    ensures NoneNiuma(Kept(blocks))
  {
    forall block | block in Kept(blocks) ensures !IsNiumaBlock(block) {
      KeptMembers(blocks, block);
    }
  }

  function KeptGroups(gs: seq<seq<string>>): seq<seq<string>> {
    if gs == [] then [] else (if IsNiumaBlock(Flatten(gs[0])) then [] else [gs[0]]) + KeptGroups(gs[1..])
  }

  lemma {:induction false} KeptGroupsAreKept(gs: seq<seq<string>>)
    ensures Joined(KeptGroups(gs)) == Kept(Joined(gs))
  {
    if gs != [] {
      var kept := KeptGroups(gs[1..]);
      KeptGroupsAreKept(gs[1..]);
      assert Joined(gs)[1..] == Joined(gs[1..]);
      assert ([gs[0]] + kept)[1..] == kept && [] + kept == kept;
    }
  }

  lemma {:induction false} KeptGroupsStayHeaded(gs: seq<seq<string>>)
    requires AllHeaded(gs)
    ensures AllHeaded(KeptGroups(gs))
  {
    if gs != [] {
      KeptGroupsStayHeaded(gs[1..]);
    }
  }

  lemma {:induction false} SuffixLined(a: seq<string>, b: seq<string>)
    requires WellLined(a + b)
    ensures WellLined(b) && (b != [] ==> AllTerminated(a)) && (b == [] ==> WellLined(a))
  {
    assert forall i :: 0 <= i < |b| ==> b[i] == (a + b)[|a| + i];
    assert forall i :: 0 <= i < |a| ==> a[i] == (a + b)[i];
  }

  lemma {:induction false} NothingKept(gs: seq<seq<string>>)
    requires Flatten(gs) == []
    ensures Flatten(KeptGroups(gs)) == []
  {
    if gs != [] {
      NothingKept(gs[1..]);
      assert ([gs[0]] + KeptGroups(gs[1..]))[1..] == KeptGroups(gs[1..]);
      assert [] + KeptGroups(gs[1..]) == KeptGroups(gs[1..]);
    }
  }

  lemma {:induction false} KeptGroupsStayLined(gs: seq<seq<string>>)
    requires WellLined(Flatten(gs))
    ensures WellLined(Flatten(KeptGroups(gs)))
  {
    if gs != [] {
      var g, rest, kept := gs[0], Flatten(gs[1..]), KeptGroups(gs[1..]);
      SuffixLined(g, rest);
      KeptGroupsStayLined(gs[1..]);
      assert ([g] + kept)[1..] == kept && [] + kept == kept;
      if rest == [] {
        NothingKept(gs[1..]);
        assert g + [] == g;
      } else {
        WellLinedAppend(g, Flatten(kept));
      }
    }
  }

  lemma {:induction false} KeptGroupsStaySplit(gs: seq<seq<string>>)
    requires WellSplit(gs)
    ensures WellSplit(KeptGroups(gs))
  {
    if gs != [] {
      var kept := KeptGroups(gs[1..]);
      KeptGroupsStayHeaded(gs[1..]);
      assert ([gs[0]] + kept)[1..] == kept && [] + kept == kept;
    }
  }

  /** Removal splits again into exactly the blocks it kept, byte for byte. */
  lemma {:induction false} RemovalKeepsOtherBlocks(config: string)
    ensures SplitBlocks(Removed(config)) == Kept(SplitBlocks(config))
  {
    var lines := InclusiveLines(config);
    var gs := GroupLines(lines);
    InclusiveLinesShape(config);
    GroupLinesShape(lines);
    KeptGroupsAreKept(gs);
    KeptGroupsStayLined(gs);
    KeptGroupsStaySplit(gs);
    SplitOfGroups(KeptGroups(gs));
  }

  lemma {:induction false} RemovalIsIdempotent(config: string)
    ensures Removed(Removed(config)) == Removed(config)
  {
    RemovalKeepsOtherBlocks(config);
    KeptIsClean(SplitBlocks(config));
    CleanIsKept(Kept(SplitBlocks(config)));
  }

  lemma {:induction false} KeptStep(blocks: seq<string>, i: nat)
    requires i < |blocks|
    ensures Kept(blocks[..i + 1]) == Kept(blocks[..i]) + (if IsNiumaBlock(blocks[i]) then [] else [blocks[i]])
  {
    assert blocks[..i + 1] == blocks[..i] + [blocks[i]];
    KeptAppend(blocks[..i], [blocks[i]]);
    assert [blocks[i]][1..] == [];
  }

  /** `remove_niuma_hooks_from_config`. */
  method RemoveNiumaHooksFromConfig(config: string) returns (result: string)
    ensures result == Removed(config)
  {
    var blocks := SplitTomlBlocks(config);
    var keptBlocks := [];
    var i := 0;
    while i < |blocks|
      invariant 0 <= i <= |blocks|
      invariant keptBlocks == Kept(blocks[..i])
    {
      KeptStep(blocks, i);
      if !IsNiumaBlock(blocks[i]) {
        keptBlocks := keptBlocks + [blocks[i]];
      }
      i := i + 1;
    }
    assert blocks[..i] == blocks;
    result := Flatten(keptBlocks);
  }
}
