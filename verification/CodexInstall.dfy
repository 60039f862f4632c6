/** Installing and detecting the Codex hook in `config.toml`: which events report a Niuma hook, and what an
    install leaves behind (crates/niuma-core/src/codex_hook.rs). */
module CodexInstall {
  import opened Wrappers
  import opened Text
  import opened HookQuoting
  import opened CodexToml

  // ---------------------------------------------------------------------------------------------
  // Scanning the lines under a header
  // ---------------------------------------------------------------------------------------------

  datatype Selector = AnyHook | ForEvent(event: string)

  function EventHeader(event: string): string {
    "[[hooks." + event + ".hooks]]"
  }

  predicate Selects(selector: Selector, trimmed: string) {
    match selector
    case AnyHook => IsHookHeader(trimmed)
    case ForEvent(event) => trimmed == EventHeader(event)
  }

  predicate IsHookText(line: string) {
    IsHookLine(StripEnding(line))
  }

  /** Whether a hook line follows a selected header, with no other header between them. */
  function Scan(lines: seq<string>, inHook: bool, selector: Selector): bool {
    if lines == [] then false
    else if IsHeader(lines[0]) then Scan(lines[1..], Selects(selector, Trim(lines[0])), selector)
    else (inHook && IsHookText(lines[0])) || Scan(lines[1..], inHook, selector)
  }

  predicate AnyHookText(lines: seq<string>) {
    exists i | 0 <= i < |lines| :: IsHookText(lines[i])
  }

  predicate IsBlockFor(block: string, selector: Selector) {
    Lines(block) != [] && Selects(selector, Trim(Lines(block)[0])) && AnyHookLine(Lines(block))
  }

  predicate IsGroupFor(g: seq<string>, selector: Selector) {
    g != [] && Selects(selector, Trim(g[0])) && AnyHookText(g)
  }

  lemma {:induction false} HookHeaderIsHeader(trimmed: string)
    requires IsHookHeader(trimmed)
    ensures StartsWith(trimmed, "[[") && EndsWith(trimmed, "]]")
  {
    assert trimmed[..8][..2] == trimmed[..2];
    var n := |trimmed|;
    assert trimmed[n - 8..][6..] == trimmed[n - 2..];
    assert ".hooks]]"[6..] == "]]";
  }

  lemma {:induction false} EventHeaderSelects(event: string)
    ensures IsHookHeader(EventHeader(event)) && Trim(EventHeader(event)) == EventHeader(event)
  {
    var h := EventHeader(event);
    assert h[..8] == "[[hooks." && h[|h| - 8..] == ".hooks]]";
    TrimNothing(h);
  }

  lemma {:induction false} SelectedIsHeader(selector: Selector, line: string)
    requires Selects(selector, Trim(line))
    ensures IsHeader(line) && IsHookHeader(Trim(line))
  {
    if selector.ForEvent? {
      EventHeaderSelects(selector.event);
    }
    HookHeaderIsHeader(Trim(line));
  }

  /** Trimming decides which word a line starts with. */
  lemma {:induction false} LineWord(line: string, word: string)
    requires word != [] && !IsWhitespace(word[|word| - 1])
    ensures StartsWith(TrimStart(line), word) == StartsWith(Trim(line), word)
  {
    TrimEndKeepsWord(TrimStart(line), word);
  }

  lemma {:induction false} HeaderIsNotHookText(line: string)
    requires IsHeader(line)
    ensures !IsHookText(line)
  {
    StripKeepsTrim(line);
    LineWord(StripEnding(line), "command");
    FirstLetter(Trim(line), "[[");
    FirstLetter(Trim(line), "command");
  }

  lemma {:induction false} FirstLetter(s: string, word: string)
    requires word != []
    ensures StartsWith(s, word) ==> s != [] && s[0] == word[0]
  {
    if StartsWith(s, word) {
      assert s[..|word|][0] == s[0];
    }
  }

  lemma {:induction false} ScanBody(body: seq<string>, rest: seq<string>, inHook: bool, selector: Selector)
    requires forall i :: 0 <= i < |body| ==> !IsHeader(body[i])
    ensures Scan(body + rest, inHook, selector) == ((inHook && AnyHookText(body)) || Scan(rest, inHook, selector))
  {
    if body == [] {
      assert body + rest == rest;
    } else {
      assert (body + rest)[1..] == body[1..] + rest;
      ScanBody(body[1..], rest, inHook, selector);
      AnyHookCons(body);
    }
  }

  lemma {:induction false} AnyHookCons(lines: seq<string>)
    requires lines != []
    ensures AnyHookText(lines) == (IsHookText(lines[0]) || AnyHookText(lines[1..]))
  {
    if AnyHookText(lines[1..]) {
      var i :| 0 <= i < |lines| - 1 && IsHookText(lines[1..][i]);
      assert IsHookText(lines[i + 1]);
    }
    if AnyHookText(lines) {
      var i :| 0 <= i < |lines| && IsHookText(lines[i]);
      assert i > 0 ==> IsHookText(lines[1..][i - 1]);
    }
  }

  lemma {:induction false} ScanGroup(g: seq<string>, rest: seq<string>, inHook: bool, selector: Selector)
    requires IsGroup(g) && IsHeader(g[0]) && (rest == [] || IsHeader(rest[0]))
    ensures Scan(g + rest, inHook, selector) == (IsGroupFor(g, selector) || Scan(rest, false, selector))
  {
    var now := Selects(selector, Trim(g[0]));
    assert (g + rest)[1..] == g[1..] + rest;
    assert Scan(g + rest, inHook, selector) == Scan(g[1..] + rest, now, selector);
    ScanBody(g[1..], rest, now, selector);
    assert Scan(rest, now, selector) == Scan(rest, false, selector);
    AnyHookCons(g);
    HeaderIsNotHookText(g[0]);
  }

  ghost predicate SomeGroupFor(gs: seq<seq<string>>, selector: Selector) {
    exists i :: 0 <= i < |gs| && IsGroupFor(gs[i], selector)
  }

  lemma {:induction false} SomeGroupCons(gs: seq<seq<string>>, selector: Selector)
    requires gs != []
    ensures SomeGroupFor(gs, selector) == (IsGroupFor(gs[0], selector) || SomeGroupFor(gs[1..], selector))
  {
    if SomeGroupFor(gs[1..], selector) {
      var i :| 0 <= i < |gs| - 1 && IsGroupFor(gs[1..][i], selector);
      assert IsGroupFor(gs[i + 1], selector);
    }
    if SomeGroupFor(gs, selector) {
      var i :| 0 <= i < |gs| && IsGroupFor(gs[i], selector);
      assert i > 0 ==> IsGroupFor(gs[1..][i - 1], selector);
    }
  }

  lemma {:induction false} ScanHeadedGroups(gs: seq<seq<string>>, selector: Selector)
    requires AllHeaded(gs)
    ensures Scan(Flatten(gs), false, selector) == SomeGroupFor(gs, selector)
  {
    if gs != [] {
      HeadedStart(gs[1..]);
      ScanGroup(gs[0], Flatten(gs[1..]), false, selector);
      ScanHeadedGroups(gs[1..], selector);
      SomeGroupCons(gs, selector);
    }
  }

  lemma {:induction false} ScanGroups(gs: seq<seq<string>>, selector: Selector)
    requires WellSplit(gs)
    ensures Scan(Flatten(gs), false, selector) == SomeGroupFor(gs, selector)
  {
    if gs != [] {
      var rest := Flatten(gs[1..]);
      HeadedStart(gs[1..]);
      ScanHeadedGroups(gs[1..], selector);
      SomeGroupCons(gs, selector);
      if IsHeader(gs[0][0]) {
        ScanGroup(gs[0], rest, false, selector);
      } else {
        ScanBody(gs[0], rest, false, selector);
        if Selects(selector, Trim(gs[0][0])) {
          SelectedIsHeader(selector, gs[0][0]);
        }
      }
    }
  }

  // ---------------------------------------------------------------------------------------------
  // Blocks of text and groups of lines
  // ---------------------------------------------------------------------------------------------

  lemma {:induction false} HookTextOfStripped(lines: seq<string>)
    ensures AnyHookLine(StripAll(lines)) == AnyHookText(lines)
  {
    if AnyHookText(lines) {
      var i :| 0 <= i < |lines| && IsHookText(lines[i]);
      assert IsHookLine(StripAll(lines)[i]);
    }
  }

  lemma {:induction false} BlockOfGroup(g: seq<string>, selector: Selector)
    requires WellLined(g)
    ensures IsBlockFor(Flatten(g), selector) == IsGroupFor(g, selector)
  {
    InclusiveLinesOf(g);
    HookTextOfStripped(g);
    if g != [] {
      StripKeepsTrim(g[0]);
    }
  }

  lemma {:induction false} NoHeaderNoHook(lines: seq<string>)
    requires forall i :: 0 <= i < |lines| ==> !IsHeader(lines[i])
    ensures !IsHookHeader(FirstTrimmed(lines))
  {
    if lines != [] {
      if Trim(lines[0]) != "" {
        if IsHookHeader(Trim(lines[0])) {
          HookHeaderIsHeader(Trim(lines[0]));
        }
      } else {
        NoHeaderNoHook(lines[1..]);
      }
    }
  }

  lemma {:induction false} StripKeepsHeaders(lines: seq<string>)
    ensures forall i :: 0 <= i < |lines| ==> IsHeader(StripAll(lines)[i]) == IsHeader(lines[i])
  {
    forall i | 0 <= i < |lines| ensures IsHeader(StripAll(lines)[i]) == IsHeader(lines[i]) {
      StripKeepsTrim(lines[i]);
    }
  }

  /** The block test looks at the first line that is not blank, the scan at the first line: on a block of
      the split they agree. */
  lemma {:induction false} NiumaBlockOfGroup(g: seq<string>)
    requires IsGroup(g) && WellLined(g)
    ensures IsNiumaBlock(Flatten(g)) == IsGroupFor(g, AnyHook)
  {
    InclusiveLinesOf(g);
    HookTextOfStripped(g);
    StripKeepsTrim(g[0]);
    if IsHeader(g[0]) {
      assert Trim(g[0]) != "";
    } else {
      StripKeepsHeaders(g);
      NoHeaderNoHook(StripAll(g));
      if IsHookHeader(Trim(g[0])) {
        HookHeaderIsHeader(Trim(g[0]));
      }
    }
  }

  lemma {:induction false} GroupIsLined(gs: seq<seq<string>>, i: nat)
    requires WellLined(Flatten(gs)) && i < |gs|
    ensures WellLined(gs[i])
  {
    SuffixLined(gs[0], Flatten(gs[1..]));
    if i == 0 {
      assert forall k :: 0 <= k < |gs[0]| ==> gs[0][k] == Flatten(gs)[k];
    } else {
      GroupIsLined(gs[1..], i - 1);
    }
  }

  ghost predicate SomeBlockFor(config: string, selector: Selector) {
    exists block :: block in SplitBlocks(config) && IsBlockFor(block, selector)
  }

  lemma {:induction false} GroupsOf(config: string) returns (gs: seq<seq<string>>)
    ensures gs == GroupLines(InclusiveLines(config)) && WellSplit(gs) && Flatten(gs) == InclusiveLines(config)
    ensures forall i :: 0 <= i < |gs| ==> IsGroup(gs[i]) && WellLined(gs[i])
  {
    gs := GroupLines(InclusiveLines(config));
    InclusiveLinesShape(config);
    GroupLinesShape(InclusiveLines(config));
    forall i | 0 <= i < |gs| ensures IsGroup(gs[i]) && WellLined(gs[i]) {
      GroupIsLined(gs, i);
      assert i > 0 ==> gs[i] == gs[1..][i - 1];
    }
  }

  /** The line scan finds something exactly when some block of the split has a selected header and a hook line. */
  lemma {:induction false} ScanMeansBlock(config: string, selector: Selector)
    ensures Scan(InclusiveLines(config), false, selector) == SomeBlockFor(config, selector)
  {
    var gs := GroupsOf(config);
    ScanGroups(gs, selector);
    if SomeGroupFor(gs, selector) {
      var i :| 0 <= i < |gs| && IsGroupFor(gs[i], selector);
      BlockOfGroup(gs[i], selector);
      assert SplitBlocks(config)[i] in SplitBlocks(config);
    }
    if SomeBlockFor(config, selector) {
      var i :| 0 <= i < |gs| && IsBlockFor(SplitBlocks(config)[i], selector);
      BlockOfGroup(gs[i], selector);
    }
  }

  /** No block is Niuma's exactly when the scan for any hook header finds nothing. */
  lemma {:induction false} CleanMeansScan(config: string)
    ensures NoneNiuma(SplitBlocks(config)) == !Scan(InclusiveLines(config), false, AnyHook)
  {
    var gs := GroupsOf(config);
    ScanGroups(gs, AnyHook);
    if SomeGroupFor(gs, AnyHook) {
      var i :| 0 <= i < |gs| && IsGroupFor(gs[i], AnyHook);
      NiumaBlockOfGroup(gs[i]);
      assert SplitBlocks(config)[i] in SplitBlocks(config);
    }
    if !NoneNiuma(SplitBlocks(config)) {
      var i :| 0 <= i < |gs| && IsNiumaBlock(SplitBlocks(config)[i]);
      NiumaBlockOfGroup(gs[i]);
    }
  }

  lemma {:induction false} ScanLine(lines: seq<string>, i: nat, inHook: bool, selector: Selector)
    requires i < |lines|
    ensures var line := StripEnding(lines[i]);
      var trimmed := Trim(line);
      var isHook := StartsWith(trimmed, "command") && Contains(line, MARKER) && Contains(line, SOURCE);
      Scan(lines[i..], inHook, selector)
      == if StartsWith(trimmed, "[[") && EndsWith(trimmed, "]]")
         then Scan(lines[i + 1..], Selects(selector, trimmed), selector)
         else (inHook && isHook) || Scan(lines[i + 1..], inHook, selector)
  {
    StripKeepsTrim(lines[i]);
    LineWord(StripEnding(lines[i]), "command");
    assert lines[i..][1..] == lines[i + 1..];
  }

  /** `config_event_has_niuma_hook`. */
  method ConfigEventHasNiumaHook(config: string, event: string) returns (found: bool)
    ensures found == SomeBlockFor(config, ForEvent(event))
  {
    ScanMeansBlock(config, ForEvent(event));
    ghost var inclusive := InclusiveLines(config);
    var inEventHook := false;
    var eventHookHeader := "[[hooks." + event + ".hooks]]";
    var lines := Lines(config);
    var i := 0;
    assert inclusive[0..] == inclusive;
    while i < |lines|
      invariant 0 <= i <= |lines| == |inclusive|
      invariant Scan(inclusive, false, ForEvent(event)) == Scan(inclusive[i..], inEventHook, ForEvent(event))
    {
      var line := lines[i];
      var trimmed := Trim(line);
      ScanLine(inclusive, i, inEventHook, ForEvent(event));
      if StartsWith(trimmed, "[[") && EndsWith(trimmed, "]]") {
        inEventHook := trimmed == eventHookHeader;
      } else if inEventHook && StartsWith(trimmed, "command") && Contains(line, MARKER) && Contains(line, SOURCE) {
        return true;
      }
      i := i + 1;
    }
    return false;
  }

  // ---------------------------------------------------------------------------------------------
  // After removal
  // ---------------------------------------------------------------------------------------------

  lemma {:induction false} EventIsHook(lines: seq<string>, a: bool, b: bool, event: string)
    requires a ==> b
    ensures Scan(lines, a, ForEvent(event)) ==> Scan(lines, b, AnyHook)
  {
    if lines != [] {
      EventHeaderSelects(event);
      EventIsHook(lines[1..], a, b, event);
      EventIsHook(lines[1..], Selects(ForEvent(event), Trim(lines[0])), Selects(AnyHook, Trim(lines[0])), event);
    }
  }

  /** After removal no event, of any name, reports a Niuma hook. */
  lemma {:induction false} NoEventAfterRemoval(config: string, event: string)
    ensures !SomeBlockFor(Removed(config), ForEvent(event))
  {
    RemovalKeepsOtherBlocks(config);
    KeptIsClean(SplitBlocks(config));
    CleanMeansScan(Removed(config));
    EventIsHook(InclusiveLines(Removed(config)), false, false, event);
    ScanMeansBlock(Removed(config), ForEvent(event));
  }

  /** `config_toml_contains_niuma_hook`: some line anywhere looks like a hook line. */
  predicate ContainsNiumaHook(config: string) {
    AnyHookLine(Lines(config))
  }

  lemma {:induction false} ScanSeesHookText(lines: seq<string>, inHook: bool, selector: Selector)
    requires Scan(lines, inHook, selector)
    ensures AnyHookText(lines)
  {
    AnyHookCons(lines);
    if IsHeader(lines[0]) {
      ScanSeesHookText(lines[1..], Selects(selector, Trim(lines[0])), selector);
    } else if !(inHook && IsHookText(lines[0])) {
      ScanSeesHookText(lines[1..], inHook, selector);
    }
  }

  function Uninstalled(config: string): string {
    if ContainsNiumaHook(config) then Removed(config) else config
  }

  /** The guard on uninstalling never skips a block that removal would drop. */
  lemma {:induction false} UninstallIsRemoval(config: string)
    ensures Uninstalled(config) == Removed(config)
  {
    if !ContainsNiumaHook(config) {
      var lines := InclusiveLines(config);
      HookTextOfStripped(lines);
      if Scan(lines, false, AnyHook) {
        ScanSeesHookText(lines, false, AnyHook);
      }
      CleanMeansScan(config);
      CleanIsKept(SplitBlocks(config));
      SplitIsLossless(config);
    }
  }

  // ---------------------------------------------------------------------------------------------
  // Appending a hook
  // ---------------------------------------------------------------------------------------------

  const TIMEOUT: string := "660"

  datatype Hook = Hook(event: string, matcher: Option<string>, command: string, statusMessage: string)

  function Separator(config: string): string {
    if config == "" then "" else if EndsWith(config, "\n") then "\n" else "\n\n"
  }

  /** The bare table header that removal will leave behind. */
  function ResidueLines(hook: Hook): seq<string> {
    ["[[hooks." + hook.event + "]]\n"]
    + (if hook.matcher.Some? then ["matcher = " + TomlString(hook.matcher.value) + "\n"] else [])
    + ["\n"]
  }

  function HookLines(hook: Hook): seq<string> {
    [EventHeader(hook.event) + "\n", "type = \"command\"\n", "command = " + TomlString(hook.command) + "\n",
     "timeout = " + TIMEOUT + "\n", "statusMessage = " + TomlString(hook.statusMessage) + "\n"]
  }

  function Upserted(config: string, hook: Hook): string {
    config + Separator(config) + Flatten(ResidueLines(hook)) + Flatten(HookLines(hook))
  }

  lemma {:induction false} FlattenTwo<T>(a: seq<T>, b: seq<T>)
    ensures Flatten([a] + [b]) == a + b
  {
    FlattenAppend([a], [b]);
    FlattenOne(a);
    FlattenOne(b);
  }

  lemma {:induction false} ResidueText(hook: Hook)
    ensures Flatten(ResidueLines(hook))
         == "[[hooks." + hook.event + "]]\n"
            + (if hook.matcher.Some? then "matcher = " + TomlString(hook.matcher.value) + "\n" else "") + "\n"
  {
    var header := "[[hooks." + hook.event + "]]\n";
    if hook.matcher.Some? {
      var matcher := "matcher = " + TomlString(hook.matcher.value) + "\n";
      FlattenTwo(header, matcher);
      FlattenAppend([header] + [matcher], ["\n"]);
    } else {
      assert [header] + [] == [header];
      FlattenOne(header);
      FlattenAppend([header], ["\n"]);
    }
    FlattenOne("\n");
  }

  lemma {:induction false} FlattenFive(a: string, b: string, c: string, d: string, e: string)
    ensures Flatten([a, b, c, d, e]) == a + b + c + d + e
  {
    FlattenTwo(a, b);
    FlattenOne(c);
    FlattenTwo(d, e);
    FlattenAppend([a] + [b], [c]);
    FlattenAppend([a] + [b] + [c], [d] + [e]);
    assert [a, b, c, d, e] == [a] + [b] + [c] + ([d] + [e]);
    Reassociate(a + b + c, d, e);
  }

  method ResidueOf(hook: Hook) returns (text: string)
    ensures text == Flatten(ResidueLines(hook))
  {
    text := "[[hooks." + hook.event + "]]\n";
    if hook.matcher.Some? {
      text := text + ("matcher = " + TomlString(hook.matcher.value) + "\n");
    }
    text := text + "\n";
    ResidueText(hook);
  }

  method Separated(config: string) returns (text: string)
    ensures text == config + Separator(config)
  {
    text := config;
    if text != "" && !EndsWith(text, "\n") {
      text := text + "\n";
    }
    if text != "" {
      text := text + "\n";
    }
  }

  /** `upsert_config_event`. */
  method UpsertConfigEvent(config: string, hook: Hook) returns (result: string)
    ensures result == Upserted(config, hook)
  {
    result := Separated(config);
    var residue := ResidueOf(hook);
    result := result + residue;
    FlattenFive(EventHeader(hook.event) + "\n", "type = \"command\"\n", "command = " + TomlString(hook.command) + "\n",
                "timeout = " + TIMEOUT + "\n", "statusMessage = " + TomlString(hook.statusMessage) + "\n");
    var hookText := EventHeader(hook.event) + "\n" + "type = \"command\"\n"
                    + ("command = " + TomlString(hook.command) + "\n")
                    + ("timeout = " + TIMEOUT + "\n") + ("statusMessage = " + TomlString(hook.statusMessage) + "\n");
    result := result + hookText;
  }

  // ---------------------------------------------------------------------------------------------
  // The separator
  // ---------------------------------------------------------------------------------------------

  lemma {:induction false} ScanAppend(lines: seq<string>, more: string, inHook: bool, selector: Selector)
    requires !IsHeader(more) && !IsHookText(more)
    ensures Scan(lines + [more], inHook, selector) == Scan(lines, inHook, selector)
  {
    if lines == [] {
      assert ([] + [more])[1..] == [];
    } else {
      assert (lines + [more])[1..] == lines[1..] + [more];
      ScanAppend(lines[1..], more, inHook, selector);
      ScanAppend(lines[1..], more, Selects(selector, Trim(lines[0])), selector);
    }
  }

  lemma {:induction false} ReturnIsNoMark(line: string)
    requires line != "" && line[|line| - 1] == '\r'
    ensures Contains(line, MARKER) == Contains(line[..|line| - 1], MARKER)
    ensures Contains(line, SOURCE) == Contains(line[..|line| - 1], SOURCE)
  {
    MarkerIsPlain();
    SourceIsPlain();
    ContainsDropLast(line, MARKER);
    ContainsDropLast(line, SOURCE);
  }

  /** Ending the last line changes nothing about it. */
  lemma {:induction false} EndedLine(line: string)
    requires IsUnterminated(line)
    ensures Trim(line + "\n") == Trim(line) && IsHookText(line + "\n") == IsHookText(line)
  {
    TrimTrailing(line, '\n');
    var ended := line + "\n";
    assert ended[..|ended| - 1] == line;
    StripKeepsTrim(ended);
    LineWord(StripEnding(ended), "command");
    LineWord(line, "command");
    if line[|line| - 1] == '\r' {
      assert ended[..|ended| - 2] == line[..|line| - 1];
      ReturnIsNoMark(line);
    }
  }

  lemma {:induction false} ScanEnded(lines: seq<string>, last: string, inHook: bool, selector: Selector)
    requires IsUnterminated(last)
    ensures Scan(lines + [last + "\n"], inHook, selector) == Scan(lines + [last], inHook, selector)
  {
    if lines == [] {
      EndedLine(last);
      assert ([] + [last + "\n"])[1..] == [] && ([] + [last])[1..] == [];
    } else {
      assert (lines + [last + "\n"])[1..] == lines[1..] + [last + "\n"];
      assert (lines + [last])[1..] == lines[1..] + [last];
      ScanEnded(lines[1..], last, inHook, selector);
      ScanEnded(lines[1..], last, Selects(selector, Trim(lines[0])), selector);
    }
  }

  lemma {:induction false} BlankLine()
    ensures IsTerminated("\n") && !IsHeader("\n") && !IsHookText("\n")
  {
    assert "\n"[1..] == "";
    assert Trim("\n") == "";
    assert StripEnding("\n") == "";
  }

  lemma {:induction false} LastCharacter(lines: seq<string>)
    requires WellLined(lines) && lines != []
    ensures Flatten(lines) != "" && Flatten(lines)[|Flatten(lines)| - 1] == lines[|lines| - 1][|lines[|lines| - 1]| - 1]
  {
    if |lines| == 1 {
      assert lines[0] + Flatten(lines[1..]) == lines[0];
    } else {
      LastCharacter(lines[1..]);
    }
  }

  /** Lines after a complete line are lines of their own. */
  lemma {:induction false} LinesAfter(config: string, more: seq<string>)
    requires config == "" || EndsWith(config, "\n")
    requires WellLined(more)
    ensures InclusiveLines(config + Flatten(more)) == InclusiveLines(config) + more
  {
    var lines := InclusiveLines(config);
    InclusiveLinesShape(config);
    if lines != [] {
      LastCharacter(lines);
      assert config[|config| - 1..][0] == config[|config| - 1];
    }
    WellLinedAppend(lines, more);
    FlattenAppend(lines, more);
    InclusiveLinesOf(lines + more);
  }

  lemma {:induction false} EndsInLineFeed(s: string)
    requires s != ""
    ensures EndsWith(s, "\n") == (s[|s| - 1] == '\n')
  {
    assert s[|s| - 1..] == [s[|s| - 1]];
  }

  lemma {:induction false} UnterminatedLast(config: string) returns (earlier: seq<string>, last: string)
    requires config != "" && !EndsWith(config, "\n")
    ensures InclusiveLines(config) == earlier + [last] && IsUnterminated(last)
    ensures InclusiveLines(config + "\n") == earlier + [last + "\n"]
  {
    var lines := InclusiveLines(config);
    InclusiveLinesShape(config);
    LastCharacter(lines);
    EndsInLineFeed(config);
    earlier, last := lines[..|lines| - 1], lines[|lines| - 1];
    assert lines == earlier + [last];
    EndLastLine(earlier, last);
  }

  lemma {:induction false} EndLastLine(earlier: seq<string>, last: string)
    requires AllTerminated(earlier) && IsUnterminated(last)
    ensures InclusiveLines(Flatten(earlier + [last]) + "\n") == earlier + [last + "\n"]
  {
    FlattenAppend(earlier, [last]);
    FlattenAppend(earlier, [last + "\n"]);
    FlattenOne(last);
    FlattenOne(last + "\n");
    Reassociate(Flatten(earlier), last, "\n");
    assert forall i :: 0 <= i < |last| ==> (last + "\n")[i] == last[i];
    assert IsTerminated(last + "\n");
    WellLinedAppend(earlier, [last + "\n"]);
    InclusiveLinesOf(earlier + [last + "\n"]);
  }

  lemma {:induction false} EndedText(config: string, more: string)
    requires more != "" && more[|more| - 1] == '\n'
    ensures EndsWith(config + more, "\n")
  {
    var all := config + more;
    assert all[|all| - 1..] == [more[|more| - 1]];
  }

  /** The blank line before a new hook changes no scan of what is already there. */
  lemma {:induction false} SeparatorIsInert(config: string, selector: Selector)
    ensures Scan(InclusiveLines(config + Separator(config)), false, selector)
         == Scan(InclusiveLines(config), false, selector)
    ensures config + Separator(config) == "" || EndsWith(config + Separator(config), "\n")
  {
    BlankLine();
    FlattenOne("\n");
    if config == "" {
      assert config + Separator(config) == config;
    } else if EndsWith(config, "\n") {
      LinesAfter(config, ["\n"]);
      ScanAppend(InclusiveLines(config), "\n", false, selector);
      EndedText(config, "\n");
    } else {
      var earlier, last := UnterminatedLast(config);
      ScanEnded(earlier, last, false, selector);
      EndedText(config, "\n");
      LinesAfter(config + "\n", ["\n"]);
      ScanAppend(earlier + [last + "\n"], "\n", false, selector);
      EndedText(config + "\n", "\n");
      assert config + "\n" + "\n" == config + Separator(config);
    }
  }

  // ---------------------------------------------------------------------------------------------
  // The appended lines
  // ---------------------------------------------------------------------------------------------

  /** A line that starts with a letter opens no table. */
  lemma {:induction false} LetterLine(line: string)
    requires line != [] && !IsWhitespace(line[0]) && line[0] != '['
    ensures !IsHeader(line) && (line[0] != 'c' ==> !IsHookText(line))
  {
    LineWord(line, "[[");
    FirstLetter(line, "[[");
    FirstLetter(StripEnding(line), "command");
    LineWord(line, "command");
    FirstLetter(line, "command");
    StripKeepsTrim(line);
    LineWord(StripEnding(line), "command");
  }

  lemma {:induction false} HeaderLine(event: string, suffix: string)
    requires '\n' !in event && '\n' !in suffix && |suffix| >= 2 && suffix[|suffix| - 2..] == "]]"
    ensures var line := "[[hooks." + event + suffix + "\n";
      IsTerminated(line) && IsHeader(line) && Trim(line) == "[[hooks." + event + suffix
  {
    var text := "[[hooks." + event + suffix;
    TrimTrailing(text, '\n');
    assert text[|text| - 2..] == suffix[|suffix| - 2..];
    assert text[|text| - 1] == text[|text| - 2..][1];
    TrimNothing(text);
    assert text[..2] == "[[";
    assert '\n' !in "[[hooks.";
    assert '\n' !in text;
  }

  lemma {:induction false} LiteralLine(name: string, value: string)
    requires name != "" && '\n' !in name
    ensures IsTerminated(name + TomlString(value) + "\n")
    ensures (name + TomlString(value) + "\n")[0] == name[0]
  {
    EscapeOnOneLine(value);
    var line := name + TomlString(value) + "\n";
    forall i | 0 <= i < |line| - 1 ensures line[i] != '\n' {
      if i < |name| {
        assert line[i] == name[i];
      } else {
        assert line[i] == TomlString(value)[i - |name|];
      }
    }
  }

  lemma {:induction false} MatcherLine(value: string)
    ensures var line := "matcher = " + TomlString(value) + "\n";
      IsTerminated(line) && !IsHeader(line) && !IsHookText(line)
  {
    LiteralLine("matcher = ", value);
    LetterLine("matcher = " + TomlString(value) + "\n");
  }

  lemma {:induction false} ResidueShape(hook: Hook)
    requires '\n' !in hook.event
    ensures AllTerminated(ResidueLines(hook)) && IsGroup(ResidueLines(hook)) && IsHeader(ResidueLines(hook)[0])
    ensures !AnyHookText(ResidueLines(hook))
  {
    HeaderLine(hook.event, "]]");
    assert "[[hooks." + hook.event + "]]" + "\n" == ResidueLines(hook)[0];
    HeaderIsNotHookText(ResidueLines(hook)[0]);
    BlankLine();
    if hook.matcher.Some? {
      MatcherLine(hook.matcher.value);
    }
  }

  lemma {:induction false} CommandLine(command: string)
    requires IsNiumaCommand(command)
    ensures IsHookText("command = " + TomlString(command) + "\n")
  {
    EscapedCommandIsNiuma(command);
    var text := "command = " + TomlString(command);
    var line := text + "\n";
    assert text == "command = \"" + TomlEscape(command) + "\"";
    assert StripEnding(line) == text;
    ContainsWiden("command = \"", TomlEscape(command), "\"", MARKER);
    ContainsWiden("command = \"", TomlEscape(command), "\"", SOURCE);
    assert text[..7] == "command";
  }

  lemma {:induction false} PlainLine(text: string)
    requires text != "" && '\n' !in text && !IsWhitespace(text[0]) && text[0] != '['
    ensures IsTerminated(text + "\n") && !IsHeader(text + "\n")
  {
    var line := text + "\n";
    assert forall i :: 0 <= i < |text| ==> line[i] == text[i] && text[i] in text;
    LetterLine(line);
  }

  lemma {:induction false} TypeLine()
    ensures IsTerminated("type = \"command\"\n") && !IsHeader("type = \"command\"\n")
  {
    var text := "type = \"command\"";
    assert text + "\n" == "type = \"command\"\n";
    PlainLine(text);
  }

  lemma {:induction false} TimeoutLine()
    ensures IsTerminated("timeout = " + TIMEOUT + "\n") && !IsHeader("timeout = " + TIMEOUT + "\n")
  {
    PlainLine("timeout = " + TIMEOUT);
  }

  lemma {:induction false} FixedLines()
    ensures IsTerminated("type = \"command\"\n") && !IsHeader("type = \"command\"\n")
    ensures IsTerminated("timeout = " + TIMEOUT + "\n") && !IsHeader("timeout = " + TIMEOUT + "\n")
  {
    TypeLine();
    TimeoutLine();
  }

  lemma {:induction false} ValueLines(hook: Hook)
    ensures var command := "command = " + TomlString(hook.command) + "\n";
      var message := "statusMessage = " + TomlString(hook.statusMessage) + "\n";
      IsTerminated(command) && !IsHeader(command) && IsTerminated(message) && !IsHeader(message)
  {
    LiteralLine("command = ", hook.command);
    LetterLine("command = " + TomlString(hook.command) + "\n");
    LiteralLine("statusMessage = ", hook.statusMessage);
    LetterLine("statusMessage = " + TomlString(hook.statusMessage) + "\n");
  }

  lemma {:induction false} FiveLines(a: string, b: string, c: string, d: string, e: string)
    requires IsTerminated(a) && IsTerminated(b) && IsTerminated(c) && IsTerminated(d) && IsTerminated(e)
    requires !IsHeader(b) && !IsHeader(c) && !IsHeader(d) && !IsHeader(e)
    ensures AllTerminated([a, b, c, d, e]) && IsGroup([a, b, c, d, e])
  {}

  lemma {:induction false} HookShape(hook: Hook)
    requires '\n' !in hook.event
    ensures AllTerminated(HookLines(hook)) && IsGroup(HookLines(hook)) && IsHeader(HookLines(hook)[0])
    ensures Trim(HookLines(hook)[0]) == EventHeader(hook.event)
  {
    HeaderLine(hook.event, ".hooks]]");
    FixedLines();
    ValueLines(hook);
    FiveLines(EventHeader(hook.event) + "\n", "type = \"command\"\n", "command = " + TomlString(hook.command) + "\n",
              "timeout = " + TIMEOUT + "\n", "statusMessage = " + TomlString(hook.statusMessage) + "\n");
  }

  // ---------------------------------------------------------------------------------------------
  // What an install does
  // ---------------------------------------------------------------------------------------------

  function Residue(hook: Hook): string {
    Flatten(ResidueLines(hook))
  }

  function HookBlock(hook: Hook): string {
    Flatten(HookLines(hook))
  }

  lemma {:induction false} OneGroup(lines: seq<string>)
    requires IsGroup(lines)
    ensures GroupLines(lines) == [lines] && Joined([lines]) == [Flatten(lines)]
  {
    GroupFirst(lines, []);
    assert lines + [] == lines && [lines] + GroupLines([]) == [lines];
    assert [lines][1..] == [];
  }

  /** A complete text followed by the lines of one headed block splits into its own blocks and that one. */
  lemma {:induction false} AppendedBlock(config: string, lines: seq<string>)
    requires config == "" || EndsWith(config, "\n")
    requires AllTerminated(lines) && IsGroup(lines) && IsHeader(lines[0])
    ensures SplitBlocks(config + Flatten(lines)) == SplitBlocks(config) + [Flatten(lines)]
    ensures EndsWith(config + Flatten(lines), "\n")
  {
    LinesAfter(config, lines);
    GroupAppend(InclusiveLines(config), lines);
    OneGroup(lines);
    JoinedAppend(GroupLines(InclusiveLines(config)), [lines]);
    LastCharacter(lines);
    EndedText(config, Flatten(lines));
  }

  /** An appended hook adds two blocks at the end: a bare table header and the hook itself. */
  lemma {:induction false} UpsertAddsTwoBlocks(config: string, hook: Hook)
    requires '\n' !in hook.event
    ensures SplitBlocks(Upserted(config, hook))
         == SplitBlocks(config + Separator(config)) + [Residue(hook)] + [HookBlock(hook)]
    ensures SplitBlocks(config + Separator(config) + Residue(hook))
         == SplitBlocks(config + Separator(config)) + [Residue(hook)]
    ensures EndsWith(config + Separator(config) + Residue(hook), "\n")
  {
    SeparatorIsInert(config, AnyHook);
    ResidueShape(hook);
    HookShape(hook);
    AppendedBlock(config + Separator(config), ResidueLines(hook));
    AppendedBlock(config + Separator(config) + Residue(hook), HookLines(hook));
  }

  lemma {:induction false} ResidueIsNotNiuma(hook: Hook)
    requires '\n' !in hook.event
    ensures !IsNiumaBlock(Residue(hook))
  {
    ResidueShape(hook);
    NiumaBlockOfGroup(ResidueLines(hook));
  }

  lemma {:induction false} HookLinesAreFor(hook: Hook, selector: Selector)
    requires '\n' !in hook.event && IsNiumaCommand(hook.command) && Selects(selector, EventHeader(hook.event))
    ensures IsGroupFor(HookLines(hook), selector)
  {
    HookShape(hook);
    CommandLine(hook.command);
    assert IsHookText(HookLines(hook)[2]);
  }

  lemma {:induction false} HookBlockIsNiuma(hook: Hook)
    requires '\n' !in hook.event && IsNiumaCommand(hook.command)
    ensures IsNiumaBlock(HookBlock(hook)) && IsBlockFor(HookBlock(hook), ForEvent(hook.event))
  {
    HookShape(hook);
    EventHeaderSelects(hook.event);
    HookLinesAreFor(hook, AnyHook);
    HookLinesAreFor(hook, ForEvent(hook.event));
    NiumaBlockOfGroup(HookLines(hook));
    BlockOfGroup(HookLines(hook), ForEvent(hook.event));
  }

  /** All blocks are the user's, but for the last. */
  ghost predicate OnlyLastIsNiuma(blocks: seq<string>, block: string) {
    && blocks != [] && blocks[|blocks| - 1] == block
    && IsNiumaBlock(block) && NoneNiuma(blocks[..|blocks| - 1])
  }

  lemma {:induction false} OnlyLast(blocks: seq<string>, residue: string, block: string)
    requires NoneNiuma(blocks) && !IsNiumaBlock(residue) && IsNiumaBlock(block)
    ensures OnlyLastIsNiuma(blocks + [residue] + [block], block)
    ensures Kept(blocks + [residue] + [block]) == blocks + [residue]
  {
    var others := blocks + [residue];
    assert (others + [block])[..|others|] == others;
    KeptAppend(others, [block]);
    CleanIsKept(others);
    assert [block][1..] == [] && others + [] == others;
  }

  lemma {:induction false} SeparatedStaysClean(config: string)
    requires NoneNiuma(SplitBlocks(config))
    ensures NoneNiuma(SplitBlocks(config + Separator(config)))
  {
    CleanMeansScan(config);
    SeparatorIsInert(config, AnyHook);
    CleanMeansScan(config + Separator(config));
  }

  /** On a clean configuration: the text is kept as a prefix, exactly the last block is Niuma's, the event is
      reported as installed, and removing takes everything back but the separator and the bare header. */
  lemma {:induction false} UpsertOnClean(config: string, hook: Hook)
    requires NoneNiuma(SplitBlocks(config)) && '\n' !in hook.event && IsNiumaCommand(hook.command)
    ensures StartsWith(Upserted(config, hook), config)
    ensures OnlyLastIsNiuma(SplitBlocks(Upserted(config, hook)), HookBlock(hook))
    ensures SomeBlockFor(Upserted(config, hook), ForEvent(hook.event))
    ensures Removed(Upserted(config, hook)) == config + Separator(config) + Residue(hook)
  {
    UpsertAddsTwoBlocks(config, hook);
    ResidueIsNotNiuma(hook);
    HookBlockIsNiuma(hook);
    SeparatedStaysClean(config);
    var separated := config + Separator(config);
    OnlyLast(SplitBlocks(separated), Residue(hook), HookBlock(hook));
    var blocks := SplitBlocks(Upserted(config, hook));
    assert blocks[|blocks| - 1] in blocks;
    SplitIsLossless(separated + Residue(hook));
    UpsertKeepsText(config, hook);
  }

  lemma {:induction false} UpsertKeepsText(config: string, hook: Hook)
    ensures StartsWith(Upserted(config, hook), config)
  {}

  const STATUS_MESSAGE: string := "Reporting Codex approval request to Niuma"

  function InstalledHook(mode: HookCommand): Hook {
    Hook("PermissionRequest", None, CommandText(mode), STATUS_MESSAGE)
  }

  /** `install_codex_hook` on a `config.toml` that already defines hooks. */
  function Install(config: string, mode: HookCommand): string {
    Upserted(Removed(config), InstalledHook(mode))
  }

  lemma {:induction false} InstalledHookIsWellFormed(mode: HookCommand)
    ensures '\n' !in InstalledHook(mode).event && IsNiumaCommand(InstalledHook(mode).command)
  {
    CommandIsMarked(MARKER, mode);
  }

  /** Whatever the file and the manifest path: one Niuma block, reported as installed, the other blocks kept. */
  lemma {:induction false} InstallLeavesOneHook(config: string, mode: HookCommand)
    ensures StartsWith(Install(config, mode), Removed(config))
    ensures OnlyLastIsNiuma(SplitBlocks(Install(config, mode)), HookBlock(InstalledHook(mode)))
    ensures SomeBlockFor(Install(config, mode), ForEvent("PermissionRequest"))
  {
    RemovalKeepsOtherBlocks(config);
    KeptIsClean(SplitBlocks(config));
    InstalledHookIsWellFormed(mode);
    UpsertOnClean(Removed(config), InstalledHook(mode));
  }

  /** The block that is left: the hook of the permission event, which Codex gives eleven minutes. */
  lemma {:induction false} InstalledBlockIs(mode: HookCommand)
    ensures HookBlock(InstalledHook(mode))
         == "[[hooks." + "PermissionRequest" + ".hooks]]" + "\n" + "type = \"command\"\n"
            + ("command = " + TomlString(CommandText(mode)) + "\n")
            + ("timeout = " + "660" + "\n")
            + ("statusMessage = " + TomlString("Reporting Codex approval request to Niuma") + "\n")
  {
    var hook := InstalledHook(mode);
    FlattenFive(EventHeader(hook.event) + "\n", "type = \"command\"\n", "command = " + TomlString(hook.command) + "\n",
                "timeout = " + TIMEOUT + "\n", "statusMessage = " + TomlString(hook.statusMessage) + "\n");
  }

  /** Uninstalling after an install gives back what removal had kept, plus a blank line and a bare header. */
  lemma {:induction false} UninstallAfterInstall(config: string, mode: HookCommand)
    ensures Uninstalled(Install(config, mode))
         == Removed(config) + Separator(Removed(config)) + Residue(InstalledHook(mode))
  {
    RemovalKeepsOtherBlocks(config);
    KeptIsClean(SplitBlocks(config));
    InstalledHookIsWellFormed(mode);
    UpsertOnClean(Removed(config), InstalledHook(mode));
    UninstallIsRemoval(Install(config, mode));
  }

  /** Installing is never idempotent byte for byte: each reinstall leaves one more blank line and bare header
      before the hook. */
  lemma {:induction false} ReinstallGrows(config: string, first: HookCommand, second: HookCommand)
    ensures var kept := Removed(config) + Separator(Removed(config)) + Residue(InstalledHook(first));
      Install(Install(config, first), second)
        == kept + "\n" + Residue(InstalledHook(second)) + HookBlock(InstalledHook(second))
    ensures |Install(Install(config, first), first)| > |Install(config, first)|
  {
    UninstallAfterInstall(config, first);
    UninstallIsRemoval(Install(config, first));
    InstalledHookIsWellFormed(first);
    UpsertAddsTwoBlocks(Removed(config), InstalledHook(first));
    var kept := Removed(config) + Separator(Removed(config)) + Residue(InstalledHook(first));
    assert Separator(kept) == "\n";
  }
}
