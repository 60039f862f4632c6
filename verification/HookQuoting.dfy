/** How an installed hook command is quoted twice, for the shell and for TOML, and read back
    (crates/niuma-core/src/codex_hook.rs). */
module HookQuoting {
  import opened Wrappers
  import opened Text

  const MARKER: string := "internal hook codex"
  const SOURCE: string := "--source niuma-notifier"

  /** `str::replace` of a single character. */
  function Replace(s: string, c: char, text: string): string {
    if s == [] then [] else (if s[0] == c then text else [s[0]]) + Replace(s[1..], c, text)
  }

  function TomlEscape(value: string): string {
    Replace(Replace(Replace(Replace(Replace(value, '\\', "\\\\"), '"', "\\\""), '\n', "\\n"), '\r', "\\r"), '\t', "\\t")
  }

  function TomlString(value: string): string {
    "\"" + TomlEscape(value) + "\""
  }

  function ShellQuote(value: string): string {
    "'" + Replace(value, '\'', "'\\''") + "'"
  }

  datatype HookCommand = Installed | Dev(manifestPath: string)

  const DEV_START: string := "cargo run --manifest-path "
  const DEV_END: string := " -p niuma-cli --"

  /** The command an installer writes; the marker tells the tools apart. */
  function CommandWith(marker: string, mode: HookCommand): string {
    var arguments := " " + marker + " " + SOURCE;
    match mode
    case Installed => "niuma" + arguments
    case Dev(path) => DEV_START + ShellQuote(path) + (DEV_END + arguments)
  }

  function CommandText(mode: HookCommand): string {
    CommandWith(MARKER, mode)
  }

  // ---------------------------------------------------------------------------------------------
  // TOML basic strings
  // ---------------------------------------------------------------------------------------------

  lemma {:induction false} ReplaceConcat(a: string, b: string, c: char, text: string)
    ensures Replace(a + b, c, text) == Replace(a, c, text) + Replace(b, c, text)
  {
    if a == [] {
      assert a + b == b;
    } else {
      assert (a + b)[1..] == a[1..] + b;
      ReplaceConcat(a[1..], b, c, text);
    }
  }

  /** The five successive replacements never see each other's output: they escape character by character. */
  lemma {:induction false} EscapeConcat(a: string, b: string)
    ensures TomlEscape(a + b) == TomlEscape(a) + TomlEscape(b)
  {
    ReplaceConcat(a, b, '\\', "\\\\");
    var a1, b1 := Replace(a, '\\', "\\\\"), Replace(b, '\\', "\\\\");
    ReplaceConcat(a1, b1, '"', "\\\"");
    var a2, b2 := Replace(a1, '"', "\\\""), Replace(b1, '"', "\\\"");
    ReplaceConcat(a2, b2, '\n', "\\n");
    var a3, b3 := Replace(a2, '\n', "\\n"), Replace(b2, '\n', "\\n");
    ReplaceConcat(a3, b3, '\r', "\\r");
    var a4, b4 := Replace(a3, '\r', "\\r"), Replace(b3, '\r', "\\r");
    ReplaceConcat(a4, b4, '\t', "\\t");
  }

  function EscapeChar(c: char): string {
    if c == '\\' then "\\\\" else if c == '"' then "\\\"" else if c == '\n' then "\\n"
    else if c == '\r' then "\\r" else if c == '\t' then "\\t" else [c]
  }

  lemma {:induction false} ReplaceOne(x: char, c: char, text: string)
    ensures Replace([x], c, text) == if x == c then text else [x]
  {
    assert [x][1..] == [];
  }

  lemma {:induction false} ReplaceTwo(x: char, y: char, c: char, text: string)
    ensures Replace([x, y], c, text) == (if x == c then text else [x]) + (if y == c then text else [y])
  {
    assert [x, y] == [x] + [y];
    ReplaceConcat([x], [y], c, text);
    ReplaceOne(x, c, text);
    ReplaceOne(y, c, text);
  }

  lemma {:induction false} EscapeOne(c: char)
    ensures TomlEscape([c]) == EscapeChar(c)
  {
    ReplaceOne(c, '\\', "\\\\");
    ReplaceOne(c, '"', "\\\"");
    ReplaceOne(c, '\n', "\\n");
    ReplaceOne(c, '\r', "\\r");
    ReplaceOne(c, '\t', "\\t");
    if c == '\\' {
      ReplaceTwo('\\', '\\', '"', "\\\"");
      ReplaceTwo('\\', '\\', '\n', "\\n");
      ReplaceTwo('\\', '\\', '\r', "\\r");
      ReplaceTwo('\\', '\\', '\t', "\\t");
    } else if c == '"' {
      ReplaceTwo('\\', '"', '\n', "\\n");
      ReplaceTwo('\\', '"', '\r', "\\r");
      ReplaceTwo('\\', '"', '\t', "\\t");
    } else if c == '\n' {
      ReplaceTwo('\\', 'n', '\r', "\\r");
      ReplaceTwo('\\', 'n', '\t', "\\t");
    } else if c == '\r' {
      ReplaceTwo('\\', 'r', '\t', "\\t");
    }
  }

  /** A string literal never breaks its line. */
  lemma {:induction false} EscapeOnOneLine(value: string)
    ensures '\n' !in TomlEscape(value) && '\r' !in TomlEscape(value)
  {
    if value != [] {
      assert value == [value[0]] + value[1..];
      EscapeConcat([value[0]], value[1..]);
      EscapeOne(value[0]);
      EscapeOnOneLine(value[1..]);
    }
  }

  /** Control characters that a basic string may not hold unescaped (TOML v1.0.0, section String). */
  predicate IsForbidden(c: char) {
    var n := c as int;
    n <= 8 || 0xA <= n <= 0x1F || n == 0x7F
  }

  /** Reads a basic string after its opening quote: its value and what follows the closing quote. The
      `\u` and `\U` escapes are not read. */
  function ReadBasic(s: string): Option<(string, string)> {
    if s == [] then None
    else if s[0] == '"' then Some(("", s[1..]))
    else if s[0] == '\\' then
      if |s| < 2 || EscapeMeaning(s[1]).None? then None else Prepend(EscapeMeaning(s[1]).value, ReadBasic(s[2..]))
    else if IsForbidden(s[0]) then None
    else Prepend(s[0], ReadBasic(s[1..]))
  }

  function EscapeMeaning(c: char): Option<char> {
    if c == 'b' then Some(8 as char) else if c == 't' then Some('\t') else if c == 'n' then Some('\n')
    else if c == 'f' then Some(12 as char) else if c == 'r' then Some('\r') else if c == '"' then Some('"')
    else if c == '\\' then Some('\\') else None
  }

  function Prepend(c: char, read: Option<(string, string)>): Option<(string, string)> {
    if read.None? then None else Some(([c] + read.value.0, read.value.1))
  }

  /** What `toml_string` can express: no control characters other than tab, line feed and carriage return. */
  predicate IsExpressible(value: string) {
    forall i :: 0 <= i < |value| ==> value[i] in "\t\n\r" || !IsForbidden(value[i])
  }

  /** Reading a literal gives the value back exactly when it holds no other control character; otherwise the
      literal is not TOML at all. */
  lemma {:induction false} TomlStringReadsBack(value: string, rest: string)
    ensures TomlString(value)[0] == '"'
    ensures ReadBasic(TomlString(value)[1..] + rest) == if IsExpressible(value) then Some((value, rest)) else None
  {
    assert TomlString(value)[1..] + rest == TomlEscape(value) + ("\"" + rest);
    EscapeReadsBack(value, rest);
  }

  /** Such a value: a bell character, which is written as it is. */
  lemma {:induction false} BellIsNoToml(rest: string)
    ensures ReadBasic(TomlString([7 as char])[1..] + rest) == None
  {
    TomlStringReadsBack([7 as char], rest);
    assert [7 as char][0] == 7 as char;
  }

  lemma {:induction false} EscapeReadsBack(value: string, rest: string)
    ensures ReadBasic(TomlEscape(value) + ("\"" + rest)) == if IsExpressible(value) then Some((value, rest)) else None
  {
    var end := "\"" + rest;
    if value == [] {
      assert TomlEscape(value) + end == end && end[1..] == rest;
    } else {
      var c, tail := value[0], value[1..];
      assert value == [c] + tail;
      EscapeConcat([c], tail);
      EscapeOne(c);
      EscapeReadsBack(tail, rest);
      ReadEscapedChar(c, TomlEscape(tail) + end);
      Reassociate(EscapeChar(c), TomlEscape(tail), end);
      ExpressibleConcat([c], tail);
    }
  }

  lemma {:induction false} ExpressibleConcat(a: string, b: string)
    ensures IsExpressible(a + b) == (IsExpressible(a) && IsExpressible(b))
  {
    if IsExpressible(a + b) {
      forall i | 0 <= i < |b| ensures b[i] in "\t\n\r" || !IsForbidden(b[i]) {
        assert b[i] == (a + b)[|a| + i];
      }
      forall i | 0 <= i < |a| ensures a[i] in "\t\n\r" || !IsForbidden(a[i]) {
        assert a[i] == (a + b)[i];
      }
    }
  }

  lemma {:induction false} ReadEscapedChar(c: char, rest: string)
    ensures ReadBasic(EscapeChar(c) + rest) == if IsExpressible([c]) then Prepend(c, ReadBasic(rest)) else None
  {
    var s := EscapeChar(c) + rest;
    assert [c][0] == c;
    if |EscapeChar(c)| == 1 {
      assert s[1..] == rest;
    } else {
      assert s[2..] == rest;
    }
  }

  // ---------------------------------------------------------------------------------------------
  // Shell words
  // ---------------------------------------------------------------------------------------------

  predicate IsBlankChar(c: char) {
    c == ' ' || c == '\t' || c == '\n'
  }

  /** Characters with a meaning of their own outside quotes (POSIX Shell Command Language, section 2.2). */
  predicate IsSpecial(c: char) {
    var n := c as int;
    || 0x21 <= n <= 0x26 || 0x28 <= n <= 0x2A || 0x3B <= n <= 0x3C || 0x3E <= n <= 0x3F
    || n == 0x5B || n == 0x60 || 0x7B <= n <= 0x7E
  }

  /** Reads one shell word, from inside or outside single quotes: its value and the rest, from the blank that
      ended it. Expansions and double quotes are not read. */
  function ReadWord(s: string, quoted: bool): Option<(string, string)> {
    if quoted then
      if s == [] then None
      else if s[0] == '\'' then ReadWord(s[1..], false)
      else Prepend(s[0], ReadWord(s[1..], true))
    else if s == [] then Some(("", ""))
    else if IsBlankChar(s[0]) then Some(("", s))
    else if s[0] == '\'' then ReadWord(s[1..], true)
    else if s[0] == '\\' then
      if |s| < 2 || s[1] == '\n' then None else Prepend(s[1], ReadWord(s[2..], false))
    else if IsSpecial(s[0]) then None
    else Prepend(s[0], ReadWord(s[1..], false))
  }

  predicate EndsWord(tail: string) {
    tail == [] || IsBlankChar(tail[0])
  }

  lemma {:induction false} ReadPlain(c: char, rest: string)
    requires c != '\''
    ensures ReadWord([c] + rest, true) == Prepend(c, ReadWord(rest, true))
  {
    assert ([c] + rest)[1..] == rest;
  }

  lemma {:induction false} ReadClosing(tail: string)
    requires EndsWord(tail)
    ensures ReadWord("'" + tail, true) == Some(("", tail))
  {
    assert ("'" + tail)[1..] == tail;
  }

  lemma {:induction false} QuotedBodyReads(value: string, tail: string)
    requires EndsWord(tail)
    ensures ReadWord(Replace(value, '\'', "'\\''") + ("'" + tail), true) == Some((value, tail))
  {
    if value == [] {
      assert Replace(value, '\'', "'\\''") + ("'" + tail) == "'" + tail;
      ReadClosing(tail);
    } else {
      var more := Replace(value[1..], '\'', "'\\''");
      QuotedBodyReads(value[1..], tail);
      assert value == [value[0]] + value[1..];
      if value[0] == '\'' {
        Reassociate("'\\''", more, "'" + tail);
        QuotedQuote(more + ("'" + tail));
      } else {
        Reassociate([value[0]], more, "'" + tail);
        ReadPlain(value[0], more + ("'" + tail));
      }
    }
  }

  /** Inside quotes, the four characters written for a quote stand for it. */
  lemma {:induction false} QuotedQuote(rest: string)
    ensures ReadWord("'\\''" + rest, true) == Prepend('\'', ReadWord(rest, true))
  {
    var s := "'\\''" + rest;
    var t := "\\''" + rest;
    var u := "'" + rest;
    assert s[1..] == t && t[2..] == u && u[1..] == rest;
    assert ReadWord(s, true) == ReadWord(t, false);
    assert t[1] == '\'';
    assert ReadWord(u, false) == ReadWord(rest, true);
  }

  /** A quoted value is one word, and that word is the value, whatever characters it holds. */
  lemma {:induction false} ShellQuoteReadsBack(value: string, tail: string)
    requires EndsWord(tail)
    ensures ReadWord(ShellQuote(value) + tail, false) == Some((value, tail))
  {
    var s := ShellQuote(value) + tail;
    assert s[1..] == Replace(value, '\'', "'\\''") + ("'" + tail);
    QuotedBodyReads(value, tail);
  }

  lemma {:induction false} AfterStart(start: string, middle: string, end: string)
    ensures StartsWith(start + middle + end, start) && (start + middle + end)[|start|..] == middle + end
  {
    assert start + middle + end == start + (middle + end);
  }

  /** The shell passes the manifest path to cargo as one argument, whatever characters it holds. */
  lemma {:induction false} ManifestPathIsOneWord(marker: string, path: string)
    ensures var command := CommandWith(marker, Dev(path));
      StartsWith(command, DEV_START)
      && ReadWord(command[|DEV_START|..], false) == Some((path, DEV_END + (" " + marker + " " + SOURCE)))
  {
    var tail := DEV_END + (" " + marker + " " + SOURCE);
    assert tail[0] == ' ';
    ShellQuoteReadsBack(path, tail);
    AfterStart(DEV_START, ShellQuote(path), tail);
  }

  // ---------------------------------------------------------------------------------------------
  // Recognising an installed command
  // ---------------------------------------------------------------------------------------------

  predicate IsNiumaCommand(command: string) {
    Contains(command, MARKER) && Contains(command, SOURCE)
  }

  predicate NeedsNoEscape(s: string) {
    forall i :: 0 <= i < |s| ==> s[i] != '\\' && s[i] != '"' && s[i] != '\n' && s[i] != '\r' && s[i] != '\t'
  }

  lemma {:induction false} EscapeNothing(s: string)
    requires NeedsNoEscape(s)
    ensures TomlEscape(s) == s
  {
    if s != [] {
      assert s == [s[0]] + s[1..];
      EscapeConcat([s[0]], s[1..]);
      EscapeOne(s[0]);
      EscapeNothing(s[1..]);
    }
  }

  lemma {:induction false} EscapeKeeps(command: string, part: string)
    requires Contains(command, part) && NeedsNoEscape(part)
    ensures Contains(TomlEscape(command), part)
  {
    var i :| 0 <= i <= |command| && OccursAt(command, part, i);
    var a, b := command[..i], command[i + |part|..];
    assert command == a + (part + b);
    EscapeConcat(a, part + b);
    EscapeConcat(part, b);
    EscapeNothing(part);
    assert TomlEscape(command) == TomlEscape(a) + part + TomlEscape(b);
    assert OccursAt(TomlEscape(command), part, |TomlEscape(a)|);
  }

  lemma {:induction false} MarkerIsPlain()
    ensures NeedsNoEscape(MARKER)
  {}

  lemma {:induction false} SourceIsPlain()
    ensures NeedsNoEscape(SOURCE)
  {}

  /** Escaping does not hide a Niuma command. */
  lemma {:induction false} EscapedCommandIsNiuma(command: string)
    requires IsNiumaCommand(command)
    ensures IsNiumaCommand(TomlEscape(command))
  {
    MarkerIsPlain();
    SourceIsPlain();
    EscapeKeeps(command, MARKER);
    EscapeKeeps(command, SOURCE);
  }

  lemma {:induction false} MarkedTwice(head: string, marker: string, source: string)
    ensures Contains(head + (" " + marker + " " + source), marker)
    ensures Contains(head + (" " + marker + " " + source), source)
  {
    var s := head + (" " + marker + " " + source);
    assert OccursAt(s, marker, |head| + 1);
    assert OccursAt(s, source, |head| + 2 + |marker|);
  }

  /** Both commands are recognised as Niuma's own, whatever the manifest path. */
  lemma {:induction false} CommandIsMarked(marker: string, mode: HookCommand)
    ensures Contains(CommandWith(marker, mode), marker) && Contains(CommandWith(marker, mode), SOURCE)
  {
    match mode
    case Installed =>
      MarkedTwice("niuma", marker, SOURCE);
    case Dev(path) =>
      MarkedTwice(DEV_START + ShellQuote(path) + DEV_END, marker, SOURCE);
      Reassociate(DEV_START + ShellQuote(path), DEV_END, " " + marker + " " + SOURCE);
  }

  /** The commands that the Codex installer writes. */
  lemma {:induction false} InstalledCommandIs(path: string)
    ensures CommandText(Installed) == "niuma" + (" " + "internal hook codex" + " " + "--source niuma-notifier")
    ensures CommandText(Dev(path))
         == "cargo run --manifest-path " + ShellQuote(path)
            + (" -p niuma-cli --" + (" " + "internal hook codex" + " " + "--source niuma-notifier"))
  {}
}
