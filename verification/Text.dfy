/** Strings as Rust's `str` sees them: white space, trimming, searching and lines. */
module Text {

  // ---------------------------------------------------------------------------------------------
  // Concatenation
  // ---------------------------------------------------------------------------------------------

  function Flatten<T>(parts: seq<seq<T>>): seq<T> {
    if parts == [] then [] else parts[0] + Flatten(parts[1..])
  }

  lemma {:induction false} FlattenAppend<T>(a: seq<seq<T>>, b: seq<seq<T>>)
    ensures Flatten(a + b) == Flatten(a) + Flatten(b)
  {
    if a == [] {
      assert a + b == b;
    } else {
      assert (a + b)[1..] == a[1..] + b;
      FlattenAppend(a[1..], b);
    }
  }

  lemma {:induction false} FlattenOne<T>(part: seq<T>)
    ensures Flatten([part]) == part
  {
    assert Flatten([part][1..]) == [];
  }

  lemma {:induction false} PrefixOfPrefix<T>(s: seq<T>, n: nat, i: nat)
    requires i <= n <= |s|
    ensures s[..n][..i] == s[..i]
  {}

  lemma {:induction false} Reassociate<T>(a: seq<T>, b: seq<T>, c: seq<T>)
    ensures (a + b) + c == a + (b + c)
  {}

  // ---------------------------------------------------------------------------------------------
  // White space
  // ---------------------------------------------------------------------------------------------

  /** Unicode `White_Space`. */
  predicate IsWhitespace(c: char) {
    var n := c as int;
    || 9 <= n <= 13 || n == 0x20 || n == 0x85 || n == 0xA0 || n == 0x1680 || 0x2000 <= n <= 0x200A
    || n == 0x2028 || n == 0x2029 || n == 0x202F || n == 0x205F || n == 0x3000
  }

  /** Nothing is left of the text once trimmed. */
  predicate IsBlank(s: string) {
    forall i :: 0 <= i < |s| ==> IsWhitespace(s[i])
  }

  function TrimStart(s: string): string {
    if s != [] && IsWhitespace(s[0]) then TrimStart(s[1..]) else s
  }

  function TrimEnd(s: string): string {
    if s != [] && IsWhitespace(s[|s| - 1]) then TrimEnd(s[..|s| - 1]) else s
  }

  function Trim(s: string): string {
    TrimEnd(TrimStart(s))
  }

  lemma {:induction false} TrimStartExactly(s: string) returns (blank: string)
    ensures IsBlank(blank) && s == blank + TrimStart(s)
    ensures TrimStart(s) == "" || !IsWhitespace(TrimStart(s)[0])
  {
    blank := "";
    if s != [] && IsWhitespace(s[0]) {
      blank := TrimStartExactly(s[1..]);
      blank := [s[0]] + blank;
    }
  }

  lemma {:induction false} TrimEndExactly(s: string) returns (blank: string)
    ensures IsBlank(blank) && s == TrimEnd(s) + blank
    ensures TrimEnd(s) == "" || !IsWhitespace(TrimEnd(s)[|TrimEnd(s)| - 1])
  {
    blank := "";
    if s != [] && IsWhitespace(s[|s| - 1]) {
      blank := TrimEndExactly(s[..|s| - 1]);
      blank := blank + [s[|s| - 1]];
    }
  }

  /** Trimming cuts white space off both ends and stops at other characters; nothing is left exactly of blank text. */
  lemma {:induction false} TrimExactly(s: string) returns (before: string, after: string)
    ensures IsBlank(before) && IsBlank(after) && s == before + Trim(s) + after
    ensures Trim(s) == "" <==> IsBlank(s)
    ensures Trim(s) != "" ==> !IsWhitespace(Trim(s)[0]) && !IsWhitespace(Trim(s)[|Trim(s)| - 1])
  {
    before := TrimStartExactly(s);
    after := TrimEndExactly(TrimStart(s));
    var t := Trim(s);
    if t != "" {
      assert TrimStart(s)[0] == t[0];
      assert s[|before|] == t[0];
    }
  }

  lemma {:induction false} TrimTrailing(s: string, c: char)
    requires IsWhitespace(c)
    ensures Trim(s + [c]) == Trim(s)
  {
    var t := s + [c];
    if s == [] {
      assert t[1..] == [];
    } else if IsWhitespace(s[0]) {
      assert t[1..] == s[1..] + [c];
      TrimTrailing(s[1..], c);
    } else {
      assert t[..|t| - 1] == s;
    }
  }

  /** A text that starts and ends in other characters is already trimmed. */
  lemma {:induction false} TrimNothing(s: string)
    requires s != [] && !IsWhitespace(s[0]) && !IsWhitespace(s[|s| - 1])
    ensures Trim(s) == s
  {}

  // ---------------------------------------------------------------------------------------------
  // Searching
  // ---------------------------------------------------------------------------------------------

  predicate StartsWith(s: string, p: string) {
    |p| <= |s| && s[..|p|] == p
  }

  predicate EndsWith(s: string, p: string) {
    |p| <= |s| && s[|s| - |p|..] == p
  }

  predicate OccursAt(s: string, p: string, i: int) {
    0 <= i && i + |p| <= |s| && s[i..i + |p|] == p
  }

  predicate Contains(s: string, p: string) {
    exists i | 0 <= i <= |s| :: OccursAt(s, p, i)
  }

  lemma {:induction false} ContainsWiden(a: string, s: string, b: string, p: string)
    requires Contains(s, p)
    ensures Contains(a + s + b, p)
  {
    var i :| 0 <= i <= |s| && OccursAt(s, p, i);
    assert (a + s + b)[|a| + i..|a| + i + |p|] == s[i..i + |p|];
    assert OccursAt(a + s + b, p, |a| + i);
  }

  lemma {:induction false} OccursBeforeLast(s: string, p: string, i: int)
    requires s != [] && p != [] && s[|s| - 1] !in p && OccursAt(s, p, i)
    ensures OccursAt(s[..|s| - 1], p, i)
  {
    var found := s[i..i + |p|];
    assert found[|p| - 1] in p;
    assert found[|p| - 1] == s[i + |p| - 1];
    assert s[..|s| - 1][i..i + |p|] == found;
  }

  lemma {:induction false} ContainsDropLast(s: string, p: string)
    requires s != [] && p != [] && s[|s| - 1] !in p
    ensures Contains(s, p) == Contains(s[..|s| - 1], p)
  {
    if Contains(s, p) {
      var i :| 0 <= i <= |s| && OccursAt(s, p, i);
      OccursBeforeLast(s, p, i);
    } else if Contains(s[..|s| - 1], p) {
      var i :| 0 <= i <= |s| - 1 && OccursAt(s[..|s| - 1], p, i);
      assert OccursAt(s, p, i);
    }
  }

  /** A separator that neither part before it holds splits equal texts into equal parts. */
  lemma {:induction false} SameAtFirst(separator: char, a: string, p: string, b: string, q: string)
    requires separator !in a && separator !in b && a + [separator] + p == b + [separator] + q
    ensures a == b && p == q
  {
    var s, t := a + [separator] + p, b + [separator] + q;
    if a == [] || b == [] {
      assert s[0] == t[0];
      assert s[1 + |a|..] == p && t[1 + |b|..] == q;
    } else {
      assert s[0] == a[0] && t[0] == b[0];
      assert s[1..] == a[1..] + [separator] + p && t[1..] == b[1..] + [separator] + q;
      SameAtFirst(separator, a[1..], p, b[1..], q);
      assert a == [a[0]] + a[1..] && b == [b[0]] + b[1..];
    }
  }

  /** Trimming the end keeps a leading word that does not itself end in white space. */
  lemma {:induction false} TrimEndKeepsWord(s: string, word: string)
    requires word != [] && !IsWhitespace(word[|word| - 1])
    ensures StartsWith(TrimEnd(s), word) == StartsWith(s, word)
  {
    if s != [] && IsWhitespace(s[|s| - 1]) {
      var t := s[..|s| - 1];
      TrimEndKeepsWord(t, word);
      if StartsWith(s, word) {
        assert s[..|word|][|word| - 1] == word[|word| - 1];
        assert t[..|word|] == s[..|word|];
      }
      if StartsWith(t, word) {
        assert t[..|word|] == s[..|word|];
      }
    }
  }

  // ---------------------------------------------------------------------------------------------
  // Lines
  // ---------------------------------------------------------------------------------------------

  /** The position just after the first line feed, or the end. */
  function LineEnd(s: string): (n: nat)
    ensures n <= |s| && (s != [] ==> n > 0)
  {
    if s == [] then 0 else if s[0] == '\n' then 1 else 1 + LineEnd(s[1..])
  }

  /** The lines of a text, each with its line feed: `split_inclusive('\n')`. */
  function InclusiveLines(s: string): seq<string> {
    if s == [] then [] else [s[..LineEnd(s)]] + InclusiveLines(s[LineEnd(s)..])
  }

  /** A line without its line feed, or without its carriage return and line feed. */
  function StripEnding(l: string): string {
    if l == [] || l[|l| - 1] != '\n' then l
    else if |l| >= 2 && l[|l| - 2] == '\r' then l[..|l| - 2]
    else l[..|l| - 1]
  }

  function StripAll(lines: seq<string>): (r: seq<string>)
    ensures |r| == |lines| && forall i :: 0 <= i < |lines| ==> r[i] == StripEnding(lines[i])
  {
    if lines == [] then [] else [StripEnding(lines[0])] + StripAll(lines[1..])
  }

  /** `str::lines`. */
  function Lines(s: string): seq<string> {
    StripAll(InclusiveLines(s))
  }

  predicate IsTerminated(l: string) {
    l != [] && l[|l| - 1] == '\n' && forall i :: 0 <= i < |l| - 1 ==> l[i] != '\n'
  }

  predicate IsUnterminated(l: string) {
    l != [] && forall i :: 0 <= i < |l| ==> l[i] != '\n'
  }

  predicate AllTerminated(lines: seq<string>) {
    forall i :: 0 <= i < |lines| ==> IsTerminated(lines[i])
  }

  /** What a text splits into: terminated lines, except that the last one need not be. */
  predicate WellLined(lines: seq<string>) {
    && (forall i :: 0 <= i < |lines| - 1 ==> IsTerminated(lines[i]))
    && (lines != [] ==> IsTerminated(lines[|lines| - 1]) || IsUnterminated(lines[|lines| - 1]))
  }

  lemma {:induction false} LineEndShape(s: string)
    requires s != []
    ensures IsTerminated(s[..LineEnd(s)]) || (LineEnd(s) == |s| && IsUnterminated(s))
  {
    if s[0] == '\n' {
    } else if s[1..] == [] {
    } else {
      LineEndShape(s[1..]);
      var n := LineEnd(s[1..]);
      assert s[..n + 1] == [s[0]] + s[1..][..n];
      assert s == [s[0]] + s[1..];
    }
  }

  lemma {:induction false} LineEndOf(l: string, rest: string)
    requires IsTerminated(l) || (IsUnterminated(l) && rest == [])
    ensures LineEnd(l + rest) == |l|
  {
    if l[0] != '\n' && |l| > 1 {
      assert (l + rest)[1..] == l[1..] + rest;
      assert l[1..] != [] && l[1..][|l| - 2] == l[|l| - 1];
      LineEndOf(l[1..], rest);
    } else if |l| == 1 {
      assert (l + rest)[0] == l[0];
      assert (l + rest)[1..] == rest;
    }
  }

  lemma {:induction false} WellLinedCons(line: string, lines: seq<string>)
    requires WellLined(lines) && (IsTerminated(line) || (lines == [] && IsUnterminated(line)))
    ensures WellLined([line] + lines)
  {
    if lines != [] {
      assert ([line] + lines)[|lines|] == lines[|lines| - 1];
    }
  }

  lemma {:induction false} InclusiveLinesShape(s: string)
    ensures WellLined(InclusiveLines(s)) && Flatten(InclusiveLines(s)) == s
  {
    if s != [] {
      var line, rest := s[..LineEnd(s)], s[LineEnd(s)..];
      assert s == line + rest;
      LineEndShape(s);
      InclusiveLinesShape(rest);
      FlattenCons(line, InclusiveLines(rest));
      if !IsTerminated(line) {
        assert line == s && rest == "";
      }
      WellLinedCons(line, InclusiveLines(rest));
    }
  }

  lemma {:induction false} FlattenCons<T>(part: seq<T>, parts: seq<seq<T>>)
    ensures Flatten([part] + parts) == part + Flatten(parts)
  {
    assert ([part] + parts)[1..] == parts;
  }

  lemma {:induction false} FirstLineOf(line: string, rest: string)
    requires IsTerminated(line) || (IsUnterminated(line) && rest == [])
    ensures InclusiveLines(line + rest) == [line] + InclusiveLines(rest)
  {
    LineEndOf(line, rest);
    assert (line + rest)[..|line|] == line && (line + rest)[|line|..] == rest;
  }

  /** Lines are recovered from their concatenation: together with the previous lemma, splitting is the
      inverse of concatenating well-formed lines. */
  lemma {:induction false} InclusiveLinesOf(lines: seq<string>)
    requires WellLined(lines)
    ensures InclusiveLines(Flatten(lines)) == lines
  {
    if lines != [] {
      var line, rest := lines[0], Flatten(lines[1..]);
      assert WellLined(lines[1..]) && (IsTerminated(line) || (lines[1..] == [] && IsUnterminated(line)));
      InclusiveLinesOf(lines[1..]);
      FirstLineOf(line, rest);
      assert lines == [line] + lines[1..];
    }
  }

  lemma {:induction false} WellLinedAppend(a: seq<string>, b: seq<string>)
    requires AllTerminated(a) && WellLined(b)
    ensures WellLined(a + b)
  {}

  /** Stripping its ending changes neither a trimmed line nor what it contains. */
  lemma {:induction false} StripKeepsTrim(l: string)
    ensures Trim(StripEnding(l)) == Trim(l)
  {
    if l != [] && l[|l| - 1] == '\n' {
      var m := l[..|l| - 1];
      assert l == m + ['\n'];
      TrimTrailing(m, '\n');
      if m != [] && m[|m| - 1] == '\r' {
        assert m == l[..|l| - 2] + ['\r'];
        TrimTrailing(l[..|l| - 2], '\r');
      }
    }
  }
}
