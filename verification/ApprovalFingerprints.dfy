/** How the arbiter recognises the same approval in reports of different sources: the fingerprint
    (crates/niuma-core/src/approval_arbitration.rs). The hash is a parameter; its hexadecimal output holds no
    colon. */
module ApprovalFingerprints {
  import opened Wrappers
  import opened Text
  import Arbitration = ApprovalArbitration

  // ---------------------------------------------------------------------------------------------
  // Words
  // ---------------------------------------------------------------------------------------------

  /** The non-blank characters a text starts with. */
  function FirstWord(s: string): (word: string)
    ensures word <= s && forall i :: 0 <= i < |word| ==> !IsWhitespace(word[i])
    ensures |word| < |s| ==> IsWhitespace(s[|word|])
  {
    if s == [] || IsWhitespace(s[0]) then [] else [s[0]] + FirstWord(s[1..])
  }

  /** `split_whitespace`. */
  function Words(s: string): seq<string>
    decreases |s|
  {
    if s == [] then []
    else if IsWhitespace(s[0]) then Words(s[1..])
    else [FirstWord(s)] + Words(s[|FirstWord(s)|..])
  }

  function JoinWords(words: seq<string>): string {
    if words == [] then "" else if |words| == 1 then words[0] else words[0] + " " + JoinWords(words[1..])
  }

  predicate IsWord(word: string) {
    word != [] && forall i :: 0 <= i < |word| ==> !IsWhitespace(word[i])
  }

  predicate AreWords(words: seq<string>) {
    forall i :: 0 <= i < |words| ==> IsWord(words[i])
  }

  lemma {:induction false} WordsAreWords(s: string)
    ensures AreWords(Words(s))
    ensures Words(s) == [] <==> IsBlank(s)
    decreases |s|
  {
    if s == [] {
    } else if IsWhitespace(s[0]) {
      WordsAreWords(s[1..]);
      assert IsBlank(s) <==> IsBlank(s[1..]) by {
        assert s == [s[0]] + s[1..];
      }
    } else {
      WordsAreWords(s[|FirstWord(s)|..]);
    }
  }

  lemma {:induction false} FirstWordOf(word: string, rest: string)
    requires IsWord(word) && (rest == [] || IsWhitespace(rest[0]))
    ensures FirstWord(word + rest) == word
  {
    assert (word + rest)[1..] == word[1..] + rest;
    if |word| > 1 {
      FirstWordOf(word[1..], rest);
    } else {
      assert word[1..] + rest == rest;
    }
    assert word == [word[0]] + word[1..];
  }

  /** Joining words with single spaces and splitting again gives the words back. */
  lemma {:induction false} WordsOfJoined(words: seq<string>)
    requires AreWords(words)
    ensures Words(JoinWords(words)) == words
    ensures words != [] ==> JoinWords(words) != "" && !IsWhitespace(JoinWords(words)[0])
  {
    if words == [] {
    } else if |words| == 1 {
      FirstWordOf(words[0], "");
      assert words[0] + "" == words[0] && words[0][|words[0]|..] == "";
    } else {
      var rest := " " + JoinWords(words[1..]);
      WordsOfJoined(words[1..]);
      FirstWordOf(words[0], rest);
      assert JoinWords(words) == words[0] + rest;
      assert (words[0] + rest)[|words[0]|..] == rest && rest[1..] == JoinWords(words[1..]);
      assert words == [words[0]] + words[1..];
    }
  }

  function Normalized(value: Option<string>): Option<string> {
    if value.None? || JoinWords(Words(value.value)) == "" then None else Some(JoinWords(Words(value.value)))
  }

  /** Two texts normalise alike exactly when they have the same words; nothing is left exactly of blank text. */
  lemma {:induction false} NormalizedIsWords(a: string, b: string)
    ensures Normalized(Some(a)) == Normalized(Some(b)) <==> Words(a) == Words(b)
    ensures Normalized(Some(a)).None? <==> IsBlank(a)
    ensures Normalized(Some(a)).Some? ==> Normalized(Normalized(Some(a))) == Normalized(Some(a))
  {
    WordsAreWords(a);
    WordsAreWords(b);
    WordsOfJoined(Words(a));
    WordsOfJoined(Words(b));
  }

  // ---------------------------------------------------------------------------------------------
  // The fingerprint
  // ---------------------------------------------------------------------------------------------

  /** What a fingerprint is made of, before hashing. */
  datatype Parts = Parts(projectPath: string, sessionId: Option<string>, basis: Arbitration.Basis, text: string)

  function TrimmedId(sessionId: Option<string>): Option<string> {
    if sessionId.None? || Trim(sessionId.value) == "" then None else Some(Trim(sessionId.value))
  }

  /** The command if it says anything, else the description. */
  function PartsOf(projectPath: string, sessionId: Option<string>, command: Option<string>,
                   description: Option<string>): Option<Parts>
  {
    if Normalized(command).Some? then
      Some(Parts(Trim(projectPath), TrimmedId(sessionId), Arbitration.Command, Normalized(command).value))
    else if Normalized(description).Some? then
      Some(Parts(Trim(projectPath), TrimmedId(sessionId), Arbitration.Description, Normalized(description).value))
    else None
  }

  function BasisName(basis: Arbitration.Basis): string {
    match basis
    case Command => "command"
    case Description => "description"
  }

  type Hash = string -> string

  ghost predicate IsHexadecimal(hash: Hash) {
    forall text :: ':' !in hash(text)
  }

  function KeyOf(parts: Parts, hash: Hash): string {
    var session := if parts.sessionId.Some? then parts.sessionId.value else "";
    "codex-approval:"
    + (hash(parts.projectPath) + ":" + (hash(session) + ":" + (BasisName(parts.basis) + ":" + hash(parts.text))))
  }

  function FromParts(projectPath: string, sessionId: Option<string>, command: Option<string>,
                     description: Option<string>, hash: Hash):
    Option<Arbitration.Fingerprint>
  {
    match PartsOf(projectPath, sessionId, command, description)
    case None => None
    case Some(parts) =>
      Some(Arbitration.Fingerprint(KeyOf(parts, hash), parts.projectPath, parts.sessionId, parts.basis))
  }

  /** There is no fingerprint exactly when neither text says anything. */
  lemma {:induction false} NoFingerprintForBlank(projectPath: string, sessionId: Option<string>,
                                                 command: Option<string>, description: Option<string>, hash: Hash)
    ensures FromParts(projectPath, sessionId, command, description, hash).None?
      <==> (command.None? || IsBlank(command.value)) && (description.None? || IsBlank(description.value))
  {
    if command.Some? {
      NormalizedIsWords(command.value, command.value);
    }
    if description.Some? {
      NormalizedIsWords(description.value, description.value);
    }
  }

  predicate SaysNothing(text: Option<string>) {
    text.None? || IsBlank(text.value)
  }

  lemma {:induction false} NormalizedTells(text: Option<string>)
    ensures SaysNothing(text) ==> Normalized(text) == None
    ensures !SaysNothing(text) ==> Normalized(text) == Some(JoinWords(Words(text.value)))
  {
    if text.Some? {
      NormalizedIsWords(text.value, text.value);
    }
  }

  /** The words of the command tell the approval if there are any, else those of the description; the path is trimmed,
      and a blank session id counts as none. */
  lemma {:induction false} CommandWins(projectPath: string, sessionId: Option<string>, command: Option<string>,
                                       description: Option<string>)
    ensures var parts := PartsOf(projectPath, sessionId, command, description);
      && (parts == None <==> SaysNothing(command) && SaysNothing(description))
      && (!SaysNothing(command) ==>
            parts.Some? && parts.value.basis == Arbitration.Command
            && parts.value.text == JoinWords(Words(command.value)))
      && (SaysNothing(command) && !SaysNothing(description) ==>
            parts.Some? && parts.value.basis == Arbitration.Description
            && parts.value.text == JoinWords(Words(description.value)))
      && (parts.Some? ==>
            && parts.value.projectPath == Trim(projectPath)
            && parts.value.sessionId == if SaysNothing(sessionId) then None else Some(Trim(sessionId.value)))
  {
    NormalizedTells(command);
    NormalizedTells(description);
    if sessionId.Some? {
      var before, after := TrimExactly(sessionId.value);
    }
  }

  /** Reports of one command in one project and session get one fingerprint, however the command is spaced and
      whatever the descriptions say. */
  lemma {:induction false} SameCommandSameFingerprint(projectPath: string, sessionId: Option<string>, command: string,
                                                      other: string, description: Option<string>,
                                                      otherDescription: Option<string>, hash: Hash)
    requires Words(command) == Words(other) && !IsBlank(command)
    ensures FromParts(projectPath, sessionId, Some(command), description, hash).Some?
    ensures FromParts(projectPath, sessionId, Some(command), description, hash)
         == FromParts(projectPath, sessionId, Some(other), otherDescription, hash)
  {
    NormalizedIsWords(command, other);
  }

  function SessionPart(parts: Parts): string {
    if parts.sessionId.Some? then parts.sessionId.value else ""
  }

  /** The key says exactly as much as its hashes and its basis: no two different lists of them run together. */
  lemma {:induction false} KeyIsItsHashes(a: Parts, b: Parts, hash: Hash)
    requires IsHexadecimal(hash)
    ensures KeyOf(a, hash) == KeyOf(b, hash)
      <==> hash(a.projectPath) == hash(b.projectPath) && hash(SessionPart(a)) == hash(SessionPart(b))
           && a.basis == b.basis && hash(a.text) == hash(b.text)
  {
    if KeyOf(a, hash) == KeyOf(b, hash) {
      var a3, b3 := BasisName(a.basis) + ":" + hash(a.text), BasisName(b.basis) + ":" + hash(b.text);
      var a2, b2 := hash(SessionPart(a)) + ":" + a3, hash(SessionPart(b)) + ":" + b3;
      assert KeyOf(a, hash)[15..] == hash(a.projectPath) + ":" + a2
        && KeyOf(b, hash)[15..] == hash(b.projectPath) + ":" + b2;
      SameAtFirst(':', hash(a.projectPath), a2, hash(b.projectPath), b2);
      SameAtFirst(':', hash(SessionPart(a)), a3, hash(SessionPart(b)), b3);
      assert ':' !in "command" && ':' !in "description" && |"command"| != |"description"|;
      SameAtFirst(':', BasisName(a.basis), hash(a.text), BasisName(b.basis), hash(b.text));
    }
  }
}
