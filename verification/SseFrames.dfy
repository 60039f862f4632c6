/** Reading server-sent events: the two plugin parsers, a printer, and what both do with any stream
    (builtin-plugins/bark-runtime/src/lib.rs, builtin-plugins/ntfy-runtime/src/lib.rs; section 9.2.6 of the
    WHATWG HTML Living Standard, except that these parsers also dispatch at the end of the stream).

    Whether the n-th dispatched item parses as JSON and is handled without error is a parameter. */
module SseFrames {
  import opened Wrappers
  import opened Text

  datatype Frame = Frame(event: Option<string>, id: Option<string>, dataLines: seq<string>)

  const EMPTY: Frame := Frame(None, None, [])

  datatype Kind = Event | NotificationTest

  datatype Item = Item(kind: Kind, data: string)

  /** What was dispatched, in order, and whether the last dispatch failed and ended the stream. */
  datatype Outcome = Outcome(items: seq<Item>, failed: bool)

  datatype Dialect = Bark | Ntfy

  type Acceptance = (nat, Item) -> bool

  // ---------------------------------------------------------------------------------------------
  // One line
  // ---------------------------------------------------------------------------------------------

  /** The text before the first colon and, less one leading space, the text after it. */
  function SplitField(line: string): (string, string) {
    if ':' !in line then (line, "") else (BeforeColon(line), StripSpace(line[|BeforeColon(line)| + 1..]))
  }

  function BeforeColon(line: string): (r: string)
    ensures ':' !in r && r <= line
    ensures if ':' in line then |r| < |line| && line[|r|] == ':' else r == line
  {
    if line == [] || line[0] == ':' then [] else [line[0]] + BeforeColon(line[1..])
  }

  function StripSpace(s: string): string {
    if s != [] && s[0] == ' ' then s[1..] else s
  }

  function Apply(frame: Frame, line: string): Frame {
    if StartsWith(line, ":") then frame
    else
      var (field, value) := SplitField(line);
      if field == "event" then frame.(event := Some(value))
      else if field == "id" then frame.(id := Some(value))
      else if field == "data" then frame.(dataLines := frame.dataLines + [value])
      else frame
  }

  function JoinLines(lines: seq<string>): string {
    if lines == [] then "" else if |lines| == 1 then lines[0] else lines[0] + "\n" + JoinLines(lines[1..])
  }

  // ---------------------------------------------------------------------------------------------
  // A stream
  // ---------------------------------------------------------------------------------------------

  /** Bark takes an unnamed frame for an event, ntfy drops it. */
  function KindOf(dialect: Dialect, event: Option<string>): Option<Kind> {
    if event == Some("event") || (event.None? && dialect == Bark) then Some(Event)
    else if event == Some("notification_test") then Some(NotificationTest)
    else None
  }

  function Dispatched(dialect: Dialect, event: Option<string>, data: string): Option<Item> {
    var kind := KindOf(dialect, event);
    if kind.None? then None else Some(Item(kind.value, data))
  }

  function Flushed(dialect: Dialect, frame: Frame): Option<Item> {
    if frame.dataLines == [] then None else Dispatched(dialect, frame.event, JoinLines(frame.dataLines))
  }

  function Prepend(item: Item, rest: Outcome): Outcome {
    Outcome([item] + rest.items, rest.failed)
  }

  function Consumed(dialect: Dialect, lines: seq<string>, frame: Frame, n: nat, accept: Acceptance): Outcome {
    if lines == [] then
      var item := Flushed(dialect, frame);
      if item.None? then Outcome([], false) else Outcome([item.value], !accept(n, item.value))
    else if lines[0] == "" then
      var item := Flushed(dialect, frame);
      if item.None? then Consumed(dialect, lines[1..], EMPTY, n, accept)
      else if !accept(n, item.value) then Outcome([item.value], true)
      else Prepend(item.value, Consumed(dialect, lines[1..], EMPTY, n + 1, accept))
    else Consumed(dialect, lines[1..], Apply(frame, lines[0]), n, accept)
  }

  function Parse(dialect: Dialect, text: string, accept: Acceptance): Outcome {
    Consumed(dialect, Lines(text), EMPTY, 0, accept)
  }

  /** What has been dispatched and what the rest of the stream will add make up the whole. */
  ghost predicate ReadSoFar(dialect: Dialect, text: string, items: seq<Item>, unread: seq<string>, frame: Frame,
                            accept: Acceptance)
  {
    var rest := Consumed(dialect, unread, frame, |items|, accept);
    Parse(dialect, text, accept) == Outcome(items + rest.items, rest.failed)
  }

  lemma {:induction false} ReadStart(dialect: Dialect, text: string, accept: Acceptance)
    ensures ReadSoFar(dialect, text, [], Lines(text), EMPTY, accept)
  {
    var rest := Parse(dialect, text, accept);
    assert [] + rest.items == rest.items;
  }

  lemma {:induction false} ReadLine(dialect: Dialect, text: string, items: seq<Item>, unread: seq<string>, frame: Frame,
                                    accept: Acceptance)
    requires unread != [] && ReadSoFar(dialect, text, items, unread, frame, accept)
    ensures unread[0] != "" ==> ReadSoFar(dialect, text, items, unread[1..], Apply(frame, unread[0]), accept)
    ensures unread[0] == "" ==>
      match Flushed(dialect, frame)
      case None => ReadSoFar(dialect, text, items, unread[1..], EMPTY, accept)
      case Some(item) =>
        if accept(|items|, item) then ReadSoFar(dialect, text, items + [item], unread[1..], EMPTY, accept)
        else Parse(dialect, text, accept) == Outcome(items + [item], true)
  {
    var item := Flushed(dialect, frame);
    if unread[0] == "" && item.Some? && accept(|items|, item.value) {
      var rest := Consumed(dialect, unread[1..], EMPTY, |items| + 1, accept);
      assert items + ([item.value] + rest.items) == items + [item.value] + rest.items;
    }
  }

  lemma {:induction false} ReadEnd(dialect: Dialect, text: string, items: seq<Item>, frame: Frame, accept: Acceptance)
    requires ReadSoFar(dialect, text, items, [], frame, accept)
    ensures var item := Flushed(dialect, frame);
      Parse(dialect, text, accept)
      == if item.None? then Outcome(items, false) else Outcome(items + [item.value], !accept(|items|, item.value))
  {
    assert items + [] == items;
  }

  /** The Bark plugin's dispatch: a frame without a name counts as an event. */
  method BarkItem(frame: Frame) returns (item: Option<Item>)
    ensures item == Flushed(Bark, frame)
  {
    item := None;
    if frame.dataLines != [] {
      var name := if frame.event.Some? then frame.event.value else "event";
      var data := JoinLines(frame.dataLines);
      if name == "event" {
        item := Some(Item(Event, data));
      } else if name == "notification_test" {
        item := Some(Item(NotificationTest, data));
      }
    }
  }

  /** The Bark plugin's loop. */
  method BarkConsumeEventLines(text: string, accept: Acceptance) returns (outcome: Outcome)
    ensures outcome == Parse(Bark, text, accept)
  {
    var lines := Lines(text);
    var frame := EMPTY;
    var items: seq<Item> := [];
    var i := 0;
    ReadStart(Bark, text, accept);
    assert lines[0..] == lines;
    while i < |lines|
      invariant 0 <= i <= |lines|
      invariant ReadSoFar(Bark, text, items, lines[i..], frame, accept)
    {
      ReadLine(Bark, text, items, lines[i..], frame, accept);
      assert lines[i..][1..] == lines[i + 1..];
      if lines[i] == "" {
        var item := BarkItem(frame);
        if item.Some? {
          if !accept(|items|, item.value) {
            return Outcome(items + [item.value], true);
          }
          items := items + [item.value];
        }
        frame := EMPTY;
      } else {
        frame := Apply(frame, lines[i]);
      }
      i := i + 1;
    }
    assert lines[i..] == [];
    ReadEnd(Bark, text, items, frame, accept);
    var last := BarkItem(frame);
    outcome := if last.None? then Outcome(items, false)
               else Outcome(items + [last.value], !accept(|items|, last.value));
  }

  /** The ntfy plugin's loop, with the line's fields taken apart in place. */
  method NtfyConsumeEventLines(text: string, accept: Acceptance) returns (outcome: Outcome)
    ensures outcome == Parse(Ntfy, text, accept)
  {
    var lines := Lines(text);
    var frame := EMPTY;
    var items: seq<Item> := [];
    var i := 0;
    ReadStart(Ntfy, text, accept);
    assert lines[0..] == lines;
    while i < |lines|
      invariant 0 <= i <= |lines|
      invariant ReadSoFar(Ntfy, text, items, lines[i..], frame, accept)
    {
      ReadLine(Ntfy, text, items, lines[i..], frame, accept);
      assert lines[i..][1..] == lines[i + 1..];
      var line := lines[i];
      i := i + 1;
      if line == "" {
        var item := Flushed(Ntfy, frame);
        frame := EMPTY;
        if item.Some? {
          if !accept(|items|, item.value) {
            return Outcome(items + [item.value], true);
          }
          items := items + [item.value];
        }
        continue;
      }
      if StartsWith(line, ":") {
        continue;
      }
      var (field, value) := SplitField(line);
      if field == "event" {
        frame := frame.(event := Some(value));
      } else if field == "id" {
        frame := frame.(id := Some(value));
      } else if field == "data" {
        frame := frame.(dataLines := frame.dataLines + [value]);
      }
    }
    assert lines[i..] == [];
    ReadEnd(Ntfy, text, items, frame, accept);
    var last := Flushed(Ntfy, frame);
    outcome := if last.None? then Outcome(items, false)
               else Outcome(items + [last.value], !accept(|items|, last.value));
  }

  // ---------------------------------------------------------------------------------------------
  // Lines that change nothing
  // ---------------------------------------------------------------------------------------------

  /** A comment, or a field other than event, id and data. */
  predicate IsInert(line: string) {
    line != "" && (StartsWith(line, ":") || SplitField(line).0 !in {"event", "id", "data"})
  }

  lemma {:induction false} InertLine(dialect: Dialect, before: seq<string>, line: string, after: seq<string>,
                                     frame: Frame, n: nat, accept: Acceptance)
    requires IsInert(line)
    ensures Consumed(dialect, before + [line] + after, frame, n, accept)
         == Consumed(dialect, before + after, frame, n, accept)
  {
    var lines := before + [line] + after;
    if before == [] {
      assert lines[1..] == after && before + after == after;
    } else {
      assert lines[1..] == before[1..] + [line] + after && (before + after)[1..] == before[1..] + after;
      InertLine(dialect, before[1..], line, after, EMPTY, n, accept);
      InertLine(dialect, before[1..], line, after, EMPTY, n + 1, accept);
      InertLine(dialect, before[1..], line, after, Apply(frame, before[0]), n, accept);
    }
  }

  /** The id of a frame has no influence on what is dispatched. */
  lemma {:induction false} IdIsIgnored(dialect: Dialect, lines: seq<string>, frame: Frame, id: Option<string>, n: nat,
                                       accept: Acceptance)
    ensures Consumed(dialect, lines, frame.(id := id), n, accept) == Consumed(dialect, lines, frame, n, accept)
  {
    if lines != [] && lines[0] != "" {
      var next := Apply(frame, lines[0]);
      IdIsIgnored(dialect, lines[1..], next, Apply(frame.(id := id), lines[0]).id, n, accept);
      assert Apply(frame.(id := id), lines[0]) == next.(id := Apply(frame.(id := id), lines[0]).id);
    }
  }

  /** The end of the stream flushes just like one more blank line. */
  lemma {:induction false} EndFlushes(dialect: Dialect, lines: seq<string>, frame: Frame, n: nat, accept: Acceptance)
    ensures Consumed(dialect, lines + [""], frame, n, accept) == Consumed(dialect, lines, frame, n, accept)
  {
    var all := lines + [""];
    if lines == [] {
      assert all[1..] == [];
      var item := Flushed(dialect, frame);
      if item.Some? && accept(n, item.value) {
        assert Prepend(item.value, Consumed(dialect, [], EMPTY, n + 1, accept)) == Outcome([item.value], false);
      }
    } else {
      assert all[1..] == lines[1..] + [""];
      EndFlushes(dialect, lines[1..], EMPTY, n, accept);
      EndFlushes(dialect, lines[1..], EMPTY, n + 1, accept);
      EndFlushes(dialect, lines[1..], Apply(frame, lines[0]), n, accept);
    }
  }

  // ---------------------------------------------------------------------------------------------
  // The two dialects
  // ---------------------------------------------------------------------------------------------

  predicate IsNamed(frame: Frame) {
    frame.dataLines != [] ==> frame.event.Some?
  }

  /** Every frame of the stream that carries data names its event. */
  predicate AllNamed(lines: seq<string>, frame: Frame) {
    if lines == [] then IsNamed(frame)
    else if lines[0] == "" then IsNamed(frame) && AllNamed(lines[1..], EMPTY)
    else AllNamed(lines[1..], Apply(frame, lines[0]))
  }

  lemma {:induction false} NamedStreamsAgree(lines: seq<string>, frame: Frame, n: nat, accept: Acceptance)
    requires AllNamed(lines, frame)
    ensures Consumed(Bark, lines, frame, n, accept) == Consumed(Ntfy, lines, frame, n, accept)
  {
    if lines != [] {
      if lines[0] == "" {
        NamedStreamsAgree(lines[1..], EMPTY, n, accept);
        NamedStreamsAgree(lines[1..], EMPTY, n + 1, accept);
      } else {
        NamedStreamsAgree(lines[1..], Apply(frame, lines[0]), n, accept);
      }
    }
  }

  ghost predicate AcceptsAll(accept: Acceptance) {
    forall n, item :: accept(n, item)
  }

  /** When nothing fails, Bark dispatches at least as much, and more as soon as one frame is unnamed. */
  lemma {:induction false} BarkDispatchesMore(lines: seq<string>, frame: Frame, n: nat, m: nat, accept: Acceptance)
    requires AcceptsAll(accept)
    ensures var b := |Consumed(Bark, lines, frame, n, accept).items|;
      var t := |Consumed(Ntfy, lines, frame, m, accept).items|;
      b >= t && (!AllNamed(lines, frame) ==> b > t)
  {
    if lines != [] {
      if lines[0] == "" {
        BarkDispatchesMore(lines[1..], EMPTY, n, m, accept);
        BarkDispatchesMore(lines[1..], EMPTY, n + 1, m, accept);
        BarkDispatchesMore(lines[1..], EMPTY, n + 1, m + 1, accept);
      } else {
        BarkDispatchesMore(lines[1..], Apply(frame, lines[0]), n, m, accept);
      }
    }
  }

  /** The plugins dispatch alike on every stream whose frames with data are all named; on any other stream they
      differ, unless a failure cuts it short. */
  lemma {:induction false} DialectsAgreeWhenNamed(text: string, accept: Acceptance)
    ensures AllNamed(Lines(text), EMPTY) ==> Parse(Bark, text, accept) == Parse(Ntfy, text, accept)
    ensures AcceptsAll(accept) ==>
      (Parse(Bark, text, accept) == Parse(Ntfy, text, accept) <==> AllNamed(Lines(text), EMPTY))
  {
    if AllNamed(Lines(text), EMPTY) {
      NamedStreamsAgree(Lines(text), EMPTY, 0, accept);
    } else if AcceptsAll(accept) {
      BarkDispatchesMore(Lines(text), EMPTY, 0, 0, accept);
    }
  }

  // ---------------------------------------------------------------------------------------------
  // Printing and reading back
  // ---------------------------------------------------------------------------------------------

  /** A message need not carry data. */
  datatype Message = Message(event: Option<string>, id: Option<string>, data: Option<string>)

  predicate HasNoBreak(s: string) {
    '\n' !in s && '\r' !in s
  }

  /** A colon separates a field's name from its value, with a space or, where the value begins with none, without. */
  predicate Separates(separator: string, value: string) {
    separator == ": " || (separator == ":" && (value == "" || value[0] != ' '))
  }

  /** Names and ids on one line; data may span lines. */
  predicate IsPrintable(m: Message, separator: string) {
    && (m.event.Some? ==> HasNoBreak(m.event.value) && Separates(separator, m.event.value))
    && (m.id.Some? ==> HasNoBreak(m.id.value) && Separates(separator, m.id.value))
    && (m.data.Some? ==> '\r' !in m.data.value && AllSeparate(separator, DataLines(m.data.value)))
  }

  predicate AllSeparate(separator: string, values: seq<string>) {
    forall i :: 0 <= i < |values| ==> Separates(separator, values[i])
  }

  /** The data cut at its line feeds. */
  function DataLines(data: string): (lines: seq<string>)
    ensures lines != []
  {
    if data == "" then [""]
    else
      var rest := DataLines(data[1..]);
      if data[0] == '\n' then [""] + rest else [[data[0]] + rest[0]] + rest[1..]
  }

  function Prefixed(name: string, separator: string, values: seq<string>): (lines: seq<string>)
    ensures |lines| == |values|
  {
    if values == [] then [] else [name + separator + values[0]] + Prefixed(name, separator, values[1..])
  }

  function ValuesOf(m: Message): seq<string> {
    if m.data.None? then [] else DataLines(m.data.value)
  }

  function PrintedField(name: string, separator: string, value: Option<string>): seq<string> {
    if value.Some? then [name + separator + value.value] else []
  }

  function Printed(m: Message, separator: string): seq<string> {
    PrintedField("event", separator, m.event) + PrintedField("id", separator, m.id)
    + Prefixed("data", separator, ValuesOf(m)) + [""]
  }

  function PrintedAll(messages: seq<Message>, separator: string): seq<string> {
    if messages == [] then [] else Printed(messages[0], separator) + PrintedAll(messages[1..], separator)
  }

  /** What a message means, without lines or frames: the name tells an event from a notification test, Bark takes a
      nameless one for an event, and a message without data means nothing. */
  function Meant(dialect: Dialect, m: Message): Option<Item> {
    match (m.event, m.data)
    case (_, None) => None
    case (None, Some(data)) => if dialect == Bark then Some(Item(Event, data)) else None
    case (Some(name), Some(data)) =>
      if name == "event" then Some(Item(Event, data))
      else if name == "notification_test" then Some(Item(NotificationTest, data))
      else None
  }

  /** What a list of messages means, up to the first item that is refused. */
  function Delivered(dialect: Dialect, messages: seq<Message>, n: nat, accept: Acceptance): Outcome {
    if messages == [] then Outcome([], false)
    else
      var item := Meant(dialect, messages[0]);
      if item.None? then Delivered(dialect, messages[1..], n, accept)
      else if !accept(n, item.value) then Outcome([item.value], true)
      else Prepend(item.value, Delivered(dialect, messages[1..], n + 1, accept))
  }

  lemma {:induction false} BeforeColonOf(name: string, rest: string)
    requires ':' !in name
    ensures BeforeColon(name + ":" + rest) == name
  {
    var line := name + ":" + rest;
    if name != [] {
      assert line[1..] == name[1..] + ":" + rest;
      BeforeColonOf(name[1..], rest);
    }
  }

  lemma {:induction false} SplitAtColon(name: string, rest: string)
    requires ':' !in name
    ensures SplitField(name + ":" + rest) == (name, StripSpace(rest))
  {
    var line := name + ":" + rest;
    BeforeColonOf(name, rest);
    assert line[|name|] == ':';
    assert line[|name| + 1..] == rest;
  }

  /** Every line splits at its first colon, and one space after that is not part of the value; a line without a colon
      is a name with an empty value. */
  lemma {:induction false} SplitFieldExactly(line: string)
    ensures ':' !in line ==> SplitField(line) == (line, "")
    ensures ':' in line ==>
      var (name, value) := SplitField(line);
      && ':' !in name
      && (line == name + ": " + value || (line == name + ":" + value && Separates(":", value)))
  {
    if ':' in line {
      var name := BeforeColon(line);
      var rest := line[|name| + 1..];
      assert line == name + ":" + rest;
      if rest != "" && rest[0] == ' ' {
        assert rest == " " + rest[1..];
        assert name + ":" + (" " + rest[1..]) == name + ": " + rest[1..];
      }
    }
  }

  lemma {:induction false} FieldReads(name: string, separator: string, value: string)
    requires ':' !in name && name != "" && Separates(separator, value)
    ensures SplitField(name + separator + value) == (name, value)
    ensures name + separator + value != "" && !StartsWith(name + separator + value, ":")
  {
    var line := name + separator + value;
    if separator == ": " {
      assert line == name + ":" + (" " + value);
      SplitAtColon(name, " " + value);
      assert (" " + value)[1..] == value;
    } else {
      SplitAtColon(name, value);
    }
    assert line[0] == name[0] && name[0] in name;
  }

  lemma {:induction false} DataLineReads(dialect: Dialect, separator: string, value: string, rest: seq<string>,
                                         frame: Frame, n: nat, accept: Acceptance)
    requires Separates(separator, value)
    ensures Consumed(dialect, ["data" + separator + value] + rest, frame, n, accept)
         == Consumed(dialect, rest, frame.(dataLines := frame.dataLines + [value]), n, accept)
  {
    assert ':' !in "data";
    FieldReads("data", separator, value);
    assert (["data" + separator + value] + rest)[1..] == rest;
  }

  lemma {:induction false} DataReads(dialect: Dialect, separator: string, values: seq<string>, rest: seq<string>,
                                     frame: Frame, n: nat, accept: Acceptance)
    requires AllSeparate(separator, values)
    ensures Consumed(dialect, Prefixed("data", separator, values) + rest, frame, n, accept)
         == Consumed(dialect, rest, frame.(dataLines := frame.dataLines + values), n, accept)
  {
    if values == [] {
      assert Prefixed("data", separator, values) + rest == rest && frame.dataLines + values == frame.dataLines;
    } else {
      var line, others := "data" + separator + values[0], Prefixed("data", separator, values[1..]);
      var next := frame.(dataLines := frame.dataLines + [values[0]]);
      Reassociate([line], others, rest);
      DataLineReads(dialect, separator, values[0], others + rest, frame, n, accept);
      DataReads(dialect, separator, values[1..], rest, next, n, accept);
      Reassociate(frame.dataLines, [values[0]], values[1..]);
      assert [values[0]] + values[1..] == values;
    }
  }

  lemma {:induction false} JoinedDataLines(data: string)
    ensures JoinLines(DataLines(data)) == data
  {
    if data != "" {
      var rest := DataLines(data[1..]);
      JoinedDataLines(data[1..]);
      assert data == [data[0]] + data[1..];
      if data[0] == '\n' {
        assert ([""] + rest)[1..] == rest;
        assert JoinLines([""] + rest) == "" + "\n" + JoinLines(rest);
      } else {
        var first := [data[0]] + rest[0];
        if |rest| == 1 {
          assert [first] + rest[1..] == [first];
        } else {
          assert ([first] + rest[1..])[1..] == rest[1..];
          assert JoinLines(rest) == rest[0] + "\n" + JoinLines(rest[1..]);
          assert first + "\n" + JoinLines(rest[1..]) == [data[0]] + JoinLines(rest);
        }
      }
    }
  }

  /** A later name or id replaces an earlier one. */
  lemma {:induction false} OneField(dialect: Dialect, name: string, separator: string, value: Option<string>,
                                    rest: seq<string>, frame: Frame, n: nat, accept: Acceptance)
    requires name == "event" || name == "id"
    requires value.Some? ==> Separates(separator, value.value)
    ensures Consumed(dialect, PrintedField(name, separator, value) + rest, frame, n, accept)
         == Consumed(dialect, rest,
                     if value.None? then frame
                     else if name == "event" then frame.(event := value) else frame.(id := value), n, accept)
  {
    if value.None? {
      assert [] + rest == rest;
    } else {
      assert name == "event" ==> ':' !in "event";
      assert name == "id" ==> ':' !in "id";
      FieldReads(name, separator, value.value);
      var lines := [name + separator + value.value] + rest;
      assert lines[1..] == rest;
    }
  }

  lemma {:induction false} NestRight<T>(a: seq<T>, b: seq<T>, c: seq<T>, d: seq<T>, e: seq<T>)
    ensures a + b + c + d + e == a + (b + (c + (d + e)))
  {}

  lemma {:induction false} MessageReads(dialect: Dialect, m: Message, separator: string, rest: seq<string>, n: nat,
                                        accept: Acceptance)
    requires IsPrintable(m, separator)
    ensures Consumed(dialect, Printed(m, separator) + rest, EMPTY, n, accept)
         == Consumed(dialect, [""] + rest, Frame(m.event, m.id, ValuesOf(m)), n, accept)
  {
    var event, id := PrintedField("event", separator, m.event), PrintedField("id", separator, m.id);
    var data := Prefixed("data", separator, ValuesOf(m));
    NestRight(event, id, data, [""], rest);
    OneField(dialect, "event", separator, m.event, id + (data + ([""] + rest)), EMPTY, n, accept);
    OneField(dialect, "id", separator, m.id, data + ([""] + rest), Frame(m.event, None, []), n, accept);
    DataReads(dialect, separator, ValuesOf(m), [""] + rest, Frame(m.event, m.id, []), n, accept);
    assert [] + ValuesOf(m) == ValuesOf(m);
  }

  lemma {:induction false} MeantIsFlushed(dialect: Dialect, m: Message)
    ensures Flushed(dialect, Frame(m.event, m.id, ValuesOf(m))) == Meant(dialect, m)
  {
    if m.data.Some? {
      JoinedDataLines(m.data.value);
    }
  }

  /** Printed messages read back as what they mean, in either dialect. */
  lemma {:induction false} PrintedReadsBack(dialect: Dialect, messages: seq<Message>, separator: string, n: nat,
                                            accept: Acceptance)
    requires forall i :: 0 <= i < |messages| ==> IsPrintable(messages[i], separator)
    ensures Consumed(dialect, PrintedAll(messages, separator), EMPTY, n, accept)
         == Delivered(dialect, messages, n, accept)
  {
    if messages != [] {
      var m, rest := messages[0], PrintedAll(messages[1..], separator);
      MessageReads(dialect, m, separator, rest, n, accept);
      MeantIsFlushed(dialect, m);
      assert ([""] + rest)[1..] == rest;
      PrintedReadsBack(dialect, messages[1..], separator, n, accept);
      PrintedReadsBack(dialect, messages[1..], separator, n + 1, accept);
    }
  }

  // ---------------------------------------------------------------------------------------------
  // The printed text
  // ---------------------------------------------------------------------------------------------

  function Terminated(lines: seq<string>): seq<string> {
    if lines == [] then [] else [lines[0] + "\n"] + Terminated(lines[1..])
  }

  predicate AllUnbroken(lines: seq<string>) {
    forall i :: 0 <= i < |lines| ==> HasNoBreak(lines[i])
  }

  lemma {:induction false} TerminatedLines(lines: seq<string>)
    requires AllUnbroken(lines)
    ensures AllTerminated(Terminated(lines)) && StripAll(Terminated(lines)) == lines
  {
    if lines != [] {
      TerminatedLines(lines[1..]);
      TerminatedLine(lines[0]);
      assert Terminated(lines)[1..] == Terminated(lines[1..]);
    }
  }

  lemma {:induction false} TerminatedLine(text: string)
    requires HasNoBreak(text)
    ensures IsTerminated(text + "\n") && StripEnding(text + "\n") == text
  {
    var line := text + "\n";
    assert forall i :: 0 <= i < |text| ==> line[i] == text[i] && text[i] in text;
    assert line[..|line| - 1] == text;
  }

  lemma {:induction false} LinesOfTerminated(lines: seq<string>)
    requires AllUnbroken(lines)
    ensures Lines(Flatten(Terminated(lines))) == lines
  {
    TerminatedLines(lines);
    InclusiveLinesOf(Terminated(lines));
  }

  lemma {:induction false} DataLinesUnbroken(data: string)
    requires '\r' !in data
    ensures AllUnbroken(DataLines(data))
  {
    if data != "" {
      DataLinesUnbroken(data[1..]);
    }
  }

  lemma {:induction false} FieldUnbroken(name: string, separator: string, value: string)
    requires HasNoBreak(name) && HasNoBreak(value) && Separates(separator, value)
    ensures HasNoBreak(name + separator + value)
  {
    assert HasNoBreak(": ") && HasNoBreak(":");
  }

  lemma {:induction false} PrefixedUnbroken(separator: string, values: seq<string>)
    requires AllUnbroken(values) && AllSeparate(separator, values)
    ensures AllUnbroken(Prefixed("data", separator, values))
  {
    if values != [] {
      PrefixedUnbroken(separator, values[1..]);
      FieldUnbroken("data", separator, values[0]);
    }
  }

  lemma {:induction false} PrintedUnbroken(m: Message, separator: string)
    requires IsPrintable(m, separator)
    ensures AllUnbroken(Printed(m, separator))
  {
    if m.event.Some? {
      FieldUnbroken("event", separator, m.event.value);
    }
    if m.id.Some? {
      FieldUnbroken("id", separator, m.id.value);
    }
    if m.data.Some? {
      DataLinesUnbroken(m.data.value);
    }
    PrefixedUnbroken(separator, ValuesOf(m));
    assert HasNoBreak("");
  }

  lemma {:induction false} AllPrintedUnbroken(messages: seq<Message>, separator: string)
    requires forall i :: 0 <= i < |messages| ==> IsPrintable(messages[i], separator)
    ensures AllUnbroken(PrintedAll(messages, separator))
  {
    if messages != [] {
      PrintedUnbroken(messages[0], separator);
      AllPrintedUnbroken(messages[1..], separator);
    }
  }

  function PrintedText(messages: seq<Message>, separator: string): string {
    Flatten(Terminated(PrintedAll(messages, separator)))
  }

  /** Any list of messages, printed as text and parsed, gives exactly the items they mean; names, ids and data come
      back unchanged, data with line feeds included, whether a space follows the colons or not. */
  lemma {:induction false} TextRoundTrip(dialect: Dialect, messages: seq<Message>, separator: string,
                                         accept: Acceptance)
    requires forall i :: 0 <= i < |messages| ==> IsPrintable(messages[i], separator)
    ensures Parse(dialect, PrintedText(messages, separator), accept) == Delivered(dialect, messages, 0, accept)
  {
    AllPrintedUnbroken(messages, separator);
    LinesOfTerminated(PrintedAll(messages, separator));
    PrintedReadsBack(dialect, messages, separator, 0, accept);
  }

  /** One message with data: "event" names an event and "notification_test" a notification test, any other name
      nothing; without a name Bark reads an event and ntfy nothing. */
  lemma {:induction false} NamesDecide(dialect: Dialect, event: Option<string>, id: Option<string>, data: string,
                                       separator: string, accept: Acceptance)
    requires IsPrintable(Message(event, id, Some(data)), separator)
    ensures var items := Parse(dialect, PrintedText([Message(event, id, Some(data))], separator), accept).items;
      && (event == Some("event") ==> items == [Item(Event, data)])
      && (event == Some("notification_test") ==> items == [Item(NotificationTest, data)])
      && (event.Some? && event.value !in {"event", "notification_test"} ==> items == [])
      && (event == None ==> items == if dialect == Bark then [Item(Event, data)] else [])
  {
    var m := Message(event, id, Some(data));
    TextRoundTrip(dialect, [m], separator, accept);
    assert [m][1..] == [];
    assert "event" != "notification_test" by { assert |"event"| != |"notification_test"|; }
    var item := Meant(dialect, m);
    if item.Some? {
      assert [item.value] + [] == [item.value];
    }
  }

  /** A frame without a name, whatever its data: Bark dispatches it, ntfy does not. */
  lemma {:induction false} UnnamedFrameDiffers(data: string, accept: Acceptance)
    requires '\r' !in data
    ensures var text := PrintedText([Message(None, None, Some(data))], ": ");
      |Parse(Bark, text, accept).items| == 1 && |Parse(Ntfy, text, accept).items| == 0
  {
    NamesDecide(Bark, None, None, data, ": ", accept);
    NamesDecide(Ntfy, None, None, data, ": ", accept);
  }
}
