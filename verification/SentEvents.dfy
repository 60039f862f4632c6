/** Sending a notification at most once: the log of sent events that both push plugins replay before every send
    (builtin-plugins/bark-runtime/src/lib.rs, builtin-plugins/ntfy-runtime/src/lib.rs).

    Writing a record is two writes to the file, the text and its line feed, either of which may fail. What such a
    failure leaves behind joins the next record on one line, and that line can no longer be read. */
module SentEvents {
  import opened Wrappers
  import Text

  datatype LogLine = Blank | Record(key: string) | Unreadable

  /** The terminated lines, and the text after the last line feed, if any. */
  datatype Log = Log(lines: seq<LogLine>, tail: Option<LogLine>)

  const EMPTY_LOG: Log := Log([], None)

  datatype AppendResult = Written | NothingWritten | Torn | LineFeedMissing

  function KeysOf(lines: seq<LogLine>): set<string> {
    if lines == [] then {}
    else KeysOf(lines[..|lines| - 1]) + if lines[|lines| - 1].Record? then {lines[|lines| - 1].key} else {}
  }

  function AllLines(log: Log): seq<LogLine> {
    log.lines + if log.tail.Some? then [log.tail.value] else []
  }

  function Replayed(log: Log): set<string> {
    KeysOf(AllLines(log))
  }

  function Appended(log: Log, key: string, result: AppendResult): Log {
    var text := if log.tail.Some? then Unreadable else Record(key);
    match result
    case Written => Log(log.lines + [text], None)
    case NothingWritten => log
    case Torn => log.(tail := Some(Unreadable))
    case LineFeedMissing => log.(tail := Some(text))
  }

  /** `load_sent_event_keys`: lines that cannot be read are ignored. */
  method LoadSentEventKeys(log: Log) returns (keys: set<string>)
    ensures keys == Replayed(log)
  {
    var lines := AllLines(log);
    keys := {};
    var i := 0;
    while i < |lines|
      invariant 0 <= i <= |lines|
      invariant keys == KeysOf(lines[..i])
    {
      assert lines[..i + 1][..i] == lines[..i];
      if lines[i].Record? {
        keys := keys + {lines[i].key};
      }
      i := i + 1;
    }
    assert lines[..i] == lines;
  }

  // ---------------------------------------------------------------------------------------------
  // Handling an event
  // ---------------------------------------------------------------------------------------------

  datatype Config = NoConfigFile | ConfigUnreadable | Disabled | Incomplete | Ready

  /** One delivery of an event, with everything that its handling meets outside the plugin. */
  datatype Delivery = Delivery(
    eventId: string, notify: bool, config: Config, logReadable: bool, requestBuilt: bool, sendOk: bool,
    append: AppendResult)

  datatype Send = Send(eventId: string, ok: bool, append: AppendResult)

  datatype World = World(log: Log, sends: seq<Send>)

  function DedupeKey(pluginId: string, eventId: string): string {
    pluginId + ":" + eventId
  }

  /** The delivery gets as far as looking for the event in the log. */
  predicate ReachesLog(d: Delivery) {
    d.notify && d.config == Ready && d.logReadable
  }

  function Handled(pluginId: string, w: World, d: Delivery): World {
    var key := DedupeKey(pluginId, d.eventId);
    if !ReachesLog(d) || key in Replayed(w.log) || !d.requestBuilt then w
    else if !d.sendOk then w.(sends := w.sends + [Send(d.eventId, false, NothingWritten)])
    else World(Appended(w.log, key, d.append), w.sends + [Send(d.eventId, true, d.append)])
  }

  function After(pluginId: string, deliveries: seq<Delivery>): World {
    if deliveries == [] then World(EMPTY_LOG, [])
    else Handled(pluginId, After(pluginId, deliveries[..|deliveries| - 1]), deliveries[|deliveries| - 1])
  }

  class SentEventStore {
    var log: Log
    var keys: set<string>

    ghost predicate Valid()
      reads this
    {
      keys == Replayed(log)
    }

    constructor (file: Log)
      ensures log == file && Valid()
    {
      log := file;
      new;
      keys := LoadSentEventKeys(file);
    }

    /** `record_sent`: a known key is not written again, and after a failed append the key is not remembered. */
    method RecordSent(key: string, result: AppendResult) returns (ok: bool)
      requires Valid()
      modifies this
      ensures ok <==> key in keys
      ensures keys == old(keys) + if ok then {key} else {}
      ensures key in old(keys) ==> log == old(log)
      ensures key !in old(keys) ==> log == Appended(old(log), key, result) && ok == result.Written?
    {
      if key in keys {
        return true;
      }
      log := Appended(log, key, result);
      if !result.Written? {
        return false;
      }
      keys := keys + {key};
      ok := true;
    }
  }

  /** A plugin over its whole life: the store is rebuilt from the file for every event, so a restart changes
      nothing. */
  class Plugin {
    const pluginId: string
    var file: Log
    var sends: seq<Send>
    ghost var deliveries: seq<Delivery>

    ghost predicate Valid()
      reads this
    {
      World(file, sends) == After(pluginId, deliveries)
    }

    constructor (id: string)
      ensures Valid() && pluginId == id && deliveries == []
    {
      pluginId, file, sends, deliveries := id, EMPTY_LOG, [], [];
    }

    /** `handle_event`: whether it attempts a send, what it then records, and when its result is a success. */
    method HandleEvent(d: Delivery) returns (ok: bool)
      requires Valid()
      modifies this
      ensures Valid() && deliveries == old(deliveries) + [d]
      ensures var attempted := && d.notify && d.config == Ready && d.logReadable && d.requestBuilt
                               && !IsRemembered(old(sends), d.eventId);
        sends == if attempted then
                   old(sends) + [if d.sendOk then Send(d.eventId, true, d.append)
                                 else Send(d.eventId, false, NothingWritten)]
                 else old(sends)
      ensures ok
        <==> || !d.notify || d.config == NoConfigFile || d.config == Disabled || d.config == Incomplete
             || (d.config == Ready && d.logReadable
                 && (IsRemembered(old(sends), d.eventId)
                     || (d.requestBuilt && d.sendOk && d.append == Written)))
    {
      Remembered(pluginId, deliveries, d.eventId);
      deliveries := deliveries + [d];
      assert deliveries[..|deliveries| - 1] == old(deliveries);
      if !d.notify || d.config.NoConfigFile? {
        return true;
      }
      if d.config.ConfigUnreadable? {
        return false;
      }
      if d.config.Disabled? || d.config.Incomplete? {
        return true;
      }
      if !d.logReadable {
        return false;
      }
      var key := DedupeKey(pluginId, d.eventId);
      var store := new SentEventStore(file);
      if key in store.keys {
        return true;
      }
      if !d.requestBuilt {
        return false;
      }
      if !d.sendOk {
        sends := sends + [Send(d.eventId, false, NothingWritten)];
        return false;
      }
      sends := sends + [Send(d.eventId, true, d.append)];
      ok := store.RecordSent(key, d.append);
      file := store.log;
    }
  }

  // ---------------------------------------------------------------------------------------------
  // What the log remembers
  // ---------------------------------------------------------------------------------------------

  lemma {:induction false} KeysAppend(a: seq<LogLine>, line: LogLine)
    ensures KeysOf(a + [line]) == KeysOf(a) + if line.Record? then {line.key} else {}
  {
    assert (a + [line])[..|a|] == a;
  }

  function TailKeys(log: Log): set<string> {
    if log.tail.Some? && log.tail.value.Record? then {log.tail.value.key} else {}
  }

  lemma {:induction false} ReplayedParts(log: Log)
    ensures Replayed(log) == KeysOf(log.lines) + TailKeys(log)
  {
    if log.tail.Some? {
      KeysAppend(log.lines, log.tail.value);
    } else {
      assert AllLines(log) == log.lines;
    }
  }

  /** What an append does to the readable keys: it adds its own when nothing is left over before it, and it may
      lose the one record that still lacks its line feed. */
  lemma {:induction false} AppendedKeys(log: Log, key: string, result: AppendResult)
    ensures var after := Replayed(Appended(log, key, result));
      && (log.tail.None? && (result.Written? || result.LineFeedMissing?) ==> after == Replayed(log) + {key})
      && (log.tail.None? && (result.NothingWritten? || result.Torn?) ==> after == Replayed(log))
      && (log.tail.Some? && !result.NothingWritten? ==> after == KeysOf(log.lines))
      && (result.NothingWritten? ==> after == Replayed(log))
  {
    ReplayedParts(log);
    ReplayedParts(Appended(log, key, result));
    var text := if log.tail.Some? then Unreadable else Record(key);
    KeysAppend(log.lines, text);
  }

  function Successes(sends: seq<Send>, eventId: string): nat {
    if sends == [] then 0
    else
      var s := sends[|sends| - 1];
      Successes(sends[..|sends| - 1], eventId) + if s.ok && s.eventId == eventId then 1 else 0
  }

  /** Records that were not written in full, whichever event they were for. */
  function FailedAppends(sends: seq<Send>): nat {
    if sends == [] then 0
    else
      var s := sends[|sends| - 1];
      FailedAppends(sends[..|sends| - 1]) + if s.ok && !s.append.Written? then 1 else 0
  }

  lemma {:induction false} SendCounts(sends: seq<Send>, s: Send, eventId: string)
    ensures Successes(sends + [s], eventId) == Successes(sends, eventId) + if s.ok && s.eventId == eventId then 1 else 0
    ensures FailedAppends(sends + [s]) == FailedAppends(sends) + if s.ok && !s.append.Written? then 1 else 0
  {
    assert (sends + [s])[..|sends|] == sends;
  }

  function Bit(b: bool): nat { if b then 1 else 0 }

  /** A failed append can cost two records: its own, and the next one that joins its line. */
  ghost predicate Bounded(pluginId: string, w: World, eventId: string) {
    Successes(w.sends, eventId) + Bit(w.log.tail.Some?)
      <= Bit(DedupeKey(pluginId, eventId) in Replayed(w.log)) + 2 * FailedAppends(w.sends)
  }

  lemma {:induction false} KeysDiffer(pluginId: string, a: string, b: string)
    requires a != b
    ensures DedupeKey(pluginId, a) != DedupeKey(pluginId, b)
  {
    assert DedupeKey(pluginId, a)[|pluginId| + 1..] == a;
    assert DedupeKey(pluginId, b)[|pluginId| + 1..] == b;
  }

  lemma {:induction false} HandledStaysBounded(pluginId: string, w: World, d: Delivery, eventId: string)
    requires Bounded(pluginId, w, eventId)
    ensures Bounded(pluginId, Handled(pluginId, w, d), eventId)
  {
    var key, own := DedupeKey(pluginId, d.eventId), DedupeKey(pluginId, eventId);
    AppendedKeys(w.log, key, d.append);
    ReplayedParts(w.log);
    SendCounts(w.sends, Send(d.eventId, true, d.append), eventId);
    SendCounts(w.sends, Send(d.eventId, false, NothingWritten), eventId);
    if d.eventId != eventId {
      KeysDiffer(pluginId, d.eventId, eventId);
    }
  }

  lemma {:induction false} RunIsBounded(pluginId: string, deliveries: seq<Delivery>, eventId: string)
    ensures Bounded(pluginId, After(pluginId, deliveries), eventId)
  {
    if deliveries == [] {
      assert After(pluginId, deliveries) == World(EMPTY_LOG, []);
    } else {
      var n := |deliveries| - 1;
      RunIsBounded(pluginId, deliveries[..n], eventId);
      HandledStaysBounded(pluginId, After(pluginId, deliveries[..n]), deliveries[n], eventId);
    }
  }

  /** Over every sequence of deliveries, repeats, failures, config changes and restarts: an event is sent
      successfully at most once, and at most twice more for every record that was not written in full. */
  lemma {:induction false} SentAtMostOnce(pluginId: string, deliveries: seq<Delivery>, eventId: string)
    ensures var w := After(pluginId, deliveries);
      && Successes(w.sends, eventId) <= 1 + 2 * FailedAppends(w.sends)
      && (FailedAppends(w.sends) == 0 ==> Successes(w.sends, eventId) <= 1)
  {
    RunIsBounded(pluginId, deliveries, eventId);
  }

  ghost predicate Faithful(pluginId: string, w: World, eventId: string) {
    FailedAppends(w.sends) == 0 ==>
      w.log.tail.None? && (DedupeKey(pluginId, eventId) in Replayed(w.log) <==> Successes(w.sends, eventId) > 0)
  }

  lemma {:induction false} HandledStaysFaithful(pluginId: string, w: World, d: Delivery, eventId: string)
    requires Faithful(pluginId, w, eventId)
    ensures Faithful(pluginId, Handled(pluginId, w, d), eventId)
  {
    AppendedKeys(w.log, DedupeKey(pluginId, d.eventId), d.append);
    SendCounts(w.sends, Send(d.eventId, true, d.append), eventId);
    SendCounts(w.sends, Send(d.eventId, false, NothingWritten), eventId);
    if d.eventId != eventId {
      KeysDiffer(pluginId, d.eventId, eventId);
    }
  }

  /** While records are written in full, a key is in the replayed log exactly when its event was sent, so an
      event whose sends all failed stays retryable. */
  lemma {:induction false} LogIsFaithful(pluginId: string, deliveries: seq<Delivery>, eventId: string)
    requires FailedAppends(After(pluginId, deliveries).sends) == 0
    ensures var w := After(pluginId, deliveries);
      DedupeKey(pluginId, eventId) in Replayed(w.log) <==> Successes(w.sends, eventId) > 0
  {
    RunIsFaithful(pluginId, deliveries, eventId);
  }

  lemma {:induction false} RunIsFaithful(pluginId: string, deliveries: seq<Delivery>, eventId: string)
    ensures Faithful(pluginId, After(pluginId, deliveries), eventId)
  {
    if deliveries == [] {
      assert AllLines(EMPTY_LOG) == [];
    } else {
      var n := |deliveries| - 1;
      RunIsFaithful(pluginId, deliveries[..n], eventId);
      HandledStaysFaithful(pluginId, After(pluginId, deliveries[..n]), deliveries[n], eventId);
    }
  }

  // ---------------------------------------------------------------------------------------------
  // What is remembered when appends fail
  // ---------------------------------------------------------------------------------------------

  /** The send changed the file. */
  predicate Writes(s: Send) {
    s.ok && !s.append.NothingWritten?
  }

  /** The last send that changed the file. */
  function LastWrite(sends: seq<Send>): (r: Option<nat>)
    ensures r.None? ==> forall i :: 0 <= i < |sends| ==> !Writes(sends[i])
    ensures r.Some? ==> r.value < |sends| && Writes(sends[r.value])
    ensures r.Some? ==> forall i :: r.value < i < |sends| ==> !Writes(sends[i])
  {
    if sends == [] then None
    else if Writes(sends[|sends| - 1]) then Some(|sends| - 1)
    else LastWrite(sends[..|sends| - 1])
  }

  /** The file ends in text without a line feed. */
  predicate EndsOpen(sends: seq<Send>) {
    LastWrite(sends).Some? && !sends[LastWrite(sends).value].append.Written?
  }

  /** A record that stands on a line of its own: written on a closed file, and either with its line feed or as
      the last thing in the file. */
  predicate StandsAlone(sends: seq<Send>, k: nat, eventId: string) {
    && k < |sends| && sends[k].ok && sends[k].eventId == eventId && !EndsOpen(sends[..k])
    && (sends[k].append.Written? || (sends[k].append.LineFeedMissing? && LastWrite(sends) == Some(k)))
  }

  function LogOf(pluginId: string, sends: seq<Send>): Log {
    if sends == [] then EMPTY_LOG
    else
      var earlier, s := LogOf(pluginId, sends[..|sends| - 1]), sends[|sends| - 1];
      if s.ok then Appended(earlier, DedupeKey(pluginId, s.eventId), s.append) else earlier
  }

  lemma {:induction false} LogFollowsSends(pluginId: string, deliveries: seq<Delivery>)
    ensures After(pluginId, deliveries).log == LogOf(pluginId, After(pluginId, deliveries).sends)
  {
    if deliveries != [] {
      LogFollowsSends(pluginId, deliveries[..|deliveries| - 1]);
      var w, next := After(pluginId, deliveries[..|deliveries| - 1]), After(pluginId, deliveries);
      if next.sends != w.sends {
        assert next.sends[..|next.sends| - 1] == w.sends;
      }
    }
  }

  lemma {:induction false} OpenTail(pluginId: string, sends: seq<Send>)
    ensures LogOf(pluginId, sends).tail.Some? <==> EndsOpen(sends)
  {
    if sends != [] {
      OpenTail(pluginId, sends[..|sends| - 1]);
    }
  }

  /** What one more send does to the records that stand alone before it. */
  lemma {:induction false} StandsAloneBefore(sends: seq<Send>, k: nat, eventId: string)
    requires k + 1 < |sends|
    ensures var earlier, s := sends[..|sends| - 1], sends[|sends| - 1];
      StandsAlone(sends, k, eventId)
      <==> StandsAlone(earlier, k, eventId) && (sends[k].append.Written? || !Writes(s))
  {
    Text.PrefixOfPrefix(sends, |sends| - 1, k);
  }

  /** Some send of the event left a record that stands alone. */
  ghost predicate IsRemembered(sends: seq<Send>, eventId: string) {
    exists k: nat :: StandsAlone(sends, k, eventId)
  }

  lemma {:induction false} Remembered(pluginId: string, deliveries: seq<Delivery>, eventId: string)
    ensures DedupeKey(pluginId, eventId) in Replayed(After(pluginId, deliveries).log)
       <==> IsRemembered(After(pluginId, deliveries).sends, eventId)
  {
    RememberedExactly(pluginId, deliveries, eventId);
  }

  predicate OnFullLine(sends: seq<Send>, k: nat, eventId: string) {
    StandsAlone(sends, k, eventId) && sends[k].append.Written?
  }

  /** Records that stand alone on full lines stay, and one more send can add its own. */
  lemma {:induction false} FullLinesGrow(sends: seq<Send>, eventId: string)
    requires sends != []
    ensures var n := |sends| - 1;
      (exists k: nat :: OnFullLine(sends, k, eventId))
      <==> (exists k: nat :: OnFullLine(sends[..n], k, eventId)) || OnFullLine(sends, n, eventId)
  {
    var n := |sends| - 1;
    forall k: nat | k < n ensures OnFullLine(sends, k, eventId) == OnFullLine(sends[..n], k, eventId) {
      StandsAloneBefore(sends, k, eventId);
    }
  }

  lemma {:induction false} LineKeys(pluginId: string, sends: seq<Send>, eventId: string)
    ensures DedupeKey(pluginId, eventId) in KeysOf(LogOf(pluginId, sends).lines)
      <==> exists k: nat :: OnFullLine(sends, k, eventId)
  {
    if sends != [] {
      var n := |sends| - 1;
      var earlier, s := sends[..n], sends[n];
      LineKeys(pluginId, earlier, eventId);
      OpenTail(pluginId, earlier);
      FullLinesGrow(sends, eventId);
      var log := LogOf(pluginId, earlier);
      KeysAppend(log.lines, if log.tail.Some? then Unreadable else Record(DedupeKey(pluginId, s.eventId)));
      if s.eventId != eventId {
        KeysDiffer(pluginId, s.eventId, eventId);
      }
    }
  }

  /** The key of the text after the last line feed is that of the last write, if it stands alone. */
  lemma {:induction false} TailKey(pluginId: string, sends: seq<Send>, eventId: string)
    ensures var last := LastWrite(sends);
      DedupeKey(pluginId, eventId) in TailKeys(LogOf(pluginId, sends))
      <==> last.Some? && sends[last.value].append.LineFeedMissing? && StandsAlone(sends, last.value, eventId)
  {
    if sends != [] {
      var n := |sends| - 1;
      var earlier, s, last := sends[..n], sends[n], LastWrite(sends);
      TailKey(pluginId, earlier, eventId);
      OpenTail(pluginId, earlier);
      if s.eventId != eventId {
        KeysDiffer(pluginId, s.eventId, eventId);
      }
      if last.Some? && last.value < n {
        StandsAloneBefore(sends, last.value, eventId);
      }
    }
  }

  /** Over every run, failed appends included: the key of an event is in the replayed log exactly when one of its
      successful sends left a record that stands alone. */
  lemma {:induction false} RememberedExactly(pluginId: string, deliveries: seq<Delivery>, eventId: string)
    ensures var w := After(pluginId, deliveries);
      DedupeKey(pluginId, eventId) in Replayed(w.log) <==> exists k: nat :: StandsAlone(w.sends, k, eventId)
  {
    var sends := After(pluginId, deliveries).sends;
    LogFollowsSends(pluginId, deliveries);
    ReplayedParts(LogOf(pluginId, sends));
    LineKeys(pluginId, sends, eventId);
    TailKey(pluginId, sends, eventId);
    if k: nat :| StandsAlone(sends, k, eventId) {
      assert OnFullLine(sends, k, eventId) || LastWrite(sends) == Some(k);
    }
    if k: nat :| OnFullLine(sends, k, eventId) {
      assert StandsAlone(sends, k, eventId);
    }
  }

  /** A delivery leads to an attempt exactly when the event calls for a notification, the plugin is configured, the log
      can be read, the request can be built, and no record of the event stands alone. */
  lemma {:induction false} AttemptedUnlessRemembered(pluginId: string, deliveries: seq<Delivery>, d: Delivery)
    ensures var w, next := After(pluginId, deliveries), After(pluginId, deliveries + [d]);
      |next.sends| > |w.sends|
      <==> d.notify && d.config == Ready && d.logReadable && d.requestBuilt
           && !exists k: nat :: StandsAlone(w.sends, k, d.eventId)
  {
    RememberedExactly(pluginId, deliveries, d.eventId);
    AfterOne(pluginId, deliveries, d);
  }

  /** When a delivery is attempted: exactly when it gets through to the log and was never sent before. */
  lemma {:induction false} RetriedUntilSent(pluginId: string, deliveries: seq<Delivery>, d: Delivery)
    requires FailedAppends(After(pluginId, deliveries).sends) == 0
    ensures |After(pluginId, deliveries + [d]).sends| > |After(pluginId, deliveries).sends|
      <==> d.notify && d.config == Ready && d.logReadable && d.requestBuilt
           && Successes(After(pluginId, deliveries).sends, d.eventId) == 0
  {
    LogIsFaithful(pluginId, deliveries, d.eventId);
    assert (deliveries + [d])[..|deliveries|] == deliveries;
  }

  lemma {:induction false} AfterOne(pluginId: string, deliveries: seq<Delivery>, d: Delivery)
    ensures After(pluginId, deliveries + [d]) == Handled(pluginId, After(pluginId, deliveries), d)
  {
    assert (deliveries + [d])[..|deliveries|] == deliveries;
  }

  function ReadyDelivery(eventId: string, append: AppendResult): Delivery {
    Delivery(eventId, true, Ready, true, true, true, append)
  }

  /** A ready delivery of an unrecorded event is sent and appended. */
  lemma {:induction false} Resent(pluginId: string, w: World, eventId: string, append: AppendResult)
    requires DedupeKey(pluginId, eventId) !in Replayed(w.log)
    ensures var next := Handled(pluginId, w, ReadyDelivery(eventId, append));
      && next.log == Appended(w.log, DedupeKey(pluginId, eventId), append)
      && Successes(next.sends, eventId) == Successes(w.sends, eventId) + 1
      && FailedAppends(next.sends) == FailedAppends(w.sends) + if append.Written? then 0 else 1
  {
    SendCounts(w.sends, Send(eventId, true, append), eventId);
  }

  lemma {:induction false} TornLogForgets(key: string)
    ensures key !in Replayed(EMPTY_LOG)
    ensures var torn := Appended(EMPTY_LOG, key, Torn);
      key !in Replayed(torn) && key !in Replayed(Appended(torn, key, Written))
  {
    ReplayedParts(EMPTY_LOG);
    var torn := Appended(EMPTY_LOG, key, Torn);
    ReplayedParts(torn);
    ReplayedParts(Appended(torn, key, Written));
    KeysAppend([], Unreadable);
    assert [] + [Unreadable] == [Unreadable];
  }

  /** The bound is reached: one torn record lets the same event be sent three times. */
  lemma {:induction false} TornRecordSendsThrice(pluginId: string, eventId: string)
    ensures var torn, full := ReadyDelivery(eventId, Torn), ReadyDelivery(eventId, Written);
      var w0 := After(pluginId, []);
      var w3 := Handled(pluginId, Handled(pluginId, Handled(pluginId, w0, torn), full), full);
      && w3 == After(pluginId, [] + [torn] + [full] + [full])
      && Successes(w3.sends, eventId) == 3 && FailedAppends(w3.sends) == 1
  {
    var torn, full := ReadyDelivery(eventId, Torn), ReadyDelivery(eventId, Written);
    AfterOne(pluginId, [], torn);
    AfterOne(pluginId, [] + [torn], full);
    AfterOne(pluginId, [] + [torn] + [full], full);
    ThreeSends(pluginId, After(pluginId, []), eventId);
  }

  lemma {:induction false} ThreeSends(pluginId: string, w0: World, eventId: string)
    requires w0 == World(EMPTY_LOG, [])
    ensures var torn, full := ReadyDelivery(eventId, Torn), ReadyDelivery(eventId, Written);
      var w3 := Handled(pluginId, Handled(pluginId, Handled(pluginId, w0, torn), full), full);
      Successes(w3.sends, eventId) == 3 && FailedAppends(w3.sends) == 1
  {
    TornLogForgets(DedupeKey(pluginId, eventId));
    Resent(pluginId, w0, eventId, Torn);
    var w1 := Handled(pluginId, w0, ReadyDelivery(eventId, Torn));
    Resent(pluginId, w1, eventId, Written);
    var w2 := Handled(pluginId, w1, ReadyDelivery(eventId, Written));
    Resent(pluginId, w2, eventId, Written);
  }

  // ---------------------------------------------------------------------------------------------
  // Which failures break sending at most once
  // ---------------------------------------------------------------------------------------------

  ghost predicate AppendsIn(deliveries: seq<Delivery>, outcomes: set<AppendResult>) {
    forall d :: d in deliveries ==> d.append in outcomes
  }

  ghost predicate SendsAtMostOnce(pluginId: string, deliveries: seq<Delivery>) {
    forall eventId :: Successes(After(pluginId, deliveries).sends, eventId) <= 1
  }

  lemma {:induction false} AllWritten(pluginId: string, deliveries: seq<Delivery>)
    requires AppendsIn(deliveries, {Written})
    ensures FailedAppends(After(pluginId, deliveries).sends) == 0
  {
    if deliveries != [] {
      var n := |deliveries| - 1;
      AllWritten(pluginId, deliveries[..n]);
      var w, d := After(pluginId, deliveries[..n]), deliveries[n];
      assert d in deliveries;
      SendCounts(w.sends, Send(d.eventId, true, d.append), d.eventId);
      SendCounts(w.sends, Send(d.eventId, false, NothingWritten), d.eventId);
    }
  }

  /** For each way an append can fail: deliveries, all with that outcome, that send one event twice. */
  function SentTwiceBy(eventId: string, append: AppendResult): seq<Delivery> {
    var d, other := ReadyDelivery(eventId, append), ReadyDelivery(eventId + "x", append);
    if append.LineFeedMissing? then [d, other, d] else [d, d]
  }

  lemma {:induction false} EmptyLogForgets(key: string)
    ensures key !in Replayed(EMPTY_LOG)
  {
    ReplayedParts(EMPTY_LOG);
  }

  lemma {:induction false} TwoSends(pluginId: string, eventId: string, append: AppendResult)
    requires append.NothingWritten? || append.Torn?
    ensures var d := ReadyDelivery(eventId, append);
      Successes(Handled(pluginId, Handled(pluginId, World(EMPTY_LOG, []), d), d).sends, eventId) == 2
  {
    var key, w := DedupeKey(pluginId, eventId), World(EMPTY_LOG, []);
    EmptyLogForgets(key);
    AppendedKeys(EMPTY_LOG, key, append);
    Resent(pluginId, w, eventId, append);
    Resent(pluginId, Handled(pluginId, w, ReadyDelivery(eventId, append)), eventId, append);
  }

  lemma {:induction false} OtherSendForgets(pluginId: string, eventId: string)
    ensures var d, other := ReadyDelivery(eventId, LineFeedMissing), ReadyDelivery(eventId + "x", LineFeedMissing);
      var w := Handled(pluginId, Handled(pluginId, World(EMPTY_LOG, []), d), other);
      DedupeKey(pluginId, eventId) !in Replayed(w.log) && Successes(w.sends, eventId) == 1
  {
    var key, otherKey := DedupeKey(pluginId, eventId), DedupeKey(pluginId, eventId + "x");
    var w := World(EMPTY_LOG, []);
    KeysDiffer(pluginId, eventId, eventId + "x");
    EmptyLogForgets(key);
    EmptyLogForgets(otherKey);
    AppendedKeys(EMPTY_LOG, key, LineFeedMissing);
    Resent(pluginId, w, eventId, LineFeedMissing);
    var w1 := Handled(pluginId, w, ReadyDelivery(eventId, LineFeedMissing));
    AppendedKeys(w1.log, otherKey, LineFeedMissing);
    SendCounts(w1.sends, Send(eventId + "x", true, LineFeedMissing), eventId);
  }

  lemma {:induction false} FailureSendsTwice(pluginId: string, eventId: string, append: AppendResult)
    requires append != Written
    ensures Successes(After(pluginId, SentTwiceBy(eventId, append)).sends, eventId) == 2
  {
    var d, other := ReadyDelivery(eventId, append), ReadyDelivery(eventId + "x", append);
    var w := After(pluginId, []);
    AfterOne(pluginId, [], d);
    if append.LineFeedMissing? {
      AfterOne(pluginId, [] + [d], other);
      AfterOne(pluginId, [] + [d] + [other], d);
      assert [] + [d] + [other] + [d] == [d, other, d];
      OtherSendForgets(pluginId, eventId);
      Resent(pluginId, Handled(pluginId, Handled(pluginId, w, d), other), eventId, append);
    } else {
      AfterOne(pluginId, [] + [d], d);
      assert [] + [d] + [d] == [d, d];
      TwoSends(pluginId, eventId, append);
    }
  }

  /** Sending at most once, exactly: given which outcomes an append may have, every run of deliveries sends every
      event at most once if and only if no append fails. */
  lemma {:induction false} AtMostOnceExactly(pluginId: string, outcomes: set<AppendResult>)
    ensures (forall deliveries :: AppendsIn(deliveries, outcomes) ==> SendsAtMostOnce(pluginId, deliveries))
      <==> outcomes <= {Written}
  {
    if outcomes <= {Written} {
      forall deliveries | AppendsIn(deliveries, outcomes) ensures SendsAtMostOnce(pluginId, deliveries) {
        AllWritten(pluginId, deliveries);
        forall eventId ensures Successes(After(pluginId, deliveries).sends, eventId) <= 1 {
          SentAtMostOnce(pluginId, deliveries, eventId);
        }
      }
    } else {
      var append :| append in outcomes && append != Written;
      FailureSendsTwice(pluginId, "", append);
      assert AppendsIn(SentTwiceBy("", append), outcomes);
      assert !SendsAtMostOnce(pluginId, SentTwiceBy("", append));
    }
  }
}
