/** The arbiter that decides which of three racing reports of one tool approval is shown: the hook
    helper's, the relay's, or the session-file watcher's (crates/niuma-core/src/approval_arbitration.rs).

    `Step` is one locked call on the arbiter's three tables. A run is a sequence of requests replayed
    from the empty arbiter, and its log pairs each request with the answer its caller saw. The
    theorems describe the tables by that log alone. */
module ApprovalArbitration {
  import opened Wrappers

  // Instants and durations count nanoseconds.
  const SECOND: int := 1_000_000_000
  const WATCHER_APPROVAL_DELAY: int := 2 * SECOND
  const ACTIVE_TTL: int := 600 * SECOND
  const INACTIVE_TTL: int := 300 * SECOND
  const RECENT_EMISSION_TTL: int := 10 * SECOND
  const ACTIVE_MISSED_THRESHOLD: nat := 2

  datatype Basis = Command | Description

  datatype Fingerprint = Fingerprint(key: string, projectPath: string, sessionId: Option<string>, basis: Basis)

  /** A reported approval event; the arbiter reads nothing but its resolve key. */
  datatype Event = Event(attentionResolveKey: Option<string>, body: string)

  datatype Capability =
    | Unknown
    | Active(lastSeenAt: int, missedCount: nat)
    | Inactive(lastFallbackAt: int)

  datatype PendingApproval = PendingApproval(fingerprint: Fingerprint, event: Event, createdAt: int)

  datatype Source = Hook | Relay | Watcher

  type ProxySource = s: Source | s != Watcher witness Hook

  datatype Emission = Emission(fingerprint: Fingerprint, source: Source, emittedAt: int)

  datatype WatcherDecision = Delay(duration: int) | EmitNow(event: Event) | Suppress

  datatype ProxyDecision = AcceptHook | ReplaceWatcher

  datatype State = State(
    capabilities: map<string, Capability>,
    pending: map<string, PendingApproval>,
    recent: seq<Emission>)

  const EMPTY: State := State(map[], map[], [])

  // ---------------------------------------------------------------------------------------------
  // One call
  // ---------------------------------------------------------------------------------------------

  /** The emissions of age at most RECENT_EMISSION_TTL, in order. */
  function Within(emissions: seq<Emission>, now: int): seq<Emission> {
    if emissions == [] then []
    else
      var last := emissions[|emissions| - 1];
      Within(emissions[..|emissions| - 1], now)
      + if now - last.emittedAt <= RECENT_EMISSION_TTL then [last] else []
  }

  predicate AnyProxied(emissions: seq<Emission>, key: string) {
    exists i :: 0 <= i < |emissions| && emissions[i].fingerprint.key == key && emissions[i].source != Watcher
  }

  predicate AnyWatched(emissions: seq<Emission>, key: string) {
    exists i :: 0 <= i < |emissions| && emissions[i].fingerprint.key == key && emissions[i].source == Watcher
  }

  /** What a project's stored capability is worth at `now`, once its time to live is applied. */
  function Effective(capabilities: map<string, Capability>, project: string, now: int): Capability {
    if project !in capabilities then Unknown
    else match capabilities[project]
      case Active(seen, _) => if now - seen > ACTIVE_TTL then Unknown else capabilities[project]
      case Inactive(fallback) => if now - fallback > INACTIVE_TTL then Unknown else capabilities[project]
      case Unknown => Unknown
  }

  function AfterMiss(capability: Capability, now: int): Capability {
    match capability
    case Active(seen, missed) =>
      if missed + 1 >= ACTIVE_MISSED_THRESHOLD then Inactive(now) else Active(seen, missed + 1)
    case _ => Inactive(now)
  }

  datatype Request =
    | OnWatcher(fingerprint: Fingerprint, event: Event, now: int)
    | OnProxy(fingerprint: Fingerprint, source: ProxySource, now: int)
    | OnExpire(fingerprint: Fingerprint, now: int)
    | OnCancel(resolveKey: string, pick: string)

  datatype Answer =
    | WatcherAnswer(watcher: WatcherDecision)
    | ProxyAnswer(proxy: ProxyDecision)
    | ExpireAnswer(expired: Option<Event>)
    | CancelAnswer(removed: bool)

  /** With `lazy` the TTL check writes its verdict back into the table, as the source does. */
  function WriteBack(s: State, project: string, now: int, lazy: bool): State {
    if lazy then s.(capabilities := s.capabilities[project := Effective(s.capabilities, project, now)]) else s
  }

  predicate Cancels(pending: map<string, PendingApproval>, key: string, resolveKey: string) {
    key in pending && pending[key].event.attentionResolveKey == Some(resolveKey)
  }

  /** `find` over a hash map returns some matching entry: `pick` is the one it hit, and matches if any does. */
  ghost predicate GoodPick(pending: map<string, PendingApproval>, resolveKey: string, pick: string) {
    Cancels(pending, pick, resolveKey) || forall key :: !Cancels(pending, key, resolveKey)
  }

  function StepWatcher(s: State, fp: Fingerprint, event: Event, now: int, lazy: bool): (State, WatcherDecision) {
    var s1 := s.(recent := Within(s.recent, now));
    if AnyProxied(s1.recent, fp.key) then (s1, Suppress)
    else
      var s2 := WriteBack(s1, fp.projectPath, now, lazy);
      if Effective(s1.capabilities, fp.projectPath, now).Inactive? then
        (s2.(recent := s2.recent + [Emission(fp, Watcher, now)]), EmitNow(event))
      else
        (s2.(pending := s2.pending[fp.key := PendingApproval(fp, event, now)]), Delay(WATCHER_APPROVAL_DELAY))
  }

  function StepProxy(s: State, fp: Fingerprint, source: ProxySource, now: int): (State, ProxyDecision) {
    var recent := Within(s.recent, now);
    (State(s.capabilities[fp.projectPath := Active(now, 0)],
           s.pending - {fp.key},
           recent + [Emission(fp, source, now)]),
     if AnyWatched(recent, fp.key) then ReplaceWatcher else AcceptHook)
  }

  function StepExpire(s: State, fp: Fingerprint, now: int): (State, Option<Event>) {
    var s1 := s.(recent := Within(s.recent, now));
    if fp.key !in s1.pending then (s1, None)
    else
      var next := AfterMiss(Effective(s1.capabilities, fp.projectPath, now), now);
      (State(s1.capabilities[fp.projectPath := next],
             s1.pending - {fp.key},
             s1.recent + [Emission(fp, Watcher, now)]),
       Some(s1.pending[fp.key].event))
  }

  function Step(s: State, request: Request, lazy: bool): (State, Answer) {
    match request
    case OnWatcher(fp, event, now) => var (s', d) := StepWatcher(s, fp, event, now, lazy); (s', WatcherAnswer(d))
    case OnProxy(fp, source, now) => var (s', d) := StepProxy(s, fp, source, now); (s', ProxyAnswer(d))
    case OnExpire(fp, now) => var (s', e) := StepExpire(s, fp, now); (s', ExpireAnswer(e))
    case OnCancel(resolveKey, pick) =>
      if Cancels(s.pending, pick, resolveKey) then (s.(pending := s.pending - {pick}), CancelAnswer(true))
      else (s, CancelAnswer(false))
  }

  // ---------------------------------------------------------------------------------------------
  // Runs
  // ---------------------------------------------------------------------------------------------

  function Replay(requests: seq<Request>, lazy: bool): State {
    if requests == [] then EMPTY
    else Step(Replay(requests[..|requests| - 1], lazy), requests[|requests| - 1], lazy).0
  }

  datatype Entry = Entry(request: Request, answer: Answer)

  function Log(requests: seq<Request>, lazy: bool): (log: seq<Entry>)
    ensures |log| == |requests|
  {
    if requests == [] then []
    else
      var n := |requests| - 1;
      Log(requests[..n], lazy) + [Entry(requests[n], Step(Replay(requests[..n], lazy), requests[n], lazy).1)]
  }

  /** What a caller sees of an entry: the notification it put in front of the user, if any. */
  function Emitted(entry: Entry): seq<Emission> {
    match entry
    case Entry(OnWatcher(fp, _, now), WatcherAnswer(EmitNow(_))) => [Emission(fp, Watcher, now)]
    case Entry(OnProxy(fp, source, now), _) => [Emission(fp, source, now)]
    case Entry(OnExpire(fp, now), ExpireAnswer(Some(_))) => [Emission(fp, Watcher, now)]
    case _ => []
  }

  function History(log: seq<Entry>): seq<Emission> {
    if log == [] then [] else History(log[..|log| - 1]) + Emitted(log[|log| - 1])
  }

  ghost predicate NotAfter(requests: seq<Request>, now: int) {
    forall i :: 0 <= i < |requests| && !requests[i].OnCancel? ==> requests[i].now <= now
  }

  /** The clock never runs backwards during the run. */
  ghost predicate Monotone(requests: seq<Request>) {
    forall i, j :: 0 <= i < j < |requests| && !requests[i].OnCancel? && !requests[j].OnCancel? ==>
      requests[i].now <= requests[j].now
  }

  lemma {:induction false} MonotonePrefix(requests: seq<Request>, n: nat)
    requires Monotone(requests) && n <= |requests|
    ensures Monotone(requests[..n])
    ensures n < |requests| && !requests[n].OnCancel? ==> NotAfter(requests[..n], requests[n].now)
  {}

  /** A call appends to the recent list exactly what its answer shows, after pruning; nothing else does. */
  lemma {:induction false} StepRecent(s: State, request: Request, lazy: bool)
    ensures var (s', answer) := Step(s, request, lazy);
      s'.recent == if request.OnCancel? then s.recent
                   else Within(s.recent, request.now) + Emitted(Entry(request, answer))
    ensures request.OnCancel? ==> Emitted(Entry(request, Step(s, request, lazy).1)) == []
  {}

  /** The last call of a run: the state and the log it extends. */
  lemma {:induction false} LastCall(requests: seq<Request>, lazy: bool)
    returns (earlier: seq<Request>, s: State, entry: Entry)
    requires requests != []
    ensures earlier == requests[..|requests| - 1] && s == Replay(earlier, lazy)
    ensures entry == Entry(requests[|requests| - 1], Step(s, requests[|requests| - 1], lazy).1)
    ensures Replay(requests, lazy) == Step(s, entry.request, lazy).0
    ensures Log(requests, lazy) == Log(earlier, lazy) + [entry]
    ensures Monotone(requests) ==> Monotone(earlier)
    ensures Monotone(requests) && !entry.request.OnCancel? ==> NotAfter(earlier, entry.request.now)
    ensures forall now :: NotAfter(requests, now) ==>
      NotAfter(earlier, now) && (!entry.request.OnCancel? ==> entry.request.now <= now)
  {
    earlier := requests[..|requests| - 1];
    s := Replay(earlier, lazy);
    entry := Entry(requests[|requests| - 1], Step(s, requests[|requests| - 1], lazy).1);
    if Monotone(requests) {
      MonotonePrefix(requests, |requests| - 1);
    }
  }

  lemma {:induction false} LogAt(requests: seq<Request>, lazy: bool, i: nat)
    requires i < |requests|
    ensures Log(requests, lazy)[i] == Entry(requests[i], Step(Replay(requests[..i], lazy), requests[i], lazy).1)
    ensures Log(requests, lazy)[..i] == Log(requests[..i], lazy)
    decreases |requests|
  {
    var earlier, s, entry := LastCall(requests, lazy);
    var log := Log(earlier, lazy);
    assert earlier[..i] == requests[..i];
    if i < |earlier| {
      LogAt(earlier, lazy, i);
      assert (log + [entry])[i] == log[i] && (log + [entry])[..i] == log[..i];
    } else {
      assert earlier == requests[..i] && (log + [entry])[..i] == log;
    }
  }

  lemma {:induction false} HistoryLast(log: seq<Entry>, entry: Entry)
    ensures History(log + [entry]) == History(log) + Emitted(entry)
  {
    assert (log + [entry])[..|log|] == log;
  }

  // ---------------------------------------------------------------------------------------------
  // The recent list is the history cut to ten seconds
  // ---------------------------------------------------------------------------------------------

  lemma {:induction false} WithinAppend(a: seq<Emission>, b: seq<Emission>, now: int)
    ensures Within(a + b, now) == Within(a, now) + Within(b, now)
  {
    if b == [] {
      assert a + b == a;
    } else {
      var n := |b| - 1;
      WithinAppend(a, b[..n], now);
      assert (a + b)[..|a + b| - 1] == a + b[..n];
    }
  }

  lemma {:induction false} WithinLater(emissions: seq<Emission>, earlier: int, now: int)
    requires earlier <= now
    ensures Within(Within(emissions, earlier), now) == Within(emissions, now)
  {
    if emissions != [] {
      var n := |emissions| - 1;
      WithinLater(emissions[..n], earlier, now);
      var kept := if earlier - emissions[n].emittedAt <= RECENT_EMISSION_TTL then [emissions[n]] else [];
      WithinAppend(Within(emissions[..n], earlier), kept, now);
    }
  }

  lemma {:induction false} WithinContains(emissions: seq<Emission>, now: int, e: Emission)
    ensures e in Within(emissions, now) <==> e in emissions && now - e.emittedAt <= RECENT_EMISSION_TTL
  {
    if emissions != [] {
      var n := |emissions| - 1;
      WithinContains(emissions[..n], now, e);
      assert emissions == emissions[..n] + [emissions[n]];
    }
  }

  /** Some proxy (or watcher) emission of `key` in the history is at most ten seconds old. */
  ghost predicate ProxiedRecently(history: seq<Emission>, key: string, now: int) {
    exists e ::
      e in history && e.fingerprint.key == key && e.source != Watcher && now - e.emittedAt <= RECENT_EMISSION_TTL
  }

  ghost predicate WatchedRecently(history: seq<Emission>, key: string, now: int) {
    exists e ::
      e in history && e.fingerprint.key == key && e.source == Watcher && now - e.emittedAt <= RECENT_EMISSION_TTL
  }

  lemma {:induction false} AnyWithin(history: seq<Emission>, key: string, now: int)
    ensures AnyProxied(Within(history, now), key) <==> ProxiedRecently(history, key, now)
    ensures AnyWatched(Within(history, now), key) <==> WatchedRecently(history, key, now)
  {
    var cut := Within(history, now);
    forall e ensures e in cut <==> e in history && now - e.emittedAt <= RECENT_EMISSION_TTL {
      WithinContains(history, now, e);
    }
  }

  /** Whatever was pruned on the way, the list answers every later question as the full history would. */
  lemma {:induction false} RecentIsHistoryCut(requests: seq<Request>, lazy: bool, now: int)
    requires Monotone(requests) && NotAfter(requests, now)
    ensures Within(Replay(requests, lazy).recent, now) == Within(History(Log(requests, lazy)), now)
  {
    if requests != [] {
      var n := |requests| - 1;
      MonotonePrefix(requests, n);
      RecentIsHistoryCut(requests[..n], lazy, now);
      var s, log := Replay(requests[..n], lazy), Log(requests, lazy);
      var emitted := Emitted(log[n]);
      assert log[..n] == Log(requests[..n], lazy);
      WithinAppend(History(log[..n]), emitted, now);
      StepRecent(s, requests[n], lazy);
      if !requests[n].OnCancel? {
        WithinLater(s.recent, requests[n].now, now);
        WithinAppend(Within(s.recent, requests[n].now), emitted, now);
      }
    }
  }

  /** The exact condition under which a watcher report is dropped and a proxy report replaces one. */
  lemma {:induction false} DecisionsFollowHistory(requests: seq<Request>, lazy: bool, key: string, now: int)
    requires Monotone(requests) && NotAfter(requests, now)
    ensures AnyProxied(Within(Replay(requests, lazy).recent, now), key)
       <==> ProxiedRecently(History(Log(requests, lazy)), key, now)
    ensures AnyWatched(Within(Replay(requests, lazy).recent, now), key)
       <==> WatchedRecently(History(Log(requests, lazy)), key, now)
  {
    RecentIsHistoryCut(requests, lazy, now);
    AnyWithin(History(Log(requests, lazy)), key, now);
  }

  // ---------------------------------------------------------------------------------------------
  // No watcher notification within ten seconds after a proxy's
  // ---------------------------------------------------------------------------------------------

  /** A candidate is either the one it was, or has just been created for a watcher no proxy preceded. */
  lemma {:induction false} StepPending(s: State, request: Request, lazy: bool, key: string)
    requires key in Step(s, request, lazy).0.pending
    ensures var (s', answer) := Step(s, request, lazy);
      if request.OnWatcher? && request.fingerprint.key == key
         && answer == WatcherAnswer(Delay(WATCHER_APPROVAL_DELAY)) then
        s'.pending[key].createdAt == request.now && !AnyProxied(Within(s.recent, request.now), key)
        && Emitted(Entry(request, answer)) == []
      else
        key in s.pending && s'.pending[key] == s.pending[key] && !(request.OnProxy? && request.fingerprint.key == key)
  {}

  /** A candidate still waiting was created more than ten seconds after every proxy emission of its key. */
  lemma {:induction false} PendingIsUncontested(requests: seq<Request>, lazy: bool, key: string, e: Emission)
    requires Monotone(requests) && key in Replay(requests, lazy).pending
    requires e in History(Log(requests, lazy)) && e.fingerprint.key == key && e.source != Watcher
    ensures Replay(requests, lazy).pending[key].createdAt - e.emittedAt > RECENT_EMISSION_TTL
    decreases |requests|
  {
    var earlier, s, entry := LastCall(requests, lazy);
    HistoryLast(Log(earlier, lazy), entry);
    StepPending(s, entry.request, lazy, key);
    assert e in History(Log(earlier, lazy));
    if entry.request.OnWatcher? && entry.request.fingerprint.key == key
       && entry.answer == WatcherAnswer(Delay(WATCHER_APPROVAL_DELAY)) {
      DecisionsFollowHistory(earlier, lazy, key, entry.request.now);
    } else {
      PendingIsUncontested(earlier, lazy, key, e);
    }
  }

  lemma {:induction false} PendingInTime(requests: seq<Request>, lazy: bool, key: string, now: int)
    requires key in Replay(requests, lazy).pending && NotAfter(requests, now)
    ensures Replay(requests, lazy).pending[key].createdAt <= now
  {
    var n := |requests| - 1;
    var before := Replay(requests[..n], lazy);
    if key in before.pending && before.pending[key] == Replay(requests, lazy).pending[key] {
      PendingInTime(requests[..n], lazy, key, now);
    }
  }

  lemma {:induction false} HistoryContains(log: seq<Entry>, i: nat, j: nat, e: Emission)
    requires i < j <= |log| && e in Emitted(log[i])
    ensures e in History(log[..j])
  {
    assert log[..j][..j - 1] == log[..j - 1];
    if i < j - 1 {
      HistoryContains(log, i, j - 1, e);
    }
  }

  /** What a watcher emission tells about the state it was made in. */
  lemma {:induction false} WatcherEmission(s: State, request: Request, lazy: bool, e: Emission)
    requires e in Emitted(Entry(request, Step(s, request, lazy).1)) && e.source == Watcher
    ensures !request.OnCancel? && e.emittedAt == request.now && e.fingerprint == request.fingerprint
    ensures request.OnWatcher? ==> !AnyProxied(Within(s.recent, request.now), e.fingerprint.key)
    ensures !request.OnWatcher? ==> e.fingerprint.key in s.pending
  {}

  /** In every run with a non-decreasing clock, no watcher emission of a key, immediate or expired, comes
      within ten seconds after a hook or relay emission of that key. */
  lemma {:induction false} NoWatcherEmissionSoonAfterProxy(requests: seq<Request>, lazy: bool, i: nat, j: nat,
                                                           proxied: Emission, watched: Emission)
    requires Monotone(requests) && i < j < |requests|
    requires proxied in Emitted(Log(requests, lazy)[i]) && proxied.source != Watcher
    requires watched in Emitted(Log(requests, lazy)[j]) && watched.source == Watcher
    requires proxied.fingerprint.key == watched.fingerprint.key
    ensures watched.emittedAt - proxied.emittedAt > 10 * SECOND
  {
    var key, now := watched.fingerprint.key, watched.emittedAt;
    var earlier := requests[..j];
    LogAt(requests, lazy, j);
    HistoryContains(Log(requests, lazy), i, j, proxied);
    MonotonePrefix(requests, j);
    WatcherEmission(Replay(earlier, lazy), requests[j], lazy, watched);
    if requests[j].OnWatcher? {
      DecisionsFollowHistory(earlier, lazy, key, now);
    } else {
      PendingIsUncontested(earlier, lazy, key, proxied);
      PendingInTime(earlier, lazy, key, now);
    }
  }

  // ---------------------------------------------------------------------------------------------
  // The waiting candidates are a function of the log
  // ---------------------------------------------------------------------------------------------

  /** A watcher report of the key that was put off. */
  predicate IsDelayed(entry: Entry, key: string) {
    entry.request.OnWatcher? && entry.request.fingerprint.key == key
    && entry.answer.WatcherAnswer? && entry.answer.watcher.Delay?
  }

  /** What ends a key's wait: a hook or relay report of the key, its expiry, or its cancellation. */
  predicate EndsWait(entry: Entry, key: string) {
    match entry.request
    case OnWatcher(_, _, _) => false
    case OnProxy(fp, _, _) => fp.key == key
    case OnExpire(fp, _) => fp.key == key && entry.answer.ExpireAnswer? && entry.answer.expired.Some?
    case OnCancel(_, pick) => pick == key && entry.answer == CancelAnswer(true)
  }

  /** Entry `i` put the key off, and nothing since has put it off again or ended its wait. */
  ghost predicate WaitsSince(log: seq<Entry>, i: nat, key: string) {
    && i < |log| && IsDelayed(log[i], key)
    && forall j :: i < j < |log| ==> !IsDelayed(log[j], key) && !EndsWait(log[j], key)
  }

  ghost predicate Waits(log: seq<Entry>, key: string) {
    exists i: nat :: WaitsSince(log, i, key)
  }

  lemma {:induction false} WaitsNext(log: seq<Entry>, entry: Entry, key: string, i: nat)
    ensures WaitsSince(log + [entry], i, key)
       <==> if i == |log| then IsDelayed(entry, key)
            else WaitsSince(log, i, key) && !IsDelayed(entry, key) && !EndsWait(entry, key)
  {
    var next := log + [entry];
    if i < |log| {
      assert next[|log|] == entry && forall j :: 0 <= j < |log| ==> next[j] == log[j];
    }
  }

  /** How one call moves the candidate of a key, told by its answer. */
  lemma {:induction false} StepCandidate(s: State, request: Request, lazy: bool, key: string)
    ensures var (s', answer) := Step(s, request, lazy);
      var entry := Entry(request, answer);
      if IsDelayed(entry, key) then
        key in s'.pending
        && s'.pending[key] == PendingApproval(request.fingerprint, request.event, request.now)
      else if EndsWait(entry, key) then key !in s'.pending
      else
        (key in s'.pending <==> key in s.pending) && (key in s.pending ==> s'.pending[key] == s.pending[key])
  {}

  /** Over every run: a key waits exactly when the log holds a report of it that was put off with no later
      hook or relay report, expiry or cancellation of the key; and what waits is the last such report. */
  lemma {:induction false} CandidatesFollowLog(requests: seq<Request>, lazy: bool, key: string)
    ensures key in Replay(requests, lazy).pending <==> Waits(Log(requests, lazy), key)
    ensures forall i: nat :: WaitsSince(Log(requests, lazy), i, key) ==>
      var report := Log(requests, lazy)[i].request;
      && key in Replay(requests, lazy).pending
      && Replay(requests, lazy).pending[key] == PendingApproval(report.fingerprint, report.event, report.now)
    decreases |requests|
  {
    var log := Log(requests, lazy);
    if requests != [] {
      var earlier, s, entry := LastCall(requests, lazy);
      CandidatesFollowLog(earlier, lazy, key);
      StepCandidate(s, entry.request, lazy, key);
      forall i: nat ensures WaitsSince(log, i, key)
        <==> if i == |earlier| then IsDelayed(entry, key)
             else WaitsSince(Log(earlier, lazy), i, key) && !IsDelayed(entry, key) && !EndsWait(entry, key)
      {
        WaitsNext(Log(earlier, lazy), entry, key, i);
      }
      assert IsDelayed(entry, key) ==> WaitsSince(log, |earlier|, key);
    }
  }

  /** An expiry shows the event of the last report put off when the key still waits, and nothing otherwise. */
  lemma {:induction false} ExpiryFollowsLog(requests: seq<Request>, lazy: bool, j: nat)
    requires j < |requests| && requests[j].OnExpire?
    ensures var log, key := Log(requests, lazy), requests[j].fingerprint.key;
      && (log[j].answer == ExpireAnswer(None) <==> !Waits(log[..j], key))
      && (forall i: nat :: WaitsSince(log[..j], i, key) ==>
            log[j].answer == ExpireAnswer(Some(log[..j][i].request.event)))
  {
    LogAt(requests, lazy, j);
    CandidatesFollowLog(requests[..j], lazy, requests[j].fingerprint.key);
  }

  /** Some waiting report carries this resolve key. */
  ghost predicate SomeWaitsFor(log: seq<Entry>, resolveKey: string) {
    exists i: nat, key: string ::
      WaitsSince(log, i, key) && log[i].request.event.attentionResolveKey == Some(resolveKey)
  }

  /** A cancellation removes something exactly when a waiting report carries its resolve key. */
  lemma {:induction false} CancellationFollowsLog(requests: seq<Request>, lazy: bool, j: nat)
    requires j < |requests| && requests[j].OnCancel?
    requires GoodPick(Replay(requests[..j], lazy).pending, requests[j].resolveKey, requests[j].pick)
    ensures Log(requests, lazy)[j].answer
         == CancelAnswer(SomeWaitsFor(Log(requests, lazy)[..j], requests[j].resolveKey))
  {
    var log, pending := Log(requests, lazy)[..j], Replay(requests[..j], lazy).pending;
    var resolveKey := requests[j].resolveKey;
    LogAt(requests, lazy, j);
    forall key ensures Cancels(pending, key, resolveKey)
      <==> exists i: nat :: WaitsSince(log, i, key) && log[i].request.event.attentionResolveKey == Some(resolveKey)
    {
      CandidatesFollowLog(requests[..j], lazy, key);
    }
    if SomeWaitsFor(log, resolveKey) {
      var i: nat, key: string :|
        WaitsSince(log, i, key) && log[i].request.event.attentionResolveKey == Some(resolveKey);
      assert Cancels(pending, key, resolveKey);
    }
  }

  // ---------------------------------------------------------------------------------------------
  // The capability is a function of the project's proxy calls and expired candidates
  // ---------------------------------------------------------------------------------------------

  predicate IsProxyOf(entry: Entry, project: string) {
    entry.request.OnProxy? && entry.request.fingerprint.projectPath == project
  }

  /** An expiry that found its candidate still waiting. */
  predicate IsMissOf(entry: Entry, project: string) {
    entry.request.OnExpire? && entry.request.fingerprint.projectPath == project
    && entry.answer.ExpireAnswer? && entry.answer.expired.Some?
  }

  function LastProxy(log: seq<Entry>, project: string): Option<int> {
    if log == [] then None
    else
      var last := log[|log| - 1];
      if IsProxyOf(last, project) then Some(last.request.now) else LastProxy(log[..|log| - 1], project)
  }

  /** The times of the project's misses since its latest proxy call. */
  function Misses(log: seq<Entry>, project: string): seq<int> {
    if log == [] then []
    else
      var last := log[|log| - 1];
      if IsProxyOf(last, project) then []
      else Misses(log[..|log| - 1], project) + if IsMissOf(last, project) then [last.request.now] else []
  }

  /** Two misses, or one that no living proxy excuses, make the project fall back to its watcher. */
  predicate HasFallenBack(lastProxy: Option<int>, misses: seq<int>) {
    || |misses| >= 2
    || (|misses| == 1 && (lastProxy.None? || misses[0] - lastProxy.value > 600 * SECOND))
  }

  /** The capability, read off the log with no stored state: a fallback counts for five minutes, a proxy's sign of
      life for ten. */
  function CapabilityFromLog(lastProxy: Option<int>, misses: seq<int>, now: int): Capability {
    if HasFallenBack(lastProxy, misses) then
      var fallback := misses[|misses| - 1];
      if now - fallback <= 300 * SECOND then Inactive(fallback) else Unknown
    else if lastProxy.Some? && now - lastProxy.value <= 600 * SECOND then Active(lastProxy.value, |misses|)
    else Unknown
  }

  /** How one call moves a project's capability as it is judged at any later instant. */
  lemma {:induction false} StepCapability(s: State, request: Request, lazy: bool, project: string, now: int)
    requires !request.OnCancel? && request.now <= now
    ensures var (s', answer) := Step(s, request, lazy);
      Effective(s'.capabilities, project, now) ==
        if IsProxyOf(Entry(request, answer), project) then Effective(map["" := Active(request.now, 0)], "", now)
        else if IsMissOf(Entry(request, answer), project) then
          Effective(map["" := AfterMiss(Effective(s.capabilities, project, request.now), request.now)], "", now)
        else Effective(s.capabilities, project, now)
  {}

  lemma {:induction false} MissMovesCapability(lastProxy: Option<int>, misses: seq<int>, at: int, now: int)
    requires at <= now
    ensures Effective(map["" := AfterMiss(CapabilityFromLog(lastProxy, misses, at), at)], "", now)
         == CapabilityFromLog(lastProxy, misses + [at], now)
  {
    if |misses| == 0 {
      assert misses + [at] == [at];
    } else {
      assert (misses + [at])[0] == misses[0];
    }
  }

  lemma {:induction false} LastEntry(log: seq<Entry>, entry: Entry, project: string)
    ensures LastProxy(log + [entry], project)
         == if IsProxyOf(entry, project) then Some(entry.request.now) else LastProxy(log, project)
    ensures Misses(log + [entry], project)
         == if IsProxyOf(entry, project) then []
            else Misses(log, project) + if IsMissOf(entry, project) then [entry.request.now] else []
  {
    assert (log + [entry])[..|log|] == log;
  }

  /** The stored capability is worth, at `now`, what the log says. */
  predicate IsLogged(capabilities: map<string, Capability>, log: seq<Entry>, project: string, now: int) {
    Effective(capabilities, project, now) == CapabilityFromLog(LastProxy(log, project), Misses(log, project), now)
  }

  lemma {:induction false} CallKeepsLogged(s: State, log: seq<Entry>, request: Request, lazy: bool, project: string,
                                           now: int)
    requires IsLogged(s.capabilities, log, project, now)
    requires !request.OnCancel? ==> request.now <= now && IsLogged(s.capabilities, log, project, request.now)
    ensures var (next, answer) := Step(s, request, lazy);
      IsLogged(next.capabilities, log + [Entry(request, answer)], project, now)
  {
    var entry := Entry(request, Step(s, request, lazy).1);
    var lastProxy, misses := LastProxy(log, project), Misses(log, project);
    LastEntry(log, entry, project);
    assert misses + [] == misses;
    if request.OnCancel? {
      assert Step(s, request, lazy).0.capabilities == s.capabilities;
    } else {
      StepCapability(s, request, lazy, project, now);
      if IsProxyOf(entry, project) {
        assert Effective(map["" := Active(request.now, 0)], "", now) == CapabilityFromLog(Some(request.now), [], now);
      } else if IsMissOf(entry, project) {
        MissMovesCapability(lastProxy, misses, request.now, now);
      }
    }
  }

  lemma {:induction false} CapabilityIsLogged(requests: seq<Request>, lazy: bool, project: string, now: int)
    requires Monotone(requests) && NotAfter(requests, now)
    ensures IsLogged(Replay(requests, lazy).capabilities, Log(requests, lazy), project, now)
    decreases |requests|
  {
    if requests != [] {
      var earlier, s, entry := LastCall(requests, lazy);
      CapabilityIsLogged(earlier, lazy, project, now);
      if !entry.request.OnCancel? {
        CapabilityIsLogged(earlier, lazy, project, entry.request.now);
      }
      CallKeepsLogged(s, Log(earlier, lazy), entry.request, lazy, project, now);
    }
  }

  /** An active project never shows two misses, whatever the clock does. */
  lemma {:induction false} MissCountBelowThreshold(requests: seq<Request>, lazy: bool, project: string)
    requires project in Replay(requests, lazy).capabilities && Replay(requests, lazy).capabilities[project].Active?
    ensures Replay(requests, lazy).capabilities[project].missedCount < ACTIVE_MISSED_THRESHOLD
  {
    if requests != [] {
      var n := |requests| - 1;
      var s := Replay(requests[..n], lazy);
      if project in s.capabilities && s.capabilities[project].Active? {
        MissCountBelowThreshold(requests[..n], lazy, project);
      }
    }
  }

  lemma {:induction false} MissesInLog(log: seq<Entry>, project: string, i: nat, j: nat, count: nat)
    requires i < j <= |log| && IsProxyOf(log[i], project) && 0 < count <= |Misses(log[..j], project)|
    ensures exists a :: i < a < j && IsMissOf(log[a], project) && |Misses(log[..a], project)| >= count - 1
  {
    assert log[..j][..j - 1] == log[..j - 1];
    if IsMissOf(log[j - 1], project) {
    } else {
      MissesInLog(log, project, i, j - 1, count);
    }
  }

  lemma {:induction false} LastProxyNotBefore(log: seq<Entry>, project: string, i: nat, j: nat)
    requires i < j <= |log| && IsProxyOf(log[i], project)
    requires forall k :: i < k < j && IsProxyOf(log[k], project) ==> log[i].request.now <= log[k].request.now
    ensures LastProxy(log[..j], project).Some? && log[i].request.now <= LastProxy(log[..j], project).value
  {
    assert log[..j][..j - 1] == log[..j - 1];
    if i < j - 1 && !IsProxyOf(log[j - 1], project) {
      LastProxyNotBefore(log, project, i, j - 1);
    }
  }

  lemma {:induction false} MissesInTime(requests: seq<Request>, lazy: bool, project: string, k: nat, now: int)
    requires NotAfter(requests, now) && k < |Misses(Log(requests, lazy), project)|
    ensures Misses(Log(requests, lazy), project)[k] <= now
  {
    var n := |requests| - 1;
    var log := Log(requests, lazy);
    assert log[..n] == Log(requests[..n], lazy);
    if k < |Misses(log[..n], project)| {
      MissesInTime(requests[..n], lazy, project, k, now);
    }
  }

  /** For ten minutes after a project's proxy call, no watcher report there is answered EmitNow until two
      of the project's candidates have expired since. */
  lemma {:induction false} NoFallbackSoonAfterProxy(requests: seq<Request>, lazy: bool, i: nat, j: nat)
    requires Monotone(requests) && i < j < |requests|
    requires requests[i].OnProxy? && requests[j].OnWatcher?
    requires requests[i].fingerprint.projectPath == requests[j].fingerprint.projectPath
    requires requests[j].now - requests[i].now <= 600 * SECOND
    requires Log(requests, lazy)[j].answer == WatcherAnswer(EmitNow(requests[j].event))
    ensures exists a, b ::
      && i < a < b < j
      && IsMissOf(Log(requests, lazy)[a], requests[j].fingerprint.projectPath)
      && IsMissOf(Log(requests, lazy)[b], requests[j].fingerprint.projectPath)
  {
    var log, project, now := Log(requests, lazy), requests[j].fingerprint.projectPath, requests[j].now;
    LogAt(requests, lazy, j);
    LogAt(requests, lazy, i);
    MonotonePrefix(requests, j);
    CapabilityIsLogged(requests[..j], lazy, project, now);
    var last, misses := LastProxy(log[..j], project), Misses(log[..j], project);
    forall k | i < k < j && IsProxyOf(log[k], project) ensures log[i].request.now <= log[k].request.now {
      LogAt(requests, lazy, k);
    }
    LastProxyNotBefore(log, project, i, j);
    assert HasFallenBack(last, misses);
    if |misses| == 1 {
      MissesInTime(requests[..j], lazy, project, 0, now);
    }
    MissesInLog(log, project, i, j, 2);
    var b :| i < b < j && IsMissOf(log[b], project) && |Misses(log[..b], project)| >= 1;
    MissesInLog(log, project, i, b, 1);
  }

  /** Writing an expired capability back as Unknown is invisible: no answer of any run depends on it. */
  lemma {:induction false} LazyExpiryInvisible(requests: seq<Request>)
    requires Monotone(requests)
    ensures Log(requests, true) == Log(requests, false)
    ensures Replay(requests, true).pending == Replay(requests, false).pending
    ensures Replay(requests, true).recent == Replay(requests, false).recent
  {
    if requests != [] {
      var n := |requests| - 1;
      MonotonePrefix(requests, n);
      LazyExpiryInvisible(requests[..n]);
      if !requests[n].OnCancel? {
        var project, at := requests[n].fingerprint.projectPath, requests[n].now;
        CapabilityIsLogged(requests[..n], true, project, at);
        CapabilityIsLogged(requests[..n], false, project, at);
      }
    }
  }

  // ---------------------------------------------------------------------------------------------
  // Every answer is a function of the log
  // ---------------------------------------------------------------------------------------------

  /** A hook or relay reported the key within the last ten seconds. */
  ghost predicate ShownByProxy(log: seq<Entry>, key: string, now: int) {
    exists i :: 0 <= i < |log| && IsProxyCall(log[i], key) && now - log[i].request.now <= 10 * SECOND
  }

  predicate IsProxyCall(entry: Entry, key: string) {
    entry.request.OnProxy? && entry.request.fingerprint.key == key
  }

  /** A watcher's report of the key was shown within the last ten seconds, at once or when it expired. */
  ghost predicate ShownByWatcher(log: seq<Entry>, key: string, now: int) {
    exists i :: 0 <= i < |log| && IsWatcherShow(log[i], key) && now - log[i].request.now <= 10 * SECOND
  }

  predicate IsWatcherShow(entry: Entry, key: string) {
    match entry.request
    case OnWatcher(fp, _, _) => fp.key == key && entry.answer.WatcherAnswer? && entry.answer.watcher.EmitNow?
    case OnExpire(fp, _) => fp.key == key && entry.answer.ExpireAnswer? && entry.answer.expired.Some?
    case _ => false
  }

  lemma {:induction false} EmittedTells(entry: Entry, key: string, now: int)
    ensures IsProxyCall(entry, key) && now - entry.request.now <= 10 * SECOND
       <==> ProxiedRecently(Emitted(entry), key, now)
    ensures IsWatcherShow(entry, key) && now - entry.request.now <= 10 * SECOND
       <==> WatchedRecently(Emitted(entry), key, now)
  {
    if Emitted(entry) != [] {
      assert Emitted(entry)[0] in Emitted(entry);
    }
  }

  lemma {:induction false} RecentlyInParts(a: seq<Emission>, b: seq<Emission>, key: string, now: int)
    ensures ProxiedRecently(a + b, key, now) <==> ProxiedRecently(a, key, now) || ProxiedRecently(b, key, now)
    ensures WatchedRecently(a + b, key, now) <==> WatchedRecently(a, key, now) || WatchedRecently(b, key, now)
  {
    assert forall e :: e in a + b <==> e in a || e in b;
  }

  lemma {:induction false} ShownLast(log: seq<Entry>, key: string, now: int)
    requires log != []
    ensures var n := |log| - 1;
      && (ShownByProxy(log, key, now)
          <==> ShownByProxy(log[..n], key, now)
               || (IsProxyCall(log[n], key) && now - log[n].request.now <= 10 * SECOND))
      && (ShownByWatcher(log, key, now)
          <==> ShownByWatcher(log[..n], key, now)
               || (IsWatcherShow(log[n], key) && now - log[n].request.now <= 10 * SECOND))
  {
    var n := |log| - 1;
    assert forall i :: 0 <= i < n ==> log[..n][i] == log[i];
  }

  lemma {:induction false} HistoryTells(log: seq<Entry>, key: string, now: int)
    ensures ProxiedRecently(History(log), key, now) <==> ShownByProxy(log, key, now)
    ensures WatchedRecently(History(log), key, now) <==> ShownByWatcher(log, key, now)
  {
    if log != [] {
      var n := |log| - 1;
      HistoryTells(log[..n], key, now);
      EmittedTells(log[n], key, now);
      RecentlyInParts(History(log[..n]), Emitted(log[n]), key, now);
      ShownLast(log, key, now);
    }
  }

  /** The project has fallen back to its watcher, no more than five minutes ago. */
  predicate FellBackRecently(log: seq<Entry>, project: string, now: int) {
    var misses := Misses(log, project);
    HasFallenBack(LastProxy(log, project), misses) && now - misses[|misses| - 1] <= 300 * SECOND
  }

  /** In every run with a non-decreasing clock: a watcher's report is suppressed for ten seconds after a hook or relay
      report of its key, else shown at once while its project has fallen back, else put off for two seconds; a hook or
      relay report replaces a watcher's notification of the last ten seconds and is accepted otherwise. */
  lemma {:induction false} AnswersFollowLog(requests: seq<Request>, lazy: bool, j: nat)
    requires Monotone(requests) && j < |requests|
    ensures var log, request, answer := Log(requests, lazy)[..j], requests[j], Log(requests, lazy)[j].answer;
      && (request.OnWatcher? ==>
            answer == WatcherAnswer(
              if ShownByProxy(log, request.fingerprint.key, request.now) then Suppress
              else if FellBackRecently(log, request.fingerprint.projectPath, request.now) then EmitNow(request.event)
              else Delay(2 * SECOND)))
      && (request.OnProxy? ==>
            answer == ProxyAnswer(
              if ShownByWatcher(log, request.fingerprint.key, request.now) then ReplaceWatcher else AcceptHook))
  {
    var request := requests[j];
    LogAt(requests, lazy, j);
    MonotonePrefix(requests, j);
    if !request.OnCancel? {
      DecisionsFollowHistory(requests[..j], lazy, request.fingerprint.key, request.now);
      HistoryTells(Log(requests[..j], lazy), request.fingerprint.key, request.now);
      CapabilityIsLogged(requests[..j], lazy, request.fingerprint.projectPath, request.now);
    }
  }

  // ---------------------------------------------------------------------------------------------
  // The arbiter object
  // ---------------------------------------------------------------------------------------------

  class ApprovalArbiter {
    var capabilities: map<string, Capability>
    var pendingCandidates: map<string, PendingApproval>
    var recentEmissions: seq<Emission>
    ghost var calls: seq<Request>

    ghost function View(): State
      reads this
    {
      State(capabilities, pendingCandidates, recentEmissions)
    }

    /** The tables are what replaying every call so far would leave. */
    ghost predicate Valid()
      reads this
    {
      View() == Replay(calls, true)
    }

    ghost function CallLog(): seq<Entry>
      reads this
    {
      Log(calls, true)
    }

    constructor ()
      ensures Valid() && calls == []
    {
      capabilities, pendingCandidates, recentEmissions, calls := map[], map[], [], [];
    }

    /** `retain`: keeps the emissions that are young enough, in order. No later cut of the list can tell. */
    method PruneRecent(now: int)
      modifies this`recentEmissions
      ensures recentEmissions == Within(old(recentEmissions), now)
      ensures forall e ::
        e in recentEmissions <==> e in old(recentEmissions) && now - e.emittedAt <= RECENT_EMISSION_TTL
      ensures forall later :: now <= later ==>
        Within(recentEmissions, later) == Within(old(recentEmissions), later)
    {
      ghost var all := recentEmissions;
      var kept := [];
      var i := 0;
      while i < |recentEmissions|
        invariant 0 <= i <= |recentEmissions|
        invariant kept == Within(recentEmissions[..i], now)
      {
        assert recentEmissions[..i + 1][..i] == recentEmissions[..i];
        if now - recentEmissions[i].emittedAt <= RECENT_EMISSION_TTL {
          kept := kept + [recentEmissions[i]];
        }
        i := i + 1;
      }
      assert recentEmissions[..i] == recentEmissions;
      recentEmissions := kept;
      forall e ensures e in kept <==> e in all && now - e.emittedAt <= RECENT_EMISSION_TTL {
        WithinContains(all, now, e);
      }
      forall later | now <= later ensures Within(kept, later) == Within(all, later) {
        WithinLater(all, now, later);
      }
    }

    /** What is returned was stored and still counts, or is Unknown because nothing stored does; writing it back
        changes what no project's capability is worth, now or at any later instant. */
    method CapabilityForScope(project: string, now: int) returns (effective: Capability)
      modifies this`capabilities
      ensures capabilities == old(capabilities)[project := effective]
      ensures effective == Effective(old(capabilities), project, now)
      ensures forall p, later :: now <= later ==>
        Effective(capabilities, p, later) == Effective(old(capabilities), p, later)
      ensures effective != Unknown ==> project in old(capabilities) && effective == old(capabilities)[project]
      ensures effective.Active? ==> now - effective.lastSeenAt <= ACTIVE_TTL
      ensures effective.Inactive? ==> now - effective.lastFallbackAt <= INACTIVE_TTL
      ensures effective == Unknown ==> forall later :: now <= later ==>
        Effective(old(capabilities), project, later) == Unknown
    {
      var capability := if project in capabilities then capabilities[project] else Unknown;
      match capability {
        case Active(lastSeenAt, _) =>
          effective := if now - lastSeenAt > ACTIVE_TTL then Unknown else capability;
        case Inactive(lastFallbackAt) =>
          effective := if now - lastFallbackAt > INACTIVE_TTL then Unknown else capability;
        case Unknown =>
          effective := Unknown;
      }
      capabilities := capabilities[project := effective];
    }

    method RecordEmission(fp: Fingerprint, source: Source, now: int)
      modifies this`recentEmissions
      ensures recentEmissions == old(recentEmissions) + [Emission(fp, source, now)]
    {
      recentEmissions := recentEmissions + [Emission(fp, source, now)];
    }

    method OnWatcherApproval(fp: Fingerprint, event: Event, now: int) returns (decision: WatcherDecision)
      requires Valid()
      modifies this
      ensures Valid() && calls == old(calls) + [OnWatcher(fp, event, now)]
      ensures CallLog() == old(CallLog()) + [Entry(OnWatcher(fp, event, now), WatcherAnswer(decision))]
      ensures Monotone(calls) ==>
        var history := History(old(CallLog()));
        var capability := CapabilityFromLog(LastProxy(old(CallLog()), fp.projectPath),
                                            Misses(old(CallLog()), fp.projectPath), now);
        decision == if ProxiedRecently(history, fp.key, now) then Suppress
                    else if capability.Inactive? then EmitNow(event)
                    else Delay(WATCHER_APPROVAL_DELAY)
      ensures pendingCandidates == if decision.Delay? then
                                     old(pendingCandidates)[fp.key := PendingApproval(fp, event, now)]
                                   else old(pendingCandidates)
    {
      ghost var before, request := View(), OnWatcher(fp, event, now);
      PruneRecent(now);
      if AnyProxied(recentEmissions, fp.key) {
        decision := Suppress;
      } else {
        var capability := CapabilityForScope(fp.projectPath, now);
        match capability {
          case Inactive(_) =>
            RecordEmission(fp, Watcher, now);
            decision := EmitNow(event);
          case _ =>
            pendingCandidates := pendingCandidates[fp.key := PendingApproval(fp, event, now)];
            decision := Delay(WATCHER_APPROVAL_DELAY);
        }
      }
      assert (View(), WatcherAnswer(decision)) == Step(before, request, true);
      Extend(request);
    }

    method OnProxyApproval(fp: Fingerprint, source: ProxySource, now: int) returns (decision: ProxyDecision)
      requires Valid()
      modifies this
      ensures Valid() && calls == old(calls) + [OnProxy(fp, source, now)]
      ensures CallLog() == old(CallLog()) + [Entry(OnProxy(fp, source, now), ProxyAnswer(decision))]
      ensures Monotone(calls) ==>
        (decision == ReplaceWatcher <==> WatchedRecently(History(old(CallLog())), fp.key, now))
      ensures pendingCandidates == old(pendingCandidates) - {fp.key}
    {
      ghost var before, request := View(), OnProxy(fp, source, now);
      PruneRecent(now);
      pendingCandidates := pendingCandidates - {fp.key};
      var wasWatcherFallback := AnyWatched(recentEmissions, fp.key);
      capabilities := capabilities[fp.projectPath := Active(now, 0)];
      RecordEmission(fp, source, now);
      decision := if wasWatcherFallback then ReplaceWatcher else AcceptHook;
      assert (View(), ProxyAnswer(decision)) == Step(before, request, true);
      Extend(request);
    }

    method ExpireCandidate(fp: Fingerprint, now: int) returns (expired: Option<Event>)
      requires Valid()
      modifies this
      ensures Valid() && calls == old(calls) + [OnExpire(fp, now)]
      ensures CallLog() == old(CallLog()) + [Entry(OnExpire(fp, now), ExpireAnswer(expired))]
      ensures expired == if fp.key in old(pendingCandidates) then Some(old(pendingCandidates)[fp.key].event) else None
      ensures pendingCandidates == old(pendingCandidates) - {fp.key}
    {
      ghost var before, request := View(), OnExpire(fp, now);
      PruneRecent(now);
      if fp.key !in pendingCandidates {
        expired := None;
        assert pendingCandidates - {fp.key} == pendingCandidates;
      } else {
        var candidate := pendingCandidates[fp.key];
        pendingCandidates := pendingCandidates - {fp.key};
        var capability := CapabilityForScope(fp.projectPath, now);
        capabilities := capabilities[fp.projectPath := AfterMiss(capability, now)];
        assert capabilities == before.capabilities[fp.projectPath := AfterMiss(capability, now)];
        RecordEmission(fp, Watcher, now);
        expired := Some(candidate.event);
      }
      assert (View(), ExpireAnswer(expired)) == Step(before, request, true);
      Extend(request);
    }

    /** Drops one waiting candidate with this resolve key, when there is one. */
    method CancelPendingByAttentionResolveKey(resolveKey: string) returns (removed: bool)
      requires Valid()
      modifies this
      ensures Valid()
      ensures removed <==> exists key :: Cancels(old(pendingCandidates), key, resolveKey)
      ensures exists pick ::
        && GoodPick(old(pendingCandidates), resolveKey, pick)
        && calls == old(calls) + [OnCancel(resolveKey, pick)]
        && pendingCandidates == if removed then old(pendingCandidates) - {pick} else old(pendingCandidates)
    {
      ghost var before, request := View(), OnCancel(resolveKey, "");
      if key :| key in pendingCandidates && Cancels(pendingCandidates, key, resolveKey) {
        request := OnCancel(resolveKey, key);
        pendingCandidates := pendingCandidates - {key};
        removed := true;
      } else {
        removed := false;
      }
      assert GoodPick(before.pending, resolveKey, request.pick);
      assert (View(), CancelAnswer(removed)) == Step(before, request, true);
      Extend(request);
    }

    ghost method Extend(request: Request)
      requires View() == Step(Replay(calls, true), request, true).0
      modifies this`calls
      ensures calls == old(calls) + [request] && Valid()
      ensures CallLog() == old(CallLog()) + [Entry(request, Step(Replay(old(calls), true), request, true).1)]
      ensures Monotone(calls) && !request.OnCancel? ==>
        var log, now := old(CallLog()), request.now;
        var project, key := request.fingerprint.projectPath, request.fingerprint.key;
        var s := Replay(old(calls), true);
        && (AnyProxied(Within(s.recent, now), key) <==> ProxiedRecently(History(log), key, now))
        && (AnyWatched(Within(s.recent, now), key) <==> WatchedRecently(History(log), key, now))
        && Effective(s.capabilities, project, now)
           == CapabilityFromLog(LastProxy(log, project), Misses(log, project), now)
    {
      ghost var before := calls;
      calls := calls + [request];
      assert calls[..|calls| - 1] == before;
      if Monotone(calls) && !request.OnCancel? {
        MonotonePrefix(calls, |before|);
        DecisionsFollowHistory(before, true, request.fingerprint.key, request.now);
        CapabilityIsLogged(before, true, request.fingerprint.projectPath, request.now);
      }
    }
  }
}
