/** A hook helper waiting for the decision on its approval request (crates/niuma-cli/src/hook_runtime.rs),
    interleaved with the clock, the watchdog and every other client of the request list.

    The helper's loop is a machine whose phases are the points between its API calls, because other
    clients act there. `limit` bounds how long the create call and each loop iteration may take. */
module HookProxy {
  import opened Wrappers
  import opened ApprovalLifecycle
  import HookJson

  const SECOND: int := 1_000_000_000
  const PROXY_TIMEOUT: int := 600 * SECOND
  const POLL_INTERVAL: int := 500_000_000
  const HEARTBEAT_INTERVAL: int := 2 * SECOND
  const STALE_AFTER: int := 30 * SECOND

  datatype Phase =
    | Creating              // the create call has not reached the server
    | Created               // the server holds the request, its answer is on the way
    | Checking              // in the loop body, before the heartbeat test
    | Beating               // the heartbeat call has not reached the server
    | Beaten                // it has, `lastHeartbeat` is not reset yet
    | Polling               // about to read the decision
    | Sleeping(until: int)
    | Returning             // the deadline passed
    | Done(printed: Option<DecisionKind>)

  /** `since` is when the create call, or else the current loop iteration, began. */
  datatype Helper = Helper(phase: Phase, since: int, lastHeartbeat: int, deadline: int)

  datatype World = World(now: int, requests: seq<ApprovalRequest>, helper: Helper)

  datatype Step =
    | Tick(to: int)
    | Other(op: Op)
    | CreateStored(tool: ToolKind, details: string)
    | CreateRefused
    | EnterLoop
    | Check
    | Beat
    | BeatLost
    | BeatDone
    | ReadDecision
    | ReadFailed
    | Wake
    | HandBack(toolName: string)

  /** The record the create endpoint builds. */
  function BuildRequest(id: string, tool: ToolKind, details: string, channel: Channel, now: int): ApprovalRequest {
    ApprovalRequest(id, tool, details, Pending, None, None, None, now, now,
                    if channel.HookProxy? then Active else NoProxy,
                    if channel.HookProxy? then Some(now) else None,
                    None, channel)
  }

  /** The helper is between its stored create call and the end of its polling loop. */
  predicate Live(phase: Phase) {
    phase.Created? || phase.Checking? || phase.Beating? || phase.Beaten? || phase.Polling? || phase.Sleeping?
  }

  /** Other clients act at the server's present time, and create requests through the endpoint. */
  predicate IsCallAt(op: Op, now: int) {
    match op
    case Create(r) => r == BuildRequest(r.id, r.tool, r.details, r.channel, now)
    case Sweep(at, staleAfter) => at == now && staleAfter == STALE_AFTER
    case _ => op.now == now
  }

  predicate Enabled(w: World, step: Step, limit: int) {
    var phase := w.helper.phase;
    match step
    case Tick(to) => w.now <= to && ((Live(phase) || phase.Creating?) ==> to <= w.helper.since + limit)
    case Other(op) => IsCallAt(op, w.now)
    case CreateStored(_, _) => phase.Creating?
    case CreateRefused => phase.Creating? || phase.Created?
    case EnterLoop => phase.Created?
    case Check => phase.Checking?
    case Beat => phase.Beating?
    case BeatLost => phase.Beating?
    case BeatDone => phase.Beaten?
    case ReadDecision => phase.Polling?
    case ReadFailed => phase.Polling?
    case Wake => phase.Sleeping? && phase.until <= w.now
    case HandBack(_) => phase.Returning?
  }

  function Next(w: World, step: Step, id: string): World {
    var h := w.helper;
    match step
    case Tick(to) => w.(now := to)
    case Other(op) => w.(requests := Apply(w.requests, op))
    case CreateStored(tool, details) =>
      w.(requests := Apply(w.requests, Create(BuildRequest(id, tool, details, HookProxy, w.now))),
         helper := h.(phase := Created))
    case CreateRefused => w.(helper := h.(phase := Done(None)))
    case EnterLoop => w.(helper := Helper(Checking, w.now, w.now, w.now + PROXY_TIMEOUT))
    case Check => w.(helper := h.(phase := if w.now - h.lastHeartbeat >= HEARTBEAT_INTERVAL then Beating else Polling))
    case Beat => w.(requests := Apply(w.requests, Heartbeat(id, w.now)), helper := h.(phase := Beaten))
    case BeatLost => w.(helper := h.(phase := Beaten))
    case BeatDone => w.(helper := h.(phase := Polling, lastHeartbeat := w.now))
    case ReadDecision =>
      w.(helper := h.(phase := match PollOf(Find(w.requests, id))
                               case PollError => Done(None)
                               case PollNothing => Sleeping(w.now + POLL_INTERVAL)
                               case PollDecision(kind) => Done(Some(kind))))
    case ReadFailed => w.(helper := h.(phase := Done(None)))
    case Wake =>
      w.(helper := if w.now < h.deadline then h.(phase := Checking, since := w.now) else h.(phase := Returning))
    case HandBack(toolName) =>
      w.(requests := Apply(w.requests, Return(id, "hook-helper", "timeout",
                                              "10 分钟内未处理，请回到 " + toolName + " 中操作", w.now)),
         helper := h.(phase := Done(None)))
  }

  ghost predicate Legal(w: World, steps: seq<Step>, id: string, limit: int)
    decreases |steps|
  {
    steps == [] || (Enabled(w, steps[0], limit) && Legal(Next(w, steps[0], id), steps[1..], id, limit))
  }

  function Run(w: World, steps: seq<Step>, id: string): World
    decreases |steps|
  {
    if steps == [] then w else Run(Next(w, steps[0], id), steps[1..], id)
  }

  /** The helper begins its create call; the list may already hold anything. */
  predicate Starts(w: World) {
    w.helper.phase.Creating? && w.helper.since == w.now
  }

  ghost predicate Reliable(steps: seq<Step>) {
    BeatLost !in steps
  }

  // ---------------------------------------------------------------------------------------------
  // How old a live helper's heartbeat can be
  // ---------------------------------------------------------------------------------------------

  /** A request the watchdog may take away: pending, with an active hook proxy. */
  predicate Watched(record: Option<ApprovalRequest>) {
    record.Some? && record.value.status.Pending? && record.value.channel.HookProxy? && record.value.proxyStatus.Active?
  }

  predicate StampedSince(record: Option<ApprovalRequest>, at: int) {
    Watched(record) ==> record.value.lastHeartbeatAt.Some? && at <= record.value.lastHeartbeatAt.value
  }

  predicate OnTime(w: World, id: string, limit: int) {
    var h, record := w.helper, Find(w.requests, id);
    && (Live(h.phase) || h.phase.Creating? ==> h.since <= w.now <= h.since + limit)
    && match h.phase
       case Created => StampedSince(record, h.since)
       case Beaten => StampedSince(record, h.since)
       case Checking => StampedSince(record, h.lastHeartbeat - limit)
           && h.lastHeartbeat <= h.since < h.lastHeartbeat + HEARTBEAT_INTERVAL + limit
       case Beating => StampedSince(record, h.lastHeartbeat - limit)
           && h.lastHeartbeat <= h.since < h.lastHeartbeat + HEARTBEAT_INTERVAL + limit
       case Polling => StampedSince(record, h.lastHeartbeat - limit)
           && h.lastHeartbeat <= w.now && h.since < h.lastHeartbeat + HEARTBEAT_INTERVAL
       case Sleeping(_) => StampedSince(record, h.lastHeartbeat - limit)
           && h.lastHeartbeat <= w.now && h.since < h.lastHeartbeat + HEARTBEAT_INTERVAL
       case _ => true
  }

  /** Other clients can only refresh the heartbeat of a watched request, or stop it being watched. */
  lemma {:induction false} OthersKeepStamp(requests: seq<ApprovalRequest>, op: Op, now: int, id: string, at: int)
    requires IsCallAt(op, now) && at <= now && StampedSince(Find(requests, id), at)
    ensures StampedSince(Find(Apply(requests, op), id), at)
  {
    ListIsIndependentRecords(requests, op, id);
  }

  lemma {:induction false} OnTimeKept(w: World, step: Step, id: string, limit: int)
    requires limit >= 0 && OnTime(w, id, limit) && Enabled(w, step, limit) && step != BeatLost
    ensures OnTime(Next(w, step, id), id, limit)
  {
    var h := w.helper;
    match step
    case Other(op) =>
      if Live(h.phase) {
        var at := if h.phase.Created? || h.phase.Beaten? then h.since else h.lastHeartbeat - limit;
        OthersKeepStamp(w.requests, op, w.now, id, at);
      }
    case CreateStored(tool, details) =>
      ListIsIndependentRecords(w.requests, Create(BuildRequest(id, tool, details, HookProxy, w.now)), id);
    case Beat =>
      ListIsIndependentRecords(w.requests, Heartbeat(id, w.now), id);
    case _ =>
  }

  lemma {:induction false} AlwaysOnTime(w: World, steps: seq<Step>, id: string, limit: int)
    requires limit >= 0 && OnTime(w, id, limit) && Legal(w, steps, id, limit) && Reliable(steps)
    ensures OnTime(Run(w, steps, id), id, limit)
    decreases |steps|
  {
    if steps != [] {
      OnTimeKept(w, steps[0], id, limit);
      AlwaysOnTime(Next(w, steps[0], id), steps[1..], id, limit);
    }
  }

  /** While the helper lives, its request's stamp is younger than 2 s + 3 limits. At a `Beat` step this is
      the distance between two consecutive heartbeat stamps. */
  lemma {:induction false} LiveStampAge(w: World, steps: seq<Step>, id: string, limit: int)
    requires limit >= 0 && Starts(w) && Legal(w, steps, id, limit) && Reliable(steps)
    ensures var w' := Run(w, steps, id); var record := Find(w'.requests, id);
      Live(w'.helper.phase) && Watched(record) ==>
        && record.value.lastHeartbeatAt.Some?
        && w'.now - record.value.lastHeartbeatAt.value < HEARTBEAT_INTERVAL + 3 * limit
  {
    AlwaysOnTime(w, steps, id, limit);
  }

  /** If the run leaves the helper live, a sweep at its end does not take the request away. */
  ghost predicate SafeRun(w: World, steps: seq<Step>, id: string, limit: int) {
    var w' := Run(w, steps, id);
    Starts(w) && Legal(w, steps, id, limit) && Reliable(steps) && Live(w'.helper.phase)
    && Find(w'.requests, id).Some? ==>
      !Accepts(Sweep(w'.now, STALE_AFTER), Find(w'.requests, id).value)
  }

  /** No sweep, whenever it runs, takes a request away from a helper still polling. */
  ghost predicate NeverSweptWhileLive(limit: int) {
    forall w, steps, id :: SafeRun(w, steps, id, limit)
  }

  lemma {:induction false} NeverSweptWhenFast(limit: int)
    requires 0 <= limit && HEARTBEAT_INTERVAL + 3 * limit <= STALE_AFTER + 1
    ensures NeverSweptWhileLive(limit)
  {
    forall w, steps, id ensures SafeRun(w, steps, id, limit) {
      if Starts(w) && Legal(w, steps, id, limit) && Reliable(steps) {
        LiveStampAge(w, steps, id, limit);
      }
    }
  }

  /** The least limit at which the watchdog can overtake a live helper. */
  const SLOW: int := 9_333_333_334

  function SlowRun(): seq<Step> {
    [CreateStored(Codex, ""), Tick(SLOW), EnterLoop, Check, ReadDecision,
     Tick(SLOW + HEARTBEAT_INTERVAL - 1), Wake, Check, ReadDecision,
     Tick(2 * SLOW + HEARTBEAT_INTERVAL - 1), Wake, Check,
     Tick(3 * SLOW + HEARTBEAT_INTERVAL - 1)]
  }

  lemma {:induction false} RunStep(w: World, steps: seq<Step>, id: string, limit: int)
    requires steps != [] && Enabled(w, steps[0], limit)
    ensures Legal(w, steps, id, limit) == Legal(Next(w, steps[0], id), steps[1..], id, limit)
    ensures Run(w, steps, id) == Run(Next(w, steps[0], id), steps[1..], id)
  {}

  lemma {:induction false} SlowRunOvertakes(limit: int)
    requires limit >= SLOW
    ensures !NeverSweptWhileLive(limit)
  {
    SlowRunFrom(SlowWorld(0), 0, "r", limit);
    assert SlowRun()[0..] == SlowRun();
    SlowEnd();
    assert !SafeRun(SlowWorld(0), SlowRun(), "r", limit);
  }

  lemma {:induction false} SlowEnd()
    ensures Reliable(SlowRun()) && Starts(SlowWorld(0)) && Live(SlowWorld(13).helper.phase)
    ensures Find(SlowWorld(13).requests, "r").Some?
    ensures Accepts(Sweep(SlowWorld(13).now, STALE_AFTER), Find(SlowWorld(13).requests, "r").value)
  {
    var r := BuildRequest("r", Codex, "", HookProxy, 0);
    assert SlowWorld(13).requests == [r];
    FirstIsFound([r], "r", 0);
    assert BeatLost !in SlowRun();
  }

  /** The world of the slow run before its step `k`. */
  function SlowWorld(k: nat): World
    requires k <= 13
  {
    var r := BuildRequest("r", Codex, "", HookProxy, 0);
    var waited := HEARTBEAT_INTERVAL - 1;
    var t1, t2, t3 := SLOW + waited, 2 * SLOW + waited, 3 * SLOW + waited;
    var d := SLOW + PROXY_TIMEOUT;
    if k == 0 then World(0, [], Helper(Creating, 0, 0, 0))
    else if k == 1 then World(0, [r], Helper(Created, 0, 0, 0))
    else if k == 2 then World(SLOW, [r], Helper(Created, 0, 0, 0))
    else if k == 3 then World(SLOW, [r], Helper(Checking, SLOW, SLOW, d))
    else if k == 4 then World(SLOW, [r], Helper(Polling, SLOW, SLOW, d))
    else if k == 5 then World(SLOW, [r], Helper(Sleeping(SLOW + POLL_INTERVAL), SLOW, SLOW, d))
    else if k == 6 then World(t1, [r], Helper(Sleeping(SLOW + POLL_INTERVAL), SLOW, SLOW, d))
    else if k == 7 then World(t1, [r], Helper(Checking, t1, SLOW, d))
    else if k == 8 then World(t1, [r], Helper(Polling, t1, SLOW, d))
    else if k == 9 then World(t1, [r], Helper(Sleeping(t1 + POLL_INTERVAL), t1, SLOW, d))
    else if k == 10 then World(t2, [r], Helper(Sleeping(t1 + POLL_INTERVAL), t1, SLOW, d))
    else if k == 11 then World(t2, [r], Helper(Checking, t2, SLOW, d))
    else if k == 12 then World(t2, [r], Helper(Beating, t2, SLOW, d))
    else World(t3, [r], Helper(Beating, t2, SLOW, d))
  }

  lemma {:induction false} SlowStep(k: nat, limit: int)
    requires k < 13 && limit >= SLOW
    ensures Enabled(SlowWorld(k), SlowRun()[k], limit)
    ensures Next(SlowWorld(k), SlowRun()[k], "r") == SlowWorld(k + 1)
  {}

  lemma {:induction false} SlowRunFrom(w: World, k: nat, id: string, limit: int)
    requires k <= 13 && w == SlowWorld(k) && id == "r" && limit >= SLOW
    ensures Legal(w, SlowRun()[k..], id, limit)
    ensures Run(w, SlowRun()[k..], id) == SlowWorld(13)
    decreases 13 - k
  {
    if k < 13 {
      SlowStep(k, limit);
      assert SlowRun()[k..][0] == SlowRun()[k] && SlowRun()[k..][1..] == SlowRun()[k + 1..];
      RunStep(w, SlowRun()[k..], id, limit);
      SlowRunFrom(SlowWorld(k + 1), k + 1, id, limit);
    }
  }

  /** The watchdog never overtakes a live helper exactly when 2 s + 3 limits stay within 30 s (to the
      nanosecond, since the age stays strictly below that sum). */
  lemma {:induction false} TimingBoundIsExact(limit: int)
    requires limit >= 0
    ensures NeverSweptWhileLive(limit) <==> HEARTBEAT_INTERVAL + 3 * limit <= STALE_AFTER + 1
  {
    if HEARTBEAT_INTERVAL + 3 * limit <= STALE_AFTER + 1 {
      NeverSweptWhenFast(limit);
    } else {
      SlowRunOvertakes(limit);
    }
  }

  // ---------------------------------------------------------------------------------------------
  // What the helper printed stays true
  // ---------------------------------------------------------------------------------------------

  predicate PrintedAgrees(w: World, id: string) {
    w.helper.phase.Done? && w.helper.phase.printed.Some? ==>
      PollOf(Find(w.requests, id)) == PollDecision(w.helper.phase.printed.value)
  }

  lemma {:induction false} PrintedAgreesKept(w: World, step: Step, id: string, limit: int)
    requires PrintedAgrees(w, id) && Enabled(w, step, limit)
    ensures PrintedAgrees(Next(w, step, id), id)
  {
    if step.Other? {
      ListIsIndependentRecords(w.requests, step.op, id);
    }
  }

  /** At every moment of every run, a printed decision is the request's status, however calls fail or interleave. */
  lemma {:induction false} PrintedDecisionHolds(w: World, steps: seq<Step>, id: string, limit: int)
    requires PrintedAgrees(w, id) && Legal(w, steps, id, limit)
    ensures PrintedAgrees(Run(w, steps, id), id)
    decreases |steps|
  {
    if steps != [] {
      PrintedAgreesKept(w, steps[0], id, limit);
      PrintedDecisionHolds(Next(w, steps[0], id), steps[1..], id, limit);
    }
  }

  // ---------------------------------------------------------------------------------------------
  // How the loop ends
  // ---------------------------------------------------------------------------------------------

  /** Reading the decision: a decision made is printed, a missing request ends the loop, and otherwise the helper
      reads again after half a second. */
  lemma {:induction false} ReadTells(w: World, id: string, limit: int)
    requires Enabled(w, ReadDecision, limit)
    ensures var record, phase := Find(w.requests, id), Next(w, ReadDecision, id).helper.phase;
      && (record == None ==> phase == Done(None))
      && (record != None && record.value.status == Allowed ==> phase == Done(Some(Allow)))
      && (record != None && record.value.status == Denied ==> phase == Done(Some(Deny)))
      && (record != None && record.value.status !in {Allowed, Denied} ==> phase == Sleeping(w.now + 500_000_000))
  {}

  /** A refused create or a failed reading ends the helper with nothing printed. */
  lemma {:induction false} FailuresEnd(w: World, id: string)
    ensures Next(w, CreateRefused, id) == w.(helper := w.helper.(phase := Done(None)))
    ensures Next(w, ReadFailed, id) == w.(helper := w.helper.(phase := Done(None)))
  {}

  /** A beat that arrives renews the stamp of a pending request. */
  lemma {:induction false} BeatRenews(w: World, id: string)
    requires Find(w.requests, id).Some? && Find(w.requests, id).value.status == Pending
    ensures Find(Next(w, Beat, id).requests, id).Some?
    ensures Find(Next(w, Beat, id).requests, id).value.lastHeartbeatAt == Some(w.now)
    ensures Find(Next(w, Beat, id).requests, id).value.status == Pending
  {
    ListIsIndependentRecords(w.requests, Heartbeat(id, w.now), id);
  }

  predicate NoLongerPending(record: Option<ApprovalRequest>) {
    record.Some? && !record.value.status.Pending?
  }

  /** From its stored create call on, the helper's request is in the list. */
  predicate IsStored(w: World, id: string) {
    Live(w.helper.phase) || w.helper.phase.Returning? ==> Find(w.requests, id).Some?
  }

  lemma {:induction false} OpKeepsRecord(requests: seq<ApprovalRequest>, op: Op, id: string)
    ensures Find(requests, id).Some? ==> Find(Apply(requests, op), id).Some?
    ensures NoLongerPending(Find(requests, id)) ==> NoLongerPending(Find(Apply(requests, op), id))
  {
    ListIsIndependentRecords(requests, op, id);
  }

  lemma {:induction false} StepKeepsStored(w: World, step: Step, id: string, limit: int)
    requires IsStored(w, id) && Enabled(w, step, limit)
    ensures IsStored(Next(w, step, id), id)
    ensures NoLongerPending(Find(w.requests, id)) ==> NoLongerPending(Find(Next(w, step, id).requests, id))
  {
    match step
    case Other(op) =>
      OpKeepsRecord(w.requests, op, id);
    case CreateStored(tool, details) =>
      var op := Create(BuildRequest(id, tool, details, HookProxy, w.now));
      OpKeepsRecord(w.requests, op, id);
      ListIsIndependentRecords(w.requests, op, id);
    case Beat =>
      OpKeepsRecord(w.requests, Heartbeat(id, w.now), id);
    case HandBack(toolName) =>
      OpKeepsRecord(w.requests, ReturnOp(w, toolName, id), id);
    case _ =>
  }

  function ReturnOp(w: World, toolName: string, id: string): Op {
    Return(id, "hook-helper", "timeout", "10 分钟内未处理，请回到 " + toolName + " 中操作", w.now)
  }

  /** Handing back returns a request that is still pending to its tool, and leaves any other as it is. */
  lemma {:induction false} HandBackReturns(w: World, toolName: string, id: string, limit: int)
    requires IsStored(w, id) && Enabled(w, HandBack(toolName), limit)
    ensures var before, after := Find(w.requests, id), Find(Next(w, HandBack(toolName), id).requests, id);
      && before.Some? && after.Some?
      && if before.value.status == Pending then
           after.value == before.value.(
             status := if before.value.tool == Codex then ReturnedToCodex else ReturnedToTool,
             decidedBy := Some("hook-helper"), decidedSource := Some("timeout"), updatedAt := w.now,
             reason := Some("10 分钟内未处理，请回到 " + toolName + " 中操作"))
         else after == before
    ensures NoLongerPending(Find(Next(w, HandBack(toolName), id).requests, id))
  {
    ListIsIndependentRecords(w.requests, ReturnOp(w, toolName, id), id);
  }

  lemma {:induction false} SettledStays(w: World, steps: seq<Step>, id: string, limit: int)
    requires IsStored(w, id) && Legal(w, steps, id, limit)
    ensures IsStored(Run(w, steps, id), id)
    ensures NoLongerPending(Find(w.requests, id)) ==> NoLongerPending(Find(Run(w, steps, id).requests, id))
    decreases |steps|
  {
    if steps != [] {
      StepKeepsStored(w, steps[0], id, limit);
      SettledStays(Next(w, steps[0], id), steps[1..], id, limit);
    }
  }

  /** In every run, from the moment a helper handed its request back, the request is there and is no longer pending:
      no decision can be lost on a helper that has given up. */
  lemma {:induction false} NotPendingAfterHandBack(w: World, steps: seq<Step>, id: string, limit: int)
    requires IsStored(w, id) && Legal(w, steps, id, limit)
    requires exists i :: 0 <= i < |steps| && steps[i].HandBack?
    ensures NoLongerPending(Find(Run(w, steps, id).requests, id))
    decreases |steps|
  {
    var next, rest := Next(w, steps[0], id), steps[1..];
    StepKeepsStored(w, steps[0], id, limit);
    if steps[0].HandBack? {
      HandBackReturns(w, steps[0].toolName, id, limit);
      SettledStays(next, rest, id, limit);
    } else {
      var i :| 0 <= i < |steps| && steps[i].HandBack?;
      assert rest[i - 1] == steps[i];
      NotPendingAfterHandBack(next, rest, id, limit);
    }
  }

  predicate InLoop(phase: Phase) {
    phase.Checking? || phase.Beating? || phase.Beaten? || phase.Polling? || phase.Sleeping?
  }

  /** The loop entered at `start`: no iteration begins later than ten minutes after that, and none is given up
      sooner. */
  predicate LoopKeepsTime(h: Helper, now: int, start: int) {
    && (InLoop(h.phase) ==> h.since < h.deadline == start + 600 * SECOND)
    && (h.phase.Returning? ==> now >= start + 600 * SECOND)
    && !h.phase.Creating? && !h.phase.Created?
  }

  lemma {:induction false} StepKeepsTime(w: World, step: Step, id: string, limit: int, start: int)
    requires LoopKeepsTime(w.helper, w.now, start) && Enabled(w, step, limit)
    ensures LoopKeepsTime(Next(w, step, id).helper, Next(w, step, id).now, start)
  {}

  lemma {:induction false} RunKeepsTime(w: World, steps: seq<Step>, id: string, limit: int, start: int)
    requires LoopKeepsTime(w.helper, w.now, start) && Legal(w, steps, id, limit)
    ensures LoopKeepsTime(Run(w, steps, id).helper, Run(w, steps, id).now, start)
    decreases |steps|
  {
    if steps != [] {
      StepKeepsTime(w, steps[0], id, limit, start);
      RunKeepsTime(Next(w, steps[0], id), steps[1..], id, limit, start);
    }
  }

  /** In every run a helper goes on polling for ten minutes after it entered its loop, and no longer. */
  lemma {:induction false} PollsForTenMinutes(w: World, steps: seq<Step>, id: string, limit: int)
    requires Legal(w, [EnterLoop] + steps, id, limit)
    ensures LoopKeepsTime(Run(w, [EnterLoop] + steps, id).helper, Run(w, [EnterLoop] + steps, id).now, w.now)
  {
    assert ([EnterLoop] + steps)[1..] == steps;
    RunKeepsTime(Next(w, EnterLoop, id), steps, id, limit, w.now);
  }

  /** How far a helper that began at `start` can have come. */
  predicate IsYoung(w: World, start: int, limit: int) {
    && (Live(w.helper.phase) || w.helper.phase.Creating? ==> w.now <= w.helper.since + limit)
    && (w.helper.phase.Creating? || w.helper.phase.Created? ==> w.helper.since == start)
    && (InLoop(w.helper.phase) ==> w.helper.since < w.helper.deadline <= start + limit + 600 * SECOND)
  }

  lemma {:induction false} StepKeepsYoung(w: World, step: Step, id: string, start: int, limit: int)
    requires limit >= 0 && IsYoung(w, start, limit) && Enabled(w, step, limit)
    ensures IsYoung(Next(w, step, id), start, limit)
  {}

  lemma {:induction false} RunKeepsYoung(w: World, steps: seq<Step>, id: string, start: int, limit: int)
    requires limit >= 0 && IsYoung(w, start, limit) && Legal(w, steps, id, limit)
    ensures IsYoung(Run(w, steps, id), start, limit)
    decreases |steps|
  {
    if steps != [] {
      StepKeepsYoung(w, steps[0], id, start, limit);
      RunKeepsYoung(Next(w, steps[0], id), steps[1..], id, start, limit);
    }
  }

  /** Where calls take at most half a minute, a helper stops polling before the tool's own time limit for its hook has
      passed: the tool never cuts off a helper that could still report a decision. */
  lemma {:induction false} HookOutlastsPolling(w: World, steps: seq<Step>, id: string, limit: int)
    requires 0 <= limit <= 30 * SECOND && Starts(w) && Legal(w, steps, id, limit)
    requires Live(Run(w, steps, id).helper.phase)
    ensures Run(w, steps, id).now - w.now < HookJson.TIMEOUT_SECONDS * SECOND
  {
    RunKeepsYoung(w, steps, id, w.now, limit);
  }

  // ---------------------------------------------------------------------------------------------
  // A decision gets through
  // ---------------------------------------------------------------------------------------------

  /** The helper's own way from where it is to its next reading of the decision, even if its heartbeat is lost. */
  function WayToReading(w: World): seq<Step> {
    match w.helper.phase
    case Creating => [CreateStored(Codex, ""), EnterLoop, Check, ReadDecision]
    case Created => [EnterLoop, Check, ReadDecision]
    case Checking =>
      if w.now - w.helper.lastHeartbeat >= 2 * SECOND then [Check, BeatLost, BeatDone, ReadDecision]
      else [Check, ReadDecision]
    case Beating => [BeatLost, BeatDone, ReadDecision]
    case Beaten => [BeatDone, ReadDecision]
    case Polling => [ReadDecision]
    case Sleeping(_) =>
      if w.now - w.helper.lastHeartbeat >= 2 * SECOND then [Wake, Check, BeatLost, BeatDone, ReadDecision]
      else [Wake, Check, ReadDecision]
    case _ => []
  }

  /** The helper is still to read the decision, and awake or due to wake before its deadline. */
  predicate WillRead(w: World) {
    || w.helper.phase.Creating?
    || (Live(w.helper.phase) && (w.helper.phase.Sleeping? ==> w.helper.phase.until <= w.now < w.helper.deadline))
  }

  lemma {:induction false} ReadsFromPolling(w: World, id: string, limit: int, kind: DecisionKind)
    requires w.helper.phase.Polling? && PollOf(Find(w.requests, id)) == PollDecision(kind)
    ensures Legal(w, [ReadDecision], id, limit)
    ensures Run(w, [ReadDecision], id) == w.(helper := w.helper.(phase := Done(Some(kind))))
  {
    RunStep(w, [ReadDecision], id, limit);
    assert [ReadDecision][1..] == [];
  }

  lemma {:induction false} ReadsFromBeating(w: World, id: string, limit: int, kind: DecisionKind)
    requires w.helper.phase.Beating? || w.helper.phase.Beaten?
    requires PollOf(Find(w.requests, id)) == PollDecision(kind)
    ensures Legal(w, WayToReading(w), id, limit)
    ensures Run(w, WayToReading(w), id).helper.phase == Done(Some(kind))
    decreases if w.helper.phase.Beating? then 1 else 0
  {
    var way := WayToReading(w);
    RunStep(w, way, id, limit);
    if w.helper.phase.Beating? {
      assert way[1..] == [BeatDone, ReadDecision];
      ReadsFromBeating(Next(w, BeatLost, id), id, limit, kind);
    } else {
      assert way[1..] == [ReadDecision];
      ReadsFromPolling(Next(w, BeatDone, id), id, limit, kind);
    }
  }

  lemma {:induction false} ReadsFromChecking(w: World, id: string, limit: int, kind: DecisionKind)
    requires w.helper.phase.Checking? && PollOf(Find(w.requests, id)) == PollDecision(kind)
    ensures Legal(w, WayToReading(w), id, limit)
    ensures Run(w, WayToReading(w), id).helper.phase == Done(Some(kind))
  {
    var way, next := WayToReading(w), Next(w, Check, id);
    RunStep(w, way, id, limit);
    if w.now - w.helper.lastHeartbeat >= 2 * SECOND {
      assert way[1..] == [BeatLost, BeatDone, ReadDecision];
      ReadsFromBeating(next, id, limit, kind);
    } else {
      assert way[1..] == [ReadDecision];
      ReadsFromPolling(next, id, limit, kind);
    }
  }

  lemma {:induction false} ReadsFromStart(w: World, id: string, limit: int, kind: DecisionKind)
    requires w.helper.phase.Creating? || w.helper.phase.Created?
    requires PollOf(Find(w.requests, id)) == PollDecision(kind)
    ensures Legal(w, WayToReading(w), id, limit)
    ensures Run(w, WayToReading(w), id).helper.phase == Done(Some(kind))
    decreases if w.helper.phase.Creating? then 1 else 0
  {
    var way := WayToReading(w);
    RunStep(w, way, id, limit);
    var next := Next(w, way[0], id);
    if w.helper.phase.Creating? {
      ListIsIndependentRecords(w.requests, Create(BuildRequest(id, Codex, "", HookProxy, w.now)), id);
      assert way[1..] == [EnterLoop, Check, ReadDecision];
      ReadsFromStart(next, id, limit, kind);
    } else {
      assert way[1..] == [Check, ReadDecision];
      ReadsFromChecking(next, id, limit, kind);
    }
  }

  /** Once the request is decided, a helper that has not finished prints that decision as soon as it gets to its next
      reading, and nothing but its own calls stands between. */
  lemma {:induction false} DecisionGetsPrinted(w: World, id: string, limit: int, kind: DecisionKind)
    requires WillRead(w) && PollOf(Find(w.requests, id)) == PollDecision(kind)
    ensures Legal(w, WayToReading(w), id, limit)
    ensures Run(w, WayToReading(w), id).helper.phase == Done(Some(kind))
  {
    match w.helper.phase
    case Sleeping(_) =>
      RunStep(w, WayToReading(w), id, limit);
      assert WayToReading(w)[1..] == WayToReading(Next(w, Wake, id));
      ReadsFromChecking(Next(w, Wake, id), id, limit, kind);
    case Polling => ReadsFromPolling(w, id, limit, kind);
    case Checking => ReadsFromChecking(w, id, limit, kind);
    case Beating => ReadsFromBeating(w, id, limit, kind);
    case Beaten => ReadsFromBeating(w, id, limit, kind);
    case _ => ReadsFromStart(w, id, limit, kind);
  }
}
