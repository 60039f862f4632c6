/** The life of an accepted approval request (crates/niuma-core/src/approval.rs): UI decisions, returns to
    the tool, resolution in the tool, proxy heartbeats and the watchdog sweep, all over one request list.

    `Apply` is one mutation of the list. The theorems follow one request id through arbitrary
    interleavings of mutations by any number of clients. */
module ApprovalLifecycle {
  import opened Wrappers

  datatype ToolKind = Codex | ClaudeCode | Custom(name: string)

  datatype Status = Pending | Allowed | Denied | ReturnedToCodex | ReturnedToTool | ResolvedInTool

  datatype ProxyStatus = NoProxy | Active | Lost

  datatype Channel = HookProxy | NiumaCodexRelay

  datatype DecisionKind = Allow | Deny

  /** `details` stands for the descriptive fields no mutation reads or writes. */
  datatype ApprovalRequest = ApprovalRequest(
    id: string, tool: ToolKind, details: string,
    status: Status,
    decidedBy: Option<string>, decidedSource: Option<string>, reason: Option<string>,
    createdAt: int, updatedAt: int,
    proxyStatus: ProxyStatus, lastHeartbeatAt: Option<int>, proxyLostAt: Option<int>,
    channel: Channel)

  datatype Mutation =
    | NoSuchRequest
    | Mutation(accepted: bool, request: ApprovalRequest)

  function ReturnedStatus(tool: ToolKind): Status {
    if tool.Codex? then ReturnedToCodex else ReturnedToTool
  }

  function DisplayName(tool: ToolKind): string {
    match tool
    case Codex => "Codex"
    case ClaudeCode => "Claude Code"
    case Custom(name) => name
  }

  predicate Undecided(r: ApprovalRequest) {
    r.status.Pending? || r.status.ReturnedToCodex? || r.status.ReturnedToTool?
  }

  function WithDecision(r: ApprovalRequest, kind: DecisionKind, who: string, source: string, reason: Option<string>,
                        now: int): ApprovalRequest
  {
    r.(status := if kind.Allow? then Allowed else Denied,
       decidedBy := Some(who), decidedSource := Some(source), reason := reason, updatedAt := now)
  }

  function WithReturn(r: ApprovalRequest, who: string, source: string, reason: string, now: int): ApprovalRequest {
    r.(status := ReturnedStatus(r.tool),
       decidedBy := Some(who), decidedSource := Some(source), reason := Some(reason), updatedAt := now)
  }

  function WithResolution(r: ApprovalRequest, who: string, reason: Option<string>, now: int): ApprovalRequest {
    r.(status := ResolvedInTool,
       decidedBy := Some(who), decidedSource := Some("tool_resolved"), reason := reason, updatedAt := now)
  }

  function WithHeartbeat(r: ApprovalRequest, now: int): ApprovalRequest {
    r.(proxyStatus := Active, lastHeartbeatAt := Some(now), updatedAt := now)
  }

  function LostReason(tool: ToolKind): string {
    "hook 代理已失联，请回到 " + DisplayName(tool) + " 中操作"
  }

  function WithLostProxy(r: ApprovalRequest, now: int): ApprovalRequest {
    r.(status := ReturnedStatus(r.tool), proxyStatus := Lost, proxyLostAt := Some(now),
       decidedBy := Some("hook-helper"), decidedSource := Some("proxy_lost"),
       reason := Some(LostReason(r.tool)), updatedAt := now)
  }

  /** A pending request that waits on a live hook proxy not heard of for longer than the limit. */
  predicate Stale(r: ApprovalRequest, now: int, staleAfter: int) {
    && r.lastHeartbeatAt.Some?
    && r.status.Pending? && r.channel.HookProxy? && r.proxyStatus.Active?
    && now - r.lastHeartbeatAt.value > staleAfter
  }

  // ---------------------------------------------------------------------------------------------
  // The request list
  // ---------------------------------------------------------------------------------------------

  /** The position of the first request with this id, or the length of the list. */
  function IndexOf(requests: seq<ApprovalRequest>, id: string): (i: nat)
    ensures i <= |requests|
    ensures i < |requests| ==> requests[i].id == id
    ensures forall k :: 0 <= k < i ==> requests[k].id != id
  {
    if requests == [] then 0 else if requests[0].id == id then 0 else 1 + IndexOf(requests[1..], id)
  }

  function Find(requests: seq<ApprovalRequest>, id: string): Option<ApprovalRequest> {
    var i := IndexOf(requests, id);
    if i < |requests| then Some(requests[i]) else None
  }

  datatype Op =
    | Create(request: ApprovalRequest)
    | Decide(id: string, kind: DecisionKind, who: string, source: string, reason: Option<string>, now: int)
    | Return(id: string, who: string, source: string, why: string, now: int)
    | Resolve(id: string, who: string, reason: Option<string>, now: int)
    | Heartbeat(id: string, now: int)
    | Sweep(now: int, staleAfter: int)

  /** Whether the operation is accepted for a request it addresses. */
  predicate Accepts(op: Op, r: ApprovalRequest) {
    match op
    case Create(_) => false
    case Decide(id, _, _, _, _, _) => id == r.id && Undecided(r)
    case Return(id, _, _, _, _) => id == r.id && r.status.Pending?
    case Resolve(id, _, _, _) => id == r.id && Undecided(r)
    case Heartbeat(id, _) => id == r.id && r.status.Pending?
    case Sweep(now, staleAfter) => Stale(r, now, staleAfter)
  }

  /** The record an accepted operation leaves; any other record is left as it was. */
  function Update(op: Op, r: ApprovalRequest): (r': ApprovalRequest)
    ensures r'.id == r.id && r'.tool == r.tool && r'.details == r.details && r'.createdAt == r.createdAt
    ensures r'.channel == r.channel
  {
    if !Accepts(op, r) then r
    else match op
      case Decide(_, kind, who, source, reason, now) => WithDecision(r, kind, who, source, reason, now)
      case Return(_, who, source, why, now) => WithReturn(r, who, source, why, now)
      case Resolve(_, who, reason, now) => WithResolution(r, who, reason, now)
      case Heartbeat(_, now) => WithHeartbeat(r, now)
      case Sweep(now, _) => WithLostProxy(r, now)
      case Create(_) => r
  }

  function SweepAll(requests: seq<ApprovalRequest>, now: int, staleAfter: int): (swept: seq<ApprovalRequest>)
    ensures |swept| == |requests|
    ensures forall i :: 0 <= i < |swept| ==> swept[i] == Update(Sweep(now, staleAfter), requests[i])
  {
    seq(|requests|, i requires 0 <= i < |requests| => Update(Sweep(now, staleAfter), requests[i]))
  }

  /** The results a sweep reports: the rewritten records, in list order. */
  function SweepResults(requests: seq<ApprovalRequest>, now: int, staleAfter: int): seq<Mutation> {
    if requests == [] then []
    else
      var n := |requests| - 1;
      SweepResults(requests[..n], now, staleAfter)
      + if Stale(requests[n], now, staleAfter) then [Mutation(true, WithLostProxy(requests[n], now))] else []
  }

  function Upsert(requests: seq<ApprovalRequest>, request: ApprovalRequest): seq<ApprovalRequest> {
    var i := IndexOf(requests, request.id);
    if i == |requests| then requests + [request]
    else if requests[i].status.Pending? then requests[i := request]
    else requests
  }

  function Apply(requests: seq<ApprovalRequest>, op: Op): seq<ApprovalRequest> {
    match op
    case Create(request) => Upsert(requests, request)
    case Sweep(now, staleAfter) => SweepAll(requests, now, staleAfter)
    case _ =>
      var i := IndexOf(requests, op.id);
      if i < |requests| then requests[i := Update(op, requests[i])] else requests
  }

  /** The reply of an operation that addresses one request. */
  function Reply(requests: seq<ApprovalRequest>, op: Op): Mutation
    requires !op.Create? && !op.Sweep?
  {
    match Find(requests, op.id)
    case None => NoSuchRequest
    case Some(r) => Mutation(Accepts(op, r), Update(op, r))
  }

  // ---------------------------------------------------------------------------------------------
  // Every request is an automaton of its own
  // ---------------------------------------------------------------------------------------------

  /** What an operation does to the record of one id. */
  function StepRecord(record: Option<ApprovalRequest>, op: Op, id: string): Option<ApprovalRequest> {
    match op
    case Create(request) =>
      if request.id == id && (record.None? || record.value.status.Pending?) then Some(request) else record
    case _ => if record.Some? then Some(Update(op, record.value)) else None
  }

  lemma {:induction false} FirstIsFound(requests: seq<ApprovalRequest>, id: string, i: nat)
    requires i < |requests| && requests[i].id == id && forall k :: 0 <= k < i ==> requests[k].id != id
    ensures Find(requests, id) == Some(requests[i])
  {}

  /** An operation rewrites records in place and at most appends one. */
  lemma {:induction false} IdsStayInPlace(requests: seq<ApprovalRequest>, op: Op, k: nat)
    requires k < |requests|
    ensures k < |Apply(requests, op)| && Apply(requests, op)[k].id == requests[k].id
  {}

  /** The list serves its ids independently: no operation lets one request affect another. */
  lemma {:induction false} ListIsIndependentRecords(requests: seq<ApprovalRequest>, op: Op, id: string)
    ensures Find(Apply(requests, op), id) == StepRecord(Find(requests, id), op, id)
  {
    var after, i := Apply(requests, op), IndexOf(requests, id);
    forall k: nat | k < |requests| ensures k < |after| && after[k].id == requests[k].id {
      IdsStayInPlace(requests, op, k);
    }
    if i < |requests| {
      FirstIsFound(after, id, i);
      assert Some(after[i]) == StepRecord(Some(requests[i]), op, id) by { UpdateAt(requests, op, i); }
    } else if op.Create? && op.request.id == id {
      FirstIsFound(after, id, |requests|);
    } else {
      assert |after| == |requests| || after == requests + [op.request];
      assert forall k :: 0 <= k < |after| ==> after[k].id != id;
    }
  }

  lemma {:induction false} UpdateAt(requests: seq<ApprovalRequest>, op: Op, i: nat)
    requires i < |requests| && i == IndexOf(requests, requests[i].id)
    ensures i < |Apply(requests, op)|
    ensures Some(Apply(requests, op)[i]) == StepRecord(Some(requests[i]), op, requests[i].id)
  {}

  ghost predicate UniqueIds(requests: seq<ApprovalRequest>) {
    forall i, j :: 0 <= i < j < |requests| ==> requests[i].id != requests[j].id
  }

  // ---------------------------------------------------------------------------------------------
  // Runs
  // ---------------------------------------------------------------------------------------------

  function Replay(ops: seq<Op>): seq<ApprovalRequest> {
    if ops == [] then [] else Apply(Replay(ops[..|ops| - 1]), ops[|ops| - 1])
  }

  /** So a sweep never reports the same id twice. */
  lemma {:induction false} ReplayedIdsAreUnique(ops: seq<Op>)
    ensures UniqueIds(Replay(ops))
  {
    if ops != [] {
      ReplayedIdsAreUnique(ops[..|ops| - 1]);
      var requests, op := Replay(ops[..|ops| - 1]), ops[|ops| - 1];
      assert UniqueIds(Apply(requests, op));
    }
  }

  function RecordAt(ops: seq<Op>, n: nat, id: string): Option<ApprovalRequest>
    requires n <= |ops|
  {
    Find(Replay(ops[..n]), id)
  }

  lemma {:induction false} RecordAtNext(ops: seq<Op>, n: nat, id: string)
    requires n < |ops|
    ensures RecordAt(ops, n + 1, id) == StepRecord(RecordAt(ops, n, id), ops[n], id)
  {
    assert ops[..n + 1][..n] == ops[..n];
    ListIsIndependentRecords(Replay(ops[..n]), ops[n], id);
  }

  function Rank(status: Status): nat {
    match status
    case Pending => 0
    case ReturnedToCodex => 1
    case ReturnedToTool => 1
    case _ => 2
  }

  /** The record of one id through a run: each entry follows from the one before by the operation between. */
  ghost predicate IsTrace(trace: seq<Option<ApprovalRequest>>, ops: seq<Op>, id: string) {
    && |trace| == |ops| + 1
    && forall n {:trigger ops[n]} :: 0 <= n < |ops| ==> trace[n + 1] == StepRecord(trace[n], ops[n], id)
  }

  lemma {:induction false} TraceOf(ops: seq<Op>, id: string) returns (trace: seq<Option<ApprovalRequest>>)
    ensures IsTrace(trace, ops, id) && trace[0].None?
    ensures forall n :: 0 <= n <= |ops| ==> trace[n] == RecordAt(ops, n, id)
    ensures forall n :: 0 <= n <= |ops| && trace[n].Some? ==> trace[n].value.id == id
  {
    trace := seq(|ops| + 1, n requires 0 <= n <= |ops| => RecordAt(ops, n, id));
    forall n | 0 <= n < |ops| ensures trace[n + 1] == StepRecord(trace[n], ops[n], id) {
      RecordAtNext(ops, n, id);
    }
    assert ops[..0] == [];
  }

  predicate MovesForward(before: Option<ApprovalRequest>, after: Option<ApprovalRequest>) {
    before.Some? ==>
      && after.Some? && Rank(before.value.status) <= Rank(after.value.status)
      && (Rank(before.value.status) == 2 ==> after == before)
  }

  lemma {:induction false} StepMovesForward(record: Option<ApprovalRequest>, op: Op, id: string)
    ensures MovesForward(record, StepRecord(record, op, id))
  {}

  lemma {:induction false} TraceMovesForward(trace: seq<Option<ApprovalRequest>>, ops: seq<Op>, id: string, i: nat,
                                             j: nat)
    requires IsTrace(trace, ops, id) && i <= j < |trace|
    ensures MovesForward(trace[i], trace[j])
  {
    if i < j {
      TraceMovesForward(trace, ops, id, i, j - 1);
      StepMovesForward(trace[j - 1], ops[j - 1], id);
    }
  }

  /** Once there, a record stays; its status never moves back, and a terminal record is frozen whole. */
  lemma {:induction false} StatusNeverMovesBack(ops: seq<Op>, i: nat, j: nat, id: string)
    requires i <= j <= |ops| && RecordAt(ops, i, id).Some?
    ensures RecordAt(ops, j, id).Some?
    ensures Rank(RecordAt(ops, i, id).value.status) <= Rank(RecordAt(ops, j, id).value.status)
    ensures Rank(RecordAt(ops, i, id).value.status) == 2 ==> RecordAt(ops, j, id) == RecordAt(ops, i, id)
  {
    var trace := TraceOf(ops, id);
    TraceMovesForward(trace, ops, id, i, j);
  }

  /** Operation `n` of the run was accepted for this id. */
  predicate AcceptedAt(ops: seq<Op>, n: nat, id: string)
    requires n < |ops|
  {
    RecordAt(ops, n, id).Some? && Accepts(ops[n], RecordAt(ops, n, id).value)
  }

  predicate Settles(op: Op) { op.Decide? || op.Resolve? }

  predicate HandsBack(op: Op) { op.Return? || op.Sweep? }

  /** After an accepted decision or resolution nothing is accepted for the id any more; after an accepted
      return or sweep, no second one is. */
  lemma {:induction false} AtMostOneOfEach(ops: seq<Op>, i: nat, j: nat, id: string)
    requires i < j < |ops| && AcceptedAt(ops, i, id)
    ensures Settles(ops[i]) ==> !AcceptedAt(ops, j, id)
    ensures HandsBack(ops[i]) && HandsBack(ops[j]) ==> !AcceptedAt(ops, j, id)
    ensures HandsBack(ops[i]) ==> !(ops[j].Heartbeat? && AcceptedAt(ops, j, id))
  {
    RecordAtNext(ops, i, id);
    StatusNeverMovesBack(ops, i + 1, j, id);
  }

  /** What the helper reads off the decision endpoint; a missing request is an error there. */
  datatype Poll = PollError | PollNothing | PollDecision(kind: DecisionKind)

  function PollOf(record: Option<ApprovalRequest>): Poll {
    match record
    case None => PollError
    case Some(r) =>
      match r.status
      case Allowed => PollDecision(Allow)
      case Denied => PollDecision(Deny)
      case _ => PollNothing
  }

  /** Whatever decision a helper prints is the request's status from then on: every later poll agrees. */
  lemma {:induction false} PrintedDecisionIsFinal(ops: seq<Op>, i: nat, j: nat, id: string)
    requires i <= j <= |ops| && PollOf(RecordAt(ops, i, id)).PollDecision?
    ensures RecordAt(ops, j, id) == RecordAt(ops, i, id)
    ensures PollOf(RecordAt(ops, j, id)) == PollOf(RecordAt(ops, i, id))
  {
    StatusNeverMovesBack(ops, i, j, id);
  }

  /** The create endpoint builds pending requests only. */
  ghost predicate CreatesArePending(ops: seq<Op>) {
    forall i :: 0 <= i < |ops| && ops[i].Create? ==> ops[i].request.status.Pending?
  }

  /** Where a decision first shows, an accepted `decide` of that kind put it there. */
  lemma {:induction false} DecisionInTrace(trace: seq<Option<ApprovalRequest>>, ops: seq<Op>, id: string, n: nat)
    returns (k: nat)
    requires IsTrace(trace, ops, id) && trace[0].None? && n < |trace|
    requires forall m :: 0 <= m < |trace| && trace[m].Some? ==> trace[m].value.id == id
    requires CreatesArePending(ops) && PollOf(trace[n]).PollDecision?
    ensures k < n && ops[k].Decide? && ops[k].id == id && PollDecision(ops[k].kind) == PollOf(trace[n])
    ensures trace[k].Some? && Accepts(ops[k], trace[k].value)
  {
    if PollOf(trace[n - 1]).PollDecision? {
      k := DecisionInTrace(trace, ops, id, n - 1);
      StepMovesForward(trace[n - 1], ops[n - 1], id);
    } else {
      k := n - 1;
      DecisionAppears(trace[k], ops[k], id);
    }
  }

  lemma {:induction false} DecisionAppears(record: Option<ApprovalRequest>, op: Op, id: string)
    requires record.Some? ==> !PollOf(record).PollDecision?
    requires op.Create? ==> op.request.status.Pending?
    requires PollOf(StepRecord(record, op, id)).PollDecision?
    ensures op.Decide? && record.Some? && Accepts(op, record.value)
    ensures op.id == record.value.id && PollDecision(op.kind) == PollOf(StepRecord(record, op, id))
  {}

  /** No helper prints a decision nobody made: an accepted `decide` of that kind precedes it. */
  lemma {:induction false} PrintedDecisionWasMade(ops: seq<Op>, n: nat, id: string)
    requires CreatesArePending(ops) && n <= |ops| && PollOf(RecordAt(ops, n, id)).PollDecision?
    ensures exists k ::
      && 0 <= k < n && ops[k].Decide? && ops[k].id == id && AcceptedAt(ops, k, id)
      && PollDecision(ops[k].kind) == PollOf(RecordAt(ops, n, id))
  {
    var trace := TraceOf(ops, id);
    var k := DecisionInTrace(trace, ops, id, n);
    assert AcceptedAt(ops, k, id);
  }

  // ---------------------------------------------------------------------------------------------
  // What must be accepted
  // ---------------------------------------------------------------------------------------------

  ghost predicate CreatedBefore(ops: seq<Op>, n: nat, id: string) {
    exists k :: 0 <= k < n <= |ops| && ops[k].Create? && ops[k].request.id == id
  }

  /** Some decision or resolution of the id was accepted before. */
  ghost predicate SettledBefore(ops: seq<Op>, n: nat, id: string) {
    exists k :: 0 <= k < n <= |ops| && Settles(ops[k]) && AcceptedAt(ops, k, id)
  }

  /** Some return or sweep of the id was accepted before. */
  ghost predicate HandedBackBefore(ops: seq<Op>, n: nat, id: string) {
    exists k :: 0 <= k < n <= |ops| && HandsBack(ops[k]) && AcceptedAt(ops, k, id)
  }

  lemma {:induction false} BeforeNext(ops: seq<Op>, n: nat, id: string)
    requires n < |ops|
    ensures CreatedBefore(ops, n + 1, id)
       <==> CreatedBefore(ops, n, id) || (ops[n].Create? && ops[n].request.id == id)
    ensures SettledBefore(ops, n + 1, id) <==> SettledBefore(ops, n, id) || (Settles(ops[n]) && AcceptedAt(ops, n, id))
    ensures HandedBackBefore(ops, n + 1, id)
       <==> HandedBackBefore(ops, n, id) || (HandsBack(ops[n]) && AcceptedAt(ops, n, id))
  {}

  predicate IsSettled(status: Status) {
    status == Allowed || status == Denied || status == ResolvedInTool
  }

  lemma {:induction false} StepStatus(record: Option<ApprovalRequest>, op: Op, id: string)
    requires record.Some? ==> record.value.id == id
    requires op.Create? ==> op.request.status == Pending
    ensures var next := StepRecord(record, op, id);
      && (next.Some? <==> record.Some? || (op.Create? && op.request.id == id))
      && (next.Some? ==> next.value.id == id)
      && (next.Some? && record.None? ==> next.value.status == Pending)
      && (record.Some? ==>
            var accepted := Accepts(op, record.value);
            && (IsSettled(next.value.status) <==> IsSettled(record.value.status) || (accepted && Settles(op)))
            && (next.value.status == Pending
                <==> record.value.status == Pending && !(accepted && (Settles(op) || HandsBack(op)))))
  {}

  /** The status told by the accepted operations alone. */
  ghost predicate StatusIsLogged(ops: seq<Op>, n: nat, id: string)
    requires n <= |ops|
  {
    var record, settled, handedBack := RecordAt(ops, n, id), SettledBefore(ops, n, id), HandedBackBefore(ops, n, id);
    && (record.Some? <==> CreatedBefore(ops, n, id))
    && (record.None? ==> !settled && !handedBack)
    && (record.Some? ==>
          && record.value.id == id
          && (IsSettled(record.value.status) <==> settled)
          && (record.value.status == Pending <==> !settled && !handedBack))
  }

  /** The record exists once created; it is pending until handed back or settled, and undecided until settled. */
  lemma {:induction false} StatusFollowsRun(ops: seq<Op>, n: nat, id: string)
    requires CreatesArePending(ops) && n <= |ops|
    ensures StatusIsLogged(ops, n, id)
  {
    if n == 0 {
      assert ops[..0] == [];
    } else {
      StatusFollowsRun(ops, n - 1, id);
      StatusNext(ops, n - 1, id);
    }
  }

  lemma {:induction false} StatusNext(ops: seq<Op>, n: nat, id: string)
    requires CreatesArePending(ops) && n < |ops| && StatusIsLogged(ops, n, id)
    ensures StatusIsLogged(ops, n + 1, id)
  {
    var record, next := RecordAt(ops, n, id), RecordAt(ops, n + 1, id);
    BeforeNext(ops, n, id);
    assert next == StepRecord(record, ops[n], id) by { RecordAtNext(ops, n, id); }
    StepStatus(record, ops[n], id);
    assert AcceptedAt(ops, n, id) <==> record.Some? && Accepts(ops[n], record.value);
  }

  /** Over every run: a decision, or a resolution, of a created request is accepted exactly when none was before,
      a return or a heartbeat exactly when the request was neither settled nor handed back before, and a sweep
      takes exactly the requests of that kind whose hook proxy has been silent for too long. */
  lemma {:induction false} AcceptedExactly(ops: seq<Op>, n: nat, id: string)
    requires CreatesArePending(ops) && n < |ops| && CreatedBefore(ops, n, id)
    ensures ops[n].Decide? || ops[n].Resolve? ==>
      (AcceptedAt(ops, n, id) <==> ops[n].id == id && !SettledBefore(ops, n, id))
    ensures ops[n].Return? || ops[n].Heartbeat? ==>
      (AcceptedAt(ops, n, id)
       <==> ops[n].id == id && !SettledBefore(ops, n, id) && !HandedBackBefore(ops, n, id))
    ensures RecordAt(ops, n, id).Some?
    ensures var r := RecordAt(ops, n, id).value;
      ops[n].Sweep? ==>
        (AcceptedAt(ops, n, id)
         <==> && !SettledBefore(ops, n, id) && !HandedBackBefore(ops, n, id)
              && r.channel == HookProxy && r.proxyStatus == Active && r.lastHeartbeatAt.Some?
              && ops[n].now - r.lastHeartbeatAt.value > ops[n].staleAfter)
    ensures ops[n].Create? ==> !AcceptedAt(ops, n, id)
  {
    StatusFollowsRun(ops, n, id);
  }

  /** What an accepted operation leaves, and that nothing else changes a record but a create of a pending one. */
  lemma {:induction false} AcceptedWrites(ops: seq<Op>, n: nat, id: string)
    requires n < |ops| && RecordAt(ops, n, id).Some?
    ensures RecordAt(ops, n + 1, id).Some?
    ensures var r, next, op := RecordAt(ops, n, id).value, RecordAt(ops, n + 1, id).value, ops[n];
      var returned := if r.tool == Codex then ReturnedToCodex else ReturnedToTool;
      var name := match r.tool case Codex => "Codex" case ClaudeCode => "Claude Code" case Custom(tool) => tool;
      if op.Create? && op.request.id == id && r.status == Pending then next == op.request
      else if !AcceptedAt(ops, n, id) then next == r
      else match op
        case Decide(_, kind, who, source, reason, now) =>
          next == r.(status := if kind == Allow then Allowed else Denied,
                     decidedBy := Some(who), decidedSource := Some(source), reason := reason, updatedAt := now)
        case Return(_, who, source, why, now) =>
          next == r.(status := returned,
                     decidedBy := Some(who), decidedSource := Some(source), reason := Some(why), updatedAt := now)
        case Resolve(_, who, reason, now) =>
          next == r.(status := ResolvedInTool,
                     decidedBy := Some(who), decidedSource := Some("tool_resolved"), reason := reason, updatedAt := now)
        case Heartbeat(_, now) =>
          next == r.(proxyStatus := Active, lastHeartbeatAt := Some(now), updatedAt := now)
        case Sweep(now, _) =>
          && next.status == returned && next.proxyStatus == Lost && next.proxyLostAt == Some(now)
          && next.decidedBy == Some("hook-helper") && next.decidedSource == Some("proxy_lost")
          && next.reason == Some("hook 代理已失联，请回到 " + name + " 中操作") && next.updatedAt == now
          && next.lastHeartbeatAt == r.lastHeartbeatAt
        case Create(_) => false
  {
    RecordAtNext(ops, n, id);
  }

  /** A create puts its request in unless one of the id was settled or handed back, which then stays. */
  lemma {:induction false} CreateWrites(ops: seq<Op>, n: nat)
    requires CreatesArePending(ops) && n < |ops| && ops[n].Create?
    ensures var id := ops[n].request.id;
      RecordAt(ops, n + 1, id) == if SettledBefore(ops, n, id) || HandedBackBefore(ops, n, id) then RecordAt(ops, n, id)
                                  else Some(ops[n].request)
  {
    StatusFollowsRun(ops, n, ops[n].request.id);
    RecordAtNext(ops, n, ops[n].request.id);
  }

  /** Once a decision or resolution is accepted its status is the request's for good: Allowed or Denied according
      to the kind of the decision, resolved in the tool otherwise, with the deciding party and its reason. */
  lemma {:induction false} SettlementStays(ops: seq<Op>, k: nat, n: nat, id: string)
    requires k < n <= |ops| && AcceptedAt(ops, k, id) && Settles(ops[k])
    ensures RecordAt(ops, n, id).Some?
    ensures var r, op := RecordAt(ops, n, id).value, ops[k];
      && r.status == (if op.Resolve? then ResolvedInTool else if op.kind == Allow then Allowed else Denied)
      && r.decidedBy == Some(op.who) && r.reason == op.reason && r.updatedAt == op.now
      && r.decidedSource == Some(if op.Resolve? then "tool_resolved" else op.source)
  {
    AcceptedWrites(ops, k, id);
    StatusNeverMovesBack(ops, k + 1, n, id);
  }

  /** A handed-back record that is not settled later is the same throughout. */
  lemma {:induction false} TraceOfReturned(trace: seq<Option<ApprovalRequest>>, ops: seq<Op>, id: string, i: nat,
                                           j: nat)
    requires IsTrace(trace, ops, id) && i <= j < |trace| && trace[i].Some? && Rank(trace[i].value.status) == 1
    requires trace[j].Some? && Rank(trace[j].value.status) == 1
    ensures trace[j] == trace[i]
  {
    if i < j {
      TraceMovesForward(trace, ops, id, i, j - 1);
      StepMovesForward(trace[j - 1], ops[j - 1], id);
      TraceOfReturned(trace, ops, id, i, j - 1);
    }
  }

  /** The accepted return or sweep shows for as long as nothing settles the request. */
  lemma {:induction false} ReturnStays(ops: seq<Op>, k: nat, n: nat, id: string)
    requires CreatesArePending(ops) && k < n <= |ops| && AcceptedAt(ops, k, id) && HandsBack(ops[k])
    requires !SettledBefore(ops, n, id)
    ensures RecordAt(ops, n, id) == RecordAt(ops, k + 1, id) && RecordAt(ops, n, id).Some?
    ensures RecordAt(ops, n, id).value.status
         == if RecordAt(ops, n, id).value.tool == Codex then ReturnedToCodex else ReturnedToTool
  {
    ReturnShows(ops, k, id);
    StatusNeverMovesBack(ops, k + 1, n, id);
    StatusFollowsRun(ops, n, id);
    var trace := TraceOf(ops, id);
    TraceOfReturned(trace, ops, id, k + 1, n);
  }

  lemma {:induction false} ReturnShows(ops: seq<Op>, k: nat, id: string)
    requires k < |ops| && AcceptedAt(ops, k, id) && HandsBack(ops[k])
    ensures RecordAt(ops, k + 1, id).Some?
    ensures RecordAt(ops, k + 1, id).value.status
         == if RecordAt(ops, k + 1, id).value.tool == Codex then ReturnedToCodex else ReturnedToTool
  {
    RecordAtNext(ops, k, id);
  }

  /** What a caller is told: there is no such request before a create of the id, and else whether the operation was
      accepted, with the record as it then stands. */
  lemma {:induction false} RepliesFollowRun(ops: seq<Op>, n: nat)
    requires CreatesArePending(ops) && n < |ops| && !ops[n].Create? && !ops[n].Sweep?
    ensures Reply(Replay(ops[..n]), ops[n]) == NoSuchRequest <==> !CreatedBefore(ops, n, ops[n].id)
    ensures CreatedBefore(ops, n, ops[n].id) ==>
      && RecordAt(ops, n + 1, ops[n].id).Some?
      && Reply(Replay(ops[..n]), ops[n])
         == Mutation(AcceptedAt(ops, n, ops[n].id), RecordAt(ops, n + 1, ops[n].id).value)
  {
    StatusFollowsRun(ops, n, ops[n].id);
    RecordAtNext(ops, n, ops[n].id);
  }

  // ---------------------------------------------------------------------------------------------
  // The sweep
  // ---------------------------------------------------------------------------------------------

  lemma {:induction false} NoStaleNoResults(requests: seq<ApprovalRequest>, now: int, staleAfter: int)
    requires forall r :: r in requests ==> !Stale(r, now, staleAfter)
    ensures SweepResults(requests, now, staleAfter) == []
  {
    if requests != [] {
      NoStaleNoResults(requests[..|requests| - 1], now, staleAfter);
    }
  }

  /** What a sweep does at one position, and what it reports of it. */
  lemma {:induction false} SweepNext(requests: seq<ApprovalRequest>, i: nat, now: int, staleAfter: int)
    requires i < |requests|
    ensures SweepAll(requests, now, staleAfter)[i]
         == if Stale(requests[i], now, staleAfter) then WithLostProxy(requests[i], now) else requests[i]
    ensures Stale(requests[i], now, staleAfter) ==>
      SweepResults(requests[..i + 1], now, staleAfter)
      == SweepResults(requests[..i], now, staleAfter) + [Mutation(true, WithLostProxy(requests[i], now))]
    ensures !Stale(requests[i], now, staleAfter) ==>
      SweepResults(requests[..i + 1], now, staleAfter) == SweepResults(requests[..i], now, staleAfter)
  {
    assert requests[..i + 1][..i] == requests[..i];
  }

  lemma {:induction false} SweptRecord(r: ApprovalRequest, now: int, staleAfter: int)
    ensures var swept := Update(Sweep(now, staleAfter), r);
      !Stale(swept, now, staleAfter) && Update(Sweep(now, staleAfter), swept) == swept
  {}

  /** After a sweep no request waits on a silent proxy, and sweeping again at the same time does nothing. */
  lemma {:induction false} SweepSettles(requests: seq<ApprovalRequest>, now: int, staleAfter: int)
    ensures forall r :: r in SweepAll(requests, now, staleAfter) ==> !Stale(r, now, staleAfter)
    ensures SweepAll(SweepAll(requests, now, staleAfter), now, staleAfter) == SweepAll(requests, now, staleAfter)
    ensures SweepResults(SweepAll(requests, now, staleAfter), now, staleAfter) == []
  {
    var swept := SweepAll(requests, now, staleAfter);
    forall i | 0 <= i < |swept|
      ensures !Stale(swept[i], now, staleAfter) && Update(Sweep(now, staleAfter), swept[i]) == swept[i]
    {
      SweptRecord(requests[i], now, staleAfter);
    }
    NoStaleNoResults(swept, now, staleAfter);
    assert SweepAll(swept, now, staleAfter) == swept;
  }

  predicate Rewrites(r: ApprovalRequest, now: int, staleAfter: int, m: Mutation) {
    Stale(r, now, staleAfter) && m == Mutation(true, WithLostProxy(r, now))
  }

  ghost predicate SomeRewritten(requests: seq<ApprovalRequest>, now: int, staleAfter: int, m: Mutation) {
    exists r :: r in requests && Rewrites(r, now, staleAfter, m)
  }

  lemma {:induction false} SomeRewrittenLast(requests: seq<ApprovalRequest>, now: int, staleAfter: int, m: Mutation)
    requires requests != []
    ensures SomeRewritten(requests, now, staleAfter, m)
       <==> SomeRewritten(requests[..|requests| - 1], now, staleAfter, m)
            || Rewrites(requests[|requests| - 1], now, staleAfter, m)
  {
    var earlier, last := requests[..|requests| - 1], requests[|requests| - 1];
    assert requests == earlier + [last];
    assert forall r :: r in requests <==> r in earlier || r == last;
  }

  /** A sweep reports a record exactly when it rewrote it. */
  lemma {:induction false} SweepReportsChanges(requests: seq<ApprovalRequest>, now: int, staleAfter: int, m: Mutation)
    ensures m in SweepResults(requests, now, staleAfter) <==> SomeRewritten(requests, now, staleAfter, m)
    ensures forall r :: Stale(r, now, staleAfter) ==> Update(Sweep(now, staleAfter), r) == WithLostProxy(r, now)
  {
    if requests != [] {
      SweepReportsChanges(requests[..|requests| - 1], now, staleAfter, m);
      SomeRewrittenLast(requests, now, staleAfter, m);
    }
  }

  // ---------------------------------------------------------------------------------------------
  // The list in place
  // ---------------------------------------------------------------------------------------------

  /** The fields the watchdog writes, one after the other. */
  method LoseProxy(request: ApprovalRequest, now: int) returns (r: ApprovalRequest)
    ensures r == WithLostProxy(request, now)
  {
    r := request.(status := ReturnedStatus(request.tool), proxyStatus := Lost, proxyLostAt := Some(now));
    r := r.(decidedBy := Some("hook-helper"), decidedSource := Some("proxy_lost"));
    r := r.(reason := Some(LostReason(r.tool)), updatedAt := now);
  }

  class ApprovalList {
    var requests: seq<ApprovalRequest>

    constructor ()
      ensures requests == []
    {
      requests := [];
    }

    method FindIndex(id: string) returns (i: nat)
      ensures i == IndexOf(requests, id)
    {
      i := 0;
      while i < |requests| && requests[i].id != id
        invariant i <= |requests| && forall k :: 0 <= k < i ==> requests[k].id != id
      {
        i := i + 1;
      }
    }

    method UpsertRequest(request: ApprovalRequest)
      modifies this
      ensures requests == Apply(old(requests), Create(request))
    {
      var i := FindIndex(request.id);
      if i < |requests| {
        if requests[i].status.Pending? {
          requests := requests[i := request];
        }
        return;
      }
      requests := requests + [request];
    }

    method DecideRequest(id: string, kind: DecisionKind, who: string, source: string, reason: Option<string>, now: int)
      returns (result: Mutation)
      modifies this
      ensures var op := Decide(id, kind, who, source, reason, now);
        requests == Apply(old(requests), op) && result == Reply(old(requests), op)
    {
      var i := FindIndex(id);
      if i == |requests| {
        return NoSuchRequest;
      }
      if !(requests[i].status.Pending? || requests[i].status.ReturnedToCodex? || requests[i].status.ReturnedToTool?) {
        return Mutation(false, requests[i]);
      }
      var r := requests[i].(status := if kind.Allow? then Allowed else Denied);
      r := r.(decidedBy := Some(who), decidedSource := Some(source), reason := reason, updatedAt := now);
      requests := requests[i := r];
      result := Mutation(true, r);
    }

    method ReturnToCodex(id: string, who: string, source: string, why: string, now: int) returns (result: Mutation)
      modifies this
      ensures var op := Return(id, who, source, why, now);
        requests == Apply(old(requests), op) && result == Reply(old(requests), op)
    {
      var i := FindIndex(id);
      if i == |requests| {
        return NoSuchRequest;
      }
      if !requests[i].status.Pending? {
        return Mutation(false, requests[i]);
      }
      var r := requests[i].(status := ReturnedStatus(requests[i].tool));
      r := r.(decidedBy := Some(who), decidedSource := Some(source), reason := Some(why), updatedAt := now);
      requests := requests[i := r];
      result := Mutation(true, r);
    }

    method ResolveInTool(id: string, who: string, reason: Option<string>, now: int) returns (result: Mutation)
      modifies this
      ensures var op := Resolve(id, who, reason, now);
        requests == Apply(old(requests), op) && result == Reply(old(requests), op)
    {
      var i := FindIndex(id);
      if i == |requests| {
        return NoSuchRequest;
      }
      if !(requests[i].status.Pending? || requests[i].status.ReturnedToCodex? || requests[i].status.ReturnedToTool?) {
        return Mutation(false, requests[i]);
      }
      var r := requests[i].(status := ResolvedInTool);
      r := r.(decidedBy := Some(who), decidedSource := Some("tool_resolved"), reason := reason, updatedAt := now);
      requests := requests[i := r];
      result := Mutation(true, r);
    }

    method HeartbeatProxy(id: string, now: int) returns (result: Mutation)
      modifies this
      ensures var op := Heartbeat(id, now);
        requests == Apply(old(requests), op) && result == Reply(old(requests), op)
    {
      var i := FindIndex(id);
      if i == |requests| {
        return NoSuchRequest;
      }
      if !requests[i].status.Pending? {
        return Mutation(false, requests[i]);
      }
      var r := requests[i].(proxyStatus := Active, lastHeartbeatAt := Some(now), updatedAt := now);
      requests := requests[i := r];
      result := Mutation(true, r);
    }

    method ReturnStaleProxies(now: int, staleAfter: int) returns (results: seq<Mutation>)
      modifies this
      ensures requests == Apply(old(requests), Sweep(now, staleAfter))
      ensures results == SweepResults(old(requests), now, staleAfter)
    {
      ghost var before, swept := requests, SweepAll(requests, now, staleAfter);
      results := [];
      var i := 0;
      while i < |requests|
        invariant 0 <= i <= |requests| == |before|
        invariant forall k :: 0 <= k < i ==> requests[k] == swept[k]
        invariant forall k :: i <= k < |requests| ==> requests[k] == before[k]
        invariant results == SweepResults(before[..i], now, staleAfter)
      {
        var r := requests[i];
        SweepNext(before, i, now, staleAfter);
        if r.lastHeartbeatAt.Some? && r.status.Pending? && r.channel.HookProxy? && r.proxyStatus.Active?
           && now - r.lastHeartbeatAt.value > staleAfter {
          r := LoseProxy(r, now);
          assert r == swept[i];
          requests := requests[i := r];
          results := results + [Mutation(true, r)];
        }
        assert requests[i] == swept[i];
        i := i + 1;
      }
      assert before[..i] == before;
    }
  }
}
