/** The pipeline that attaches runtime states, and its refinement of the plain one: erasing the runtime
    fields at every level gives the plain pages back. */
module SessionRuntime {
  import opened Wrappers
  import opened StableSort
  import opened SessionModel
  import opened SessionControl
  import opened SessionGroups
  import opened SessionGroupsProofs

  datatype RuntimeRaw = RuntimeRaw(
    sessionId: string, parentSessionId: Option<string>, normalizedSessionId: string, sessionScope: SessionScope,
    agentNickname: Option<string>, agentRole: Option<string>, normalizationStatus: Option<Normalization>,
    sourcePath: string, updatedAt: int, isActive: bool, status: SessionStatus,
    runtimeStatus: Option<RuntimeStatus>, runtimeLastEventId: Option<string>, runtimeLastActivityAt: Option<int>)

  datatype RuntimeSummary = RuntimeSummary(
    normalizedSessionId: string, primarySessionId: string, title: string, status: SessionStatus,
    runtimeStatus: Option<RuntimeStatus>, runtimeLastEventId: Option<string>, runtimeLastActivityAt: Option<int>,
    updatedAt: int,
    firstUserMessagePreview: Option<string>, firstUserMessageAt: Option<int>, latestEventSummary: Option<string>,
    subagentCount: nat, control: Option<Control>, rawSessions: Option<seq<RuntimeRaw>>)

  datatype RuntimeGroup = RuntimeGroup(
    tool: ToolId, projectPath: string, projectName: string, updatedAt: int,
    normalizedSessionCount: nat, rawSessionCount: nat, subagentCount: nat, sessions: seq<RuntimeSummary>)

  // ---------------------------------------------------------------------------------------------
  // The runtime pipeline
  // ---------------------------------------------------------------------------------------------

  function RuntimeFor(states: seq<RuntimeState>, tool: ToolId, sessionId: string): Option<RuntimeState> {
    if states == [] then None
    else if states[0].tool == tool && states[0].sessionId == sessionId then Some(states[0])
    else RuntimeFor(states[1..], tool, sessionId)
  }

  function Priority(status: RuntimeStatus): nat {
    match status
    case WaitingApproval => 7
    case WaitingInput => 6
    case Error => 5
    case Running => 4
    case Completed => 3
    case Idle => 2
    case Stale => 1
  }

  predicate PriorityLe(l: RuntimeState, r: RuntimeState) {
    Priority(l.status) < Priority(r.status)
    || (Priority(l.status) == Priority(r.status) && l.lastActivityAt <= r.lastActivityAt)
  }

  /** The states of the sessions that have one, in session order. */
  function RuntimesOf(raw: seq<Item>, states: seq<RuntimeState>): seq<RuntimeState> {
    if raw == [] then []
    else match RuntimeFor(states, raw[0].tool, raw[0].sessionId)
      case Some(state) => [state] + RuntimesOf(raw[1..], states)
      case None => RuntimesOf(raw[1..], states)
  }

  /** `max_by`: among equal maxima the last. */
  function BestRuntime(candidates: seq<RuntimeState>): Option<RuntimeState> {
    if candidates == [] then None
    else
      var n := |candidates| - 1;
      match BestRuntime(candidates[..n])
      case None => Some(candidates[n])
      case Some(best) => if PriorityLe(best, candidates[n]) then Some(candidates[n]) else Some(best)
  }

  function RuntimeRawSummary(item: Item, states: seq<RuntimeState>): RuntimeRaw {
    var runtime := RuntimeFor(states, item.tool, item.sessionId);
    RuntimeRaw(item.sessionId, item.parentSessionId, NormalizedId(item), ScopeOf(item), item.agentNickname,
               item.agentRole, item.normalizationStatus, item.filePath, item.modifiedAt, item.isActive, item.status,
               if runtime.Some? then Some(runtime.value.status) else None,
               if runtime.Some? then runtime.value.lastEventId else None,
               if runtime.Some? then Some(runtime.value.lastActivityAt) else None)
  }

  function RuntimeRaws(raw: seq<Item>, states: seq<RuntimeState>): seq<RuntimeRaw>
  {
    seq(|raw|, i requires 0 <= i < |raw| => RuntimeRawSummary(raw[i], states))
  }

  function SummarizeRuntime(normalizedId: string, items: seq<Item>, includeSubagents: bool, order: IterationOrder,
                            states: seq<RuntimeState>): RuntimeSummary
    requires items != [] && Enumerates(order)
  {
    SortPermutes(items, RawLe);
    var raw := Sort(items, RawLe);
    var primary := Primary(normalizedId, raw);
    var runtime := BestRuntime(RuntimesOf(raw, states));
    var message := FirstUserMessage(primary, raw);
    RuntimeSummary(
      normalizedId, primary.sessionId, Title(primary), StatusOf(primary, raw),
      if runtime.Some? then Some(runtime.value.status) else None,
      if runtime.Some? then runtime.value.lastEventId else None,
      if runtime.Some? then Some(runtime.value.lastActivityAt) else None,
      LatestModified(raw),
      if message.Some? then Some(message.value.preview) else None,
      if message.Some? then Some(message.value.createdAt) else None,
      None, Count(raw, IsSubagent), NormalizedControl(primary, raw, order, normalizedId),
      if includeSubagents then Some(RuntimeRaws(raw, states)) else None)
  }

  predicate RuntimeSummaryLe(l: RuntimeSummary, r: RuntimeSummary) {
    if l.updatedAt != r.updatedAt then l.updatedAt > r.updatedAt else StringLe(l.primarySessionId, r.primarySessionId)
  }

  predicate RuntimeGroupLe(l: RuntimeGroup, r: RuntimeGroup) {
    if l.updatedAt != r.updatedAt then l.updatedAt > r.updatedAt
    else if AsStr(l.tool) != AsStr(r.tool) then StringLe(AsStr(l.tool), AsStr(r.tool))
    else StringLe(l.projectPath, r.projectPath)
  }

  function RuntimeSummaries(project: Project, ids: seq<string>, includeSubagents: bool, order: IterationOrder,
                            states: seq<RuntimeState>): seq<RuntimeSummary>
    requires Filled(project) && Enumerates(order) && forall id :: id in ids ==> id in project.sessions
  {
    seq(|ids|, i requires 0 <= i < |ids| =>
      SummarizeRuntime(ids[i], project.sessions[ids[i]], includeSubagents, order, states))
  }

  function RuntimeLatestUpdate(sessions: seq<RuntimeSummary>): int
    requires sessions != []
  {
    if |sessions| == 1 then sessions[0].updatedAt
    else
      var rest := RuntimeLatestUpdate(sessions[1..]);
      if sessions[0].updatedAt > rest then sessions[0].updatedAt else rest
  }

  function RuntimeSubagents(s: RuntimeSummary): nat { s.subagentCount }

  function IntoRuntimeGroup(key: string, project: Project, includeSubagents: bool, order: IterationOrder,
                            states: seq<RuntimeState>): RuntimeGroup
    requires Filled(project) && Enumerates(order)
  {
    var ids := order(key, project.sessions.Keys);
    var unsorted := RuntimeSummaries(project, ids, includeSubagents, order, states);
    SortPermutes(unsorted, RuntimeSummaryLe);
    EnumerationNonempty(project, order, key);
    var sessions := Sort(unsorted, RuntimeSummaryLe);
    RuntimeGroup(project.tool, project.projectPath, project.projectName, RuntimeLatestUpdate(sessions), |sessions|,
                 Sum(SessionSizes(project, ids)), Sum(Map(sessions, RuntimeSubagents)), sessions)
  }

  function IntoRuntimeGroups(projects: map<string, Project>, keys: seq<string>, includeSubagents: bool,
                             order: IterationOrder, states: seq<RuntimeState>): seq<RuntimeGroup>
    requires Enumerates(order)
    requires forall key :: key in keys ==> key in projects && Filled(projects[key])
  {
    seq(|keys|, i requires 0 <= i < |keys| =>
      IntoRuntimeGroup(keys[i], projects[keys[i]], includeSubagents, order, states))
  }

  function SortedRuntimeGroups(items: seq<Item>, path: Option<string>, includeSubagents: bool, order: IterationOrder,
                               states: seq<RuntimeState>): seq<RuntimeGroup>
    requires Enumerates(order)
  {
    var projects := ProjectsOf(Selected(items, path));
    ProjectsAreFilled(Selected(items, path));
    Sort(IntoRuntimeGroups(projects, order("", projects.Keys), includeSubagents, order, states), RuntimeGroupLe)
  }

  function ProjectGroupsWithRuntime(items: seq<Item>, query: Query, order: IterationOrder,
                                    states: seq<RuntimeState>): PageResult<RuntimeGroup>
    requires Enumerates(order)
  {
    Paged(SortedRuntimeGroups(items, RequestedPath(query), query.includeSubagents, order, states), query)
  }

  // ---------------------------------------------------------------------------------------------
  // Erasing the runtime fields
  // ---------------------------------------------------------------------------------------------

  function EraseRaw(r: RuntimeRaw): RawSummary {
    RawSummary(r.sessionId, r.parentSessionId, r.normalizedSessionId, r.sessionScope, r.agentNickname, r.agentRole,
               r.normalizationStatus, r.sourcePath, r.updatedAt, r.isActive, r.status)
  }

  function EraseSummary(s: RuntimeSummary): SessionSummary {
    SessionSummary(s.normalizedSessionId, s.primarySessionId, s.title, s.status, s.updatedAt,
                   s.firstUserMessagePreview, s.firstUserMessageAt, s.latestEventSummary, s.subagentCount, s.control,
                   if s.rawSessions.Some? then Some(Map(s.rawSessions.value, EraseRaw)) else None)
  }

  function EraseGroup(g: RuntimeGroup): ProjectGroup {
    ProjectGroup(g.tool, g.projectPath, g.projectName, g.updatedAt, g.normalizedSessionCount, g.rawSessionCount,
                 g.subagentCount, Map(g.sessions, EraseSummary))
  }

  function ErasePage(result: PageResult<RuntimeGroup>): PageResult<ProjectGroup> {
    match result
    case PageErr(message) => PageErr(message)
    case PageOk(page) => PageOk(Page(Map(page.list, EraseGroup), page.page, page.pageSize, page.total))
  }

  lemma {:induction false} EraseSummarized(id: string, items: seq<Item>, includeSubagents: bool, order: IterationOrder,
                                           states: seq<RuntimeState>)
    requires items != [] && Enumerates(order)
    ensures EraseSummary(SummarizeRuntime(id, items, includeSubagents, order, states))
         == Summarize(id, items, includeSubagents, order)
  {
    var raw := Sort(items, RawLe);
    assert Map(RuntimeRaws(raw, states), EraseRaw) == Map(raw, RawSessionSummary);
  }

  lemma {:induction false} EraseLatest(sessions: seq<RuntimeSummary>)
    requires sessions != []
    ensures RuntimeLatestUpdate(sessions) == LatestUpdate(Map(sessions, EraseSummary))
  {
    if |sessions| > 1 {
      EraseLatest(sessions[1..]);
      assert Map(sessions, EraseSummary)[1..] == Map(sessions[1..], EraseSummary);
    }
  }

  lemma {:induction false} EraseSummaries(project: Project, ids: seq<string>, includeSubagents: bool,
                                          order: IterationOrder, states: seq<RuntimeState>)
    requires Filled(project) && Enumerates(order) && forall id :: id in ids ==> id in project.sessions
    ensures Map(RuntimeSummaries(project, ids, includeSubagents, order, states), EraseSummary)
         == Summaries(project, ids, includeSubagents, order)
  {
    forall i | 0 <= i < |ids|
      ensures Map(RuntimeSummaries(project, ids, includeSubagents, order, states), EraseSummary)[i]
           == Summaries(project, ids, includeSubagents, order)[i]
    {
      EraseSummarized(ids[i], project.sessions[ids[i]], includeSubagents, order, states);
    }
  }

  lemma {:induction false} EraseSubagents(sessions: seq<RuntimeSummary>)
    ensures Map(sessions, RuntimeSubagents) == Map(Map(sessions, EraseSummary), SubagentsIn)
  {}

  lemma {:induction false} EraseSortedSessions(key: string, project: Project, includeSubagents: bool,
                                               order: IterationOrder, states: seq<RuntimeState>)
    returns (sessions: seq<RuntimeSummary>)
    requires Filled(project) && Enumerates(order)
    ensures forall id :: id in order(key, project.sessions.Keys) ==> id in project.sessions
    ensures var ids := order(key, project.sessions.Keys);
      sessions == Sort(RuntimeSummaries(project, ids, includeSubagents, order, states), RuntimeSummaryLe)
    ensures sessions != []
    ensures Map(sessions, EraseSummary)
         == Sort(Summaries(project, order(key, project.sessions.Keys), includeSubagents, order), SummaryLe)
  {
    var ids := order(key, project.sessions.Keys);
    var runtime := RuntimeSummaries(project, ids, includeSubagents, order, states);
    EraseSummaries(project, ids, includeSubagents, order, states);
    SortMap(runtime, EraseSummary, RuntimeSummaryLe, SummaryLe);
    SortPermutes(runtime, RuntimeSummaryLe);
    EnumerationNonempty(project, order, key);
    sessions := Sort(runtime, RuntimeSummaryLe);
  }

  lemma {:induction false} EraseIntoGroup(key: string, project: Project, includeSubagents: bool, order: IterationOrder,
                                          states: seq<RuntimeState>)
    requires Filled(project) && Enumerates(order)
    ensures EraseGroup(IntoRuntimeGroup(key, project, includeSubagents, order, states))
         == IntoGroup(key, project, includeSubagents, order)
  {
    var sessions := EraseSortedSessions(key, project, includeSubagents, order, states);
    EraseLatest(sessions);
    EraseSubagents(sessions);
  }

  lemma {:induction false} EraseGroups(projects: map<string, Project>, keys: seq<string>, includeSubagents: bool,
                                       order: IterationOrder, states: seq<RuntimeState>)
    requires Enumerates(order)
    requires forall key :: key in keys ==> key in projects && Filled(projects[key])
    ensures Map(IntoRuntimeGroups(projects, keys, includeSubagents, order, states), EraseGroup)
         == IntoGroups(projects, keys, includeSubagents, order)
  {
    forall i | 0 <= i < |keys|
      ensures Map(IntoRuntimeGroups(projects, keys, includeSubagents, order, states), EraseGroup)[i]
           == IntoGroups(projects, keys, includeSubagents, order)[i]
    {
      EraseIntoGroup(keys[i], projects[keys[i]], includeSubagents, order, states);
    }
  }

  lemma {:induction false} SortErased(groups: seq<RuntimeGroup>)
    ensures Map(Sort(groups, RuntimeGroupLe), EraseGroup) == Sort(Map(groups, EraseGroup), GroupLe)
  {
    SortMap(groups, EraseGroup, RuntimeGroupLe, GroupLe);
  }

  lemma {:induction false} EraseSorted(items: seq<Item>, path: Option<string>, includeSubagents: bool,
                                       order: IterationOrder, states: seq<RuntimeState>)
    requires Enumerates(order)
    ensures Map(SortedRuntimeGroups(items, path, includeSubagents, order, states), EraseGroup)
         == SortedGroups(items, path, includeSubagents, order)
  {
    var projects := ProjectsOf(Selected(items, path));
    ProjectsAreFilled(Selected(items, path));
    var keys := order("", projects.Keys);
    EraseGroups(projects, keys, includeSubagents, order, states);
    SortErased(IntoRuntimeGroups(projects, keys, includeSubagents, order, states));
  }

  lemma {:induction false} ErasePaged(groups: seq<RuntimeGroup>, query: Query)
    ensures ErasePage(Paged(groups, query)) == Paged(Map(groups, EraseGroup), query)
  {
    if Paged(groups, query).PageOk? {
      var page := Paged(groups, query).value;
      assert Map(PageOf(groups, page.page, page.pageSize), EraseGroup)
          == PageOf(Map(groups, EraseGroup), page.page, page.pageSize);
    }
  }

  /** For every query and item list, the runtime page without its runtime fields is the plain page, when the hash
      maps of both iterate alike. */
  lemma {:induction false} RuntimeErasesToPlain(items: seq<Item>, query: Query, states: seq<RuntimeState>,
                                                order: IterationOrder)
    requires Enumerates(order)
    ensures ErasePage(ProjectGroupsWithRuntime(items, query, order, states)) == ProjectGroups(items, query, order)
  {
    var path, subagents := RequestedPath(query), query.includeSubagents;
    ErasePaged(SortedRuntimeGroups(items, path, subagents, order, states), query);
    EraseSorted(items, path, subagents, order, states);
  }

  /** When they iterate differently, the two pipelines still agree on every pair of orders exactly when no project
      has twin sessions. */
  lemma {:induction false} RuntimeRefinesPlain(items: seq<Item>, path: Option<string>, includeSubagents: bool,
                                               states: seq<RuntimeState>)
    ensures NoTwins(Selected(items, path))
      <==> forall o1, o2 :: Enumerates(o1) && Enumerates(o2) ==>
             Map(SortedRuntimeGroups(items, path, includeSubagents, o1, states), EraseGroup)
             == SortedGroups(items, path, includeSubagents, o2)
  {
    forall order | Enumerates(order)
      ensures Map(SortedRuntimeGroups(items, path, includeSubagents, order, states), EraseGroup)
           == SortedGroups(items, path, includeSubagents, order)
    {
      EraseSorted(items, path, includeSubagents, order, states);
    }
    GroupsIgnoreOrdersExactly(items, path, includeSubagents);
  }

  // ---------------------------------------------------------------------------------------------
  // Hash map order
  // ---------------------------------------------------------------------------------------------

  lemma {:induction false} RuntimeOrders()
    ensures TotalPreorder(RuntimeSummaryLe) && TotalPreorder(RuntimeGroupLe)
  {
    StringOrder();
  }

  lemma {:induction false} RuntimeSummaryIgnoresMapOrder(id: string, items: seq<Item>, includeSubagents: bool,
                                                         o1: IterationOrder, o2: IterationOrder,
                                                         states: seq<RuntimeState>)
    requires items != [] && Enumerates(o1) && Enumerates(o2)
    ensures SummarizeRuntime(id, items, includeSubagents, o1, states)
         == SummarizeRuntime(id, items, includeSubagents, o2, states)
  {
    SortPermutes(items, RawLe);
    var raw := Sort(items, RawLe);
    ControlIgnoresMapOrder(Primary(id, raw), raw, o1, id, o2, id);
  }

  lemma {:induction false} RuntimeSummariesSeparated(part: seq<Item>, ids: seq<string>, includeSubagents: bool,
                                                     order: IterationOrder, states: seq<RuntimeState>)
    requires part != [] && Enumerates(order) && Filled(ProjectOf(part)) && !HasTwins(part)
    requires NoDuplicates(ids) && forall id :: id in ids ==> id in ProjectOf(part).sessions
    ensures Separated(RuntimeSummaries(ProjectOf(part), ids, includeSubagents, order, states), RuntimeSummaryLe)
  {
    EraseSummaries(ProjectOf(part), ids, includeSubagents, order, states);
    SummariesSeparated(part, ids, includeSubagents, order);
    SeparatedBefore(RuntimeSummaries(ProjectOf(part), ids, includeSubagents, order, states), EraseSummary,
                    RuntimeSummaryLe, SummaryLe);
  }

  lemma {:induction false} RuntimeSessionsIgnoreMapOrder(key: string, part: seq<Item>, includeSubagents: bool,
                                                         o1: IterationOrder, o2: IterationOrder,
                                                         states: seq<RuntimeState>)
    requires part != [] && Enumerates(o1) && Enumerates(o2) && Filled(ProjectOf(part)) && !HasTwins(part)
    ensures IntoRuntimeGroup(key, ProjectOf(part), includeSubagents, o1, states).sessions
         == IntoRuntimeGroup(key, ProjectOf(part), includeSubagents, o2, states).sessions
  {
    var project := ProjectOf(part);
    var e1, e2 := o1(key, project.sessions.Keys), o2(key, project.sessions.Keys);
    EveryIdEnumerated(part, o1, key);
    EveryIdEnumerated(part, o2, key);
    var a := RuntimeSummaries(project, e1, includeSubagents, o1, states);
    var b := RuntimeSummaries(project, e2, includeSubagents, o2, states);
    RuntimeSummariesSeparated(part, e1, includeSubagents, o1, states);
    RuntimeSummariesSeparated(part, e2, includeSubagents, o2, states);
    forall i, j | 0 <= i < |e1| && 0 <= j < |e2| && e1[i] == e2[j] ensures a[i] == b[j] {
      RuntimeSummaryIgnoresMapOrder(e1[i], project.sessions[e1[i]], includeSubagents, o1, o2, states);
    }
    assert forall k :: k in e1 <==> k in e2;
    SameElements(a, b, e1, e2);
    RuntimeOrders();
    SortSeparated(a, b, RuntimeSummaryLe);
  }

  lemma {:induction false} RuntimeGroupIgnoresMapOrder(key: string, part: seq<Item>, includeSubagents: bool,
                                                       o1: IterationOrder, o2: IterationOrder,
                                                       states: seq<RuntimeState>)
    requires part != [] && Enumerates(o1) && Enumerates(o2) && Filled(ProjectOf(part)) && !HasTwins(part)
    ensures IntoRuntimeGroup(key, ProjectOf(part), includeSubagents, o1, states)
         == IntoRuntimeGroup(key, ProjectOf(part), includeSubagents, o2, states)
  {
    EraseIntoGroup(key, ProjectOf(part), includeSubagents, o1, states);
    EraseIntoGroup(key, ProjectOf(part), includeSubagents, o2, states);
    GroupIgnoresMapOrder(key, part, includeSubagents, o1, o2);
    RuntimeSessionsIgnoreMapOrder(key, part, includeSubagents, o1, o2, states);
  }

  lemma {:induction false} SeparatedUnerased(groups: seq<RuntimeGroup>)
    requires Separated(Map(groups, EraseGroup), GroupLe)
    ensures Separated(groups, RuntimeGroupLe)
  {
    SeparatedBefore(groups, EraseGroup, RuntimeGroupLe, GroupLe);
  }

  lemma {:induction false} RuntimeGroupsSeparated(items: seq<Item>, keys: seq<string>, includeSubagents: bool,
                                                  order: IterationOrder, states: seq<RuntimeState>)
    requires Enumerates(order) && NoDuplicates(keys)
    requires forall key :: key in keys ==> key in ProjectsOf(items) && Filled(ProjectsOf(items)[key])
    ensures Separated(IntoRuntimeGroups(ProjectsOf(items), keys, includeSubagents, order, states), RuntimeGroupLe)
  {
    EraseGroups(ProjectsOf(items), keys, includeSubagents, order, states);
    GroupsSeparated(items, keys, includeSubagents, order);
    SeparatedUnerased(IntoRuntimeGroups(ProjectsOf(items), keys, includeSubagents, order, states));
  }

  /** Without twin sessions the runtime groups, runtime fields included, are the same under any two orders. */
  lemma {:induction false} RuntimeGroupsIgnoreMapOrder(items: seq<Item>, path: Option<string>, includeSubagents: bool,
                                                       o1: IterationOrder, o2: IterationOrder,
                                                       states: seq<RuntimeState>)
    requires Enumerates(o1) && Enumerates(o2) && NoTwins(Selected(items, path))
    ensures SortedRuntimeGroups(items, path, includeSubagents, o1, states)
         == SortedRuntimeGroups(items, path, includeSubagents, o2, states)
  {
    var selected := Selected(items, path);
    var projects := ProjectsOf(selected);
    ProjectsAreFilled(selected);
    var e1, e2 := o1("", projects.Keys), o2("", projects.Keys);
    var a := IntoRuntimeGroups(projects, e1, includeSubagents, o1, states);
    var b := IntoRuntimeGroups(projects, e2, includeSubagents, o2, states);
    RuntimeGroupsSeparated(selected, e1, includeSubagents, o1, states);
    RuntimeGroupsSeparated(selected, e2, includeSubagents, o2, states);
    forall i, j | 0 <= i < |e1| && 0 <= j < |e2| && e1[i] == e2[j] ensures a[i] == b[j] {
      WithKeyNonempty(selected, ProjectKey, e1[i]);
      RuntimeGroupIgnoresMapOrder(e1[i], WithKey(selected, ProjectKey, e1[i]), includeSubagents, o1, o2, states);
    }
    assert forall k :: k in e1 <==> k in e2;
    SameElements(a, b, e1, e2);
    RuntimeOrders();
    SortSeparated(a, b, RuntimeGroupLe);
  }

  ghost predicate RuntimeGroupsIgnoreOrders(items: seq<Item>, path: Option<string>, includeSubagents: bool,
                                            states: seq<RuntimeState>) {
    forall o1, o2 :: Enumerates(o1) && Enumerates(o2) ==>
      SortedRuntimeGroups(items, path, includeSubagents, o1, states)
      == SortedRuntimeGroups(items, path, includeSubagents, o2, states)
  }

  /** They are so exactly then, whatever the runtime states. */
  lemma {:induction false} RuntimeGroupsIgnoreOrdersExactly(items: seq<Item>, path: Option<string>,
                                                            includeSubagents: bool, states: seq<RuntimeState>)
    ensures RuntimeGroupsIgnoreOrders(items, path, includeSubagents, states) <==> NoTwins(Selected(items, path))
  {
    if NoTwins(Selected(items, path)) {
      forall o1, o2 | Enumerates(o1) && Enumerates(o2)
        ensures SortedRuntimeGroups(items, path, includeSubagents, o1, states)
             == SortedRuntimeGroups(items, path, includeSubagents, o2, states)
      {
        RuntimeGroupsIgnoreMapOrder(items, path, includeSubagents, o1, o2, states);
      }
    } else {
      GroupsIgnoreOrdersExactly(items, path, includeSubagents);
      var o1, o2 :| Enumerates(o1) && Enumerates(o2)
        && SortedGroups(items, path, includeSubagents, o1) != SortedGroups(items, path, includeSubagents, o2);
      EraseSorted(items, path, includeSubagents, o1, states);
      EraseSorted(items, path, includeSubagents, o2, states);
    }
  }

  // ---------------------------------------------------------------------------------------------
  // Which runtime state a session shows
  // ---------------------------------------------------------------------------------------------

  /** Position `k` holds the last of the most urgent, most recent candidates. */
  ghost predicate LastBest(candidates: seq<RuntimeState>, k: int) {
    && 0 <= k < |candidates|
    && (forall i :: 0 <= i < |candidates| ==> PriorityLe(candidates[i], candidates[k]))
    && (forall i :: k < i < |candidates| ==> !PriorityLe(candidates[k], candidates[i]))
  }

  lemma {:induction false} LastBestExtends(candidates: seq<RuntimeState>, next: RuntimeState, k: nat)
    requires LastBest(candidates, k)
    ensures if PriorityLe(candidates[k], next) then LastBest(candidates + [next], |candidates|)
            else LastBest(candidates + [next], k)
  {}

  /** The chosen state is the last best candidate. */
  lemma {:induction false} BestRuntimeIsMaximum(candidates: seq<RuntimeState>) returns (k: int)
    requires candidates != []
    ensures LastBest(candidates, k) && BestRuntime(candidates) == Some(candidates[k])
  {
    var n := |candidates| - 1;
    k := n;
    if n > 0 {
      var earlier := candidates[..n];
      var j := BestRuntimeIsMaximum(earlier);
      assert candidates == earlier + [candidates[n]] && candidates[j] == earlier[j];
      LastBestExtends(earlier, candidates[n], j);
      k := if PriorityLe(candidates[j], candidates[n]) then n else j;
    } else {
      assert candidates[..n] == [];
    }
  }

  /** A candidate is the first state recorded for the tool and id of one of the sessions. */
  lemma {:induction false} RuntimesOfMember(raw: seq<Item>, states: seq<RuntimeState>, state: RuntimeState)
    ensures state in RuntimesOf(raw, states)
       <==> exists i :: 0 <= i < |raw| && RuntimeFor(states, raw[i].tool, raw[i].sessionId) == Some(state)
  {
    if raw != [] {
      RuntimesOfMember(raw[1..], states, state);
      assert forall i :: 0 < i < |raw| ==> raw[i] == raw[1..][i - 1];
    }
  }
}
