/** The two project-group pipelines of the session registry (crates/niuma-api/src/tool_sessions.rs): items
    are grouped by project, then by normalized session, summarised, sorted and paged; the second pipeline
    also attaches runtime states.

    Hash map iteration appears as an explicit, arbitrary `IterationOrder`. */
module SessionGroups {
  import opened Text
  import opened Wrappers
  import opened StableSort
  import opened SessionModel
  import opened SessionControl

  const NUL: char := '\0'
  const USIZE_MAX: nat := 0xFFFF_FFFF_FFFF_FFFF
  const DEFAULT_PAGE: nat := 1
  const DEFAULT_PAGE_SIZE: nat := 20
  const MAX_PAGE_SIZE: nat := 100

  // ---------------------------------------------------------------------------------------------
  // Raw sessions
  // ---------------------------------------------------------------------------------------------

  function NormalizedId(item: Item): string {
    match item.normalizedSessionId
    case Some(id) => id
    case None => if item.isSubagent && item.parentSessionId.Some? then item.parentSessionId.value else item.sessionId
  }

  function ScopeOf(item: Item): SessionScope {
    match item.sessionScope
    case Some(scope) => scope
    case None => if item.isSubagent then Subagent else Main
  }

  function ScopeRank(item: Item): nat {
    if ScopeOf(item).Main? then 0 else 1
  }

  predicate RawLe(l: Item, r: Item) {
    if ScopeRank(l) != ScopeRank(r) then ScopeRank(l) < ScopeRank(r)
    else if l.modifiedAt != r.modifiedAt then l.modifiedAt > r.modifiedAt
    else StringLe(l.sessionId, r.sessionId)
  }

  function FirstMain(raw: seq<Item>): Option<Item> {
    if raw == [] then None else if ScopeOf(raw[0]).Main? then Some(raw[0]) else FirstMain(raw[1..])
  }

  function FirstWithId(raw: seq<Item>, id: string): Option<Item> {
    if raw == [] then None else if raw[0].sessionId == id then Some(raw[0]) else FirstWithId(raw[1..], id)
  }

  /** `raw[0]` is only read when it exists. */
  function Primary(normalizedId: string, raw: seq<Item>): (primary: Item)
    requires raw != []
    ensures primary in raw
  {
    PrimaryCandidates(normalizedId, raw);
    match FirstMain(raw)
    case Some(item) => item
    case None => match FirstWithId(raw, normalizedId) case Some(item) => item case None => raw[0]
  }

  lemma {:induction false} PrimaryCandidates(normalizedId: string, raw: seq<Item>)
    ensures FirstMain(raw).Some? ==> FirstMain(raw).value in raw
    ensures FirstWithId(raw, normalizedId).Some? ==> FirstWithId(raw, normalizedId).value in raw
  {
    if raw != [] {
      PrimaryCandidates(normalizedId, raw[1..]);
    }
  }

  function LatestModified(raw: seq<Item>): int
    requires raw != []
  {
    if |raw| == 1 then raw[0].modifiedAt
    else
      var rest := LatestModified(raw[1..]);
      if raw[0].modifiedAt > rest then raw[0].modifiedAt else rest
  }

  function Title(item: Item): string {
    "session-" + if |item.sessionId| <= 8 then item.sessionId else item.sessionId[..8]
  }

  datatype FirstMessage = FirstMessage(preview: string, createdAt: int)

  function MessageOf(item: Item): Option<FirstMessage> {
    if item.firstUserMessagePreview.Some? && item.firstUserMessageAt.Some? then
      Some(FirstMessage(item.firstUserMessagePreview.value, item.firstUserMessageAt.value))
    else None
  }

  /** The earliest message; among equally early ones the first, as `min_by_key` picks it. */
  function EarliestMessage(raw: seq<Item>): Option<FirstMessage> {
    if raw == [] then None
    else match (MessageOf(raw[0]), EarliestMessage(raw[1..]))
      case (None, rest) => rest
      case (Some(m), None) => Some(m)
      case (Some(m), Some(rest)) => if m.createdAt <= rest.createdAt then Some(m) else Some(rest)
  }

  function FirstUserMessage(primary: Item, raw: seq<Item>): Option<FirstMessage> {
    if MessageOf(primary).Some? then MessageOf(primary) else EarliestMessage(raw)
  }

  predicate IsSubagent(item: Item) { item.isSubagent }

  predicate AnyItem(item: Item) { true }

  function StatusOf(primary: Item, raw: seq<Item>): SessionStatus {
    if exists i :: 0 <= i < |raw| && raw[i].isActive then Active else primary.status
  }

  // ---------------------------------------------------------------------------------------------
  // The plain pipeline
  // ---------------------------------------------------------------------------------------------

  datatype RawSummary = RawSummary(
    sessionId: string, parentSessionId: Option<string>, normalizedSessionId: string, sessionScope: SessionScope,
    agentNickname: Option<string>, agentRole: Option<string>, normalizationStatus: Option<Normalization>,
    sourcePath: string, updatedAt: int, isActive: bool, status: SessionStatus)

  datatype SessionSummary = SessionSummary(
    normalizedSessionId: string, primarySessionId: string, title: string, status: SessionStatus, updatedAt: int,
    firstUserMessagePreview: Option<string>, firstUserMessageAt: Option<int>, latestEventSummary: Option<string>,
    subagentCount: nat, control: Option<Control>, rawSessions: Option<seq<RawSummary>>)

  datatype ProjectGroup = ProjectGroup(
    tool: ToolId, projectPath: string, projectName: string, updatedAt: int,
    normalizedSessionCount: nat, rawSessionCount: nat, subagentCount: nat, sessions: seq<SessionSummary>)

  function RawSessionSummary(item: Item): RawSummary {
    RawSummary(item.sessionId, item.parentSessionId, NormalizedId(item), ScopeOf(item), item.agentNickname,
               item.agentRole, item.normalizationStatus, item.filePath, item.modifiedAt, item.isActive, item.status)
  }

  function Summarize(normalizedId: string, items: seq<Item>, includeSubagents: bool,
                     order: IterationOrder): SessionSummary
    requires items != [] && Enumerates(order)
  {
    SortPermutes(items, RawLe);
    var raw := Sort(items, RawLe);
    var primary := Primary(normalizedId, raw);
    var message := FirstUserMessage(primary, raw);
    SessionSummary(
      normalizedId, primary.sessionId, Title(primary), StatusOf(primary, raw), LatestModified(raw),
      if message.Some? then Some(message.value.preview) else None,
      if message.Some? then Some(message.value.createdAt) else None,
      None, Count(raw, IsSubagent), NormalizedControl(primary, raw, order, normalizedId),
      if includeSubagents then Some(Map(raw, RawSessionSummary)) else None)
  }

  /** One project's accumulator: its name so far and its sessions by normalized id. */
  datatype Project = Project(tool: ToolId, projectPath: string, projectName: string, sessions: map<string, seq<Item>>)

  function NewProject(item: Item): Project {
    Project(item.tool, item.projectPath, item.projectName, map[])
  }

  function Push(project: Project, item: Item): Project {
    var id := NormalizedId(item);
    var name := if IsBlank(item.projectName) then project.projectName else item.projectName;
    var earlier := if id in project.sessions then project.sessions[id] else [];
    project.(projectName := name, sessions := project.sessions[id := earlier + [item]])
  }

  predicate SummaryLe(l: SessionSummary, r: SessionSummary) {
    if l.updatedAt != r.updatedAt then l.updatedAt > r.updatedAt else StringLe(l.primarySessionId, r.primarySessionId)
  }

  predicate GroupLe(l: ProjectGroup, r: ProjectGroup) {
    if l.updatedAt != r.updatedAt then l.updatedAt > r.updatedAt
    else if AsStr(l.tool) != AsStr(r.tool) then StringLe(AsStr(l.tool), AsStr(r.tool))
    else StringLe(l.projectPath, r.projectPath)
  }

  /** A project that holds sessions, none of them empty: what pushing items builds. */
  ghost predicate Filled(project: Project) {
    project.sessions != map[] && forall id :: id in project.sessions ==> project.sessions[id] != []
  }

  function Summaries(project: Project, ids: seq<string>, includeSubagents: bool,
                     order: IterationOrder): seq<SessionSummary>
    requires Filled(project) && Enumerates(order) && forall id :: id in ids ==> id in project.sessions
  {
    seq(|ids|, i requires 0 <= i < |ids| => Summarize(ids[i], project.sessions[ids[i]], includeSubagents, order))
  }

  function SessionSizes(project: Project, ids: seq<string>): seq<nat>
    requires forall id :: id in ids ==> id in project.sessions
  {
    seq(|ids|, i requires 0 <= i < |ids| => |project.sessions[ids[i]]|)
  }

  function SubagentsIn(s: SessionSummary): nat { s.subagentCount }

  /** The maximum of a nonempty list, so that no fallback to the present time is needed. */
  function LatestUpdate(sessions: seq<SessionSummary>): int
    requires sessions != []
  {
    if |sessions| == 1 then sessions[0].updatedAt
    else
      var rest := LatestUpdate(sessions[1..]);
      if sessions[0].updatedAt > rest then sessions[0].updatedAt else rest
  }

  function IntoGroup(key: string, project: Project, includeSubagents: bool, order: IterationOrder): ProjectGroup
    requires Filled(project) && Enumerates(order)
  {
    var ids := order(key, project.sessions.Keys);
    var unsorted := Summaries(project, ids, includeSubagents, order);
    SortPermutes(unsorted, SummaryLe);
    EnumerationNonempty(project, order, key);
    var sessions := Sort(unsorted, SummaryLe);
    ProjectGroup(project.tool, project.projectPath, project.projectName, LatestUpdate(sessions), |sessions|,
                 Sum(SessionSizes(project, ids)), Sum(Map(sessions, SubagentsIn)), sessions)
  }

  lemma {:induction false} EnumerationNonempty(project: Project, order: IterationOrder, key: string)
    requires Filled(project) && Enumerates(order)
    ensures order(key, project.sessions.Keys) != []
  {
    var id :| id in project.sessions;
    assert id in order(key, project.sessions.Keys);
  }

  function IntoGroups(projects: map<string, Project>, keys: seq<string>, includeSubagents: bool,
                      order: IterationOrder): seq<ProjectGroup>
    requires Enumerates(order)
    requires forall key :: key in keys ==> key in projects && Filled(projects[key])
  {
    seq(|keys|, i requires 0 <= i < |keys| => IntoGroup(keys[i], projects[keys[i]], includeSubagents, order))
  }

  // ---------------------------------------------------------------------------------------------
  // Collecting projects
  // ---------------------------------------------------------------------------------------------

  function ProjectKey(item: Item): string {
    AsStr(item.tool) + [NUL] + item.projectPath
  }

  /** The project name after a run of pushes: the last one that is not blank, else the first item's. */
  function NameOf(items: seq<Item>): string
    requires items != []
  {
    var last := items[|items| - 1];
    if !IsBlank(last.projectName) || |items| == 1 then last.projectName else NameOf(items[..|items| - 1])
  }

  /** What a project is, in terms of its items alone. */
  function ProjectOf(items: seq<Item>): Project
    requires items != []
  {
    Project(items[0].tool, items[0].projectPath, NameOf(items),
            map id | id in KeySet(items, NormalizedId) :: WithKey(items, NormalizedId, id))
  }

  function ProjectsOf(items: seq<Item>): map<string, Project> {
    map key | key in KeySet(items, ProjectKey) ::
      (WithKeyNonempty(items, ProjectKey, key); ProjectOf(WithKey(items, ProjectKey, key)))
  }

  function Selected(items: seq<Item>, path: Option<string>): seq<Item> {
    if items == [] then []
    else
      var n := |items| - 1;
      Selected(items[..n], path) + if path.None? || items[n].projectPath == path.value then [items[n]] else []
  }

  lemma {:induction false} SelectedOne(items: seq<Item>, last: Item, path: Option<string>)
    ensures Selected(items + [last], path)
         == Selected(items, path) + if path.None? || last.projectPath == path.value then [last] else []
  {
    assert (items + [last])[..|items|] == items;
  }

  lemma {:induction false} ProjectsAreFilled(items: seq<Item>)
    ensures forall key :: key in ProjectsOf(items) ==> Filled(ProjectsOf(items)[key])
  {
    forall key | key in ProjectsOf(items) ensures Filled(ProjectsOf(items)[key]) {
      var part := WithKey(items, ProjectKey, key);
      WithKeyNonempty(items, ProjectKey, key);
      var sessions := ProjectsOf(items)[key].sessions;
      assert NormalizedId(part[0]) in KeySet(part, NormalizedId);
      assert NormalizedId(part[0]) in sessions;
      forall id | id in KeySet(part, NormalizedId) ensures WithKey(part, NormalizedId, id) != [] {
        WithKeyNonempty(part, NormalizedId, id);
      }
    }
  }

  lemma {:induction false} PushExtends(items: seq<Item>, item: Item)
    requires items != []
    ensures ProjectOf(items + [item]) == Push(ProjectOf(items), item)
  {
    var all := items + [item];
    assert all[..|items|] == items;
    KeySetPush(items, item, NormalizedId);
    forall id | id in KeySet(all, NormalizedId)
      ensures id in Push(ProjectOf(items), item).sessions
      ensures WithKey(all, NormalizedId, id) == Push(ProjectOf(items), item).sessions[id]
    {
      WithKeyNonempty(items, NormalizedId, id);
    }
    assert ProjectOf(all).sessions == Push(ProjectOf(items), item).sessions;
  }

  lemma {:induction false} KeySetPush(items: seq<Item>, item: Item, keyOf: Item -> string)
    ensures KeySet(items + [item], keyOf) == KeySet(items, keyOf) + {keyOf(item)}
  {
    var all := items + [item];
    forall key ensures key in KeySet(all, keyOf) <==> key in KeySet(items, keyOf) + {keyOf(item)} {
      if key in KeySet(items, keyOf) {
        var i :| 0 <= i < |items| && keyOf(items[i]) == key;
        assert keyOf(all[i]) == key;
      }
      if key == keyOf(item) {
        assert keyOf(all[|items|]) == key;
      }
    }
  }

  lemma {:induction false} NewProjectIsFirst(item: Item)
    ensures ProjectOf([item]) == Push(NewProject(item), item)
  {
    var part := [item];
    assert part[..0] == [];
    assert KeySet(part, NormalizedId) == {NormalizedId(item)} by {
      assert part == [] + [item];
      KeySetPush([], item, NormalizedId);
    }
    assert WithKey(part, NormalizedId, NormalizedId(item)) == [item];
  }

  function PushInto(projects: map<string, Project>, item: Item): map<string, Project> {
    var key := ProjectKey(item);
    projects[key := Push(if key in projects then projects[key] else NewProject(item), item)]
  }

  lemma {:induction false} ProjectsPushSameKey(items: seq<Item>, item: Item)
    ensures ProjectKey(item) in ProjectsOf(items + [item])
    ensures ProjectsOf(items + [item])[ProjectKey(item)] == PushInto(ProjectsOf(items), item)[ProjectKey(item)]
  {
    var all, key := items + [item], ProjectKey(item);
    assert all[..|items|] == items;
    KeySetPush(items, item, ProjectKey);
    WithKeyNonempty(items, ProjectKey, key);
    var part := WithKey(items, ProjectKey, key);
    assert WithKey(all, ProjectKey, key) == part + [item];
    if part != [] {
      PushExtends(part, item);
    } else {
      assert part + [item] == [item];
      NewProjectIsFirst(item);
    }
  }

  lemma {:induction false} ProjectsPushOtherKey(items: seq<Item>, item: Item, key: string)
    requires key != ProjectKey(item)
    ensures key in ProjectsOf(items + [item]) <==> key in ProjectsOf(items)
    ensures key in ProjectsOf(items) ==> ProjectsOf(items + [item])[key] == ProjectsOf(items)[key]
  {
    var all := items + [item];
    assert all[..|items|] == items;
    KeySetPush(items, item, ProjectKey);
    assert WithKey(all, ProjectKey, key) == WithKey(items, ProjectKey, key);
  }

  lemma {:induction false} ProjectsPush(items: seq<Item>, item: Item)
    ensures ProjectsOf(items + [item]) == PushInto(ProjectsOf(items), item)
  {
    var after, pushed := ProjectsOf(items + [item]), PushInto(ProjectsOf(items), item);
    forall key ensures key in after <==> key in pushed {
      if key == ProjectKey(item) { ProjectsPushSameKey(items, item); } else { ProjectsPushOtherKey(items, item, key); }
    }
    forall key | key in after ensures after[key] == pushed[key] {
      if key == ProjectKey(item) { ProjectsPushSameKey(items, item); } else { ProjectsPushOtherKey(items, item, key); }
    }
    SameMaps(after, pushed);
  }

  lemma {:induction false} SameMaps<K, V>(a: map<K, V>, b: map<K, V>)
    requires forall key :: key in a <==> key in b
    requires forall key :: key in a ==> a[key] == b[key]
    ensures a == b
  {}

  /** The accumulation loop both pipelines run: the projects are exactly the items grouped by key. */
  method CollectProjects(items: seq<Item>, path: Option<string>) returns (projects: map<string, Project>)
    ensures projects == ProjectsOf(Selected(items, path))
  {
    projects := map[];
    assert KeySet<Item, string>([], ProjectKey) == {};
    var i := 0;
    while i < |items|
      invariant 0 <= i <= |items|
      invariant projects == ProjectsOf(Selected(items[..i], path))
    {
      var item := items[i];
      assert items[..i + 1][..i] == items[..i];
      if path.Some? && item.projectPath != path.value {
        assert Selected(items[..i + 1], path) == Selected(items[..i], path);
      } else {
        ProjectsPush(Selected(items[..i], path), item);
        var entry := if ProjectKey(item) in projects then projects[ProjectKey(item)] else NewProject(item);
        projects := projects[ProjectKey(item) := Push(entry, item)];
      }
      i := i + 1;
    }
    assert items[..i] == items;
  }

  // ---------------------------------------------------------------------------------------------
  // Pages
  // ---------------------------------------------------------------------------------------------

  datatype Query = Query(tool: Option<string>, projectPath: Option<string>, includeSubagents: bool,
                         page: Option<nat>, pageSize: Option<nat>)

  datatype Page<T> = Page(list: seq<T>, page: nat, pageSize: nat, total: nat)

  datatype PageResult<T> = PageOk(value: Page<T>) | PageErr(message: string)

  function SaturatingMul(a: nat, b: nat): nat {
    if a * b > USIZE_MAX then USIZE_MAX else a * b
  }

  /** `skip(start).take(page_size)`. */
  function PageOf<T>(groups: seq<T>, page: nat, pageSize: nat): seq<T>
    requires page >= 1
  {
    var start := SaturatingMul(page - 1, pageSize);
    if start >= |groups| then []
    else if start + pageSize >= |groups| then groups[start..]
    else groups[start..start + pageSize]
  }

  function Paged<T>(groups: seq<T>, query: Query): PageResult<T> {
    var page := if query.page.Some? then query.page.value else DEFAULT_PAGE;
    var size := if query.pageSize.Some? then query.pageSize.value else DEFAULT_PAGE_SIZE;
    if page == 0 then PageErr("page 必须大于 0")
    else if size == 0 then PageErr("page_size 必须大于 0")
    else
      var capped := if size > MAX_PAGE_SIZE then MAX_PAGE_SIZE else size;
      PageOk(Page(PageOf(groups, page, capped), page, capped, |groups|))
  }

  function FirstPages<T>(groups: seq<T>, pages: nat, pageSize: nat): seq<T> {
    if pages == 0 then [] else FirstPages(groups, pages - 1, pageSize) + PageOf(groups, pages, pageSize)
  }

  /** Pages 1 to n joined are a prefix of the group list with neither gap nor overlap, even where the
      offset saturates, and reach its end once n * size does. */
  lemma {:induction false} PagesCover<T>(groups: seq<T>, pages: nat, pageSize: nat)
    requires pageSize >= 1 && |groups| <= USIZE_MAX
    ensures FirstPages(groups, pages, pageSize)
         == if pages * pageSize >= |groups| then groups else groups[..pages * pageSize]
  {
    if pages > 0 {
      PagesCover(groups, pages - 1, pageSize);
      assert pages * pageSize == (pages - 1) * pageSize + pageSize;
      OnePage(groups, (pages - 1) * pageSize, pages, pageSize);
    }
  }

  /** One page continues where the pages before it ended. */
  lemma {:induction false} OnePage<T>(groups: seq<T>, start: nat, page: nat, pageSize: nat)
    requires pageSize >= 1 && page >= 1 && |groups| <= USIZE_MAX && start == (page - 1) * pageSize
    ensures (if start >= |groups| then groups else groups[..start]) + PageOf(groups, page, pageSize)
         == if start + pageSize >= |groups| then groups else groups[..start + pageSize]
  {
    if start < |groups| && start + pageSize < |groups| {
      assert groups[..start] + groups[start..start + pageSize] == groups[..start + pageSize];
    } else if start < |groups| {
      assert groups[..start] + groups[start..] == groups;
    } else {
      assert groups + [] == groups;
    }
  }

  lemma {:induction false} FirstDifferingPage<T>(g: seq<T>, h: seq<T>, pages: nat, pageSize: nat) returns (page: nat)
    requires FirstPages(g, pages, pageSize) != FirstPages(h, pages, pageSize)
    ensures 1 <= page <= pages && PageOf(g, page, pageSize) != PageOf(h, page, pageSize)
  {
    if PageOf(g, pages, pageSize) != PageOf(h, pages, pageSize) {
      page := pages;
    } else {
      page := FirstDifferingPage(g, h, pages - 1, pageSize);
    }
  }

  /** Two different lists differ on some page of size one. */
  lemma {:induction false} SomePageDiffers<T>(g: seq<T>, h: seq<T>) returns (page: nat)
    requires g != h && |g| <= USIZE_MAX && |h| <= USIZE_MAX
    ensures page >= 1 && PageOf(g, page, 1) != PageOf(h, page, 1)
  {
    PagesCover(g, |g| + |h|, 1);
    PagesCover(h, |g| + |h|, 1);
    page := FirstDifferingPage(g, h, |g| + |h|, 1);
  }

  /** The requested path is trimmed, and dropped when nothing is left. */
  function RequestedPath(query: Query): Option<string> {
    if query.projectPath.None? || Trim(query.projectPath.value) == "" then None else Some(Trim(query.projectPath.value))
  }

  function SortedGroups(items: seq<Item>, path: Option<string>, includeSubagents: bool,
                        order: IterationOrder): seq<ProjectGroup>
    requires Enumerates(order)
  {
    var projects := ProjectsOf(Selected(items, path));
    ProjectsAreFilled(Selected(items, path));
    Sort(IntoGroups(projects, order("", projects.Keys), includeSubagents, order), GroupLe)
  }

  function ProjectGroups(items: seq<Item>, query: Query, order: IterationOrder): PageResult<ProjectGroup>
    requires Enumerates(order)
  {
    Paged(SortedGroups(items, RequestedPath(query), query.includeSubagents, order), query)
  }
}
