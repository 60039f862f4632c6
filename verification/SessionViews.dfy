/** What the session pages show, told of the snapshot items alone: which items a group and a session stand for, what
    each of their fields says about those items, and in which order they come
    (crates/niuma-api/src/tool_sessions.rs). */
module SessionViews {
  import opened Text
  import opened Wrappers
  import opened StableSort
  import opened SessionModel
  import opened SessionControl
  import opened SessionGroups
  import opened SessionGroupsProofs
  import opened SessionRuntime

  // ---------------------------------------------------------------------------------------------
  // The first element that a sort puts forward
  // ---------------------------------------------------------------------------------------------

  /** Position `k` holds the leftmost of the least elements with a property. */
  ghost predicate LeftmostLeast<T(!new)>(s: seq<T>, k: int, among: T -> bool, le: (T, T) -> bool) {
    && 0 <= k < |s| && among(s[k])
    && (forall j :: 0 <= j < |s| && among(s[j]) ==> le(s[k], s[j]))
    && (forall j :: 0 <= j < k && among(s[j]) ==> !le(s[j], s[k]))
  }

  function FirstWhere<T>(s: seq<T>, among: T -> bool): Option<T> {
    if s == [] then None else if among(s[0]) then Some(s[0]) else FirstWhere(s[1..], among)
  }

  lemma {:induction false} FirstWhereMember<T>(s: seq<T>, among: T -> bool)
    ensures FirstWhere(s, among).Some? ==> FirstWhere(s, among).value in s && among(FirstWhere(s, among).value)
    ensures FirstWhere(s, among).None? <==> forall x :: x in s ==> !among(x)
  {
    if s != [] {
      FirstWhereMember(s[1..], among);
      assert s == [s[0]] + s[1..];
    }
  }

  lemma {:induction false} FirstAfterInsert<T(!new)>(x: T, s: seq<T>, among: T -> bool, le: (T, T) -> bool)
    requires TotalPreorder(le) && Sorted(s, le)
    ensures FirstWhere(Insert(x, s, le), among)
         == var first := FirstWhere(s, among);
            if among(x) && (first.None? || le(x, first.value)) then Some(x) else first
  {
    if s == [] {
      assert [x][1..] == [];
    } else if le(x, s[0]) {
      assert ([x] + s)[1..] == s;
      FirstWhereMember(s, among);
    } else {
      FirstAfterInsert(x, s[1..], among, le);
      assert Insert(x, s, le)[1..] == Insert(x, s[1..], le);
    }
  }

  /** After a stable sort the first element with a property is the leftmost of the least ones. */
  lemma {:induction false} FirstAfterSort<T(!new)>(s: seq<T>, among: T -> bool, le: (T, T) -> bool) returns (k: int)
    requires TotalPreorder(le)
    ensures FirstWhere(Sort(s, le), among).None? ==> forall x :: x in s ==> !among(x)
    ensures FirstWhere(Sort(s, le), among).Some? ==>
      LeftmostLeast(s, k, among, le) && s[k] == FirstWhere(Sort(s, le), among).value
  {
    k := 0;
    if s != [] {
      var tail := s[1..];
      var j := FirstAfterSort(tail, among, le);
      SortSorted(tail, le);
      FirstAfterInsert(s[0], Sort(tail, le), among, le);
      var first := FirstWhere(Sort(tail, le), among);
      assert s == [s[0]] + tail;
      if among(s[0]) && (first.None? || le(s[0], first.value)) {
        LeastWithHead(s, j, among, le);
      } else if first.Some? {
        k := j + 1;
        LeastInTail(s, j, among, le);
      }
    }
  }

  lemma {:induction false} LeastWithHead<T(!new)>(s: seq<T>, j: int, among: T -> bool, le: (T, T) -> bool)
    requires TotalPreorder(le) && s != [] && among(s[0])
    requires (LeftmostLeast(s[1..], j, among, le) && le(s[0], s[1..][j])) || forall x :: x in s[1..] ==> !among(x)
    ensures LeftmostLeast(s, 0, among, le)
  {
    forall i | 0 <= i < |s| && among(s[i]) ensures le(s[0], s[i]) {
      if i > 0 {
        assert s[i] == s[1..][i - 1];
        assert s[1..][i - 1] in s[1..];
      }
    }
  }

  lemma {:induction false} LeastInTail<T(!new)>(s: seq<T>, j: int, among: T -> bool, le: (T, T) -> bool)
    requires TotalPreorder(le) && s != [] && LeftmostLeast(s[1..], j, among, le)
    requires !(among(s[0]) && le(s[0], s[1..][j]))
    ensures LeftmostLeast(s, j + 1, among, le)
  {
    assert s[j + 1] == s[1..][j];
    forall i | 0 <= i < |s| && among(s[i]) ensures le(s[j + 1], s[i]) && (i < j + 1 ==> !le(s[i], s[j + 1])) {
      if i > 0 {
        assert s[i] == s[1..][i - 1];
      }
    }
  }

  // ---------------------------------------------------------------------------------------------
  // The session an item belongs to, and its place in it
  // ---------------------------------------------------------------------------------------------

  /** An item joins the session it was normalized to; failing that, a subagent joins its parent's session, and any
      other item its own. */
  predicate Joins(x: Item, id: string) {
    || x.normalizedSessionId == Some(id)
    || (x.normalizedSessionId == None && x.isSubagent && x.parentSessionId == Some(id))
    || (x.normalizedSessionId == None && !(x.isSubagent && x.parentSessionId != None) && x.sessionId == id)
  }

  predicate IsMain(x: Item) {
    x.sessionScope == Some(Main) || (x.sessionScope == None && !x.isSubagent)
  }

  /** More recently modified, or as recently with no larger session id. */
  predicate Leads(x: Item, y: Item) {
    x.modifiedAt > y.modifiedAt || (x.modifiedAt == y.modifiedAt && StringLe(x.sessionId, y.sessionId))
  }

  /** Main sessions come before subagents. */
  predicate ComesFirst(x: Item, y: Item) {
    (IsMain(x) && !IsMain(y)) || (IsMain(x) == IsMain(y) && Leads(x, y))
  }

  lemma {:induction false} JoinsIsNormalizedId(x: Item, id: string)
    ensures Joins(x, id) <==> NormalizedId(x) == id
  {}

  lemma {:induction false} ComesFirstIsRawLe(x: Item, y: Item)
    ensures ComesFirst(x, y) <==> RawLe(x, y)
  {}

  lemma {:induction false} RawOrder()
    ensures TotalPreorder(RawLe)
  {
    StringOrder();
  }

  /** The raw sessions of a normalized session, in the order they are listed. */
  ghost predicate InRawOrder(raw: seq<Item>, items: seq<Item>) {
    multiset(raw) == multiset(items) && forall i, j :: 0 <= i < j < |raw| ==> ComesFirst(raw[i], raw[j])
  }

  ghost predicate HasMain(items: seq<Item>) {
    exists x :: x in items && IsMain(x)
  }

  ghost predicate HasOwn(items: seq<Item>, id: string) {
    exists x :: x in items && x.sessionId == id
  }

  /** Who can be primary: the main sessions; if there are none, those of the normalized id; else all. */
  ghost predicate MayBePrimary(x: Item, items: seq<Item>, id: string) {
    if HasMain(items) then IsMain(x) else if HasOwn(items, id) then x.sessionId == id else true
  }

  /** The primary session is the earliest recorded of the leading ones that can be primary. */
  ghost predicate IsPrimary(primary: Item, items: seq<Item>, id: string) {
    exists k ::
      && 0 <= k < |items| && items[k] == primary && MayBePrimary(primary, items, id)
      && (forall j :: 0 <= j < |items| && MayBePrimary(items[j], items, id) ==> Leads(primary, items[j]))
      && (forall j :: 0 <= j < k && MayBePrimary(items[j], items, id) ==> !Leads(items[j], primary))
  }

  predicate InMain(x: Item) { ScopeOf(x).Main? }

  predicate Anyone(x: Item) { true }

  lemma {:induction false} FirstMainIs(raw: seq<Item>)
    ensures FirstMain(raw) == FirstWhere(raw, InMain)
  {
    if raw != [] {
      FirstMainIs(raw[1..]);
    }
  }

  lemma {:induction false} FirstWithIdIs(raw: seq<Item>, id: string)
    ensures FirstWithId(raw, id) == FirstWhere(raw, (x: Item) => x.sessionId == id)
  {
    if raw != [] {
      FirstWithIdIs(raw[1..], id);
    }
  }

  /** Where the candidates are all main sessions or there is no main session, leading is the raw order. */
  lemma {:induction false} LeastIsPrimary(items: seq<Item>, id: string, k: int, among: Item -> bool)
    requires LeftmostLeast(items, k, among, RawLe)
    requires forall x :: x in items ==> (among(x) <==> MayBePrimary(x, items, id))
    ensures IsPrimary(items[k], items, id)
  {
    var primary := items[k];
    forall j | 0 <= j < |items| && MayBePrimary(items[j], items, id)
      ensures Leads(primary, items[j]) <==> RawLe(primary, items[j])
      ensures Leads(items[j], primary) <==> RawLe(items[j], primary)
      ensures among(items[j])
    {
      assert items[j] in items && primary in items;
      ComesFirstIsRawLe(primary, items[j]);
      ComesFirstIsRawLe(items[j], primary);
      assert IsMain(items[j]) == IsMain(primary);
    }
    assert primary in items;
  }

  lemma {:induction false} PrimaryIs(items: seq<Item>, id: string)
    requires items != []
    ensures Sort(items, RawLe) != [] && IsPrimary(Primary(id, Sort(items, RawLe)), items, id)
  {
    SortPermutes(items, RawLe);
    RawOrder();
    var raw := Sort(items, RawLe);
    FirstMainIs(raw);
    FirstWithIdIs(raw, id);
    var ofId := (x: Item) => x.sessionId == id;
    var k := FirstAfterSort(items, InMain, RawLe);
    if FirstMain(raw).Some? {
      assert items[k] in items && IsMain(items[k]);
      LeastIsPrimary(items, id, k, InMain);
    } else {
      assert !HasMain(items);
      k := FirstAfterSort(items, ofId, RawLe);
      if FirstWithId(raw, id).Some? {
        assert items[k] in items;
        assert HasOwn(items, id);
        LeastIsPrimary(items, id, k, ofId);
      } else {
        assert !HasOwn(items, id);
        k := FirstAfterSort(items, Anyone, RawLe);
        LeastIsPrimary(items, id, k, Anyone);
      }
    }
  }

  lemma {:induction false} SortedIsInRawOrder(items: seq<Item>)
    ensures InRawOrder(Sort(items, RawLe), items)
  {
    RawOrder();
    SortPermutes(items, RawLe);
    SortSorted(items, RawLe);
    var raw := Sort(items, RawLe);
    forall i, j | 0 <= i < j < |raw| ensures ComesFirst(raw[i], raw[j]) {
      ComesFirstIsRawLe(raw[i], raw[j]);
    }
  }

  // ---------------------------------------------------------------------------------------------
  // What a listed session shows
  // ---------------------------------------------------------------------------------------------

  /** The time of the most recently modified item. */
  ghost predicate IsLatest(time: int, items: seq<Item>) {
    (exists x :: x in items && x.modifiedAt == time) && forall x :: x in items ==> x.modifiedAt <= time
  }

  lemma {:induction false} LatestModifiedIs(raw: seq<Item>)
    requires raw != []
    ensures IsLatest(LatestModified(raw), raw)
  {
    if |raw| == 1 {
      assert raw[0] in raw;
    } else {
      LatestModifiedIs(raw[1..]);
      assert raw == [raw[0]] + raw[1..];
      var x :| x in raw[1..] && x.modifiedAt == LatestModified(raw[1..]);
      assert x in raw && raw[0] in raw;
    }
  }

  predicate HasMessage(x: Item) {
    x.firstUserMessagePreview.Some? && x.firstUserMessageAt.Some?
  }

  /** The earliest message of the raw sessions; of equally early ones the one listed first. */
  ghost predicate TellsEarliest(raw: seq<Item>, k: int) {
    && 0 <= k < |raw| && HasMessage(raw[k])
    && (forall j :: 0 <= j < |raw| && HasMessage(raw[j]) ==>
          raw[k].firstUserMessageAt.value <= raw[j].firstUserMessageAt.value)
    && (forall j :: 0 <= j < k && HasMessage(raw[j]) ==>
          raw[k].firstUserMessageAt.value < raw[j].firstUserMessageAt.value)
  }

  /** The primary session's first message, if it has one; else the earliest of the raw sessions, if any has one. */
  ghost predicate ShowsMessage(preview: Option<string>, at: Option<int>, primary: Item, raw: seq<Item>) {
    if HasMessage(primary) then preview == primary.firstUserMessagePreview && at == primary.firstUserMessageAt
    else if exists x :: x in raw && HasMessage(x) then
      exists k ::
        TellsEarliest(raw, k) && preview == raw[k].firstUserMessagePreview && at == raw[k].firstUserMessageAt
    else preview == None && at == None
  }

  lemma {:induction false} EarliestMessageIs(raw: seq<Item>) returns (k: int)
    ensures EarliestMessage(raw).None? <==> forall x :: x in raw ==> !HasMessage(x)
    ensures EarliestMessage(raw).Some? ==>
      TellsEarliest(raw, k) && Some(EarliestMessage(raw).value.preview) == raw[k].firstUserMessagePreview
      && Some(EarliestMessage(raw).value.createdAt) == raw[k].firstUserMessageAt
  {
    k := 0;
    if raw != [] {
      var j := EarliestMessageIs(raw[1..]);
      assert raw == [raw[0]] + raw[1..];
      assert forall i :: 0 < i < |raw| ==> raw[i] == raw[1..][i - 1];
      var rest := EarliestMessage(raw[1..]);
      if rest.Some? && (!HasMessage(raw[0]) || raw[0].firstUserMessageAt.value > rest.value.createdAt) {
        k := j + 1;
        assert raw[k] == raw[1..][j];
      } else if HasMessage(raw[0]) {
        if rest.None? {
          forall i | 0 < i < |raw| ensures !HasMessage(raw[i]) {
            assert raw[1..][i - 1] in raw[1..];
          }
        }
      }
    }
  }

  lemma {:induction false} FirstUserMessageIs(primary: Item, raw: seq<Item>)
    ensures var message := FirstUserMessage(primary, raw);
      ShowsMessage(if message.Some? then Some(message.value.preview) else None,
                   if message.Some? then Some(message.value.createdAt) else None, primary, raw)
  {
    var k := EarliestMessageIs(raw);
  }

  /** Active while any raw session is, else as the primary session stands. */
  ghost predicate ShowsStatus(status: SessionStatus, primary: Item, raw: seq<Item>) {
    if exists x :: x in raw && x.isActive then status == Active else status == primary.status
  }

  /** How many of the raw sessions are subagents. */
  function SubagentPositions(raw: seq<Item>): set<nat> {
    set i: nat | i < |raw| && raw[i].isSubagent
  }

  lemma {:induction false} CountIsPositions(raw: seq<Item>)
    ensures Count(raw, IsSubagent) == |SubagentPositions(raw)|
  {
    if raw == [] {
      assert SubagentPositions(raw) == {};
    } else {
      var n := |raw| - 1;
      CountIsPositions(raw[..n]);
      assert SubagentPositions(raw)
          == SubagentPositions(raw[..n]) + (if raw[n].isSubagent then {n} else {});
    }
  }

  /** A raw entry shows one item. */
  predicate ShowsRaw(r: RawSummary, x: Item) {
    && r.sessionId == x.sessionId && r.parentSessionId == x.parentSessionId && Joins(x, r.normalizedSessionId)
    && r.sessionScope == (if IsMain(x) then Main else Subagent)
    && r.agentNickname == x.agentNickname && r.agentRole == x.agentRole
    && r.normalizationStatus == x.normalizationStatus && r.sourcePath == x.filePath
    && r.updatedAt == x.modifiedAt && r.isActive == x.isActive && r.status == x.status
  }

  ghost predicate ShowsRaws(list: seq<RawSummary>, raw: seq<Item>) {
    |list| == |raw| && forall i :: 0 <= i < |raw| ==> ShowsRaw(list[i], raw[i])
  }

  /** Everything a session summary says, given its raw sessions in order and the primary among them. */
  ghost predicate ShowsSession(s: SessionSummary, primary: Item, raw: seq<Item>, includeSubagents: bool) {
    && s.primarySessionId == primary.sessionId
    && s.title == "session-" + (if |primary.sessionId| <= 8 then primary.sessionId else primary.sessionId[..8])
    && ShowsStatus(s.status, primary, raw)
    && IsLatest(s.updatedAt, raw)
    && ShowsMessage(s.firstUserMessagePreview, s.firstUserMessageAt, primary, raw)
    && s.latestEventSummary == None
    && s.subagentCount == |SubagentPositions(raw)|
    && (s.rawSessions.Some? <==> includeSubagents)
    && (s.rawSessions.Some? ==> ShowsRaws(s.rawSessions.value, raw))
  }

  /** The summary stands for these items of the session it names. */
  ghost predicate Tells(s: SessionSummary, items: seq<Item>, includeSubagents: bool) {
    exists primary, raw ::
      && IsPrimary(primary, items, s.normalizedSessionId) && InRawOrder(raw, items)
      && ShowsSession(s, primary, raw, includeSubagents)
      && ShowsControl(s.control, [primary] + raw)
  }

  lemma {:induction false} StatusIs(primary: Item, raw: seq<Item>)
    ensures ShowsStatus(StatusOf(primary, raw), primary, raw)
  {
    if x :| x in raw && x.isActive {
      var i :| 0 <= i < |raw| && raw[i] == x;
      assert raw[i].isActive;
    } else {
      assert forall i :: 0 <= i < |raw| ==> raw[i] in raw;
    }
  }

  lemma {:induction false} RawSummaryIs(x: Item)
    ensures ShowsRaw(RawSessionSummary(x), x)
  {
    JoinsIsNormalizedId(x, NormalizedId(x));
  }

  lemma {:induction false} SummaryTells(id: string, items: seq<Item>, includeSubagents: bool, order: IterationOrder)
    requires items != [] && Enumerates(order)
    ensures Summarize(id, items, includeSubagents, order).normalizedSessionId == id
    ensures Tells(Summarize(id, items, includeSubagents, order), items, includeSubagents)
  {
    var s := Summarize(id, items, includeSubagents, order);
    SortPermutes(items, RawLe);
    var raw := Sort(items, RawLe);
    var primary := Primary(id, raw);
    SortedIsInRawOrder(items);
    PrimaryIs(items, id);
    StatusIs(primary, raw);
    LatestModifiedIs(raw);
    FirstUserMessageIs(primary, raw);
    CountIsPositions(raw);
    forall i | 0 <= i < |raw| ensures ShowsRaw(RawSessionSummary(raw[i]), raw[i]) {
      RawSummaryIs(raw[i]);
    }
    ControlTells(primary, raw, order, id);
    assert ShowsSession(s, primary, raw, includeSubagents);
  }

  // ---------------------------------------------------------------------------------------------
  // What a listed group shows
  // ---------------------------------------------------------------------------------------------

  /** The items a query lists under one tool name and path, in the order of the snapshot. */
  function PartFor(items: seq<Item>, path: Option<string>, toolName: string, projectPath: string): seq<Item> {
    WithKey(Selected(items, path), ProjectKey, toolName + [NUL] + projectPath)
  }

  function SessionPart(part: seq<Item>, id: string): seq<Item> {
    WithKey(part, NormalizedId, id)
  }

  lemma {:induction false} ChosenMember(items: seq<Item>, path: Option<string>, x: Item)
    ensures x in Selected(items, path) <==> x in items && (path == None || path == Some(x.projectPath))
  {
    if items != [] {
      var n := |items| - 1;
      ChosenMember(items[..n], path, x);
      assert items == items[..n] + [items[n]];
    }
  }

  /** Those are the items on the requested path, if one was requested, whose tool name and path spell the key. */
  lemma {:induction false} PartMember(items: seq<Item>, path: Option<string>, toolName: string, projectPath: string,
                                      x: Item)
    ensures x in PartFor(items, path, toolName, projectPath)
       <==> && x in items && (path == None || path == Some(x.projectPath))
            && AsStr(x.tool) + ['\0'] + x.projectPath == toolName + ['\0'] + projectPath
  {
    ChosenMember(items, path, x);
    WithKeyMember(Selected(items, path), ProjectKey, toolName + [NUL] + projectPath, x);
  }

  lemma {:induction false} SessionPartMember(part: seq<Item>, id: string, x: Item)
    ensures x in SessionPart(part, id) <==> x in part && Joins(x, id)
  {
    WithKeyMember(part, NormalizedId, id, x);
    JoinsIsNormalizedId(x, id);
  }

  /** The last project name that says something, or the first item's when none does. */
  ghost predicate ShowsName(name: string, part: seq<Item>) {
    exists k ::
      && 0 <= k < |part| && part[k].projectName == name
      && (k == 0 || !IsBlank(name)) && forall j :: k < j < |part| ==> IsBlank(part[j].projectName)
  }

  lemma {:induction false} NameIs(part: seq<Item>)
    requires part != []
    ensures ShowsName(NameOf(part), part)
  {
    var n := |part| - 1;
    if IsBlank(part[n].projectName) && n > 0 {
      NameIs(part[..n]);
      var k :| && 0 <= k < n && part[..n][k].projectName == NameOf(part[..n])
        && (k == 0 || !IsBlank(NameOf(part[..n]))) && forall j :: k < j < n ==> IsBlank(part[..n][j].projectName);
      forall j | k < j < |part| ensures IsBlank(part[j].projectName) {
        if j < n {
          assert part[..n][j] == part[j];
        }
      }
    }
  }

  function SummaryId(s: SessionSummary): string { s.normalizedSessionId }

  ghost predicate IdsDiffer(sessions: seq<SessionSummary>) {
    forall i, j :: 0 <= i < j < |sessions| ==> SummaryId(sessions[i]) != SummaryId(sessions[j])
  }

  /** Every item of the group joins one of its sessions. */
  ghost predicate CoversPart(sessions: seq<SessionSummary>, part: seq<Item>) {
    forall x :: x in part ==> exists s :: s in sessions && Joins(x, s.normalizedSessionId)
  }

  ghost predicate SessionsTell(sessions: seq<SessionSummary>, part: seq<Item>, includeSubagents: bool) {
    forall s :: s in sessions ==>
      && SessionPart(part, s.normalizedSessionId) != []
      && Tells(s, SessionPart(part, s.normalizedSessionId), includeSubagents)
  }

  /** Most recently updated first; of equally recent ones the smaller primary session id. */
  ghost predicate SessionsInOrder(sessions: seq<SessionSummary>) {
    forall i, j :: 0 <= i < j < |sessions| ==>
      || sessions[i].updatedAt > sessions[j].updatedAt
      || (sessions[i].updatedAt == sessions[j].updatedAt
          && StringLe(sessions[i].primarySessionId, sessions[j].primarySessionId))
  }

  /** Everything a group says about the items listed under its tool name and path. */
  ghost predicate ShowsPart(g: ProjectGroup, part: seq<Item>) {
    && part != [] && g.tool == part[0].tool && g.projectPath == part[0].projectPath
    && ShowsName(g.projectName, part)
    && IsLatest(g.updatedAt, part)
    && g.normalizedSessionCount == |g.sessions|
    && g.rawSessionCount == |part|
    && g.subagentCount == |SubagentPositions(part)|
  }

  /** Sorting keeps elements apart that were apart. */
  lemma {:induction false} SortKeepsDistinct<T, U>(s: seq<T>, le: (T, T) -> bool, f: T -> U)
    requires forall i, j :: 0 <= i < j < |s| ==> f(s[i]) != f(s[j])
    ensures forall i, j :: 0 <= i < j < |s| ==> |Sort(s, le)| == |s| && f(Sort(s, le)[i]) != f(Sort(s, le)[j])
  {
    if s != [] {
      var tail := s[1..];
      SortKeepsDistinct(tail, le, f);
      SortPermutes(tail, le);
      forall y | y in Sort(tail, le) ensures f(y) != f(s[0]) {
        SortMember(tail, le, y);
        var i :| 0 <= i < |tail| && tail[i] == y;
        assert s[i + 1] == y;
      }
      InsertKeepsDistinct(s[0], Sort(tail, le), le, f);
      SortPermutes(s, le);
    }
  }

  lemma {:induction false} InsertKeepsDistinct<T, U>(x: T, s: seq<T>, le: (T, T) -> bool, f: T -> U)
    requires forall i, j :: 0 <= i < j < |s| ==> f(s[i]) != f(s[j])
    requires forall y :: y in s ==> f(y) != f(x)
    ensures forall i, j :: 0 <= i < j < |Insert(x, s, le)| ==> f(Insert(x, s, le)[i]) != f(Insert(x, s, le)[j])
  {
    if s != [] && !le(x, s[0]) {
      var tail := s[1..];
      InsertKeepsDistinct(x, tail, le, f);
      SortInsert(x, tail, le);
      var rest := Insert(x, tail, le);
      forall j | 0 <= j < |rest| ensures f(s[0]) != f(rest[j]) {
        assert rest[j] in multiset(rest);
        if rest[j] != x {
          var i :| 0 <= i < |tail| && tail[i] == rest[j];
          assert s[i + 1] == rest[j];
        }
      }
    }
  }

  lemma {:induction false} OneSessionTells(part: seq<Item>, id: string, includeSubagents: bool, order: IterationOrder)
    requires part != [] && Enumerates(order) && id in ProjectOf(part).sessions
    ensures SessionPart(part, id) != [] && ProjectOf(part).sessions[id] == SessionPart(part, id)
    ensures Summarize(id, SessionPart(part, id), includeSubagents, order).normalizedSessionId == id
    ensures Tells(Summarize(id, SessionPart(part, id), includeSubagents, order), SessionPart(part, id),
                  includeSubagents)
  {
    ProjectSessions(part, id);
    SummaryTells(id, SessionPart(part, id), includeSubagents, order);
  }

  lemma {:induction false} IdsCover(sessions: seq<SessionSummary>, ids: seq<string>, part: seq<Item>)
    requires NoDuplicates(ids) && |sessions| == |ids|
    requires forall i :: 0 <= i < |ids| ==> SummaryId(sessions[i]) == ids[i]
    requires forall x :: x in part ==> NormalizedId(x) in ids
    ensures CoversPart(sessions, part) && IdsDiffer(sessions)
  {
    forall x | x in part ensures exists s :: s in sessions && Joins(x, s.normalizedSessionId) {
      var i :| 0 <= i < |ids| && ids[i] == NormalizedId(x);
      assert SummaryId(sessions[i]) == ids[i] && sessions[i] in sessions;
      JoinsIsNormalizedId(x, ids[i]);
    }
  }

  lemma {:induction false} UnsortedTellsAt(part: seq<Item>, ids: seq<string>, includeSubagents: bool,
                                           order: IterationOrder, i: nat)
    requires part != [] && Enumerates(order) && Filled(ProjectOf(part)) && i < |ids|
    requires forall id :: id in ids ==> id in ProjectOf(part).sessions
    ensures var s := Summaries(ProjectOf(part), ids, includeSubagents, order)[i];
      SummaryId(s) == ids[i] && SessionPart(part, ids[i]) != [] && Tells(s, SessionPart(part, ids[i]), includeSubagents)
  {
    OneSessionTells(part, ids[i], includeSubagents, order);
  }

  lemma {:induction false} AllTell(sessions: seq<SessionSummary>, ids: seq<string>, part: seq<Item>,
                                   includeSubagents: bool)
    requires |sessions| == |ids|
    requires forall i :: 0 <= i < |ids| ==>
      && SummaryId(sessions[i]) == ids[i] && SessionPart(part, ids[i]) != []
      && Tells(sessions[i], SessionPart(part, ids[i]), includeSubagents)
    ensures SessionsTell(sessions, part, includeSubagents)
  {
    forall s | s in sessions
      ensures SessionPart(part, s.normalizedSessionId) != []
      ensures Tells(s, SessionPart(part, s.normalizedSessionId), includeSubagents)
    {
      var i :| 0 <= i < |sessions| && sessions[i] == s;
      assert SummaryId(sessions[i]) == ids[i];
    }
  }

  /** The same before the sessions are sorted. */
  lemma {:induction false} UnsortedTell(part: seq<Item>, ids: seq<string>, includeSubagents: bool,
                                        order: IterationOrder)
    requires part != [] && Enumerates(order) && Filled(ProjectOf(part)) && NoDuplicates(ids)
    requires forall id :: id in ids ==> id in ProjectOf(part).sessions
    requires forall x :: x in part ==> NormalizedId(x) in ids
    ensures var unsorted := Summaries(ProjectOf(part), ids, includeSubagents, order);
      SessionsTell(unsorted, part, includeSubagents) && CoversPart(unsorted, part) && IdsDiffer(unsorted)
  {
    var unsorted := Summaries(ProjectOf(part), ids, includeSubagents, order);
    forall i | 0 <= i < |ids|
      ensures SummaryId(unsorted[i]) == ids[i] && SessionPart(part, ids[i]) != []
      ensures Tells(unsorted[i], SessionPart(part, ids[i]), includeSubagents)
    {
      UnsortedTellsAt(part, ids, includeSubagents, order, i);
    }
    AllTell(unsorted, ids, part, includeSubagents);
    IdsCover(unsorted, ids, part);
  }

  lemma {:induction false} SortedTell(unsorted: seq<SessionSummary>, part: seq<Item>, includeSubagents: bool)
    requires SessionsTell(unsorted, part, includeSubagents)
    requires CoversPart(unsorted, part) && IdsDiffer(unsorted)
    ensures var sessions := Sort(unsorted, SummaryLe);
      SessionsTell(sessions, part, includeSubagents) && CoversPart(sessions, part) && IdsDiffer(sessions)
      && SessionsInOrder(sessions) && |sessions| == |unsorted|
  {
    var sessions := Sort(unsorted, SummaryLe);
    forall s ensures s in sessions <==> s in unsorted {
      SortMember(unsorted, SummaryLe, s);
    }
    forall x | x in part ensures exists s :: s in sessions && Joins(x, s.normalizedSessionId) {
      var s :| s in unsorted && Joins(x, s.normalizedSessionId);
      assert s in sessions;
    }
    SortKeepsDistinct(unsorted, SummaryLe, SummaryId);
    SortPermutes(unsorted, SummaryLe);
    SummaryOrder();
    SortSorted(unsorted, SummaryLe);
    SortedSessions(sessions);
  }

  lemma {:induction false} SortedSessions(sessions: seq<SessionSummary>)
    requires Sorted(sessions, SummaryLe)
    ensures SessionsInOrder(sessions)
  {}

  lemma {:induction false} SessionsTellOfPart(key: string, part: seq<Item>, includeSubagents: bool,
                                              order: IterationOrder)
    requires part != [] && Enumerates(order) && Filled(ProjectOf(part))
    ensures var g := IntoGroup(key, ProjectOf(part), includeSubagents, order);
      SessionsTell(g.sessions, part, includeSubagents) && CoversPart(g.sessions, part)
      && IdsDiffer(g.sessions) && SessionsInOrder(g.sessions) && g.sessions != []
      && g.normalizedSessionCount == |g.sessions| && g.updatedAt == LatestUpdate(g.sessions)
  {
    var ids := order(key, ProjectOf(part).sessions.Keys);
    EveryIdEnumerated(part, order, key);
    UnsortedTell(part, ids, includeSubagents, order);
    SortedTell(Summaries(ProjectOf(part), ids, includeSubagents, order), part, includeSubagents);
    EnumerationNonempty(ProjectOf(part), order, key);
  }

  lemma {:induction false} LatestUpdateIs(sessions: seq<SessionSummary>)
    requires sessions != []
    ensures exists s :: s in sessions && s.updatedAt == LatestUpdate(sessions)
    ensures forall s :: s in sessions ==> s.updatedAt <= LatestUpdate(sessions)
  {
    if |sessions| == 1 {
      assert sessions[0] in sessions;
    } else {
      LatestUpdateIs(sessions[1..]);
      assert sessions == [sessions[0]] + sessions[1..];
      var s :| s in sessions[1..] && s.updatedAt == LatestUpdate(sessions[1..]);
      assert s in sessions && sessions[0] in sessions;
    }
  }

  /** A session is as recent as its most recent item. */
  lemma {:induction false} TellsLatest(s: SessionSummary, items: seq<Item>, includeSubagents: bool)
    requires Tells(s, items, includeSubagents)
    ensures IsLatest(s.updatedAt, items)
  {
    var primary, raw :| && IsPrimary(primary, items, s.normalizedSessionId) && InRawOrder(raw, items)
      && ShowsSession(s, primary, raw, includeSubagents)
      && ShowsControl(s.control, [primary] + raw);
    forall x ensures x in raw <==> x in items {
      assert x in multiset(raw) <==> x in multiset(items);
    }
  }

  /** The latest of the sessions is the latest of the items. */
  lemma {:induction false} LatestOfSessions(sessions: seq<SessionSummary>, part: seq<Item>, latest: int)
    requires forall s :: s in sessions ==> IsLatest(s.updatedAt, SessionPart(part, s.normalizedSessionId))
    requires CoversPart(sessions, part)
    requires (exists s :: s in sessions && s.updatedAt == latest) && forall s :: s in sessions ==> s.updatedAt <= latest
    ensures IsLatest(latest, part)
  {
    forall x, id ensures x in SessionPart(part, id) <==> x in part && Joins(x, id) {
      SessionPartMember(part, id, x);
    }
    var top :| top in sessions && top.updatedAt == latest;
    var y :| y in SessionPart(part, top.normalizedSessionId) && y.modifiedAt == top.updatedAt;
    forall x | x in part ensures x.modifiedAt <= latest {
      var s :| s in sessions && Joins(x, s.normalizedSessionId);
      assert x in SessionPart(part, s.normalizedSessionId);
    }
  }

  lemma {:induction false} GroupShowsPart(key: string, part: seq<Item>, includeSubagents: bool, order: IterationOrder)
    requires part != [] && Enumerates(order) && Filled(ProjectOf(part))
    ensures ShowsPart(IntoGroup(key, ProjectOf(part), includeSubagents, order), part)
  {
    var g := IntoGroup(key, ProjectOf(part), includeSubagents, order);
    SessionsTellOfPart(key, part, includeSubagents, order);
    GroupCounts(key, part, includeSubagents, order);
    CountIsPositions(part);
    NameIs(part);
    LatestUpdateIs(g.sessions);
    forall s | s in g.sessions ensures IsLatest(s.updatedAt, SessionPart(part, s.normalizedSessionId)) {
      TellsLatest(s, SessionPart(part, s.normalizedSessionId), includeSubagents);
    }
    LatestOfSessions(g.sessions, part, LatestUpdate(g.sessions));
  }

  /** A group list: each group shows the items of its tool name and path, its sessions stand for all of them, each
      for those that join it, and come most recently updated first. */
  lemma {:induction false} GroupsShowItems(items: seq<Item>, path: Option<string>, includeSubagents: bool,
                                           order: IterationOrder, g: ProjectGroup)
    requires Enumerates(order) && g in SortedGroups(items, path, includeSubagents, order)
    ensures var part := PartFor(items, path, AsStr(g.tool), g.projectPath);
      && ShowsPart(g, part) && CoversPart(g.sessions, part) && IdsDiffer(g.sessions)
      && SessionsInOrder(g.sessions) && SessionsTell(g.sessions, part, includeSubagents)
  {
    var chosen := Selected(items, path);
    var keys := order("", ProjectsOf(chosen).Keys);
    ProjectsAreFilled(chosen);
    SortMember(IntoGroups(ProjectsOf(chosen), keys, includeSubagents, order), GroupLe, g);
    var key := GroupWasListed(chosen, keys, includeSubagents, order, g);
    IntoGroupSpellsKey(chosen, key, includeSubagents, order);
    WithKeyNonempty(chosen, ProjectKey, key);
    var part := WithKey(chosen, ProjectKey, key);
    GroupShowsPart(key, part, includeSubagents, order);
    SessionsTellOfPart(key, part, includeSubagents, order);
  }

  /** Every item the query selects is in some listed group. */
  lemma {:induction false} EveryItemHasGroup(items: seq<Item>, path: Option<string>, includeSubagents: bool,
                                             order: IterationOrder, x: Item) returns (g: ProjectGroup)
    requires Enumerates(order) && x in items && (path == None || path == Some(x.projectPath))
    ensures g in SortedGroups(items, path, includeSubagents, order)
    ensures x in PartFor(items, path, AsStr(g.tool), g.projectPath)
  {
    var chosen, key := Selected(items, path), ProjectKey(x);
    var keys := order("", ProjectsOf(chosen).Keys);
    ChosenMember(items, path, x);
    EveryItemSomewhere(chosen, x);
    ProjectsAreFilled(chosen);
    g := IntoGroup(key, ProjectsOf(chosen)[key], includeSubagents, order);
    ListedGroup(chosen, keys, includeSubagents, order, key);
    SortMember(IntoGroups(ProjectsOf(chosen), keys, includeSubagents, order), GroupLe, g);
    IntoGroupSpellsKey(chosen, key, includeSubagents, order);
    WithKeyMember(chosen, ProjectKey, key, x);
  }

  /** Most recently updated first; of equally recent ones the smaller tool name, then the smaller path. */
  ghost predicate GroupsInOrder(groups: seq<ProjectGroup>) {
    forall i, j :: 0 <= i < j < |groups| ==>
      && groups[i].updatedAt >= groups[j].updatedAt
      && (groups[i].updatedAt == groups[j].updatedAt ==>
            && StringLe(AsStr(groups[i].tool), AsStr(groups[j].tool))
            && (AsStr(groups[i].tool) == AsStr(groups[j].tool) ==>
                  StringLe(groups[i].projectPath, groups[j].projectPath)))
  }

  /** No two groups have the same tool name and path. */
  ghost predicate KeysDiffer(groups: seq<ProjectGroup>) {
    forall i, j :: 0 <= i < j < |groups| ==> KeyOfGroup(groups[i]) != KeyOfGroup(groups[j])
  }

  lemma {:induction false} SortedGroupsInOrder(groups: seq<ProjectGroup>)
    requires Sorted(groups, GroupLe)
    ensures GroupsInOrder(groups)
  {
    StringOrder();
  }

  lemma {:induction false} GroupsAreListedOnce(items: seq<Item>, path: Option<string>, includeSubagents: bool,
                                               order: IterationOrder)
    requires Enumerates(order)
    ensures GroupsInOrder(SortedGroups(items, path, includeSubagents, order))
    ensures KeysDiffer(SortedGroups(items, path, includeSubagents, order))
  {
    var chosen := Selected(items, path);
    var keys := order("", ProjectsOf(chosen).Keys);
    ProjectsAreFilled(chosen);
    var unsorted := IntoGroups(ProjectsOf(chosen), keys, includeSubagents, order);
    forall k | 0 <= k < |keys| ensures KeyOfGroup(unsorted[k]) == keys[k] {
      IntoGroupSpellsKey(chosen, keys[k], includeSubagents, order);
    }
    SortedDiffer(unsorted);
  }

  lemma {:induction false} SortedDiffer(unsorted: seq<ProjectGroup>)
    requires KeysDiffer(unsorted)
    ensures KeysDiffer(Sort(unsorted, GroupLe)) && GroupsInOrder(Sort(unsorted, GroupLe))
  {
    GroupOrder();
    SortSorted(unsorted, GroupLe);
    SortedGroupsInOrder(Sort(unsorted, GroupLe));
    SortKeepsDistinct(unsorted, GroupLe, KeyOfGroup);
    SortPermutes(unsorted, GroupLe);
  }

  // ---------------------------------------------------------------------------------------------
  // What runtime states add
  // ---------------------------------------------------------------------------------------------

  /** The first state recorded for the tool and id of the item. */
  ghost predicate HasState(x: Item, states: seq<RuntimeState>, state: RuntimeState) {
    exists k ::
      && 0 <= k < |states| && states[k] == state && state.tool == x.tool && state.sessionId == x.sessionId
      && forall j :: 0 <= j < k ==> !(states[j].tool == x.tool && states[j].sessionId == x.sessionId)
  }

  lemma {:induction false} StateIs(x: Item, states: seq<RuntimeState>, state: RuntimeState)
    ensures HasState(x, states, state) <==> RuntimeFor(states, x.tool, x.sessionId) == Some(state)
  {
    if states != [] {
      var tail := states[1..];
      assert forall i :: 0 < i < |states| ==> states[i] == tail[i - 1];
      if states[0].tool == x.tool && states[0].sessionId == x.sessionId {
      } else {
        StateIs(x, tail, state);
        if HasState(x, tail, state) {
          var k :| && 0 <= k < |tail| && tail[k] == state && state.tool == x.tool && state.sessionId == x.sessionId
            && forall j :: 0 <= j < k ==> !(tail[j].tool == x.tool && tail[j].sessionId == x.sessionId);
          assert states[k + 1] == state;
        }
        if HasState(x, states, state) {
          var k :| && 0 <= k < |states| && states[k] == state && state.tool == x.tool && state.sessionId == x.sessionId
            && forall j :: 0 <= j < k ==> !(states[j].tool == x.tool && states[j].sessionId == x.sessionId);
          assert tail[k - 1] == state;
          forall j | 0 <= j < k - 1 ensures !(tail[j].tool == x.tool && tail[j].sessionId == x.sessionId) {
            assert tail[j] == states[j + 1];
          }
        }
      }
    }
  }

  /** The statuses from the one that hides all others to the one that hides none. */
  const BY_URGENCY: seq<RuntimeStatus> :=
    [RuntimeStatus.WaitingApproval, RuntimeStatus.WaitingInput, RuntimeStatus.Error, RuntimeStatus.Running,
     RuntimeStatus.Completed, RuntimeStatus.Idle, RuntimeStatus.Stale]

  /** More urgent, or as urgent and at least as recent. */
  ghost predicate Outranks(a: RuntimeState, b: RuntimeState) {
    || (exists i, j :: 0 <= i < j < |BY_URGENCY| && BY_URGENCY[i] == a.status && BY_URGENCY[j] == b.status)
    || (a.status == b.status && a.lastActivityAt >= b.lastActivityAt)
  }

  lemma {:induction false} UrgencyIsPriority(i: nat)
    requires i < |BY_URGENCY|
    ensures Priority(BY_URGENCY[i]) == 7 - i
  {}

  lemma {:induction false} OutranksIs(a: RuntimeState, b: RuntimeState)
    ensures Outranks(a, b) <==> PriorityLe(b, a)
  {
    forall i: nat | i < |BY_URGENCY| ensures Priority(BY_URGENCY[i]) == 7 - i {
      UrgencyIsPriority(i);
    }
    var i, j := 7 - Priority(a.status), 7 - Priority(b.status);
    assert BY_URGENCY[i] == a.status && BY_URGENCY[j] == b.status;
  }

  /** The state shown is the most urgent and most recent one of the raw sessions, the last listed of equals. */
  ghost predicate ShowsState(status: Option<RuntimeStatus>, lastEventId: Option<string>, lastActivityAt: Option<int>,
                             raw: seq<Item>, states: seq<RuntimeState>) {
    if exists x, state :: x in raw && HasState(x, states, state) then
      exists k, state ::
        && 0 <= k < |raw| && HasState(raw[k], states, state)
        && status == Some(state.status) && lastEventId == state.lastEventId
        && lastActivityAt == Some(state.lastActivityAt)
        && (forall j, other :: 0 <= j < |raw| && HasState(raw[j], states, other) ==> Outranks(state, other))
        && (forall j, other :: k < j < |raw| && HasState(raw[j], states, other) ==> !Outranks(other, state))
    else status == None && lastEventId == None && lastActivityAt == None
  }

  lemma {:induction false} RuntimesLast(raw: seq<Item>, x: Item, states: seq<RuntimeState>)
    ensures RuntimesOf(raw + [x], states)
         == match RuntimeFor(states, x.tool, x.sessionId)
            case Some(state) => RuntimesOf(raw, states) + [state]
            case None => RuntimesOf(raw, states)
  {
    if raw == [] {
      assert [] + [x] == [x] && [x][1..] == [];
    } else {
      assert (raw + [x])[1..] == raw[1..] + [x];
      RuntimesLast(raw[1..], x, states);
    }
  }

  /** Item `k` has this state, no item's state beats it, and no later item's equals it. */
  ghost predicate LastBestFor(raw: seq<Item>, k: int, states: seq<RuntimeState>, state: RuntimeState) {
    && 0 <= k < |raw| && RuntimeFor(states, raw[k].tool, raw[k].sessionId) == Some(state)
    && (forall j :: 0 <= j < |raw| && RuntimeFor(states, raw[j].tool, raw[j].sessionId).Some? ==>
          PriorityLe(RuntimeFor(states, raw[j].tool, raw[j].sessionId).value, state))
    && (forall j :: k < j < |raw| && RuntimeFor(states, raw[j].tool, raw[j].sessionId).Some? ==>
          !PriorityLe(state, RuntimeFor(states, raw[j].tool, raw[j].sessionId).value))
  }

  lemma {:induction false} LastBestNext(raw: seq<Item>, x: Item, k: int, states: seq<RuntimeState>,
                                        state: RuntimeState)
    requires LastBestFor(raw, k, states, state)
    ensures var own := RuntimeFor(states, x.tool, x.sessionId);
      if own.Some? && PriorityLe(state, own.value) then LastBestFor(raw + [x], |raw|, states, own.value)
      else LastBestFor(raw + [x], k, states, state)
  {}

  lemma {:induction false} BestRuntimeLast(candidates: seq<RuntimeState>, last: RuntimeState)
    ensures BestRuntime(candidates + [last])
         == var best := BestRuntime(candidates);
            if best.None? || PriorityLe(best.value, last) then Some(last) else best
  {
    assert (candidates + [last])[..|candidates|] == candidates;
  }

  /** The best state is that of item `k`, or no item has any. */
  ghost predicate IsBest(raw: seq<Item>, k: int, states: seq<RuntimeState>, best: Option<RuntimeState>) {
    match best
    case None => forall j :: 0 <= j < |raw| ==> RuntimeFor(states, raw[j].tool, raw[j].sessionId).None?
    case Some(state) => LastBestFor(raw, k, states, state)
  }

  lemma {:induction false} IsBestNext(raw: seq<Item>, x: Item, k: int, states: seq<RuntimeState>,
                                      best: Option<RuntimeState>)
    requires IsBest(raw, k, states, best)
    ensures var own := RuntimeFor(states, x.tool, x.sessionId);
      if own.Some? && (best.None? || PriorityLe(best.value, own.value)) then IsBest(raw + [x], |raw|, states, own)
      else IsBest(raw + [x], k, states, best)
  {
    if best.Some? {
      LastBestNext(raw, x, k, states, best.value);
    }
  }

  lemma {:induction false} BestIsLastBest(raw: seq<Item>, states: seq<RuntimeState>) returns (k: int)
    ensures IsBest(raw, k, states, BestRuntime(RuntimesOf(raw, states)))
  {
    k := 0;
    if raw != [] {
      var n := |raw| - 1;
      var front, x := raw[..n], raw[n];
      assert raw == front + [x];
      k := BestIsLastBest(front, states);
      var own, best := RuntimeFor(states, x.tool, x.sessionId), BestRuntime(RuntimesOf(front, states));
      RuntimesLast(front, x, states);
      IsBestNext(front, x, k, states, best);
      if own.Some? {
        BestRuntimeLast(RuntimesOf(front, states), own.value);
        k := if best.None? || PriorityLe(best.value, own.value) then n else k;
      }
    }
  }

  lemma {:induction false} BestStateIs(raw: seq<Item>, states: seq<RuntimeState>)
    ensures var best := BestRuntime(RuntimesOf(raw, states));
      ShowsState(if best.Some? then Some(best.value.status) else None,
                 if best.Some? then best.value.lastEventId else None,
                 if best.Some? then Some(best.value.lastActivityAt) else None, raw, states)
  {
    var k := BestIsLastBest(raw, states);
    var best := BestRuntime(RuntimesOf(raw, states));
    forall x, state ensures HasState(x, states, state) <==> RuntimeFor(states, x.tool, x.sessionId) == Some(state) {
      StateIs(x, states, state);
    }
    forall a, b ensures Outranks(a, b) <==> PriorityLe(b, a) {
      OutranksIs(a, b);
    }
    if best.Some? {
      assert raw[k] in raw && HasState(raw[k], states, best.value);
    } else {
      forall x, state | x in raw ensures !HasState(x, states, state) {
        var j :| 0 <= j < |raw| && raw[j] == x;
        assert RuntimeFor(states, raw[j].tool, raw[j].sessionId).None?;
      }
    }
  }

  ghost predicate ShowsRuntimeRaw(r: RuntimeRaw, x: Item, states: seq<RuntimeState>) {
    && ShowsRaw(EraseRaw(r), x)
    && ShowsState(r.runtimeStatus, r.runtimeLastEventId, r.runtimeLastActivityAt, [x], states)
  }

  /** What the runtime pipeline adds to a session: the best state of its raw sessions, and each raw entry's own. */
  ghost predicate TellsRuntime(s: RuntimeSummary, items: seq<Item>, states: seq<RuntimeState>) {
    exists raw ::
      && InRawOrder(raw, items)
      && ShowsState(s.runtimeStatus, s.runtimeLastEventId, s.runtimeLastActivityAt, raw, states)
      && (s.rawSessions.Some? ==> RuntimeRawsShow(s.rawSessions.value, raw, states))
  }

  ghost predicate RuntimeRawsShow(list: seq<RuntimeRaw>, raw: seq<Item>, states: seq<RuntimeState>) {
    |list| == |raw| && forall i :: 0 <= i < |raw| ==> ShowsRuntimeRaw(list[i], raw[i], states)
  }

  lemma {:induction false} OneRuntime(x: Item, states: seq<RuntimeState>)
    ensures BestRuntime(RuntimesOf([x], states)) == RuntimeFor(states, x.tool, x.sessionId)
  {
    RuntimesLast([], x, states);
    assert [] + [x] == [x];
    var own := RuntimeFor(states, x.tool, x.sessionId);
    if own.Some? {
      BestRuntimeLast([], own.value);
      assert [] + [own.value] == [own.value];
    }
  }

  lemma {:induction false} RuntimeRawIs(x: Item, states: seq<RuntimeState>)
    ensures ShowsRuntimeRaw(RuntimeRawSummary(x, states), x, states)
  {
    RawSummaryIs(x);
    OneRuntime(x, states);
    BestStateIs([x], states);
  }

  lemma {:induction false} RuntimeSummaryTells(id: string, items: seq<Item>, includeSubagents: bool,
                                               order: IterationOrder, states: seq<RuntimeState>)
    requires items != [] && Enumerates(order)
    ensures SummarizeRuntime(id, items, includeSubagents, order, states).normalizedSessionId == id
    ensures TellsRuntime(SummarizeRuntime(id, items, includeSubagents, order, states), items, states)
  {
    var raw := Sort(items, RawLe);
    SortedIsInRawOrder(items);
    BestStateIs(raw, states);
    forall i | 0 <= i < |raw| ensures ShowsRuntimeRaw(RuntimeRaws(raw, states)[i], raw[i], states) {
      RuntimeRawIs(raw[i], states);
    }
    assert RuntimeRawsShow(RuntimeRaws(raw, states), raw, states);
  }

  lemma {:induction false} RuntimeSessionsTell(key: string, part: seq<Item>, includeSubagents: bool,
                                               order: IterationOrder, states: seq<RuntimeState>, s: RuntimeSummary)
    requires part != [] && Enumerates(order) && Filled(ProjectOf(part))
    requires s in IntoRuntimeGroup(key, ProjectOf(part), includeSubagents, order, states).sessions
    ensures TellsRuntime(s, SessionPart(part, s.normalizedSessionId), states)
  {
    var project := ProjectOf(part);
    var ids := order(key, project.sessions.Keys);
    var unsorted := RuntimeSummaries(project, ids, includeSubagents, order, states);
    EveryIdEnumerated(part, order, key);
    SortMember(unsorted, RuntimeSummaryLe, s);
    var i :| 0 <= i < |unsorted| && unsorted[i] == s;
    ProjectSessions(part, ids[i]);
    RuntimeSummaryTells(ids[i], SessionPart(part, ids[i]), includeSubagents, order, states);
  }

  lemma {:induction false} RuntimeGroupWasListed(items: seq<Item>, keys: seq<string>, includeSubagents: bool,
                                                 order: IterationOrder, states: seq<RuntimeState>, g: RuntimeGroup)
    returns (key: string)
    requires Enumerates(order)
    requires forall k :: k in keys ==> k in ProjectsOf(items) && Filled(ProjectsOf(items)[k])
    requires g in IntoRuntimeGroups(ProjectsOf(items), keys, includeSubagents, order, states)
    ensures key in keys && g == IntoRuntimeGroup(key, ProjectsOf(items)[key], includeSubagents, order, states)
  {
    var groups := IntoRuntimeGroups(ProjectsOf(items), keys, includeSubagents, order, states);
    var i :| 0 <= i < |groups| && groups[i] == g;
    key := keys[i];
  }

  /** The runtime list shows, group by group, what the plain list shows, and each session's best runtime state. */
  lemma {:induction false} RuntimeGroupsShowItems(items: seq<Item>, path: Option<string>, includeSubagents: bool,
                                                  order: IterationOrder, states: seq<RuntimeState>, g: RuntimeGroup)
    requires Enumerates(order) && g in SortedRuntimeGroups(items, path, includeSubagents, order, states)
    ensures EraseGroup(g) in SortedGroups(items, path, includeSubagents, order)
    ensures var part := PartFor(items, path, AsStr(g.tool), g.projectPath);
      && ShowsPart(EraseGroup(g), part)
      && SessionsTell(Map(g.sessions, EraseSummary), part, includeSubagents)
      && SessionsInOrder(Map(g.sessions, EraseSummary))
      && forall s :: s in g.sessions ==> TellsRuntime(s, SessionPart(part, s.normalizedSessionId), states)
  {
    var chosen := Selected(items, path);
    var keys := order("", ProjectsOf(chosen).Keys);
    ProjectsAreFilled(chosen);
    EraseSorted(items, path, includeSubagents, order, states);
    var all := SortedRuntimeGroups(items, path, includeSubagents, order, states);
    var i :| 0 <= i < |all| && all[i] == g;
    assert Map(all, EraseGroup)[i] == EraseGroup(g);
    GroupsShowItems(items, path, includeSubagents, order, EraseGroup(g));
    SortMember(IntoRuntimeGroups(ProjectsOf(chosen), keys, includeSubagents, order, states), RuntimeGroupLe, g);
    var key := RuntimeGroupWasListed(chosen, keys, includeSubagents, order, states, g);
    EraseIntoGroup(key, ProjectsOf(chosen)[key], includeSubagents, order, states);
    IntoGroupSpellsKey(chosen, key, includeSubagents, order);
    WithKeyNonempty(chosen, ProjectKey, key);
    forall s | s in g.sessions
      ensures TellsRuntime(s, SessionPart(WithKey(chosen, ProjectKey, key), s.normalizedSessionId), states)
    {
      RuntimeSessionsTell(key, WithKey(chosen, ProjectKey, key), includeSubagents, order, states, s);
    }
  }

  /** And the groups come in the same order. */
  lemma {:induction false} RuntimeGroupsAreListedOnce(items: seq<Item>, path: Option<string>, includeSubagents: bool,
                                                      order: IterationOrder, states: seq<RuntimeState>)
    requires Enumerates(order)
    ensures var groups := Map(SortedRuntimeGroups(items, path, includeSubagents, order, states), EraseGroup);
      GroupsInOrder(groups) && KeysDiffer(groups)
  {
    EraseSorted(items, path, includeSubagents, order, states);
    GroupsAreListedOnce(items, path, includeSubagents, order);
  }

  // ---------------------------------------------------------------------------------------------
  // Pages
  // ---------------------------------------------------------------------------------------------

  /** Pages start at 1 and hold 20 groups unless asked otherwise, never more than 100; a page or size of zero is
      refused. A page holds the groups that the pages before it leave, in order, up to its size. */
  lemma {:induction false} PageHolds<T>(groups: seq<T>, query: Query)
    requires |groups| <= USIZE_MAX
    ensures Paged(groups, query).PageErr? <==> query.page == Some(0) || query.pageSize == Some(0)
    ensures query.page == Some(0) ==> Paged(groups, query) == PageErr("page 必须大于 0")
    ensures query.page != Some(0) && query.pageSize == Some(0) ==>
      Paged(groups, query) == PageErr("page_size 必须大于 0")
    ensures Paged(groups, query).PageOk? ==>
      var shown := Paged(groups, query).value;
      var before := (shown.page - 1) * shown.pageSize;
      && shown.page == (if query.page == None then 1 else query.page.value)
      && shown.pageSize == (if query.pageSize == None then 20
                            else if query.pageSize.value <= 100 then query.pageSize.value else 100)
      && shown.total == |groups|
      && |shown.list| == (if before >= |groups| then 0
                          else if |groups| - before <= shown.pageSize then |groups| - before else shown.pageSize)
      && forall i :: 0 <= i < |shown.list| ==> before + i < |groups| && shown.list[i] == groups[before + i]
  {}

  /** The path a query asks for: none when it is absent or blank, else the given one without the white space around
      it. */
  lemma {:induction false} PathIsTrimmed(query: Query) returns (before: string, after: string)
    ensures RequestedPath(query) == None <==> query.projectPath == None || IsBlank(query.projectPath.value)
    ensures RequestedPath(query) != None ==>
      var path := RequestedPath(query).value;
      && query.projectPath == Some(before + path + after) && IsBlank(before) && IsBlank(after)
      && path != "" && !IsWhitespace(path[0]) && !IsWhitespace(path[|path| - 1])
  {
    before, after := "", "";
    if query.projectPath.Some? {
      before, after := TrimExactly(query.projectPath.value);
    }
  }
}
