/** The registry of session snapshots, one per tool, and what its queries return whatever order its hash
    map of snapshots iterates in (crates/niuma-api/src/tool_sessions.rs). */
module SessionRegistry {
  import opened Text
  import opened Wrappers
  import opened StableSort
  import opened SessionModel
  import opened SessionGroups
  import opened SessionGroupsProofs
  import opened SessionRuntime

  const DEFAULT_LIMIT: nat := 100
  const MAX_LIMIT: nat := 500

  datatype ListQuery = ListQuery(tool: Option<string>, includeSubagents: bool, activeOnly: bool, limit: Option<nat>)

  datatype ListResult = ListOk(items: seq<Item>) | ListErr(message: string)

  function CanonicalId(tool: ToolId, sessionId: string): string {
    AsStr(tool) + ":" + sessionId
  }

  /** The host decides which tool a snapshot belongs to and what its items are called. */
  function Owned(tool: ToolId, item: Item): Item {
    item.(tool := tool, id := CanonicalId(tool, item.sessionId))
  }

  function OwnedAll(tool: ToolId, sessions: seq<Item>): seq<Item>
  {
    seq(|sessions|, i requires 0 <= i < |sessions| => Owned(tool, sessions[i]))
  }

  type Snapshots = map<ToolId, seq<Item>>

  ghost predicate AllOwned(snapshots: Snapshots) {
    forall tool, i :: tool in snapshots && 0 <= i < |snapshots[tool]| ==>
      snapshots[tool][i].tool == tool && snapshots[tool][i].id == CanonicalId(tool, snapshots[tool][i].sessionId)
  }

  /** An order in which the hash map may yield its tools. */
  ghost predicate IsIteration(tools: seq<ToolId>, snapshots: Snapshots) {
    NoDuplicates(tools) && forall tool :: tool in tools <==> tool in snapshots
  }

  function Flatten(tools: seq<ToolId>, snapshots: Snapshots): seq<Item> {
    if tools == [] then []
    else
      var n := |tools| - 1;
      Flatten(tools[..n], snapshots) + if tools[n] in snapshots then snapshots[tools[n]] else []
  }

  /** The snapshots a query reads, in iteration order. */
  function SnapshotItems(tools: seq<ToolId>, snapshots: Snapshots, tool: Option<string>): seq<Item> {
    if tool.None? || tool.value == "all" then Flatten(tools, snapshots)
    else if FromId(tool.value) in snapshots then snapshots[FromId(tool.value)]
    else []
  }

  // ---------------------------------------------------------------------------------------------
  // The flat list
  // ---------------------------------------------------------------------------------------------

  predicate IsVisible(item: Item, includeSubagents: bool, activeOnly: bool) {
    (includeSubagents || !item.isSubagent) && (!activeOnly || item.isActive)
  }

  function Visible(items: seq<Item>, includeSubagents: bool, activeOnly: bool): seq<Item> {
    if items == [] then []
    else
      var n := |items| - 1;
      Visible(items[..n], includeSubagents, activeOnly)
      + if IsVisible(items[n], includeSubagents, activeOnly) then [items[n]] else []
  }

  /** Most recently seen first, then most recently modified, then by tool, session and id. */
  predicate ItemLe(l: Item, r: Item) {
    if l.lastSeenAt != r.lastSeenAt then l.lastSeenAt > r.lastSeenAt
    else if l.modifiedAt != r.modifiedAt then l.modifiedAt > r.modifiedAt
    else if AsStr(l.tool) != AsStr(r.tool) then StringLe(AsStr(l.tool), AsStr(r.tool))
    else if l.sessionId != r.sessionId then StringLe(l.sessionId, r.sessionId)
    else StringLe(l.id, r.id)
  }

  function Truncate<T>(s: seq<T>, limit: nat): seq<T> {
    if |s| <= limit then s else s[..limit]
  }

  function ListOf(tools: seq<ToolId>, snapshots: Snapshots, query: ListQuery): ListResult {
    var limit := if query.limit.Some? then query.limit.value else DEFAULT_LIMIT;
    if limit == 0 then ListErr("limit 必须大于 0")
    else
      var items := Visible(SnapshotItems(tools, snapshots, query.tool), query.includeSubagents, query.activeOnly);
      ListOk(Truncate(Sort(items, ItemLe), if limit > MAX_LIMIT then MAX_LIMIT else limit))
  }

  // ---------------------------------------------------------------------------------------------
  // One tool's part of the flattened list
  // ---------------------------------------------------------------------------------------------

  function ToolOf(item: Item): ToolId { item.tool }

  lemma {:induction false} OwnPart(snapshots: Snapshots, tool: ToolId, own: ToolId)
    requires AllOwned(snapshots) && tool in snapshots
    ensures WithKey(snapshots[tool], ToolOf, own) == if tool == own then snapshots[tool] else []
  {
    UniformKey(snapshots[tool], ToolOf, tool, own);
  }

  lemma {:induction false} UniformKey<K>(items: seq<Item>, keyOf: Item -> K, own: K, key: K)
    requires forall i :: 0 <= i < |items| ==> keyOf(items[i]) == own
    ensures WithKey(items, keyOf, key) == if own == key then items else []
  {
    if items != [] {
      UniformKey(items[..|items| - 1], keyOf, own, key);
    }
  }

  /** The items of one tool come from a single snapshot, in its order, wherever it was visited. */
  lemma {:induction false} FlattenPart(tools: seq<ToolId>, snapshots: Snapshots, own: ToolId)
    requires AllOwned(snapshots) && NoDuplicates(tools) && forall tool :: tool in tools ==> tool in snapshots
    ensures WithKey(Flatten(tools, snapshots), ToolOf, own) == if own in tools then snapshots[own] else []
  {
    if tools != [] {
      var n := |tools| - 1;
      var earlier, last := tools[..n], tools[n];
      assert tools == earlier + [last];
      FlattenPart(earlier, snapshots, own);
      WithKeyAppend(Flatten(earlier, snapshots), snapshots[last], ToolOf, own);
      OwnPart(snapshots, last, own);
    }
  }

  lemma {:induction false} PartIgnoresIteration(t1: seq<ToolId>, t2: seq<ToolId>, snapshots: Snapshots,
                                                tool: Option<string>, own: ToolId)
    requires AllOwned(snapshots) && IsIteration(t1, snapshots) && IsIteration(t2, snapshots)
    ensures WithKey(SnapshotItems(t1, snapshots, tool), ToolOf, own)
         == WithKey(SnapshotItems(t2, snapshots, tool), ToolOf, own)
  {
    FlattenPart(t1, snapshots, own);
    FlattenPart(t2, snapshots, own);
  }

  lemma {:induction false} FlattenMember(tools: seq<ToolId>, snapshots: Snapshots, x: Item)
    requires AllOwned(snapshots) && x in Flatten(tools, snapshots)
    ensures x.tool in snapshots && x in snapshots[x.tool]
  {
    var n := |tools| - 1;
    if x in Flatten(tools[..n], snapshots) {
      FlattenMember(tools[..n], snapshots, x);
    }
  }

  lemma {:induction false} SnapshotMember(tools: seq<ToolId>, snapshots: Snapshots, tool: Option<string>, x: Item)
    requires AllOwned(snapshots) && x in SnapshotItems(tools, snapshots, tool)
    ensures x.tool in snapshots && x in snapshots[x.tool]
  {
    if tool.None? || tool.value == "all" {
      FlattenMember(tools, snapshots, x);
    }
  }

  lemma {:induction false} FlattenFirst(tool: ToolId, tools: seq<ToolId>, snapshots: Snapshots)
    requires tool in snapshots
    ensures Flatten([tool] + tools, snapshots) == snapshots[tool] + Flatten(tools, snapshots)
  {
    var all := [tool] + tools;
    if tools == [] {
      assert all == [tool] && [tool][..0] == [];
      assert Flatten([tool], snapshots) == [] + snapshots[tool];
    } else {
      var n := |tools| - 1;
      FlattenFirst(tool, tools[..n], snapshots);
      assert all[..n + 1] == [tool] + tools[..n];
    }
  }

  // ---------------------------------------------------------------------------------------------
  // The list ignores the iteration order
  // ---------------------------------------------------------------------------------------------

  /** Distinct tools have distinct names. */
  ghost predicate NamesAreInjective(tools: set<ToolId>) {
    forall a, b :: a in tools && b in tools && AsStr(a) == AsStr(b) ==> a == b
  }

  lemma {:induction false} VisiblePart(items: seq<Item>, subagents: bool, active: bool, own: ToolId)
    ensures WithKey(Visible(items, subagents, active), ToolOf, own)
         == Visible(WithKey(items, ToolOf, own), subagents, active)
  {
    if items != [] {
      var front, last := items[..|items| - 1], items[|items| - 1];
      VisiblePart(front, subagents, active, own);
      assert Visible(front, subagents, active) + [] == Visible(front, subagents, active);
      assert WithKey(front, ToolOf, own) + [] == WithKey(front, ToolOf, own);
      if IsVisible(last, subagents, active) {
        WithKeyOne(Visible(front, subagents, active), last, ToolOf, own);
      }
      if ToolOf(last) == own {
        VisibleOne(WithKey(front, ToolOf, own), last, subagents, active);
      }
    }
  }

  lemma {:induction false} VisibleOne(items: seq<Item>, last: Item, subagents: bool, active: bool)
    ensures Visible(items + [last], subagents, active)
         == Visible(items, subagents, active) + if IsVisible(last, subagents, active) then [last] else []
  {
    assert (items + [last])[..|items|] == items;
  }

  lemma {:induction false} ItemOrder()
    ensures TotalPreorder(ItemLe)
    ensures forall a, b :: Tied(a, b, ItemLe) ==> AsStr(a.tool) == AsStr(b.tool)
  {
    StringOrder();
  }

  lemma {:induction false} TiesLast(items: seq<Item>, last: Item, y: Item)
    ensures Tied(last, y, ItemLe) ==> Ties(items + [last], y, ItemLe) == Ties(items, y, ItemLe) + [last]
    ensures !Tied(last, y, ItemLe) ==> Ties(items + [last], y, ItemLe) == Ties(items, y, ItemLe)
  {
    TiesAppend(items, [last], y, ItemLe);
    assert [last][1..] == [];
  }

  lemma {:induction false} PartLast(front: seq<Item>, last: Item, own: ToolId)
    ensures last.tool == own ==> WithKey(front + [last], ToolOf, own) == WithKey(front, ToolOf, own) + [last]
    ensures last.tool != own ==> WithKey(front + [last], ToolOf, own) == WithKey(front, ToolOf, own)
  {
    WithKeyOne(front, last, ToolOf, own);
  }

  lemma {:induction false} TiedNames(x: Item, y: Item)
    requires Tied(x, y, ItemLe)
    ensures AsStr(x.tool) == AsStr(y.tool)
  {
    ItemOrder();
  }

  /** Items tie within one tool name only. */
  lemma {:induction false} TiesOfPart(items: seq<Item>, y: Item, own: ToolId)
    requires forall x :: x in items ==> (AsStr(x.tool) == AsStr(y.tool) <==> x.tool == own)
    ensures Ties(items, y, ItemLe) == Ties(WithKey(items, ToolOf, own), y, ItemLe)
  {
    if items != [] {
      var front, last := items[..|items| - 1], items[|items| - 1];
      assert items == front + [last] && last in items;
      TiesOfPart(front, y, own);
      TiesLast(front, last, y);
      PartLast(front, last, own);
      if last.tool == own {
        TiesLast(WithKey(front, ToolOf, own), last, y);
      } else if Tied(last, y, ItemLe) {
        TiedNames(last, y);
      }
    }
  }

  /** The registry's tool of this name, if any has it. */
  ghost function Bearer(tools: set<ToolId>, name: string): (own: Option<ToolId>)
    ensures own.Some? ==> own.value in tools && AsStr(own.value) == name
    ensures own.None? ==> forall tool :: tool in tools ==> AsStr(tool) != name
  {
    if tool :| tool in tools && AsStr(tool) == name then Some(tool) else None
  }

  lemma {:induction false} VisibleTies(tools: seq<ToolId>, snapshots: Snapshots, query: ListQuery, y: Item)
    requires AllOwned(snapshots) && NamesAreInjective(snapshots.Keys)
    ensures var seen := Visible(SnapshotItems(tools, snapshots, query.tool), query.includeSubagents, query.activeOnly);
      var own := Bearer(snapshots.Keys, AsStr(y.tool));
      Ties(seen, y, ItemLe) == if own.None? then [] else Ties(WithKey(seen, ToolOf, own.value), y, ItemLe)
  {
    var items := SnapshotItems(tools, snapshots, query.tool);
    var seen := Visible(items, query.includeSubagents, query.activeOnly);
    forall x | x in seen ensures x.tool in snapshots {
      VisibleMember(items, query.includeSubagents, query.activeOnly, x);
      SnapshotMember(tools, snapshots, query.tool, x);
    }
    var own := Bearer(snapshots.Keys, AsStr(y.tool));
    if own.Some? {
      TiesOfPart(seen, y, own.value);
    } else {
      ItemOrder();
      NoTies(seen, y, ItemLe);
    }
  }

  /** `list` returns the same sequence whatever order the snapshot map iterates in, duplicate session ids
      included: ties only occur within one tool's snapshot, where the stable sort keeps its order. */
  lemma {:induction false} ListIgnoresIteration(t1: seq<ToolId>, t2: seq<ToolId>, snapshots: Snapshots,
                                                query: ListQuery)
    requires AllOwned(snapshots) && NamesAreInjective(snapshots.Keys)
    requires IsIteration(t1, snapshots) && IsIteration(t2, snapshots)
    ensures ListOf(t1, snapshots, query) == ListOf(t2, snapshots, query)
  {
    var i1, i2 := SnapshotItems(t1, snapshots, query.tool), SnapshotItems(t2, snapshots, query.tool);
    var subagents, active := query.includeSubagents, query.activeOnly;
    var v1, v2 := Visible(i1, subagents, active), Visible(i2, subagents, active);
    forall y ensures Ties(v1, y, ItemLe) == Ties(v2, y, ItemLe) {
      VisibleTies(t1, snapshots, query, y);
      VisibleTies(t2, snapshots, query, y);
      var own := Bearer(snapshots.Keys, AsStr(y.tool));
      if own.Some? {
        VisiblePart(i1, subagents, active, own.value);
        VisiblePart(i2, subagents, active, own.value);
        PartIgnoresIteration(t1, t2, snapshots, query.tool, own.value);
      }
    }
    ItemOrder();
    SortDependsOnTies(v1, v2, ItemLe);
  }

  /** What parsing a tool id yields. */
  predicate IsParsed(tool: ToolId) {
    tool == FromId(AsStr(tool))
  }

  lemma {:induction false} ParsedNamesAreInjective(tools: set<ToolId>)
    requires forall tool :: tool in tools ==> exists text :: tool == FromId(text)
    ensures NamesAreInjective(tools)
  {
    forall tool | tool in tools ensures IsParsed(tool) {
      var text :| tool == FromId(text);
    }
  }

  /** In a registry whose tool ids were all parsed from text, `list` does not depend on the iteration order. */
  lemma {:induction false} ParsedListIgnoresIteration(t1: seq<ToolId>, t2: seq<ToolId>, snapshots: Snapshots,
                                                      query: ListQuery)
    requires AllOwned(snapshots) && forall tool :: tool in snapshots ==> exists text :: tool == FromId(text)
    requires IsIteration(t1, snapshots) && IsIteration(t2, snapshots)
    ensures ListOf(t1, snapshots, query) == ListOf(t2, snapshots, query)
  {
    ParsedNamesAreInjective(snapshots.Keys);
    ListIgnoresIteration(t1, t2, snapshots, query);
  }

  /** What a query sees: the snapshot items its two filters let through. */
  lemma {:induction false} VisibleMember(items: seq<Item>, subagents: bool, active: bool, x: Item)
    ensures x in Visible(items, subagents, active)
      <==> x in items && (subagents || !x.isSubagent) && (!active || x.isActive)
  {
    if items != [] {
      var n := |items| - 1;
      VisibleMember(items[..n], subagents, active, x);
      assert items == items[..n] + [items[n]];
    }
  }

  /** Which items a query sees: those of all tools or of the one it names, subagents and inactive ones only where
      it lets them through. */
  ghost predicate Sees(query: ListQuery, snapshots: Snapshots, x: Item) {
    && x.tool in snapshots && x in snapshots[x.tool]
    && (query.tool == None || query.tool == Some("all") || x.tool == FromId(query.tool.value))
    && (x.isSubagent ==> query.includeSubagents) && (query.activeOnly ==> x.isActive)
  }

  lemma {:induction false} FlattenHolds(tools: seq<ToolId>, snapshots: Snapshots, tool: ToolId, x: Item)
    requires tool in tools && tool in snapshots && x in snapshots[tool]
    ensures x in Flatten(tools, snapshots)
  {
    var n := |tools| - 1;
    assert tools == tools[..n] + [tools[n]];
    if tool != tools[n] {
      FlattenHolds(tools[..n], snapshots, tool, x);
    }
  }

  lemma {:induction false} SeesExactly(tools: seq<ToolId>, snapshots: Snapshots, query: ListQuery, x: Item)
    requires AllOwned(snapshots) && IsIteration(tools, snapshots)
    ensures x in Visible(SnapshotItems(tools, snapshots, query.tool), query.includeSubagents, query.activeOnly)
       <==> Sees(query, snapshots, x)
  {
    VisibleMember(SnapshotItems(tools, snapshots, query.tool), query.includeSubagents, query.activeOnly, x);
    if x in SnapshotItems(tools, snapshots, query.tool) {
      SnapshotMember(tools, snapshots, query.tool, x);
      if query.tool != None && query.tool != Some("all") {
        var named := snapshots[FromId(query.tool.value)];
        var i :| 0 <= i < |named| && named[i] == x;
      }
    }
    if Sees(query, snapshots, x) && (query.tool == None || query.tool == Some("all")) {
      FlattenHolds(tools, snapshots, x.tool, x);
    }
  }

  /** Seen last first; of those seen at one time the last modified first; then by tool name, session id and id. */
  ghost predicate InListOrder(items: seq<Item>) {
    forall i, j :: 0 <= i < j < |items| ==> ListedBefore(items[i], items[j])
  }

  predicate ListedBefore(l: Item, r: Item) {
    && l.lastSeenAt >= r.lastSeenAt
    && (l.lastSeenAt == r.lastSeenAt ==> l.modifiedAt >= r.modifiedAt)
    && (l.lastSeenAt == r.lastSeenAt && l.modifiedAt == r.modifiedAt ==>
          && StringLe(AsStr(l.tool), AsStr(r.tool))
          && (AsStr(l.tool) == AsStr(r.tool) ==> StringLe(l.sessionId, r.sessionId))
          && (AsStr(l.tool) == AsStr(r.tool) && l.sessionId == r.sessionId ==> StringLe(l.id, r.id)))
  }

  /** `rest` is what a cut at `limit` left out of the items seen; it comes after what was kept. */
  ghost predicate IsTop(kept: seq<Item>, rest: seq<Item>, seen: seq<Item>, limit: nat) {
    && multiset(kept + rest) == multiset(seen) && InListOrder(kept + rest)
    && |kept| <= limit && (rest != [] ==> |kept| == limit)
  }

  lemma {:induction false} SortedIsInListOrder(items: seq<Item>)
    requires Sorted(items, ItemLe)
    ensures InListOrder(items)
  {
    StringOrder();
  }

  lemma {:induction false} TruncatedIsTop(seen: seq<Item>, limit: nat) returns (rest: seq<Item>)
    ensures IsTop(Truncate(Sort(seen, ItemLe), limit), rest, seen, limit)
  {
    var sorted := Sort(seen, ItemLe);
    ItemOrder();
    SortPermutes(seen, ItemLe);
    SortSorted(seen, ItemLe);
    SortedIsInListOrder(sorted);
    rest := sorted[|Truncate(sorted, limit)|..];
    assert Truncate(sorted, limit) + rest == sorted;
  }

  /** The list is the top of what the query sees: in order, cut at the limit, 100 unless given and at most 500, and
      whatever is left out comes after anything listed. Only a limit of zero is refused. */
  lemma {:induction false} ListIsTop(tools: seq<ToolId>, snapshots: Snapshots, query: ListQuery)
    returns (rest: seq<Item>, seen: seq<Item>)
    requires AllOwned(snapshots) && IsIteration(tools, snapshots)
    ensures ListOf(tools, snapshots, query).ListErr? <==> query.limit == Some(0)
    ensures query.limit == Some(0) ==> ListOf(tools, snapshots, query) == ListErr("limit 必须大于 0")
    ensures forall x :: x in seen <==> Sees(query, snapshots, x)
    ensures var result := ListOf(tools, snapshots, query);
      result.ListOk? ==>
        IsTop(result.items, rest, seen,
              if query.limit == None then 100 else if query.limit.value <= 500 then query.limit.value else 500)
  {
    var limit := if query.limit.Some? then query.limit.value else DEFAULT_LIMIT;
    seen := Visible(SnapshotItems(tools, snapshots, query.tool), query.includeSubagents, query.activeOnly);
    rest := TruncatedIsTop(seen, if limit > MAX_LIMIT then MAX_LIMIT else limit);
    forall x ensures x in seen <==> Sees(query, snapshots, x) {
      SeesExactly(tools, snapshots, query, x);
    }
  }

  lemma {:induction false} KeptOrLeft(kept: seq<Item>, rest: seq<Item>, seen: seq<Item>, x: Item)
    requires multiset(kept + rest) == multiset(seen)
    ensures x in seen <==> x in kept || x in rest
  {
    assert x in seen <==> x in multiset(seen);
    assert x in kept + rest <==> x in multiset(kept + rest);
  }

  /** Whatever the query sees and the list leaves out was seen no later than anything listed. */
  lemma {:induction false} LeftOutIsOlder(tools: seq<ToolId>, snapshots: Snapshots, query: ListQuery, x: Item, y: Item)
    requires AllOwned(snapshots) && IsIteration(tools, snapshots) && ListOf(tools, snapshots, query).ListOk?
    requires Sees(query, snapshots, x) && x !in ListOf(tools, snapshots, query).items
    requires y in ListOf(tools, snapshots, query).items
    ensures x.lastSeenAt <= y.lastSeenAt && ListedBefore(y, x)
  {
    var kept := ListOf(tools, snapshots, query).items;
    var rest, seen := ListIsTop(tools, snapshots, query);
    KeptOrLeft(kept, rest, seen, x);
    var i :| 0 <= i < |kept| && kept[i] == y;
    var j :| 0 <= j < |rest| && rest[j] == x;
    assert (kept + rest)[i] == y && (kept + rest)[|kept| + j] == x;
  }

  function ListAll(): ListQuery {
    ListQuery(None, true, false, None)
  }

  lemma {:induction false} TwinsTie(item: Item, twin: Item)
    requires twin == item.(tool := twin.tool) && AsStr(twin.tool) == AsStr(item.tool)
    ensures ItemLe(item, twin) && ItemLe(twin, item)
  {
    StringOrder();
  }

  lemma {:induction false} AllVisible(items: seq<Item>)
    ensures Visible(items, true, false) == items
  {
    if items != [] {
      AllVisible(items[..|items| - 1]);
    }
  }

  /** When everything ties with the first item visited, the list begins with it. */
  lemma {:induction false} ListBeginsWith(first: ToolId, tools: seq<ToolId>, x: Item, snapshots: Snapshots)
    requires tools != [] && tools[0] == first && first in snapshots && snapshots[first] == [x]
    requires forall y :: y in Flatten(tools, snapshots) ==> ItemLe(x, y)
    ensures ListOf(tools, snapshots, ListAll()).ListOk?
    ensures var items := ListOf(tools, snapshots, ListAll()).items; items != [] && items[0] == x
  {
    var items := Flatten(tools, snapshots);
    assert tools == [first] + tools[1..];
    FlattenFirst(first, tools[1..], snapshots);
    AllVisible(items);
    LeastHeadStays(items, ItemLe);
  }

  /** One item under tool `a`, the same item under tool `b`, and nothing under the others. */
  function TwinSnapshots(tools: set<ToolId>, a: ToolId, b: ToolId, x: Item): Snapshots {
    map tool | tool in tools :: if tool == a then [x] else if tool == b then [x.(tool := b)] else []
  }

  lemma {:induction false} TwinSnapshotsAreSound(tools: set<ToolId>, a: ToolId, b: ToolId, x: Item, first: ToolId)
    requires a in tools && b in tools && a != b && AsStr(a) == AsStr(b)
    requires x.tool == a && x.id == CanonicalId(a, x.sessionId)
    ensures var snapshots := TwinSnapshots(tools, a, b, x);
      && AllOwned(snapshots) && snapshots.Keys == tools && IsIteration(Beginning(first, tools), snapshots)
      && snapshots[a] == [x] && snapshots[b] == [x.(tool := b)]
  {}

  lemma {:induction false} TwinsTieThroughout(tools: set<ToolId>, order: seq<ToolId>, a: ToolId, b: ToolId, x: Item)
    requires a in tools && b in tools && AsStr(a) == AsStr(b) && x.tool == a
    requires AllOwned(TwinSnapshots(tools, a, b, x))
    ensures forall y :: y in Flatten(order, TwinSnapshots(tools, a, b, x)) ==> ItemLe(x, y) && ItemLe(x.(tool := b), y)
  {
    var twin := x.(tool := b);
    TwinsTie(x, twin);
    TwinsTie(x, x);
    TwinsTie(twin, twin);
    forall y | y in Flatten(order, TwinSnapshots(tools, a, b, x)) ensures y == x || y == twin {
      FlattenMember(order, TwinSnapshots(tools, a, b, x), y);
    }
  }

  /** Two tools of one name: the list shows which of them was visited first. */
  lemma {:induction false} SharedNameExposesIteration(tools: set<ToolId>, a: ToolId, b: ToolId, x: Item)
    requires a in tools && b in tools && a != b && AsStr(a) == AsStr(b)
    requires x.tool == a && x.id == CanonicalId(a, x.sessionId)
    ensures var snapshots := TwinSnapshots(tools, a, b, x);
      && AllOwned(snapshots) && snapshots.Keys == tools
      && IsIteration(Beginning(a, tools), snapshots) && IsIteration(Beginning(b, tools), snapshots)
      && ListOf(Beginning(a, tools), snapshots, ListAll()) != ListOf(Beginning(b, tools), snapshots, ListAll())
  {
    var snapshots := TwinSnapshots(tools, a, b, x);
    var t1, t2 := Beginning(a, tools), Beginning(b, tools);
    TwinSnapshotsAreSound(tools, a, b, x, a);
    TwinSnapshotsAreSound(tools, a, b, x, b);
    TwinsTieThroughout(tools, t1, a, b, x);
    TwinsTieThroughout(tools, t2, a, b, x);
    ListBeginsWith(a, t1, x, snapshots);
    ListBeginsWith(b, t2, x.(tool := b), snapshots);
  }

  /** Whatever these tools' snapshots hold, no query can tell in which order the map yields them. */
  ghost predicate ListsIgnoreIteration(tools: set<ToolId>) {
    forall snapshots: Snapshots, t1, t2, query ::
      snapshots.Keys == tools && AllOwned(snapshots) && IsIteration(t1, snapshots) && IsIteration(t2, snapshots) ==>
        ListOf(t1, snapshots, query) == ListOf(t2, snapshots, query)
  }

  /** That holds exactly of the sets of tools whose names differ. */
  lemma {:induction false} ListsIgnoreIterationExactly(tools: set<ToolId>)
    ensures ListsIgnoreIteration(tools) <==> NamesAreInjective(tools)
  {
    if NamesAreInjective(tools) {
      forall snapshots: Snapshots, t1, t2, query |
        snapshots.Keys == tools && AllOwned(snapshots) && IsIteration(t1, snapshots) && IsIteration(t2, snapshots)
        ensures ListOf(t1, snapshots, query) == ListOf(t2, snapshots, query)
      {
        ListIgnoresIteration(t1, t2, snapshots, query);
      }
    } else {
      var a, b :| a in tools && b in tools && AsStr(a) == AsStr(b) && a != b;
      var any: Item := *;
      SharedNameExposesIteration(tools, a, b, Owned(a, any));
    }
  }

  // ---------------------------------------------------------------------------------------------
  // The groups ignore it too
  // ---------------------------------------------------------------------------------------------

  lemma {:induction false} SelectedPart(items: seq<Item>, path: Option<string>, own: ToolId)
    ensures WithKey(Selected(items, path), ToolOf, own) == Selected(WithKey(items, ToolOf, own), path)
  {
    if items != [] {
      var front, last := items[..|items| - 1], items[|items| - 1];
      SelectedPart(front, path, own);
      assert Selected(front, path) + [] == Selected(front, path);
      assert WithKey(front, ToolOf, own) + [] == WithKey(front, ToolOf, own);
      if path.None? || last.projectPath == path.value {
        WithKeyOne(Selected(front, path), last, ToolOf, own);
      }
      if ToolOf(last) == own {
        SelectedOne(WithKey(front, ToolOf, own), last, path);
      }
    }
  }

  lemma {:induction false} SelectedAppend(a: seq<Item>, b: seq<Item>, path: Option<string>)
    ensures Selected(a + b, path) == Selected(a, path) + Selected(b, path)
  {
    if b == [] {
      assert a + b == a;
    } else {
      var front, last := b[..|b| - 1], b[|b| - 1];
      var chosen := if path.None? || last.projectPath == path.value then [last] else [];
      SelectedAppend(a, front, path);
      Reassociate(a, front, [last]);
      assert front + [last] == b;
      SelectedOne(front, last, path);
      SelectedOne(a + front, last, path);
      Reassociate(Selected(a, path), Selected(front, path), chosen);
    }
  }

  lemma {:induction false} SelectedMember(items: seq<Item>, path: Option<string>, x: Item)
    ensures x in Selected(items, path) <==> x in items && (path.None? || x.projectPath == path.value)
  {
    if items != [] {
      var n := |items| - 1;
      SelectedMember(items[..n], path, x);
      assert items == items[..n] + [items[n]];
    }
  }

  lemma {:induction false} KeyWithinTool(items: seq<Item>, key: string, own: ToolId)
    requires forall x :: x in items && ProjectKey(x) == key ==> x.tool == own
    ensures WithKey(items, ProjectKey, key) == WithKey(WithKey(items, ToolOf, own), ProjectKey, key)
  {
    if items != [] {
      var n := |items| - 1;
      KeyWithinTool(items[..n], key, own);
      var last, part := items[n], WithKey(items[..n], ToolOf, own);
      assert (part + [last])[..|part|] == part && part + [] == part;
    }
  }

  /** What a group query works on. */
  function Queried(tools: seq<ToolId>, snapshots: Snapshots, tool: Option<string>, path: Option<string>): seq<Item> {
    Selected(SnapshotItems(tools, snapshots, tool), path)
  }

  /** No two tools meet under one project key. */
  ghost predicate KeysSeparate(items: seq<Item>) {
    forall x, y :: x in items && y in items && ProjectKey(x) == ProjectKey(y) ==> x.tool == y.tool
  }

  /** What decides whether an order can show: no two tools under one key, and no twin sessions. */
  ghost predicate Unambiguous(items: seq<Item>) {
    KeysSeparate(items) && NoTwins(items)
  }

  lemma {:induction false} QueriedPart(t1: seq<ToolId>, t2: seq<ToolId>, snapshots: Snapshots, tool: Option<string>,
                                       path: Option<string>, own: ToolId)
    requires AllOwned(snapshots) && IsIteration(t1, snapshots) && IsIteration(t2, snapshots)
    ensures WithKey(Queried(t1, snapshots, tool, path), ToolOf, own)
         == WithKey(Queried(t2, snapshots, tool, path), ToolOf, own)
  {
    SelectedPart(SnapshotItems(t1, snapshots, tool), path, own);
    SelectedPart(SnapshotItems(t2, snapshots, tool), path, own);
    PartIgnoresIteration(t1, t2, snapshots, tool, own);
  }

  lemma {:induction false} QueriedSame(t1: seq<ToolId>, t2: seq<ToolId>, snapshots: Snapshots, tool: Option<string>,
                                       path: Option<string>, x: Item)
    requires AllOwned(snapshots) && IsIteration(t1, snapshots) && IsIteration(t2, snapshots)
    ensures x in Queried(t1, snapshots, tool, path) <==> x in Queried(t2, snapshots, tool, path)
  {
    QueriedPart(t1, t2, snapshots, tool, path, x.tool);
    WithKeyMember(Queried(t1, snapshots, tool, path), ToolOf, x.tool, x);
    WithKeyMember(Queried(t2, snapshots, tool, path), ToolOf, x.tool, x);
  }

  /** Where keys separate tools, a project's items come from one snapshot, so their order does not vary. */
  lemma {:induction false} ProjectPartIgnoresIteration(t1: seq<ToolId>, t2: seq<ToolId>, snapshots: Snapshots,
                                                       tool: Option<string>, path: Option<string>, key: string)
    requires AllOwned(snapshots) && IsIteration(t1, snapshots) && IsIteration(t2, snapshots)
    requires KeysSeparate(Queried(t1, snapshots, tool, path))
    ensures WithKey(Queried(t1, snapshots, tool, path), ProjectKey, key)
         == WithKey(Queried(t2, snapshots, tool, path), ProjectKey, key)
  {
    var q1, q2 := Queried(t1, snapshots, tool, path), Queried(t2, snapshots, tool, path);
    forall x ensures x in q1 <==> x in q2 {
      QueriedSame(t1, t2, snapshots, tool, path, x);
    }
    var own := if x :| x in q1 && ProjectKey(x) == key then x.tool else Codex;
    KeyWithinTool(q1, key, own);
    KeyWithinTool(q2, key, own);
    QueriedPart(t1, t2, snapshots, tool, path, own);
  }

  lemma {:induction false} ProjectsIgnoreIteration(t1: seq<ToolId>, t2: seq<ToolId>, snapshots: Snapshots,
                                                   tool: Option<string>, path: Option<string>)
    requires AllOwned(snapshots) && IsIteration(t1, snapshots) && IsIteration(t2, snapshots)
    requires KeysSeparate(Queried(t1, snapshots, tool, path))
    ensures ProjectsOf(Queried(t1, snapshots, tool, path)) == ProjectsOf(Queried(t2, snapshots, tool, path))
  {
    var q1, q2 := Queried(t1, snapshots, tool, path), Queried(t2, snapshots, tool, path);
    var p1, p2 := ProjectsOf(q1), ProjectsOf(q2);
    forall key ensures key in p1 <==> key in p2 {
      ProjectPartIgnoresIteration(t1, t2, snapshots, tool, path, key);
      WithKeyNonempty(q1, ProjectKey, key);
      WithKeyNonempty(q2, ProjectKey, key);
    }
    forall key | key in p1 ensures p1[key] == p2[key] {
      ProjectPartIgnoresIteration(t1, t2, snapshots, tool, path, key);
      assert key in p2;
    }
    SameMaps(p1, p2);
  }

  /** A shared key's group belongs to the tool visited first. */
  lemma {:induction false} FirstToolOwnsKey(first: ToolId, tools: seq<ToolId>, snapshots: Snapshots,
                                            path: Option<string>, x: Item)
    requires AllOwned(snapshots) && IsIteration(tools, snapshots) && tools != [] && tools[0] == first
    requires x.tool == first && x in Queried(tools, snapshots, None, path)
    ensures ProjectKey(x) in ProjectsOf(Queried(tools, snapshots, None, path))
    ensures ProjectsOf(Queried(tools, snapshots, None, path))[ProjectKey(x)].tool == first
  {
    var own, others := snapshots[first], Flatten(tools[1..], snapshots);
    var key := ProjectKey(x);
    assert tools == [first] + tools[1..];
    FlattenFirst(first, tools[1..], snapshots);
    SelectedAppend(own, others, path);
    WithKeyAppend(Selected(own, path), Selected(others, path), ProjectKey, key);
    SelectedMember(own + others, path, x);
    FlattenMember(tools, snapshots, x);
    SelectedMember(own, path, x);
    var part := WithKey(Selected(own, path), ProjectKey, key);
    WithKeyMember(Selected(own, path), ProjectKey, key, x);
    assert part[0] in part;
    WithKeyMember(Selected(own, path), ProjectKey, key, part[0]);
    SelectedMember(own, path, part[0]);
    WithKeyNonempty(Queried(tools, snapshots, None, path), ProjectKey, key);
  }

  /** No iteration of any hash map involved shows in the groups of this query. */
  ghost predicate GroupsIgnoreIteration(snapshots: Snapshots, tool: Option<string>, path: Option<string>,
                                        includeSubagents: bool) {
    forall t1, t2, o1, o2 ::
      IsIteration(t1, snapshots) && IsIteration(t2, snapshots) && Enumerates(o1) && Enumerates(o2) ==>
        SortedGroups(SnapshotItems(t1, snapshots, tool), path, includeSubagents, o1)
        == SortedGroups(SnapshotItems(t2, snapshots, tool), path, includeSubagents, o2)
  }

  /** Only a query over all snapshots sees two tools. */
  lemma {:induction false} TwoToolsQueried(tools: seq<ToolId>, snapshots: Snapshots, tool: Option<string>,
                                           path: Option<string>, x: Item, y: Item)
    requires AllOwned(snapshots) && x.tool != y.tool
    requires x in Queried(tools, snapshots, tool, path) && y in Queried(tools, snapshots, tool, path)
    ensures x.tool in snapshots && y.tool in snapshots
    ensures forall order :: SnapshotItems(order, snapshots, tool) == SnapshotItems(order, snapshots, None)
  {
    SelectedMember(SnapshotItems(tools, snapshots, tool), path, x);
    SelectedMember(SnapshotItems(tools, snapshots, tool), path, y);
    SnapshotMember(tools, snapshots, tool, x);
    SnapshotMember(tools, snapshots, tool, y);
  }

  /** Two tools under one key: the group shows which of them was visited first. */
  lemma {:induction false} SharedKeyExposesIteration(tools: seq<ToolId>, snapshots: Snapshots, tool: Option<string>,
                                                     path: Option<string>, includeSubagents: bool, x: Item, y: Item)
    requires AllOwned(snapshots) && IsIteration(tools, snapshots)
    requires x in Queried(tools, snapshots, tool, path) && y in Queried(tools, snapshots, tool, path)
    requires ProjectKey(x) == ProjectKey(y) && x.tool != y.tool
    ensures !GroupsIgnoreIteration(snapshots, tool, path, includeSubagents)
  {
    var order := Favouring("", "");
    FavouringEnumerates("", "");
    TwoToolsQueried(tools, snapshots, tool, path, x, y);
    var t1, t2 := Beginning(x.tool, snapshots.Keys), Beginning(y.tool, snapshots.Keys);
    QueriedSame(tools, t1, snapshots, tool, path, x);
    QueriedSame(tools, t2, snapshots, tool, path, y);
    FirstToolOwnsKey(x.tool, t1, snapshots, path, x);
    FirstToolOwnsKey(y.tool, t2, snapshots, path, y);
    ProjectsAreFilled(Queried(t1, snapshots, tool, path));
    ProjectsAreFilled(Queried(t2, snapshots, tool, path));
    GroupsDiffer(SnapshotItems(t1, snapshots, tool), SnapshotItems(t2, snapshots, tool), path, includeSubagents,
                 order, order, ProjectKey(x));
  }

  lemma {:induction false} GroupsAgree(t1: seq<ToolId>, t2: seq<ToolId>, snapshots: Snapshots, tool: Option<string>,
                                       path: Option<string>, includeSubagents: bool, o1: IterationOrder,
                                       o2: IterationOrder)
    requires AllOwned(snapshots) && IsIteration(t1, snapshots) && IsIteration(t2, snapshots)
    requires Enumerates(o1) && Enumerates(o2)
    requires Unambiguous(Queried(t1, snapshots, tool, path))
    ensures SortedGroups(SnapshotItems(t1, snapshots, tool), path, includeSubagents, o1)
         == SortedGroups(SnapshotItems(t2, snapshots, tool), path, includeSubagents, o2)
  {
    GroupsIgnoreMapOrder(SnapshotItems(t1, snapshots, tool), path, includeSubagents, o1, o2);
    ProjectsIgnoreIteration(t1, t2, snapshots, tool, path);
  }

  /** The groups of a query are the same for every order of every hash map exactly when no two tools meet under one
      project key and no project has twin sessions. */
  lemma {:induction false} GroupsIgnoreIterationExactly(tools: seq<ToolId>, snapshots: Snapshots, tool: Option<string>,
                                                        path: Option<string>, includeSubagents: bool)
    requires AllOwned(snapshots) && IsIteration(tools, snapshots)
    ensures GroupsIgnoreIteration(snapshots, tool, path, includeSubagents)
      <==> Unambiguous(Queried(tools, snapshots, tool, path))
  {
    var queried := Queried(tools, snapshots, tool, path);
    if !KeysSeparate(queried) {
      var x, y :| x in queried && y in queried && ProjectKey(x) == ProjectKey(y) && x.tool != y.tool;
      SharedKeyExposesIteration(tools, snapshots, tool, path, includeSubagents, x, y);
    } else if NoTwins(queried) {
      var order := Favouring("", "");
      FavouringEnumerates("", "");
      forall t1, t2, o1, o2 |
        IsIteration(t1, snapshots) && IsIteration(t2, snapshots) && Enumerates(o1) && Enumerates(o2)
        ensures SortedGroups(SnapshotItems(t1, snapshots, tool), path, includeSubagents, o1)
             == SortedGroups(SnapshotItems(t2, snapshots, tool), path, includeSubagents, o2)
      {
        GroupsAgree(tools, t1, snapshots, tool, path, includeSubagents, order, o1);
        GroupsAgree(tools, t2, snapshots, tool, path, includeSubagents, order, o2);
      }
    } else {
      GroupsIgnoreOrdersExactly(SnapshotItems(tools, snapshots, tool), path, includeSubagents);
    }
  }

  lemma {:induction false} FlattenTwo(a: ToolId, b: ToolId, snapshots: Snapshots)
    requires a in snapshots && b in snapshots
    ensures Flatten([a, b], snapshots) == snapshots[a] + snapshots[b]
  {
    assert [a, b] == [a] + [b] && [b] == [b] + [];
    FlattenFirst(a, [b], snapshots);
    FlattenFirst(b, [], snapshots);
  }

  lemma {:induction false} SameKeyAcrossTools(name: string, path: string)
    ensures name + [NUL] + ([NUL] + path) == (name + [NUL]) + [NUL] + path
  {}

  /** The snapshots of two tools, one item each. */
  function OneEach(y: Item, z: Item): Snapshots {
    map[y.tool := [y], z.tool := [z]]
  }

  lemma {:induction false} OneEachIsSound(y: Item, z: Item)
    requires AsStr(y.tool) != AsStr(z.tool)
    requires y.id == CanonicalId(y.tool, y.sessionId) && z.id == CanonicalId(z.tool, z.sessionId)
    ensures AllOwned(OneEach(y, z)) && NamesAreInjective(OneEach(y, z).Keys) && UniqueIdsPerSnapshot(OneEach(y, z))
    ensures IsIteration([y.tool, z.tool], OneEach(y, z))
  {}

  lemma {:induction false} OneEachQueried(y: Item, z: Item, x: Item)
    requires y.tool != z.tool && x in {y, z}
    ensures x in Queried([y.tool, z.tool], OneEach(y, z), None, None)
  {
    FlattenTwo(y.tool, z.tool, OneEach(y, z));
    SelectedMember([y] + [z], None, x);
  }

  /** A custom tool with the separator in its name can meet another tool under one key, although names differ and no
      session id is repeated. */
  lemma {:induction false} SeparatorInNameShows(y: Item, z: Item, name: string, includeSubagents: bool)
    requires y.tool == Custom(name) && z.tool == Custom(name + [NUL]) && y.projectPath == [NUL] + z.projectPath
    requires y.id == CanonicalId(y.tool, y.sessionId) && z.id == CanonicalId(z.tool, z.sessionId)
    ensures AllOwned(OneEach(y, z)) && NamesAreInjective(OneEach(y, z).Keys) && UniqueIdsPerSnapshot(OneEach(y, z))
    ensures !GroupsIgnoreIteration(OneEach(y, z), None, None, includeSubagents)
  {
    assert |name| < |name + [NUL]|;
    OneEachIsSound(y, z);
    OneEachQueried(y, z, y);
    OneEachQueried(y, z, z);
    SameKeyAcrossTools(name, z.projectPath);
    SharedKeyExposesIteration([y.tool, z.tool], OneEach(y, z), None, None, includeSubagents, y, z);
  }

  // ---------------------------------------------------------------------------------------------
  // Pages
  // ---------------------------------------------------------------------------------------------

  /** No page of this query shows an iteration. */
  ghost predicate PagesIgnoreIteration(snapshots: Snapshots, query: Query) {
    forall t1, t2, o1, o2, page, pageSize ::
      IsIteration(t1, snapshots) && IsIteration(t2, snapshots) && Enumerates(o1) && Enumerates(o2) ==>
        ProjectGroups(SnapshotItems(t1, snapshots, query.tool), query.(page := page, pageSize := pageSize), o1)
        == ProjectGroups(SnapshotItems(t2, snapshots, query.tool), query.(page := page, pageSize := pageSize), o2)
  }

  ghost predicate GroupsFit(snapshots: Snapshots, query: Query) {
    forall tools, order :: IsIteration(tools, snapshots) && Enumerates(order) ==>
      |SortedGroups(SnapshotItems(tools, snapshots, query.tool), RequestedPath(query), query.includeSubagents, order)|
      <= USIZE_MAX
  }

  lemma {:induction false} GroupsShowOnPage(i1: seq<Item>, i2: seq<Item>, query: Query, o1: IterationOrder,
                                            o2: IterationOrder) returns (page: nat)
    requires Enumerates(o1) && Enumerates(o2)
    requires var path, subagents := RequestedPath(query), query.includeSubagents;
      var g1, g2 := SortedGroups(i1, path, subagents, o1), SortedGroups(i2, path, subagents, o2);
      g1 != g2 && |g1| <= USIZE_MAX && |g2| <= USIZE_MAX
    ensures ProjectGroups(i1, query.(page := Some(page), pageSize := Some(1)), o1)
         != ProjectGroups(i2, query.(page := Some(page), pageSize := Some(1)), o2)
  {
    var path, subagents := RequestedPath(query), query.includeSubagents;
    page := SomePageDiffers(SortedGroups(i1, path, subagents, o1), SortedGroups(i2, path, subagents, o2));
  }

  lemma {:induction false} PagesShow(t1: seq<ToolId>, t2: seq<ToolId>, snapshots: Snapshots, query: Query,
                                     o1: IterationOrder, o2: IterationOrder)
    requires GroupsFit(snapshots, query)
    requires IsIteration(t1, snapshots) && IsIteration(t2, snapshots) && Enumerates(o1) && Enumerates(o2)
    requires SortedGroups(SnapshotItems(t1, snapshots, query.tool), RequestedPath(query), query.includeSubagents, o1)
          != SortedGroups(SnapshotItems(t2, snapshots, query.tool), RequestedPath(query), query.includeSubagents, o2)
    ensures !PagesIgnoreIteration(snapshots, query)
  {
    var page := GroupsShowOnPage(SnapshotItems(t1, snapshots, query.tool), SnapshotItems(t2, snapshots, query.tool),
                                 query, o1, o2);
  }

  lemma {:induction false} PagesShowGroups(snapshots: Snapshots, query: Query)
    requires GroupsFit(snapshots, query)
    ensures PagesIgnoreIteration(snapshots, query)
      <==> GroupsIgnoreIteration(snapshots, query.tool, RequestedPath(query), query.includeSubagents)
  {
    var tool, path, subagents := query.tool, RequestedPath(query), query.includeSubagents;
    if GroupsIgnoreIteration(snapshots, tool, path, subagents) {
      GroupsDecidePages(snapshots, query);
    } else {
      var t1, t2, o1, o2 :|
        IsIteration(t1, snapshots) && IsIteration(t2, snapshots) && Enumerates(o1) && Enumerates(o2)
        && SortedGroups(SnapshotItems(t1, snapshots, tool), path, subagents, o1)
           != SortedGroups(SnapshotItems(t2, snapshots, tool), path, subagents, o2);
      PagesShow(t1, t2, snapshots, query, o1, o2);
    }
  }

  /** The pages of a query are the same for every order of every hash map on the same condition: what shows in the
      groups shows on some page. */
  lemma {:induction false} PagesIgnoreIterationExactly(tools: seq<ToolId>, snapshots: Snapshots, query: Query)
    requires AllOwned(snapshots) && IsIteration(tools, snapshots) && GroupsFit(snapshots, query)
    ensures PagesIgnoreIteration(snapshots, query)
      <==> Unambiguous(Queried(tools, snapshots, query.tool, RequestedPath(query)))
  {
    PagesShowGroups(snapshots, query);
    GroupsIgnoreIterationExactly(tools, snapshots, query.tool, RequestedPath(query), query.includeSubagents);
  }

  lemma {:induction false} GroupsDecidePages(snapshots: Snapshots, query: Query)
    requires GroupsIgnoreIteration(snapshots, query.tool, RequestedPath(query), query.includeSubagents)
    ensures PagesIgnoreIteration(snapshots, query)
  {
    forall t1, t2, o1, o2, page, pageSize |
      IsIteration(t1, snapshots) && IsIteration(t2, snapshots) && Enumerates(o1) && Enumerates(o2)
      ensures ProjectGroups(SnapshotItems(t1, snapshots, query.tool), query.(page := page, pageSize := pageSize), o1)
           == ProjectGroups(SnapshotItems(t2, snapshots, query.tool), query.(page := page, pageSize := pageSize), o2)
    {
      PagesFollow(t1, t2, snapshots, query, query.(page := page, pageSize := pageSize), o1, o2);
    }
  }

  lemma {:induction false} PagesFollow(t1: seq<ToolId>, t2: seq<ToolId>, snapshots: Snapshots, query: Query,
                                       asked: Query, o1: IterationOrder, o2: IterationOrder)
    requires GroupsIgnoreIteration(snapshots, query.tool, RequestedPath(query), query.includeSubagents)
    requires IsIteration(t1, snapshots) && IsIteration(t2, snapshots) && Enumerates(o1) && Enumerates(o2)
    requires asked == query.(page := asked.page, pageSize := asked.pageSize)
    ensures ProjectGroups(SnapshotItems(t1, snapshots, query.tool), asked, o1)
         == ProjectGroups(SnapshotItems(t2, snapshots, query.tool), asked, o2)
  {}

  // ---------------------------------------------------------------------------------------------
  // The runtime pipeline
  // ---------------------------------------------------------------------------------------------

  lemma {:induction false} RuntimeGroupsAgree(t1: seq<ToolId>, t2: seq<ToolId>, snapshots: Snapshots,
                                              tool: Option<string>, path: Option<string>, includeSubagents: bool,
                                              o1: IterationOrder, o2: IterationOrder, states: seq<RuntimeState>)
    requires AllOwned(snapshots) && IsIteration(t1, snapshots) && IsIteration(t2, snapshots)
    requires Enumerates(o1) && Enumerates(o2)
    requires Unambiguous(Queried(t1, snapshots, tool, path))
    ensures SortedRuntimeGroups(SnapshotItems(t1, snapshots, tool), path, includeSubagents, o1, states)
         == SortedRuntimeGroups(SnapshotItems(t2, snapshots, tool), path, includeSubagents, o2, states)
  {
    RuntimeGroupsIgnoreMapOrder(SnapshotItems(t1, snapshots, tool), path, includeSubagents, o1, o2, states);
    ProjectsIgnoreIteration(t1, t2, snapshots, tool, path);
  }

  /** No iteration shows in the runtime pages of this query, runtime fields included. */
  ghost predicate RuntimePagesIgnoreIteration(snapshots: Snapshots, query: Query, states: seq<RuntimeState>) {
    forall t1, t2, o1, o2, page, pageSize ::
      IsIteration(t1, snapshots) && IsIteration(t2, snapshots) && Enumerates(o1) && Enumerates(o2) ==>
        var asked := query.(page := page, pageSize := pageSize);
        ProjectGroupsWithRuntime(SnapshotItems(t1, snapshots, query.tool), asked, o1, states)
        == ProjectGroupsWithRuntime(SnapshotItems(t2, snapshots, query.tool), asked, o2, states)
  }

  lemma {:induction false} RuntimePagesFollow(t1: seq<ToolId>, t2: seq<ToolId>, snapshots: Snapshots, query: Query,
                                              states: seq<RuntimeState>, o1: IterationOrder, o2: IterationOrder)
    requires AllOwned(snapshots) && IsIteration(t1, snapshots) && IsIteration(t2, snapshots)
    requires Enumerates(o1) && Enumerates(o2)
    requires Unambiguous(Queried(t1, snapshots, query.tool, RequestedPath(query)))
    ensures ProjectGroupsWithRuntime(SnapshotItems(t1, snapshots, query.tool), query, o1, states)
         == ProjectGroupsWithRuntime(SnapshotItems(t2, snapshots, query.tool), query, o2, states)
  {
    RuntimeGroupsAgree(t1, t2, snapshots, query.tool, RequestedPath(query), query.includeSubagents, o1, o2, states);
  }

  /** Where the runtime pages agree, so do the plain ones, which are their erasures. */
  lemma {:induction false} RuntimePagesShowPlain(snapshots: Snapshots, query: Query, states: seq<RuntimeState>)
    requires RuntimePagesIgnoreIteration(snapshots, query, states)
    ensures PagesIgnoreIteration(snapshots, query)
  {
    forall t1, t2, o1, o2, page, pageSize |
      IsIteration(t1, snapshots) && IsIteration(t2, snapshots) && Enumerates(o1) && Enumerates(o2)
      ensures ProjectGroups(SnapshotItems(t1, snapshots, query.tool), query.(page := page, pageSize := pageSize), o1)
           == ProjectGroups(SnapshotItems(t2, snapshots, query.tool), query.(page := page, pageSize := pageSize), o2)
    {
      var asked := query.(page := page, pageSize := pageSize);
      RuntimeErasesToPlain(SnapshotItems(t1, snapshots, query.tool), asked, states, o1);
      RuntimeErasesToPlain(SnapshotItems(t2, snapshots, query.tool), asked, states, o2);
    }
  }

  /** The runtime pages of a query are the same for every order of every hash map on the same condition, whatever the
      runtime states. */
  lemma {:induction false} RuntimePagesIgnoreIterationExactly(tools: seq<ToolId>, snapshots: Snapshots, query: Query,
                                                              states: seq<RuntimeState>)
    requires AllOwned(snapshots) && IsIteration(tools, snapshots) && GroupsFit(snapshots, query)
    ensures RuntimePagesIgnoreIteration(snapshots, query, states)
      <==> Unambiguous(Queried(tools, snapshots, query.tool, RequestedPath(query)))
  {
    if Unambiguous(Queried(tools, snapshots, query.tool, RequestedPath(query))) {
      forall t1, t2, o1, o2, page, pageSize |
        IsIteration(t1, snapshots) && IsIteration(t2, snapshots) && Enumerates(o1) && Enumerates(o2)
        ensures var asked := query.(page := page, pageSize := pageSize);
          ProjectGroupsWithRuntime(SnapshotItems(t1, snapshots, query.tool), asked, o1, states)
          == ProjectGroupsWithRuntime(SnapshotItems(t2, snapshots, query.tool), asked, o2, states)
      {
        var asked := query.(page := page, pageSize := pageSize);
        RuntimePagesFollow(tools, t1, snapshots, asked, states, o1, o1);
        RuntimePagesFollow(tools, t2, snapshots, asked, states, o1, o2);
      }
    } else {
      PagesIgnoreIterationExactly(tools, snapshots, query);
      if RuntimePagesIgnoreIteration(snapshots, query, states) {
        RuntimePagesShowPlain(snapshots, query, states);
      }
    }
  }

  // ---------------------------------------------------------------------------------------------
  // A sufficient condition
  // ---------------------------------------------------------------------------------------------

  ghost predicate UniqueIdsPerSnapshot(snapshots: Snapshots) {
    forall tool :: tool in snapshots ==> UniqueSessionIds(snapshots[tool])
  }

  /** A project key spells its tool: names differ, and none holds the separator. */
  ghost predicate NamesSpellKeys(tools: set<ToolId>) {
    NamesAreInjective(tools) && forall tool :: tool in tools ==> NUL !in AsStr(tool)
  }

  lemma {:induction false} SpelledKeysSeparate(tools: seq<ToolId>, snapshots: Snapshots, tool: Option<string>,
                                               path: Option<string>)
    requires AllOwned(snapshots) && NamesSpellKeys(snapshots.Keys)
    ensures KeysSeparate(Queried(tools, snapshots, tool, path))
  {
    var items := SnapshotItems(tools, snapshots, tool);
    forall x, y | x in Selected(items, path) && y in Selected(items, path) && ProjectKey(x) == ProjectKey(y)
      ensures x.tool == y.tool
    {
      SelectedMember(items, path, x);
      SelectedMember(items, path, y);
      SnapshotMember(tools, snapshots, tool, x);
      SnapshotMember(tools, snapshots, tool, y);
      SameAtFirst(NUL, AsStr(x.tool), x.projectPath, AsStr(y.tool), y.projectPath);
    }
  }

  lemma {:induction false} PartSessionIds<K>(items: seq<Item>, keyOf: Item -> K, key: K)
    requires UniqueSessionIds(items)
    ensures UniqueSessionIds(WithKey(items, keyOf, key))
  {
    WithKeyKeepsDistinct(items, keyOf, key, SessionId);
  }

  lemma {:induction false} SelectedKeepsUnique(items: seq<Item>, path: Option<string>)
    requires UniqueSessionIds(items)
    ensures UniqueSessionIds(Selected(items, path))
  {
    if items != [] {
      var n := |items| - 1;
      SelectedKeepsUnique(items[..n], path);
      var chosen := Selected(items[..n], path);
      forall i | 0 <= i < |chosen| ensures SessionId(chosen[i]) != SessionId(items[n]) {
        SelectedMember(items[..n], path, chosen[i]);
        var k :| 0 <= k < n && items[..n][k] == chosen[i];
        assert SessionId(items[k]) != SessionId(items[n]);
      }
    }
  }

  lemma {:induction false} OneToolUnique(tools: seq<ToolId>, snapshots: Snapshots, tool: Option<string>, own: ToolId)
    requires AllOwned(snapshots) && UniqueIdsPerSnapshot(snapshots) && IsIteration(tools, snapshots)
    ensures UniqueSessionIds(WithKey(SnapshotItems(tools, snapshots, tool), ToolOf, own))
  {
    if tool.None? || tool.value == "all" {
      FlattenPart(tools, snapshots, own);
    } else {
      PartSessionIds(SnapshotItems(tools, snapshots, tool), ToolOf, own);
    }
  }

  /** Unique ids per snapshot make them unique within every project, where keys separate tools. */
  lemma {:induction false} UniqueWithinEveryProject(tools: seq<ToolId>, snapshots: Snapshots, tool: Option<string>,
                                                    path: Option<string>)
    requires AllOwned(snapshots) && UniqueIdsPerSnapshot(snapshots) && IsIteration(tools, snapshots)
    requires KeysSeparate(Queried(tools, snapshots, tool, path))
    ensures UniqueWithinProjects(Queried(tools, snapshots, tool, path))
  {
    var items, queried := SnapshotItems(tools, snapshots, tool), Queried(tools, snapshots, tool, path);
    forall key ensures UniqueSessionIds(WithKey(queried, ProjectKey, key)) {
      var own := if x :| x in queried && ProjectKey(x) == key then x.tool else Codex;
      KeyWithinTool(queried, key, own);
      SelectedPart(items, path, own);
      OneToolUnique(tools, snapshots, tool, own);
      SelectedKeepsUnique(WithKey(items, ToolOf, own), path);
      PartSessionIds(Selected(WithKey(items, ToolOf, own), path), ProjectKey, key);
    }
  }

  /** Snapshots that repeat no session id, of tools whose names spell their keys, meet the condition. */
  lemma {:induction false} UniqueIdsSuffice(tools: seq<ToolId>, snapshots: Snapshots, tool: Option<string>,
                                            path: Option<string>)
    requires AllOwned(snapshots) && IsIteration(tools, snapshots)
    requires NamesSpellKeys(snapshots.Keys) && UniqueIdsPerSnapshot(snapshots)
    ensures Unambiguous(Queried(tools, snapshots, tool, path))
  {
    SpelledKeysSeparate(tools, snapshots, tool, path);
    UniqueWithinEveryProject(tools, snapshots, tool, path);
    UniqueIdsLeaveNoTwins(Queried(tools, snapshots, tool, path));
  }

  /** Both group queries, over any orders of all the hash maps involved: the runtime page without its runtime fields
      is the plain page, and each is determined by the snapshots, the query and the runtime states alone. */
  lemma {:induction false} PipelinesAgree(t1: seq<ToolId>, t2: seq<ToolId>, snapshots: Snapshots, query: Query,
                                          states: seq<RuntimeState>, o1: IterationOrder, o2: IterationOrder)
    requires AllOwned(snapshots) && Unambiguous(Queried(t1, snapshots, query.tool, RequestedPath(query)))
    requires IsIteration(t1, snapshots) && IsIteration(t2, snapshots) && Enumerates(o1) && Enumerates(o2)
    ensures ErasePage(ProjectGroupsWithRuntime(SnapshotItems(t1, snapshots, query.tool), query, o1, states))
         == ProjectGroups(SnapshotItems(t2, snapshots, query.tool), query, o2)
    ensures ProjectGroups(SnapshotItems(t1, snapshots, query.tool), query, o1)
         == ProjectGroups(SnapshotItems(t2, snapshots, query.tool), query, o2)
    ensures ProjectGroupsWithRuntime(SnapshotItems(t1, snapshots, query.tool), query, o1, states)
         == ProjectGroupsWithRuntime(SnapshotItems(t2, snapshots, query.tool), query, o2, states)
  {
    RuntimePagesFollow(t1, t2, snapshots, query, states, o1, o2);
    RuntimeErasesToPlain(SnapshotItems(t1, snapshots, query.tool), query, states, o1);
    GroupsAgree(t1, t2, snapshots, query.tool, RequestedPath(query), query.includeSubagents, o1, o2);
  }

  /** The condition does not depend on the iteration it is looked at in. */
  lemma {:induction false} UnambiguousIgnoresIteration(t1: seq<ToolId>, t2: seq<ToolId>, snapshots: Snapshots,
                                                       tool: Option<string>, path: Option<string>)
    requires AllOwned(snapshots) && IsIteration(t1, snapshots) && IsIteration(t2, snapshots)
    ensures Unambiguous(Queried(t1, snapshots, tool, path)) <==> Unambiguous(Queried(t2, snapshots, tool, path))
  {
    GroupsIgnoreIterationExactly(t1, snapshots, tool, path, false);
    GroupsIgnoreIterationExactly(t2, snapshots, tool, path, false);
  }

  lemma {:induction false} PartsAfterClear(before: seq<ToolId>, after: seq<ToolId>, snapshots: Snapshots, tool: ToolId,
                                           own: ToolId)
    requires AllOwned(snapshots) && IsIteration(before, snapshots) && IsIteration(after, snapshots - {tool})
    ensures WithKey(SnapshotItems(after, snapshots - {tool}, None), ToolOf, own)
         == if own == tool then [] else WithKey(SnapshotItems(before, snapshots, None), ToolOf, own)
  {
    FlattenPart(before, snapshots, own);
    FlattenPart(after, snapshots - {tool}, own);
  }

  // ---------------------------------------------------------------------------------------------
  // The registry
  // ---------------------------------------------------------------------------------------------

  class ToolSessionRegistry {
    var snapshots: Snapshots

    ghost predicate Valid()
      reads this
    {
      AllOwned(snapshots)
    }

    constructor ()
      ensures Valid() && snapshots == map[]
    {
      snapshots := map[];
    }

    method ReplaceSnapshot(tool: ToolId, sessions: seq<Item>)
      requires Valid()
      modifies this
      ensures Valid()
      ensures snapshots == old(snapshots)[tool := OwnedAll(tool, sessions)]
      ensures forall i :: 0 <= i < |sessions| ==>
        snapshots[tool][i] == sessions[i].(tool := tool, id := AsStr(tool) + ":" + sessions[i].sessionId)
    {
      var normalized := [];
      var i := 0;
      while i < |sessions|
        invariant 0 <= i <= |sessions|
        invariant normalized == OwnedAll(tool, sessions)[..i]
      {
        var session := sessions[i];
        session := session.(tool := tool);
        session := session.(id := CanonicalId(tool, session.sessionId));
        assert session == Owned(tool, sessions[i]);
        assert OwnedAll(tool, sessions)[..i] + [session] == OwnedAll(tool, sessions)[..i + 1];
        normalized := normalized + [session];
        i := i + 1;
      }
      assert normalized == OwnedAll(tool, sessions);
      snapshots := snapshots[tool := normalized];
    }

    /** Afterwards a query over all tools, in any iteration, sees what it saw before without the items of the tool,
        each other tool's in their order. */
    method ClearSnapshot(tool: ToolId)
      requires Valid()
      modifies this
      ensures Valid()
      ensures snapshots == old(snapshots) - {tool}
      ensures forall before, after, own ::
        IsIteration(before, old(snapshots)) && IsIteration(after, snapshots) ==>
          WithKey(SnapshotItems(after, snapshots, None), ToolOf, own)
          == if own == tool then [] else WithKey(SnapshotItems(before, old(snapshots), None), ToolOf, own)
    {
      ghost var all := snapshots;
      snapshots := snapshots - {tool};
      forall before, after, own | IsIteration(before, all) && IsIteration(after, snapshots)
        ensures WithKey(SnapshotItems(after, snapshots, None), ToolOf, own)
             == if own == tool then [] else WithKey(SnapshotItems(before, all, None), ToolOf, own)
      {
        PartsAfterClear(before, after, all, tool, own);
      }
    }

    /** Visits the snapshot map in some order. */
    method Iterate() returns (tools: seq<ToolId>)
      ensures IsIteration(tools, snapshots)
    {
      tools := [];
      var rest := snapshots.Keys;
      while rest != {}
        invariant rest <= snapshots.Keys
        invariant forall tool :: tool in tools <==> tool in snapshots && tool !in rest
        invariant NoDuplicates(tools)
        decreases rest
      {
        var tool :| tool in rest;
        tools := tools + [tool];
        rest := rest - {tool};
      }
    }

    method List(query: ListQuery) returns (result: ListResult)
      requires Valid()
      ensures exists tools :: IsIteration(tools, snapshots) && result == ListOf(tools, snapshots, query)
      ensures NamesAreInjective(snapshots.Keys) ==>
        forall tools | IsIteration(tools, snapshots) :: result == ListOf(tools, snapshots, query)
    {
      var visited := Iterate();
      result := ListOf(visited, snapshots, query);
      if NamesAreInjective(snapshots.Keys) {
        forall tools | IsIteration(tools, snapshots) ensures result == ListOf(tools, snapshots, query) {
          ListIgnoresIteration(visited, tools, snapshots, query);
        }
      }
    }

    /** The page is that of some iteration, and of every one where no order can show. */
    method ListProjectGroups(query: Query, order: IterationOrder) returns (page: PageResult<ProjectGroup>)
      requires Valid() && Enumerates(order)
      ensures exists tools ::
        && IsIteration(tools, snapshots)
        && page == ProjectGroups(SnapshotItems(tools, snapshots, query.tool), query, order)
      ensures forall tools, other ::
        && IsIteration(tools, snapshots) && Enumerates(other)
        && Unambiguous(Queried(tools, snapshots, query.tool, RequestedPath(query))) ==>
          page == ProjectGroups(SnapshotItems(tools, snapshots, query.tool), query, other)
    {
      var visited := Iterate();
      page := ProjectGroups(SnapshotItems(visited, snapshots, query.tool), query, order);
      forall tools, other |
        && IsIteration(tools, snapshots) && Enumerates(other)
        && Unambiguous(Queried(tools, snapshots, query.tool, RequestedPath(query)))
        ensures page == ProjectGroups(SnapshotItems(tools, snapshots, query.tool), query, other)
      {
        PipelinesAgree(tools, visited, snapshots, query, [], other, order);
      }
    }

    /** The runtime page is that of some iteration, and of every one where no order can show; without its runtime
        fields it is the plain page of the same orders. */
    method ListRuntimeProjectGroups(query: Query, order: IterationOrder, states: seq<RuntimeState>)
      returns (page: PageResult<RuntimeGroup>)
      requires Valid() && Enumerates(order)
      ensures exists tools ::
        && IsIteration(tools, snapshots)
        && page == ProjectGroupsWithRuntime(SnapshotItems(tools, snapshots, query.tool), query, order, states)
        && ErasePage(page) == ProjectGroups(SnapshotItems(tools, snapshots, query.tool), query, order)
      ensures forall tools, other ::
        && IsIteration(tools, snapshots) && Enumerates(other)
        && Unambiguous(Queried(tools, snapshots, query.tool, RequestedPath(query))) ==>
          && page == ProjectGroupsWithRuntime(SnapshotItems(tools, snapshots, query.tool), query, other, states)
          && ErasePage(page) == ProjectGroups(SnapshotItems(tools, snapshots, query.tool), query, other)
    {
      var visited := Iterate();
      page := ProjectGroupsWithRuntime(SnapshotItems(visited, snapshots, query.tool), query, order, states);
      RuntimeErasesToPlain(SnapshotItems(visited, snapshots, query.tool), query, states, order);
      forall tools, other |
        && IsIteration(tools, snapshots) && Enumerates(other)
        && Unambiguous(Queried(tools, snapshots, query.tool, RequestedPath(query)))
        ensures page == ProjectGroupsWithRuntime(SnapshotItems(tools, snapshots, query.tool), query, other, states)
        ensures ErasePage(page) == ProjectGroups(SnapshotItems(tools, snapshots, query.tool), query, other)
      {
        PipelinesAgree(tools, visited, snapshots, query, states, other, order);
        RuntimeErasesToPlain(SnapshotItems(tools, snapshots, query.tool), query, states, other);
      }
    }
  }
}
