/** The plain pipeline counts every item once and does not depend on hash map order. */
module SessionGroupsProofs {
  import opened Wrappers
  import opened StableSort
  import opened SessionModel
  import opened SessionControl
  import opened SessionGroups

  // ---------------------------------------------------------------------------------------------
  // The comparators
  // ---------------------------------------------------------------------------------------------

  lemma {:induction false} SummaryOrder()
    ensures TotalPreorder(SummaryLe)
    ensures forall a, b :: Tied(a, b, SummaryLe) ==> a.primarySessionId == b.primarySessionId
  {
    StringOrder();
  }

  lemma {:induction false} GroupOrder()
    ensures TotalPreorder(GroupLe)
    ensures forall a, b :: Tied(a, b, GroupLe) ==> AsStr(a.tool) == AsStr(b.tool) && a.projectPath == b.projectPath
  {
    StringOrder();
  }

  // ---------------------------------------------------------------------------------------------
  // Counts
  // ---------------------------------------------------------------------------------------------

  lemma {:induction false} CountInsert<T>(x: T, s: seq<T>, le: (T, T) -> bool, p: T -> bool)
    ensures Count(Insert(x, s, le), p) == Count([x], p) + Count(s, p)
  {
    if s == [] || le(x, s[0]) {
      CountAppend([x], s, p);
      assert [x] + [] == [x];
    } else {
      CountInsert(x, s[1..], le, p);
      CountAppend([s[0]], Insert(x, s[1..], le), p);
      CountAppend([s[0]], s[1..], p);
      assert s == [s[0]] + s[1..];
    }
  }

  lemma {:induction false} CountSort<T>(s: seq<T>, le: (T, T) -> bool, p: T -> bool)
    ensures Count(Sort(s, le), p) == Count(s, p)
  {
    if s != [] {
      CountSort(s[1..], le, p);
      CountInsert(s[0], Sort(s[1..], le), le, p);
      CountAppend([s[0]], s[1..], p);
      assert s == [s[0]] + s[1..];
    }
  }

  lemma {:induction false} SumAppend(a: seq<nat>, b: seq<nat>)
    ensures Sum(a + b) == Sum(a) + Sum(b)
  {
    if b == [] {
      assert a + b == a;
    } else {
      var n := |b| - 1;
      SumAppend(a, b[..n]);
      assert (a + b)[..|a + b| - 1] == a + b[..n];
    }
  }

  lemma {:induction false} SumMapInsert<T>(x: T, s: seq<T>, le: (T, T) -> bool, f: T -> nat)
    ensures Sum(Map(Insert(x, s, le), f)) == f(x) + Sum(Map(s, f))
  {
    if s == [] || le(x, s[0]) {
      assert Map([x] + s, f) == [f(x)] + Map(s, f);
      assert Map(s, f) == [] + Map(s, f);
      SumAppend([f(x)], Map(s, f));
      SumPush([], f(x));
    } else {
      SumMapInsert(x, s[1..], le, f);
      assert Map(s, f) == [f(s[0])] + Map(s[1..], f);
      assert Map(Insert(x, s, le), f) == [f(s[0])] + Map(Insert(x, s[1..], le), f);
      SumAppend([f(s[0])], Map(s[1..], f));
      SumAppend([f(s[0])], Map(Insert(x, s[1..], le), f));
    }
  }

  lemma {:induction false} SumMapSort<T>(s: seq<T>, le: (T, T) -> bool, f: T -> nat)
    ensures Sum(Map(Sort(s, le), f)) == Sum(Map(s, f))
  {
    if s != [] {
      SumMapSort(s[1..], le, f);
      SumMapInsert(s[0], Sort(s[1..], le), le, f);
      SumPush([], f(s[0]));
      SumAppend([f(s[0])], Map(s[1..], f));
      assert Map(s, f) == [f(s[0])] + Map(s[1..], f);
    }
  }

  lemma {:induction false} ProjectSessions(part: seq<Item>, id: string)
    requires part != [] && id in ProjectOf(part).sessions
    ensures ProjectOf(part).sessions[id] == WithKey(part, NormalizedId, id) != []
  {
    WithKeyNonempty(part, NormalizedId, id);
  }

  lemma {:induction false} EveryIdEnumerated(part: seq<Item>, order: IterationOrder, key: string)
    requires part != [] && Enumerates(order)
    ensures var ids := order(key, ProjectOf(part).sessions.Keys);
      NoDuplicates(ids) && (forall x :: x in part ==> NormalizedId(x) in ids)
      && (forall id :: id in ids ==> id in ProjectOf(part).sessions)
  {
    forall x | x in part ensures NormalizedId(x) in ProjectOf(part).sessions {
      var i :| 0 <= i < |part| && part[i] == x;
      assert NormalizedId(part[i]) in KeySet(part, NormalizedId);
    }
  }

  lemma {:induction false} SizesAreParts(part: seq<Item>, ids: seq<string>)
    requires part != [] && forall id :: id in ids ==> id in ProjectOf(part).sessions
    ensures SessionSizes(ProjectOf(part), ids) == PartCounts(ids, part, NormalizedId, AnyItem)
  {
    forall i | 0 <= i < |ids|
      ensures SessionSizes(ProjectOf(part), ids)[i] == PartCounts(ids, part, NormalizedId, AnyItem)[i]
    {
      ProjectSessions(part, ids[i]);
      PartCountsAt(ids, part, NormalizedId, AnyItem, i);
      CountAll(WithKey(part, NormalizedId, ids[i]), AnyItem);
    }
  }

  lemma {:induction false} SummarySubagents(id: string, items: seq<Item>, includeSubagents: bool, order: IterationOrder)
    requires items != [] && Enumerates(order)
    ensures Summarize(id, items, includeSubagents, order).subagentCount == Count(items, IsSubagent)
  {
    CountSort(items, RawLe, IsSubagent);
  }

  lemma {:induction false} SubagentsAreParts(part: seq<Item>, ids: seq<string>, includeSubagents: bool,
                                             order: IterationOrder)
    requires part != [] && forall id :: id in ids ==> id in ProjectOf(part).sessions
    requires Filled(ProjectOf(part)) && Enumerates(order)
    ensures Map(Summaries(ProjectOf(part), ids, includeSubagents, order), SubagentsIn)
         == PartCounts(ids, part, NormalizedId, IsSubagent)
  {
    var unsorted := Summaries(ProjectOf(part), ids, includeSubagents, order);
    forall i | 0 <= i < |ids|
      ensures Map(unsorted, SubagentsIn)[i] == PartCounts(ids, part, NormalizedId, IsSubagent)[i]
    {
      ProjectSessions(part, ids[i]);
      PartCountsAt(ids, part, NormalizedId, IsSubagent, i);
      SummarySubagents(ids[i], WithKey(part, NormalizedId, ids[i]), includeSubagents, order);
    }
  }

  /** A project's two counts are the sizes of its part of the snapshot, whatever sessions it splits into. */
  lemma {:induction false} GroupCounts(key: string, part: seq<Item>, includeSubagents: bool, order: IterationOrder)
    requires part != [] && Enumerates(order) && Filled(ProjectOf(part))
    ensures IntoGroup(key, ProjectOf(part), includeSubagents, order).rawSessionCount == |part|
    ensures IntoGroup(key, ProjectOf(part), includeSubagents, order).subagentCount == Count(part, IsSubagent)
  {
    var ids := order(key, ProjectOf(part).sessions.Keys);
    EveryIdEnumerated(part, order, key);
    var unsorted := Summaries(ProjectOf(part), ids, includeSubagents, order);
    SizesAreParts(part, ids);
    SubagentsAreParts(part, ids, includeSubagents, order);
    PartitionCounts(ids, part, NormalizedId, AnyItem);
    PartitionCounts(ids, part, NormalizedId, IsSubagent);
    CountAll(part, AnyItem);
    SumMapSort(unsorted, SummaryLe, SubagentsIn);
  }

  function RawIn(g: ProjectGroup): nat { g.rawSessionCount }

  function GroupSubagents(g: ProjectGroup): nat { g.subagentCount }

  lemma {:induction false} GroupIsPart(items: seq<Item>, key: string, includeSubagents: bool, order: IterationOrder)
    requires Enumerates(order) && key in ProjectsOf(items) && Filled(ProjectsOf(items)[key])
    ensures IntoGroup(key, ProjectsOf(items)[key], includeSubagents, order).rawSessionCount
         == Count(WithKey(items, ProjectKey, key), AnyItem)
    ensures IntoGroup(key, ProjectsOf(items)[key], includeSubagents, order).subagentCount
         == Count(WithKey(items, ProjectKey, key), IsSubagent)
  {
    var part := WithKey(items, ProjectKey, key);
    WithKeyNonempty(items, ProjectKey, key);
    GroupCounts(key, part, includeSubagents, order);
    CountAll(part, AnyItem);
  }

  lemma {:induction false} GroupsAreParts(items: seq<Item>, keys: seq<string>, includeSubagents: bool,
                                          order: IterationOrder)
    requires Enumerates(order)
    requires forall key :: key in keys ==> key in ProjectsOf(items) && Filled(ProjectsOf(items)[key])
    ensures Map(IntoGroups(ProjectsOf(items), keys, includeSubagents, order), RawIn)
         == PartCounts(keys, items, ProjectKey, AnyItem)
    ensures Map(IntoGroups(ProjectsOf(items), keys, includeSubagents, order), GroupSubagents)
         == PartCounts(keys, items, ProjectKey, IsSubagent)
  {
    var unsorted := IntoGroups(ProjectsOf(items), keys, includeSubagents, order);
    forall i | 0 <= i < |keys|
      ensures Map(unsorted, RawIn)[i] == PartCounts(keys, items, ProjectKey, AnyItem)[i]
      ensures Map(unsorted, GroupSubagents)[i] == PartCounts(keys, items, ProjectKey, IsSubagent)[i]
    {
      GroupIsPart(items, keys[i], includeSubagents, order);
      PartCountsAt(keys, items, ProjectKey, AnyItem, i);
      PartCountsAt(keys, items, ProjectKey, IsSubagent, i);
    }
  }

  /** Over all groups, raw sessions and subagents add up to the items that passed the filters. */
  lemma {:induction false} CountsAddUp(items: seq<Item>, path: Option<string>, includeSubagents: bool,
                                       order: IterationOrder)
    requires Enumerates(order)
    ensures Sum(Map(SortedGroups(items, path, includeSubagents, order), RawIn)) == |Selected(items, path)|
    ensures Sum(Map(SortedGroups(items, path, includeSubagents, order), GroupSubagents))
         == Count(Selected(items, path), IsSubagent)
  {
    var selected := Selected(items, path);
    var keys := order("", ProjectsOf(selected).Keys);
    ProjectsAreFilled(selected);
    GroupsAreParts(selected, keys, includeSubagents, order);
    KeysCover(selected, keys);
    PartitionCounts(keys, selected, ProjectKey, AnyItem);
    PartitionCounts(keys, selected, ProjectKey, IsSubagent);
    CountAll(selected, AnyItem);
    var unsorted := IntoGroups(ProjectsOf(selected), keys, includeSubagents, order);
    SumMapSort(unsorted, GroupLe, RawIn);
    SumMapSort(unsorted, GroupLe, GroupSubagents);
  }

  lemma {:induction false} KeysCover(items: seq<Item>, keys: seq<string>)
    requires forall key :: key in ProjectsOf(items) ==> key in keys
    ensures forall x :: x in items ==> ProjectKey(x) in keys
  {
    forall x | x in items ensures ProjectKey(x) in keys {
      var i :| 0 <= i < |items| && items[i] == x;
      assert ProjectKey(items[i]) in KeySet(items, ProjectKey);
      assert ProjectKey(x) in ProjectsOf(items);
    }
  }

  /** Every selected item lands in the project of its key and the session of its normalized id, and nowhere else. */
  lemma {:induction false} EveryItemOnce(items: seq<Item>, x: Item, key: string, id: string)
    requires key in ProjectsOf(items) && id in ProjectsOf(items)[key].sessions
    ensures x in ProjectsOf(items)[key].sessions[id] <==> x in items && ProjectKey(x) == key && NormalizedId(x) == id
  {
    WithKeyNonempty(items, ProjectKey, key);
    WithKeyMember(items, ProjectKey, key, x);
    WithKeyMember(WithKey(items, ProjectKey, key), NormalizedId, id, x);
  }

  lemma {:induction false} EveryItemSomewhere(items: seq<Item>, x: Item)
    requires x in items
    ensures ProjectKey(x) in ProjectsOf(items)
    ensures NormalizedId(x) in ProjectsOf(items)[ProjectKey(x)].sessions
  {
    var i :| 0 <= i < |items| && items[i] == x;
    assert ProjectKey(items[i]) in KeySet(items, ProjectKey);
    WithKeyMember(items, ProjectKey, ProjectKey(x), x);
    var part := WithKey(items, ProjectKey, ProjectKey(x));
    var j :| 0 <= j < |part| && part[j] == x;
    assert NormalizedId(part[j]) in KeySet(part, NormalizedId);
  }

  // ---------------------------------------------------------------------------------------------
  // Hash map order
  // ---------------------------------------------------------------------------------------------

  /** What the session order compares: the latest modification and the primary session of the raw ones. */
  function Stamp(id: string, items: seq<Item>): (int, string)
    requires items != []
  {
    SortPermutes(items, RawLe);
    var raw := Sort(items, RawLe);
    (LatestModified(raw), Primary(id, raw).sessionId)
  }

  /** Two sessions of the project that the session order cannot tell apart. */
  predicate AreTwins(part: seq<Item>, a: string, b: string) {
    && a != b && WithKey(part, NormalizedId, a) != [] && WithKey(part, NormalizedId, b) != []
    && Stamp(a, WithKey(part, NormalizedId, a)) == Stamp(b, WithKey(part, NormalizedId, b))
  }

  ghost predicate HasTwins(part: seq<Item>) {
    exists a, b :: AreTwins(part, a, b)
  }

  /** No project has two normalized sessions with equal latest modification and equal primary session id. */
  ghost predicate NoTwins(items: seq<Item>) {
    forall key :: !HasTwins(WithKey(items, ProjectKey, key))
  }

  lemma {:induction false} SummaryIgnoresMapOrder(id: string, items: seq<Item>, includeSubagents: bool,
                                                  o1: IterationOrder, o2: IterationOrder)
    requires items != [] && Enumerates(o1) && Enumerates(o2)
    ensures Summarize(id, items, includeSubagents, o1) == Summarize(id, items, includeSubagents, o2)
  {
    SortPermutes(items, RawLe);
    var raw := Sort(items, RawLe);
    ControlIgnoresMapOrder(Primary(id, raw), raw, o1, id, o2, id);
  }

  /** Two summaries tie exactly when their stamps agree, whatever the orders they were made with. */
  lemma {:induction false} TiedByStamp(a: string, x: seq<Item>, b: string, y: seq<Item>, includeSubagents: bool,
                                       o1: IterationOrder, o2: IterationOrder)
    requires x != [] && y != [] && Enumerates(o1) && Enumerates(o2)
    ensures Tied(Summarize(a, x, includeSubagents, o1), Summarize(b, y, includeSubagents, o2), SummaryLe)
      <==> Stamp(a, x) == Stamp(b, y)
  {
    StringOrder();
  }

  lemma {:induction false} SummariesSeparated(part: seq<Item>, ids: seq<string>, includeSubagents: bool,
                                              order: IterationOrder)
    requires part != [] && Enumerates(order) && Filled(ProjectOf(part)) && !HasTwins(part)
    requires NoDuplicates(ids) && forall id :: id in ids ==> id in ProjectOf(part).sessions
    ensures Separated(Summaries(ProjectOf(part), ids, includeSubagents, order), SummaryLe)
  {
    var sessions := ProjectOf(part).sessions;
    var r := Summaries(ProjectOf(part), ids, includeSubagents, order);
    forall i, j | 0 <= i < j < |r| ensures !Tied(r[i], r[j], SummaryLe) {
      ProjectSessions(part, ids[i]);
      ProjectSessions(part, ids[j]);
      assert !AreTwins(part, ids[i], ids[j]);
      TiedByStamp(ids[i], sessions[ids[i]], ids[j], sessions[ids[j]], includeSubagents, order, order);
    }
  }

  lemma {:induction false} SameElements<T>(a: seq<T>, b: seq<T>, e1: seq<string>, e2: seq<string>)
    requires |a| == |e1| && |b| == |e2|
    requires forall k :: k in e1 <==> k in e2
    requires forall i, j :: 0 <= i < |e1| && 0 <= j < |e2| && e1[i] == e2[j] ==> a[i] == b[j]
    ensures forall x :: x in a <==> x in b
  {
    forall x ensures x in a <==> x in b {
      if x in a {
        var i :| 0 <= i < |a| && a[i] == x;
        assert e1[i] in e2;
        var j :| 0 <= j < |e2| && e2[j] == e1[i];
        assert b[j] == x;
      }
      if x in b {
        var j :| 0 <= j < |b| && b[j] == x;
        assert e2[j] in e1;
        var i :| 0 <= i < |e1| && e1[i] == e2[j];
        assert a[i] == x;
      }
    }
  }

  lemma {:induction false} GroupIgnoresMapOrder(key: string, part: seq<Item>, includeSubagents: bool,
                                                o1: IterationOrder, o2: IterationOrder)
    requires part != [] && Enumerates(o1) && Enumerates(o2) && Filled(ProjectOf(part)) && !HasTwins(part)
    ensures IntoGroup(key, ProjectOf(part), includeSubagents, o1)
         == IntoGroup(key, ProjectOf(part), includeSubagents, o2)
  {
    var project := ProjectOf(part);
    var e1, e2 := o1(key, project.sessions.Keys), o2(key, project.sessions.Keys);
    var a, b := Summaries(project, e1, includeSubagents, o1), Summaries(project, e2, includeSubagents, o2);
    EveryIdEnumerated(part, o1, key);
    EveryIdEnumerated(part, o2, key);
    SummariesSeparated(part, e1, includeSubagents, o1);
    SummariesSeparated(part, e2, includeSubagents, o2);
    forall i, j | 0 <= i < |e1| && 0 <= j < |e2| && e1[i] == e2[j] ensures a[i] == b[j] {
      SummaryIgnoresMapOrder(e1[i], project.sessions[e1[i]], includeSubagents, o1, o2);
    }
    assert forall k :: k in e1 <==> k in e2;
    SameElements(a, b, e1, e2);
    SummaryOrder();
    SortSeparated(a, b, SummaryLe);
    GroupCounts(key, part, includeSubagents, o1);
    GroupCounts(key, part, includeSubagents, o2);
  }

  lemma {:induction false} GroupsSeparated(items: seq<Item>, keys: seq<string>, includeSubagents: bool,
                                           order: IterationOrder)
    requires Enumerates(order) && NoDuplicates(keys)
    requires forall key :: key in keys ==> key in ProjectsOf(items) && Filled(ProjectsOf(items)[key])
    ensures Separated(IntoGroups(ProjectsOf(items), keys, includeSubagents, order), GroupLe)
  {
    var r := IntoGroups(ProjectsOf(items), keys, includeSubagents, order);
    GroupOrder();
    forall i, j | 0 <= i < j < |r| ensures !Tied(r[i], r[j], GroupLe) {
      GroupSpellsKey(items, keys[i]);
      GroupSpellsKey(items, keys[j]);
    }
  }

  lemma {:induction false} GroupSpellsKey(items: seq<Item>, key: string)
    requires key in ProjectsOf(items)
    ensures AsStr(ProjectsOf(items)[key].tool) + [NUL] + ProjectsOf(items)[key].projectPath == key
  {
    var part := WithKey(items, ProjectKey, key);
    WithKeyNonempty(items, ProjectKey, key);
    WithKeyMember(items, ProjectKey, key, part[0]);
  }

  /** Groups come most recently updated first, then by tool and path; so do the sessions of each project. */
  lemma {:induction false} GroupsAreSorted(items: seq<Item>, path: Option<string>, includeSubagents: bool,
                                           order: IterationOrder, key: string, project: Project)
    requires Enumerates(order) && Filled(project)
    ensures Sorted(SortedGroups(items, path, includeSubagents, order), GroupLe)
    ensures Sorted(IntoGroup(key, project, includeSubagents, order).sessions, SummaryLe)
  {
    ProjectsAreFilled(Selected(items, path));
    var projects := ProjectsOf(Selected(items, path));
    GroupOrder();
    SummaryOrder();
    SortSorted(IntoGroups(projects, order("", projects.Keys), includeSubagents, order), GroupLe);
    EnumerationNonempty(project, order, key);
    SortSorted(Summaries(project, order(key, project.sessions.Keys), includeSubagents, order), SummaryLe);
  }

  /** The group list is the same however the project, session and channel hash maps iterate. */
  lemma {:induction false} GroupsIgnoreMapOrder(items: seq<Item>, path: Option<string>, includeSubagents: bool,
                                                o1: IterationOrder, o2: IterationOrder)
    requires Enumerates(o1) && Enumerates(o2) && NoTwins(Selected(items, path))
    ensures SortedGroups(items, path, includeSubagents, o1) == SortedGroups(items, path, includeSubagents, o2)
  {
    var selected := Selected(items, path);
    var projects := ProjectsOf(selected);
    ProjectsAreFilled(selected);
    var e1, e2 := o1("", projects.Keys), o2("", projects.Keys);
    var a, b := IntoGroups(projects, e1, includeSubagents, o1), IntoGroups(projects, e2, includeSubagents, o2);
    GroupsSeparated(selected, e1, includeSubagents, o1);
    GroupsSeparated(selected, e2, includeSubagents, o2);
    forall i, j | 0 <= i < |e1| && 0 <= j < |e2| && e1[i] == e2[j] ensures a[i] == b[j] {
      WithKeyNonempty(selected, ProjectKey, e1[i]);
      GroupIgnoresMapOrder(e1[i], WithKey(selected, ProjectKey, e1[i]), includeSubagents, o1, o2);
    }
    assert forall k :: k in e1 <==> k in e2;
    SameElements(a, b, e1, e2);
    GroupOrder();
    SortSeparated(a, b, GroupLe);
  }

  // ---------------------------------------------------------------------------------------------
  // Where hash map order shows
  // ---------------------------------------------------------------------------------------------

  /** Twins come in the order in which the project's session map yields them. */
  lemma {:induction false} TwinsShowOrder(key: string, part: seq<Item>, includeSubagents: bool, a: string, b: string)
    requires part != [] && Filled(ProjectOf(part)) && AreTwins(part, a, b)
    requires Enumerates(Favouring(key, a)) && Enumerates(Favouring(key, b))
    ensures IntoGroup(key, ProjectOf(part), includeSubagents, Favouring(key, a))
         != IntoGroup(key, ProjectOf(part), includeSubagents, Favouring(key, b))
  {
    var project, o1, o2 := ProjectOf(part), Favouring(key, a), Favouring(key, b);
    WithKeyNonempty(part, NormalizedId, a);
    WithKeyNonempty(part, NormalizedId, b);
    var s := Summaries(project, o1(key, project.sessions.Keys), includeSubagents, o1);
    var t := Summaries(project, o2(key, project.sessions.Keys), includeSubagents, o2);
    ProjectSessions(part, a);
    ProjectSessions(part, b);
    TiedByStamp(b, project.sessions[b], a, project.sessions[a], includeSubagents, o2, o1);
    SummaryOrder();
    TiedHeadsShow(s, t, SummaryLe);
  }

  function KeyOfGroup(g: ProjectGroup): string {
    AsStr(g.tool) + [NUL] + g.projectPath
  }

  lemma {:induction false} IntoGroupSpellsKey(items: seq<Item>, key: string, includeSubagents: bool,
                                              order: IterationOrder)
    requires Enumerates(order) && key in ProjectsOf(items) && Filled(ProjectsOf(items)[key])
    ensures KeyOfGroup(IntoGroup(key, ProjectsOf(items)[key], includeSubagents, order)) == key
  {
    GroupSpellsKey(items, key);
  }

  lemma {:induction false} ListedGroup(items: seq<Item>, keys: seq<string>, includeSubagents: bool,
                                       order: IterationOrder, key: string)
    requires Enumerates(order) && key in keys
    requires forall k :: k in keys ==> k in ProjectsOf(items) && Filled(ProjectsOf(items)[k])
    ensures IntoGroup(key, ProjectsOf(items)[key], includeSubagents, order)
         in IntoGroups(ProjectsOf(items), keys, includeSubagents, order)
  {
    var i :| 0 <= i < |keys| && keys[i] == key;
    assert IntoGroups(ProjectsOf(items), keys, includeSubagents, order)[i]
        == IntoGroup(key, ProjectsOf(items)[key], includeSubagents, order);
  }

  lemma {:induction false} GroupWasListed(items: seq<Item>, keys: seq<string>, includeSubagents: bool,
                                          order: IterationOrder, g: ProjectGroup) returns (key: string)
    requires Enumerates(order)
    requires forall k :: k in keys ==> k in ProjectsOf(items) && Filled(ProjectsOf(items)[k])
    requires g in IntoGroups(ProjectsOf(items), keys, includeSubagents, order)
    ensures key in keys && g == IntoGroup(key, ProjectsOf(items)[key], includeSubagents, order)
  {
    var groups := IntoGroups(ProjectsOf(items), keys, includeSubagents, order);
    var i :| 0 <= i < |groups| && groups[i] == g;
    key := keys[i];
  }

  /** Two lists of groups differ where the group of one key does. */
  lemma {:induction false} GroupsDiffer(i1: seq<Item>, i2: seq<Item>, path: Option<string>, includeSubagents: bool,
                                        o1: IterationOrder, o2: IterationOrder, key: string)
    requires Enumerates(o1) && Enumerates(o2)
    requires var p1, p2 := ProjectsOf(Selected(i1, path)), ProjectsOf(Selected(i2, path));
      && key in p1 && Filled(p1[key]) && key in p2 && Filled(p2[key])
      && IntoGroup(key, p1[key], includeSubagents, o1) != IntoGroup(key, p2[key], includeSubagents, o2)
    ensures SortedGroups(i1, path, includeSubagents, o1) != SortedGroups(i2, path, includeSubagents, o2)
  {
    var q1, q2 := Selected(i1, path), Selected(i2, path);
    ProjectsAreFilled(q1);
    ProjectsAreFilled(q2);
    var keys1, keys2 := o1("", ProjectsOf(q1).Keys), o2("", ProjectsOf(q2).Keys);
    var g := IntoGroup(key, ProjectsOf(q1)[key], includeSubagents, o1);
    ListedGroup(q1, keys1, includeSubagents, o1, key);
    SortMember(IntoGroups(ProjectsOf(q1), keys1, includeSubagents, o1), GroupLe, g);
    SortMember(IntoGroups(ProjectsOf(q2), keys2, includeSubagents, o2), GroupLe, g);
    if g in IntoGroups(ProjectsOf(q2), keys2, includeSubagents, o2) {
      var other := GroupWasListed(q2, keys2, includeSubagents, o2, g);
      IntoGroupSpellsKey(q1, key, includeSubagents, o1);
      IntoGroupSpellsKey(q2, other, includeSubagents, o2);
    }
  }

  ghost predicate GroupsIgnoreOrders(items: seq<Item>, path: Option<string>, includeSubagents: bool) {
    forall o1, o2 :: Enumerates(o1) && Enumerates(o2) ==>
      SortedGroups(items, path, includeSubagents, o1) == SortedGroups(items, path, includeSubagents, o2)
  }

  /** Hash map order shows in the group list exactly when some project has twin sessions. */
  lemma {:induction false} GroupsIgnoreOrdersExactly(items: seq<Item>, path: Option<string>, includeSubagents: bool)
    ensures GroupsIgnoreOrders(items, path, includeSubagents) <==> NoTwins(Selected(items, path))
  {
    var selected := Selected(items, path);
    if NoTwins(selected) {
      forall o1, o2 | Enumerates(o1) && Enumerates(o2)
        ensures SortedGroups(items, path, includeSubagents, o1) == SortedGroups(items, path, includeSubagents, o2)
      {
        GroupsIgnoreMapOrder(items, path, includeSubagents, o1, o2);
      }
    } else {
      var key :| HasTwins(WithKey(selected, ProjectKey, key));
      var part := WithKey(selected, ProjectKey, key);
      var a, b :| AreTwins(part, a, b);
      var o1, o2 := Favouring(key, a), Favouring(key, b);
      FavouringEnumerates(key, a);
      FavouringEnumerates(key, b);
      WithKeyNonempty(selected, ProjectKey, key);
      ProjectsAreFilled(selected);
      assert part != [] && ProjectsOf(selected)[key] == ProjectOf(part);
      TwinsShowOrder(key, part, includeSubagents, a, b);
      GroupsDiffer(items, items, path, includeSubagents, o1, o2, key);
    }
  }

  lemma {:induction false} StampOfOne(id: string, x: Item)
    ensures Stamp(id, [x]) == (x.modifiedAt, x.sessionId)
  {
    assert [x][1..] == [];
    assert Sort([x], RawLe) == [x];
  }

  lemma {:induction false} WithKeyOfTwo<K>(x: Item, y: Item, keyOf: Item -> K, key: K)
    ensures WithKey([x, y], keyOf, key)
         == (if keyOf(x) == key then [x] else []) + (if keyOf(y) == key then [y] else [])
  {
    assert [x, y] == [x] + [y] && [x] == [] + [x];
    WithKeyOne([], x, keyOf, key);
    WithKeyOne([x], y, keyOf, key);
  }

  lemma {:induction false} SelectedTwo(x: Item, y: Item)
    ensures Selected([x, y], None) == [x, y]
  {
    assert [x, y] == [x] + [y] && [x] == [] + [x];
    SelectedOne([], x, None);
    SelectedOne([x], y, None);
  }

  lemma {:induction false} SameStampsAreTwins(p: Item, q: Item, a: string, b: string)
    requires NormalizedId(p) == a && NormalizedId(q) == b && a != b
    requires p.modifiedAt == q.modifiedAt && p.sessionId == q.sessionId
    ensures AreTwins([p, q], a, b)
  {
    WithKeyOfTwo(p, q, NormalizedId, a);
    WithKeyOfTwo(p, q, NormalizedId, b);
    assert [p] + [] == [p] && [] + [q] == [q];
    StampOfOne(a, p);
    StampOfOne(b, q);
  }

  /** Such a list: one raw session recorded twice, under two normalized ids. */
  lemma {:induction false} RepeatedSessionShowsOrder(x: Item, includeSubagents: bool)
    ensures var twice := [x.(normalizedSessionId := Some("a")), x.(normalizedSessionId := Some("b"))];
      !GroupsIgnoreOrders(twice, None, includeSubagents)
  {
    var p, q := x.(normalizedSessionId := Some("a")), x.(normalizedSessionId := Some("b"));
    SelectedTwo(p, q);
    WithKeyOfTwo(p, q, ProjectKey, ProjectKey(x));
    assert [p] + [q] == [p, q];
    SameStampsAreTwins(p, q, "a", "b");
    assert HasTwins(WithKey([p, q], ProjectKey, ProjectKey(x)));
    GroupsIgnoreOrdersExactly([p, q], None, includeSubagents);
  }

  // ---------------------------------------------------------------------------------------------
  // Unique session ids
  // ---------------------------------------------------------------------------------------------

  function SessionId(item: Item): string { item.sessionId }

  ghost predicate UniqueSessionIds(items: seq<Item>) {
    forall i, j :: 0 <= i < j < |items| ==> SessionId(items[i]) != SessionId(items[j])
  }

  /** Within every project of the list, session ids are unique. */
  ghost predicate UniqueWithinProjects(items: seq<Item>) {
    forall key :: UniqueSessionIds(WithKey(items, ProjectKey, key))
  }

  lemma {:induction false} OwnSessionIds(items: seq<Item>, x: Item, y: Item)
    requires UniqueSessionIds(items) && x in items && y in items && x != y
    ensures x.sessionId != y.sessionId
  {
    var i :| 0 <= i < |items| && items[i] == x;
    var j :| 0 <= j < |items| && items[j] == y;
    assert SessionId(items[i]) != SessionId(items[j]);
  }

  lemma {:induction false} StampIsOwn(part: seq<Item>, id: string) returns (primary: Item)
    requires WithKey(part, NormalizedId, id) != []
    ensures primary in part && NormalizedId(primary) == id
    ensures Stamp(id, WithKey(part, NormalizedId, id)).1 == primary.sessionId
  {
    var items := WithKey(part, NormalizedId, id);
    SortPermutes(items, RawLe);
    primary := Primary(id, Sort(items, RawLe));
    SortMember(items, RawLe, primary);
    WithKeyMember(part, NormalizedId, id, primary);
  }

  /** Sessions have their primary sessions to themselves, so unique session ids leave no twins. */
  lemma {:induction false} UniqueIdsLeaveNoTwins(items: seq<Item>)
    requires UniqueWithinProjects(items)
    ensures NoTwins(items)
  {
    forall key ensures !HasTwins(WithKey(items, ProjectKey, key)) {
      var part := WithKey(items, ProjectKey, key);
      forall a, b ensures !AreTwins(part, a, b) {
        if a != b && WithKey(part, NormalizedId, a) != [] && WithKey(part, NormalizedId, b) != [] {
          var x := StampIsOwn(part, a);
          var y := StampIsOwn(part, b);
          OwnSessionIds(part, x, y);
        }
      }
    }
  }
}
