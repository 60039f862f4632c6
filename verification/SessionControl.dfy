/** Merging the control channels of the raw sessions behind one normalized session
    (crates/niuma-api/src/tool_sessions.rs, `normalized_control`). */
module SessionControl {
  import opened Wrappers
  import opened StableSort
  import opened SessionModel
  import Text

  predicate ShouldReplace(existing: Channel, incoming: Channel) {
    || incoming.updatedAt > existing.updatedAt
    || (incoming.updatedAt == existing.updatedAt && incoming.available && !existing.available)
  }

  function ControlChannels(item: Item): seq<Channel> {
    if item.control.Some? then item.control.value.channels else []
  }

  function ChannelsOf(items: seq<Item>): seq<Channel> {
    if items == [] then [] else ChannelsOf(items[..|items| - 1]) + ControlChannels(items[|items| - 1])
  }

  function Visit(merged: map<string, Channel>, c: Channel): map<string, Channel> {
    if c.id in merged && !ShouldReplace(merged[c.id], c) then merged else merged[c.id := c]
  }

  function Merge(channels: seq<Channel>): map<string, Channel> {
    if channels == [] then map[] else Visit(Merge(channels[..|channels| - 1]), channels[|channels| - 1])
  }

  predicate CanResume(c: Channel) {
    c.available && ("send_instruction" in c.capabilities
                    || exists i :: 0 <= i < |c.actions| && c.actions[i].actionType == "send_instruction")
  }

  function ChannelRank(c: Channel): nat {
    if CanResume(c) then 2 else if c.available then 1 else 0
  }

  /** Best rank first, then the most recent, then by id. */
  predicate ChannelLe(l: Channel, r: Channel) {
    if ChannelRank(l) != ChannelRank(r) then ChannelRank(l) > ChannelRank(r)
    else if l.updatedAt != r.updatedAt then l.updatedAt > r.updatedAt
    else StringLe(l.id, r.id)
  }

  function FirstResumable(channels: seq<Channel>): Option<Channel> {
    if channels == [] then None else if CanResume(channels[0]) then Some(channels[0]) else FirstResumable(channels[1..])
  }

  function FirstAvailable(channels: seq<Channel>): Option<Channel> {
    if channels == [] then None else if channels[0].available then Some(channels[0]) else FirstAvailable(channels[1..])
  }

  function Preferred(channels: seq<Channel>): Option<string> {
    match FirstResumable(channels)
    case Some(c) => Some(c.id)
    case None => match FirstAvailable(channels) case Some(c) => Some(c.id) case None => None
  }

  /** The merged values in the order the hash map yields them. */
  function Values(merged: map<string, Channel>, keys: seq<string>): seq<Channel>
    requires forall key :: key in keys ==> key in merged
  {
    seq(|keys|, i requires 0 <= i < |keys| => merged[keys[i]])
  }

  function SummarizeControl(channels: seq<Channel>): Control {
    Control(exists i :: 0 <= i < |channels| && CanResume(channels[i]), Preferred(channels), channels)
  }

  function NormalizedControl(primary: Item, raw: seq<Item>, order: IterationOrder, tag: string): Option<Control>
    requires Enumerates(order)
  {
    var merged := Merge(ChannelsOf([primary] + raw));
    if merged == map[] then None
    else Some(SummarizeControl(Sort(Values(merged, order(tag, merged.Keys)), ChannelLe)))
  }

  // ---------------------------------------------------------------------------------------------
  // The merge keeps, for every id, the first best channel
  // ---------------------------------------------------------------------------------------------

  /** The order on which a later channel beats an earlier one. */
  predicate AtMost(a: Channel, b: Channel) {
    a.updatedAt < b.updatedAt || (a.updatedAt == b.updatedAt && (a.available ==> b.available))
  }

  /** Position `k` holds the earliest of the best channels with its id. */
  ghost predicate FirstBest(channels: seq<Channel>, k: int) {
    && 0 <= k < |channels|
    && (forall i :: 0 <= i < |channels| && channels[i].id == channels[k].id ==> AtMost(channels[i], channels[k]))
    && (forall i :: 0 <= i < k && channels[i].id == channels[k].id ==> !AtMost(channels[k], channels[i]))
  }

  ghost predicate HoldsFirstBest(channels: seq<Channel>, id: string, c: Channel) {
    c.id == id && exists k :: FirstBest(channels, k) && channels[k] == c
  }

  lemma {:induction false} FirstBestExtends(channels: seq<Channel>, c: Channel, k: nat)
    requires FirstBest(channels, k)
    ensures c.id == channels[k].id && ShouldReplace(channels[k], c) ==> FirstBest(channels + [c], |channels|)
    ensures !(c.id == channels[k].id && ShouldReplace(channels[k], c)) ==> FirstBest(channels + [c], k)
  {}

  /** The merged map has exactly the input ids, each with the first maximum of (updated_at, available). */
  lemma {:induction false} MergeIsMaximum(channels: seq<Channel>, id: string)
    ensures id in Merge(channels) <==> exists c :: c in channels && c.id == id
    ensures id in Merge(channels) ==> HoldsFirstBest(channels, id, Merge(channels)[id])
  {
    if channels != [] {
      var n := |channels| - 1;
      var c, earlier := channels[n], channels[..n];
      assert channels == earlier + [c];
      MergeIsMaximum(earlier, id);
      if id in Merge(earlier) {
        var k :| FirstBest(earlier, k) && earlier[k] == Merge(earlier)[id];
        FirstBestExtends(earlier, c, k);
        assert channels[k] == earlier[k];
      } else if id == c.id {
        assert FirstBest(channels, n);
      }
    }
  }

  lemma {:induction false} MergeAbsorbs(a: seq<Channel>, b: seq<Channel>)
    requires forall i :: 0 <= i < |b| ==> b[i].id in Merge(a) && AtMost(b[i], Merge(a)[b[i].id])
    ensures Merge(a + b) == Merge(a)
  {
    if b == [] {
      assert a + b == a;
    } else {
      var n := |b| - 1;
      MergeAbsorbs(a, b[..n]);
      assert (a + b)[..|a + b| - 1] == a + b[..n];
    }
  }

  lemma {:induction false} MergeCongruence(a: seq<Channel>, b: seq<Channel>, tail: seq<Channel>)
    requires Merge(a) == Merge(b)
    ensures Merge(a + tail) == Merge(b + tail)
  {
    if tail == [] {
      assert a + tail == a && b + tail == b;
    } else {
      var n := |tail| - 1;
      MergeCongruence(a, b, tail[..n]);
      assert (a + tail)[..|a + tail| - 1] == a + tail[..n];
      assert (b + tail)[..|b + tail| - 1] == b + tail[..n];
    }
  }

  lemma {:induction false} ChannelsLast(items: seq<Item>, item: Item)
    ensures ChannelsOf(items + [item]) == ChannelsOf(items) + ControlChannels(item)
  {
    assert (items + [item])[..|items|] == items;
  }

  lemma {:induction false} ChannelsAppend(a: seq<Item>, b: seq<Item>)
    ensures ChannelsOf(a + b) == ChannelsOf(a) + ChannelsOf(b)
  {
    if b == [] {
      assert a + b == a;
    } else {
      var front, last := b[..|b| - 1], b[|b| - 1];
      ChannelsAppend(a, front);
      Text.Reassociate(a, front, [last]);
      assert front + [last] == b;
      ChannelsLast(front, last);
      ChannelsLast(a + front, last);
      Text.Reassociate(ChannelsOf(a), ChannelsOf(front), ControlChannels(last));
    }
  }

  /** Visiting channels again, later in the fold, changes nothing. */
  lemma {:induction false} RevisitingIsIdle(own: seq<Channel>, between: seq<Channel>, after: seq<Channel>)
    ensures Merge(own + between + own + after) == Merge(own + between + after)
  {
    var head := own + between;
    forall i | 0 <= i < |own| ensures own[i].id in Merge(head) && AtMost(own[i], Merge(head)[own[i].id]) {
      assert head[i] == own[i];
      MergeIsMaximum(head, own[i].id);
    }
    MergeAbsorbs(head, own);
    MergeCongruence(head + own, head, after);
  }

  /** The primary session is merged first and met again among the raw ones; the second visit changes nothing. */
  lemma {:induction false} RevisitingPrimaryIsIdle(primary: Item, before: seq<Item>, after: seq<Item>)
    ensures var raw := before + [primary] + after;
      Merge(ChannelsOf([primary] + raw)) == Merge(ChannelsOf([primary] + (before + after)))
  {
    ChannelsWithPrimary(primary, before, after);
    var raw := before + [primary] + after;
    var own, between, rest := ChannelsOf([primary]), ChannelsOf(before), ChannelsOf(after);
    RevisitingIsIdle(own, between, rest);
    calc {
      Merge(ChannelsOf([primary] + raw));
      Merge(own + between + own + rest);
      Merge(own + between + rest);
      Merge(ChannelsOf([primary] + (before + after)));
    }
  }

  lemma {:induction false} ChannelsWithPrimary(primary: Item, before: seq<Item>, after: seq<Item>)
    ensures ChannelsOf([primary] + (before + [primary] + after))
         == ChannelsOf([primary]) + ChannelsOf(before) + ChannelsOf([primary]) + ChannelsOf(after)
    ensures ChannelsOf([primary] + (before + after)) == ChannelsOf([primary]) + ChannelsOf(before) + ChannelsOf(after)
  {
    var p := [primary];
    ChannelsAppend(p, before + p + after);
    ChannelsAppend(before + p, after);
    ChannelsAppend(before, p);
    ChannelsAppend(p, before + after);
    ChannelsAppend(before, after);
    Reassociate(ChannelsOf(p), ChannelsOf(before), ChannelsOf(p), ChannelsOf(after));
  }

  lemma {:induction false} Reassociate<T>(a: seq<T>, b: seq<T>, c: seq<T>, d: seq<T>)
    ensures a + (b + c + d) == a + b + c + d
    ensures a + (b + d) == a + b + d
  {}

  // ---------------------------------------------------------------------------------------------
  // Sorting the merged channels
  // ---------------------------------------------------------------------------------------------

  lemma {:induction false} ChannelOrder()
    ensures TotalPreorder(ChannelLe)
    ensures forall a, b :: Tied(a, b, ChannelLe) ==> a.id == b.id
  {
    StringOrder();
  }

  lemma {:induction false} ValuesAreSeparated(merged: map<string, Channel>, keys: seq<string>)
    requires forall key :: key in keys ==> key in merged && merged[key].id == key
    requires NoDuplicates(keys)
    ensures Separated(Values(merged, keys), ChannelLe)
  {
    ChannelOrder();
  }

  lemma {:induction false} MergedIdsAreKeys(channels: seq<Channel>)
    ensures forall id :: id in Merge(channels) ==> Merge(channels)[id].id == id
  {
    forall id | id in Merge(channels) ensures Merge(channels)[id].id == id {
      MergeIsMaximum(channels, id);
    }
  }

  /** The summary does not depend on how the hash map of channels iterates. */
  lemma {:induction false} ControlIgnoresMapOrder(primary: Item, raw: seq<Item>, o1: IterationOrder, tag1: string,
                                                  o2: IterationOrder, tag2: string)
    requires Enumerates(o1) && Enumerates(o2)
    ensures NormalizedControl(primary, raw, o1, tag1) == NormalizedControl(primary, raw, o2, tag2)
  {
    var channels := ChannelsOf([primary] + raw);
    var merged := Merge(channels);
    var k1, k2 := o1(tag1, merged.Keys), o2(tag2, merged.Keys);
    MergedIdsAreKeys(channels);
    ValuesAreSeparated(merged, k1);
    ValuesAreSeparated(merged, k2);
    ChannelOrder();
    var v1, v2 := Values(merged, k1), Values(merged, k2);
    forall x ensures x in v1 <==> x in v2 {
      if x in v1 {
        var i :| 0 <= i < |v1| && v1[i] == x;
        assert k1[i] in k2;
        var j :| 0 <= j < |k2| && k2[j] == k1[i];
        assert v2[j] == x;
      }
      if x in v2 {
        var i :| 0 <= i < |v2| && v2[i] == x;
        assert k2[i] in k1;
        var j :| 0 <= j < |k1| && k1[j] == k2[i];
        assert v1[j] == x;
      }
    }
    SortSeparated(v1, v2, ChannelLe);
  }

  /** Every listed channel is a best one of its id, no id is listed twice, and the list is in order. */
  lemma {:induction false} ControlListsBestChannels(primary: Item, raw: seq<Item>, order: IterationOrder, tag: string)
    requires Enumerates(order) && NormalizedControl(primary, raw, order, tag).Some?
    ensures var input := ChannelsOf([primary] + raw);
      var listed := NormalizedControl(primary, raw, order, tag).value.channels;
      && (forall c :: c in listed ==> HoldsFirstBest(input, c.id, c))
      && (forall i, j :: 0 <= i < j < |listed| ==> listed[i].id != listed[j].id)
      && Sorted(listed, ChannelLe)
  {
    var input := ChannelsOf([primary] + raw);
    var merged := Merge(input);
    MergedIdsAreKeys(input);
    SortedValues(merged, order(tag, merged.Keys));
    forall c | c in Sort(Values(merged, order(tag, merged.Keys)), ChannelLe) ensures HoldsFirstBest(input, c.id, c) {
      ListedIsMerged(merged, order(tag, merged.Keys), c);
      MergeIsMaximum(input, c.id);
    }
  }

  lemma {:induction false} SortedValues(merged: map<string, Channel>, keys: seq<string>)
    requires forall key :: key in keys ==> key in merged && merged[key].id == key
    requires NoDuplicates(keys)
    ensures var listed := Sort(Values(merged, keys), ChannelLe);
      Sorted(listed, ChannelLe) && forall i, j :: 0 <= i < j < |listed| ==> listed[i].id != listed[j].id
  {
    ChannelOrder();
    SortSorted(Values(merged, keys), ChannelLe);
    SortedIdsDistinct(merged, keys);
  }

  /** Every input id is listed; there is no control at all exactly when there is no input channel. */
  lemma {:induction false} ControlListsEveryId(primary: Item, raw: seq<Item>, order: IterationOrder, tag: string,
                                               c: Channel)
    requires Enumerates(order) && c in ChannelsOf([primary] + raw)
    ensures NormalizedControl(primary, raw, order, tag).Some?
    ensures exists d :: d in NormalizedControl(primary, raw, order, tag).value.channels && d.id == c.id
  {
    var input := ChannelsOf([primary] + raw);
    var merged := Merge(input);
    MergeIsMaximum(input, c.id);
    MergedIdsAreKeys(input);
    MergedIsListed(merged, order(tag, merged.Keys), c.id);
    assert merged[c.id].id == c.id;
  }

  lemma {:induction false} ListedIsMerged(merged: map<string, Channel>, keys: seq<string>, c: Channel)
    requires forall key :: key in keys ==> key in merged && merged[key].id == key
    requires c in Sort(Values(merged, keys), ChannelLe)
    ensures c.id in merged && merged[c.id] == c
  {
    SortMember(Values(merged, keys), ChannelLe, c);
  }

  lemma {:induction false} MergedIsListed(merged: map<string, Channel>, keys: seq<string>, id: string)
    requires forall key :: key in keys ==> key in merged
    requires id in keys
    ensures merged[id] in Sort(Values(merged, keys), ChannelLe)
  {
    var i :| 0 <= i < |keys| && keys[i] == id;
    assert Values(merged, keys)[i] == merged[id];
    SortMember(Values(merged, keys), ChannelLe, merged[id]);
  }

  lemma {:induction false} SortedIdsDistinct(merged: map<string, Channel>, keys: seq<string>)
    requires forall key :: key in keys ==> key in merged && merged[key].id == key
    requires NoDuplicates(keys)
    ensures var listed := Sort(Values(merged, keys), ChannelLe);
      forall i, j :: 0 <= i < j < |listed| ==> listed[i].id != listed[j].id
  {
    var listed := Sort(Values(merged, keys), ChannelLe);
    forall i, j | 0 <= i < j < |listed| ensures listed[i].id != listed[j].id {
      ListedIsMerged(merged, keys, listed[i]);
      ListedIsMerged(merged, keys, listed[j]);
      ListedOnce(merged, keys, i, j);
    }
  }

  /** No merged channel is listed at two places: each is a value of one key only. */
  lemma {:induction false} ListedOnce(merged: map<string, Channel>, keys: seq<string>, i: nat, j: nat)
    requires forall key :: key in keys ==> key in merged && merged[key].id == key
    requires NoDuplicates(keys) && i < j < |Sort(Values(merged, keys), ChannelLe)|
    ensures Sort(Values(merged, keys), ChannelLe)[i] != Sort(Values(merged, keys), ChannelLe)[j]
  {
    var values := Values(merged, keys);
    var listed := Sort(values, ChannelLe);
    SortPermutes(values, ChannelLe);
    OnceInValues(merged, keys, listed[i]);
    if listed[i] == listed[j] {
      TwiceInMultiset(listed, i, j);
    }
  }

  lemma {:induction false} TwiceInMultiset<T>(s: seq<T>, i: nat, j: nat)
    requires i < j < |s| && s[i] == s[j]
    ensures multiset(s)[s[i]] >= 2
  {
    assert s == s[..j] + [s[j]] + s[j + 1..];
    assert s[..j][i] == s[i];
    assert s[i] in multiset(s[..j]);
  }

  lemma {:induction false} OnceInValues(merged: map<string, Channel>, keys: seq<string>, c: Channel)
    requires forall key :: key in keys ==> key in merged && merged[key].id == key
    requires NoDuplicates(keys)
    ensures multiset(Values(merged, keys))[c] <= 1
  {
    if keys != [] {
      var n := |keys| - 1;
      OnceInValues(merged, keys[..n], c);
      assert Values(merged, keys) == Values(merged, keys[..n]) + [merged[keys[n]]];
      if c == merged[keys[n]] {
        assert c !in Values(merged, keys[..n]);
      }
    }
  }

  /** The linear scans agree with the sort: the head tells the preferred channel and resumability. */
  lemma {:induction false} HeadDecides(channels: seq<Channel>)
    requires Sorted(channels, ChannelLe) && channels != []
    ensures Preferred(channels) == if channels[0].available then Some(channels[0].id) else None
    ensures SummarizeControl(channels).resumable <==> CanResume(channels[0])
  {
    assert forall i :: 0 < i < |channels| ==> ChannelLe(channels[0], channels[i]);
    ScanAll(channels);
  }

  lemma {:induction false} ScanAll(channels: seq<Channel>)
    ensures FirstResumable(channels).None? <==> forall i :: 0 <= i < |channels| ==> !CanResume(channels[i])
    ensures FirstAvailable(channels).None? <==> forall i :: 0 <= i < |channels| ==> !channels[i].available
  {
    if channels != [] {
      ScanAll(channels[1..]);
      assert forall i :: 0 < i < |channels| ==> channels[i] == channels[1..][i - 1];
    }
  }

  // ---------------------------------------------------------------------------------------------
  // What the control of a session tells
  // ---------------------------------------------------------------------------------------------

  /** An available channel that lists the capability or an action of that type takes instructions. */
  ghost predicate TakesInstructions(c: Channel) {
    c.available
    && ("send_instruction" in c.capabilities || exists a :: a in c.actions && a.actionType == "send_instruction")
  }

  lemma {:induction false} CanResumeIs(c: Channel)
    ensures CanResume(c) <==> TakesInstructions(c)
  {
    if a :| a in c.actions && a.actionType == "send_instruction" {
      var i :| 0 <= i < |c.actions| && c.actions[i] == a;
      assert c.actions[i].actionType == "send_instruction";
    }
  }

  /** One of the visited sessions offers the channel. */
  ghost predicate Offered(visited: seq<Item>, c: Channel) {
    exists x :: x in visited && x.control.Some? && c in x.control.value.channels
  }

  lemma {:induction false} OfferedIs(visited: seq<Item>, c: Channel)
    ensures c in ChannelsOf(visited) <==> Offered(visited, c)
  {
    if visited != [] {
      var front, last := visited[..|visited| - 1], visited[|visited| - 1];
      OfferedIs(front, c);
      assert visited == front + [last];
      assert forall x :: x in visited <==> x in front || x == last;
    }
  }

  /** Channels are offered session by session. */
  lemma {:induction false} ChannelsInOrder(x: Item, rest: seq<Item>)
    ensures ChannelsOf([x] + rest)
         == if x.control.Some? then x.control.value.channels + ChannelsOf(rest) else ChannelsOf(rest)
  {
    ChannelsAppend([x], rest);
    ChannelsLast([], x);
    assert [] + [x] == [x] && [] + ControlChannels(x) == ControlChannels(x);
    assert [] + ChannelsOf(rest) == ChannelsOf(rest);
  }

  /** Those that take instructions first, then the other available ones; within each kind the most recent first, then
      by id. */
  ghost predicate ChannelsListed(channels: seq<Channel>) {
    forall i, j :: 0 <= i < j < |channels| ==>
      && (TakesInstructions(channels[j]) ==> TakesInstructions(channels[i]))
      && (channels[j].available ==> channels[i].available)
      && (TakesInstructions(channels[i]) == TakesInstructions(channels[j])
          && channels[i].available == channels[j].available ==>
            || channels[i].updatedAt > channels[j].updatedAt
            || (channels[i].updatedAt == channels[j].updatedAt && StringLe(channels[i].id, channels[j].id)))
  }

  /** For each id the most recently updated channel offered, an available one if there is a choice. */
  ghost predicate ListsBest(channels: seq<Channel>, visited: seq<Item>) {
    && (forall c :: c in channels ==> Offered(visited, c) && HoldsFirstBest(ChannelsOf(visited), c.id, c))
    && (forall c, d :: c in channels && Offered(visited, d) && d.id == c.id ==>
          d.updatedAt < c.updatedAt || (d.updatedAt == c.updatedAt && (d.available ==> c.available)))
    && (forall d :: Offered(visited, d) ==> exists c :: c in channels && c.id == d.id)
    && (forall i, j :: 0 <= i < j < |channels| ==> channels[i].id != channels[j].id)
  }

  /** The channels offered, best of each id, in order; the first is preferred when it is available, and the session can
      be resumed when it takes instructions. There is no control exactly when nothing is offered. */
  ghost predicate ShowsControl(control: Option<Control>, visited: seq<Item>) {
    match control
    case None => forall c :: !Offered(visited, c)
    case Some(told) =>
      && told.channels != [] && ListsBest(told.channels, visited) && ChannelsListed(told.channels)
      && told.preferredChannelId == (if told.channels[0].available then Some(told.channels[0].id) else None)
      && (told.resumable <==> TakesInstructions(told.channels[0]))
  }

  lemma {:induction false} SortedIsListed(channels: seq<Channel>)
    requires Sorted(channels, ChannelLe)
    ensures ChannelsListed(channels)
  {
    forall c ensures CanResume(c) <==> TakesInstructions(c) {
      CanResumeIs(c);
    }
  }

  lemma {:induction false} BestIsListed(visited: seq<Item>, channels: seq<Channel>)
    requires forall c :: c in channels ==> HoldsFirstBest(ChannelsOf(visited), c.id, c)
    requires forall d :: d in ChannelsOf(visited) ==> exists c :: c in channels && c.id == d.id
    requires forall i, j :: 0 <= i < j < |channels| ==> channels[i].id != channels[j].id
    ensures ListsBest(channels, visited)
  {
    var input := ChannelsOf(visited);
    forall c ensures c in input <==> Offered(visited, c) {
      OfferedIs(visited, c);
    }
    forall c, d | c in channels && d in input && d.id == c.id ensures AtMost(d, c) {
      var k :| FirstBest(input, k) && input[k] == c;
      var i :| 0 <= i < |input| && input[i] == d;
    }
    forall c | c in channels ensures c in input {
      var k :| FirstBest(input, k) && input[k] == c;
    }
  }

  lemma {:induction false} NoChannels(visited: seq<Item>)
    ensures Merge(ChannelsOf(visited)) == map[] <==> forall c :: !Offered(visited, c)
  {
    var input := ChannelsOf(visited);
    forall c ensures c in input <==> Offered(visited, c) {
      OfferedIs(visited, c);
    }
    forall id ensures id in Merge(input) <==> exists c :: c in input && c.id == id {
      MergeIsMaximum(input, id);
    }
    if input != [] {
      assert input[0] in input && input[0].id in Merge(input);
    }
  }

  lemma {:induction false} ControlTells(primary: Item, raw: seq<Item>, order: IterationOrder, tag: string)
    requires Enumerates(order)
    ensures ShowsControl(NormalizedControl(primary, raw, order, tag), [primary] + raw)
  {
    var visited := [primary] + raw;
    var control := NormalizedControl(primary, raw, order, tag);
    NoChannels(visited);
    if control.Some? {
      var channels := control.value.channels;
      ControlListsBestChannels(primary, raw, order, tag);
      forall d | d in ChannelsOf(visited) ensures exists c :: c in channels && c.id == d.id {
        ControlListsEveryId(primary, raw, order, tag, d);
      }
      BestIsListed(visited, channels);
      SortedIsListed(channels);
      assert channels != [] by {
        var d :| Offered(visited, d);
        var c :| c in channels && c.id == d.id;
      }
      HeadDecides(channels);
      CanResumeIs(channels[0]);
    }
  }

  // ---------------------------------------------------------------------------------------------
  // The merge in place
  // ---------------------------------------------------------------------------------------------

  method VisitAll(before: map<string, Channel>, channels: seq<Channel>, ghost seen: seq<Channel>)
    returns (merged: map<string, Channel>)
    requires before == Merge(seen)
    ensures merged == Merge(seen + channels)
  {
    merged := before;
    assert seen + channels[..0] == seen;
    var i := 0;
    while i < |channels|
      invariant 0 <= i <= |channels|
      invariant merged == Merge(seen + channels[..i])
    {
      var c := channels[i];
      ghost var visited := seen + channels[..i];
      assert seen + channels[..i + 1] == visited + [c];
      assert (visited + [c])[..|visited|] == visited;
      if c.id in merged {
        if ShouldReplace(merged[c.id], c) {
          merged := merged[c.id := c];
        }
      } else {
        merged := merged[c.id := c];
      }
      i := i + 1;
    }
    assert channels[..i] == channels;
  }

  method MergeChannels(primary: Item, raw: seq<Item>) returns (merged: map<string, Channel>)
    ensures merged == Merge(ChannelsOf([primary] + raw))
  {
    merged := map[];
    var visits := [primary] + raw;
    var i := 0;
    while i < |visits|
      invariant 0 <= i <= |visits|
      invariant merged == Merge(ChannelsOf(visits[..i]))
    {
      assert visits[..i + 1][..i] == visits[..i];
      if visits[i].control.Some? {
        merged := VisitAll(merged, visits[i].control.value.channels, ChannelsOf(visits[..i]));
      } else {
        assert ChannelsOf(visits[..i]) + [] == ChannelsOf(visits[..i]);
      }
      i := i + 1;
    }
    assert visits[..i] == visits;
  }
}
