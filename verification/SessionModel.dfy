/** The session records the registry stores (crates/niuma-core/src/tool_session.rs, models.rs). */
module SessionModel {
  import opened Wrappers
  import Text

  datatype ToolId = Codex | ClaudeCode | Custom(name: string)

  function AsStr(tool: ToolId): string {
    match tool
    case Codex => "codex"
    case ClaudeCode => "claude_code"
    case Custom(name) => name
  }

  /** Tool ids parsed from text never spell a built-in tool as a custom one, so their names tell them apart. */
  function FromId(value: string): (tool: ToolId)
    ensures AsStr(tool) == value
  {
    if value == "codex" then Codex else if value == "claude_code" then ClaudeCode else Custom(value)
  }

  /** Every tool is what its name parses to, but a custom one that bears the name of a built-in tool. */
  lemma {:induction false} FromIdRecovers(tool: ToolId)
    ensures FromId(AsStr(tool)) == tool <==> tool != Custom("codex") && tool != Custom("claude_code")
  {
    assert "codex" != "claude_code" by { assert |"codex"| != |"claude_code"|; }
  }

  datatype SessionScope = Main | Subagent

  datatype SessionStatus = Active | Inactive | Unknown

  datatype Normalization = Resolved | ParentMissing | ParentUnresolved

  datatype ControlAction = ControlAction(actionType: string, transport: string, endpoint: Option<string>,
                                         debugCommand: Option<string>)

  datatype Channel = Channel(
    id: string, provider: string, kind: string, available: bool,
    capabilities: seq<string>, actions: seq<ControlAction>, unavailableReason: Option<string>, updatedAt: int)

  datatype Control = Control(resumable: bool, preferredChannelId: Option<string>, channels: seq<Channel>)

  datatype Item = Item(
    id: string, tool: ToolId, sessionId: string, projectPath: string, projectName: string, filePath: string,
    modifiedAt: int, discoveredAt: int, lastSeenAt: int, isActive: bool, isSubagent: bool,
    parentSessionId: Option<string>, normalizedSessionId: Option<string>, sessionScope: Option<SessionScope>,
    agentNickname: Option<string>, agentRole: Option<string>, normalizationStatus: Option<Normalization>,
    firstUserMessagePreview: Option<string>, firstUserMessageAt: Option<int>,
    control: Option<Control>, status: SessionStatus)

  datatype RuntimeStatus = Idle | Running | WaitingApproval | WaitingInput | Completed | Error | Stale

  datatype RuntimeState = RuntimeState(
    tool: ToolId, sessionId: string, status: RuntimeStatus, lastEventId: Option<string>, lastActivityAt: int)

  // ---------------------------------------------------------------------------------------------
  // Hash maps
  // ---------------------------------------------------------------------------------------------

  /** The order in which a hash map, named by a label, yields a set of keys. */
  type IterationOrder = (string, set<string>) -> seq<string>

  ghost predicate NoDuplicates<T>(s: seq<T>) {
    forall i, j :: 0 <= i < j < |s| ==> s[i] != s[j]
  }

  /** Every key once, in an order nobody controls. */
  ghost predicate Enumerates(order: IterationOrder) {
    forall tag, keys ::
      && NoDuplicates(order(tag, keys))
      && (forall key :: key in order(tag, keys) <==> key in keys)
  }

  /** Some order of the elements, beginning with a given one when it is there. */
  ghost function Beginning<T(!new)>(first: T, elements: set<T>): (order: seq<T>)
    ensures NoDuplicates(order) && forall x :: x in order <==> x in elements
    ensures first in elements ==> order != [] && order[0] == first
    decreases elements
  {
    if elements == {} then []
    else if first in elements then [first] + Beginning(first, elements - {first})
    else
      var x :| x in elements;
      [x] + Beginning(first, elements - {x})
  }

  /** A hash map of this label yields this key first when it is there. */
  ghost function Favouring(name: string, first: string): IterationOrder {
    (tag, keys) => Beginning(if tag == name then first else "", keys)
  }

  lemma {:induction false} FavouringEnumerates(name: string, first: string)
    ensures Enumerates(Favouring(name, first))
  {}

  // ---------------------------------------------------------------------------------------------
  // Picking elements by key
  // ---------------------------------------------------------------------------------------------

  /** The elements with this key, in order. */
  function WithKey<T, K(==)>(s: seq<T>, keyOf: T -> K, key: K): seq<T> {
    if s == [] then []
    else WithKey(s[..|s| - 1], keyOf, key) + if keyOf(s[|s| - 1]) == key then [s[|s| - 1]] else []
  }

  function KeySet<T, K(==)>(s: seq<T>, keyOf: T -> K): set<K> {
    set i | 0 <= i < |s| :: keyOf(s[i])
  }

  lemma {:induction false} WithKeyMember<T, K>(s: seq<T>, keyOf: T -> K, key: K, x: T)
    ensures x in WithKey(s, keyOf, key) <==> x in s && keyOf(x) == key
  {
    if s != [] {
      var n := |s| - 1;
      WithKeyMember(s[..n], keyOf, key, x);
      assert s == s[..n] + [s[n]];
    }
  }

  lemma {:induction false} WithKeyOne<T, K>(s: seq<T>, last: T, keyOf: T -> K, key: K)
    ensures WithKey(s + [last], keyOf, key) == WithKey(s, keyOf, key) + if keyOf(last) == key then [last] else []
  {
    assert (s + [last])[..|s|] == s;
  }

  lemma {:induction false} WithKeyAppend<T, K>(a: seq<T>, b: seq<T>, keyOf: T -> K, key: K)
    ensures WithKey(a + b, keyOf, key) == WithKey(a, keyOf, key) + WithKey(b, keyOf, key)
  {
    if b == [] {
      assert a + b == a;
    } else {
      var front, last := b[..|b| - 1], b[|b| - 1];
      var part := if keyOf(last) == key then [last] else [];
      WithKeyAppend(a, front, keyOf, key);
      Text.Reassociate(a, front, [last]);
      assert front + [last] == b;
      WithKeyOne(front, last, keyOf, key);
      WithKeyOne(a + front, last, keyOf, key);
      Text.Reassociate(WithKey(a, keyOf, key), WithKey(front, keyOf, key), part);
    }
  }

  lemma {:induction false} WithKeyNonempty<T, K>(s: seq<T>, keyOf: T -> K, key: K)
    ensures WithKey(s, keyOf, key) != [] <==> key in KeySet(s, keyOf)
  {
    if s != [] {
      var n := |s| - 1;
      WithKeyNonempty(s[..n], keyOf, key);
      assert KeySet(s, keyOf) == KeySet(s[..n], keyOf) + {keyOf(s[n])} by {
        assert forall i :: 0 <= i < n ==> s[..n][i] == s[i];
      }
    }
  }

  /** Two positions of a keyed part come from two positions of the whole. */
  lemma {:induction false} WithKeyKeepsDistinct<T, K, U>(s: seq<T>, keyOf: T -> K, key: K, id: T -> U)
    requires forall i, j :: 0 <= i < j < |s| ==> id(s[i]) != id(s[j])
    ensures var part := WithKey(s, keyOf, key); forall i, j :: 0 <= i < j < |part| ==> id(part[i]) != id(part[j])
  {
    if s != [] {
      var n := |s| - 1;
      WithKeyKeepsDistinct(s[..n], keyOf, key, id);
      var part := WithKey(s[..n], keyOf, key);
      forall i | 0 <= i < |part| ensures id(part[i]) != id(s[n]) {
        WithKeyMember(s[..n], keyOf, key, part[i]);
        var k :| 0 <= k < n && s[..n][k] == part[i];
      }
    }
  }

  // ---------------------------------------------------------------------------------------------
  // Counting over a partition
  // ---------------------------------------------------------------------------------------------

  function Sum(counts: seq<nat>): nat {
    if counts == [] then 0 else Sum(counts[..|counts| - 1]) + counts[|counts| - 1]
  }

  lemma {:induction false} SumPush(counts: seq<nat>, c: nat)
    ensures Sum(counts + [c]) == Sum(counts) + c
  {
    assert (counts + [c])[..|counts|] == counts;
  }

  function Count<T>(s: seq<T>, p: T -> bool): nat {
    if s == [] then 0 else Count(s[..|s| - 1], p) + if p(s[|s| - 1]) then 1 else 0
  }

  lemma {:induction false} CountAll<T>(s: seq<T>, p: T -> bool)
    requires forall x :: x in s ==> p(x)
    ensures Count(s, p) == |s|
  {
    if s != [] {
      CountAll(s[..|s| - 1], p);
    }
  }

  lemma {:induction false} CountAppend<T>(a: seq<T>, b: seq<T>, p: T -> bool)
    ensures Count(a + b, p) == Count(a, p) + Count(b, p)
  {
    if b == [] {
      assert a + b == a;
    } else {
      var n := |b| - 1;
      CountAppend(a, b[..n], p);
      assert (a + b)[..|a + b| - 1] == a + b[..n];
    }
  }

  function PartCounts<T>(keys: seq<string>, s: seq<T>, keyOf: T -> string, p: T -> bool): (counts: seq<nat>)
    ensures |counts| == |keys|
  {
    if keys == [] then []
    else
      var n := |keys| - 1;
      PartCounts(keys[..n], s, keyOf, p) + [Count(WithKey(s, keyOf, keys[n]), p)]
  }

  lemma {:induction false} PartCountsAt<T>(keys: seq<string>, s: seq<T>, keyOf: T -> string, p: T -> bool, k: nat)
    requires k < |keys|
    ensures PartCounts(keys, s, keyOf, p)[k] == Count(WithKey(s, keyOf, keys[k]), p)
  {
    if k < |keys| - 1 {
      PartCountsAt(keys[..|keys| - 1], s, keyOf, p, k);
    }
  }

  lemma {:induction false} OnePartStep<T>(key: string, s: seq<T>, x: T, keyOf: T -> string, p: T -> bool)
    ensures Count(WithKey(s + [x], keyOf, key), p)
         == Count(WithKey(s, keyOf, key), p) + if keyOf(x) == key && p(x) then 1 else 0
  {
    assert (s + [x])[..|s|] == s;
    var part := WithKey(s, keyOf, key);
    assert part + [] == part && (part + [x])[..|part|] == part;
  }

  lemma {:induction false} LastIsNew<T>(s: seq<T>, x: T)
    requires s != [] && NoDuplicates(s)
    ensures x in s <==> (x in s[..|s| - 1] || x == s[|s| - 1])
    ensures s[|s| - 1] !in s[..|s| - 1]
  {
    assert s == s[..|s| - 1] + [s[|s| - 1]];
  }

  lemma {:induction false} PartCountsStep<T>(keys: seq<string>, s: seq<T>, x: T, keyOf: T -> string, p: T -> bool)
    requires NoDuplicates(keys)
    ensures Sum(PartCounts(keys, s + [x], keyOf, p))
         == Sum(PartCounts(keys, s, keyOf, p)) + if p(x) && keyOf(x) in keys then 1 else 0
  {
    if keys != [] {
      var front, last := keys[..|keys| - 1], keys[|keys| - 1];
      PartCountsStep(front, s, x, keyOf, p);
      OnePartStep(last, s, x, keyOf, p);
      SumPush(PartCounts(front, s, keyOf, p), Count(WithKey(s, keyOf, last), p));
      SumPush(PartCounts(front, s + [x], keyOf, p), Count(WithKey(s + [x], keyOf, last), p));
      LastIsNew(keys, keyOf(x));
    }
  }

  /** Grouping by key neither loses nor duplicates anything a count can see. */
  lemma {:induction false} PartitionCounts<T>(keys: seq<string>, s: seq<T>, keyOf: T -> string, p: T -> bool)
    requires NoDuplicates(keys) && forall x :: x in s ==> keyOf(x) in keys
    ensures Sum(PartCounts(keys, s, keyOf, p)) == Count(s, p)
  {
    if s == [] {
      EmptyPartCounts(keys, s, keyOf, p);
    } else {
      var n := |s| - 1;
      PartitionCounts(keys, s[..n], keyOf, p);
      PartCountsStep(keys, s[..n], s[n], keyOf, p);
      assert s == s[..n] + [s[n]];
    }
  }

  lemma {:induction false} EmptyPartCounts<T>(keys: seq<string>, s: seq<T>, keyOf: T -> string, p: T -> bool)
    requires s == []
    ensures Sum(PartCounts(keys, s, keyOf, p)) == 0
  {
    if keys != [] {
      EmptyPartCounts(keys[..|keys| - 1], s, keyOf, p);
    }
  }
}
