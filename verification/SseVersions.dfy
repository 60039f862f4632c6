/** The version numbers of main-state events, shared by all SSE clients (crates/niuma-api/src/sse.rs).

    Each client decides on its own whether a content is new to it, and only afterwards takes the broadcaster's
    lock to get a version; the two steps of different clients interleave freely. */
module SseVersions {
  import opened Wrappers

  datatype Broadcaster = Broadcaster(version: nat, lastContent: Option<string>)

  const INITIAL: Broadcaster := Broadcaster(0, None)

  function Versioned(b: Broadcaster, content: string): Broadcaster {
    if b.lastContent == Some(content) then b else Broadcaster(b.version + 1, Some(content))
  }

  predicate ShouldSend(lastContent: Option<string>, content: string, force: bool) {
    force || lastContent != Some(content)
  }

  class MainStateBroadcaster {
    var version: nat
    var lastContent: Option<string>

    function State(): Broadcaster
      reads this
    {
      Broadcaster(version, lastContent)
    }

    constructor ()
      ensures State() == INITIAL
    {
      version, lastContent := 0, None;
    }

    method VersionForContent(content: string) returns (result: nat)
      modifies this
      ensures State() == Versioned(old(State()), content)
      ensures result == version && lastContent == Some(content)
      ensures version == if old(lastContent) == Some(content) then old(version) else old(version) + 1
    {
      if lastContent != Some(content) {
        version := version + 1;
        lastContent := Some(content);
      }
      result := version;
    }
  }

  class MainStateClient {
    var lastContent: Option<string>

    constructor ()
      ensures lastContent == None
    {
      lastContent := None;
    }

    method DecideToSend(content: string, force: bool) returns (send: bool)
      modifies this
      ensures send <==> force || old(lastContent) != Some(content)
      ensures lastContent == Some(content)
    {
      if !force && lastContent == Some(content) {
        return false;
      }
      lastContent := Some(content);
      send := true;
    }
  }

  // ---------------------------------------------------------------------------------------------
  // Runs
  // ---------------------------------------------------------------------------------------------

  /** A connected client: what it last decided to send, and the content it still has to get a version for. */
  datatype Client = Client(lastContent: Option<string>, pending: Option<string>)

  datatype Sent = Sent(client: nat, version: nat, content: string)

  datatype World = World(broadcaster: Broadcaster, clients: map<nat, Client>, log: seq<Sent>)

  datatype Step =
    | Connect(client: nat)
    | Decide(client: nat, content: string)
    | Stamp(client: nat, delivered: bool)

  const START: World := World(INITIAL, map[], [])

  /** The first event of a connection is forced; a client decides again only after its last decision was
      stamped. A stamped event may still be lost before it is delivered. */
  ghost predicate Enabled(w: World, step: Step) {
    match step
    case Connect(c) => c !in w.clients
    case Decide(c, _) => c in w.clients && w.clients[c].pending.None?
    case Stamp(c, _) => c in w.clients && w.clients[c].pending.Some?
  }

  function Next(w: World, step: Step): World {
    match step
    case Connect(c) => w.(clients := w.clients[c := Client(None, None)])
    case Decide(c, content) =>
      if c in w.clients && ShouldSend(w.clients[c].lastContent, content, w.clients[c].lastContent.None?)
      then w.(clients := w.clients[c := Client(Some(content), Some(content))]) else w
    case Stamp(c, delivered) =>
      if c in w.clients && w.clients[c].pending.Some? then
        var content := w.clients[c].pending.value;
        var b := Versioned(w.broadcaster, content);
        World(b, w.clients[c := w.clients[c].(pending := None)],
              if delivered then w.log + [Sent(c, b.version, content)] else w.log)
      else w
  }

  ghost predicate IsRun(steps: seq<Step>) {
    forall i :: 0 <= i < |steps| ==> Enabled(After(steps[..i]), steps[i])
  }

  function After(steps: seq<Step>): World {
    if steps == [] then START else Next(After(steps[..|steps| - 1]), steps[|steps| - 1])
  }

  /** The current version stands for the broadcaster's current content, in every event that carries it. */
  ghost predicate CurrentContent(w: World) {
    forall k :: 0 <= k < |w.log| ==>
      w.log[k].version <= w.broadcaster.version
      && (w.log[k].version == w.broadcaster.version ==> w.broadcaster.lastContent == Some(w.log[k].content))
  }

  /** A client that was sent the current version already is not about to be sent it again. */
  ghost predicate NotAgain(w: World, e: Sent) {
    && e.client in w.clients
    && (e.version == w.broadcaster.version ==>
          if w.clients[e.client].pending.None? then w.clients[e.client].lastContent == Some(e.content)
          else w.clients[e.client].pending != Some(e.content))
  }

  ghost predicate Fresh(w: World) {
    && (forall k :: 0 <= k < |w.log| ==> NotAgain(w, w.log[k]))
    && (forall c :: c in w.clients && w.clients[c].pending.Some? ==> w.clients[c].lastContent == w.clients[c].pending)
  }

  ghost predicate LogOrdered(log: seq<Sent>) {
    forall i, j :: 0 <= i < j < |log| ==>
      && log[i].version <= log[j].version
      && (log[i].client == log[j].client ==> log[i].version < log[j].version)
      && (log[i].version == log[j].version ==> log[i].content == log[j].content)
  }

  ghost predicate Inv(w: World) {
    CurrentContent(w) && Fresh(w) && LogOrdered(w.log)
  }

  lemma {:induction false} StampKeepsInv(w: World, c: nat, delivered: bool)
    requires Inv(w) && Enabled(w, Stamp(c, delivered))
    ensures Inv(Next(w, Stamp(c, delivered)))
  {
    var n := Next(w, Stamp(c, delivered));
    forall k | 0 <= k < |n.log| ensures NotAgain(n, n.log[k]) {
      if k < |w.log| {
        assert NotAgain(w, w.log[k]);
      }
    }
  }

  lemma {:induction false} ClientStepKeepsInv(w: World, step: Step)
    requires Inv(w) && Enabled(w, step) && !step.Stamp?
    ensures Inv(Next(w, step))
  {
    var n := Next(w, step);
    forall k | 0 <= k < |n.log| ensures NotAgain(n, n.log[k]) {
      assert NotAgain(w, w.log[k]);
    }
  }

  lemma {:induction false} RunKeepsInv(steps: seq<Step>)
    requires IsRun(steps)
    ensures Inv(After(steps))
  {
    if steps != [] {
      var n := |steps| - 1;
      assert forall i :: 0 <= i < n ==> steps[..n][i] == steps[i] && steps[..n][..i] == steps[..i];
      RunKeepsInv(steps[..n]);
      var w, step := After(steps[..n]), steps[n];
      if step.Stamp? {
        StampKeepsInv(w, step.client, step.delivered);
      } else {
        ClientStepKeepsInv(w, step);
      }
    }
  }

  /** For any number of clients and any interleaving, the versions one client is sent strictly increase. */
  lemma {:induction false} VersionsIncreasePerClient(steps: seq<Step>, i: nat, j: nat)
    requires IsRun(steps) && i < j < |After(steps).log|
    requires After(steps).log[i].client == After(steps).log[j].client
    ensures After(steps).log[i].version < After(steps).log[j].version
  {
    RunKeepsInv(steps);
  }

  /** Events with the same version, even to different clients, carry the same content. */
  lemma {:induction false} SameVersionSameContent(steps: seq<Step>, i: nat, j: nat)
    requires IsRun(steps) && i < |After(steps).log| && j < |After(steps).log|
    requires After(steps).log[i].version == After(steps).log[j].version
    ensures After(steps).log[i].content == After(steps).log[j].content
  {
    RunKeepsInv(steps);
    if i != j {
      var a, b := if i < j then i else j, if i < j then j else i;
      assert After(steps).log[a].content == After(steps).log[b].content;
    }
  }

  // ---------------------------------------------------------------------------------------------
  // Nothing new is kept from a client
  // ---------------------------------------------------------------------------------------------

  predicate Concerns(step: Step, c: nat) {
    step.client == c
  }

  /** The content a client last decided on since it connected. */
  function LastDecided(steps: seq<Step>, c: nat): Option<string> {
    if steps == [] then None
    else
      var last := steps[|steps| - 1];
      if last.Decide? && last.client == c then Some(last.content)
      else if last.Connect? && last.client == c then None
      else LastDecided(steps[..|steps| - 1], c)
  }

  lemma {:induction false} PrefixIsRun(steps: seq<Step>, n: nat)
    requires IsRun(steps) && n <= |steps|
    ensures IsRun(steps[..n])
  {
    assert forall i :: 0 <= i < n ==> steps[..n][i] == steps[i] && steps[..n][..i] == steps[..i];
  }

  /** A client remembers exactly the last content it decided on. */
  lemma {:induction false} RemembersLast(steps: seq<Step>, c: nat)
    requires IsRun(steps) && c in After(steps).clients
    ensures After(steps).clients[c].lastContent == LastDecided(steps, c)
  {
    var n := |steps| - 1;
    PrefixIsRun(steps, n);
    assert Enabled(After(steps[..n]), steps[n]);
    if c in After(steps[..n]).clients {
      RemembersLast(steps[..n], c);
    }
  }

  lemma {:induction false} OtherLeavesClient(w: World, step: Step, c: nat)
    requires c in w.clients && !Concerns(step, c)
    ensures c in Next(w, step).clients && Next(w, step).clients[c] == w.clients[c]
  {}

  lemma {:induction false} OthersLeaveClient(steps: seq<Step>, from: nat, to: nat, c: nat)
    requires IsRun(steps) && from <= to <= |steps| && c in After(steps[..from]).clients
    requires forall i :: from <= i < to ==> !Concerns(steps[i], c)
    ensures c in After(steps[..to]).clients && After(steps[..to]).clients[c] == After(steps[..from]).clients[c]
  {
    if from < to {
      OthersLeaveClient(steps, from, to - 1, c);
      assert steps[..to][..to - 1] == steps[..to - 1];
      OtherLeavesClient(After(steps[..to - 1]), steps[to - 1], c);
    }
  }

  /** Over every run: a client that decides on a content has an event to stamp exactly when the content is not the one
      it decided on last. */
  lemma {:induction false} NewContentIsPending(steps: seq<Step>, k: nat)
    requires IsRun(steps) && k < |steps| && steps[k].Decide?
    ensures steps[k].client in After(steps[..k + 1]).clients
    ensures After(steps[..k + 1]).clients[steps[k].client].pending
         == if LastDecided(steps[..k], steps[k].client) == Some(steps[k].content) then None else Some(steps[k].content)
  {
    PrefixIsRun(steps, k);
    assert steps[..k + 1][..k] == steps[..k];
    assert Enabled(After(steps[..k]), steps[k]);
    RemembersLast(steps[..k], steps[k].client);
  }

  lemma {:induction false} StampSends(w: World, c: nat, content: string)
    requires c in w.clients && w.clients[c].pending == Some(content)
    ensures var n := Next(w, Stamp(c, true));
      n.log == w.log + [Sent(c, n.broadcaster.version, content)] && n.broadcaster.lastContent == Some(content)
  {}

  lemma {:induction false} AfterNext(steps: seq<Step>, m: nat)
    requires m < |steps|
    ensures After(steps[..m + 1]) == Next(After(steps[..m]), steps[m])
  {
    assert steps[..m + 1][..m] == steps[..m];
  }

  lemma {:induction false} StillPending(steps: seq<Step>, k: nat, m: nat)
    requires IsRun(steps) && k < m < |steps| && steps[k].Decide?
    requires steps[m].Stamp? && steps[m].client == steps[k].client
    requires forall i :: k < i < m ==> !Concerns(steps[i], steps[k].client)
    ensures LastDecided(steps[..k], steps[k].client) != Some(steps[k].content)
    ensures steps[k].client in After(steps[..m]).clients
    ensures After(steps[..m]).clients[steps[k].client].pending == Some(steps[k].content)
  {
    assert Enabled(After(steps[..m]), steps[m]);
    NewContentIsPending(steps, k);
    OthersLeaveClient(steps, k + 1, m, steps[k].client);
  }

  /** And the next time it stamps, however other clients come between, that content is sent with the version that the
      broadcaster then holds for it. */
  lemma {:induction false} NewContentIsSent(steps: seq<Step>, k: nat, m: nat)
    requires IsRun(steps) && k < m < |steps| && steps[k].Decide? && steps[m] == Stamp(steps[k].client, true)
    requires forall i :: k < i < m ==> !Concerns(steps[i], steps[k].client)
    ensures LastDecided(steps[..k], steps[k].client) != Some(steps[k].content)
    ensures var w := After(steps[..m + 1]);
      && w.log == After(steps[..m]).log + [Sent(steps[k].client, w.broadcaster.version, steps[k].content)]
      && w.broadcaster.lastContent == Some(steps[k].content)
  {
    StillPending(steps, k, m);
    AfterNext(steps, m);
    StampSends(After(steps[..m]), steps[k].client, steps[k].content);
  }
}
