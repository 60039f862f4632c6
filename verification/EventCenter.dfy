/** The event center's connection, a state machine driven by its owner, by two asynchronous results and by the
    callbacks of event sources (src/eventCenterRuntime.ts). */
module EventCenter {
  import opened Wrappers
  import Text

  datatype Event = Event(id: string, body: string)

  /** The closure variables of the runtime, and what exists outside it: the event sources created so far, which
      of them were closed, and the `connect` calls still waiting for the API address. */
  datatype State = State(
    events: seq<Event>,
    expanded: set<string>,
    source: Option<nat>,
    generation: nat,
    connected: bool,
    connecting: bool,
    errorText: string,
    created: map<nat, nat>,
    closed: set<nat>,
    waiting: multiset<nat>)

  const INITIAL: State := State([], {}, None, 0, false, false, "", map[], {}, multiset{})

  /** What can happen next. `active` is what the page reports when the step looks; sources carry the generation
      of the `connect` call that made them. */
  datatype Step =
    | Start(active: bool)
    | Stop
    | Toggle(id: string)
    | GotUrl(generation: nat, source: nat, activeBefore: bool, activeAfter: bool)
    | Failed(generation: nat, error: string, active: bool)
    | Opened(source: nat, active: bool)
    | Message(source: nat, data: Option<Event>, error: string, active: bool)
    | Errored(source: nat, text: string, active: bool)

  ghost predicate Enabled(s: State, step: Step) {
    match step
    case GotUrl(g, source, _, _) => g in s.waiting && source !in s.created
    case Failed(g, _, _) => g in s.waiting
    case Opened(source, _) => source in s.created
    case Message(source, _, _, _) => source in s.created
    case Errored(source, _, _) => source in s.created
    case _ => true
  }

  predicate IsCurrent(s: State, generation: nat, active: bool) {
    generation == s.generation && active
  }

  predicate IsCurrentSource(s: State, source: nat, active: bool) {
    source in s.created && IsCurrent(s, s.created[source], active) && s.source == Some(source)
  }

  predicate Holds(events: seq<Event>, id: string) {
    exists i | 0 <= i < |events| :: events[i].id == id
  }

  /** `appendEvent`: a payload that cannot be read sets the error text, a repeated id only clears it. */
  function Append(s: State, data: Option<Event>, error: string): State {
    match data
    case None => s.(errorText := error)
    case Some(event) =>
      if Holds(s.events, event.id) then s.(errorText := "")
      else s.(events := s.events + [event], errorText := "")
  }

  function StartStep(s: State, active: bool): State {
    if s.source.Some? || s.connecting || !active then s
    else
      s.(generation := s.generation + 1, events := [], expanded := {}, connected := false, connecting := true,
         errorText := "", waiting := s.waiting + multiset{s.generation + 1})
  }

  function StopStep(s: State): State {
    s.(generation := s.generation + 1, closed := s.closed + (if s.source.Some? then {s.source.value} else {}),
       source := None, connected := false, connecting := false, errorText := "")
  }

  /** The address arrived. Creating the source may itself change whether the page is active. */
  function GotUrlStep(s: State, generation: nat, source: nat, before: bool, after: bool): State {
    var resumed := s.(waiting := s.waiting - multiset{generation});
    if !IsCurrent(s, generation, before) then resumed
    else
      var made := resumed.(created := s.created[source := generation]);
      if !IsCurrent(s, generation, after) then made.(closed := s.closed + {source}) else made.(source := Some(source))
  }

  function Next(s: State, step: Step): State {
    match step
    case Start(active) => StartStep(s, active)
    case Stop => StopStep(s)
    case Toggle(id) => s.(expanded := if id in s.expanded then s.expanded - {id} else s.expanded + {id})
    case GotUrl(g, source, before, after) => GotUrlStep(s, g, source, before, after)
    case Failed(g, error, active) =>
      var resumed := s.(waiting := s.waiting - multiset{g});
      if !IsCurrent(s, g, active) then resumed
      else resumed.(connected := false, connecting := false, errorText := error)
    case Opened(source, active) =>
      if !IsCurrentSource(s, source, active) then s else s.(connected := true, connecting := false, errorText := "")
    case Message(source, data, error, active) =>
      if !IsCurrentSource(s, source, active) then s else Append(s, data, error)
    case Errored(source, text, active) =>
      if !IsCurrentSource(s, source, active) then s else s.(connected := false, connecting := false, errorText := text)
  }

  // ---------------------------------------------------------------------------------------------
  // Runs
  // ---------------------------------------------------------------------------------------------

  function After(steps: seq<Step>): State {
    if steps == [] then INITIAL else Next(After(steps[..|steps| - 1]), steps[|steps| - 1])
  }

  ghost predicate IsRun(steps: seq<Step>) {
    forall i :: 0 <= i < |steps| ==> Enabled(After(steps[..i]), steps[i])
  }

  ghost predicate DistinctIds(events: seq<Event>) {
    forall i, j :: 0 <= i < j < |events| ==> events[i].id != events[j].id
  }

  /** A source is either the current one, of the current generation, or closed, and never both. */
  ghost predicate SourcesAccounted(s: State) {
    && (forall x :: x in s.created ==> (s.source == Some(x) <==> x !in s.closed))
    && (s.source.Some? ==> s.source.value in s.created && s.created[s.source.value] == s.generation)
    && (forall x :: x in s.closed ==> x in s.created)
  }

  /** At most one connection attempt of the current generation, and none beside an open source. */
  ghost predicate AttemptsAccounted(s: State) {
    && (forall g :: g in s.waiting ==> g <= s.generation)
    && (forall x :: x in s.created ==> s.created[x] <= s.generation)
    && s.waiting[s.generation] <= 1
    && (s.source.Some? ==> s.generation !in s.waiting)
  }

  ghost predicate FlagsAccounted(s: State) {
    && (s.connected ==> s.source.Some? && !s.connecting)
    && (s.generation in s.waiting ==> s.connecting)
  }

  ghost predicate Inv(s: State) {
    SourcesAccounted(s) && AttemptsAccounted(s) && FlagsAccounted(s) && DistinctIds(s.events)
  }

  lemma {:induction false} OwnerStepKeepsInv(s: State, step: Step)
    requires Inv(s) && (step.Start? || step.Stop? || step.Toggle?)
    ensures Inv(Next(s, step))
  {}

  lemma {:induction false} ResumeKeepsInv(s: State, step: Step)
    requires Inv(s) && Enabled(s, step) && (step.GotUrl? || step.Failed?)
    ensures Inv(Next(s, step))
  {}

  lemma {:induction false} CallbackKeepsInv(s: State, step: Step)
    requires Inv(s) && Enabled(s, step) && (step.Opened? || step.Message? || step.Errored?)
    ensures Inv(Next(s, step))
  {}

  lemma {:induction false} StepKeepsInv(s: State, step: Step)
    requires Inv(s) && Enabled(s, step)
    ensures Inv(Next(s, step))
  {
    if step.GotUrl? || step.Failed? {
      ResumeKeepsInv(s, step);
    } else if step.Start? || step.Stop? || step.Toggle? {
      OwnerStepKeepsInv(s, step);
    } else {
      CallbackKeepsInv(s, step);
    }
  }

  lemma {:induction false} RunKeepsInv(steps: seq<Step>)
    requires IsRun(steps)
    ensures Inv(After(steps))
  {
    if steps != [] {
      var n := |steps| - 1;
      assert forall i :: 0 <= i < n ==> steps[..n][i] == steps[i] && steps[..n][..i] == steps[..i];
      RunKeepsInv(steps[..n]);
      StepKeepsInv(After(steps[..n]), steps[n]);
    }
  }

  /** Under every ordering, no source is leaked: each one ever created is the current one or closed. */
  lemma {:induction false} NoSourceLeaks(steps: seq<Step>, source: nat)
    requires IsRun(steps) && source in After(steps).created
    ensures After(steps).source == Some(source) <==> source !in After(steps).closed
  {
    RunKeepsInv(steps);
  }

  /** `connected` means a current, open source and no connection attempt. */
  lemma {:induction false} ConnectedMeansSource(steps: seq<Step>)
    requires IsRun(steps) && After(steps).connected
    ensures var s := After(steps);
      !s.connecting && s.source.Some? && s.source.value !in s.closed && s.generation !in s.waiting
  {
    RunKeepsInv(steps);
  }

  lemma {:induction false} EventIdsDistinct(steps: seq<Step>, i: nat, j: nat)
    requires IsRun(steps) && i < j < |After(steps).events|
    ensures After(steps).events[i].id != After(steps).events[j].id
  {
    RunKeepsInv(steps);
  }

  // ---------------------------------------------------------------------------------------------
  // The list of events
  // ---------------------------------------------------------------------------------------------

  /** A start that takes effect: it begins a new list. */
  predicate BeginsList(s: State, step: Step) {
    step.Start? && step.active && s.source.None? && !s.connecting
  }

  /** The readable event that the current source's callback hands over in this step, if it does. */
  function Arriving(s: State, step: Step): seq<Event> {
    if step.Message? && step.data.Some? && IsCurrentSource(s, step.source, step.active) then [step.data.value] else []
  }

  /** All that arrived since the last start that took effect, repeated ids included. */
  function Arrived(steps: seq<Step>): seq<Event> {
    if steps == [] then []
    else
      var n := |steps| - 1;
      var s := After(steps[..n]);
      if BeginsList(s, steps[n]) then [] else Arrived(steps[..n]) + Arriving(s, steps[n])
  }

  /** The events that no earlier one shares its id with. */
  function FirstOfEachId(events: seq<Event>): seq<Event> {
    if events == [] then []
    else
      var n := |events| - 1;
      FirstOfEachId(events[..n]) + if Holds(events[..n], events[n].id) then [] else [events[n]]
  }

  lemma {:induction false} HoldsSome(events: seq<Event>, id: string)
    ensures Holds(events, id) <==> exists e :: e in events && e.id == id
  {
    if e :| e in events && e.id == id {
      var i :| 0 <= i < |events| && events[i] == e;
    }
  }

  lemma {:induction false} SameIds(events: seq<Event>, id: string)
    ensures Holds(FirstOfEachId(events), id) <==> Holds(events, id)
  {
    if events != [] {
      var n := |events| - 1;
      SameIds(events[..n], id);
      SameIds(events[..n], events[n].id);
      assert events == events[..n] + [events[n]];
      HoldsSome(events, id);
      HoldsSome(events[..n], id);
      HoldsSome(FirstOfEachId(events[..n]), id);
      HoldsSome(FirstOfEachId(events), id);
    }
  }

  predicate IsFirstOfItsId(events: seq<Event>, i: nat) {
    i < |events| && !Holds(events[..i], events[i].id)
  }

  lemma {:induction false} FirstInPrefix(events: seq<Event>, n: nat, i: nat)
    requires i < n <= |events|
    ensures IsFirstOfItsId(events[..n], i) == IsFirstOfItsId(events, i)
  {
    Text.PrefixOfPrefix(events, n, i);
  }

  function FirstPositions(events: seq<Event>): (at: seq<nat>)
    ensures |at| == |FirstOfEachId(events)|
  {
    if events == [] then []
    else
      var n := |events| - 1;
      FirstPositions(events[..n]) + if Holds(events[..n], events[n].id) then [] else [n]
  }

  lemma {:induction false} FirstPositionsMember(events: seq<Event>, i: nat)
    ensures i in FirstPositions(events) <==> IsFirstOfItsId(events, i)
  {
    if events != [] {
      var n := |events| - 1;
      FirstPositionsMember(events[..n], i);
      if i < n {
        FirstInPrefix(events, n, i);
      }
    }
  }

  ghost predicate AreAt(values: seq<Event>, events: seq<Event>, at: seq<nat>) {
    && |values| == |at|
    && (forall k :: 0 <= k < |at| ==> at[k] < |events| && values[k] == events[at[k]])
    && (forall j, k :: 0 <= j < k < |at| ==> at[j] < at[k])
  }

  lemma {:induction false} AreAtMore(values: seq<Event>, events: seq<Event>, at: seq<nat>)
    requires events != [] && AreAt(values, events[..|events| - 1], at)
    ensures AreAt(values + [], events, at + [])
    ensures AreAt(values + [events[|events| - 1]], events, at + [|events| - 1])
  {}

  lemma {:induction false} FirstPositionsRise(events: seq<Event>)
    ensures AreAt(FirstOfEachId(events), events, FirstPositions(events))
  {
    if events != [] {
      var earlier := events[..|events| - 1];
      FirstPositionsRise(earlier);
      AreAtMore(FirstOfEachId(earlier), events, FirstPositions(earlier));
    }
  }

  /** What `FirstOfEachId` keeps, and in which order: exactly the positions at which an id occurs for the first
      time, from front to back. */
  lemma {:induction false} FirstOccurrences(events: seq<Event>)
    ensures var at := FirstPositions(events);
      && AreAt(FirstOfEachId(events), events, at) && forall i :: i in at <==> IsFirstOfItsId(events, i)
  {
    FirstPositionsRise(events);
    forall i: nat ensures i in FirstPositions(events) <==> IsFirstOfItsId(events, i) {
      FirstPositionsMember(events, i);
    }
  }

  lemma {:induction false} NextEvents(s: State, step: Step)
    ensures BeginsList(s, step) ==> Next(s, step).events == []
    ensures !BeginsList(s, step) && Arriving(s, step) == [] ==> Next(s, step).events == s.events
    ensures !BeginsList(s, step) && Arriving(s, step) != [] ==>
      Next(s, step).events == s.events + if Holds(s.events, Arriving(s, step)[0].id) then [] else Arriving(s, step)
  {}

  /** In every run, the list shown is what the current sources handed over since the last start that took effect:
      the first event of each id, in arrival order, and no other. */
  lemma {:induction false} EventsInArrivalOrder(steps: seq<Step>)
    ensures After(steps).events == FirstOfEachId(Arrived(steps))
  {
    if steps != [] {
      var n := |steps| - 1;
      var s, earlier := After(steps[..n]), Arrived(steps[..n]);
      EventsInArrivalOrder(steps[..n]);
      NextEvents(s, steps[n]);
      if !BeginsList(s, steps[n]) && Arriving(s, steps[n]) != [] {
        SameIds(earlier, Arriving(s, steps[n])[0].id);
        assert Arrived(steps)[..|earlier|] == earlier;
      } else if !BeginsList(s, steps[n]) {
        assert Arrived(steps) == earlier;
      }
    }
  }

  predicate BeginsListAt(steps: seq<Step>, i: nat)
    requires i < |steps|
  {
    BeginsList(After(steps[..i]), steps[i])
  }

  lemma {:induction false} BeginsInPrefix(steps: seq<Step>, n: nat, i: nat)
    requires i < n <= |steps|
    ensures BeginsListAt(steps[..n], i) == BeginsListAt(steps, i)
  {
    Text.PrefixOfPrefix(steps, n, i);
  }

  /** Nothing but a start that takes effect removes an event. */
  lemma {:induction false} OnlyStartEmpties(steps: seq<Step>, from: nat)
    requires from <= |steps| && forall i :: from <= i < |steps| ==> !BeginsListAt(steps, i)
    ensures After(steps[..from]).events <= After(steps).events
  {
    if from == |steps| {
      assert steps[..from] == steps;
    } else {
      var n := |steps| - 1;
      forall i | from <= i < n ensures !BeginsListAt(steps[..n], i) {
        BeginsInPrefix(steps, n, i);
      }
      Text.PrefixOfPrefix(steps, n, from);
      OnlyStartEmpties(steps[..n], from);
      assert !BeginsListAt(steps, n);
      NextEvents(After(steps[..n]), steps[n]);
    }
  }

  /** The visible part: everything but the bookkeeping of sources and pending attempts. */
  function Visible(s: State): (seq<Event>, set<string>, Option<nat>, nat, bool, bool, string) {
    (s.events, s.expanded, s.source, s.generation, s.connected, s.connecting, s.errorText)
  }

  function GenerationOf(s: State, step: Step): Option<nat> {
    match step
    case GotUrl(g, _, _, _) => Some(g)
    case Failed(g, _, _) => Some(g)
    case Opened(source, _) => if source in s.created then Some(s.created[source]) else None
    case Message(source, _, _, _) => if source in s.created then Some(s.created[source]) else None
    case Errored(source, _, _) => if source in s.created then Some(s.created[source]) else None
    case _ => None
  }

  /** Whatever arrives late from an earlier generation changes nothing one can see, and a source made for it is
      never left open. */
  lemma {:induction false} OldGenerationIsInert(s: State, step: Step)
    requires Enabled(s, step) && GenerationOf(s, step).Some? && GenerationOf(s, step).value != s.generation
    ensures Visible(Next(s, step)) == Visible(s)
    ensures Next(s, step).created == s.created && Next(s, step).closed == s.closed
  {}

  // ---------------------------------------------------------------------------------------------
  // A stalled connection
  // ---------------------------------------------------------------------------------------------

  /** `connecting` is set, but neither an attempt nor a source is left that could clear it. */
  ghost predicate Stalled(s: State) {
    s.connecting && s.source.None? && s.generation !in s.waiting
  }

  /** The current attempt resumes while the page reports itself inactive. */
  predicate ResumesInactive(s: State, step: Step) {
    match step
    case GotUrl(g, _, before, after) => g == s.generation && !(before && after)
    case Failed(g, _, active) => g == s.generation && !active
    case _ => false
  }

  /** A connection stalls exactly when its attempt resumes on an inactive page that was never stopped. */
  lemma {:induction false} StallsWhenInactive(s: State, step: Step)
    requires Inv(s) && !Stalled(s) && Enabled(s, step)
    ensures Stalled(Next(s, step)) <==> ResumesInactive(s, step)
  {}

  /** A stalled connection stays as it is, further starts included, until it is stopped. */
  lemma {:induction false} StalledUntilStopped(s: State, step: Step)
    requires Inv(s) && Stalled(s) && Enabled(s, step)
    ensures Stalled(Next(s, step)) <==> !step.Stop?
    ensures !step.Stop? && !step.Toggle? ==> Visible(Next(s, step)) == Visible(s)
  {}

  /** Such a run: the page is left without a stop before the address arrives, and then started again. */
  lemma {:induction false} StallReached()
    ensures var s := Next(Next(INITIAL, Start(true)), GotUrl(1, 0, false, false));
      Inv(s) && Stalled(s) && Visible(Next(s, Start(true))) == Visible(s)
  {
    StepKeepsInv(INITIAL, Start(true));
    var s := Next(INITIAL, Start(true));
    StepKeepsInv(s, GotUrl(1, 0, false, false));
  }

  ghost predicate AllOld(s: State) {
    && (forall g :: g in s.waiting ==> g < s.generation)
    && (forall x :: x in s.created ==> s.created[x] < s.generation)
  }

  lemma {:induction false} StopMakesOld(s: State)
    requires Inv(s)
    ensures AllOld(Next(s, Stop))
  {}

  lemma {:induction false} StepStaysOld(s: State, step: Step)
    requires AllOld(s) && Enabled(s, step) && !step.Start? && !step.Toggle? && !step.Stop?
    ensures AllOld(Next(s, step)) && Visible(Next(s, step)) == Visible(s)
  {}

  lemma {:induction false} PrefixIsRun(steps: seq<Step>, n: nat)
    requires IsRun(steps) && n <= |steps|
    ensures IsRun(steps[..n])
  {
    assert forall i :: 0 <= i < n ==> steps[..n][i] == steps[i] && steps[..n][..i] == steps[..i];
  }

  /** The states a run goes through. */
  ghost predicate IsTrace(states: seq<State>, steps: seq<Step>) {
    && |states| == |steps| + 1
    && forall n {:trigger steps[n]} :: 0 <= n < |steps| ==>
      Enabled(states[n], steps[n]) && states[n + 1] == Next(states[n], steps[n])
  }

  lemma {:induction false} TraceOf(steps: seq<Step>) returns (states: seq<State>)
    requires IsRun(steps)
    ensures IsTrace(states, steps) && forall n :: 0 <= n <= |steps| ==> states[n] == After(steps[..n])
  {
    states := seq(|steps| + 1, n requires 0 <= n <= |steps| => After(steps[..n]));
    forall n | 0 <= n < |steps| ensures states[n + 1] == Next(states[n], steps[n]) {
      assert steps[..n + 1][..n] == steps[..n];
    }
  }

  lemma {:induction false} StaysOld(states: seq<State>, steps: seq<Step>, from: nat, to: nat)
    requires IsTrace(states, steps) && from <= to < |states| && AllOld(states[from])
    requires forall i :: from <= i < to ==> !steps[i].Start? && !steps[i].Toggle? && !steps[i].Stop?
    ensures AllOld(states[to]) && Visible(states[to]) == Visible(states[from])
  {
    if from < to {
      StaysOld(states, steps, from, to - 1);
      StepStaysOld(states[to - 1], steps[to - 1]);
    }
  }

  /** Once stopped, nothing but a start, a stop or a toggle shows anything again, whatever arrives late. */
  lemma {:induction false} StoppedStays(steps: seq<Step>, stop: nat)
    requires IsRun(steps) && stop < |steps| && steps[stop].Stop?
    requires forall i :: stop < i < |steps| ==> !steps[i].Start? && !steps[i].Toggle? && !steps[i].Stop?
    ensures Visible(After(steps)) == Visible(After(steps[..stop + 1]))
  {
    var states := TraceOf(steps);
    PrefixIsRun(steps, stop);
    RunKeepsInv(steps[..stop]);
    StopMakesOld(states[stop]);
    StaysOld(states, steps, stop + 1, |steps|);
    assert steps[..|steps|] == steps;
  }

  // ---------------------------------------------------------------------------------------------
  // What the flags and the text tell of a run
  // ---------------------------------------------------------------------------------------------

  /** A callback counts when its source is the current one and the page is active. */
  predicate Counts(s: State, source: nat, active: bool) {
    s.source == Some(source) && active
  }

  predicate OpensAt(s: State, step: Step) { step.Opened? && Counts(s, step.source, step.active) }

  predicate DropsAt(s: State, step: Step) { step.Errored? && Counts(s, step.source, step.active) }

  /** The current attempt fails on an active page. */
  predicate FailsAt(s: State, step: Step) { step.Failed? && step.generation == s.generation && step.active }

  /** The address arrives for the current attempt, and the page is active before and after its source is made. */
  predicate ConnectsAt(s: State, step: Step) {
    step.GotUrl? && step.generation == s.generation && step.activeBefore && step.activeAfter
  }

  lemma {:induction false} CountsIsCurrent(s: State, source: nat, active: bool)
    requires SourcesAccounted(s)
    ensures Counts(s, source, active) <==> IsCurrentSource(s, source, active)
  {}

  lemma {:induction false} FlagsNext(s: State, step: Step)
    requires Inv(s) && Enabled(s, step)
    ensures var n := Next(s, step);
      && (n.connected <==> OpensAt(s, step) || (s.connected && !step.Stop? && !DropsAt(s, step)))
      && (n.connecting <==>
            || BeginsList(s, step)
            || (s.connecting && !step.Stop? && !OpensAt(s, step) && !DropsAt(s, step) && !FailsAt(s, step)))
      && n.source == (if ConnectsAt(s, step) then Some(step.source) else if step.Stop? then None else s.source)
  {
    if step.Opened? || step.Errored? {
      CountsIsCurrent(s, step.source, step.active);
    }
  }

  predicate HappensAt(steps: seq<Step>, k: nat, happens: (State, Step) -> bool) {
    k < |steps| && happens(After(steps[..k]), steps[k])
  }

  lemma {:induction false} HappensInPrefix(steps: seq<Step>, n: nat, k: nat, happens: (State, Step) -> bool)
    requires k < n <= |steps|
    ensures HappensAt(steps[..n], k, happens) == HappensAt(steps, k, happens)
  {
    Text.PrefixOfPrefix(steps, n, k);
  }

  /** At position `k` of the run something happened that nothing has undone since. */
  ghost predicate Lasts(steps: seq<Step>, k: nat, happens: (State, Step) -> bool, undoes: (State, Step) -> bool) {
    HappensAt(steps, k, happens) && forall j :: k < j < |steps| ==> !HappensAt(steps, j, undoes)
  }

  lemma {:induction false} LastsNext(steps: seq<Step>, k: nat, happens: (State, Step) -> bool,
                                     undoes: (State, Step) -> bool)
    requires steps != []
    ensures var n := |steps| - 1;
      Lasts(steps, k, happens, undoes)
      <==> if k == n then HappensAt(steps, n, happens)
           else Lasts(steps[..n], k, happens, undoes) && !HappensAt(steps, n, undoes)
  {
    var n := |steps| - 1;
    if k < n {
      HappensInPrefix(steps, n, k, happens);
      forall j: nat | j < n ensures HappensAt(steps[..n], j, undoes) == HappensAt(steps, j, undoes) {
        HappensInPrefix(steps, n, j, undoes);
      }
    }
  }

  predicate StopsOrDrops(s: State, step: Step) { step.Stop? || DropsAt(s, step) }

  predicate SettlesAttempt(s: State, step: Step) {
    step.Stop? || OpensAt(s, step) || DropsAt(s, step) || FailsAt(s, step)
  }

  /** In every run: the center is connected exactly when its current source has opened and neither dropped nor been
      stopped since; it is connecting exactly when a start took effect and no opening, drop, failure or stop has
      settled it since. */
  lemma {:induction false} FlagsFollowRun(steps: seq<Step>)
    requires IsRun(steps)
    ensures After(steps).connected <==> exists k: nat :: Lasts(steps, k, OpensAt, StopsOrDrops)
    ensures After(steps).connecting <==> exists k: nat :: Lasts(steps, k, BeginsList, SettlesAttempt)
  {
    if steps != [] {
      var n := |steps| - 1;
      var s := After(steps[..n]);
      PrefixIsRun(steps, n);
      FlagsFollowRun(steps[..n]);
      RunKeepsInv(steps[..n]);
      FlagsNext(s, steps[n]);
      LastingNext(steps, OpensAt, StopsOrDrops);
      LastingNext(steps, BeginsList, SettlesAttempt);
    }
  }

  lemma {:induction false} LastingNext(steps: seq<Step>, happens: (State, Step) -> bool, undoes: (State, Step) -> bool)
    requires steps != []
    ensures var n := |steps| - 1;
      (exists k: nat :: Lasts(steps, k, happens, undoes))
      <==> || HappensAt(steps, n, happens)
           || ((exists k: nat :: Lasts(steps[..n], k, happens, undoes)) && !HappensAt(steps, n, undoes))
  {
    var n := |steps| - 1;
    forall k: nat ensures Lasts(steps, k, happens, undoes)
      <==> if k == n then HappensAt(steps, n, happens)
           else Lasts(steps[..n], k, happens, undoes) && !HappensAt(steps, n, undoes)
    {
      LastsNext(steps, k, happens, undoes);
    }
    if HappensAt(steps, n, happens) {
      assert Lasts(steps, n, happens, undoes);
    }
    if k: nat :| Lasts(steps[..n], k, happens, undoes) && !HappensAt(steps, n, undoes) {
      assert Lasts(steps, k, happens, undoes);
    }
  }

  predicate JustStops(s: State, step: Step) { step.Stop? }

  /** A source is current exactly when the address arrived for the attempt then current, on an active page, and nothing
      was stopped since. */
  lemma {:induction false} SourceFollowsRun(steps: seq<Step>)
    requires IsRun(steps)
    ensures After(steps).source.Some? <==> exists k: nat :: Lasts(steps, k, ConnectsAt, JustStops)
    ensures forall k: nat :: Lasts(steps, k, ConnectsAt, JustStops) ==> After(steps).source == Some(steps[k].source)
  {
    if steps != [] {
      var n := |steps| - 1;
      var s := After(steps[..n]);
      PrefixIsRun(steps, n);
      SourceFollowsRun(steps[..n]);
      RunKeepsInv(steps[..n]);
      FlagsNext(s, steps[n]);
      LastingNext(steps, ConnectsAt, JustStops);
      forall k: nat | Lasts(steps, k, ConnectsAt, JustStops) ensures After(steps).source == Some(steps[k].source) {
        LastsNext(steps, k, ConnectsAt, JustStops);
        assert ConnectsAt(s, steps[n]) ==> s.source.None?;
      }
    }
  }

  /** The text that a step puts up, if it does: a failure, a drop or an unreadable payload its own, and an effective
      start, a stop, an opening or a readable payload none. */
  function TextPutUp(s: State, step: Step): Option<string> {
    match step
    case Start(_) => if BeginsList(s, step) then Some("") else None
    case Stop => Some("")
    case Failed(_, error, _) => if FailsAt(s, step) then Some(error) else None
    case Opened(_, _) => if OpensAt(s, step) then Some("") else None
    case Errored(_, text, _) => if DropsAt(s, step) then Some(text) else None
    case Message(source, data, error, active) =>
      if Counts(s, source, active) then Some(if data.None? then error else "") else None
    case _ => None
  }

  lemma {:induction false} TextNext(s: State, step: Step)
    requires Inv(s) && Enabled(s, step)
    ensures Next(s, step).errorText == if TextPutUp(s, step).Some? then TextPutUp(s, step).value else s.errorText
  {
    if step.Opened? || step.Errored? || step.Message? {
      CountsIsCurrent(s, step.source, step.active);
    }
  }

  predicate PutsUp(s: State, step: Step) { TextPutUp(s, step).Some? }

  /** In every run the error text is the one put up last. */
  lemma {:induction false} TextFollowsRun(steps: seq<Step>)
    requires IsRun(steps)
    ensures (forall k: nat :: !Lasts(steps, k, PutsUp, PutsUp)) ==> After(steps).errorText == ""
    ensures forall k: nat :: Lasts(steps, k, PutsUp, PutsUp) ==>
      TextPutUp(After(steps[..k]), steps[k]) == Some(After(steps).errorText)
  {
    if steps != [] {
      var n := |steps| - 1;
      var s := After(steps[..n]);
      PrefixIsRun(steps, n);
      TextFollowsRun(steps[..n]);
      RunKeepsInv(steps[..n]);
      TextNext(s, steps[n]);
      LastingNext(steps, PutsUp, PutsUp);
      forall k: nat | Lasts(steps, k, PutsUp, PutsUp)
        ensures TextPutUp(After(steps[..k]), steps[k]) == Some(After(steps).errorText)
      {
        LastsNext(steps, k, PutsUp, PutsUp);
        if k < n {
          Text.PrefixOfPrefix(steps, n, k);
        }
      }
    }
  }

  /** Whether an event was toggled an odd number of times since the last start that took effect. */
  predicate ToggledOddly(steps: seq<Step>, id: string) {
    if steps == [] then false
    else
      var n := |steps| - 1;
      if BeginsList(After(steps[..n]), steps[n]) then false
      else if steps[n] == Step.Toggle(id) then !ToggledOddly(steps[..n], id)
      else ToggledOddly(steps[..n], id)
  }

  lemma {:induction false} ExpandedNext(s: State, step: Step, id: string)
    ensures id in Next(s, step).expanded
       <==> !BeginsList(s, step) && (if step == Step.Toggle(id) then id !in s.expanded else id in s.expanded)
  {}

  /** An event is expanded exactly then. */
  lemma {:induction false} ExpandedFollowsRun(steps: seq<Step>, id: string)
    ensures id in After(steps).expanded <==> ToggledOddly(steps, id)
  {
    if steps != [] {
      var n := |steps| - 1;
      ExpandedFollowsRun(steps[..n], id);
      ExpandedNext(After(steps[..n]), steps[n], id);
    }
  }

  // ---------------------------------------------------------------------------------------------
  // The runtime
  // ---------------------------------------------------------------------------------------------

  class EventCenterRuntime {
    var events: seq<Event>
    var expandedEventIds: set<string>
    var source: Option<nat>
    var generation: nat
    var connected: bool
    var connecting: bool
    var errorText: string
    ghost var created: map<nat, nat>
    ghost var closed: set<nat>
    ghost var waiting: multiset<nat>

    ghost function Value(): State
      reads this
    {
      State(events, expandedEventIds, source, generation, connected, connecting, errorText, created, closed, waiting)
    }

    ghost predicate Valid()
      reads this
    {
      Inv(Value())
    }

    constructor ()
      ensures Valid() && Value() == INITIAL
    {
      events, expandedEventIds, source, generation := [], {}, None, 0;
      connected, connecting, errorText := false, false, "";
      created, closed, waiting := map[], {}, multiset{};
    }

    method Start(active: bool)
      requires Valid()
      modifies this
      ensures Valid() && Value() == Next(old(Value()), Step.Start(active))
    {
      StepKeepsInv(Value(), Step.Start(active));
      if source.Some? || connecting || !active {
        return;
      }
      generation := generation + 1;
      events := [];
      expandedEventIds := {};
      connected := false;
      connecting := true;
      errorText := "";
      waiting := waiting + multiset{generation};
    }

    method Stop()
      requires Valid()
      modifies this
      ensures Valid() && Value() == Next(old(Value()), Step.Stop)
    {
      StepKeepsInv(Value(), Step.Stop);
      generation := generation + 1;
      if source.Some? {
        closed := closed + {source.value};
      }
      source := None;
      connected := false;
      connecting := false;
      errorText := "";
    }

    method Toggle(id: string) returns (expanded: bool)
      requires Valid()
      modifies this
      ensures Valid() && Value() == Next(old(Value()), Step.Toggle(id))
      ensures expanded <==> id in expandedEventIds
    {
      if id in expandedEventIds {
        expandedEventIds := expandedEventIds - {id};
        expanded := false;
      } else {
        expandedEventIds := expandedEventIds + {id};
        expanded := true;
      }
    }

    /** The rest of `connect` once the API address is known. */
    method Resume(streamGeneration: nat, nextSource: nat, activeBefore: bool, activeAfter: bool)
      requires Valid() && Enabled(Value(), GotUrl(streamGeneration, nextSource, activeBefore, activeAfter))
      modifies this
      ensures Valid() && Value() == Next(old(Value()), GotUrl(streamGeneration, nextSource, activeBefore, activeAfter))
    {
      StepKeepsInv(Value(), GotUrl(streamGeneration, nextSource, activeBefore, activeAfter));
      waiting := waiting - multiset{streamGeneration};
      if streamGeneration != generation || !activeBefore {
        return;
      }
      created := created[nextSource := streamGeneration];
      if !activeAfter {
        closed := closed + {nextSource};
        return;
      }
      source := Some(nextSource);
    }

    method Fail(streamGeneration: nat, error: string, active: bool)
      requires Valid() && Enabled(Value(), Failed(streamGeneration, error, active))
      modifies this
      ensures Valid() && Value() == Next(old(Value()), Failed(streamGeneration, error, active))
    {
      StepKeepsInv(Value(), Failed(streamGeneration, error, active));
      waiting := waiting - multiset{streamGeneration};
      if streamGeneration != generation || !active {
        return;
      }
      connected := false;
      connecting := false;
      errorText := error;
    }

    /** The callbacks close over the generation and the source they were made for. */
    method OnOpen(streamGeneration: nat, nextSource: nat, active: bool)
      requires Valid() && nextSource in created && created[nextSource] == streamGeneration
      modifies this
      ensures Valid() && Value() == Next(old(Value()), Opened(nextSource, active))
    {
      StepKeepsInv(Value(), Opened(nextSource, active));
      if streamGeneration == generation && active && source == Some(nextSource) {
        connected := true;
        connecting := false;
        errorText := "";
      }
    }

    method OnEvent(streamGeneration: nat, nextSource: nat, data: Option<Event>, error: string, active: bool)
      requires Valid() && nextSource in created && created[nextSource] == streamGeneration
      modifies this
      ensures Valid() && Value() == Next(old(Value()), Message(nextSource, data, error, active))
    {
      StepKeepsInv(Value(), Message(nextSource, data, error, active));
      if streamGeneration != generation || !active || source != Some(nextSource) {
        return;
      }
      match data
      case None =>
        errorText := error;
      case Some(event) =>
        if Holds(events, event.id) {
          errorText := "";
        } else {
          events := events + [event];
          errorText := "";
        }
    }

    method OnError(streamGeneration: nat, nextSource: nat, disconnectedText: string, active: bool)
      requires Valid() && nextSource in created && created[nextSource] == streamGeneration
      modifies this
      ensures Valid() && Value() == Next(old(Value()), Errored(nextSource, disconnectedText, active))
    {
      StepKeepsInv(Value(), Errored(nextSource, disconnectedText, active));
      if streamGeneration == generation && active && source == Some(nextSource) {
        connected := false;
        connecting := false;
        errorText := disconnectedText;
      }
    }
  }
}
