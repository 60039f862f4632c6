# Niuma notifier: verified model

Niuma watches coding tools (Codex, Claude Code and others), shows their approval requests and sessions in one
place, and pushes notifications. This Dafny project models the parts where sources race, lists are regrouped or
a user's files are edited, and proves what holds of them over every input or every run. `dafny verify
dfyconfig.toml` checks all of it.

The modules follow the program's components:

- **Approval ownership.** `ApprovalArbitration` is the arbiter between hook helper, relay and file watcher: a step
  function, its runs and logs, and the `ApprovalArbiter` class tied to them by a ghost list of calls.
  `ApprovalFingerprints` says when two reports are the same approval. `ApprovalLifecycle` is the life of an accepted
  request under any interleaving of clients, and `HookProxy` adds the helper's polling loop, the clock and the
  watchdog.
- **Session registry.** `SessionModel`, `StableSort`, `SessionControl`, `SessionGroups`, `SessionGroupsProofs`,
  `SessionRuntime` and `SessionRegistry` model the flat list and the two project-group pipelines. Hash-map iteration
  is an explicit, arbitrary order, and the theorems say exactly when a result does not depend on it. `SessionViews`
  says what the pages show of the snapshot items, field by field and in which order.
- **Reversible edits.** `CodexToml` and `CodexInstall` edit the Codex `config.toml`, `HookQuoting` quotes the hook
  command for shell and TOML, and `HookJson` edits the JSON settings of Codex and Claude Code.
- **Streams and codecs.** `SseVersions` numbers the main-state events of concurrent clients, `SseFrames` holds the two
  plugin parsers, `SentEvents` the log behind sending at most once, `Base64` the header encoder, `InjectedText` the
  tag stripper, `InjectedStages` what its stages leave, and `EventCenter` the front end's connection.
- `Text` and `Wrappers` hold what they share: Rust's trimming, searching and lines, and `Option`.

Where the source loops over or updates something in place, there is a method or class whose postconditions equate
the new state with a specification function; the lemmas are about that function and its runs.

## What does not hold

Some expected properties fail. Each is proved to fail on a concrete or general input, and the exact condition under
which it holds is proved as an if and only if.

- Installing the TOML hook is not idempotent byte for byte: every reinstall leaves one more bare table header
  (`CodexInstall.ReinstallGrows`). The JSON install is (`HookJson.InstallIsIdempotent`).
- `toml_string` escapes three control characters only; a path with any other one makes the file invalid TOML
  (`HookQuoting.TomlStringReadsBack`, `HookQuoting.BellIsNoToml`).
- The hooks.json cleanup looks at three events; a Niuma hook in another one can stay
  (`HookJson.CleanupMissesOtherEvents`, and `HookJson.CleanupLeavesPreToolUse` for an input). Deleting the file loses
  no hook, but it does lose values that register nothing (`HookJson.DeletionLosesUnread`,
  `HookJson.DeletionLosesEmptyGroup`).
- Removing a JSON hook after adding it restores the file only if the file was tidy (`HookJson.RoundTripIsExact`,
  `HookJson.EmptyListIsNotRestored`).
- The Bark parser dispatches unnamed frames as events, the ntfy parser drops them
  (`SseFrames.DialectsAgreeWhenNamed`, `SseFrames.UnnamedFrameDiffers`).
- Every one of the three ways in which appending a sent-event record can fail lets an event be sent twice; sending
  at most once holds exactly when no append fails (`SentEvents.AtMostOnceExactly`). What the log remembers after any
  failures is given by `SentEvents.RememberedExactly`.
- The event center stays `connecting` for good when its address arrives on an inactive page that was not stopped
  (`EventCenter.StallsWhenInactive`).
- The flat list shows the iteration order of the registry's map exactly for sets of tools in which two spell the same
  name (`SessionRegistry.ListsIgnoreIterationExactly`); tools parsed from text never do
  (`SessionRegistry.ParsedListIgnoresIteration`).
- The project groups show the iteration order of some hash map exactly when two tools meet under one project key, or
  a project has two normalized sessions with equal latest modification and equal primary session id
  (`SessionRegistry.GroupsIgnoreIterationExactly`, and for the pages `SessionRegistry.PagesIgnoreIterationExactly`).
  A separator in a tool name does the one (`SessionRegistry.SeparatorInNameShows`), a session recorded twice under two
  normalized ids the other (`SessionGroupsProofs.RepeatedSessionShowsOrder`).
- The seven stages that strip embedded blocks can splice a block of an earlier tag together and leave it
  (`InjectedStages.SevenStagesLeaveBlock`). For every text, a stage's tag has a block at the end exactly when some
  later cut splices one and each cut after that spares one (`InjectedStages.StageLeavesBlockExactly`). For every set
  of characters, all texts made of these and of whole markers are stripped clean exactly when the characters spell the
  opening marker of none of the first six tags (`InjectedStages.SevenStagesLeaveNoneExactly`); so is every text in which
  each `<` begins one of the fourteen markers (`InjectedStages.SevenStagesCleanBracketed`).
- The watchdog overtakes a helper whose calls are too slow (`HookProxy.TimingBoundIsExact`).

## Model

| member | source | states |
|---|---|---|
| ApprovalArbitration.RecentIsHistoryCut | crates/niuma-core/src/approval_arbitration.rs:289-305 | in every run with a non-decreasing clock, the pruned list of recent emissions answers every later question as the full history cut to ten seconds would |
| ApprovalArbitration.DecisionsFollowHistory | crates/niuma-core/src/approval_arbitration.rs:139-218 | what suppresses a watcher report, or makes a proxy report replace one, is exactly an emission of the other kind, of the same key, at most ten seconds old in the history |
| ApprovalArbitration.PendingIsUncontested | crates/niuma-core/src/approval_arbitration.rs:139-174 | a candidate still waiting was created more than ten seconds after every hook or relay emission of its key |
| ApprovalArbitration.NoWatcherEmissionSoonAfterProxy | crates/niuma-core/src/approval_arbitration.rs:139-252 | no watcher emission of a key, immediate or expired, comes within ten seconds after a hook or relay emission of that key |
| ApprovalArbitration.CandidatesFollowLog | crates/niuma-core/src/approval_arbitration.rs:139-262 | over every run, a key waits exactly when a watcher report of it was put off with no hook or relay report, expiry or cancellation of the key since; what waits is the fingerprint, event and time of the last such report |
| ApprovalArbitration.ExpiryFollowsLog | crates/niuma-core/src/approval_arbitration.rs:220-252 | an expiry shows the event of the last report put off if the key still waits in that sense, and nothing otherwise |
| ApprovalArbitration.CancellationFollowsLog | crates/niuma-core/src/approval_arbitration.rs:254-262 | a cancellation removes something exactly when some waiting report carries its resolve key |
| ApprovalArbitration.AnswersFollowLog | crates/niuma-core/src/approval_arbitration.rs:139-218 | the answer to every watcher, hook or relay report as a function of the earlier requests and answers: suppressed for ten seconds after a hook or relay report of the key, else shown at once for five minutes after the project fell back, else put off for two seconds; a hook or relay report replaces a watcher notification of the last ten seconds |
| ApprovalArbitration.CapabilityIsLogged | crates/niuma-core/src/approval_arbitration.rs:228-287 | the stored capability of a project, two TTLs and a miss counter, is at every later instant a function of its last proxy call and the misses since |
| ApprovalArbitration.MissCountBelowThreshold | crates/niuma-core/src/approval_arbitration.rs:228-249 | an Active capability never shows two misses, whatever the clock does |
| ApprovalArbitration.NoFallbackSoonAfterProxy | crates/niuma-core/src/approval_arbitration.rs:157-173 | for ten minutes after a proxy call of a project no watcher report there is answered EmitNow, unless two of its candidates have expired since |
| ApprovalArbitration.LazyExpiryInvisible | crates/niuma-core/src/approval_arbitration.rs:264-287 | writing an expired capability back as Unknown never changes an answer, a pending candidate or a recent emission |
| ApprovalArbitration.ApprovalArbiter.OnWatcherApproval | crates/niuma-core/src/approval_arbitration.rs:139-174 | the tables are what replaying all calls leaves, and the decision is the one the logged history and capability call for; a report put off becomes the candidate of its key, and no other candidate changes |
| ApprovalArbitration.ApprovalArbiter.OnProxyApproval | crates/niuma-core/src/approval_arbitration.rs:192-218 | ReplaceWatcher exactly when a watcher emission of the key is at most ten seconds old; of the waiting candidates exactly that of the key is dropped |
| ApprovalArbitration.ApprovalArbiter.ExpireCandidate | crates/niuma-core/src/approval_arbitration.rs:220-252 | emits exactly the event of a candidate still waiting, and removes it |
| ApprovalArbitration.ApprovalArbiter.CancelPendingByAttentionResolveKey | crates/niuma-core/src/approval_arbitration.rs:254-262 | drops one waiting candidate with the resolve key when there is one, nothing otherwise |
| ApprovalArbitration.ApprovalArbiter.CapabilityForScope | crates/niuma-core/src/approval_arbitration.rs:264-287 | what it returns was stored and is within its TTL, or is Unknown because nothing stored counts any more; writing it back does not change what any project's capability is worth, now or at any later instant |
| ApprovalArbitration.ApprovalArbiter.PruneRecent | crates/niuma-core/src/approval_arbitration.rs:302-305 | the loop keeps exactly the emissions of age at most ten seconds, in order, and no later cut of the list can tell that it ran |
| ApprovalFingerprints.NoFingerprintForBlank | crates/niuma-core/src/approval_arbitration.rs:43-77 | there is no fingerprint exactly when command and description are both absent or blank |
| ApprovalFingerprints.NormalizedIsWords | crates/niuma-core/src/approval_arbitration.rs:335-338 | texts normalise alike exactly when they have the same words; normalising again changes nothing |
| ApprovalFingerprints.KeyIsItsHashes | crates/niuma-core/src/approval_arbitration.rs:60-70 | two keys are equal exactly when all three hashes and the basis are |
| ApprovalFingerprints.CommandWins | crates/niuma-core/src/approval_arbitration.rs:43-59 | basis and text of a fingerprint by case: the words of the command if it has any, else those of the description; the path trimmed, a blank session id dropped |
| ApprovalFingerprints.SameCommandSameFingerprint | crates/niuma-core/src/approval_arbitration.rs:43-77 | reports of one command in one project and session get one fingerprint, however the command is spaced and whatever the descriptions say |
| ApprovalLifecycle.ListIsIndependentRecords | crates/niuma-core/src/approval.rs:14-206 | each operation on the list acts on every request id as on an automaton of its own |
| ApprovalLifecycle.StatusNeverMovesBack | crates/niuma-core/src/approval.rs:14-181 | over any interleaving a record stays, its status never moves backwards, and a terminal record is frozen |
| ApprovalLifecycle.AtMostOneOfEach | crates/niuma-core/src/approval.rs:24-181 | per request at most one decision or resolution is accepted and at most one return or sweep; nothing at all after the former |
| ApprovalLifecycle.StatusFollowsRun | crates/niuma-core/src/approval.rs:14-181 | over every run, a record exists exactly when its id was created, is settled exactly when a decision or resolution was accepted, and is pending exactly when nothing was accepted that settles it or hands it back |
| ApprovalLifecycle.AcceptedExactly | crates/niuma-core/src/approval.rs:24-181 | a decision or resolution of a created request is accepted exactly when none was before, a return or heartbeat exactly when nothing settled it or handed it back before, and a sweep takes exactly such requests whose active hook proxy was silent for longer than the limit |
| ApprovalLifecycle.AcceptedWrites | crates/niuma-core/src/approval.rs:14-181 | the record each accepted operation leaves, field by field; nothing else changes a record but a create over a pending one |
| ApprovalLifecycle.CreateWrites | crates/niuma-core/src/approval.rs:14-22 | a create puts its request in unless one of the id was settled or handed back |
| ApprovalLifecycle.SettlementStays | crates/niuma-core/src/approval.rs:24-115 | after an accepted decision the status is Allowed or Denied according to its kind, after an accepted resolution ResolvedInTool, with that party and reason, for good |
| ApprovalLifecycle.ReturnStays | crates/niuma-core/src/approval.rs:59-181 | after an accepted return or sweep the record stays as that left it until something settles it, with the status its tool calls for |
| ApprovalLifecycle.RepliesFollowRun | crates/niuma-core/src/approval.rs:24-139 | a caller is told that there is no such request exactly before a create of the id, and else whether the operation was accepted, with the record as it then stands |
| ApprovalLifecycle.PrintedDecisionIsFinal | crates/niuma-cli/src/hook_runtime.rs:387-404 | once a poll reads a decision, every later poll reads the same and the record no longer changes |
| ApprovalLifecycle.PrintedDecisionWasMade | crates/niuma-cli/src/hook_runtime.rs:387-404 | a decision is read only if an accepted decide of that kind precedes it |
| ApprovalLifecycle.ReplayedIdsAreUnique | crates/niuma-core/src/approval.rs:14-22 | the list never holds one id twice |
| ApprovalLifecycle.SweepSettles | crates/niuma-core/src/approval.rs:141-181 | after a sweep no request waits on a silent proxy, and a second sweep at the same time changes and reports nothing |
| ApprovalLifecycle.SweepReportsChanges | crates/niuma-core/src/approval.rs:141-181 | a sweep reports a record exactly when it rewrote it |
| ApprovalLifecycle.ApprovalList.UpsertRequest | crates/niuma-core/src/approval.rs:14-22 | appends a new request, replaces a pending one, leaves a settled one alone |
| ApprovalLifecycle.ApprovalList.DecideRequest | crates/niuma-core/src/approval.rs:24-57 | list and reply after a UI decision are those of the run: accepted on every request, returned ones included, that nothing settled before (AcceptedExactly, RepliesFollowRun) |
| ApprovalLifecycle.ApprovalList.ReturnToCodex | crates/niuma-core/src/approval.rs:59-85 | list and reply after a return, accepted exactly where nothing settled or handed back the request before |
| ApprovalLifecycle.ApprovalList.ResolveInTool | crates/niuma-core/src/approval.rs:87-115 | list and reply after a resolution in the tool, accepted exactly where nothing settled the request before |
| ApprovalLifecycle.ApprovalList.HeartbeatProxy | crates/niuma-core/src/approval.rs:117-139 | list and reply after a heartbeat, accepted exactly where nothing settled or handed back the request before |
| ApprovalLifecycle.ApprovalList.ReturnStaleProxies | crates/niuma-core/src/approval.rs:141-181 | the swept list and the reported records, in order |
| HookProxy.LiveStampAge | crates/niuma-cli/src/hook_runtime.rs:113-148 | while a helper lives, its heartbeat stamp is younger than two seconds plus three iteration limits |
| HookProxy.TimingBoundIsExact | crates/niuma-api/src/approval_proxy_watchdog.rs:9-10 | the watchdog never takes a request from a polling helper exactly when two seconds plus three limits stay within thirty seconds |
| HookProxy.SlowRunOvertakes | crates/niuma-cli/src/hook_runtime.rs:201-236 | a legal run at the least larger limit in which a sweep overtakes a live helper |
| HookProxy.PrintedDecisionHolds | crates/niuma-cli/src/hook_runtime.rs:201-246 | at every moment of every run a printed allow or deny is the request's status |
| HookProxy.DecisionGetsPrinted | crates/niuma-cli/src/hook_runtime.rs:189-236 | from every phase in which a helper is still to read, its own calls lead to printing a decision once made, lost heartbeats included |
| HookProxy.HandBackReturns | crates/niuma-cli/src/hook_runtime.rs:238-246 | handing back returns a request still pending to its tool, with the timeout as its source, and leaves any other as it is |
| HookProxy.NotPendingAfterHandBack | crates/niuma-cli/src/hook_runtime.rs:189-246 | in every run, from the moment a helper handed its request back, the request is there and no longer pending |
| HookProxy.PollsForTenMinutes | crates/niuma-cli/src/hook_runtime.rs:201-236 | in every run no iteration begins later than ten minutes after the loop was entered, and the helper gives up no sooner |
| HookProxy.HookOutlastsPolling | crates/niuma-core/src/codex_hook.rs:9-10 | where calls take at most half a minute, a helper stops polling before the time limit the installed hook has in the tool |
| HookProxy.BeatRenews | crates/niuma-cli/src/hook_runtime.rs:203-211 | a heartbeat that arrives renews the stamp of a pending request |
| StableSort.SortDependsOnTies | crates/niuma-api/src/tool_sessions.rs:241-253 | a stable sort of two lists agrees as soon as they agree on every class of tied elements |
| StableSort.SortKeepsTies | crates/niuma-api/src/tool_sessions.rs:241-253 | the sort keeps the order of tied elements |
| StableSort.StringLeExactly | crates/niuma-api/src/tool_sessions.rs:241-253 | names and ids compare by the first character in which they differ, a beginning before the whole |
| SessionModel.FromId | crates/niuma-core/src/models.rs:18-33 | a tool id parsed from text spells that text |
| SessionModel.FromIdRecovers | crates/niuma-core/src/models.rs:18-33 | every tool is what its name parses to, but a custom one that bears a built-in name |
| SessionModel.PartitionCounts | crates/niuma-api/src/tool_sessions.rs:455-494 | splitting by key neither loses nor duplicates anything a count can see |
| SessionRegistry.ListIgnoresIteration | crates/niuma-api/src/tool_sessions.rs:224-256 | where names tell the tools apart, the list is the same whatever order the snapshot map iterates in, duplicate session ids included |
| SessionRegistry.ParsedListIgnoresIteration | crates/niuma-core/src/models.rs:25-53 | that covers every registry whose tool ids were parsed from text |
| SessionRegistry.ListsIgnoreIterationExactly | crates/niuma-api/src/tool_sessions.rs:224-256 | for a set of tools, no snapshots and no query show the iteration order exactly when no two of the tools spell the same name |
| SessionRegistry.ListIsTop | crates/niuma-api/src/tool_sessions.rs:224-256 | what the query sees, listed last seen first, then last modified, then by tool name, session id and id, cut at the limit (100 unless given, at most 500); what is left out comes after everything listed; only limit zero is refused |
| SessionRegistry.SeesExactly | crates/niuma-api/src/tool_sessions.rs:224-240 | a query sees exactly the items of all tools or of the one it names, without subagents or inactive ones where it says so |
| SessionRegistry.LeftOutIsOlder | crates/niuma-api/src/tool_sessions.rs:241-256 | every item seen and left out was last seen no later than any item listed |
| SessionRegistry.VisibleMember | crates/niuma-api/src/tool_sessions.rs:236-240 | exactly the items passing both filters are seen |
| SessionRegistry.SharedNameExposesIteration | crates/niuma-api/src/tool_sessions.rs:930-941 | any two tools of one name, among any others, make the list show which of them was visited first |
| SessionRegistry.GroupsIgnoreIterationExactly | crates/niuma-api/src/tool_sessions.rs:258-377 | the groups of a query are the same for all orders of all hash maps exactly when no two tools meet under one project key and no project has twin sessions |
| SessionRegistry.PagesIgnoreIterationExactly | crates/niuma-api/src/tool_sessions.rs:258-316 | the pages of a query are the same for all orders of all hash maps on exactly the same condition |
| SessionRegistry.UnambiguousIgnoresIteration | crates/niuma-api/src/tool_sessions.rs:258-377 | in whichever iteration that condition is looked at, it is the same |
| SessionRegistry.SharedKeyExposesIteration | crates/niuma-api/src/tool_sessions.rs:275-300 | two tools under one project key make the group show which of them was visited first |
| SessionRegistry.SeparatorInNameShows | crates/niuma-api/src/tool_sessions.rs:275-300 | a separator in a tool name brings two tools under one key, with all names different and no session id repeated |
| SessionRegistry.UniqueIdsSuffice | crates/niuma-api/src/tool_sessions.rs:258-377 | tool names that differ and hold no separator, and session ids unique per snapshot, meet the condition |
| SessionRegistry.PipelinesAgree | crates/niuma-api/src/tool_sessions.rs:258-377 | on that condition, over any orders of all hash maps, the runtime page erases to the plain page, and each depends on snapshots, query and runtime states alone, runtime fields included |
| SessionRegistry.RuntimePagesIgnoreIterationExactly | crates/niuma-api/src/tool_sessions.rs:318-377 | the runtime pages of a query, runtime fields included, are the same for all orders on exactly the same condition |
| SessionRegistry.UniqueWithinEveryProject | crates/niuma-api/src/tool_sessions.rs:275-300 | session ids unique per snapshot are unique within every project, where keys separate tools |
| SessionRegistry.ToolSessionRegistry.ReplaceSnapshot | crates/niuma-api/src/tool_sessions.rs:181-195 | stores the sessions under the tool, with host-made tool and canonical id |
| SessionRegistry.ToolSessionRegistry.ClearSnapshot | crates/niuma-api/src/tool_sessions.rs:197-203 | afterwards, in any iteration, queries see no item of that tool and every other tool's items in their order |
| SessionRegistry.ToolSessionRegistry.List | crates/niuma-api/src/tool_sessions.rs:224-256 | the result is the list of some iteration order, and of every one where names tell the tools apart; ListIsTop says which items it holds and in which order |
| SessionRegistry.ToolSessionRegistry.ListProjectGroups | crates/niuma-api/src/tool_sessions.rs:258-316 | the page is that of some iteration order, and on that condition of every order of every map; the rows of SessionViews say what it shows |
| SessionRegistry.ToolSessionRegistry.ListRuntimeProjectGroups | crates/niuma-api/src/tool_sessions.rs:318-377 | the page is that of some iteration order, and on that condition of all orders, runtime fields included; without them it is the plain page; the rows of SessionViews say what it shows |
| SessionGroups.CollectProjects | crates/niuma-api/src/tool_sessions.rs:275-300 | accumulating item by item builds the projects of the selected items |
| SessionGroups.ProjectsPush | crates/niuma-api/src/tool_sessions.rs:428-453 | pushing one item extends the projects as grouping the longer list does |
| SessionGroups.PagesCover | crates/niuma-api/src/tool_sessions.rs:300-316 | pages 1 to n joined are a prefix of the groups with no gap or overlap, even where the offset saturates |
| SessionGroups.SomePageDiffers | crates/niuma-api/src/tool_sessions.rs:300-316 | two different group lists differ on some page |
| SessionGroupsProofs.EveryItemOnce | crates/niuma-api/src/tool_sessions.rs:428-494 | a session of a project holds exactly the items of its project key and normalized id |
| SessionGroupsProofs.EveryItemSomewhere | crates/niuma-api/src/tool_sessions.rs:428-494 | every item has its project and session |
| SessionGroupsProofs.GroupCounts | crates/niuma-api/src/tool_sessions.rs:455-494 | a project's raw and subagent counts are those of its items |
| SessionGroupsProofs.CountsAddUp | crates/niuma-api/src/tool_sessions.rs:258-316 | over all groups the counts add up to the items that passed the filters |
| SessionGroupsProofs.GroupsIgnoreMapOrder | crates/niuma-api/src/tool_sessions.rs:258-316 | without twin sessions the group list is the same however project, session and channel maps iterate |
| SessionGroupsProofs.GroupsIgnoreOrdersExactly | crates/niuma-api/src/tool_sessions.rs:258-316 | it is so for all pairs of orders exactly when no project has two normalized sessions with equal latest modification and equal primary session id |
| SessionGroupsProofs.RepeatedSessionShowsOrder | crates/niuma-api/src/tool_sessions.rs:428-494 | one session recorded twice under two normalized ids makes the order show |
| SessionGroupsProofs.UniqueIdsLeaveNoTwins | crates/niuma-api/src/tool_sessions.rs:455-494 | session ids unique within every project leave no twins |
| SessionGroupsProofs.GroupsAreSorted | crates/niuma-api/src/tool_sessions.rs:300-316 | groups and the sessions of a project are sorted by their comparators, which SessionViews spells out |
| SessionRuntime.RuntimeErasesToPlain | crates/niuma-api/src/tool_sessions.rs:318-377 | erasing the three runtime fields at every level gives the plain page of the same iteration orders, for every item list and query |
| SessionRuntime.RuntimeRefinesPlain | crates/niuma-api/src/tool_sessions.rs:318-377 | the two pipelines agree over different iteration orders exactly when no project has twin sessions |
| SessionRuntime.RuntimeGroupsIgnoreOrdersExactly | crates/niuma-api/src/tool_sessions.rs:318-377 | the runtime groups, runtime fields included, are the same for all pairs of orders exactly then, whatever the runtime states |
| SessionRuntime.BestRuntimeIsMaximum | crates/niuma-api/src/tool_sessions.rs:745-764 | the runtime state shown for a session is the last maximum by status priority and activity |
| SessionRuntime.RuntimesOfMember | crates/niuma-api/src/tool_sessions.rs:709-717 | candidates are the first states recorded for the tool and id of one of the sessions |
| SessionViews.SummaryTells | crates/niuma-api/src/tool_sessions.rs:547-602 | what a listed session shows of its raw sessions: the primary one (a main session if any, else one of the normalized id, else any; of these the last modified, then the smallest id, then the earliest recorded), its id and title, Active while any is active and else the primary's status, the latest modification, the primary's first message or else the earliest one, the subagent count, the merged control, and every raw session in order |
| SessionViews.PartMember | crates/niuma-api/src/tool_sessions.rs:284-297 | the items of a group are those on the requested path whose tool name and project path spell its key |
| SessionViews.SessionPartMember | crates/niuma-api/src/tool_sessions.rs:766-775 | an item joins the session it was normalized to; without one, a subagent joins its parent's session and any other item its own |
| SessionViews.GroupsShowItems | crates/niuma-api/src/tool_sessions.rs:428-494 | every listed group shows its items: latest modification, last name that says something, counts; its sessions cover them, differ in id, each stand for exactly the items that join it, and come most recently updated first, then by primary session id |
| SessionViews.EveryItemHasGroup | crates/niuma-api/src/tool_sessions.rs:275-300 | every selected item is in some listed group |
| SessionViews.GroupsAreListedOnce | crates/niuma-api/src/tool_sessions.rs:300-308 | groups come most recently updated first, then by tool name and path, and no two share both |
| SessionViews.RuntimeGroupsShowItems | crates/niuma-api/src/tool_sessions.rs:620-764 | the same of every runtime group and its sessions; each session shows the most urgent and then most recent state of its raw sessions, the last listed of equals, and each raw entry the first state recorded for it |
| SessionViews.RuntimeGroupsAreListedOnce | crates/niuma-api/src/tool_sessions.rs:357-366 | runtime groups come in the same order |
| SessionViews.OutranksIs | crates/niuma-api/src/tool_sessions.rs:745-764 | waiting for approval hides waiting for input, then error, running, completed, idle and stale; of equal statuses the more recent shows |
| SessionViews.FirstAfterSort | crates/niuma-api/src/tool_sessions.rs:547-567 | after a stable sort the first element with a property is the leftmost of the least ones |
| SessionViews.PageHolds | crates/niuma-api/src/tool_sessions.rs:300-316 | page, page size (20 unless given, at most 100), total and list of a page: the groups after those of the pages before it, up to its size; a zero page or size is refused |
| SessionViews.PathIsTrimmed | crates/niuma-api/src/tool_sessions.rs:279-283 | a blank path asks for none, any other for what is between the white space around it |
| SessionControl.MergeIsMaximum | crates/niuma-api/src/tool_sessions.rs:817-864 | the merged channel of an id is the first maximum by update time and availability over all inputs with that id |
| SessionControl.RevisitingPrimaryIsIdle | crates/niuma-api/src/tool_sessions.rs:817-840 | visiting the primary session again among the raw ones changes nothing |
| SessionControl.ControlIgnoresMapOrder | crates/niuma-api/src/tool_sessions.rs:817-856 | the control summary does not depend on the channel map's order |
| SessionControl.ControlListsBestChannels | crates/niuma-api/src/tool_sessions.rs:817-856 | listed channels are best of their id, distinct and in order |
| SessionControl.ControlListsEveryId | crates/niuma-api/src/tool_sessions.rs:817-856 | every input id is listed |
| SessionControl.HeadDecides | crates/niuma-api/src/tool_sessions.rs:841-896 | the preferred id is the head's exactly when the head is available, and resumable holds exactly when the head can resume |
| SessionControl.ControlTells | crates/niuma-api/src/tool_sessions.rs:817-896 | the control of a session told of the channels its raw sessions offer: for each id the most recently updated, available if there is a choice; those that take instructions first (available, with the capability or an action of that type), then the available ones, then by recency and id; the first is preferred if available, and the session can be resumed if it takes instructions; none exactly when nothing is offered |
| SessionControl.MergeChannels | crates/niuma-api/src/tool_sessions.rs:817-840 | the fold over primary and raw sessions builds the merged map |
| CodexToml.SplitTomlBlocks | crates/niuma-core/src/codex_hook.rs:490-505 | one pass over the lines cuts the text into a line and the lines up to the next header, losing nothing |
| CodexToml.SplitIsLossless | crates/niuma-core/src/codex_hook.rs:490-505 | the blocks concatenate to the text |
| CodexToml.GroupLinesOf | crates/niuma-core/src/codex_hook.rs:490-505 | any well-split blocks are recovered from their concatenation |
| CodexToml.RemoveNiumaHooksFromConfig | crates/niuma-core/src/codex_hook.rs:479-488 | the loop keeps the blocks that are not Niuma's |
| CodexToml.KeptMembers | crates/niuma-core/src/codex_hook.rs:479-488 | exactly the blocks that are not Niuma's are kept |
| CodexToml.RemovalKeepsOtherBlocks | crates/niuma-core/src/codex_hook.rs:479-505 | the text after removal splits into exactly the kept blocks, byte for byte |
| CodexToml.RemovalIsIdempotent | crates/niuma-core/src/codex_hook.rs:479-488 | removing again changes nothing |
| CodexInstall.ConfigEventHasNiumaHook | crates/niuma-core/src/codex_hook.rs:459-477 | the line scan reports an event exactly when some block has that event's hook header and a hook line |
| CodexInstall.CleanMeansScan | crates/niuma-core/src/codex_hook.rs:507-518 | the block test and the line scan agree on every file |
| CodexInstall.NoEventAfterRemoval | crates/niuma-core/src/codex_hook.rs:459-488 | after removal no event of any name reports a Niuma hook |
| CodexInstall.UninstallIsRemoval | crates/niuma-core/src/codex_hook.rs:101-107 | the guard on uninstalling never skips a block removal would drop |
| CodexInstall.UpsertConfigEvent | crates/niuma-core/src/codex_hook.rs:224-247 | builds the appended text from separator, bare header and hook |
| CodexInstall.UpsertAddsTwoBlocks | crates/niuma-core/src/codex_hook.rs:224-247 | the appended text splits into exactly two more blocks |
| CodexInstall.UpsertOnClean | crates/niuma-core/src/codex_hook.rs:224-247 | on a clean file the text stays as a prefix, only the last block is Niuma's, the event reports installed, and removal takes back all but separator and bare header |
| CodexInstall.InstallLeavesOneHook | crates/niuma-core/src/codex_hook.rs:70-84 | whatever the file and manifest path, one Niuma block, reported as installed |
| CodexInstall.UninstallAfterInstall | crates/niuma-core/src/codex_hook.rs:95-107 | the exact text an uninstall leaves after an install |
| CodexInstall.ReinstallGrows | crates/niuma-core/src/codex_hook.rs:70-84 | the exact text of a reinstall, always longer: installing is never idempotent byte for byte |
| HookQuoting.TomlStringReadsBack | crates/niuma-core/src/codex_hook.rs:520-528 | a literal reads back as its value exactly when it holds no control character other than tab, LF and CR, and is no TOML otherwise (TOML v1.0.0, section String) |
| HookQuoting.BellIsNoToml | crates/niuma-core/src/codex_hook.rs:520-528 | a value with a bell character is written as no TOML |
| HookQuoting.EscapeOnOneLine | crates/niuma-core/src/codex_hook.rs:520-528 | a literal never breaks its line |
| HookQuoting.ShellQuoteReadsBack | crates/niuma-core/src/codex_hook.rs:319-321 | a quoted value is one shell word with that value |
| HookQuoting.ManifestPathIsOneWord | crates/niuma-core/src/codex_hook.rs:170-180 | the shell passes the manifest path as one argument, whatever it holds |
| HookQuoting.CommandIsMarked | crates/niuma-core/src/codex_hook.rs:249-251 | both commands carry the marks they are recognised by, whatever the path |
| HookJson.RemoveNiumaHooks | crates/niuma-core/src/codex_hook.rs:332-344 | the loops over events, groups and hooks compute the removal |
| HookJson.RemoveFromGroups | crates/niuma-core/src/claude_hook.rs:175-196 | cleans every group and drops those emptied |
| HookJson.UpsertEvent | crates/niuma-core/src/claude_hook.rs:127-159 | the settings after adding a hook, with missing or malformed parts replaced |
| HookJson.RemovalFilters | crates/niuma-core/src/codex_hook.rs:332-381 | in every event exactly the Niuma hooks are gone; all others keep their order and their group's settings |
| HookJson.RemovalKeepsOtherSettings | crates/niuma-core/src/claude_hook.rs:161-173 | nothing outside the hooks changes, nor events that are not lists |
| HookJson.InstallLeavesOne | crates/niuma-core/src/claude_hook.rs:44-50 | the event lists everyone else's hooks in order and then the new one alone: its command, message and matcher as given, its time limit eleven minutes; other events keep everyone else's hooks |
| HookJson.DetectionIsExact | crates/niuma-core/src/codex_hook.rs:406-429 | detection agrees with what is registered |
| HookJson.StatusFollowsEdits | crates/niuma-core/src/claude_hook.rs:232-243 | after removal no event reports, after an install exactly the installed one |
| HookJson.RoundTripIsExact | crates/niuma-core/src/codex_hook.rs:189-222 | removing after adding is the identity exactly on a hooks object without Niuma hooks, empty lists or a malformed entry for the event |
| HookJson.RemovalIsIdempotent | crates/niuma-core/src/codex_hook.rs:332-344 | removing again changes nothing |
| HookJson.InstallIsIdempotent | crates/niuma-core/src/claude_hook.rs:44-50 | installing twice is the same as once |
| HookJson.CommandIsNiuma | crates/niuma-core/src/claude_hook.rs:108-118 | the installed commands are recognised |
| HookJson.CleanupLooksAtThree | crates/niuma-core/src/codex_hook.rs:346-357 | the cleanup touches the file exactly when it exists and registers a Niuma hook for one of three events |
| HookJson.CleanupKeepsOtherHooks | crates/niuma-core/src/codex_hook.rs:346-357 | the file is deleted only when every registered hook is Niuma's, and a written file registers exactly the others |
| HookJson.DeletionLosesUnread | crates/niuma-core/src/codex_hook.rs:346-404 | deleting the file loses something exactly when some event holds a value that is not a list, or a group without a hooks list |
| HookJson.CleanupMissesOtherEvents | crates/niuma-core/src/codex_hook.rs:431-435 | a Niuma hook stays exactly when it sits outside the three guarded events and none sits in them |
| HookJson.CleanupLeavesPreToolUse | crates/niuma-core/src/codex_hook.rs:431-435 | a configuration with a Niuma hook under `PreToolUse` alone, which stays |
| HookJson.DeletionLosesEmptyGroup | crates/niuma-core/src/codex_hook.rs:346-404 | a configuration with an empty group under another event, which is deleted with the file |
| HookJson.EmptyListIsNotRestored | crates/niuma-core/src/codex_hook.rs:189-222 | a configuration with an empty list at the event, which adding and removing a hook does not restore |
| SseVersions.VersionsIncreasePerClient | crates/niuma-api/src/sse.rs:63-82 | for any interleaving of deciding and stamping, the versions one client is sent strictly increase |
| SseVersions.SameVersionSameContent | crates/niuma-api/src/sse.rs:390-407 | events with one version carry one content, across clients |
| SseVersions.NewContentIsPending | crates/niuma-api/src/sse.rs:73-82 | over every run, a client that decides on a content has an event to stamp exactly when the content is not the one it decided on last |
| SseVersions.NewContentIsSent | crates/niuma-api/src/sse.rs:390-407 | and when it stamps next, whatever other clients do between, that content is sent with the version the broadcaster then holds for it |
| SseVersions.MainStateBroadcaster.VersionForContent | crates/niuma-api/src/sse.rs:63-71 | the version grows by one when the content differs from the last and stays otherwise |
| SseVersions.MainStateClient.DecideToSend | crates/niuma-api/src/sse.rs:73-82 | sends when forced or new to this client |
| SseFrames.BarkConsumeEventLines | builtin-plugins/bark-runtime/src/lib.rs:495-552 | the Bark loop computes the specified dispatches, which TextRoundTrip and NamesDecide tell of the messages |
| SseFrames.NtfyConsumeEventLines | builtin-plugins/ntfy-runtime/src/lib.rs:495-547 | the ntfy loop computes the specified dispatches, which TextRoundTrip and NamesDecide tell of the messages |
| SseFrames.TextRoundTrip | builtin-plugins/bark-runtime/src/lib.rs:495-552 | messages printed as text, with or without a space after the colons, and parsed give exactly the items they mean: names tell events from notification tests, Bark takes a nameless message for an event, a message without data means nothing; data with line feeds included |
| SseFrames.NamesDecide | builtin-plugins/bark-runtime/src/lib.rs:528-552 | one message: "event" gives an event, "notification_test" a notification test, any other name nothing, and no name an event from Bark and nothing from ntfy |
| SseFrames.SplitFieldExactly | builtin-plugins/ntfy-runtime/src/lib.rs:510-513 | every line splits at its first colon, and one space after it is not part of the value; a line without a colon is a name with an empty value |
| SseFrames.OneField | builtin-plugins/ntfy-runtime/src/lib.rs:514-519 | a later name or id replaces an earlier one of the same frame |
| SseFrames.InertLine | builtin-plugins/ntfy-runtime/src/lib.rs:507-519 | comment lines and unknown fields change nothing, wherever they stand |
| SseFrames.IdIsIgnored | builtin-plugins/bark-runtime/src/lib.rs:520-526 | the id of a frame has no influence on dispatch |
| SseFrames.EndFlushes | builtin-plugins/ntfy-runtime/src/lib.rs:521 | the end of the stream flushes like one more blank line |
| SseFrames.DialectsAgreeWhenNamed | builtin-plugins/bark-runtime/src/lib.rs:528-552 | the plugins dispatch alike on a stream exactly when all its frames with data are named, as long as nothing fails |
| SseFrames.UnnamedFrameDiffers | builtin-plugins/bark-runtime/src/lib.rs:528-552 | a stream of one unnamed frame, which Bark dispatches and ntfy does not |
| Base64.Base64Encode | builtin-plugins/ntfy-runtime/src/lib.rs:365-386 | the chunk loop computes the encoding |
| Base64.DecodeEncoded | builtin-plugins/ntfy-runtime/src/lib.rs:365-386 | a decoder undoes the encoding of every byte sequence (section 4 of RFC 4648) |
| Base64.EncodedShape | builtin-plugins/ntfy-runtime/src/lib.rs:367 | four symbols per started three bytes |
| Base64.PaddingAtEnd | builtin-plugins/ntfy-runtime/src/lib.rs:374-383 | padding is fixed by the length modulo three and stands only at the end |
| Base64.SymbolInTable | builtin-plugins/ntfy-runtime/src/lib.rs:366 | the table holds the alphabet |
| InjectedText.StripAllWrappedBlocks | builtin-plugins/codex-runtime/src/session_messages.rs:320-332 | the rewrite loop ends for every closing tag that is not empty |
| InjectedText.StrippedHasNoBlock | builtin-plugins/codex-runtime/src/session_messages.rs:320-332 | no opening tag followed by its closing tag is left |
| InjectedText.StrippedIsSubsequence | builtin-plugins/codex-runtime/src/session_messages.rs:320-332 | stripping only deletes |
| InjectedText.StrippedIsNormalForm | builtin-plugins/codex-runtime/src/session_messages.rs:320-332 | a text changes exactly when it has a block, and a second time never |
| InjectedText.BlockDisappears | builtin-plugins/codex-runtime/src/session_messages.rs:321-329 | a first block goes whole, with one line feed after it |
| InjectedText.StripPrefixes | builtin-plugins/codex-runtime/src/session_messages.rs:253-260 | the prefix loop leaves the specified rest of the message |
| InjectedText.PrefixStrippedExactly | builtin-plugins/codex-runtime/src/session_messages.rs:253-302 | that rest is the only one that starts with neither white space nor a closed known block and has in front of it nothing but white space and whole known blocks, each up to its first closing marker |
| InjectedText.BlockIsStripped | builtin-plugins/codex-runtime/src/session_messages.rs:265-302 | every known block is cut off whole, up to its first closing marker, whatever follows |
| InjectedText.StripIsBlock | builtin-plugins/codex-runtime/src/session_messages.rs:265-302 | a text that opens a closed known block loses exactly one such block |
| InjectedText.StagesOnlyDelete | builtin-plugins/codex-runtime/src/session_messages.rs:304-318 | the seven stages only delete, keep clean text, and leave none of the last tag's blocks |
| InjectedStages.StagesFixCleanTexts | builtin-plugins/codex-runtime/src/session_messages.rs:304-318 | the stages leave a text as it is exactly when it has no block of any tag |
| InjectedStages.CutLeavesBlockExactly | builtin-plugins/codex-runtime/src/session_messages.rs:320-332 | cutting a range out leaves a block exactly when a block keeps both its markers, or the seam joins the ends of a marker that has its partner |
| InjectedStages.CutMakesBlockExactly | builtin-plugins/codex-runtime/src/session_messages.rs:320-332 | in a text without a block, exactly such a seam makes one |
| InjectedStages.StageLeavesBlockExactly | builtin-plugins/codex-runtime/src/session_messages.rs:304-332 | for every text and tag: after all stages a block of the tag is left exactly when some cut of a later stage splices one and every cut after it spares one |
| InjectedStages.StageTakesParts | builtin-plugins/codex-runtime/src/session_messages.rs:320-332 | in a text of whole markers and other characters a stage takes out whole parts and makes no pair of any tag |
| InjectedStages.StagesLeaveNoneExactly | builtin-plugins/codex-runtime/src/session_messages.rs:304-332 | for any tags and any set of characters: every text made of whole markers and these characters is stripped clean exactly when they can spell the opening marker of no tag but the last |
| InjectedStages.SevenStagesLeaveNoneExactly | builtin-plugins/codex-runtime/src/session_messages.rs:304-318 | the same for the seven tags |
| InjectedStages.SevenStagesCleanBracketed | builtin-plugins/codex-runtime/src/session_messages.rs:304-318 | a text is stripped clean when each of its opening brackets begins one of the fourteen markers |
| InjectedStages.SplitMarkerIsLeft | builtin-plugins/codex-runtime/src/session_messages.rs:304-332 | a marker of any tag but the last, split by a block of the last, is put together and its block stays |
| InjectedStages.SevenStagesLeaveBlock | builtin-plugins/codex-runtime/src/session_messages.rs:304-318 | such a text for `environment_context` |
| InjectedText.UserVisibleContent | builtin-plugins/codex-runtime/src/session_messages.rs:253-263 | nothing is shown exactly when the message without its injected prefix and embedded blocks is blank; else that text, trimmed, is shown |
| EventCenter.NoSourceLeaks | src/eventCenterRuntime.ts:90-154 | every source ever created is the current one or closed, under every ordering |
| EventCenter.ConnectedMeansSource | src/eventCenterRuntime.ts:109-154 | connected implies a current open source and not connecting |
| EventCenter.FlagsFollowRun | src/eventCenterRuntime.ts:76-154 | over every run, the center is connected exactly when its current source opened and neither dropped nor was stopped since, and connecting exactly when a start took effect and no opening, drop, failure or stop settled it since |
| EventCenter.SourceFollowsRun | src/eventCenterRuntime.ts:109-120 | a source is current exactly when the address arrived for the attempt then current, on an active page, and nothing was stopped since |
| EventCenter.TextFollowsRun | src/eventCenterRuntime.ts:76-177 | the error text is the one put up last: by a failure, a drop or an unreadable payload its own, by an effective start, a stop, an opening or a readable payload none |
| EventCenter.ExpandedFollowsRun | src/eventCenterRuntime.ts:76-107 | an event is expanded exactly when it was toggled an odd number of times since the last start that took effect |
| EventCenter.EventIdsDistinct | src/eventCenterRuntime.ts:156-177 | event ids stay pairwise distinct |
| EventCenter.EventsInArrivalOrder | src/eventCenterRuntime.ts:76-177 | in every run the list holds what the current sources handed over since the last start that took effect: the first event of each id, in arrival order |
| EventCenter.FirstOccurrences | src/eventCenterRuntime.ts:164-177 | the first event of each id: exactly the positions at which an id first occurs, from front to back |
| EventCenter.OnlyStartEmpties | src/eventCenterRuntime.ts:76-88 | between two starts that take effect the list only grows at its end |
| EventCenter.OldGenerationIsInert | src/eventCenterRuntime.ts:179-184 | late results and callbacks of an old generation change nothing and leave no source open |
| EventCenter.StoppedStays | src/eventCenterRuntime.ts:90-97 | after a stop nothing that arrives late shows |
| EventCenter.StallsWhenInactive | src/eventCenterRuntime.ts:109-119 | connecting is left set for good exactly when the attempt resumes on an inactive page that was not stopped |
| EventCenter.StalledUntilStopped | src/eventCenterRuntime.ts:76-79 | from then on nothing but a stop helps |
| EventCenter.StallReached | src/eventCenterRuntime.ts:109-114 | a run that gets there |
| EventCenter.EventCenterRuntime.Start | src/eventCenterRuntime.ts:76-88 | the state after start |
| EventCenter.EventCenterRuntime.Stop | src/eventCenterRuntime.ts:90-97 | the state after stop |
| EventCenter.EventCenterRuntime.Toggle | src/eventCenterRuntime.ts:99-107 | the state and answer of toggle |
| EventCenter.EventCenterRuntime.Resume | src/eventCenterRuntime.ts:109-120 | the state once the address arrived |
| EventCenter.EventCenterRuntime.Fail | src/eventCenterRuntime.ts:145-153 | the state after a failed attempt |
| EventCenter.EventCenterRuntime.OnOpen | src/eventCenterRuntime.ts:121-129 | the state after an open callback |
| EventCenter.EventCenterRuntime.OnEvent | src/eventCenterRuntime.ts:130-177 | the state after an event callback |
| EventCenter.EventCenterRuntime.OnError | src/eventCenterRuntime.ts:136-144 | the state after an error callback |
| SentEvents.SentAtMostOnce | builtin-plugins/bark-runtime/src/lib.rs:554-602 | over every run an event is sent at most once, and at most twice more for each record not written in full |
| SentEvents.LogIsFaithful | builtin-plugins/bark-runtime/src/lib.rs:841-920 | while records are written in full, a key is in the replayed log exactly when its event was sent |
| SentEvents.RetriedUntilSent | builtin-plugins/ntfy-runtime/src/lib.rs:549-597 | while records are written in full, a delivery is attempted exactly when those four conditions hold and its event was never sent |
| SentEvents.RememberedExactly | builtin-plugins/bark-runtime/src/lib.rs:841-920 | over every run, failed appends included, a key is in the replayed log exactly when one of its successful sends was written on a closed line, and in full or last |
| SentEvents.AttemptedUnlessRemembered | builtin-plugins/bark-runtime/src/lib.rs:554-602 | a delivery is attempted exactly when the event calls for a notification, the configuration is complete, the log readable and the request built, and no such record of its event exists |
| SentEvents.AtMostOnceExactly | builtin-plugins/bark-runtime/src/lib.rs:554-602 | for a set of append outcomes, every run over it sends every event at most once exactly when the set holds no failure |
| SentEvents.TornRecordSendsThrice | builtin-plugins/ntfy-runtime/src/lib.rs:858-911 | one torn record lets one event be sent three times, so the bound is reached |
| SentEvents.LoadSentEventKeys | builtin-plugins/ntfy-runtime/src/lib.rs:889-911 | replaying ignores blank and unreadable lines |
| SentEvents.SentEventStore.RecordSent | builtin-plugins/bark-runtime/src/lib.rs:863-891 | a known key is accepted without writing; any other is remembered only after a full append |
| SentEvents.Plugin.HandleEvent | builtin-plugins/bark-runtime/src/lib.rs:554-602 | whether a send is attempted, what it records, and when the result is a success: nothing to do, already remembered, or sent and recorded in full |

## Left out

- `stable_hash`: the FNV-1a hash is a parameter of which only its hexadecimal output matters; it is not injective, so equal keys say no more than equal hashes.
- The helper loops `run_codex_permission_proxy` and `run_claude_permission_proxy` are modelled as the phases between their API calls, not as loops over a clock, because other clients act between any two calls; payload parsing, the listener setting and the printed JSON are not modelled.
- Each API endpoint is one atomic call on the request list; HTTP, the store and its files are not modelled.
- JSON text, serde and TOML beyond strings and block headers: JSON is a datatype, and whether a payload parses is a parameter.
- Clocks are integers given to each call; lock poisoning and the overflow of 64-bit versions are not modelled.
- SseVersions.VersionsIncreasePerClient: a client whose stamp fails because the broadcaster's lock is poisoned is not modelled; a stamped event lost before delivery is.
- HookQuoting.TomlStringReadsBack: the reader knows the one-letter escapes but not `\u` and `\U`, which the writer never produces.
- HookQuoting.ManifestPathIsOneWord: the reader of shell words handles blanks, single quotes and backslashes; expansions and double quotes are refused, since a quoted path needs neither.
- SessionRegistry.PagesIgnoreIterationExactly: assumes that no group list is longer than `usize::MAX`, as no vector is; so does `SessionGroups.PagesCover`.
- SentEvents.SentAtMostOnce: assumes a data directory; without one the plugins rebuild an empty store for every event. Request building, result reports and the notification rules are parameters of a delivery.
- SentEvents.RememberedExactly: whether the log can be read at all is a parameter of a delivery; a record torn inside a multi-byte character, after which the file is not valid UTF-8 and every later delivery fails to read it, is not tied to the append that tore it.
- EventCenter.OldGenerationIsInert: `createEventSource` may change whether the page is active, but not call `stop` itself; change callbacks, payload validation and texts are parameters.
- Base64.Base64Encode: bytes are integers, and the shifts and masks are written as division and remainder.
- The byte offsets of the source's string operations are character positions here; both cut at the same places.
- `find_session`, session details and `detail_matches_runtime_session`: lookups with little to prove.
- Backup files, status records and `select_hook_target` of the hook installers: plumbing around the edits.
- `parse_codex_messages_newest_first`, the session scanners and the cursor logic: their event parsers are not part of this model.
- User interface, tray, routes, process watchdogs and the remote server: wiring.
