/** Editing the JSON hook settings of Codex and Claude Code: removing Niuma's hooks, adding one, and what is
    left of everyone else's (crates/niuma-core/src/codex_hook.rs, crates/niuma-core/src/claude_hook.rs). */
module HookJson {
  import opened Wrappers
  import opened Text
  import opened HookQuoting

  datatype Json =
    | Null
    | Bool(b: bool)
    | Num(n: int)
    | Str(s: string)
    | Arr(items: seq<Json>)
    | Obj(fields: map<string, Json>)

  datatype Tool = Codex | ClaudeCode

  function MarkerOf(tool: Tool): string {
    match tool
    case Codex => MARKER
    case ClaudeCode => "internal hook claude-code"
  }

  predicate IsNiumaText(tool: Tool, command: string) {
    Contains(command, MarkerOf(tool)) && Contains(command, SOURCE)
  }

  /** The two marks of a tool's hook: what it calls and for whom. */
  lemma {:induction false} MarksAre(tool: Tool, command: string)
    ensures IsNiumaText(tool, command)
       <==> && Contains(command, if tool == Codex then "internal hook codex" else "internal hook claude-code")
            && Contains(command, "--source niuma-notifier")
  {}

  /** The command each tool's installer writes is recognised as its own. */
  lemma {:induction false} CommandIsNiuma(tool: Tool, mode: HookCommand)
    ensures IsNiumaText(tool, CommandWith(MarkerOf(tool), mode))
  {
    CommandIsMarked(MarkerOf(tool), mode);
  }

  predicate IsNiumaHook(tool: Tool, hook: Json) {
    hook.Obj? && "command" in hook.fields && hook.fields["command"].Str? && IsNiumaText(tool, hook.fields["command"].s)
  }

  // ---------------------------------------------------------------------------------------------
  // Removal
  // ---------------------------------------------------------------------------------------------

  predicate HoldsHooks(group: Json) {
    group.Obj? && "hooks" in group.fields && group.fields["hooks"].Arr?
  }

  function HooksIn(group: Json): seq<Json>
    requires HoldsHooks(group)
  {
    group.fields["hooks"].items
  }

  function KeepHooks(tool: Tool, hooks: seq<Json>): seq<Json> {
    if hooks == [] then []
    else
      var n := |hooks| - 1;
      KeepHooks(tool, hooks[..n]) + if IsNiumaHook(tool, hooks[n]) then [] else [hooks[n]]
  }

  function CleanGroup(tool: Tool, group: Json): Json {
    if HoldsHooks(group) then Obj(group.fields["hooks" := Arr(KeepHooks(tool, HooksIn(group)))]) else group
  }

  predicate IsEmptied(group: Json) {
    HoldsHooks(group) && HooksIn(group) == []
  }

  function CleanGroups(tool: Tool, groups: seq<Json>): seq<Json> {
    if groups == [] then []
    else
      var n := |groups| - 1;
      CleanGroups(tool, groups[..n])
      + if IsEmptied(CleanGroup(tool, groups[n])) then [] else [CleanGroup(tool, groups[n])]
  }

  function CleanEvent(tool: Tool, groups: Json): Json {
    if groups.Arr? then Arr(CleanGroups(tool, groups.items)) else groups
  }

  function CleanEvents(tool: Tool, hooks: map<string, Json>): map<string, Json> {
    map event | event in hooks && CleanEvent(tool, hooks[event]) != Arr([]) :: CleanEvent(tool, hooks[event])
  }

  predicate HasHooksObject(config: Json) {
    config.Obj? && "hooks" in config.fields && config.fields["hooks"].Obj?
  }

  function EventsOf(config: Json): map<string, Json> {
    if HasHooksObject(config) then config.fields["hooks"].fields else map[]
  }

  function Removed(tool: Tool, config: Json): Json {
    if HasHooksObject(config) then Obj(config.fields["hooks" := Obj(CleanEvents(tool, EventsOf(config)))]) else config
  }

  /** `remove_niuma_hooks_from_groups`: every group is cleaned, then the emptied ones go. */
  method RemoveFromGroups(tool: Tool, groups: seq<Json>) returns (result: seq<Json>)
    ensures result == CleanGroups(tool, groups)
  {
    result := [];
    var i := 0;
    while i < |groups|
      invariant 0 <= i <= |groups|
      invariant result == CleanGroups(tool, groups[..i])
    {
      var group := groups[i];
      if HoldsHooks(group) {
        var commands := RetainOthers(tool, HooksIn(group));
        group := Obj(group.fields["hooks" := Arr(commands)]);
      }
      assert groups[..i + 1][..i] == groups[..i];
      if !IsEmptied(group) {
        result := result + [group];
      }
      i := i + 1;
    }
    assert groups[..i] == groups;
  }

  method RetainOthers(tool: Tool, hooks: seq<Json>) returns (result: seq<Json>)
    ensures result == KeepHooks(tool, hooks)
  {
    result := [];
    var i := 0;
    while i < |hooks|
      invariant 0 <= i <= |hooks|
      invariant result == KeepHooks(tool, hooks[..i])
    {
      assert hooks[..i + 1][..i] == hooks[..i];
      if !IsNiumaHook(tool, hooks[i]) {
        result := result + [hooks[i]];
      }
      i := i + 1;
    }
    assert hooks[..i] == hooks;
  }

  /** `remove_niuma_hooks`: cleans every event and drops those left without groups. */
  method RemoveNiumaHooks(tool: Tool, config: Json) returns (result: Json)
    ensures result == Removed(tool, config)
  {
    result := config;
    if HasHooksObject(config) {
      var hooks := EventsOf(config);
      var rest := hooks.Keys;
      var cleaned: map<string, Json> := map[];
      while rest != {}
        invariant rest <= hooks.Keys
        invariant forall event ::
          event in cleaned <==> event in hooks && event !in rest && CleanEvent(tool, hooks[event]) != Arr([])
        invariant forall event :: event in cleaned ==> cleaned[event] == CleanEvent(tool, hooks[event])
        decreases rest
      {
        var event :| event in rest;
        rest := rest - {event};
        var groups := hooks[event];
        if groups.Arr? {
          var items := RemoveFromGroups(tool, groups.items);
          groups := Arr(items);
        }
        if groups != Arr([]) {
          cleaned := cleaned[event := groups];
        }
      }
      assert cleaned == CleanEvents(tool, hooks);
      result := Obj(config.fields["hooks" := Obj(cleaned)]);
    }
  }

  // ---------------------------------------------------------------------------------------------
  // Adding a hook
  // ---------------------------------------------------------------------------------------------

  const TIMEOUT_SECONDS: int := 660

  datatype NewHook = NewHook(event: string, matcher: Option<string>, command: string, statusMessage: string)

  function HookValue(hook: NewHook): Json {
    Obj(map["type" := Str("command"), "command" := Str(hook.command), "timeout" := Num(TIMEOUT_SECONDS),
            "statusMessage" := Str(hook.statusMessage)])
  }

  function MatcherFields(hook: NewHook): map<string, Json> {
    if hook.matcher.Some? then map["matcher" := Str(hook.matcher.value)] else map[]
  }

  function GroupValue(hook: NewHook): Json {
    Obj(MatcherFields(hook)["hooks" := Arr([HookValue(hook)])])
  }

  function FieldsOf(config: Json): map<string, Json> {
    if config.Obj? then config.fields else map[]
  }

  function GroupsOf(config: Json, event: string): seq<Json> {
    if event in EventsOf(config) && EventsOf(config)[event].Arr? then EventsOf(config)[event].items else []
  }

  function Upserted(tool: Tool, config: Json, hook: NewHook): Json {
    var groups := CleanGroups(tool, GroupsOf(config, hook.event)) + [GroupValue(hook)];
    Obj(FieldsOf(config)["hooks" := Obj(EventsOf(config)[hook.event := Arr(groups)])])
  }

  /** `upsert_event` and `upsert_permission_request_hook`. */
  method UpsertEvent(tool: Tool, config: Json, hook: NewHook) returns (result: Json)
    ensures result == Upserted(tool, config, hook)
  {
    result := config;
    if !result.Obj? {
      result := Obj(map[]);
    }
    if !("hooks" in result.fields && result.fields["hooks"].Obj?) {
      result := Obj(result.fields["hooks" := Obj(map[])]);
    }
    var hooks := result.fields["hooks"].fields;
    assert hooks == EventsOf(config);
    assert result.fields - {"hooks"} == FieldsOf(config) - {"hooks"};
    if hook.event !in hooks || !hooks[hook.event].Arr? {
      hooks := hooks[hook.event := Arr([])];
    }
    assert hooks[hook.event].items == GroupsOf(config, hook.event);
    var groups := RemoveFromGroups(tool, hooks[hook.event].items);
    var group := MatcherFields(hook);
    group := group["hooks" := Arr([HookValue(hook)])];
    groups := groups + [Obj(group)];
    hooks := hooks[hook.event := Arr(groups)];
    assert hooks == EventsOf(config)[hook.event := Arr(groups)];
    result := Obj(result.fields["hooks" := Obj(hooks)]);
    OneFieldApart(result.fields, FieldsOf(config), "hooks", Obj(hooks));
  }

  lemma {:induction false} OneFieldApart(a: map<string, Json>, b: map<string, Json>, name: string, value: Json)
    requires a - {name} == b - {name} && name in a && a[name] == value
    ensures a == b[name := value]
  {
    forall key | key in a ensures key in b[name := value] && a[key] == b[name := value][key] {
      assert key != name ==> key in a - {name};
    }
    forall key | key in b[name := value] ensures key in a {
      assert key != name ==> key in b - {name};
    }
  }

  function Install(tool: Tool, config: Json, hook: NewHook): Json {
    Upserted(tool, Removed(tool, config), hook)
  }

  // ---------------------------------------------------------------------------------------------
  // What a configuration registers
  // ---------------------------------------------------------------------------------------------

  /** A hook together with the other settings of its group. */
  datatype Registration = Registration(settings: map<string, Json>, hook: Json)

  function Register(settings: map<string, Json>, hooks: seq<Json>): seq<Registration> {
    if hooks == [] then []
    else Register(settings, hooks[..|hooks| - 1]) + [Registration(settings, hooks[|hooks| - 1])]
  }

  function GroupRegistrations(group: Json): seq<Registration> {
    if HoldsHooks(group) then Register(group.fields - {"hooks"}, HooksIn(group)) else []
  }

  function Registrations(groups: seq<Json>): seq<Registration> {
    if groups == [] then [] else Registrations(groups[..|groups| - 1]) + GroupRegistrations(groups[|groups| - 1])
  }

  /** All hooks of an event, in order. */
  function Registered(config: Json, event: string): seq<Registration> {
    Registrations(GroupsOf(config, event))
  }

  function Others(tool: Tool, registered: seq<Registration>): seq<Registration> {
    if registered == [] then []
    else
      var n := |registered| - 1;
      Others(tool, registered[..n]) + if IsNiumaHook(tool, registered[n].hook) then [] else [registered[n]]
  }

  /** Groups without a hooks array, which removal has no business with. */
  function Opaque(groups: seq<Json>): seq<Json> {
    if groups == [] then []
    else Opaque(groups[..|groups| - 1]) + if HoldsHooks(groups[|groups| - 1]) then [] else [groups[|groups| - 1]]
  }

  lemma {:induction false} OthersAppend(tool: Tool, a: seq<Registration>, b: seq<Registration>)
    ensures Others(tool, a + b) == Others(tool, a) + Others(tool, b)
  {
    if b == [] {
      assert a + b == a && Others(tool, a) + [] == Others(tool, a);
    } else {
      var n := |b| - 1;
      assert (a + b)[..|a| + n] == a + b[..n];
      OthersAppend(tool, a, b[..n]);
    }
  }

  lemma {:induction false} OthersMembers(tool: Tool, registered: seq<Registration>, r: Registration)
    ensures r in Others(tool, registered) <==> r in registered && !IsNiumaHook(tool, r.hook)
  {
    if registered != [] {
      var n := |registered| - 1;
      OthersMembers(tool, registered[..n], r);
      assert registered == registered[..n] + [registered[n]];
    }
  }

  lemma {:induction false} RegisterOne(settings: map<string, Json>, hooks: seq<Json>, hook: Json)
    ensures Register(settings, hooks + [hook]) == Register(settings, hooks) + [Registration(settings, hook)]
  {
    assert (hooks + [hook])[..|hooks|] == hooks;
  }

  lemma {:induction false} OthersOne(tool: Tool, registered: seq<Registration>, r: Registration)
    ensures Others(tool, registered + [r]) == Others(tool, registered) + if IsNiumaHook(tool, r.hook) then [] else [r]
  {
    assert (registered + [r])[..|registered|] == registered;
  }

  lemma {:induction false} RegisterKept(tool: Tool, settings: map<string, Json>, hooks: seq<Json>)
    ensures Register(settings, KeepHooks(tool, hooks)) == Others(tool, Register(settings, hooks))
  {
    if hooks != [] {
      var n := |hooks| - 1;
      RegisterKept(tool, settings, hooks[..n]);
      OthersOne(tool, Register(settings, hooks[..n]), Registration(settings, hooks[n]));
      RegisterOne(settings, KeepHooks(tool, hooks[..n]), hooks[n]);
      assert KeepHooks(tool, hooks[..n]) + [] == KeepHooks(tool, hooks[..n]);
      assert Others(tool, Register(settings, hooks[..n])) + [] == Others(tool, Register(settings, hooks[..n]));
    }
  }

  /** Updates of one field: the others stay, the last one counts, and writing back what is there does nothing. */
  lemma {:induction false} OneField(fields: map<string, Json>, name: string, first: Json, second: Json)
    ensures fields[name := first] - {name} == fields - {name}
    ensures fields[name := first][name := second] == fields[name := second]
    ensures name in fields && fields[name] == first ==> fields[name := first] == fields
  {}

  lemma {:induction false} CleanGroupRegistrations(tool: Tool, group: Json)
    ensures GroupRegistrations(CleanGroup(tool, group)) == Others(tool, GroupRegistrations(group))
    ensures HoldsHooks(CleanGroup(tool, group)) == HoldsHooks(group)
  {
    if HoldsHooks(group) {
      OneField(group.fields, "hooks", Arr(KeepHooks(tool, HooksIn(group))), Null);
      RegisterKept(tool, group.fields - {"hooks"}, HooksIn(group));
    }
  }

  lemma {:induction false} RegistrationsOne(groups: seq<Json>, group: Json)
    ensures Registrations(groups + [group]) == Registrations(groups) + GroupRegistrations(group)
    ensures Opaque(groups + [group]) == Opaque(groups) + if HoldsHooks(group) then [] else [group]
  {
    assert (groups + [group])[..|groups|] == groups;
  }

  lemma {:induction false} CleanRegistrations(tool: Tool, groups: seq<Json>)
    ensures Registrations(CleanGroups(tool, groups)) == Others(tool, Registrations(groups))
  {
    if groups != [] {
      var n := |groups| - 1;
      var group, cleaned := groups[n], CleanGroups(tool, groups[..n]);
      CleanRegistrations(tool, groups[..n]);
      CleanGroupRegistrations(tool, group);
      OthersAppend(tool, Registrations(groups[..n]), GroupRegistrations(group));
      RegistrationsOne(cleaned, CleanGroup(tool, group));
      assert cleaned + [] == cleaned;
      assert Registrations(cleaned) + [] == Registrations(cleaned);
    }
  }

  lemma {:induction false} OpaqueLast(groups: seq<Json>, group: Json)
    ensures HoldsHooks(group) ==> Opaque(groups + [group]) == Opaque(groups)
    ensures !HoldsHooks(group) ==> Opaque(groups + [group]) == Opaque(groups) + [group]
  {
    RegistrationsOne(groups, group);
  }

  lemma {:induction false} CleanOpaque(tool: Tool, groups: seq<Json>)
    ensures Opaque(CleanGroups(tool, groups)) == Opaque(groups)
  {
    if groups != [] {
      var front, last := groups[..|groups| - 1], groups[|groups| - 1];
      assert groups == front + [last];
      CleanOpaque(tool, front);
      OpaqueLast(front, last);
      OpaqueLast(CleanGroups(tool, front), CleanGroup(tool, last));
      assert CleanGroups(tool, front) + [] == CleanGroups(tool, front);
    }
  }

  lemma {:induction false} EditedGroups(tool: Tool, config: Json, hook: NewHook, event: string)
    ensures GroupsOf(Removed(tool, config), event) == CleanGroups(tool, GroupsOf(config, event))
    ensures GroupsOf(Upserted(tool, config, hook), event)
         == if event == hook.event then CleanGroups(tool, GroupsOf(config, event)) + [GroupValue(hook)]
            else GroupsOf(config, event)
  {}

  /** Removal filters: in every event exactly the Niuma hooks are gone, all other hooks keep their order and
      the settings of their group, and groups without a hooks array are untouched. */
  lemma {:induction false} RemovalFilters(tool: Tool, config: Json, event: string)
    ensures Registered(Removed(tool, config), event) == Others(tool, Registered(config, event))
    ensures Opaque(GroupsOf(Removed(tool, config), event)) == Opaque(GroupsOf(config, event))
    ensures forall r :: r in Registered(Removed(tool, config), event) ==> !IsNiumaHook(tool, r.hook)
  {
    EditedGroups(tool, config, NewHook(event, None, "", ""), event);
    CleanRegistrations(tool, GroupsOf(config, event));
    CleanOpaque(tool, GroupsOf(config, event));
    forall r | r in Others(tool, Registered(config, event)) ensures !IsNiumaHook(tool, r.hook) {
      OthersMembers(tool, Registered(config, event), r);
    }
  }

  /** Nothing outside the hooks changes, nor do events that are not lists. */
  lemma {:induction false} RemovalKeepsOtherSettings(tool: Tool, config: Json, event: string)
    ensures !config.Obj? ==> Removed(tool, config) == config
    ensures config.Obj? ==>
      Removed(tool, config).Obj? && Removed(tool, config).fields - {"hooks"} == config.fields - {"hooks"}
    ensures event in EventsOf(config) && !EventsOf(config)[event].Arr? ==>
      event in EventsOf(Removed(tool, config)) && EventsOf(Removed(tool, config))[event] == EventsOf(config)[event]
  {
    if HasHooksObject(config) {
      OneField(config.fields, "hooks", Obj(CleanEvents(tool, EventsOf(config))), Null);
    }
  }

  lemma {:induction false} NewRegistration(hook: NewHook)
    ensures GroupRegistrations(GroupValue(hook)) == [Registration(MatcherFields(hook), HookValue(hook))]
  {
    var fields := MatcherFields(hook);
    OneField(fields, "hooks", Arr([HookValue(hook)]), Null);
    assert fields - {"hooks"} == fields;
    RegisterOne(fields, [], HookValue(hook));
    assert [] + [HookValue(hook)] == [HookValue(hook)];
  }

  /** The registration an install adds: a command hook with the given command and message, which the tool gives eleven
      minutes, for the given matcher if there is one. */
  predicate IsNewRegistration(r: Registration, hook: NewHook) {
    && r.hook == Obj(map["type" := Str("command"), "command" := Str(hook.command), "timeout" := Num(660),
                         "statusMessage" := Str(hook.statusMessage)])
    && r.settings == if hook.matcher == None then map[] else map["matcher" := Str(hook.matcher.value)]
  }

  lemma {:induction false} OthersTwice(tool: Tool, registered: seq<Registration>)
    ensures Others(tool, Others(tool, registered)) == Others(tool, registered)
  {
    if registered != [] {
      var n := |registered| - 1;
      OthersTwice(tool, registered[..n]);
      OthersOne(tool, Others(tool, registered[..n]), registered[n]);
      assert Others(tool, registered[..n]) + [] == Others(tool, registered[..n]);
    }
  }

  /** An install leaves exactly one Niuma hook, the last of its event, after everyone else's. */
  lemma {:induction false} InstallLeavesOne(tool: Tool, config: Json, hook: NewHook, event: string)
    requires IsNiumaText(tool, hook.command)
    ensures Registered(Install(tool, config, hook), event)
         == Others(tool, Registered(config, event))
            + if event == hook.event then [Registration(MatcherFields(hook), HookValue(hook))] else []
    ensures IsNiumaHook(tool, HookValue(hook))
    ensures IsNewRegistration(Registration(MatcherFields(hook), HookValue(hook)), hook)
  {
    var removed := Removed(tool, config);
    RemovalFilters(tool, config, event);
    EditedGroups(tool, removed, hook, event);
    if event == hook.event {
      CleanRegistrations(tool, GroupsOf(removed, event));
      OthersTwice(tool, Registered(config, event));
      RegistrationsOne(CleanGroups(tool, GroupsOf(removed, event)), GroupValue(hook));
      NewRegistration(hook);
    } else {
      assert Others(tool, Registered(config, event)) + [] == Others(tool, Registered(config, event));
    }
  }

  // ---------------------------------------------------------------------------------------------
  // Detection
  // ---------------------------------------------------------------------------------------------

  predicate GroupHasNiuma(tool: Tool, group: Json) {
    HoldsHooks(group) && SomeHook(tool, HooksIn(group))
  }

  predicate SomeGroup(tool: Tool, groups: seq<Json>) {
    exists group | group in groups :: GroupHasNiuma(tool, group)
  }

  lemma {:induction false} SomeGroupLast(tool: Tool, groups: seq<Json>)
    requires groups != []
    ensures SomeGroup(tool, groups)
         == (SomeGroup(tool, groups[..|groups| - 1]) || GroupHasNiuma(tool, groups[|groups| - 1]))
  {
    var n := |groups| - 1;
    assert groups == groups[..n] + [groups[n]];
    assert forall group :: group in groups <==> group in groups[..n] || group == groups[n];
  }

  /** `json_event_has_niuma_hook`, and its Claude counterpart. */
  predicate EventHasNiuma(tool: Tool, config: Json, event: string) {
    SomeGroup(tool, GroupsOf(config, event))
  }

  ghost predicate SomeNiuma(tool: Tool, registered: seq<Registration>) {
    exists r :: r in registered && IsNiumaHook(tool, r.hook)
  }

  lemma {:induction false} SomeNiumaAppend(tool: Tool, a: seq<Registration>, b: seq<Registration>)
    ensures SomeNiuma(tool, a + b) == (SomeNiuma(tool, a) || SomeNiuma(tool, b))
  {
    if SomeNiuma(tool, a) {
      var r :| r in a && IsNiumaHook(tool, r.hook);
      assert r in a + b;
    }
    if SomeNiuma(tool, b) {
      var r :| r in b && IsNiumaHook(tool, r.hook);
      assert r in a + b;
    }
  }

  predicate SomeHook(tool: Tool, hooks: seq<Json>) {
    exists hook | hook in hooks :: IsNiumaHook(tool, hook)
  }

  lemma {:induction false} SomeHookLast(tool: Tool, hooks: seq<Json>)
    requires hooks != []
    ensures SomeHook(tool, hooks) == (SomeHook(tool, hooks[..|hooks| - 1]) || IsNiumaHook(tool, hooks[|hooks| - 1]))
  {
    var n := |hooks| - 1;
    assert hooks == hooks[..n] + [hooks[n]];
    assert forall hook :: hook in hooks <==> hook in hooks[..n] || hook == hooks[n];
  }

  lemma {:induction false} RegisterDetects(tool: Tool, settings: map<string, Json>, hooks: seq<Json>)
    ensures SomeNiuma(tool, Register(settings, hooks)) == SomeHook(tool, hooks)
  {
    if hooks != [] {
      var n := |hooks| - 1;
      var last := Registration(settings, hooks[n]);
      RegisterDetects(tool, settings, hooks[..n]);
      SomeNiumaAppend(tool, Register(settings, hooks[..n]), [last]);
      assert last in [last];
      SomeHookLast(tool, hooks);
    }
  }

  lemma {:induction false} GroupDetects(tool: Tool, group: Json)
    ensures SomeNiuma(tool, GroupRegistrations(group)) == GroupHasNiuma(tool, group)
  {
    if HoldsHooks(group) {
      RegisterDetects(tool, group.fields - {"hooks"}, HooksIn(group));
    }
  }

  lemma {:induction false} GroupsDetect(tool: Tool, groups: seq<Json>)
    ensures SomeNiuma(tool, Registrations(groups)) == SomeGroup(tool, groups)
  {
    if groups != [] {
      var n := |groups| - 1;
      GroupsDetect(tool, groups[..n]);
      SomeNiumaAppend(tool, Registrations(groups[..n]), GroupRegistrations(groups[n]));
      GroupDetects(tool, groups[n]);
      SomeGroupLast(tool, groups);
    }
  }

  /** Detection agrees with what is registered. */
  lemma {:induction false} DetectionIsExact(tool: Tool, config: Json, event: string)
    ensures EventHasNiuma(tool, config, event) == SomeNiuma(tool, Registered(config, event))
  {
    GroupsDetect(tool, GroupsOf(config, event));
  }

  lemma {:induction false} RemovalLeavesNone(tool: Tool, config: Json, event: string)
    ensures !EventHasNiuma(tool, Removed(tool, config), event)
  {
    RemovalFilters(tool, config, event);
    DetectionIsExact(tool, Removed(tool, config), event);
  }

  /** The status reported after removal and after an install, for every event. */
  lemma {:induction false} StatusFollowsEdits(tool: Tool, config: Json, hook: NewHook, event: string)
    requires IsNiumaText(tool, hook.command)
    ensures !EventHasNiuma(tool, Removed(tool, config), event)
    ensures EventHasNiuma(tool, Install(tool, config, hook), event) == (event == hook.event)
  {
    var others := Others(tool, Registered(config, event));
    var added := Registration(MatcherFields(hook), HookValue(hook));
    RemovalLeavesNone(tool, config, event);
    RemovalFilters(tool, config, event);
    InstallLeavesOne(tool, config, hook, event);
    DetectionIsExact(tool, Install(tool, config, hook), event);
    SomeNiumaAppend(tool, others, if event == hook.event then [added] else []);
    assert added in [added];
  }

  // ---------------------------------------------------------------------------------------------
  // Undoing an install
  // ---------------------------------------------------------------------------------------------

  /** A group that removal leaves alone. */
  predicate IsTidyGroup(tool: Tool, group: Json) {
    HoldsHooks(group) ==>
      HooksIn(group) != [] && forall i :: 0 <= i < |HooksIn(group)| ==> !IsNiumaHook(tool, HooksIn(group)[i])
  }

  predicate AreTidy(tool: Tool, groups: seq<Json>) {
    forall i :: 0 <= i < |groups| ==> IsTidyGroup(tool, groups[i])
  }

  predicate IsTidyEvent(tool: Tool, groups: Json) {
    groups.Arr? ==> groups.items != [] && AreTidy(tool, groups.items)
  }

  ghost predicate IsTidy(tool: Tool, config: Json) {
    forall event :: event in EventsOf(config) ==> IsTidyEvent(tool, EventsOf(config)[event])
  }

  lemma {:induction false} KeptLast(tool: Tool, hooks: seq<Json>, hook: Json)
    ensures IsNiumaHook(tool, hook) ==> KeepHooks(tool, hooks + [hook]) == KeepHooks(tool, hooks)
    ensures !IsNiumaHook(tool, hook) ==> KeepHooks(tool, hooks + [hook]) == KeepHooks(tool, hooks) + [hook]
  {
    assert (hooks + [hook])[..|hooks|] == hooks;
  }

  lemma {:induction false} KeptHooks(tool: Tool, hooks: seq<Json>)
    ensures forall i :: 0 <= i < |KeepHooks(tool, hooks)| ==> !IsNiumaHook(tool, KeepHooks(tool, hooks)[i])
    ensures (forall i :: 0 <= i < |hooks| ==> !IsNiumaHook(tool, hooks[i])) ==> KeepHooks(tool, hooks) == hooks
  {
    if hooks != [] {
      var front, last := hooks[..|hooks| - 1], hooks[|hooks| - 1];
      assert hooks == front + [last];
      KeptHooks(tool, front);
      KeptLast(tool, front, last);
    }
  }

  lemma {:induction false} TidyGroupStays(tool: Tool, group: Json)
    requires IsTidyGroup(tool, group)
    ensures CleanGroup(tool, group) == group && !IsEmptied(group)
  {
    if HoldsHooks(group) {
      KeptHooks(tool, HooksIn(group));
      OneField(group.fields, "hooks", group.fields["hooks"], Null);
    }
  }

  lemma {:induction false} TidyGroupsStay(tool: Tool, groups: seq<Json>)
    requires AreTidy(tool, groups)
    ensures CleanGroups(tool, groups) == groups
  {
    if groups != [] {
      var n := |groups| - 1;
      TidyGroupsStay(tool, groups[..n]);
      TidyGroupStays(tool, groups[n]);
      assert groups == groups[..n] + [groups[n]];
    }
  }

  lemma {:induction false} CleanGroupIsTidy(tool: Tool, group: Json)
    ensures IsEmptied(CleanGroup(tool, group)) || IsTidyGroup(tool, CleanGroup(tool, group))
  {
    if HoldsHooks(group) {
      KeptHooks(tool, HooksIn(group));
    }
  }

  lemma {:induction false} CleanGroupsAreTidy(tool: Tool, groups: seq<Json>)
    ensures AreTidy(tool, CleanGroups(tool, groups))
    ensures CleanGroups(tool, CleanGroups(tool, groups)) == CleanGroups(tool, groups)
  {
    if groups != [] {
      var n := |groups| - 1;
      CleanGroupsAreTidy(tool, groups[..n]);
      CleanGroupIsTidy(tool, groups[n]);
    }
    TidyGroupsStay(tool, CleanGroups(tool, groups));
  }

  /** Removal takes the group an install added away again. */
  lemma {:induction false} NewGroupGoes(tool: Tool, groups: seq<Json>, hook: NewHook)
    requires IsNiumaText(tool, hook.command)
    ensures CleanGroups(tool, groups + [GroupValue(hook)]) == CleanGroups(tool, groups)
  {
    var value := HookValue(hook);
    assert IsNiumaHook(tool, value);
    assert [value][..0] == [];
    assert KeepHooks(tool, [value]) == [];
    assert IsEmptied(CleanGroup(tool, GroupValue(hook)));
    assert (groups + [GroupValue(hook)])[..|groups|] == groups;
    assert CleanGroups(tool, groups) + [] == CleanGroups(tool, groups);
  }

  lemma {:induction false} EditedEvents(tool: Tool, config: Json, hook: NewHook)
    ensures EventsOf(Upserted(tool, config, hook))
         == EventsOf(config)[hook.event := Arr(CleanGroups(tool, GroupsOf(config, hook.event)) + [GroupValue(hook)])]
    ensures EventsOf(Removed(tool, Upserted(tool, config, hook)))
         == CleanEvents(tool, EventsOf(Upserted(tool, config, hook)))
  {}

  lemma {:induction false} CleanEventsAt(tool: Tool, hooks: map<string, Json>, event: string)
    ensures event in CleanEvents(tool, hooks) <==> event in hooks && CleanEvent(tool, hooks[event]) != Arr([])
    ensures event in CleanEvents(tool, hooks) ==> CleanEvents(tool, hooks)[event] == CleanEvent(tool, hooks[event])
  {}

  lemma {:induction false} UndoneEvent(tool: Tool, config: Json, hook: NewHook, event: string)
    requires IsNiumaText(tool, hook.command)
    ensures var undone := EventsOf(Removed(tool, Upserted(tool, config, hook)));
      var groups := CleanGroups(tool, GroupsOf(config, hook.event));
      if event == hook.event
      then (event in undone <==> groups != []) && (event in undone ==> undone[event] == Arr(groups))
      else (event in undone <==> event in CleanEvents(tool, EventsOf(config)))
           && (event in undone ==> undone[event] == CleanEvents(tool, EventsOf(config))[event])
  {
    var groups := CleanGroups(tool, GroupsOf(config, hook.event));
    EditedEvents(tool, config, hook);
    CleanEventsAt(tool, EventsOf(Upserted(tool, config, hook)), event);
    if event == hook.event {
      CleanGroupsAreTidy(tool, GroupsOf(config, event));
      NewGroupGoes(tool, groups, hook);
      assert CleanEvent(tool, Arr(groups + [GroupValue(hook)])) == Arr(groups);
    } else {
      CleanEventsAt(tool, EventsOf(config), event);
    }
  }

  lemma {:induction false} UndoneShape(tool: Tool, config: Json, hook: NewHook)
    ensures HasHooksObject(Removed(tool, Upserted(tool, config, hook)))
    ensures Removed(tool, Upserted(tool, config, hook))
         == Obj(FieldsOf(config)["hooks" := Obj(EventsOf(Removed(tool, Upserted(tool, config, hook))))])
  {
    var groups := CleanGroups(tool, GroupsOf(config, hook.event)) + [GroupValue(hook)];
    OneField(FieldsOf(config), "hooks", Obj(EventsOf(config)[hook.event := Arr(groups)]),
                   Obj(EventsOf(Removed(tool, Upserted(tool, config, hook)))));
  }

  /** What a caller can check beforehand: removing after an install restores the configuration. */
  ghost predicate CanBeRestored(tool: Tool, config: Json, event: string) {
    HasHooksObject(config) && IsTidy(tool, config) && (event in EventsOf(config) ==> EventsOf(config)[event].Arr?)
  }

  lemma {:induction false} RestoresEvent(tool: Tool, config: Json, hook: NewHook, event: string)
    requires IsNiumaText(tool, hook.command) && CanBeRestored(tool, config, hook.event)
    ensures var undone := EventsOf(Removed(tool, Upserted(tool, config, hook)));
      (event in undone <==> event in EventsOf(config)) && (event in undone ==> undone[event] == EventsOf(config)[event])
  {
    UndoneEvent(tool, config, hook, event);
    if event in EventsOf(config) {
      assert IsTidyEvent(tool, EventsOf(config)[event]);
      if EventsOf(config)[event].Arr? {
        TidyGroupsStay(tool, EventsOf(config)[event].items);
      }
    }
  }

  lemma {:induction false} RestoredEvent(tool: Tool, config: Json, hook: NewHook, event: string)
    requires IsNiumaText(tool, hook.command)
    requires EventsOf(Removed(tool, Upserted(tool, config, hook))) == EventsOf(config) && event in EventsOf(config)
    ensures IsTidyEvent(tool, EventsOf(config)[event]) && (event == hook.event ==> EventsOf(config)[event].Arr?)
  {
    UndoneEvent(tool, config, hook, event);
    if event == hook.event {
      CleanGroupsAreTidy(tool, GroupsOf(config, event));
    } else if EventsOf(config)[event].Arr? {
      CleanGroupsAreTidy(tool, EventsOf(config)[event].items);
    }
  }

  /** Removing after adding is the identity exactly on configurations with a hooks object whose lists hold no
      Niuma hook and nothing empty, and whose entry for the event, if any, is a list. */
  lemma {:induction false} RoundTripIsExact(tool: Tool, config: Json, hook: NewHook)
    requires IsNiumaText(tool, hook.command)
    ensures Removed(tool, Upserted(tool, config, hook)) == config <==> CanBeRestored(tool, config, hook.event)
  {
    var undone := Removed(tool, Upserted(tool, config, hook));
    UndoneShape(tool, config, hook);
    if CanBeRestored(tool, config, hook.event) {
      forall event ensures event in EventsOf(undone) <==> event in EventsOf(config) {
        RestoresEvent(tool, config, hook, event);
      }
      forall event | event in EventsOf(undone) ensures EventsOf(undone)[event] == EventsOf(config)[event] {
        RestoresEvent(tool, config, hook, event);
      }
      assert EventsOf(undone) == EventsOf(config);
      OneField(config.fields, "hooks", config.fields["hooks"], Null);
    }
    if undone == config {
      forall event | event in EventsOf(config)
        ensures IsTidyEvent(tool, EventsOf(config)[event]) && (event == hook.event ==> EventsOf(config)[event].Arr?)
      {
        RestoredEvent(tool, config, hook, event);
      }
    }
  }

  lemma {:induction false} CleanEventsTwice(tool: Tool, hooks: map<string, Json>)
    ensures CleanEvents(tool, CleanEvents(tool, hooks)) == CleanEvents(tool, hooks)
  {
    var cleaned := CleanEvents(tool, hooks);
    forall event | event in cleaned ensures CleanEvent(tool, cleaned[event]) == cleaned[event] {
      if hooks[event].Arr? {
        CleanGroupsAreTidy(tool, hooks[event].items);
      }
    }
  }

  lemma {:induction false} RemovedEvents(tool: Tool, config: Json)
    ensures EventsOf(Removed(tool, config)) == CleanEvents(tool, EventsOf(config))
    ensures CleanEvents(tool, EventsOf(Removed(tool, config))) == EventsOf(Removed(tool, config))
  {
    CleanEventsTwice(tool, EventsOf(config));
  }

  lemma {:induction false} RemovalIsIdempotent(tool: Tool, config: Json)
    ensures Removed(tool, Removed(tool, config)) == Removed(tool, config)
  {
    if HasHooksObject(config) {
      RemovedEvents(tool, config);
      OneField(config.fields, "hooks", Obj(EventsOf(Removed(tool, config))), Obj(EventsOf(Removed(tool, config))));
    }
  }

  lemma {:induction false} SameUpdate(a: map<string, Json>, b: map<string, Json>, name: string, value: Json)
    requires forall key :: key != name ==> (key in a <==> key in b) && (key in a ==> a[key] == b[key])
    ensures a[name := value] == b[name := value]
  {}

  /** After undoing an install, the other events are those removal had left. */
  lemma {:induction false} UndoneInstall(tool: Tool, config: Json, hook: NewHook, value: Json)
    requires IsNiumaText(tool, hook.command) && Removed(tool, config) == config
    ensures var undone := Removed(tool, Upserted(tool, config, hook));
      && CleanGroups(tool, GroupsOf(undone, hook.event)) == CleanGroups(tool, GroupsOf(config, hook.event))
      && EventsOf(undone)[hook.event := value] == EventsOf(config)[hook.event := value]
  {
    var undone := Removed(tool, Upserted(tool, config, hook));
    RemovedEvents(tool, config);
    UndoneEvent(tool, config, hook, hook.event);
    CleanGroupsAreTidy(tool, GroupsOf(config, hook.event));
    forall key | key != hook.event
      ensures key in EventsOf(undone) <==> key in EventsOf(config)
      ensures key in EventsOf(undone) ==> EventsOf(undone)[key] == EventsOf(config)[key]
    {
      UndoneEvent(tool, config, hook, key);
    }
    SameUpdate(EventsOf(undone), EventsOf(config), hook.event, value);
  }

  /** Unlike the TOML edit, installing twice is the same as installing once. */
  lemma {:induction false} InstallIsIdempotent(tool: Tool, config: Json, hook: NewHook)
    requires IsNiumaText(tool, hook.command)
    ensures Install(tool, Install(tool, config, hook), hook) == Install(tool, config, hook)
  {
    var removed := Removed(tool, config);
    RemovalIsIdempotent(tool, config);
    var groups := Arr(CleanGroups(tool, GroupsOf(removed, hook.event)) + [GroupValue(hook)]);
    UndoneInstall(tool, removed, hook, groups);
    UndoneShape(tool, removed, hook);
    var undone := Removed(tool, Upserted(tool, removed, hook));
    OneField(FieldsOf(removed), "hooks", Obj(EventsOf(undone)), Obj(EventsOf(removed)[hook.event := groups]));
  }

  // ---------------------------------------------------------------------------------------------
  // Cleaning up hooks.json when the hook moves to config.toml
  // ---------------------------------------------------------------------------------------------

  datatype Cleanup = LeaveFile | DeleteFile | WriteFile(config: Json)

  predicate ContainsNiuma(config: Json) {
    || EventHasNiuma(Codex, config, "PermissionRequest") || EventHasNiuma(Codex, config, "SessionStart")
    || EventHasNiuma(Codex, config, "Stop")
  }

  predicate DefinesHooks(config: Json) {
    exists event | event in EventsOf(config) :: EventDefinesHooks(config, event)
  }

  predicate EventDefinesHooks(config: Json, event: string) {
    var groups := GroupsOf(config, event);
    exists i | 0 <= i < |groups| :: HoldsHooks(groups[i]) && HooksIn(groups[i]) != []
  }

  function CleanupAction(fileExists: bool, config: Json): Cleanup {
    if !fileExists || !ContainsNiuma(config) then LeaveFile
    else
      var removed := Removed(Codex, config);
      if removed.Obj? && (forall key | key in removed.fields :: key == "hooks") && !DefinesHooks(removed)
      then DeleteFile
      else WriteFile(removed)
  }

  lemma {:induction false} NothingRegistered(groups: seq<Json>)
    requires forall i :: 0 <= i < |groups| ==> !(HoldsHooks(groups[i]) && HooksIn(groups[i]) != [])
    ensures Registrations(groups) == []
  {
    if groups != [] {
      NothingRegistered(groups[..|groups| - 1]);
    }
  }

  /** The file is deleted only when every hook registered in it is Niuma's own; a written file registers exactly
      the others. */
  lemma {:induction false} CleanupKeepsOtherHooks(fileExists: bool, config: Json, event: string)
    ensures var action := CleanupAction(fileExists, config);
      && (action.DeleteFile? ==> Others(Codex, Registered(config, event)) == [])
      && (action.WriteFile? ==> Registered(action.config, event) == Others(Codex, Registered(config, event)))
  {
    RemovalFilters(Codex, config, event);
    var removed := Removed(Codex, config);
    if !DefinesHooks(removed) {
      if event in EventsOf(removed) {
        assert !EventDefinesHooks(removed, event);
      }
      NothingRegistered(GroupsOf(removed, event));
    }
  }

  function AfterCleanup(fileExists: bool, config: Json): Json {
    match CleanupAction(fileExists, config)
    case LeaveFile => config
    case DeleteFile => Obj(map["hooks" := Obj(map[])])
    case WriteFile(written) => written
  }

  /** A value at an event that registers nothing but is no list of hook groups either. */
  predicate IsUnread(groups: Json) {
    !groups.Arr? || Opaque(groups.items) != []
  }

  lemma {:induction false} AllOpaque(groups: seq<Json>)
    requires forall i :: 0 <= i < |groups| ==> !HoldsHooks(groups[i])
    ensures Opaque(groups) == groups
  {
    if groups != [] {
      AllOpaque(groups[..|groups| - 1]);
    }
  }

  lemma {:induction false} UnreadStays(config: Json, event: string)
    requires event in EventsOf(config) && !DefinesHooks(Removed(Codex, config))
    ensures event in EventsOf(Removed(Codex, config)) <==> IsUnread(EventsOf(config)[event])
  {
    var removed, groups := Removed(Codex, config), GroupsOf(config, event);
    var cleaned := CleanGroups(Codex, groups);
    CleanOpaque(Codex, groups);
    CleanGroupsAreTidy(Codex, groups);
    if event in EventsOf(removed) {
      assert !EventDefinesHooks(removed, event);
      if EventsOf(config)[event].Arr? {
        assert GroupsOf(removed, event) == cleaned;
        forall i | 0 <= i < |cleaned| ensures !HoldsHooks(cleaned[i]) {
          assert IsTidyGroup(Codex, cleaned[i]);
        }
        AllOpaque(cleaned);
      }
    }
  }

  /** What deleting the file loses: it would have been left with something exactly when some event holds a value
      that is not a list, or a group without a hooks list. */
  lemma {:induction false} DeletionLosesUnread(config: Json)
    requires CleanupAction(true, config).DeleteFile?
    ensures AfterCleanup(true, config) != Removed(Codex, config)
      <==> exists event :: event in EventsOf(config) && IsUnread(EventsOf(config)[event])
  {
    var removed := Removed(Codex, config);
    NiumaNeedsHooks(config);
    assert removed.fields == map["hooks" := Obj(EventsOf(removed))];
    forall event | event in EventsOf(config)
      ensures event in EventsOf(removed) <==> IsUnread(EventsOf(config)[event])
    {
      UnreadStays(config, event);
    }
    if event :| event in EventsOf(config) && IsUnread(EventsOf(config)[event]) {
      assert event in EventsOf(removed);
    } else {
      assert EventsOf(removed) == map[];
    }
  }

  lemma {:induction false} NiumaNeedsHooks(config: Json)
    requires ContainsNiuma(config)
    ensures HasHooksObject(config)
  {}

  /** The file is touched exactly when it exists and a Codex hook of Niuma's is registered for one of three events. */
  lemma {:induction false} CleanupLooksAtThree(fileExists: bool, config: Json)
    ensures CleanupAction(fileExists, config) == LeaveFile
      <==> !fileExists
           || forall event :: event in {"PermissionRequest", "SessionStart", "Stop"} ==>
                !SomeNiuma(Codex, Registered(config, event))
  {
    DetectionIsExact(Codex, config, "PermissionRequest");
    DetectionIsExact(Codex, config, "SessionStart");
    DetectionIsExact(Codex, config, "Stop");
    assert "Stop" in {"PermissionRequest", "SessionStart", "Stop"};
  }

  /** The guard looks at three events only. A Niuma hook is left behind exactly when it sits in another event
      and none sits in those three. */
  lemma {:induction false} CleanupMissesOtherEvents(config: Json, event: string)
    ensures EventHasNiuma(Codex, AfterCleanup(true, config), event)
      <==> !ContainsNiuma(config) && EventHasNiuma(Codex, config, event)
  {
    RemovalLeavesNone(Codex, config, event);
    var action := CleanupAction(true, config);
    if action.DeleteFile? {
      assert GroupsOf(AfterCleanup(true, config), event) == [];
    }
  }

  // ---------------------------------------------------------------------------------------------
  // Configurations on which these fail
  // ---------------------------------------------------------------------------------------------

  /** A hook as the installer writes it, under this event. */
  function InstalledUnder(event: string, tool: Tool, mode: HookCommand): (hook: NewHook)
    ensures IsNiumaText(tool, hook.command)
  {
    CommandIsNiuma(tool, mode);
    NewHook(event, None, CommandWith(MarkerOf(tool), mode), "")
  }

  function ConfigOf(events: map<string, Json>): Json {
    Obj(map["hooks" := Obj(events)])
  }

  lemma {:induction false} NewGroupDetected(tool: Tool, hook: NewHook)
    requires IsNiumaText(tool, hook.command)
    ensures SomeGroup(tool, [GroupValue(hook)])
  {
    var group := GroupValue(hook);
    assert HooksIn(group) == [HookValue(hook)] && IsNiumaHook(tool, HookValue(hook));
    assert GroupHasNiuma(tool, group) && group in [group];
  }

  lemma {:induction false} NothingElsewhere(event: string, groups: Json, other: string)
    requires other != event
    ensures !EventHasNiuma(Codex, ConfigOf(map[event := groups]), other)
  {
    assert GroupsOf(ConfigOf(map[event := groups]), other) == [];
  }

  lemma {:induction false} OwnEvent(event: string, groups: seq<Json>)
    ensures EventHasNiuma(Codex, ConfigOf(map[event := Arr(groups)]), event) == SomeGroup(Codex, groups)
  {}

  /** The cleanup leaves a hook under an event it does not look at. */
  lemma {:induction false} CleanupLeavesUnguarded(hook: NewHook)
    requires IsNiumaText(Codex, hook.command)
    requires hook.event != "PermissionRequest" && hook.event != "SessionStart" && hook.event != "Stop"
    ensures var config := ConfigOf(map[hook.event := Arr([GroupValue(hook)])]);
      EventHasNiuma(Codex, AfterCleanup(true, config), hook.event)
  {
    var groups := [GroupValue(hook)];
    NewGroupDetected(Codex, hook);
    OwnEvent(hook.event, groups);
    NothingElsewhere(hook.event, Arr(groups), "PermissionRequest");
    NothingElsewhere(hook.event, Arr(groups), "SessionStart");
    NothingElsewhere(hook.event, Arr(groups), "Stop");
    CleanupMissesOtherEvents(ConfigOf(map[hook.event := Arr(groups)]), hook.event);
  }

  lemma {:induction false} PreToolUseIsUnguarded()
    ensures "PreToolUse" != "PermissionRequest" && "PreToolUse" != "SessionStart" && "PreToolUse" != "Stop"
  {
    assert |"PreToolUse"| == 10 && |"PermissionRequest"| == 17 && |"SessionStart"| == 12 && |"Stop"| == 4;
  }

  /** Such a configuration: a Codex hook under `PreToolUse` alone. */
  lemma {:induction false} CleanupLeavesPreToolUse(mode: HookCommand)
    ensures var hook := InstalledUnder("PreToolUse", Codex, mode);
      EventHasNiuma(Codex, AfterCleanup(true, ConfigOf(map["PreToolUse" := Arr([GroupValue(hook)])])), "PreToolUse")
  {
    PreToolUseIsUnguarded();
    CleanupLeavesUnguarded(InstalledUnder("PreToolUse", Codex, mode));
  }

  /** A Codex hook under `PermissionRequest`, and an empty group under another event. */
  function WithEmptyGroup(hook: NewHook): Json {
    ConfigOf(map["PermissionRequest" := Arr([GroupValue(hook)]), "Other" := Arr([Obj(map[])])])
  }

  lemma {:induction false} EventsWithEmptyGroup(hook: NewHook)
    requires IsNiumaText(Codex, hook.command)
    ensures ContainsNiuma(WithEmptyGroup(hook)) && "Other" in EventsOf(WithEmptyGroup(hook))
    ensures EventsOf(WithEmptyGroup(hook))["Other"] == Arr([Obj(map[])])
  {
    assert |"PermissionRequest"| == 17 && |"Other"| == 5;
    NewGroupDetected(Codex, hook);
  }

  lemma {:induction false} NothingElseDefined(hook: NewHook)
    requires IsNiumaText(Codex, hook.command)
    ensures !DefinesHooks(Removed(Codex, WithEmptyGroup(hook)))
  {
    assert |"PermissionRequest"| == 17 && |"Other"| == 5;
    NewGroupGoes(Codex, [], hook);
    assert [] + [GroupValue(hook)] == [GroupValue(hook)];
    assert [Obj(map[])][..0] == [];
    assert CleanGroups(Codex, [Obj(map[])]) == [Obj(map[])];
  }

  /** With that configuration the file is deleted, the empty group with it. */
  lemma {:induction false} DeletionLosesEmptyGroup(mode: HookCommand)
    ensures var config := WithEmptyGroup(InstalledUnder("PermissionRequest", Codex, mode));
      CleanupAction(true, config).DeleteFile? && AfterCleanup(true, config) != Removed(Codex, config)
  {
    var hook := InstalledUnder("PermissionRequest", Codex, mode);
    EventsWithEmptyGroup(hook);
    NothingElseDefined(hook);
    AllOpaque([Obj(map[])]);
    assert IsUnread(EventsOf(WithEmptyGroup(hook))["Other"]);
    DeletionLosesUnread(WithEmptyGroup(hook));
  }

  /** Adding and removing a hook does not restore an empty list. */
  lemma {:induction false} EmptyListIsNotRestored(event: string, tool: Tool, mode: HookCommand)
    ensures var config := ConfigOf(map[event := Arr([])]);
      Removed(tool, Upserted(tool, config, InstalledUnder(event, tool, mode))) != config
  {
    var config := ConfigOf(map[event := Arr([])]);
    assert event in EventsOf(config) && !IsTidyEvent(tool, EventsOf(config)[event]);
    RoundTripIsExact(tool, config, InstalledUnder(event, tool, mode));
  }
}
