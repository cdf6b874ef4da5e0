/**
 * Merging Desk's hooks into an agent's own hook configuration, from
 * `src/core/agentHooks.ts`.
 */
module Hooks {
  import opened Common

  datatype Json = Null | Bool(b: bool) | Num(n: int) | Str(s: string) | Arr(items: seq<Json>) | Obj(fields: map<string, Json>)

  datatype Handler = Handler(kind: string, command: string, timeout: Option<int>)

  /** A hook group Desk wants for an event. */
  datatype Desired = Desired(matcher: Option<string>, hooks: seq<Handler>)

  /** The path of the shim Desk writes now, and how a value that is no string reads as one. */
  datatype Install = Install(shim: string, text: Json -> string)

  const BASENAME := "desk-agent-event"

  predicate OccursAt(s: string, part: string, i: nat) { i + |part| <= |s| && s[i..i + |part|] == part }

  predicate Includes(s: string, part: string) { exists i :: 0 <= i <= |s| && OccursAt(s, part, i) }

  function Field(j: Json, key: string): Option<Json> {
    if j.Obj? && key in j.fields then Some(j.fields[key]) else None
  }

  function TimeoutJson(timeout: Option<int>): Option<Json> {
    if timeout.Some? then Some(Num(timeout.value)) else None
  }

  predicate IsSameHook(existing: Json, d: Handler) {
    && existing.Obj? && Field(existing, "type") == Some(Str(d.kind)) && Field(existing, "command") == Some(Str(d.command))
    && Field(existing, "timeout") == TimeoutJson(d.timeout)
  }

  /** A hook whose command runs some Desk shim. */
  predicate IsDeskHook(hook: Json) {
    var command := Field(hook, "command");
    command.Some? && command.value.Str? && Includes(command.value.s, BASENAME)
  }

  predicate Wanted(hook: Json, desired: seq<Desired>) {
    exists g :: g in desired && exists d :: d in g.hooks && IsSameHook(hook, d)
  }

  /** A Desk hook that runs another shim than the current one, or has a shape Desk no longer wants. */
  predicate IsStaleDeskHook(hook: Json, shim: string, desired: seq<Desired>) {
    IsDeskHook(hook) && (!Includes(Field(hook, "command").value.s, shim) || !Wanted(hook, desired))
  }

  // ---- Groups ----

  /** A normalized group: its hooks, and its other fields. */
  datatype Group = Group(rest: map<string, Json>, hooks: seq<Json>)

  function ToJson(g: Group): Json { Obj(g.rest["hooks" := Arr(g.hooks)]) }

  function ToJsons(gs: seq<Group>): (r: seq<Json>)
    ensures |r| == |gs|
  {
    seq(|gs|, i requires 0 <= i < |gs| => ToJson(gs[i]))
  }

  function NormalizeHookGroup(j: Json): Group {
    if !j.Obj? then Group(map[], [])
    else
      var hooks := Field(j, "hooks");
      Group(j.fields - {"hooks"}, if hooks.Some? && hooks.value.Arr? then hooks.value.items else [])
  }

  function MatcherOf(g: Group, text: Json -> string): string {
    if "matcher" !in g.rest || g.rest["matcher"].Null? then ""
    else if g.rest["matcher"].Str? then g.rest["matcher"].s
    else text(g.rest["matcher"])
  }

  function WantedMatcher(d: Desired): string { if d.matcher.Some? then d.matcher.value else "" }

  function HandlerJson(h: Handler): Json {
    var base := map["type" := Str(h.kind), "command" := Str(h.command)];
    Obj(if h.timeout.Some? then base["timeout" := Num(h.timeout.value)] else base)
  }

  function HandlerJsons(hs: seq<Handler>): (r: seq<Json>)
    ensures |r| == |hs|
  {
    seq(|hs|, i requires 0 <= i < |hs| => HandlerJson(hs[i]))
  }

  function NewGroup(d: Desired): Group {
    Group(if d.matcher.Some? then map["matcher" := Str(d.matcher.value)] else map[], HandlerJsons(d.hooks))
  }

  function Select(hooks: seq<Json>, keep: Json -> bool): seq<Json> {
    if hooks == [] then []
    else if keep(hooks[0]) then [hooks[0]] + Select(hooks[1..], keep)
    else Select(hooks[1..], keep)
  }

  function WithoutStale(g: Group, shim: string, desired: seq<Desired>): Group {
    g.(hooks := Select(g.hooks, (h: Json) => !IsStaleDeskHook(h, shim, desired)))
  }

  function Start(existing: Option<Json>, shim: string, desired: seq<Desired>): (gs: seq<Group>)
    ensures existing.Some? && existing.value.Arr? ==> |gs| == |existing.value.items|
  {
    if existing.Some? && existing.value.Arr? then
      seq(|existing.value.items|, i requires 0 <= i < |existing.value.items| =>
        WithoutStale(NormalizeHookGroup(existing.value.items[i]), shim, desired))
    else []
  }

  function FindMatcher(gs: seq<Group>, matcher: string, text: Json -> string): (r: Option<nat>)
    ensures r.Some? ==> r.value < |gs| && MatcherOf(gs[r.value], text) == matcher
    ensures r.Some? ==> forall i :: 0 <= i < r.value ==> MatcherOf(gs[i], text) != matcher
    ensures r.None? ==> forall i :: 0 <= i < |gs| ==> MatcherOf(gs[i], text) != matcher
  {
    if gs == [] then None
    else if MatcherOf(gs[0], text) == matcher then Some(0)
    else var r := FindMatcher(gs[1..], matcher, text); if r.Some? then Some(r.value + 1) else None
  }

  predicate Present(hooks: seq<Json>, d: Handler) { exists i :: 0 <= i < |hooks| && IsSameHook(hooks[i], d) }

  function AddMissing(hooks: seq<Json>, wanted: seq<Handler>): seq<Json>
    decreases |wanted|
  {
    if wanted == [] then hooks
    else AddMissing(if Present(hooks, wanted[0]) then hooks else hooks + [HandlerJson(wanted[0])], wanted[1..])
  }

  function AddGroup(gs: seq<Group>, d: Desired, text: Json -> string): seq<Group> {
    var j := FindMatcher(gs, WantedMatcher(d), text);
    if j.None? then gs + [NewGroup(d)] else gs[j.value := gs[j.value].(hooks := AddMissing(gs[j.value].hooks, d.hooks))]
  }

  function AddGroups(gs: seq<Group>, desired: seq<Desired>, text: Json -> string): seq<Group>
    decreases |desired|
  {
    if desired == [] then gs else AddGroups(AddGroup(gs, desired[0], text), desired[1..], text)
  }

  function MergeGroups(existing: Option<Json>, desired: seq<Desired>, at: Install): seq<Group> {
    AddGroups(Start(existing, at.shim, desired), desired, at.text)
  }

  // ---- Events Desk no longer installs ----

  predicate HasHooks(j: Json) {
    var hooks := Field(j, "hooks");
    hooks.Some? && hooks.value.Arr?
  }

  function OperatorHooks(hooks: seq<Json>): seq<Json> { Select(hooks, (h: Json) => !IsDeskHook(h)) }

  function PruneGroups(items: seq<Json>): seq<Json> {
    if items == [] then []
    else if !HasHooks(items[0]) then [items[0]] + PruneGroups(items[1..])
    else
      var hooks := OperatorHooks(items[0].fields["hooks"].items);
      if hooks == [] then PruneGroups(items[1..])
      else [Obj(items[0].fields["hooks" := Arr(hooks)])] + PruneGroups(items[1..])
  }

  function Prune(existing: Json): Option<Json> {
    if !existing.Arr? then Some(existing)
    else if PruneGroups(existing.items) == [] then None
    else Some(Arr(PruneGroups(existing.items)))
  }

  // ---- The file ----

  type Hooks = map<string, Json>
  type Wish = map<string, seq<Desired>>
  type Settings = map<string, map<string, Json>>

  function Lookup(m: map<string, Json>, key: string): Option<Json> { if key in m then Some(m[key]) else None }

  /** The object under a key; any other value counts as an empty one. */
  function RecordAt(fields: map<string, Json>, key: string): map<string, Json> {
    var j := Lookup(fields, key);
    if j.Some? && j.value.Obj? then j.value.fields else map[]
  }

  /** What becomes of one event; none means its key disappears. */
  function MergedEvent(current: Hooks, wish: Wish, at: Install, event: string): Option<Json> {
    if event in wish then Some(Arr(ToJsons(MergeGroups(Lookup(current, event), wish[event], at))))
    else if event in current then Prune(current[event])
    else None
  }

  function MergedHooks(current: Hooks, wish: Wish, at: Install): Hooks {
    map event | event in current.Keys + wish.Keys && MergedEvent(current, wish, at, event).Some?
      :: MergedEvent(current, wish, at, event).value
  }

  /** Desk's values under the operator's own, per settings block. */
  function MergedSettings(fields: map<string, Json>, settings: Settings): map<string, Json> {
    map block | block in settings :: Obj(settings[block] + RecordAt(fields, block))
  }

  function MergedFields(fields: map<string, Json>, wish: Wish, settings: Settings, at: Install): map<string, Json> {
    fields + MergedSettings(fields, settings) + map["hooks" := Obj(MergedHooks(RecordAt(fields, "hooks"), wish, at))]
  }

  datatype FileState = Missing | MalformedFile | JsonObject(fields: map<string, Json>)

  function MergedFile(file: FileState, wish: Wish, settings: Settings, at: Install): FileState {
    match file
    case MalformedFile => MalformedFile
    case Missing => JsonObject(MergedFields(map[], wish, settings, at))
    case JsonObject(fields) => JsonObject(MergedFields(fields, wish, settings, at))
  }

  // ---- The loops of the source ----

  method NormalizeAndFilter(existing: Option<Json>, shim: string, desired: seq<Desired>) returns (groups: seq<Group>)
    ensures groups == Start(existing, shim, desired)
  {
    groups := [];
    if existing.None? || !existing.value.Arr? { return; }
    var items := existing.value.items;
    for i := 0 to |items|
      invariant groups == Start(existing, shim, desired)[..i]
    {
      var group := NormalizeHookGroup(items[i]);
      var kept := FilterStale(group.hooks, shim, desired);
      groups := groups + [group.(hooks := kept)];
    }
  }

  method FilterStale(hooks: seq<Json>, shim: string, desired: seq<Desired>) returns (kept: seq<Json>)
    ensures kept == Select(hooks, (h: Json) => !IsStaleDeskHook(h, shim, desired))
  {
    kept := [];
    var keep := (h: Json) => !IsStaleDeskHook(h, shim, desired);
    for i := 0 to |hooks|
      invariant kept + Select(hooks[i..], keep) == Select(hooks, keep)
    {
      assert hooks[i..][1..] == hooks[i + 1..];
      if keep(hooks[i]) {
        kept := kept + [hooks[i]];
        assert kept + Select(hooks[i + 1..], keep) == kept[..|kept| - 1] + ([hooks[i]] + Select(hooks[i + 1..], keep));
      }
    }
  }

  method MergeHookGroups(existing: Option<Json>, desired: seq<Desired>, at: Install) returns (groups: seq<Group>)
    ensures groups == MergeGroups(existing, desired, at)
  {
    groups := NormalizeAndFilter(existing, at.shim, desired);
    for i := 0 to |desired|
      invariant AddGroups(groups, desired[i..], at.text) == MergeGroups(existing, desired, at)
    {
      var d := desired[i];
      assert desired[i..][0] == d && desired[i..][1..] == desired[i + 1..];
      var found := FindMatcher(groups, WantedMatcher(d), at.text);
      if found.None? {
        groups := groups + [NewGroup(d)];
      } else {
        var hooks := PushMissing(groups[found.value].hooks, d.hooks);
        groups := groups[found.value := groups[found.value].(hooks := hooks)];
      }
    }
  }

  method PushMissing(existing: seq<Json>, wanted: seq<Handler>) returns (hooks: seq<Json>)
    ensures hooks == AddMissing(existing, wanted)
  {
    hooks := existing;
    for i := 0 to |wanted|
      invariant AddMissing(hooks, wanted[i..]) == AddMissing(existing, wanted)
    {
      assert wanted[i..][0] == wanted[i] && wanted[i..][1..] == wanted[i + 1..];
      if !Present(hooks, wanted[i]) { hooks := hooks + [HandlerJson(wanted[i])]; }
    }
  }

  method PruneDeskHooks(existing: Json) returns (pruned: Option<Json>)
    ensures pruned == Prune(existing)
  {
    if !existing.Arr? { return Some(existing); }
    var groups, items := [], existing.items;
    for i := 0 to |items|
      invariant groups + PruneGroups(items[i..]) == PruneGroups(items)
    {
      assert items[i..][0] == items[i] && items[i..][1..] == items[i + 1..];
      ghost var before, rest := groups, PruneGroups(items[i + 1..]);
      if !HasHooks(items[i]) {
        groups := groups + [items[i]];
        assert before + ([items[i]] + rest) == groups + rest;
        continue;
      }
      var hooks := OperatorHooks(items[i].fields["hooks"].items);
      if |hooks| > 0 {
        var kept := Obj(items[i].fields["hooks" := Arr(hooks)]);
        groups := groups + [kept];
        assert before + ([kept] + rest) == groups + rest;
      }
    }
    assert items[|items|..] == [] && groups + [] == groups;
    return if |groups| > 0 then Some(Arr(groups)) else None;
  }

  class ConfigFile {
    var state: FileState
    var backedUp: bool

    constructor (file: FileState)
      ensures state == file && !backedUp
    {
      state, backedUp := file, false;
    }

    /** `merged` is false when the file was skipped as malformed; `copies` says whether the backup copy works. */
    method MergeHookConfigLocked(wish: Wish, settings: Settings, at: Install, copies: bool) returns (merged: bool)
      modifies this
      ensures state == MergedFile(old(state), wish, settings, at)
      ensures merged <==> !old(state).MalformedFile?
      ensures backedUp == (old(backedUp) || (old(state).MalformedFile? && copies))
    {
      if state.MalformedFile? {
        backedUp := backedUp || copies;
        return false;
      }
      var current := if state.JsonObject? then state.fields else map[];
      var hooks := MergeEvents(RecordAt(current, "hooks"), wish, at);
      state := JsonObject(current + MergedSettings(current, settings) + map["hooks" := Obj(hooks)]);
      return true;
    }
  }

  /** First every event Desk wants, then the pruning of every other one. */
  method MergeEvents(current: Hooks, wish: Wish, at: Install) returns (merged: Hooks)
    ensures merged == MergedHooks(current, wish, at)
  {
    hide *;
    HalfwayNone(current, wish, at);
    merged := current;
    var events := wish.Keys;
    assert wish.Keys - events == {};
    while events != {}
      invariant events <= wish.Keys && merged == Halfway(current, wish, at, wish.Keys - events)
      decreases events
    {
      var event :| event in events;
      HalfwayNext(current, wish, at, wish.Keys - events, event);
      var groups := MergeHookGroups(Lookup(merged, event), wish[event], at);
      merged := merged[event := Arr(ToJsons(groups))];
      assert wish.Keys - (events - {event}) == wish.Keys - events + {event};
      events := events - {event};
    }
    assert wish.Keys - events == wish.Keys;
    HalfwayAll(current, wish, at);
    var keys := merged.Keys;
    while keys != {}
      invariant keys <= current.Keys + wish.Keys && merged == Pruned(current, wish, at, keys)
      decreases keys
    {
      var event :| event in keys;
      PrunedNext(current, wish, at, keys, event);
      keys := keys - {event};
      if event in wish { continue; }
      var pruned := PruneDeskHooks(merged[event]);
      merged := if pruned.None? then merged - {event} else merged[event := pruned.value];
    }
    PrunedAll(current, wish, at);
  }

  /** The hooks after the events of `done` were merged. */
  function Halfway(current: Hooks, wish: Wish, at: Install, done: set<string>): Hooks
    requires done <= wish.Keys
  {
    map event | event in current.Keys + done
      :: if event in done then MergedEvent(current, wish, at, event).value else current[event]
  }

  /** All wanted events merged, and every other key pruned except those of `left`. */
  function Pruned(current: Hooks, wish: Wish, at: Install, left: set<string>): Hooks {
    map event | event in current.Keys + wish.Keys
                && ((event in left && event !in wish) || MergedEvent(current, wish, at, event).Some?)
      :: if event in left && event !in wish then current[event] else MergedEvent(current, wish, at, event).value
  }

  lemma HalfwayNone(current: Hooks, wish: Wish, at: Install)
    ensures Halfway(current, wish, at, {}) == current
  {
  }

  lemma HalfwayNext(current: Hooks, wish: Wish, at: Install, done: set<string>, event: string)
    requires done <= wish.Keys && event in wish && event !in done
    ensures var half := Halfway(current, wish, at, done);
      half[event := Arr(ToJsons(MergeGroups(Lookup(half, event), wish[event], at)))] == Halfway(current, wish, at, done + {event})
  {
    hide MergeGroups, ToJsons, Prune;
    assert Lookup(Halfway(current, wish, at, done), event) == Lookup(current, event);
  }

  lemma HalfwayAll(current: Hooks, wish: Wish, at: Install)
    ensures Halfway(current, wish, at, wish.Keys) == Pruned(current, wish, at, Halfway(current, wish, at, wish.Keys).Keys)
    ensures Halfway(current, wish, at, wish.Keys).Keys == current.Keys + wish.Keys
  {
    hide MergeGroups, ToJsons, Prune;
  }

  lemma PrunedNext(current: Hooks, wish: Wish, at: Install, left: set<string>, event: string)
    requires left <= current.Keys + wish.Keys && event in left
    ensures var p := Pruned(current, wish, at, left);
      && event in p
      && Pruned(current, wish, at, left - {event}) == if event in wish then p
         else if Prune(p[event]).None? then p - {event} else p[event := Prune(p[event]).value]
  {
    hide MergeGroups, ToJsons, Prune;
  }

  lemma PrunedAll(current: Hooks, wish: Wish, at: Install)
    ensures Pruned(current, wish, at, {}) == MergedHooks(current, wish, at)
  {
    hide MergeGroups, ToJsons, Prune;
  }
}
