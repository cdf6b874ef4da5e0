/** What the merge of an agent's hook configuration does to each value it meets, told by the values alone. */
module HooksOutcomes {
  import opened Common
  import opened Hooks
  import opened HooksTheorems

  // ---- Which hooks are Desk's, and which are stale ----

  ghost predicate Contains(s: string, part: string) { exists before, after :: s == before + part + after }

  lemma IncludesIff(s: string, part: string)
    ensures Includes(s, part) <==> Contains(s, part)
  {
    if Includes(s, part) {
      var i :| 0 <= i <= |s| && OccursAt(s, part, i);
      assert s == s[..i] + part + s[i + |part|..];
    }
    if Contains(s, part) {
      var before, after :| s == before + part + after;
      assert s[|before|..|before| + |part|] == part;
      assert OccursAt(s, part, |before|);
    }
  }

  /** The hook is an object with this text as its command. */
  ghost predicate Runs(hook: Json, command: string) {
    hook.Obj? && "command" in hook.fields && hook.fields["command"] == Str(command)
  }

  /** A hook is Desk's exactly when its command contains the name of the shim. */
  lemma DeskHookIff(hook: Json)
    ensures IsDeskHook(hook) <==> exists command :: Runs(hook, command) && Contains(command, "desk-agent-event")
  {
    if hook.Obj? && "command" in hook.fields && hook.fields["command"].Str? {
      IncludesIff(hook.fields["command"].s, "desk-agent-event");
      assert Runs(hook, hook.fields["command"].s);
    }
    hide Includes, Contains;
  }

  /** A hook is the wanted one exactly when type, command and timeout are the same, both without a timeout included. */
  lemma SameHookIff(hook: Json, d: Handler)
    ensures IsSameHook(hook, d) <==>
      && Runs(hook, d.command) && "type" in hook.fields && hook.fields["type"] == Str(d.kind)
      && (if d.timeout.Some? then "timeout" in hook.fields && hook.fields["timeout"] == Num(d.timeout.value) else "timeout" !in hook.fields)
  {
  }

  /** A Desk hook is stale exactly when it does not run the current shim or is none of the wanted ones. */
  lemma StaleIff(hook: Json, shim: string, desired: seq<Desired>)
    ensures IsStaleDeskHook(hook, shim, desired) <==>
      exists command ::
        && Runs(hook, command) && Contains(command, "desk-agent-event")
        && (!Contains(command, shim) || forall g, d :: g in desired && d in g.hooks ==> !IsSameHook(hook, d))
  {
    DeskHookIff(hook);
    if hook.Obj? && "command" in hook.fields && hook.fields["command"].Str? {
      IncludesIff(hook.fields["command"].s, shim);
      assert Runs(hook, hook.fields["command"].s);
    }
    hide Includes, Contains, IsSameHook;
  }

  // ---- The groups a merge starts from ----

  /** A selection keeps the order, and of each hook either all or nothing. */
  lemma SelectOne(hook: Json, keep: Json -> bool)
    ensures Select([], keep) == [] && Select([hook], keep) == if keep(hook) then [hook] else []
  {
    assert [hook][1..] == [];
  }

  /** Each existing value becomes a group with its other fields and those of its
      hooks that are not stale; a value that is no object has neither. */
  lemma StartOutcome(existing: Option<Json>, shim: string, desired: seq<Desired>)
    ensures
      var gs := Start(existing, shim, desired);
      if existing.None? || !existing.value.Arr? then gs == []
      else
        && |gs| == |existing.value.items|
        && forall i :: 0 <= i < |gs| ==>
             var j := existing.value.items[i];
             && gs[i].rest == (if j.Obj? then map key | key in j.fields && key != "hooks" :: j.fields[key] else map[])
             && gs[i].hooks == Select(if j.Obj? && "hooks" in j.fields && j.fields["hooks"].Arr? then j.fields["hooks"].items else [],
                                      (h: Json) => !IsStaleDeskHook(h, shim, desired))
  {
    hide IsStaleDeskHook, Select;
    if existing.Some? && existing.value.Arr? {
      forall i | 0 <= i < |existing.value.items|
        ensures
          var j := existing.value.items[i];
          j.Obj? ==> j.fields - {"hooks"} == map key | key in j.fields && key != "hooks" :: j.fields[key]
      {
      }
    }
  }

  /** The matcher of a group: none and null read as empty, a text as itself, any other value as its text. */
  lemma MatcherOutcome(g: Group, text: Json -> string)
    ensures
      var m := MatcherOf(g, text);
      && ("matcher" !in g.rest ==> m == "")
      && ("matcher" in g.rest ==>
            match g.rest["matcher"]
            case Null => m == ""
            case Str(s) => m == s
            case other => m == text(other))
  {
  }

  // ---- Adding what is wanted ----

  /** A hook as Desk writes it: type and command, and a timeout only if there is one. */
  lemma HandlerOutcome(h: Handler)
    ensures
      var j := HandlerJson(h);
      && j.Obj? && j.fields.Keys == {"type", "command"} + (if h.timeout.Some? then {"timeout"} else {})
      && j.fields["type"] == Str(h.kind) && j.fields["command"] == Str(h.command)
      && (h.timeout.Some? ==> j.fields["timeout"] == Num(h.timeout.value))
      && IsSameHook(j, h)
  {
  }

  /** One more wanted hook is appended exactly when the same one is not there yet. */
  lemma {:induction false} AddMissingLast(hooks: seq<Json>, wanted: seq<Handler>, last: Handler)
    ensures AddMissing(hooks, []) == hooks
    ensures
      var before := AddMissing(hooks, wanted);
      AddMissing(hooks, wanted + [last])
      == if exists h :: h in before && IsSameHook(h, last) then before else before + [HandlerJson(last)]
    decreases |wanted|
  {
    hide IsSameHook, HandlerJson;
    if wanted == [] {
      assert [] + [last] == [last] && [last][1..] == [];
      assert Present(hooks, last) <==> exists h :: h in hooks && IsSameHook(h, last);
    } else {
      assert (wanted + [last])[0] == wanted[0] && (wanted + [last])[1..] == wanted[1..] + [last];
      AddMissingLast(if Present(hooks, wanted[0]) then hooks else hooks + [HandlerJson(wanted[0])], wanted[1..], last);
    }
  }

  /**
   * A wanted group: the first group with its matcher gets the hooks it misses
   * and keeps the rest; without one, a group with the matcher and exactly the
   * wanted hooks comes behind the others.
   */
  lemma AddGroupOutcome(gs: seq<Group>, d: Desired, text: Json -> string)
    ensures
      var r, matcher := AddGroup(gs, d, text), if d.matcher.Some? then d.matcher.value else "";
      if forall g :: g in gs ==> MatcherOf(g, text) != matcher then
        r == gs + [Group(if d.matcher.Some? then map["matcher" := Str(d.matcher.value)] else map[],
                         seq(|d.hooks|, i requires 0 <= i < |d.hooks| => HandlerJson(d.hooks[i])))]
      else
        exists j: nat ::
          && j < |gs| && MatcherOf(gs[j], text) == matcher && (forall i :: 0 <= i < j ==> MatcherOf(gs[i], text) != matcher)
          && r == gs[j := Group(gs[j].rest, AddMissing(gs[j].hooks, d.hooks))]
  {
    hide MatcherOf, AddMissing, HandlerJson;
    var matcher := if d.matcher.Some? then d.matcher.value else "";
    var j := FindMatcher(gs, matcher, text);
    assert j.Some? ==> gs[j.value] in gs;
    assert AddGroup(gs, d, text)
        == if j.None? then gs + [NewGroup(d)] else gs[j.value := gs[j.value].(hooks := AddMissing(gs[j.value].hooks, d.hooks))];
    hide AddGroup, FindMatcher;
    assert HandlerJsons(d.hooks) == seq(|d.hooks|, i requires 0 <= i < |d.hooks| => HandlerJson(d.hooks[i]));
  }

  /** The wanted groups are added one after another. */
  lemma {:induction false} AddGroupsLast(gs: seq<Group>, desired: seq<Desired>, last: Desired, text: Json -> string)
    ensures AddGroups(gs, [], text) == gs
    ensures AddGroups(gs, desired + [last], text) == AddGroup(AddGroups(gs, desired, text), last, text)
    decreases |desired|
  {
    hide AddGroup;
    if desired == [] {
      assert [] + [last] == [last] && [last][1..] == [];
    } else {
      assert (desired + [last])[0] == desired[0] && (desired + [last])[1..] == desired[1..] + [last];
      AddGroupsLast(AddGroup(gs, desired[0], text), desired[1..], last, text);
    }
  }

  // ---- Events Desk no longer installs ----

  /** What pruning leaves of one group: all of it if it has no list of hooks; else
      its other fields with the hooks that are not Desk's; nothing without any. */
  ghost function PrunedGroup(j: Json): seq<Json> {
    if !(j.Obj? && "hooks" in j.fields && j.fields["hooks"].Arr?) then [j]
    else
      var left := Select(j.fields["hooks"].items, (h: Json) => !IsDeskHook(h));
      if left == [] then []
      else [Obj(map key | key in j.fields :: if key == "hooks" then Arr(left) else j.fields[key])]
  }

  lemma {:induction false} PruneGroupsLast(items: seq<Json>, last: Json)
    ensures PruneGroups([]) == [] && PruneGroups(items + [last]) == PruneGroups(items) + PrunedGroup(last)
    decreases |items|
  {
    if items == [] {
      PruneOne(last);
      assert [] + [last] == [last];
    } else {
      assert (items + [last])[0] == items[0] && (items + [last])[1..] == items[1..] + [last];
      PruneGroupsLast(items[1..], last);
      PruneFirst(items[0], items[1..] + [last]);
      PruneFirst(items[0], items[1..]);
      assert [items[0]] + (items[1..] + [last]) == items + [last] && [items[0]] + items[1..] == items;
      hide *;
      assert PrunedGroup(items[0]) + (PruneGroups(items[1..]) + PrunedGroup(last))
          == PrunedGroup(items[0]) + PruneGroups(items[1..]) + PrunedGroup(last);
    }
  }

  lemma PruneFirst(j: Json, rest: seq<Json>)
    ensures PruneGroups([j] + rest) == PrunedGroup(j) + PruneGroups(rest)
  {
    assert ([j] + rest)[0] == j && ([j] + rest)[1..] == rest;
    if HasHooks(j) {
      var left := OperatorHooks(j.fields["hooks"].items);
      assert j.fields["hooks" := Arr(left)] == map key | key in j.fields :: if key == "hooks" then Arr(left) else j.fields[key];
    }
    hide Select, IsDeskHook;
  }

  lemma PruneOne(j: Json)
    ensures PruneGroups([j]) == PrunedGroup(j)
  {
    PruneFirst(j, []);
    assert [j] + [] == [j];
    assert PrunedGroup(j) + [] == PrunedGroup(j);
  }

  // ---- The file ----

  /** The fields a file is merged from: those it has, or none if there is no file. */
  function FieldsOf(file: FileState): map<string, Json> {
    if file.JsonObject? then file.fields else map[]
  }

  /** Desk's values with the operator's own over them. */
  ghost predicate Overlaid(result: map<string, Json>, desk: map<string, Json>, own: map<string, Json>) {
    && result.Keys == desk.Keys + own.Keys
    && (forall key :: key in own ==> result[key] == own[key])
    && forall key :: key in desk && key !in own ==> result[key] == desk[key]
  }

  /**
   * A malformed file stays; a missing one is made from nothing. Otherwise a
   * settings block gets Desk's values under the operator's, `hooks` is an
   * object, and every other key is there exactly if it was, with its value.
   */
  lemma FileOutcome(file: FileState, wish: Wish, settings: Settings, at: Install, key: string)
    ensures file.MalformedFile? ==> MergedFile(file, wish, settings, at) == file
    ensures !file.MalformedFile? ==>
      && MergedFile(file, wish, settings, at).JsonObject?
      && var fields, merged := FieldsOf(file), MergedFile(file, wish, settings, at).fields;
         if key == "hooks" then key in merged && merged[key].Obj?
         else if key in settings then
           && key in merged && merged[key].Obj?
           && Overlaid(merged[key].fields, settings[key], if key in fields && fields[key].Obj? then fields[key].fields else map[])
         else (key in merged <==> key in fields) && (key in fields ==> merged[key] == fields[key])
  {
    hide MergedHooks;
    if !file.MalformedFile? && key in settings {
      var own := RecordAt(FieldsOf(file), key);
      assert Overlaid(settings[key] + own, settings[key], own);
      hide Overlaid;
    }
  }

  /** An event of `hooks` is merged if it is wanted, else pruned, and goes if nothing is left of it. */
  lemma EventsOutcome(file: FileState, wish: Wish, settings: Settings, at: Install, event: string)
    requires !file.MalformedFile?
    ensures MergedFile(file, wish, settings, at).JsonObject? && "hooks" in MergedFile(file, wish, settings, at).fields
    ensures MergedFile(file, wish, settings, at).fields["hooks"].Obj?
    ensures
      var fields, merged := FieldsOf(file), MergedFile(file, wish, settings, at).fields["hooks"].fields;
      var current := if "hooks" in fields && fields["hooks"].Obj? then fields["hooks"].fields else map[];
      var existing := if event in current then Some(current[event]) else None;
      if event in wish then
        var gs := MergeGroups(existing, wish[event], at);
        event in merged && merged[event] == Arr(seq(|gs|, i requires 0 <= i < |gs| => Obj(gs[i].rest["hooks" := Arr(gs[i].hooks)])))
      else if event !in current then event !in merged
      else if !current[event].Arr? then event in merged && merged[event] == current[event]
      else if PruneGroups(current[event].items) == [] then event !in merged
      else event in merged && merged[event] == Arr(PruneGroups(current[event].items))
  {
    hide MergeGroups, PruneGroups, MergedSettings;
    if event in wish { GroupsAsJson(MergeGroups(Lookup(RecordAt(FieldsOf(file), "hooks"), event), wish[event], at)); }
    hide ToJsons;
  }

  lemma GroupsAsJson(gs: seq<Group>)
    ensures ToJsons(gs) == seq(|gs|, i requires 0 <= i < |gs| => Obj(gs[i].rest["hooks" := Arr(gs[i].hooks)]))
  {
  }
}
