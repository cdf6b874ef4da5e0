/**
 * What merging hooks promises: installing twice changes nothing more, every
 * hook Desk wants is in the first group with its matcher, no stale Desk hook is
 * left, and the operator's own hooks, settings and other keys survive.
 */
module HooksTheorems {
  import opened Common
  import opened Hooks

  // ---- The condition the installers meet ----

  /** Every wanted command runs the current shim. */
  ghost predicate RunsCurrentShim(desired: seq<Desired>, shim: string) {
    && Includes(shim, BASENAME)
    && forall g, d :: g in desired && d in g.hooks ==> Includes(d.command, shim)
  }

  lemma IncludesTransitive(a: string, b: string, c: string)
    requires Includes(a, b) && Includes(b, c)
    ensures Includes(a, c)
  {
    var i :| 0 <= i <= |a| && OccursAt(a, b, i);
    var j :| 0 <= j <= |b| && OccursAt(b, c, j);
    forall k | 0 <= k < |c| ensures a[i + j + k] == c[k] {
      assert a[i..i + |b|][j + k] == b[j..j + |c|][k];
    }
    assert OccursAt(a, c, i + j);
  }

  // ---- Selections ----

  lemma {:induction false} SelectKeeps(hooks: seq<Json>, keep: Json -> bool)
    ensures forall i :: 0 <= i < |Select(hooks, keep)| ==> keep(Select(hooks, keep)[i])
  {
    if hooks != [] { SelectKeeps(hooks[1..], keep); }
  }

  lemma {:induction false} SelectAll(hooks: seq<Json>, keep: Json -> bool)
    requires forall i :: 0 <= i < |hooks| ==> keep(hooks[i])
    ensures Select(hooks, keep) == hooks
  {
    if hooks != [] { SelectAll(hooks[1..], keep); }
  }

  lemma {:induction false} SelectNone(hooks: seq<Json>, keep: Json -> bool)
    requires forall i :: 0 <= i < |hooks| ==> !keep(hooks[i])
    ensures Select(hooks, keep) == []
  {
    if hooks != [] { SelectNone(hooks[1..], keep); }
  }

  lemma {:induction false} SelectAppend(a: seq<Json>, b: seq<Json>, keep: Json -> bool)
    ensures Select(a + b, keep) == Select(a, keep) + Select(b, keep)
  {
    if a == [] {
      assert a + b == b;
    } else {
      assert (a + b)[0] == a[0] && (a + b)[1..] == a[1..] + b;
      SelectAppend(a[1..], b, keep);
    }
  }

  /** A weaker selection first makes no difference. */
  lemma {:induction false} SelectTwice(hooks: seq<Json>, weak: Json -> bool, strong: Json -> bool)
    requires forall h :: strong(h) ==> weak(h)
    ensures Select(Select(hooks, weak), strong) == Select(hooks, strong)
  {
    if hooks != [] {
      SelectTwice(hooks[1..], weak, strong);
      if weak(hooks[0]) {
        var rest := Select(hooks[1..], weak);
        assert ([hooks[0]] + rest)[1..] == rest;
      }
    }
  }

  // ---- Adding wanted hooks ----

  ghost predicate AllPresent(hooks: seq<Json>, wanted: seq<Handler>) {
    forall k :: 0 <= k < |wanted| ==> Present(hooks, wanted[k])
  }

  lemma PresentGrows(a: seq<Json>, b: seq<Json>, d: Handler)
    requires Present(a, d)
    ensures Present(a + b, d)
  {
    var i :| 0 <= i < |a| && IsSameHook(a[i], d);
    assert (a + b)[i] == a[i];
  }

  lemma AddedPresent(hooks: seq<Json>, d: Handler)
    ensures Present(hooks + [HandlerJson(d)], d)
  {
    assert (hooks + [HandlerJson(d)])[|hooks|] == HandlerJson(d);
  }

  /** Adding appends hooks of the wanted shapes, and afterwards all of them are present. */
  lemma AppendedFirst(hooks: seq<Json>, d: Handler, more: seq<Handler>)
    ensures hooks + HandlerJsons([d] + more) == hooks + [HandlerJson(d)] + HandlerJsons(more)
    ensures [] + more == more
  {
    assert HandlerJsons([d] + more) == [HandlerJson(d)] + HandlerJsons(more);
  }

  lemma {:induction false} AddMissingAppends(hooks: seq<Json>, wanted: seq<Handler>) returns (added: seq<Handler>)
    ensures AddMissing(hooks, wanted) == hooks + HandlerJsons(added)
    ensures forall d :: d in added ==> d in wanted
    ensures AllPresent(AddMissing(hooks, wanted), wanted)
    decreases |wanted|
  {
    added := [];
    if wanted != [] {
      var d := wanted[0];
      var next := if Present(hooks, d) then hooks else hooks + [HandlerJson(d)];
      AddedPresent(hooks, d);
      var more := AddMissingAppends(next, wanted[1..]);
      PresentGrows(next, HandlerJsons(more), d);
      added := (if Present(hooks, d) then [] else [d]) + more;
      hide IsSameHook, HandlerJson, Present, HandlerJsons;
      AppendedFirst(hooks, d, more);
      assert forall k :: 0 < k < |wanted| ==> wanted[k] == wanted[1..][k - 1];
    }
  }

  lemma {:induction false} AddMissingNothing(hooks: seq<Json>, wanted: seq<Handler>)
    requires AllPresent(hooks, wanted)
    ensures AddMissing(hooks, wanted) == hooks
    decreases |wanted|
  {
    if wanted != [] {
      assert Present(hooks, wanted[0]);
      assert forall k :: 0 <= k < |wanted[1..]| ==> wanted[1..][k] == wanted[k + 1];
      AddMissingNothing(hooks, wanted[1..]);
    }
  }

  /** The first group with the wanted matcher has every wanted hook. */
  ghost predicate Installed(gs: seq<Group>, d: Desired, text: Json -> string) {
    var j := FindMatcher(gs, WantedMatcher(d), text);
    j.Some? && AllPresent(gs[j.value].hooks, d.hooks)
  }

  lemma {:induction false} FindFirst(gs: seq<Group>, matcher: string, text: Json -> string, j: nat)
    requires j < |gs| && MatcherOf(gs[j], text) == matcher
    requires forall i :: 0 <= i < j ==> MatcherOf(gs[i], text) != matcher
    ensures FindMatcher(gs, matcher, text) == Some(j)
  {
  }

  lemma NewGroupInstalled(d: Desired, text: Json -> string)
    ensures MatcherOf(NewGroup(d), text) == WantedMatcher(d) && AllPresent(NewGroup(d).hooks, d.hooks)
  {
    forall k | 0 <= k < |d.hooks| ensures Present(NewGroup(d).hooks, d.hooks[k]) {
      assert NewGroup(d).hooks[k] == HandlerJson(d.hooks[k]);
    }
  }

  /** A group list whose groups only gained hooks at the end, and which may have gained groups at the end. */
  ghost predicate Grown(a: seq<Group>, b: seq<Group>) {
    && |a| <= |b|
    && forall i :: 0 <= i < |a| ==> b[i].rest == a[i].rest && a[i].hooks <= b[i].hooks
  }

  lemma AddGroupGrows(gs: seq<Group>, d: Desired, text: Json -> string)
    ensures Grown(gs, AddGroup(gs, d, text)) && Installed(AddGroup(gs, d, text), d, text)
  {
    var j := FindMatcher(gs, WantedMatcher(d), text);
    var n := AddGroup(gs, d, text);
    if j.None? {
      NewGroupInstalled(d, text);
      FindFirst(n, WantedMatcher(d), text, |gs|);
    } else {
      var added := AddMissingAppends(gs[j.value].hooks, d.hooks);
      FindFirst(n, WantedMatcher(d), text, j.value);
    }
    hide AllPresent, NewGroup, HandlerJsons;
  }

  lemma InstalledGrows(a: seq<Group>, b: seq<Group>, d: Desired, text: Json -> string)
    requires Installed(a, d, text) && Grown(a, b)
    ensures Installed(b, d, text)
  {
  }

  lemma {:induction false} AddGroupsGrows(gs: seq<Group>, desired: seq<Desired>, text: Json -> string)
    ensures Grown(gs, AddGroups(gs, desired, text))
    ensures forall d :: d in desired ==> Installed(AddGroups(gs, desired, text), d, text)
    decreases |desired|
  {
    if desired != [] {
      var n := AddGroup(gs, desired[0], text);
      AddGroupGrows(gs, desired[0], text);
      AddGroupsGrows(n, desired[1..], text);
      InstalledGrows(n, AddGroups(n, desired[1..], text), desired[0], text);
      hide Installed, AddGroup;
    }
  }

  lemma {:induction false} AddGroupsNothing(gs: seq<Group>, desired: seq<Desired>, text: Json -> string)
    requires forall d :: d in desired ==> Installed(gs, d, text)
    ensures AddGroups(gs, desired, text) == gs
    decreases |desired|
  {
    if desired != [] {
      var d := desired[0];
      assert d in desired && Installed(gs, d, text);
      var j := FindMatcher(gs, WantedMatcher(d), text).value;
      AddMissingNothing(gs[j].hooks, d.hooks);
      assert AddGroup(gs, d, text) == gs;
      AddGroupsNothing(gs, desired[1..], text);
    }
  }

  /** Every hook Desk wants for an event is in the first group with its matcher. */
  lemma WantedInstalled(existing: Option<Json>, desired: seq<Desired>, at: Install, d: Desired)
    requires d in desired
    ensures Installed(MergeGroups(existing, desired, at), d, at.text)
  {
    AddGroupsGrows(Start(existing, at.shim, desired), desired, at.text);
  }

  // ---- No stale hook ----

  ghost predicate NoneStale(gs: seq<Group>, shim: string, desired: seq<Desired>) {
    forall i, k :: 0 <= i < |gs| && 0 <= k < |gs[i].hooks| ==> !IsStaleDeskHook(gs[i].hooks[k], shim, desired)
  }

  ghost predicate Plain(gs: seq<Group>) { forall i :: 0 <= i < |gs| ==> "hooks" !in gs[i].rest }

  lemma StartFresh(existing: Option<Json>, shim: string, desired: seq<Desired>)
    ensures NoneStale(Start(existing, shim, desired), shim, desired) && Plain(Start(existing, shim, desired))
  {
    var gs := Start(existing, shim, desired);
    forall i | 0 <= i < |gs| ensures forall k :: 0 <= k < |gs[i].hooks| ==> !IsStaleDeskHook(gs[i].hooks[k], shim, desired) {
      SelectKeeps(NormalizeHookGroup(existing.value.items[i]).hooks, (h: Json) => !IsStaleDeskHook(h, shim, desired));
    }
  }

  lemma WantedNotStale(desired: seq<Desired>, shim: string, g: Desired, d: Handler)
    requires RunsCurrentShim(desired, shim) && g in desired && d in g.hooks
    ensures !IsStaleDeskHook(HandlerJson(d), shim, desired) && IsDeskHook(HandlerJson(d))
  {
    IncludesTransitive(d.command, shim, BASENAME);
    hide Includes, IsSameHook, HandlerJson;
    assert Wanted(HandlerJson(d), desired);
  }

  /** What adding puts behind or between the old hooks are wanted hooks only. */
  lemma AddGroupShape(gs: seq<Group>, d: Desired, text: Json -> string) returns (j: nat, tail: seq<Handler>)
    ensures forall h :: h in tail ==> h in d.hooks
    ensures if FindMatcher(gs, WantedMatcher(d), text).None?
      then AddGroup(gs, d, text) == gs + [NewGroup(d)] && tail == d.hooks
      else j < |gs| && AddGroup(gs, d, text) == gs[j := gs[j].(hooks := gs[j].hooks + HandlerJsons(tail))]
  {
    j, tail := 0, d.hooks;
    var found := FindMatcher(gs, WantedMatcher(d), text);
    if found.Some? {
      j := found.value;
      tail := AddMissingAppends(gs[j].hooks, d.hooks);
    }
  }

  lemma AddGroupFresh(gs: seq<Group>, d: Desired, desired: seq<Desired>, at: Install)
    requires RunsCurrentShim(desired, at.shim) && d in desired
    requires NoneStale(gs, at.shim, desired) && Plain(gs)
    ensures NoneStale(AddGroup(gs, d, at.text), at.shim, desired) && Plain(AddGroup(gs, d, at.text))
  {
    var j, tail := AddGroupShape(gs, d, at.text);
    forall h | h in d.hooks ensures !IsStaleDeskHook(HandlerJson(h), at.shim, desired) {
      WantedNotStale(desired, at.shim, d, h);
    }
    assert forall k :: 0 <= k < |tail| ==> HandlerJsons(tail)[k] == HandlerJson(tail[k]) && tail[k] in d.hooks;
    assert "hooks" !in NewGroup(d).rest;
    hide IsStaleDeskHook, HandlerJson, AddGroup;
  }

  lemma {:induction false} AddGroupsFresh(gs: seq<Group>, ds: seq<Desired>, desired: seq<Desired>, at: Install)
    requires RunsCurrentShim(desired, at.shim) && (forall d :: d in ds ==> d in desired)
    requires NoneStale(gs, at.shim, desired) && Plain(gs)
    ensures NoneStale(AddGroups(gs, ds, at.text), at.shim, desired) && Plain(AddGroups(gs, ds, at.text))
    decreases |ds|
  {
    if ds != [] {
      AddGroupFresh(gs, ds[0], desired, at);
      AddGroupsFresh(AddGroup(gs, ds[0], at.text), ds[1..], desired, at);
    }
  }

  /** No stale Desk hook is left in any group of a wanted event. */
  lemma MergeLeavesNoneStale(existing: Option<Json>, desired: seq<Desired>, at: Install)
    requires RunsCurrentShim(desired, at.shim)
    ensures NoneStale(MergeGroups(existing, desired, at), at.shim, desired) && Plain(MergeGroups(existing, desired, at))
  {
    StartFresh(existing, at.shim, desired);
    AddGroupsFresh(Start(existing, at.shim, desired), desired, desired, at);
  }

  // ---- Idempotence of one event ----

  lemma StartAgain(gs: seq<Group>, shim: string, desired: seq<Desired>)
    requires NoneStale(gs, shim, desired) && Plain(gs)
    ensures Start(Some(Arr(ToJsons(gs))), shim, desired) == gs
  {
    var again := Start(Some(Arr(ToJsons(gs))), shim, desired);
    forall i | 0 <= i < |gs| ensures again[i] == gs[i] {
      var g := gs[i];
      assert NormalizeHookGroup(ToJson(g)) == g by {
        assert g.rest["hooks" := Arr(g.hooks)] - {"hooks"} == g.rest;
      }
      SelectAll(g.hooks, (h: Json) => !IsStaleDeskHook(h, shim, desired));
    }
  }

  lemma MergeTwice(existing: Option<Json>, desired: seq<Desired>, at: Install)
    requires RunsCurrentShim(desired, at.shim)
    ensures var gs := MergeGroups(existing, desired, at); MergeGroups(Some(Arr(ToJsons(gs))), desired, at) == gs
  {
    var gs := MergeGroups(existing, desired, at);
    MergeLeavesNoneStale(existing, desired, at);
    StartAgain(gs, at.shim, desired);
    AddGroupsGrows(Start(existing, at.shim, desired), desired, at.text);
    AddGroupsNothing(gs, desired, at.text);
    hide NoneStale, Plain, Installed, Start, AddGroups;
  }

  // ---- The operator's hooks ----

  /** The operator's own hooks in all groups of an event's value, in order. */
  function OperatorHooksIn(items: seq<Json>): seq<Json> {
    if items == [] then []
    else (if HasHooks(items[0]) then OperatorHooks(items[0].fields["hooks"].items) else []) + OperatorHooksIn(items[1..])
  }

  /** Merging keeps the groups there were, in place: their other fields, and exactly their operator hooks. */
  ghost predicate KeepsOperator(existing: seq<Json>, gs: seq<Group>) {
    && |existing| <= |gs|
    && (forall i :: 0 <= i < |existing| ==>
         && gs[i].rest == NormalizeHookGroup(existing[i]).rest
         && OperatorHooks(gs[i].hooks) == OperatorHooks(NormalizeHookGroup(existing[i]).hooks))
    && (forall i :: |existing| <= i < |gs| ==> OperatorHooks(gs[i].hooks) == [])
  }

  lemma StartKeepsOperator(existing: seq<Json>, shim: string, desired: seq<Desired>)
    ensures KeepsOperator(existing, Start(Some(Arr(existing)), shim, desired))
  {
    forall i | 0 <= i < |existing|
      ensures OperatorHooks(WithoutStale(NormalizeHookGroup(existing[i]), shim, desired).hooks)
           == OperatorHooks(NormalizeHookGroup(existing[i]).hooks)
    {
      SelectTwice(NormalizeHookGroup(existing[i]).hooks, (h: Json) => !IsStaleDeskHook(h, shim, desired), (h: Json) => !IsDeskHook(h));
    }
  }

  /** Appending wanted hooks adds nothing of the operator's. */
  lemma OperatorUnmoved(hooks: seq<Json>, tail: seq<Handler>, d: Desired, desired: seq<Desired>, shim: string)
    requires RunsCurrentShim(desired, shim) && d in desired && forall h :: h in tail ==> h in d.hooks
    ensures OperatorHooks(hooks + HandlerJsons(tail)) == OperatorHooks(hooks) && OperatorHooks(HandlerJsons(tail)) == []
  {
    var keep := (h: Json) => !IsDeskHook(h);
    SelectAppend(hooks, HandlerJsons(tail), keep);
    forall k | 0 <= k < |tail| ensures !keep(HandlerJsons(tail)[k]) {
      assert tail[k] in tail;
      WantedNotStale(desired, shim, d, tail[k]);
    }
    SelectNone(HandlerJsons(tail), keep);
  }

  lemma AddGroupKeepsOperator(existing: seq<Json>, gs: seq<Group>, d: Desired, desired: seq<Desired>, at: Install)
    requires RunsCurrentShim(desired, at.shim) && d in desired && KeepsOperator(existing, gs)
    ensures KeepsOperator(existing, AddGroup(gs, d, at.text))
  {
    var j, tail := AddGroupShape(gs, d, at.text);
    if j < |gs| { OperatorUnmoved(gs[j].hooks, tail, d, desired, at.shim); }
    OperatorUnmoved([], d.hooks, d, desired, at.shim);
    hide AddGroup, OperatorHooks, NormalizeHookGroup, HandlerJsons, RunsCurrentShim, FindMatcher;
  }

  lemma {:induction false} AddGroupsKeepOperator(existing: seq<Json>, gs: seq<Group>, ds: seq<Desired>, desired: seq<Desired>, at: Install)
    requires RunsCurrentShim(desired, at.shim) && (forall d :: d in ds ==> d in desired) && KeepsOperator(existing, gs)
    ensures KeepsOperator(existing, AddGroups(gs, ds, at.text))
    decreases |ds|
  {
    if ds != [] {
      AddGroupKeepsOperator(existing, gs, ds[0], desired, at);
      AddGroupsKeepOperator(existing, AddGroup(gs, ds[0], at.text), ds[1..], desired, at);
    }
  }

  /** In a wanted event every group stays where it is, with its operator hooks in order, and added groups hold none. */
  lemma MergeKeepsOperator(existing: seq<Json>, desired: seq<Desired>, at: Install)
    requires RunsCurrentShim(desired, at.shim)
    ensures KeepsOperator(existing, MergeGroups(Some(Arr(existing)), desired, at))
  {
    StartKeepsOperator(existing, at.shim, desired);
    AddGroupsKeepOperator(existing, Start(Some(Arr(existing)), at.shim, desired), desired, desired, at);
  }

  /** A group as the merge understands it: an object whose `hooks`, if any, is an array. */
  predicate WellShaped(j: Json) { j.Obj? && ("hooks" in j.fields ==> j.fields["hooks"].Arr?) }

  /** A group without its Desk hooks; no `hooks` field counts as an empty one, and any other shape as itself. */
  function OperatorPart(j: Json): Json {
    if !WellShaped(j) then j
    else if "hooks" in j.fields then Obj(j.fields["hooks" := Arr(OperatorHooks(j.fields["hooks"].items))])
    else Obj(j.fields["hooks" := Arr([])])
  }

  lemma PartOfGroup(j: Json, g: Group)
    requires g.rest == NormalizeHookGroup(j).rest && OperatorHooks(g.hooks) == OperatorHooks(NormalizeHookGroup(j).hooks)
    ensures OperatorPart(ToJson(g)) == OperatorPart(j) <==> WellShaped(j)
  {
    assert OperatorPart(ToJson(g)) == Obj(g.rest["hooks" := Arr(OperatorHooks(g.hooks))]) by {
      assert g.rest["hooks" := Arr(g.hooks)]["hooks" := Arr(OperatorHooks(g.hooks))] == g.rest["hooks" := Arr(OperatorHooks(g.hooks))];
    }
    if WellShaped(j) {
      assert OperatorHooks([]) == [];
      var part := Arr(OperatorHooks(g.hooks));
      assert (j.fields - {"hooks"})["hooks" := part] == j.fields["hooks" := part];
    } else {
      assert WellShaped(Obj(g.rest["hooks" := Arr(OperatorHooks(g.hooks))]));
    }
    hide OperatorHooks;
  }

  /**
   * What merging a wanted event loses: a value that is no array as a whole, and
   * of an array exactly the groups that are no object or whose `hooks` field is
   * no array. Every other group keeps its fields and operator hooks.
   */
  lemma MergeLosesIff(existing: Json, desired: seq<Desired>, at: Install)
    requires RunsCurrentShim(desired, at.shim)
    ensures
      var gs := MergeGroups(Some(existing), desired, at);
      && (!existing.Arr? ==> gs == MergeGroups(None, desired, at))
      && (existing.Arr? ==>
            && |existing.items| <= |gs|
            && forall i :: 0 <= i < |existing.items| ==>
                 (OperatorPart(ToJson(gs[i])) == OperatorPart(existing.items[i]) <==> WellShaped(existing.items[i])))
  {
    if existing.Arr? {
      MergeKeepsOperator(existing.items, desired, at);
      var gs := MergeGroups(Some(existing), desired, at);
      forall i | 0 <= i < |existing.items|
        ensures OperatorPart(ToJson(gs[i])) == OperatorPart(existing.items[i]) <==> WellShaped(existing.items[i])
      {
        PartOfGroup(existing.items[i], gs[i]);
      }
      hide MergeGroups, OperatorPart, ToJson, WellShaped;
    }
  }

  /** A value that is no array is gone after a merge that wants nothing there. */
  lemma StringDropped(at: Install)
    ensures MergeGroups(Some(Str("operator")), [], at) == []
  {
  }

  lemma OperatorOnce(hooks: seq<Json>)
    ensures OperatorHooks(OperatorHooks(hooks)) == OperatorHooks(hooks)
  {
    SelectKeeps(hooks, (h: Json) => !IsDeskHook(h));
    SelectAll(OperatorHooks(hooks), (h: Json) => !IsDeskHook(h));
  }

  ghost predicate NoDeskHooks(items: seq<Json>) {
    forall i :: 0 <= i < |items| && HasHooks(items[i]) ==> OperatorHooks(items[i].fields["hooks"].items) == items[i].fields["hooks"].items
  }

  lemma PruneFront(j: Json, rest: seq<Json>)
    requires NoDeskHooks(rest) && PruneGroups(rest) == rest
    requires HasHooks(j) ==> j.fields["hooks"].items != [] && OperatorHooks(j.fields["hooks"].items) == j.fields["hooks"].items
    ensures NoDeskHooks([j] + rest) && PruneGroups([j] + rest) == [j] + rest
    ensures OperatorHooksIn([j] + rest) == (if HasHooks(j) then j.fields["hooks"].items else []) + OperatorHooksIn(rest)
  {
    assert ([j] + rest)[1..] == rest;
    assert HasHooks(j) ==> j.fields["hooks" := Arr(j.fields["hooks"].items)] == j.fields;
    hide OperatorHooks;
  }

  /** Pruning keeps the operator's hooks in order, leaves no Desk hook, and has nothing to do a second time. */
  lemma {:induction false} PruneGroupsCorrect(items: seq<Json>)
    ensures OperatorHooksIn(PruneGroups(items)) == OperatorHooksIn(items)
    ensures NoDeskHooks(PruneGroups(items))
    ensures PruneGroups(PruneGroups(items)) == PruneGroups(items)
  {
    if items != [] {
      var rest := PruneGroups(items[1..]);
      PruneGroupsCorrect(items[1..]);
      if !HasHooks(items[0]) {
        PruneFront(items[0], rest);
      } else {
        var hooks := OperatorHooks(items[0].fields["hooks"].items);
        OperatorOnce(items[0].fields["hooks"].items);
        if hooks != [] { PruneFront(Obj(items[0].fields["hooks" := Arr(hooks)]), rest); }
      }
      hide OperatorHooks, NoDeskHooks;
    }
  }

  // ---- The whole file ----

  ghost predicate AllRunCurrentShim(wish: Wish, at: Install) {
    forall event :: event in wish ==> RunsCurrentShim(wish[event], at.shim)
  }

  lemma PruneTwice(existing: Json)
    ensures Prune(existing).Some? ==> Prune(Prune(existing).value) == Prune(existing)
  {
    if existing.Arr? { PruneGroupsCorrect(existing.items); }
  }

  lemma EventTwice(current: Hooks, wish: Wish, at: Install, event: string)
    requires AllRunCurrentShim(wish, at)
    ensures MergedEvent(MergedHooks(current, wish, at), wish, at, event) == MergedEvent(current, wish, at, event)
    ensures event in wish ==> MergedEvent(current, wish, at, event).Some?
    ensures MergedEvent(current, wish, at, event).Some? ==> event in current.Keys + wish.Keys
  {
    if event in wish {
      MergeTwice(Lookup(current, event), wish[event], at);
    } else if event in current {
      PruneTwice(current[event]);
    }
    hide MergeGroups, Prune, ToJsons;
  }

  lemma HooksTwice(current: Hooks, wish: Wish, at: Install)
    requires AllRunCurrentShim(wish, at)
    ensures MergedHooks(MergedHooks(current, wish, at), wish, at) == MergedHooks(current, wish, at)
  {
    hide MergedEvent;
    var once := MergedHooks(current, wish, at);
    forall event
      ensures MergedEvent(once, wish, at, event) == MergedEvent(current, wish, at, event)
      ensures event in wish ==> MergedEvent(current, wish, at, event).Some?
    {
      EventTwice(current, wish, at, event);
    }
  }

  lemma SettingsTwice(fields: map<string, Json>, wish: Wish, settings: Settings, at: Install, block: string)
    requires block in settings && block != "hooks"
    ensures var once := MergedFields(fields, wish, settings, at);
      && block in once && once[block] == Obj(settings[block] + RecordAt(fields, block))
      && MergedSettings(once, settings)[block] == once[block]
  {
    hide MergedHooks;
    var mine, theirs := settings[block], RecordAt(fields, block);
    assert mine + (mine + theirs) == mine + theirs;
  }

  lemma FieldsTwice(fields: map<string, Json>, wish: Wish, settings: Settings, at: Install)
    requires AllRunCurrentShim(wish, at)
    ensures MergedFields(MergedFields(fields, wish, settings, at), wish, settings, at) == MergedFields(fields, wish, settings, at)
  {
    var once := MergedFields(fields, wish, settings, at);
    HooksTwice(RecordAt(fields, "hooks"), wish, at);
    HooksUnderKey(fields, wish, settings, at);
    forall block | block in MergedSettings(once, settings) && block != "hooks"
      ensures block in once && once[block] == MergedSettings(once, settings)[block]
    {
      SettingsTwice(fields, wish, settings, at, block);
    }
    Absorb(once, MergedSettings(once, settings), Obj(MergedHooks(RecordAt(fields, "hooks"), wish, at)));
    assert MergedFields(once, wish, settings, at)
        == once + MergedSettings(once, settings) + map["hooks" := Obj(MergedHooks(RecordAt(once, "hooks"), wish, at))];
    hide *;
  }

  lemma HooksUnderKey(fields: map<string, Json>, wish: Wish, settings: Settings, at: Install)
    ensures var once := MergedFields(fields, wish, settings, at);
      && RecordAt(once, "hooks") == MergedHooks(RecordAt(fields, "hooks"), wish, at)
      && "hooks" in once && once["hooks"] == Obj(MergedHooks(RecordAt(fields, "hooks"), wish, at))
  {
    hide MergedHooks, MergedSettings;
  }

  lemma Absorb(once: map<string, Json>, more: map<string, Json>, hooks: Json)
    requires forall block :: block in more && block != "hooks" ==> block in once && once[block] == more[block]
    requires "hooks" in once && once["hooks"] == hooks
    ensures once + more + map["hooks" := hooks] == once
  {
  }

  /** Installing twice equals installing once. */
  lemma MergeIdempotent(file: FileState, wish: Wish, settings: Settings, at: Install)
    requires AllRunCurrentShim(wish, at)
    ensures MergedFile(MergedFile(file, wish, settings, at), wish, settings, at) == MergedFile(file, wish, settings, at)
  {
    match file
    case MalformedFile =>
    case Missing => FieldsTwice(map[], wish, settings, at);
    case JsonObject(fields) => FieldsTwice(fields, wish, settings, at);
  }

  /** After a merge no event of the file holds a stale Desk hook, and a dropped event holds no Desk hook at all. */
  lemma FileLeavesNoneStale(current: Hooks, wish: Wish, at: Install, event: string)
    requires AllRunCurrentShim(wish, at) && event in MergedHooks(current, wish, at)
    ensures var j := MergedHooks(current, wish, at)[event];
      if event in wish then
        var gs := MergeGroups(Lookup(current, event), wish[event], at);
        j == Arr(ToJsons(gs)) && NoneStale(gs, at.shim, wish[event])
      else
        event in current && (if current[event].Arr?
          then (j.Arr? && NoDeskHooks(j.items) && OperatorHooksIn(j.items) == OperatorHooksIn(current[event].items))
          else j == current[event])
  {
    if event in wish {
      MergeLeavesNoneStale(Lookup(current, event), wish[event], at);
    } else if current[event].Arr? {
      PruneGroupsCorrect(current[event].items);
    }
    hide MergeGroups, NoneStale, NoDeskHooks, OperatorHooksIn, PruneGroups;
  }

  /** An event disappears only if Desk does not want it and the operator has nothing in it. */
  lemma DroppedEventWasDesks(current: Hooks, wish: Wish, at: Install, event: string)
    requires event in current && event !in MergedHooks(current, wish, at)
    ensures event !in wish && current[event].Arr? && OperatorHooksIn(current[event].items) == []
    ensures forall i :: 0 <= i < |current[event].items| ==> HasHooks(current[event].items[i])
  {
    assert Prune(current[event]).None?;
    PruneGroupsCorrect(current[event].items);
    PrunedAway(current[event].items);
  }

  lemma {:induction false} PrunedAway(items: seq<Json>)
    requires PruneGroups(items) == []
    ensures forall i :: 0 <= i < |items| ==> HasHooks(items[i])
  {
    if items != [] {
      PrunedAway(items[1..]);
      assert forall i :: 0 < i < |items| ==> items[i] == items[1..][i - 1];
    }
  }

  /** The operator's settings win, Desk's fill the gaps, and no other key of the file changes. */
  lemma OperatorSettingsWin(fields: map<string, Json>, wish: Wish, settings: Settings, at: Install, block: string, key: string)
    requires block != "hooks"
    ensures var n := MergedFields(fields, wish, settings, at);
      && (block !in settings ==> Lookup(n, block) == Lookup(fields, block))
      && (block in settings ==>
            Lookup(RecordAt(n, block), key)
              == if key in RecordAt(fields, block) then Lookup(RecordAt(fields, block), key) else Lookup(settings[block], key))
  {
    hide MergedHooks;
  }
}
