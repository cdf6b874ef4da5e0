/**
 * The exact outcome of every operation on the manifest: when it is refused,
 * with which error, and what the manifest is after it otherwise.
 */
module ManifestOutcomes {
  import opened Common
  import opened Ordering
  import opened DeskManifest
  import opened ManifestPlaces
  import opened ManifestTheorems

  // ---- Filters ----

  /** The elements that pass, in order, with their repetitions. */
  function Only<T>(xs: seq<T>, keep: T -> bool): seq<T> {
    if xs == [] then [] else Only(xs[..|xs| - 1], keep) + (if keep(xs[|xs| - 1]) then [xs[|xs| - 1]] else [])
  }

  lemma {:induction false} OnlyFront<T>(x: T, rest: seq<T>, keep: T -> bool)
    ensures Only([x] + rest, keep) == (if keep(x) then [x] else []) + Only(rest, keep)
    decreases |rest|
  {
    if rest == [] {
      assert ([x] + rest)[..0] == [];
    } else {
      assert ([x] + rest)[..|rest|] == [x] + rest[..|rest| - 1];
      OnlyFront(x, rest[..|rest| - 1], keep);
    }
  }

  lemma {:induction false} KeepIsOnly(ss: seq<Session>, test: Session -> bool, keep: Session -> bool)
    requires forall s :: test(s) == keep(s)
    ensures Keep(ss, test) == Only(ss, keep)
    decreases |ss|
  {
    if ss != [] {
      KeepIsOnly(ss[1..], test, keep);
      OnlyFront(ss[0], ss[1..], keep);
      assert [ss[0]] + ss[1..] == ss;
    }
  }

  lemma {:induction false} OtherProjectsIsOnly(ps: seq<Project>, id: string, keep: Project -> bool)
    requires forall p :: keep(p) == (p.id != id)
    ensures OtherProjects(ps, id) == Only(ps, keep)
    decreases |ps|
  {
    if ps != [] {
      OtherProjectsIsOnly(ps[1..], id, keep);
      OnlyFront(ps[0], ps[1..], keep);
      assert [ps[0]] + ps[1..] == ps;
    }
  }

  lemma {:induction false} OtherGroupsIsOnly(gs: seq<Group>, id: string, keep: Group -> bool)
    requires forall g :: keep(g) == (g.id != id)
    ensures OtherGroups(gs, id) == Only(gs, keep)
    decreases |gs|
  {
    if gs != [] {
      OtherGroupsIsOnly(gs[1..], id, keep);
      OnlyFront(gs[0], gs[1..], keep);
      assert [gs[0]] + gs[1..] == gs;
    }
  }

  /** Some session of the group stays, or it had none. */
  ghost predicate Survives(g: Group, gone: (Group, Session) -> bool) {
    g.sessions == [] || exists s :: s in g.sessions && !gone(g, s)
  }

  /** The group without the sessions that `gone` means. */
  ghost function Without(g: Group, gone: (Group, Session) -> bool): Group {
    g.(sessions := Only(g.sessions, (s: Session) => !gone(g, s)))
  }

  /** The groups without those of their sessions that `gone` means, except the
      groups that had sessions and lost them all. */
  ghost function Thinned(gs: seq<Group>, gone: (Group, Session) -> bool): seq<Group> {
    if gs == [] then []
    else
      var g := gs[|gs| - 1];
      Thinned(gs[..|gs| - 1], gone) + (if Survives(g, gone) then [Without(g, gone)] else [])
  }

  lemma {:induction false} OnlyNone<T>(xs: seq<T>, keep: T -> bool)
    ensures Only(xs, keep) == [] <==> forall x :: x in xs ==> !keep(x)
    decreases |xs|
  {
    if xs != [] {
      var front, x := xs[..|xs| - 1], xs[|xs| - 1];
      OnlyNone(front, keep);
      assert forall y :: y in xs <==> y in front || y == x;
    }
  }

  lemma {:induction false} OnlyAll<T>(xs: seq<T>, keep: T -> bool)
    requires forall x :: x in xs ==> keep(x)
    ensures Only(xs, keep) == xs
    decreases |xs|
  {
    if xs != [] {
      OnlyAll(xs[..|xs| - 1], keep);
      assert xs == xs[..|xs| - 1] + [xs[|xs| - 1]];
    }
  }

  lemma {:induction false} ThinnedFront(g: Group, rest: seq<Group>, gone: (Group, Session) -> bool)
    ensures Thinned([g] + rest, gone) == (if Survives(g, gone) then [Without(g, gone)] else []) + Thinned(rest, gone)
    decreases |rest|
  {
    hide Survives, Without;
    if rest == [] {
      assert ([g] + rest)[..0] == [];
    } else {
      assert ([g] + rest)[..|rest|] == [g] + rest[..|rest| - 1];
      ThinnedFront(g, rest[..|rest| - 1], gone);
    }
  }

  /** What dropping does to one group. */
  lemma DropOne(g: Group, selected: Group -> bool, test: Session -> bool, gone: (Group, Session) -> bool)
    requires forall s :: gone(g, s) == (selected(g) && !test(s))
    ensures
      var kept := Keep(g.sessions, test);
      if selected(g) then (Survives(g, gone) <==> kept != [] || g.sessions == []) && Without(g, gone) == g.(sessions := kept)
      else Survives(g, gone) && Without(g, gone) == g
  {
    var keep := (s: Session) => !gone(g, s);
    if selected(g) {
      KeepIsOnly(g.sessions, test, keep);
      OnlyNone(g.sessions, keep);
    } else {
      OnlyAll(g.sessions, keep);
      if g.sessions != [] { assert g.sessions[0] in g.sessions; }
    }
  }

  lemma {:induction false} DropIsThinned(gs: seq<Group>, selected: Group -> bool, test: Session -> bool, gone: (Group, Session) -> bool)
    requires forall g, s :: gone(g, s) == (selected(g) && !test(s))
    ensures DropSessions(gs, selected, test) == Thinned(gs, gone)
    decreases |gs|
  {
    hide Survives, Without, Keep;
    if gs != [] {
      DropIsThinned(gs[1..], selected, test, gone);
      ThinnedFront(gs[0], gs[1..], gone);
      DropOne(gs[0], selected, test, gone);
      assert [gs[0]] + gs[1..] == gs;
    }
  }

  // ---- Where an operation writes ----

  /** `k` is the first project with this id. */
  ghost predicate FirstProject(m: Manifest, projectId: string, k: nat) {
    k < |m.projects| && m.projects[k].id == projectId && forall i :: 0 <= i < k ==> m.projects[i].id != projectId
  }

  /** `j` is the first group with this id. */
  ghost predicate FirstGroup(gs: seq<Group>, groupId: string, j: nat) {
    j < |gs| && gs[j].id == groupId && forall i :: 0 <= i < j ==> gs[i].id != groupId
  }

  /** `n` is `m` with `groups` as the list of groups the project id leads to. */
  ghost predicate Written(m: Manifest, n: Manifest, projectId: string, groups: seq<Group>) {
    if HasProject(m, projectId) then
      exists k: nat :: FirstProject(m, projectId, k) && n == m.(projects := m.projects[k := m.projects[k].(groups := groups)])
    else n == m.(groups := groups)
  }

  lemma HasProjectIff(m: Manifest, projectId: string)
    ensures HasProject(m, projectId) <==> FindProject(m.projects, projectId).Some?
    ensures HasProject(m, projectId) ==> FirstProject(m, projectId, FindProject(m.projects, projectId).value)
  {
    FindProjectFirst(m.projects, projectId);
  }

  /** The list of groups a project id leads to: those of the first such project, else the root groups. */
  lemma GroupsOfPlace(m: Manifest, projectId: string, k: nat)
    ensures FirstProject(m, projectId, k) ==> GroupsOf(m, projectId) == m.projects[k].groups
    ensures !HasProject(m, projectId) ==> GroupsOf(m, projectId) == m.groups
  {
    FindProjectFirst(m.projects, projectId);
    if FirstProject(m, projectId, k) { assert m.projects[k] in m.projects; }
  }

  ghost predicate HasGroup(gs: seq<Group>, groupId: string) { exists g :: g in gs && g.id == groupId }

  lemma HasGroupIff(gs: seq<Group>, groupId: string)
    ensures HasGroup(gs, groupId) <==> FindGroup(gs, groupId).Some?
    ensures HasGroup(gs, groupId) ==> FirstGroup(gs, groupId, FindGroup(gs, groupId).value)
  {
    FindGroupFirst(gs, groupId);
  }

  /** An update of the first group with that id at that place: refused without one, else it is what `update` says. */
  ghost predicate Updates(m: Manifest, r: Outcome, projectId: string, groupId: string, update: Group -> Result<Group, ManifestError>) {
    var gs := GroupsOf(m, projectId);
    if !HasGroup(gs, groupId) then r == Err(NoSuchGroup)
    else exists j: nat :: FirstGroup(gs, groupId, j) && UpdatesAt(m, r, projectId, j, update(gs[j]))
  }

  ghost predicate UpdatesAt(m: Manifest, r: Outcome, projectId: string, j: nat, updated: Result<Group, ManifestError>)
    requires j < |GroupsOf(m, projectId)|
  {
    match updated
    case Err(e) => r == Err(e)
    case Ok(g) => r.Ok? && Written(m, r.value, projectId, GroupsOf(m, projectId)[j := g])
  }

  lemma TargetUpdates(m: Manifest, projectId: string, groupId: string, update: Group -> Result<Group, ManifestError>)
    ensures Updates(m, UpdateTargetGroup(m, projectId, groupId, update), projectId, groupId, update)
  {
    HasProjectIff(m, projectId);
    HasGroupIff(GroupsOf(m, projectId), groupId);
    hide FindProject, FindGroup, HasProject, HasGroup;
  }

  // ---- Groups and projects ----

  /** A group or project is added, empty and last, exactly when no other there has its id. */
  lemma AddContainerOutcome(env: Env, m: Manifest, op: Op)
    requires op.OpAddGroup? || op.OpAddProject? || op.OpAddGroupToProject?
    ensures
      var r := Apply(env, m, op);
      && (op.OpAddGroup? ==>
            r == if HasGroup(m.groups, op.group.id) then Err(GroupExists) else Ok(m.(groups := m.groups + [op.group.(sessions := [])])))
      && (op.OpAddProject? ==>
            r == if HasProject(m, op.project.id) then Err(ProjectExists) else Ok(m.(projects := m.projects + [op.project.(groups := [])])))
      && (op.OpAddGroupToProject? ==>
            var gs := GroupsOf(m, op.projectId);
            if !HasProject(m, op.projectId) then r == Err(NoSuchProject)
            else if HasGroup(gs, op.group.id) then r == Err(GroupExists)
            else r.Ok? && Written(m, r.value, op.projectId, gs + [op.group.(sessions := [])]))
  {
    match op
    case OpAddGroup(g) => HasGroupIff(m.groups, g.id);
    case OpAddProject(p) => HasProjectIff(m, p.id);
    case OpAddGroupToProject(projectId, g) =>
      HasProjectIff(m, projectId);
      HasGroupIff(GroupsOf(m, projectId), g.id);
      hide FindProject, FindGroup, HasProject, HasGroup;
  }

  lemma {:induction false} SomewhereIn(env: Env, gs: seq<Group>, cwd: string)
    ensures FindSession(GroupSessions(gs), (s: Session) => Truthy(s.cwd) && CwdMatches(env, s.cwd.value, cwd)).Some?
      <==> exists s :: s in GroupSessions(gs) && IsIn(env, s, cwd)
  {
    var here := (s: Session) => Truthy(s.cwd) && CwdMatches(env, s.cwd.value, cwd);
    forall s ensures here(s) == IsIn(env, s, cwd) { DirectoryIff(env, s, cwd); }
    hide CwdMatches, IsIn, Truthy;
    var r := FindSession(GroupSessions(gs), here);
    if r.Some? { assert GroupSessions(gs)[r.value] in GroupSessions(gs); }
  }

  /** `n` has the root sessions of `from` in `to` instead, and is otherwise `m`. */
  ghost predicate Relocated(env: Env, m: Manifest, n: Manifest, from: string, to: string) {
    && n == m.(groups := n.groups) && |n.groups| == |m.groups|
    && forall i :: 0 <= i < |m.groups| ==>
         var before, after := m.groups[i].sessions, n.groups[i].sessions;
         && n.groups[i] == m.groups[i].(sessions := after) && |after| == |before|
         && forall k :: 0 <= k < |before| ==> after[k] == if IsIn(env, before[k], from) then before[k].(cwd := Some(to)) else before[k]
  }

  lemma RedirectedRelocates(env: Env, m: Manifest, here: Session -> bool, from: string, to: string)
    requires forall s :: here(s) == IsIn(env, s, from)
    ensures Relocated(env, m, m.(groups := MoveDirectory(m.groups, here, to)), from, to)
  {
    hide IsIn;
  }

  /** Editing a project sets its title and directory; without such a project, the
      root sessions of the old directory move to the new one, and there must be one. */
  lemma EditProjectOutcome(env: Env, m: Manifest, projectId: string, title: Option<string>, cwd: string, currentCwd: Option<string>)
    ensures
      var r := Apply(env, m, OpEditProject(projectId, title, cwd, currentCwd));
      var current := if currentCwd.Some? then currentCwd.value else cwd;
      if HasProject(m, projectId) then
        (exists k: nat ::
           FirstProject(m, projectId, k) && r == Ok(m.(projects := m.projects[k := m.projects[k].(title := title, cwd := cwd)])))
      else if !exists s :: s in GroupSessions(m.groups) && IsIn(env, s, current) then r == Err(NoSuchProject)
      else r.Ok? && Relocated(env, m, r.value, current, cwd)
  {
    HasProjectIff(m, projectId);
    if !HasProject(m, projectId) { EditRootOutcome(env, m, projectId, title, cwd, currentCwd); }
    hide IsIn, FindProject, HasProject, FindSession, GroupSessions, Relocated, MoveDirectory;
  }

  lemma EditRootOutcome(env: Env, m: Manifest, projectId: string, title: Option<string>, cwd: string, currentCwd: Option<string>)
    requires FindProject(m.projects, projectId).None?
    ensures
      var r := EditProject(env, m, projectId, title, cwd, currentCwd);
      var current := if currentCwd.Some? then currentCwd.value else cwd;
      if !exists s :: s in GroupSessions(m.groups) && IsIn(env, s, current) then r == Err(NoSuchProject)
      else r.Ok? && Relocated(env, m, r.value, current, cwd)
  {
    var current := if currentCwd.Some? then currentCwd.value else cwd;
    SomewhereIn(env, m.groups, current);
    var here := (s: Session) => Truthy(s.cwd) && CwdMatches(env, s.cwd.value, current);
    assert EditProject(env, m, projectId, title, cwd, currentCwd)
        == if FindSession(GroupSessions(m.groups), here).None? then Err(NoSuchProject)
           else Ok(m.(groups := MoveDirectory(m.groups, here, cwd)));
    forall s ensures here(s) == IsIn(env, s, current) { DirectoryIff(env, s, current); }
    hide *;
    RedirectedRelocates(env, m, here, current, cwd);
  }

  /** Deleting a project removes the projects with its id; without one, the root
      sessions of its directory, with the groups this empties, and there must be one. */
  lemma DeleteProjectOutcome(env: Env, m: Manifest, projectId: string, cwd: Option<string>)
    ensures
      var r := Apply(env, m, OpDeleteProject(projectId, cwd));
      if HasProject(m, projectId) then r == Ok(m.(projects := Only(m.projects, (p: Project) => p.id != projectId)))
      else if cwd.None? || cwd.value == "" || !exists s :: s in GroupSessions(m.groups) && IsIn(env, s, cwd.value)
      then r == Err(NoSuchProject)
      else r == Ok(m.(groups := Thinned(m.groups, (g: Group, s: Session) => IsIn(env, s, cwd.value))))
  {
    HasProjectIff(m, projectId);
    OtherProjectsIsOnly(m.projects, projectId, (p: Project) => p.id != projectId);
    if !HasProject(m, projectId) { DeleteRootProject(env, m, projectId, cwd); }
    hide FindProject, HasProject, Thinned, Only, IsIn, GroupSessions, FindSession;
  }

  lemma DeleteRootProject(env: Env, m: Manifest, projectId: string, cwd: Option<string>)
    requires FindProject(m.projects, projectId).None?
    ensures
      var r := DeleteProject(env, m, projectId, cwd);
      if cwd.None? || cwd.value == "" || !exists s :: s in GroupSessions(m.groups) && IsIn(env, s, cwd.value)
      then r == Err(NoSuchProject)
      else r == Ok(m.(groups := Thinned(m.groups, (g: Group, s: Session) => IsIn(env, s, cwd.value))))
  {
    if cwd.None? || cwd.value == "" { return; }
    var here := (s: Session) => Truthy(s.cwd) && CwdMatches(env, s.cwd.value, cwd.value);
    var everywhere, elsewhere := (g: Group) => true, (s: Session) => !here(s);
    var gone := (g: Group, s: Session) => IsIn(env, s, cwd.value);
    assert DeleteProject(env, m, projectId, cwd)
        == if FindSession(GroupSessions(m.groups), here).None? then Err(NoSuchProject)
           else Ok(m.(groups := DropSessions(m.groups, everywhere, elsewhere)));
    SomewhereIn(env, m.groups, cwd.value);
    forall s ensures here(s) == IsIn(env, s, cwd.value) { DirectoryIff(env, s, cwd.value); }
    hide *;
    DropIsThinned(m.groups, everywhere, elsewhere, gone);
  }

  /** Deleting a group removes the groups with its id at that place; outside
      projects, and with a directory, only their sessions of that directory. */
  lemma DeleteGroupOutcome(env: Env, m: Manifest, projectId: string, groupId: string, projectCwd: Option<string>)
    ensures
      var r := Apply(env, m, OpDeleteGroup(projectId, groupId, projectCwd));
      r.Ok? &&
      if HasProject(m, projectId) || projectCwd.None? || projectCwd.value == "" then
        Written(m, r.value, projectId, Only(GroupsOf(m, projectId), (g: Group) => g.id != groupId))
      else r.value == m.(groups := Thinned(m.groups, (g: Group, s: Session) =>
                             g.id == groupId && IsIn(env, s, projectCwd.value)))
  {
    HasProjectIff(m, projectId);
    OtherGroupsIsOnly(GroupsOf(m, projectId), groupId, (g: Group) => g.id != groupId);
    if !HasProject(m, projectId) && Truthy(projectCwd) { DeleteRootGroup(env, m, projectId, groupId, projectCwd); }
    hide FindProject, HasProject, Thinned, Only, IsIn;
  }

  lemma DeleteRootGroup(env: Env, m: Manifest, projectId: string, groupId: string, projectCwd: Option<string>)
    requires FindProject(m.projects, projectId).None? && Truthy(projectCwd)
    ensures DeleteGroup(env, m, projectId, groupId, projectCwd)
         == Ok(m.(groups := Thinned(m.groups, (g: Group, s: Session) =>
                     g.id == groupId && IsIn(env, s, projectCwd.value))))
  {
    var selected := (g: Group) => g.id == groupId;
    var test := (s: Session) => !Truthy(s.cwd) || !CwdMatches(env, s.cwd.value, projectCwd.value);
    var gone := (g: Group, s: Session) => g.id == groupId && IsIn(env, s, projectCwd.value);
    assert DeleteGroup(env, m, projectId, groupId, projectCwd) == Ok(m.(groups := DropSessions(m.groups, selected, test)));
    forall g, s ensures gone(g, s) == (selected(g) && !test(s)) { DirectoryIff(env, s, projectCwd.value); }
    hide *;
    DropIsThinned(m.groups, selected, test, gone);
  }

  /** Editing a group sets its id, title and layout; resizing sets the layout only. */
  lemma EditGroupOutcome(env: Env, m: Manifest, op: Op)
    requires op.OpEditGroup? || op.OpSetSizes?
    ensures op.OpEditGroup? ==>
      Updates(m, Apply(env, m, op), op.projectId, op.currentGroupId,
              (g: Group) => Ok(Group(op.groupId, op.title, op.layout, g.order, g.sessions)))
    ensures op.OpSetSizes? ==>
      Updates(m, Apply(env, m, op), op.projectId, op.groupId, (g: Group) => Ok(Group(g.id, g.title, op.layout, g.order, g.sessions)))
  {
    match op
    case OpEditGroup(projectId, current, groupId, title, layout) =>
      TargetUpdates(m, projectId, current, (g: Group) => Ok(g.(id := groupId, title := title, layout := layout)));
      hide Written, HasGroup, GroupsOf, FirstGroup, UpdateTargetGroup;
    case OpSetSizes(projectId, groupId, layout) =>
      TargetUpdates(m, projectId, groupId, (g: Group) => Ok(g.(layout := layout)));
      hide Written, HasGroup, GroupsOf, FirstGroup, UpdateTargetGroup;
  }

  // ---- Sessions ----

  /** Why a draft cannot be added: its provider identity needs a provider, a valid shape, and no owner yet. */
  ghost function AddRefusal(env: Env, m: Manifest, d: Draft): Option<ManifestError> {
    if d.resume.None? then None
    else if d.command.Some? || d.agent.None? || !env.managed(d.agent.value) then Some(UnmanagedResume)
    else if !env.validId(d.agent.value, d.resume.value) then Some(InvalidResume)
    else if exists s :: s in CollectSessions(m) && s.resume == d.resume then Some(ResumeTaken)
    else None
  }

  function Added(d: Draft, minted: string): Session {
    Session(minted, d.name, d.cwd, d.agent, d.command, d.resume, d.order, d.details)
  }

  lemma MaterializeOutcome(env: Env, m: Manifest, d: Draft, minted: string)
    ensures
      var refusal := AddRefusal(env, m, d);
      MaterializeAdded(env, m, d, minted) == if refusal.Some? then Err(refusal.value) else Ok(Added(d, minted))
  {
    var r := FindSession(CollectSessions(m), (s: Session) => s.resume == d.resume);
    if r.Some? { assert CollectSessions(m)[r.value] in CollectSessions(m); }
    hide CollectSessions;
  }

  ghost predicate HasName(ss: seq<Session>, name: string) { exists s :: s in ss && s.name == name }

  lemma HasNameIff(ss: seq<Session>, name: string)
    ensures HasName(ss, name) <==> FindSession(ss, (t: Session) => t.name == name).Some?
  {
    var r := FindSession(ss, (t: Session) => t.name == name);
    if r.Some? { assert ss[r.value] in ss; }
  }

  /** What adding to a group comes to: a name of its own, an acceptable identity, and the last place. */
  ghost function AddTo(env: Env, m: Manifest, g: Group, d: Draft, minted: string): Result<Group, ManifestError> {
    if HasName(g.sessions, d.name) then Err(SessionExists)
    else if AddRefusal(env, m, d).Some? then Err(AddRefusal(env, m, d).value)
    else Ok(g.(sessions := g.sessions + [Added(d, minted)]))
  }

  /** Adding to a root group, which is created behind the others if there is none with that id. */
  lemma AddSessionOutcome(env: Env, m: Manifest, groupId: string, title: Option<string>, d: Draft, minted: string)
    ensures
      var r := Apply(env, m, OpAddSession(groupId, title, d, minted));
      if HasGroup(m.groups, groupId) then
        exists j: nat :: FirstGroup(m.groups, groupId, j) && AddsAt(env, m, r, m.groups, j, d, minted)
      else AddsAt(env, m, r, m.groups + [Group(groupId, title, 0, None, [])], |m.groups|, d, minted)
  {
    var created := Group(groupId, title, 0, None, []);
    HasGroupIff(m.groups, groupId);
    FindAppended(m.groups, created);
    MaterializeOutcome(env, m, d, minted);
    var groups := if HasGroup(m.groups, groupId) then m.groups else m.groups + [created];
    var j := FindGroup(groups, groupId).value;
    HasNameIff(groups[j].sessions, d.name);
    hide FindGroup, HasGroup, HasName, AddRefusal, MaterializeAdded, FirstGroup, FindSession;
  }

  /** The group at `j` of the root groups `groups` gets the session, or the error is returned. */
  ghost predicate AddsAt(env: Env, m: Manifest, r: Outcome, groups: seq<Group>, j: nat, d: Draft, minted: string)
    requires j < |groups|
  {
    match AddTo(env, m, groups[j], d, minted)
    case Err(e) => r == Err(e)
    case Ok(g) => r == Ok(m.(groups := groups[j := g]))
  }

  /** Adding to a group of a project, both of which must exist. */
  lemma AddSessionToProjectOutcome(env: Env, m: Manifest, projectId: string, groupId: string, d: Draft, minted: string)
    ensures
      var r := Apply(env, m, OpAddSessionToProject(projectId, groupId, d, minted));
      if !HasProject(m, projectId) then r == Err(NoSuchProject)
      else Updates(m, r, projectId, groupId, (g: Group) => AddTo(env, m, g, d, minted))
  {
    HasProjectIff(m, projectId);
    HasGroupIff(GroupsOf(m, projectId), groupId);
    MaterializeOutcome(env, m, d, minted);
    var j := FindGroup(GroupsOf(m, projectId), groupId);
    if j.Some? { HasNameIff(GroupsOf(m, projectId)[j.value].sessions, d.name); }
    hide FindProject, FindGroup, HasProject, HasGroup, HasName, AddRefusal, MaterializeAdded, FirstGroup, FindSession, FirstProject;
  }

  // ---- Editing sessions ----

  /** The provider that manages a session of this agent and command, if one does. */
  function Manager(env: Env, agent: Option<string>, command: Option<string>): Option<string> {
    if command.None? && agent.Some? && env.managed(agent.value) then agent else None
  }

  /** Why a session cannot take a draft: its identity and, if it has one, its provider stay. */
  function EditRefusal(env: Env, s: Session, d: Draft): Option<ManifestError> {
    if d.resume.Some? && d.resume != s.resume then Some(IdentityImmutable)
    else if s.resume.Some? && Manager(env, s.agent, s.command) != Manager(env, d.agent, d.command) then Some(OwnerImmutable)
    else None
  }

  /** An edited session: the fields of the draft under its own identities. */
  function Redrafted(s: Session, d: Draft): Session {
    Session(s.sessionId, d.name, d.cwd, d.agent, d.command, s.resume, d.order, d.details)
  }

  lemma EditedOutcome(env: Env, s: Session, d: Draft)
    ensures Edited(env, s, d) == if EditRefusal(env, s, d).Some? then Err(EditRefusal(env, s, d).value) else Ok(Redrafted(s, d))
  {
  }

  /** `i` is the first session that is meant and refused. */
  ghost predicate FirstRefused(env: Env, ss: seq<Session>, selected: Session -> bool, d: Draft, i: nat) {
    && i < |ss| && selected(ss[i]) && EditRefusal(env, ss[i], d).Some?
    && forall k :: 0 <= k < i && selected(ss[k]) ==> EditRefusal(env, ss[k], d).None?
  }

  ghost predicate EditsAll(env: Env, ss: seq<Session>, selected: Session -> bool, d: Draft, r: Result<seq<Session>, ManifestError>) {
    match r
    case Err(e) => exists i: nat :: FirstRefused(env, ss, selected, d, i) && EditRefusal(env, ss[i], d) == Some(e)
    case Ok(next) =>
      && |next| == |ss|
      && forall i :: 0 <= i < |ss| ==>
           if selected(ss[i]) then EditRefusal(env, ss[i], d).None? && next[i] == Redrafted(ss[i], d) else next[i] == ss[i]
  }

  /** Either every session that is meant is edited, or the first refusal is the error. */
  lemma {:induction false} EditAllOutcome(env: Env, ss: seq<Session>, selected: Session -> bool, d: Draft)
    ensures EditsAll(env, ss, selected, d, EditAll(env, ss, selected, d))
    decreases |ss|
  {
    if ss == [] { return; }
    EditedOutcome(env, ss[0], d);
    EditAllOutcome(env, ss[1..], selected, d);
    hide EditRefusal, Redrafted, Edited;
    var rest := EditAll(env, ss[1..], selected, d);
    assert forall i :: 0 < i < |ss| ==> ss[i] == ss[1..][i - 1];
    if selected(ss[0]) && EditRefusal(env, ss[0], d).Some? {
      assert FirstRefused(env, ss, selected, d, 0);
    } else if rest.Err? {
      var i: nat :| FirstRefused(env, ss[1..], selected, d, i) && EditRefusal(env, ss[1..][i], d) == Some(rest.error);
      assert FirstRefused(env, ss, selected, d, i + 1);
    }
  }

  /** What editing the sessions of a group comes to: a refusal, or all that are meant, and there must be one. */
  ghost predicate EditsGroup(env: Env, g: Group, meant: Session -> bool, d: Draft, r: Result<Group, ManifestError>) {
    match r
    case Err(e) =>
      || EditsAll(env, g.sessions, meant, d, Err(e))
      || (e == NoSuchSession && forall s :: s in g.sessions ==> !meant(s))
    case Ok(h) =>
      && h == g.(sessions := h.sessions) && EditsAll(env, g.sessions, meant, d, Ok(h.sessions))
      && exists s :: s in g.sessions && meant(s)
  }

  lemma ReplaceOutcome(env: Env, g: Group, name: string, d: Draft, cwd: Option<string>, meant: Session -> bool)
    requires forall s :: meant(s) == (s.name == name && !(Truthy(cwd) && Truthy(s.cwd) && !CwdMatches(env, s.cwd.value, cwd.value)))
    ensures EditsGroup(env, g, meant, d, ReplaceSession(env, g, name, d, cwd))
  {
    var selected := (s: Session) => s.name == name && !(Truthy(cwd) && Truthy(s.cwd) && !CwdMatches(env, s.cwd.value, cwd.value));
    EditAllOutcome(env, g.sessions, selected, d);
    var r := EditAll(env, g.sessions, selected, d);
    var k := FindSession(g.sessions, selected);
    assert ReplaceSession(env, g, name, d, cwd)
        == if r.Err? then Err(r.error) else if k.None? then Err(NoSuchSession) else Ok(g.(sessions := r.value));
    assert forall s :: meant(s) == selected(s);
    hide *;
    assert k.Some? ==> g.sessions[k.value] in g.sessions;
    SameEdits(env, g.sessions, selected, meant, d, r);
  }

  lemma SameEdits(env: Env, ss: seq<Session>, a: Session -> bool, b: Session -> bool, d: Draft, r: Result<seq<Session>, ManifestError>)
    requires EditsAll(env, ss, a, d, r) && forall s :: a(s) == b(s)
    ensures EditsAll(env, ss, b, d, r)
  {
    hide EditRefusal, Redrafted;
    if r.Err? {
      var i: nat :| FirstRefused(env, ss, a, d, i) && EditRefusal(env, ss[i], d) == Some(r.error);
      assert FirstRefused(env, ss, b, d, i);
    }
  }

  /** Editing the sessions that are meant, in the first group with that id at that place. */
  lemma EditSessionOutcome(env: Env, m: Manifest, projectId: string, groupId: string, name: string, d: Draft, projectCwd: Option<string>)
    ensures
      var r, gs := Apply(env, m, OpEditSession(projectId, groupId, name, d, projectCwd)), GroupsOf(m, projectId);
      var meant := (s: Session) => Doomed(env, m, projectId, name, projectCwd, s);
      if !HasGroup(gs, groupId) then r == Err(NoSuchGroup)
      else
        exists j: nat, edited ::
          FirstGroup(gs, groupId, j) && EditsGroup(env, gs[j], meant, d, edited) && UpdatesAt(m, r, projectId, j, edited)
  {
    hide Apply, Doomed, EditCwd, UpdateTargetGroup, Updates, UpdatesAt, HasGroup, FirstGroup, EditsGroup;
    hide ReplaceSession, GroupsOf, CwdMatches;
    var cwd := EditCwd(m, projectId, projectCwd);
    var meant := (s: Session) => Doomed(env, m, projectId, name, projectCwd, s);
    var update := (g: Group) => ReplaceSession(env, g, name, d, cwd);
    EditIsUpdate(env, m, projectId, groupId, name, d, projectCwd);
    TargetUpdates(m, projectId, groupId, update);
    forall s: Session
      ensures meant(s) == (s.name == name && !(Truthy(cwd) && Truthy(s.cwd) && !CwdMatches(env, s.cwd.value, cwd.value)))
    {
      MeantThere(env, m, projectId, name, projectCwd, s);
    }
    forall g ensures EditsGroup(env, g, meant, d, update(g)) { ReplaceOutcome(env, g, name, d, cwd, meant); }
    UpdatesEdited(env, m, UpdateTargetGroup(m, projectId, groupId, update), projectId, groupId, update, meant, d);
  }

  /** The directory an edit goes by: none inside a project. */
  function EditCwd(m: Manifest, projectId: string, projectCwd: Option<string>): Option<string> {
    if FindProject(m.projects, projectId).Some? then None else projectCwd
  }

  lemma EditIsUpdate(env: Env, m: Manifest, projectId: string, groupId: string, name: string, d: Draft, projectCwd: Option<string>)
    ensures
      var cwd := EditCwd(m, projectId, projectCwd);
      Apply(env, m, OpEditSession(projectId, groupId, name, d, projectCwd))
      == UpdateTargetGroup(m, projectId, groupId, (g: Group) => ReplaceSession(env, g, name, d, cwd))
  {
    hide UpdateTargetGroup, ReplaceSession, FindProject;
  }

  lemma MeantThere(env: Env, m: Manifest, projectId: string, name: string, projectCwd: Option<string>, s: Session)
    ensures
      var cwd := EditCwd(m, projectId, projectCwd);
      Doomed(env, m, projectId, name, projectCwd, s)
      <==> s.name == name && !(Truthy(cwd) && Truthy(s.cwd) && !CwdMatches(env, s.cwd.value, cwd.value))
  {
    DoomedIff(env, m, projectId, name, projectCwd, s);
    hide Doomed, CwdMatches, FindProject;
  }

  lemma UpdatesEdited(env: Env, m: Manifest, r: Outcome, projectId: string, groupId: string,
                      update: Group -> Result<Group, ManifestError>, meant: Session -> bool, d: Draft)
    requires Updates(m, r, projectId, groupId, update) && forall g :: EditsGroup(env, g, meant, d, update(g))
    ensures
      var gs := GroupsOf(m, projectId);
      if !HasGroup(gs, groupId) then r == Err(NoSuchGroup)
      else
        exists j: nat, edited ::
          FirstGroup(gs, groupId, j) && EditsGroup(env, gs[j], meant, d, edited) && UpdatesAt(m, r, projectId, j, edited)
  {
    hide EditsGroup, UpdatesAt, HasGroup, GroupsOf;
    var gs := GroupsOf(m, projectId);
    if HasGroup(gs, groupId) {
      var j: nat :| FirstGroup(gs, groupId, j) && UpdatesAt(m, r, projectId, j, update(gs[j]));
      assert EditsGroup(env, gs[j], meant, d, update(gs[j]));
    }
  }

  /** Deleting leaves exactly the sessions that are not meant; a group without any is no error. */
  lemma DeleteSessionOutcome(env: Env, m: Manifest, projectId: string, groupId: string, name: string, projectCwd: Option<string>)
    ensures
      Updates(m, DeleteSession(env, m, projectId, groupId, name, projectCwd), projectId, groupId, (g: Group) =>
        Ok(g.(sessions := Only(g.sessions, (s: Session) => !Doomed(env, m, projectId, name, projectCwd, s)))))
  {
    var inProject := FindProject(m.projects, projectId).Some?;
    var test := (s: Session) =>
      s.name != name || (!inProject && Truthy(projectCwd) && Truthy(s.cwd) && !CwdMatches(env, s.cwd.value, projectCwd.value));
    var keep := (s: Session) => !Doomed(env, m, projectId, name, projectCwd, s);
    var update := (g: Group) => Ok(g.(sessions := Keep(g.sessions, test)));
    TargetUpdates(m, projectId, groupId, update);
    assert DeleteSession(env, m, projectId, groupId, name, projectCwd) == UpdateTargetGroup(m, projectId, groupId, update);
    forall s ensures test(s) == keep(s) { DoomedIff(env, m, projectId, name, projectCwd, s); }
    hide *;
    forall g: Group ensures update(g) == Ok(g.(sessions := Only(g.sessions, keep))) { KeepIsOnly(g.sessions, test, keep); }
    SameUpdates(m, UpdateTargetGroup(m, projectId, groupId, update), projectId, groupId, update,
                (g: Group) => Ok(g.(sessions := Only(g.sessions, (s: Session) => !Doomed(env, m, projectId, name, projectCwd, s)))));
  }

  lemma SameUpdates(m: Manifest, r: Outcome, projectId: string, groupId: string,
                    a: Group -> Result<Group, ManifestError>, b: Group -> Result<Group, ManifestError>)
    requires Updates(m, r, projectId, groupId, a) && forall g :: a(g) == b(g)
    ensures Updates(m, r, projectId, groupId, b)
  {
    hide UpdatesAt, HasGroup, GroupsOf;
    var gs := GroupsOf(m, projectId);
    if HasGroup(gs, groupId) {
      var j: nat :| FirstGroup(gs, groupId, j) && UpdatesAt(m, r, projectId, j, a(gs[j]));
      assert a(gs[j]) == b(gs[j]);
    }
  }

  // ---- Where a session is launched ----

  /** One launch specification, as far as a move looks at it. */
  datatype Launch = Launch(project: Option<string>, group: string, name: string, cwd: string)

  function GroupLaunches(env: Env, project: Option<string>, g: Group, fallback: string): seq<Launch> {
    seq(|g.sessions|, i requires 0 <= i < |g.sessions| =>
      var s := g.sessions[i];
      var path := if s.cwd.Some? then s.cwd.value else fallback;
      Launch(project, g.id, s.name, if path == "~" then env.home else Directory(env, path)))
  }

  function GroupsLaunches(env: Env, project: Option<string>, gs: seq<Group>, fallback: string): seq<Launch> {
    if gs == [] then [] else GroupLaunches(env, project, gs[0], fallback) + GroupsLaunches(env, project, gs[1..], fallback)
  }

  function ProjectsLaunches(env: Env, ps: seq<Project>): seq<Launch> {
    if ps == [] then [] else GroupsLaunches(env, Some(ps[0].id), ps[0].groups, ps[0].cwd) + ProjectsLaunches(env, ps[1..])
  }

  /** All specifications: the root groups' in order, then the projects'. */
  function Launches(env: Env, m: Manifest): seq<Launch> {
    GroupsLaunches(env, None, m.groups, env.home) + ProjectsLaunches(env, m.projects)
  }

  /** The specification is the source of the move: by group and name, and by
      project or, at the root, by directory. */
  predicate FitsSource(env: Env, l: Launch, o: MoveOptions) {
    && l.group == o.sourceGroupId && l.name == o.sourceSessionName
    && (if l.project.Some? then l.project.value == o.sourceProjectId
        else o.sourceProjectCwd.Some? && o.sourceProjectCwd.value != ""
             && (l.cwd == Directory(env, o.sourceProjectCwd.value)
                 || Directory(env, l.cwd) == Directory(env, Directory(env, o.sourceProjectCwd.value))))
  }

  /** The directory of the first specification that fits. */
  function FirstFit(env: Env, ls: seq<Launch>, o: MoveOptions): Option<string> {
    if ls == [] then None else if FitsSource(env, ls[0], o) then Some(ls[0].cwd) else FirstFit(env, ls[1..], o)
  }

  lemma {:induction false} FirstFitMeaning(env: Env, ls: seq<Launch>, o: MoveOptions)
    ensures FirstFit(env, ls, o).None? <==> forall i :: 0 <= i < |ls| ==> !FitsSource(env, ls[i], o)
    ensures
      forall i :: 0 <= i < |ls| && FitsSource(env, ls[i], o) && (forall k :: 0 <= k < i ==> !FitsSource(env, ls[k], o))
        ==> FirstFit(env, ls, o) == Some(ls[i].cwd)
    decreases |ls|
  {
    hide FitsSource;
    if ls != [] {
      FirstFitMeaning(env, ls[1..], o);
      assert forall i :: 0 < i < |ls| ==> ls[i] == ls[1..][i - 1];
    }
  }

  lemma {:induction false} FirstFitAppend(env: Env, a: seq<Launch>, b: seq<Launch>, o: MoveOptions)
    ensures FirstFit(env, a + b, o) == if FirstFit(env, a, o).Some? then FirstFit(env, a, o) else FirstFit(env, b, o)
    decreases |a|
  {
    hide FitsSource;
    if a == [] {
      assert a + b == b;
    } else {
      assert (a + b)[0] == a[0] && (a + b)[1..] == a[1..] + b;
      FirstFitAppend(env, a[1..], b, o);
    }
  }

  lemma ExpandIsDirectory(env: Env, path: string)
    ensures ExpandHome(env, path) == Directory(env, path)
    ensures LaunchPath(env, path) == if path == "~" then env.home else Directory(env, path)
  {
    if |path| >= 2 { assert path[..2] == "~/" <==> "~/" <= path; }
  }

  lemma RootGroupFit(env: Env, g: Group, o: MoveOptions)
    ensures
      var dir := (s: Session) => LaunchPath(env, if s.cwd.Some? then s.cwd.value else env.home);
      var k := FindSession(g.sessions, (s: Session) =>
        && s.name == o.sourceSessionName && Truthy(o.sourceProjectCwd)
        && CwdMatches(env, dir(s), ExpandHome(env, o.sourceProjectCwd.value)));
      FirstFit(env, GroupLaunches(env, None, g, env.home), o)
      == if g.id == o.sourceGroupId && k.Some? then Some(dir(g.sessions[k.value])) else None
  {
    var dir := (s: Session) => LaunchPath(env, if s.cwd.Some? then s.cwd.value else env.home);
    var test := (s: Session) =>
      && s.name == o.sourceSessionName && Truthy(o.sourceProjectCwd)
      && CwdMatches(env, dir(s), ExpandHome(env, o.sourceProjectCwd.value));
    var ls := GroupLaunches(env, None, g, env.home);
    forall path ensures ExpandHome(env, path) == Directory(env, path)
                     && LaunchPath(env, path) == if path == "~" then env.home else Directory(env, path) {
      ExpandIsDirectory(env, path);
    }
    hide ExpandHome, Directory, LaunchPath;
    forall i | 0 <= i < |ls| ensures ls[i].cwd == dir(g.sessions[i])
                                  && (FitsSource(env, ls[i], o) <==> g.id == o.sourceGroupId && test(g.sessions[i])) {
    }
    FirstFitMeaning(env, ls, o);
    var k := FindSession(g.sessions, test);
    assert g.id == o.sourceGroupId && k.Some? ==> FitsSource(env, ls[k.value], o);
    hide FitsSource, FirstFit, GroupLaunches;
    if k.None? { assert forall i :: 0 <= i < |ls| ==> g.sessions[i] in g.sessions; }
  }

  lemma ProjectGroupFit(env: Env, p: Project, g: Group, o: MoveOptions)
    ensures
      var k := FindSession(g.sessions, (s: Session) => s.name == o.sourceSessionName);
      FirstFit(env, GroupLaunches(env, Some(p.id), g, p.cwd), o)
      == if p.id == o.sourceProjectId && g.id == o.sourceGroupId && k.Some?
         then Some(LaunchPath(env, if g.sessions[k.value].cwd.Some? then g.sessions[k.value].cwd.value else p.cwd)) else None
  {
    var test := (s: Session) => s.name == o.sourceSessionName;
    var ls := GroupLaunches(env, Some(p.id), g, p.cwd);
    var k := FindSession(g.sessions, test);
    forall path ensures LaunchPath(env, path) == if path == "~" then env.home else Directory(env, path) { ExpandIsDirectory(env, path); }
    hide Directory, LaunchPath;
    forall i | 0 <= i < |ls|
      ensures FitsSource(env, ls[i], o) <==> p.id == o.sourceProjectId && g.id == o.sourceGroupId && test(g.sessions[i]) {
    }
    FirstFitMeaning(env, ls, o);
    hide FitsSource, FirstFit;
    if k.None? { assert forall i :: 0 <= i < |ls| ==> g.sessions[i] in g.sessions; }
  }

  lemma {:induction false} RootFit(env: Env, gs: seq<Group>, o: MoveOptions)
    ensures RootLaunchCwd(env, gs, o) == FirstFit(env, GroupsLaunches(env, None, gs, env.home), o)
    decreases |gs|
  {
    if gs != [] {
      RootFit(env, gs[1..], o);
      RootGroupFit(env, gs[0], o);
      FirstFitAppend(env, GroupLaunches(env, None, gs[0], env.home), GroupsLaunches(env, None, gs[1..], env.home), o);
    }
    hide FirstFit, GroupLaunches, LaunchPath, CwdMatches, FindSession, ExpandHome;
  }

  lemma {:induction false} ProjectFit(env: Env, p: Project, gs: seq<Group>, o: MoveOptions)
    ensures FirstFit(env, GroupsLaunches(env, Some(p.id), gs, p.cwd), o)
         == if p.id == o.sourceProjectId then GroupLaunchCwd(env, p, gs, o) else None
    decreases |gs|
  {
    if gs != [] {
      ProjectFit(env, p, gs[1..], o);
      ProjectGroupFit(env, p, gs[0], o);
      FirstFitAppend(env, GroupLaunches(env, Some(p.id), gs[0], p.cwd), GroupsLaunches(env, Some(p.id), gs[1..], p.cwd), o);
    }
    hide GroupLaunches, LaunchPath, FindSession;
  }

  lemma {:induction false} ProjectsFit(env: Env, ps: seq<Project>, o: MoveOptions)
    ensures ProjectLaunchCwd(env, ps, o) == FirstFit(env, ProjectsLaunches(env, ps), o)
    decreases |ps|
  {
    if ps != [] {
      ProjectsFit(env, ps[1..], o);
      ProjectFit(env, ps[0], ps[0].groups, o);
      FirstFitAppend(env, GroupsLaunches(env, Some(ps[0].id), ps[0].groups, ps[0].cwd), ProjectsLaunches(env, ps[1..]), o);
    }
    hide GroupsLaunches, GroupLaunchCwd;
  }

  /** The directory a move falls back to is that of the first launch specification that fits its source. */
  lemma LaunchCwdIsFirstFit(env: Env, m: Manifest, o: MoveOptions)
    ensures LaunchCwd(env, m, o) == FirstFit(env, Launches(env, m), o)
  {
    RootFit(env, m.groups, o);
    ProjectsFit(env, m.projects, o);
    FirstFitAppend(env, GroupsLaunches(env, None, m.groups, env.home), ProjectsLaunches(env, m.projects), o);
  }

  // ---- Moving ----

  /** `k` is the first session of the group that the source of the move means. */
  ghost predicate FirstMeant(env: Env, m: Manifest, o: MoveOptions, ss: seq<Session>, k: nat) {
    && k < |ss| && Doomed(env, m, o.sourceProjectId, o.sourceSessionName, o.sourceProjectCwd, ss[k])
    && forall i :: 0 <= i < k ==> !Doomed(env, m, o.sourceProjectId, o.sourceSessionName, o.sourceProjectCwd, ss[i])
  }

  /** Taking a session out: the first one meant leaves the first group with that id at that place. */
  ghost predicate TakesOut(env: Env, m: Manifest, o: MoveOptions, r: Result<(Session, Manifest), ManifestError>) {
    var gs := GroupsOf(m, o.sourceProjectId);
    if !HasGroup(gs, o.sourceGroupId) then r == Err(NoSuchGroup)
    else exists j: nat :: FirstGroup(gs, o.sourceGroupId, j) && TakesFrom(env, m, o, j, r)
  }

  ghost predicate TakesFrom(env: Env, m: Manifest, o: MoveOptions, j: nat, r: Result<(Session, Manifest), ManifestError>)
    requires j < |GroupsOf(m, o.sourceProjectId)|
  {
    var gs := GroupsOf(m, o.sourceProjectId);
    var ss := gs[j].sessions;
    match r
    case Err(e) =>
      e == NoSuchSession && forall s :: s in ss ==> !Doomed(env, m, o.sourceProjectId, o.sourceSessionName, o.sourceProjectCwd, s)
    case Ok((taken, left)) =>
      exists k: nat ::
        && FirstMeant(env, m, o, ss, k) && taken == ss[k]
        && Written(m, left, o.sourceProjectId, gs[j := gs[j].(sessions := ss[..k] + ss[k + 1..])])
  }

  lemma RemoveOutcome(env: Env, m: Manifest, o: MoveOptions)
    ensures TakesOut(env, m, o, RemoveSession(env, m, o))
  {
    var gs := GroupsOf(m, o.sourceProjectId);
    HasProjectIff(m, o.sourceProjectId);
    HasGroupIff(gs, o.sourceGroupId);
    var i, j := FindProject(m.projects, o.sourceProjectId), FindGroup(gs, o.sourceGroupId);
    if j.Some? {
      var test := (s: Session) =>
        s.name == o.sourceSessionName
        && (i.Some? || !Truthy(o.sourceProjectCwd) || !Truthy(s.cwd) || CwdMatches(env, s.cwd.value, o.sourceProjectCwd.value));
      forall s ensures test(s) == Doomed(env, m, o.sourceProjectId, o.sourceSessionName, o.sourceProjectCwd, s) {
        DoomedIff(env, m, o.sourceProjectId, o.sourceSessionName, o.sourceProjectCwd, s);
      }
      var ss := gs[j.value].sessions;
      var k := FindSession(ss, test);
      hide Doomed, CwdMatches, FindProject, FindGroup, FindSession, HasProject, HasGroup, Written, Truthy;
      if k.Some? {
        assert FirstMeant(env, m, o, ss, k.value);
        RemovedThere(m, o.sourceProjectId, gs[j.value := gs[j.value].(sessions := ss[..k.value] + ss[k.value + 1..])]);
      }
    }
    hide Doomed, CwdMatches, FindProject, FindGroup, FindSession, HasProject, HasGroup, Written, FirstMeant, Truthy;
  }

  lemma RemovedThere(m: Manifest, projectId: string, groups: seq<Group>)
    ensures
      var i := FindProject(m.projects, projectId);
      Written(m, if i.Some? then WithGroups(m, i.value, groups) else m.(groups := groups), projectId, groups)
  {
    HasProjectIff(m, projectId);
    hide FindProject, HasProject;
  }

  /** The session as it arrives: without a directory of its own it gets the one it was launched in. */
  function Arriving(env: Env, m: Manifest, o: MoveOptions, taken: Session): Session {
    taken.(cwd := if taken.cwd.Some? then taken.cwd else FirstFit(env, Launches(env, m), o))
  }

  /**
   * A move: the session is taken out, and comes last in the first target group
   * with that id, whose names must not include its own. A target at the root
   * writes back the projects as they were before the session was taken out.
   */
  lemma MoveOutcome(env: Env, m: Manifest, o: MoveOptions)
    ensures
      var r := Apply(env, m, OpMoveSession(o));
      match RemoveSession(env, m, o)
      case Err(e) => r == Err(e)
      case Ok((taken, left)) =>
        var gs := GroupsOf(left, o.targetProjectId);
        if !HasGroup(gs, o.targetGroupId) then r == Err(NoSuchGroup)
        else exists j: nat :: FirstGroup(gs, o.targetGroupId, j) && ArrivesAt(env, m, o, taken, left, j, r)
  {
    if RemoveSession(env, m, o).Err? { return; }
    var (taken, left) := RemoveSession(env, m, o).value;
    var gs := GroupsOf(left, o.targetProjectId);
    LaunchCwdIsFirstFit(env, m, o);
    HasProjectIff(left, o.targetProjectId);
    HasGroupIff(gs, o.targetGroupId);
    var j := FindGroup(gs, o.targetGroupId);
    if j.Some? { HasNameIff(gs[j.value].sessions, taken.name); }
    hide RemoveSession, LaunchCwd, FirstFit, Launches, FindProject, FindGroup, HasProject, HasGroup, HasName, FindSession, FirstProject;
  }

  ghost predicate ArrivesAt(env: Env, m: Manifest, o: MoveOptions, taken: Session, left: Manifest, j: nat, r: Outcome)
    requires j < |GroupsOf(left, o.targetProjectId)|
  {
    var gs := GroupsOf(left, o.targetProjectId);
    if HasName(gs[j].sessions, taken.name) then r == Err(SessionExists)
    else
      var groups := gs[j := gs[j].(sessions := gs[j].sessions + [Arriving(env, m, o, taken)])];
      r.Ok? &&
      if HasProject(left, o.targetProjectId) then Written(left, r.value, o.targetProjectId, groups)
      else r.value == left.(groups := groups, projects := m.projects)
  }

  // ---- Reordering ----

  /** Reordering writes the sorted list where the old one was, and nothing else. */
  lemma ReorderOutcome(env: Env, m: Manifest, op: Op)
    requires op.OpReorderProjects? || op.OpReorderGroups? || op.OpReorderSessions?
    ensures op.OpReorderProjects? ==> Apply(env, m, op) == Ok(m.(projects := ApplyOrder(PROJECT_LENS, op.ids, m.projects)))
    ensures op.OpReorderGroups? ==>
      Apply(env, m, op).Ok?
      && Written(m, Apply(env, m, op).value, op.projectId, ApplyOrder(GROUP_LENS, op.ids, GroupsOf(m, op.projectId)))
    ensures op.OpReorderSessions? ==>
      Updates(m, Apply(env, m, op), op.projectId, op.groupId,
              (g: Group) => Ok(g.(sessions := ApplyOrder(SESSION_LENS, op.ids, g.sessions))))
  {
    hide ApplyOrder, FindProject, HasProject, Updates;
    match op
    case OpReorderProjects(ids) =>
    case OpReorderGroups(projectId, ids) => HasProjectIff(m, projectId);
    case OpReorderSessions(projectId, groupId, ids) =>
      TargetUpdates(m, projectId, groupId, (g: Group) => Ok(g.(sessions := ApplyOrder(SESSION_LENS, ids, g.sessions))));
  }

  /** Sessions are ordered by name, groups and projects by id, all by their own `order`. */
  lemma LensesExpose(s: Session, g: Group, p: Project, k: int)
    ensures SESSION_LENS.idOf(s) == s.name && GROUP_LENS.idOf(g) == g.id && PROJECT_LENS.idOf(p) == p.id
    ensures SESSION_LENS.orderOf(s) == s.order && GROUP_LENS.orderOf(g) == g.order && PROJECT_LENS.orderOf(p) == p.order
    ensures SESSION_LENS.withOrder(s, k) == s.(order := Some(k)) && GROUP_LENS.withOrder(g, k) == g.(order := Some(k))
    ensures PROJECT_LENS.withOrder(p, k) == p.(order := Some(k))
    ensures Lawful(SESSION_LENS) && Lawful(GROUP_LENS) && Lawful(PROJECT_LENS)
  {
  }

  // ---- Provider identities ----

  /** Another session holds this identity. */
  ghost predicate HeldElsewhere(m: Manifest, id: string, resume: string) {
    exists s :: s in CollectSessions(m) && s.sessionId != id && s.resume == Some(resume)
  }

  /** `t` is the first session with this id in the canonical traversal. */
  ghost predicate IsTarget(m: Manifest, id: string, t: Session) {
    exists k: nat :: FirstWithId(CollectSessions(m), id, k) && CollectSessions(m)[k] == t
  }

  lemma TargetIsFirst(m: Manifest, id: string)
    ensures Target(m, id).Some? ==> IsTarget(m, id, Target(m, id).value)
    ensures Target(m, id).None? <==> forall s :: s in CollectSessions(m) ==> s.sessionId != id
  {
    hide CollectSessions;
    var k := FindSession(CollectSessions(m), (s: Session) => s.sessionId == id);
  }

  /** A manifest with the identity of the first session of an id replaced. */
  ghost predicate Rebinds(m: Manifest, n: Manifest, id: string, resume: Option<string>) {
    && n == m.(groups := n.groups, projects := n.projects)
    && exists k: nat ::
         FirstWithId(CollectSessions(m), id, k)
         && CollectSessions(n) == CollectSessions(m)[k := CollectSessions(m)[k].(resume := resume)]
  }

  lemma SetRebinds(m: Manifest, id: string, resume: Option<string>)
    requires Target(m, id).Some?
    ensures Rebinds(m, SetResume(m, id, resume), id, resume)
  {
    var k := Rebound(m, id, resume);
    hide CollectSessions, SetInGroups, SetInProjects;
  }

  /** The conditions of each result of persisting an identity on the session `t`. */
  ghost predicate BindsAs(env: Env, m: Manifest, id: string, provider: string, resume: string, t: Session, b: Binding, n: Manifest) {
    && (b.AgentMismatch? <==> t.agent != Some(provider))
    && (b.InvalidId? <==> t.agent == Some(provider) && !env.validId(provider, resume))
    && (t.agent == Some(provider) && env.validId(provider, resume) ==>
          && (b.Conflict? <==> HeldElsewhere(m, id, resume))
          && (b.AlreadyBound? <==> !HeldElsewhere(m, id, resume) && t.resume == Some(resume))
          && (b.Mismatch? <==> !HeldElsewhere(m, id, resume) && t.resume.Some? && t.resume.value != "" && t.resume.value != resume)
          && (b.Persisted? <==>
                !HeldElsewhere(m, id, resume) && t.resume != Some(resume) && (t.resume.None? || t.resume.value == ""))
          && (b.Persisted? ==> Rebinds(m, n, id, Some(resume))))
  }

  lemma BindThere(env: Env, m: Manifest, id: string, provider: string, resume: string)
    requires Target(m, id).Some?
    ensures
      var (b, n) := Bind(env, m, id, provider, resume);
      !b.NotFound? && BindsAs(env, m, id, provider, resume, Target(m, id).value, b, n)
  {
    SetRebinds(m, id, Some(resume));
    hide CollectSessions, SetResume, Rebinds, Target, HeldElsewhere, Conflicts;
    ConflictsIff(m, id, resume);
  }

  lemma ConflictsIff(m: Manifest, id: string, resume: string)
    ensures Conflicts(m, id, resume) <==> HeldElsewhere(m, id, resume)
  {
    hide CollectSessions;
  }

  /** Persisting an identity: each refusal in its order, nothing written unless it is persisted. */
  lemma BindOutcome(env: Env, m: Manifest, id: string, provider: string, resume: string)
    ensures
      var (b, n) := Bind(env, m, id, provider, resume);
      && Apply(env, m, OpBind(id, provider, resume)) == Ok(n) && (!b.Persisted? ==> n == m)
      && ((forall s :: s in CollectSessions(m) ==> s.sessionId != id) <==> b.NotFound?)
      && forall t :: IsTarget(m, id, t) ==> BindsAs(env, m, id, provider, resume, t, b, n)
  {
    TargetOnly(m, id);
    if Target(m, id).Some? { BindThere(env, m, id, provider, resume); }
    hide CollectSessions, SetResume, BindsAs, Target, IsTarget, Conflicts;
  }

  lemma TargetOnly(m: Manifest, id: string)
    ensures Target(m, id).None? <==> forall s :: s in CollectSessions(m) ==> s.sessionId != id
    ensures forall t :: IsTarget(m, id, t) ==> Target(m, id) == Some(t)
  {
    TargetIsFirst(m, id);
    hide CollectSessions, Target;
    forall t | IsTarget(m, id, t) ensures Target(m, id) == Some(t) {
      assert t in CollectSessions(m);
    }
  }

  /** Clearing an identity: only the expected one, and only for the provider that owns the session. */
  lemma ClearOutcome(env: Env, m: Manifest, id: string, provider: string, expected: Option<string>)
    ensures
      var (b, n) := Clear(env, m, id, provider, expected);
      var invalid := expected.Some? && !env.validId(provider, expected.value);
      && Apply(env, m, OpClear(id, provider, expected)) == Ok(n) && (!b.Cleared? ==> n == m)
      && (b.InvalidId? <==> invalid)
      && (b.NotFound? <==> !invalid && forall s :: s in CollectSessions(m) ==> s.sessionId != id)
      && forall t :: IsTarget(m, id, t) && !invalid ==>
           && (b.AgentMismatch? <==> t.agent != Some(provider))
           && (b.AlreadyCleared? <==> t.agent == Some(provider) && t.resume.None?)
           && (b.Mismatch? <==> t.agent == Some(provider) && t.resume.Some? && t.resume != expected)
           && (b.Cleared? <==> t.agent == Some(provider) && t.resume.Some? && t.resume == expected)
           && (b.Cleared? ==> Rebinds(m, n, id, None))
  {
    TargetOnly(m, id);
    if Target(m, id).Some? { SetRebinds(m, id, None); }
    hide CollectSessions, SetResume, Rebinds, Target, IsTarget;
  }

  /** The conditions of each result of replacing an identity, both ids being valid. */
  ghost predicate ReplacesAs(m: Manifest, id: string, provider: string, expected: string, resume: string,
                             t: Session, b: Binding, n: Manifest)
  {
    && (b.AgentMismatch? <==> t.agent != Some(provider))
    && (t.agent == Some(provider) ==>
          && (b.Conflict? <==> HeldElsewhere(m, id, resume))
          && (b.AlreadyReplaced? <==> !HeldElsewhere(m, id, resume) && t.resume == Some(resume))
          && (b.Mismatch? <==> !HeldElsewhere(m, id, resume) && t.resume != Some(resume) && t.resume != Some(expected))
          && (b.Replaced? <==> !HeldElsewhere(m, id, resume) && t.resume != Some(resume) && t.resume == Some(expected))
          && (b.Replaced? ==> Rebinds(m, n, id, Some(resume))))
  }

  lemma ReplaceThere(env: Env, m: Manifest, id: string, provider: string, expected: string, resume: string)
    requires Target(m, id).Some? && env.validId(provider, expected) && env.validId(provider, resume)
    ensures
      var (b, n) := Replace(env, m, id, provider, expected, resume);
      !b.NotFound? && ReplacesAs(m, id, provider, expected, resume, Target(m, id).value, b, n)
  {
    SetRebinds(m, id, Some(resume));
    hide CollectSessions, SetResume, Rebinds, Target, HeldElsewhere, Conflicts;
    ConflictsIff(m, id, resume);
  }

  /** Replacing an identity: a compare-and-swap against the expected one. */
  lemma ReplaceIdentityOutcome(env: Env, m: Manifest, id: string, provider: string, expected: string, resume: string)
    ensures
      var (b, n) := Replace(env, m, id, provider, expected, resume);
      var valid := env.validId(provider, expected) && env.validId(provider, resume);
      && Apply(env, m, OpReplace(id, provider, expected, resume)) == Ok(n) && (!b.Replaced? ==> n == m)
      && (b.InvalidId? <==> !valid)
      && (b.NotFound? <==> valid && forall s :: s in CollectSessions(m) ==> s.sessionId != id)
      && forall t :: IsTarget(m, id, t) && valid ==> ReplacesAs(m, id, provider, expected, resume, t, b, n)
  {
    TargetOnly(m, id);
    if Target(m, id).Some? && env.validId(provider, expected) && env.validId(provider, resume) {
      ReplaceThere(env, m, id, provider, expected, resume);
    }
    hide CollectSessions, SetResume, ReplacesAs, Target, IsTarget, Conflicts;
  }

  /** Reading a binding: the provider and identity of the first session with the id, unless one of four checks fails. */
  lemma ReadOutcome(env: Env, m: Manifest, id: string)
    ensures
      var r := ReadBinding(env, m, id);
      && ((forall s :: s in CollectSessions(m) ==> s.sessionId != id) <==> r == Err(NotFound))
      && forall t :: IsTarget(m, id, t) ==>
           r == if t.agent.None? || !env.managed(t.agent.value) then Err(AgentMismatch)
                else if t.resume.Some? && !env.validId(t.agent.value, t.resume.value) then Err(InvalidId)
                else if t.resume.Some? && HeldElsewhere(m, id, t.resume.value) then Err(Conflict)
                else Ok((t.agent.value, t.resume))
  {
    TargetOnly(m, id);
    hide CollectSessions, Target, IsTarget;
  }
}
