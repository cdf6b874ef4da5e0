/**
 * Where the manifest operations act: the group they name is the one that
 * changes, in the way they say, and every other group stays as it is.
 */
module ManifestPlaces {
  import opened Common
  import opened Ordering
  import opened DeskManifest

  /** The groups an operation addresses: those of the project with that id, or else the root groups. */
  function GroupsOf(m: Manifest, projectId: string): seq<Group> {
    var i := FindProject(m.projects, projectId);
    if i.Some? then m.projects[i.value].groups else m.groups
  }

  function GroupAt(m: Manifest, projectId: string, groupId: string): Option<Group> {
    var j := FindGroup(GroupsOf(m, projectId), groupId);
    if j.Some? then Some(GroupsOf(m, projectId)[j.value]) else None
  }

  /** Both names lead to the same list of groups. */
  predicate SamePlace(m: Manifest, projectId: string, other: string) {
    FindProject(m.projects, projectId) == FindProject(m.projects, other)
  }

  lemma {:induction false} FindGroupUpdated(gs: seq<Group>, j: nat, g: Group, id: string)
    requires j < |gs| && g.id == gs[j].id
    ensures FindGroup(gs[j := g], id) == FindGroup(gs, id)
  {
    if j > 0 {
      assert gs[j := g][1..] == gs[1..][j - 1 := g];
      FindGroupUpdated(gs[1..], j - 1, g, id);
    } else {
      assert gs[j := g][1..] == gs[1..];
    }
  }

  lemma {:induction false} FindProjectUpdated(ps: seq<Project>, i: nat, p: Project, id: string)
    requires i < |ps| && p.id == ps[i].id
    ensures FindProject(ps[i := p], id) == FindProject(ps, id)
  {
    if i > 0 {
      assert ps[i := p][1..] == ps[1..][i - 1 := p];
      FindProjectUpdated(ps[1..], i - 1, p, id);
    } else {
      assert ps[i := p][1..] == ps[1..];
    }
  }

  /** The manifest with one group at its place replaced. */
  function WithGroupAt(m: Manifest, projectId: string, j: nat, g: Group): Manifest
    requires j < |GroupsOf(m, projectId)|
  {
    var i := FindProject(m.projects, projectId);
    if i.Some? then WithGroups(m, i.value, m.projects[i.value].groups[j := g]) else m.(groups := m.groups[j := g])
  }

  /** Replacing the first group with an id changes what that id leads to there, and nothing else. */
  lemma PlaceUpdated(m: Manifest, projectId: string, groupId: string, g: Group, otherProject: string, otherGroup: string)
    requires FindGroup(GroupsOf(m, projectId), groupId).Some? && g.id == groupId
    ensures
      var n := WithGroupAt(m, projectId, FindGroup(GroupsOf(m, projectId), groupId).value, g);
      && SamePlace(n, projectId, otherProject) == SamePlace(m, projectId, otherProject)
      && GroupAt(n, otherProject, otherGroup)
         == if SamePlace(m, projectId, otherProject) && otherGroup == groupId then Some(g) else GroupAt(m, otherProject, otherGroup)
  {
    var i := FindProject(m.projects, projectId);
    var j := FindGroup(GroupsOf(m, projectId), groupId).value;
    FindGroupUpdated(GroupsOf(m, projectId), j, g, otherGroup);
    if i.Some? {
      var p := m.projects[i.value].(groups := m.projects[i.value].groups[j := g]);
      FindProjectUpdated(m.projects, i.value, p, projectId);
      FindProjectUpdated(m.projects, i.value, p, otherProject);
    }
    hide FindProject, FindGroup;
    FoundThere(m, otherProject, otherGroup, groupId, j);
  }

  lemma FoundThere(m: Manifest, projectId: string, otherGroup: string, groupId: string, j: nat)
    ensures
      var k := FindGroup(GroupsOf(m, projectId), otherGroup);
      k == Some(j) && j < |GroupsOf(m, projectId)| && GroupsOf(m, projectId)[j].id == groupId ==> otherGroup == groupId
  {
  }

  // ---- Operations on one group ----

  /** An update that keeps the id changes exactly the group it names. */
  lemma UpdateLands(m: Manifest, projectId: string, groupId: string, update: Group -> Result<Group, ManifestError>,
                    otherProject: string, otherGroup: string)
    requires UpdateTargetGroup(m, projectId, groupId, update).Ok?
    requires forall g, h :: update(g) == Ok(h) ==> h.id == g.id
    ensures
      var n := UpdateTargetGroup(m, projectId, groupId, update).value;
      && GroupAt(m, projectId, groupId).Some? && update(GroupAt(m, projectId, groupId).value).Ok?
      && GroupAt(n, otherProject, otherGroup)
         == if SamePlace(m, projectId, otherProject) && otherGroup == groupId
            then Some(update(GroupAt(m, projectId, groupId).value).value)
            else GroupAt(m, otherProject, otherGroup)
  {
    var g := GroupAt(m, projectId, groupId).value;
    PlaceUpdated(m, projectId, groupId, update(g).value, otherProject, otherGroup);
  }

  lemma {:induction false} KeepMeaning(ss: seq<Session>, test: Session -> bool, s: Session)
    ensures s in Keep(ss, test) <==> s in ss && test(s)
  {
    if ss != [] {
      KeepMeaning(ss[1..], test, s);
      assert s in ss <==> s == ss[0] || s in ss[1..];
    }
  }

  /** A directory with a leading `~/` replaced by the home directory. */
  function Directory(env: Env, path: string): string { if "~/" <= path then env.home + path[1..] else path }

  ghost predicate HasProject(m: Manifest, projectId: string) { exists p :: p in m.projects && p.id == projectId }

  /** The session names a directory, and it is this one. */
  predicate IsIn(env: Env, s: Session, cwd: string) {
    s.cwd.Some? && s.cwd.value != "" && (s.cwd.value == cwd || Directory(env, s.cwd.value) == Directory(env, cwd))
  }

  lemma DirectoryIff(env: Env, s: Session, cwd: string)
    ensures Truthy(s.cwd) && CwdMatches(env, s.cwd.value, cwd) <==> IsIn(env, s, cwd)
  {
    forall path: string ensures ExpandHome(env, path) == Directory(env, path) {
      if |path| >= 2 { assert path[..2] == "~/" <==> "~/" <= path; }
    }
  }

  /** The sessions a deletion means: by name, and outside projects also by directory, as far as both sides name one. */
  ghost predicate Doomed(env: Env, m: Manifest, projectId: string, name: string, projectCwd: Option<string>, s: Session) {
    && s.name == name
    && (HasProject(m, projectId) || projectCwd.None? || projectCwd.value == "" || s.cwd.None? || s.cwd.value == ""
        || IsIn(env, s, projectCwd.value))
  }

  lemma DoomedIff(env: Env, m: Manifest, projectId: string, name: string, projectCwd: Option<string>, s: Session)
    ensures Doomed(env, m, projectId, name, projectCwd, s)
      <==> s.name == name && (FindProject(m.projects, projectId).Some? || !Truthy(projectCwd) || !Truthy(s.cwd)
                              || CwdMatches(env, s.cwd.value, projectCwd.value))
  {
    FindProjectFirst(m.projects, projectId);
    if projectCwd.Some? { DirectoryIff(env, s, projectCwd.value); }
    hide CwdMatches, IsIn, FindProject;
  }

  /** The search finds the first project with the id, if there is one. */
  lemma {:induction false} FindProjectFirst(ps: seq<Project>, id: string)
    ensures
      var r := FindProject(ps, id);
      && (r.None? <==> forall p :: p in ps ==> p.id != id)
      && (r.Some? ==> r.value < |ps| && ps[r.value].id == id && forall k :: 0 <= k < r.value ==> ps[k].id != id)
    decreases |ps|
  {
    if ps != [] {
      FindProjectFirst(ps[1..], id);
      assert forall p :: p in ps <==> p == ps[0] || p in ps[1..];
      assert forall k :: 0 < k < |ps| ==> ps[k] == ps[1..][k - 1];
    }
  }

  lemma {:induction false} FindGroupFirst(gs: seq<Group>, id: string)
    ensures
      var r := FindGroup(gs, id);
      && (r.None? <==> forall g :: g in gs ==> g.id != id)
      && (r.Some? ==> r.value < |gs| && gs[r.value].id == id && forall k :: 0 <= k < r.value ==> gs[k].id != id)
    decreases |gs|
  {
    if gs != [] {
      FindGroupFirst(gs[1..], id);
      assert forall g :: g in gs <==> g == gs[0] || g in gs[1..];
      assert forall k :: 0 < k < |gs| ==> gs[k] == gs[1..][k - 1];
    }
  }

  /** Deleting removes exactly those sessions from the group it names, and changes no other group. */
  lemma DeleteLands(env: Env, m: Manifest, projectId: string, groupId: string, name: string, projectCwd: Option<string>,
                    otherProject: string, otherGroup: string)
    requires DeleteSession(env, m, projectId, groupId, name, projectCwd).Ok?
    ensures
      var n := DeleteSession(env, m, projectId, groupId, name, projectCwd).value;
      var g, h := GroupAt(m, projectId, groupId), GroupAt(n, projectId, groupId);
      && g.Some? && h.Some?
      && (forall s :: s in h.value.sessions <==> s in g.value.sessions && !Doomed(env, m, projectId, name, projectCwd, s))
      && (!SamePlace(m, projectId, otherProject) || otherGroup != groupId ==>
            GroupAt(n, otherProject, otherGroup) == GroupAt(m, otherProject, otherGroup))
  {
    var inProject := FindProject(m.projects, projectId).Some?;
    var test := (s: Session) =>
      s.name != name || (!inProject && Truthy(projectCwd) && Truthy(s.cwd) && !CwdMatches(env, s.cwd.value, projectCwd.value));
    var update := (g: Group) => Ok(g.(sessions := Keep(g.sessions, test)));
    UpdateLands(m, projectId, groupId, update, projectId, groupId);
    UpdateLands(m, projectId, groupId, update, otherProject, otherGroup);
    forall s ensures test(s) == !Doomed(env, m, projectId, name, projectCwd, s) {
      DoomedIff(env, m, projectId, name, projectCwd, s);
    }
    KeptSessions(GroupAt(m, projectId, groupId).value.sessions, test);
    hide UpdateTargetGroup, FindGroup, FindProject, GroupAt, Keep, Truthy, CwdMatches, Doomed;
  }

  lemma KeptSessions(ss: seq<Session>, test: Session -> bool)
    ensures forall s :: s in Keep(ss, test) <==> s in ss && test(s)
  {
    forall s ensures s in Keep(ss, test) <==> s in ss && test(s) { KeepMeaning(ss, test, s); }
  }

  lemma {:induction false} EditMeaning(env: Env, ss: seq<Session>, selected: Session -> bool, d: Draft)
    requires EditAll(env, ss, selected, d).Ok?
    ensures
      var next := EditAll(env, ss, selected, d).value;
      |next| == |ss| && forall i :: 0 <= i < |ss| ==>
        next[i] == if selected(ss[i]) then Saved(d, ss[i].sessionId, ss[i].resume) else ss[i]
  {
    if ss != [] {
      EditMeaning(env, ss[1..], selected, d);
      assert forall i :: 0 < i < |ss| ==> ss[i] == ss[1..][i - 1];
    }
  }

  /** An edit gives the sessions it names the fields of the draft, under their own identities, and changes nothing else. */
  lemma EditLands(env: Env, m: Manifest, projectId: string, groupId: string, name: string, d: Draft, projectCwd: Option<string>,
                  otherProject: string, otherGroup: string)
    requires EditSession(env, m, projectId, groupId, name, d, projectCwd).Ok?
    ensures
      var n := EditSession(env, m, projectId, groupId, name, d, projectCwd).value;
      var g, h := GroupAt(m, projectId, groupId), GroupAt(n, projectId, groupId);
      && g.Some? && h.Some? && |h.value.sessions| == |g.value.sessions|
      && (exists s :: s in g.value.sessions && Doomed(env, m, projectId, name, projectCwd, s))
      && (forall i :: 0 <= i < |g.value.sessions| ==>
            var s := g.value.sessions[i];
            h.value.sessions[i] == if Doomed(env, m, projectId, name, projectCwd, s) then Saved(d, s.sessionId, s.resume) else s)
      && (!SamePlace(m, projectId, otherProject) || otherGroup != groupId ==>
            GroupAt(n, otherProject, otherGroup) == GroupAt(m, otherProject, otherGroup))
  {
    var cwd := if FindProject(m.projects, projectId).Some? then None else projectCwd;
    var selected := (s: Session) => s.name == name && !(Truthy(cwd) && Truthy(s.cwd) && !CwdMatches(env, s.cwd.value, cwd.value));
    var update := (g: Group) => ReplaceSession(env, g, name, d, cwd);
    UpdateLands(m, projectId, groupId, update, projectId, groupId);
    UpdateLands(m, projectId, groupId, update, otherProject, otherGroup);
    var before := GroupAt(m, projectId, groupId).value.sessions;
    EditMeaning(env, before, selected, d);
    forall s ensures selected(s) == Doomed(env, m, projectId, name, projectCwd, s) {
      DoomedIff(env, m, projectId, name, projectCwd, s);
    }
    hide *;
    var k := FindSession(before, selected);
  }

  // ---- Adding and moving ----

  /** An added session comes last in the group it names; every other group stays. */
  lemma AddLands(env: Env, m: Manifest, projectId: string, groupId: string, d: Draft, minted: string,
                 otherProject: string, otherGroup: string)
    requires AddSessionToProject(env, m, projectId, groupId, d, minted).Ok?
    ensures
      var n := AddSessionToProject(env, m, projectId, groupId, d, minted).value;
      && GroupAt(m, projectId, groupId).Some?
      && GroupAt(n, otherProject, otherGroup)
         == if SamePlace(m, projectId, otherProject) && otherGroup == groupId
            then var g := GroupAt(m, projectId, groupId).value; Some(g.(sessions := g.sessions + [Saved(d, minted, d.resume)]))
            else GroupAt(m, otherProject, otherGroup)
  {
    var g := GroupAt(m, projectId, groupId).value;
    PlaceUpdated(m, projectId, groupId, g.(sessions := g.sessions + [Saved(d, minted, d.resume)]), otherProject, otherGroup);
  }

  /** What taking a session out does: the first one the options mean is gone from its group, and every other group stays. */
  lemma RemoveLands(env: Env, m: Manifest, o: MoveOptions, otherProject: string, otherGroup: string) returns (k: nat)
    requires RemoveSession(env, m, o).Ok?
    ensures
      var (taken, left) := RemoveSession(env, m, o).value;
      var g := GroupAt(m, o.sourceProjectId, o.sourceGroupId);
      && g.Some? && k < |g.value.sessions| && taken == g.value.sessions[k] && taken.name == o.sourceSessionName
      && GroupAt(left, otherProject, otherGroup)
         == if SamePlace(m, o.sourceProjectId, otherProject) && otherGroup == o.sourceGroupId
            then Some(g.value.(sessions := g.value.sessions[..k] + g.value.sessions[k + 1..]))
            else GroupAt(m, otherProject, otherGroup)
  {
    var i := FindProject(m.projects, o.sourceProjectId);
    var g := GroupAt(m, o.sourceProjectId, o.sourceGroupId).value;
    var test := (s: Session) =>
        s.name == o.sourceSessionName
        && (i.Some? || !Truthy(o.sourceProjectCwd) || !Truthy(s.cwd) || CwdMatches(env, s.cwd.value, o.sourceProjectCwd.value));
    k := FindSession(g.sessions, test).value;
    PlaceUpdated(m, o.sourceProjectId, o.sourceGroupId, g.(sessions := g.sessions[..k] + g.sessions[k + 1..]), otherProject, otherGroup);
  }

  /** A moved session comes last in the target group, keeping its directory or getting the one it was launched in. */
  lemma MoveLands(env: Env, m: Manifest, o: MoveOptions)
    requires MoveSession(env, m, o).Ok?
    ensures RemoveSession(env, m, o).Ok?
    ensures
      var (taken, left) := RemoveSession(env, m, o).value;
      var g := GroupAt(left, o.targetProjectId, o.targetGroupId);
      && g.Some? && (forall s :: s in g.value.sessions ==> s.name != taken.name)
      && GroupAt(MoveSession(env, m, o).value, o.targetProjectId, o.targetGroupId)
         == Some(g.value.(sessions := g.value.sessions + [taken.(cwd := if taken.cwd.Some? then taken.cwd else LaunchCwd(env, m, o))]))
  {
    var (taken, left) := RemoveSession(env, m, o).value;
    var g := GroupAt(left, o.targetProjectId, o.targetGroupId).value;
    var s := taken.(cwd := if taken.cwd.Some? then taken.cwd else LaunchCwd(env, m, o));
    var h := g.(sessions := g.sessions + [s]);
    PlaceUpdated(left, o.targetProjectId, o.targetGroupId, h, o.targetProjectId, o.targetGroupId);
    RemoveKeepsIds(env, m, o);
    FindProjectById(left.projects, m.projects, o.targetProjectId);
    hide LaunchCwd, RemoveSession, CwdMatches;
  }

  lemma RemoveKeepsIds(env: Env, m: Manifest, o: MoveOptions)
    requires RemoveSession(env, m, o).Ok?
    ensures
      var (_, left) := RemoveSession(env, m, o).value;
      |left.projects| == |m.projects| && forall i :: 0 <= i < |m.projects| ==> left.projects[i].id == m.projects[i].id
  {
    hide CwdMatches;
  }

  lemma {:induction false} FindProjectById(a: seq<Project>, b: seq<Project>, id: string)
    requires |a| == |b| && forall i :: 0 <= i < |a| ==> a[i].id == b[i].id
    ensures FindProject(a, id) == FindProject(b, id)
  {
    if a != [] { FindProjectById(a[1..], b[1..], id); }
  }

  // ---- Reordering ----

  /** Projects end up in the order asked for when it lists each once, and the root groups stay. */
  lemma ReorderProjectsLands(m: Manifest, ids: seq<string>)
    ensures
      var n := ReorderProjects(m, ids).value;
      && n.groups == m.groups
      && (Lists(PROJECT_LENS, ids, m.projects) ==> Ids(PROJECT_LENS, n.projects) == ids)
  {
    if Lists(PROJECT_LENS, ids, m.projects) { ApplyOrderObeys(PROJECT_LENS, ids, m.projects); }
  }

  /** The groups of the place that is named end up in the order asked for when it
      lists each once; those of every other place stay as they are. */
  lemma ReorderGroupsLands(m: Manifest, projectId: string, ids: seq<string>, otherProject: string)
    ensures
      var n := ReorderGroups(m, projectId, ids).value;
      && SamePlace(n, projectId, otherProject) == SamePlace(m, projectId, otherProject)
      && (Lists(GROUP_LENS, ids, GroupsOf(m, projectId)) ==> Ids(GROUP_LENS, GroupsOf(n, projectId)) == ids)
      && (!SamePlace(m, projectId, otherProject) ==> GroupsOf(n, otherProject) == GroupsOf(m, otherProject))
  {
    var groups := ApplyOrder(GROUP_LENS, ids, GroupsOf(m, projectId));
    if Lists(GROUP_LENS, ids, GroupsOf(m, projectId)) { ApplyOrderObeys(GROUP_LENS, ids, GroupsOf(m, projectId)); }
    hide ApplyOrder;
    var i := FindProject(m.projects, projectId);
    if i.Some? {
      FindProjectUpdated(m.projects, i.value, m.projects[i.value].(groups := groups), projectId);
      FindProjectUpdated(m.projects, i.value, m.projects[i.value].(groups := groups), otherProject);
    }
  }

  /** The sessions of the group that is named end up in the order asked for when
      it lists each once; every other group stays as it is. */
  lemma ReorderSessionsLands(m: Manifest, projectId: string, groupId: string, names: seq<string>,
                             otherProject: string, otherGroup: string)
    requires ReorderSessions(m, projectId, groupId, names).Ok?
    ensures
      var n := ReorderSessions(m, projectId, groupId, names).value;
      var g, h := GroupAt(m, projectId, groupId), GroupAt(n, projectId, groupId);
      && g.Some? && h.Some? && h.value == g.value.(sessions := h.value.sessions)
      && (Lists(SESSION_LENS, names, g.value.sessions) ==> Ids(SESSION_LENS, h.value.sessions) == names)
      && (!SamePlace(m, projectId, otherProject) || otherGroup != groupId ==>
            GroupAt(n, otherProject, otherGroup) == GroupAt(m, otherProject, otherGroup))
  {
    var update := (g: Group) => Ok(g.(sessions := ApplyOrder(SESSION_LENS, names, g.sessions)));
    UpdateLands(m, projectId, groupId, update, projectId, groupId);
    UpdateLands(m, projectId, groupId, update, otherProject, otherGroup);
    var sessions := GroupAt(m, projectId, groupId).value.sessions;
    if Lists(SESSION_LENS, names, sessions) { ApplyOrderObeys(SESSION_LENS, names, sessions); }
  }
}
