/**
 * What each manifest operation does to the sessions of a manifest, counted
 * with multiplicity. A measure gives every session a number, and the whole
 * manifest the sum: the occurrences of one id, of one provider identity or of
 * one session are such measures.
 */
module ManifestEffects {
  import opened Common
  import opened Ordering
  import opened DeskManifest

  datatype Owner = Owner(sessionId: string, resume: Option<string>)

  function OwnerOf(s: Session): Owner { Owner(s.sessionId, s.resume) }

  /** A session without what moving and reordering may rewrite. */
  function Bare(s: Session): Session { s.(cwd := None, order := None) }

  function OfGroup(f: Session -> nat): Group -> nat {
    (g: Group) => Total(f, g.sessions)
  }

  function OfProject(f: Session -> nat): Project -> nat {
    (p: Project) => Total(OfGroup(f), p.groups)
  }

  function All(f: Session -> nat, m: Manifest): nat {
    Total(OfGroup(f), m.groups) + Total(OfProject(f), m.projects)
  }

  ghost predicate OwnerOnly(f: Session -> nat) {
    forall s, t :: OwnerOf(s) == OwnerOf(t) ==> f(s) == f(t)
  }

  ghost predicate BareOnly(f: Session -> nat) {
    forall s, t :: Bare(s) == Bare(t) ==> f(s) == f(t)
  }

  lemma OwnerIsBare(f: Session -> nat)
    requires OwnerOnly(f)
    ensures BareOnly(f)
  {
  }

  // ---- Sums over sequences ----

  lemma {:induction false} TotalAppend<T>(f: T -> nat, a: seq<T>, b: seq<T>)
    ensures Total(f, a + b) == Total(f, a) + Total(f, b)
  {
    if a == [] {
      assert a + b == b;
    } else {
      assert (a + b)[0] == a[0] && (a + b)[1..] == a[1..] + b;
      TotalAppend(f, a[1..], b);
    }
  }

  lemma TotalOne<T>(f: T -> nat, x: T)
    ensures Total(f, [x]) == f(x)
  {
  }

  lemma TotalFront<T>(f: T -> nat, x: T, rest: seq<T>)
    ensures Total(f, [x] + rest) == f(x) + Total(f, rest)
  {
  }

  /** A sequence split at one of its elements. */
  lemma TotalAt<T>(f: T -> nat, xs: seq<T>, i: nat)
    requires i < |xs|
    ensures Total(f, xs) == Total(f, xs[..i] + xs[i + 1..]) + f(xs[i])
  {
    assert xs == xs[..i] + ([xs[i]] + xs[i + 1..]);
    TotalAppend(f, xs[..i], [xs[i]] + xs[i + 1..]);
    TotalAppend(f, [xs[i]], xs[i + 1..]);
    TotalAppend(f, xs[..i], xs[i + 1..]);
    TotalOne(f, xs[i]);
  }

  lemma TotalUpdate<T>(f: T -> nat, xs: seq<T>, i: nat, x: T)
    requires i < |xs|
    ensures Total(f, xs[i := x]) + f(xs[i]) == Total(f, xs) + f(x)
  {
    TotalAt(f, xs, i);
    TotalAt(f, xs[i := x], i);
    assert xs[i := x][..i] + xs[i := x][i + 1..] == xs[..i] + xs[i + 1..];
  }

  lemma {:induction false} KeepTotal(f: Session -> nat, ss: seq<Session>, test: Session -> bool)
    ensures Total(f, Keep(ss, test)) <= Total(f, ss)
  {
    if ss != [] {
      KeepTotal(f, ss[1..], test);
      TotalFront(f, ss[0], Keep(ss[1..], test));
    }
  }

  lemma {:induction false} DropTotal(f: Session -> nat, gs: seq<Group>, selected: Group -> bool, test: Session -> bool)
    ensures Total(OfGroup(f), DropSessions(gs, selected, test)) <= Total(OfGroup(f), gs)
  {
    if gs != [] {
      DropTotal(f, gs[1..], selected, test);
      KeepTotal(f, gs[0].sessions, test);
      var head, tail := gs[0].(sessions := Keep(gs[0].sessions, test)), DropSessions(gs[1..], selected, test);
      TotalFront(OfGroup(f), head, tail);
      TotalFront(OfGroup(f), gs[0], tail);
    }
  }

  lemma {:induction false} OtherGroupsTotal(f: Session -> nat, gs: seq<Group>, id: string)
    ensures Total(OfGroup(f), OtherGroups(gs, id)) <= Total(OfGroup(f), gs)
  {
    if gs != [] {
      OtherGroupsTotal(f, gs[1..], id);
      TotalFront(OfGroup(f), gs[0], OtherGroups(gs[1..], id));
    }
  }

  lemma {:induction false} OtherProjectsTotal(f: Session -> nat, ps: seq<Project>, id: string)
    ensures Total(OfProject(f), OtherProjects(ps, id)) <= Total(OfProject(f), ps)
  {
    if ps != [] {
      OtherProjectsTotal(f, ps[1..], id);
      TotalFront(OfProject(f), ps[0], OtherProjects(ps[1..], id));
    }
  }

  lemma MoveDirectoryTotal(f: Session -> nat, gs: seq<Group>, here: Session -> bool, cwd: string)
    requires BareOnly(f)
    ensures Total(OfGroup(f), MoveDirectory(gs, here, cwd)) == Total(OfGroup(f), gs)
  {
    var moved := MoveDirectory(gs, here, cwd);
    forall i | 0 <= i < |gs| ensures OfGroup(f)(moved[i]) == OfGroup(f)(gs[i]) {
      forall k | 0 <= k < |gs[i].sessions| ensures f(moved[i].sessions[k]) == f(gs[i].sessions[k]) {
        assert Bare(moved[i].sessions[k]) == Bare(gs[i].sessions[k]);
      }
      SameTotal(f, moved[i].sessions, gs[i].sessions);
    }
    SameTotal(OfGroup(f), moved, gs);
  }

  /** An edit changes no session id and no provider identity. */
  lemma {:induction false} EditTotal(f: Session -> nat, env: Env, ss: seq<Session>, selected: Session -> bool, d: Draft)
    requires OwnerOnly(f) && EditAll(env, ss, selected, d).Ok?
    ensures Total(f, EditAll(env, ss, selected, d).value) == Total(f, ss)
  {
    if ss != [] {
      EditTotal(f, env, ss[1..], selected, d);
      var next, more := EditAll(env, ss, selected, d).value, EditAll(env, ss[1..], selected, d).value;
      assert next[1..] == more && OwnerOf(next[0]) == OwnerOf(ss[0]);
    }
  }

  // ---- The traversal ----

  lemma {:induction false} GroupsTotal(f: Session -> nat, gs: seq<Group>)
    ensures Total(f, GroupSessions(gs)) == Total(OfGroup(f), gs)
  {
    if gs != [] {
      GroupsTotal(f, gs[1..]);
      TotalAppend(f, gs[0].sessions, GroupSessions(gs[1..]));
    }
  }

  lemma {:induction false} ProjectsTotal(f: Session -> nat, ps: seq<Project>)
    ensures Total(f, ProjectSessions(ps)) == Total(OfProject(f), ps)
  {
    if ps != [] {
      ProjectsTotal(f, ps[1..]);
      GroupsTotal(f, ps[0].groups);
      TotalAppend(f, GroupSessions(ps[0].groups), ProjectSessions(ps[1..]));
    }
  }

  /** The nested sums and the sum over the canonical traversal agree. */
  lemma AllIsCollected(f: Session -> nat, m: Manifest)
    ensures All(f, m) == Total(f, CollectSessions(m))
  {
    GroupsTotal(f, m.groups);
    ProjectsTotal(f, m.projects);
    TotalAppend(f, GroupSessions(m.groups), ProjectSessions(m.projects));
  }

  // ---- Changing one group ----

  lemma WithGroupsTotal(f: Session -> nat, m: Manifest, i: nat, groups: seq<Group>)
    requires i < |m.projects|
    ensures All(f, WithGroups(m, i, groups)) + Total(OfGroup(f), m.projects[i].groups) == All(f, m) + Total(OfGroup(f), groups)
  {
    TotalUpdate(OfProject(f), m.projects, i, m.projects[i].(groups := groups));
  }

  lemma ProjectGroupTotal(f: Session -> nat, m: Manifest, i: nat, j: nat, g: Group)
    requires i < |m.projects| && j < |m.projects[i].groups|
    ensures All(f, WithGroups(m, i, m.projects[i].groups[j := g])) + Total(f, m.projects[i].groups[j].sessions)
         == All(f, m) + Total(f, g.sessions)
  {
    WithGroupsTotal(f, m, i, m.projects[i].groups[j := g]);
    TotalUpdate(OfGroup(f), m.projects[i].groups, j, g);
  }

  lemma RootGroupTotal(f: Session -> nat, m: Manifest, j: nat, g: Group)
    requires j < |m.groups|
    ensures All(f, m.(groups := m.groups[j := g])) + Total(f, m.groups[j].sessions) == All(f, m) + Total(f, g.sessions)
  {
    TotalUpdate(OfGroup(f), m.groups, j, g);
  }

  /** An update of a target group trades the old sessions of one group for its new ones. */
  lemma TargetTotal(f: Session -> nat, m: Manifest, projectId: string, groupId: string,
                       update: Group -> Result<Group, ManifestError>) returns (g: Group, h: Group)
    requires UpdateTargetGroup(m, projectId, groupId, update).Ok?
    ensures update(g) == Ok(h)
    ensures All(f, UpdateTargetGroup(m, projectId, groupId, update).value) + Total(f, g.sessions) == All(f, m) + Total(f, h.sessions)
  {
    var i := FindProject(m.projects, projectId);
    if i.Some? {
      var j := FindGroup(m.projects[i.value].groups, groupId).value;
      g := m.projects[i.value].groups[j];
      h := update(g).value;
      ProjectGroupTotal(f, m, i.value, j, h);
    } else {
      var j := FindGroup(m.groups, groupId).value;
      g := m.groups[j];
      h := update(g).value;
      RootGroupTotal(f, m, j, h);
    }
  }

  // ---- The operations ----

  lemma NewGroupTotal(f: Session -> nat, gs: seq<Group>, g: Group)
    requires g.sessions == []
    ensures Total(OfGroup(f), gs + [g]) == Total(OfGroup(f), gs)
  {
    TotalAppend(OfGroup(f), gs, [g]);
    TotalOne(OfGroup(f), g);
  }

  lemma AddContainersKeep(f: Session -> nat, env: Env, m: Manifest, op: Op)
    requires op.OpAddGroup? || op.OpAddProject? || op.OpAddGroupToProject?
    requires Apply(env, m, op).Ok?
    ensures All(f, Apply(env, m, op).value) == All(f, m)
  {
    if op.OpAddGroup? {
      NewGroupTotal(f, m.groups, op.group.(sessions := []));
    } else if op.OpAddProject? {
      TotalAppend(OfProject(f), m.projects, [op.project.(groups := [])]);
      TotalOne(OfProject(f), op.project.(groups := []));
    } else {
      var i := FindProject(m.projects, op.projectId).value;
      NewGroupTotal(f, m.projects[i].groups, op.group.(sessions := []));
      WithGroupsTotal(f, m, i, m.projects[i].groups + [op.group.(sessions := [])]);
    }
  }

  lemma EditProjectKeeps(f: Session -> nat, env: Env, m: Manifest, op: Op)
    requires op.OpEditProject? && BareOnly(f) && Apply(env, m, op).Ok?
    ensures All(f, Apply(env, m, op).value) == All(f, m)
  {
    var i := FindProject(m.projects, op.projectId);
    if i.Some? {
      TotalUpdate(OfProject(f), m.projects, i.value, m.projects[i.value].(title := op.title, cwd := op.cwd));
    } else {
      var current := if op.currentCwd.Some? then op.currentCwd.value else op.cwd;
      var here := (s: Session) => Truthy(s.cwd) && CwdMatches(env, s.cwd.value, current);
      MoveDirectoryTotal(f, m.groups, here, op.cwd);
    }
  }

  lemma EditGroupKeeps(f: Session -> nat, env: Env, m: Manifest, op: Op)
    requires (op.OpEditGroup? || op.OpSetSizes?) && Apply(env, m, op).Ok?
    ensures All(f, Apply(env, m, op).value) == All(f, m)
  {
    if op.OpEditGroup? {
      var g, h := TargetTotal(f, m, op.projectId, op.currentGroupId,
        (g: Group) => Ok(g.(id := op.groupId, title := op.title, layout := op.layout)));
    } else {
      var g, h := TargetTotal(f, m, op.projectId, op.groupId, (g: Group) => Ok(g.(layout := op.layout)));
    }
  }

  lemma EditSessionKeeps(f: Session -> nat, env: Env, m: Manifest, op: Op)
    requires op.OpEditSession? && OwnerOnly(f) && Apply(env, m, op).Ok?
    ensures All(f, Apply(env, m, op).value) == All(f, m)
  {
    var cwd := if FindProject(m.projects, op.projectId).Some? then None else op.projectCwd;
    var g, h := TargetTotal(f, m, op.projectId, op.groupId, (g: Group) => ReplaceSession(env, g, op.name, op.draft, cwd));
    var selected := (s: Session) => s.name == op.name && !(Truthy(cwd) && Truthy(s.cwd) && !CwdMatches(env, s.cwd.value, cwd.value));
    EditTotal(f, env, g.sessions, selected, op.draft);
  }

  lemma ReorderProjectsKeeps(f: Session -> nat, m: Manifest, ids: seq<string>)
    ensures All(f, ReorderProjects(m, ids).value) == All(f, m)
  {
    ApplyOrderConserves(PROJECT_LENS, ids, m.projects, OfProject(f));
  }

  lemma GroupOrderKeeps(f: Session -> nat, ids: seq<string>, gs: seq<Group>)
    ensures Total(OfGroup(f), ApplyOrder(GROUP_LENS, ids, gs)) == Total(OfGroup(f), gs)
  {
    ApplyOrderConserves(GROUP_LENS, ids, gs, OfGroup(f));
  }

  lemma ReorderGroupsKeeps(f: Session -> nat, m: Manifest, projectId: string, ids: seq<string>)
    ensures All(f, ReorderGroups(m, projectId, ids).value) == All(f, m)
  {
    hide ApplyOrder;
    var i := FindProject(m.projects, projectId);
    if i.Some? {
      var groups := m.projects[i.value].groups;
      GroupOrderKeeps(f, ids, groups);
      WithGroupsTotal(f, m, i.value, ApplyOrder(GROUP_LENS, ids, groups));
    } else {
      GroupOrderKeeps(f, ids, m.groups);
    }
  }

  lemma ReorderSessionsTotal(f: Session -> nat, m: Manifest, projectId: string, groupId: string, names: seq<string>)
    requires BareOnly(f) && ReorderSessions(m, projectId, groupId, names).Ok?
    ensures All(f, ReorderSessions(m, projectId, groupId, names).value) == All(f, m)
  {
    hide ApplyOrder;
    var g, h := TargetTotal(f, m, projectId, groupId,
      (g: Group) => Ok(g.(sessions := ApplyOrder(SESSION_LENS, names, g.sessions))));
    ReorderSessionsKeeps(f, names, g.sessions);
  }

  lemma ReorderKeeps(f: Session -> nat, env: Env, m: Manifest, op: Op)
    requires (op.OpReorderProjects? || op.OpReorderGroups? || op.OpReorderSessions?) && BareOnly(f)
    requires Apply(env, m, op).Ok?
    ensures All(f, Apply(env, m, op).value) == All(f, m)
  {
    hide All, ReorderProjects, ReorderGroups, ReorderSessions;
    match op
    case OpReorderProjects(ids) => ReorderProjectsKeeps(f, m, ids);
    case OpReorderGroups(projectId, ids) => ReorderGroupsKeeps(f, m, projectId, ids);
    case OpReorderSessions(projectId, groupId, ids) => ReorderSessionsTotal(f, m, projectId, groupId, ids);
  }

  lemma ReorderSessionsKeeps(f: Session -> nat, ids: seq<string>, ss: seq<Session>)
    requires BareOnly(f)
    ensures Total(f, ApplyOrder(SESSION_LENS, ids, ss)) == Total(f, ss)
  {
    forall s: Session, k: int ensures f(SESSION_LENS.withOrder(s, k)) == f(s) {
      assert Bare(s.(order := Some(k))) == Bare(s);
    }
    ApplyOrderConserves(SESSION_LENS, ids, ss, f);
  }

  lemma DeleteShrinks(f: Session -> nat, env: Env, m: Manifest, op: Op)
    requires (op.OpDeleteProject? || op.OpDeleteGroup?) && Apply(env, m, op).Ok?
    ensures All(f, Apply(env, m, op).value) <= All(f, m)
  {
    var i := FindProject(m.projects, op.projectId);
    if op.OpDeleteProject? {
      if i.Some? {
        OtherProjectsTotal(f, m.projects, op.projectId);
      } else {
        var here := (s: Session) => Truthy(s.cwd) && CwdMatches(env, s.cwd.value, op.oldCwd.value);
        DropTotal(f, m.groups, (g: Group) => true, (s: Session) => !here(s));
      }
    } else if i.Some? {
      OtherGroupsTotal(f, m.projects[i.value].groups, op.groupId);
      WithGroupsTotal(f, m, i.value, OtherGroups(m.projects[i.value].groups, op.groupId));
    } else if !Truthy(op.projectCwd) {
      OtherGroupsTotal(f, m.groups, op.groupId);
    } else {
      DropTotal(f, m.groups, (g: Group) => g.id == op.groupId,
        (s: Session) => !Truthy(s.cwd) || !CwdMatches(env, s.cwd.value, op.projectCwd.value));
    }
  }

  lemma DeleteSessionShrinks(f: Session -> nat, env: Env, m: Manifest, op: Op)
    requires op.OpDeleteSession? && Apply(env, m, op).Ok?
    ensures All(f, Apply(env, m, op).value) <= All(f, m)
  {
    var inProject := FindProject(m.projects, op.projectId).Some?;
    var test := (s: Session) =>
      s.name != op.name || (!inProject && Truthy(op.projectCwd) && Truthy(s.cwd) && !CwdMatches(env, s.cwd.value, op.projectCwd.value));
    var g, h := TargetTotal(f, m, op.projectId, op.groupId, (g: Group) => Ok(g.(sessions := Keep(g.sessions, test))));
    KeepTotal(f, g.sessions, test);
  }

  lemma PushTotal(f: Session -> nat, ss: seq<Session>, s: Session)
    ensures Total(f, ss + [s]) == Total(f, ss) + f(s)
  {
    TotalAppend(f, ss, [s]);
    TotalOne(f, s);
  }

  lemma AddSessionGains(f: Session -> nat, env: Env, m: Manifest, op: Op)
    requires (op.OpAddSession? || op.OpAddSessionToProject?) && Apply(env, m, op).Ok?
    ensures MaterializeAdded(env, m, op.draft, op.minted) == Ok(Saved(op.draft, op.minted, op.draft.resume))
    ensures All(f, Apply(env, m, op).value) == All(f, m) + f(Saved(op.draft, op.minted, op.draft.resume))
  {
    var s := Saved(op.draft, op.minted, op.draft.resume);
    if op.OpAddSession? {
      var added := Group(op.groupId, op.title, 0, None, []);
      FindAppended(m.groups, added);
      NewGroupTotal(f, m.groups, added);
      var n := if FindGroup(m.groups, op.groupId).Some? then m else m.(groups := m.groups + [added]);
      var j := FindGroup(n.groups, op.groupId).value;
      PushTotal(f, n.groups[j].sessions, s);
      RootGroupTotal(f, n, j, n.groups[j].(sessions := n.groups[j].sessions + [s]));
    } else {
      var i := FindProject(m.projects, op.projectId).value;
      var j := FindGroup(m.projects[i].groups, op.groupId).value;
      var g := m.projects[i].groups[j];
      PushTotal(f, g.sessions, s);
      ProjectGroupTotal(f, m, i, j, g.(sessions := g.sessions + [s]));
    }
  }
}
