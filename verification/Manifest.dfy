/**
 * The desk manifest and every operation that changes it: `src/core/config.ts`
 * and the three provider-identity transactions of
 * `src/server/providerSessionBinding.ts`.
 *
 * The operations are pure functions from a manifest to a manifest or an error,
 * as in the source, which clones the parts it changes.
 */
module DeskManifest {
  import opened Common
  import opened Ordering
  import opened SessionId

  datatype Session = Session(
    sessionId: string, name: string, cwd: Option<string>, agent: Option<string>, command: Option<string>,
    resume: Option<string>, order: Option<int>, details: nat)

  /** A create or edit payload; a session id in it is ignored by every operation. */
  datatype Draft = Draft(
    name: string, cwd: Option<string>, agent: Option<string>, command: Option<string>,
    resume: Option<string>, order: Option<int>, details: nat)

  datatype Group = Group(id: string, title: Option<string>, layout: nat, order: Option<int>, sessions: seq<Session>)

  datatype Project = Project(id: string, title: Option<string>, cwd: string, order: Option<int>, groups: seq<Group>)

  /** `rest` stands for the settings, plugins and profiles, which no operation here touches. */
  datatype Manifest = Manifest(groups: seq<Group>, projects: seq<Project>, rest: nat)

  /** The home directory, the lower-casing of names, and the registry of providers with their id shapes. */
  datatype Env = Env(home: string, lower: string -> string, managed: string -> bool, validId: (string, string) -> bool)

  datatype ManifestError =
    | SessionExists | GroupExists | ProjectExists
    | NoSuchSession | NoSuchGroup | NoSuchProject
    | IdentityImmutable | OwnerImmutable
    | UnmanagedResume | InvalidResume | ResumeTaken

  type Outcome = Result<Manifest, ManifestError>

  // ---- Small parts ----

  function Saved(d: Draft, sessionId: string, resume: Option<string>): Session {
    Session(sessionId, d.name, d.cwd, d.agent, d.command, resume, d.order, d.details)
  }

  /** What a condition on an optional string means: neither absent nor empty. */
  predicate Truthy(s: Option<string>) { s.Some? && s.value != "" }

  function ExpandHome(env: Env, path: string): string {
    if |path| >= 2 && path[..2] == "~/" then env.home + path[1..] else path
  }

  predicate CwdMatches(env: Env, a: string, b: string) { a == b || ExpandHome(env, a) == ExpandHome(env, b) }

  /** A session with a command or without an agent is managed by no provider. */
  function ManagedProvider(env: Env, agent: Option<string>, command: Option<string>): Option<string> {
    if command.Some? || agent.None? || !env.managed(agent.value) then None else agent
  }

  function FindProject(ps: seq<Project>, id: string): (r: Option<nat>)
    ensures r.Some? ==> r.value < |ps| && ps[r.value].id == id
  {
    if ps == [] then None
    else if ps[0].id == id then Some(0)
    else var r := FindProject(ps[1..], id); if r.Some? then Some(r.value + 1) else None
  }

  function FindGroup(gs: seq<Group>, id: string): (r: Option<nat>)
    ensures r.Some? ==> r.value < |gs| && gs[r.value].id == id
  {
    if gs == [] then None
    else if gs[0].id == id then Some(0)
    else var r := FindGroup(gs[1..], id); if r.Some? then Some(r.value + 1) else None
  }

  function FindSession(ss: seq<Session>, test: Session -> bool): (r: Option<nat>)
    ensures r.Some? ==> r.value < |ss| && test(ss[r.value]) && forall i :: 0 <= i < r.value ==> !test(ss[i])
    ensures r.None? ==> forall s :: s in ss ==> !test(s)
  {
    if ss == [] then None
    else if test(ss[0]) then Some(0)
    else var r := FindSession(ss[1..], test); if r.Some? then Some(r.value + 1) else None
  }

  function Keep(ss: seq<Session>, test: Session -> bool): seq<Session> {
    if ss == [] then []
    else if test(ss[0]) then [ss[0]] + Keep(ss[1..], test)
    else Keep(ss[1..], test)
  }

  function GroupSessions(gs: seq<Group>): seq<Session> {
    if gs == [] then [] else gs[0].sessions + GroupSessions(gs[1..])
  }

  function ProjectSessions(ps: seq<Project>): seq<Session> {
    if ps == [] then [] else GroupSessions(ps[0].groups) + ProjectSessions(ps[1..])
  }

  /** The canonical traversal: root groups in order, then projects in order. */
  function CollectSessions(m: Manifest): seq<Session> {
    GroupSessions(m.groups) + ProjectSessions(m.projects)
  }

  function SessionIds(ss: seq<Session>): (r: seq<string>)
    ensures |r| == |ss|
  {
    seq(|ss|, i requires 0 <= i < |ss| => ss[i].sessionId)
  }

  /** The session identities a manifest file must have to be read at all. */
  ghost predicate Readable(m: Manifest) {
    && NoDup(SessionIds(CollectSessions(m)))
    && forall s :: s in CollectSessions(m) ==> IsValidSessionId(s.sessionId)
  }

  // ---- Groups and projects ----

  function AddGroup(m: Manifest, g: Group): Outcome {
    if FindGroup(m.groups, g.id).Some? then Err(GroupExists)
    else Ok(m.(groups := m.groups + [g.(sessions := [])]))
  }

  function AddProject(m: Manifest, p: Project): Outcome {
    if FindProject(m.projects, p.id).Some? then Err(ProjectExists)
    else Ok(m.(projects := m.projects + [p.(groups := [])]))
  }

  function AddGroupToProject(m: Manifest, projectId: string, g: Group): Outcome {
    var i := FindProject(m.projects, projectId);
    if i.None? then Err(NoSuchProject)
    else if FindGroup(m.projects[i.value].groups, g.id).Some? then Err(GroupExists)
    else Ok(WithGroups(m, i.value, m.projects[i.value].groups + [g.(sessions := [])]))
  }

  function WithGroups(m: Manifest, i: nat, groups: seq<Group>): Manifest
    requires i < |m.projects|
  {
    m.(projects := m.projects[i := m.projects[i].(groups := groups)])
  }

  /** Changes the group an operation names: in the project if there is one with that id, else among the root groups. */
  function UpdateTargetGroup(m: Manifest, projectId: string, groupId: string, update: Group -> Result<Group, ManifestError>): Outcome {
    var i := FindProject(m.projects, projectId);
    if i.Some? then
      var groups := m.projects[i.value].groups;
      var j := FindGroup(groups, groupId);
      if j.None? then Err(NoSuchGroup)
      else match update(groups[j.value])
        case Err(e) => Err(e)
        case Ok(g) => Ok(WithGroups(m, i.value, groups[j.value := g]))
    else
      var j := FindGroup(m.groups, groupId);
      if j.None? then Err(NoSuchGroup)
      else match update(m.groups[j.value])
        case Err(e) => Err(e)
        case Ok(g) => Ok(m.(groups := m.groups[j.value := g]))
  }

  function EditProject(env: Env, m: Manifest, projectId: string, title: Option<string>, cwd: string, currentCwd: Option<string>): Outcome {
    var i := FindProject(m.projects, projectId);
    if i.Some? then Ok(m.(projects := m.projects[i.value := m.projects[i.value].(title := title, cwd := cwd)]))
    else
      var current := if currentCwd.Some? then currentCwd.value else cwd;
      var here := (s: Session) => Truthy(s.cwd) && CwdMatches(env, s.cwd.value, current);
      if FindSession(GroupSessions(m.groups), here).None? then Err(NoSuchProject)
      else Ok(m.(groups := MoveDirectory(m.groups, here, cwd)))
  }

  function MoveDirectory(gs: seq<Group>, here: Session -> bool, cwd: string): (r: seq<Group>)
    ensures |r| == |gs|
  {
    seq(|gs|, i requires 0 <= i < |gs| => gs[i].(sessions := Redirected(gs[i].sessions, here, cwd)))
  }

  function Redirected(ss: seq<Session>, here: Session -> bool, cwd: string): (r: seq<Session>)
    ensures |r| == |ss|
  {
    seq(|ss|, i requires 0 <= i < |ss| => if here(ss[i]) then ss[i].(cwd := Some(cwd)) else ss[i])
  }

  function DeleteProject(env: Env, m: Manifest, projectId: string, cwd: Option<string>): Outcome {
    if FindProject(m.projects, projectId).Some? then Ok(m.(projects := OtherProjects(m.projects, projectId)))
    else if !Truthy(cwd) then Err(NoSuchProject)
    else
      var here := (s: Session) => Truthy(s.cwd) && CwdMatches(env, s.cwd.value, cwd.value);
      if FindSession(GroupSessions(m.groups), here).None? then Err(NoSuchProject)
      else Ok(m.(groups := DropSessions(m.groups, (g: Group) => true, (s: Session) => !here(s))))
  }

  function OtherProjects(ps: seq<Project>, id: string): seq<Project> {
    if ps == [] then []
    else if ps[0].id != id then [ps[0]] + OtherProjects(ps[1..], id)
    else OtherProjects(ps[1..], id)
  }

  /** Filters the sessions of the selected groups; a group goes only if this emptied it. */
  function DropSessions(gs: seq<Group>, selected: Group -> bool, test: Session -> bool): seq<Group> {
    if gs == [] then []
    else
      var g, kept, rest := gs[0], Keep(gs[0].sessions, test), DropSessions(gs[1..], selected, test);
      if !selected(g) then [g] + rest
      else if |kept| > 0 || |g.sessions| == 0 then [g.(sessions := kept)] + rest
      else rest
  }

  function OtherGroups(gs: seq<Group>, id: string): seq<Group> {
    if gs == [] then []
    else if gs[0].id != id then [gs[0]] + OtherGroups(gs[1..], id)
    else OtherGroups(gs[1..], id)
  }

  function EditGroup(m: Manifest, projectId: string, currentGroupId: string, groupId: string, title: Option<string>, layout: nat): Outcome {
    UpdateTargetGroup(m, projectId, currentGroupId, (g: Group) => Ok(g.(id := groupId, title := title, layout := layout)))
  }

  function SetGroupLayoutSizes(m: Manifest, projectId: string, groupId: string, layout: nat): Outcome {
    UpdateTargetGroup(m, projectId, groupId, (g: Group) => Ok(g.(layout := layout)))
  }

  function DeleteGroup(env: Env, m: Manifest, projectId: string, groupId: string, projectCwd: Option<string>): Outcome {
    var i := FindProject(m.projects, projectId);
    if i.Some? then Ok(WithGroups(m, i.value, OtherGroups(m.projects[i.value].groups, groupId)))
    else if !Truthy(projectCwd) then Ok(m.(groups := OtherGroups(m.groups, groupId)))
    else Ok(m.(groups := DropSessions(m.groups, (g: Group) => g.id == groupId,
      (s: Session) => !Truthy(s.cwd) || !CwdMatches(env, s.cwd.value, projectCwd.value))))
  }

  // ---- Sessions ----

  /** A new session with the id minted for it, unless its provider identity is refused. */
  function MaterializeAdded(env: Env, m: Manifest, d: Draft, minted: string): Result<Session, ManifestError> {
    var provider := ManagedProvider(env, d.agent, d.command);
    if d.resume.Some? && provider.None? then Err(UnmanagedResume)
    else if d.resume.Some? && !env.validId(provider.value, d.resume.value) then Err(InvalidResume)
    else if d.resume.Some? && FindSession(CollectSessions(m), (s: Session) => s.resume == d.resume).Some? then Err(ResumeTaken)
    else Ok(Saved(d, minted, d.resume))
  }

  function Pushed(g: Group, s: Session): Result<Group, ManifestError> {
    if FindSession(g.sessions, (t: Session) => t.name == s.name).Some? then Err(SessionExists)
    else Ok(g.(sessions := g.sessions + [s]))
  }

  function AddSession(env: Env, m: Manifest, groupId: string, title: Option<string>, d: Draft, minted: string): Outcome {
    var groups := if FindGroup(m.groups, groupId).Some? then m.groups else m.groups + [Group(groupId, title, 0, None, [])];
    var j := FindGroup(groups, groupId);
    FindAppended(m.groups, Group(groupId, title, 0, None, []));
    var g := groups[j.value];
    if FindSession(g.sessions, (t: Session) => t.name == d.name).Some? then Err(SessionExists)
    else match MaterializeAdded(env, m, d, minted)
      case Err(e) => Err(e)
      case Ok(s) => Ok(m.(groups := groups[j.value := g.(sessions := g.sessions + [s])]))
  }

  lemma {:induction false} FindAppended(gs: seq<Group>, g: Group)
    ensures FindGroup(gs, g.id).None? ==> FindGroup(gs + [g], g.id) == Some(|gs|)
  {
    if gs == [] {
      assert gs + [g] == [g];
    } else {
      assert (gs + [g])[0] == gs[0] && (gs + [g])[1..] == gs[1..] + [g];
      FindAppended(gs[1..], g);
    }
  }

  function AddSessionToProject(env: Env, m: Manifest, projectId: string, groupId: string, d: Draft, minted: string): Outcome {
    var i := FindProject(m.projects, projectId);
    if i.None? then Err(NoSuchProject)
    else
      var groups := m.projects[i.value].groups;
      var j := FindGroup(groups, groupId);
      if j.None? then Err(NoSuchGroup)
      else
        var g := groups[j.value];
        if FindSession(g.sessions, (t: Session) => t.name == d.name).Some? then Err(SessionExists)
        else match MaterializeAdded(env, m, d, minted)
          case Err(e) => Err(e)
          case Ok(s) => Ok(WithGroups(m, i.value, groups[j.value := g.(sessions := g.sessions + [s])]))
  }

  /** An edited session keeps its session id and its provider identity. */
  function Edited(env: Env, s: Session, d: Draft): Result<Session, ManifestError> {
    if d.resume.Some? && d.resume != s.resume then Err(IdentityImmutable)
    else if s.resume.Some? && ManagedProvider(env, s.agent, s.command) != ManagedProvider(env, d.agent, d.command) then Err(OwnerImmutable)
    else Ok(Saved(d, s.sessionId, if d.resume.None? && s.resume.Some? then s.resume else d.resume))
  }

  function EditAll(env: Env, ss: seq<Session>, selected: Session -> bool, d: Draft): Result<seq<Session>, ManifestError> {
    if ss == [] then Ok([])
    else match if selected(ss[0]) then Edited(env, ss[0], d) else Ok(ss[0])
      case Err(e) => Err(e)
      case Ok(s) =>
        match EditAll(env, ss[1..], selected, d)
        case Err(e) => Err(e)
        case Ok(more) => Ok([s] + more)
  }

  function ReplaceSession(env: Env, g: Group, name: string, d: Draft, cwd: Option<string>): Result<Group, ManifestError> {
    var selected := (s: Session) => s.name == name && !(Truthy(cwd) && Truthy(s.cwd) && !CwdMatches(env, s.cwd.value, cwd.value));
    match EditAll(env, g.sessions, selected, d)
    case Err(e) => Err(e)
    case Ok(next) => if FindSession(g.sessions, selected).None? then Err(NoSuchSession) else Ok(g.(sessions := next))
  }

  function EditSession(env: Env, m: Manifest, projectId: string, groupId: string, name: string, d: Draft,
                       projectCwd: Option<string>): Outcome
  {
    var cwd := if FindProject(m.projects, projectId).Some? then None else projectCwd;
    UpdateTargetGroup(m, projectId, groupId, (g: Group) => ReplaceSession(env, g, name, d, cwd))
  }

  function DeleteSession(env: Env, m: Manifest, projectId: string, groupId: string, name: string, projectCwd: Option<string>): Outcome {
    var inProject := FindProject(m.projects, projectId).Some?;
    UpdateTargetGroup(m, projectId, groupId, (g: Group) => Ok(g.(sessions := Keep(g.sessions, (s: Session) =>
      s.name != name || (!inProject && Truthy(projectCwd) && Truthy(s.cwd) && !CwdMatches(env, s.cwd.value, projectCwd.value))))))
  }

  // ---- Moving ----

  datatype MoveOptions = MoveOptions(
    sourceProjectId: string, sourceGroupId: string, sourceSessionName: string, sourceProjectCwd: Option<string>,
    targetProjectId: string, targetGroupId: string)

  /** The session taken out, and the manifest clone without it. */
  function RemoveSession(env: Env, m: Manifest, o: MoveOptions): Result<(Session, Manifest), ManifestError> {
    var i := FindProject(m.projects, o.sourceProjectId);
    var groups := if i.Some? then m.projects[i.value].groups else m.groups;
    var j := FindGroup(groups, o.sourceGroupId);
    if j.None? then Err(NoSuchGroup)
    else
      var g := groups[j.value];
      var k := FindSession(g.sessions, (s: Session) =>
        s.name == o.sourceSessionName
        && (i.Some? || !Truthy(o.sourceProjectCwd) || !Truthy(s.cwd) || CwdMatches(env, s.cwd.value, o.sourceProjectCwd.value)));
      if k.None? then Err(NoSuchSession)
      else
        var left := groups[j.value := g.(sessions := g.sessions[..k.value] + g.sessions[k.value + 1..])];
        Ok((g.sessions[k.value], if i.Some? then WithGroups(m, i.value, left) else m.(groups := left)))
  }

  /** How a launch specification spells a directory: the home directory itself is expanded too. */
  function LaunchPath(env: Env, path: string): string { if path == "~" then env.home else ExpandHome(env, path) }

  function RootLaunchCwd(env: Env, gs: seq<Group>, o: MoveOptions): Option<string> {
    if gs == [] then None
    else
      var dir := (s: Session) => LaunchPath(env, if s.cwd.Some? then s.cwd.value else env.home);
      var k := FindSession(gs[0].sessions, (s: Session) =>
        && s.name == o.sourceSessionName && Truthy(o.sourceProjectCwd)
        && CwdMatches(env, dir(s), ExpandHome(env, o.sourceProjectCwd.value)));
      if gs[0].id == o.sourceGroupId && k.Some? then Some(dir(gs[0].sessions[k.value])) else RootLaunchCwd(env, gs[1..], o)
  }

  function GroupLaunchCwd(env: Env, p: Project, gs: seq<Group>, o: MoveOptions): Option<string> {
    if gs == [] then None
    else
      var k := FindSession(gs[0].sessions, (s: Session) => s.name == o.sourceSessionName);
      if gs[0].id == o.sourceGroupId && k.Some? then
        var s := gs[0].sessions[k.value];
        Some(LaunchPath(env, if s.cwd.Some? then s.cwd.value else p.cwd))
      else GroupLaunchCwd(env, p, gs[1..], o)
  }

  function ProjectLaunchCwd(env: Env, ps: seq<Project>, o: MoveOptions): Option<string> {
    if ps == [] then None
    else
      var cwd := if ps[0].id == o.sourceProjectId then GroupLaunchCwd(env, ps[0], ps[0].groups, o) else None;
      if cwd.Some? then cwd else ProjectLaunchCwd(env, ps[1..], o)
  }

  /** The directory of the first launch specification that fits the source of a move. */
  function LaunchCwd(env: Env, m: Manifest, o: MoveOptions): Option<string> {
    var root := RootLaunchCwd(env, m.groups, o);
    if root.Some? then root else ProjectLaunchCwd(env, m.projects, o)
  }

  function MoveSession(env: Env, m: Manifest, o: MoveOptions): Outcome {
    match RemoveSession(env, m, o)
    case Err(e) => Err(e)
    case Ok((taken, n)) =>
      var s := taken.(cwd := if taken.cwd.Some? then taken.cwd else LaunchCwd(env, m, o));
      var i := FindProject(n.projects, o.targetProjectId);
      if i.Some? then
        var groups := n.projects[i.value].groups;
        var j := FindGroup(groups, o.targetGroupId);
        if j.None? then Err(NoSuchGroup)
        else match Pushed(groups[j.value], s)
          case Err(e) => Err(e)
          case Ok(g) => Ok(WithGroups(n, i.value, groups[j.value := g]))
      else
        var j := FindGroup(n.groups, o.targetGroupId);
        if j.None? then Err(NoSuchGroup)
        else match Pushed(n.groups[j.value], s)
          case Err(e) => Err(e)
          // The projects written back are those of the manifest, not of the clone the session was taken from.
          case Ok(g) => Ok(n.(groups := n.groups[j.value := g], projects := m.projects))
  }

  /** The move whose source is a project and whose target is a root group. */
  predicate ProjectToLegacy(m: Manifest, o: MoveOptions) {
    FindProject(m.projects, o.sourceProjectId).Some? && FindProject(m.projects, o.targetProjectId).None?
  }

  // ---- Reordering ----

  const SESSION_LENS: Lens<Session> := Lens((s: Session) => s.name, (s: Session) => s.order, (s: Session, k: int) => s.(order := Some(k)))
  const GROUP_LENS: Lens<Group> := Lens((g: Group) => g.id, (g: Group) => g.order, (g: Group, k: int) => g.(order := Some(k)))
  const PROJECT_LENS: Lens<Project> := Lens((p: Project) => p.id, (p: Project) => p.order, (p: Project, k: int) => p.(order := Some(k)))

  function ReorderProjects(m: Manifest, ids: seq<string>): Outcome {
    Ok(m.(projects := ApplyOrder(PROJECT_LENS, ids, m.projects)))
  }

  function ReorderGroups(m: Manifest, projectId: string, ids: seq<string>): Outcome {
    var i := FindProject(m.projects, projectId);
    if i.Some? then Ok(WithGroups(m, i.value, ApplyOrder(GROUP_LENS, ids, m.projects[i.value].groups)))
    else Ok(m.(groups := ApplyOrder(GROUP_LENS, ids, m.groups)))
  }

  function ReorderSessions(m: Manifest, projectId: string, groupId: string, names: seq<string>): Outcome {
    UpdateTargetGroup(m, projectId, groupId, (g: Group) => Ok(g.(sessions := ApplyOrder(SESSION_LENS, names, g.sessions))))
  }

  // ---- Provider identities ----

  /** Gives the first session with this id, in the canonical traversal, another provider identity. */
  function SetResume(m: Manifest, id: string, resume: Option<string>): Manifest {
    if id in SessionIds(GroupSessions(m.groups)) then m.(groups := SetInGroups(m.groups, id, resume))
    else m.(projects := SetInProjects(m.projects, id, resume))
  }

  function SetInSessions(ss: seq<Session>, id: string, resume: Option<string>): seq<Session> {
    if ss == [] then []
    else if ss[0].sessionId == id then [ss[0].(resume := resume)] + ss[1..]
    else [ss[0]] + SetInSessions(ss[1..], id, resume)
  }

  function SetInGroups(gs: seq<Group>, id: string, resume: Option<string>): seq<Group> {
    if gs == [] then []
    else if id in SessionIds(gs[0].sessions) then [gs[0].(sessions := SetInSessions(gs[0].sessions, id, resume))] + gs[1..]
    else [gs[0]] + SetInGroups(gs[1..], id, resume)
  }

  function SetInProjects(ps: seq<Project>, id: string, resume: Option<string>): seq<Project> {
    if ps == [] then []
    else if id in SessionIds(GroupSessions(ps[0].groups)) then [ps[0].(groups := SetInGroups(ps[0].groups, id, resume))] + ps[1..]
    else [ps[0]] + SetInProjects(ps[1..], id, resume)
  }

  datatype Binding =
    | Persisted | AlreadyBound | Cleared | AlreadyCleared | Replaced | AlreadyReplaced
    | NotFound | AgentMismatch | InvalidId | Conflict | Mismatch

  function Target(m: Manifest, id: string): (r: Option<Session>)
    ensures r.Some? ==> r.value in CollectSessions(m) && r.value.sessionId == id
    ensures r.None? ==> forall s :: s in CollectSessions(m) ==> s.sessionId != id
  {
    var k := FindSession(CollectSessions(m), (s: Session) => s.sessionId == id);
    if k.Some? then Some(CollectSessions(m)[k.value]) else None
  }

  /** Another session already holds this provider identity. */
  predicate Conflicts(m: Manifest, id: string, resume: string) {
    exists s :: s in CollectSessions(m) && s.sessionId != id && s.resume == Some(resume)
  }

  function Bind(env: Env, m: Manifest, id: string, provider: string, resume: string): (Binding, Manifest) {
    var target := Target(m, id);
    if target.None? then (NotFound, m)
    else if target.value.agent != Some(provider) then (AgentMismatch, m)
    else if !env.validId(provider, resume) then (InvalidId, m)
    else if Conflicts(m, id, resume) then (Conflict, m)
    else if target.value.resume == Some(resume) then (AlreadyBound, m)
    else if Truthy(target.value.resume) then (Mismatch, m)
    else (Persisted, SetResume(m, id, Some(resume)))
  }

  function Clear(env: Env, m: Manifest, id: string, provider: string, expected: Option<string>): (Binding, Manifest) {
    var target := Target(m, id);
    if expected.Some? && !env.validId(provider, expected.value) then (InvalidId, m)
    else if target.None? then (NotFound, m)
    else if target.value.agent != Some(provider) then (AgentMismatch, m)
    else if target.value.resume.None? then (AlreadyCleared, m)
    else if target.value.resume != expected then (Mismatch, m)
    else (Cleared, SetResume(m, id, None))
  }

  function Replace(env: Env, m: Manifest, id: string, provider: string, expected: string, resume: string): (Binding, Manifest) {
    var target := Target(m, id);
    if !env.validId(provider, expected) || !env.validId(provider, resume) then (InvalidId, m)
    else if target.None? then (NotFound, m)
    else if target.value.agent != Some(provider) then (AgentMismatch, m)
    else if Conflicts(m, id, resume) then (Conflict, m)
    else if target.value.resume == Some(resume) then (AlreadyReplaced, m)
    else if target.value.resume != Some(expected) then (Mismatch, m)
    else (Replaced, SetResume(m, id, Some(resume)))
  }

  /** What reading a binding reports: the provider with its identity, or a failure. */
  function ReadBinding(env: Env, m: Manifest, id: string): Result<(string, Option<string>), Binding> {
    var target := Target(m, id);
    if target.None? then Err(NotFound)
    else if target.value.agent.None? || !env.managed(target.value.agent.value) then Err(AgentMismatch)
    else if target.value.resume.Some? && !env.validId(target.value.agent.value, target.value.resume.value) then Err(InvalidId)
    else if target.value.resume.Some? && Conflicts(m, id, target.value.resume.value) then Err(Conflict)
    else Ok((target.value.agent.value, target.value.resume))
  }

  // ---- One step ----

  datatype Op =
    | OpAddSession(groupId: string, title: Option<string>, draft: Draft, minted: string)
    | OpAddGroup(group: Group)
    | OpAddProject(project: Project)
    | OpAddGroupToProject(projectId: string, group: Group)
    | OpAddSessionToProject(projectId: string, groupId: string, draft: Draft, minted: string)
    | OpEditProject(projectId: string, title: Option<string>, cwd: string, currentCwd: Option<string>)
    | OpDeleteProject(projectId: string, oldCwd: Option<string>)
    | OpEditGroup(projectId: string, currentGroupId: string, groupId: string, title: Option<string>, layout: nat)
    | OpDeleteGroup(projectId: string, groupId: string, projectCwd: Option<string>)
    | OpEditSession(projectId: string, groupId: string, name: string, draft: Draft, projectCwd: Option<string>)
    | OpDeleteSession(projectId: string, groupId: string, name: string, projectCwd: Option<string>)
    | OpMoveSession(options: MoveOptions)
    | OpSetSizes(projectId: string, groupId: string, layout: nat)
    | OpReorderProjects(ids: seq<string>)
    | OpReorderGroups(projectId: string, ids: seq<string>)
    | OpReorderSessions(projectId: string, groupId: string, ids: seq<string>)
    | OpBind(id: string, provider: string, resume: string)
    | OpClear(id: string, provider: string, expected: Option<string>)
    | OpReplace(id: string, provider: string, current: string, resume: string)

  function Apply(env: Env, m: Manifest, op: Op): Outcome {
    match op
    case OpAddSession(groupId, title, d, minted) => AddSession(env, m, groupId, title, d, minted)
    case OpAddGroup(g) => AddGroup(m, g)
    case OpAddProject(p) => AddProject(m, p)
    case OpAddGroupToProject(projectId, g) => AddGroupToProject(m, projectId, g)
    case OpAddSessionToProject(projectId, groupId, d, minted) => AddSessionToProject(env, m, projectId, groupId, d, minted)
    case OpEditProject(projectId, title, cwd, currentCwd) => EditProject(env, m, projectId, title, cwd, currentCwd)
    case OpDeleteProject(projectId, cwd) => DeleteProject(env, m, projectId, cwd)
    case OpEditGroup(projectId, current, groupId, title, layout) => EditGroup(m, projectId, current, groupId, title, layout)
    case OpDeleteGroup(projectId, groupId, cwd) => DeleteGroup(env, m, projectId, groupId, cwd)
    case OpEditSession(projectId, groupId, name, d, cwd) => EditSession(env, m, projectId, groupId, name, d, cwd)
    case OpDeleteSession(projectId, groupId, name, cwd) => DeleteSession(env, m, projectId, groupId, name, cwd)
    case OpMoveSession(o) => MoveSession(env, m, o)
    case OpSetSizes(projectId, groupId, layout) => SetGroupLayoutSizes(m, projectId, groupId, layout)
    case OpReorderProjects(ids) => ReorderProjects(m, ids)
    case OpReorderGroups(projectId, ids) => ReorderGroups(m, projectId, ids)
    case OpReorderSessions(projectId, groupId, ids) => ReorderSessions(m, projectId, groupId, ids)
    case OpBind(id, provider, resume) => Ok(Bind(env, m, id, provider, resume).1)
    case OpClear(id, provider, expected) => Ok(Clear(env, m, id, provider, expected).1)
    case OpReplace(id, provider, current, resume) => Ok(Replace(env, m, id, provider, current, resume).1)
  }

  /** The draft of an operation that mints an id, with that id. */
  function MintedBy(op: Op): Option<(Draft, string)> {
    match op
    case OpAddSession(_, _, d, minted) => Some((d, minted))
    case OpAddSessionToProject(_, _, d, minted) => Some((d, minted))
    case _ => None
  }

  function TakenIds(m: Manifest): set<string> {
    set id | id in SessionIds(CollectSessions(m))
  }

  /** The ids an operation mints are those `mintSessionId` returns. */
  ghost predicate MintsHonestly(env: Env, m: Manifest, op: Op) {
    var minted := MintedBy(op);
    minted.Some? ==> Mints(env.lower(minted.value.0.name), TakenIds(m), minted.value.1)
  }

  /** The file update: a manifest that cannot be read, or an operation that fails, leaves the file alone. */
  ghost function Update(env: Env, m: Manifest, op: Op): Manifest {
    if !Readable(m) then m
    else match Apply(env, m, op)
      case Ok(n) => n
      case Err(_) => m
  }
}
