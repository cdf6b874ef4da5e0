/**
 * The identity algebra of the manifest: session ids stay unique and provider
 * identities stay injective under every operation except one, which provably
 * duplicates a session; and a provider identity changes only by a bind, clear
 * or replace that found the value it expected.
 */
module ManifestTheorems {
  import opened Common
  import opened Ordering
  import opened SessionId
  import opened DeskManifest
  import opened ManifestEffects
  import opened ManifestPlaces

  // ---- Counting ----

  function CountId(id: string): Session -> nat { (s: Session) => if s.sessionId == id then 1 else 0 }

  function CountResume(resume: string): Session -> nat { (s: Session) => if s.resume == Some(resume) then 1 else 0 }

  function CountOwner(o: Owner): Session -> nat { (s: Session) => if OwnerOf(s) == o then 1 else 0 }

  function CountBare(b: Session): Session -> nat { (s: Session) => if Bare(s) == b then 1 else 0 }

  /** The sessions of a manifest as a multiset, up to what moving and reordering rewrite. */
  function BareSessions(m: Manifest): multiset<Session> {
    multiset(Bares(CollectSessions(m)))
  }

  function Bares(ss: seq<Session>): (r: seq<Session>)
    ensures |r| == |ss|
  {
    seq(|ss|, i requires 0 <= i < |ss| => Bare(ss[i]))
  }

  lemma {:induction false} BareCount(ss: seq<Session>, b: Session)
    ensures Total(CountBare(b), ss) == multiset(Bares(ss))[b]
  {
    if ss != [] {
      BareCount(ss[1..], b);
      assert Bares(ss) == [Bare(ss[0])] + Bares(ss[1..]);
    }
  }

  lemma {:induction false} CountZero(f: Session -> nat, ss: seq<Session>)
    ensures Total(f, ss) == 0 <==> forall i :: 0 <= i < |ss| ==> f(ss[i]) == 0
  {
    if ss != [] {
      CountZero(f, ss[1..]);
      assert forall i :: 0 < i < |ss| ==> ss[i] == ss[1..][i - 1];
      assert forall i :: 0 <= i < |ss[1..]| ==> ss[1..][i] == ss[i + 1];
    }
  }

  /** Two elements that count make the sum at least two, and a sum of two has two such elements. */
  lemma {:induction false} CountTwo(f: Session -> nat, ss: seq<Session>)
    requires forall s :: f(s) <= 1
    ensures Total(f, ss) <= 1 <==> forall i, j :: 0 <= i < j < |ss| ==> f(ss[i]) == 0 || f(ss[j]) == 0
  {
    if ss != [] {
      var rest := ss[1..];
      CountTwo(f, rest);
      CountZero(f, rest);
      assert forall i :: 0 <= i < |rest| ==> rest[i] == ss[i + 1];
      if forall i, j :: 0 <= i < j < |ss| ==> f(ss[i]) == 0 || f(ss[j]) == 0 {
        assert forall i, j :: 0 <= i < j < |rest| ==> f(rest[i]) == 0 || f(rest[j]) == 0;
        if f(ss[0]) == 1 {
          forall i | 0 <= i < |rest| ensures f(rest[i]) == 0 {
            assert rest[i] == ss[i + 1];
          }
        }
      } else {
        var i, j :| 0 <= i < j < |ss| && f(ss[i]) == 1 && f(ss[j]) == 1;
        assert rest[j - 1] == ss[j];
        if i > 0 { assert rest[i - 1] == ss[i]; }
      }
    }
  }

  // ---- Soundness ----

  /** No provider identity is held by two sessions. */
  ghost predicate Injective(m: Manifest) {
    var ss := CollectSessions(m);
    forall i, j :: 0 <= i < j < |ss| && ss[i].resume.Some? ==> ss[i].resume != ss[j].resume
  }

  ghost predicate Sound(m: Manifest) { Readable(m) && Injective(m) }

  ghost predicate ValidIds(m: Manifest) {
    forall s :: s in CollectSessions(m) ==> IsValidSessionId(s.sessionId)
  }

  lemma UniqueIff(m: Manifest)
    ensures NoDup(SessionIds(CollectSessions(m))) <==> forall id :: All(CountId(id), m) <= 1
  {
    var ss := CollectSessions(m);
    forall id ensures All(CountId(id), m) <= 1 <==> forall i, j :: 0 <= i < j < |ss| ==> ss[i].sessionId != id || ss[j].sessionId != id {
      AllIsCollected(CountId(id), m);
      CountTwo(CountId(id), ss);
    }
    hide CollectSessions, All, CountId;
    if forall id :: All(CountId(id), m) <= 1 {
      forall i, j | 0 <= i < j < |ss| ensures SessionIds(ss)[i] != SessionIds(ss)[j] {
        assert All(CountId(ss[i].sessionId), m) <= 1;
      }
    }
    if NoDup(SessionIds(ss)) {
      forall i, j | 0 <= i < j < |ss| ensures ss[i].sessionId != ss[j].sessionId {
        assert SessionIds(ss)[i] != SessionIds(ss)[j];
      }
    }
  }

  lemma InjectiveIff(m: Manifest)
    ensures Injective(m) <==> forall r :: All(CountResume(r), m) <= 1
  {
    var ss := CollectSessions(m);
    forall r
      ensures All(CountResume(r), m) <= 1 <==> (forall i, j :: 0 <= i < j < |ss| ==> ss[i].resume != Some(r) || ss[j].resume != Some(r))
    {
      AllIsCollected(CountResume(r), m);
      CountTwo(CountResume(r), ss);
    }
    hide CollectSessions, All, CountResume;
    if forall r :: All(CountResume(r), m) <= 1 {
      forall i, j | 0 <= i < j < |ss| && ss[i].resume.Some? ensures ss[i].resume != ss[j].resume {
        assert All(CountResume(ss[i].resume.value), m) <= 1;
      }
    }
  }

  lemma ValidIff(m: Manifest)
    ensures ValidIds(m) <==> forall id :: All(CountId(id), m) > 0 ==> IsValidSessionId(id)
  {
    var ss := CollectSessions(m);
    forall id ensures All(CountId(id), m) > 0 <==> exists i :: 0 <= i < |ss| && ss[i].sessionId == id {
      AllIsCollected(CountId(id), m);
      CountZero(CountId(id), ss);
    }
    hide CollectSessions, All, CountId, IsValidSessionId;
    if forall id :: All(CountId(id), m) > 0 ==> IsValidSessionId(id) {
      forall s | s in ss ensures IsValidSessionId(s.sessionId) {
        var i :| 0 <= i < |ss| && ss[i] == s;
        assert All(CountId(s.sessionId), m) > 0;
      }
    }
  }

  lemma OwnerPresent(m: Manifest, o: Owner)
    ensures All(CountOwner(o), m) > 0 <==> exists s :: s in CollectSessions(m) && OwnerOf(s) == o
  {
    var ss := CollectSessions(m);
    AllIsCollected(CountOwner(o), m);
    CountZero(CountOwner(o), ss);
    hide CollectSessions, All;
    if exists i :: 0 <= i < |ss| && OwnerOf(ss[i]) == o {
      var i :| 0 <= i < |ss| && OwnerOf(ss[i]) == o;
      assert ss[i] in ss;
    }
    if s :| s in ss && OwnerOf(s) == o {
      var i :| 0 <= i < |ss| && ss[i] == s;
    }
  }

  // ---- Moving ----

  lemma RemoveTotal(f: Session -> nat, env: Env, m: Manifest, o: MoveOptions)
    requires RemoveSession(env, m, o).Ok?
    ensures var (taken, n) := RemoveSession(env, m, o).value;
      && All(f, n) + f(taken) == All(f, m)
      && (if FindProject(m.projects, o.sourceProjectId).Some? then n.groups == m.groups else n.projects == m.projects)
  {
    var i := FindProject(m.projects, o.sourceProjectId);
    var groups := if i.Some? then m.projects[i.value].groups else m.groups;
    var j := FindGroup(groups, o.sourceGroupId).value;
    var test := (s: Session) =>
        s.name == o.sourceSessionName
        && (i.Some? || !Truthy(o.sourceProjectCwd) || !Truthy(s.cwd) || CwdMatches(env, s.cwd.value, o.sourceProjectCwd.value));
    var g := groups[j];
    var k := FindSession(g.sessions, test).value;
    TotalAt(f, g.sessions, k);
    var h := g.(sessions := g.sessions[..k] + g.sessions[k + 1..]);
    if i.Some? { ProjectGroupTotal(f, m, i.value, j, h); } else { RootGroupTotal(f, m, j, h); }
  }

  /** A move keeps every session once, or, from a project to a root group, the moved one twice. */
  lemma MoveTotal(f: Session -> nat, env: Env, m: Manifest, o: MoveOptions)
    requires BareOnly(f) && MoveSession(env, m, o).Ok?
    ensures RemoveSession(env, m, o).Ok?
    ensures All(f, MoveSession(env, m, o).value)
         == All(f, m) + (if ProjectToLegacy(m, o) then f(RemoveSession(env, m, o).value.0) else 0)
  {
    var (taken, n) := RemoveSession(env, m, o).value;
    RemoveTotal(f, env, m, o);
    var s := taken.(cwd := if taken.cwd.Some? then taken.cwd else LaunchCwd(env, m, o));
    assert f(s) == f(taken) by { assert Bare(s) == Bare(taken); }
    RemoveKeepsIds(env, m, o);
    FindProjectById(n.projects, m.projects, o.targetProjectId);
    hide CwdMatches, LaunchCwd, RemoveSession, FindProject, FindGroup;
    var i := FindProject(n.projects, o.targetProjectId);
    if i.Some? {
      var j := FindGroup(n.projects[i.value].groups, o.targetGroupId).value;
      var g := n.projects[i.value].groups[j];
      PushTotal(f, g.sessions, s);
      ProjectGroupTotal(f, n, i.value, j, g.(sessions := g.sessions + [s]));
    } else {
      var j := FindGroup(n.groups, o.targetGroupId).value;
      var g := n.groups[j];
      PushTotal(f, g.sessions, s);
      RootGroupTotal(f, n, j, g.(sessions := g.sessions + [s]));
      WrittenBackTotal(f, n, m, n.groups[j := g.(sessions := g.sessions + [s])]);
    }
  }

  /** Writing back the projects of the manifest instead of those of the clone. */
  lemma WrittenBackTotal(f: Session -> nat, n: Manifest, m: Manifest, groups: seq<Group>)
    ensures All(f, n.(groups := groups, projects := m.projects)) + Total(OfProject(f), n.projects)
         == All(f, n.(groups := groups)) + Total(OfProject(f), m.projects)
    ensures All(f, m) - Total(OfProject(f), m.projects) == Total(OfGroup(f), m.groups)
    ensures All(f, n) - Total(OfProject(f), n.projects) == Total(OfGroup(f), n.groups)
  {
  }

  // ---- The effect of one operation ----

  predicate Duplicates(m: Manifest, op: Op) { op.OpMoveSession? && ProjectToLegacy(m, op.options) }

  predicate Rebinds(op: Op) { op.OpBind? || op.OpClear? || op.OpReplace? }

  /** What an operation without duplication or rebinding does to any measure of the owners. */
  lemma Effect(f: Session -> nat, env: Env, m: Manifest, op: Op)
    requires OwnerOnly(f) && Apply(env, m, op).Ok? && !Duplicates(m, op) && !Rebinds(op)
    ensures var n := Apply(env, m, op).value;
      match MintedBy(op)
      case Some((d, minted)) =>
        && MaterializeAdded(env, m, d, minted).Ok?
        && All(f, n) == All(f, m) + f(Saved(d, minted, d.resume))
      case None => All(f, n) <= All(f, m)
  {
    OwnerIsBare(f);
    hide OwnerOnly, BareOnly, All, MaterializeAdded;
    match op
    case OpAddSession(_, _, _, _) => AddSessionGains(f, env, m, op);
    case OpAddSessionToProject(_, _, _, _) => AddSessionGains(f, env, m, op);
    case OpAddGroup(_) => AddContainersKeep(f, env, m, op);
    case OpAddProject(_) => AddContainersKeep(f, env, m, op);
    case OpAddGroupToProject(_, _) => AddContainersKeep(f, env, m, op);
    case OpEditProject(_, _, _, _) => EditProjectKeeps(f, env, m, op);
    case OpDeleteProject(_, _) => DeleteShrinks(f, env, m, op);
    case OpEditGroup(_, _, _, _, _) => EditGroupKeeps(f, env, m, op);
    case OpSetSizes(_, _, _) => EditGroupKeeps(f, env, m, op);
    case OpDeleteGroup(_, _, _) => DeleteShrinks(f, env, m, op);
    case OpEditSession(_, _, _, _, _) => EditSessionKeeps(f, env, m, op);
    case OpDeleteSession(_, _, _, _) => DeleteSessionShrinks(f, env, m, op);
    case OpMoveSession(o) => MoveTotal(f, env, m, o);
    case OpReorderProjects(_) => ReorderKeeps(f, env, m, op);
    case OpReorderGroups(_, _) => ReorderKeeps(f, env, m, op);
    case OpReorderSessions(_, _, _) => ReorderKeeps(f, env, m, op);
  }

  // ---- Rebinding ----

  predicate HasId(ss: seq<Session>, id: string) { exists i :: 0 <= i < |ss| && ss[i].sessionId == id }

  lemma HasIdCons(ss: seq<Session>, id: string)
    requires ss != []
    ensures HasId(ss, id) <==> ss[0].sessionId == id || HasId(ss[1..], id)
  {
    if HasId(ss, id) && ss[0].sessionId != id {
      var i :| 0 <= i < |ss| && ss[i].sessionId == id;
      assert ss[1..][i - 1].sessionId == id;
    }
    if HasId(ss[1..], id) {
      var i :| 0 <= i < |ss[1..]| && ss[1..][i].sessionId == id;
      assert ss[i + 1].sessionId == id;
    }
  }

  lemma HasIdIff(ss: seq<Session>, id: string)
    ensures HasId(ss, id) <==> id in SessionIds(ss)
  {
    if HasId(ss, id) {
      var i :| 0 <= i < |ss| && ss[i].sessionId == id;
      assert SessionIds(ss)[i] == id;
    }
    if id in SessionIds(ss) {
      var i :| 0 <= i < |ss| && SessionIds(ss)[i] == id;
      assert ss[i].sessionId == id;
    }
  }

  lemma HasIdAppend(a: seq<Session>, b: seq<Session>, id: string)
    ensures HasId(a + b, id) <==> HasId(a, id) || HasId(b, id)
  {
    HasIdIff(a, id);
    HasIdIff(b, id);
    HasIdIff(a + b, id);
    assert SessionIds(a + b) == SessionIds(a) + SessionIds(b);
  }

  lemma {:induction false} SetBehind(a: seq<Session>, b: seq<Session>, id: string, resume: Option<string>)
    requires !HasId(a, id)
    ensures SetInSessions(a + b, id, resume) == a + SetInSessions(b, id, resume)
  {
    if a == [] {
      assert a + b == b;
    } else {
      HasIdCons(a, id);
      hide HasId;
      assert (a + b)[0] == a[0] && (a + b)[1..] == a[1..] + b;
      SetBehind(a[1..], b, id, resume);
    }
  }

  lemma {:induction false} SetBefore(a: seq<Session>, b: seq<Session>, id: string, resume: Option<string>)
    requires HasId(a, id)
    ensures SetInSessions(a + b, id, resume) == SetInSessions(a, id, resume) + b
  {
    HasIdCons(a, id);
    hide HasId;
    assert (a + b)[0] == a[0] && (a + b)[1..] == a[1..] + b;
    if a[0].sessionId != id { SetBefore(a[1..], b, id, resume); }
  }

  lemma SetAppend(a: seq<Session>, b: seq<Session>, id: string, resume: Option<string>)
    ensures SetInSessions(a + b, id, resume)
         == if HasId(a, id) then SetInSessions(a, id, resume) + b else a + SetInSessions(b, id, resume)
  {
    if HasId(a, id) { SetBefore(a, b, id, resume); } else { SetBehind(a, b, id, resume); }
  }

  lemma {:induction false} SetGroups(gs: seq<Group>, id: string, resume: Option<string>)
    requires HasId(GroupSessions(gs), id)
    ensures GroupSessions(SetInGroups(gs, id, resume)) == SetInSessions(GroupSessions(gs), id, resume)
  {
    var a, b := gs[0].sessions, GroupSessions(gs[1..]);
    HasIdIff(a, id);
    HasIdAppend(a, b, id);
    SetAppend(a, b, id, resume);
    hide HasId;
    if HasId(a, id) {
      assert SetInGroups(gs, id, resume)[1..] == gs[1..];
    } else {
      SetGroups(gs[1..], id, resume);
      assert SetInGroups(gs, id, resume)[1..] == SetInGroups(gs[1..], id, resume);
    }
  }

  lemma {:induction false} SetProjects(ps: seq<Project>, id: string, resume: Option<string>)
    requires HasId(ProjectSessions(ps), id)
    ensures ProjectSessions(SetInProjects(ps, id, resume)) == SetInSessions(ProjectSessions(ps), id, resume)
  {
    var a, b := GroupSessions(ps[0].groups), ProjectSessions(ps[1..]);
    HasIdIff(a, id);
    HasIdAppend(a, b, id);
    SetAppend(a, b, id, resume);
    hide HasId;
    if HasId(a, id) {
      SetGroups(ps[0].groups, id, resume);
      assert SetInProjects(ps, id, resume)[1..] == ps[1..];
    } else {
      SetProjects(ps[1..], id, resume);
      assert SetInProjects(ps, id, resume)[1..] == SetInProjects(ps[1..], id, resume);
    }
  }

  /** The change lands on the first session with that id in the canonical traversal, and on nothing else. */
  lemma SetCollected(m: Manifest, id: string, resume: Option<string>)
    requires HasId(CollectSessions(m), id)
    ensures CollectSessions(SetResume(m, id, resume)) == SetInSessions(CollectSessions(m), id, resume)
  {
    var a, b := GroupSessions(m.groups), ProjectSessions(m.projects);
    HasIdIff(a, id);
    HasIdAppend(a, b, id);
    SetAppend(a, b, id, resume);
    hide HasId;
    if HasId(a, id) { SetGroups(m.groups, id, resume); } else { SetProjects(m.projects, id, resume); }
  }

  ghost predicate FirstWithId(ss: seq<Session>, id: string, k: nat) {
    k < |ss| && ss[k].sessionId == id && forall i :: 0 <= i < k ==> ss[i].sessionId != id
  }

  lemma {:induction false} SetAt(ss: seq<Session>, id: string, resume: Option<string>, k: nat)
    requires FirstWithId(ss, id, k)
    ensures SetInSessions(ss, id, resume) == ss[k := ss[k].(resume := resume)]
  {
    if k > 0 {
      assert ss[0].sessionId != id;
      SetAt(ss[1..], id, resume, k - 1);
      assert ss == [ss[0]] + ss[1..];
    }
  }

  lemma TargetFirst(m: Manifest, id: string) returns (k: nat)
    requires Target(m, id).Some?
    ensures FirstWithId(CollectSessions(m), id, k) && Target(m, id) == Some(CollectSessions(m)[k])
  {
    k := FindSession(CollectSessions(m), (s: Session) => s.sessionId == id).value;
  }

  lemma FirstIsTarget(m: Manifest, id: string, k: nat)
    requires FirstWithId(CollectSessions(m), id, k)
    ensures Target(m, id) == Some(CollectSessions(m)[k])
  {
    assert CollectSessions(m)[k] in CollectSessions(m);
    var j := TargetFirst(m, id);
  }

  /** The target of a rebinding, and the traversal after it. */
  lemma Rebound(m: Manifest, id: string, resume: Option<string>) returns (k: nat)
    requires Target(m, id).Some?
    ensures FirstWithId(CollectSessions(m), id, k) && Target(m, id) == Some(CollectSessions(m)[k])
    ensures CollectSessions(SetResume(m, id, resume)) == CollectSessions(m)[k := Target(m, id).value.(resume := resume)]
    ensures Target(SetResume(m, id, resume), id) == Some(Target(m, id).value.(resume := resume))
  {
    k := TargetFirst(m, id);
    SetAt(CollectSessions(m), id, resume, k);
    SetCollected(m, id, resume);
    hide CollectSessions, SetResume, SetInSessions, Target;
    FirstIsTarget(SetResume(m, id, resume), id, k);
  }

  /** The new provider identity of a rebinding that changes the manifest. */
  ghost predicate RebindsTo(env: Env, m: Manifest, op: Op, id: string, resume: Option<string>) {
    && Target(m, id).Some? && Apply(env, m, op) == Ok(SetResume(m, id, resume))
    && (resume.Some? ==> !Conflicts(m, id, resume.value))
    && match op
       case OpBind(i, _, r) => i == id && resume == Some(r) && !Truthy(Target(m, id).value.resume)
       case OpClear(i, _, e) => i == id && resume == None && Target(m, id).value.resume == e
       case OpReplace(i, _, e, r) => i == id && resume == Some(r) && Target(m, id).value.resume == Some(e)
       case _ => false
  }

  lemma RebindCases(env: Env, m: Manifest, op: Op) returns (id: string, resume: Option<string>)
    requires Rebinds(op)
    ensures Apply(env, m, op) == Ok(m) || RebindsTo(env, m, op, id, resume)
  {
    hide SetResume, Target;
    match op
    case OpBind(i, _, r) => id, resume := i, Some(r);
    case OpClear(i, _, _) => id, resume := i, None;
    case OpReplace(i, _, _, r) => id, resume := i, Some(r);
  }

  // ---- The invariant ----

  lemma RebindSound(env: Env, m: Manifest, op: Op, id: string, resume: Option<string>)
    requires Sound(m) && RebindsTo(env, m, op, id, resume)
    ensures Sound(SetResume(m, id, resume))
  {
    var ss := CollectSessions(m);
    var k := Rebound(m, id, resume);
    var n := SetResume(m, id, resume);
    var t := Target(m, id).value.(resume := resume);
    assert CollectSessions(n) == ss[k := t];
    assert SessionIds(ss[k := t]) == SessionIds(ss);
    hide CollectSessions, SetResume, IsValidSessionId;
    forall s: Session | s in ss[k := t] ensures IsValidSessionId(s.sessionId) {
      assert ss[k] in ss;
    }
    if resume.Some? {
      forall i | 0 <= i < |ss| && i != k ensures ss[i].resume != resume {
        assert ss[i] in ss && SessionIds(ss)[i] != SessionIds(ss)[k];
      }
    }
  }

  lemma MintedFree(env: Env, m: Manifest, op: Op, d: Draft, minted: string)
    requires MintedBy(op) == Some((d, minted)) && MintsHonestly(env, m, op)
    ensures IsValidSessionId(minted) && All(CountId(minted), m) == 0
  {
    var ss := CollectSessions(m);
    AllIsCollected(CountId(minted), m);
    CountZero(CountId(minted), ss);
    assert minted !in TakenIds(m);
    forall i | 0 <= i < |ss| ensures ss[i].sessionId != minted {
      assert SessionIds(ss)[i] in TakenIds(m);
    }
  }

  lemma ResumeFree(env: Env, m: Manifest, d: Draft, minted: string, r: string)
    requires MaterializeAdded(env, m, d, minted).Ok? && d.resume == Some(r)
    ensures All(CountResume(r), m) == 0
  {
    var ss := CollectSessions(m);
    AllIsCollected(CountResume(r), m);
    CountZero(CountResume(r), ss);
    assert forall i :: 0 <= i < |ss| ==> ss[i] in ss;
  }

  lemma CountsAreOwners(id: string)
    ensures OwnerOnly(CountId(id)) && OwnerOnly(CountResume(id))
  {
  }

  lemma StepIds(env: Env, m: Manifest, op: Op, id: string)
    requires Apply(env, m, op).Ok? && !Duplicates(m, op) && !Rebinds(op) && MintsHonestly(env, m, op)
    requires All(CountId(id), m) <= 1 && (All(CountId(id), m) > 0 ==> IsValidSessionId(id))
    ensures var n := Apply(env, m, op).value;
      All(CountId(id), n) <= 1 && (All(CountId(id), n) > 0 ==> IsValidSessionId(id))
  {
    CountsAreOwners(id);
    Effect(CountId(id), env, m, op);
    if MintedBy(op).Some? { MintedFree(env, m, op, MintedBy(op).value.0, MintedBy(op).value.1); }
    hide Apply, All, MintsHonestly, IsValidSessionId, Duplicates, OwnerOnly;
  }

  lemma StepResumes(env: Env, m: Manifest, op: Op, r: string)
    requires Apply(env, m, op).Ok? && !Duplicates(m, op) && !Rebinds(op)
    requires All(CountResume(r), m) <= 1
    ensures All(CountResume(r), Apply(env, m, op).value) <= 1
  {
    CountsAreOwners(r);
    Effect(CountResume(r), env, m, op);
    var minted := MintedBy(op);
    if minted.Some? && minted.value.0.resume == Some(r) { ResumeFree(env, m, minted.value.0, minted.value.1, r); }
    hide Apply, All, Duplicates, OwnerOnly, MaterializeAdded;
  }

  /** Every operation but the project-to-root move keeps ids valid and unique and provider identities injective. */
  lemma StepSound(env: Env, m: Manifest, op: Op)
    requires Sound(m) && MintsHonestly(env, m, op) && Apply(env, m, op).Ok? && !Duplicates(m, op)
    ensures Sound(Apply(env, m, op).value)
  {
    var n := Apply(env, m, op).value;
    if Rebinds(op) {
      var id, resume := RebindCases(env, m, op);
      if Apply(env, m, op) != Ok(m) { RebindSound(env, m, op, id, resume); }
    } else {
      SoundIff(m);
      forall id ensures All(CountId(id), n) <= 1 && (All(CountId(id), n) > 0 ==> IsValidSessionId(id)) {
        StepIds(env, m, op, id);
      }
      forall r ensures All(CountResume(r), n) <= 1 {
        StepResumes(env, m, op, r);
      }
      SoundIff(n);
    }
    hide *;
  }

  lemma SoundIff(m: Manifest)
    ensures Sound(m) <==>
      && (forall id :: All(CountId(id), m) <= 1 && (All(CountId(id), m) > 0 ==> IsValidSessionId(id)))
      && (forall r :: All(CountResume(r), m) <= 1)
  {
    UniqueIff(m);
    ValidIff(m);
    InjectiveIff(m);
    hide All, CollectSessions, IsValidSessionId, Injective;
  }

  /** A run of updates, none of them a project-to-root move. */
  ghost predicate FairRun(env: Env, m: Manifest, ops: seq<Op>)
    decreases |ops|
  {
    ops == [] || (MintsHonestly(env, m, ops[0]) && !Duplicates(m, ops[0]) && FairRun(env, Update(env, m, ops[0]), ops[1..]))
  }

  ghost function UpdateAll(env: Env, m: Manifest, ops: seq<Op>): Manifest
    decreases |ops|
  {
    if ops == [] then m else UpdateAll(env, Update(env, m, ops[0]), ops[1..])
  }

  lemma {:induction false} RunSound(env: Env, m: Manifest, ops: seq<Op>)
    requires Sound(m) && FairRun(env, m, ops)
    ensures Sound(UpdateAll(env, m, ops))
    decreases |ops|
  {
    if ops != [] {
      if Apply(env, m, ops[0]).Ok? { StepSound(env, m, ops[0]); }
      RunSound(env, Update(env, m, ops[0]), ops[1..]);
    }
  }

  // ---- The move that duplicates ----

  /** A move keeps the multiset of sessions, up to directory and order, exactly when it is not from a project to a root group. */
  lemma MoveConservesIff(env: Env, m: Manifest, o: MoveOptions)
    requires MoveSession(env, m, o).Ok?
    ensures BareSessions(MoveSession(env, m, o).value) == BareSessions(m) <==> !ProjectToLegacy(m, o)
    ensures RemoveSession(env, m, o).Ok?
    ensures ProjectToLegacy(m, o) ==>
      BareSessions(MoveSession(env, m, o).value) == BareSessions(m) + multiset{Bare(RemoveSession(env, m, o).value.0)}
  {
    var n := MoveSession(env, m, o).value;
    forall b
      ensures BareSessions(n)[b]
           == BareSessions(m)[b] + (if ProjectToLegacy(m, o) && Bare(RemoveSession(env, m, o).value.0) == b then 1 else 0)
    {
      MoveTotal(CountBare(b), env, m, o);
      AllIsCollected(CountBare(b), m);
      AllIsCollected(CountBare(b), n);
      BareCount(CollectSessions(m), b);
      BareCount(CollectSessions(n), b);
    }
    MoveTotal(CountBare(Bare(RemoveSession(env, m, o).value.0)), env, m, o);
    hide MoveSession, ProjectToLegacy, RemoveSession, BareSessions, Bare;
    if ProjectToLegacy(m, o) {
      var b := Bare(RemoveSession(env, m, o).value.0);
      assert BareSessions(n)[b] == BareSessions(m)[b] + 1;
    }
  }

  lemma Repeats(m: Manifest, n: Manifest, o: MoveOptions, env: Env)
    requires MoveSession(env, m, o) == Ok(n) && ProjectToLegacy(m, o)
    ensures RemoveSession(env, m, o).Ok?
    ensures var id := RemoveSession(env, m, o).value.0.sessionId; All(CountId(id), n) == All(CountId(id), m) + 1 >= 2
  {
    var (taken, left) := RemoveSession(env, m, o).value;
    var f := CountId(taken.sessionId);
    RemoveTotal(f, env, m, o);
    CountsAreOwners(taken.sessionId);
    OwnerIsBare(f);
    MoveTotal(f, env, m, o);
    hide *;
    assert f(taken) == 1;
  }

  /** After the duplicating move the file cannot be read, so no later operation changes it again. */
  lemma DuplicateWedges(env: Env, m: Manifest, o: MoveOptions, later: seq<Op>)
    requires MoveSession(env, m, o).Ok? && ProjectToLegacy(m, o)
    ensures !Readable(MoveSession(env, m, o).value)
    ensures UpdateAll(env, MoveSession(env, m, o).value, later) == MoveSession(env, m, o).value
  {
    var n := MoveSession(env, m, o).value;
    Repeats(m, n, o, env);
    UniqueIff(n);
    UnreadableStays(env, n, later);
  }

  const ONLY := Session("one", "work", Some("/w"), None, None, None, None, 0)
  const ONLY_GROUP := Group("g", None, 0, None, [ONLY])
  const ROOT_GROUP := Group("r", None, 0, None, [])
  const ONE_SESSION := Manifest([ROOT_GROUP], [Project("p", None, "/w", None, [ONLY_GROUP])], 0)
  const TO_ROOT := MoveOptions("p", "g", "work", None, "", "r")

  lemma OneSessionSound()
    ensures Sound(ONE_SESSION) && CollectSessions(ONE_SESSION) == [ONLY]
  {
    assert GroupSessions([ONLY_GROUP]) == [ONLY] + GroupSessions([ONLY_GROUP][1..]) == [ONLY];
    assert GroupSessions([ROOT_GROUP]) == [] + GroupSessions([ROOT_GROUP][1..]) == [];
    assert ONE_SESSION.projects[1..] == [];
    assert ProjectSessions(ONE_SESSION.projects) == [ONLY] + ProjectSessions([]) == [ONLY];
  }

  lemma OneSessionTaken(env: Env)
    ensures RemoveSession(env, ONE_SESSION, TO_ROOT)
         == Ok((ONLY, WithGroups(ONE_SESSION, 0, [ONLY_GROUP.(sessions := [])])))
  {
    assert ONLY_GROUP.sessions[..0] + ONLY_GROUP.sessions[1..] == [];
    assert [ONLY_GROUP][0 := ONLY_GROUP.(sessions := [])] == [ONLY_GROUP.(sessions := [])];
  }

  /** A sound manifest with one session, which one move to a root group makes unreadable. */
  lemma OneSessionWedged(env: Env, later: seq<Op>)
    ensures Sound(ONE_SESSION) && MoveSession(env, ONE_SESSION, TO_ROOT).Ok?
    ensures !Readable(MoveSession(env, ONE_SESSION, TO_ROOT).value)
    ensures UpdateAll(env, MoveSession(env, ONE_SESSION, TO_ROOT).value, later) == MoveSession(env, ONE_SESSION, TO_ROOT).value
  {
    OneSessionSound();
    OneSessionTaken(env);
    hide Readable, Injective, UpdateAll, RemoveSession, LaunchCwd;
    var n := WithGroups(ONE_SESSION, 0, [ONLY_GROUP.(sessions := [])]);
    assert n.groups == [ROOT_GROUP] && FindProject(n.projects, "").None? by { assert n.projects[1..] == []; }
    DuplicateWedges(env, ONE_SESSION, TO_ROOT, later);
  }

  lemma {:induction false} UnreadableStays(env: Env, m: Manifest, ops: seq<Op>)
    requires !Readable(m)
    ensures UpdateAll(env, m, ops) == m
    decreases |ops|
  {
    if ops != [] { UnreadableStays(env, m, ops[1..]); }
  }

  /** An update leaves a sound manifest readable exactly when it is not a successful duplicating move. */
  lemma StaysReadableIff(env: Env, m: Manifest, op: Op)
    requires Sound(m) && MintsHonestly(env, m, op)
    ensures Readable(Update(env, m, op)) <==> !(Apply(env, m, op).Ok? && Duplicates(m, op))
  {
    if Apply(env, m, op).Ok? {
      if Duplicates(m, op) {
        DuplicateWedges(env, m, op.options, []);
      } else {
        StepSound(env, m, op);
      }
    }
  }

  // ---- When a provider identity changes ----

  /** The only ways a session's provider identity may differ after an operation. */
  ghost predicate MayRebind(op: Op, id: string, before: Option<string>, after: Option<string>) {
    match op
    case OpBind(i, _, r) => i == id && !Truthy(before) && after == Some(r)
    case OpClear(i, _, e) => i == id && before == e && after == None
    case OpReplace(i, _, e, r) => i == id && before == Some(e) && after == Some(r)
    case _ => false
  }

  lemma OwnersOwnerOnly(o: Owner)
    ensures OwnerOnly(CountOwner(o)) && BareOnly(CountOwner(o))
  {
    OwnerIsBare(CountOwner(o));
  }

  /** Without a rebinding, every owner afterwards was there before or is the one just added. */
  lemma OwnerFromBefore(env: Env, m: Manifest, op: Op, t: Session)
    requires Apply(env, m, op).Ok? && !Rebinds(op) && t in CollectSessions(Apply(env, m, op).value)
    ensures (exists s :: s in CollectSessions(m) && OwnerOf(s) == OwnerOf(t))
         || (MintedBy(op).Some? && t.sessionId == MintedBy(op).value.1)
  {
    var o, n := OwnerOf(t), Apply(env, m, op).value;
    OwnerPresent(n, o);
    OwnerPresent(m, o);
    OwnersOwnerOnly(o);
    if Duplicates(m, op) {
      MoveTotal(CountOwner(o), env, m, op.options);
      RemoveTotal(CountOwner(o), env, m, op.options);
    } else {
      Effect(CountOwner(o), env, m, op);
    }
    hide Apply, All, CollectSessions, Duplicates, MaterializeAdded;
  }

  /** In a readable manifest a session id names one session. */
  lemma SameSession(m: Manifest, s: Session, t: Session)
    requires Readable(m) && s in CollectSessions(m) && t in CollectSessions(m) && s.sessionId == t.sessionId
    ensures s == t
  {
    var ss := CollectSessions(m);
    var i :| 0 <= i < |ss| && ss[i] == s;
    var j :| 0 <= j < |ss| && ss[j] == t;
    assert SessionIds(ss)[i] == SessionIds(ss)[j];
  }

  lemma MintedIsNew(env: Env, m: Manifest, op: Op, s: Session)
    requires MintedBy(op).Some? && MintsHonestly(env, m, op) && s in CollectSessions(m)
    ensures s.sessionId != MintedBy(op).value.1
  {
    var ss := CollectSessions(m);
    var i :| 0 <= i < |ss| && ss[i] == s;
    assert SessionIds(ss)[i] in TakenIds(m);
  }

  lemma ChangedByRebinding(env: Env, m: Manifest, op: Op, id: string, resume: Option<string>, s: Session, t: Session)
    requires Readable(m) && RebindsTo(env, m, op, id, resume)
    requires s in CollectSessions(m) && t in CollectSessions(SetResume(m, id, resume))
    requires s.sessionId == t.sessionId && s.resume != t.resume
    ensures MayRebind(op, s.sessionId, s.resume, t.resume)
  {
    var ss := CollectSessions(m);
    var k := Rebound(m, id, resume);
    var next := ss[k].(resume := resume);
    assert t in ss[k := next];
    hide Apply, Readable, CollectSessions, SetResume;
    var j :| 0 <= j < |ss| && ss[k := next][j] == t;
    assert ss[j] in ss && ss[j].sessionId == t.sessionId;
    SameSession(m, s, ss[j]);
  }

  /**
   * A provider identity changes only by a bind that found none, by a clear that
   * found the expected one, or by a replace that found the expected one.
   */
  lemma ResumeChangesOnlyBySwap(env: Env, m: Manifest, op: Op, s: Session, t: Session)
    requires Readable(m) && MintsHonestly(env, m, op)
    requires s in CollectSessions(m) && t in CollectSessions(Update(env, m, op))
    requires s.sessionId == t.sessionId && s.resume != t.resume
    ensures MayRebind(op, s.sessionId, s.resume, t.resume)
  {
    if t in CollectSessions(m) { SameSession(m, s, t); }
    if Rebinds(op) {
      var id, resume := RebindCases(env, m, op);
      if Apply(env, m, op) != Ok(m) { ChangedByRebinding(env, m, op, id, resume, s, t); }
    } else if Apply(env, m, op).Ok? {
      OwnerFromBefore(env, m, op, t);
      if MintedBy(op).Some? { MintedIsNew(env, m, op, s); }
      if u :| u in CollectSessions(m) && OwnerOf(u) == OwnerOf(t) { SameSession(m, s, u); }
    }
    hide Apply, CollectSessions, Readable, MintsHonestly;
  }

  // ---- Binding and reading ----

  lemma ConflictsAfter(m: Manifest, id: string, resume: Option<string>, r: string)
    requires Target(m, id).Some?
    ensures Conflicts(SetResume(m, id, resume), id, r) <==> Conflicts(m, id, r)
  {
    var ss := CollectSessions(m);
    var k := Rebound(m, id, resume);
    var n := SetResume(m, id, resume);
    var tt := CollectSessions(n);
    assert tt == ss[k := ss[k].(resume := resume)];
    hide CollectSessions, SetResume;
    if s :| s in ss && s.sessionId != id && s.resume == Some(r) {
      var i :| 0 <= i < |ss| && ss[i] == s;
      assert tt[i] == s;
    }
    if s :| s in tt && s.sessionId != id && s.resume == Some(r) {
      var i :| 0 <= i < |tt| && tt[i] == s;
      assert ss[i] == s;
    }
  }

  lemma ReadAfterSet(env: Env, m: Manifest, id: string, provider: string, resume: string)
    requires env.managed(provider) && env.validId(provider, resume) && !Conflicts(m, id, resume)
    requires Target(m, id).Some? && Target(m, id).value.agent == Some(provider)
    ensures ReadBinding(env, SetResume(m, id, Some(resume)), id) == Ok((provider, Some(resume)))
  {
    var k := Rebound(m, id, Some(resume));
    ConflictsAfter(m, id, Some(resume), resume);
    hide Conflicts, SetResume, Target, CollectSessions;
  }

  /** A successful bind is what the next read of the binding reports. */
  lemma BindThenRead(env: Env, m: Manifest, id: string, provider: string, resume: string)
    requires env.managed(provider)
    ensures var (b, n) := Bind(env, m, id, provider, resume);
      b.Persisted? || b.AlreadyBound? ==> ReadBinding(env, n, id) == Ok((provider, Some(resume)))
  {
    if Bind(env, m, id, provider, resume).0.Persisted? { ReadAfterSet(env, m, id, provider, resume); }
    hide Conflicts, SetResume, Target, CollectSessions;
  }

  /** A successful replacement is what the next read of the binding reports. */
  lemma ReplaceThenRead(env: Env, m: Manifest, id: string, provider: string, expected: string, resume: string)
    requires env.managed(provider)
    ensures var (b, n) := Replace(env, m, id, provider, expected, resume);
      b.Replaced? || b.AlreadyReplaced? ==> ReadBinding(env, n, id) == Ok((provider, Some(resume)))
  {
    if Replace(env, m, id, provider, expected, resume).0.Replaced? { ReadAfterSet(env, m, id, provider, resume); }
    hide Conflicts, SetResume, Target, CollectSessions;
  }

  lemma TargetAfter(m: Manifest, id: string, resume: Option<string>)
    requires Target(m, id).Some?
    ensures Target(SetResume(m, id, resume), id) == Some(Target(m, id).value.(resume := resume))
  {
    var k := Rebound(m, id, resume);
  }

  /** After a successful clear the next read of the binding reports no identity. */
  lemma ClearThenRead(env: Env, m: Manifest, id: string, provider: string, expected: Option<string>, n: Manifest)
    requires env.managed(provider)
    requires Clear(env, m, id, provider, expected) == (Cleared, n) || Clear(env, m, id, provider, expected) == (AlreadyCleared, n)
    ensures ReadBinding(env, n, id) == Ok((provider, None))
  {
    TargetAfter(m, id, None);
    hide Conflicts, SetResume, Target, CollectSessions;
  }

  lemma ReplaceRefused(env: Env, m: Manifest, id: string, provider: string, expected: string, resume: string)
    requires Target(m, id).Some? && Target(m, id).value.resume != Some(expected)
    ensures !Replace(env, m, id, provider, expected, resume).0.Replaced? && Replace(env, m, id, provider, expected, resume).1 == m
  {
    hide Conflicts, SetResume, Target, CollectSessions;
  }

  lemma ReplacedFacts(env: Env, m: Manifest, id: string, provider: string, expected: string, resume: string)
    requires Replace(env, m, id, provider, expected, resume).0.Replaced?
    ensures Target(m, id).Some? && Replace(env, m, id, provider, expected, resume).1 == SetResume(m, id, Some(resume))
    ensures resume != expected
  {
    hide Conflicts, SetResume, Target, CollectSessions;
  }

  /** Of two replacements that expect the same identity only the first can take effect. */
  lemma ReplaceOnce(env: Env, m: Manifest, id: string, provider: string, other: string, expected: string, a: string, b: string)
    requires Replace(env, m, id, provider, expected, a).0.Replaced?
    ensures var n := Replace(env, m, id, provider, expected, a).1;
      !Replace(env, n, id, other, expected, b).0.Replaced? && Replace(env, n, id, other, expected, b).1 == n
  {
    ReplacedFacts(env, m, id, provider, expected, a);
    TargetAfter(m, id, Some(a));
    ReplaceRefused(env, SetResume(m, id, Some(a)), id, other, expected, b);
    hide Replace, SetResume, Target;
  }

  lemma SameResume(m: Manifest, s: Session, t: Session)
    requires Injective(m) && s in CollectSessions(m) && t in CollectSessions(m) && s.resume.Some? && s.resume == t.resume
    ensures s == t
  {
    var ss := CollectSessions(m);
    var i :| 0 <= i < |ss| && ss[i] == s;
    var j :| 0 <= j < |ss| && ss[j] == t;
    assert i == j;
  }

  /** In a sound manifest no read of a binding ever reports a conflict. */
  lemma SoundReadsNoConflict(env: Env, m: Manifest, id: string)
    requires Sound(m)
    ensures ReadBinding(env, m, id) != Err(Conflict)
  {
    var target := Target(m, id);
    if target.Some? {
      if s :| s in CollectSessions(m) && s.resume.Some? && s.resume == target.value.resume && s.sessionId != id {
        SameResume(m, s, target.value);
      }
    }
  }
}
