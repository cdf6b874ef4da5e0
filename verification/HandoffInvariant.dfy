/**
 * What holds of the disk at every moment of a handoff: which locations an
 * attempt may write, when a slot can still be undone, and when it is linked.
 */
module HandoffInvariant {
  import opened Common
  import opened Handoff

  // ---- Runs ----

  lemma {:induction false} RunConcat(m: Machine, a: seq<Op>, b: seq<Op>)
    ensures Run(m, a + b) == Run(Run(m, a), b)
    decreases |a|
  {
    if a == [] {
      assert a + b == b;
    } else {
      assert (a + b)[0] == a[0] && (a + b)[1..] == a[1..] + b;
      RunConcat(Step(m, a[0]), a[1..], b);
    }
  }

  lemma {:induction false} RunStopped(m: Machine, ops: seq<Op>)
    requires m.status != Running
    ensures Run(m, ops) == m
    decreases |ops|
  {
    if ops != [] { RunStopped(m, ops[1..]); }
  }

  lemma {:induction false} NoFatesNoCrash(m: Machine, ops: seq<Op>)
    requires m.fates == [] && m.status != Crashed
    ensures Run(m, ops).fates == [] && Run(m, ops).status != Crashed
    decreases |ops|
  {
    if ops != [] { NoFatesNoCrash(Step(m, ops[0]), ops[1..]); }
  }

  lemma RunCons(m: Machine, op: Op, rest: seq<Op>)
    ensures Run(m, [op] + rest) == Run(Step(m, op), rest)
  {
  }

  lemma RunFive(m: Machine, ops: seq<Op>)
    requires |ops| == 5
    ensures Run(m, ops) == Step(Step(Step(Step(Step(m, ops[0]), ops[1]), ops[2]), ops[3]), ops[4])
  {
    assert ops == [ops[0]] + ([ops[1]] + ([ops[2]] + ([ops[3]] + ([ops[4]] + []))));
    RunCons(m, ops[0], [ops[1]] + ([ops[2]] + ([ops[3]] + ([ops[4]] + []))));
    RunCons(Step(m, ops[0]), ops[1], [ops[2]] + ([ops[3]] + ([ops[4]] + [])));
    RunCons(Step(Step(m, ops[0]), ops[1]), ops[2], [ops[3]] + ([ops[4]] + []));
    RunCons(Step(Step(Step(m, ops[0]), ops[1]), ops[2]), ops[3], [ops[4]] + []);
    RunCons(Step(Step(Step(Step(m, ops[0]), ops[1]), ops[2]), ops[3]), ops[4], []);
  }

  /** Fates under which nothing throws: the process may still die anywhere. */
  ghost predicate CrashOnly(m: Machine) {
    forall i :: 0 <= i < |m.fates| ==> m.fates[i] == Proceed || m.fates[i] == Crash
  }

  /** The only ways a program whose operations have no failing effect can stand. */
  ghost predicate Unrefused(m: Machine) {
    m.status == Running || m.status == Crashed || m.status == Failed(IoFailure)
  }

  lemma EffectFrame(m: Machine, op: Op)
    ensures Effect(m, op).fates == m.fates && (!op.Restore? ==> Effect(m, op).failures == m.failures)
  {
  }

  /** One operation leaves the disk as it was or as its effect makes it, and
      the process goes on only after the effect. */
  lemma StepShape(m: Machine, op: Op)
    requires m.status == Running && !op.Restore? && Effect(Consume(m), op).status == Running
    ensures
      var n, e := Step(m, op), Effect(Consume(m), op);
      && Unrefused(n) && n.failures == m.failures
      && (n.disk == m.disk || n.disk == e.disk)
      && (n.status == Running ==> n == e)
      && (CrashOnly(m) ==> CrashOnly(n) && !n.status.Failed?)
  {
    hide Effect;
    EffectFrame(Consume(m), op);
  }

  // ---- Settled disks ----

  /** Commit and generation records name one generation whose immutable record exists. */
  ghost predicate RecordsAgree(d: Disk) {
    && (d.commit.Some? <==> d.current.Some?)
    && (d.commit.Some? ==>
          && d.commit.value in d.generations
          && d.generations[d.commit.value] == d.current.value
          && d.current.value.id == d.commit.value)
  }

  ghost predicate PlannedBackup(j: Journal, loc: Loc)
    requires loc.BackupFile?
  {
    loc.generation == j.generation && exists i :: 0 <= i < |j.links| && j.links[i].side == loc.side && j.links[i].rel == loc.rel
  }

  /** No handoff is under way: only a finished journal, and backups only of its own plans. */
  ghost predicate Settled(d: Disk) {
    && RecordsAgree(d)
    && (d.journal.Some? ==> d.journal.value.phase == Committed || d.journal.value.phase == RolledBack)
    && (d.journal.Some? && d.journal.value.phase == Committed ==> d.commit == Some(d.journal.value.generation))
    && (forall loc :: loc in d.links && loc.BackupFile? ==> d.journal.Some? && PlannedBackup(d.journal.value, loc))
  }

  ghost predicate NoBackups(d: Disk) {
    forall loc :: loc in d.links ==> !loc.BackupFile?
  }

  // ---- Attempts ----

  /** A plan that tells the truth about the starting disk. */
  ghost predicate Faithful(a: Attempt, p: LinkPlan) {
    && p.rel in a.rels
    && p == BuildPlan(a.start, a.target, p.side, p.rel)
  }

  ghost predicate HasPlan(a: Attempt, side: Side, rel: Rel) {
    exists i :: 0 <= i < |a.plans| && a.plans[i].side == side && a.plans[i].rel == rel
  }

  /** The plan list covers every slot exactly once. */
  ghost predicate PlansSound(a: Attempt) {
    && (forall i :: 0 <= i < |a.plans| ==> Faithful(a, a.plans[i]))
    && (forall i, j :: 0 <= i < j < |a.plans| ==> a.plans[i].side != a.plans[j].side || a.plans[i].rel != a.plans[j].rel)
    && (forall side, rel {:trigger HasPlan(a, side, rel)} :: rel in a.rels ==> HasPlan(a, side, rel))
  }

  ghost predicate SourcesPresent(a: Attempt) {
    forall r :: r in a.rels ==> ProfileFile(a.source, r) in a.start.links
  }

  ghost predicate ArtifactsSound(a: Attempt) {
    forall x :: x in a.record.artifacts ==>
      x.rel in a.rels && ProfileFile(a.source, x.rel) in a.start.links && x.size == |a.start.links[ProfileFile(a.source, x.rel)].bytes|
  }

  /** Existing target files hold what the source holds. */
  ghost predicate TargetAgrees(a: Attempt) {
    forall r :: r in a.rels && ProfileFile(a.target, r) in a.start.links && ProfileFile(a.source, r) in a.start.links ==>
      a.start.links[ProfileFile(a.target, r)].bytes == a.start.links[ProfileFile(a.source, r)].bytes
  }

  /** An attempt planned on a settled disk with a generation id never used before. */
  ghost predicate Sound(a: Attempt) {
    && Settled(a.start) && NoBackups(a.start)
    && a.id !in a.start.generations && a.record.id == a.id
    && SourcesPresent(a) && PlansSound(a) && ArtifactsSound(a) && TargetAgrees(a)
  }

  /** The locations an attempt may write. */
  ghost predicate Planned(a: Attempt, loc: Loc) {
    match loc
    case ProfileFile(profile, rel) => profile == a.target && rel in a.rels
    case StoreFile(rel) => rel in a.rels
    case BackupFile(gen, side, rel) => gen == a.id && rel in a.rels
  }

  ghost predicate Same(links: map<Loc, Inode>, was: map<Loc, Inode>, loc: Loc) {
    (loc in links <==> loc in was) && (loc in links ==> links[loc] == was[loc])
  }

  ghost predicate Frame(a: Attempt, d: Disk) {
    forall loc :: !Planned(a, loc) ==> Same(d.links, a.start.links, loc)
  }

  ghost predicate Original(a: Attempt, d: Disk, side: Side, rel: Rel) {
    Same(d.links, a.start.links, Dest(a.target, side, rel))
  }

  ghost predicate Linked(a: Attempt, d: Disk, side: Side, rel: Rel) {
    var dest := Dest(a.target, side, rel);
    dest in d.links && ProfileFile(a.source, rel) in a.start.links && d.links[dest] == a.start.links[ProfileFile(a.source, rel)]
  }

  ghost predicate BackedUp(a: Attempt, d: Disk, side: Side, rel: Rel) {
    Dest(a.target, side, rel) in a.start.links ==> BackupFile(a.id, side, rel) in d.links
  }

  /** A backup link exists only for a destination that existed, and is that destination's inode. */
  ghost predicate BackupFaithful(a: Attempt, d: Disk, side: Side, rel: Rel) {
    var dest, backup := Dest(a.target, side, rel), BackupFile(a.id, side, rel);
    backup in d.links ==> dest in a.start.links && d.links[backup] == a.start.links[dest]
  }

  /** A slot that can still be undone. */
  ghost predicate SlotSafe(a: Attempt, d: Disk, side: Side, rel: Rel) {
    && (Original(a, d, side, rel) || Linked(a, d, side, rel))
    && BackupFaithful(a, d, side, rel)
    && (BackedUp(a, d, side, rel) || Original(a, d, side, rel))
  }

  ghost predicate LinksSafe(a: Attempt, d: Disk) {
    Frame(a, d) && forall side, rel :: rel in a.rels ==> SlotSafe(a, d, side, rel)
  }

  /** A slot that holds its original inode or the source's, even if it cannot be undone any more. */
  ghost predicate SlotKept(a: Attempt, d: Disk, side: Side, rel: Rel) {
    && (Original(a, d, side, rel) || Linked(a, d, side, rel))
    && BackupFaithful(a, d, side, rel)
  }

  ghost predicate SlotsKept(a: Attempt, d: Disk) {
    Frame(a, d) && forall side, rel :: rel in a.rels ==> SlotKept(a, d, side, rel)
  }

  ghost predicate AllOriginal(a: Attempt, d: Disk) {
    forall side, rel :: rel in a.rels ==> Original(a, d, side, rel)
  }

  ghost predicate AllLinked(a: Attempt, d: Disk) {
    forall side, rel :: rel in a.rels ==> Linked(a, d, side, rel)
  }

  ghost predicate AllBackedUp(a: Attempt, d: Disk) {
    forall side, rel :: rel in a.rels ==> BackedUp(a, d, side, rel)
  }

  ghost predicate AllFaithful(a: Attempt, d: Disk) {
    forall side, rel :: rel in a.rels ==> BackupFaithful(a, d, side, rel)
  }

  /** Before the commit record names the attempt: records untouched, journal open. */
  ghost predicate Uncommitted(a: Attempt, d: Disk) {
    && (d.journal == Some(a.JournalIn(Preparing)) || d.journal == Some(a.JournalIn(Prepared)))
    && d.commit == a.start.commit && d.current == a.start.current
    && (d.generations == a.start.generations || d.generations == a.start.generations[a.id := a.record])
  }

  /** A handoff that stopped before its commit record. */
  ghost predicate Interrupted(a: Attempt, d: Disk) { Uncommitted(a, d) && LinksSafe(a, d) }

  /** The commit record names the attempt. */
  ghost predicate Named(a: Attempt, d: Disk) {
    && (d.journal == Some(a.JournalIn(Prepared))
        || (d.journal == Some(a.JournalIn(Committed)) && d.current == Some(a.record)))
    && d.commit == Some(a.id)
    && (d.current == a.start.current || d.current == Some(a.record))
    && d.generations == a.start.generations[a.id := a.record]
  }

  /** A handoff whose commit record is written; only bookkeeping is left. */
  ghost predicate Fulfilled(a: Attempt, d: Disk) {
    Named(a, d) && Frame(a, d) && AllLinked(a, d) && AllFaithful(a, d)
  }

  ghost predicate OldOrNewGenerations(a: Attempt, d: Disk) {
    d.generations == a.start.generations || d.generations == a.start.generations[a.id := a.record]
  }

  /** The records of a disk on which only attempt `a` and its rollbacks worked: each is
      the old or the new one, and the commit record goes back last. */
  ghost predicate RecordsKept(a: Attempt, d: Disk) {
    && (d.journal == Some(a.JournalIn(Preparing)) || d.journal == Some(a.JournalIn(Prepared)) || d.journal == Some(a.JournalIn(Committed)))
    && OldOrNewGenerations(a, d)
    && (d.commit == a.start.commit || d.commit == Some(a.id))
    && (d.current == a.start.current || d.current == Some(a.record))
    && (d.commit == a.start.commit ==> d.current == a.start.current)
    && (d.commit == Some(a.id) ==> d.journal.value.phase != Preparing)
    && (d.commit == Some(a.id) && a.id in d.generations && d.journal.value.phase == Committed ==> d.current == Some(a.record))
  }

  /** Every disk attempt `a`, its rollbacks and its recoveries can leave under any fates. */
  ghost predicate Lineage(a: Attempt, d: Disk) { SlotsKept(a, d) && RecordsKept(a, d) }

  ghost predicate OwnBackups(a: Attempt, d: Disk) {
    forall loc :: loc in d.links && loc.BackupFile? ==> Planned(a, loc)
  }

  /** The same if confirmations of other starts may have removed links in between:
      the records and the backups are still the attempt's. */
  ghost predicate Tracked(a: Attempt, d: Disk) {
    RecordsKept(a, d) && OwnBackups(a, d) && AllFaithful(a, d)
  }

  /** Every slot still holds its original inode or has its backup. */
  ghost predicate AllUndoable(a: Attempt, d: Disk) {
    forall side, rel :: rel in a.rels ==> BackedUp(a, d, side, rel) || Original(a, d, side, rel)
  }

  /** The journal closed and records and slots as before the handoff; other links
      may have been removed meanwhile. */
  ghost predicate Rolled(a: Attempt, d: Disk) {
    && d.journal == Some(a.JournalIn(RolledBack)) && d.commit == a.start.commit && d.current == a.start.current
    && d.generations == a.start.generations && AllOriginal(a, d) && NoBackups(d)
  }

  /** The disk exactly as before the handoff, with its journal closed. */
  ghost predicate RolledBackTo(a: Attempt, d: Disk) {
    d == a.start.(journal := Some(a.JournalIn(RolledBack)))
  }

  /** The disk exactly as the handoff makes it: every store and target path is
      the source's inode, every other path and record is as before. */
  ghost predicate CommittedTo(a: Attempt, d: Disk) {
    && d.journal == Some(a.JournalIn(Committed)) && d.commit == Some(a.id) && d.current == Some(a.record)
    && d.generations == a.start.generations[a.id := a.record]
    && AllLinked(a, d) && NoBackups(d)
    && forall loc :: !Planned(a, loc) ==> Same(d.links, a.start.links, loc)
  }

  lemma SourceIntact(a: Attempt, d: Disk, rel: Rel)
    requires SourcesPresent(a) && LinksSafe(a, d) && rel in a.rels
    ensures ProfileFile(a.source, rel) in d.links
    ensures d.links[ProfileFile(a.source, rel)] == a.start.links[ProfileFile(a.source, rel)]
  {
    if a.source == a.target {
      assert SlotSafe(a, d, TargetSide, rel);
      assert Dest(a.target, TargetSide, rel) == ProfileFile(a.source, rel);
    } else {
      assert !Planned(a, ProfileFile(a.source, rel));
    }
  }

  // ---- Planning on an admitted disk is sound ----

  lemma {:induction false} PlanList(d: Disk, target: ProfileId, rels: seq<Rel>, i: nat)
    requires i < 2 * |rels|
    ensures |Plans(d, target, rels)| == 2 * |rels|
    ensures Plans(d, target, rels)[i] == BuildPlan(d, target, if i % 2 == 0 then StoreSide else TargetSide, rels[i / 2])
    decreases |rels|
  {
    var rest := Plans(d, target, rels[1..]);
    if i >= 2 {
      PlanList(d, target, rels[1..], i - 2);
      assert (i - 2) / 2 == i / 2 - 1 && (i - 2) % 2 == i % 2;
      assert Plans(d, target, rels)[i] == rest[i - 2];
    } else if |rels| > 1 {
      PlanList(d, target, rels[1..], 0);
    }
  }

  lemma {:induction false} ArtifactList(d: Disk, source: ProfileId, rels: seq<Rel>, x: Artifact)
    requires forall r :: r in rels ==> ProfileFile(source, r) in d.links
    requires x in Artifacts(d, source, rels)
    ensures x.rel in rels && x.size == |d.links[ProfileFile(source, x.rel)].bytes|
    decreases |rels|
  {
    if x in Artifacts(d, source, rels[1..]) { ArtifactList(d, source, rels[1..], x); }
  }

  ghost predicate PlannedFrom(a: Attempt) {
    a.plans == Plans(a.start, a.target, a.rels) && forall i, j :: 0 <= i < j < |a.rels| ==> a.rels[i] < a.rels[j]
  }

  function SideOf(i: nat): Side { if i % 2 == 0 then StoreSide else TargetSide }

  lemma PlanAt(a: Attempt, i: nat)
    requires a.plans == Plans(a.start, a.target, a.rels) && i < 2 * |a.rels|
    ensures |a.plans| == 2 * |a.rels|
    ensures a.plans[i].side == SideOf(i) && a.plans[i].rel == a.rels[i / 2] && Faithful(a, a.plans[i])
  {
    PlanList(a.start, a.target, a.rels, i);
  }

  lemma PlansDistinct(a: Attempt, i: nat, j: nat)
    requires PlannedFrom(a) && i < j < 2 * |a.rels|
    ensures |a.plans| == 2 * |a.rels|
    ensures a.plans[i].side != a.plans[j].side || a.plans[i].rel != a.plans[j].rel
  {
    PlanAt(a, i);
    PlanAt(a, j);
    if i / 2 != j / 2 {
      assert i / 2 < j / 2;
      assert a.rels[i / 2] < a.rels[j / 2];
    }
  }

  lemma SlotPlanned(a: Attempt, side: Side, rel: Rel)
    requires a.plans == Plans(a.start, a.target, a.rels) && rel in a.rels
    ensures HasPlan(a, side, rel)
  {
    var k :| 0 <= k < |a.rels| && a.rels[k] == rel;
    var i := if side == StoreSide then 2 * k else 2 * k + 1;
    PlanAt(a, i);
    assert i / 2 == k && a.plans[i].side == side;
  }

  lemma PlansOfRels(a: Attempt)
    requires PlannedFrom(a)
    ensures PlansSound(a)
  {
    if a.rels != [] { PlanAt(a, 0); }
    assert |a.plans| == 2 * |a.rels|;
    forall i | 0 <= i < |a.plans| ensures Faithful(a, a.plans[i]) { PlanAt(a, i); }
    forall i, j | 0 <= i < j < |a.plans|
      ensures a.plans[i].side != a.plans[j].side || a.plans[i].rel != a.plans[j].rel
    {
      PlansDistinct(a, i, j);
    }
    forall side, rel | rel in a.rels ensures HasPlan(a, side, rel) { SlotPlanned(a, side, rel); }
  }

  lemma PlanIsSound(d: Disk, opts: Options, id: GenerationId)
    requires Settled(d) && NoBackups(d) && id !in d.generations && Admission(d, opts).None?
    ensures Sound(Plan(d, opts, id))
  {
    var a := Plan(d, opts, id);
    PlansOfRels(a);
    forall x | x in a.record.artifacts
      ensures x.rel in a.rels && ProfileFile(a.source, x.rel) in a.start.links
      ensures x.size == |a.start.links[ProfileFile(a.source, x.rel)].bytes|
    {
      ArtifactList(d, a.source, a.rels, x);
    }
  }
}
