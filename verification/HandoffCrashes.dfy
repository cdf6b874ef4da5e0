/**
 * Crashes inside a rollback: exactly which of them the next recovery resolves,
 * and inputs on which it does not.
 */
module HandoffCrashes {
  import opened Common
  import opened Handoff
  import opened HandoffInvariant
  import opened HandoffForward
  import opened HandoffRecovery
  import opened HandoffTheorems
  import opened HandoffLimits

  // ---- Exactly which crashes are resolved ----

  /** The disk is exactly the one before the handoff, or exactly the one it makes. */
  ghost predicate Resolved(a: Attempt, r: Machine) {
    r.status == Running && (CommittedTo(a, r.disk) || RolledBackTo(a, r.disk))
  }

  lemma NamedNotResolved(a: Attempt, e: Disk, opts: Options)
    requires Sound(a) && Lineage(a, e) && e.commit == Some(a.id) && !(a.id in e.generations && AllLinked(a, e))
    requires opts.source == a.target || opts.target == a.target
    ensures !Resolved(a, Recover(Boot(e, []), opts))
  {
    LineageTracked(a, e);
    RecoverNamed(a, Boot(e, []), opts);
    var r := Recover(Boot(e, []), opts);
    if r.status == Running {
      var side, rel :| rel in a.rels && !Linked(a, e, side, rel);
      assert Same(r.disk.links, e.links, Dest(a.target, side, rel));
      assert !Linked(a, r.disk, side, rel);
    }
  }

  lemma NamedResolved(a: Attempt, e: Disk, opts: Options)
    requires Sound(a) && Lineage(a, e) && e.commit == Some(a.id) && a.id in e.generations && AllLinked(a, e)
    requires opts.source == a.target || opts.target == a.target
    ensures Resolved(a, Recover(Boot(e, []), opts))
  {
    forall side, rel | rel in a.rels ensures BackupFaithful(a, e, side, rel) { assert SlotKept(a, e, side, rel); }
    assert a.start.generations[a.id := a.record] != a.start.generations by { assert a.id !in a.start.generations; }
    RecoverFulfilled(a, Boot(e, []), opts);
    NeverDies(Boot(e, []), opts);
  }

  lemma OpenResolved(a: Attempt, e: Disk, opts: Options)
    requires Sound(a) && LinksSafe(a, e) && RecordsKept(a, e) && e.commit != Some(a.id)
    requires opts.source == a.target || opts.target == a.target
    ensures Resolved(a, Recover(Boot(e, []), opts)) <==> e.journal.value.phase != Committed
  {
    if e.journal.value.phase != Committed {
      RecoverInterrupted(a, Boot(e, []), opts);
      NeverDies(Boot(e, []), opts);
    } else {
      assert RecoveryProgram(e, opts).Refuse?;
    }
  }

  lemma ClosedResolved(a: Attempt, e: Disk, opts: Options)
    requires Sound(a) && RolledBackTo(a, e)
    requires opts.source == a.target || opts.target == a.target
    ensures Resolved(a, Recover(Boot(e, []), opts))
  {
    RolledBackSettled(a, e);
    RecoverSettled(Boot(e, []), opts);
    NeverDies(Boot(e, []), opts);
    BackupFreeUnchanged(e, Recover(Boot(e, []), opts).disk);
  }

  /**
   * A rollback that dies anywhere, of a handoff stopped anywhere. The next
   * recovery ends on the disk of before or of after the handoff exactly when
   * the journal was already closed, or the commit record and the generation are
   * still there and no link has changed back, or the old commit record is back
   * and the journal does not claim a commit.
   */
  lemma RollbackCrashIff(a: Attempt, d: Disk, fates: seq<Fate>, opts: Options)
    requires Sound(a) && LinksSafe(a, d) && (Uncommitted(a, d) || Named(a, d)) && Crashy(fates)
    requires opts.source == a.target || opts.target == a.target
    ensures
      var e := Run(Boot(d, fates), RollbackOps(a.JournalIn(Preparing))).disk;
      && (Lineage(a, e) || RolledBackTo(a, e)) && e.journal.Some?
      && (Resolved(a, Recover(Boot(e, []), opts)) <==>
            || e.journal.value.phase == RolledBack
            || (e.commit == Some(a.id) && a.id in e.generations && AllLinked(a, e))
            || (e.commit != Some(a.id) && e.journal.value.phase != Committed))
  {
    var m := Boot(d, fates);
    SafeIsKept(a, d);
    UndoRun(a, m, a.JournalIn(Preparing));
    var e := Run(m, RollbackOps(a.JournalIn(Preparing))).disk;
    if RolledBackTo(a, e) {
      ClosedResolved(a, e, opts);
    } else {
      UnwindingKeeps(a, d, e);
      if e.commit != Some(a.id) {
        OpenResolved(a, e, opts);
      } else if a.id in e.generations && AllLinked(a, e) {
        NamedResolved(a, e, opts);
      } else {
        NamedNotResolved(a, e, opts);
      }
    }
  }

  /**
   * A crash inside the rollback of a committed handoff is resolved exactly when
   * the journal was closed or the rollback had not changed anything yet that
   * counts. Otherwise the next recovery accepts the handoff with a link
   * missing, while its generation record is there, and refuses from then on.
   */
  lemma PostCommitCrashIff(a: Attempt, d: Disk, fates: seq<Fate>, opts: Options)
    requires Sound(a) && Fulfilled(a, d) && LinksSafe(a, d) && d.journal == Some(a.JournalIn(Committed)) && Crashy(fates)
    requires opts.source == a.target || opts.target == a.target
    ensures
      var e := Run(Boot(d, fates), RollbackOps(a.JournalIn(Committed))).disk;
      var r := Recover(Boot(e, []), opts);
      && e.journal.Some?
      && (Resolved(a, r) <==> e.journal.value.phase == RolledBack || (a.id in e.generations && AllLinked(a, e)))
      && (e.journal.value.phase != RolledBack && a.id in e.generations ==>
            r.status == Running && Settled(r.disk) && r.disk.commit == Some(a.id) && (AllLinked(a, r.disk) <==> AllLinked(a, e)))
      && (e.journal.value.phase != RolledBack && a.id !in e.generations ==> r == Boot(e, []).(status := Failed(StoreCorrupt)))
  {
    assert RollbackOps(a.JournalIn(Committed)) == RollbackOps(a.JournalIn(Preparing));
    var m := Boot(d, fates);
    SafeIsKept(a, d);
    UndoRun(a, m, a.JournalIn(Committed));
    RollbackCrashIff(a, d, fates, opts);
    var e := Run(m, RollbackOps(a.JournalIn(Committed))).disk;
    if !RolledBackTo(a, e) {
      assert e.journal == d.journal;
      LineageTracked(a, e);
      if e.commit == Some(a.id) {
        RecoverNamed(a, Boot(e, []), opts);
        if a.id in e.generations { SameLinked(a, e, Recover(Boot(e, []), opts).disk); }
      }
    }
  }

  lemma SameLinked(a: Attempt, d: Disk, e: Disk)
    requires forall loc: Loc :: !loc.BackupFile? ==> Same(e.links, d.links, loc)
    ensures AllLinked(a, e) <==> AllLinked(a, d)
  {
    forall side, rel ensures Linked(a, e, side, rel) <==> Linked(a, d, side, rel) {
      assert Same(e.links, d.links, Dest(a.target, side, rel));
    }
  }

  /**
   * The inline rollback of a throw between the commit record and the closing of
   * the journal. Its crash is resolved as well once the old commit record is
   * back, and an uncommitted handoff survives every crash of its rollback.
   */
  lemma InlineCrashIff(a: Attempt, d: Disk, fates: seq<Fate>, opts: Options)
    requires Sound(a) && LinksSafe(a, d) && (Uncommitted(a, d) || Named(a, d)) && Crashy(fates)
    requires d.journal.value.phase != Committed
    requires opts.source == a.target || opts.target == a.target
    ensures
      var e := Run(Boot(d, fates), RollbackOps(a.JournalIn(Preparing))).disk;
      && e.journal.Some?
      && (Resolved(a, Recover(Boot(e, []), opts)) <==>
            || e.journal.value.phase == RolledBack
            || e.commit == a.start.commit
            || (a.id in e.generations && AllLinked(a, e)))
  {
    SafeIsKept(a, d);
    UndoRun(a, Boot(d, fates), a.JournalIn(Preparing));
    RollbackCrashIff(a, d, fates, opts);
    assert a.start.commit != Some(a.id);
  }

  // ---- Inputs on which a crash is not resolved ----

  lemma {:induction false} RestoreStartsLast(gen: GenerationId, target: ProfileId, plans: seq<LinkPlan>)
    requires plans != []
    ensures RestoreOps(gen, target, plans) != []
    ensures RestoreOps(gen, target, plans)[0] == Restore(gen, target, plans[|plans| - 1])
    decreases |plans|
  {
    if |plans| > 1 {
      RestoreStartsLast(gen, target, plans[1..]);
      assert plans[1..][|plans[1..]| - 1] == plans[|plans| - 1];
    }
  }

  /** A rollback that dies right after its first restore. */
  lemma FirstRestoreOnly(a: Attempt, d: Disk, j: Journal)
    requires a.plans != [] && j == a.JournalIn(j.phase) && !a.plans[|a.plans| - 1].existed
    ensures
      var last := a.plans[|a.plans| - 1];
      var r := Run(Boot(d, [Proceed, Crash]), RollbackOps(j));
      r.status == Crashed && r.disk == d.(links := d.links - {Dest(a.target, last.side, last.rel)})
  {
    var ops := RollbackOps(j);
    var last := a.plans[|a.plans| - 1];
    RestoreStartsLast(a.id, a.target, a.plans);
    assert ops[0] == Restore(a.id, a.target, last);
    assert ops == [ops[0]] + ([ops[1]] + ops[2..]);
    var m := Boot(d, [Proceed, Crash]);
    RunCons(m, ops[0], [ops[1]] + ops[2..]);
    var n := Step(m, ops[0]);
    assert n == Boot(d.(links := d.links - {Dest(a.target, last.side, last.rel)}), [Crash]);
    RunCons(n, ops[1], ops[2..]);
    RunStopped(Step(n, ops[1]), ops[2..]);
  }

  /** The last plan of a handoff and its destination. */
  function LastPlan(a: Attempt): LinkPlan
    requires a.plans != []
  {
    a.plans[|a.plans| - 1]
  }

  function LastDest(a: Attempt): Loc
    requires a.plans != []
  {
    Dest(a.target, LastPlan(a).side, LastPlan(a).rel)
  }

  /**
   * Every admitted handoff whose last destination is new: it commits with its
   * backups retained, its rollback dies after one restore, and the next
   * recovery accepts the handoff as committed although that link is gone.
   */
  lemma RollbackCrashAccepted(d: Disk, opts: Options, id: GenerationId)
    requires Settled(d) && NoBackups(d) && id !in d.generations && Admission(d, opts).None? && opts.retainRollback
    requires var a := Plan(d, opts, id); a.plans != [] && !LastPlan(a).existed
    ensures
      var a := Plan(d, opts, id);
      var prepared := Transact(Boot(d, []), a);
      var undone := Rollback(Boot(prepared.disk, [Proceed, Crash]), opts, id);
      var accepted := Recover(Boot(undone.disk, []), opts);
      && prepared.status == Running && undone.status == Crashed
      && LastDest(a) in prepared.disk.links && LastDest(a) !in undone.disk.links
      && accepted.status == Running && accepted.disk.commit == Some(id) && LastDest(a) !in accepted.disk.links
  {
    var a := Plan(d, opts, id);
    PlanIsSound(d, opts, id);
    TransactCrash(a, Boot(d, []));
    FirstRestoreAccepted(a, Transact(Boot(d, []), a).disk, opts);
  }

  lemma FirstRestoreAccepted(a: Attempt, d: Disk, opts: Options)
    requires Sound(a) && Fulfilled(a, d) && d.journal == Some(a.JournalIn(Committed)) && opts.target == a.target
    requires a.plans != [] && !LastPlan(a).existed
    ensures
      var undone := Rollback(Boot(d, [Proceed, Crash]), opts, a.id);
      var accepted := Recover(Boot(undone.disk, []), opts);
      && undone.status == Crashed && LastDest(a) in d.links && LastDest(a) !in undone.disk.links
      && accepted.status == Running && accepted.disk.commit == Some(a.id) && LastDest(a) !in accepted.disk.links
  {
    hide Run, Recover;
    assert Faithful(a, LastPlan(a)) && Linked(a, d, LastPlan(a).side, LastPlan(a).rel);
    FirstRestoreOnly(a, d, a.JournalIn(Committed));
    var undone := Rollback(Boot(d, [Proceed, Crash]), opts, a.id);
    SlotsLineage(a, d);
    UndoRun(a, Boot(d, [Proceed, Crash]), a.JournalIn(Committed));
    LineageTracked(a, undone.disk);
    RecoverNamed(a, Boot(undone.disk, []), opts);
    assert Same(Recover(Boot(undone.disk, []), opts).disk.links, undone.disk.links, LastDest(a));
  }

  lemma {:induction false} ArtifactCovers(d: Disk, source: ProfileId, rels: seq<Rel>, rel: Rel)
    requires (forall r :: r in rels ==> ProfileFile(source, r) in d.links) && rel in rels
    ensures exists x :: x in Artifacts(d, source, rels) && x.rel == rel
    decreases |rels|
  {
    var first := Artifacts(d, source, rels)[0];
    if rel == rels[0] {
      assert first in Artifacts(d, source, rels) && first.rel == rel;
    } else {
      ArtifactCovers(d, source, rels[1..], rel);
      var x :| x in Artifacts(d, source, rels[1..]) && x.rel == rel;
      assert x in Artifacts(d, source, rels);
    }
  }

  /** PutCurrent throws, and the process dies after the first restore of the inline rollback. */
  function ThrowThenCrash(a: Attempt): seq<Fate> {
    [Proceed] + (Proceeds(|a.LinkingOps()| + 3) + [FailBefore, Proceed, Crash])
  }

  /** Undisturbed up to its commit record a handoff is fulfilled with the journal still open. */
  lemma UpToCommit(a: Attempt, m: Machine)
    requires Sound(a) && m.status == Running && m.fates == [] && BackupsUpTo(a, m.disk, 0)
    ensures
      var r := Run(m, a.LinkingOps() + a.CommitOps()[..3]);
      && r.status == Running && r.fates == [] && Fulfilled(a, r.disk) && r.disk.journal == Some(a.JournalIn(Prepared))
      && r.disk.current == a.start.current
  {
    var linking, three := a.LinkingOps(), a.CommitOps()[..3];
    RunConcat(m, linking, three);
    LinkingRun(a, m);
    NoFatesNoCrash(m, linking);
    var n := Run(m, linking);
    assert three == [three[0]] + ([three[1]] + ([three[2]] + []));
    RunCons(n, three[0], [three[1]] + ([three[2]] + []));
    RunCons(Step(n, three[0]), three[1], [three[2]] + []);
    RunCons(Step(Step(n, three[0]), three[1]), three[2], []);
    PreparedWrites(a, n);
    var p := Step(Step(n, three[0]), three[1]);
    assert p.fates == [] && p.status == Running;
    RecordStep(a, p, PutCommit(a.id), p.disk.(commit := Some(a.id)));
    UndoableEither(a, Step(p, PutCommit(a.id)).disk);
  }

  lemma ThrowsBefore(m: Machine, op: Op, rest: seq<Fate>)
    requires m.status == Running && m.fates == [FailBefore] + rest && !op.Restore?
    ensures Step(m, op) == m.(status := Failed(IoFailure), fates := rest)
  {
    assert m.fates[1..] == rest;
  }

  lemma ForwardSplit(a: Attempt)
    ensures a.ForwardOps() == (a.LinkingOps() + a.CommitOps()[..3]) + ([PutCurrent(a.record)] + ([a.CommitOps()[4]] + a.CleanupOps()))
    ensures |a.LinkingOps() + a.CommitOps()[..3]| == |a.LinkingOps()| + 3
  {
  }

  lemma ThrowAfterCommit(a: Attempt, m: Machine)
    requires Sound(a) && m.status == Running && m.fates == [] && BackupsUpTo(a, m.disk, 0)
    ensures
      var done := Run(m.(fates := Proceeds(|a.LinkingOps()| + 3) + [FailBefore, Proceed, Crash]), a.ForwardOps());
      && done.status == Failed(IoFailure) && done.fates == [Proceed, Crash]
      && Fulfilled(a, done.disk) && done.disk.journal == Some(a.JournalIn(Prepared))
  {
    hide Run, Step, Effect, Sound, BackupsUpTo, Fulfilled;
    var first, op, rest := a.LinkingOps() + a.CommitOps()[..3], PutCurrent(a.record), [a.CommitOps()[4]] + a.CleanupOps();
    ForwardSplit(a);
    var thrown := m.(fates := Proceeds(|a.LinkingOps()| + 3) + [FailBefore, Proceed, Crash]);
    RunConcat(thrown, first, [op] + rest);
    UpToCommit(a, m);
    assert thrown.(fates := []) == m;
    RunProceeds(thrown, first, [FailBefore, Proceed, Crash]);
    var n := Run(thrown, first);
    RunCons(n, op, rest);
    assert [FailBefore, Proceed, Crash] == [FailBefore] + [Proceed, Crash];
    ThrowsBefore(n, op, [Proceed, Crash]);
    RunStopped(Step(n, op), rest);
  }

  /**
   * Every admitted handoff whose last destination is new: the write behind
   * commit.json throws, the inline rollback dies after one restore, and every
   * later recovery refuses.
   */
  lemma InlineCrashRefused(d: Disk, opts: Options, id: GenerationId, again: Options)
    requires Settled(d) && NoBackups(d) && id !in d.generations && Admission(d, opts).None?
    requires var a := Plan(d, opts, id); a.plans != [] && !LastPlan(a).existed
    ensures
      var a := Plan(d, opts, id);
      var r := Transact(Boot(d, ThrowThenCrash(a)), a);
      && r.status == Crashed && r.disk.commit == Some(id) && LastDest(a) !in r.disk.links
      && RecoveryProgram(r.disk, again).Refuse?
  {
    var a, m := Admitted(d, opts, id);
    ThrownCrash(a, m, again);
  }

  lemma ThrownCrash(a: Attempt, m: Machine, again: Options)
    requires Sound(a) && m == Boot(a.start.(journal := Some(a.JournalIn(Preparing))), []) && BackupsUpTo(a, m.disk, 0)
    requires a.plans != [] && !LastPlan(a).existed && a.record.artifacts == Artifacts(a.start, a.source, a.rels)
    ensures
      var r := Transact(Boot(a.start, ThrowThenCrash(a)), a);
      && r.status == Crashed && r.disk.commit == Some(a.id) && LastDest(a) !in r.disk.links
      && RecoveryProgram(r.disk, again).Refuse?
  {
    hide Run, Step, RollbackOps, BackupsUpTo;
    ThrowAfterCommit(a, m);
    var rest := Proceeds(|a.LinkingOps()| + 3) + [FailBefore, Proceed, Crash];
    var done := Run(m.(fates := rest), a.ForwardOps());
    JournalFirst(a, rest);
    FirstRestoreOnly(a, done.disk, a.JournalIn(Preparing));
    TransactThrown(a, Boot(a.start, ThrowThenCrash(a)), done);
    LinkGoneRefused(a, done.disk, again);
  }

  /** A handoff whose forward program threw, and whose rollback then meets the remaining fates. */
  lemma TransactThrown(a: Attempt, m: Machine, done: Machine)
    requires m.disk == a.start && m.status == Running
    requires done == Run(Step(m, PutJournal(a.JournalIn(Preparing))), a.ForwardOps())
    requires Step(m, PutJournal(a.JournalIn(Preparing))).status == Running && done.status.Failed?
    requires Run(Boot(done.disk, done.fates), RollbackOps(a.JournalIn(Preparing))).status == Crashed
    ensures Transact(m, a) == Run(Boot(done.disk, done.fates), RollbackOps(a.JournalIn(Preparing)))
  {
    hide Run, Step;
    assert done.(status := Running, failures := false) == Boot(done.disk, done.fates);
  }

  /** A committed record whose last artifact misses a link is refused while the journal is open. */
  lemma LinkGoneRefused(a: Attempt, d: Disk, again: Options)
    requires Sound(a) && Fulfilled(a, d) && d.journal == Some(a.JournalIn(Prepared)) && a.plans != []
    requires a.record.artifacts == Artifacts(a.start, a.source, a.rels)
    ensures RecoveryProgram(d.(links := d.links - {LastDest(a)}), again).Refuse?
  {
    var e := d.(links := d.links - {LastDest(a)});
    var last := LastPlan(a);
    assert Faithful(a, last);
    ArtifactCovers(a.start, a.source, a.rels, last.rel);
    var x :| x in a.record.artifacts && x.rel == last.rel;
    assert !ArtifactMatches(e, a.target, x);
    assert !LinksMatch(e, a.target, a.record);
  }

  // ---- The inputs exist ----

  const ALONE := Disk(map[ProfileFile("a", 0) := Inode(1, [])], None, None, None, map[])
  const TWICE := Disk(map[ProfileFile("a", 0) := Inode(1, []), ProfileFile("b", 0) := Inode(2, [])], None, None, None, map[])

  /** One transcript in profile a and none in b: both crashes happen on it. */
  lemma AloneCrashes(opts: Options, id: GenerationId)
    requires opts.source == "a" && opts.target == "b" && opts.transcript == 0
    ensures Settled(ALONE) && NoBackups(ALONE) && id !in ALONE.generations && Admission(ALONE, opts).None?
    ensures var a := Plan(ALONE, opts, id); a.plans != [] && !LastPlan(a).existed
  {
    assert Admission(ALONE, opts).None?;
    var a, m := Admitted(ALONE, opts, id);
    assert Faithful(a, LastPlan(a));
  }

  lemma TwiceAdmitted(opts: Options, id: GenerationId)
    requires opts.source == "a" && opts.target == "b" && opts.transcript == 0
    ensures Settled(TWICE) && NoBackups(TWICE) && id !in TWICE.generations && Admission(TWICE, opts).None?
  {
  }

  lemma ExistingPlanned(a: Attempt, rel: Rel) returns (i: nat)
    requires Sound(a) && rel in a.rels && ProfileFile(a.target, rel) in a.start.links
    ensures i < |a.plans| && a.plans[i] == LinkPlan(rel, TargetSide, true, Some(a.start.links[ProfileFile(a.target, rel)]))
  {
    assert HasPlan(a, TargetSide, rel);
    i :| 0 <= i < |a.plans| && a.plans[i].side == TargetSide && a.plans[i].rel == rel;
    assert Faithful(a, a.plans[i]);
  }

  /** The same bytes in both profiles under two inodes: a throw at the end of the cleanup defeats the rollback. */
  lemma TwiceLost(opts: Options, id: GenerationId)
    requires opts.source == "a" && opts.target == "b" && opts.transcript == 0 && !opts.retainRollback
    ensures Settled(TWICE) && NoBackups(TWICE) && id !in TWICE.generations && Admission(TWICE, opts).None?
    ensures
      var a := Plan(TWICE, opts, id);
      Transact(Boot(TWICE, LateThrow(a)), a).status == Failed(RollbackFailed)
  {
    hide Transact, Admission, Settled, NoBackups, Envelope, Plans;
    TwiceAdmitted(opts, id);
    var a, m := Admitted(TWICE, opts, id);
    var i := ExistingPlanned(a, 0);
    assert Replaces(a, a.plans[i]);
    CleanupThrow(TWICE, opts, id);
  }
}
