/** Rollback and recovery, stopped anywhere and run again. */
module HandoffRecovery {
  import opened Common
  import opened Handoff
  import opened HandoffInvariant
  import opened HandoffForward

  // ---- Restoring links ----

  ghost predicate RestoredFrom(a: Attempt, d: Disk, k: nat)
    requires k <= |a.plans|
  {
    forall i :: k <= i < |a.plans| ==> Original(a, d, a.plans[i].side, a.plans[i].rel)
  }

  lemma SafeIsKept(a: Attempt, d: Disk)
    ensures LinksSafe(a, d) <==> SlotsKept(a, d) && AllUndoable(a, d)
  {
    if LinksSafe(a, d) {
      forall side, rel | rel in a.rels
        ensures SlotKept(a, d, side, rel) && (BackedUp(a, d, side, rel) || Original(a, d, side, rel))
      {
        assert SlotSafe(a, d, side, rel);
      }
    }
    if SlotsKept(a, d) && AllUndoable(a, d) {
      forall side, rel | rel in a.rels ensures SlotSafe(a, d, side, rel) { assert SlotKept(a, d, side, rel); }
    }
  }

  /** Every location is as in `d` or, if the attempt planned it, as before the attempt. */
  ghost predicate Undone(a: Attempt, d: Disk, e: Disk) {
    forall loc :: Same(e.links, d.links, loc) || (Planned(a, loc) && Same(e.links, a.start.links, loc))
  }

  lemma UndoneThen(a: Attempt, d: Disk, e: Disk, f: Disk)
    requires Undone(a, d, e) && Undone(a, e, f)
    ensures Undone(a, d, f)
  {
    forall loc ensures Same(f.links, d.links, loc) || (Planned(a, loc) && Same(f.links, a.start.links, loc)) {
      assert Same(f.links, e.links, loc) || (Planned(a, loc) && Same(f.links, a.start.links, loc));
      assert Same(e.links, d.links, loc) || (Planned(a, loc) && Same(e.links, a.start.links, loc));
    }
  }

  /** What undoing keeps of the links. */
  lemma UndoneKeeps(a: Attempt, d: Disk, e: Disk)
    requires NoBackups(a.start) && Undone(a, d, e)
    ensures OwnBackups(a, d) ==> OwnBackups(a, e)
    ensures AllFaithful(a, d) ==> AllFaithful(a, e)
    ensures SlotsKept(a, d) ==> SlotsKept(a, e)
    ensures AllOriginal(a, d) ==> AllOriginal(a, e)
  {
    forall side, rel | rel in a.rels
      ensures BackupFaithful(a, d, side, rel) ==> BackupFaithful(a, e, side, rel)
      ensures SlotKept(a, d, side, rel) ==> SlotKept(a, e, side, rel)
      ensures Original(a, d, side, rel) ==> Original(a, e, side, rel)
    {
      SlotUndone(a, d, e, side, rel);
    }
    if SlotsKept(a, d) {
      forall loc | !Planned(a, loc) ensures Same(e.links, a.start.links, loc) { assert Same(e.links, d.links, loc); }
    }
    forall loc | loc in e.links && loc.BackupFile? && OwnBackups(a, d) ensures Planned(a, loc) {
      assert Same(e.links, d.links, loc) || Planned(a, loc);
    }
  }

  lemma SlotUndone(a: Attempt, d: Disk, e: Disk, side: Side, rel: Rel)
    requires NoBackups(a.start) && Undone(a, d, e)
    ensures BackupFaithful(a, d, side, rel) ==> BackupFaithful(a, e, side, rel)
    ensures SlotKept(a, d, side, rel) ==> SlotKept(a, e, side, rel)
    ensures Original(a, d, side, rel) ==> Original(a, e, side, rel)
  {
    var dest, backup := Dest(a.target, side, rel), BackupFile(a.id, side, rel);
    assert Same(e.links, d.links, dest) || Same(e.links, a.start.links, dest);
    assert Same(e.links, d.links, backup) || Same(e.links, a.start.links, backup);
  }

  /** Undoing that leaves the backups alone, as the restore loop does. */
  ghost predicate Restoring(a: Attempt, d: Disk, e: Disk) {
    && e == d.(links := e.links) && Undone(a, d, e)
    && forall loc: Loc :: loc.BackupFile? ==> Same(e.links, d.links, loc)
  }

  lemma RestoringKeeps(a: Attempt, d: Disk, e: Disk)
    requires NoBackups(a.start) && Restoring(a, d, e)
    ensures AllFaithful(a, d) ==> AllFaithful(a, e)
    ensures AllUndoable(a, d) ==> AllUndoable(a, e)
    ensures forall side, rel :: rel in a.rels && Original(a, d, side, rel) ==> Original(a, e, side, rel)
  {
    UndoneKeeps(a, d, e);
    forall side, rel | rel in a.rels
      ensures Original(a, d, side, rel) ==> Original(a, e, side, rel)
      ensures BackedUp(a, d, side, rel) ==> BackedUp(a, e, side, rel)
    {
      SlotUndone(a, d, e, side, rel);
      assert Same(e.links, d.links, BackupFile(a.id, side, rel));
    }
  }

  lemma RestoringThen(a: Attempt, d: Disk, e: Disk, f: Disk)
    requires Restoring(a, d, e) && Restoring(a, e, f)
    ensures Restoring(a, d, f)
  {
    UndoneThen(a, d, e, f);
    forall loc: Loc | loc.BackupFile? ensures Same(f.links, d.links, loc) { assert Same(e.links, d.links, loc); }
  }

  /** One turn of the restore loop puts its slot back or reports a failure, and
      never fails on a slot that can be undone. */
  lemma RestoreEffect(a: Attempt, m: Machine, k: nat)
    requires m.status == Running && PlansSound(a) && k < |a.plans| && AllFaithful(a, m.disk)
    ensures
      var n := Effect(m, Restore(a.id, a.target, a.plans[k]));
      && n.status == Running && n.fates == m.fates && Restoring(a, m.disk, n.disk)
      && (!n.failures ==> !m.failures && Original(a, n.disk, a.plans[k].side, a.plans[k].rel))
      && (AllUndoable(a, m.disk) ==> n.failures == m.failures)
  {
    var plan := a.plans[k];
    assert Faithful(a, plan) && BackupFaithful(a, m.disk, plan.side, plan.rel);
    var dest := Dest(a.target, plan.side, plan.rel);
    var n := Effect(m, Restore(a.id, a.target, plan));
    assert forall loc :: loc != dest ==> Same(n.disk.links, m.disk.links, loc);
    assert Planned(a, dest);
    if AllUndoable(a, m.disk) {
      assert BackedUp(a, m.disk, plan.side, plan.rel) || Original(a, m.disk, plan.side, plan.rel);
    }
  }

  /** The same turn under any fate. */
  lemma RestoreStep(a: Attempt, m: Machine, k: nat)
    requires m.status == Running && PlansSound(a) && k < |a.plans| && AllFaithful(a, m.disk)
    ensures
      var n := Step(m, Restore(a.id, a.target, a.plans[k]));
      && (n.status == Running || n.status == Crashed) && Restoring(a, m.disk, n.disk)
      && (n.status == Running && !n.failures ==>
            !m.failures && Original(a, n.disk, a.plans[k].side, a.plans[k].rel))
      && (CrashOnly(m) ==> CrashOnly(n) && (AllUndoable(a, m.disk) ==> n.failures == m.failures))
  {
    RestoreEffect(a, Consume(m), k);
  }

  /**
   * The restore loop under any fates: each location is as it was or as before
   * the handoff, no backup changes, and a loop that collected no failure has
   * put every slot back. While every slot can be undone and nothing throws it
   * collects none.
   */
  lemma {:induction false} RestoreRun(a: Attempt, m: Machine, k: nat)
    requires m.status == Running && PlansSound(a) && NoBackups(a.start) && AllFaithful(a, m.disk) && k <= |a.plans|
    ensures
      var r := Run(m, RestoreOps(a.id, a.target, a.plans[k..]));
      && (r.status == Running || r.status == Crashed) && Restoring(a, m.disk, r.disk)
      && (r.status == Running && !r.failures ==> !m.failures && RestoredFrom(a, r.disk, k))
      && (CrashOnly(m) ==> CrashOnly(r) && (AllUndoable(a, m.disk) ==> r.failures == m.failures))
    decreases |a.plans| - k
  {
    hide AllUndoable, AllFaithful;
    if k == |a.plans| { return; }
    assert a.plans[k..][0] == a.plans[k] && a.plans[k..][1..] == a.plans[k + 1..];
    var later, op := RestoreOps(a.id, a.target, a.plans[k + 1..]), Restore(a.id, a.target, a.plans[k]);
    assert RestoreOps(a.id, a.target, a.plans[k..]) == later + [op];
    RestoreRun(a, m, k + 1);
    RunConcat(m, later, [op]);
    var n := Run(m, later);
    assert Run(n, [op]) == Step(n, op);
    if n.status == Running {
      RestoringKeeps(a, m.disk, n.disk);
      RestoreStep(a, n, k);
      var r := Step(n, op);
      RestoringThen(a, m.disk, n.disk, r.disk);
      RestoringKeeps(a, n.disk, r.disk);
      assert forall i :: k <= i < |a.plans| ==> Faithful(a, a.plans[i]);
    }
  }

  lemma AllRestored(a: Attempt, d: Disk)
    requires PlansSound(a) && RestoredFrom(a, d, 0)
    ensures AllOriginal(a, d)
  {
    forall side, rel | rel in a.rels ensures Original(a, d, side, rel) { assert HasPlan(a, side, rel); }
  }

  // ---- The whole rollback ----

  /** Removing backups of the attempt's own plans is undoing. */
  lemma UnlinkUndoes(a: Attempt, d: Disk, e: Disk)
    requires PlansSound(a) && NoBackups(a.start) && OnlyBackupsGone(d, e, a.id, a.plans)
    ensures Undone(a, d, e)
  {
    forall loc | !Same(e.links, d.links, loc) ensures Planned(a, loc) && Same(e.links, a.start.links, loc) {
      var i :| 0 <= i < |a.plans| && a.plans[i].side == loc.side && a.plans[i].rel == loc.rel;
      assert Faithful(a, a.plans[i]);
    }
  }

  lemma AllUnlinked(a: Attempt, d: Disk)
    requires PlansSound(a) && OwnBackups(a, d)
    requires forall i :: 0 <= i < |a.plans| ==> BackupFile(a.id, a.plans[i].side, a.plans[i].rel) !in d.links
    ensures NoBackups(d)
  {
    forall loc | loc in d.links ensures !loc.BackupFile? {
      assert loc.BackupFile? ==> HasPlan(a, loc.side, loc.rel);
    }
  }

  /** Slots and frame as before make the links as before. */
  lemma LinksRestored(a: Attempt, d: Disk)
    requires Frame(a, d) && AllOriginal(a, d) && NoBackups(d) && NoBackups(a.start)
    ensures d.links == a.start.links
  {
    forall loc ensures Same(d.links, a.start.links, loc) {
      if Planned(a, loc) {
        match loc
        case ProfileFile(profile, rel) => assert Original(a, d, TargetSide, rel);
        case StoreFile(rel) => assert Original(a, d, StoreSide, rel);
        case BackupFile(gen, side, rel) =>
      }
    }
    assert d.links.Keys == a.start.links.Keys by {
      forall loc ensures loc in d.links <==> loc in a.start.links { assert Same(d.links, a.start.links, loc); }
    }
    forall loc | loc in d.links ensures d.links[loc] == a.start.links[loc] { assert Same(d.links, a.start.links, loc); }
  }

  lemma RolledExactly(a: Attempt, d: Disk)
    requires NoBackups(a.start)
    ensures RolledBackTo(a, d) <==> Rolled(a, d) && Frame(a, d)
  {
    if Rolled(a, d) && Frame(a, d) { LinksRestored(a, d); }
  }

  function RecordOps(j: Journal): seq<Op> {
    [CheckRestored, DropImmutable(j.generation)] + RestoreRecordsOps(j.previous) + [PutJournal(j.(phase := RolledBack))]
  }

  ghost predicate Unwound(a: Attempt, d: Disk) { AllOriginal(a, d) && NoBackups(d) }

  /** How far an unfinished rollback of `d` got with the records of `e`: none
      touched, or, all slots back, the generation gone and then the rest in order. */
  ghost predicate Unwinding(a: Attempt, d: Disk, e: Disk) {
    && e.journal == d.journal
    && (Unwound(a, e) || (e.generations == d.generations && e.current == d.current && e.commit == d.commit))
    && (e.generations == d.generations || e.generations == a.start.generations)
    && (e.current == d.current || (e.current == a.start.current && e.generations == a.start.generations))
    && (e.commit == d.commit || (e.commit == a.start.commit && e.current == a.start.current && e.generations == a.start.generations))
  }

  /** One record write of the unwinding under any fate. */
  lemma UnwindStep(m: Machine, op: Op, e: Disk)
    requires Unrefused(m)
    requires m.status == Running ==> !op.Restore? && Effect(Consume(m), op) == Consume(m).(disk := e)
    ensures
      var n := Step(m, op);
      && Unrefused(n) && (NoThrow(m) ==> NoThrow(n))
      && (n.disk == m.disk || (m.status == Running && n.disk == e))
      && (n.status == Running ==> m.status == Running && n.disk == e)
  {
    if m.status == Running { StepShape(m, op); }
  }

  lemma SameSlots(a: Attempt, d: Disk, e: Disk)
    requires e.links == d.links
    ensures AllOriginal(a, d) ==> AllOriginal(a, e) && AllUndoable(a, e)
    ensures Unwound(a, d) ==> Unwound(a, e)
    ensures Undone(a, d, e)
  {
    forall side, rel | rel in a.rels && AllOriginal(a, d) ensures Original(a, e, side, rel) {
      assert Original(a, d, side, rel);
    }
  }

  /** The first two operations behind the links: the failure check and the removal of the generation. */
  lemma FirstWrites(a: Attempt, m: Machine, j: Journal)
    requires Sound(a) && j == a.JournalIn(j.phase) && m.status == Running && !m.failures
    requires Unwound(a, m.disk) && OldOrNewGenerations(a, m.disk)
    ensures
      var n := Step(Step(m, CheckRestored), DropImmutable(j.generation));
      && Unrefused(n) && (CrashOnly(m) ==> NoThrow(n))
      && n.disk.links == m.disk.links && Unwinding(a, m.disk, n.disk)
      && (n.status == Running ==> n.disk == m.disk.(generations := a.start.generations))
  {
    assert a.start.generations[a.id := a.record] - {a.id} == a.start.generations;
    assert a.start.generations - {a.id} == a.start.generations;
    UnwindStep(m, CheckRestored, m.disk);
    var n := Step(m, CheckRestored);
    UnwindStep(n, DropImmutable(j.generation), m.disk.(generations := a.start.generations));
    SameSlots(a, m.disk, Step(n, DropImmutable(j.generation)).disk);
  }

  /** The last three writes: generation record, commit record, journal. */
  lemma LastWrites(a: Attempt, d: Disk, m: Machine, j: Journal)
    requires RecordsAgree(a.start) && j == a.JournalIn(j.phase) && Unrefused(m) && Unwound(a, d)
    requires m.disk.links == d.links && Unwinding(a, d, m.disk)
    requires m.status == Running ==> m.disk == d.(generations := a.start.generations)
    ensures
      var ops := RestoreRecordsOps(j.previous);
      var n := Step(Step(Step(m, ops[0]), ops[1]), PutJournal(j.(phase := RolledBack)));
      && Unrefused(n) && (NoThrow(m) ==> NoThrow(n))
      && (n.status == Running ==> Rolled(a, n.disk))
      && n.disk.links == d.links && (Unwinding(a, d, n.disk) || Rolled(a, n.disk))
  {
    var ops := RestoreRecordsOps(j.previous);
    var e1 := m.disk.(current := a.start.current);
    var e2 := e1.(commit := a.start.commit);
    UnwindStep(m, ops[0], e1);
    var m1 := Step(m, ops[0]);
    UnwindStep(m1, ops[1], e2);
    var m2 := Step(m1, ops[1]);
    var last := PutJournal(j.(phase := RolledBack));
    UnwindStep(m2, last, e2.(journal := Some(a.JournalIn(RolledBack))));
    SameSlots(a, d, Step(m2, last).disk);
  }

  /** The record half of a rollback reaches the old records, whatever it starts from. */
  lemma RecordsRun(a: Attempt, m: Machine, j: Journal)
    requires Sound(a) && j == a.JournalIn(j.phase) && m.status == Running && !m.failures
    requires Unwound(a, m.disk) && OldOrNewGenerations(a, m.disk)
    ensures
      var r := Run(m, RecordOps(j));
      && Unrefused(r) && (CrashOnly(m) ==> NoThrow(r))
      && (r.status == Running ==> Rolled(a, r.disk))
      && r.disk.links == m.disk.links && (Unwinding(a, m.disk, r.disk) || Rolled(a, r.disk))
  {
    hide Step, Effect, Unwound, Rolled;
    RunFive(m, RecordOps(j));
    FirstWrites(a, m, j);
    LastWrites(a, m.disk, Step(Step(m, CheckRestored), DropImmutable(j.generation)), j);
  }

  /** After a reported failure the record half changes nothing and never completes. */
  lemma FailedRecords(m: Machine, j: Journal)
    requires m.status == Running && m.failures
    ensures Run(m, RecordOps(j)).status != Running && Run(m, RecordOps(j)).disk == m.disk
    ensures m.fates == [] ==> Run(m, RecordOps(j)).status == Failed(StoreCorrupt)
  {
    var records := RecordOps(j);
    assert records == [CheckRestored] + records[1..];
    RunCons(m, CheckRestored, records[1..]);
    RunStopped(Step(m, CheckRestored), records[1..]);
  }

  /** Everything behind the restore loop. */
  lemma UnwindRest(a: Attempt, m: Machine, j: Journal)
    requires Sound(a) && j == a.JournalIn(j.phase) && m.status == Running
    requires OwnBackups(a, m.disk) && (m.failures || RestoredFrom(a, m.disk, 0)) && OldOrNewGenerations(a, m.disk)
    ensures
      var r := Run(m, UnlinkOps(a.id, a.plans) + RecordOps(j));
      && (r.status == Running ==> Rolled(a, r.disk))
      && Undone(a, m.disk, r.disk) && (Unwinding(a, m.disk, r.disk) || Rolled(a, r.disk))
      && (!m.failures ==> AllUndoable(a, r.disk) && (CrashOnly(m) ==> NoThrow(r)))
  {
    hide Undone, AllOriginal, AllUndoable;
    var unlinks, records := UnlinkOps(a.id, a.plans), RecordOps(j);
    RunConcat(m, unlinks, records);
    UnlinkRun(m, a.id, a.plans);
    var u := Run(m, unlinks);
    UnlinkUndoes(a, m.disk, u.disk);
    UndoneKeeps(a, m.disk, u.disk);
    if !m.failures { AllRestored(a, m.disk); }
    SameSlots(a, u.disk, u.disk);
    if u.status != Running { RunStopped(u, records); return; }
    if u.failures {
      FailedRecords(u, j);
    } else {
      AllUnlinked(a, u.disk);
      RecordsRun(a, u, j);
      var r := Run(u, records);
      SameSlots(a, u.disk, r.disk);
      UndoneThen(a, m.disk, u.disk, r.disk);
    }
  }

  /**
   * A rollback under any fates, started from any disk with the attempt's
   * backups: it completes only with every slot and record as before the
   * handoff, and wherever it stops each location is as it was or as before, and
   * the records went back in order behind the links. Where every slot can be
   * undone and nothing throws, that stays so.
   */
  lemma UnwindRun(a: Attempt, m: Machine, j: Journal)
    requires Sound(a) && j == a.JournalIn(j.phase) && m.status == Running
    requires AllFaithful(a, m.disk) && OwnBackups(a, m.disk) && OldOrNewGenerations(a, m.disk)
    ensures
      var r := Run(m, RollbackOps(j));
      && (r.status == Running ==> Rolled(a, r.disk))
      && Undone(a, m.disk, r.disk) && (Unwinding(a, m.disk, r.disk) || Rolled(a, r.disk))
      && (AllUndoable(a, m.disk) && !m.failures && CrashOnly(m) ==> AllUndoable(a, r.disk) && NoThrow(r))
  {
    hide Undone, AllUndoable, Rolled, Unwound;
    var restores, rest := RestoreOps(a.id, a.target, a.plans), UnlinkOps(a.id, a.plans) + RecordOps(j);
    assert RollbackOps(j) == restores + rest;
    RunConcat(m, restores, rest);
    assert a.plans[0..] == a.plans;
    RestoreRun(a, m, 0);
    var n := Run(m, restores);
    RestoringKeeps(a, m.disk, n.disk);
    UndoneKeeps(a, m.disk, n.disk);
    if n.status == Running {
      UnwindRest(a, n, j);
      UndoneThen(a, m.disk, n.disk, Run(n, rest).disk);
    } else {
      RunStopped(n, rest);
    }
  }

  lemma LineageTracked(a: Attempt, d: Disk)
    requires NoBackups(a.start) && SlotsKept(a, d)
    ensures OwnBackups(a, d) && AllFaithful(a, d)
    ensures RecordsKept(a, d) ==> Tracked(a, d)
  {
    forall side, rel | rel in a.rels ensures BackupFaithful(a, d, side, rel) { assert SlotKept(a, d, side, rel); }
    forall loc | loc in d.links && loc.BackupFile? ensures Planned(a, loc) {
      assert Planned(a, loc) || Same(d.links, a.start.links, loc);
    }
  }

  /**
   * The same from a disk whose slots are all original or linked: it completes
   * only as the exact inverse of the handoff, and wherever it stops every slot
   * still is original or linked. Slots that can be undone stay so.
   */
  lemma UndoRun(a: Attempt, m: Machine, j: Journal)
    requires Sound(a) && j == a.JournalIn(j.phase) && m.status == Running
    requires SlotsKept(a, m.disk) && OldOrNewGenerations(a, m.disk)
    ensures
      var r := Run(m, RollbackOps(j));
      && (r.status == Running ==> RolledBackTo(a, r.disk))
      && SlotsKept(a, r.disk) && (Unwinding(a, m.disk, r.disk) || RolledBackTo(a, r.disk))
      && (LinksSafe(a, m.disk) && !m.failures && CrashOnly(m) ==> LinksSafe(a, r.disk) && NoThrow(r))
  {
    hide LinksSafe, Undone, AllUndoable, Rolled, RolledBackTo;
    LineageTracked(a, m.disk);
    UnwindRun(a, m, j);
    var r := Run(m, RollbackOps(j));
    UndoneKeeps(a, m.disk, r.disk);
    SafeIsKept(a, m.disk);
    SafeIsKept(a, r.disk);
    RolledExactly(a, r.disk);
  }

  /** A rollback run to its end is the exact inverse of the handoff; stopped
      before the commit record was written it can be run again. Wherever it
      stops, every slot can still be undone. */
  lemma RollbackRun(a: Attempt, m: Machine, j: Journal)
    requires Sound(a) && j == a.JournalIn(j.phase) && m.status == Running && !m.failures && CrashOnly(m)
    requires LinksSafe(a, m.disk) && (Uncommitted(a, m.disk) || Named(a, m.disk))
    ensures
      var r := Run(m, RollbackOps(j));
      && CrashOnly(r) && (r.status == Running || r.status == Crashed) && LinksSafe(a, r.disk)
      && (r.status == Running ==> RolledBackTo(a, r.disk))
      && (Uncommitted(a, m.disk) ==> Interrupted(a, r.disk) || RolledBackTo(a, r.disk))
  {
    SafeIsKept(a, m.disk);
    UndoRun(a, m, j);
  }

  // ---- Recovery ----

  /** Recovery of a handoff that stopped before its commit record. */
  lemma RecoverInterrupted(a: Attempt, m: Machine, opts: Options)
    requires Sound(a) && Interrupted(a, m.disk) && m.status == Running && !m.failures && CrashOnly(m)
    requires opts.source == a.target || opts.target == a.target
    ensures RecoveryProgram(m.disk, opts).Program?
    ensures
      var r := Recover(m, opts);
      && (r.status == Running || r.status == Crashed)
      && (r.status == Running ==> RolledBackTo(a, r.disk))
      && (Interrupted(a, r.disk) || RolledBackTo(a, r.disk))
  {
    var j := m.disk.journal.value;
    assert RecoveryProgram(m.disk, opts) == Program(RollbackOps(j));
    RollbackRun(a, m, j);
  }

  lemma FulfilledMatches(a: Attempt, d: Disk)
    requires Sound(a) && Fulfilled(a, d)
    ensures LinksMatch(d, a.target, a.record)
  {
    forall x | x in a.record.artifacts ensures ArtifactMatches(d, a.target, x) {
      assert Linked(a, d, StoreSide, x.rel) && Linked(a, d, TargetSide, x.rel);
    }
  }

  lemma FulfilledRecord(a: Attempt, d: Disk, e: Disk)
    requires Fulfilled(a, d) && Named(a, e) && e.links == d.links
    ensures Fulfilled(a, e)
  {
    forall side, rel | rel in a.rels ensures Linked(a, e, side, rel) && BackupFaithful(a, e, side, rel) {
      assert Linked(a, d, side, rel) && BackupFaithful(a, d, side, rel);
    }
  }

  /** The cleanup half of an accepting recovery. */
  lemma AcceptCleanup(a: Attempt, m: Machine)
    requires Sound(a) && Fulfilled(a, m.disk) && m.disk.journal == Some(a.JournalIn(Committed))
    requires m.status == Running && CrashOnly(m)
    ensures
      var r := Run(m, UnlinkOps(a.id, a.plans));
      && (r.status == Running || r.status == Crashed) && Fulfilled(a, r.disk)
      && (r.status == Running ==> CommittedTo(a, r.disk))
  {
    UnlinkRun(m, a.id, a.plans);
    var r := Run(m, UnlinkOps(a.id, a.plans));
    CleanupKeeps(a, m.disk, r.disk);
    if r.status == Running { CleanupCompletes(a, r.disk); }
  }

  /** The record half of an accepting recovery, then its cleanup. */
  lemma AcceptRecords(a: Attempt, m: Machine)
    requires Sound(a) && Fulfilled(a, m.disk) && m.status == Running && CrashOnly(m)
    ensures
      var r := Run(m, [PutCurrent(a.record)] + ([PutJournal(a.JournalIn(Committed))] + UnlinkOps(a.id, a.plans)));
      && (r.status == Running || r.status == Crashed) && Fulfilled(a, r.disk)
      && (r.status == Running ==> CommittedTo(a, r.disk))
  {
    var op1, op2, unlinks := PutCurrent(a.record), PutJournal(a.JournalIn(Committed)), UnlinkOps(a.id, a.plans);
    RunCons(m, op1, [op2] + unlinks);
    var n := Step(m, op1);
    StepShape(m, op1);
    FulfilledRecord(a, m.disk, n.disk);
    RunCons(n, op2, unlinks);
    if n.status != Running { RunStopped(n, [op2] + unlinks); return; }
    var n2 := Step(n, op2);
    StepShape(n, op2);
    FulfilledRecord(a, n.disk, n2.disk);
    if n2.status == Running { AcceptCleanup(a, n2); } else { RunStopped(n2, unlinks); }
  }

  /** Recovery of a handoff whose commit record was written. */
  lemma RecoverFulfilled(a: Attempt, m: Machine, opts: Options)
    requires Sound(a) && Fulfilled(a, m.disk) && m.status == Running && CrashOnly(m)
    requires opts.source == a.target || opts.target == a.target
    ensures RecoveryProgram(m.disk, opts).Program?
    ensures
      var r := Recover(m, opts);
      && (r.status == Running || r.status == Crashed) && Fulfilled(a, r.disk)
      && (r.status == Running ==> CommittedTo(a, r.disk))
  {
    var unlinks := UnlinkOps(a.id, a.plans);
    FulfilledMatches(a, m.disk);
    if m.disk.journal.value.phase == Committed {
      assert RecoveryProgram(m.disk, opts) == Program(unlinks);
      AcceptCleanup(a, m);
    } else {
      var op1, op2 := PutCurrent(a.record), PutJournal(a.JournalIn(Committed));
      assert RecoveryProgram(m.disk, opts) == Program([op1, op2] + unlinks);
      assert [op1, op2] + unlinks == [op1] + ([op2] + unlinks);
      AcceptRecords(a, m);
    }
  }

  /** Recovery of a settled disk only drops left-over backups, whatever interrupts it. */
  lemma RecoverSettled(m: Machine, opts: Options)
    requires Settled(m.disk) && m.status == Running
    requires m.disk.journal.Some? ==> Resolves(opts, m.disk.journal.value)
    ensures RecoveryProgram(m.disk, opts).Program?
    ensures
      var r := Recover(m, opts);
      && Unrefused(r) && (CrashOnly(m) ==> !r.status.Failed?) && Settled(r.disk)
      && r.disk == m.disk.(links := r.disk.links)
      && (forall loc: Loc :: !loc.BackupFile? ==> Same(r.disk.links, m.disk.links, loc))
      && (forall loc :: loc in r.disk.links ==> loc in m.disk.links)
      && (r.status == Running ==> NoBackups(r.disk))
  {
    if m.disk.journal.None? { return; }
    var j := m.disk.journal.value;
    assert RecoveryProgram(m.disk, opts) == Program(UnlinkOps(j.generation, j.links));
    UnlinkRun(m, j.generation, j.links);
  }

  // ---- Disks under any fates ----

  lemma SlotsLineage(a: Attempt, d: Disk)
    requires Sound(a) && (Interrupted(a, d) || Fulfilled(a, d))
    ensures Lineage(a, d)
  {
    if Interrupted(a, d) {
      SafeIsKept(a, d);
    } else {
      forall side, rel | rel in a.rels ensures SlotKept(a, d, side, rel) {
        assert Linked(a, d, side, rel) && BackupFaithful(a, d, side, rel);
      }
    }
  }

  lemma UnwindingKeeps(a: Attempt, d: Disk, e: Disk)
    requires Sound(a) && RecordsKept(a, d) && Unwinding(a, d, e)
    ensures RecordsKept(a, e)
  {
  }

  /** A disk whose records say that the attempt is committed. */
  ghost predicate SaysCommitted(a: Attempt, d: Disk) {
    d.commit == Some(a.id) && a.id in d.generations && d.journal == Some(a.JournalIn(Committed))
  }

  lemma TrackedSettled(a: Attempt, d: Disk)
    requires Sound(a) && Tracked(a, d) && SaysCommitted(a, d)
    ensures Settled(d)
  {
    forall loc | loc in d.links && loc.BackupFile? ensures PlannedBackup(d.journal.value, loc) {
      assert Planned(a, loc) && HasPlan(a, loc.side, loc.rel);
    }
  }

  lemma RolledSettled(a: Attempt, d: Disk)
    requires Sound(a) && Rolled(a, d)
    ensures Settled(d) && NoBackups(d)
  {
  }

  /** `e` is `d` up to backup links and the records an accepting recovery writes. */
  ghost predicate Accepting(a: Attempt, d: Disk, e: Disk) {
    && Tracked(a, e) && Undone(a, d, e) && e.commit == d.commit && e.generations == d.generations
    && (SaysCommitted(a, d) ==> SaysCommitted(a, e))
    && forall loc: Loc :: !loc.BackupFile? ==> Same(e.links, d.links, loc)
  }

  /** Accepted to the end. */
  ghost predicate Accepted(a: Attempt, r: Machine) {
    r.status == Running ==> Settled(r.disk) && NoBackups(r.disk) && SaysCommitted(a, r.disk)
  }

  lemma AcceptUnlinks(a: Attempt, m: Machine)
    requires Sound(a) && Tracked(a, m.disk) && m.status == Running && SaysCommitted(a, m.disk)
    ensures
      var r := Run(m, UnlinkOps(a.id, a.plans));
      && Unrefused(r) && (CrashOnly(m) ==> NoThrow(r)) && (m.fates == [] ==> r.status == Running)
      && Accepting(a, m.disk, r.disk) && Accepted(a, r)
  {
    UnlinkRun(m, a.id, a.plans);
    if m.fates == [] { NoFatesNoCrash(m, UnlinkOps(a.id, a.plans)); }
    var r := Run(m, UnlinkOps(a.id, a.plans));
    UnlinkUndoes(a, m.disk, r.disk);
    UndoneKeeps(a, m.disk, r.disk);
    TrackedSettled(a, r.disk);
    if r.status == Running { AllUnlinked(a, r.disk); }
  }

  lemma AcceptingThen(a: Attempt, d: Disk, e: Disk, f: Disk)
    requires Accepting(a, d, e) && Accepting(a, e, f)
    ensures Accepting(a, d, f)
  {
    UndoneThen(a, d, e, f);
    forall loc: Loc | !loc.BackupFile? ensures Same(f.links, d.links, loc) { assert Same(e.links, d.links, loc); }
  }

  lemma AcceptStep(a: Attempt, m: Machine, op: Op, e: Disk)
    requires Tracked(a, m.disk) && m.status == Running && !op.Restore? && Effect(Consume(m), op) == Consume(m).(disk := e)
    requires e.links == m.disk.links && RecordsKept(a, e) && e.commit == m.disk.commit && e.generations == m.disk.generations
    requires SaysCommitted(a, m.disk) ==> SaysCommitted(a, e)
    ensures
      var n := Step(m, op);
      && Unrefused(n) && (CrashOnly(m) ==> NoThrow(n)) && (m.fates == [] ==> n.status == Running && n.fates == [])
      && Accepting(a, m.disk, n.disk) && n.disk.links == m.disk.links && (n.status == Running ==> n.disk == e)
  {
    StepShape(m, op);
    forall side, rel | rel in a.rels ensures BackupFaithful(a, e, side, rel) { assert BackupFaithful(a, m.disk, side, rel); }
  }

  /** The record writes of an accepting recovery, then its cleanup. */
  lemma AcceptWrites(a: Attempt, m: Machine)
    requires Sound(a) && Tracked(a, m.disk) && m.status == Running && m.disk.commit == Some(a.id) && a.id in m.disk.generations
    requires m.disk.journal.value.phase != Committed
    ensures
      var r := Run(m, [PutCurrent(a.record)] + ([PutJournal(a.JournalIn(Committed))] + UnlinkOps(a.id, a.plans)));
      && Unrefused(r) && (CrashOnly(m) ==> NoThrow(r)) && (m.fates == [] ==> r.status == Running)
      && Accepting(a, m.disk, r.disk) && Accepted(a, r)
  {
    assert a.start.commit != Some(a.id);
    hide Step, OwnBackups, AllFaithful, Undone, Settled, CrashOnly;
    var op1, op2, unlinks := PutCurrent(a.record), PutJournal(a.JournalIn(Committed)), UnlinkOps(a.id, a.plans);
    RunCons(m, op1, [op2] + unlinks);
    AcceptStep(a, m, op1, m.disk.(current := Some(a.record)));
    var n := Step(m, op1);
    if n.status != Running { RunStopped(n, [op2] + unlinks); return; }
    RunCons(n, op2, unlinks);
    AcceptStep(a, n, op2, n.disk.(journal := Some(a.JournalIn(Committed))));
    var n2 := Step(n, op2);
    AcceptingThen(a, m.disk, n.disk, n2.disk);
    if n2.status != Running { RunStopped(n2, unlinks); return; }
    AcceptUnlinks(a, n2);
    AcceptingThen(a, m.disk, n2.disk, Run(n2, unlinks).disk);
  }

  /** The guard under which a recovery accepts the attempt. */
  ghost predicate Acceptable(a: Attempt, d: Disk)
    requires d.journal.Some?
  {
    a.id in d.generations && (d.journal.value.phase == Committed || LinksMatch(d, a.target, a.record))
  }

  /** Recovery of a disk whose commit record names the attempt, under any fates. */
  lemma RecoverNamed(a: Attempt, m: Machine, opts: Options)
    requires Sound(a) && Tracked(a, m.disk) && m.status == Running && m.disk.commit == Some(a.id)
    requires opts.source == a.target || opts.target == a.target
    ensures
      var r := Recover(m, opts);
      if Acceptable(a, m.disk)
      then && Unrefused(r) && (CrashOnly(m) ==> NoThrow(r)) && (m.fates == [] ==> r.status == Running)
           && Accepting(a, m.disk, r.disk) && Accepted(a, r)
      else r == Corrupt(m)
  {
    hide Run, OwnBackups, AllFaithful, Undone, Settled, CrashOnly;
    var d := m.disk;
    var unlinks := UnlinkOps(a.id, a.plans);
    if a.id in d.generations && d.journal.value.phase == Committed {
      assert RecoveryProgram(d, opts) == Program(unlinks);
      AcceptUnlinks(a, m);
    } else if a.id in d.generations && LinksMatch(d, a.target, a.record) {
      var op1, op2 := PutCurrent(a.record), PutJournal(a.JournalIn(Committed));
      assert RecoveryProgram(d, opts) == Program([op1, op2] + unlinks);
      assert [op1, op2] + unlinks == [op1] + ([op2] + unlinks);
      AcceptWrites(a, m);
    } else {
      assert RecoveryProgram(d, opts) == Refuse;
    }
  }
}
