/**
 * Where the journal's protection ends: exactly when a rollback completes, which
 * throws the inline rollback does not survive, and what confirming a start may
 * remove.
 */
module HandoffLimits {
  import opened Common
  import opened Handoff
  import opened HandoffInvariant
  import opened HandoffForward
  import opened HandoffRecovery
  import opened HandoffTheorems

  // ---- When a rollback completes ----

  /** A slot whose original inode no link the rollback reads still holds. */
  ghost predicate Lost(gen: GenerationId, target: ProfileId, links: map<Loc, Inode>, p: LinkPlan) {
    var dest := Dest(target, p.side, p.rel);
    && p.existed && BackupFile(gen, p.side, p.rel) !in links
    && !(dest in links && p.original == Some(links[dest]))
  }

  ghost predicate SomeLost(a: Attempt, links: map<Loc, Inode>, k: nat)
    requires k <= |a.plans|
  {
    exists i :: k <= i < |a.plans| && Lost(a.id, a.target, links, a.plans[i])
  }

  /** One turn fails exactly when its slot is lost, and loses or finds no other. */
  lemma RestoreTurn(a: Attempt, m: Machine, k: nat)
    requires PlansSound(a) && k < |a.plans| && m.status == Running && m.fates == []
    ensures
      var n := Effect(m, Restore(a.id, a.target, a.plans[k]));
      && n.status == Running && n.fates == [] && (n.failures <==> m.failures || Lost(a.id, a.target, m.disk.links, a.plans[k]))
      && (forall i :: 0 <= i < k ==> Lost(a.id, a.target, n.disk.links, a.plans[i]) == Lost(a.id, a.target, m.disk.links, a.plans[i]))
  {
    var after := Effect(m, Restore(a.id, a.target, a.plans[k])).disk.links;
    forall i | 0 <= i < k ensures Lost(a.id, a.target, after, a.plans[i]) == Lost(a.id, a.target, m.disk.links, a.plans[i]) {
      assert Dest(a.target, a.plans[i].side, a.plans[i].rel) != Dest(a.target, a.plans[k].side, a.plans[k].rel);
    }
  }

  /** The restore loop fails exactly when some slot is lost, and reports it only at the end. */
  lemma {:induction false} RestoreFailures(a: Attempt, m: Machine, k: nat)
    requires PlansSound(a) && k <= |a.plans| && m.status == Running && m.fates == []
    ensures
      var r := Run(m, RestoreOps(a.id, a.target, a.plans[k..]));
      && r.status == Running && r.fates == []
      && (r.failures <==> m.failures || SomeLost(a, m.disk.links, k))
      && (forall i :: 0 <= i < k ==> Lost(a.id, a.target, r.disk.links, a.plans[i]) == Lost(a.id, a.target, m.disk.links, a.plans[i]))
    decreases |a.plans| - k
  {
    if k == |a.plans| { return; }
    assert a.plans[k..][0] == a.plans[k] && a.plans[k..][1..] == a.plans[k + 1..];
    var later, op := RestoreOps(a.id, a.target, a.plans[k + 1..]), Restore(a.id, a.target, a.plans[k]);
    RestoreFailures(a, m, k + 1);
    RunConcat(m, later, [op]);
    var n := Run(m, later);
    assert Run(n, [op]) == Step(n, op) == Effect(n, op);
    hide Effect, Lost;
    var links := m.disk.links;
    RestoreTurn(a, n, k);
    assert SomeLost(a, links, k) <==> Lost(a.id, a.target, links, a.plans[k]) || SomeLost(a, links, k + 1);
  }

  /** Nothing is lost exactly when every slot can still be undone. */
  lemma SafeIffNoneLost(a: Attempt, d: Disk)
    requires PlansSound(a)
    ensures AllUndoable(a, d) <==> !SomeLost(a, d.links, 0)
    ensures SlotsKept(a, d) ==> (LinksSafe(a, d) <==> !SomeLost(a, d.links, 0))
  {
    if AllUndoable(a, d) {
      forall i | 0 <= i < |a.plans| ensures !Lost(a.id, a.target, d.links, a.plans[i]) {
        var p := a.plans[i];
        assert Faithful(a, p) && (BackedUp(a, d, p.side, p.rel) || Original(a, d, p.side, p.rel));
      }
    }
    if !SomeLost(a, d.links, 0) {
      forall side, rel | rel in a.rels ensures BackedUp(a, d, side, rel) || Original(a, d, side, rel) {
        assert HasPlan(a, side, rel);
        var i :| 0 <= i < |a.plans| && a.plans[i].side == side && a.plans[i].rel == rel;
        assert Faithful(a, a.plans[i]) && !Lost(a.id, a.target, d.links, a.plans[i]);
      }
    }
    SafeIsKept(a, d);
  }

  ghost predicate BackupsRemoved(a: Attempt, links: map<Loc, Inode>) {
    forall i :: 0 <= i < |a.plans| ==> BackupFile(a.id, a.plans[i].side, a.plans[i].rel) !in links
  }

  /** After a failed restore loop the backups are still removed, and then the rollback refuses. */
  lemma FailedRestoreRefuses(a: Attempt, m: Machine, j: Journal)
    requires m.status == Running && m.fates == [] && m.failures
    ensures
      var r := Run(m, UnlinkOps(a.id, a.plans) + RecordOps(j));
      r.status == Failed(StoreCorrupt) && BackupsRemoved(a, r.disk.links) && r.disk == m.disk.(links := r.disk.links)
  {
    var unlinks, records := UnlinkOps(a.id, a.plans), RecordOps(j);
    RunConcat(m, unlinks, records);
    UnlinkRun(m, a.id, a.plans);
    NoFatesNoThrow(m, a.id, a.plans);
    FailedRecords(Run(m, unlinks), j);
  }

  /**
   * A rollback that nothing interrupts completes exactly when every existing
   * destination still has its backup or its original inode; otherwise it
   * refuses, after having removed every backup, and no record has changed. It
   * puts every slot and record back, and the whole disk if no other link went.
   */
  lemma RollbackCompletesIff(a: Attempt, d: Disk, j: Journal)
    requires Sound(a) && j == a.JournalIn(j.phase)
    requires AllFaithful(a, d) && OwnBackups(a, d) && OldOrNewGenerations(a, d)
    ensures
      var r := Run(Boot(d, []), RollbackOps(j));
      && (SomeLost(a, d.links, 0) ==>
            r.status == Failed(StoreCorrupt) && BackupsRemoved(a, r.disk.links) && r.disk == d.(links := r.disk.links))
      && (!SomeLost(a, d.links, 0) ==>
            r.status == Running && Rolled(a, r.disk) && (Frame(a, d) ==> RolledBackTo(a, r.disk)))
  {
    var m := Boot(d, []);
    SafeIffNoneLost(a, d);
    UnwindRun(a, m, j);
    if AllUndoable(a, d) {
      NoFatesNoCrash(m, RollbackOps(j));
      var r := Run(m, RollbackOps(j));
      if Frame(a, d) { FrameUndone(a, d, r.disk); }
      RolledExactly(a, r.disk);
    } else {
      var restores, rest := RestoreOps(a.id, a.target, a.plans), UnlinkOps(a.id, a.plans) + RecordOps(j);
      assert RollbackOps(j) == restores + rest;
      RunConcat(m, restores, rest);
      assert a.plans[0..] == a.plans;
      RestoreFailures(a, m, 0);
      RestoreRun(a, m, 0);
      FailedRestoreRefuses(a, Run(m, restores), j);
    }
  }

  lemma FrameUndone(a: Attempt, d: Disk, e: Disk)
    requires Frame(a, d) && Undone(a, d, e)
    ensures Frame(a, e)
  {
    forall loc | !Planned(a, loc) ensures Same(e.links, a.start.links, loc) { assert Same(e.links, d.links, loc); }
  }

  lemma {:induction false} NoFatesNoThrow(m: Machine, gen: GenerationId, plans: seq<LinkPlan>)
    requires m.status == Running && m.fates == []
    ensures Run(m, UnlinkOps(gen, plans)).status == Running && Run(m, UnlinkOps(gen, plans)).fates == []
    decreases |plans|
  {
    if plans != [] {
      var op := Unlink(BackupFile(gen, plans[0].side, plans[0].rel));
      RunCons(m, op, UnlinkOps(gen, plans[1..]));
      NoFatesNoThrow(Step(m, op), gen, plans[1..]);
    }
  }

  // ---- Throws and the inline rollback ----

  /**
   * A throw anywhere in a handoff whose inline rollback nothing interrupts. The
   * rollback restores the disk exactly, even after the commit record was
   * written, or, if some slot was lost, fails and leaves the records alone.
   */
  lemma InlineRollback(a: Attempt, m: Machine)
    requires Sound(a) && m.disk == a.start && m.status == Running
    requires
      var journalled := Step(m, PutJournal(a.JournalIn(Preparing)));
      var done := Run(journalled, a.ForwardOps());
      journalled.status == Running && done.status.Failed? && done.fates == []
    ensures
      var done := Run(Step(m, PutJournal(a.JournalIn(Preparing))), a.ForwardOps());
      var r := Transact(m, a);
      && (!SomeLost(a, done.disk.links, 0) ==> r.status == Failed(IoFailure) && RolledBackTo(a, r.disk))
      && (SomeLost(a, done.disk.links, 0) ==>
            r.status == Failed(RollbackFailed) && BackupsRemoved(a, r.disk.links) && r.disk == done.disk.(links := r.disk.links))
  {
    var op := PutJournal(a.JournalIn(Preparing));
    StepShape(m, op);
    var journalled := Step(m, op);
    ForwardRun(a, journalled);
    var done := Run(journalled, a.ForwardOps());
    SlotsLineage(a, done.disk);
    LineageTracked(a, done.disk);
    assert done.(status := Running, failures := false) == Boot(done.disk, []);
    RollbackCompletesIff(a, done.disk, a.JournalIn(Preparing));
  }

  /** No slot is lost before the first backup is removed, so only a cleanup can lose one. */
  lemma LostOnlyInCleanup(a: Attempt, m: Machine)
    requires Sound(a) && m.status == Running && BackupsUpTo(a, m.disk, 0)
    ensures
      var before := Run(m, a.LinkingOps() + a.CommitOps());
      var done := Run(m, a.ForwardOps());
      && !SomeLost(a, before.disk.links, 0)
      && (SomeLost(a, done.disk.links, 0) ==>
            !a.retain && before.status == Running && Fulfilled(a, done.disk) && done.disk.journal == Some(a.JournalIn(Committed)))
  {
    var linking, commit, cleanup := a.LinkingOps(), a.CommitOps(), a.CleanupOps();
    RunConcat(m, linking + commit, cleanup);
    RunConcat(m, linking, commit);
    LinkingRun(a, m);
    var n := Run(m, linking);
    if n.status == Running { CommitRun(a, n); } else { RunStopped(n, commit); }
    var before := Run(n, commit);
    SafeIsKept(a, before.disk);
    SafeIffNoneLost(a, before.disk);
    if before.status != Running {
      RunStopped(before, cleanup);
    } else if !a.retain {
      UndoableEither(a, before.disk);
      UnlinkRun(before, a.id, a.plans);
      CleanupKeeps(a, before.disk, Run(before, cleanup).disk);
    }
  }

  // ---- Running up to a chosen operation ----

  function Proceeds(n: nat): (fates: seq<Fate>)
    ensures |fates| == n && forall i :: 0 <= i < n ==> fates[i] == Proceed
  {
    if n == 0 then [] else [Proceed] + Proceeds(n - 1)
  }

  lemma StepProceeds(m: Machine, op: Op, rest: seq<Fate>)
    requires m.status == Running && m.fates == [Proceed] + rest
    ensures Step(m, op) == Step(m.(fates := []), op).(fates := rest)
  {
    assert m.fates[0] == Proceed && m.fates[1..] == rest;
  }

  lemma ProceedsSplit(n: nat, rest: seq<Fate>)
    requires n > 0
    ensures Proceeds(n) + rest == [Proceed] + (Proceeds(n - 1) + rest)
  {
  }

  /** A run that nothing disturbs spends one fate on each operation. */
  lemma {:induction false} RunProceeds(m: Machine, ops: seq<Op>, rest: seq<Fate>)
    requires m.status == Running && m.fates == Proceeds(|ops|) + rest && Run(m.(fates := []), ops).status == Running
    ensures Run(m, ops) == Run(m.(fates := []), ops).(fates := rest)
    decreases |ops|
  {
    hide Effect, Throw, Step;
    if ops == [] {
      assert m.fates == rest;
    } else {
      ProceedsSplit(|ops|, rest);
      StepProceeds(m, ops[0], Proceeds(|ops| - 1) + rest);
      var n, calm := Step(m, ops[0]), Step(m.(fates := []), ops[0]);
      assert calm.status == Running by {
        if calm.status != Running { RunStopped(calm, ops[1..]); }
      }
      RunOne(m.(fates := []), ops[0]);
      NoFatesNoCrash(m.(fates := []), [ops[0]]);
      assert n.(fates := []) == calm;
      RunProceeds(n, ops[1..], rest);
    }
  }

  lemma Admitted(d: Disk, opts: Options, id: GenerationId) returns (a: Attempt, m: Machine)
    requires Settled(d) && NoBackups(d) && id !in d.generations && Admission(d, opts).None?
    ensures a == Plan(d, opts, id) && Sound(a) && opts.transcript in a.rels && a.plans != []
    ensures m == Boot(d.(journal := Some(a.JournalIn(Preparing))), []) && BackupsUpTo(a, m.disk, 0)
  {
    a := Plan(d, opts, id);
    PlanIsSound(d, opts, id);
    assert HasPlan(a, StoreSide, opts.transcript);
    m := Boot(d.(journal := Some(a.JournalIn(Preparing))), []);
  }

  lemma JournalFirst(a: Attempt, rest: seq<Fate>)
    ensures
      Step(Boot(a.start, [Proceed] + rest), PutJournal(a.JournalIn(Preparing)))
      == Boot(a.start.(journal := Some(a.JournalIn(Preparing))), rest)
  {
    var m := Boot(a.start, [Proceed] + rest);
    assert m.fates[0] == Proceed && m.fates[1..] == rest;
  }

  // ---- A throw in the cleanup ----

  /** The last backup removal throws after it has taken effect. */
  function LateThrow(a: Attempt): seq<Fate> { [Proceed] + (Proceeds(|a.ForwardOps()| - 1) + [FailAfter]) }

  lemma {:induction false} LastIsUnlink(gen: GenerationId, plans: seq<LinkPlan>)
    requires plans != []
    ensures UnlinkOps(gen, plans) != [] && UnlinkOps(gen, plans)[|UnlinkOps(gen, plans)| - 1].Unlink?
    decreases |plans|
  {
    if |plans| > 1 { LastIsUnlink(gen, plans[1..]); }
  }

  lemma RunOne(m: Machine, op: Op)
    ensures Run(m, [op]) == Step(m, op)
  {
    RunCons(m, op, []);
    assert [op] + [] == [op];
  }

  lemma RemovedThenThrown(m: Machine, op: Op)
    requires m.status == Running && m.fates == [] && op.Unlink?
    ensures
      var n := Step(m.(fates := [FailAfter]), op);
      n.status == Failed(IoFailure) && n.fates == [] && n.disk == Step(m, op).disk
  {
  }

  /** A throw after the effect of a last removal: the disk is that of the undisturbed run. */
  lemma ThrowAtEnd(m: Machine, most: seq<Op>, last: Op)
    requires m.status == Running && m.fates == [] && last.Unlink? && Run(m, most + [last]).status == Running
    ensures
      var done := Run(m.(fates := Proceeds(|most|) + [FailAfter]), most + [last]);
      done.status == Failed(IoFailure) && done.fates == [] && done.disk == Run(m, most + [last]).disk
  {
    hide Run, Step;
    RunConcat(m, most, [last]);
    var calm := Run(m, most);
    if calm.status != Running { RunStopped(calm, [last]); }
    NoFatesNoCrash(m, most);
    RunOne(calm, last);
    var thrown := m.(fates := Proceeds(|most|) + [FailAfter]);
    RunConcat(thrown, most, [last]);
    assert thrown.(fates := []) == m;
    RunProceeds(thrown, most, [FailAfter]);
    RunOne(calm.(fates := [FailAfter]), last);
    RemovedThenThrown(calm, last);
  }

  lemma LateThrowRun(a: Attempt, m: Machine)
    requires Sound(a) && !a.retain && a.plans != [] && m.status == Running && m.fates == [] && BackupsUpTo(a, m.disk, 0)
    ensures
      var done := Run(m.(fates := Proceeds(|a.ForwardOps()| - 1) + [FailAfter]), a.ForwardOps());
      done.status == Failed(IoFailure) && done.fates == [] && CommittedTo(a, done.disk)
  {
    hide Step;
    LastIsUnlink(a.id, a.plans);
    var ops := a.ForwardOps();
    var most, last := ops[..|ops| - 1], ops[|ops| - 1];
    assert ops == most + [last] && last == a.CleanupOps()[|a.CleanupOps()| - 1];
    ForwardRun(a, m);
    NoFatesNoCrash(m, ops);
    ThrowAtEnd(m, most, last);
  }

  /** A destination that held another inode than the source. */
  ghost predicate Replaces(a: Attempt, p: LinkPlan) {
    p.existed && ProfileFile(a.source, p.rel) in a.start.links && p.original != Some(a.start.links[ProfileFile(a.source, p.rel)])
  }

  /**
   * A throw at the end of the cleanup, on every admitted disk: the rollback
   * fails exactly when the handoff had replaced a file, and the disk it leaves
   * is the committed one or the old one.
   */
  lemma CleanupThrow(d: Disk, opts: Options, id: GenerationId)
    requires Settled(d) && NoBackups(d) && id !in d.generations && Admission(d, opts).None? && !opts.retainRollback
    ensures
      var a := Plan(d, opts, id);
      var r := Transact(Boot(d, LateThrow(a)), a);
      if exists i :: 0 <= i < |a.plans| && Replaces(a, a.plans[i])
      then r.status == Failed(RollbackFailed) && r.disk.commit == Some(id) && r.disk.journal == Some(a.JournalIn(Committed))
      else r.status == Failed(IoFailure) && RolledBackTo(a, r.disk)
  {
    var a, m := Admitted(d, opts, id);
    var start := Boot(d, LateThrow(a));
    JournalFirst(a, Proceeds(|a.ForwardOps()| - 1) + [FailAfter]);
    LateThrowRun(a, m);
    InlineRollback(a, start);
    var done := Run(Step(start, PutJournal(a.JournalIn(Preparing))), a.ForwardOps());
    forall i | 0 <= i < |a.plans| ensures Lost(a.id, a.target, done.disk.links, a.plans[i]) == Replaces(a, a.plans[i]) {
      assert Faithful(a, a.plans[i]) && Linked(a, done.disk, a.plans[i].side, a.plans[i].rel);
    }
  }

  // ---- Confirming a start ----

  /** What removing source links may change: each removed one leaves its inode in the store. */
  ghost predicate OnlySourceGone(d: Disk, e: Disk, source: ProfileId) {
    && e == d.(links := e.links)
    && forall loc :: Same(e.links, d.links, loc)
         || (loc.ProfileFile? && loc.profile == source && loc in d.links && loc !in e.links
             && StoreFile(loc.rel) in e.links && e.links[StoreFile(loc.rel)] == d.links[loc])
  }

  lemma GoneThen(d: Disk, e: Disk, f: Disk, source: ProfileId)
    requires OnlySourceGone(d, e, source) && OnlySourceGone(e, f, source)
    ensures OnlySourceGone(d, f, source)
  {
    forall l | !Same(f.links, d.links, l)
      ensures l.ProfileFile? && l.profile == source && l in d.links && l !in f.links
      ensures StoreFile(l.rel) in f.links && f.links[StoreFile(l.rel)] == d.links[l]
    {
      if Same(f.links, e.links, l) {
        assert !Same(e.links, d.links, l);
        assert Same(f.links, e.links, StoreFile(l.rel));
      } else {
        assert Same(e.links, d.links, l);
      }
    }
  }

  /** A source link that is gone or differs stays so while only source links go. */
  lemma StaysDifferent(d: Disk, e: Disk, source: ProfileId, rel: Rel)
    requires OnlySourceGone(d, e, source) && !SameFile(d, source, rel)
    ensures !SameFile(e, source, rel)
  {
    assert Same(e.links, d.links, StoreFile(rel));
    assert ProfileFile(source, rel) in e.links ==> Same(e.links, d.links, ProfileFile(source, rel));
  }

  /** One turn of the confirmation. */
  function ConfirmOne(m: Machine, source: ProfileId, rel: Rel): Machine {
    if SameFile(m.disk, source, rel) then Step(m, Unlink(ProfileFile(source, rel))) else m
  }

  lemma ConfirmStep(m: Machine, source: ProfileId, rel: Rel)
    ensures
      var n := ConfirmOne(m, source, rel);
      && OnlySourceGone(m.disk, n.disk, source)
      && (m.status != Running ==> n.status == m.status)
      && (n.status == Running ==> !SameFile(n.disk, source, rel))
  {
    if m.status == Running && SameFile(m.disk, source, rel) { StepShape(m, Unlink(ProfileFile(source, rel))); }
    hide Step;
  }

  lemma {:induction false} ConfirmRun(m: Machine, source: ProfileId, artifacts: seq<Artifact>)
    ensures
      var r := ConfirmLinks(m, source, artifacts);
      && OnlySourceGone(m.disk, r.disk, source)
      && (m.status != Running ==> r.status == m.status)
      && (r.status == Running ==> forall i :: 0 <= i < |artifacts| ==> !SameFile(r.disk, source, artifacts[i].rel))
    decreases |artifacts|
  {
    hide Step, SameFile, OnlySourceGone;
    if artifacts == [] {
      NothingGone(m.disk, source);
      return;
    }
    var n := ConfirmOne(m, source, artifacts[0].rel);
    ConfirmStep(m, source, artifacts[0].rel);
    ConfirmRun(n, source, artifacts[1..]);
    var r := ConfirmLinks(n, source, artifacts[1..]);
    GoneThen(m.disk, n.disk, r.disk, source);
    forall i | 0 <= i < |artifacts| && r.status == Running ensures !SameFile(r.disk, source, artifacts[i].rel) {
      if i == 0 {
        StaysDifferent(n.disk, r.disk, source, artifacts[0].rel);
      } else {
        assert artifacts[i] == artifacts[1..][i - 1];
      }
    }
  }

  lemma NothingGone(d: Disk, source: ProfileId)
    ensures OnlySourceGone(d, d, source)
  {
  }

  /**
   * Whatever happens to it, a confirmation removes only source links whose
   * store link is the same inode, and that store link stays: no artifact loses
   * its last link. Run to its end it leaves exactly the source links that differ.
   */
  lemma ConfirmKeepsArtifacts(m: Machine, record: Generation)
    requires m.status == Running && record.source != record.target
    ensures
      var r := Confirm(m, record);
      && OnlySourceGone(m.disk, r.disk, record.source)
      && (r.status == Running ==> forall i :: 0 <= i < |record.artifacts| ==> !SameFile(r.disk, record.source, record.artifacts[i].rel))
  {
    ConfirmRun(m, record.source, record.artifacts);
  }
}
