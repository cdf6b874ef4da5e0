/**
 * The promises of the handoff journal: crash atomicity, recovery that never
 * refuses a crash of a handoff, an exact inverse and conserved files.
 */
module HandoffTheorems {
  import opened Common
  import opened Handoff
  import opened HandoffInvariant
  import opened HandoffForward
  import opened HandoffRecovery

  /** A fresh process on a disk. */
  function Boot(d: Disk, fates: seq<Fate>): Machine { Machine(d, fates, Running, false) }

  ghost predicate Crashy(fates: seq<Fate>) {
    forall i :: 0 <= i < |fates| ==> fates[i] == Proceed || fates[i] == Crash
  }

  /** A disk of an attempt that recovery can still bring to an end: accepted if
      the commit record names it, undone otherwise. */
  ghost predicate Mendable(a: Attempt, d: Disk) {
    && Tracked(a, d)
    && (if d.commit == Some(a.id) then Acceptable(a, d) else d.journal.value.phase != Committed && AllUndoable(a, d))
  }

  /** Settled, or on the way to it: every disk a crash of an admitted handoff or
      of its recovery can leave is of this kind. */
  ghost predicate Consistent(d: Disk) {
    Settled(d) || exists a :: Sound(a) && Mendable(a, d)
  }

  // ---- One handoff ----

  /** The disk a crash of attempt `a` can leave. */
  ghost predicate CrashState(a: Attempt, d: Disk) {
    d == a.start || Interrupted(a, d) || Fulfilled(a, d)
  }

  lemma TransactCrash(a: Attempt, m: Machine)
    requires Sound(a) && m.disk == a.start && m.status == Running && CrashOnly(m)
    ensures
      var r := Transact(m, a);
      && NoThrow(r) && CrashState(a, r.disk) && (m.fates == [] ==> r.status == Running)
      && (r.status == Running ==> Fulfilled(a, r.disk) && r.disk.journal == Some(a.JournalIn(Committed)))
      && (r.status == Running && !a.retain ==> CommittedTo(a, r.disk))
      && (r.status == Running && a.retain ==> LinksSafe(a, r.disk))
  {
    var op := PutJournal(a.JournalIn(Preparing));
    StepShape(m, op);
    var journalled := Step(m, op);
    if journalled.status != Running {
      RunStopped(journalled, a.ForwardOps());
      BackupsSafe(a, a.start.(journal := Some(a.JournalIn(Preparing))), 0);
    } else {
      ForwardRun(a, journalled);
      if m.fates == [] { NoFatesNoCrash(journalled, a.ForwardOps()); }
    }
  }

  /** Recoveries that each die somewhere, one after another. */
  function Recoveries(d: Disk, opts: Options, fates: seq<seq<Fate>>): Disk
    decreases |fates|
  {
    if fates == [] then d else Recoveries(Recover(Boot(d, fates[0]), opts).disk, opts, fates[1..])
  }

  /** A crash of recovery stays on its side of the commit record. */
  lemma {:induction false} RecoveriesStay(a: Attempt, d: Disk, opts: Options, fates: seq<seq<Fate>>)
    requires Sound(a) && (Interrupted(a, d) || RolledBackTo(a, d) || Fulfilled(a, d))
    requires opts.source == a.target || opts.target == a.target
    requires forall i :: 0 <= i < |fates| ==> Crashy(fates[i])
    ensures
      var e := Recoveries(d, opts, fates);
      && (Interrupted(a, d) || RolledBackTo(a, d) ==> Interrupted(a, e) || RolledBackTo(a, e))
      && (Fulfilled(a, d) ==> Fulfilled(a, e))
    decreases |fates|
  {
    if fates == [] { return; }
    var m := Boot(d, fates[0]);
    assert Crashy(fates[0]) && CrashOnly(m);
    if Fulfilled(a, d) {
      RecoverFulfilled(a, m, opts);
    } else if Interrupted(a, d) {
      RecoverInterrupted(a, m, opts);
    } else {
      RolledBackSettled(a, d);
      RecoverSettled(m, opts);
      BackupFreeUnchanged(d, Recover(m, opts).disk);
    }
    RecoveriesStay(a, Recover(m, opts).disk, opts, fates[1..]);
  }

  lemma RolledBackSettled(a: Attempt, d: Disk)
    requires Sound(a) && RolledBackTo(a, d)
    ensures Settled(d) && NoBackups(d)
  {
  }

  lemma BackupFreeUnchanged(d: Disk, e: Disk)
    requires NoBackups(d) && e == d.(links := e.links)
    requires forall loc: Loc :: !loc.BackupFile? ==> Same(e.links, d.links, loc)
    requires forall loc :: loc in e.links ==> loc in d.links
    ensures e == d
  {
  }

  /**
   * Crash atomicity. A handoff admitted on a settled disk dies at any
   * operation; any number of recoveries die at any operation; one recovery
   * completes. Then every link and record is exactly as before the handoff, or
   * exactly as the handoff makes it, and the commit record at the first crash
   * decides which.
   */
  lemma CrashAtomicity(d: Disk, opts: Options, id: GenerationId, fates: seq<Fate>,
                       again: Options, deaths: seq<seq<Fate>>)
    requires Settled(d) && NoBackups(d) && id !in d.generations && Admission(d, opts).None?
    requires Crashy(fates) && forall i :: 0 <= i < |deaths| ==> Crashy(deaths[i])
    requires opts.target == again.source || opts.target == again.target
    requires var crashed := Transact(Boot(d, fates), Plan(d, opts, id)); crashed.status == Crashed && crashed.disk != d
    ensures
      var a := Plan(d, opts, id);
      var crashed := Transact(Boot(d, fates), a).disk;
      var last := Recover(Boot(Recoveries(crashed, again, deaths), []), again);
      && last.status == Running
      && (crashed.commit == Some(id) ==> CommittedTo(a, last.disk))
      && (crashed.commit != Some(id) ==> RolledBackTo(a, last.disk))
  {
    var a := Plan(d, opts, id);
    PlanIsSound(d, opts, id);
    TransactCrash(a, Boot(d, fates));
    var crashed := Transact(Boot(d, fates), a).disk;
    assert d.commit != Some(id);
    RecoveriesStay(a, crashed, again, deaths);
    var e := Recoveries(crashed, again, deaths);
    var m := Boot(e, []);
    if crashed.commit == Some(id) {
      RecoverFulfilled(a, m, again);
      NeverDies(m, again);
    } else if Interrupted(a, e) {
      RecoverInterrupted(a, m, again);
      NeverDies(m, again);
    } else {
      RolledBackSettled(a, e);
      RecoverSettled(m, again);
      NeverDies(m, again);
      BackupFreeUnchanged(e, Recover(m, again).disk);
    }
  }

  lemma NeverDies(m: Machine, opts: Options)
    requires m.fates == [] && m.status == Running
    ensures Recover(m, opts).status != Crashed
  {
    var p := RecoveryProgram(m.disk, opts);
    if p.Program? { NoFatesNoCrash(m, p.ops); }
  }

  /**
   * Wherever a step of a handoff, a recovery or a rollback stops, the slots of
   * the attempt are original or linked. On every such disk no source path and
   * no unplanned path has changed, and a target path that existed holds the
   * same bytes.
   */
  lemma FilesKept(a: Attempt, d: Disk, profile: ProfileId, rel: Rel)
    requires Sound(a) && SlotsKept(a, d)
    requires ProfileFile(profile, rel) in a.start.links
    ensures ProfileFile(profile, rel) in d.links
    ensures d.links[ProfileFile(profile, rel)].bytes == a.start.links[ProfileFile(profile, rel)].bytes
    ensures profile != a.target || rel !in a.rels || a.source == a.target ==>
      d.links[ProfileFile(profile, rel)] == a.start.links[ProfileFile(profile, rel)]
  {
    var loc := ProfileFile(profile, rel);
    if Planned(a, loc) {
      assert Dest(a.target, TargetSide, rel) == loc;
      assert SlotKept(a, d, TargetSide, rel);
    } else {
      assert Same(d.links, a.start.links, loc);
    }
  }

  // ---- The rollback of a committed handoff ----

  /** A completed rollback of a handoff that kept its backups is its exact inverse. */
  lemma RollbackInverse(d: Disk, opts: Options, id: GenerationId)
    requires Settled(d) && NoBackups(d) && id !in d.generations && Admission(d, opts).None? && opts.retainRollback
    ensures
      var a := Plan(d, opts, id);
      var prepared := Transact(Boot(d, []), a);
      var undone := Rollback(Boot(prepared.disk, []), opts, id);
      && prepared.status == Running && Fulfilled(a, prepared.disk)
      && undone.status == Running && undone.disk == d.(journal := Some(a.JournalIn(RolledBack)))
  {
    var a := Plan(d, opts, id);
    PlanIsSound(d, opts, id);
    var m := Boot(d, []);
    TransactCrash(a, m);
    var prepared := Transact(m, a);
    var n := Boot(prepared.disk, []);
    RollbackRun(a, n, a.JournalIn(Committed));
    NoFatesNoCrash(n, RollbackOps(a.JournalIn(Committed)));
  }

  // ---- Recovery of any disk a crash can leave ----

  lemma CrashMendable(a: Attempt, d: Disk)
    requires Sound(a) && (Interrupted(a, d) || Fulfilled(a, d))
    ensures Mendable(a, d) && Consistent(d)
  {
    SlotsLineage(a, d);
    LineageTracked(a, d);
    SafeIsKept(a, d);
    if Fulfilled(a, d) { FulfilledMatches(a, d); }
  }

  /** Recovery refuses a consistent disk exactly when neither of the profiles it
      was called for is the journal's target: even when that journal is closed. */
  lemma RefusesIff(d: Disk, opts: Options)
    requires Consistent(d)
    ensures RecoveryProgram(d, opts).Refuse? <==> d.journal.Some? && !Resolves(opts, d.journal.value)
  {
    if d.journal.Some? && Resolves(opts, d.journal.value) {
      if Settled(d) {
        RecoverSettled(Boot(d, []), opts);
      } else {
        var a :| Sound(a) && Mendable(a, d);
        MendableProgram(a, d, opts);
      }
    }
  }

  lemma MendableProgram(a: Attempt, d: Disk, opts: Options)
    requires Sound(a) && Mendable(a, d) && Resolves(opts, d.journal.value)
    ensures RecoveryProgram(d, opts).Program?
  {
    hide OwnBackups, AllFaithful, AllUndoable;
    assert a.id in d.generations ==> d.generations[a.id] == a.record && a.record.id == a.id;
    if d.commit != Some(a.id) { assert RecoveryProgram(d, opts) == Program(RollbackOps(d.journal.value)); }
  }

  /** A disk whose journal is closed as rolled back, which a call for another profile cannot recover. */
  lemma ClosedRefused()
    ensures
      var d := Disk(map[], Some(Journal("g", "a", "b", None, RolledBack, [])), None, None, map[]);
      Consistent(d) && RecoveryProgram(d, Options("a", "c", 0, false)).Refuse?
  {
  }

  lemma StillAcceptable(a: Attempt, d: Disk, e: Disk)
    requires Tracked(a, d) && d.commit == Some(a.id) && Acceptable(a, d) && Accepting(a, d, e)
    ensures Mendable(a, e)
  {
    if !SaysCommitted(a, d) {
      forall x | x in a.record.artifacts ensures ArtifactMatches(e, a.target, x) {
        assert Same(e.links, d.links, StoreFile(x.rel)) && Same(e.links, d.links, ProfileFile(a.target, x.rel));
      }
    }
  }

  lemma RecoverMendable(a: Attempt, m: Machine, opts: Options)
    requires Sound(a) && Mendable(a, m.disk) && m.status == Running && !m.failures && CrashOnly(m)
    requires Resolves(opts, m.disk.journal.value)
    ensures
      var r := Recover(m, opts);
      && (Mendable(a, r.disk) || Rolled(a, r.disk)) && !r.status.Failed?
      && (r.status == Running ==> Settled(r.disk) && NoBackups(r.disk))
  {
    hide Run, OwnBackups, AllFaithful, Undone, Settled, CrashOnly, LinksMatch;
    var r := Recover(m, opts);
    if m.disk.commit == Some(a.id) {
      RecoverNamed(a, m, opts);
      StillAcceptable(a, m.disk, r.disk);
    } else {
      MendRollback(a, m, opts);
      if Rolled(a, r.disk) { RolledSettled(a, r.disk); }
    }
  }

  lemma MendRollback(a: Attempt, m: Machine, opts: Options)
    requires Sound(a) && Mendable(a, m.disk) && m.status == Running && !m.failures && CrashOnly(m)
    requires Resolves(opts, m.disk.journal.value) && m.disk.commit != Some(a.id)
    ensures
      var r := Recover(m, opts);
      && (Mendable(a, r.disk) || Rolled(a, r.disk)) && NoThrow(r)
      && (r.status == Running ==> Rolled(a, r.disk))
  {
    hide Run, Undone, AllUndoable, OwnBackups, AllFaithful;
    var j := m.disk.journal.value;
    assert RecoveryProgram(m.disk, opts) == Program(RollbackOps(j));
    UnwindRun(a, m, j);
    var r := Recover(m, opts);
    UndoneKeeps(a, m.disk, r.disk);
    if !Rolled(a, r.disk) { UnwindingKeeps(a, m.disk, r.disk); }
  }

  /** Recovery of any consistent disk keeps it consistent, and completed it settles. */
  lemma RecoverConsistent(m: Machine, opts: Options)
    requires Consistent(m.disk) && m.status == Running && !m.failures && CrashOnly(m)
    ensures
      var r := Recover(m, opts);
      && Consistent(r.disk)
      && (r.status.Failed? <==> m.disk.journal.Some? && !Resolves(opts, m.disk.journal.value))
      && (r.status == Running ==> Settled(r.disk) && NoBackups(r.disk))
  {
    RefusesIff(m.disk, opts);
    if RecoveryProgram(m.disk, opts).Refuse? || m.disk.journal.None? { return; }
    if Settled(m.disk) {
      RecoverSettled(m, opts);
    } else {
      var a :| Sound(a) && Mendable(a, m.disk);
      RecoverMendable(a, m, opts);
      if Rolled(a, Recover(m, opts).disk) { RolledSettled(a, Recover(m, opts).disk); }
    }
  }

  /** Recovery never invents an immutable generation. */
  lemma {:induction false} NoNewGenerations(m: Machine, ops: seq<Op>)
    requires forall i :: 0 <= i < |ops| ==> !ops[i].PutImmutable?
    ensures forall id :: id in Run(m, ops).disk.generations ==> id in m.disk.generations
    decreases |ops|
  {
    if ops != [] { NoNewGenerations(Step(m, ops[0]), ops[1..]); }
  }

  lemma {:induction false} RestoreOpsKind(gen: GenerationId, target: ProfileId, plans: seq<LinkPlan>)
    ensures forall i :: 0 <= i < |RestoreOps(gen, target, plans)| ==> RestoreOps(gen, target, plans)[i].Restore?
    decreases |plans|
  {
    if plans != [] { RestoreOpsKind(gen, target, plans[1..]); }
  }

  lemma {:induction false} UnlinkOpsKind(gen: GenerationId, plans: seq<LinkPlan>)
    ensures forall i :: 0 <= i < |UnlinkOps(gen, plans)| ==> UnlinkOps(gen, plans)[i].Unlink?
    decreases |plans|
  {
    if plans != [] { UnlinkOpsKind(gen, plans[1..]); }
  }

  lemma RecoverGenerations(m: Machine, opts: Options)
    requires m.status == Running
    ensures forall id :: id in Recover(m, opts).disk.generations ==> id in m.disk.generations
  {
    var p := RecoveryProgram(m.disk, opts);
    if p.Program? && m.disk.journal.Some? {
      var j := m.disk.journal.value;
      RestoreOpsKind(j.generation, j.target, j.links);
      UnlinkOpsKind(j.generation, j.links);
      NoNewGenerations(m, p.ops);
    }
  }
}
