/** Which calls are refused: the admission of a handoff, and the guard of a rollback or finalization. */
module HandoffGuards {
  import opened Common
  import opened Handoff
  import opened HandoffInvariant
  import opened HandoffForward
  import opened HandoffRecovery
  import opened HandoffTheorems
  import opened HandoffConfirm
  import opened HandoffRuns

  // ---- Admission ----

  ghost predicate HasTranscript(d: Disk, opts: Options) { ProfileFile(opts.source, opts.transcript) in d.links }

  /** Every file of the target profile is in the source profile too, with the same bytes. */
  ghost predicate TargetCovered(d: Disk, opts: Options) {
    forall rel :: ProfileFile(opts.target, rel) in d.links ==> CoveredAt(d, opts, rel)
  }

  ghost predicate CoveredAt(d: Disk, opts: Options, rel: Rel)
    requires ProfileFile(opts.target, rel) in d.links
  {
    && ProfileFile(opts.source, rel) in d.links
    && d.links[ProfileFile(opts.source, rel)].bytes == d.links[ProfileFile(opts.target, rel)].bytes
  }

  lemma AdmissionMeaning(d: Disk, opts: Options)
    ensures Admission(d, opts)
         == if !HasTranscript(d, opts) then Some(MissingTranscript)
            else if !TargetCovered(d, opts) then Some(SessionConflict)
            else None
  {
    if HasTranscript(d, opts) && TargetCovered(d, opts) {
      forall r | r in Envelope(d, opts.target) ensures CoveredAt(d, opts, r) { }
      forall r | r in Envelope(d, opts.source) && ProfileFile(opts.target, r) in d.links ensures CoveredAt(d, opts, r) { }
    }
    if HasTranscript(d, opts) && !TargetCovered(d, opts) {
      var rel :| ProfileFile(opts.target, rel) in d.links && !CoveredAt(d, opts, rel);
      assert rel in Envelope(d, opts.target);
    }
  }

  /** Recovery of a settled store drops leftover backups and nothing else. */
  ghost predicate Swept(d: Disk, e: Disk) {
    && e == d.(links := e.links) && NoBackups(e)
    && forall loc: Loc :: !loc.BackupFile? ==> Same(e.links, d.links, loc)
  }

  lemma SweptSame(d: Disk, e: Disk, opts: Options)
    requires Swept(d, e)
    ensures HasTranscript(e, opts) == HasTranscript(d, opts) && TargetCovered(e, opts) == TargetCovered(d, opts)
  {
    forall profile: ProfileId, rel ensures Same(e.links, d.links, ProfileFile(profile, rel)) { }
    if TargetCovered(d, opts) {
      forall rel | ProfileFile(opts.target, rel) in e.links ensures CoveredAt(e, opts, rel) { assert CoveredAt(d, opts, rel); }
    }
    if TargetCovered(e, opts) {
      forall rel | ProfileFile(opts.target, rel) in d.links ensures CoveredAt(d, opts, rel) { assert CoveredAt(e, opts, rel); }
    }
  }

  /** The new generation is committed, and every source file is in store and target as the same inode. */
  ghost predicate HandedOn(d: Disk, e: Disk, opts: Options, id: GenerationId) {
    && e.commit == Some(id) && e.current.Some? && e.current.value.id == id
    && e.current.value.source == opts.source && e.current.value.target == opts.target
    && forall rel :: ProfileFile(opts.source, rel) in d.links ==>
         && StoreFile(rel) in e.links && e.links[StoreFile(rel)] == d.links[ProfileFile(opts.source, rel)]
         && ProfileFile(opts.target, rel) in e.links && e.links[ProfileFile(opts.target, rel)] == d.links[ProfileFile(opts.source, rel)]
  }

  /**
   * A handoff on a settled store that nothing disturbs: it refuses a journal
   * for other profiles, a missing transcript and a target profile with a file
   * the source lacks or holds differently, in that order and without changing
   * more than leftover backups; every other handoff ends normally, committed.
   */
  lemma PrepareRefusesIff(d: Disk, opts: Options, id: GenerationId)
    requires Settled(d) && id !in d.generations
    ensures
      var r := Prepare(Boot(d, []), opts, id);
      if d.journal.Some? && d.journal.value.target != opts.source && d.journal.value.target != opts.target
      then r.status == Failed(StoreCorrupt) && r.disk == d
      else if !HasTranscript(d, opts) then r.status == Failed(MissingTranscript) && Swept(d, r.disk)
      else if !TargetCovered(d, opts) then r.status == Failed(SessionConflict) && Swept(d, r.disk)
      else r.status == Running && HandedOn(d, r.disk, opts, id)
  {
    var m := Boot(d, []);
    if d.journal.Some? && !Resolves(opts, d.journal.value) { return; }
    RecoverSettled(m, opts);
    NeverDies(m, opts);
    hide Transact, Settled, Run;
    var swept := Recover(m, opts);
    assert Swept(d, swept.disk);
    SweptSame(d, swept.disk, opts);
    AdmissionMeaning(swept.disk, opts);
    RecoverFates(m, opts);
    if Admission(swept.disk, opts).None? { AdmittedHandsOn(d, swept, opts, id); }
  }

  lemma RecoverFates(m: Machine, opts: Options)
    requires m.status == Running && m.fates == []
    ensures Recover(m, opts).fates == []
  {
    var p := RecoveryProgram(m.disk, opts);
    if p.Program? { NoFatesNoCrash(m, p.ops); }
  }

  lemma AdmittedHandsOn(d: Disk, m: Machine, opts: Options, id: GenerationId)
    requires m.status == Running && m.fates == [] && Settled(m.disk) && Swept(d, m.disk)
    requires id !in m.disk.generations && Admission(m.disk, opts).None?
    ensures
      var r := Transact(m, Plan(m.disk, opts, id));
      r.status == Running && HandedOn(d, r.disk, opts, id)
  {
    var a := Plan(m.disk, opts, id);
    PlanIsSound(m.disk, opts, id);
    TransactCrash(a, m);
    var e := Transact(m, a).disk;
    forall rel | ProfileFile(opts.source, rel) in d.links
      ensures StoreFile(rel) in e.links && e.links[StoreFile(rel)] == d.links[ProfileFile(opts.source, rel)]
      ensures ProfileFile(opts.target, rel) in e.links
      ensures e.links[ProfileFile(opts.target, rel)] == d.links[ProfileFile(opts.source, rel)]
    {
      assert Same(m.disk.links, d.links, ProfileFile(opts.source, rel)) && rel in a.rels;
      assert Linked(a, e, StoreSide, rel) && Linked(a, e, TargetSide, rel);
    }
  }

  // ---- The guard of a rollback or a finalization ----

  /** The journal is committed, of the generation the caller names. */
  ghost predicate NamedByCaller(d: Disk, id: GenerationId) {
    exists j :: d.journal == Some(j) && j.generation == id && j.phase == Committed
  }

  lemma {:induction false} FatesSpent(m: Machine, ops: seq<Op>)
    requires m.status == Running && m.fates != [] && ops != []
    ensures |Run(m, ops).fates| < |m.fates|
    decreases |ops|
  {
    FatesOnlySpent(Step(m, ops[0]), ops[1..]);
    EffectFrame(Consume(m), ops[0]);
    hide Effect;
  }

  lemma {:induction false} FatesOnlySpent(m: Machine, ops: seq<Op>)
    ensures |Run(m, ops).fates| <= |m.fates|
    decreases |ops|
  {
    hide Effect;
    if ops != [] {
      EffectFrame(Consume(m), ops[0]);
      FatesOnlySpent(Step(m, ops[0]), ops[1..]);
    }
  }

  /**
   * With no journal, one of another generation, or one that is not committed,
   * rollback and finalization refuse before their first operation, under any
   * fates; and only then do they.
   */
  lemma GuardRefusesIff(m: Machine, opts: Options, id: GenerationId)
    requires m.status == Running
    ensures !NamedByCaller(m.disk, id) ==>
      Rollback(m, opts, id) == m.(status := Failed(StoreCorrupt)) && Finalize(m, id) == m.(status := Failed(StoreCorrupt))
    ensures NamedByCaller(m.disk, id) && m.fates != [] ==>
      && |Rollback(m, opts, id).fates| < |m.fates|
      && (|Finalize(m, id).fates| < |m.fates| || Finalize(m, id) == m)
  {
    if NamedByCaller(m.disk, id) && m.fates != [] {
      var j := m.disk.journal.value;
      FatesSpent(m, RollbackUnder(j, opts.target));
      if UnlinkOps(id, j.links) != [] { FatesSpent(m, UnlinkOps(id, j.links)); }
    }
    hide Run;
  }

  /**
   * A rollback or finalization for an older handoff, after a later one of the
   * session ended normally and whoever visited the store then: nothing changes.
   */
  lemma LateUndoRefused(d: Disk, opts: Options, id: GenerationId, fates: seq<Fate>, visits: seq<Visit>,
                        older: Options, olderId: GenerationId, again: seq<Fate>)
    requires Reach(Nothing, d) && id !in d.generations && olderId != id
    requires Prepare(Boot(d, fates), opts, id).status == Running
    ensures
      var v := VisitAll(Prepare(Boot(d, fates), opts, id).disk, visits);
      && Rollback(Boot(v, again), older, olderId) == Boot(v, again).(status := Failed(StoreCorrupt))
      && Finalize(Boot(v, again), olderId) == Boot(v, again).(status := Failed(StoreCorrupt))
  {
    hide Prepare, Recover, Rollback, Finalize, Reach, VisitAll;
    PrepareReach(Nothing, Boot(d, fates), opts, id);
    var r := Prepare(Boot(d, fates), opts, id);
    var a := Plan(Recover(Boot(d, fates), opts).disk, opts, id);
    VisitsDelivered(Nothing, a, r.disk, opts, id, visits);
    NothingTaken(r.disk, visits);
    GuardRefusesIff(Boot(VisitAll(r.disk, visits), again), older, olderId);
  }
}
