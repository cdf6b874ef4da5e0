/** The forward program of a handoff under every sequence of fates. */
module HandoffForward {
  import opened Common
  import opened Handoff
  import opened HandoffInvariant

  // ---- Backups ----

  ghost predicate NoThrow(m: Machine) { CrashOnly(m) && !m.status.Failed? }

  ghost predicate NoBackup(a: Attempt, d: Disk, p: LinkPlan) {
    BackupFile(a.id, p.side, p.rel) !in d.links
  }

  ghost predicate BackupsUpTo(a: Attempt, d: Disk, k: nat)
    requires k <= |a.plans|
  {
    && Uncommitted(a, d) && Frame(a, d) && AllOriginal(a, d) && AllFaithful(a, d)
    && (forall i :: 0 <= i < k ==> BackedUp(a, d, a.plans[i].side, a.plans[i].rel))
    && (forall i :: k <= i < |a.plans| ==> NoBackup(a, d, a.plans[i]))
  }

  lemma BackupEffect(a: Attempt, m: Machine, k: nat)
    requires m.status == Running && k < |a.plans| && PlansSound(a) && BackupsUpTo(a, m.disk, k) && a.plans[k].existed
    ensures
      var n := Effect(m, LinkBackup(a.id, a.target, a.plans[k]));
      n.status == Running && BackupsUpTo(a, n.disk, k + 1)
  {
    var plan := a.plans[k];
    var dest, backup := Dest(a.target, plan.side, plan.rel), BackupFile(a.id, plan.side, plan.rel);
    assert Faithful(a, plan) && Original(a, m.disk, plan.side, plan.rel) && NoBackup(a, m.disk, plan);
    var n := Effect(m, LinkBackup(a.id, a.target, plan));
    assert n.disk.links == m.disk.links[backup := m.disk.links[dest]];
    forall side, rel | rel in a.rels
      ensures Original(a, n.disk, side, rel) && BackupFaithful(a, n.disk, side, rel)
    {
      assert Original(a, m.disk, side, rel) && BackupFaithful(a, m.disk, side, rel);
    }
    forall i | k + 1 <= i < |a.plans| ensures NoBackup(a, n.disk, a.plans[i]) {
      assert NoBackup(a, m.disk, a.plans[i]);
    }
    forall i | 0 <= i < k + 1 ensures BackedUp(a, n.disk, a.plans[i].side, a.plans[i].rel) {
      if i < k { assert BackedUp(a, m.disk, a.plans[i].side, a.plans[i].rel); }
    }
    assert Planned(a, backup);
  }

  lemma BackupsSafe(a: Attempt, d: Disk, k: nat)
    requires k <= |a.plans| && BackupsUpTo(a, d, k)
    ensures Interrupted(a, d)
  {
  }

  lemma {:induction false} BackupRun(a: Attempt, m: Machine, k: nat)
    requires k <= |a.plans| && m.status == Running && PlansSound(a) && BackupsUpTo(a, m.disk, k)
    ensures
      var r := Run(m, BackupOps(a.id, a.target, a.plans[k..]));
      && Unrefused(r) && Interrupted(a, r.disk) && (CrashOnly(m) ==> NoThrow(r))
      && (r.status == Running ==> BackupsUpTo(a, r.disk, |a.plans|))
    decreases |a.plans| - k
  {
    BackupsSafe(a, m.disk, k);
    if k == |a.plans| { return; }
    var rest := BackupOps(a.id, a.target, a.plans[k + 1..]);
    assert a.plans[k..][0] == a.plans[k] && a.plans[k..][1..] == a.plans[k + 1..];
    if !a.plans[k].existed {
      assert BackupOps(a.id, a.target, a.plans[k..]) == [] + rest == rest;
      BackupRun(a, m, k + 1);
    } else {
      var op := LinkBackup(a.id, a.target, a.plans[k]);
      assert BackupOps(a.id, a.target, a.plans[k..]) == [op] + rest;
      RunCons(m, op, rest);
      BackupEffect(a, Consume(m), k);
      StepShape(m, op);
      var n := Step(m, op);
      if n.status == Running {
        BackupRun(a, n, k + 1);
      } else {
        RunStopped(n, rest);
        if n.disk != m.disk { BackupsSafe(a, n.disk, k + 1); }
      }
    }
  }

  // ---- Relinking ----

  ghost predicate Protected(a: Attempt, d: Disk) { Interrupted(a, d) && AllBackedUp(a, d) }

  /** Replacing a backed-up destination keeps every slot undoable. */
  lemma RelinkEffect(a: Attempt, m: Machine, side: Side, rel: Rel)
    requires m.status == Running && SourcesPresent(a) && Protected(a, m.disk) && rel in a.rels
    ensures
      var n := Effect(m, Relink(ProfileFile(a.source, rel), Dest(a.target, side, rel)));
      && n.status == Running && Protected(a, n.disk) && Linked(a, n.disk, side, rel)
      && forall s, r :: r in a.rels && Linked(a, m.disk, s, r) ==> Linked(a, n.disk, s, r)
  {
    SourceIntact(a, m.disk, rel);
    var dest := Dest(a.target, side, rel);
    var n := Effect(m, Relink(ProfileFile(a.source, rel), dest));
    assert n.disk.links == m.disk.links[dest := a.start.links[ProfileFile(a.source, rel)]];
    assert Planned(a, dest);
    forall s, r | r in a.rels ensures SlotSafe(a, n.disk, s, r) && BackedUp(a, n.disk, s, r) {
      assert SlotSafe(a, m.disk, s, r) && BackedUp(a, m.disk, s, r);
    }
  }

  ghost predicate LinkedUpTo(a: Attempt, d: Disk, k: nat)
    requires k <= |a.rels|
  {
    Protected(a, d) && forall i, side {:trigger Linked(a, d, side, a.rels[i])} :: 0 <= i < k ==> Linked(a, d, side, a.rels[i])
  }

  /** One artifact: its store link, then its target link. */
  lemma RelinkPair(a: Attempt, m: Machine, k: nat)
    requires m.status == Running && SourcesPresent(a) && k < |a.rels| && LinkedUpTo(a, m.disk, k)
    ensures
      var n := Step(Step(m, Relink(ProfileFile(a.source, a.rels[k]), StoreFile(a.rels[k]))),
                    Relink(ProfileFile(a.source, a.rels[k]), ProfileFile(a.target, a.rels[k])));
      && Unrefused(n) && Protected(a, n.disk) && (CrashOnly(m) ==> NoThrow(n))
      && (n.status == Running ==> LinkedUpTo(a, n.disk, k + 1))
  {
    var rel := a.rels[k];
    var from := ProfileFile(a.source, rel);
    var op1, op2 := Relink(from, Dest(a.target, StoreSide, rel)), Relink(from, Dest(a.target, TargetSide, rel));
    RelinkEffect(a, Consume(m), StoreSide, rel);
    StepShape(m, op1);
    var n := Step(m, op1);
    if n.status == Running {
      RelinkEffect(a, Consume(n), TargetSide, rel);
      StepShape(n, op2);
      var n2 := Step(n, op2);
      forall i, side | 0 <= i < k + 1 && n2.status == Running ensures Linked(a, n2.disk, side, a.rels[i]) {
        if i < k { assert Linked(a, m.disk, side, a.rels[i]); }
      }
    }
  }

  lemma {:induction false} RelinkRun(a: Attempt, m: Machine, k: nat)
    requires k <= |a.rels| && m.status == Running && SourcesPresent(a) && LinkedUpTo(a, m.disk, k)
    ensures
      var r := Run(m, RelinkOps(a.source, a.target, a.rels[k..]));
      && Unrefused(r) && Protected(a, r.disk) && (CrashOnly(m) ==> NoThrow(r))
      && (r.status == Running ==> LinkedUpTo(a, r.disk, |a.rels|))
    decreases |a.rels| - k
  {
    if k == |a.rels| { return; }
    var rel := a.rels[k];
    var op1, op2 := Relink(ProfileFile(a.source, rel), StoreFile(rel)), Relink(ProfileFile(a.source, rel), ProfileFile(a.target, rel));
    var rest := RelinkOps(a.source, a.target, a.rels[k + 1..]);
    assert a.rels[k..][0] == rel && a.rels[k..][1..] == a.rels[k + 1..];
    assert RelinkOps(a.source, a.target, a.rels[k..]) == [op1] + ([op2] + rest);
    RunCons(m, op1, [op2] + rest);
    RunCons(Step(m, op1), op2, rest);
    RelinkPair(a, m, k);
    var n := Step(Step(m, op1), op2);
    if n.status == Running { RelinkRun(a, n, k + 1); } else { RunStopped(n, rest); }
  }

  // ---- Removing backups ----

  ghost predicate BackupOf(gen: GenerationId, plans: seq<LinkPlan>, loc: Loc) {
    loc.BackupFile? && loc.generation == gen && exists i :: 0 <= i < |plans| && plans[i].side == loc.side && plans[i].rel == loc.rel
  }

  /** `e` is `d` with some backup links of the given plans gone, and nothing else. */
  ghost predicate OnlyBackupsGone(d: Disk, e: Disk, gen: GenerationId, plans: seq<LinkPlan>) {
    && e == d.(links := e.links)
    && forall loc :: Same(e.links, d.links, loc) || (loc !in e.links && BackupOf(gen, plans, loc))
  }

  lemma {:induction false} UnlinkRun(m: Machine, gen: GenerationId, plans: seq<LinkPlan>)
    requires m.status == Running
    ensures
      var r := Run(m, UnlinkOps(gen, plans));
      && Unrefused(r) && r.failures == m.failures
      && OnlyBackupsGone(m.disk, r.disk, gen, plans)
      && (CrashOnly(m) ==> NoThrow(r))
      && (r.status == Running ==> forall i :: 0 <= i < |plans| ==> BackupFile(gen, plans[i].side, plans[i].rel) !in r.disk.links)
    decreases |plans|
  {
    if plans == [] { assert Run(m, UnlinkOps(gen, plans)) == m; return; }
    var op, rest := Unlink(BackupFile(gen, plans[0].side, plans[0].rel)), UnlinkOps(gen, plans[1..]);
    RunCons(m, op, rest);
    StepShape(m, op);
    var n := Step(m, op);
    var loc0 := BackupFile(gen, plans[0].side, plans[0].rel);
    assert BackupOf(gen, plans, loc0);
    assert OnlyBackupsGone(m.disk, n.disk, gen, plans);
    if n.status != Running { RunStopped(n, rest); return; }
    UnlinkRun(n, gen, plans[1..]);
    var r := Run(n, rest);
    if r.status == Running {
      forall i | 0 <= i < |plans| ensures BackupFile(gen, plans[i].side, plans[i].rel) !in r.disk.links {
        if i > 0 { assert plans[i] == plans[1..][i - 1]; }
      }
    }
  }

  /** Losing backup links of the attempt's own plans keeps the committed links in place. */
  lemma CleanupKeeps(a: Attempt, d: Disk, e: Disk)
    requires PlansSound(a) && Fulfilled(a, d) && OnlyBackupsGone(d, e, a.id, a.plans)
    ensures Fulfilled(a, e)
  {
    forall loc | !Planned(a, loc) ensures Same(e.links, a.start.links, loc) {
      assert Same(d.links, a.start.links, loc);
      assert !BackupOf(a.id, a.plans, loc);
    }
    forall side, rel | rel in a.rels
      ensures Linked(a, e, side, rel) && BackupFaithful(a, e, side, rel)
    {
      assert Linked(a, d, side, rel) && BackupFaithful(a, d, side, rel);
    }
  }

  /** A removed backup directory leaves no backup at all. */
  lemma CleanupCompletes(a: Attempt, d: Disk)
    requires Sound(a) && Fulfilled(a, d) && d.journal == Some(a.JournalIn(Committed))
    requires forall i :: 0 <= i < |a.plans| ==> BackupFile(a.id, a.plans[i].side, a.plans[i].rel) !in d.links
    ensures CommittedTo(a, d)
  {
    forall loc | loc in d.links ensures !loc.BackupFile? {
      assert Planned(a, loc) || Same(d.links, a.start.links, loc);
      assert loc.BackupFile? && Planned(a, loc) ==> HasPlan(a, loc.side, loc.rel);
    }
  }

  // ---- The whole forward program ----

  /** Everything up to the immutable record leaves the attempt undoable. */
  lemma LinkingRun(a: Attempt, m: Machine)
    requires m.status == Running && SourcesPresent(a) && PlansSound(a) && BackupsUpTo(a, m.disk, 0)
    ensures
      var r := Run(m, a.LinkingOps());
      && Unrefused(r) && Interrupted(a, r.disk) && (CrashOnly(m) ==> NoThrow(r))
      && (r.status == Running ==> Protected(a, r.disk) && AllLinked(a, r.disk))
  {
    var backups, relinks := BackupOps(a.id, a.target, a.plans), RelinkOps(a.source, a.target, a.rels);
    RunConcat(m, backups, relinks);
    assert a.plans[0..] == a.plans && a.rels[0..] == a.rels;
    BackupRun(a, m, 0);
    var n := Run(m, backups);
    if n.status != Running { RunStopped(n, relinks); return; }
    forall side, rel | rel in a.rels ensures BackedUp(a, n.disk, side, rel) {
      assert HasPlan(a, side, rel);
    }
    RelinkRun(a, n, 0);
    var r := Run(n, relinks);
    if r.status == Running {
      forall side, rel | rel in a.rels ensures Linked(a, r.disk, side, rel) {
        var i :| 0 <= i < |a.rels| && a.rels[i] == rel;
        assert Linked(a, r.disk, side, a.rels[i]);
      }
    }
  }

  /** Between the links and the cleanup a disk can be undone, whichever records are written. */
  ghost predicate Undoable(a: Attempt, d: Disk) {
    LinksSafe(a, d) && AllLinked(a, d) && AllBackedUp(a, d) && (Uncommitted(a, d) || Named(a, d))
  }

  lemma UndoableEither(a: Attempt, d: Disk)
    requires Undoable(a, d)
    ensures Interrupted(a, d) || Fulfilled(a, d)
  {
    forall side, rel | rel in a.rels ensures BackupFaithful(a, d, side, rel) { assert SlotSafe(a, d, side, rel); }
  }

  lemma RecordKeeps(a: Attempt, d: Disk, e: Disk)
    requires Undoable(a, d) && e.links == d.links && (Uncommitted(a, e) || Named(a, e))
    ensures Undoable(a, e)
  {
    forall side, rel | rel in a.rels
      ensures SlotSafe(a, e, side, rel) && Linked(a, e, side, rel) && BackedUp(a, e, side, rel)
    {
      assert SlotSafe(a, d, side, rel) && Linked(a, d, side, rel) && BackedUp(a, d, side, rel);
    }
  }

  /** One record write inside the commit sequence. */
  lemma RecordStep(a: Attempt, m: Machine, op: Op, e: Disk)
    requires Undoable(a, m.disk) && Unrefused(m)
    requires m.status == Running ==> !op.Restore? && Effect(Consume(m), op) == Consume(m).(disk := e)
    requires m.status == Running ==> e.links == m.disk.links && (Uncommitted(a, e) || Named(a, e))
    ensures
      var n := Step(m, op);
      Unrefused(n) && Undoable(a, n.disk) && (NoThrow(m) ==> NoThrow(n)) && (n.status == Running ==> m.status == Running && n.disk == e)
  {
    if m.status == Running {
      StepShape(m, op);
      RecordKeeps(a, m.disk, e);
    }
  }

  /** The disk once the immutable record and the prepared journal are written. */
  ghost predicate Ready(a: Attempt, d: Disk) {
    && d.journal == Some(a.JournalIn(Prepared)) && d.commit == a.start.commit && d.current == a.start.current
    && d.generations == a.start.generations[a.id := a.record]
  }

  lemma PreparedWrites(a: Attempt, m: Machine)
    requires m.status == Running && Protected(a, m.disk) && AllLinked(a, m.disk) && a.id == a.record.id
    ensures
      var n := Step(Step(m, PutImmutable(a.record)), PutJournal(a.JournalIn(Prepared)));
      && Unrefused(n) && Undoable(a, n.disk) && (CrashOnly(m) ==> NoThrow(n))
      && (n.status == Running ==> Ready(a, n.disk))
  {
    var e := m.disk.(generations := a.start.generations[a.id := a.record]);
    assert m.disk.generations[a.id := a.record] == a.start.generations[a.id := a.record];
    RecordStep(a, m, PutImmutable(a.record), e);
    RecordStep(a, Step(m, PutImmutable(a.record)), PutJournal(a.JournalIn(Prepared)), e.(journal := Some(a.JournalIn(Prepared))));
  }

  lemma CommitWrites(a: Attempt, m: Machine)
    requires Unrefused(m) && Undoable(a, m.disk) && (m.status == Running ==> Ready(a, m.disk))
    ensures
      var n := Step(Step(Step(m, PutCommit(a.id)), PutCurrent(a.record)), PutJournal(a.JournalIn(Committed)));
      && Unrefused(n) && Undoable(a, n.disk) && (NoThrow(m) ==> NoThrow(n))
      && (n.status == Running ==> Named(a, n.disk) && n.disk.journal == Some(a.JournalIn(Committed)))
  {
    var e1 := m.disk.(commit := Some(a.id));
    RecordStep(a, m, PutCommit(a.id), e1);
    var m1 := Step(m, PutCommit(a.id));
    var e2 := e1.(current := Some(a.record));
    RecordStep(a, m1, PutCurrent(a.record), e2);
    var m2 := Step(m1, PutCurrent(a.record));
    RecordStep(a, m2, PutJournal(a.JournalIn(Committed)), e2.(journal := Some(a.JournalIn(Committed))));
  }

  lemma CommitRun(a: Attempt, m: Machine)
    requires m.status == Running && Protected(a, m.disk) && AllLinked(a, m.disk) && a.id == a.record.id
    ensures
      var r := Run(m, a.CommitOps());
      && Unrefused(r) && Undoable(a, r.disk) && (CrashOnly(m) ==> NoThrow(r))
      && (r.status == Running ==> Named(a, r.disk) && r.disk.journal == Some(a.JournalIn(Committed)))
  {
    RunFive(m, a.CommitOps());
    PreparedWrites(a, m);
    CommitWrites(a, Step(Step(m, PutImmutable(a.record)), PutJournal(a.JournalIn(Prepared))));
  }

  /** The forward program, stopped anywhere: undoable or fulfilled; run to its end: committed. */
  lemma ForwardRun(a: Attempt, m: Machine)
    requires Sound(a) && m.status == Running && BackupsUpTo(a, m.disk, 0)
    ensures
      var r := Run(m, a.ForwardOps());
      && Unrefused(r) && (CrashOnly(m) ==> NoThrow(r))
      && (Interrupted(a, r.disk) || Fulfilled(a, r.disk))
      && (r.status == Running ==> Fulfilled(a, r.disk) && r.disk.journal == Some(a.JournalIn(Committed)))
      && (r.status == Running && !a.retain ==> CommittedTo(a, r.disk))
      && (a.retain || !Fulfilled(a, r.disk) ==> LinksSafe(a, r.disk))
      && (r.status == Running && a.retain ==> AllBackedUp(a, r.disk))
  {
    var linking, commit, cleanup := a.LinkingOps(), a.CommitOps(), a.CleanupOps();
    RunConcat(m, linking + commit, cleanup);
    RunConcat(m, linking, commit);
    LinkingRun(a, m);
    var n := Run(m, linking);
    if n.status != Running {
      RunStopped(n, commit);
      RunStopped(n, cleanup);
      return;
    }
    CommitRun(a, n);
    var c := Run(n, commit);
    UndoableEither(a, c.disk);
    if c.status != Running {
      RunStopped(c, cleanup);
    } else if !a.retain {
      UnlinkRun(c, a.id, a.plans);
      var r := Run(c, cleanup);
      CleanupKeeps(a, c.disk, r.disk);
      if r.status == Running { CleanupCompletes(a, r.disk); }
    }
  }
}
