/** What recovery, and each operation it is made of, does on any disk whatever. */
module HandoffOutcomes {
  import opened Common
  import opened Handoff
  import opened HandoffInvariant
  import opened HandoffGuards

  // ---- One operation ----

  /** An operation that nothing disturbs fails exactly for one of four reasons;
      it then changes nothing, and says what kind of failure it is. */
  lemma OpFailsIff(m: Machine, op: Op)
    requires m.status == Running && m.fates == []
    ensures
      var n, links := Step(m, op), m.disk.links;
      && (n.status == Failed(IoFailure) <==>
            match op
            case LinkBackup(gen, target, plan) =>
              Dest(target, plan.side, plan.rel) !in links || BackupFile(gen, plan.side, plan.rel) in links
            case Relink(from, _) => from !in links
            case _ => false)
      && (n.status == Failed(StoreCorrupt) <==>
            match op
            case RestoreCurrent(id) => id !in m.disk.generations
            case CheckRestored => m.failures
            case _ => false)
      && (n.status == Running || n.status == Failed(IoFailure) || n.status == Failed(StoreCorrupt))
      && (n.status != Running ==> n.disk == m.disk)
      && (n.failures != m.failures <==>
            match op
            case Restore(gen, target, plan) =>
              var dest := Dest(target, plan.side, plan.rel);
              !m.failures && plan.existed && BackupFile(gen, plan.side, plan.rel) !in links
              && (dest !in links || plan.original != Some(links[dest]))
            case _ => false)
  {
  }

  /** A death, or a throw before the effect, leaves the disk; a throw after it
      leaves the disk the effect made. Only a throw of the restore loop does not
      stop the program, and none changes the failure an operation met itself. */
  lemma FateOutcome(m: Machine, op: Op)
    requires m.status == Running && m.fates != []
    ensures
      var n, later := Step(m, op), m.(fates := m.fates[1..]);
      var e := Step(m.(fates := []), op);
      match m.fates[0]
      case Proceed => n == e.(fates := later.fates)
      case Crash => n == later.(status := Crashed)
      case FailBefore => n == if op.Restore? then later.(failures := true) else later.(status := Failed(IoFailure))
      case FailAfter =>
        n == if e.status != Running then e.(fates := later.fates)
             else if op.Restore? then e.(fates := later.fates, failures := true)
             else e.(fates := later.fates, status := Failed(IoFailure))
  {
  }

  // ---- Recovery ----

  /** Store and target hold the artifact as one inode of the recorded size. */
  ghost predicate Paired(d: Disk, target: ProfileId, a: Artifact) {
    && StoreFile(a.rel) in d.links && ProfileFile(target, a.rel) in d.links
    && d.links[StoreFile(a.rel)] == d.links[ProfileFile(target, a.rel)]
    && |d.links[StoreFile(a.rel)].bytes| == a.size
  }

  /** The journal is not closed, and commit.json names its generation. */
  ghost predicate Named(d: Disk, j: Journal) { j.phase != RolledBack && d.commit == Some(j.generation) }

  /** The generation's record is there, is its own, and every artifact is in place. */
  ghost predicate InPlace(d: Disk, j: Journal) {
    && j.generation in d.generations && d.generations[j.generation].id == j.generation
    && forall a :: a in d.generations[j.generation].artifacts ==> Paired(d, j.target, a)
  }

  /** Why recovery refuses: a target it cannot name, a committed generation that
      is missing or not in place, or a commit record of an unrelated generation. */
  ghost predicate Unrecoverable(d: Disk, opts: Options, j: Journal) {
    || (j.target != opts.target && j.target != opts.source)
    || (Named(d, j) && (j.generation !in d.generations || (j.phase != Committed && !InPlace(d, j))))
    || (j.phase != RolledBack && !Named(d, j) && (j.phase == Committed || (d.commit.Some? && d.commit != j.previous)))
  }

  /** The links without the backups of the journal. */
  ghost predicate BackupsGone(d: Disk, links: map<Loc, Inode>, j: Journal) {
    forall loc: Loc ::
      if exists p :: p in j.links && loc == BackupFile(j.generation, p.side, p.rel) then loc !in links
      else (loc in links <==> loc in d.links) && (loc in d.links ==> links[loc] == d.links[loc])
  }

  lemma {:induction false} Unlinked(m: Machine, j: Journal, plans: seq<LinkPlan>)
    requires m.status == Running && m.fates == []
    ensures
      var n := Run(m, UnlinkOps(j.generation, plans));
      && n == m.(disk := m.disk.(links := n.disk.links))
      && BackupsGone(m.disk, n.disk.links, j.(links := plans))
    decreases |plans|
  {
    if plans != [] {
      var op := Unlink(BackupFile(j.generation, plans[0].side, plans[0].rel));
      RunCons(m, op, UnlinkOps(j.generation, plans[1..]));
      Unlinked(Step(m, op), j, plans[1..]);
      assert forall p :: p in plans <==> p == plans[0] || p in plans[1..];
    }
  }

  /**
   * Recovery on any disk: it refuses, before its first operation, if and only
   * if the journal is unrecoverable. Undisturbed, it does nothing without a
   * journal; of a closed or a completed one it drops the backups; a commit that
   * was only named is completed from the immutable record; any other journal
   * is rolled back.
   */
  lemma RecoverOutcome(m: Machine, opts: Options)
    requires m.status == Running
    ensures
      var r, d := Recover(m, opts), m.disk;
      match d.journal
      case None => r == m
      case Some(j) =>
        && (Unrecoverable(d, opts, j) ==> r == m.(status := Failed(StoreCorrupt)))
        && (!Unrecoverable(d, opts, j) && m.fates != [] ==> r == m || |r.fates| < |m.fates|)
        && (!Unrecoverable(d, opts, j) && m.fates == [] ==>
              && (j.phase == RolledBack || (Named(d, j) && j.phase == Committed) ==>
                    r == m.(disk := d.(links := r.disk.links)) && BackupsGone(d, r.disk.links, j))
              && (Named(d, j) && j.phase != Committed ==>
                    && r == m.(disk := d.(links := r.disk.links, current := Some(d.generations[j.generation]),
                                          journal := Some(j.(phase := Committed))))
                    && BackupsGone(d, r.disk.links, j))
              && (j.phase != RolledBack && !Named(d, j) ==> r == Run(m, RollbackUnder(j, j.target))))
  {
    if m.disk.journal.None? { return; }
    var d, j := m.disk, m.disk.journal.value;
    if Unrecoverable(d, opts, j) {
      RefusesThere(d, opts, j);
    } else {
      ProgramThere(d, opts, j);
      var ops := RecoveryProgram(d, opts).ops;
      if m.fates != [] && ops != [] { FatesSpent(m, ops); }
      if m.fates == [] { RecoverUndisturbed(m, opts, j); }
    }
    hide RecoveryProgram, Unrecoverable, Named, Run;
  }

  lemma RefusesThere(d: Disk, opts: Options, j: Journal)
    requires d.journal == Some(j) && Unrecoverable(d, opts, j)
    ensures RecoveryProgram(d, opts) == Refuse
  {
  }

  /** The program of a recovery that does not refuse. */
  lemma ProgramThere(d: Disk, opts: Options, j: Journal)
    requires d.journal == Some(j) && !Unrecoverable(d, opts, j)
    ensures
      var unlinks := UnlinkOps(j.generation, j.links);
      && (Named(d, j) ==> j.generation in d.generations)
      && RecoveryProgram(d, opts) == Program(
           if j.phase == RolledBack || (Named(d, j) && j.phase == Committed) then unlinks
           else if Named(d, j) then [PutCurrent(d.generations[j.generation]), PutJournal(j.(phase := Committed))] + unlinks
           else RollbackOps(j))
  {
    hide UnlinkOps, RollbackOps;
    if j.generation in d.generations {
      assert LinksMatch(d, j.target, d.generations[j.generation])
        <==> forall a :: a in d.generations[j.generation].artifacts ==> Paired(d, j.target, a);
    }
  }

  lemma RecoverUndisturbed(m: Machine, opts: Options, j: Journal)
    requires m.status == Running && m.fates == [] && m.disk.journal == Some(j) && !Unrecoverable(m.disk, opts, j)
    ensures
      var r, d := Recover(m, opts), m.disk;
      && (j.phase == RolledBack || (Named(d, j) && j.phase == Committed) ==>
            r == m.(disk := d.(links := r.disk.links)) && BackupsGone(d, r.disk.links, j))
      && (Named(d, j) && j.phase != Committed ==>
            && j.generation in d.generations
            && r == m.(disk := d.(links := r.disk.links, current := Some(d.generations[j.generation]),
                                  journal := Some(j.(phase := Committed))))
            && BackupsGone(d, r.disk.links, j))
      && (j.phase != RolledBack && !Named(d, j) ==> r == Run(m, RollbackOps(j)))
  {
    ProgramThere(m.disk, opts, j);
    hide RecoveryProgram, Unrecoverable, BackupsGone, RollbackOps;
    var unlinks := UnlinkOps(j.generation, j.links);
    assert j.(links := j.links) == j;
    if j.phase == RolledBack || (Named(m.disk, j) && j.phase == Committed) {
      Unlinked(m, j, j.links);
    } else if Named(m.disk, j) {
      var put, close := PutCurrent(m.disk.generations[j.generation]), PutJournal(j.(phase := Committed));
      var named := Step(Step(m, put), close);
      assert [put, close] + unlinks == [put] + ([close] + unlinks);
      RunCons(m, put, [close] + unlinks);
      RunCons(Step(m, put), close, unlinks);
      Unlinked(named, j, j.links);
      SameLinks(m.disk, named.disk, Run(named, unlinks).disk.links, j);
    }
    hide Run, UnlinkOps;
  }

  lemma SameLinks(d: Disk, e: Disk, links: map<Loc, Inode>, j: Journal)
    requires d.links == e.links && BackupsGone(e, links, j)
    ensures BackupsGone(d, links, j)
  {
  }

  // ---- Rolling back any journal ----

  /** The journal plans no location twice. */
  ghost predicate PlannedOnce(plans: seq<LinkPlan>) {
    forall i, k :: 0 <= i < k < |plans| ==> plans[i].side != plans[k].side || plans[i].rel != plans[k].rel
  }

  ghost predicate Planned(plans: seq<LinkPlan>, target: ProfileId, loc: Loc) {
    exists p :: p in plans && loc == Dest(target, p.side, p.rel)
  }

  /** What a restore makes of one planned location: nothing if nothing was there,
      the backup if there is one, else what it finds. */
  ghost predicate PutBack(links: map<Loc, Inode>, after: map<Loc, Inode>, gen: GenerationId, target: ProfileId, p: LinkPlan) {
    var dest, backup := Dest(target, p.side, p.rel), BackupFile(gen, p.side, p.rel);
    if !p.existed then dest !in after
    else if backup in links then dest in after && after[dest] == links[backup]
    else Same(after, links, dest)
  }

  /** The location was changed and its backup is gone. */
  ghost predicate LostSlot(links: map<Loc, Inode>, gen: GenerationId, target: ProfileId, p: LinkPlan) {
    var dest := Dest(target, p.side, p.rel);
    p.existed && BackupFile(gen, p.side, p.rel) !in links && (dest !in links || p.original != Some(links[dest]))
  }

  ghost predicate AllPutBack(links: map<Loc, Inode>, after: map<Loc, Inode>, gen: GenerationId, target: ProfileId, plans: seq<LinkPlan>) {
    && (forall p :: p in plans ==> PutBack(links, after, gen, target, p))
    && (forall loc: Loc :: !Planned(plans, target, loc) ==> Same(after, links, loc))
  }

  lemma RestoreStep(m: Machine, gen: GenerationId, target: ProfileId, p: LinkPlan)
    requires m.status == Running && m.fates == []
    ensures
      var n := Step(m, Restore(gen, target, p));
      && n == m.(disk := m.disk.(links := n.disk.links), failures := n.failures)
      && PutBack(m.disk.links, n.disk.links, gen, target, p)
      && (forall loc: Loc :: loc != Dest(target, p.side, p.rel) ==> Same(n.disk.links, m.disk.links, loc))
      && (n.failures <==> m.failures || LostSlot(m.disk.links, gen, target, p))
  {
  }

  /** A slot's outcome depends only on its own location and backup. */
  lemma SlotDepends(a: map<Loc, Inode>, b: map<Loc, Inode>, x: map<Loc, Inode>, y: map<Loc, Inode>,
                    gen: GenerationId, target: ProfileId, p: LinkPlan)
    requires Same(a, b, Dest(target, p.side, p.rel)) && Same(a, b, BackupFile(gen, p.side, p.rel))
    requires Same(x, y, Dest(target, p.side, p.rel))
    ensures PutBack(a, x, gen, target, p) == PutBack(b, y, gen, target, p)
    ensures LostSlot(a, gen, target, p) == LostSlot(b, gen, target, p)
  {
  }

  lemma {:induction false} Restored(m: Machine, gen: GenerationId, target: ProfileId, plans: seq<LinkPlan>)
    requires m.status == Running && m.fates == [] && PlannedOnce(plans)
    ensures
      var n := Run(m, RestoreOps(gen, target, plans));
      && n == m.(disk := m.disk.(links := n.disk.links), failures := n.failures)
      && AllPutBack(m.disk.links, n.disk.links, gen, target, plans)
      && (n.failures <==> m.failures || exists p :: p in plans && LostSlot(m.disk.links, gen, target, p))
    decreases |plans|
  {
    if plans == [] { return; }
    var first, rest := plans[0], plans[1..];
    Restored(m, gen, target, rest);
    var mid := Run(m, RestoreOps(gen, target, rest));
    var op := Restore(gen, target, first);
    RunConcat(m, RestoreOps(gen, target, rest), [op]);
    RunOneOp(mid, op);
    RestoreStep(mid, gen, target, first);
    assert forall p :: p in plans <==> p == first || p in rest;
    OneMoreSlot(m.disk.links, mid.disk.links, Step(mid, op).disk.links, gen, target, plans);
    hide Run, Step, PutBack, LostSlot, AllPutBack, Same;
  }

  lemma OneMoreSlot(a: map<Loc, Inode>, b: map<Loc, Inode>, c: map<Loc, Inode>, gen: GenerationId, target: ProfileId, plans: seq<LinkPlan>)
    requires plans != [] && PlannedOnce(plans) && AllPutBack(a, b, gen, target, plans[1..])
    requires PutBack(b, c, gen, target, plans[0])
    requires forall loc: Loc :: loc != Dest(target, plans[0].side, plans[0].rel) ==> Same(c, b, loc)
    ensures AllPutBack(a, c, gen, target, plans)
    ensures LostSlot(a, gen, target, plans[0]) == LostSlot(b, gen, target, plans[0])
  {
    var first, rest := plans[0], plans[1..];
    var dest, backup := Dest(target, first.side, first.rel), BackupFile(gen, first.side, first.rel);
    assert !Planned(rest, target, dest) && !Planned(rest, target, backup);
    assert Same(b, a, dest) && Same(b, a, backup);
    SlotDepends(a, b, c, c, gen, target, first);
    assert forall p :: p in plans <==> p == first || p in rest;
    forall p | p in rest ensures PutBack(a, c, gen, target, p) {
      assert Same(c, b, Dest(target, p.side, p.rel));
      SlotDepends(a, a, b, c, gen, target, p);
    }
    forall loc: Loc | !Planned(plans, target, loc) ensures Same(c, a, loc) {
      assert !Planned(rest, target, loc) && loc != dest;
      assert Same(b, a, loc) && Same(c, b, loc);
    }
    hide PutBack, LostSlot;
  }

  lemma RunOneOp(m: Machine, op: Op)
    ensures Run(m, [op]) == Step(m, op)
  {
    RunCons(m, op, []);
    assert [op] + [] == [op];
  }

  /** The links after the restore and the removal of the backups. */
  ghost predicate LinksUndone(links: map<Loc, Inode>, after: map<Loc, Inode>, j: Journal, target: ProfileId) {
    && (forall p :: p in j.links ==> PutBack(links, after, j.generation, target, p))
    && forall loc: Loc :: !Planned(j.links, target, loc) ==>
         if exists p :: p in j.links && loc == BackupFile(j.generation, p.side, p.rel) then loc !in after else Same(after, links, loc)
  }

  lemma LinksBack(m: Machine, j: Journal, target: ProfileId)
    requires m.status == Running && m.fates == [] && PlannedOnce(j.links)
    ensures
      var n := Run(m, RestoreOps(j.generation, target, j.links) + UnlinkOps(j.generation, j.links));
      && n == m.(disk := m.disk.(links := n.disk.links), failures := n.failures)
      && LinksUndone(m.disk.links, n.disk.links, j, target)
      && (n.failures <==> m.failures || exists p :: p in j.links && LostSlot(m.disk.links, j.generation, target, p))
  {
    var restores, unlinks := RestoreOps(j.generation, target, j.links), UnlinkOps(j.generation, j.links);
    RunConcat(m, restores, unlinks);
    Restored(m, j.generation, target, j.links);
    var mid := Run(m, restores);
    Unlinked(mid, j, j.links);
    assert j.(links := j.links) == j;
    var n := Run(mid, unlinks);
    forall p | p in j.links ensures PutBack(m.disk.links, n.disk.links, j.generation, target, p) {
      assert PutBack(m.disk.links, mid.disk.links, j.generation, target, p);
      assert Same(n.disk.links, mid.disk.links, Dest(target, p.side, p.rel));
    }
    hide Run, RestoreOps, UnlinkOps, PutBack, LostSlot, Planned;
  }

  /** The records after a rollback whose links went back. */
  ghost predicate RecordsUndone(d: Disk, e: Disk, j: Journal) {
    && e == d.(links := e.links, journal := Some(j.(phase := RolledBack)), commit := j.previous, current := e.current,
               generations := e.generations)
    && e.generations == d.generations - {j.generation}
    && (if j.previous.None? then e.current == None
        else j.previous.value in e.generations && e.current == Some(e.generations[j.previous.value]))
  }

  lemma RecordsBack(m: Machine, j: Journal)
    requires m.status == Running && m.fates == []
    ensures
      var rest := [CheckRestored, DropImmutable(j.generation)] + RestoreRecordsOps(j.previous) + [PutJournal(j.(phase := RolledBack))];
      var n, left := Run(m, rest), m.disk.generations - {j.generation};
      if m.failures then n == m.(status := Failed(StoreCorrupt))
      else if j.previous.Some? && j.previous.value !in left then
        n == m.(status := Failed(StoreCorrupt), disk := m.disk.(generations := left))
      else n == m.(disk := n.disk) && n.disk.links == m.disk.links && RecordsUndone(m.disk, n.disk, j)
  {
    var check, drop, close := CheckRestored, DropImmutable(j.generation), PutJournal(j.(phase := RolledBack));
    var records := RestoreRecordsOps(j.previous);
    var rest := [check, drop] + records + [close];
    assert rest == [check] + ([drop] + (records + [close]));
    RunCons(m, check, [drop] + (records + [close]));
    var dropped := Step(Step(m, check), drop);
    RunCons(Step(m, check), drop, records + [close]);
    if m.failures {
      RunStopped(Step(m, check), [drop] + (records + [close]));
    } else {
      assert dropped == m.(disk := m.disk.(generations := m.disk.generations - {j.generation}));
      ReturnRecords(dropped, j);
    }
    hide Run, RestoreRecordsOps;
  }

  lemma ReturnRecords(m: Machine, j: Journal)
    requires m.status == Running && m.fates == []
    ensures
      var n := Run(m, RestoreRecordsOps(j.previous) + [PutJournal(j.(phase := RolledBack))]);
      var d := m.disk.(journal := Some(j.(phase := RolledBack)), commit := j.previous);
      match j.previous
      case None => n == m.(disk := d.(current := None))
      case Some(id) =>
        if id !in m.disk.generations then n == m.(status := Failed(StoreCorrupt))
        else n == m.(disk := d.(current := Some(m.disk.generations[id])))
  {
    var records, close := RestoreRecordsOps(j.previous), PutJournal(j.(phase := RolledBack));
    assert records == [records[0], records[1]];
    assert records + [close] == [records[0]] + ([records[1]] + [close]);
    RunCons(m, records[0], [records[1]] + [close]);
    var one := Step(m, records[0]);
    if one.status != Running {
      RunStopped(one, [records[1]] + [close]);
    } else {
      RunCons(one, records[1], [close]);
      RunOneOp(Step(one, records[1]), close);
    }
    hide Run;
  }

  /**
   * An undisturbed rollback of any journal that plans no location twice. Every
   * planned location goes back and the backups go. If a changed one had lost
   * its backup, or the previous generation has no record, it refuses then;
   * otherwise the records are those of the previous generation and the journal
   * is closed.
   */
  lemma UndoOutcome(m: Machine, j: Journal, target: ProfileId)
    requires m.status == Running && m.fates == [] && !m.failures && PlannedOnce(j.links)
    ensures
      var n, d := Run(m, RollbackUnder(j, target)), m.disk;
      && LinksUndone(d.links, n.disk.links, j, target)
      && (if exists p :: p in j.links && LostSlot(d.links, j.generation, target, p) then
            n.status == Failed(StoreCorrupt) && n.disk == d.(links := n.disk.links)
          else if j.previous.Some? && (j.previous.value == j.generation || j.previous.value !in d.generations) then
            n.status == Failed(StoreCorrupt)
            && n.disk == d.(links := n.disk.links, generations := map id | id in d.generations && id != j.generation :: d.generations[id])
          else n.status == Running && RecordsUndone(d, n.disk, j))
  {
    var links := RestoreOps(j.generation, target, j.links) + UnlinkOps(j.generation, j.links);
    var rest := [CheckRestored, DropImmutable(j.generation)] + RestoreRecordsOps(j.previous) + [PutJournal(j.(phase := RolledBack))];
    assert RollbackUnder(j, target) == links + rest;
    RunConcat(m, links, rest);
    LinksBack(m, j, target);
    RecordsBack(Run(m, links), j);
    assert m.disk.generations - {j.generation} == map id | id in m.disk.generations && id != j.generation :: m.disk.generations[id];
    hide Run, RestoreOps, UnlinkOps, RestoreRecordsOps, LinksUndone, LostSlot, RollbackUnder;
  }

  /** A rollback asked for: the one above, for the journal the caller names, with the target links under the caller's profile. */
  lemma RollbackOutcome(m: Machine, opts: Options, id: GenerationId)
    requires m.status == Running && m.fates == [] && !m.failures
    requires NamedByCaller(m.disk, id) && PlannedOnce(m.disk.journal.value.links)
    ensures
      var n, d, j := Rollback(m, opts, id), m.disk, m.disk.journal.value;
      && LinksUndone(d.links, n.disk.links, j, opts.target)
      && (n.status == Running <==>
            && (forall p :: p in j.links ==> !LostSlot(d.links, j.generation, opts.target, p))
            && (j.previous.Some? ==> j.previous.value != j.generation && j.previous.value in d.generations))
      && (n.status == Running ==> RecordsUndone(d, n.disk, j))
      && (n.status != Running ==> n.status == Failed(StoreCorrupt) && n.disk.journal == d.journal && n.disk.commit == d.commit)
  {
    UndoOutcome(m, m.disk.journal.value, opts.target);
    hide Run, RollbackUnder, LinksUndone, LostSlot;
  }
}
