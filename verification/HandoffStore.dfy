/**
 * The handoff as the program performs it: a session store whose links and
 * control records are changed in place, one atomic operation after another.
 * A thrown error is a status under which the remaining operations do nothing.
 */
module HandoffStore {
  import opened Common
  import opened Handoff
  import opened HandoffInvariant

  class SessionStore {
    var links: map<Loc, Inode>
    var journal: Option<Journal>
    var commit: Option<GenerationId>
    var current: Option<Generation>
    var generations: map<GenerationId, Generation>
    var fates: seq<Fate>
    var status: Status
    var failures: bool

    ghost function State(): Machine
      reads this
    {
      Machine(Disk(links, journal, commit, current, generations), fates, status, failures)
    }

    constructor (disk: Disk, fates: seq<Fate>)
      ensures State() == Machine(disk, fates, Running, false)
    {
      links, journal, commit := disk.links, disk.journal, disk.commit;
      current, generations := disk.current, disk.generations;
      this.fates, status, failures := fates, Running, false;
    }

    // ---- One atomic operation ----

    /** Draws the fate of the next operation; `go` says whether it has its effect. */
    method Enter() returns (go: bool, throws: bool)
      requires status == Running
      modifies this
      ensures go <==> NextFate(old(State())) == Proceed || NextFate(old(State())) == FailAfter
      ensures throws <==> NextFate(old(State())) == FailAfter
      ensures State() == match NextFate(old(State()))
                         case Crash => Consume(old(State())).(status := Crashed)
                         case FailBefore => Consume(old(State())).(status := Failed(IoFailure))
                         case _ => Consume(old(State()))
    {
      var fate := Proceed;
      if fates != [] {
        fate := fates[0];
        fates := fates[1..];
      }
      go, throws := fate == Proceed || fate == FailAfter, fate == FailAfter;
      if fate == Crash {
        status := Crashed;
      } else if fate == FailBefore {
        status := Failed(IoFailure);
      }
    }

    method Leave(throws: bool)
      modifies this`status
      ensures status == if throws && old(status) == Running then Failed(IoFailure) else old(status)
    {
      if throws && status == Running { status := Failed(IoFailure); }
    }

    method WriteJournal(j: Journal)
      modifies this
      ensures State() == Step(old(State()), PutJournal(j))
    {
      if status != Running { return; }
      var go, throws := Enter();
      if go {
        journal := Some(j);
        Leave(throws);
      }
    }

    method WriteCommit(id: GenerationId)
      modifies this
      ensures State() == Step(old(State()), PutCommit(id))
    {
      if status != Running { return; }
      var go, throws := Enter();
      if go {
        commit := Some(id);
        Leave(throws);
      }
    }

    method RemoveCommit()
      modifies this
      ensures State() == Step(old(State()), DropCommit)
    {
      if status != Running { return; }
      var go, throws := Enter();
      if go {
        commit := None;
        Leave(throws);
      }
    }

    method WriteCurrent(record: Generation)
      modifies this
      ensures State() == Step(old(State()), PutCurrent(record))
    {
      if status != Running { return; }
      var go, throws := Enter();
      if go {
        current := Some(record);
        Leave(throws);
      }
    }

    method RemoveCurrent()
      modifies this
      ensures State() == Step(old(State()), DropCurrent)
    {
      if status != Running { return; }
      var go, throws := Enter();
      if go {
        current := None;
        Leave(throws);
      }
    }

    method WriteImmutable(record: Generation)
      modifies this
      ensures State() == Step(old(State()), PutImmutable(record))
    {
      if status != Running { return; }
      var go, throws := Enter();
      if go {
        generations := generations[record.id := record];
        Leave(throws);
      }
    }

    method RemoveImmutable(id: GenerationId)
      modifies this
      ensures State() == Step(old(State()), DropImmutable(id))
    {
      if status != Running { return; }
      var go, throws := Enter();
      if go {
        generations := generations - {id};
        Leave(throws);
      }
    }

    /** The previous generation record, copied back from its immutable copy. */
    method WritePrevious(id: GenerationId)
      modifies this
      ensures State() == Step(old(State()), RestoreCurrent(id))
    {
      if status != Running { return; }
      var go, throws := Enter();
      if go {
        if id in generations { current := Some(generations[id]); } else { status := Failed(StoreCorrupt); }
        Leave(throws);
      }
    }

    method LinkOneBackup(gen: GenerationId, target: ProfileId, plan: LinkPlan)
      modifies this
      ensures State() == Step(old(State()), LinkBackup(gen, target, plan))
    {
      if status != Running { return; }
      var go, throws := Enter();
      if go {
        var dest, backup := Dest(target, plan.side, plan.rel), BackupFile(gen, plan.side, plan.rel);
        if dest !in links || backup in links {
          status := Failed(IoFailure);
        } else {
          links := links[backup := links[dest]];
        }
        Leave(throws);
      }
    }

    method ReplaceWithHardlink(from: Loc, to: Loc)
      modifies this
      ensures State() == Step(old(State()), Relink(from, to))
    {
      if status != Running { return; }
      var go, throws := Enter();
      if go {
        if from !in links {
          status := Failed(IoFailure);
        } else if to !in links || links[to] != links[from] {
          links := links[to := links[from]];
        }
        Leave(throws);
      }
    }

    method Remove(loc: Loc)
      modifies this
      ensures State() == Step(old(State()), Unlink(loc))
    {
      if status != Running { return; }
      var go, throws := Enter();
      if go {
        links := links - {loc};
        Leave(throws);
      }
    }

    /** One turn of the restore loop; what it throws is only collected. */
    method RestorePlan(gen: GenerationId, target: ProfileId, plan: LinkPlan)
      modifies this
      ensures State() == Step(old(State()), Restore(gen, target, plan))
    {
      if status != Running { return; }
      var go, throws := Enter();
      if go {
        var dest, backup := Dest(target, plan.side, plan.rel), BackupFile(gen, plan.side, plan.rel);
        if !plan.existed {
          links := links - {dest};
        } else if backup in links {
          links := links[dest := links[backup]];
        } else if dest !in links || plan.original != Some(links[dest]) {
          failures := true;
        }
        if throws { failures := true; }
      } else if status == Failed(IoFailure) {
        status, failures := Running, true;
      }
    }

    method ThrowCollectedFailures()
      modifies this
      ensures State() == Step(old(State()), CheckRestored)
    {
      if status != Running { return; }
      var go, throws := Enter();
      if go {
        if failures { status := Failed(StoreCorrupt); }
        Leave(throws);
      }
    }

    // ---- Loops over link plans ----

    method CreateLinkBackups(gen: GenerationId, target: ProfileId, plans: seq<LinkPlan>)
      modifies this
      ensures State() == Run(old(State()), BackupOps(gen, target, plans))
    {
      for i := 0 to |plans|
        invariant Run(State(), BackupOps(gen, target, plans[i..])) == Run(old(State()), BackupOps(gen, target, plans))
      {
        assert plans[i..][0] == plans[i] && plans[i..][1..] == plans[i + 1..];
        ghost var rest := BackupOps(gen, target, plans[i + 1..]);
        if plans[i].existed {
          assert BackupOps(gen, target, plans[i..]) == [LinkBackup(gen, target, plans[i])] + rest;
          RunCons(State(), LinkBackup(gen, target, plans[i]), rest);
          LinkOneBackup(gen, target, plans[i]);
        } else {
          assert BackupOps(gen, target, plans[i..]) == [] + rest == rest;
        }
      }
    }

    method LinkArtifacts(source: ProfileId, target: ProfileId, rels: seq<Rel>)
      modifies this
      ensures State() == Run(old(State()), RelinkOps(source, target, rels))
    {
      for i := 0 to |rels|
        invariant Run(State(), RelinkOps(source, target, rels[i..])) == Run(old(State()), RelinkOps(source, target, rels))
      {
        assert rels[i..][0] == rels[i] && rels[i..][1..] == rels[i + 1..];
        ghost var rest := RelinkOps(source, target, rels[i + 1..]);
        ghost var from := ProfileFile(source, rels[i]);
        ghost var op1, op2 := Relink(from, StoreFile(rels[i])), Relink(from, ProfileFile(target, rels[i]));
        assert RelinkOps(source, target, rels[i..]) == [op1] + ([op2] + rest);
        RunCons(State(), op1, [op2] + rest);
        RunCons(Step(State(), op1), op2, rest);
        ReplaceWithHardlink(ProfileFile(source, rels[i]), StoreFile(rels[i]));
        ReplaceWithHardlink(ProfileFile(source, rels[i]), ProfileFile(target, rels[i]));
      }
    }

    method RemoveBackups(gen: GenerationId, plans: seq<LinkPlan>)
      modifies this
      ensures State() == Run(old(State()), UnlinkOps(gen, plans))
    {
      for i := 0 to |plans|
        invariant Run(State(), UnlinkOps(gen, plans[i..])) == Run(old(State()), UnlinkOps(gen, plans))
      {
        assert plans[i..][0] == plans[i] && plans[i..][1..] == plans[i + 1..];
        ghost var op := Unlink(BackupFile(gen, plans[i].side, plans[i].rel));
        RunCons(State(), op, UnlinkOps(gen, plans[i + 1..]));
        Remove(BackupFile(gen, plans[i].side, plans[i].rel));
      }
    }

    /** The plans in reverse, then the backups, then the collected failures. */
    method RollbackLinkPlans(gen: GenerationId, target: ProfileId, plans: seq<LinkPlan>)
      modifies this
      ensures State() == Run(old(State()), RestoreOps(gen, target, plans) + UnlinkOps(gen, plans) + [CheckRestored])
    {
      ghost var m := State();
      var i := |plans|;
      while i > 0
        invariant 0 <= i <= |plans|
        invariant State() == Run(m, RestoreOps(gen, target, plans[i..]))
      {
        i := i - 1;
        assert plans[i..][0] == plans[i] && plans[i..][1..] == plans[i + 1..];
        RunConcat(m, RestoreOps(gen, target, plans[i + 1..]), [Restore(gen, target, plans[i])]);
        RunCons(State(), Restore(gen, target, plans[i]), []);
        RestorePlan(gen, target, plans[i]);
      }
      assert plans[0..] == plans;
      ghost var restores, unlinks := RestoreOps(gen, target, plans), UnlinkOps(gen, plans);
      RunConcat(m, restores, unlinks);
      RunConcat(m, restores + unlinks, [CheckRestored]);
      RemoveBackups(gen, plans);
      RunCons(State(), CheckRestored, []);
      ThrowCollectedFailures();
    }

    method RestorePreviousControlRecords(previous: Option<GenerationId>)
      modifies this
      ensures State() == Run(old(State()), RestoreRecordsOps(previous))
    {
      ghost var ops := RestoreRecordsOps(previous);
      assert ops == [ops[0]] + ([ops[1]] + []);
      RunCons(State(), ops[0], [ops[1]] + []);
      RunCons(Step(State(), ops[0]), ops[1], []);
      match previous {
        case None =>
          RemoveCurrent();
          RemoveCommit();
        case Some(id) =>
          WritePrevious(id);
          WriteCommit(id);
      }
    }

    method RollBackAttempt(j: Journal, target: ProfileId)
      modifies this
      ensures State() == Run(old(State()), RollbackUnder(j, target))
    {
      ghost var m := State();
      ghost var a := RestoreOps(j.generation, target, j.links) + UnlinkOps(j.generation, j.links) + [CheckRestored];
      ghost var b, c := RestoreRecordsOps(j.previous), [PutJournal(j.(phase := RolledBack))];
      assert RollbackUnder(j, target) == a + ([DropImmutable(j.generation)] + (b + c));
      RunConcat(m, a, [DropImmutable(j.generation)] + (b + c));
      RollbackLinkPlans(j.generation, target, j.links);
      RunCons(State(), DropImmutable(j.generation), b + c);
      RemoveImmutable(j.generation);
      RunConcat(State(), b, c);
      RestorePreviousControlRecords(j.previous);
      RunCons(State(), PutJournal(j.(phase := RolledBack)), []);
      WriteJournal(j.(phase := RolledBack));
    }

    // ---- The entry points ----

    method RecoverInterruptedHandoff(opts: Options)
      requires status == Running
      modifies this
      ensures State() == Recover(old(State()), opts)
    {
      if journal.None? { return; }
      var j := journal.value;
      if j.target != opts.target && j.target != opts.source {
        status := Failed(StoreCorrupt);
        return;
      }
      if j.phase == RolledBack {
        RemoveBackups(j.generation, j.links);
        return;
      }
      if commit == Some(j.generation) {
        if j.generation !in generations {
          status := Failed(StoreCorrupt);
          return;
        }
        if j.phase != Committed {
          var record := generations[j.generation];
          var valid := ValidateCommittedLinks(j.target, record);
          if record.id != j.generation || !valid {
            status := Failed(StoreCorrupt);
            return;
          }
          ghost var unlinks := UnlinkOps(j.generation, j.links);
          ghost var op1, op2 := PutCurrent(record), PutJournal(j.(phase := Committed));
          assert [op1, op2] + unlinks == [op1] + ([op2] + unlinks);
          RunCons(State(), op1, [op2] + unlinks);
          WriteCurrent(record);
          RunCons(State(), op2, unlinks);
          WriteJournal(j.(phase := Committed));
        }
        RemoveBackups(j.generation, j.links);
        return;
      }
      if j.phase == Committed || (commit.Some? && commit != j.previous) {
        status := Failed(StoreCorrupt);
        return;
      }
      RollBackAttempt(j, j.target);
    }

    method ValidateCommittedLinks(target: ProfileId, record: Generation) returns (valid: bool)
      ensures valid <==> LinksMatch(State().disk, target, record)
    {
      for i := 0 to |record.artifacts|
        invariant forall k :: 0 <= k < i ==> ArtifactMatches(State().disk, target, record.artifacts[k])
      {
        var a := record.artifacts[i];
        var store, dest := StoreFile(a.rel), ProfileFile(target, a.rel);
        if store !in links || dest !in links || links[store] != links[dest] || |links[store].bytes| != a.size {
          assert a in record.artifacts && !ArtifactMatches(State().disk, target, a);
          return false;
        }
      }
      return true;
    }

    method PrepareClaudeSessionHandoff(opts: Options, id: GenerationId)
      requires status == Running
      modifies this
      ensures State() == Prepare(old(State()), opts, id)
    {
      RecoverInterruptedHandoff(opts);
      if status != Running { return; }
      var disk := Disk(links, journal, commit, current, generations);
      var refusal := Admission(disk, opts);
      if refusal.Some? {
        status := Failed(refusal.value);
        return;
      }
      Perform(Plan(disk, opts, id));
    }

    /** The writes of an admitted handoff, and the inline rollback of a throw. */
    method Perform(a: Attempt)
      requires status == Running && State().disk == a.start
      modifies this
      ensures State() == Transact(old(State()), a)
    {
      WriteJournal(a.JournalIn(Preparing));
      if status != Running {
        RunStopped(State(), a.ForwardOps());
        return;
      }
      Forward(a);
      if status.Failed? {
        var thrown := status;
        status, failures := Running, false;
        RollBackAttempt(a.JournalIn(Preparing), a.target);
        if status == Running {
          status := thrown;
        } else if status.Failed? {
          status := Failed(RollbackFailed);
        }
      }
    }

    method Forward(a: Attempt)
      modifies this
      ensures State() == Run(old(State()), a.ForwardOps())
    {
      ghost var m := State();
      ghost var backups, relinks := BackupOps(a.id, a.target, a.plans), RelinkOps(a.source, a.target, a.rels);
      ghost var ops := a.CommitOps();
      RunConcat(m, a.LinkingOps() + ops, a.CleanupOps());
      RunConcat(m, a.LinkingOps(), ops);
      RunConcat(m, backups, relinks);
      CreateLinkBackups(a.id, a.target, a.plans);
      LinkArtifacts(a.source, a.target, a.rels);
      RunFive(State(), ops);
      WriteImmutable(a.record);
      WriteJournal(a.JournalIn(Prepared));
      WriteCommit(a.id);
      WriteCurrent(a.record);
      WriteJournal(a.JournalIn(Committed));
      if !a.retain { RemoveBackups(a.id, a.plans); }
    }

    method RollbackClaudeSessionHandoff(opts: Options, id: GenerationId)
      requires status == Running
      modifies this
      ensures State() == Rollback(old(State()), opts, id)
    {
      if journal.None? || journal.value.generation != id || journal.value.phase != Committed {
        status := Failed(StoreCorrupt);
        return;
      }
      RollBackAttempt(journal.value, opts.target);
    }

    method FinalizeClaudeSessionHandoff(id: GenerationId)
      requires status == Running
      modifies this
      ensures State() == Finalize(old(State()), id)
    {
      if journal.None? || journal.value.generation != id || journal.value.phase != Committed {
        status := Failed(StoreCorrupt);
        return;
      }
      RemoveBackups(id, journal.value.links);
    }

    /** Removes the stale source links of a confirmed generation. */
    method ConfirmClaudeSessionStart(record: Generation)
      modifies this
      ensures State() == Confirm(old(State()), record)
    {
      if record.source == record.target { return; }
      for i := 0 to |record.artifacts|
        invariant ConfirmLinks(State(), record.source, record.artifacts[i..]) == ConfirmLinks(old(State()), record.source, record.artifacts)
      {
        assert record.artifacts[i..][0] == record.artifacts[i] && record.artifacts[i..][1..] == record.artifacts[i + 1..];
        var from, store := ProfileFile(record.source, record.artifacts[i].rel), StoreFile(record.artifacts[i].rel);
        if from in links && store in links && links[from] == links[store] {
          Remove(from);
        }
      }
    }
  }
}
