/** Two crashes of a handoff after which a confirmation of the older start makes recovery refuse for good. */
module HandoffWedges {
  import opened Common
  import opened Handoff
  import opened HandoffInvariant
  import opened HandoffForward
  import opened HandoffRecovery
  import opened HandoffTheorems
  import opened HandoffLimits
  import opened HandoffCrashes
  import opened HandoffConfirm
  import opened HandoffRuns

  /** One transcript, handed from profile a to profile b; its start is not confirmed yet. */
  const MOVED := Disk(
    map[ProfileFile("a", 0) := Inode(1, []), ProfileFile("b", 0) := Inode(1, []), StoreFile(0) := Inode(1, [])],
    Some(Journal("g1", "a", "b", None, Committed, [])), Some("g1"), Some(FIRST), map["g1" := FIRST])

  const FIRST := Generation("g1", "a", "b", [Artifact(0, 0, [])])

  /** The handoff back from b to a. */
  const BACK := Options("b", "a", 0, true)

  lemma MovedAdmitted()
    ensures Settled(MOVED) && NoBackups(MOVED) && "g2" !in MOVED.generations && Admission(MOVED, BACK).None?
  {
  }

  /** Recovery has nothing to do on that disk. */
  lemma MovedRecovers(fates: seq<Fate>)
    ensures Recover(Boot(MOVED, fates), BACK) == Boot(MOVED, fates)
  {
    assert RecoveryProgram(MOVED, BACK) == Program([]);
  }

  /** Recoverability depends on the call only through the target it can name. */
  lemma LostForAll(d: Disk, opts: Options, again: Options)
    requires d.journal.Some? && Resolves(opts, d.journal.value) && !Recoverable(d, opts)
    ensures !Recoverable(d, again)
  {
  }

  /** A crashed handoff back to a on which the older start's confirmation takes a needed link. */
  lemma WedgedRun(a: Attempt, e: Disk, fates: seq<Fate>, again: Options)
    requires Sound(a) && (Interrupted(a, e) || Fulfilled(a, e))
    requires a.target == "a" && Act(MOVED, Move(BACK, "g2", fates)) == e && Wedges(e, StaleLinks(e))
    ensures
      var actions := [Move(BACK, "g2", fates), Alone(Confirmed([]))];
      && AllAllowed(MOVED, actions) && Recoverable(e, BACK)
      && Recover(Boot(ActAll(MOVED, actions), []), again).status == Failed(StoreCorrupt)
  {
    hide *;
    var first, second := Move(BACK, "g2", fates), Alone(Confirmed([]));
    ConfirmationLoses(a, e, again);
    MovedAdmitted();
    TwoActions(MOVED, first, second);
    WedgedAllowed(e, fates);
    ActConfirmed(e);
    EveryRunSettlesIff(MOVED, [first, second], again);
    SettlesMeaning(Confirmation(e, []), again);
  }

  lemma ConfirmationLoses(a: Attempt, e: Disk, again: Options)
    requires Sound(a) && (Interrupted(a, e) || Fulfilled(a, e)) && a.target == "a" && Wedges(e, StaleLinks(e))
    ensures Recoverable(e, BACK) && !Recoverable(Confirmation(e, []), again)
  {
    CrashMendable(a, e);
    MendableIff(a, e, BACK);
    WouldWedgeIff(e, [], BACK);
    ConfirmationTakes(e, []);
    hide Recoverable, Confirmation;
    LostForAll(Confirmation(e, []), BACK, again);
  }

  lemma TwoActions(d: Disk, first: Action, second: Action)
    ensures ActAll(d, [first, second]) == Act(Act(d, first), second)
    ensures AllAllowed(d, [first, second]) <==> Allowed(d, first) && Allowed(Act(d, first), second)
  {
    hide Act, Allowed;
    assert [first, second][1..] == [second] && [second][1..] == [];
    assert ActAll(Act(d, first), [second]) == Act(Act(d, first), second);
    assert AllAllowed(Act(d, first), [second]) <==> Allowed(Act(d, first), second);
  }

  lemma WedgedAllowed(e: Disk, fates: seq<Fate>)
    ensures Allowed(MOVED, Move(BACK, "g2", fates)) && Allowed(e, Alone(Confirmed([])))
  {
  }

  lemma ActConfirmed(e: Disk)
    ensures Act(e, Alone(Confirmed([]))) == Confirmation(e, [])
  {
  }

  lemma SettlesMeaning(d: Disk, opts: Options)
    requires SettlesIff(d, opts) && !Recoverable(d, opts)
    ensures Recover(Boot(d, []), opts).status == Failed(StoreCorrupt)
  {
  }

  // ---- Before the backups ----

  /** A handoff that dies right behind its journal write. */
  lemma EarlyCrash(a: Attempt)
    ensures Transact(Boot(a.start, [Proceed, Crash]), a).disk == a.start.(journal := Some(a.JournalIn(Preparing)))
  {
    assert [Proceed, Crash] == [Proceed] + [Crash];
    JournalFirst(a, [Crash]);
    var m := Boot(a.start.(journal := Some(a.JournalIn(Preparing))), [Crash]);
    CrashFirst(m, a.ForwardOps());
  }

  lemma CrashFirst(m: Machine, ops: seq<Op>)
    requires m.status == Running && m.fates == [Crash] && ops != []
    ensures Run(m, ops).disk == m.disk && Run(m, ops).status == Crashed
  {
    assert ops == [ops[0]] + ops[1..];
    RunCons(m, ops[0], ops[1..]);
    RunStopped(Step(m, ops[0]), ops[1..]);
  }

  /**
   * The handoff back to a dies before it made a backup; then the first start is
   * confirmed. The confirmation takes a's transcript, which the journal would
   * have to put back, and no recovery succeeds any more, although nothing threw.
   */
  lemma ConfirmationWedges(again: Options)
    ensures
      var actions := [Move(BACK, "g2", [Proceed, Crash]), Alone(Confirmed([]))];
      && Settled(MOVED) && AllAllowed(MOVED, actions)
      && Recoverable(Act(MOVED, actions[0]), BACK)
      && Recover(Boot(ActAll(MOVED, actions), []), again).status == Failed(StoreCorrupt)
  {
    hide Transact, Recover, Admission, Run, Settled;
    MovedAdmitted();
    var a, m := Admitted(MOVED, BACK, "g2");
    MovedRecovers([Proceed, Crash]);
    EarlyCrash(a);
    JournalledDisk(a);
    var i := ExistingPlanned(a, 0);
    EarlyWedges(a, m.disk, i);
    WedgedRun(a, m.disk, [Proceed, Crash], again);
  }

  lemma EarlyWedges(a: Attempt, e: Disk, i: nat)
    requires e == MOVED.(journal := Some(a.JournalIn(Preparing))) && a.target == "a" && a.id == "g2"
    requires i < |a.plans| && a.plans[i].rel == 0 && a.plans[i].side == TargetSide && a.plans[i].existed
    ensures Wedges(e, StaleLinks(e))
  {
    assert SameFile(e, "a", FIRST.artifacts[0].rel) && FIRST.artifacts[0] in FIRST.artifacts;
    assert ProfileFile("a", 0) in StaleLinks(e);
    assert TakesOriginal(e, e.journal.value, a.plans[i], StaleLinks(e));
  }

  // ---- Between commit.json and generation.json ----

  function UpToCommitFates(a: Attempt): seq<Fate> { [Proceed] + (Proceeds(|a.LinkingOps()| + 3) + [Crash]) }

  /** A handoff that dies right behind its commit record. */
  lemma CommitCrash(a: Attempt, m: Machine)
    requires Sound(a) && m == Boot(a.start.(journal := Some(a.JournalIn(Preparing))), []) && BackupsUpTo(a, m.disk, 0)
    ensures
      var e := Transact(Boot(a.start, UpToCommitFates(a)), a).disk;
      Fulfilled(a, e) && e.journal == Some(a.JournalIn(Prepared)) && e.current == a.start.current
  {
    hide Run, Step, Effect, Sound, BackupsUpTo, Fulfilled;
    var first := a.LinkingOps() + a.CommitOps()[..3];
    var later := [PutCurrent(a.record)] + ([a.CommitOps()[4]] + a.CleanupOps());
    ForwardSplit(a);
    var fates := Proceeds(|a.LinkingOps()| + 3) + [Crash];
    JournalFirst(a, fates);
    var crashing := m.(fates := fates);
    RunConcat(crashing, first, later);
    UpToCommit(a, m);
    assert crashing.(fates := []) == m;
    RunProceeds(crashing, first, [Crash]);
    CrashFirst(Run(crashing, first), later);
  }

  /** The same between the commit record and the generation record: the
      confirmation of the older start takes a target link of the committed one. */
  lemma CommittedConfirmationWedges(again: Options)
    ensures
      var actions := [Move(BACK, "g2", UpToCommitFates(Plan(MOVED, BACK, "g2"))), Alone(Confirmed([]))];
      && Settled(MOVED) && AllAllowed(MOVED, actions)
      && Recoverable(Act(MOVED, actions[0]), BACK)
      && Recover(Boot(ActAll(MOVED, actions), []), again).status == Failed(StoreCorrupt)
  {
    hide Transact, Recover, Admission, Run, Settled;
    MovedAdmitted();
    var a, m := Admitted(MOVED, BACK, "g2");
    var fates := UpToCommitFates(a);
    MovedRecovers(fates);
    CommitCrash(a, m);
    var e := Transact(Boot(MOVED, fates), a).disk;
    ArtifactCovers(MOVED, a.source, a.rels, 0);
    var x :| x in a.record.artifacts && x.rel == 0;
    CommitWedges(a, e, x);
    WedgedRun(a, e, fates, again);
  }

  lemma CommitWedges(a: Attempt, e: Disk, x: Artifact)
    requires Fulfilled(a, e) && e.journal == Some(a.JournalIn(Prepared)) && e.current == Some(FIRST)
    requires a.target == "a" && 0 in a.rels && x in a.record.artifacts && x.rel == 0
    ensures Wedges(e, StaleLinks(e))
  {
    assert Linked(a, e, StoreSide, 0) && Linked(a, e, TargetSide, 0);
    assert SameFile(e, "a", FIRST.artifacts[0].rel) && FIRST.artifacts[0] in FIRST.artifacts;
    assert ProfileFile("a", x.rel) in StaleLinks(e);
    assert TakesArtifact("a", a.record, StaleLinks(e));
  }
}
