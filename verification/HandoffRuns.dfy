/**
 * Whole runs of handoffs, recoveries, rollbacks, finalizations and
 * confirmations, in which every operation may proceed, die or throw: exactly
 * when the next recovery settles the store, and which files are still there.
 */
module HandoffRuns {
  import opened Common
  import opened Handoff
  import opened HandoffInvariant
  import opened HandoffForward
  import opened HandoffRecovery
  import opened HandoffTheorems
  import opened HandoffLimits
  import opened HandoffCrashes
  import opened HandoffConfirm

  // ---- What a run may do ----

  /** What a session start does between other things: it recovers, or it is confirmed. */
  datatype Visit = Resume(opts: Options, fates: seq<Fate>) | Confirmed(fates: seq<Fate>)

  datatype Action =
    | Alone(visit: Visit)
    | Move(opts: Options, id: GenerationId, fates: seq<Fate>)
    | MoveUndone(opts: Options, id: GenerationId, fates: seq<Fate>, visits: seq<Visit>, again: seq<Fate>)
    | MoveFinalized(opts: Options, id: GenerationId, fates: seq<Fate>, visits: seq<Visit>, again: seq<Fate>)

  function VisitOnce(d: Disk, visit: Visit): Disk {
    match visit
    case Resume(opts, fates) => Recover(Boot(d, fates), opts).disk
    case Confirmed(fates) => Confirmation(d, fates)
  }

  function VisitAll(d: Disk, visits: seq<Visit>): Disk
    decreases |visits|
  {
    if visits == [] then d else VisitAll(VisitOnce(d, visits[0]), visits[1..])
  }

  /** A rollback or a finalization follows only a handoff that ended normally;
      others may visit the store while its caller waits for the manifest. */
  function Act(d: Disk, action: Action): Disk {
    match action
    case Alone(visit) => VisitOnce(d, visit)
    case Move(opts, id, fates) => Prepare(Boot(d, fates), opts, id).disk
    case MoveUndone(opts, id, fates, visits, again) =>
      var r := Prepare(Boot(d, fates), opts, id);
      if r.status == Running then Rollback(Boot(VisitAll(r.disk, visits), again), opts, id).disk else r.disk
    case MoveFinalized(opts, id, fates, visits, again) =>
      var r := Prepare(Boot(d, fates), opts, id);
      if r.status == Running then Finalize(Boot(VisitAll(r.disk, visits), again), id).disk else r.disk
  }

  function ActAll(d: Disk, actions: seq<Action>): Disk
    decreases |actions|
  {
    if actions == [] then d else ActAll(Act(d, actions[0]), actions[1..])
  }

  /** Generation ids were never used. */
  predicate Allowed(d: Disk, action: Action) { action.Alone? || action.id !in d.generations }

  ghost predicate AllAllowed(d: Disk, actions: seq<Action>)
    decreases |actions|
  {
    actions != [] ==> Allowed(d, actions[0]) && AllAllowed(Act(d, actions[0]), actions[1..])
  }

  // ---- Watching one file ----

  /** Nothing, or one profile path with the inode it held; `exact` asks for the
      inode itself, otherwise its bytes are enough. */
  datatype Watch = Nothing | File(profile: ProfileId, rel: Rel, was: Inode, exact: bool)

  ghost predicate Holds(w: Watch, d: Disk) {
    w.File? ==>
      var loc := ProfileFile(w.profile, w.rel);
      loc in d.links && d.links[loc].bytes == w.was.bytes && (w.exact ==> d.links[loc] == w.was)
  }

  /** A handoff into another profile keeps the inodes of the watched one. */
  ghost predicate Spares(w: Watch, source: ProfileId, target: ProfileId) {
    w.File? && w.exact ==> w.profile != target || source == target
  }

  ghost predicate SparedBy(w: Watch, action: Action) {
    action.Alone? || Spares(w, action.opts.source, action.opts.target)
  }

  /** The watched path is as before the attempt, or is a slot of it that holds the source's inode. */
  ghost predicate WatchedSlot(w: Watch, a: Attempt, d: Disk) {
    w.File? ==>
      var loc := ProfileFile(w.profile, w.rel);
      Same(d.links, a.start.links, loc) || (Planned(a, loc) && Linked(a, d, TargetSide, w.rel))
  }

  ghost predicate Watching(w: Watch, a: Attempt, d: Disk) {
    Holds(w, a.start) && Spares(w, a.source, a.target) && WatchedSlot(w, a, d)
  }

  /** Every disk a run can leave, with the watched file in place. */
  ghost predicate Reach(w: Watch, d: Disk) {
    || (Settled(d) && Holds(w, d))
    || exists a :: Sound(a) && Tracked(a, d) && Watching(w, a, d)
  }

  lemma WatchKept(w: Watch, a: Attempt, d: Disk)
    requires Sound(a) && Watching(w, a, d)
    ensures Holds(w, d)
  {
  }

  lemma ReachHolds(w: Watch, d: Disk)
    requires Reach(w, d)
    ensures Holds(w, d)
  {
    if !(Settled(d) && Holds(w, d)) {
      var a :| Sound(a) && Tracked(a, d) && Watching(w, a, d);
      WatchKept(w, a, d);
    }
  }

  lemma WatchUndone(w: Watch, a: Attempt, d: Disk, e: Disk)
    requires Watching(w, a, d) && Undone(a, d, e)
    ensures Watching(w, a, e)
  {
    if w.File? {
      var loc := ProfileFile(w.profile, w.rel);
      assert Same(e.links, d.links, loc) || Same(e.links, a.start.links, loc);
    }
  }

  lemma TrackedReach(w: Watch, a: Attempt, d: Disk)
    requires Sound(a) && Watching(w, a, d) && (Tracked(a, d) || Rolled(a, d))
    ensures Reach(w, d)
  {
    if Rolled(a, d) {
      RolledSettled(a, d);
      WatchKept(w, a, d);
    }
  }

  lemma LineageWatched(w: Watch, a: Attempt, d: Disk)
    requires Sound(a) && Holds(w, a.start) && Spares(w, a.source, a.target) && SlotsKept(a, d)
    ensures Watching(w, a, d)
  {
    if w.File? {
      var loc := ProfileFile(w.profile, w.rel);
      if Planned(a, loc) {
        assert Dest(a.target, TargetSide, w.rel) == loc && SlotKept(a, d, TargetSide, w.rel);
      } else {
        assert Same(d.links, a.start.links, loc);
      }
    }
  }

  lemma LineageReach(w: Watch, a: Attempt, d: Disk)
    requires Sound(a) && Holds(w, a.start) && Spares(w, a.source, a.target)
    requires d == a.start || Lineage(a, d) || RolledBackTo(a, d)
    ensures Reach(w, d)
  {
    if Lineage(a, d) {
      LineageWatched(w, a, d);
      LineageTracked(a, d);
    } else if RolledBackTo(a, d) {
      RolledBackSettled(a, d);
    }
  }

  // ---- One program under any fates ----

  lemma OpenTracked(a: Attempt, m: Machine)
    requires Sound(a) && Tracked(a, m.disk) && m.status == Running
    ensures
      var r := Run(m, RollbackOps(a.JournalIn(Preparing)));
      && Undone(a, m.disk, r.disk) && (Tracked(a, r.disk) || Rolled(a, r.disk)) && (r.status == Running ==> Rolled(a, r.disk))
      && (SaysCommitted(a, m.disk) && Tracked(a, r.disk) && a.id in r.disk.generations ==> SaysCommitted(a, r.disk))
  {
    hide Undone, OwnBackups, AllFaithful, Rolled;
    UnwindRun(a, m, a.JournalIn(Preparing));
    var r := Run(m, RollbackOps(a.JournalIn(Preparing)));
    UndoneKeeps(a, m.disk, r.disk);
    if !Rolled(a, r.disk) { UnwindingKeeps(a, m.disk, r.disk); } else { RolledIsClosed(a, r.disk); }
  }

  lemma RolledIsClosed(a: Attempt, d: Disk)
    requires Rolled(a, d)
    ensures d.journal == Some(a.JournalIn(RolledBack)) && !Tracked(a, d)
  {
  }

  /** Recovery on a disk of one attempt, whatever happens to it: each location is
      as it was or, if planned, as before the attempt. */
  lemma RecoverTracked(a: Attempt, m: Machine, opts: Options)
    requires Sound(a) && Tracked(a, m.disk) && m.status == Running
    ensures
      var r := Recover(m, opts);
      && Undone(a, m.disk, r.disk) && (Tracked(a, r.disk) || Rolled(a, r.disk))
      && (SaysCommitted(a, m.disk) ==> Tracked(a, r.disk) && SaysCommitted(a, r.disk))
      && (r.status == Running ==> Settled(r.disk) && NoBackups(r.disk))
  {
    var j := m.disk.journal.value;
    if !Resolves(opts, j) || (m.disk.commit != Some(a.id) && j.phase == Committed) { return; }
    if m.disk.commit == Some(a.id) {
      RecoverNamed(a, m, opts);
    } else {
      assert RecoveryProgram(m.disk, opts) == Program(RollbackOps(j));
      assert RollbackOps(j) == RollbackOps(a.JournalIn(Preparing));
      OpenTracked(a, m);
      var r := Recover(m, opts);
      if Rolled(a, r.disk) { RolledSettled(a, r.disk); }
    }
  }

  lemma RecoverReach(w: Watch, m: Machine, opts: Options)
    requires Reach(w, m.disk) && m.status == Running
    ensures
      var r := Recover(m, opts);
      Reach(w, r.disk) && (r.status == Running ==> Settled(r.disk) && NoBackups(r.disk))
  {
    if Settled(m.disk) && Holds(w, m.disk) {
      if m.disk.journal.Some? && !Resolves(opts, m.disk.journal.value) { return; }
      RecoverSettled(m, opts);
      assert w.File? ==> Same(Recover(m, opts).disk.links, m.disk.links, ProfileFile(w.profile, w.rel));
    } else {
      var a :| Sound(a) && Tracked(a, m.disk) && Watching(w, a, m.disk);
      RecoverTracked(a, m, opts);
      WatchUndone(w, a, m.disk, Recover(m, opts).disk);
      TrackedReach(w, a, Recover(m, opts).disk);
    }
  }

  lemma JournalledDisk(a: Attempt)
    requires Sound(a)
    ensures
      var d := a.start.(journal := Some(a.JournalIn(Preparing)));
      BackupsUpTo(a, d, 0) && Interrupted(a, d) && Lineage(a, d)
  {
    var d := a.start.(journal := Some(a.JournalIn(Preparing)));
    BackupsSafe(a, d, 0);
    SlotsLineage(a, d);
  }

  lemma OpenLineage(a: Attempt, m: Machine)
    requires Sound(a) && Lineage(a, m.disk) && m.status == Running
    ensures
      var r := Run(m, RollbackOps(a.JournalIn(Preparing)));
      (Lineage(a, r.disk) || RolledBackTo(a, r.disk)) && (r.status == Running ==> RolledBackTo(a, r.disk))
  {
    UndoRun(a, m, a.JournalIn(Preparing));
    var r := Run(m, RollbackOps(a.JournalIn(Preparing)));
    if !RolledBackTo(a, r.disk) { UnwindingKeeps(a, m.disk, r.disk); }
  }

  /** A handoff that throws or dies anywhere, its inline rollback included. */
  lemma TransactLineage(a: Attempt, m: Machine)
    requires Sound(a) && m.disk == a.start && m.status == Running
    ensures
      var r := Transact(m, a);
      && (r.disk == a.start || Lineage(a, r.disk) || RolledBackTo(a, r.disk))
      && (r.status == Running ==> Fulfilled(a, r.disk) && r.disk.journal == Some(a.JournalIn(Committed)))
  {
    var op := PutJournal(a.JournalIn(Preparing));
    StepShape(m, op);
    var journalled := Step(m, op);
    JournalledDisk(a);
    if journalled.status != Running {
      RunStopped(journalled, a.ForwardOps());
    } else {
      ForwardRun(a, journalled);
      var done := Run(journalled, a.ForwardOps());
      SlotsLineage(a, done.disk);
      if done.status.Failed? { OpenLineage(a, done.(status := Running, failures := false)); }
    }
  }

  lemma PlanStart(d: Disk, opts: Options, id: GenerationId)
    ensures Plan(d, opts, id).start == d && Plan(d, opts, id).id == id
    ensures Plan(d, opts, id).target == opts.target && Plan(d, opts, id).source == opts.source
  {
  }

  /** What a handoff leaves that ended normally. */
  ghost predicate Delivered(w: Watch, a: Attempt, d: Disk, opts: Options, id: GenerationId) {
    && Sound(a) && a.id == id && a.target == opts.target
    && Tracked(a, d) && SaysCommitted(a, d) && Watching(w, a, d)
  }

  lemma PrepareReach(w: Watch, m: Machine, opts: Options, id: GenerationId)
    requires Reach(w, m.disk) && m.status == Running && id !in m.disk.generations && Spares(w, opts.source, opts.target)
    ensures
      var r := Prepare(m, opts, id);
      && Reach(w, r.disk)
      && (r.status == Running ==> Delivered(w, Plan(Recover(m, opts).disk, opts, id), r.disk, opts, id))
  {
    hide Transact, Recover, Admission, Plan, Sound, Settled, Reach, Delivered;
    RecoverReach(w, m, opts);
    RecoverGenerations(m, opts);
    ReachHolds(w, Recover(m, opts).disk);
    var r := Recover(m, opts);
    if r.status == Running && Admission(r.disk, opts).None? {
      PlanStart(r.disk, opts, id);
      TransactReach(w, r, opts, id);
    }
  }

  lemma TransactReach(w: Watch, m: Machine, opts: Options, id: GenerationId)
    requires m.status == Running && Settled(m.disk) && NoBackups(m.disk) && id !in m.disk.generations
    requires Admission(m.disk, opts).None? && Holds(w, m.disk) && Spares(w, opts.source, opts.target)
    ensures
      var a := Plan(m.disk, opts, id);
      var r := Transact(m, a);
      Reach(w, r.disk) && (r.status == Running ==> Delivered(w, a, r.disk, opts, id))
  {
    hide Transact, Admission, Lineage, Settled, Fulfilled;
    var a := Plan(m.disk, opts, id);
    PlanIsSound(m.disk, opts, id);
    TransactLineage(a, m);
    var r := Transact(m, a);
    LineageReach(w, a, r.disk);
    if r.status == Running { FulfilledDelivered(w, a, r.disk, opts, id); }
  }

  lemma FulfilledDelivered(w: Watch, a: Attempt, d: Disk, opts: Options, id: GenerationId)
    requires Sound(a) && Fulfilled(a, d) && d.journal == Some(a.JournalIn(Committed)) && a.id == id && a.target == opts.target
    requires Holds(w, a.start) && Spares(w, a.source, a.target)
    ensures Delivered(w, a, d, opts, id)
  {
    SlotsLineage(a, d);
    LineageTracked(a, d);
    LineageWatched(w, a, d);
  }

  // ---- Visits ----

  /** The watched path was removed by a confirmation over the same inode in the store. */
  ghost predicate HandedOver(w: Watch, d: Disk, e: Disk) {
    w.File? && Holds(w, d) &&
    var loc, store := ProfileFile(w.profile, w.rel), StoreFile(w.rel);
    loc in d.links && loc !in e.links && store in e.links && e.links[store] == d.links[loc]
  }

  ghost predicate VisitTakes(w: Watch, d: Disk, visit: Visit) {
    visit.Confirmed? && HandedOver(w, d, VisitOnce(d, visit))
  }

  ghost predicate VisitsTake(w: Watch, d: Disk, visits: seq<Visit>)
    decreases |visits|
  {
    visits != [] && (VisitTakes(w, d, visits[0]) || VisitsTake(w, VisitOnce(d, visits[0]), visits[1..]))
  }

  /** A confirmation leaves the watched path alone or hands it over. */
  lemma ConfirmWatched(w: Watch, a: Attempt, d: Disk, fates: seq<Fate>)
    requires Sound(a) && Tracked(a, d) && Watching(w, a, d)
    ensures
      var e := Confirmation(d, fates);
      Tracked(a, e) && (Watching(w, a, e) || HandedOver(w, d, e))
  {
    ConfirmTracked(a, d, fates);
    ConfirmationTakes(d, fates);
    WatchKept(w, a, d);
    var e := Confirmation(d, fates);
    if w.File? {
      var loc := ProfileFile(w.profile, w.rel);
      assert Same(e.links, d.links, loc) || loc !in e.links;
    }
  }

  lemma VisitReach(w: Watch, d: Disk, visit: Visit)
    requires Reach(w, d)
    ensures Reach(w, VisitOnce(d, visit)) || VisitTakes(w, d, visit)
  {
    hide Recover, Confirmation, Settled;
    match visit
    case Resume(opts, fates) => RecoverReach(w, Boot(d, fates), opts);
    case Confirmed(fates) =>
      ReachHolds(w, d);
      if Settled(d) && Holds(w, d) {
        ConfirmSettled(d, fates);
        SettledWatched(w, d, fates);
      } else {
        var a :| Sound(a) && Tracked(a, d) && Watching(w, a, d);
        ConfirmWatched(w, a, d, fates);
      }
  }

  lemma SettledWatched(w: Watch, d: Disk, fates: seq<Fate>)
    requires Holds(w, d)
    ensures Holds(w, Confirmation(d, fates)) || HandedOver(w, d, Confirmation(d, fates))
  {
    ConfirmationTakes(d, fates);
    if w.File? {
      var loc := ProfileFile(w.profile, w.rel);
      assert Same(Confirmation(d, fates).links, d.links, loc) || loc !in Confirmation(d, fates).links;
    }
  }

  /** Visits keep a committed handoff committed. */
  lemma {:induction false} VisitsDelivered(w: Watch, a: Attempt, d: Disk, opts: Options, id: GenerationId, visits: seq<Visit>)
    requires Delivered(w, a, d, opts, id)
    ensures Delivered(w, a, VisitAll(d, visits), opts, id) || VisitsTake(w, d, visits)
    decreases |visits|
  {
    if visits != [] {
      var e := VisitOnce(d, visits[0]);
      VisitDelivered(w, a, d, opts, id, visits[0]);
      hide Delivered, VisitOnce, VisitTakes;
      if !VisitTakes(w, d, visits[0]) { VisitsDelivered(w, a, e, opts, id, visits[1..]); }
    }
  }

  lemma VisitDelivered(w: Watch, a: Attempt, d: Disk, opts: Options, id: GenerationId, visit: Visit)
    requires Delivered(w, a, d, opts, id)
    ensures Delivered(w, a, VisitOnce(d, visit), opts, id) || VisitTakes(w, d, visit)
  {
    hide Tracked, Sound, Watching, Settled, Holds;
    match visit
    case Resume(again, fates) =>
      RecoverTracked(a, Boot(d, fates), again);
      WatchUndone(w, a, d, VisitOnce(d, visit));
    case Confirmed(fates) =>
      ConfirmWatched(w, a, d, fates);
      ConfirmationTakes(d, fates);
  }

  // ---- The rollback and the finalization of a committed handoff ----

  lemma RollbackReach(w: Watch, a: Attempt, d: Disk, fates: seq<Fate>, opts: Options, id: GenerationId)
    requires Delivered(w, a, d, opts, id)
    ensures
      var e := Rollback(Boot(d, fates), opts, id).disk;
      && Reach(w, e)
      && (e.journal.Some? && (e.journal.value.phase == RolledBack || id in e.generations) ==> Settled(e))
  {
    hide Run, Undone, OwnBackups, AllFaithful, Settled, Watching, Reach;
    var m := Boot(d, fates);
    assert RollbackOps(a.JournalIn(Committed)) == RollbackOps(a.JournalIn(Preparing));
    OpenTracked(a, m);
    var e := Run(m, RollbackOps(a.JournalIn(Preparing))).disk;
    WatchUndone(w, a, d, e);
    TrackedReach(w, a, e);
    if Rolled(a, e) {
      RolledSettled(a, e);
    } else if id in e.generations {
      TrackedSettled(a, e);
    }
  }

  lemma FinalizeReach(w: Watch, a: Attempt, d: Disk, fates: seq<Fate>, opts: Options, id: GenerationId)
    requires Delivered(w, a, d, opts, id)
    ensures var e := Finalize(Boot(d, fates), id).disk; Reach(w, e) && Settled(e)
  {
    hide Run, Undone, OwnBackups, AllFaithful, Settled, Watching, Reach;
    AcceptUnlinks(a, Boot(d, fates));
    var e := Finalize(Boot(d, fates), id).disk;
    WatchUndone(w, a, d, e);
    TrackedReach(w, a, e);
    TrackedSettled(a, e);
  }

  /**
   * A rollback that nothing interrupts, after any visits to a committed handoff:
   * it puts every slot and record back exactly when no slot is lost, and
   * otherwise fails with the backups gone and the records as they were.
   */
  lemma VisitedRollbackIff(a: Attempt, d: Disk, opts: Options, id: GenerationId, visits: seq<Visit>)
    requires Delivered(Nothing, a, d, opts, id)
    ensures
      var v := VisitAll(d, visits);
      var r := Rollback(Boot(v, []), opts, id);
      && v.journal == Some(a.JournalIn(Committed))
      && (if NoneLost(v, v.journal.value) then r.status == Running && Rolled(a, r.disk)
          else r.status == Failed(StoreCorrupt) && BackupsRemoved(a, r.disk.links) && r.disk == v.(links := r.disk.links))
  {
    VisitsDelivered(Nothing, a, d, opts, id, visits);
    NothingTaken(d, visits);
    var v := VisitAll(d, visits);
    RollbackCompletesIff(a, v, a.JournalIn(Committed));
    assert NoneLost(v, a.JournalIn(Committed)) <==> !SomeLost(a, v.links, 0);
  }

  lemma {:induction false} NothingTaken(d: Disk, visits: seq<Visit>)
    ensures !VisitsTake(Nothing, d, visits)
    decreases |visits|
  {
    if visits != [] { NothingTaken(VisitOnce(d, visits[0]), visits[1..]); }
  }

  /**
   * A start that recovers while the caller waits drops the retained backups. The
   * rollback then completes exactly when the handoff had replaced no file.
   */
  lemma DroppedBackups(a: Attempt, d: Disk, again: Options, opts: Options)
    requires Sound(a) && Fulfilled(a, d) && d.journal == Some(a.JournalIn(Committed)) && opts.target == a.target
    requires again.source == a.target || again.target == a.target
    ensures
      var v := VisitOnce(d, Resume(again, []));
      var r := Rollback(Boot(v, []), opts, a.id);
      if exists i :: 0 <= i < |a.plans| && Replaces(a, a.plans[i])
      then r.status == Failed(StoreCorrupt) && r.disk == v.(links := r.disk.links)
      else r.status == Running && RolledBackTo(a, r.disk)
  {
    hide Recover, Run;
    RecoverFulfilled(a, Boot(d, []), again);
    NeverDies(Boot(d, []), again);
    var v := VisitOnce(d, Resume(again, []));
    assert CommittedTo(a, v) && Fulfilled(a, v);
    SlotsLineage(a, v);
    LineageTracked(a, v);
    RollbackCompletesIff(a, v, a.JournalIn(Committed));
    forall i | 0 <= i < |a.plans| ensures Lost(a.id, a.target, v.links, a.plans[i]) == Replaces(a, a.plans[i]) {
      assert Faithful(a, a.plans[i]) && Linked(a, v, a.plans[i].side, a.plans[i].rel);
    }
  }

  // ---- Runs ----

  /** Some confirmation during the action removed the watched path, at a moment
      when it still held and the store held the same inode. */
  ghost predicate ActTakes(w: Watch, d: Disk, action: Action) {
    match action
    case Alone(visit) => VisitTakes(w, d, visit)
    case Move(_, _, _) => false
    case MoveUndone(opts, id, fates, visits, _) => VisitsTake(w, Prepare(Boot(d, fates), opts, id).disk, visits)
    case MoveFinalized(opts, id, fates, visits, _) => VisitsTake(w, Prepare(Boot(d, fates), opts, id).disk, visits)
  }

  lemma ActReach(w: Watch, d: Disk, action: Action)
    requires Reach(w, d) && Allowed(d, action) && SparedBy(w, action)
    ensures Reach(w, Act(d, action)) || ActTakes(w, d, action)
  {
    hide Prepare, Recover, Reach, Rollback, Finalize, Confirmation, VisitTakes, VisitsTake;
    match action
    case Alone(visit) => VisitReach(w, d, visit);
    case Move(opts, id, fates) => PrepareReach(w, Boot(d, fates), opts, id);
    case MoveUndone(opts, id, fates, visits, again) => UndoneReach(w, d, opts, id, fates, visits, again);
    case MoveFinalized(opts, id, fates, visits, again) => FinalizedReach(w, d, opts, id, fates, visits, again);
  }

  lemma UndoneReach(w: Watch, d: Disk, opts: Options, id: GenerationId,
                    fates: seq<Fate>, visits: seq<Visit>, again: seq<Fate>)
    requires Reach(w, d) && id !in d.generations && Spares(w, opts.source, opts.target)
    ensures
      var action := MoveUndone(opts, id, fates, visits, again);
      Reach(w, Act(d, action)) || ActTakes(w, d, action)
  {
    hide Prepare, Recover, Reach, Rollback, Delivered, VisitsTake, VisitAll;
    PrepareReach(w, Boot(d, fates), opts, id);
    var r := Prepare(Boot(d, fates), opts, id);
    if r.status == Running {
      var a := Plan(Recover(Boot(d, fates), opts).disk, opts, id);
      VisitsDelivered(w, a, r.disk, opts, id, visits);
      if !VisitsTake(w, r.disk, visits) { RollbackReach(w, a, VisitAll(r.disk, visits), again, opts, id); }
    }
  }

  lemma FinalizedReach(w: Watch, d: Disk, opts: Options, id: GenerationId,
                       fates: seq<Fate>, visits: seq<Visit>, again: seq<Fate>)
    requires Reach(w, d) && id !in d.generations && Spares(w, opts.source, opts.target)
    ensures
      var action := MoveFinalized(opts, id, fates, visits, again);
      Reach(w, Act(d, action)) || ActTakes(w, d, action)
  {
    hide Prepare, Recover, Reach, Finalize, Delivered, VisitsTake, VisitAll;
    PrepareReach(w, Boot(d, fates), opts, id);
    var r := Prepare(Boot(d, fates), opts, id);
    if r.status == Running {
      var a := Plan(Recover(Boot(d, fates), opts).disk, opts, id);
      VisitsDelivered(w, a, r.disk, opts, id, visits);
      if !VisitsTake(w, r.disk, visits) { FinalizeReach(w, a, VisitAll(r.disk, visits), again, opts, id); }
    }
  }

  ghost predicate EverTaken(w: Watch, d: Disk, actions: seq<Action>)
    decreases |actions|
  {
    actions != [] && (ActTakes(w, d, actions[0]) || EverTaken(w, Act(d, actions[0]), actions[1..]))
  }

  /**
   * Over every run under any fates a file that a profile held stays there: with
   * its bytes, and as the same inode unless a handoff targets its profile. Only
   * a confirmation may remove the path, over the same inode in the store.
   */
  lemma {:induction false} FilesSurvive(w: Watch, d: Disk, actions: seq<Action>)
    requires Reach(w, d) && AllAllowed(d, actions)
    requires forall i :: 0 <= i < |actions| ==> SparedBy(w, actions[i])
    ensures Holds(w, ActAll(d, actions)) || EverTaken(w, d, actions)
    decreases |actions|
  {
    hide Act, Reach, Holds, ActTakes;
    ReachHolds(w, d);
    if actions != [] {
      ActReach(w, d, actions[0]);
      if Reach(w, Act(d, actions[0])) { FilesSurvive(w, Act(d, actions[0]), actions[1..]); }
    }
  }

  lemma NothingTakenBy(d: Disk, action: Action)
    ensures !ActTakes(Nothing, d, action)
  {
    match action
    case Alone(visit) =>
    case Move(_, _, _) =>
    case MoveUndone(opts, id, fates, visits, _) => NothingTaken(Prepare(Boot(d, fates), opts, id).disk, visits);
    case MoveFinalized(opts, id, fates, visits, _) => NothingTaken(Prepare(Boot(d, fates), opts, id).disk, visits);
  }

  lemma {:induction false} RunReach(d: Disk, actions: seq<Action>)
    requires Reach(Nothing, d) && AllAllowed(d, actions)
    ensures Reach(Nothing, ActAll(d, actions))
    decreases |actions|
  {
    hide Act, Reach, ActTakes;
    if actions != [] {
      ActReach(Nothing, d, actions[0]);
      NothingTakenBy(d, actions[0]);
      RunReach(Act(d, actions[0]), actions[1..]);
    }
  }

  // ---- Exactly when recovery settles the store ----

  /** The outcome of a recovery that nothing interrupts. */
  ghost predicate SettlesIff(d: Disk, opts: Options) {
    var r := Recover(Boot(d, []), opts);
    && (if Recoverable(d, opts) then r.status == Running && Settled(r.disk) && NoBackups(r.disk)
        else r.status == Failed(StoreCorrupt))
  }

  lemma TrackedSettlesIff(a: Attempt, d: Disk, opts: Options)
    requires Sound(a) && Tracked(a, d)
    ensures SettlesIff(d, opts)
  {
    hide OwnBackups, AllFaithful, Undone;
    var m, j := Boot(d, []), d.journal.value;
    if !Resolves(opts, j) { return; }
    if d.commit == Some(a.id) {
      RecoverNamed(a, m, opts);
    } else if j.phase != Committed {
      assert RecoveryProgram(d, opts) == Program(RollbackOps(j));
      RollbackCompletesIff(a, d, j);
      assert NoneLost(d, j) <==> !SomeLost(a, d.links, 0);
      if NoneLost(d, j) { RolledSettled(a, Recover(m, opts).disk); }
    }
  }

  lemma ReachSettlesIff(d: Disk, opts: Options)
    requires Reach(Nothing, d)
    ensures SettlesIff(d, opts)
  {
    if Settled(d) {
      if d.journal.Some? && !Resolves(opts, d.journal.value) { return; }
      RecoverSettled(Boot(d, []), opts);
      NeverDies(Boot(d, []), opts);
    } else {
      var a :| Sound(a) && Tracked(a, d);
      TrackedSettlesIff(a, d, opts);
    }
  }

  /**
   * Over every run in which any operation may die or throw and any start may be
   * confirmed at any moment, one completed recovery settles the store exactly
   * when the disk is recoverable; otherwise it reports a corrupt store.
   */
  lemma EveryRunSettlesIff(d: Disk, actions: seq<Action>, opts: Options)
    requires Settled(d) && AllAllowed(d, actions)
    ensures SettlesIff(ActAll(d, actions), opts)
  {
    RunReach(d, actions);
    ReachSettlesIff(ActAll(d, actions), opts);
  }

  // ---- Runs that recovery always resolves ----

  /** A throw in the forward program is the last thing that goes wrong. */
  ghost predicate Undisturbed(a: Attempt, m: Machine)
    requires m.status == Running && m.disk == a.start
  {
    var journalled := Step(m, PutJournal(a.JournalIn(Preparing)));
    var done := Run(journalled, a.ForwardOps());
    journalled.status == Running && done.status.Failed? ==> done.fates == []
  }

  /** Nothing throws in the recovery, and a throw in the transaction is rolled back undisturbed. */
  ghost predicate CalmPrepare(d: Disk, opts: Options, id: GenerationId, fates: seq<Fate>) {
    var r := Recover(Boot(d, fates), opts);
    && (Crashy(fates) || r.status == Running)
    && (r.status == Running && Admission(r.disk, opts).None? ==> Undisturbed(Plan(r.disk, opts, id), r))
  }

  /** Crashes anywhere, throws that are rolled back undisturbed, confirmations
      that take no link an open journal needs, and rollbacks that closed their
      journal or died before they removed the generation. */
  ghost predicate Calm(d: Disk, action: Action) {
    match action
    case Alone(Resume(_, fates)) => Crashy(fates)
    case Alone(Confirmed(fates)) => !Wedges(d, Taken(d, fates))
    case Move(opts, id, fates) => CalmPrepare(d, opts, id, fates)
    case MoveUndone(opts, id, fates, _, _) =>
      var e := Act(d, action);
      && CalmPrepare(d, opts, id, fates)
      && (Prepare(Boot(d, fates), opts, id).status == Running ==>
            e.journal.Some? && (e.journal.value.phase == RolledBack || id in e.generations))
    case MoveFinalized(opts, id, fates, _, _) => CalmPrepare(d, opts, id, fates)
  }

  ghost predicate AllCalm(d: Disk, actions: seq<Action>)
    decreases |actions|
  {
    actions != [] ==> Calm(d, actions[0]) && AllCalm(Act(d, actions[0]), actions[1..])
  }

  /** A lost rollback of a cleanup leaves a settled, committed disk. */
  lemma LostSettled(a: Attempt, m: Machine)
    requires Sound(a) && Fulfilled(a, m.disk) && m.disk.journal == Some(a.JournalIn(Committed)) && m.status == Running
    ensures
      var r := Run(m, RollbackOps(a.JournalIn(Preparing)));
      r.disk == m.disk.(links := r.disk.links) ==> Settled(r.disk)
  {
    SlotsLineage(a, m.disk);
    LineageTracked(a, m.disk);
    OpenTracked(a, m);
    var r := Run(m, RollbackOps(a.JournalIn(Preparing)));
    if r.disk == m.disk.(links := r.disk.links) { TrackedSettled(a, r.disk); }
  }

  lemma UndisturbedConsistent(a: Attempt, m: Machine)
    requires Sound(a) && m.disk == a.start && m.status == Running && Undisturbed(a, m)
    ensures Consistent(Transact(m, a).disk)
  {
    hide Run, Settled, Frame, LinksSafe, Mendable;
    var op := PutJournal(a.JournalIn(Preparing));
    StepShape(m, op);
    var journalled := Step(m, op);
    JournalledDisk(a);
    CrashMendable(a, a.start.(journal := Some(a.JournalIn(Preparing))));
    if journalled.status != Running { RunStopped(journalled, a.ForwardOps()); return; }
    ForwardRun(a, journalled);
    var done := Run(journalled, a.ForwardOps());
    CrashMendable(a, done.disk);
    if done.status.Failed? {
      InlineRollback(a, m);
      if SomeLost(a, done.disk.links, 0) {
        LostOnlyInCleanup(a, journalled);
        LostSettled(a, done.(status := Running, failures := false));
      } else {
        RolledBackSettled(a, Transact(m, a).disk);
      }
    }
  }

  lemma CalmPrepareConsistent(d: Disk, opts: Options, id: GenerationId, fates: seq<Fate>)
    requires Consistent(d) && id !in d.generations && CalmPrepare(d, opts, id, fates)
    ensures Consistent(Prepare(Boot(d, fates), opts, id).disk)
  {
    hide Transact, Sound, Settled, Undisturbed, Admission, Plan, Mendable;
    var m := Boot(d, fates);
    ConsistentReach(d);
    RecoverReach(Nothing, m, opts);
    RecoverGenerations(m, opts);
    var r := Recover(m, opts);
    if r.status != Running {
      assert CrashOnly(m);
      RecoverConsistent(m, opts);
    } else if Admission(r.disk, opts).None? {
      PlanIsSound(r.disk, opts, id);
      PlanStart(r.disk, opts, id);
      UndisturbedConsistent(Plan(r.disk, opts, id), r);
    }
  }

  lemma ConsistentReach(d: Disk)
    requires Consistent(d)
    ensures Reach(Nothing, d)
  {
    if !Settled(d) {
      var a :| Sound(a) && Mendable(a, d);
      assert Watching(Nothing, a, d);
    }
  }

  lemma FollowUpConsistent(d: Disk, action: Action)
    requires Consistent(d) && Allowed(d, action) && Calm(d, action) && (action.MoveUndone? || action.MoveFinalized?)
    ensures Consistent(Act(d, action))
  {
    hide Recover, Sound, Settled, Delivered, Rollback, Finalize, CalmPrepare, Prepare, VisitAll, Mendable;
    var m := Boot(d, action.fates);
    ConsistentReach(d);
    CalmPrepareConsistent(d, action.opts, action.id, action.fates);
    PrepareReach(Nothing, m, action.opts, action.id);
    var r := Prepare(m, action.opts, action.id);
    if r.status == Running {
      var a := Plan(Recover(m, action.opts).disk, action.opts, action.id);
      VisitsDelivered(Nothing, a, r.disk, action.opts, action.id, action.visits);
      NothingTaken(r.disk, action.visits);
      var v := VisitAll(r.disk, action.visits);
      if action.MoveUndone? {
        RollbackReach(Nothing, a, v, action.again, action.opts, action.id);
      } else {
        FinalizeReach(Nothing, a, v, action.again, action.opts, action.id);
      }
    }
  }

  lemma ActConsistent(d: Disk, action: Action)
    requires Consistent(d) && Allowed(d, action) && Calm(d, action)
    ensures Consistent(Act(d, action))
  {
    hide Recover, Prepare, Rollback, Finalize, Settled, Confirmation, Consistent, Wedges;
    match action
    case Alone(Resume(opts, fates)) =>
      assert CrashOnly(Boot(d, fates));
      RecoverConsistent(Boot(d, fates), opts);
    case Alone(Confirmed(fates)) => ConfirmConsistent(d, fates);
    case Move(opts, id, fates) => CalmPrepareConsistent(d, opts, id, fates);
    case MoveUndone(_, _, _, _, _) => FollowUpConsistent(d, action);
    case MoveFinalized(_, _, _, _, _) => FollowUpConsistent(d, action);
  }

  /**
   * Over every calm run from a settled store recovery never refuses except for
   * an unrelated profile, and one completed recovery settles the store: commit
   * and generation records name one generation whose immutable record exists.
   */
  lemma {:induction false} EveryRunRecovers(d: Disk, actions: seq<Action>, opts: Options)
    requires Consistent(d) && AllAllowed(d, actions) && AllCalm(d, actions)
    ensures
      var e := ActAll(d, actions);
      var r := Recover(Boot(e, []), opts);
      && Consistent(e)
      && (if e.journal.Some? && !Resolves(opts, e.journal.value) then r.status == Failed(StoreCorrupt) && r.disk == e
          else r.status == Running && Settled(r.disk) && RecordsAgree(r.disk) && NoBackups(r.disk))
    decreases |actions|
  {
    hide Act, Calm;
    if actions == [] {
      RecoverConsistent(Boot(d, []), opts);
      RefusesIff(d, opts);
      NeverDies(Boot(d, []), opts);
    } else {
      ActConsistent(d, actions[0]);
      EveryRunRecovers(Act(d, actions[0]), actions[1..], opts);
    }
  }
}
