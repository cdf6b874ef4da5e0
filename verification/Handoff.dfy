/**
 * The write-ahead journal that hands one Claude conversation from a source
 * profile to a target profile through a store of hard links
 * (src/server/claudeProfileContinuity.ts).
 *
 * The file system is a map from link locations to inodes plus the control
 * records of one session. Every link, rename, removal and record write is one
 * atomic operation; a crash or an I/O failure may hit any of them.
 */
module Handoff {
  import opened Common

  type ProfileId = string
  type GenerationId = string
  /** An artifact's relative path, given by its place in the sorted order of paths. */
  type Rel = nat

  /** An inode and the bytes it holds; no operation of the protocol writes into one. */
  datatype Inode = Inode(number: nat, bytes: seq<nat>)

  datatype Side = StoreSide | TargetSide

  /** The roots are disjoint constructors: profiles, store files, backups. */
  datatype Loc =
    | ProfileFile(profile: ProfileId, rel: Rel)
    | StoreFile(rel: Rel)
    | BackupFile(generation: GenerationId, side: Side, rel: Rel)

  datatype LinkPlan = LinkPlan(rel: Rel, side: Side, existed: bool, original: Option<Inode>)

  datatype Phase = Preparing | Prepared | Committed | RolledBack

  datatype Journal = Journal(
    generation: GenerationId, source: ProfileId, target: ProfileId,
    previous: Option<GenerationId>, phase: Phase, links: seq<LinkPlan>)

  datatype Artifact = Artifact(rel: Rel, size: nat, digest: seq<nat>)

  datatype Generation = Generation(id: GenerationId, source: ProfileId, target: ProfileId, artifacts: seq<Artifact>)

  datatype Disk = Disk(
    links: map<Loc, Inode>,
    journal: Option<Journal>,
    commit: Option<GenerationId>,
    current: Option<Generation>,
    generations: map<GenerationId, Generation>)

  datatype Options = Options(source: ProfileId, target: ProfileId, transcript: Rel, retainRollback: bool)

  datatype Error = MissingTranscript | SessionConflict | StoreCorrupt | IoFailure | RollbackFailed

  datatype Status = Running | Crashed | Failed(error: Error)

  /** What happens to one atomic operation: it takes effect, the process dies
      before it, or it throws (before or after its effect reached the disk). */
  datatype Fate = Proceed | Crash | FailBefore | FailAfter

  /** The disk, the fates of the operations still to come (none left means
      `Proceed`), and whether some link restore has failed. */
  datatype Machine = Machine(disk: Disk, fates: seq<Fate>, status: Status, failures: bool)

  datatype Op =
    | PutJournal(journal: Journal)
    | PutCommit(id: GenerationId)
    | DropCommit
    | PutCurrent(record: Generation)
    | DropCurrent
    | PutImmutable(record: Generation)
    | DropImmutable(id: GenerationId)
    | RestoreCurrent(id: GenerationId)
    | LinkBackup(generation: GenerationId, target: ProfileId, plan: LinkPlan)
    | Relink(from: Loc, to: Loc)
    | Restore(generation: GenerationId, target: ProfileId, plan: LinkPlan)
    | Unlink(loc: Loc)
    | CheckRestored

  function Dest(target: ProfileId, side: Side, rel: Rel): Loc {
    if side.TargetSide? then ProfileFile(target, rel) else StoreFile(rel)
  }

  function WithLinks(m: Machine, links: map<Loc, Inode>): Machine {
    m.(disk := m.disk.(links := links))
  }

  function Corrupt(m: Machine): Machine { m.(status := Failed(StoreCorrupt)) }

  /** What one operation does when it runs to its end. */
  function Effect(m: Machine, op: Op): Machine {
    var links := m.disk.links;
    match op
    case PutJournal(j) => m.(disk := m.disk.(journal := Some(j)))
    case PutCommit(id) => m.(disk := m.disk.(commit := Some(id)))
    case DropCommit => m.(disk := m.disk.(commit := None))
    case PutCurrent(record) => m.(disk := m.disk.(current := Some(record)))
    case DropCurrent => m.(disk := m.disk.(current := None))
    case PutImmutable(record) =>
      m.(disk := m.disk.(generations := m.disk.generations[record.id := record]))
    case DropImmutable(id) => m.(disk := m.disk.(generations := m.disk.generations - {id}))
    case RestoreCurrent(id) =>
      if id in m.disk.generations
      then m.(disk := m.disk.(current := Some(m.disk.generations[id])))
      else Corrupt(m)
    case LinkBackup(gen, target, plan) =>
      var dest := Dest(target, plan.side, plan.rel);
      var backup := BackupFile(gen, plan.side, plan.rel);
      if dest in links && backup !in links
      then WithLinks(m, links[backup := links[dest]])
      else m.(status := Failed(IoFailure))
    case Relink(from, to) =>
      if from in links then WithLinks(m, links[to := links[from]]) else m.(status := Failed(IoFailure))
    case Restore(gen, target, plan) =>
      var dest := Dest(target, plan.side, plan.rel);
      var backup := BackupFile(gen, plan.side, plan.rel);
      if !plan.existed then WithLinks(m, links - {dest})
      else if backup in links then WithLinks(m, links[dest := links[backup]])
      else if dest in links && plan.original == Some(links[dest]) then m
      else m.(failures := true)
    case Unlink(loc) => WithLinks(m, links - {loc})
    case CheckRestored => if m.failures then Corrupt(m) else m
  }

  /** A throwing operation stops the program, except inside the restore loop,
      which collects its failures and goes on. */
  function Throw(m: Machine, op: Op): Machine {
    if m.status != Running then m
    else if op.Restore? then m.(failures := true)
    else m.(status := Failed(IoFailure))
  }

  function NextFate(m: Machine): Fate { if m.fates == [] then Proceed else m.fates[0] }

  function Consume(m: Machine): Machine { if m.fates == [] then m else m.(fates := m.fates[1..]) }

  function Step(m: Machine, op: Op): Machine {
    if m.status != Running then m else
      var n := Consume(m);
      match NextFate(m)
      case Proceed => Effect(n, op)
      case Crash => n.(status := Crashed)
      case FailBefore => Throw(n, op)
      case FailAfter => Throw(Effect(n, op), op)
  }

  function Run(m: Machine, ops: seq<Op>): Machine
    decreases |ops|
  {
    if ops == [] then m else Run(Step(m, ops[0]), ops[1..])
  }

  // ---- The programs ----

  function BuildPlan(d: Disk, target: ProfileId, side: Side, rel: Rel): LinkPlan {
    var dest := Dest(target, side, rel);
    if dest in d.links then LinkPlan(rel, side, true, Some(d.links[dest]))
    else LinkPlan(rel, side, false, None)
  }

  function Plans(d: Disk, target: ProfileId, rels: seq<Rel>): seq<LinkPlan> {
    if rels == [] then []
    else [BuildPlan(d, target, StoreSide, rels[0]), BuildPlan(d, target, TargetSide, rels[0])]
         + Plans(d, target, rels[1..])
  }

  function Artifacts(d: Disk, source: ProfileId, rels: seq<Rel>): seq<Artifact>
    requires forall r :: r in rels ==> ProfileFile(source, r) in d.links
  {
    if rels == [] then [] else
      var bytes := d.links[ProfileFile(source, rels[0])].bytes;
      [Artifact(rels[0], |bytes|, bytes)] + Artifacts(d, source, rels[1..])
  }

  function BackupOps(gen: GenerationId, target: ProfileId, plans: seq<LinkPlan>): seq<Op> {
    if plans == [] then []
    else (if plans[0].existed then [LinkBackup(gen, target, plans[0])] else [])
         + BackupOps(gen, target, plans[1..])
  }

  function RelinkOps(source: ProfileId, target: ProfileId, rels: seq<Rel>): seq<Op> {
    if rels == [] then []
    else [Relink(ProfileFile(source, rels[0]), StoreFile(rels[0])),
          Relink(ProfileFile(source, rels[0]), ProfileFile(target, rels[0]))]
         + RelinkOps(source, target, rels[1..])
  }

  /** The restore loop visits the plans in reverse. */
  function RestoreOps(gen: GenerationId, target: ProfileId, plans: seq<LinkPlan>): seq<Op> {
    if plans == [] then []
    else RestoreOps(gen, target, plans[1..]) + [Restore(gen, target, plans[0])]
  }

  /** Removing a generation's backup directory, one link at a time. */
  function UnlinkOps(gen: GenerationId, plans: seq<LinkPlan>): seq<Op> {
    if plans == [] then []
    else [Unlink(BackupFile(gen, plans[0].side, plans[0].rel))] + UnlinkOps(gen, plans[1..])
  }

  function RestoreRecordsOps(previous: Option<GenerationId>): seq<Op> {
    match previous
    case None => [DropCurrent, DropCommit]
    case Some(id) => [RestoreCurrent(id), PutCommit(id)]
  }

  /** Undoing a journal's generation, with the target links under the given profile. */
  function RollbackUnder(j: Journal, target: ProfileId): seq<Op> {
    RestoreOps(j.generation, target, j.links)
    + UnlinkOps(j.generation, j.links)
    + [CheckRestored, DropImmutable(j.generation)]
    + RestoreRecordsOps(j.previous)
    + [PutJournal(j.(phase := RolledBack))]
  }

  function RollbackOps(j: Journal): seq<Op> { RollbackUnder(j, j.target) }

  predicate ArtifactMatches(d: Disk, target: ProfileId, a: Artifact) {
    && StoreFile(a.rel) in d.links && ProfileFile(target, a.rel) in d.links
    && d.links[StoreFile(a.rel)] == d.links[ProfileFile(target, a.rel)]
    && |d.links[StoreFile(a.rel)].bytes| == a.size
  }

  /** Everything the committed branch of recovery checks before it writes. */
  predicate LinksMatch(d: Disk, target: ProfileId, record: Generation) {
    forall a :: a in record.artifacts ==> ArtifactMatches(d, target, a)
  }

  datatype Recovery = Refuse | Program(ops: seq<Op>)

  /** A recovery can only name the target root when the interrupted target is
      one of the two profiles it was called for. */
  predicate Resolves(opts: Options, j: Journal) {
    j.target == opts.target || j.target == opts.source
  }

  function RecoveryProgram(d: Disk, opts: Options): Recovery {
    if d.journal.None? then Program([]) else
      var j := d.journal.value;
      if !Resolves(opts, j) then Refuse
      else if j.phase == RolledBack then Program(UnlinkOps(j.generation, j.links))
      else if d.commit == Some(j.generation) then
        if j.generation !in d.generations then Refuse
        else if j.phase == Committed then Program(UnlinkOps(j.generation, j.links))
        else if d.generations[j.generation].id == j.generation
                && LinksMatch(d, j.target, d.generations[j.generation])
        then Program([PutCurrent(d.generations[j.generation]), PutJournal(j.(phase := Committed))]
                     + UnlinkOps(j.generation, j.links))
        else Refuse
      else if j.phase == Committed then Refuse
      else if d.commit.Some? && d.commit != j.previous then Refuse
      else Program(RollbackOps(j))
  }

  function Recover(m: Machine, opts: Options): Machine
    requires m.status == Running
  {
    match RecoveryProgram(m.disk, opts)
    case Refuse => Corrupt(m)
    case Program(ops) => Run(m, ops)
  }

  /** The relative paths of a profile's session envelope, sorted. */
  function Envelope(d: Disk, profile: ProfileId): (rels: seq<Rel>)
    ensures forall r :: r in rels <==> ProfileFile(profile, r) in d.links
    ensures forall i, j :: 0 <= i < j < |rels| ==> rels[i] < rels[j]
  {
    var found := set loc | loc in d.links && loc.ProfileFile? && loc.profile == profile :: loc.rel;
    assert forall r :: ProfileFile(profile, r) in d.links ==> ProfileFile(profile, r).rel in found;
    Sorted(found)
  }

  function Admission(d: Disk, opts: Options): Option<Error> {
    var rels := Envelope(d, opts.source);
    if ProfileFile(opts.source, opts.transcript) !in d.links then Some(MissingTranscript)
    else if exists r :: r in Envelope(d, opts.target) && r !in rels then Some(SessionConflict)
    else if exists r :: r in rels && ProfileFile(opts.target, r) in d.links
              && d.links[ProfileFile(opts.source, r)].bytes != d.links[ProfileFile(opts.target, r)].bytes
    then Some(SessionConflict)
    else None
  }

  /** Everything one handoff fixes before its first write. */
  datatype Attempt = Attempt(
    start: Disk, source: ProfileId, target: ProfileId, id: GenerationId, retain: bool,
    rels: seq<Rel>, plans: seq<LinkPlan>, record: Generation)
  {
    function JournalIn(phase: Phase): Journal {
      var previous := if start.current.Some? then Some(start.current.value.id) else None;
      Journal(id, source, target, previous, phase, plans)
    }

    function LinkingOps(): seq<Op> { BackupOps(id, target, plans) + RelinkOps(source, target, rels) }

    function CommitOps(): seq<Op> {
      [PutImmutable(record), PutJournal(JournalIn(Prepared)), PutCommit(id),
       PutCurrent(record), PutJournal(JournalIn(Committed))]
    }

    function CleanupOps(): seq<Op> {
      if retain then [] else UnlinkOps(id, plans)
    }

    /** Everything after the first journal write. */
    function ForwardOps(): seq<Op> { LinkingOps() + CommitOps() + CleanupOps() }
  }

  function Plan(d: Disk, opts: Options, id: GenerationId): Attempt {
    var rels := Envelope(d, opts.source);
    Attempt(d, opts.source, opts.target, id, opts.retainRollback, rels, Plans(d, opts.target, rels),
            Generation(id, opts.source, opts.target, Artifacts(d, opts.source, rels)))
  }

  /** A handoff after its journal write: the forward program, and on a throw the inline rollback. */
  function Transact(m: Machine, a: Attempt): Machine
    requires m.status == Running && m.disk == a.start
  {
    var journalled := Step(m, PutJournal(a.JournalIn(Preparing)));
    var done := Run(journalled, a.ForwardOps());
    if journalled.status != Running || !done.status.Failed? then done else
      var undone := Run(done.(status := Running, failures := false), RollbackOps(a.JournalIn(Preparing)));
      if undone.status == Running then undone.(status := done.status)
      else if undone.status.Failed? then undone.(status := Failed(RollbackFailed))
      else undone
  }

  /** A whole handoff: recovery, admission checks, transaction. */
  function Prepare(m: Machine, opts: Options, id: GenerationId): Machine
    requires m.status == Running
  {
    var r := Recover(m, opts);
    if r.status != Running then r
    else if Admission(r.disk, opts).Some? then r.(status := Failed(Admission(r.disk, opts).value))
    else Transact(r, Plan(r.disk, opts, id))
  }

  /** Undoing a committed handoff whose backups were retained, under the target the caller names. */
  function Rollback(m: Machine, opts: Options, id: GenerationId): Machine
    requires m.status == Running
  {
    match m.disk.journal
    case Some(j) =>
      if j.generation == id && j.phase == Committed then Run(m, RollbackUnder(j, opts.target)) else Corrupt(m)
    case None => Corrupt(m)
  }

  /** Dropping the retained backups once the manifest names the new profile. */
  function Finalize(m: Machine, id: GenerationId): Machine
    requires m.status == Running
  {
    match m.disk.journal
    case Some(j) =>
      if j.generation == id && j.phase == Committed then Run(m, UnlinkOps(id, j.links)) else Corrupt(m)
    case None => Corrupt(m)
  }

  // ---- Confirming the start removes the stale source links ----

  predicate SameFile(d: Disk, source: ProfileId, rel: Rel) {
    && ProfileFile(source, rel) in d.links && StoreFile(rel) in d.links
    && d.links[ProfileFile(source, rel)] == d.links[StoreFile(rel)]
  }

  /** One artifact at a time: a source link is removed only over the same inode in the store. */
  function ConfirmLinks(m: Machine, source: ProfileId, artifacts: seq<Artifact>): Machine
    decreases |artifacts|
  {
    if artifacts == [] then m
    else if SameFile(m.disk, source, artifacts[0].rel)
    then ConfirmLinks(Step(m, Unlink(ProfileFile(source, artifacts[0].rel))), source, artifacts[1..])
    else ConfirmLinks(m, source, artifacts[1..])
  }

  /** Nothing is removed when source and target are one profile. */
  function Confirm(m: Machine, record: Generation): Machine {
    if record.source == record.target then m else ConfirmLinks(m, record.source, record.artifacts)
  }
}
