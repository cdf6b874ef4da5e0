/**
 * Confirming a start while a handoff lies open. A confirmation looks neither at
 * the journal nor at the backups: exactly when it takes a link that the next
 * recovery needs.
 */
module HandoffConfirm {
  import opened Common
  import opened Handoff
  import opened HandoffInvariant
  import opened HandoffRecovery
  import opened HandoffTheorems
  import opened HandoffLimits

  // ---- What recovery can resolve ----

  ghost predicate NoneLost(d: Disk, j: Journal) {
    forall i :: 0 <= i < |j.links| ==> !Lost(j.generation, j.target, d.links, j.links[i])
  }

  /** The target root is known, and the journal is closed, or it names the
      commit record with its generation and links in place, or the commit record
      is another one and every slot can still be undone. */
  ghost predicate Recoverable(d: Disk, opts: Options) {
    d.journal.Some? ==>
      var j := d.journal.value;
      && Resolves(opts, j)
      && (j.phase == RolledBack
          || (if d.commit == Some(j.generation)
              then j.generation in d.generations && (j.phase == Committed || LinksMatch(d, j.target, d.generations[j.generation]))
              else j.phase != Committed && NoneLost(d, j)))
  }

  /** For a disk of one attempt this is the same as being mendable. */
  lemma MendableIff(a: Attempt, d: Disk, opts: Options)
    requires Sound(a) && Tracked(a, d) && Resolves(opts, d.journal.value)
    ensures Mendable(a, d) <==> Recoverable(d, opts)
  {
    SafeIffNoneLost(a, d);
    assert NoneLost(d, d.journal.value) <==> !SomeLost(a, d.links, 0);
    assert a.id in d.generations ==> d.generations[a.id] == a.record;
  }

  // ---- What a confirmation takes ----

  /** The disk after a start of the current generation was confirmed. */
  function Confirmation(d: Disk, fates: seq<Fate>): Disk {
    if d.current.Some? then Confirm(Boot(d, fates), d.current.value).disk else d
  }

  ghost function Taken(d: Disk, fates: seq<Fate>): set<Loc> {
    d.links.Keys - Confirmation(d, fates).links.Keys
  }

  /** Only source links of the current generation go, each over its own inode in the store. */
  ghost predicate TakenOver(d: Disk, e: Disk) {
    && e == d.(links := e.links)
    && forall loc :: Same(e.links, d.links, loc)
         || (d.current.Some? && loc == ProfileFile(d.current.value.source, loc.rel) && loc in d.links && loc !in e.links
             && StoreFile(loc.rel) in e.links && e.links[StoreFile(loc.rel)] == d.links[loc])
  }

  lemma ConfirmationTakes(d: Disk, fates: seq<Fate>)
    ensures TakenOver(d, Confirmation(d, fates))
  {
    if d.current.Some? && d.current.value.source != d.current.value.target {
      ConfirmRun(Boot(d, fates), d.current.value.source, d.current.value.artifacts);
    }
  }

  /** The links it would take if nothing stopped it, read off before the call. */
  function StaleLinks(d: Disk): set<Loc> {
    if d.current.None? || d.current.value.source == d.current.value.target then {}
    else
      set x | x in d.current.value.artifacts && SameFile(d, d.current.value.source, x.rel)
        :: ProfileFile(d.current.value.source, x.rel)
  }

  ghost predicate StaleAmong(d: Disk, source: ProfileId, artifacts: seq<Artifact>, loc: Loc) {
    exists i :: 0 <= i < |artifacts| && loc == ProfileFile(source, artifacts[i].rel) && SameFile(d, source, artifacts[i].rel)
  }

  lemma {:induction false} ConfirmTakesStale(m: Machine, source: ProfileId, artifacts: seq<Artifact>, loc: Loc)
    requires loc in m.disk.links && loc !in ConfirmLinks(m, source, artifacts).disk.links
    ensures StaleAmong(m.disk, source, artifacts, loc)
    decreases |artifacts|
  {
    hide Step;
    if artifacts != [] {
      var rel := artifacts[0].rel;
      var n := ConfirmOne(m, source, rel);
      ConfirmStep(m, source, rel);
      if loc !in n.disk.links {
        assert loc == ProfileFile(source, rel) by { OneTaken(m, source, rel, loc); }
        assert SameFile(m.disk, source, rel);
      } else {
        ConfirmTakesStale(n, source, artifacts[1..], loc);
        var i :| 0 <= i < |artifacts[1..]|
          && loc == ProfileFile(source, artifacts[1..][i].rel) && SameFile(n.disk, source, artifacts[1..][i].rel);
        var later := artifacts[i + 1].rel;
        assert artifacts[1..][i] == artifacts[i + 1];
        if !SameFile(m.disk, source, later) { StaysDifferent(m.disk, n.disk, source, later); }
      }
    }
  }

  lemma OneTaken(m: Machine, source: ProfileId, rel: Rel, loc: Loc)
    requires loc in m.disk.links && loc !in ConfirmOne(m, source, rel).disk.links
    ensures loc == ProfileFile(source, rel) && SameFile(m.disk, source, rel)
  {
  }

  lemma {:induction false} ConfirmCompletes(m: Machine, source: ProfileId, artifacts: seq<Artifact>)
    requires m.status == Running && m.fates == []
    ensures ConfirmLinks(m, source, artifacts).status == Running
    decreases |artifacts|
  {
    if artifacts != [] { ConfirmCompletes(ConfirmOne(m, source, artifacts[0].rel), source, artifacts[1..]); }
  }

  /** A confirmation takes stale links only, and all of them if nothing stops it. */
  lemma TakenAreStale(d: Disk, fates: seq<Fate>)
    ensures Taken(d, fates) <= StaleLinks(d)
    ensures fates == [] ==> Taken(d, fates) == StaleLinks(d)
  {
    if d.current.None? || d.current.value.source == d.current.value.target { return; }
    var source, artifacts := d.current.value.source, d.current.value.artifacts;
    forall loc | loc in Taken(d, fates) ensures loc in StaleLinks(d) {
      ConfirmTakesStale(Boot(d, fates), source, artifacts, loc);
    }
    if fates == [] {
      ConfirmCompletes(Boot(d, []), source, artifacts);
      ConfirmRun(Boot(d, []), source, artifacts);
      forall loc | loc in StaleLinks(d) ensures loc in Taken(d, []) {
        var x :| x in artifacts && SameFile(d, source, x.rel) && loc == ProfileFile(source, x.rel);
        var i :| 0 <= i < |artifacts| && artifacts[i] == x;
        var e := Confirmation(d, []);
        assert !SameFile(e, source, artifacts[i].rel);
        assert Same(e.links, d.links, StoreFile(x.rel)) && (loc in e.links ==> Same(e.links, d.links, loc));
      }
    }
  }

  // ---- Exactly when recovery is lost ----

  /** An open journal needs one of these links: while commit.json is the old one
      an existing destination without a backup, and once it names the attempt
      the target link of an artifact. */
  ghost predicate Wedges(d: Disk, gone: set<Loc>) {
    d.journal.Some? &&
    var j := d.journal.value;
    && (j.phase == Preparing || j.phase == Prepared)
    && (if d.commit == Some(j.generation)
        then j.generation in d.generations && TakesArtifact(j.target, d.generations[j.generation], gone)
        else exists i :: 0 <= i < |j.links| && TakesOriginal(d, j, j.links[i], gone))
  }

  ghost predicate TakesArtifact(target: ProfileId, record: Generation, gone: set<Loc>) {
    exists x :: x in record.artifacts && ProfileFile(target, x.rel) in gone
  }

  ghost predicate TakesOriginal(d: Disk, j: Journal, p: LinkPlan, gone: set<Loc>) {
    && p.existed && p.side == TargetSide
    && ProfileFile(j.target, p.rel) in gone && BackupFile(j.generation, TargetSide, p.rel) !in d.links
  }

  lemma LostIff(d: Disk, fates: seq<Fate>, j: Journal, p: LinkPlan)
    requires !Lost(j.generation, j.target, d.links, p)
    ensures Lost(j.generation, j.target, Confirmation(d, fates).links, p) <==> TakesOriginal(d, j, p, Taken(d, fates))
  {
    ConfirmationTakes(d, fates);
    var e, dest := Confirmation(d, fates), Dest(j.target, p.side, p.rel);
    assert Same(e.links, d.links, BackupFile(j.generation, p.side, p.rel));
    assert dest in e.links ==> Same(e.links, d.links, dest);
  }

  lemma MatchIff(d: Disk, fates: seq<Fate>, target: ProfileId, record: Generation)
    requires LinksMatch(d, target, record)
    ensures LinksMatch(Confirmation(d, fates), target, record) <==> !TakesArtifact(target, record, Taken(d, fates))
  {
    ConfirmationTakes(d, fates);
    var e := Confirmation(d, fates);
    forall x | x in record.artifacts
      ensures ArtifactMatches(e, target, x) <==> ProfileFile(target, x.rel) !in Taken(d, fates)
    {
      assert ArtifactMatches(d, target, x) && Same(e.links, d.links, StoreFile(x.rel));
      assert ProfileFile(target, x.rel) in e.links ==> Same(e.links, d.links, ProfileFile(target, x.rel));
    }
  }

  /**
   * A confirmation, whatever stops it, makes a disk that recovery could resolve
   * unrecoverable exactly when the journal is open and it took a link that
   * journal needs. Its source is then the interrupted target.
   */
  lemma ConfirmRecoverableIff(d: Disk, fates: seq<Fate>, opts: Options)
    requires Recoverable(d, opts)
    ensures Recoverable(Confirmation(d, fates), opts) <==> !Wedges(d, Taken(d, fates))
    ensures Wedges(d, Taken(d, fates)) ==> d.current.Some? && d.current.value.source == d.journal.value.target
  {
    ConfirmationTakes(d, fates);
    if d.journal.None? { return; }
    var j, e := d.journal.value, Confirmation(d, fates);
    assert e.journal == d.journal && e.commit == d.commit && e.generations == d.generations;
    if j.phase == Preparing || j.phase == Prepared {
      hide Confirmation, Lost, LinksMatch;
      if d.commit == Some(j.generation) {
        MatchIff(d, fates, j.target, d.generations[j.generation]);
      } else {
        forall i | 0 <= i < |j.links|
          ensures Lost(j.generation, j.target, e.links, j.links[i]) <==> TakesOriginal(d, j, j.links[i], Taken(d, fates))
        {
          assert !Lost(j.generation, j.target, d.links, j.links[i]);
          LostIff(d, fates, j, j.links[i]);
        }
      }
    }
  }

  lemma WedgesMore(d: Disk, gone: set<Loc>, more: set<Loc>)
    requires gone <= more && Wedges(d, gone)
    ensures Wedges(d, more)
  {
    var j := d.journal.value;
    if d.commit == Some(j.generation) {
      var x :| x in d.generations[j.generation].artifacts && ProfileFile(j.target, x.rel) in gone;
      assert ProfileFile(j.target, x.rel) in more;
    } else {
      var i :| 0 <= i < |j.links| && TakesOriginal(d, j, j.links[i], gone);
      assert TakesOriginal(d, j, j.links[i], more);
    }
  }

  /** The same condition read off before the call: it decides an undisturbed
      confirmation, and where it says no, no confirmation does harm. */
  lemma WouldWedgeIff(d: Disk, fates: seq<Fate>, opts: Options)
    requires Recoverable(d, opts)
    ensures Recoverable(Confirmation(d, []), opts) <==> !Wedges(d, StaleLinks(d))
    ensures !Wedges(d, StaleLinks(d)) ==> Recoverable(Confirmation(d, fates), opts)
  {
    hide Confirmation, Wedges, Recoverable;
    TakenAreStale(d, []);
    TakenAreStale(d, fates);
    ConfirmRecoverableIff(d, [], opts);
    ConfirmRecoverableIff(d, fates, opts);
    if Wedges(d, Taken(d, fates)) { WedgesMore(d, Taken(d, fates), StaleLinks(d)); }
  }

  // ---- What it keeps ----

  lemma ConfirmTracked(a: Attempt, d: Disk, fates: seq<Fate>)
    requires Tracked(a, d)
    ensures Tracked(a, Confirmation(d, fates))
  {
    ConfirmationTakes(d, fates);
    var e := Confirmation(d, fates);
    forall side, rel | rel in a.rels ensures BackupFaithful(a, e, side, rel) {
      assert BackupFaithful(a, d, side, rel) && Same(e.links, d.links, BackupFile(a.id, side, rel));
    }
    forall loc | loc in e.links && loc.BackupFile? ensures Planned(a, loc) { assert Same(e.links, d.links, loc); }
  }

  lemma ConfirmSettled(d: Disk, fates: seq<Fate>)
    requires Settled(d)
    ensures Settled(Confirmation(d, fates))
  {
    ConfirmationTakes(d, fates);
    var e := Confirmation(d, fates);
    forall loc | loc in e.links && loc.BackupFile? ensures loc in d.links { assert Same(e.links, d.links, loc); }
  }

  /** A confirmation that takes no needed link keeps a consistent disk consistent. */
  lemma ConfirmConsistent(d: Disk, fates: seq<Fate>)
    requires Consistent(d) && !Wedges(d, Taken(d, fates))
    ensures Consistent(Confirmation(d, fates))
  {
    hide Confirmation, Settled, Wedges, Tracked;
    if Settled(d) {
      ConfirmSettled(d, fates);
    } else {
      var a :| Sound(a) && Mendable(a, d);
      ConfirmMendable(a, d, fates);
    }
  }

  lemma ConfirmMendable(a: Attempt, d: Disk, fates: seq<Fate>)
    requires Sound(a) && Mendable(a, d) && !Wedges(d, Taken(d, fates))
    ensures Mendable(a, Confirmation(d, fates))
  {
    var j, e := d.journal.value, Confirmation(d, fates);
    var opts := Options(j.source, j.target, 0, false);
    assert e.journal == d.journal by { ConfirmationTakes(d, fates); }
    hide Confirmation, Wedges, Recoverable, OwnBackups, AllFaithful;
    ConfirmTracked(a, d, fates);
    MendableIff(a, d, opts);
    ConfirmRecoverableIff(d, fates, opts);
    MendableIff(a, e, opts);
  }
}
