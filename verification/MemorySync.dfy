/**
 * The three-way synchronization of Claude memory trees
 * (src/server/claudeProfileMemory.ts): many profile branches share one
 * canonical tree, and each branch remembers the base it last agreed on.
 */
module MemorySync {
  import opened Common

  /** A relative path, split at its separators. */
  type Path = seq<string>
  type Branch = string

  /** Contents are identified by their digest. */
  datatype File = File(sha256: string, mode: nat)

  type Tree = map<Path, File>

  /** A tree as it is read: its regular files, and the artifacts it must not touch. */
  datatype Snapshot = Snapshot(files: Tree, unsafe: set<Path>)

  function Get(tree: Tree, path: Path): Option<File> {
    if path in tree then Some(tree[path]) else None
  }

  function Put(tree: Tree, path: Path, file: Option<File>): Tree {
    match file
    case None => tree - {path}
    case Some(f) => tree[path := f]
  }

  /** At or below an unsafe artifact. */
  predicate Blocked(path: Path, unsafe: set<Path>) {
    exists entry :: entry in unsafe && entry <= path
  }

  datatype Decision = Agree(chosen: Option<File>) | Diverge

  function Decide(ancestor: Option<File>, remote: Option<File>, local: Option<File>): Decision {
    if local == remote then Agree(local)
    else if local == ancestor then Agree(remote)
    else if remote == ancestor then Agree(local)
    else Diverge
  }

  datatype Reason = Diverged | UnsafeProfileArtifact | UnsafeCanonicalArtifact | UnsafeBaseArtifact

  datatype Conflict = Conflict(path: Path, reason: Reason)

  /** The three trees one branch is synchronized over. */
  datatype Triple = Triple(canonical: Snapshot, profile: Snapshot, base: Snapshot) {
    function Paths(): set<Path> { base.files.Keys + canonical.files.Keys + profile.files.Keys }

    /** Every name that is in use in one of the trees. */
    function Names(): set<Path> { Paths() + canonical.unsafe + profile.unsafe + base.unsafe }

    predicate Untouchable(path: Path) {
      Blocked(path, profile.unsafe) || Blocked(path, canonical.unsafe) || Blocked(path, base.unsafe)
    }

    function DecisionAt(path: Path): Decision {
      Decide(Get(base.files, path), Get(canonical.files, path), Get(profile.files, path))
    }

    /** The paths the merge sets in all three trees. */
    function Settled(): set<Path> {
      set path | path in Paths() && !Untouchable(path) && DecisionAt(path).Agree?
    }

    function DivergedPaths(): set<Path> {
      set path | path in Paths() && !Untouchable(path) && DecisionAt(path).Diverge?
    }

    function Conflicts(): set<Conflict> { ConflictsWith(DivergedPaths()) }

    function ConflictsWith(diverged: set<Path>): set<Conflict> {
      (set path | path in diverged :: Conflict(path, Diverged))
      + (set path | path in profile.unsafe :: Conflict(path, UnsafeProfileArtifact))
      + (set path | path in canonical.unsafe :: Conflict(path, UnsafeCanonicalArtifact))
      + (set path | path in base.unsafe :: Conflict(path, UnsafeBaseArtifact))
    }

    /** `tree` with the merged version of every path of `done`. */
    function Merged(tree: Tree, done: set<Path>): Tree
      requires done <= Settled()
    {
      map path | path in tree.Keys + done && (path in done ==> DecisionAt(path).chosen.Some?)
        :: if path in done then DecisionAt(path).chosen.value else tree[path]
    }

    /** The three trees after a synchronization that nothing interrupts. */
    function Next(): Triple {
      Triple(canonical.(files := Merged(canonical.files, Settled())),
             profile.(files := Merged(profile.files, Settled())),
             base.(files := Merged(base.files, Settled())))
    }
  }

  /** The paths an application of `next` writes: different, and not below an artifact of this tree. */
  function Changes(current: Snapshot, next: Tree): set<Path> {
    set path | path in current.files.Keys + next.Keys && !Blocked(path, current.unsafe)
               && Get(current.files, path) != Get(next, path)
  }

  /** `current` with the writes of `done` performed. */
  function Patch(current: Snapshot, next: Tree, done: set<Path>): Snapshot {
    current.(files := map path | path in current.files.Keys + next.Keys && (if path in done then path in next else path in current.files)
                                :: if path in done then next[path] else current.files[path])
  }

  // ---- Temporary files ----

  /** The name a file has in its tree while it is being written. */
  function TempName(path: Path, nonce: string): Path {
    if path == [] then [".tmp-" + nonce] else path[..|path| - 1] + [path[|path| - 1] + ".tmp-" + nonce]
  }

  /** Some file of this application was being written under that name when the process died. */
  ghost predicate Writing(current: Snapshot, next: Tree, done: set<Path>, name: Path, nonce: string) {
    exists path :: path in Changes(current, next) - done && path in next && name == TempName(path, nonce)
  }

  function WithFile(current: Snapshot, path: Path, file: File): Snapshot { current.(files := current.files[path := file]) }

  /** `tree` is `current` with the writes of `done`, and with the file a crash left in the middle of a write. */
  ghost predicate Applied(current: Snapshot, next: Tree, nonce: string, tree: Snapshot, done: set<Path>, left: Option<(Path, File)>) {
    && done <= Changes(current, next)
    && (match left
        case None => tree == Patch(current, next, done)
        case Some((name, file)) =>
          tree == WithFile(Patch(current, next, done), name, file) && Writing(current, next, done, name, nonce))
  }

  /** No name that is in use ends in this nonce. */
  ghost predicate FreshFor(paths: set<Path>, nonce: string) {
    forall path :: TempName(path, nonce) !in paths
  }

  // ---- The trees on disk ----

  datatype Store = Store(canonical: Snapshot, profiles: map<Branch, Snapshot>, bases: map<Branch, Snapshot>) {
    predicate Has(b: Branch) { b in profiles && b in bases }

    function Of(b: Branch): Triple
      requires Has(b)
    {
      Triple(canonical, profiles[b], bases[b])
    }

    function With(b: Branch, t: Triple): Store {
      Store(t.canonical, profiles[b := t.profile], bases[b := t.base])
    }

    function Sync(b: Branch): Store
      requires Has(b)
    {
      With(b, Of(b).Next())
    }
  }

  datatype Verdict = Skip | Conflicting | Choose(chosen: Option<File>)

  class MemoryStore {
    var canonical: Snapshot
    var profiles: map<Branch, Snapshot>
    var bases: map<Branch, Snapshot>
    /** How many more creations, renamings and removals of files the process survives. */
    var writesLeft: nat

    ghost function State(): Store
      reads this
    {
      Store(canonical, profiles, bases)
    }

    constructor (store: Store, writes: nat)
      ensures State() == store && writesLeft == writes
    {
      canonical, profiles, bases, writesLeft := store.canonical, store.profiles, store.bases, writes;
    }

    /** Writes a tree path by path, in any order, until it is done or the process
        dies. A file is created under a temporary name and then renamed; what a
        crash leaves under that name may be torn. */
    method ApplySnapshot(current: Snapshot, next: Tree, nonce: string)
      returns (tree: Snapshot, done: set<Path>, left: Option<(Path, File)>)
      requires FreshFor(current.files.Keys + next.Keys, nonce)
      modifies this`writesLeft
      ensures Applied(current, next, nonce, tree, done, left)
      ensures done != Changes(current, next) ==> writesLeft == 0
    {
      tree, done, left := current, {}, None;
      PatchNothing(current, next);
      ChangesIff(current, next);
      hide Patch, Changes, Writing, Blocked, Get, FreshFor, TempName, WithFile;
      var paths := current.files.Keys + next.Keys;
      ghost var changes := Changes(current, next);
      while paths != {}
        invariant paths <= current.files.Keys + next.Keys && done == changes - paths
        invariant tree == Patch(current, next, done)
        decreases paths
      {
        var path :| path in paths;
        if Blocked(path, current.unsafe) || Get(current.files, path) == Get(next, path) {
          assert path !in changes;
          paths := paths - {path};
          continue;
        }
        assert path in changes;
        if writesLeft == 0 { return; }
        writesLeft := writesLeft - 1;
        if path in next {
          var temporary, torn: File := TempName(path, nonce), *;
          tree := WithFile(tree, temporary, torn);
          if writesLeft == 0 {
            left := Some((temporary, torn));
            WrittenUnder(current, next, done, path, nonce);
            return;
          }
          writesLeft := writesLeft - 1;
          Renamed(current, next, done, path, nonce, torn);
          tree := tree.(files := (tree.files - {temporary})[path := next[path]]);
        } else {
          Removed(current, next, done, path);
          tree := tree.(files := tree.files - {path});
        }
        paths, done := paths - {path}, done + {path};
      }
    }

    /** The merge loop: three working copies, one path at a time. */
    method MergeTrees(t: Triple) returns (c: Tree, p: Tree, b: Tree, diverged: set<Path>)
      ensures c == t.Merged(t.canonical.files, t.Settled())
      ensures p == t.Merged(t.profile.files, t.Settled())
      ensures b == t.Merged(t.base.files, t.Settled())
      ensures diverged == t.DivergedPaths()
    {
      c, p, b, diverged := t.canonical.files, t.profile.files, t.base.files, {};
      ghost var done: set<Path> := {};
      var rest := t.Paths();
      MergedNothing(t);
      SettledOrDiverged(t);
      hide *;
      ghost var settled, parted := t.Settled(), t.DivergedPaths();
      while rest != {}
        invariant rest <= t.Paths() && done == settled - rest && diverged == parted - rest
        invariant WorkingCopies(t, done, c, p, b)
        decreases rest
      {
        var path :| path in rest;
        var verdict := MergePath(t, path);
        rest := rest - {path};
        if verdict == Skip { continue; }
        if verdict == Conflicting {
          diverged := diverged + {path};
          continue;
        }
        MergedNext(t, done, path, c, p, b);
        c, p, b := Put(c, path, verdict.chosen), Put(p, path, verdict.chosen), Put(b, path, verdict.chosen);
        done := done + {path};
      }
      MergedAll(t, done, c, p, b);
    }

    /** The body of the merge loop for one path. */
    method MergePath(t: Triple, path: Path) returns (verdict: Verdict)
      requires path in t.Paths()
      ensures match verdict
              case Skip => path !in t.Settled() && path !in t.DivergedPaths()
              case Conflicting => path in t.DivergedPaths() && path !in t.Settled()
              case Choose(chosen) => path in t.Settled() && path !in t.DivergedPaths() && t.DecisionAt(path).chosen == chosen
    {
      if Blocked(path, t.profile.unsafe) || Blocked(path, t.canonical.unsafe) || Blocked(path, t.base.unsafe) { return Skip; }
      var ancestor, remote, local := Get(t.base.files, path), Get(t.canonical.files, path), Get(t.profile.files, path);
      if local == remote { return Choose(local); }
      if local == ancestor { return Choose(remote); }
      if remote == ancestor { return Choose(local); }
      return Conflicting;
    }

    /** Canonical first, then the profile, then the base; `d1`, `d2` and `d3` are
        the writes each pass got to, `litter` the temporary file a crash left. */
    method SynchronizeLocked(branch: Branch, nonce: string)
      returns (conflicts: set<Conflict>, ghost d1: set<Path>, ghost d2: set<Path>, ghost d3: set<Path>, ghost litter: Litter)
      requires State().Has(branch) && FreshFor(State().Of(branch).Names(), nonce)
      modifies this
      ensures
        var t := old(State()).Of(branch);
        && conflicts == t.Conflicts()
        && StopsAs(old(State()), branch, State(), d1, d2, d3, litter, nonce)
        && (writesLeft == 0 || Complete(t, d1, d2, d3))
    {
      ghost var s := State();
      var t := Triple(canonical, profiles[branch], bases[branch]);
      d2, d3, litter := {}, {}, NoLitter;
      var c, p, b, diverged := MergeTrees(t);
      conflicts := t.ConflictsWith(diverged);
      PassesFresh(t, nonce);
      hide Triple.ConflictsWith, Triple.Merged, Triple.DivergedPaths, Triple.Settled, Triple.Names,
        Changes, Patch, Writing, WithFile, StopsAs, FreshFor;
      var newCanonical, done1, left1 := ApplySnapshot(t.canonical, c, nonce);
      canonical, d1 := newCanonical, done1;
      StopsInCanonical(s, branch, canonical, d1, left1, nonce);
      if left1.Some? { litter := InCanonical(left1.value.0, left1.value.1); }
      if done1 != Changes(t.canonical, c) { return; }
      var newProfile, done2, left2 := ApplySnapshot(t.profile, p, nonce);
      profiles, d2 := profiles[branch := newProfile], done2;
      StopsInProfile(s, branch, canonical, newProfile, d1, d2, left2, nonce);
      if left2.Some? { litter := InProfile(left2.value.0, left2.value.1); }
      if done2 != Changes(t.profile, p) { return; }
      var newBase, done3, left3 := ApplySnapshot(t.base, b, nonce);
      bases, d3 := bases[branch := newBase], done3;
      StopsInBase(s, branch, canonical, newProfile, newBase, d1, d2, d3, left3, nonce);
      if left3.Some? { litter := InBase(left3.value.0, left3.value.1); }
    }
  }

  // ---- A synchronization stopped between two steps ----

  /** The temporary file a crash leaves in one of the trees, if it hits a write. */
  datatype Litter = NoLitter | InCanonical(name: Path, file: File) | InProfile(name: Path, file: File) | InBase(name: Path, file: File)

  /** The trees after the writes `d1`, `d2` and `d3` of the three passes. */
  function Written(t: Triple, d1: set<Path>, d2: set<Path>, d3: set<Path>): Triple {
    var n := t.Next();
    Triple(Patch(t.canonical, n.canonical.files, d1), Patch(t.profile, n.profile.files, d2), Patch(t.base, n.base.files, d3))
  }

  function Littered(t: Triple, litter: Litter): Triple {
    match litter
    case NoLitter => t
    case InCanonical(name, file) => t.(canonical := WithFile(t.canonical, name, file))
    case InProfile(name, file) => t.(profile := WithFile(t.profile, name, file))
    case InBase(name, file) => t.(base := WithFile(t.base, name, file))
  }

  function Stopped(t: Triple, d1: set<Path>, d2: set<Path>, d3: set<Path>, litter: Litter): Triple {
    Littered(Written(t, d1, d2, d3), litter)
  }

  /** The litter is a file that the pass under way was writing. */
  ghost predicate LeftBy(t: Triple, d1: set<Path>, d2: set<Path>, d3: set<Path>, litter: Litter, nonce: string) {
    var n := t.Next();
    match litter
    case NoLitter => true
    case InCanonical(name, _) => d2 == d3 == {} && Writing(t.canonical, n.canonical.files, d1, name, nonce)
    case InProfile(name, _) =>
      d1 == Changes(t.canonical, n.canonical.files) && d3 == {} && Writing(t.profile, n.profile.files, d2, name, nonce)
    case InBase(name, _) =>
      && d1 == Changes(t.canonical, n.canonical.files) && d2 == Changes(t.profile, n.profile.files)
      && Writing(t.base, n.base.files, d3, name, nonce)
  }

  ghost predicate Complete(t: Triple, d1: set<Path>, d2: set<Path>, d3: set<Path>) {
    var n := t.Next();
    d1 == Changes(t.canonical, n.canonical.files) && d2 == Changes(t.profile, n.profile.files) && d3 == Changes(t.base, n.base.files)
  }

  /** A pass starts only when the one before it is complete. */
  ghost predicate InPassOrder(t: Triple, d1: set<Path>, d2: set<Path>, d3: set<Path>) {
    var n := t.Next();
    && d1 <= Changes(t.canonical, n.canonical.files) && d2 <= Changes(t.profile, n.profile.files) && d3 <= Changes(t.base, n.base.files)
    && (d2 != {} ==> d1 == Changes(t.canonical, n.canonical.files))
    && (d3 != {} ==> d1 == Changes(t.canonical, n.canonical.files) && d2 == Changes(t.profile, n.profile.files))
  }

  /** The store after a synchronization that got no further than `d1`, `d2` and `d3`. */
  ghost predicate StopsAs(s: Store, b: Branch, e: Store, d1: set<Path>, d2: set<Path>, d3: set<Path>, litter: Litter, nonce: string)
    requires s.Has(b)
  {
    var t := s.Of(b);
    e == s.With(b, Stopped(t, d1, d2, d3, litter)) && InPassOrder(t, d1, d2, d3) && LeftBy(t, d1, d2, d3, litter, nonce)
  }

  lemma StopsInCanonical(s: Store, b: Branch, tree: Snapshot, d1: set<Path>, left: Option<(Path, File)>, nonce: string)
    requires s.Has(b) && var t := s.Of(b); Applied(t.canonical, t.Next().canonical.files, nonce, tree, d1, left)
    ensures
      var litter := if left.None? then NoLitter else InCanonical(left.value.0, left.value.1);
      StopsAs(s, b, Store(tree, s.profiles, s.bases), d1, {}, {}, litter, nonce)
  {
    var t := s.Of(b);
    var n := t.Next();
    hide Triple.Next, Changes, Patch, Writing;
    PatchNothing(t.profile, n.profile.files);
    PatchNothing(t.base, n.base.files);
    assert s.profiles[b := t.profile] == s.profiles && s.bases[b := t.base] == s.bases;
  }

  lemma StopsInProfile(s: Store, b: Branch, canonical: Snapshot, tree: Snapshot,
                       d1: set<Path>, d2: set<Path>, left: Option<(Path, File)>, nonce: string)
    requires s.Has(b)
    requires
      var t, n := s.Of(b), s.Of(b).Next();
      && d1 == Changes(t.canonical, n.canonical.files) && canonical == Patch(t.canonical, n.canonical.files, d1)
      && Applied(t.profile, n.profile.files, nonce, tree, d2, left)
    ensures
      var litter := if left.None? then NoLitter else InProfile(left.value.0, left.value.1);
      StopsAs(s, b, Store(canonical, s.profiles[b := tree], s.bases), d1, d2, {}, litter, nonce)
  {
    var t := s.Of(b);
    var n := t.Next();
    hide Triple.Next, Changes, Patch, Writing;
    PatchNothing(t.base, n.base.files);
    assert s.bases[b := t.base] == s.bases;
  }

  lemma StopsInBase(s: Store, b: Branch, canonical: Snapshot, profile: Snapshot, tree: Snapshot,
                    d1: set<Path>, d2: set<Path>, d3: set<Path>, left: Option<(Path, File)>, nonce: string)
    requires s.Has(b)
    requires
      var t, n := s.Of(b), s.Of(b).Next();
      && d1 == Changes(t.canonical, n.canonical.files) && canonical == Patch(t.canonical, n.canonical.files, d1)
      && d2 == Changes(t.profile, n.profile.files) && profile == Patch(t.profile, n.profile.files, d2)
      && Applied(t.base, n.base.files, nonce, tree, d3, left)
    ensures
      var litter := if left.None? then NoLitter else InBase(left.value.0, left.value.1);
      StopsAs(s, b, Store(canonical, s.profiles[b := profile], s.bases[b := tree]), d1, d2, d3, litter, nonce)
  {
    hide Triple.Next, Changes, Patch, Writing;
  }

  lemma PassesFresh(t: Triple, nonce: string)
    requires FreshFor(t.Names(), nonce)
    ensures
      var n := t.Next();
      && FreshFor(t.canonical.files.Keys + n.canonical.files.Keys, nonce)
      && FreshFor(t.profile.files.Keys + n.profile.files.Keys, nonce)
      && FreshFor(t.base.files.Keys + n.base.files.Keys, nonce)
  {
    var n := t.Next();
    assert n.canonical.files.Keys <= t.Names() && n.profile.files.Keys <= t.Names() && n.base.files.Keys <= t.Names();
  }

  lemma PatchNothing(current: Snapshot, next: Tree)
    ensures Patch(current, next, {}) == current
  {
  }

  lemma WrittenUnder(current: Snapshot, next: Tree, done: set<Path>, path: Path, nonce: string)
    requires path in Changes(current, next) && path !in done && path in next
    ensures Writing(current, next, done, TempName(path, nonce), nonce)
  {
  }

  /** Renaming the temporary file puts the new version at its path and leaves nothing else. */
  lemma Renamed(current: Snapshot, next: Tree, done: set<Path>, path: Path, nonce: string, torn: File)
    requires path in next && path !in done && FreshFor(current.files.Keys + next.Keys, nonce)
    ensures
      var tree := WithFile(Patch(current, next, done), TempName(path, nonce), torn);
      tree.(files := (tree.files - {TempName(path, nonce)})[path := next[path]]) == Patch(current, next, done + {path})
  {
    assert TempName(path, nonce) !in current.files.Keys + next.Keys;
  }

  lemma Removed(current: Snapshot, next: Tree, done: set<Path>, path: Path)
    requires path in current.files.Keys + next.Keys && path !in next && path !in done
    ensures
      var tree := Patch(current, next, done);
      tree.(files := tree.files - {path}) == Patch(current, next, done + {path})
  {
  }

  lemma ChangesIff(current: Snapshot, next: Tree)
    ensures Changes(current, next) <= current.files.Keys + next.Keys
    ensures forall path :: path in current.files.Keys + next.Keys ==>
      (path in Changes(current, next) <==> !Blocked(path, current.unsafe) && Get(current.files, path) != Get(next, path))
  {
  }

  lemma SettledOrDiverged(t: Triple)
    ensures t.Settled() <= t.Paths() && t.DivergedPaths() <= t.Paths()
  {
  }

  /** The three working copies with the paths of `done` merged. */
  ghost predicate WorkingCopies(t: Triple, done: set<Path>, c: Tree, p: Tree, b: Tree) {
    && done <= t.Settled()
    && c == t.Merged(t.canonical.files, done) && p == t.Merged(t.profile.files, done) && b == t.Merged(t.base.files, done)
  }

  lemma MergedNothing(t: Triple)
    ensures WorkingCopies(t, {}, t.canonical.files, t.profile.files, t.base.files)
  {
  }

  lemma MergedNext(t: Triple, done: set<Path>, path: Path, c: Tree, p: Tree, b: Tree)
    requires WorkingCopies(t, done, c, p, b) && path in t.Settled() && path !in done
    ensures var chosen := t.DecisionAt(path).chosen;
      WorkingCopies(t, done + {path}, Put(c, path, chosen), Put(p, path, chosen), Put(b, path, chosen))
  {
    MergedOneMore(t, t.canonical.files, done, path);
    MergedOneMore(t, t.profile.files, done, path);
    MergedOneMore(t, t.base.files, done, path);
    hide Triple.Merged, Triple.Settled, Put;
  }

  lemma MergedAll(t: Triple, done: set<Path>, c: Tree, p: Tree, b: Tree)
    requires WorkingCopies(t, done, c, p, b) && done == t.Settled()
    ensures c == t.Merged(t.canonical.files, t.Settled())
    ensures p == t.Merged(t.profile.files, t.Settled())
    ensures b == t.Merged(t.base.files, t.Settled())
  {
  }

  lemma MergedOneMore(t: Triple, tree: Tree, done: set<Path>, path: Path)
    requires done <= t.Settled() && path in t.Settled() && path !in done
    ensures Put(t.Merged(tree, done), path, t.DecisionAt(path).chosen) == t.Merged(tree, done + {path})
  {
  }
}
