/** Crash convergence, multi-profile convergence and no lost edit of the memory synchronization. */
module MemoryTheorems {
  import opened Common
  import opened MemorySync

  // ---- Path by path ----

  lemma SameTrees(a: Tree, b: Tree)
    requires forall path :: Get(a, path) == Get(b, path)
    ensures a == b
  {
    assert a.Keys == b.Keys by {
      forall path ensures path in a.Keys <==> path in b.Keys { assert Get(a, path) == Get(b, path); }
    }
    forall path | path in a ensures a[path] == b[path] { assert Get(a, path) == Get(b, path); }
  }

  /** What a synchronization makes of one path. */
  ghost predicate Outcome(t: Triple, n: Triple, path: Path) {
    var a, r, l := Get(t.base.files, path), Get(t.canonical.files, path), Get(t.profile.files, path);
    if t.Untouchable(path) || Decide(a, r, l).Diverge?
    then Get(n.canonical.files, path) == r && Get(n.profile.files, path) == l && Get(n.base.files, path) == a
    else Get(n.canonical.files, path) == Get(n.profile.files, path) == Get(n.base.files, path) == Decide(a, r, l).chosen
  }

  lemma NextAt(t: Triple, path: Path)
    ensures Outcome(t, t.Next(), path)
  {
  }

  // ---- No lost edit ----

  /**
   * No lost edit. At every path, after a synchronization: either all three
   * trees hold one version, and it is the one of profile and canonical that
   * differs from the base, if any does; or the path is blocked or diverged,
   * nothing changed there, and a divergence is recorded as a conflict. The base
   * moves only to a version that profile and canonical then both hold.
   */
  lemma NoLostEdit(t: Triple, path: Path)
    ensures
      var n := t.Next();
      var a, r, l := Get(t.base.files, path), Get(t.canonical.files, path), Get(t.profile.files, path);
      var r', l', a' := Get(n.canonical.files, path), Get(n.profile.files, path), Get(n.base.files, path);
      && (t.Untouchable(path) ==> r' == r && l' == l && a' == a)
      && (!t.Untouchable(path) && l != a && r != a && l != r ==>
            r' == r && l' == l && a' == a && Conflict(path, Diverged) in t.Conflicts())
      && (!t.Untouchable(path) && !(l != a && r != a && l != r) ==>
            r' == l' == a' && (l != a ==> a' == l) && (r != a ==> a' == r) && (l == a && r == a ==> a' == a)
            && Conflict(path, Diverged) !in t.Conflicts())
      && (a' != a ==> a' == r' && a' == l')
  {
    NextAt(t, path);
    assert Conflict(path, Diverged) in t.Conflicts() <==> path in t.DivergedPaths();
  }

  // ---- Convergence after a crash ----

  /** At every path the stopped trees decide as the original ones did, up to
      versions that have already arrived. */
  lemma StoppedDecides(t: Triple, d1: set<Path>, d2: set<Path>, d3: set<Path>, path: Path)
    requires InPassOrder(t, d1, d2, d3) && !t.Untouchable(path)
    ensures Written(t, d1, d2, d3).DecisionAt(path) == t.DecisionAt(path)
    ensures t.DecisionAt(path).Diverge? ==>
      var e := Written(t, d1, d2, d3);
      Get(e.canonical.files, path) == Get(t.canonical.files, path) && Get(e.profile.files, path) == Get(t.profile.files, path)
      && Get(e.base.files, path) == Get(t.base.files, path)
  {
  }

  lemma StoppedUntouched(t: Triple, d1: set<Path>, d2: set<Path>, d3: set<Path>, path: Path)
    requires InPassOrder(t, d1, d2, d3) && t.Untouchable(path)
    ensures
      var e := Written(t, d1, d2, d3);
      && Get(e.canonical.files, path) == Get(t.canonical.files, path)
      && Get(e.profile.files, path) == Get(t.profile.files, path)
      && Get(e.base.files, path) == Get(t.base.files, path)
  {
  }

  /** The second run makes of every path what the uninterrupted first one would have. */
  lemma RerunAt(t: Triple, d1: set<Path>, d2: set<Path>, d3: set<Path>, path: Path)
    requires InPassOrder(t, d1, d2, d3)
    ensures
      var e, n := Written(t, d1, d2, d3).Next(), t.Next();
      && Get(e.canonical.files, path) == Get(n.canonical.files, path)
      && Get(e.profile.files, path) == Get(n.profile.files, path)
      && Get(e.base.files, path) == Get(n.base.files, path)
  {
    var s := Written(t, d1, d2, d3);
    NextAt(t, path);
    NextAt(s, path);
    assert s.Untouchable(path) == t.Untouchable(path);
    if t.Untouchable(path) { StoppedUntouched(t, d1, d2, d3, path); } else { StoppedDecides(t, d1, d2, d3, path); }
    hide Triple.Untouchable, Triple.Next, Written, InPassOrder;
  }

  // ---- Paths at or below an artifact ----

  /** Some prefix of the path, or the path itself, is an artifact of one of the trees. */
  ghost predicate BelowArtifact(t: Triple, path: Path) {
    exists k :: 0 <= k <= |path| && (path[..k] in t.profile.unsafe || path[..k] in t.canonical.unsafe || path[..k] in t.base.unsafe)
  }

  lemma BlockedMeaning(path: Path, unsafe: set<Path>)
    ensures Blocked(path, unsafe) <==> exists k :: 0 <= k <= |path| && path[..k] in unsafe
  {
    if Blocked(path, unsafe) {
      var entry :| entry in unsafe && entry <= path;
      assert path[..|entry|] == entry;
    }
    if k :| 0 <= k <= |path| && path[..k] in unsafe { assert path[..k] <= path; }
  }

  lemma UntouchableMeaning(t: Triple, path: Path)
    ensures t.Untouchable(path) <==> BelowArtifact(t, path)
  {
    BlockedMeaning(path, t.profile.unsafe);
    BlockedMeaning(path, t.canonical.unsafe);
    BlockedMeaning(path, t.base.unsafe);
    hide Blocked;
  }

  ghost predicate SameAt(t: Triple, e: Triple, path: Path) {
    && Get(e.canonical.files, path) == Get(t.canonical.files, path)
    && Get(e.profile.files, path) == Get(t.profile.files, path)
    && Get(e.base.files, path) == Get(t.base.files, path)
  }

  /**
   * What an artifact shields: a path at or below one, in whichever tree, keeps
   * its version in all three trees, at the end and at every stop, and no
   * divergence is recorded for it.
   */
  lemma ArtifactShields(t: Triple, path: Path, d1: set<Path>, d2: set<Path>, d3: set<Path>, litter: Litter, nonce: string)
    requires BelowArtifact(t, path)
    requires InPassOrder(t, d1, d2, d3) && LeftBy(t, d1, d2, d3, litter, nonce) && FreshFor(t.Names(), nonce)
    ensures SameAt(t, t.Next(), path) && SameAt(t, Stopped(t, d1, d2, d3, litter), path)
    ensures Conflict(path, Diverged) !in t.Conflicts()
  {
    hide *;
    UntouchableMeaning(t, path);
    UntouchableStays(t, path);
    StoppedUntouched(t, d1, d2, d3, path);
    LitterUnused(t, d1, d2, d3, litter, nonce);
    LitterElsewhere(t, Written(t, d1, d2, d3), litter, path);
    StoppedIs(t, d1, d2, d3, litter);
  }

  lemma UntouchableStays(t: Triple, path: Path)
    requires t.Untouchable(path)
    ensures SameAt(t, t.Next(), path) && Conflict(path, Diverged) !in t.Conflicts()
  {
    NextAt(t, path);
    assert path !in t.DivergedPaths();
    hide Triple.Next, Triple.Untouchable;
  }

  lemma StoppedIs(t: Triple, d1: set<Path>, d2: set<Path>, d3: set<Path>, litter: Litter)
    ensures Stopped(t, d1, d2, d3, litter) == Littered(Written(t, d1, d2, d3), litter)
  {
  }

  /** A file left at an unused name is at no path below an artifact. */
  lemma LitterElsewhere(t: Triple, s: Triple, litter: Litter, path: Path)
    requires t.Untouchable(path) && (litter != NoLitter ==> Unused(t, litter.name))
    requires
      && Get(s.canonical.files, path) == Get(t.canonical.files, path) && Get(s.profile.files, path) == Get(t.profile.files, path)
      && Get(s.base.files, path) == Get(t.base.files, path)
    ensures SameAt(t, Littered(s, litter), path)
  {
    hide Triple.Names, Blocked;
    assert litter != NoLitter ==> path != litter.name;
  }

  /** Every other path is merged: all three trees end with the edited version, or
      nothing changes and the divergence is recorded. */
  lemma OpenPathMerged(t: Triple, path: Path)
    requires !BelowArtifact(t, path)
    ensures
      var n := t.Next();
      var a, r, l := Get(t.base.files, path), Get(t.canonical.files, path), Get(t.profile.files, path);
      if l != a && r != a && l != r
      then SameAt(t, n, path) && Conflict(path, Diverged) in t.Conflicts()
      else && Get(n.canonical.files, path) == Get(n.profile.files, path) == Get(n.base.files, path) == (if l != a then l else r)
           && Conflict(path, Diverged) !in t.Conflicts()
  {
    UntouchableMeaning(t, path);
    NoLostEdit(t, path);
    hide Triple.Next, Triple.Conflicts, Triple.Untouchable, BelowArtifact;
  }

  /** Every artifact is recorded, under the tree it is in, and nothing else is but divergences. */
  lemma ArtifactsRecorded(t: Triple, c: Conflict)
    ensures c in t.Conflicts() <==>
      match c.reason
      case UnsafeProfileArtifact => c.path in t.profile.unsafe
      case UnsafeCanonicalArtifact => c.path in t.canonical.unsafe
      case UnsafeBaseArtifact => c.path in t.base.unsafe
      case Diverged =>
        !BelowArtifact(t, c.path)
        && Get(t.profile.files, c.path) != Get(t.base.files, c.path)
        && Get(t.canonical.files, c.path) != Get(t.base.files, c.path)
        && Get(t.profile.files, c.path) != Get(t.canonical.files, c.path)
  {
    UntouchableMeaning(t, c.path);
    hide BelowArtifact, Triple.Untouchable;
  }

  /** Stopped between two files, a synchronization run again ends in the same trees with the same conflicts. */
  lemma WrittenConverges(t: Triple, d1: set<Path>, d2: set<Path>, d3: set<Path>)
    requires InPassOrder(t, d1, d2, d3)
    ensures Written(t, d1, d2, d3).Next() == t.Next()
    ensures Written(t, d1, d2, d3).Conflicts() == t.Conflicts()
  {
    var s := Written(t, d1, d2, d3);
    var e, n := s.Next(), t.Next();
    forall path
      ensures Get(e.canonical.files, path) == Get(n.canonical.files, path)
      ensures Get(e.profile.files, path) == Get(n.profile.files, path)
      ensures Get(e.base.files, path) == Get(n.base.files, path)
    {
      RerunAt(t, d1, d2, d3, path);
    }
    SameTrees(e.canonical.files, n.canonical.files);
    SameTrees(e.profile.files, n.profile.files);
    SameTrees(e.base.files, n.base.files);
    forall path ensures path in t.DivergedPaths() <==> path in s.DivergedPaths() {
      assert s.Untouchable(path) == t.Untouchable(path);
      if !t.Untouchable(path) { StoppedDecides(t, d1, d2, d3, path); }
    }
  }

  // ---- The temporary file a crash leaves ----

  /** A name nothing uses and no unsafe artifact blocks. */
  ghost predicate Unused(t: Triple, name: Path) { name !in t.Names() && !t.Untouchable(name) }

  lemma ChangedSettled(t: Triple, current: Snapshot, path: Path)
    requires path in Changes(current, t.Merged(current.files, t.Settled()))
    ensures path in t.Settled() && !t.Untouchable(path)
  {
  }

  lemma BesideUntouchable(t: Triple, path: Path, nonce: string)
    requires !t.Untouchable(path) && TempName(path, nonce) !in t.Names()
    ensures !t.Untouchable(TempName(path, nonce))
  {
    forall entry | entry in t.Names() && entry <= TempName(path, nonce) ensures entry <= path { BesideIt(path, nonce, entry); }
    hide TempName;
  }

  /** The temporary name of a file that is written is unused: it lies beside the file. */
  lemma WritingUnused(t: Triple, current: Snapshot, done: set<Path>, name: Path, nonce: string)
    requires current == t.canonical || current == t.profile || current == t.base
    requires Writing(current, t.Merged(current.files, t.Settled()), done, name, nonce) && FreshFor(t.Names(), nonce)
    ensures Unused(t, name)
  {
    var path :| path in Changes(current, t.Merged(current.files, t.Settled())) - done && name == TempName(path, nonce);
    ChangedSettled(t, current, path);
    hide Changes, Triple.Merged, Triple.Settled, Triple.Untouchable, Triple.Names;
    assert name !in t.Names();
    BesideUntouchable(t, path, nonce);
  }

  lemma BesideIt(path: Path, nonce: string, entry: Path)
    requires entry <= TempName(path, nonce) && entry != TempName(path, nonce)
    ensures entry <= path
  {
    var name := TempName(path, nonce);
    assert |entry| < |name|;
    assert entry == name[..|entry|] == path[..|entry|];
  }

  lemma LitterUnused(t: Triple, d1: set<Path>, d2: set<Path>, d3: set<Path>, litter: Litter, nonce: string)
    requires LeftBy(t, d1, d2, d3, litter, nonce) && FreshFor(t.Names(), nonce)
    ensures litter != NoLitter ==> Unused(t, litter.name)
  {
    hide Triple.Merged, Triple.Settled, Triple.Names, Writing, Unused, FreshFor;
    match litter
    case NoLitter =>
    case InCanonical(name, _) => WritingUnused(t, t.canonical, d1, name, nonce);
    case InProfile(name, _) => WritingUnused(t, t.profile, d2, name, nonce);
    case InBase(name, _) => WritingUnused(t, t.base, d3, name, nonce);
  }

  lemma WrittenUnused(t: Triple, d1: set<Path>, d2: set<Path>, d3: set<Path>, name: Path)
    requires InPassOrder(t, d1, d2, d3) && Unused(t, name)
    ensures Unused(Written(t, d1, d2, d3), name) && name !in t.Next().Names()
  {
    assert t.Next().Names() <= t.Names();
    assert Written(t, d1, d2, d3).Names() <= t.Names();
  }

  /** Litter changes what a synchronization does at its own name only. */
  lemma LitteredElsewhere(s: Triple, litter: Litter, path: Path)
    requires litter != NoLitter && path != litter.name
    ensures
      var e, n := Littered(s, litter).Next(), s.Next();
      && Get(e.canonical.files, path) == Get(n.canonical.files, path)
      && Get(e.profile.files, path) == Get(n.profile.files, path)
      && Get(e.base.files, path) == Get(n.base.files, path)
    ensures Littered(s, litter).Untouchable(path) == s.Untouchable(path)
    ensures Littered(s, litter).DecisionAt(path) == s.DecisionAt(path)
  {
    var l := Littered(s, litter);
    assert l.Untouchable(path) == s.Untouchable(path);
    NextAt(l, path);
    NextAt(s, path);
    hide Triple.Untouchable, Triple.Next;
  }

  /** Litter in the canonical or the profile tree is taken for a new file and
      spread; litter in the base is taken for a file both sides deleted. */
  lemma LitteredThere(s: Triple, litter: Litter)
    requires litter != NoLitter && Unused(s, litter.name)
    ensures
      var e := Littered(s, litter).Next();
      Get(e.canonical.files, litter.name) == Get(e.profile.files, litter.name) == Get(e.base.files, litter.name)
      == if litter.InBase? then None else Some(litter.file)
    ensures litter.name !in Littered(s, litter).DivergedPaths()
  {
    var l := Littered(s, litter);
    assert l.Untouchable(litter.name) == s.Untouchable(litter.name);
    NextAt(l, litter.name);
    hide Triple.Untouchable, Triple.Next;
  }

  /** The trees with one more file in each. */
  function Spread(t: Triple, name: Path, file: File): Triple {
    Triple(WithFile(t.canonical, name, file), WithFile(t.profile, name, file), WithFile(t.base, name, file))
  }

  lemma LitteredNext(s: Triple, litter: Litter)
    requires litter != NoLitter && Unused(s, litter.name) && litter.name !in s.Next().Names()
    ensures Littered(s, litter).Next() == if litter.InBase? then s.Next() else Spread(s.Next(), litter.name, litter.file)
    ensures Littered(s, litter).Conflicts() == s.Conflicts()
  {
    var l := Littered(s, litter);
    var e, n := l.Next(), if litter.InBase? then s.Next() else Spread(s.Next(), litter.name, litter.file);
    LitteredThere(s, litter);
    forall path
      ensures Get(e.canonical.files, path) == Get(n.canonical.files, path)
      ensures Get(e.profile.files, path) == Get(n.profile.files, path)
      ensures Get(e.base.files, path) == Get(n.base.files, path)
    {
      if path != litter.name { LitteredElsewhere(s, litter, path); }
    }
    SameTrees(e.canonical.files, n.canonical.files);
    SameTrees(e.profile.files, n.profile.files);
    SameTrees(e.base.files, n.base.files);
    forall path ensures path in l.DivergedPaths() <==> path in s.DivergedPaths() {
      if path != litter.name { LitteredElsewhere(s, litter, path); }
    }
  }

  /**
   * Convergence without a journal, and its limit. Stopped after any writes of
   * the canonical, profile and base passes, in whatever order each pass writes
   * its paths, a synchronization run again records the same conflicts and ends
   * in the same three trees as one that was never interrupted exactly when the
   * crash left no temporary file in the canonical or the profile tree. A file
   * it left there, whole or torn, ends in all three trees.
   */
  lemma CrashConvergence(t: Triple, d1: set<Path>, d2: set<Path>, d3: set<Path>, litter: Litter, nonce: string)
    requires InPassOrder(t, d1, d2, d3) && LeftBy(t, d1, d2, d3, litter, nonce) && FreshFor(t.Names(), nonce)
    ensures
      var s := Stopped(t, d1, d2, d3, litter);
      && s.Conflicts() == t.Conflicts()
      && (s.Next() == t.Next() <==> litter.NoLitter? || litter.InBase?)
      && (litter.InCanonical? || litter.InProfile? ==> s.Next() == Spread(t.Next(), litter.name, litter.file))
  {
    WrittenConverges(t, d1, d2, d3);
    if litter != NoLitter {
      LitterUnused(t, d1, d2, d3, litter, nonce);
      WrittenUnused(t, d1, d2, d3, litter.name);
      LitteredNext(Written(t, d1, d2, d3), litter);
      assert litter.name !in t.Next().canonical.files;
      assert litter.name in Spread(t.Next(), litter.name, litter.file).canonical.files;
    }
    hide Triple.Next, Triple.Conflicts, Written, LeftBy;
  }

  /** A first synchronization of one file that dies while writing it into the
      canonical tree: run again, it spreads the temporary file. */
  lemma LitterSpreads(file: File, torn: File)
    ensures
      var empty := Snapshot(map[], {});
      var t := Triple(empty, Snapshot(map[["notes.md"] := file], {}), empty);
      var litter := InCanonical(TempName(["notes.md"], "1"), torn);
      && InPassOrder(t, {}, {}, {}) && LeftBy(t, {}, {}, {}, litter, "1") && FreshFor(t.Names(), "1")
      && Stopped(t, {}, {}, {}, litter).Next() != t.Next()
  {
    var empty := Snapshot(map[], {});
    var path := ["notes.md"];
    var t := Triple(empty, Snapshot(map[path := file], {}), empty);
    var litter := InCanonical(TempName(path, "1"), torn);
    NextAt(t, path);
    assert path in t.Paths() && !t.Untouchable(path);
    assert path in Changes(t.canonical, t.Next().canonical.files) - {};
    TempNamesLonger(path, "1");
    CrashConvergence(t, {}, {}, {}, litter, "1");
  }

  /** No temporary name with this nonce is the name of the file. */
  lemma TempNamesLonger(path: Path, nonce: string)
    requires path == ["notes.md"] && nonce == "1"
    ensures FreshFor({path}, nonce)
  {
    forall other ensures TempName(other, nonce) != path {
      var name := TempName(other, nonce);
      var last := name[|name| - 1];
      assert last[|last| - 1] == '1';
    }
  }

  /**
   * At every moment of a synchronization, interrupted or not, a version that
   * was edited since the base is still where it was edited, and a base that
   * moved holds what profile and canonical both hold, except where a crash left
   * a temporary file in the base.
   */
  lemma EditsNeverOverwritten(t: Triple, d1: set<Path>, d2: set<Path>, d3: set<Path>, litter: Litter, nonce: string, path: Path)
    requires InPassOrder(t, d1, d2, d3) && LeftBy(t, d1, d2, d3, litter, nonce) && FreshFor(t.Names(), nonce)
    ensures
      var e := Stopped(t, d1, d2, d3, litter);
      && (Get(t.profile.files, path) != Get(t.base.files, path) ==> Get(e.profile.files, path) == Get(t.profile.files, path))
      && (Get(t.canonical.files, path) != Get(t.base.files, path) ==> Get(e.canonical.files, path) == Get(t.canonical.files, path))
      && (Get(e.base.files, path) != Get(t.base.files, path) && !(litter.InBase? && path == litter.name) ==>
            Get(e.base.files, path) == Get(e.profile.files, path) == Get(e.canonical.files, path))
  {
    LitterUnused(t, d1, d2, d3, litter, nonce);
    EditsStay(t, d1, d2, d3, path);
    if litter != NoLitter { WrittenUnused(t, d1, d2, d3, litter.name); }
    hide Triple.Next, Triple.Untouchable, Written, LeftBy, InPassOrder;
  }

  lemma EditsStay(t: Triple, d1: set<Path>, d2: set<Path>, d3: set<Path>, path: Path)
    requires InPassOrder(t, d1, d2, d3)
    ensures
      var e := Written(t, d1, d2, d3);
      && (Get(t.profile.files, path) != Get(t.base.files, path) ==> Get(e.profile.files, path) == Get(t.profile.files, path))
      && (Get(t.canonical.files, path) != Get(t.base.files, path) ==> Get(e.canonical.files, path) == Get(t.canonical.files, path))
      && (Get(e.base.files, path) != Get(t.base.files, path) ==>
            Get(e.base.files, path) == Get(e.profile.files, path) == Get(e.canonical.files, path))
  {
    NextAt(t, path);
    if t.Untouchable(path) { StoppedUntouched(t, d1, d2, d3, path); } else { StoppedDecides(t, d1, d2, d3, path); }
    hide Triple.Untouchable, Triple.Next, Written, InPassOrder;
  }

  /** The three passes really end in the merged trees: a stop after the last write is no stop. */
  lemma CompletePasses(t: Triple)
    ensures
      var n := t.Next();
      var d1, d2, d3 := Changes(t.canonical, n.canonical.files), Changes(t.profile, n.profile.files), Changes(t.base, n.base.files);
      Complete(t, d1, d2, d3) && InPassOrder(t, d1, d2, d3) && Stopped(t, d1, d2, d3, NoLitter) == n
  {
    var n := t.Next();
    PassComplete(t, t.canonical, n.canonical.files);
    PassComplete(t, t.profile, n.profile.files);
    PassComplete(t, t.base, n.base.files);
  }

  lemma PassComplete(t: Triple, current: Snapshot, next: Tree)
    requires current == t.canonical || current == t.profile || current == t.base
    requires next == t.Merged(current.files, t.Settled())
    ensures Patch(current, next, Changes(current, next)) == current.(files := next)
  {
  }

  // ---- What a synchronization leaves, seen in the store ----

  /** While it is written, a file is beside its path, under its name with `.tmp-` and the nonce behind it. */
  lemma TempBeside(parent: Path, name: string, nonce: string)
    ensures TempName(parent + [name], nonce) == parent + [name + ".tmp-" + nonce]
    ensures TempName([], nonce) == [".tmp-" + nonce]
  {
    assert (parent + [name])[..|parent|] == parent;
  }

  /** Each path of `names` has its old or its new version; any other file is one
      that was being written, of which there is at most one. */
  ghost predicate Halfway(before: Tree, next: Tree, after: Tree, names: set<Path>, nonce: string) {
    && (forall path :: path in names ==> Get(after, path) == Get(before, path) || Get(after, path) == Get(next, path))
    && (forall a, b :: a in after && b in after && a !in names && b !in names ==> a == b)
    && forall name :: name in after && name !in names ==>
         exists path :: path in next && Get(before, path) != Get(next, path) && Get(after, path) == Get(before, path)
           && name == TempName(path, nonce)
  }

  lemma PatchHalfway(current: Snapshot, next: Tree, done: set<Path>, names: set<Path>, nonce: string)
    requires done <= Changes(current, next) && current.files.Keys + next.Keys <= names
    ensures Halfway(current.files, next, Patch(current, next, done).files, names, nonce)
  {
  }

  lemma LitterHalfway(current: Snapshot, next: Tree, done: set<Path>, names: set<Path>, name: Path, file: File, nonce: string)
    requires done <= Changes(current, next) && current.files.Keys + next.Keys <= names
    requires Writing(current, next, done, name, nonce) && FreshFor(names, nonce)
    ensures Halfway(current.files, next, WithFile(Patch(current, next, done), name, file).files, names, nonce)
  {
    var path :| path in Changes(current, next) - done && path in next && name == TempName(path, nonce);
    var before := Patch(current, next, done);
    assert name !in names && path in names;
    assert Get(WithFile(before, name, file).files, path) == Get(current.files, path);
    assert WithFile(before, name, file).files.Keys <= names + {name};
    hide Changes, Writing, TempName, FreshFor;
    PatchHalfway(current, next, done, names, nonce);
    forall p | p in names ensures Get(WithFile(before, name, file).files, p) == Get(before.files, p) {
      assert p != name;
    }
  }

  /** One tree after its pass: the first `done` writes, or with the file left in the middle of one. */
  ghost predicate PassLeft(current: Snapshot, next: Tree, after: Snapshot, nonce: string, done: set<Path>) {
    after == Patch(current, next, done)
    || exists name, file :: after == WithFile(Patch(current, next, done), name, file) && Writing(current, next, done, name, nonce)
  }

  lemma PassHalfway(current: Snapshot, next: Tree, after: Snapshot, names: set<Path>, nonce: string, done: set<Path>)
    requires PassLeft(current, next, after, nonce, done) && done <= Changes(current, next)
    requires current.files.Keys + next.Keys <= names && FreshFor(names, nonce)
    ensures Halfway(current.files, next, after.files, names, nonce) && after.unsafe == current.unsafe
  {
    if after == Patch(current, next, done) {
      PatchHalfway(current, next, done, names, nonce);
    } else {
      var name, file :| after == WithFile(Patch(current, next, done), name, file) && Writing(current, next, done, name, nonce);
      LitterHalfway(current, next, done, names, name, file, nonce);
    }
    hide Halfway, Writing, FreshFor, Changes;
  }

  /** Where each pass has got to, wherever the synchronization stopped. */
  lemma StoppedPasses(t: Triple, d1: set<Path>, d2: set<Path>, d3: set<Path>, litter: Litter, nonce: string)
    requires InPassOrder(t, d1, d2, d3) && LeftBy(t, d1, d2, d3, litter, nonce)
    ensures
      var e, n := Stopped(t, d1, d2, d3, litter), t.Next();
      && PassLeft(t.canonical, n.canonical.files, e.canonical, nonce, d1)
      && PassLeft(t.profile, n.profile.files, e.profile, nonce, d2)
      && PassLeft(t.base, n.base.files, e.base, nonce, d3)
      && (e.profile != t.profile ==> e.canonical == n.canonical)
      && (e.base != t.base ==> e.canonical == n.canonical && e.profile == n.profile)
  {
    var n := t.Next();
    PassComplete(t, t.canonical, n.canonical.files);
    PassComplete(t, t.profile, n.profile.files);
    PatchNothing(t.profile, n.profile.files);
    PatchNothing(t.base, n.base.files);
    hide Triple.Merged, Triple.Settled, Patch, Changes, Writing, WithFile;
  }

  /** Where the three trees can be, seen in them alone. */
  ghost predicate StoppedBetween(t: Triple, n: Triple, after: Triple, nonce: string) {
    && after.canonical.unsafe == t.canonical.unsafe && after.profile.unsafe == t.profile.unsafe && after.base.unsafe == t.base.unsafe
    && Halfway(t.canonical.files, n.canonical.files, after.canonical.files, t.Names(), nonce)
    && Halfway(t.profile.files, n.profile.files, after.profile.files, t.Names(), nonce)
    && Halfway(t.base.files, n.base.files, after.base.files, t.Names(), nonce)
    && (after.profile != t.profile ==> after.canonical == n.canonical)
    && (after.base != t.base ==> after.canonical == n.canonical && after.profile == n.profile)
  }

  lemma StopsBetween(t: Triple, d1: set<Path>, d2: set<Path>, d3: set<Path>, litter: Litter, nonce: string)
    requires InPassOrder(t, d1, d2, d3) && LeftBy(t, d1, d2, d3, litter, nonce) && FreshFor(t.Names(), nonce)
    ensures StoppedBetween(t, t.Next(), Stopped(t, d1, d2, d3, litter), nonce)
  {
    var n, after := t.Next(), Stopped(t, d1, d2, d3, litter);
    StoppedPasses(t, d1, d2, d3, litter, nonce);
    NextNames(t);
    assert d1 <= Changes(t.canonical, n.canonical.files) && d2 <= Changes(t.profile, n.profile.files);
    assert d3 <= Changes(t.base, n.base.files);
    hide Triple.Next, Triple.Names, Stopped, InPassOrder, LeftBy, PassLeft, Halfway, Changes, FreshFor;
    PassHalfway(t.canonical, n.canonical.files, after.canonical, t.Names(), nonce, d1);
    PassHalfway(t.profile, n.profile.files, after.profile, t.Names(), nonce, d2);
    PassHalfway(t.base, n.base.files, after.base, t.Names(), nonce, d3);
  }

  /**
   * Wherever a synchronization stops: the other branches and the artifacts are
   * as they were; each tree holds of every path its old or its merged version,
   * and besides at most one file that was being written; the profile changes
   * only behind the whole canonical tree, the base only behind both.
   */
  lemma StopOutcome(s: Store, b: Branch, e: Store, d1: set<Path>, d2: set<Path>, d3: set<Path>, litter: Litter, nonce: string)
    requires s.Has(b) && StopsAs(s, b, e, d1, d2, d3, litter, nonce) && FreshFor(s.Of(b).Names(), nonce)
    ensures e.Has(b) && e.profiles.Keys == s.profiles.Keys && e.bases.Keys == s.bases.Keys
    ensures forall other :: other != b ==>
      (other in s.profiles ==> e.profiles[other] == s.profiles[other]) && (other in s.bases ==> e.bases[other] == s.bases[other])
    ensures StoppedBetween(s.Of(b), s.Of(b).Next(), e.Of(b), nonce)
  {
    hide *;
    StopsAt(s, b, e, d1, d2, d3, litter, nonce);
    StopsBetween(s.Of(b), d1, d2, d3, litter, nonce);
  }

  lemma StopsAt(s: Store, b: Branch, e: Store, d1: set<Path>, d2: set<Path>, d3: set<Path>, litter: Litter, nonce: string)
    requires s.Has(b) && StopsAs(s, b, e, d1, d2, d3, litter, nonce)
    ensures InPassOrder(s.Of(b), d1, d2, d3) && LeftBy(s.Of(b), d1, d2, d3, litter, nonce)
    ensures e.Has(b) && e.Of(b) == Stopped(s.Of(b), d1, d2, d3, litter)
    ensures e.profiles.Keys == s.profiles.Keys && e.bases.Keys == s.bases.Keys
    ensures forall other :: other != b ==>
      (other in s.profiles ==> e.profiles[other] == s.profiles[other]) && (other in s.bases ==> e.bases[other] == s.bases[other])
  {
    hide Stopped, InPassOrder, LeftBy;
  }

  lemma NextNames(t: Triple)
    ensures
      var n := t.Next();
      && t.canonical.files.Keys + n.canonical.files.Keys <= t.Names()
      && t.profile.files.Keys + n.profile.files.Keys <= t.Names()
      && t.base.files.Keys + n.base.files.Keys <= t.Names()
  {
  }

  /** One that nothing stops ends in the merged trees. */
  lemma CompleteOutcome(s: Store, b: Branch, e: Store, d1: set<Path>, d2: set<Path>, d3: set<Path>, litter: Litter, nonce: string)
    requires s.Has(b) && StopsAs(s, b, e, d1, d2, d3, litter, nonce) && Complete(s.Of(b), d1, d2, d3)
    ensures e == s.With(b, s.Of(b).Next())
  {
    CompletePasses(s.Of(b));
    hide Triple.Next, Changes, Triple.Merged;
    assert litter == NoLitter;
  }

  // ---- Many profiles ----

  /** Nothing to record: no divergence and no artifact the trees must not touch. */
  ghost predicate Clean(t: Triple) { t.Conflicts() == {} }

  ghost predicate Present(s: Store, order: seq<Branch>) {
    forall i :: 0 <= i < |order| ==> s.Has(order[i])
  }

  /** One branch after another. */
  function SyncAll(s: Store, order: seq<Branch>): Store
    decreases |order|
  {
    if order == [] || !s.Has(order[0]) then s else SyncAll(s.Sync(order[0]), order[1..])
  }

  ghost predicate CleanRound(s: Store, order: seq<Branch>)
    decreases |order|
  {
    order != [] && s.Has(order[0]) ==> Clean(s.Of(order[0])) && CleanRound(s.Sync(order[0]), order[1..])
  }

  /** The branch holds no edit of its own and no artifact it must not touch. */
  ghost predicate Quiet(s: Store, b: Branch) {
    s.Has(b) && s.profiles[b] == s.bases[b] && s.profiles[b].unsafe == {} && s.canonical.unsafe == {}
  }

  lemma CleanMeaning(t: Triple)
    requires Clean(t)
    ensures t.canonical.unsafe == {} && t.profile.unsafe == {} && t.base.unsafe == {}
    ensures forall path :: !t.Untouchable(path) && t.DecisionAt(path).Agree?
  {
    forall path ensures path !in t.canonical.unsafe && path !in t.profile.unsafe && path !in t.base.unsafe {
      assert Conflict(path, UnsafeCanonicalArtifact) !in t.Conflicts();
      assert Conflict(path, UnsafeProfileArtifact) !in t.Conflicts();
      assert Conflict(path, UnsafeBaseArtifact) !in t.Conflicts();
    }
    forall path ensures !t.Untouchable(path) && t.DecisionAt(path).Agree? {
      assert Conflict(path, Diverged) !in t.Conflicts();
    }
  }

  /** A clean synchronization leaves one tree three times. */
  lemma CleanSync(t: Triple)
    requires Clean(t)
    ensures var n := t.Next(); n.canonical == n.profile == n.base && n.canonical.unsafe == {}
  {
    var n := t.Next();
    CleanMeaning(t);
    forall path
      ensures Get(n.canonical.files, path) == Get(n.profile.files, path) == Get(n.base.files, path)
    {
      NextAt(t, path);
    }
    SameTrees(n.canonical.files, n.profile.files);
    SameTrees(n.profile.files, n.base.files);
  }

  /** A branch without edits of its own takes the canonical tree as it is. */
  lemma QuietSync(s: Store, b: Branch)
    requires Quiet(s, b)
    ensures Clean(s.Of(b))
    ensures var n := s.Sync(b); n.canonical == s.canonical && n.profiles[b] == n.bases[b] == s.canonical
  {
  }

  /** A clean round leaves every branch it visited quiet. */
  lemma {:induction false} CleanRoundQuiets(s: Store, order: seq<Branch>, visited: set<Branch>)
    requires Present(s, order) && CleanRound(s, order)
    requires forall b :: b in visited ==> Quiet(s, b)
    ensures
      var n := SyncAll(s, order);
      && (forall b :: s.Has(b) ==> n.Has(b))
      && (forall b :: b in visited || b in order ==> Quiet(n, b))
    decreases |order|
  {
    if order == [] { return; }
    var b := order[0];
    var n := s.Sync(b);
    CleanSync(s.Of(b));
    CleanMeaning(s.Of(b));
    forall x | x in visited + {b} ensures Quiet(n, x) { if x != b { assert Quiet(s, x); } }
    forall i | 0 <= i < |order[1..]| ensures n.Has(order[1..][i]) { assert s.Has(order[i + 1]); }
    hide Quiet, Clean, Store.Sync, Present;
    assert Present(n, order[1..]);
    CleanRoundQuiets(n, order[1..], visited + {b});
    forall x | x in visited || x in order ensures Quiet(SyncAll(s, order), x) {
      if x !in visited && x != b { assert x in order[1..]; }
    }
  }

  ghost predicate InStep(s: Store, b: Branch) {
    s.Has(b) && s.profiles[b] == s.bases[b] == s.canonical
  }

  /** Over quiet branches a round changes no canonical file and brings every visited branch into step. */
  lemma {:induction false} QuietRound(s: Store, order: seq<Branch>, visited: set<Branch>)
    requires forall i :: 0 <= i < |order| ==> Quiet(s, order[i])
    requires forall b :: b in visited ==> InStep(s, b)
    ensures CleanRound(s, order)
    ensures
      var n := SyncAll(s, order);
      n.canonical == s.canonical && forall b :: b in visited || b in order ==> InStep(n, b)
    decreases |order|
  {
    if order == [] { return; }
    var b := order[0];
    var n := s.Sync(b);
    assert Quiet(s, order[0]);
    QuietSync(s, b);
    forall x | x in visited + {b} ensures InStep(n, x) { if x != b { assert InStep(s, x); } }
    forall i | 0 <= i < |order[1..]| ensures Quiet(n, order[1..][i]) {
      assert Quiet(s, order[i + 1]);
    }
    QuietRound(n, order[1..], visited + {b});
    forall x | x in visited || x in order ensures InStep(SyncAll(s, order), x) {
      if x !in visited && x != b { assert x in order[1..]; }
    }
  }

  /**
   * Multi-profile convergence: when one round over the branches records no
   * conflict and no unsafe artifact and nobody edits, a second round over any
   * of them, in any order, records nothing, leaves the canonical tree as it
   * is, and makes every visited branch's profile and base equal to it.
   */
  lemma MultiProfileConvergence(s: Store, first: seq<Branch>, second: seq<Branch>)
    requires Present(s, first) && CleanRound(s, first)
    requires forall i :: 0 <= i < |second| ==> second[i] in first
    ensures
      var s1 := SyncAll(s, first);
      var s2 := SyncAll(s1, second);
      && CleanRound(s1, second) && s2.canonical == s1.canonical
      && forall b :: b in second ==> s2.Has(b) && s2.profiles[b] == s2.bases[b] == s2.canonical
  {
    CleanRoundQuiets(s, first, {});
    var s1 := SyncAll(s, first);
    forall i | 0 <= i < |second| ensures Quiet(s1, second[i]) { assert second[i] in first; }
    QuietRound(s1, second, {});
    forall b | b in second ensures InStep(SyncAll(s1, second), b) { assert b in {} || b in second; }
  }

  // ---- Runs of edits and synchronizations ----

  /** An agent edits its own profile tree, or a branch synchronizes and stops
      after some of its writes, possibly in the middle of one. */
  datatype Action =
    | Edit(branch: Branch, path: Path, file: Option<File>)
    | SyncBranch(branch: Branch, d1: set<Path>, d2: set<Path>, d3: set<Path>, litter: Litter)

  function Do(s: Store, action: Action): Store {
    if !s.Has(action.branch) then s else
      match action
      case Edit(b, path, file) => s.(profiles := s.profiles[b := s.profiles[b].(files := Put(s.profiles[b].files, path, file))])
      case SyncBranch(b, d1, d2, d3, litter) => s.With(b, Stopped(s.Of(b), d1, d2, d3, litter))
  }

  function DoAll(s: Store, actions: seq<Action>): Store
    decreases |actions|
  {
    if actions == [] then s else DoAll(Do(s, actions[0]), actions[1..])
  }

  /** A synchronization stops where its passes can stop. */
  ghost predicate Possible(s: Store, action: Action) {
    action.SyncBranch? && s.Has(action.branch) ==> InPassOrder(s.Of(action.branch), action.d1, action.d2, action.d3)
  }

  ghost predicate AllPossible(s: Store, actions: seq<Action>)
    decreases |actions|
  {
    actions != [] ==> Possible(s, actions[0]) && AllPossible(Do(s, actions[0]), actions[1..])
  }

  /** This action replaces the canonical version of a path on behalf of a branch
      whose base held exactly that version, by the version its profile holds. */
  ghost predicate InformedReplacement(s: Store, action: Action, path: Path) {
    && action.SyncBranch? && s.Has(action.branch)
    && Get(s.bases[action.branch].files, path) == Get(s.canonical.files, path)
    && Get(Do(s, action).canonical.files, path) == Get(s.profiles[action.branch].files, path)
    && Get(Do(s, action).canonical.files, path) != Get(s.canonical.files, path)
  }

  /** This action died while it wrote a file under this temporary name. */
  predicate LeavesLitter(action: Action, path: Path) {
    action.SyncBranch? && action.litter.InCanonical? && action.litter.name == path
  }

  ghost predicate Explained(s: Store, action: Action, path: Path) {
    InformedReplacement(s, action, path) || LeavesLitter(action, path)
  }

  lemma StepReplaces(s: Store, action: Action, path: Path)
    requires Possible(s, action) && Get(Do(s, action).canonical.files, path) != Get(s.canonical.files, path)
    ensures Explained(s, action, path)
  {
    if action.SyncBranch? && !LeavesLitter(action, path) {
      var t := s.Of(action.branch);
      NextAt(t, path);
      assert Get(Written(t, action.d1, action.d2, action.d3).canonical.files, path) == Get(Do(s, action).canonical.files, path);
      assert Get(Do(s, action).canonical.files, path) == Get(t.Next().canonical.files, path);
      hide Triple.Next, Written, Triple.Untouchable;
    }
  }

  /**
   * No lost update over whole runs: whenever a run of edits and
   * synchronizations over any branches, each of which may die anywhere, ends
   * with another canonical version of a path than it began with, some step
   * replaced exactly the first version, for a branch that had that version as
   * its base, or left a temporary file under that name.
   */
  lemma {:induction false} ReplacedOnlyWhenSeen(s: Store, actions: seq<Action>, path: Path)
    requires AllPossible(s, actions)
    requires Get(DoAll(s, actions).canonical.files, path) != Get(s.canonical.files, path)
    ensures exists k ::
              && 0 <= k < |actions|
              && Explained(DoAll(s, actions[..k]), actions[k], path)
              && Get(DoAll(s, actions[..k]).canonical.files, path) == Get(s.canonical.files, path)
    decreases |actions|
  {
    hide Do, Explained, Possible;
    var n := Do(s, actions[0]);
    assert DoAll(s, actions[..0]) == s;
    if Get(n.canonical.files, path) != Get(s.canonical.files, path) {
      StepReplaces(s, actions[0], path);
    } else {
      ReplacedOnlyWhenSeen(n, actions[1..], path);
      var rest := actions[1..];
      var k :| 0 <= k < |rest| && Explained(DoAll(n, rest[..k]), rest[k], path)
        && Get(DoAll(n, rest[..k]).canonical.files, path) == Get(n.canonical.files, path);
      assert actions[..k + 1][0] == actions[0] && actions[..k + 1][1..] == rest[..k];
      assert DoAll(s, actions[..k + 1]) == DoAll(n, rest[..k]) && actions[k + 1] == rest[k];
    }
  }
}
