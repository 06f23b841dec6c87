/** The directories of a benchmark in cycles on a disk where no path clashes: which there are between two rounds, and which
    are left at the end. */
module RunDirs {
  import opened BenchmarkPlan
  import opened WorkTree
  import opened FileSystem
  import opened RoundFiles
  import opened RoundEffects
  import opened SoundRounds
  import opened BenchmarkRun
  import opened RunInvariant
  import opened RunSteps
  import P = RoundProtocol
  import T = RunTheorems

  /** The directories between round r - 1 and round r: writing adds the leaf directories and those they are in, deleting
      with housekeeping takes away those of the leaf directories that nothing is below. */
  function PlannedDirs(c: Setup, initial: FS, r: nat): set<Path>
    requires r <= |c.plan|
  {
    if r == 0 then initial.dirs
    else DirsAfter(c.plan[r - 1], initial.files, PlannedDirs(c, initial, r - 1), AllLeaves(c.workers, c.plan[r - 1].shape))
  }

  lemma {:induction false} DirsAsPlanned(c: Setup, initial: FS, n: nat)
    requires Sound(c, initial) && n <= |c.plan|
    ensures Settled(c, initial, n).dirs == PlannedDirs(c, initial, n)
  {
    StandsBefore(c, initial, n);
    if n > 0 {
      DirsAsPlanned(c, initial, n - 1);
    }
  }

  /** Whenever the server is between two rounds, the directories are those of the plan, however the steps were interleaved. */
  lemma DirectoriesBetweenRounds(c: Setup, initial: FS, acts: seq<Act>)
    requires Sound(c, initial) && Run(c, initial, acts).Some? && Run(c, initial, acts).value.protocol.server == P.Between
    ensures var s := Run(c, initial, acts).value;
      |s.protocol.rounds| <= |c.plan| && s.fs.dirs == PlannedDirs(c, initial, |s.protocol.rounds|)
  {
    T.SettledRuns(c, initial, acts);
    DirsAsPlanned(c, initial, |Run(c, initial, acts).value.protocol.rounds|);
  }

  // ----- Which directories these are

  /** The leaf directories of a round that does not write are there before it. */
  lemma LeafStands(c: Setup, initial: FS, r: nat, q: Path)
    requires Sound(c, initial) && r < |c.plan| && c.plan[r].op != Write && q in AllLeaves(c.workers, c.plan[r].shape)
    ensures q in PlannedDirs(c, initial, r)
  {
    StandsBefore(c, initial, r);
    DirsAsPlanned(c, initial, r);
    assert q == q[..|q|] && q in WithParents(AllLeaves(c.workers, c.plan[r].shape));
  }

  predicate HasBelow(paths: set<Path>, q: Path) {
    exists p <- paths :: Below(p, q)
  }

  /** Exactly the leaf directories of a clearing round with something below them are left after it: a file there was at
      first, or a directory there was before the round. */
  lemma LeafIsLeftIff(c: Setup, initial: FS, r: nat, q: Path)
    requires Sound(c, initial) && r < |c.plan| && Clears(c.plan[r]) && q in AllLeaves(c.workers, c.plan[r].shape)
    ensures q in PlannedDirs(c, initial, r + 1) <==>
      HasBelow(initial.files.Keys, q) || HasBelow(PlannedDirs(c, initial, r), q)
  {
    LeafStands(c, initial, r, q);
  }

  /** The same for any file system after round number `n`, counting from one. */
  lemma LeafIsLeftOn(c: Setup, initial: FS, fs: FS, n: nat, q: Path)
    requires Sound(c, initial) && 0 < n <= |c.plan| && Clears(c.plan[n - 1]) && q in AllLeaves(c.workers, c.plan[n - 1].shape)
    requires fs.dirs == PlannedDirs(c, initial, n)
    ensures LeftIff(c, initial, fs, n, q)
  {
    LeafIsLeftIff(c, initial, n - 1, q);
  }

  predicate LeftIff(c: Setup, initial: FS, fs: FS, n: nat, q: Path)
    requires 0 < n <= |c.plan|
  {
    q in fs.dirs <==> HasBelow(initial.files.Keys, q) || HasBelow(PlannedDirs(c, initial, n - 1), q)
  }

  /** A round that clears its directories is just over, and `q` is one of its leaf directories. */
  predicate JustCleared(c: Setup, p: P.State, q: Path) {
    && p.server == P.Between && 0 < |p.rounds| <= |c.plan| && Clears(c.plan[|p.rounds| - 1])
    && q in AllLeaves(c.workers, c.plan[|p.rounds| - 1].shape)
  }

  /** That is what every run leaves: after a clearing round, however its steps were interleaved, a leaf directory of any
      tree is left if and only if something was below it. */
  lemma ClearedLeafIsLeftIff(c: Setup, initial: FS, acts: seq<Act>, q: Path)
    requires Sound(c, initial) && Run(c, initial, acts).Some?
    requires JustCleared(c, Run(c, initial, acts).value.protocol, q)
    ensures var s := Run(c, initial, acts).value; LeftIff(c, initial, s.fs, |s.protocol.rounds|, q)
  {
    DirectoriesBetweenRounds(c, initial, acts);
    var s := Run(c, initial, acts).value;
    LeafIsLeftOn(c, initial, s.fs, |s.protocol.rounds|, q);
  }

  /** Directory `p` appears right before round number `n`: it is there at first, or on the way to a leaf that round
      n - 1 makes. */
  predicate Appears(c: Setup, initial: FS, n: nat, p: Path)
    requires n <= |c.plan|
  {
    if n == 0 then p in initial.dirs
    else c.plan[n - 1].op == Write && p in WithParents(AllLeaves(c.workers, c.plan[n - 1].shape))
  }

  /** Round `r` removes directory `p`. */
  predicate Vanishes(c: Setup, initial: FS, r: nat, p: Path)
    requires r < |c.plan|
  {
    && Clears(c.plan[r]) && p in AllLeaves(c.workers, c.plan[r].shape)
    && IsEmptyDir(FS(initial.files, PlannedDirs(c, initial, r)), p)
  }

  predicate Lasts(c: Setup, initial: FS, m: nat, n: nat, p: Path)
    requires m <= n <= |c.plan|
  {
    Appears(c, initial, m, p) && forall r :: m <= r < n ==> !Vanishes(c, initial, r, p)
  }

  /** A directory is there before round `n` exactly if it appeared once and has not vanished since. */
  lemma {:induction false} DirectoryIsThereIff(c: Setup, initial: FS, n: nat, p: Path)
    requires n <= |c.plan|
    ensures p in PlannedDirs(c, initial, n) <==> exists m :: 0 <= m <= n && Lasts(c, initial, m, n, p)
  {
    if n == 0 {
      assert p in initial.dirs ==> Lasts(c, initial, 0, 0, p);
    } else {
      DirectoryIsThereIff(c, initial, n - 1, p);
      if p in PlannedDirs(c, initial, n) {
        if Appears(c, initial, n, p) {
          assert Lasts(c, initial, n, n, p);
        } else {
          var m :| 0 <= m <= n - 1 && Lasts(c, initial, m, n - 1, p);
          assert Lasts(c, initial, m, n, p);
        }
      }
      if m :| 0 <= m <= n && Lasts(c, initial, m, n, p) {
        if m < n {
          assert Lasts(c, initial, m, n - 1, p);
          assert !Vanishes(c, initial, n - 1, p);
        }
      }
    }
  }

  /** Nothing that appears up to round `r` is below path `q`. */
  ghost predicate NothingAppearsBelow(c: Setup, initial: FS, r: nat, q: Path)
    requires r <= |c.plan|
  {
    forall m, p {:trigger Appears(c, initial, m, p)} :: 0 <= m <= r && Appears(c, initial, m, p) ==> !Below(p, q)
  }

  /** Nothing is below path `q` right before round number `n`. */
  predicate ClearBefore(c: Setup, initial: FS, n: nat, q: Path)
    requires 0 < n <= |c.plan|
  {
    !HasBelow(PlannedDirs(c, initial, n - 1), q)
  }

  lemma ClearIfNothingAppears(c: Setup, initial: FS, n: nat, q: Path)
    requires 0 < n <= |c.plan| && NothingAppearsBelow(c, initial, n - 1, q)
    ensures ClearBefore(c, initial, n, q)
  {
    forall p | p in PlannedDirs(c, initial, n - 1) ensures !Below(p, q) {
      DirectoryIsThereIff(c, initial, n - 1, p);
      var m :| 0 <= m <= n - 1 && Lasts(c, initial, m, n - 1, p);
      assert Appears(c, initial, m, p);
    }
  }

  lemma NotLeft(c: Setup, initial: FS, fs: FS, n: nat, q: Path)
    requires 0 < n <= |c.plan| && LeftIff(c, initial, fs, n, q) && ClearBefore(c, initial, n, q) && !HasBelow(initial.files.Keys, q)
    ensures q !in fs.dirs
  {
  }

  /** Nothing below path `q` was there at first or appears up to round `r`. */
  ghost predicate NothingEverBelow(c: Setup, initial: FS, r: nat, q: Path)
    requires r <= |c.plan|
  {
    NothingAppearsBelow(c, initial, r, q) && !HasBelow(initial.files.Keys, q)
  }

  /** Then it is not left if it is a leaf directory of a clearing round. */
  lemma ClearedLeafIsGone(c: Setup, initial: FS, acts: seq<Act>, q: Path)
    requires Sound(c, initial) && Run(c, initial, acts).Some? && JustCleared(c, Run(c, initial, acts).value.protocol, q)
    requires NothingEverBelow(c, initial, |Run(c, initial, acts).value.protocol.rounds| - 1, q)
    ensures q !in Run(c, initial, acts).value.fs.dirs
  {
    var s := Run(c, initial, acts).value;
    ClearIfNothingAppears(c, initial, |s.protocol.rounds|, q);
    ClearedLeafIsLeftIff(c, initial, acts, q);
    NotLeft(c, initial, s.fs, |s.protocol.rounds|, q);
  }

  // ----- Removing a leaf directory

  lemma ClearableIff(workers: nat, round: Round, base: FS, leaves: set<Path>, rest: map<Path, nat>, q: Path)
    requires SizesValid(round.shape) && round.op == Delete && AllGood(round, base, AllFiles(workers, round.shape), leaves)
    requires q in leaves && q in base.dirs && rest == base.files - AllFiles(workers, round.shape)
    ensures Clearable(workers, round, base, q) <==> !HasBelow(rest.Keys, q) && !HasBelow(base.dirs, q)
  {
    var files := AllFiles(workers, round.shape);
    assert (set p | p in files && p !in base.files && IsEmptyDir(base, p)) == {};
    assert Without(base, files) == FS(rest, base.dirs);
    assert CanMake(base, q) && q[..|q|] == q;
  }

  lemma ClearableLeaf(c: Setup, initial: FS, r: nat, q: Path)
    requires Sound(c, initial) && r < |c.plan| && Clears(c.plan[r]) && q in AllLeaves(c.workers, c.plan[r].shape)
    ensures Clearable(c.workers, c.plan[r], Settled(c, initial, r), q)
       <==> !HasBelow(initial.files.Keys, q) && !HasBelow(PlannedDirs(c, initial, r), q)
  {
    var base := Settled(c, initial, r);
    StandsBefore(c, initial, r);
    DirsAsPlanned(c, initial, r);
    LeafStands(c, initial, r, q);
    RoundIsGood(c, initial, r, base);
    FilesInCycle(c, initial, r);
    NoneAtFirst(c, initial, r);
    AddedAndTaken(initial.files, AllFiles(c.workers, c.plan[r].shape), LengthOf(c.plan[r].shape));
    ClearableIff(c.workers, c.plan[r], base, AllLeaves(c.workers, c.plan[r].shape), initial.files, q);
  }

  /** What a worker is about to remove. */
  function NextToRemove(c: Setup, s: System, w: nat): Path
    requires c.workers >= 1 && 0 < |s.protocol.rounds| <= |c.plan| && w < |s.sites|
  {
    LeafAt(c, |s.protocol.rounds| - 1, w, Cleaned(s.sites[w].activity))
  }

  /** A worker that may remove a directory is in a round that does so, and the directory is a leaf of its tree. */
  lemma NextIsLeaf(c: Setup, s: System, w: nat)
    requires AtWork(c, s, w) && Can(c, s, CleanDirectory(w))
    ensures 0 < |s.protocol.rounds| <= |c.plan| && Clears(c.plan[|s.protocol.rounds| - 1])
    ensures NextToRemove(c, s, w) in AllLeaves(c.workers, c.plan[|s.protocol.rounds| - 1].shape)
  {
    CleanerRemoves(c, s, w);
    LeafIsListed(c, |s.protocol.rounds| - 1, w, Cleaned(s.sites[w].activity));
  }

  predicate RemovesIfClearable(c: Setup, initial: FS, s: System, r: nat, leaf: Path)
    requires Fits(c, s) && r < |c.plan|
  {
    Remove(s.fs, leaf).1 == Clearable(c.workers, c.plan[r], Settled(c, initial, r), leaf)
  }

  lemma RemovalSucceeds(c: Setup, initial: FS, s: System, w: nat, k: nat)
    requires Workable(c) && InPlace(c, initial, s) && w < c.workers && IsDueLeaf(c, s, w, k)
    ensures RemovesIfClearable(c, initial, s, |s.protocol.rounds| - 1, LeafAt(c, |s.protocol.rounds| - 1, w, k))
  {
    CleaningHere(c, initial, s, w, k);
  }

  lemma RemovingNext(c: Setup, initial: FS, s: System, w: nat)
    requires Workable(c) && AtWork(c, s, w) && InPlace(c, initial, s) && SitesInv(c, s.protocol.links, s.sites)
    requires Can(c, s, CleanDirectory(w))
    ensures RemovesIfClearable(c, initial, s, |s.protocol.rounds| - 1, LeafAt(c, |s.protocol.rounds| - 1, w, Cleaned(s.sites[w].activity)))
  {
    NextLeafIsDue(c, s, w);
    RemovalSucceeds(c, initial, s, w, Cleaned(s.sites[w].activity));
  }

  lemma RemovingIff(c: Setup, initial: FS, s: System, w: nat)
    requires Sound(c, initial) && Fits(c, s) && 0 < |s.protocol.rounds| <= |c.plan| && w < |s.sites|
    requires Clears(c.plan[|s.protocol.rounds| - 1])
    requires NextToRemove(c, s, w) in AllLeaves(c.workers, c.plan[|s.protocol.rounds| - 1].shape)
    requires RemovesIfClearable(c, initial, s, |s.protocol.rounds| - 1, NextToRemove(c, s, w))
    ensures RemovesIff(c, initial, s, w)
  {
    ClearableLeaf(c, initial, |s.protocol.rounds| - 1, NextToRemove(c, s, w));
  }

  /** The removal succeeds if and only if no file there was at first and no directory there was before the round is below
      the directory. */
  predicate RemovesIff(c: Setup, initial: FS, s: System, w: nat)
    requires c.workers >= 1 && 0 < |s.protocol.rounds| <= |c.plan| && w < |s.sites|
  {
    Remove(s.fs, NextToRemove(c, s, w)).1
    <==> !HasBelow(initial.files.Keys, NextToRemove(c, s, w))
         && !HasBelow(PlannedDirs(c, initial, |s.protocol.rounds| - 1), NextToRemove(c, s, w))
  }

  /** So it is in every run, whenever a worker removes a leaf directory. */
  lemma RemovingLeaf(c: Setup, initial: FS, acts: seq<Act>, w: nat)
    requires Sound(c, initial) && Run(c, initial, acts).Some? && Can(c, Run(c, initial, acts).value, CleanDirectory(w))
    ensures var s := Run(c, initial, acts).value;
      0 < |s.protocol.rounds| <= |c.plan| && RemovesIff(c, initial, s, w)
  {
    var s := Run(c, initial, acts).value;
    EveryRunKeepsInv(c, initial, acts);
    BusyIsAtWork(c, s, w);
    BusyIsInPlace(c, initial, s);
    NextIsLeaf(c, s, w);
    RemovingNext(c, initial, s, w);
    RemovingIff(c, initial, s, w);
  }
}
