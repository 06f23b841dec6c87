/** Rounds in cycles on a disk where no path clashes: every operation succeeds, the files come and go as planned, and only
    directories with something below them are left. */
module SoundRounds {
  import opened BenchmarkPlan
  import opened WorkTree
  import opened FileSystem
  import opened RoundFiles

  ghost predicate DirsClear(c: Setup, fs: FS) {
    forall p {:trigger IsBenchFile(c, p)} :: p in fs.dirs ==> !IsBenchFile(c, p)
  }

  /** The files before round `r`: those there were at first, and unless the round before it has deleted them, all files of
      that round. */
  function FilesBefore(c: Setup, initial: FS, r: nat): map<Path, nat>
    requires r <= |c.plan| && SizedPlan(c)
  {
    if r == 0 || c.plan[r - 1].op == Delete then initial.files
    else initial.files + Filled(AllFiles(c.workers, c.plan[r - 1].shape), LengthOf(c.plan[r - 1].shape))
  }

  ghost predicate Tidy(c: Setup, initial: FS, r: nat, fs: FS)
    requires r <= |c.plan| && SizedPlan(c)
  {
    fs.files == FilesBefore(c, initial, r) && DirsClear(c, fs)
  }

  // ----- Before a round

  lemma InAllFiles(workers: nat, shape: Shape, p: Path) returns (tree: nat, k: nat, i: nat)
    requires p in AllFiles(workers, shape)
    ensures tree < workers && InShape(shape, k, i) && p == FilePath(shape, tree, k, i)
  {
    tree, k, i :| 0 <= tree < workers && 0 <= k < LeafCount(shape) && 0 <= i < shape.files && p == FilePath(shape, tree, k, i);
  }

  lemma InAllLeaves(workers: nat, shape: Shape, q: Path) returns (tree: nat, k: nat)
    requires q in AllLeaves(workers, shape)
    ensures tree < workers && k < LeafCount(shape) && q == Leaf(shape, tree, k)
  {
    tree, k :| 0 <= tree < workers && 0 <= k < LeafCount(shape) && q == Leaf(shape, tree, k);
  }

  lemma AllFilesAreBenchFiles(c: Setup, r: nat, p: Path)
    requires r < |c.plan| && p in AllFiles(c.workers, c.plan[r].shape)
    ensures IsBenchFile(c, p)
  {
    var tree, k, i := InAllFiles(c.workers, c.plan[r].shape, p);
    assert FileOf(c, p, r, tree, k, i);
  }

  lemma FilesAreOurs(c: Setup, initial: FS, r: nat, p: Path)
    requires r <= |c.plan| && SizedPlan(c) && p in FilesBefore(c, initial, r)
    ensures p in initial.files || IsBenchFile(c, p)
  {
    if r > 0 && p in AllFiles(c.workers, c.plan[r - 1].shape) {
      AllFilesAreBenchFiles(c, r - 1, p);
    }
  }

  /** Before a round that writes, the files are those there were at first; before any other, all files of its shape are there. */
  lemma FilesInCycle(c: Setup, initial: FS, r: nat)
    requires InCycles(c.plan) && SizedPlan(c) && r < |c.plan|
    ensures FilesBefore(c, initial, r) ==
      if c.plan[r].op == Write then initial.files
      else initial.files + Filled(AllFiles(c.workers, c.plan[r].shape), LengthOf(c.plan[r].shape))
  {
    assert FollowsOn(c.plan, r);
  }

  lemma CanMakeLeaf(c: Setup, initial: FS, r: nat, fs: FS, q: Path)
    requires Sound(c, initial) && r < |c.plan| && Tidy(c, initial, r, fs) && q in AllLeaves(c.workers, c.plan[r].shape)
    ensures CanMake(fs, q)
  {
    var tree, k := InAllLeaves(c.workers, c.plan[r].shape, q);
    assert LeafOf(c, q, r, tree, k);
    forall n | 0 <= n <= |q| ensures q[..n] !in fs.files {
      assert q[..n] <= q;
      if q[..n] in fs.files {
        FilesAreOurs(c, initial, r, q[..n]);
      }
    }
  }

  lemma ParentIsLeaf(workers: nat, shape: Shape, p: Path)
    requires p in AllFiles(workers, shape)
    ensures Parent(p) in AllLeaves(workers, shape)
  {
    var tree, k, i := InAllFiles(workers, shape, p);
    assert Parent(p) == Leaf(shape, tree, k);
  }

  /** Where a round stands on its files: absent before writing, there in full otherwise. */
  lemma FileBefore(c: Setup, initial: FS, r: nat, fs: FS, p: Path)
    requires Sound(c, initial) && r < |c.plan| && Tidy(c, initial, r, fs) && p in AllFiles(c.workers, c.plan[r].shape)
    ensures p !in fs.dirs
    ensures if c.plan[r].op == Write then p !in fs.files else p in fs.files && fs.files[p] == LengthOf(c.plan[r].shape)
  {
    AllFilesAreBenchFiles(c, r, p);
    FilesInCycle(c, initial, r);
  }

  /** Every operation of the round succeeds. */
  lemma JobSucceeds(c: Setup, initial: FS, r: nat, fs: FS, p: Path)
    requires Sound(c, initial) && r < |c.plan| && Tidy(c, initial, r, fs) && p in AllFiles(c.workers, c.plan[r].shape)
    ensures Succeeds(c.plan[r], fs, p)
  {
    FileBefore(c, initial, r, fs, p);
    ParentIsLeaf(c.workers, c.plan[r].shape, p);
    CanMakeLeaf(c, initial, r, fs, Parent(p));
  }

  // ----- After it

  /** A round of which everything succeeds. */
  predicate AllGood(round: Round, base: FS, files: set<Path>, leaves: set<Path>)
    requires SizesValid(round.shape)
  {
    && (forall p <- files :: Succeeds(round, base, p) && Parent(p) in leaves)
    && (forall q <- leaves :: CanMake(base, q))
    && (round.op == Delete ==> files <= base.files.Keys)
  }

  lemma RoundIsGood(c: Setup, initial: FS, r: nat, fs: FS)
    requires Sound(c, initial) && r < |c.plan| && Tidy(c, initial, r, fs)
    ensures AllGood(c.plan[r], fs, AllFiles(c.workers, c.plan[r].shape), AllLeaves(c.workers, c.plan[r].shape))
  {
    var files, leaves := AllFiles(c.workers, c.plan[r].shape), AllLeaves(c.workers, c.plan[r].shape);
    forall p <- files ensures Succeeds(c.plan[r], fs, p) && Parent(p) in leaves && (c.plan[r].op == Delete ==> p in fs.files) {
      JobSucceeds(c, initial, r, fs, p);
      ParentIsLeaf(c.workers, c.plan[r].shape, p);
      FileBefore(c, initial, r, fs, p);
    }
    forall q <- leaves ensures CanMake(fs, q) {
      CanMakeLeaf(c, initial, r, fs, q);
    }
  }

  /** Those of the leaf directories that nothing is below. */
  function Emptied(fs: FS, leaves: set<Path>): set<Path> {
    set q | q in leaves && IsEmptyDir(fs, q)
  }

  /** The directories after a round. */
  function DirsAfter(round: Round, files: map<Path, nat>, dirs: set<Path>, leaves: set<Path>): set<Path> {
    if round.op == Write then dirs + WithParents(leaves)
    else if Clears(round) then dirs - Emptied(FS(files, dirs), leaves)
    else dirs
  }

  lemma AfterWriting(workers: nat, round: Round, base: FS, files: set<Path>, leaves: set<Path>)
    requires SizesValid(round.shape) && AllGood(round, base, files, leaves) && round.op == Write
    ensures Effect(workers, round, base, files, leaves)
         == FS(base.files + Filled(files, LengthOf(round.shape)), base.dirs + WithParents(leaves))
  {
    assert Good(round, base, files) == files;
    assert leaves + Parents(files) == leaves;
    assert Makeable(base, leaves) == leaves;
  }

  lemma AfterReading(workers: nat, round: Round, base: FS, files: set<Path>, leaves: set<Path>)
    requires SizesValid(round.shape) && AllGood(round, base, files, leaves) && round.op == Read && WithParents(leaves) <= base.dirs
    ensures Effect(workers, round, base, files, {}) == base
  {
    forall p | p in Made(base, Parents(files)) ensures p in base.dirs {
      var q, n :| q in Parents(files) && 0 <= n <= |q| && p == q[..n];
      assert q in leaves;
    }
    assert base.dirs + Made(base, Parents(files)) == base.dirs;
  }

  lemma AfterDeleting(workers: nat, round: Round, base: FS, leaves: set<Path>, cleared: set<Path>, rest: map<Path, nat>)
    requires SizesValid(round.shape) && round.op == Delete && AllGood(round, base, AllFiles(workers, round.shape), leaves) && cleared <= leaves
    requires rest == base.files - AllFiles(workers, round.shape)
    ensures Effect(workers, round, base, AllFiles(workers, round.shape), cleared)
         == FS(rest, base.dirs - Emptied(FS(rest, base.dirs), cleared))
  {
    var files := AllFiles(workers, round.shape);
    assert (set p | p in files && p !in base.files && IsEmptyDir(base, p)) == {};
    assert Without(base, files) == FS(rest, base.dirs);
    forall q <- cleared ensures q !in rest {
      assert CanMake(base, q) && q[..|q|] == q;
    }
    assert rest - cleared == rest;
    assert (set q | q in cleared && q !in rest && IsEmptyDir(FS(rest, base.dirs), q)) == Emptied(FS(rest, base.dirs), cleared);
  }

  lemma AddedAndTaken(files: map<Path, nat>, paths: set<Path>, length: nat)
    requires forall p <- paths :: p !in files
    ensures (files + Filled(paths, length)) - paths == files
  {
  }

  lemma NoneAtFirst(c: Setup, initial: FS, r: nat)
    requires NoClash(c, initial) && r < |c.plan|
    ensures forall p <- AllFiles(c.workers, c.plan[r].shape) :: p !in initial.files
  {
    forall p <- AllFiles(c.workers, c.plan[r].shape) ensures p !in initial.files {
      AllFilesAreBenchFiles(c, r, p);
    }
  }

  lemma NoBenchFileOnTheWay(c: Setup, initial: FS, r: nat)
    requires NoClash(c, initial) && r < |c.plan|
    ensures DirsClear(c, FS(map[], WithParents(AllLeaves(c.workers, c.plan[r].shape))))
  {
    forall p | p in WithParents(AllLeaves(c.workers, c.plan[r].shape)) ensures !IsBenchFile(c, p) {
      var q, n :| q in AllLeaves(c.workers, c.plan[r].shape) && 0 <= n <= |q| && p == q[..n];
      var tree, k := InAllLeaves(c.workers, c.plan[r].shape, q);
      assert LeafOf(c, q, r, tree, k);
    }
  }

  /** What is before round n: its files, and its directories, in which the leaves of a round that does not write stand. */
  ghost predicate Standing(c: Setup, initial: FS, r: nat, fs: FS)
    requires r <= |c.plan| && SizedPlan(c)
  {
    && Tidy(c, initial, r, fs)
    && (r < |c.plan| && c.plan[r].op != Write ==> WithParents(AllLeaves(c.workers, c.plan[r].shape)) <= fs.dirs)
  }

  /** A round does to files and directories what is planned. */
  ghost predicate AsPlanned(c: Setup, initial: FS, r: nat, fs: FS, fs': FS)
    requires r < |c.plan| && SizedPlan(c)
  {
    && fs'.files == FilesBefore(c, initial, r + 1)
    && fs'.dirs == DirsAfter(c.plan[r], initial.files, fs.dirs, AllLeaves(c.workers, c.plan[r].shape))
  }

  lemma RoundAsPlanned(c: Setup, initial: FS, r: nat, fs: FS)
    requires Sound(c, initial) && r < |c.plan| && Standing(c, initial, r, fs)
    ensures AsPlanned(c, initial, r, fs, Effect(c.workers, c.plan[r], fs, AllFiles(c.workers, c.plan[r].shape), LeavesOf(c.workers, c.plan[r])))
  {
    var round := c.plan[r];
    var files, leaves := AllFiles(c.workers, round.shape), AllLeaves(c.workers, round.shape);
    RoundIsGood(c, initial, r, fs);
    FilesInCycle(c, initial, r);
    match round.op {
      case Write => AfterWriting(c.workers, round, fs, files, leaves);
      case Read => AfterReading(c.workers, round, fs, files, leaves);
      case Stat =>
      case Delete =>
        NoneAtFirst(c, initial, r);
        AddedAndTaken(initial.files, files, LengthOf(round.shape));
        AfterDeleting(c.workers, round, fs, leaves, LeavesOf(c.workers, round), initial.files);
        assert Emptied(FS(initial.files, fs.dirs), {}) == {};
    }
  }

  lemma LeavesStand(c: Setup, initial: FS, r: nat, fs: FS, fs': FS)
    requires Sound(c, initial) && r + 1 < |c.plan| && c.plan[r + 1].op != Write
    requires Standing(c, initial, r, fs) && AsPlanned(c, initial, r, fs, fs')
    ensures WithParents(AllLeaves(c.workers, c.plan[r + 1].shape)) <= fs'.dirs
  {
    assert FollowsOn(c.plan, r + 1);
  }

  lemma StandsAfter(c: Setup, initial: FS, r: nat, fs: FS, fs': FS)
    requires Sound(c, initial) && r < |c.plan| && Standing(c, initial, r, fs) && AsPlanned(c, initial, r, fs, fs')
    ensures Standing(c, initial, r + 1, fs')
  {
    NoBenchFileOnTheWay(c, initial, r);
    if r + 1 < |c.plan| && c.plan[r + 1].op != Write {
      LeavesStand(c, initial, r, fs, fs');
    }
  }

  lemma StandsAtFirst(c: Setup, initial: FS)
    requires Sound(c, initial)
    ensures Standing(c, initial, 0, initial)
  {
    if c.plan != [] {
      assert FollowsOn(c.plan, 0);
    }
  }

  lemma {:induction false} StandsBefore(c: Setup, initial: FS, n: nat)
    requires Sound(c, initial) && n <= |c.plan|
    ensures Standing(c, initial, n, Settled(c, initial, n))
    ensures n > 0 ==> AsPlanned(c, initial, n - 1, Settled(c, initial, n - 1), Settled(c, initial, n))
  {
    if n == 0 {
      StandsAtFirst(c, initial);
    } else {
      StandsBefore(c, initial, n - 1);
      RoundAsPlanned(c, initial, n - 1, Settled(c, initial, n - 1));
      StandsAfter(c, initial, n - 1, Settled(c, initial, n - 1), Settled(c, initial, n));
    }
  }
}
