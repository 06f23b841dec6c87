/** From the configuration to the end of the benchmark: what its author may rely on. */
module ConfiguredRun {
  import opened Options
  import opened BenchmarkPlan
  import opened BenchmarkResults
  import opened Configuration
  import opened ByteSizes
  import opened WorkTree
  import opened FileSystem
  import opened RoundFiles
  import opened SoundRounds
  import opened BenchmarkRun
  import opened Schedule
  import opened ScheduleTheorems
  import R = RunTheorems
  import S = SoundRuns
  import G = RunProgress
  import D = RunDirs
  import P = RoundProtocol
  import W = RunSteps
  import Q = ProtocolProgress

  // ----- Which benchmarks run

  /** What every test case must be like; a test without threads or operations is refused when it is checked. */
  predicate Usable(tested: Case) {
    && tested.threads != [] && tested.operations != []
    && (forall o :: 0 <= o < |tested.operations| ==> ToOpType(tested.operations[o]).Some?)
    && (forall t :: 0 <= t < |tested.threads| ==> tested.threads[t] >= 1)
    && tested.shape.width >= 1 && tested.shape.depth >= 1 && SizesValid(tested.shape)
  }

  /** Sizes that are valid as configured are so as decoded by the workers. */
  lemma DecodedSizesAreValid(fsd: FSD, fwd: FWD)
    requires fsd.size <= fwd.blockSize || fwd.blockSize > 0
    ensures SizesValid(ShapeOf(fsd, fwd))
  {
    CarriedZero(fwd.blockSize);
    if fsd.size <= fwd.blockSize {
      CarriedIsMonotone(fsd.size, fwd.blockSize);
    }
  }

  function SetupOf(cases: seq<Case>, global: Global, plan: seq<Round>): Setup {
    Setup(global.workers, plan, seq(|cases|, i requires 0 <= i < |cases| => cases[i].name), global.reorderTasks)
  }

  /** What is asked of a configuration, whatever its operations do and whatever there is on the disk. */
  ghost predicate Configured(cases: seq<Case>, global: Global, plan: seq<Round>) {
    && global.workers >= 1 && IsPlan(cases, plan) && TriplesDistinct(cases, AllCombos(cases))
    && forall i :: 0 <= i < |cases| ==> Usable(cases[i])
  }

  /** A round is one of a test, whose shape and settings it has. */
  lemma RoundOfTest(cases: seq<Case>, plan: seq<Round>, r: nat) returns (i: nat)
    requires IsPlan(cases, plan) && r < |plan|
    ensures i < |cases| && i == plan[r].test && plan[r].shape == cases[i].shape
    ensures plan[r].threads in cases[i].threads
  {
    var combo := AllCombos(cases)[r];
    i := combo.test;
    assert plan[r] == RoundFor(cases[i], combo);
    CombosFromTests(cases, r);
  }

  lemma {:induction false} CombosFromTests(cases: seq<Case>, r: nat)
    requires r < |AllCombos(cases)|
    ensures var combo := AllCombos(cases)[r];
      combo.test < |cases| && combo.thread in cases[combo.test].threads && combo.op in cases[combo.test].operations
  {
    var last := |cases| - 1;
    var before := AllCombos(cases[..last]);
    if r < |before| {
      CombosFromTests(cases[..last], r);
    } else {
      ComboOfTest(last, cases[last].threads, cases[last].operations, r - |before|);
    }
  }

  lemma RoundsAreRunnable(cases: seq<Case>, plan: seq<Round>, r: nat)
    requires IsPlan(cases, plan) && r < |plan| && forall i :: 0 <= i < |cases| ==> Usable(cases[i])
    ensures Runnable(plan[r])
  {
    var i := RoundOfTest(cases, plan, r);
    var t :| 0 <= t < |cases[i].threads| && cases[i].threads[t] == plan[r].threads;
  }

  lemma OpsAreKnown(cases: seq<Case>)
    requires forall i :: 0 <= i < |cases| ==> Usable(cases[i])
    ensures forall k :: 0 <= k < |AllCombos(cases)| ==> ToOpType(AllCombos(cases)[k].op).Some?
  {
    forall k | 0 <= k < |AllCombos(cases)| ensures ToOpType(AllCombos(cases)[k].op).Some? {
      CombosFromTests(cases, k);
    }
  }

  /** Every configured benchmark is workable, and its rounds have different names. */
  lemma ConfiguredIsWorkable(cases: seq<Case>, global: Global, plan: seq<Round>)
    requires Configured(cases, global, plan)
    ensures Workable(SetupOf(cases, global, plan)) && NamesDistinct(plan)
  {
    NamesDistinctIff(cases, plan);
    forall r | 0 <= r < |plan| ensures Runnable(plan[r]) && plan[r].test < |cases| {
      RoundsAreRunnable(cases, plan, r);
      var i := RoundOfTest(cases, plan, r);
    }
  }

  /** Every round is recorded with the totals of its work, and the disk is the one the plan gives. */
  predicate AsWorked(c: Setup, fs: FS, s: System)
    requires SizedPlan(c)
  {
    && s.fs == Settled(c, fs, |c.plan|)
    && |s.protocol.recorded| == |c.plan|
    && forall r :: 0 <= r < |c.plan| ==>
         s.protocol.recorded[r] != [] && R.TotalsOf(c, fs, r, Summed(s.protocol.recorded[r]))
  }

  /** Any benchmark, with whatever operations in whatever order, on any disk.  In every run without dropped connections:
      the run goes on until all rounds are complete and can go on no longer; then the disk is the one the plan gives, and
      the totals of every round are recorded, with as many failures as the plan gives. */
  lemma AnyBenchmark(cases: seq<Case>, global: Global, plan: seq<Round>, fs: FS, acts: seq<Act>)
    requires Configured(cases, global, plan)
    requires Workable(SetupOf(cases, global, plan)) // which follows, and makes Run well-formed
    requires G.NoDrops(acts) && Run(SetupOf(cases, global, plan), fs, acts).Some?
    ensures var c := SetupOf(cases, global, plan);
      var s := Run(c, fs, acts).value;
      && (Q.Complete(c, s.protocol) <==> forall act: Act :: (act.Protocol? ==> !act.step.Drop?) ==> !Can(c, s, act))
      && (Q.Complete(c, s.protocol) ==> AsWorked(c, fs, s) && |s.protocol.recorded| == RoundsBefore(cases, |cases|))
  {
    var c := SetupOf(cases, global, plan);
    ConfiguredIsWorkable(cases, global, plan);
    G.RunsToTheEnd(c, fs, acts);
    if Q.Complete(c, Run(c, fs, acts).value.protocol) {
      CombosCount(cases);
      CompleteAsWorked(c, fs, acts);
    }
  }

  lemma CompleteAsWorked(c: Setup, fs: FS, acts: seq<Act>)
    requires Workable(c) && NamesDistinct(c.plan) && Run(c, fs, acts).Some? && Q.Complete(c, Run(c, fs, acts).value.protocol)
    ensures AsWorked(c, fs, Run(c, fs, acts).value)
  {
    var s := Run(c, fs, acts).value;
    R.AllRecorded(c, fs, acts);
    R.SettledRuns(c, fs, acts);
    forall r | 0 <= r < |c.plan| ensures s.protocol.recorded[r] != [] && R.TotalsOf(c, fs, r, Summed(s.protocol.recorded[r])) {
      R.TotalsOfRound(c, fs, acts, r);
    }
  }

  /** The work of a round in terms of its defines: width to the power of depth directories in each tree, as many files in each
      of them as the define says, each of the size that it says, as that has travelled. */
  lemma ConfiguredWork(c: Setup, round: Round, fsd: FSD, fwd: FWD)
    requires round.shape == ShapeOf(fsd, fwd)
    ensures var directories := c.workers * Pow(fsd.width, fsd.depth);
      && (round.op == Write ==> R.Operations(c, round) == directories * fsd.files + directories)
      && (round.op != Write ==> R.Operations(c, round) == directories * fsd.files)
      && (round.op == Write || round.op == Read ==> R.Bytes(c, round) == directories * fsd.files * Carried(fsd.size))
      && (round.op == Stat || round.op == Delete ==> R.Bytes(c, round) == 0)
    ensures SizesValid(round.shape) && fsd.size == Carried(fsd.size) && fwd.blockSize == Carried(fwd.blockSize) ==>
      && fsd.size <= LengthOf(round.shape)
      && (fsd.size <= fwd.blockSize ==> LengthOf(round.shape) == fsd.size)
      && (fsd.size > fwd.blockSize ==> LengthOf(round.shape) < fsd.size + fwd.blockSize && LengthOf(round.shape) % fwd.blockSize == 0)
  {
    if SizesValid(round.shape) && fsd.size == Carried(fsd.size) && fwd.blockSize == Carried(fwd.blockSize) {
      FileLengthIsLeast(fsd.size, fwd.blockSize);
      if fsd.size > fwd.blockSize {
        MultipleOfBlocks(BlockCount(fsd.size, fwd.blockSize), fwd.blockSize);
      }
    }
  }

  /** The files of a test are below the anchor of its define, wherever a worker puts them. */
  lemma FilesAreAtTheAnchor(workers: nat, fsd: FSD, fwd: FWD, parts: seq<string>, p: Path)
    requires forall i :: 0 <= i < |parts| ==> parts[i] != "" && '/' !in parts[i]
    requires fsd.target.anchor == Slashed(parts) && p in AllFiles(workers, ShapeOf(fsd, fwd))
    ensures Below(p, parts)
  {
    ComponentsOfPath(parts);
    FileIsBelow(workers, ShapeOf(fsd, fwd), p);
  }

  /** The run of a configuration has as many workers as it says, and a worker uses the tree of its right neighbour in a round
      that does not write if and only if the configuration has tasks reordered. */
  lemma SetUpAsConfigured(cases: seq<Case>, global: Global, plan: seq<Round>, fs: FS, acts: seq<Act>, r: nat, w: nat)
    requires Configured(cases, global, plan) && Workable(SetupOf(cases, global, plan))
    requires Run(SetupOf(cases, global, plan), fs, acts).Some? && r < |plan| && w < global.workers
    ensures var c, s := SetupOf(cases, global, plan), Run(SetupOf(cases, global, plan), fs, acts).value;
      && |s.sites| == |s.protocol.links| == global.workers && c.plan == plan
      && TreeOf(c, plan[r].op, w) == if global.reorderTasks && plan[r].op != Write then (w + 1) % global.workers else w
  {
    TreesRotate(SetupOf(cases, global, plan), plan[r].op, w);
    TreesRotate(SetupOf(cases, global, plan), Write, (w + 1) % global.workers);
  }

  lemma MultipleOfBlocks(n: nat, d: nat)
    requires d > 0
    ensures n * d % d == 0
  {
    DivMod(n, 0, d);
  }

  // ----- Which benchmarks run without a failure

  /** One of the files is on the way to the anchor. */
  predicate InTheWay(workers: nat, shape: Shape, anchor: Path) {
    exists p <- AllFiles(workers, shape) :: p <= anchor
  }

  /** Nothing is there that is in the way of the test's directories, or where its files should be. */
  predicate Vacant(fs: FS, workers: nat, shape: Shape) {
    && (forall q <- AllLeaves(workers, shape) :: CanMake(fs, q))
    && (forall p <- AllFiles(workers, shape) :: !Exists(fs, p))
  }

  predicate PathsAreFree(cases: seq<Case>, workers: nat, fs: FS) {
    && (forall i, j :: 0 <= i < |cases| && 0 <= j < |cases| ==> !InTheWay(workers, cases[i].shape, cases[j].shape.anchor))
    && (forall i :: 0 <= i < |cases| ==> Vacant(fs, workers, cases[i].shape))
  }

  predicate AllCyclic(cases: seq<Case>) {
    forall i :: 0 <= i < |cases| ==> CyclicOps(cases[i].operations)
  }

  /** Everything that is asked of a configuration and of the file system it starts on. */
  ghost predicate Ready(cases: seq<Case>, global: Global, plan: seq<Round>, fs: FS) {
    Configured(cases, global, plan) && AllCyclic(cases) && PathsAreFree(cases, global.workers, fs)
  }

  lemma BenchFileOfTest(cases: seq<Case>, global: Global, plan: seq<Round>, p: Path) returns (i: nat)
    requires Configured(cases, global, plan) && IsBenchFile(SetupOf(cases, global, plan), p)
    ensures i < |cases| && p in AllFiles(global.workers, cases[i].shape)
  {
    var r, tree, k, index :| FileOf(SetupOf(cases, global, plan), p, r, tree, k, index);
    i := RoundOfTest(cases, plan, r);
  }

  lemma LeafOfTest(cases: seq<Case>, global: Global, plan: seq<Round>, q: Path, r: nat, tree: nat, k: nat) returns (i: nat)
    requires Configured(cases, global, plan) && LeafOf(SetupOf(cases, global, plan), q, r, tree, k)
    ensures i < |cases| && plan[r].shape == cases[i].shape && q in AllLeaves(global.workers, cases[i].shape)
  {
    i := RoundOfTest(cases, plan, r);
  }

  lemma RoundOf(cases: seq<Case>, plan: seq<Round>, i: nat) returns (r: nat)
    requires IsPlan(cases, plan) && i < |cases| && Usable(cases[i])
    ensures r < |plan| && plan[r].shape == cases[i].shape
  {
    Order(cases, i, 0, 0);
    r := RoundsBefore(cases, i) + 0 * |cases[i].operations| + 0;
    assert plan[r] == RoundFor(cases[i], AllCombos(cases)[r]);
  }

  lemma FileOfTest(cases: seq<Case>, global: Global, plan: seq<Round>, i: nat, p: Path)
    requires Configured(cases, global, plan) && i < |cases| && p in AllFiles(global.workers, cases[i].shape)
    ensures IsBenchFile(SetupOf(cases, global, plan), p)
  {
    var r := RoundOf(cases, plan, i);
    AllFilesAreBenchFiles(SetupOf(cases, global, plan), r, p);
  }

  lemma FileNotOnTheWay(workers: nat, shape: Shape, p: Path, shape': Shape, q: Path)
    requires p in AllFiles(workers, shape) && q in AllLeaves(workers, shape')
    ensures p <= q <==> p <= shape'.anchor
  {
    var tree, k, i := InAllFiles(workers, shape, p);
    var tree', k' := InAllLeaves(workers, shape', q);
    FileOnTheWay(shape, tree, k, i, shape', tree', k');
  }

  lemma FreeHasNoClash(cases: seq<Case>, global: Global, plan: seq<Round>, fs: FS)
    requires Configured(cases, global, plan) && PathsAreFree(cases, global.workers, fs)
    ensures NoClash(SetupOf(cases, global, plan), fs)
  {
    var c := SetupOf(cases, global, plan);
    forall p, q, r: nat, tree: nat, k: nat | LeafOf(c, q, r, tree, k) && IsBenchFile(c, p) ensures !(p <= q) {
      var i := BenchFileOfTest(cases, global, plan, p);
      var j := LeafOfTest(cases, global, plan, q, r, tree, k);
      FileNotOnTheWay(global.workers, cases[i].shape, p, cases[j].shape, q);
      assert !InTheWay(global.workers, cases[i].shape, cases[j].shape.anchor);
    }
    forall p | IsBenchFile(c, p) ensures p !in fs.files && p !in fs.dirs {
      var i := BenchFileOfTest(cases, global, plan, p);
      assert Vacant(fs, global.workers, cases[i].shape);
    }
    forall q, r: nat, tree: nat, k: nat | LeafOf(c, q, r, tree, k) ensures CanMake(fs, q) {
      var i := LeafOfTest(cases, global, plan, q, r, tree, k);
      assert Vacant(fs, global.workers, cases[i].shape);
    }
  }

  lemma NotInTheWay(cases: seq<Case>, global: Global, plan: seq<Round>, fs: FS, i: nat, j: nat)
    requires Configured(cases, global, plan) && NoClash(SetupOf(cases, global, plan), fs) && i < |cases| && j < |cases|
    ensures !InTheWay(global.workers, cases[i].shape, cases[j].shape.anchor)
  {
    forall p | p in AllFiles(global.workers, cases[i].shape) ensures !(p <= cases[j].shape.anchor) {
      var q := FirstLeaf(cases, global, plan, j);
      FileOfTest(cases, global, plan, i, p);
      FileNotOnTheWay(global.workers, cases[i].shape, p, cases[j].shape, q);
    }
  }

  lemma FirstLeaf(cases: seq<Case>, global: Global, plan: seq<Round>, j: nat) returns (q: Path)
    requires Configured(cases, global, plan) && j < |cases|
    ensures q in AllLeaves(global.workers, cases[j].shape)
    ensures exists r: nat, tree: nat, k: nat :: LeafOf(SetupOf(cases, global, plan), q, r, tree, k)
  {
    var r := RoundOf(cases, plan, j);
    W.LeavesExist(cases[j].shape);
    q := Leaf(cases[j].shape, 0, 0);
    assert LeafOf(SetupOf(cases, global, plan), q, r, 0, 0);
  }

  lemma IsVacant(cases: seq<Case>, global: Global, plan: seq<Round>, fs: FS, i: nat)
    requires Configured(cases, global, plan) && NoClash(SetupOf(cases, global, plan), fs) && i < |cases|
    ensures Vacant(fs, global.workers, cases[i].shape)
  {
    var r := RoundOf(cases, plan, i);
    forall q | q in AllLeaves(global.workers, cases[i].shape) ensures CanMake(fs, q) {
      var tree, k := InAllLeaves(global.workers, cases[i].shape, q);
      assert LeafOf(SetupOf(cases, global, plan), q, r, tree, k);
    }
    forall p | p in AllFiles(global.workers, cases[i].shape) ensures !Exists(fs, p) {
      FileOfTest(cases, global, plan, i, p);
    }
  }

  /** For a benchmark in cycles, these are exactly the conditions of the theorems about runs in which nothing fails. */
  lemma ReadyIffSound(cases: seq<Case>, global: Global, plan: seq<Round>, fs: FS)
    requires Configured(cases, global, plan) && AllCyclic(cases)
    ensures PathsAreFree(cases, global.workers, fs) <==> Sound(SetupOf(cases, global, plan), fs)
  {
    ConfiguredIsWorkable(cases, global, plan);
    PlanIsCyclic(cases, plan);
    if PathsAreFree(cases, global.workers, fs) {
      FreeHasNoClash(cases, global, plan, fs);
    }
    if Sound(SetupOf(cases, global, plan), fs) {
      forall i, j | 0 <= i < |cases| && 0 <= j < |cases| ensures !InTheWay(global.workers, cases[i].shape, cases[j].shape.anchor) {
        NotInTheWay(cases, global, plan, fs, i, j);
      }
      forall i | 0 <= i < |cases| ensures Vacant(fs, global.workers, cases[i].shape) {
        IsVacant(cases, global, plan, fs, i);
      }
    }
  }

  // ----- Ordinary benchmarks

  /** The anchors of two tests are the same, or neither lies inside the other. */
  predicate Apart(anchor: Path, anchor': Path) {
    anchor == anchor' || (!(anchor <= anchor') && !(anchor' <= anchor))
  }

  predicate AllApart(cases: seq<Case>) {
    forall i, j :: 0 <= i < |cases| && 0 <= j < |cases| ==> Apart(cases[i].shape.anchor, cases[j].shape.anchor)
  }

  /** No file is in the way of the anchor, and there is nothing below it. */
  predicate Fresh(fs: FS, anchor: Path) {
    && CanMake(fs, anchor)
    && (forall p <- fs.files :: !Below(p, anchor))
    && (forall p <- fs.dirs :: !Below(p, anchor))
  }

  predicate AllFresh(cases: seq<Case>, fs: FS) {
    forall i :: 0 <= i < |cases| ==> Fresh(fs, cases[i].shape.anchor)
  }

  lemma FileIsBelow(workers: nat, shape: Shape, p: Path)
    requires p in AllFiles(workers, shape)
    ensures Below(p, shape.anchor)
  {
    var tree, k, i := InAllFiles(workers, shape, p);
    LeafExtends(shape, WorkerId(tree), shape.anchor, 0, k);
  }

  lemma CanMakeLeafOf(fs: FS, shape: Shape, tree: nat, k: nat)
    requires Fresh(fs, shape.anchor) && k < LeafCount(shape)
    ensures CanMake(fs, Leaf(shape, tree, k))
  {
    var leaf, anchor := Leaf(shape, tree, k), shape.anchor;
    LeafExtends(shape, WorkerId(tree), anchor, 0, k);
    forall n | 0 <= n <= |leaf| ensures leaf[..n] !in fs.files {
      if n <= |anchor| {
        assert leaf[..n] == anchor[..n];
      } else {
        assert Below(leaf[..n], anchor);
      }
    }
  }

  lemma FreshIsVacant(fs: FS, workers: nat, shape: Shape)
    requires Fresh(fs, shape.anchor)
    ensures Vacant(fs, workers, shape)
  {
    forall q | q in AllLeaves(workers, shape) ensures CanMake(fs, q) {
      var tree, k := InAllLeaves(workers, shape, q);
      CanMakeLeafOf(fs, shape, tree, k);
    }
    forall p | p in AllFiles(workers, shape) ensures !Exists(fs, p) {
      FileIsBelow(workers, shape, p);
    }
  }

  lemma ApartIsFree(workers: nat, shape: Shape, anchor: Path)
    requires Apart(shape.anchor, anchor)
    ensures !InTheWay(workers, shape, anchor)
  {
    forall p | p in AllFiles(workers, shape) ensures !(p <= anchor) {
      FileIsBelow(workers, shape, p);
    }
  }

  /** An ordinary benchmark is ready: differently named usable tests, none with a thread count or an operation twice,
      on fresh anchors. */
  lemma OrdinaryIsReady(cases: seq<Case>, global: Global, fs: FS)
    requires global.workers >= 1 && AllApart(cases) && AllFresh(cases, fs) && AllCyclic(cases)
    requires forall i, j :: 0 <= i < j < |cases| ==> cases[i].name != cases[j].name
    requires forall i :: 0 <= i < |cases| ==> Usable(cases[i]) && Distinct(cases[i].threads) && Distinct(cases[i].operations)
    ensures forall k :: 0 <= k < |AllCombos(cases)| ==> ToOpType(AllCombos(cases)[k].op).Some?
    ensures Ready(cases, global, PlanOf(cases), fs)
  {
    OpsAreKnown(cases);
    DistinctListsAreEnough(cases);
    forall i, j | 0 <= i < |cases| && 0 <= j < |cases| ensures !InTheWay(global.workers, cases[i].shape, cases[j].shape.anchor) {
      assert Apart(cases[i].shape.anchor, cases[j].shape.anchor);
      ApartIsFree(global.workers, cases[i].shape, cases[j].shape.anchor);
    }
    forall i | 0 <= i < |cases| ensures Vacant(fs, global.workers, cases[i].shape) {
      assert Fresh(fs, cases[i].shape.anchor);
      FreshIsVacant(fs, global.workers, cases[i].shape);
    }
  }

  /** For instance: one test that writes, reads, checks and deletes with one client and with two, on an empty disk. */
  lemma SomethingIsReady(global: Global) returns (cases: seq<Case>, plan: seq<Round>)
    requires global.workers >= 1
    ensures Ready(cases, global, plan, FS(map[], {})) && |plan| == 8
  {
    var tested := Case("small files", ["write", "read", "stat", "delete"], [1, 2], Shape(["mnt"], 2, 3, 10, 4096, 1024), true);
    cases := [tested];
    OrdinaryIsReady(cases, global, FS(map[], {}));
    plan := PlanOf(cases);
    CombosCount(cases);
    assert RoundsBefore(cases, 1) == RoundsBefore(cases, 0) + 2 * 4;
  }

  // ----- Runs without a failure

  /** There are exactly the files there were at first and the directories of the plan, and every round is recorded with
      the totals of its work, nothing of it failed. */
  predicate AsConfigured(c: Setup, fs: FS, s: System) {
    && s.fs.files == fs.files
    && s.fs.dirs == D.PlannedDirs(c, fs, |c.plan|)
    && |s.protocol.recorded| == |c.plan|
    && forall r :: 0 <= r < |c.plan| ==>
         s.protocol.recorded[r] != [] && S.FullTotals(c, c.plan[r], Summed(s.protocol.recorded[r]))
  }

  /** The whole benchmark.  In every run without dropped connections: no operation ever fails, the run goes on until
      all rounds are complete and can go on no longer, and then everything is as configured. */
  lemma Benchmark(cases: seq<Case>, global: Global, plan: seq<Round>, fs: FS, acts: seq<Act>)
    requires Ready(cases, global, plan, fs)
    requires Workable(SetupOf(cases, global, plan)) // which follows, and makes Run well-formed
    requires G.NoDrops(acts) && Run(SetupOf(cases, global, plan), fs, acts).Some?
    ensures var c := SetupOf(cases, global, plan);
      var s := Run(c, fs, acts).value;
      && (forall w :: 0 <= w < c.workers ==> s.sites[w].counters.failed == [])
      && (Q.Complete(c, s.protocol) <==> forall act: Act :: (act.Protocol? ==> !act.step.Drop?) ==> !Can(c, s, act))
      && (Q.Complete(c, s.protocol) ==> AsConfigured(c, fs, s) && |s.protocol.recorded| == RoundsBefore(cases, |cases|))
  {
    var c := SetupOf(cases, global, plan);
    ReadyIffSound(cases, global, plan, fs);
    AnyBenchmark(cases, global, plan, fs, acts);
    S.RunSucceeds(c, fs, acts);
    if Q.Complete(c, Run(c, fs, acts).value.protocol) {
      CompleteLeavesNothing(cases, global, plan, fs, acts);
      CompleteAsConfigured(c, fs, acts);
    }
  }

  lemma CompleteAsConfigured(c: Setup, fs: FS, acts: seq<Act>)
    requires Sound(c, fs) && Run(c, fs, acts).Some? && Q.Complete(c, Run(c, fs, acts).value.protocol)
    requires Run(c, fs, acts).value.fs.files == fs.files
    ensures AsConfigured(c, fs, Run(c, fs, acts).value)
  {
    var s := Run(c, fs, acts).value;
    R.AllRecorded(c, fs, acts);
    D.DirectoriesBetweenRounds(c, fs, acts);
    forall r | 0 <= r < |c.plan| ensures s.protocol.recorded[r] != [] && S.FullTotals(c, c.plan[r], Summed(s.protocol.recorded[r])) {
      S.FullTotalsOfRound(c, fs, acts, r);
    }
  }

  lemma CompleteLeavesNothing(cases: seq<Case>, global: Global, plan: seq<Round>, fs: FS, acts: seq<Act>)
    requires Ready(cases, global, plan, fs) && Workable(SetupOf(cases, global, plan))
    requires Run(SetupOf(cases, global, plan), fs, acts).Some?
    requires Q.Complete(SetupOf(cases, global, plan), Run(SetupOf(cases, global, plan), fs, acts).value.protocol)
    ensures Run(SetupOf(cases, global, plan), fs, acts).value.fs.files == fs.files
  {
    var c := SetupOf(cases, global, plan);
    ReadyIffSound(cases, global, plan, fs);
    S.FilesBetweenRounds(c, fs, acts);
    if plan != [] {
      EndsWithDelete(cases, plan);
    }
  }

  lemma VacantAgain(cases: seq<Case>, global: Global, plan: seq<Round>, fs: FS, fs': FS, i: nat)
    requires Ready(cases, global, plan, fs) && fs'.files == fs.files && DirsClear(SetupOf(cases, global, plan), fs') && i < |cases|
    ensures Vacant(fs', global.workers, cases[i].shape)
  {
    assert Vacant(fs, global.workers, cases[i].shape);
    forall q | q in AllLeaves(global.workers, cases[i].shape) ensures CanMake(fs', q) {
      assert CanMake(fs, q);
    }
    forall p | p in AllFiles(global.workers, cases[i].shape) ensures !Exists(fs', p) {
      assert !Exists(fs, p);
      FileOfTest(cases, global, plan, i, p);
    }
  }

  /** A benchmark can be run again, with or without housekeeping: once complete, it is ready on the disk it leaves. */
  lemma ReadyAgain(cases: seq<Case>, global: Global, plan: seq<Round>, fs: FS, acts: seq<Act>)
    requires Ready(cases, global, plan, fs) && Workable(SetupOf(cases, global, plan))
    requires Run(SetupOf(cases, global, plan), fs, acts).Some?
    requires Q.Complete(SetupOf(cases, global, plan), Run(SetupOf(cases, global, plan), fs, acts).value.protocol)
    ensures Ready(cases, global, plan, Run(SetupOf(cases, global, plan), fs, acts).value.fs)
  {
    var c := SetupOf(cases, global, plan);
    var fs' := Run(c, fs, acts).value.fs;
    ReadyIffSound(cases, global, plan, fs);
    CompleteLeavesNothing(cases, global, plan, fs, acts);
    R.SettledRuns(c, fs, acts);
    StandsBefore(c, fs, |plan|);
    forall i | 0 <= i < |cases| ensures Vacant(fs', global.workers, cases[i].shape) {
      VacantAgain(cases, global, plan, fs, fs', i);
    }
  }

  lemma LastCombo(cases: seq<Case>) returns (combo: Combo)
    requires AllCombos(cases) != [] && forall i :: 0 <= i < |cases| ==> CyclicOps(cases[i].operations)
    ensures combo == AllCombos(cases)[|AllCombos(cases)| - 1] && ToOpType(combo.op) == ToOpType("delete")
  {
    CombosAreCyclic(cases);
    combo := AllCombos(cases)[|AllCombos(cases)| - 1];
  }

  lemma LastRound(cases: seq<Case>, plan: seq<Round>, combo: Combo)
    requires IsPlan(cases, plan) && plan != [] && combo == AllCombos(cases)[|AllCombos(cases)| - 1]
    ensures ToOpType(combo.op) == Some(plan[|plan| - 1].op)
  {
    assert plan[|plan| - 1] == RoundFor(cases[combo.test], combo);
  }

  lemma EndsWithDelete(cases: seq<Case>, plan: seq<Round>)
    requires IsPlan(cases, plan) && plan != [] && AllCyclic(cases)
    ensures plan[|plan| - 1].op == Delete
  {
    var combo := LastCombo(cases);
    LastRound(cases, plan, combo);
  }

  // ----- Housekeeping

  /** What every run finds when a clearing round is over: a leaf directory of any of its trees is left if and only if a file
      there was at first, or a directory there was before the round, is below it. */
  lemma Housekeeping(cases: seq<Case>, global: Global, plan: seq<Round>, fs: FS, acts: seq<Act>, q: Path)
    requires Ready(cases, global, plan, fs)
    requires Workable(SetupOf(cases, global, plan)) // which follows, and makes Run well-formed
    requires Run(SetupOf(cases, global, plan), fs, acts).Some?
    requires D.JustCleared(SetupOf(cases, global, plan), Run(SetupOf(cases, global, plan), fs, acts).value.protocol, q)
    ensures var c := SetupOf(cases, global, plan);
      var s := Run(c, fs, acts).value;
      D.LeftIff(c, fs, s.fs, |s.protocol.rounds|, q)
  {
    ReadyIffSound(cases, global, plan, fs);
    D.ClearedLeafIsLeftIff(SetupOf(cases, global, plan), fs, acts, q);
  }

  /** The tests have their anchors to themselves, or share them with tests whose trees are as deep. */
  ghost predicate Undisturbed(cases: seq<Case>, global: Global, plan: seq<Round>, fs: FS) {
    Ready(cases, global, plan, fs) && AllApart(cases) && AllFresh(cases, fs) && SameDepths(cases)
  }

  /** Tests on one anchor use trees of one depth. */
  predicate SameDepths(cases: seq<Case>) {
    forall i, j :: 0 <= i < |cases| && 0 <= j < |cases| ==> SameDepth(cases[i].shape, cases[j].shape)
  }

  predicate SameDepth(shape: Shape, shape': Shape) {
    shape.anchor == shape'.anchor ==> shape.depth == shape'.depth
  }

  lemma BelowLeaf(shape: Shape, tree: nat, k: nat, p: Path)
    requires k < LeafCount(shape)
    ensures Below(p, Leaf(shape, tree, k)) ==> Below(p, shape.anchor)
  {
    LeafExtends(shape, WorkerId(tree), shape.anchor, 0, k);
  }

  /** Nothing is below a leaf directory at first. */
  lemma NothingFirstBelow(cases: seq<Case>, global: Global, plan: seq<Round>, fs: FS, r: nat, q: Path, p: Path)
    requires Undisturbed(cases, global, plan, fs) && r < |plan| && q in AllLeaves(global.workers, plan[r].shape)
    requires p in fs.files || p in fs.dirs
    ensures !Below(p, q)
  {
    var i := RoundOfTest(cases, plan, r);
    var tree, k := InAllLeaves(global.workers, plan[r].shape, q);
    assert Fresh(fs, cases[i].shape.anchor);
    BelowLeaf(plan[r].shape, tree, k, p);
  }

  lemma NoFirstFileBelow(cases: seq<Case>, global: Global, plan: seq<Round>, fs: FS, r: nat, q: Path)
    requires Undisturbed(cases, global, plan, fs) && r < |plan| && q in AllLeaves(global.workers, plan[r].shape)
    ensures !D.HasBelow(fs.files.Keys, q)
  {
    forall p | p in fs.files ensures !Below(p, q) {
      NothingFirstBelow(cases, global, plan, fs, r, q, p);
    }
  }

  lemma LeavesAreApart(shape: Shape, tree: nat, k: nat, shape': Shape, tree': nat, k': nat)
    requires k < LeafCount(shape) && k' < LeafCount(shape') && Apart(shape.anchor, shape'.anchor)
    requires SameDepth(shape, shape')
    ensures !Below(Leaf(shape', tree', k'), Leaf(shape, tree, k))
  {
    LeafExtends(shape, WorkerId(tree), shape.anchor, 0, k);
    LeafExtends(shape', WorkerId(tree'), shape'.anchor, 0, k');
    var leaf, leaf' := Leaf(shape, tree, k), Leaf(shape', tree', k');
    if leaf <= leaf' && shape.anchor != shape'.anchor {
      OneIsPrefix(shape.anchor, shape'.anchor, leaf');
    }
  }

  lemma OneIsPrefix(a: Path, b: Path, p: Path)
    requires a <= p && b <= p
    ensures a <= b || b <= a
  {
    assert a == p[..|a|] && b == p[..|b|];
    assert |a| <= |b| ==> a == b[..|a|];
    assert |b| <= |a| ==> b == a[..|b|];
  }

  lemma SomeParent(workers: nat, shape: Shape, p: Path) returns (tree: nat, k: nat)
    requires p in WithParents(AllLeaves(workers, shape))
    ensures tree < workers && k < LeafCount(shape) && p <= Leaf(shape, tree, k)
  {
    var q, n :| q in AllLeaves(workers, shape) && 0 <= n <= |q| && p == q[..n];
    tree, k := InAllLeaves(workers, shape, q);
  }

  lemma ParentIsNotBelow(shape: Shape, tree: nat, k: nat, shape': Shape, tree': nat, k': nat, p: Path)
    requires k < LeafCount(shape) && k' < LeafCount(shape') && Apart(shape.anchor, shape'.anchor)
    requires SameDepth(shape, shape')
    requires p <= Leaf(shape', tree', k')
    ensures !Below(p, Leaf(shape, tree, k))
  {
    LeavesAreApart(shape, tree, k, shape', tree', k');
  }

  lemma NothingAppearsBelow(cases: seq<Case>, global: Global, plan: seq<Round>, fs: FS, r: nat, q: Path, m: nat, p: Path)
    requires Undisturbed(cases, global, plan, fs) && r < |plan| && q in AllLeaves(global.workers, plan[r].shape)
    requires 0 < m <= |plan| && D.Appears(SetupOf(cases, global, plan), fs, m, p)
    ensures !Below(p, q)
  {
    var tree, k := InAllLeaves(global.workers, plan[r].shape, q);
    var tree', k' := SomeParent(global.workers, plan[m - 1].shape, p);
    var i := RoundOfTest(cases, plan, r);
    var j := RoundOfTest(cases, plan, m - 1);
    ParentIsNotBelow(plan[r].shape, tree, k, plan[m - 1].shape, tree', k', p);
  }

  lemma NothingEverAppears(cases: seq<Case>, global: Global, plan: seq<Round>, fs: FS, r: nat, q: Path)
    requires Undisturbed(cases, global, plan, fs) && r < |plan| && q in AllLeaves(global.workers, plan[r].shape)
    ensures D.NothingAppearsBelow(SetupOf(cases, global, plan), fs, r, q)
  {
    forall m, p | 0 <= m <= r && D.Appears(SetupOf(cases, global, plan), fs, m, p) ensures !Below(p, q) {
      if m > 0 {
        NothingAppearsBelow(cases, global, plan, fs, r, q, m, p);
      } else {
        NothingFirstBelow(cases, global, plan, fs, r, q, p);
      }
    }
  }

  lemma ClearedLeaf(cases: seq<Case>, global: Global, plan: seq<Round>, p: P.State, q: Path)
    requires global.workers >= 1 && D.JustCleared(SetupOf(cases, global, plan), p, q)
    ensures 0 < |p.rounds| <= |plan| && Clears(plan[|p.rounds| - 1]) && q in AllLeaves(global.workers, plan[|p.rounds| - 1].shape)
  {
  }

  lemma NothingEverBelow(cases: seq<Case>, global: Global, plan: seq<Round>, fs: FS, p: P.State, q: Path)
    requires Undisturbed(cases, global, plan, fs) && D.JustCleared(SetupOf(cases, global, plan), p, q)
    ensures D.NothingEverBelow(SetupOf(cases, global, plan), fs, |p.rounds| - 1, q)
  {
    ClearedLeaf(cases, global, plan, p, q);
    NoFirstFileBelow(cases, global, plan, fs, |p.rounds| - 1, q);
    NothingEverAppears(cases, global, plan, fs, |p.rounds| - 1, q);
  }

  /** With trees of one depth on each anchor, a clearing round leaves none of its leaf directories. */
  lemma SameDepthsLeaveNothing(cases: seq<Case>, global: Global, plan: seq<Round>, fs: FS, acts: seq<Act>, q: Path)
    requires Undisturbed(cases, global, plan, fs)
    requires Workable(SetupOf(cases, global, plan)) // which follows, and makes Run well-formed
    requires Run(SetupOf(cases, global, plan), fs, acts).Some?
    requires D.JustCleared(SetupOf(cases, global, plan), Run(SetupOf(cases, global, plan), fs, acts).value.protocol, q)
    ensures q !in Run(SetupOf(cases, global, plan), fs, acts).value.fs.dirs
  {
    var c := SetupOf(cases, global, plan);
    ReadyIffSound(cases, global, plan, fs);
    NothingEverBelow(cases, global, plan, fs, Run(c, fs, acts).value.protocol, q);
    D.ClearedLeafIsGone(c, fs, acts, q);
  }
}
