/** What a benchmark run guarantees from end to end, whichever of its operations fail: between two rounds the file system
    is the one the plan gives, and the recorded totals are exactly the work asked for, in every interleaving. */
module RunTheorems {
  import opened Arithmetic
  import opened BenchmarkPlan
  import opened BenchmarkResults
  import opened WorkTree
  import opened FileSystem
  import opened ClientPool
  import opened RoundFiles
  import opened BenchmarkRun
  import opened RunInvariant
  import opened RunSteps
  import opened RunCounts
  import P = RoundProtocol
  import I = ProtocolInvariant
  import T = ProtocolTheorems

  // ----- The file system

  /** Whenever the server is between two rounds, the file system is the one the plan gives for the first one, file by file
      and directory by directory, whatever the order of the steps and whichever operations failed. */
  lemma SettledRuns(c: Setup, initial: FS, acts: seq<Act>)
    requires Workable(c) && Run(c, initial, acts).Some? && Run(c, initial, acts).value.protocol.server == P.Between
    ensures IsSettled(c, initial, Run(c, initial, acts).value.fs, |Run(c, initial, acts).value.protocol.rounds|)
  {
    EveryRunKeepsInv(c, initial, acts);
    SettledBetweenRounds(c, initial, Run(c, initial, acts).value);
  }

  /** So it depends on the number of rounds only. */
  lemma FileSystemsAgree(c: Setup, initial: FS, acts: seq<Act>, acts': seq<Act>)
    requires Workable(c) && Run(c, initial, acts).Some? && Run(c, initial, acts').Some?
    requires var p, p' := Run(c, initial, acts).value.protocol, Run(c, initial, acts').value.protocol;
      p.server == p'.server == P.Between && |p.rounds| == |p'.rounds|
    ensures Run(c, initial, acts).value.fs == Run(c, initial, acts').value.fs
  {
    SettledRuns(c, initial, acts);
    SettledRuns(c, initial, acts');
    SameWhenSettled(c, initial, Run(c, initial, acts).value.fs, Run(c, initial, acts').value.fs, |Run(c, initial, acts).value.protocol.rounds|);
  }

  lemma SameWhenSettled(c: Setup, initial: FS, fs: FS, fs': FS, n: nat)
    requires forall q :: 0 <= q < |c.plan| ==> SizesValid(c.plan[q].shape)
    requires IsSettled(c, initial, fs, n) && IsSettled(c, initial, fs', n)
    ensures fs == fs'
  {
  }

  /** Whenever the server is between two rounds it has recorded every round so far. */
  lemma AllRecorded(c: Setup, initial: FS, acts: seq<Act>)
    requires Workable(c) && Run(c, initial, acts).Some? && Run(c, initial, acts).value.protocol.server == P.Between
    ensures var s := Run(c, initial, acts).value.protocol; |s.recorded| == |s.rounds|
  {
    EveryRunKeepsInv(c, initial, acts);
  }

  // ----- What each worker reports

  lemma ReportsHold(c: Setup, initial: FS, s: System, r: nat)
    requires Fits(c, s) && CountsInv(c, initial, s) && r < |c.plan| && forall w :: 0 <= w < c.workers ==> r < |s.protocol.links[w].reports|
    ensures forall w :: 0 <= w < c.workers ==> Faithful(c, initial, r, w, s.protocol.links[w].reports[r])
  {
    forall w | 0 <= w < c.workers ensures Faithful(c, initial, r, w, s.protocol.links[w].reports[r]) {
      CountHolds(c, initial, s, w);
    }
  }

  /** The results are those of the workers, in some order. */
  ghost predicate FromWorkers(c: Setup, initial: FS, r: nat, results: seq<BenchmarkResult>)
    requires SizedPlan(c) && r < |c.plan|
  {
    exists reports: seq<BenchmarkResult> :: multiset(results) == multiset(reports) && OnePerWorker(c, initial, r, reports)
  }

  predicate OnePerWorker(c: Setup, initial: FS, r: nat, reports: seq<BenchmarkResult>)
    requires SizedPlan(c) && r < |c.plan|
  {
    |reports| == c.workers && forall w :: 0 <= w < |reports| ==> Faithful(c, initial, r, w, reports[w])
  }

  /** What is recorded for a completed round is one result of each worker, and reports exactly its work of the round: as
      successful the operations that would succeed on their own before the round, as failed the rest, and as bytes those
      of all, failed or not. */
  lemma RecordedResults(c: Setup, initial: FS, acts: seq<Act>, r: nat)
    requires Workable(c) && NamesDistinct(c.plan) && Run(c, initial, acts).Some?
    requires r < |Run(c, initial, acts).value.protocol.recorded|
    ensures r < |c.plan| && FromWorkers(c, initial, r, Run(c, initial, acts).value.protocol.recorded[r])
  {
    EveryRunKeepsInv(c, initial, acts);
    EveryRunKeepsCounts(c, initial, acts);
    RecordedFromWorkers(c, initial, Run(c, initial, acts).value, r);
  }

  lemma RecordedFromWorkers(c: Setup, initial: FS, s: System, r: nat)
    requires Fits(c, s) && I.Inv(c, s.protocol) && CountsInv(c, initial, s) && r < |s.protocol.recorded|
    ensures r < |c.plan| && FromWorkers(c, initial, r, s.protocol.recorded[r])
  {
    T.RecordedExactly(c, s.protocol, r);
    ReportsHold(c, initial, s, r);
    assert OnePerWorker(c, initial, r, T.ReportsOf(s.protocol.links, r));
  }

  // ----- What they add up to

  lemma GoodOfBoth(round: Round, base: FS, a: set<Path>, b: set<Path>)
    requires SizesValid(round.shape) && a !! b
    ensures |Good(round, base, a + b)| == |Good(round, base, a)| + |Good(round, base, b)|
  {
    assert Good(round, base, a + b) == Good(round, base, a) + Good(round, base, b);
  }

  lemma MakeableOfBoth(base: FS, a: set<Path>, b: set<Path>)
    requires a !! b
    ensures |Makeable(base, a + b)| == |Makeable(base, a)| + |Makeable(base, b)|
  {
    assert Makeable(base, a + b) == Makeable(base, a) + Makeable(base, b);
  }

  predicate AllJobs(round: Round, dones: seq<seq<Job>>) {
    forall w :: 0 <= w < |dones| ==> dones[w] == JobsOf(round)
  }

  lemma DisjointFiles(c: Setup, r: nat, dones: seq<seq<Job>>)
    requires r < |c.plan| && c.plan[r].shape.depth > 0 && |dones| < c.workers && AllJobs(c.plan[r], dones)
    ensures DoneFiles(c, r, dones) !! DoneBy(c, r, |dones|, JobsOf(c.plan[r]))
  {
    var jobs, w := JobsOf(c.plan[r]), |dones|;
    forall p | p in DoneBy(c, r, w, jobs) ensures p !in DoneFiles(c, r, dones) {
      var j :| 0 <= j < |jobs| && p == JobPath(c, r, w, jobs[j]);
      DoneBySome(c, r, dones, p);
      if v :| 0 <= v < |dones| && p in DoneBy(c, r, v, dones[v]) {
        var i :| 0 <= i < |jobs| && p == JobPath(c, r, v, jobs[i]);
        JobsExactly(QueueLength(c.plan[r]), c.plan[r].shape.files, jobs[i]);
        JobsExactly(QueueLength(c.plan[r]), c.plan[r].shape.files, jobs[j]);
        FilesDiffer(c.plan[r].shape, TreeOf(c, c.plan[r].op, w), jobs[j].directory, jobs[j].index,
                    TreeOf(c, c.plan[r].op, v), jobs[i].directory, jobs[i].index);
        TreesDiffer(c, c.plan[r].op, w, v);
      }
    }
  }

  lemma DisjointLeaves(c: Setup, r: nat, handled: seq<nat>, n: nat)
    requires r < |c.plan| && c.plan[r].shape.depth > 0 && |handled| < c.workers && n <= QueueLength(c.plan[r])
    requires forall w :: 0 <= w < |handled| ==> handled[w] == n
    ensures LeavesSoFar(c, r, handled) !! LeavesBy(c, r, |handled|, n)
  {
    forall q | q in LeavesBy(c, r, |handled|, n) ensures q !in LeavesSoFar(c, r, handled) {
      var k: nat :| k < n && q == LeafAt(c, r, |handled|, k);
      LeafOfSome(c, r, handled, q);
      if v :| 0 <= v < |handled| && q in LeavesBy(c, r, v, handled[v]) {
        var i: nat :| i < n && q == LeafAt(c, r, v, i);
        LeavesDiffer(c.plan[r].shape, TreeOf(c, c.plan[r].op, |handled|), k, TreeOf(c, c.plan[r].op, v), i);
        TreesDiffer(c, c.plan[r].op, |handled|, v);
      }
    }
  }

  /** Some of the workers' results, and all that these have done and prepared. */
  predicate ReportsOf(c: Setup, initial: FS, r: nat, reports: seq<BenchmarkResult>, dones: seq<seq<Job>>, handled: seq<nat>)
    requires SizedPlan(c) && r < |c.plan|
  {
    && |reports| == |dones| == |handled| <= c.workers && AllJobs(c.plan[r], dones)
    && (forall w :: 0 <= w < |handled| ==> handled[w] == ToMake(c.plan[r]))
    && (forall w :: 0 <= w < |reports| ==> Faithful(c, initial, r, w, reports[w]))
  }

  lemma SuccessesOfBoth(round: Round, base: FS, files: set<Path>, files': set<Path>, leaves: set<Path>, leaves': set<Path>)
    requires SizesValid(round.shape) && files !! files' && leaves !! leaves'
    ensures Successes(round, base, files + files', leaves + leaves')
         == Successes(round, base, files, leaves) + Successes(round, base, files', leaves')
  {
    GoodOfBoth(round, base, files, files');
    MakeableOfBoth(base, leaves, leaves');
  }

  lemma OneMoreWorker(c: Setup, r: nat, base: FS, dones: seq<seq<Job>>, handled: seq<nat>)
    requires r < |c.plan| && c.plan[r].shape.depth > 0 && SizesValid(c.plan[r].shape)
    requires 0 < |dones| == |handled| <= c.workers && AllJobs(c.plan[r], dones)
    requires forall w :: 0 <= w < |handled| ==> handled[w] == ToMake(c.plan[r])
    ensures var last := |dones| - 1;
      Successes(c.plan[r], base, DoneFiles(c, r, dones), LeavesSoFar(c, r, handled))
      == Successes(c.plan[r], base, DoneFiles(c, r, dones[..last]), LeavesSoFar(c, r, handled[..last]))
         + Successes(c.plan[r], base, DoneBy(c, r, last, JobsOf(c.plan[r])), LeavesBy(c, r, last, ToMake(c.plan[r])))
  {
    var last := |dones| - 1;
    DisjointFiles(c, r, dones[..last]);
    DisjointLeaves(c, r, handled[..last], ToMake(c.plan[r]));
    SuccessesOfBoth(c.plan[r], base, DoneFiles(c, r, dones[..last]), DoneBy(c, r, last, JobsOf(c.plan[r])),
                    LeavesSoFar(c, r, handled[..last]), LeavesBy(c, r, last, ToMake(c.plan[r])));
  }

  lemma {:induction false} SuccessesAddUp(c: Setup, initial: FS, r: nat, reports: seq<BenchmarkResult>, dones: seq<seq<Job>>, handled: seq<nat>)
    requires SizedPlan(c) && r < |c.plan| && c.plan[r].shape.depth > 0 && ReportsOf(c, initial, r, reports, dones, handled)
    ensures Total(reports, SUCCESSFUL)
         == Successes(c.plan[r], Settled(c, initial, r), DoneFiles(c, r, dones), LeavesSoFar(c, r, handled)) as real
  {
    if reports == [] {
      NothingGood(c.plan[r], Settled(c, initial, r));
    } else {
      var last := |reports| - 1;
      SuccessesAddUp(c, initial, r, reports[..last], dones[..last], handled[..last]);
      OneMoreWorker(c, r, Settled(c, initial, r), dones, handled);
      assert Faithful(c, initial, r, last, reports[last]);
    }
  }

  lemma NothingGood(round: Round, base: FS)
    requires SizesValid(round.shape)
    ensures Successes(round, base, {}, {}) == 0
  {
    assert Good(round, base, {}) == {} && Makeable(base, {}) == {};
  }

  lemma {:induction false} CountsAddUp(results: seq<BenchmarkResult>, operations: nat, bytes: nat)
    requires forall k :: 0 <= k < |results| ==> Counts(results[k], operations, bytes)
    ensures Total(results, SUCCESSFUL) + Total(results, FAILED_OPS) == (|results| * operations) as real
    ensures Total(results, BYTES_MOVED) == (|results| * bytes) as real
  {
    if results != [] {
      var last := |results| - 1;
      assert Counts(results[last], operations, bytes);
      CountsAddUp(results[..last], operations, bytes);
      OneMore(last, operations);
      OneMore(last, bytes);
    }
  }

  /** The operations of a round: one per file of every tree, and in writing rounds one per directory. */
  function Operations(c: Setup, round: Round): nat {
    var directories := c.workers * LeafCount(round.shape);
    directories * round.shape.files + (if round.op == Write then directories else 0)
  }

  /** The bytes they move: for reads and writes the requested size times the number of files. */
  function Bytes(c: Setup, round: Round): nat {
    c.workers * LeafCount(round.shape) * round.shape.files * BytesOf(round)
  }

  /** The directories the operations of a round make. */
  function LeavesMade(c: Setup, round: Round): set<Path> {
    if round.op == Write then AllLeaves(c.workers, round.shape) else {}
  }

  /** The totals of a round: every operation is counted, as successful if it would succeed on its own before the round and
      as failed otherwise, and so are the bytes of all of them. */
  predicate TotalsOf(c: Setup, initial: FS, r: nat, sum: BenchmarkResult)
    requires SizedPlan(c) && r < |c.plan|
  {
    var round := c.plan[r];
    && sum.testName == round.name
    && sum.successfulOperations
       == Successes(round, Settled(c, initial, r), AllFiles(c.workers, round.shape), LeavesMade(c, round)) as real
    && sum.successfulOperations + sum.failedOperations == Operations(c, round) as real
    && sum.bytes == Bytes(c, round) as real
  }

  lemma Distribute(w: nat, n: nat, files: nat, bytes: nat, made: nat)
    ensures w * (n * files + made) == w * n * files + w * made
    ensures w * (n * files * bytes) == w * n * files * bytes
  {
  }

  lemma AllOperations(c: Setup, round: Round)
    ensures c.workers * OperationsOf(round) == Operations(c, round) && c.workers * BytesMoved(round) == Bytes(c, round)
  {
    Distribute(c.workers, QueueLength(round), round.shape.files, BytesOf(round), ToMake(round));
  }

  lemma AllCounted(c: Setup, initial: FS, r: nat, reports: seq<BenchmarkResult>)
    requires SizedPlan(c) && r < |c.plan| && OnePerWorker(c, initial, r, reports)
    ensures Total(reports, SUCCESSFUL) + Total(reports, FAILED_OPS) == (c.workers * OperationsOf(c.plan[r])) as real
    ensures Total(reports, BYTES_MOVED) == (c.workers * BytesMoved(c.plan[r])) as real
  {
    forall k | 0 <= k < |reports| ensures Counts(reports[k], OperationsOf(c.plan[r]), BytesMoved(c.plan[r])) {
      assert Faithful(c, initial, r, k, reports[k]);
    }
    CountsAddUp(reports, OperationsOf(c.plan[r]), BytesMoved(c.plan[r]));
  }

  lemma EverythingMade(c: Setup, r: nat, handled: seq<nat>)
    requires r < |c.plan| && |handled| == c.workers >= 1 && forall w :: 0 <= w < |handled| ==> handled[w] == ToMake(c.plan[r])
    ensures LeavesSoFar(c, r, handled) == LeavesMade(c, c.plan[r])
  {
    if c.plan[r].op == Write {
      EverythingHandled(c, r, handled);
    } else {
      NothingHandled(c, r, handled);
    }
  }

  lemma SuccessesOfAll(c: Setup, initial: FS, r: nat, reports: seq<BenchmarkResult>)
    requires SizedPlan(c) && r < |c.plan| && c.plan[r].shape.depth > 0 && OnePerWorker(c, initial, r, reports)
    ensures var round := c.plan[r];
      Total(reports, SUCCESSFUL)
      == Successes(round, Settled(c, initial, r), AllFiles(c.workers, round.shape), LeavesMade(c, round)) as real
  {
    var round := c.plan[r];
    var dones := seq(c.workers, w => JobsOf(round));
    var handled := seq(c.workers, w => ToMake(round));
    SuccessesAddUp(c, initial, r, reports, dones, handled);
    AllDoneFiles(c, r, dones);
    EverythingMade(c, r, handled);
  }

  lemma TotalsOfReports(c: Setup, initial: FS, r: nat, results: seq<BenchmarkResult>, reports: seq<BenchmarkResult>)
    requires SizedPlan(c) && r < |c.plan| && c.plan[r].shape.depth > 0 && OnePerWorker(c, initial, r, reports)
    requires multiset(results) == multiset(reports)
    ensures results != [] && TotalsOf(c, initial, r, Summed(results))
  {
    OrderDoesNotMatter(reports, results, c.plan[r].name);
    SuccessesOfAll(c, initial, r, reports);
    AllCounted(c, initial, r, reports);
    AllOperations(c, c.plan[r]);
  }

  lemma TotalsFromWorkers(c: Setup, initial: FS, r: nat, results: seq<BenchmarkResult>)
    requires SizedPlan(c) && r < |c.plan| && c.plan[r].shape.depth > 0 && FromWorkers(c, initial, r, results)
    ensures results != [] && TotalsOf(c, initial, r, Summed(results))
  {
    var reports: seq<BenchmarkResult> :| multiset(results) == multiset(reports) && OnePerWorker(c, initial, r, reports);
    TotalsOfReports(c, initial, r, results, reports);
  }

  /** Conservation: what the server sums up for a completed round is exactly the work of the round, in every run, dropped
      connections included, on every disk. */
  lemma TotalsOfRound(c: Setup, initial: FS, acts: seq<Act>, r: nat)
    requires Workable(c) && NamesDistinct(c.plan) && Run(c, initial, acts).Some?
    requires r < |Run(c, initial, acts).value.protocol.recorded|
    ensures var results := Run(c, initial, acts).value.protocol.recorded[r];
      r < |c.plan| && results != [] && TotalsOf(c, initial, r, Summed(results))
  {
    RecordedResults(c, initial, acts, r);
    TotalsFromWorkers(c, initial, r, Run(c, initial, acts).value.protocol.recorded[r]);
  }

  // ----- Which operations fail

  lemma WorkOfWorker(c: Setup, r: nat, w: nat)
    requires SizedPlan(c) && r < |c.plan| && c.plan[r].shape.depth > 0
    ensures |DoneBy(c, r, w, JobsOf(c.plan[r]))| + |LeavesBy(c, r, w, ToMake(c.plan[r]))| == OperationsOf(c.plan[r])
  {
    var nothing := FS(map[], {});
    AllJobsDistinct(c.plan[r], JobsOf(c.plan[r]));
    GoodJobsAreFiles(c, nothing, r, w, JobsOf(c.plan[r]));
    GoodLeavesAreMade(c, nothing, r, w, ToMake(c.plan[r]));
    JobCount(QueueLength(c.plan[r]), c.plan[r].shape.files);
  }

  lemma {:induction false} WorkAddsUp(c: Setup, r: nat, dones: seq<seq<Job>>, handled: seq<nat>)
    requires SizedPlan(c) && r < |c.plan| && c.plan[r].shape.depth > 0
    requires |dones| == |handled| <= c.workers && AllJobs(c.plan[r], dones)
    requires forall w :: 0 <= w < |handled| ==> handled[w] == ToMake(c.plan[r])
    ensures |DoneFiles(c, r, dones)| + |LeavesSoFar(c, r, handled)| == |dones| * OperationsOf(c.plan[r])
  {
    if dones != [] {
      var last := |dones| - 1;
      WorkAddsUp(c, r, dones[..last], handled[..last]);
      DisjointFiles(c, r, dones[..last]);
      DisjointLeaves(c, r, handled[..last], ToMake(c.plan[r]));
      WorkOfWorker(c, r, last);
      OneMore(last, OperationsOf(c.plan[r]));
    }
  }

  /** The files and directories a round works on are as many as its operations. */
  lemma OneOperationEach(c: Setup, r: nat)
    requires SizedPlan(c) && r < |c.plan| && c.plan[r].shape.depth > 0
    ensures |AllFiles(c.workers, c.plan[r].shape)| + |LeavesMade(c, c.plan[r])| == Operations(c, c.plan[r])
  {
    var dones := seq(c.workers, w => JobsOf(c.plan[r]));
    var handled := seq(c.workers, w => ToMake(c.plan[r]));
    WorkAddsUp(c, r, dones, handled);
    AllDoneFiles(c, r, dones);
    EverythingMade(c, r, handled);
    AllOperations(c, c.plan[r]);
  }

  /** Every operation of the round would succeed on its own before it. */
  predicate AllWouldSucceed(c: Setup, initial: FS, r: nat)
    requires SizedPlan(c) && r < |c.plan|
  {
    && (forall p <- AllFiles(c.workers, c.plan[r].shape) :: Succeeds(c.plan[r], Settled(c, initial, r), p))
    && (forall q <- LeavesMade(c, c.plan[r]) :: CanMake(Settled(c, initial, r), q))
  }

  lemma SubsetCount(a: set<Path>, b: set<Path>)
    requires a <= b
    ensures |a| <= |b| && (|a| == |b| <==> a == b)
  {
    assert b == a + (b - a);
    assert a != b ==> b - a != {};
  }

  lemma AllSucceedIff(round: Round, base: FS, files: set<Path>, leaves: set<Path>)
    requires SizesValid(round.shape)
    ensures Successes(round, base, files, leaves) == |files| + |leaves|
       <==> (forall p <- files :: Succeeds(round, base, p)) && (forall q <- leaves :: CanMake(base, q))
  {
    SubsetCount(Good(round, base, files), files);
    SubsetCount(Makeable(base, leaves), leaves);
    assert Good(round, base, files) == files <==> forall p <- files :: Succeeds(round, base, p);
    assert Makeable(base, leaves) == leaves <==> forall q <- leaves :: CanMake(base, q);
  }

  lemma FailuresOfTotals(c: Setup, initial: FS, r: nat, sum: BenchmarkResult)
    requires SizedPlan(c) && r < |c.plan| && c.plan[r].shape.depth > 0 && TotalsOf(c, initial, r, sum)
    ensures sum.failedOperations == 0.0 <==> AllWouldSucceed(c, initial, r)
  {
    var round := c.plan[r];
    OneOperationEach(c, r);
    AllSucceedIff(round, Settled(c, initial, r), AllFiles(c.workers, round.shape), LeavesMade(c, round));
  }

  /** No failure is recorded for a round if and only if each of its operations would succeed on its own before it. */
  lemma NoFailuresIff(c: Setup, initial: FS, acts: seq<Act>, r: nat)
    requires Workable(c) && NamesDistinct(c.plan) && Run(c, initial, acts).Some?
    requires r < |Run(c, initial, acts).value.protocol.recorded|
    ensures var results := Run(c, initial, acts).value.protocol.recorded[r];
      r < |c.plan| && results != [] && (Summed(results).failedOperations == 0.0 <==> AllWouldSucceed(c, initial, r))
  {
    TotalsOfRound(c, initial, acts, r);
    FailuresOfTotals(c, initial, r, Summed(Run(c, initial, acts).value.protocol.recorded[r]));
  }

  // ----- Confluence

  predicate FinishedRun(c: Setup, s: System) {
    s.protocol.server == P.Between && |s.protocol.rounds| == |c.plan| && |s.protocol.recorded| == |c.plan|
  }

  /** Two sums with the same numbers of operations and bytes under the same name; times differ from run to run. */
  predicate SameCounts(a: BenchmarkResult, b: BenchmarkResult) {
    a.(bandwidthAvg := 0.0, latencyAvg := 0.0, genBytesLatencyAvg := 0.0) == b.(bandwidthAvg := 0.0, latencyAvg := 0.0, genBytesLatencyAvg := 0.0)
  }

  lemma TotalsAreDetermined(c: Setup, initial: FS, r: nat, a: BenchmarkResult, b: BenchmarkResult)
    requires SizedPlan(c) && r < |c.plan| && TotalsOf(c, initial, r, a) && TotalsOf(c, initial, r, b)
    ensures SameCounts(a, b)
  {
  }

  /** Two complete runs of a benchmark leave the same file system, directories included, and record the same totals for
      every round, whatever the order of the steps in either, and whichever operations fail. */
  lemma RunsAgree(c: Setup, initial: FS, acts: seq<Act>, acts': seq<Act>, r: nat)
    requires Workable(c) && NamesDistinct(c.plan) && Run(c, initial, acts).Some? && Run(c, initial, acts').Some? && r < |c.plan|
    requires FinishedRun(c, Run(c, initial, acts).value) && FinishedRun(c, Run(c, initial, acts').value)
    ensures Run(c, initial, acts).value.fs == Run(c, initial, acts').value.fs
    ensures var a, b := Run(c, initial, acts).value.protocol.recorded[r], Run(c, initial, acts').value.protocol.recorded[r];
      a != [] && b != [] && SameCounts(Summed(a), Summed(b))
  {
    FileSystemsAgree(c, initial, acts, acts');
    TotalsOfRound(c, initial, acts, r);
    TotalsOfRound(c, initial, acts', r);
    TotalsAreDetermined(c, initial, r, Summed(Run(c, initial, acts).value.protocol.recorded[r]),
                        Summed(Run(c, initial, acts').value.protocol.recorded[r]));
  }
}
