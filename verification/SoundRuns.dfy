/** Runs of benchmarks in cycles on a disk where no path clashes: no operation ever fails. */
module SoundRuns {
  import opened BenchmarkPlan
  import opened BenchmarkResults
  import opened WorkTree
  import opened FileSystem
  import opened ClientPool
  import opened RoundFiles
  import opened SoundRounds
  import opened BenchmarkRun
  import opened RunInvariant
  import opened RunSteps
  import opened RunCounts
  import P = RoundProtocol
  import T = RunTheorems

  // ----- No operation fails

  predicate NoFailures(c: Setup, s: System)
    requires Fits(c, s)
  {
    forall w :: 0 <= w < c.workers ==> s.sites[w].counters.failed == []
  }

  lemma MakingSucceeds(c: Setup, initial: FS, s: System, w: nat)
    requires Sound(c, initial) && AtWork(c, s, w) && InPlace(c, initial, s) && Can(c, s, MakeDirectory(w))
    ensures LocalNext(c, s, MakeDirectory(w)).1.counters.failed == s.sites[w].counters.failed
  {
    var r, k := |s.protocol.rounds| - 1, s.sites[w].made;
    MakerMakes(c, s, w);
    MakingHere(c, initial, s, w, k);
    StandsBefore(c, initial, r);
    LeafIsListed(c, r, w, k);
    CanMakeLeaf(c, initial, r, Settled(c, initial, r), LeafAt(c, r, w, k));
  }

  lemma PathIsListed(c: Setup, r: nat, w: nat, job: Job)
    requires r < |c.plan| && w < c.workers && InShape(c.plan[r].shape, job.directory, job.index)
    ensures JobPath(c, r, w, job) in AllFiles(c.workers, c.plan[r].shape)
  {
    TreeInRange(c, c.plan[r].op, w);
  }

  lemma DoingSucceeds(c: Setup, initial: FS, s: System, w: nat, i: nat)
    requires Sound(c, initial) && AtWork(c, s, w) && InPlace(c, initial, s) && SitesInv(c, s.protocol.links, s.sites)
    requires Can(c, s, PoolMoves(w, Do(i)))
    ensures LocalNext(c, s, PoolMoves(w, Do(i))).1.counters.failed == s.sites[w].counters.failed
  {
    var r, job := |s.protocol.rounds| - 1, s.sites[w].activity.pool.clients[i].job;
    JobExecutes(c, s, w, i);
    NextJobIsNew(c, s, w, i);
    JobHere(c, initial, s, w, job);
    StandsBefore(c, initial, r);
    PathIsListed(c, r, w, job);
    JobSucceeds(c, initial, r, Settled(c, initial, r), JobPath(c, r, w, job));
  }

  lemma LocalActSucceeds(c: Setup, initial: FS, s: System, act: Act)
    requires Sound(c, initial) && RunInv(c, initial, s) && Can(c, s, act) && !act.Protocol?
    ensures LocalNext(c, s, act).1.counters.failed == s.sites[act.w].counters.failed
  {
    BusyIsAtWork(c, s, act.w);
    BusyIsInPlace(c, initial, s);
    if act.MakeDirectory? {
      MakingSucceeds(c, initial, s, act.w);
    } else if act.PoolMoves? && act.move.Do? {
      DoingSucceeds(c, initial, s, act.w, act.move.i);
    }
  }

  lemma ProtocolCountsNothing(c: Setup, s: System, step: P.Step)
    requires Fits(c, s) && NoFailures(c, s) && Can(c, s, Protocol(step))
    ensures NoFailures(c, Next(c, s, Protocol(step)))
  {
  }

  lemma OnlyOneSite(c: Setup, s: System, w: nat, fs: FS, site: Site)
    requires Fits(c, s) && NoFailures(c, s) && w < c.workers && site.counters.failed == []
    ensures NoFailures(c, s.(fs := fs, sites := s.sites[w := site]))
  {
  }

  lemma ActSucceeds(c: Setup, initial: FS, s: System, act: Act)
    requires Sound(c, initial) && RunInv(c, initial, s) && NoFailures(c, s) && Can(c, s, act)
    ensures NoFailures(c, Next(c, s, act))
  {
    if act.Protocol? {
      ProtocolCountsNothing(c, s, act.step);
    } else {
      var (fs, site) := LocalNext(c, s, act);
      LocalActSucceeds(c, initial, s, act);
      OnlyOneSite(c, s, act.w, fs, site);
    }
  }

  lemma {:induction false} RunSucceeds(c: Setup, initial: FS, acts: seq<Act>)
    requires Sound(c, initial) && Run(c, initial, acts).Some?
    ensures NoFailures(c, Run(c, initial, acts).value)
  {
    if acts != [] {
      var init := acts[..|acts| - 1];
      RunSucceeds(c, initial, init);
      EveryRunKeepsInv(c, initial, init);
      ActSucceeds(c, initial, Run(c, initial, init).value, acts[|acts| - 1]);
    }
  }

  /** In no run does any operation of any worker fail: no directory, no exclusive create, no read of full blocks,
      no stat and no delete, in whatever round, with or without reordered trees, connections dropping or not. */
  lemma NothingFails(c: Setup, initial: FS, acts: seq<Act>, w: nat)
    requires Sound(c, initial) && Run(c, initial, acts).Some? && w < c.workers
    ensures Run(c, initial, acts).value.sites[w].counters.failed == []
  {
    RunSucceeds(c, initial, acts);
  }

  // ----- The files

  /** Whenever the server is between two rounds, the files are those of the plan. */
  lemma FilesBetweenRounds(c: Setup, initial: FS, acts: seq<Act>)
    requires Sound(c, initial) && Run(c, initial, acts).Some? && Run(c, initial, acts).value.protocol.server == P.Between
    ensures var s := Run(c, initial, acts).value;
      |s.protocol.rounds| <= |c.plan| && s.fs.files == FilesBefore(c, initial, |s.protocol.rounds|)
  {
    T.SettledRuns(c, initial, acts);
    StandsBefore(c, initial, |Run(c, initial, acts).value.protocol.rounds|);
  }

  /** Path `p` is that of a file in one of the trees of round `r`. */
  ghost predicate FileOfRound(c: Setup, p: Path, r: nat) {
    exists tree, k, i :: FileOf(c, p, r, tree, k, i)
  }

  lemma AllFilesIff(c: Setup, p: Path, r: nat)
    requires r < |c.plan|
    ensures p in AllFiles(c.workers, c.plan[r].shape) <==> FileOfRound(c, p, r)
  {
    if p in AllFiles(c.workers, c.plan[r].shape) {
      var tree, k, i := InAllFiles(c.workers, c.plan[r].shape, p);
      assert FileOf(c, p, r, tree, k, i);
    }
  }

  lemma FilesBeforeAre(c: Setup, initial: FS, n: nat, p: Path)
    requires 0 < n <= |c.plan| && SizedPlan(c) && c.plan[n - 1].op != Delete
    ensures var files := FilesBefore(c, initial, n);
      && (p in files <==> p in initial.files || FileOfRound(c, p, n - 1))
      && (FileOfRound(c, p, n - 1) ==> files[p] == LengthOf(c.plan[n - 1].shape))
  {
    AllFilesIff(c, p, n - 1);
  }

  /** That is: after a round that deletes, exactly the files there were at first; after any other, these and every file
      of every tree of the round, each at its full length, and no others. */
  lemma SettledFiles(c: Setup, initial: FS, n: nat, p: Path)
    requires Sound(c, initial) && 0 < n <= |c.plan|
    ensures var files := Settled(c, initial, n).files;
      && (c.plan[n - 1].op == Delete ==> files == initial.files)
      && (c.plan[n - 1].op != Delete ==>
            && (p in files <==> p in initial.files || FileOfRound(c, p, n - 1))
            && (FileOfRound(c, p, n - 1) ==> files[p] == LengthOf(c.plan[n - 1].shape)))
  {
    StandsBefore(c, initial, n);
    if c.plan[n - 1].op != Delete {
      FilesBeforeAre(c, initial, n, p);
    }
  }

  /** The length of a written file is the requested one, rounded up to whole blocks if it exceeds a block. */
  lemma WrittenLength(shape: Shape)
    requires SizesValid(shape)
    ensures shape.size <= LengthOf(shape)
    ensures shape.size <= shape.blockSize ==> LengthOf(shape) == shape.size
    ensures shape.size > shape.blockSize ==> LengthOf(shape) < shape.size + shape.blockSize
  {
    FileLengthIsLeast(shape.size, shape.blockSize);
  }

  // ----- The results

  lemma AllSucceed(c: Setup, initial: FS, r: nat)
    requires Sound(c, initial) && r < |c.plan|
    ensures T.AllWouldSucceed(c, initial, r)
  {
    StandsBefore(c, initial, r);
    RoundIsGood(c, initial, r, Settled(c, initial, r));
  }

  /** The totals of a round without failures. */
  predicate FullTotals(c: Setup, round: Round, sum: BenchmarkResult) {
    && sum.testName == round.name
    && sum.successfulOperations == T.Operations(c, round) as real && sum.failedOperations == 0.0
    && sum.bytes == T.Bytes(c, round) as real
  }

  /** What the server sums up for a completed round is exactly the work of the round, all of it successful. */
  lemma FullTotalsOfRound(c: Setup, initial: FS, acts: seq<Act>, r: nat)
    requires Sound(c, initial) && Run(c, initial, acts).Some? && r < |Run(c, initial, acts).value.protocol.recorded|
    ensures var results := Run(c, initial, acts).value.protocol.recorded[r];
      r < |c.plan| && results != [] && FullTotals(c, c.plan[r], Summed(results))
  {
    T.TotalsOfRound(c, initial, acts, r);
    T.NoFailuresIff(c, initial, acts, r);
    AllSucceed(c, initial, r);
  }

  /** What a worker reports that has nothing failed. */
  predicate FullReport(round: Round, result: BenchmarkResult) {
    && result.testName == round.name
    && result.successfulOperations == OperationsOf(round) as real && result.failedOperations == 0.0
    && result.bytes == BytesMoved(round) as real
  }

  lemma WorkOfRound(c: Setup, r: nat, w: nat)
    requires w < c.workers && r < |c.plan|
    ensures DoneBy(c, r, w, JobsOf(c.plan[r])) <= AllFiles(c.workers, c.plan[r].shape)
    ensures LeavesBy(c, r, w, ToMake(c.plan[r])) <= T.LeavesMade(c, c.plan[r])
  {
    forall p | p in DoneBy(c, r, w, JobsOf(c.plan[r])) ensures p in AllFiles(c.workers, c.plan[r].shape) {
      DoneIsAFile(c, r, w, JobsOf(c.plan[r]), p);
    }
    forall q | q in LeavesBy(c, r, w, ToMake(c.plan[r])) ensures q in T.LeavesMade(c, c.plan[r]) {
      var k: nat :| k < ToMake(c.plan[r]) && q == LeafAt(c, r, w, k);
      LeafIsListed(c, r, w, k);
    }
  }

  lemma ReportIsFull(c: Setup, initial: FS, r: nat, w: nat, result: BenchmarkResult)
    requires SizedPlan(c) && r < |c.plan| && c.plan[r].shape.depth > 0 && w < c.workers
    requires T.AllWouldSucceed(c, initial, r) && Faithful(c, initial, r, w, result)
    ensures FullReport(c.plan[r], result)
  {
    var round := c.plan[r];
    WorkOfRound(c, r, w);
    T.WorkOfWorker(c, r, w);
    T.AllSucceedIff(round, Settled(c, initial, r), DoneBy(c, r, w, JobsOf(round)), LeavesBy(c, r, w, ToMake(round)));
  }

  lemma RecordedInFull(c: Setup, initial: FS, r: nat, results: seq<BenchmarkResult>, k: nat)
    requires SizedPlan(c) && r < |c.plan| && c.plan[r].shape.depth > 0 && k < |results|
    requires T.AllWouldSucceed(c, initial, r) && T.FromWorkers(c, initial, r, results)
    ensures FullReport(c.plan[r], results[k])
  {
    var reports: seq<BenchmarkResult> :| multiset(results) == multiset(reports) && T.OnePerWorker(c, initial, r, reports);
    assert results[k] in multiset(reports);
    var w :| 0 <= w < |reports| && reports[w] == results[k];
    ReportIsFull(c, initial, r, w, reports[w]);
  }

  /** Every result recorded for a completed round reports exactly the work of that round at one worker. */
  lemma FullResults(c: Setup, initial: FS, acts: seq<Act>, r: nat, k: nat)
    requires Sound(c, initial) && Run(c, initial, acts).Some?
    requires r < |Run(c, initial, acts).value.protocol.recorded| && k < |Run(c, initial, acts).value.protocol.recorded[r]|
    ensures r < |c.plan| && FullReport(c.plan[r], Run(c, initial, acts).value.protocol.recorded[r][k])
  {
    T.RecordedResults(c, initial, acts, r);
    AllSucceed(c, initial, r);
    RecordedInFull(c, initial, r, Run(c, initial, acts).value.protocol.recorded[r], k);
  }
}
