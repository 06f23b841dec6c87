/** What the counters of every worker say in the midst of a run, whichever operations fail. */
module RunCounts {
  import opened Arithmetic
  import opened BenchmarkPlan
  import opened BenchmarkResults
  import opened Counters
  import opened Reporting
  import opened WorkTree
  import opened FileSystem
  import opened ClientPool
  import opened RoundFiles
  import opened BenchmarkRun
  import opened RunInvariant
  import opened RunSteps
  import P = RoundProtocol
  import I = ProtocolInvariant
  import WorkItems

  /** The bytes counted for an operation: the requested size, for reads and writes only. */
  function BytesOf(round: Round): nat {
    if round.op == Write || round.op == Read then round.shape.size else 0
  }

  /** How many of the files can be worked on, and how many of the directories made, in a round that starts on `base`. */
  function Successes(round: Round, base: FS, files: set<Path>, leaves: set<Path>): nat
    requires SizesValid(round.shape)
  {
    |Good(round, base, files)| + |Makeable(base, leaves)|
  }

  predicate NothingCounted(counters: Registry, testName: string) {
    && Sum(counters.finished, testName) == 0 && Sum(counters.failed, testName) == 0
    && Sum(counters.uploaded, testName) == 0 && Sum(counters.downloaded, testName) == 0
  }

  /** A worker has counted all it has done in a round, and the bytes of all that. */
  predicate AllCounted(round: Round, site: Site) {
    var counters := site.counters;
    && Sum(counters.finished, round.name) + Sum(counters.failed, round.name) == site.made + |site.done|
    && Sum(counters.uploaded, round.name) + Sum(counters.downloaded, round.name) == |site.done| * BytesOf(round)
  }

  /** How many of the jobs would succeed on their own on `base`, and how many of the first leaf directories can be made. */
  function GoodJobs(c: Setup, base: FS, r: nat, w: nat, done: seq<Job>): nat
    requires SizedPlan(c) && r < |c.plan|
  {
    if done == [] then 0
    else GoodJobs(c, base, r, w, done[..|done| - 1]) + (if Succeeds(c.plan[r], base, JobPath(c, r, w, done[|done| - 1])) then 1 else 0)
  }

  function GoodLeaves(c: Setup, base: FS, r: nat, w: nat, made: nat): nat
    requires SizedPlan(c) && r < |c.plan|
  {
    if made == 0 then 0 else GoodLeaves(c, base, r, w, made - 1) + (if CanMake(base, LeafAt(c, r, w, made - 1)) then 1 else 0)
  }

  /** As successful it has counted what would have succeeded on its own before the round. */
  predicate Counted(c: Setup, initial: FS, r: nat, w: nat, site: Site)
    requires SizedPlan(c) && r < |c.plan|
  {
    && AllCounted(c.plan[r], site)
    && Sum(site.counters.finished, c.plan[r].name)
       == GoodJobs(c, Settled(c, initial, r), r, w, site.done) + GoodLeaves(c, Settled(c, initial, r), r, w, site.made)
  }

  /** What a worker must report for a round: one operation per file, and one per directory when writing; as successful
      those that would succeed on their own before the round. */
  predicate Faithful(c: Setup, initial: FS, r: nat, w: nat, result: BenchmarkResult)
    requires SizedPlan(c) && r < |c.plan|
  {
    var round := c.plan[r];
    && result.testName == round.name
    && result.successfulOperations
       == Successes(round, Settled(c, initial, r), DoneBy(c, r, w, JobsOf(round)), LeavesBy(c, r, w, ToMake(round))) as real
    && Counts(result, OperationsOf(round), BytesMoved(round))
  }

  /** The operations of a round at one worker: one per file, and one per directory when writing. */
  function OperationsOf(round: Round): nat {
    QueueLength(round) * round.shape.files + ToMake(round)
  }

  /** The bytes it counts: those of all its files. */
  function BytesMoved(round: Round): nat {
    QueueLength(round) * round.shape.files * BytesOf(round)
  }

  predicate Counts(result: BenchmarkResult, operations: nat, bytes: nat) {
    result.successfulOperations + result.failedOperations == operations as real && result.bytes == bytes as real
  }

  predicate NothingLater(c: Setup, n: nat, counters: Registry) {
    forall r {:trigger c.plan[r]} :: n <= r < |c.plan| ==> NothingCounted(counters, c.plan[r].name)
  }

  predicate AllFaithful(c: Setup, initial: FS, w: nat, reports: seq<BenchmarkResult>)
    requires SizedPlan(c)
  {
    |reports| <= |c.plan| && forall r {:trigger reports[r]} :: 0 <= r < |reports| ==> Faithful(c, initial, r, w, reports[r])
  }

  /** The counters of a worker in round number `n`, counting from one. */
  predicate CountedUpTo(c: Setup, initial: FS, w: nat, n: nat, site: Site)
    requires SizedPlan(c)
  {
    n <= |c.plan| && (n > 0 ==> Counted(c, initial, n - 1, w, site)) && NothingLater(c, n, site.counters)
  }

  predicate CountInv(c: Setup, initial: FS, w: nat, l: P.Link, site: Site)
    requires SizedPlan(c)
  {
    CountedUpTo(c, initial, w, l.inits, site) && AllFaithful(c, initial, w, l.reports)
  }

  predicate CountsInv(c: Setup, initial: FS, s: System)
    requires Fits(c, s)
  {
    forall w {:trigger s.sites[w]} :: 0 <= w < c.workers ==> CountInv(c, initial, w, s.protocol.links[w], s.sites[w])
  }

  lemma CountHolds(c: Setup, initial: FS, s: System, w: nat)
    requires Fits(c, s) && CountsInv(c, initial, s) && w < c.workers
    ensures CountInv(c, initial, w, s.protocol.links[w], s.sites[w])
  {
    assert s.sites[w] == s.sites[w];
  }

  // ----- Counting one operation

  /** A success or a failure counts for the round it happens in. */
  lemma CountingOutcome(c: Setup, r: nat, counters: Registry, counters': Registry, operation: string, ok: bool)
    requires NamesDistinct(c.plan) && r < |c.plan|
    requires counters'.finished == if ok then Bump(counters.finished, c.plan[r].name, operation, 1) else counters.finished
    requires counters'.failed == if ok then counters.failed else Bump(counters.failed, c.plan[r].name, operation, 1)
    ensures Sum(counters'.finished, c.plan[r].name) == Sum(counters.finished, c.plan[r].name) + (if ok then 1 else 0)
    ensures Sum(counters'.failed, c.plan[r].name) == Sum(counters.failed, c.plan[r].name) + (if ok then 0 else 1)
    ensures forall q :: r < q < |c.plan| ==>
      && Sum(counters'.finished, c.plan[q].name) == Sum(counters.finished, c.plan[q].name)
      && Sum(counters'.failed, c.plan[q].name) == Sum(counters.failed, c.plan[q].name)
  {
    var name := c.plan[r].name;
    SumAfterBump(if ok then counters.finished else counters.failed, name, operation, 1, name);
    forall q | r < q < |c.plan|
      ensures Sum(counters'.finished, c.plan[q].name) == Sum(counters.finished, c.plan[q].name)
      ensures Sum(counters'.failed, c.plan[q].name) == Sum(counters.failed, c.plan[q].name)
    {
      SumAfterBump(if ok then counters.finished else counters.failed, name, operation, 1, c.plan[q].name);
    }
  }

  lemma CountingBytes(c: Setup, r: nat, metrics: seq<Metric>, operation: string, size: nat)
    requires NamesDistinct(c.plan) && r < |c.plan|
    ensures var metrics' := Bump(metrics, c.plan[r].name, operation, size);
      && Sum(metrics', c.plan[r].name) == Sum(metrics, c.plan[r].name) + size
      && forall q :: r < q < |c.plan| ==> Sum(metrics', c.plan[q].name) == Sum(metrics, c.plan[q].name)
  {
    SumAfterBump(metrics, c.plan[r].name, operation, size, c.plan[r].name);
    forall q | r < q < |c.plan| ensures Sum(Bump(metrics, c.plan[r].name, operation, size), c.plan[q].name) == Sum(metrics, c.plan[q].name) {
      SumAfterBump(metrics, c.plan[r].name, operation, size, c.plan[q].name);
    }
  }

  /** The sums of a worker's counters after an operation of round number `n`, counting from one. */
  lemma SumsAfterJob(c: Setup, n: nat, counters: Registry, ok: bool)
    requires NamesDistinct(c.plan) && 0 < n <= |c.plan|
    ensures var round := c.plan[n - 1];
      var counters' := WorkItems.Count(counters, round.op, ok, round.name, round.shape.size);
      && Sum(counters'.finished, round.name) == Sum(counters.finished, round.name) + (if ok then 1 else 0)
      && Sum(counters'.failed, round.name) == Sum(counters.failed, round.name) + (if ok then 0 else 1)
      && Sum(counters'.uploaded, round.name) + Sum(counters'.downloaded, round.name)
         == Sum(counters.uploaded, round.name) + Sum(counters.downloaded, round.name) + BytesOf(round)
      && (NothingLater(c, n, counters) ==> NothingLater(c, n, counters'))
  {
    var round := c.plan[n - 1];
    var operation := WorkItems.Method(round.op);
    CountingOutcome(c, n - 1, counters, WorkItems.Count(counters, round.op, ok, round.name, round.shape.size), operation, ok);
    CountingBytes(c, n - 1, counters.uploaded, operation, round.shape.size);
    CountingBytes(c, n - 1, counters.downloaded, operation, round.shape.size);
  }

  lemma SumsAfterMaking(c: Setup, n: nat, counters: Registry, ok: bool)
    requires NamesDistinct(c.plan) && 0 < n <= |c.plan|
    ensures var name, counters' := c.plan[n - 1].name, WorkItems.CountMkdir(counters, ok, c.plan[n - 1].name);
      && Sum(counters'.finished, name) == Sum(counters.finished, name) + (if ok then 1 else 0)
      && Sum(counters'.failed, name) == Sum(counters.failed, name) + (if ok then 0 else 1)
      && counters'.uploaded == counters.uploaded && counters'.downloaded == counters.downloaded
      && (NothingLater(c, n, counters) ==> NothingLater(c, n, counters'))
  {
    CountingOutcome(c, n - 1, counters, WorkItems.CountMkdir(counters, ok, c.plan[n - 1].name), "MKDIR", ok);
  }

  lemma CountedAfterJob(c: Setup, initial: FS, n: nat, w: nat, site: Site, site': Site, job: Job, ok: bool)
    requires SizedPlan(c) && NamesDistinct(c.plan) && 0 < n <= |c.plan| && Counted(c, initial, n - 1, w, site)
    requires site'.made == site.made && site'.done == site.done + [job]
    requires site'.counters == WorkItems.Count(site.counters, c.plan[n - 1].op, ok, c.plan[n - 1].name, c.plan[n - 1].shape.size)
    requires ok == Succeeds(c.plan[n - 1], Settled(c, initial, n - 1), JobPath(c, n - 1, w, job))
    ensures Counted(c, initial, n - 1, w, site')
  {
    AllCountedAfterJob(c, n, site, site', job, ok);
    OneMoreGoodJob(c, Settled(c, initial, n - 1), n - 1, w, site.done, site'.done, job);
  }

  lemma OneMoreGoodJob(c: Setup, base: FS, r: nat, w: nat, done: seq<Job>, done': seq<Job>, job: Job)
    requires SizedPlan(c) && r < |c.plan| && done' == done + [job]
    ensures GoodJobs(c, base, r, w, done')
         == GoodJobs(c, base, r, w, done) + (if Succeeds(c.plan[r], base, JobPath(c, r, w, job)) then 1 else 0)
  {
    assert done'[..|done'| - 1] == done;
  }

  lemma AllCountedAfterJob(c: Setup, n: nat, site: Site, site': Site, job: Job, ok: bool)
    requires NamesDistinct(c.plan) && 0 < n <= |c.plan| && AllCounted(c.plan[n - 1], site)
    requires site'.made == site.made && site'.done == site.done + [job]
    requires site'.counters == WorkItems.Count(site.counters, c.plan[n - 1].op, ok, c.plan[n - 1].name, c.plan[n - 1].shape.size)
    ensures AllCounted(c.plan[n - 1], site')
    ensures Sum(site'.counters.finished, c.plan[n - 1].name) == Sum(site.counters.finished, c.plan[n - 1].name) + (if ok then 1 else 0)
  {
    SumsAfterJob(c, n, site.counters, ok);
    OneMore(|site.done|, BytesOf(c.plan[n - 1]));
  }

  lemma CountedAfterMaking(c: Setup, initial: FS, n: nat, w: nat, site: Site, site': Site, ok: bool)
    requires SizedPlan(c) && NamesDistinct(c.plan) && 0 < n <= |c.plan| && Counted(c, initial, n - 1, w, site)
    requires site'.made == site.made + 1 && site'.done == site.done
    requires site'.counters == WorkItems.CountMkdir(site.counters, ok, c.plan[n - 1].name)
    requires ok == CanMake(Settled(c, initial, n - 1), LeafAt(c, n - 1, w, site.made))
    ensures Counted(c, initial, n - 1, w, site')
  {
    AllCountedAfterMaking(c, n, site, site', ok);
    OneMoreGoodLeaf(c, Settled(c, initial, n - 1), n - 1, w, site.made, site'.made);
  }

  lemma OneMoreGoodLeaf(c: Setup, base: FS, r: nat, w: nat, made: nat, made': nat)
    requires SizedPlan(c) && r < |c.plan| && made' == made + 1
    ensures GoodLeaves(c, base, r, w, made') == GoodLeaves(c, base, r, w, made) + (if CanMake(base, LeafAt(c, r, w, made)) then 1 else 0)
  {
    assert made' - 1 == made;
  }

  lemma AllCountedAfterMaking(c: Setup, n: nat, site: Site, site': Site, ok: bool)
    requires NamesDistinct(c.plan) && 0 < n <= |c.plan| && AllCounted(c.plan[n - 1], site)
    requires site'.made == site.made + 1 && site'.done == site.done
    requires site'.counters == WorkItems.CountMkdir(site.counters, ok, c.plan[n - 1].name)
    ensures AllCounted(c.plan[n - 1], site')
    ensures Sum(site'.counters.finished, c.plan[n - 1].name) == Sum(site.counters.finished, c.plan[n - 1].name) + (if ok then 1 else 0)
  {
    SumsAfterMaking(c, n, site.counters, ok);
  }

  // ----- Steps of the workers on their own

  /** The worker after a job: it has counted a success or a failure. */
  predicate HasCountedJob(c: Setup, r: nat, w: nat, site: Site, site': Site, job: Job, ok: bool)
    requires c.workers >= 1 && r < |c.plan|
  {
    && site'.made == site.made && site'.done == site.done + [job]
    && site'.counters == WorkItems.Count(site.counters, c.plan[r].op, ok, c.plan[r].name, c.plan[r].shape.size)
  }

  lemma JobCounts(c: Setup, s: System, w: nat, i: nat)
    requires AtWork(c, s, w) && Can(c, s, PoolMoves(w, Do(i)))
    ensures var job := s.sites[w].activity.pool.clients[i].job;
      HasCountedJob(c, |s.protocol.rounds| - 1, w, s.sites[w], LocalNext(c, s, PoolMoves(w, Do(i))).1, job, JobNow(c, s, w, job).1)
  {
    JobExecutes(c, s, w, i);
  }

  lemma CountsAfterJob(c: Setup, initial: FS, w: nat, n: nat, site: Site, site': Site, job: Job, ok: bool)
    requires SizedPlan(c) && NamesDistinct(c.plan) && 0 < n && CountedUpTo(c, initial, w, n, site)
    requires HasCountedJob(c, n - 1, w, site, site', job, ok)
    requires ok == Succeeds(c.plan[n - 1], Settled(c, initial, n - 1), JobPath(c, n - 1, w, job))
    ensures CountedUpTo(c, initial, w, n, site')
  {
    CountedAfterJob(c, initial, n, w, site, site', job, ok);
    SumsAfterJob(c, n, site.counters, ok);
  }

  /** The worker after making a directory, likewise. */
  predicate HasCountedMaking(c: Setup, r: nat, w: nat, site: Site, site': Site, ok: bool)
    requires c.workers >= 1 && r < |c.plan|
  {
    && site'.made == site.made + 1 && site'.done == site.done
    && site'.counters == WorkItems.CountMkdir(site.counters, ok, c.plan[r].name)
  }

  lemma MakingCounts(c: Setup, s: System, w: nat)
    requires AtWork(c, s, w) && Can(c, s, MakeDirectory(w))
    ensures var r := |s.protocol.rounds| - 1;
      HasCountedMaking(c, r, w, s.sites[w], LocalNext(c, s, MakeDirectory(w)).1, MakeAll(s.fs, LeafAt(c, r, w, s.sites[w].made)).1)
  {
    MakerMakes(c, s, w);
  }

  lemma MakingOutcome(c: Setup, initial: FS, s: System, w: nat)
    requires Workable(c) && AtWork(c, s, w) && InPlace(c, initial, s) && Can(c, s, MakeDirectory(w))
    ensures var r, leaf := |s.protocol.rounds| - 1, LeafAt(c, |s.protocol.rounds| - 1, w, s.sites[w].made);
      MakeAll(s.fs, leaf).1 == CanMake(Settled(c, initial, r), leaf)
  {
    MakerMakes(c, s, w);
    MakingHere(c, initial, s, w, s.sites[w].made);
  }

  lemma CountsAfterMaking(c: Setup, initial: FS, w: nat, n: nat, site: Site, site': Site, ok: bool)
    requires SizedPlan(c) && NamesDistinct(c.plan) && 0 < n && CountedUpTo(c, initial, w, n, site)
    requires HasCountedMaking(c, n - 1, w, site, site', ok)
    requires ok == CanMake(Settled(c, initial, n - 1), LeafAt(c, n - 1, w, site.made))
    ensures CountedUpTo(c, initial, w, n, site')
  {
    CountedAfterMaking(c, initial, n, w, site, site', ok);
    SumsAfterMaking(c, n, site.counters, ok);
  }

  /** Any other step of a worker counts nothing. */
  lemma NothingCounts(c: Setup, initial: FS, w: nat, l: P.Link, l': P.Link, site: Site, site': Site)
    requires SizedPlan(c) && CountInv(c, initial, w, l, site) && l'.inits == l.inits && l'.reports == l.reports
    requires site'.counters == site.counters && site'.made == site.made && site'.done == site.done
    ensures CountInv(c, initial, w, l', site')
  {
  }

  lemma MakingKeepsCount(c: Setup, initial: FS, s: System, w: nat)
    requires Workable(c) && NamesDistinct(c.plan) && RunInv(c, initial, s) && CountsInv(c, initial, s) && Can(c, s, MakeDirectory(w))
    ensures CountInv(c, initial, w, s.protocol.links[w], LocalNext(c, s, MakeDirectory(w)).1)
  {
    BusyIsAtWork(c, s, w);
    BusyIsInPlace(c, initial, s);
    CountHolds(c, initial, s, w);
    var leaf := LeafAt(c, |s.protocol.rounds| - 1, w, s.sites[w].made);
    MakingCounts(c, s, w);
    MakingOutcome(c, initial, s, w);
    CountsAfterMaking(c, initial, w, |s.protocol.rounds|, s.sites[w], LocalNext(c, s, MakeDirectory(w)).1, MakeAll(s.fs, leaf).1);
  }

  lemma JobOutcome(c: Setup, initial: FS, s: System, w: nat, i: nat) returns (ok: bool)
    requires Workable(c) && AtWork(c, s, w) && InPlace(c, initial, s) && SitesInv(c, s.protocol.links, s.sites)
    requires Can(c, s, PoolMoves(w, Do(i)))
    ensures var r, job := |s.protocol.rounds| - 1, s.sites[w].activity.pool.clients[i].job;
      && HasCountedJob(c, r, w, s.sites[w], LocalNext(c, s, PoolMoves(w, Do(i))).1, job, ok)
      && ok == Succeeds(c.plan[r], Settled(c, initial, r), JobPath(c, r, w, job))
  {
    var job := s.sites[w].activity.pool.clients[i].job;
    ok := JobNow(c, s, w, job).1;
    JobCounts(c, s, w, i);
    NextJobIsNew(c, s, w, i);
    JobHere(c, initial, s, w, job);
  }

  /** One more job counts as what it would have been before the round. */
  predicate CountedAs(c: Setup, initial: FS, n: nat, w: nat, site: Site, site': Site, job: Job, ok: bool)
    requires SizedPlan(c) && 0 < n <= |c.plan|
  {
    && HasCountedJob(c, n - 1, w, site, site', job, ok)
    && ok == Succeeds(c.plan[n - 1], Settled(c, initial, n - 1), JobPath(c, n - 1, w, job))
  }

  ghost predicate CountsJob(c: Setup, initial: FS, s: System, w: nat, site: Site)
    requires Fits(c, s) && w < c.workers
  {
    var n := |s.protocol.rounds|;
    && 0 < n <= |c.plan| && s.protocol.links[w].inits == n
    && exists job, ok :: CountedAs(c, initial, n, w, s.sites[w], site, job, ok)
  }

  lemma JobIsCounted(c: Setup, initial: FS, s: System, w: nat, i: nat)
    requires Workable(c) && RunInv(c, initial, s) && Can(c, s, PoolMoves(w, Do(i)))
    ensures CountsJob(c, initial, s, w, LocalNext(c, s, PoolMoves(w, Do(i))).1)
  {
    BusyIsAtWork(c, s, w);
    BusyIsInPlace(c, initial, s);
    var ok := JobOutcome(c, initial, s, w, i);
    assert CountedAs(c, initial, |s.protocol.rounds|, w, s.sites[w], LocalNext(c, s, PoolMoves(w, Do(i))).1,
                     s.sites[w].activity.pool.clients[i].job, ok);
  }

  lemma JobKeepsCount(c: Setup, initial: FS, s: System, w: nat, site: Site)
    requires Fits(c, s) && NamesDistinct(c.plan) && w < c.workers && CountsJob(c, initial, s, w, site)
    requires CountInv(c, initial, w, s.protocol.links[w], s.sites[w])
    ensures CountInv(c, initial, w, s.protocol.links[w], site)
  {
    var n := |s.protocol.rounds|;
    var job, ok :| CountedAs(c, initial, n, w, s.sites[w], site, job, ok);
    CountsAfterJob(c, initial, w, n, s.sites[w], site, job, ok);
  }

  lemma LocalActCounts(c: Setup, initial: FS, s: System, act: Act)
    requires Workable(c) && NamesDistinct(c.plan) && RunInv(c, initial, s) && CountsInv(c, initial, s) && Can(c, s, act) && !act.Protocol?
    ensures CountInv(c, initial, act.w, s.protocol.links[act.w], LocalNext(c, s, act).1)
  {
    if act.MakeDirectory? {
      MakingKeepsCount(c, initial, s, act.w);
    } else if act.PoolMoves? && act.move.Do? {
      CountHolds(c, initial, s, act.w);
      JobIsCounted(c, initial, s, act.w, act.move.i);
      JobKeepsCount(c, initial, s, act.w, LocalNext(c, s, act).1);
    } else {
      var l := s.protocol.links[act.w];
      CountHolds(c, initial, s, act.w);
      NothingCounts(c, initial, act.w, l, l, s.sites[act.w], LocalNext(c, s, act).1);
    }
  }

  // ----- Steps of the protocol

  lemma NothingDoneYet(c: Setup, initial: FS, r: nat, w: nat, site: Site)
    requires SizedPlan(c) && r < |c.plan| && NothingCounted(site.counters, c.plan[r].name) && site.made == 0 && site.done == []
    ensures Counted(c, initial, r, w, site)
  {
  }

  lemma ReceivingCounts(c: Setup, initial: FS, w: nat, l: P.Link, l': P.Link, site: Site, step: P.Step, r: nat)
    requires SizedPlan(c) && CountInv(c, initial, w, l, site) && r < |c.plan| && step.WorkerReceives?
    requires l'.reports == l.reports && l'.inits == r + 1
    requires if l.inits == r then l'.worker == P.Preparing else l.inits == r + 1 && l'.worker == P.Working
    ensures CountInv(c, initial, w, l', SiteAfter(c, l', site, step))
  {
    if l.inits == r {
      NothingDoneYet(c, initial, r, w, SiteAfter(c, l', site, step));
    }
  }

  lemma SameLength(a: seq<Job>, b: seq<Job>)
    requires multiset(a) == multiset(b)
    ensures |a| == |b|
  {
    assert |multiset(a)| == |a| && |multiset(b)| == |b|;
  }

  lemma DoneByFewer(c: Setup, r: nat, w: nat, a: seq<Job>, b: seq<Job>)
    requires c.workers >= 1 && r < |c.plan| && multiset(a) == multiset(b)
    ensures DoneBy(c, r, w, a) <= DoneBy(c, r, w, b)
  {
    forall j | 0 <= j < |a| ensures JobPath(c, r, w, a[j]) in DoneBy(c, r, w, b) {
      assert a[j] in multiset(b);
      var i :| 0 <= i < |b| && b[i] == a[j];
    }
  }

  lemma SameFiles(c: Setup, r: nat, w: nat, a: seq<Job>, b: seq<Job>)
    requires c.workers >= 1 && r < |c.plan| && multiset(a) == multiset(b)
    ensures DoneBy(c, r, w, a) == DoneBy(c, r, w, b)
  {
    DoneByFewer(c, r, w, a, b);
    DoneByFewer(c, r, w, b, a);
  }

  lemma AllOfIt(round: Round, done: seq<Job>)
    requires AllDone(round, done)
    ensures |done| == QueueLength(round) * round.shape.files
  {
    SameLength(done, JobsOf(round));
    JobCount(QueueLength(round), round.shape.files);
  }

  /** Jobs of the round, none of them twice. */
  predicate Distinct(round: Round, done: seq<Job>) {
    && (forall i, j :: 0 <= i < j < |done| ==> done[i] != done[j])
    && (forall i :: 0 <= i < |done| ==> InShape(round.shape, done[i].directory, done[i].index))
  }

  lemma JobOnlyOnce(round: Round, done: seq<Job>, i: nat, j: nat)
    requires AllDone(round, done) && i < j < |done|
    ensures done[i] != done[j]
  {
    var before, from := done[..j], done[j..];
    assert before[i] == done[i] && from[0] == done[j];
    assert done == before + from;
    JobsExactly(QueueLength(round), round.shape.files, done[i]);
  }

  lemma AllJobsDistinct(round: Round, done: seq<Job>)
    requires AllDone(round, done)
    ensures Distinct(round, done)
  {
    forall i, j | 0 <= i < j < |done| ensures done[i] != done[j] {
      JobOnlyOnce(round, done, i, j);
    }
    forall i | 0 <= i < |done| ensures InShape(round.shape, done[i].directory, done[i].index) {
      JobsExactly(QueueLength(round), round.shape.files, done[i]);
      assert multiset(done)[done[i]] > 0;
    }
  }

  lemma NewPath(c: Setup, r: nat, w: nat, done: seq<Job>, job: Job)
    requires c.workers >= 1 && r < |c.plan| && c.plan[r].shape.depth > 0 && Distinct(c.plan[r], done + [job])
    ensures JobPath(c, r, w, job) !in DoneBy(c, r, w, done)
  {
    var all := done + [job];
    if JobPath(c, r, w, job) in DoneBy(c, r, w, done) {
      var j :| 0 <= j < |done| && JobPath(c, r, w, job) == JobPath(c, r, w, done[j]);
      assert all[j] == done[j] && all[|done|] == job;
      var tree := TreeOf(c, c.plan[r].op, w);
      FilesDiffer(c.plan[r].shape, tree, job.directory, job.index, tree, done[j].directory, done[j].index);
    }
  }

  lemma OneMoreGood(round: Round, base: FS, done: set<Path>, p: Path)
    requires SizesValid(round.shape) && p !in done
    ensures |Good(round, base, done + {p})| == |Good(round, base, done)| + (if Succeeds(round, base, p) then 1 else 0)
  {
    if Succeeds(round, base, p) {
      assert Good(round, base, done + {p}) == Good(round, base, done) + {p};
    } else {
      assert Good(round, base, done + {p}) == Good(round, base, done);
    }
  }

  lemma OneMoreMakeable(base: FS, leaves: set<Path>, q: Path)
    requires q !in leaves
    ensures |Makeable(base, leaves + {q})| == |Makeable(base, leaves)| + (if CanMake(base, q) then 1 else 0)
  {
    if CanMake(base, q) {
      assert Makeable(base, leaves + {q}) == Makeable(base, leaves) + {q};
    } else {
      assert Makeable(base, leaves + {q}) == Makeable(base, leaves);
    }
  }

  /** Counting the jobs of a worker is counting their files. */
  lemma {:induction false} GoodJobsAreFiles(c: Setup, base: FS, r: nat, w: nat, done: seq<Job>)
    requires SizedPlan(c) && r < |c.plan| && c.plan[r].shape.depth > 0 && Distinct(c.plan[r], done)
    ensures |DoneBy(c, r, w, done)| == |done| && |Good(c.plan[r], base, DoneBy(c, r, w, done))| == GoodJobs(c, base, r, w, done)
  {
    if done == [] {
      assert DoneBy(c, r, w, done) == {} && Good(c.plan[r], base, {}) == {};
    } else {
      var init, job := done[..|done| - 1], done[|done| - 1];
      assert init + [job] == done;
      GoodJobsAreFiles(c, base, r, w, init);
      NewPath(c, r, w, init, job);
      DoneByOneMore(c, r, w, init, done, job);
      OneMoreGood(c.plan[r], base, DoneBy(c, r, w, init), JobPath(c, r, w, job));
    }
  }

  lemma LeafIsNewHere(c: Setup, r: nat, w: nat, k: nat)
    requires c.workers >= 1 && r < |c.plan| && c.plan[r].shape.depth > 0 && k < LeafCount(c.plan[r].shape)
    ensures LeafAt(c, r, w, k) !in LeavesBy(c, r, w, k)
  {
    if j: nat :| j < k && LeafAt(c, r, w, k) == LeafAt(c, r, w, j) {
      LeavesDiffer(c.plan[r].shape, TreeOf(c, c.plan[r].op, w), k, TreeOf(c, c.plan[r].op, w), j);
    }
  }

  lemma NextLeafCounts(c: Setup, base: FS, r: nat, w: nat, k: nat, k': nat)
    requires SizedPlan(c) && r < |c.plan| && c.plan[r].shape.depth > 0 && k' == k + 1 <= QueueLength(c.plan[r])
    ensures |LeavesBy(c, r, w, k')| == |LeavesBy(c, r, w, k)| + 1
    ensures |Makeable(base, LeavesBy(c, r, w, k'))|
         == |Makeable(base, LeavesBy(c, r, w, k))| + (if CanMake(base, LeafAt(c, r, w, k)) then 1 else 0)
  {
    LeavesByOneMore(c, r, w, k, k');
    LeafIsNewHere(c, r, w, k);
    OneMoreMakeable(base, LeavesBy(c, r, w, k), LeafAt(c, r, w, k));
  }

  lemma {:induction false} GoodLeavesAreMade(c: Setup, base: FS, r: nat, w: nat, n: nat)
    requires SizedPlan(c) && r < |c.plan| && c.plan[r].shape.depth > 0 && n <= QueueLength(c.plan[r])
    ensures |LeavesBy(c, r, w, n)| == n && |Makeable(base, LeavesBy(c, r, w, n))| == GoodLeaves(c, base, r, w, n)
  {
    if n == 0 {
      assert LeavesBy(c, r, w, n) == {} && Makeable(base, {}) == {};
    } else {
      GoodLeavesAreMade(c, base, r, w, n - 1);
      NextLeafCounts(c, base, r, w, n - 1, n);
      OneMoreGoodLeaf(c, base, r, w, n - 1, n);
    }
  }

  lemma GoodOfAll(c: Setup, base: FS, r: nat, w: nat, done: seq<Job>)
    requires SizedPlan(c) && r < |c.plan| && c.plan[r].shape.depth > 0 && AllDone(c.plan[r], done)
    ensures GoodJobs(c, base, r, w, done) + GoodLeaves(c, base, r, w, ToMake(c.plan[r]))
         == Successes(c.plan[r], base, DoneBy(c, r, w, JobsOf(c.plan[r])), LeavesBy(c, r, w, ToMake(c.plan[r])))
  {
    AllJobsDistinct(c.plan[r], done);
    GoodJobsAreFiles(c, base, r, w, done);
    GoodLeavesAreMade(c, base, r, w, ToMake(c.plan[r]));
    SameFiles(c, r, w, done, JobsOf(c.plan[r]));
  }

  /** A worker that has done and prepared everything reports what it must. */
  lemma ReportIsFaithful(c: Setup, initial: FS, r: nat, w: nat, site: Site, result: BenchmarkResult)
    requires SizedPlan(c) && r < |c.plan| && c.plan[r].shape.depth > 0 && Counted(c, initial, r, w, site)
    requires AllDone(c.plan[r], site.done) && site.made == ToMake(c.plan[r])
    requires Reports(result, site.counters, c.plan[r].name)
    ensures Faithful(c, initial, r, w, result)
  {
    AllOfIt(c.plan[r], site.done);
    GoodOfAll(c, Settled(c, initial, r), r, w, site.done);
  }

  lemma OneMoreReport(c: Setup, initial: FS, w: nat, reports: seq<BenchmarkResult>, result: BenchmarkResult)
    requires SizedPlan(c) && AllFaithful(c, initial, w, reports)
    requires |reports| < |c.plan| && Faithful(c, initial, |reports|, w, result)
    ensures AllFaithful(c, initial, w, reports + [result])
  {
    var reports' := reports + [result];
    forall q | 0 <= q < |reports'| ensures Faithful(c, initial, q, w, reports'[q]) {
      assert q < |reports| ==> reports'[q] == reports[q];
    }
  }

  lemma WorkingCounts(c: Setup, initial: FS, w: nat, l: P.Link, l': P.Link, site: Site, step: P.Step, r: nat)
    requires SizedPlan(c) && CountInv(c, initial, w, l, site) && SiteInv(c, l, site) && r < |c.plan|
    requires l.inits == l'.inits == r + 1 && |l.reports| == r && c.plan[r].threads > 0 && c.plan[r].shape.depth > 0
    requires step.FinishWork? && MayFinish(c, l, site, step)
    requires l.assignment.value.round == r && l.assignment.value.testName == c.plan[r].name
    requires l'.reports == l.reports + [step.result]
    ensures CountInv(c, initial, w, l', SiteAfter(c, l', site, step))
  {
    ReporterIsThrough(c, l, site, step, r);
    ReportIsFaithful(c, initial, r, w, site, step.result);
    OneMoreReport(c, initial, w, l.reports, step.result);
  }

  lemma ReporterIsThrough(c: Setup, l: P.Link, site: Site, step: P.Step, r: nat)
    requires SiteInv(c, l, site) && r < |c.plan| && l.inits == r + 1 && |l.reports| == r && c.plan[r].threads > 0
    requires step.FinishWork? && MayFinish(c, l, site, step) && l.assignment.value.round == r
    ensures AllDone(c.plan[r], site.done) && site.made == ToMake(c.plan[r])
  {
    if site.activity.Running? {
      DrainedIsDone(c.plan[r], site);
    }
  }

  lemma ReceiverCounts(c: Setup, initial: FS, s: System, w: nat)
    requires Fits(c, s) && I.LinksInv(c, s.protocol) && P.Enabled(c, s.protocol, P.WorkerReceives(w))
    requires forall r :: 0 <= r < |c.plan| ==> Runnable(c.plan[r])
    requires CountInv(c, initial, w, s.protocol.links[w], s.sites[w])
    ensures var l' := P.WorkerStep(c, s.protocol.links[w], P.WorkerReceives(w));
      CountInv(c, initial, w, l', SiteAfter(c, l', s.sites[w], P.WorkerReceives(w)))
  {
    assert I.LinkHolds(c, s.protocol, w);
    var r, l := |s.protocol.rounds| - 1, s.protocol.links[w];
    LeavesExist(c.plan[r].shape);
    ReceivedWhat(c, s.protocol.rounds[r].handlers[w], l, r, w);
    ReceivingCounts(c, initial, w, l, P.Accept(c, l), s.sites[w], P.WorkerReceives(w), r);
  }

  lemma ReporterCounts(c: Setup, initial: FS, s: System, step: P.Step)
    requires Fits(c, s) && I.Inv(c, s.protocol) && Can(c, s, Protocol(step)) && step.FinishWork?
    requires forall r :: 0 <= r < |c.plan| ==> Runnable(c.plan[r])
    requires SiteInv(c, s.protocol.links[step.w], s.sites[step.w]) && CountInv(c, initial, step.w, s.protocol.links[step.w], s.sites[step.w])
    ensures var l' := P.WorkerStep(c, s.protocol.links[step.w], step);
      CountInv(c, initial, step.w, l', SiteAfter(c, l', s.sites[step.w], step))
  {
    var l := s.protocol.links[step.w];
    BusyWorker(c, s.protocol, step.w);
    WorkingCounts(c, initial, step.w, l, P.WorkerStep(c, l, step), s.sites[step.w], step, |s.protocol.rounds| - 1);
  }

  lemma OtherWorkerStepCounts(c: Setup, l: P.Link, site: Site, step: P.Step)
    requires P.IsWorkerStep(step) && !step.WorkerReceives? && !step.FinishWork?
    ensures var l' := P.WorkerStep(c, l, step);
      var site' := SiteAfter(c, l', site, step);
      && l'.inits == l.inits && l'.reports == l.reports
      && site'.counters == site.counters && site'.made == site.made && site'.done == site.done
  {
  }

  lemma WorkerStepCounts(c: Setup, initial: FS, s: System, step: P.Step)
    requires Fits(c, s) && I.Inv(c, s.protocol) && Can(c, s, Protocol(step)) && P.IsWorkerStep(step)
    requires forall r :: 0 <= r < |c.plan| ==> Runnable(c.plan[r])
    requires SitesInv(c, s.protocol.links, s.sites) && CountsInv(c, initial, s)
    ensures var l' := P.WorkerStep(c, s.protocol.links[step.w], step);
      CountInv(c, initial, step.w, l', SiteAfter(c, l', s.sites[step.w], step))
  {
    var l := s.protocol.links[step.w];
    SiteHolds(c, s.protocol.links, s.sites, step.w);
    CountHolds(c, initial, s, step.w);
    if step.WorkerReceives? {
      ReceiverCounts(c, initial, s, step.w);
    } else if step.FinishWork? {
      ReporterCounts(c, initial, s, step);
    } else {
      var l' := P.WorkerStep(c, l, step);
      OtherWorkerStepCounts(c, l, s.sites[step.w], step);
      NothingCounts(c, initial, step.w, l, l', s.sites[step.w], SiteAfter(c, l', s.sites[step.w], step));
    }
  }

  // ----- All steps, all runs

  /** Only worker `w` has moved. */
  lemma OnlyOneCounts(c: Setup, initial: FS, s: System, s': System, w: nat)
    requires Fits(c, s) && Fits(c, s') && w < c.workers && CountsInv(c, initial, s)
    requires s'.protocol.links == s.protocol.links[w := s'.protocol.links[w]] && s'.sites == s.sites[w := s'.sites[w]]
    requires CountInv(c, initial, w, s'.protocol.links[w], s'.sites[w])
    ensures CountsInv(c, initial, s')
  {
    forall i | 0 <= i < c.workers ensures CountInv(c, initial, i, s'.protocol.links[i], s'.sites[i]) {
      CountHolds(c, initial, s, i);
    }
  }

  lemma LocalActKeepsCounts(c: Setup, initial: FS, s: System, act: Act)
    requires Fits(c, s) && CountsInv(c, initial, s) && Can(c, s, act) && !act.Protocol?
    requires CountInv(c, initial, act.w, s.protocol.links[act.w], LocalNext(c, s, act).1)
    ensures CountsInv(c, initial, Next(c, s, act))
  {
    OnlyOneCounts(c, initial, s, Next(c, s, act), act.w);
  }

  lemma WorkerStepKeepsCounts(c: Setup, initial: FS, s: System, step: P.Step)
    requires Fits(c, s) && CountsInv(c, initial, s) && Can(c, s, Protocol(step)) && P.IsWorkerStep(step)
    requires var l' := P.WorkerStep(c, s.protocol.links[step.w], step);
      CountInv(c, initial, step.w, l', SiteAfter(c, l', s.sites[step.w], step))
    ensures CountsInv(c, initial, Next(c, s, Protocol(step)))
  {
    OnlyOneCounts(c, initial, s, Next(c, s, Protocol(step)), step.w);
  }

  lemma OtherStepKeepsCounts(c: Setup, initial: FS, s: System, step: P.Step)
    requires Fits(c, s) && CountsInv(c, initial, s) && Can(c, s, Protocol(step)) && !P.IsWorkerStep(step)
    ensures CountsInv(c, initial, Next(c, s, Protocol(step)))
  {
    var s' := Next(c, s, Protocol(step));
    OthersLeaveWorkers(c, s.protocol, step);
    forall w | 0 <= w < c.workers ensures CountInv(c, initial, w, s'.protocol.links[w], s'.sites[w]) {
      CountHolds(c, initial, s, w);
      assert SameWorker(s.protocol.links[w], s'.protocol.links[w]);
      NothingCounts(c, initial, w, s.protocol.links[w], s'.protocol.links[w], s.sites[w], s'.sites[w]);
    }
  }

  lemma ActKeepsCounts(c: Setup, initial: FS, s: System, act: Act)
    requires Workable(c) && NamesDistinct(c.plan) && RunInv(c, initial, s) && CountsInv(c, initial, s) && Can(c, s, act)
    ensures CountsInv(c, initial, Next(c, s, act))
  {
    if !act.Protocol? {
      LocalActCounts(c, initial, s, act);
      LocalActKeepsCounts(c, initial, s, act);
    } else if P.IsWorkerStep(act.step) {
      WorkerStepCounts(c, initial, s, act.step);
      WorkerStepKeepsCounts(c, initial, s, act.step);
    } else {
      OtherStepKeepsCounts(c, initial, s, act.step);
    }
  }

  lemma CountsAtFirst(c: Setup, initial: FS)
    requires Workable(c)
    ensures CountsInv(c, initial, Begin(c, initial))
  {
  }

  /** The counters of every worker are right in every run, whichever of its operations fail. */
  lemma {:induction false} EveryRunKeepsCounts(c: Setup, initial: FS, acts: seq<Act>)
    requires Workable(c) && NamesDistinct(c.plan) && Run(c, initial, acts).Some?
    ensures CountsInv(c, initial, Run(c, initial, acts).value)
  {
    if acts == [] {
      CountsAtFirst(c, initial);
    } else {
      var init := acts[..|acts| - 1];
      EveryRunKeepsCounts(c, initial, init);
      EveryRunKeepsInv(c, initial, init);
      ActKeepsCounts(c, initial, Run(c, initial, init).value, acts[|acts| - 1]);
    }
  }
}
