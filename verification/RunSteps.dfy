/** Every step of a benchmark run keeps its invariant, whichever operations fail. */
module RunSteps {
  import opened Arithmetic
  import opened BenchmarkPlan
  import opened WorkTree
  import opened FileSystem
  import opened ClientPool
  import opened RoundFiles
  import opened RoundEffects
  import opened BenchmarkRun
  import opened RunInvariant
  import P = RoundProtocol
  import I = ProtocolInvariant
  import S = ProtocolSteps
  import WorkItems

  // ----- What the protocol says about a busy worker

  lemma BusyLink(c: Setup, h: P.Handler, l: P.Link, r: nat, w: nat)
    requires c.workers >= 1 && r < |c.plan| && I.LinkInv(c, h, l, r, w)
    ensures l.worker == P.Preparing || l.worker == P.Working ==> l.inits == r + 1 && |l.reports| == r && I.AssignedTo(c, l, r, w)
    ensures l.worker == P.Working ==> LeafCount(c.plan[r].shape) > 0
  {
  }

  /** A worker that is preparing or working does so in the round under way. */
  lemma BusyWorker(c: Setup, s: P.State, w: nat)
    requires I.Inv(c, s) && w < c.workers && (s.links[w].worker == P.Preparing || s.links[w].worker == P.Working)
    ensures s.rounds != []
    ensures var r, l := |s.rounds| - 1, s.links[w];
      && l.inits == r + 1 && |l.reports| == r && I.AssignedTo(c, l, r, w)
      && (l.worker == P.Working ==> LeafCount(c.plan[r].shape) > 0)
  {
    assert I.LinkHolds(c, s, w);
    if s.server != P.Between {
      BusyLink(c, s.rounds[|s.rounds| - 1].handlers[w], s.links[w], |s.rounds| - 1, w);
    }
  }

  /** What the invariant says about one worker. */
  lemma SiteHolds(c: Setup, links: seq<P.Link>, sites: seq<Site>, w: nat)
    requires SitesInv(c, links, sites) && w < c.workers
    ensures SiteInv(c, links[w], sites[w])
  {
    assert sites[w] == sites[w];
  }

  // ----- A worker after its own step

  lemma SiteAfterMaking(c: Setup, l: P.Link, site: Site, site': Site)
    requires SiteInv(c, l, site) && l.inits > 0 && site.activity.Making? && site.activity.k < ToMake(c.plan[l.inits - 1])
    requires site'.activity == Making(site.activity.k + 1) && site'.made == site.made + 1 && site'.done == site.done
    ensures SiteInv(c, l, site')
  {
  }

  lemma SiteAfterMoving(c: Setup, l: P.Link, site: Site, move: PoolStep)
    requires SiteInv(c, l, site) && l.inits > 0 && site.activity.Running? && CanStep(site.activity.pool, move) && !move.Do?
    ensures SiteInv(c, l, site.(activity := Running(PoolNext(site.activity.pool, move))))
  {
    var round := c.plan[l.inits - 1];
    StepKeepsPoolInv(JobsOf(round), round.threads, site.activity.pool, move);
  }

  /** The job under way at a client is one of the round's, and has not been executed yet. */
  lemma JobUnderWay(round: Round, pool: Pool, i: nat)
    requires PoolInv(JobsOf(round), round.threads, pool) && CanStep(pool, Do(i))
    ensures var job := pool.clients[i].job;
      job !in pool.executed && InShape(round.shape, job.directory, job.index)
  {
    var job := pool.clients[i].job;
    assert Accounted(JobsOf(round), pool, job);
    UnderWayBounds(pool.clients, job);
    TakenOnce(JobsOf(round), pool, job);
    JobsExactly(QueueLength(round), round.shape.files, job);
  }

  lemma TakenOnce(jobs: seq<Job>, pool: Pool, job: Job)
    requires 0 <= Taken(jobs, pool)
    ensures multiset(TakenJobs(jobs, pool))[job] <= multiset(jobs)[job]
  {
    if Taken(jobs, pool) < |jobs| {
      var n := Taken(jobs, pool);
      assert jobs == jobs[..n] + jobs[n..];
    }
  }

  lemma OnTrackAfterJob(round: Round, site: Site, site': Site, i: nat)
    requires OnTrack(round, site, false) && site.activity.Running? && CanStep(site.activity.pool, Do(i))
    requires site'.activity == Running(PoolNext(site.activity.pool, Do(i))) && site'.made == site.made
    requires site'.done == site.done + [site.activity.pool.clients[i].job]
    ensures OnTrack(round, site', false)
  {
    StepKeepsPoolInv(JobsOf(round), round.threads, site.activity.pool, Do(i));
  }

  lemma SiteAfterJob(c: Setup, l: P.Link, site: Site, site': Site, i: nat)
    requires SiteInv(c, l, site) && l.inits > 0 && site.activity.Running? && CanStep(site.activity.pool, Do(i))
    requires site'.activity == Running(PoolNext(site.activity.pool, Do(i))) && site'.made == site.made
    requires site'.done == site.done + [site.activity.pool.clients[i].job]
    ensures SiteInv(c, l, site')
  {
    OnTrackAfterJob(c.plan[l.inits - 1], site, site', i);
  }

  lemma DrainedIsDone(round: Round, site: Site)
    requires site.activity.Running? && Drained(site.activity.pool) && OnTrack(round, site, false) && round.threads > 0
    ensures AllDone(round, site.done)
  {
    DrainedMeansAllExecuted(JobsOf(round), round.threads, site.activity.pool);
  }

  lemma SiteAfterCleaning(c: Setup, l: P.Link, site: Site)
    requires SiteInv(c, l, site) && l.inits > 0 && (IsDrained(site.activity) || site.activity.Cleaning?)
    requires c.plan[l.inits - 1].threads > 0 && Cleaned(site.activity) < ToClean(c.plan[l.inits - 1])
    ensures SiteInv(c, l, site.(activity := Cleaning(Cleaned(site.activity) + 1)))
  {
    if site.activity.Running? {
      DrainedIsDone(c.plan[l.inits - 1], site);
    }
  }

  // ----- What a round has dealt with

  /** All jobs done so far in the round are jobs of the round. */
  lemma DoneInShape(round: Round, site: Site, reported: bool, job: Job)
    requires OnTrack(round, site, reported) && job in site.done
    ensures InShape(round.shape, job.directory, job.index)
  {
    JobsExactly(QueueLength(round), round.shape.files, job);
    assert multiset(site.done)[job] > 0;
    if site.activity.Running? {
      assert Accounted(JobsOf(round), site.activity.pool, job);
      TakenOnce(JobsOf(round), site.activity.pool, job);
    }
  }

  lemma DonesInShape(c: Setup, s: System, r: nat)
    requires Fits(c, s) && SitesInv(c, s.protocol.links, s.sites) && r < |c.plan|
    ensures forall i, j :: 0 <= i < c.workers && 0 <= j < |Dones(c, s, r)[i]| ==>
      InShape(c.plan[r].shape, Dones(c, s, r)[i][j].directory, Dones(c, s, r)[i][j].index)
  {
    forall i, j | 0 <= i < c.workers && 0 <= j < |Dones(c, s, r)[i]|
      ensures InShape(c.plan[r].shape, Dones(c, s, r)[i][j].directory, Dones(c, s, r)[i][j].index)
    {
      SiteHolds(c, s.protocol.links, s.sites, i);
      DoneInShape(c.plan[r], s.sites[i], |s.protocol.links[i].reports| == s.protocol.links[i].inits, s.sites[i].done[j]);
    }
  }

  lemma DoneFilesInRound(c: Setup, r: nat, dones: seq<seq<Job>>)
    requires c.workers >= 1 && r < |c.plan| && |dones| == c.workers
    requires forall i, j :: 0 <= i < c.workers && 0 <= j < |dones[i]| ==> InShape(c.plan[r].shape, dones[i][j].directory, dones[i][j].index)
    ensures DoneFiles(c, r, dones) <= AllFiles(c.workers, c.plan[r].shape)
  {
    forall p | p in DoneFiles(c, r, dones) ensures p in AllFiles(c.workers, c.plan[r].shape) {
      DoneBySome(c, r, dones, p);
      var w :| 0 <= w < |dones| && p in DoneBy(c, r, w, dones[w]);
      var j :| 0 <= j < |dones[w]| && p == JobPath(c, r, w, dones[w][j]);
      TreeInRange(c, c.plan[r].op, w);
    }
  }

  lemma HandledBound(c: Setup, s: System, r: nat)
    requires Fits(c, s) && SitesInv(c, s.protocol.links, s.sites) && r < |c.plan|
    ensures forall w :: 0 <= w < c.workers ==> AllHandled(c, s, r)[w] <= QueueLength(c.plan[r])
  {
    forall w | 0 <= w < c.workers ensures AllHandled(c, s, r)[w] <= QueueLength(c.plan[r]) {
      SiteHolds(c, s.protocol.links, s.sites, w);
    }
  }

  /** What has been done and dealt with is part of the round. */
  predicate InRound(c: Setup, s: System, r: nat)
    requires Fits(c, s) && r < |c.plan|
  {
    PartOf(c.workers, c.plan[r].shape, DoneFiles(c, r, Dones(c, s, r)), LeavesSoFar(c, r, AllHandled(c, s, r)))
  }

  lemma AlwaysInRound(c: Setup, s: System, r: nat)
    requires Fits(c, s) && SitesInv(c, s.protocol.links, s.sites) && r < |c.plan|
    ensures InRound(c, s, r)
  {
    DonesInShape(c, s, r);
    DoneFilesInRound(c, r, Dones(c, s, r));
    HandledBound(c, s, r);
    LeavesAreListed(c, r, AllHandled(c, s, r));
  }

  lemma JobIsNew(c: Setup, s: System, w: nat, i: nat, r: nat)
    requires Fits(c, s) && SitesInv(c, s.protocol.links, s.sites) && w < c.workers && r < |c.plan| && c.plan[r].shape.depth > 0
    requires s.protocol.links[w].inits == r + 1 && s.sites[w].activity.Running? && CanStep(s.sites[w].activity.pool, Do(i))
    ensures var job := s.sites[w].activity.pool.clients[i].job;
      JobPath(c, r, w, job) !in DoneFiles(c, r, Dones(c, s, r)) && InShape(c.plan[r].shape, job.directory, job.index)
  {
    SiteHolds(c, s.protocol.links, s.sites, w);
    JobUnderWay(c.plan[r], s.sites[w].activity.pool, i);
    DonesInShape(c, s, r);
    NewJobNotDone(c, r, Dones(c, s, r), w, s.sites[w].activity.pool.clients[i].job);
  }

  lemma AllJobsDone(c: Setup, s: System, r: nat, w: nat, k: nat, i: nat)
    requires Fits(c, s) && w < c.workers && r < |c.plan| && s.protocol.links[w].inits == r + 1
    requires AllDone(c.plan[r], s.sites[w].done) && InShape(c.plan[r].shape, k, i)
    ensures FilePath(c.plan[r].shape, TreeOf(c, c.plan[r].op, w), k, i) in DoneFiles(c, r, Dones(c, s, r))
  {
    var job, done := Job(k, i), s.sites[w].done;
    JobsExactly(QueueLength(c.plan[r]), c.plan[r].shape.files, job);
    assert job in multiset(done);
    var j :| 0 <= j < |done| && done[j] == job;
    assert JobPath(c, r, w, done[j]) in DoneBy(c, r, w, done);
    assert Dones(c, s, r)[w] == done;
    DoneBySome(c, r, Dones(c, s, r), JobPath(c, r, w, job));
  }

  /** When a worker removes a leaf directory it has dealt with all the files in it before. */
  lemma CleanerIsThrough(c: Setup, s: System, w: nat)
    requires AtWork(c, s, w) && Can(c, s, CleanDirectory(w)) && c.plan[|s.protocol.rounds| - 1].threads > 0
    ensures var r := |s.protocol.rounds| - 1;
      && Clears(c.plan[r]) && AllHandled(c, s, r)[w] == Cleaned(s.sites[w].activity) < QueueLength(c.plan[r])
      && FilesDone(c.plan[r].shape, TreeOf(c, c.plan[r].op, w), Cleaned(s.sites[w].activity), DoneFiles(c, r, Dones(c, s, r)))
  {
    var r, site := |s.protocol.rounds| - 1, s.sites[w];
    if site.activity.Running? {
      DrainedIsDone(c.plan[r], site);
    }
    forall i | 0 <= i < c.plan[r].shape.files
      ensures FilePath(c.plan[r].shape, TreeOf(c, c.plan[r].op, w), Cleaned(site.activity), i) in DoneFiles(c, r, Dones(c, s, r))
    {
      AllJobsDone(c, s, r, w, Cleaned(site.activity), i);
    }
  }

  // ----- Steps of the workers on their own

  /** What a busy worker can rely on. */
  ghost predicate AtWork(c: Setup, s: System, w: nat) {
    && Fits(c, s) && w < c.workers && s.protocol.rounds != []
    && SiteInv(c, s.protocol.links[w], s.sites[w])
    && s.protocol.links[w].inits == |s.protocol.rounds|
    && I.AssignedTo(c, s.protocol.links[w], |s.protocol.rounds| - 1, w)
  }

  lemma BusyIsAtWork(c: Setup, s: System, w: nat)
    requires Fits(c, s) && I.Inv(c, s.protocol) && SitesInv(c, s.protocol.links, s.sites)
    requires w < c.workers && s.sites[w].activity != Quiet
    ensures AtWork(c, s, w)
  {
    SiteHolds(c, s.protocol.links, s.sites, w);
    BusyWorker(c, s.protocol, w);
  }

  /** The file system of the round under way, all of it in its place. */
  ghost predicate InPlace(c: Setup, initial: FS, s: System) {
    Fits(c, s) && s.protocol.rounds != [] && InRound(c, s, |s.protocol.rounds| - 1) && FSAt(c, initial, s, |s.protocol.rounds| - 1)
  }

  lemma OnlyItsOwn(c: Setup, s: System, w: nat, fs: FS, site: Site, r: nat)
    requires Fits(c, s) && w < c.workers && r < |c.plan|
    ensures var s' := s.(fs := fs, sites := s.sites[w := site]);
      && Dones(c, s', r) == Dones(c, s, r)[w := DoneIn(s.protocol.links[w], site, r + 1)]
      && AllHandled(c, s', r) == AllHandled(c, s, r)[w := Handled(c.plan[r], s.protocol.links[w], site, r + 1)]
  {
  }

  /** A step of worker `w` that neither does a job nor deals with a leaf directory. */
  lemma NothingMore(c: Setup, initial: FS, s: System, w: nat, site: Site, r: nat)
    requires Fits(c, s) && w < c.workers && r < |c.plan| && site.done == s.sites[w].done
    requires Handled(c.plan[r], s.protocol.links[w], site, r + 1) == Handled(c.plan[r], s.protocol.links[w], s.sites[w], r + 1)
    requires FSAt(c, initial, s, r)
    ensures FSAt(c, initial, s.(fs := s.fs, sites := s.sites[w := site]), r)
  {
    OnlyItsOwn(c, s, w, s.fs, site, r);
    Unchanged(Dones(c, s, r), w);
    Unchanged(AllHandled(c, s, r), w);
  }

  lemma Unchanged<T>(values: seq<T>, w: nat)
    requires w < |values|
    ensures values[w := values[w]] == values
  {
  }

  /** A step of worker `w` that does a job. */
  lemma OneMoreJob(c: Setup, initial: FS, s: System, w: nat, fs: FS, site: Site, r: nat, job: Job)
    requires Fits(c, s) && w < c.workers && r < |c.plan| && s.protocol.links[w].inits == r + 1 && site.done == s.sites[w].done + [job]
    requires Handled(c.plan[r], s.protocol.links[w], site, r + 1) == Handled(c.plan[r], s.protocol.links[w], s.sites[w], r + 1)
    requires Midway(c, initial, r, fs, DoneFiles(c, r, Dones(c, s, r)) + {JobPath(c, r, w, job)}, LeavesSoFar(c, r, AllHandled(c, s, r)))
    ensures FSAt(c, initial, s.(fs := fs, sites := s.sites[w := site]), r)
  {
    OnlyItsOwn(c, s, w, fs, site, r);
    OneMoreDone(c, r, Dones(c, s, r), w, job);
    Unchanged(AllHandled(c, s, r), w);
  }

  lemma OneMoreIsDealtWith(c: Setup, s: System, w: nat, fs: FS, site: Site, r: nat)
    requires Fits(c, s) && w < c.workers && r < |c.plan| && site.done == s.sites[w].done
    requires Handled(c.plan[r], s.protocol.links[w], site, r + 1) == AllHandled(c, s, r)[w] + 1
    ensures var s' := s.(fs := fs, sites := s.sites[w := site]);
      && Dones(c, s', r) == Dones(c, s, r)
      && AllHandled(c, s', r) == AllHandled(c, s, r)[w := AllHandled(c, s, r)[w] + 1]
  {
    OnlyItsOwn(c, s, w, fs, site, r);
    Unchanged(Dones(c, s, r), w);
  }

  lemma FSFrom(c: Setup, initial: FS, s: System, r: nat, dones: seq<seq<Job>>, handled: seq<nat>)
    requires Fits(c, s) && r < |c.plan| && dones == Dones(c, s, r) && handled == AllHandled(c, s, r)
    requires Midway(c, initial, r, s.fs, DoneFiles(c, r, dones), LeavesSoFar(c, r, handled))
    ensures FSAt(c, initial, s, r)
  {
  }

  /** A step of worker `w` that deals with its next leaf directory. */
  lemma OneMoreLeaf(c: Setup, initial: FS, s: System, w: nat, fs: FS, site: Site, r: nat)
    requires Fits(c, s) && w < c.workers && r < |c.plan| && site.done == s.sites[w].done
    requires Handled(c.plan[r], s.protocol.links[w], site, r + 1) == AllHandled(c, s, r)[w] + 1
    requires Midway(c, initial, r, fs, DoneFiles(c, r, Dones(c, s, r)),
                    LeavesSoFar(c, r, AllHandled(c, s, r)) + {LeafAt(c, r, w, AllHandled(c, s, r)[w])})
    ensures FSAt(c, initial, s.(fs := fs, sites := s.sites[w := site]), r)
  {
    var s', handled := s.(fs := fs, sites := s.sites[w := site]), AllHandled(c, s, r);
    OneMoreIsDealtWith(c, s, w, fs, site, r);
    OneMoreHandled(c, r, handled, w);
    FSFrom(c, initial, s', r, Dones(c, s, r), handled[w := handled[w] + 1]);
  }

  // ----- ... making a leaf directory

  /** What a worker does when it makes a directory. */
  lemma MakerMakes(c: Setup, s: System, w: nat)
    requires AtWork(c, s, w) && Can(c, s, MakeDirectory(w))
    ensures var r := |s.protocol.rounds| - 1;
      var (fs, ok) := MakeAll(s.fs, LeafAt(c, r, w, s.sites[w].made));
      var (fs', site) := LocalNext(c, s, MakeDirectory(w));
      && c.plan[r].op == Write && s.sites[w].made < QueueLength(c.plan[r]) && AllHandled(c, s, r)[w] == s.sites[w].made
      && Handled(c.plan[r], s.protocol.links[w], site, r + 1) == s.sites[w].made + 1
      && fs' == fs && site == s.sites[w].(activity := Making(s.sites[w].made + 1), made := s.sites[w].made + 1,
                                         counters := WorkItems.CountMkdir(s.sites[w].counters, ok, c.plan[r].name))
  {
  }

  /** Making it succeeds if and only if nothing was in the way before the round. */
  lemma MakingHere(c: Setup, initial: FS, s: System, w: nat, k: nat)
    requires Workable(c) && InPlace(c, initial, s) && w < c.workers
    requires var round := c.plan[|s.protocol.rounds| - 1]; round.op == Write && k < QueueLength(round)
    ensures var r, leaf := |s.protocol.rounds| - 1, LeafAt(c, |s.protocol.rounds| - 1, w, k);
      var (fs, ok) := MakeAll(s.fs, leaf);
      && ok == CanMake(Settled(c, initial, r), leaf)
      && Midway(c, initial, r, fs, DoneFiles(c, r, Dones(c, s, r)), LeavesSoFar(c, r, AllHandled(c, s, r)) + {leaf})
  {
    var r := |s.protocol.rounds| - 1;
    LeafHasLength(c.plan[r].shape, TreeOf(c, c.plan[r].op, w), k);
    PreparingOne(c.workers, c.plan[r], Settled(c, initial, r), DoneFiles(c, r, Dones(c, s, r)),
                 LeavesSoFar(c, r, AllHandled(c, s, r)), LeafAt(c, r, w, k));
  }

  /** What a worker's own step must leave behind. */
  ghost predicate StaysAtWork(c: Setup, initial: FS, s: System, w: nat, fs: FS, site: Site)
    requires Fits(c, s) && w < c.workers && s.protocol.rounds != []
  {
    SiteInv(c, s.protocol.links[w], site) && FSAt(c, initial, s.(fs := fs, sites := s.sites[w := site]), |s.protocol.rounds| - 1)
  }

  lemma LeafMade(c: Setup, initial: FS, s: System, w: nat, site: Site, r: nat)
    requires Workable(c) && InPlace(c, initial, s) && w < c.workers && r == |s.protocol.rounds| - 1 && c.plan[r].op == Write
    requires AllHandled(c, s, r)[w] < QueueLength(c.plan[r]) && site.done == s.sites[w].done
    requires Handled(c.plan[r], s.protocol.links[w], site, r + 1) == AllHandled(c, s, r)[w] + 1
    ensures var fs := MakeAll(s.fs, LeafAt(c, r, w, AllHandled(c, s, r)[w])).0;
      FSAt(c, initial, s.(fs := fs, sites := s.sites[w := site]), r)
  {
    MakingHere(c, initial, s, w, AllHandled(c, s, r)[w]);
    OneMoreLeaf(c, initial, s, w, MakeAll(s.fs, LeafAt(c, r, w, AllHandled(c, s, r)[w])).0, site, r);
  }

  lemma MakerLands(c: Setup, initial: FS, s: System, w: nat, fs: FS, site: Site)
    requires Workable(c) && AtWork(c, s, w) && InPlace(c, initial, s) && s.sites[w].activity.Making?
    requires var r, k := |s.protocol.rounds| - 1, s.sites[w].made;
      && c.plan[r].op == Write && AllHandled(c, s, r)[w] == k < QueueLength(c.plan[r])
      && Handled(c.plan[r], s.protocol.links[w], site, r + 1) == k + 1
      && fs == MakeAll(s.fs, LeafAt(c, r, w, k)).0
      && site.activity == Making(k + 1) && site.made == k + 1 && site.done == s.sites[w].done
    ensures StaysAtWork(c, initial, s, w, fs, site)
  {
    SiteAfterMaking(c, s.protocol.links[w], s.sites[w], site);
    LeafMade(c, initial, s, w, site, |s.protocol.rounds| - 1);
  }

  lemma MakeDirectoryLocally(c: Setup, initial: FS, s: System, w: nat)
    requires Workable(c) && AtWork(c, s, w) && InPlace(c, initial, s) && Can(c, s, MakeDirectory(w))
    ensures var (fs, site) := LocalNext(c, s, MakeDirectory(w)); StaysAtWork(c, initial, s, w, fs, site)
  {
    var (fs, site) := LocalNext(c, s, MakeDirectory(w));
    MakerMakes(c, s, w);
    MakerLands(c, initial, s, w, fs, site);
  }

  // ----- ... doing a job

  /** What a job does to the file system when it is done now, and whether it succeeds. */
  function JobNow(c: Setup, s: System, w: nat, job: Job): (FS, bool)
    requires Fits(c, s) && 0 < |s.protocol.rounds| <= |c.plan|
  {
    var r := |s.protocol.rounds| - 1;
    WorkItems.Execute(c.plan[r].op, s.fs, c.plan[r].shape, LeafAt(c, r, w, job.directory), job.index)
  }

  /** What a client does when it does a job. */
  lemma JobExecutes(c: Setup, s: System, w: nat, i: nat)
    requires AtWork(c, s, w) && Can(c, s, PoolMoves(w, Do(i)))
    ensures var round, pool := c.plan[|s.protocol.rounds| - 1], s.sites[w].activity.pool;
      var job := pool.clients[i].job;
      && s.sites[w].activity.Running?
      && LocalNext(c, s, PoolMoves(w, Do(i))).0 == JobNow(c, s, w, job).0
      && LocalNext(c, s, PoolMoves(w, Do(i))).1
         == s.sites[w].(activity := Running(PoolNext(pool, Do(i))), done := s.sites[w].done + [job],
                        counters := WorkItems.Count(s.sites[w].counters, round.op, JobNow(c, s, w, job).1, round.name, round.shape.size))
  {
  }

  /** A job of the round that nobody has done yet. */
  predicate IsNewJob(c: Setup, s: System, w: nat, job: Job)
    requires Fits(c, s) && 0 < |s.protocol.rounds| <= |c.plan|
  {
    var r := |s.protocol.rounds| - 1;
    InShape(c.plan[r].shape, job.directory, job.index) && JobPath(c, r, w, job) !in DoneFiles(c, r, Dones(c, s, r))
  }

  lemma NextJobIsNew(c: Setup, s: System, w: nat, i: nat)
    requires AtWork(c, s, w) && SitesInv(c, s.protocol.links, s.sites) && c.plan[|s.protocol.rounds| - 1].shape.depth > 0
    requires s.sites[w].activity.Running? && CanStep(s.sites[w].activity.pool, Do(i))
    ensures IsNewJob(c, s, w, s.sites[w].activity.pool.clients[i].job)
  {
    JobIsNew(c, s, w, i, |s.protocol.rounds| - 1);
  }

  /** It succeeds if and only if it would have if it had been the first of its round. */
  lemma JobHere(c: Setup, initial: FS, s: System, w: nat, job: Job)
    requires Workable(c) && InPlace(c, initial, s) && w < c.workers && IsNewJob(c, s, w, job)
    ensures var r := |s.protocol.rounds| - 1;
      JobNow(c, s, w, job).1 == Succeeds(c.plan[r], Settled(c, initial, r), JobPath(c, r, w, job))
  {
    var r := |s.protocol.rounds| - 1;
    DoingOne(c.workers, c.plan[r], Settled(c, initial, r), DoneFiles(c, r, Dones(c, s, r)),
             LeavesSoFar(c, r, AllHandled(c, s, r)), TreeOf(c, c.plan[r].op, w), job.directory, job.index);
  }

  lemma JobTakesEffect(c: Setup, initial: FS, s: System, w: nat, job: Job)
    requires Workable(c) && InPlace(c, initial, s) && w < c.workers && IsNewJob(c, s, w, job)
    ensures var r := |s.protocol.rounds| - 1;
      Midway(c, initial, r, JobNow(c, s, w, job).0,
             DoneFiles(c, r, Dones(c, s, r)) + {JobPath(c, r, w, job)}, LeavesSoFar(c, r, AllHandled(c, s, r)))
  {
    var r := |s.protocol.rounds| - 1;
    DoingOne(c.workers, c.plan[r], Settled(c, initial, r), DoneFiles(c, r, Dones(c, s, r)),
             LeavesSoFar(c, r, AllHandled(c, s, r)), TreeOf(c, c.plan[r].op, w), job.directory, job.index);
  }

  lemma FileDone(c: Setup, initial: FS, s: System, w: nat, job: Job, site: Site)
    requires Workable(c) && InPlace(c, initial, s) && w < c.workers && IsNewJob(c, s, w, job)
    requires s.protocol.links[w].inits == |s.protocol.rounds| && site.done == s.sites[w].done + [job]
    requires var n := |s.protocol.rounds|;
      Handled(c.plan[n - 1], s.protocol.links[w], site, n) == Handled(c.plan[n - 1], s.protocol.links[w], s.sites[w], n)
    ensures FSAt(c, initial, s.(fs := JobNow(c, s, w, job).0, sites := s.sites[w := site]), |s.protocol.rounds| - 1)
  {
    JobTakesEffect(c, initial, s, w, job);
    OneMoreJob(c, initial, s, w, JobNow(c, s, w, job).0, site, |s.protocol.rounds| - 1, job);
  }

  lemma JobLands(c: Setup, s: System, w: nat, i: nat)
    requires AtWork(c, s, w) && Can(c, s, PoolMoves(w, Do(i)))
    ensures var n, site := |s.protocol.rounds|, LocalNext(c, s, PoolMoves(w, Do(i))).1;
      && SiteInv(c, s.protocol.links[w], site)
      && Handled(c.plan[n - 1], s.protocol.links[w], site, n) == Handled(c.plan[n - 1], s.protocol.links[w], s.sites[w], n)
  {
    JobExecutes(c, s, w, i);
    SiteAfterJob(c, s.protocol.links[w], s.sites[w], LocalNext(c, s, PoolMoves(w, Do(i))).1, i);
  }

  lemma DoJobLocally(c: Setup, initial: FS, s: System, w: nat, i: nat)
    requires Workable(c) && AtWork(c, s, w) && InPlace(c, initial, s) && SitesInv(c, s.protocol.links, s.sites)
    requires Can(c, s, PoolMoves(w, Do(i)))
    ensures var (fs, site) := LocalNext(c, s, PoolMoves(w, Do(i))); StaysAtWork(c, initial, s, w, fs, site)
  {
    JobExecutes(c, s, w, i);
    JobLands(c, s, w, i);
    NextJobIsNew(c, s, w, i);
    FileDone(c, initial, s, w, s.sites[w].activity.pool.clients[i].job, LocalNext(c, s, PoolMoves(w, Do(i))).1);
  }

  /** What any other move of a client does. */
  lemma MoverMoves(c: Setup, s: System, w: nat, move: PoolStep)
    requires AtWork(c, s, w) && Can(c, s, PoolMoves(w, move)) && !move.Do?
    ensures var site := s.sites[w].(activity := Running(PoolNext(s.sites[w].activity.pool, move)));
      && s.sites[w].activity.Running?
      && LocalNext(c, s, PoolMoves(w, move)).0 == s.fs && LocalNext(c, s, PoolMoves(w, move)).1 == site
      && SiteInv(c, s.protocol.links[w], LocalNext(c, s, PoolMoves(w, move)).1)
  {
    SiteAfterMoving(c, s.protocol.links[w], s.sites[w], move);
  }

  lemma MoveLands(c: Setup, initial: FS, s: System, w: nat, fs: FS, site: Site)
    requires InPlace(c, initial, s) && w < c.workers && s.sites[w].activity.Running? && site.activity.Running?
    requires fs == s.fs && site.done == s.sites[w].done && site.made == s.sites[w].made
    ensures FSAt(c, initial, s.(fs := fs, sites := s.sites[w := site]), |s.protocol.rounds| - 1)
  {
    NothingMore(c, initial, s, w, site, |s.protocol.rounds| - 1);
  }

  lemma PoolMovesLocally(c: Setup, initial: FS, s: System, w: nat, move: PoolStep)
    requires AtWork(c, s, w) && InPlace(c, initial, s) && Can(c, s, PoolMoves(w, move)) && !move.Do?
    ensures var (fs, site) := LocalNext(c, s, PoolMoves(w, move)); StaysAtWork(c, initial, s, w, fs, site)
  {
    MoverMoves(c, s, w, move);
    MoveLands(c, initial, s, w, LocalNext(c, s, PoolMoves(w, move)).0, LocalNext(c, s, PoolMoves(w, move)).1);
  }

  // ----- ... removing a leaf directory

  /** What a worker does when it removes a directory. */
  lemma CleanerRemoves(c: Setup, s: System, w: nat)
    requires AtWork(c, s, w) && Can(c, s, CleanDirectory(w))
    ensures var n, k := |s.protocol.rounds|, Cleaned(s.sites[w].activity);
      && Clears(c.plan[n - 1]) && k < QueueLength(c.plan[n - 1])
      && LocalNext(c, s, CleanDirectory(w)).0 == Remove(s.fs, LeafAt(c, n - 1, w, k)).0
      && LocalNext(c, s, CleanDirectory(w)).1 == s.sites[w].(activity := Cleaning(k + 1))
      && Handled(c.plan[n - 1], s.protocol.links[w], LocalNext(c, s, CleanDirectory(w)).1, n) == k + 1
  {
  }

  lemma LeafToCome(c: Setup, s: System, w: nat, r: nat)
    requires Fits(c, s) && SitesInv(c, s.protocol.links, s.sites) && w < c.workers && r < |c.plan| && c.plan[r].shape.depth > 0
    requires AllHandled(c, s, r)[w] < QueueLength(c.plan[r])
    ensures LeafAt(c, r, w, AllHandled(c, s, r)[w]) !in LeavesSoFar(c, r, AllHandled(c, s, r))
  {
    HandledBound(c, s, r);
    LeafIsNew(c, r, AllHandled(c, s, r), w);
  }

  /** The leaf directory `w` has to remove next: its files have been dealt with, and it has not been removed before. */
  predicate IsDueLeaf(c: Setup, s: System, w: nat, k: nat)
    requires Fits(c, s) && 0 < |s.protocol.rounds| <= |c.plan| && w < c.workers
  {
    var r := |s.protocol.rounds| - 1;
    && Clears(c.plan[r]) && AllHandled(c, s, r)[w] == k < QueueLength(c.plan[r])
    && FilesDone(c.plan[r].shape, TreeOf(c, c.plan[r].op, w), k, DoneFiles(c, r, Dones(c, s, r)))
    && LeafAt(c, r, w, k) !in LeavesSoFar(c, r, AllHandled(c, s, r))
  }

  lemma NextLeafIsDue(c: Setup, s: System, w: nat)
    requires AtWork(c, s, w) && SitesInv(c, s.protocol.links, s.sites) && Can(c, s, CleanDirectory(w))
    requires Runnable(c.plan[|s.protocol.rounds| - 1])
    ensures IsDueLeaf(c, s, w, Cleaned(s.sites[w].activity))
  {
    CleanerIsThrough(c, s, w);
    LeafToCome(c, s, w, |s.protocol.rounds| - 1);
  }

  /** Removing it succeeds if and only if it would have when all the files of the round had been deleted. */
  lemma CleaningHere(c: Setup, initial: FS, s: System, w: nat, k: nat)
    requires Workable(c) && InPlace(c, initial, s) && w < c.workers && IsDueLeaf(c, s, w, k)
    ensures var r, leaf := |s.protocol.rounds| - 1, LeafAt(c, |s.protocol.rounds| - 1, w, k);
      Remove(s.fs, leaf).1 == Clearable(c.workers, c.plan[r], Settled(c, initial, r), leaf)
  {
    var r := |s.protocol.rounds| - 1;
    ClearingOne(c.workers, c.plan[r], Settled(c, initial, r), DoneFiles(c, r, Dones(c, s, r)),
                LeavesSoFar(c, r, AllHandled(c, s, r)), TreeOf(c, c.plan[r].op, w), k);
  }

  lemma CleaningTakesEffect(c: Setup, initial: FS, s: System, w: nat, k: nat)
    requires Workable(c) && InPlace(c, initial, s) && w < c.workers && IsDueLeaf(c, s, w, k)
    ensures var r, leaf := |s.protocol.rounds| - 1, LeafAt(c, |s.protocol.rounds| - 1, w, k);
      Midway(c, initial, r, Remove(s.fs, leaf).0, DoneFiles(c, r, Dones(c, s, r)), LeavesSoFar(c, r, AllHandled(c, s, r)) + {leaf})
  {
    var r := |s.protocol.rounds| - 1;
    ClearingOne(c.workers, c.plan[r], Settled(c, initial, r), DoneFiles(c, r, Dones(c, s, r)),
                LeavesSoFar(c, r, AllHandled(c, s, r)), TreeOf(c, c.plan[r].op, w), k);
  }

  lemma LeafRemoved(c: Setup, initial: FS, s: System, w: nat, site: Site, k: nat)
    requires Workable(c) && InPlace(c, initial, s) && w < c.workers && IsDueLeaf(c, s, w, k) && site.done == s.sites[w].done
    requires var n := |s.protocol.rounds|; Handled(c.plan[n - 1], s.protocol.links[w], site, n) == k + 1
    ensures var r := |s.protocol.rounds| - 1;
      FSAt(c, initial, s.(fs := Remove(s.fs, LeafAt(c, r, w, k)).0, sites := s.sites[w := site]), r)
  {
    var r := |s.protocol.rounds| - 1;
    CleaningTakesEffect(c, initial, s, w, k);
    OneMoreLeaf(c, initial, s, w, Remove(s.fs, LeafAt(c, r, w, k)).0, site, r);
  }

  lemma CleanerLands(c: Setup, s: System, w: nat)
    requires AtWork(c, s, w) && Can(c, s, CleanDirectory(w)) && c.plan[|s.protocol.rounds| - 1].threads > 0
    ensures SiteInv(c, s.protocol.links[w], LocalNext(c, s, CleanDirectory(w)).1)
  {
    SiteAfterCleaning(c, s.protocol.links[w], s.sites[w]);
  }

  lemma CleanDirectoryLocally(c: Setup, initial: FS, s: System, w: nat)
    requires Workable(c) && AtWork(c, s, w) && InPlace(c, initial, s) && SitesInv(c, s.protocol.links, s.sites)
    requires Can(c, s, CleanDirectory(w))
    ensures var (fs, site) := LocalNext(c, s, CleanDirectory(w)); StaysAtWork(c, initial, s, w, fs, site)
  {
    CleanerRemoves(c, s, w);
    CleanerLands(c, s, w);
    NextLeafIsDue(c, s, w);
    LeafRemoved(c, initial, s, w, LocalNext(c, s, CleanDirectory(w)).1, Cleaned(s.sites[w].activity));
  }

  lemma BusyIsInPlace(c: Setup, initial: FS, s: System)
    requires Fits(c, s) && SitesInv(c, s.protocol.links, s.sites) && FSInv(c, initial, s) && s.protocol.rounds != []
    ensures InPlace(c, initial, s)
  {
    AlwaysInRound(c, s, |s.protocol.rounds| - 1);
  }

  lemma LocalActLands(c: Setup, initial: FS, s: System, act: Act)
    requires Workable(c) && RunInv(c, initial, s) && Can(c, s, act) && !act.Protocol?
    ensures s.protocol.rounds != []
    ensures var (fs, site) := LocalNext(c, s, act); StaysAtWork(c, initial, s, act.w, fs, site)
  {
    BusyIsAtWork(c, s, act.w);
    BusyIsInPlace(c, initial, s);
    match act {
      case MakeDirectory(w) => MakeDirectoryLocally(c, initial, s, w);
      case CleanDirectory(w) => CleanDirectoryLocally(c, initial, s, w);
      case PoolMoves(w, move) =>
        if move.Do? {
          DoJobLocally(c, initial, s, w, move.i);
        } else {
          PoolMovesLocally(c, initial, s, w, move);
        }
    }
  }

  lemma SiteChanges(c: Setup, links: seq<P.Link>, sites: seq<Site>, w: nat, site: Site)
    requires SitesInv(c, links, sites) && w < c.workers && SiteInv(c, links[w], site)
    ensures SitesInv(c, links, sites[w := site])
  {
  }

  lemma FSChanges(c: Setup, initial: FS, s: System, w: nat, fs: FS, site: Site)
    requires Fits(c, s) && w < c.workers && s.protocol.rounds != [] && StaysAtWork(c, initial, s, w, fs, site)
    ensures FSInv(c, initial, s.(fs := fs, sites := s.sites[w := site])) && SiteInv(c, s.protocol.links[w], site)
  {
  }

  lemma LocalActKeepsSites(c: Setup, initial: FS, s: System, act: Act)
    requires Workable(c) && RunInv(c, initial, s) && Can(c, s, act) && !act.Protocol?
    ensures var s' := Next(c, s, act); SitesInv(c, s'.protocol.links, s'.sites) && FSInv(c, initial, s')
  {
    var (fs, site) := LocalNext(c, s, act);
    LocalActLands(c, initial, s, act);
    FSChanges(c, initial, s, act.w, fs, site);
    SiteChanges(c, s.protocol.links, s.sites, act.w, site);
  }

  lemma LocalActKeepsInv(c: Setup, initial: FS, s: System, act: Act)
    requires Workable(c) && RunInv(c, initial, s) && Can(c, s, act) && !act.Protocol?
    ensures RunInv(c, initial, Next(c, s, act))
  {
    LocalActKeepsSites(c, initial, s, act);
  }

  // ----- Protocol steps keep the invariant

  /** What the worker's side of the invariant looks at. */
  predicate SameWorker(l: P.Link, l': P.Link) {
    l'.inits == l.inits && l'.worker == l.worker && l'.reports == l.reports
  }

  lemma OthersLeaveWorkers(c: Setup, s: P.State, step: P.Step)
    requires P.Shaped(c, s) && P.Enabled(c, s, step) && !P.IsWorkerStep(step)
    ensures forall w :: 0 <= w < c.workers ==> SameWorker(s.links[w], P.Apply(c, s, step).links[w])
    ensures !step.BeginRound? ==> |P.Apply(c, s, step).rounds| == |s.rounds|
    ensures step.BeginRound? ==> P.Apply(c, s, step).links == s.links
  {
  }

  lemma SitesStay(c: Setup, links: seq<P.Link>, links': seq<P.Link>, sites: seq<Site>)
    requires SitesInv(c, links, sites) && |links'| == c.workers
    requires forall w :: 0 <= w < c.workers ==> SameWorker(links[w], links'[w])
    ensures SitesInv(c, links', sites)
  {
    forall w | 0 <= w < c.workers ensures SiteInv(c, links'[w], sites[w]) {
      assert SiteInv(c, links[w], sites[w]) && SameWorker(links[w], links'[w]);
    }
  }

  lemma SameDones(c: Setup, s: System, s': System, r: nat)
    requires Fits(c, s) && Fits(c, s')
    requires forall w :: 0 <= w < c.workers ==>
      DoneIn(s'.protocol.links[w], s'.sites[w], r + 1) == DoneIn(s.protocol.links[w], s.sites[w], r + 1)
    ensures Dones(c, s', r) == Dones(c, s, r)
  {
  }

  lemma HandledAlike(c: Setup, s: System, s': System, r: nat)
    requires Fits(c, s) && Fits(c, s') && r < |c.plan|
    requires forall w :: 0 <= w < c.workers ==>
      Handled(c.plan[r], s'.protocol.links[w], s'.sites[w], r + 1) == Handled(c.plan[r], s.protocol.links[w], s.sites[w], r + 1)
    ensures AllHandled(c, s', r) == AllHandled(c, s, r)
  {
  }

  /** The same jobs are done, and the same leaf directories dealt with, at one worker. */
  predicate SameProgress(c: Setup, n: nat, l: P.Link, site: Site, l': P.Link, site': Site)
    requires 0 < n <= |c.plan|
  {
    DoneIn(l', site', n) == DoneIn(l, site, n) && Handled(c.plan[n - 1], l', site', n) == Handled(c.plan[n - 1], l, site, n)
  }

  predicate EverybodyAsBefore(c: Setup, n: nat, s: System, s': System)
    requires Fits(c, s) && Fits(c, s') && 0 < n <= |c.plan|
  {
    forall w :: 0 <= w < c.workers ==> SameProgress(c, n, s.protocol.links[w], s.sites[w], s'.protocol.links[w], s'.sites[w])
  }

  lemma SameSoFar(c: Setup, s: System, s': System, n: nat)
    requires Fits(c, s) && Fits(c, s') && 0 < n <= |c.plan| && EverybodyAsBefore(c, n, s, s')
    ensures Dones(c, s', n - 1) == Dones(c, s, n - 1) && AllHandled(c, s', n - 1) == AllHandled(c, s, n - 1)
  {
    forall w | 0 <= w < c.workers
      ensures DoneIn(s'.protocol.links[w], s'.sites[w], n) == DoneIn(s.protocol.links[w], s.sites[w], n)
      ensures Handled(c.plan[n - 1], s'.protocol.links[w], s'.sites[w], n) == Handled(c.plan[n - 1], s.protocol.links[w], s.sites[w], n)
    {
      assert SameProgress(c, n, s.protocol.links[w], s.sites[w], s'.protocol.links[w], s'.sites[w]);
    }
    SameDones(c, s, s', n - 1);
    HandledAlike(c, s, s', n - 1);
  }

  lemma SameFS(c: Setup, initial: FS, s: System, s': System, r: nat)
    requires Fits(c, s) && Fits(c, s') && r < |c.plan| && FSAt(c, initial, s, r) && s'.fs == s.fs
    requires Dones(c, s', r) == Dones(c, s, r) && AllHandled(c, s', r) == AllHandled(c, s, r)
    ensures FSAt(c, initial, s', r)
  {
  }

  lemma UntouchedAt(c: Setup, initial: FS, s: System, s': System, n: nat)
    requires Fits(c, s) && Fits(c, s') && 0 < n <= |c.plan| && FSAt(c, initial, s, n - 1) && s'.fs == s.fs
    requires EverybodyAsBefore(c, n, s, s')
    ensures FSAt(c, initial, s', n - 1)
  {
    SameSoFar(c, s, s', n);
    SameFS(c, initial, s, s', n - 1);
  }

  lemma Untouched(c: Setup, initial: FS, s: System, s': System, n: nat)
    requires Fits(c, s) && Fits(c, s') && FSBefore(c, initial, s, n) && s'.fs == s.fs
    requires n > 0 ==> EverybodyAsBefore(c, n, s, s')
    ensures FSBefore(c, initial, s', n)
  {
    if n > 0 {
      UntouchedAt(c, initial, s, s', n);
    }
  }

  lemma OthersProgressNothing(c: Setup, s: System, step: P.Step)
    requires Fits(c, s) && Can(c, s, Protocol(step)) && !P.IsWorkerStep(step)
    ensures var s' := Next(c, s, Protocol(step));
      s.protocol.rounds != [] ==> EverybodyAsBefore(c, |s.protocol.rounds|, s, s')
  {
    OthersLeaveWorkers(c, s.protocol, step);
    var s' := Next(c, s, Protocol(step));
    if s.protocol.rounds != [] {
      forall w | 0 <= w < c.workers
        ensures SameProgress(c, |s.protocol.rounds|, s.protocol.links[w], s.sites[w], s'.protocol.links[w], s'.sites[w])
      {
        assert SameWorker(s.protocol.links[w], s'.protocol.links[w]);
      }
    }
  }

  lemma OtherStepKeepsInv(c: Setup, initial: FS, s: System, step: P.Step)
    requires RunInv(c, initial, s) && Can(c, s, Protocol(step)) && !P.IsWorkerStep(step) && !step.BeginRound?
    ensures RunInv(c, initial, Next(c, s, Protocol(step)))
  {
    var s' := Next(c, s, Protocol(step));
    S.StepKeepsInv(c, s.protocol, step);
    OthersLeaveWorkers(c, s.protocol, step);
    SitesStay(c, s.protocol.links, s'.protocol.links, s.sites);
    OthersProgressNothing(c, s, step);
    Untouched(c, initial, s, s', |s.protocol.rounds|);
  }

  // ----- ... from one round to the next

  lemma AllDoneFiles(c: Setup, r: nat, dones: seq<seq<Job>>)
    requires c.workers >= 1 && r < |c.plan| && |dones| == c.workers
    requires forall w :: 0 <= w < c.workers ==> AllDone(c.plan[r], dones[w])
    ensures DoneFiles(c, r, dones) == AllFiles(c.workers, c.plan[r].shape)
  {
    var all := AllFiles(c.workers, c.plan[r].shape);
    forall p ensures p in DoneFiles(c, r, dones) <==> p in all {
      DoneBySome(c, r, dones, p);
      if p in DoneFiles(c, r, dones) {
        var w :| 0 <= w < |dones| && p in DoneBy(c, r, w, dones[w]);
        DoneIsAFile(c, r, w, dones[w], p);
      }
      if p in all {
        var w := FileIsDone(c, r, dones, p);
      }
    }
  }

  lemma DoneIsAFile(c: Setup, r: nat, w: nat, done: seq<Job>, p: Path)
    requires c.workers >= 1 && r < |c.plan| && w < c.workers && AllDone(c.plan[r], done) && p in DoneBy(c, r, w, done)
    ensures p in AllFiles(c.workers, c.plan[r].shape)
  {
    var j :| 0 <= j < |done| && p == JobPath(c, r, w, done[j]);
    JobsExactly(QueueLength(c.plan[r]), c.plan[r].shape.files, done[j]);
    assert multiset(done)[done[j]] > 0;
    NextTree(w, c.workers);
  }

  lemma FileIsDone(c: Setup, r: nat, dones: seq<seq<Job>>, p: Path) returns (w: nat)
    requires c.workers >= 1 && r < |c.plan| && |dones| == c.workers && p in AllFiles(c.workers, c.plan[r].shape)
    requires forall w :: 0 <= w < c.workers ==> AllDone(c.plan[r], dones[w])
    ensures w < c.workers && p in DoneBy(c, r, w, dones[w])
  {
    var shape := c.plan[r].shape;
    var tree, k, i :| 0 <= tree < c.workers && 0 <= k < LeafCount(shape) && 0 <= i < shape.files && p == FilePath(shape, tree, k, i);
    w := TreesArePermutation(c, c.plan[r].op, tree);
    JobsExactly(LeafCount(shape), shape.files, Job(k, i));
    assert multiset(dones[w])[Job(k, i)] == 1;
    var j :| 0 <= j < |dones[w]| && dones[w][j] == Job(k, i);
  }

  /** Between two rounds, everybody has done everything. */
  lemma RestingIsDone(c: Setup, s: System, w: nat)
    requires Fits(c, s) && I.LinksInv(c, s.protocol) && SitesInv(c, s.protocol.links, s.sites) && s.protocol.server == P.Between
    requires w < c.workers && s.protocol.rounds != []
    ensures s.protocol.links[w].inits == |s.protocol.rounds|
    ensures AllDone(c.plan[|s.protocol.rounds| - 1], s.sites[w].done)
  {
    assert I.LinkHolds(c, s.protocol, w);
    assert SiteInv(c, s.protocol.links[w], s.sites[w]);
  }

  lemma RestingFiles(c: Setup, s: System)
    requires Fits(c, s) && I.LinksInv(c, s.protocol) && SitesInv(c, s.protocol.links, s.sites) && s.protocol.server == P.Between
    requires s.protocol.rounds != []
    ensures var r := |s.protocol.rounds| - 1; DoneFiles(c, r, Dones(c, s, r)) == AllFiles(c.workers, c.plan[r].shape)
  {
    var r := |s.protocol.rounds| - 1;
    var dones := Dones(c, s, r);
    forall w | 0 <= w < c.workers ensures AllDone(c.plan[r], dones[w]) {
      RestingIsDone(c, s, w);
    }
    AllDoneFiles(c, r, dones);
  }

  lemma RestingHasReported(c: Setup, p: P.State, w: nat)
    requires P.Shaped(c, p) && I.LinksInv(c, p) && p.server == P.Between && w < c.workers
    ensures p.links[w].inits == |p.links[w].reports| == |p.rounds|
  {
    assert I.LinkHolds(c, p, w);
  }

  /** A worker that has reported a round has made or removed all its leaf directories. */
  lemma ReportedHasHandled(c: Setup, l: P.Link, site: Site, n: nat)
    requires SiteInv(c, l, site) && 0 < n == l.inits == |l.reports|
    ensures c.plan[n - 1].op == Write || Clears(c.plan[n - 1]) ==> Handled(c.plan[n - 1], l, site, n) == QueueLength(c.plan[n - 1])
  {
  }

  /** ... and every leaf directory has been dealt with. */
  lemma RestingLeaves(c: Setup, s: System)
    requires Fits(c, s) && I.LinksInv(c, s.protocol) && SitesInv(c, s.protocol.links, s.sites) && s.protocol.server == P.Between
    requires s.protocol.rounds != []
    ensures var r := |s.protocol.rounds| - 1; LeavesSoFar(c, r, AllHandled(c, s, r)) == LeavesOf(c.workers, c.plan[r])
  {
    var r := |s.protocol.rounds| - 1;
    if c.plan[r].op == Write || Clears(c.plan[r]) {
      forall w | 0 <= w < c.workers ensures AllHandled(c, s, r)[w] == QueueLength(c.plan[r]) {
        RestingHasReported(c, s.protocol, w);
        SiteHolds(c, s.protocol.links, s.sites, w);
        ReportedHasHandled(c, s.protocol.links[w], s.sites[w], r + 1);
      }
      EverythingHandled(c, r, AllHandled(c, s, r));
    } else {
      NothingHandled(c, r, AllHandled(c, s, r));
    }
  }

  /** The file system is the one the plan says before round `n`. */
  predicate IsSettled(c: Setup, initial: FS, fs: FS, n: nat)
    requires forall q :: 0 <= q < |c.plan| ==> SizesValid(c.plan[q].shape)
  {
    n <= |c.plan| && fs == Settled(c, initial, n)
  }

  lemma SettledWhenAllDone(c: Setup, initial: FS, s: System, n: nat)
    requires Fits(c, s) && FSBefore(c, initial, s, n)
    requires n > 0 ==>
      && DoneFiles(c, n - 1, Dones(c, s, n - 1)) == AllFiles(c.workers, c.plan[n - 1].shape)
      && LeavesSoFar(c, n - 1, AllHandled(c, s, n - 1)) == LeavesOf(c.workers, c.plan[n - 1])
    ensures IsSettled(c, initial, s.fs, n)
  {
  }

  /** Between two rounds the file system is exactly the one the plan says, however the steps were interleaved. */
  lemma SettledBetweenRounds(c: Setup, initial: FS, s: System)
    requires Fits(c, s) && I.LinksInv(c, s.protocol) && SitesInv(c, s.protocol.links, s.sites) && FSInv(c, initial, s)
    requires s.protocol.server == P.Between
    ensures IsSettled(c, initial, s.fs, |s.protocol.rounds|)
  {
    if s.protocol.rounds != [] {
      RestingFiles(c, s);
      RestingLeaves(c, s);
    }
    SettledWhenAllDone(c, initial, s, |s.protocol.rounds|);
  }

  lemma SettledIsTheStart(c: Setup, initial: FS, r: nat, fs: FS)
    requires r < |c.plan| && forall q :: 0 <= q < |c.plan| ==> SizesValid(c.plan[q].shape)
    requires IsSettled(c, initial, fs, r)
    ensures Midway(c, initial, r, fs, {}, {})
  {
    NothingYet(c.workers, c.plan[r], Settled(c, initial, r));
  }

  lemma BeginRoundStarts(c: Setup, initial: FS, s': System)
    requires Fits(c, s') && s'.protocol.rounds != [] && IsSettled(c, initial, s'.fs, |s'.protocol.rounds| - 1)
    requires forall w :: 0 <= w < c.workers ==> s'.protocol.links[w].inits < |s'.protocol.rounds|
    ensures FSInv(c, initial, s')
  {
    var r := |s'.protocol.rounds| - 1;
    NothingDone(c, r, Dones(c, s', r));
    NothingHandled(c, r, AllHandled(c, s', r));
    SettledIsTheStart(c, initial, r, s'.fs);
  }

  lemma RestingInits(c: Setup, p: P.State)
    requires P.Shaped(c, p) && I.LinksInv(c, p) && p.server == P.Between
    ensures forall w :: 0 <= w < c.workers ==> p.links[w].inits == |p.rounds|
  {
    forall w | 0 <= w < c.workers ensures p.links[w].inits == |p.rounds| {
      assert I.LinkHolds(c, p, w);
    }
  }

  lemma BeginRoundKeepsSites(c: Setup, s: System)
    requires Fits(c, s) && Can(c, s, Protocol(P.BeginRound)) && SitesInv(c, s.protocol.links, s.sites)
    ensures var s' := Next(c, s, Protocol(P.BeginRound)); SitesInv(c, s'.protocol.links, s'.sites) && s'.fs == s.fs
  {
  }

  lemma BeginRoundKeepsFS(c: Setup, initial: FS, s: System, s': System)
    requires Fits(c, s) && I.LinksInv(c, s.protocol) && SitesInv(c, s.protocol.links, s.sites) && FSInv(c, initial, s)
    requires s.protocol.server == P.Between && Fits(c, s') && s'.fs == s.fs && s'.protocol.links == s.protocol.links
    requires |s'.protocol.rounds| - 1 == |s.protocol.rounds|
    ensures FSInv(c, initial, s')
  {
    RestingInits(c, s.protocol);
    SettledBetweenRounds(c, initial, s);
    BeginRoundStarts(c, initial, s');
  }

  lemma BeginRoundKeepsInv(c: Setup, initial: FS, s: System)
    requires RunInv(c, initial, s) && Can(c, s, Protocol(P.BeginRound))
    ensures RunInv(c, initial, Next(c, s, Protocol(P.BeginRound)))
  {
    S.StepKeepsInv(c, s.protocol, P.BeginRound);
    BeginRoundKeepsSites(c, s);
    BeginRoundKeepsFS(c, initial, s, Next(c, s, Protocol(P.BeginRound)));
  }

  // ----- ... and at one worker

  /** What a worker can have received: the "init" of the round under way, or leave to start on it. */
  lemma ReceivedWhat(c: Setup, h: P.Handler, l: P.Link, r: nat, w: nat)
    requires c.workers >= 1 && r < |c.plan| && I.LinkInv(c, h, l, r, w) && l.worker == P.Idle && l.toWorker != []
    requires LeafCount(c.plan[r].shape) > 0
    ensures var l' := P.Accept(c, l);
      && l'.reports == l.reports && |l.reports| == r && l'.inits == r + 1
      && (if l.inits == r then l'.worker == P.Preparing else l.inits == r + 1 && l'.worker == P.Working && I.AssignedTo(c, l', r, w))
  {
  }

  lemma SiteAfterReceiving(c: Setup, l: P.Link, l': P.Link, site: Site, step: P.Step, r: nat)
    requires SiteInv(c, l, site) && r < |c.plan| && l.worker == P.Idle && step.WorkerReceives?
    requires l'.reports == l.reports && |l.reports| == r && l'.inits == r + 1
    requires if l.inits == r then l'.worker == P.Preparing
             else l.inits == r + 1 && l'.worker == P.Working && Assigned(c, l') && l'.assignment.value.round == r
    ensures SiteInv(c, l', SiteAfter(c, l', site, step))
    ensures SameProgress(c, r + 1, l, site, l', SiteAfter(c, l', site, step))
  {
    StartKeepsPoolInv(JobsOf(c.plan[r]), c.plan[r].threads);
  }

  lemma SiteAfterPreparing(c: Setup, l: P.Link, l': P.Link, site: Site, step: P.Step, r: nat)
    requires SiteInv(c, l, site) && r < |c.plan| && l.inits == l'.inits == r + 1 && |l.reports| == r
    requires step.FinishPreparations? && MayFinish(c, l, site, step) && l.assignment.value.round == r
    requires l.worker == P.Preparing && l'.worker == P.Idle && l'.reports == l.reports
    ensures SiteInv(c, l', SiteAfter(c, l', site, step))
    ensures SameProgress(c, r + 1, l, site, l', SiteAfter(c, l', site, step))
  {
  }

  /** A worker reports when it has removed all it has to. */
  lemma SiteAfterWorking(c: Setup, l: P.Link, l': P.Link, site: Site, step: P.Step, r: nat)
    requires SiteInv(c, l, site) && r < |c.plan| && l.inits == l'.inits == r + 1 && |l.reports| == r && c.plan[r].threads > 0
    requires step.FinishWork? && MayFinish(c, l, site, step) && l.assignment.value.round == r
    requires l.worker == P.Working && l'.worker == P.Idle && l'.reports == l.reports + [step.result]
    ensures SiteInv(c, l', SiteAfter(c, l', site, step))
    ensures SameProgress(c, r + 1, l, site, l', SiteAfter(c, l', site, step))
  {
    if site.activity.Running? {
      DrainedIsDone(c.plan[r], site);
    }
  }

  /** The worker's side after a step of its own, and what it has done in the round under way. */
  ghost predicate SiteKept(c: Setup, s: System, step: P.Step)
    requires Fits(c, s) && P.Enabled(c, s.protocol, step) && P.IsWorkerStep(step)
  {
    var l, l', site := s.protocol.links[step.w], P.WorkerStep(c, s.protocol.links[step.w], step), s.sites[step.w];
    && SiteInv(c, l', SiteAfter(c, l', site, step))
    && (s.protocol.rounds != [] ==> SameProgress(c, |s.protocol.rounds|, l, site, l', SiteAfter(c, l', site, step)))
  }

  lemma ReceivingKeepsSite(c: Setup, s: System, w: nat)
    requires Fits(c, s) && I.LinksInv(c, s.protocol) && P.Enabled(c, s.protocol, P.WorkerReceives(w))
    requires forall r :: 0 <= r < |c.plan| ==> Runnable(c.plan[r])
    requires SiteInv(c, s.protocol.links[w], s.sites[w])
    ensures SiteKept(c, s, P.WorkerReceives(w))
  {
    assert I.LinkHolds(c, s.protocol, w);
    var r, l := |s.protocol.rounds| - 1, s.protocol.links[w];
    LeavesExist(c.plan[r].shape);
    ReceivedWhat(c, s.protocol.rounds[r].handlers[w], l, r, w);
    SiteAfterReceiving(c, l, P.Accept(c, l), s.sites[w], P.WorkerReceives(w), r);
  }

  lemma PreparingKeepsSite(c: Setup, s: System, step: P.Step)
    requires Fits(c, s) && I.Inv(c, s.protocol) && Can(c, s, Protocol(step)) && step.FinishPreparations?
    requires forall r :: 0 <= r < |c.plan| ==> Runnable(c.plan[r])
    requires SiteInv(c, s.protocol.links[step.w], s.sites[step.w])
    ensures SiteKept(c, s, step)
  {
    var l := s.protocol.links[step.w];
    BusyWorker(c, s.protocol, step.w);
    SiteAfterPreparing(c, l, P.WorkerStep(c, l, step), s.sites[step.w], step, |s.protocol.rounds| - 1);
  }

  lemma WorkingKeepsSite(c: Setup, s: System, step: P.Step)
    requires Fits(c, s) && I.Inv(c, s.protocol) && Can(c, s, Protocol(step)) && step.FinishWork?
    requires forall r :: 0 <= r < |c.plan| ==> Runnable(c.plan[r])
    requires SiteInv(c, s.protocol.links[step.w], s.sites[step.w])
    ensures SiteKept(c, s, step)
  {
    var l := s.protocol.links[step.w];
    BusyWorker(c, s.protocol, step.w);
    SiteAfterWorking(c, l, P.WorkerStep(c, l, step), s.sites[step.w], step, |s.protocol.rounds| - 1);
  }

  /** A worker that gives up, or loses its connection, has done what it has done. */
  lemma LeavingKeepsSite(c: Setup, s: System, step: P.Step)
    requires Fits(c, s) && P.Enabled(c, s.protocol, step) && (step.WorkerFails? || step.Drop?)
    requires SiteInv(c, s.protocol.links[step.w], s.sites[step.w])
    ensures SiteKept(c, s, step)
  {
  }

  lemma WorkerSiteKept(c: Setup, s: System, step: P.Step)
    requires Fits(c, s) && I.Inv(c, s.protocol) && Can(c, s, Protocol(step)) && P.IsWorkerStep(step)
    requires forall r :: 0 <= r < |c.plan| ==> Runnable(c.plan[r])
    requires SiteInv(c, s.protocol.links[step.w], s.sites[step.w])
    ensures SiteKept(c, s, step)
  {
    if step.WorkerReceives? {
      ReceivingKeepsSite(c, s, step.w);
    } else if step.FinishPreparations? {
      PreparingKeepsSite(c, s, step);
    } else if step.FinishWork? {
      WorkingKeepsSite(c, s, step);
    } else {
      LeavingKeepsSite(c, s, step);
    }
  }

  lemma LeavesExist(shape: Shape)
    requires shape.width >= 1
    ensures LeafCount(shape) > 0
  {
    PowPositive(shape.width, shape.depth);
  }

  lemma {:induction false} PowPositive(base: nat, exponent: nat)
    requires base >= 1
    ensures Pow(base, exponent) >= 1
  {
    if exponent > 0 {
      PowPositive(base, exponent - 1);
      ProductMonotone(base, 1, Pow(base, exponent - 1));
    }
  }

  lemma OneSiteMoves(c: Setup, s: System, step: P.Step)
    requires Fits(c, s) && Can(c, s, Protocol(step)) && P.IsWorkerStep(step)
    requires SitesInv(c, s.protocol.links, s.sites) && SiteKept(c, s, step)
    ensures var s' := Next(c, s, Protocol(step)); SitesInv(c, s'.protocol.links, s'.sites)
  {
    var s' := Next(c, s, Protocol(step));
    forall w | 0 <= w < c.workers ensures SiteInv(c, s'.protocol.links[w], s'.sites[w]) {
      SiteHolds(c, s.protocol.links, s.sites, w);
    }
  }

  lemma WorkerStepKeepsFS(c: Setup, initial: FS, s: System, step: P.Step)
    requires Fits(c, s) && Can(c, s, Protocol(step)) && P.IsWorkerStep(step) && FSInv(c, initial, s) && SiteKept(c, s, step)
    ensures FSInv(c, initial, Next(c, s, Protocol(step)))
  {
    Untouched(c, initial, s, Next(c, s, Protocol(step)), |s.protocol.rounds|);
  }

  lemma WorkerStepKeepsInv(c: Setup, initial: FS, s: System, step: P.Step)
    requires Workable(c) && RunInv(c, initial, s) && Can(c, s, Protocol(step)) && P.IsWorkerStep(step)
    ensures RunInv(c, initial, Next(c, s, Protocol(step)))
  {
    S.StepKeepsInv(c, s.protocol, step);
    SiteHolds(c, s.protocol.links, s.sites, step.w);
    WorkerSiteKept(c, s, step);
    OneSiteMoves(c, s, step);
    WorkerStepKeepsFS(c, initial, s, step);
  }

  // ----- All steps, all runs

  lemma ActKeepsInv(c: Setup, initial: FS, s: System, act: Act)
    requires Workable(c) && RunInv(c, initial, s) && Can(c, s, act)
    ensures RunInv(c, initial, Next(c, s, act))
  {
    if !act.Protocol? {
      LocalActKeepsInv(c, initial, s, act);
    } else if P.IsWorkerStep(act.step) {
      WorkerStepKeepsInv(c, initial, s, act.step);
    } else if act.step.BeginRound? {
      BeginRoundKeepsInv(c, initial, s);
    } else {
      OtherStepKeepsInv(c, initial, s, act.step);
    }
  }

  lemma {:induction false} EveryRunKeepsInv(c: Setup, initial: FS, acts: seq<Act>)
    requires Workable(c) && Run(c, initial, acts).Some?
    ensures RunInv(c, initial, Run(c, initial, acts).value)
  {
    if acts != [] {
      EveryRunKeepsInv(c, initial, acts[..|acts| - 1]);
      ActKeepsInv(c, initial, Run(c, initial, acts[..|acts| - 1]).value, acts[|acts| - 1]);
    }
  }
}
