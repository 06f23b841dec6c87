/** The whole benchmark as one step system: the round protocol, the clients of every worker, the file system they share
    and the counters they report from.  Any step of any part may come next. */
module BenchmarkRun {
  import opened Options
  import opened BenchmarkPlan
  import opened Counters
  import opened Reporting
  import opened WorkTree
  import opened FileSystem
  import opened ClientPool
  import P = RoundProtocol
  import WorkItems

  /** What a worker is busy with: making its directories, running its clients, or removing its directories. */
  datatype Activity = Quiet | Making(k: nat) | Running(pool: Pool) | Cleaning(k: nat)

  /** A worker process.  `made` and `done` are the history of its current round: directories made, and jobs executed. */
  datatype Site = Site(activity: Activity, counters: Registry, made: nat, done: seq<Job>)

  datatype System = System(protocol: P.State, fs: FS, sites: seq<Site>)

  datatype Act =
    | Protocol(step: P.Step)
    | MakeDirectory(w: nat)
    | PoolMoves(w: nat, move: PoolStep)
    | CleanDirectory(w: nat)

  // ----- The work of a round at one worker

  function QueueLength(round: Round): nat {
    LeafCount(round.shape)
  }

  function ToMake(round: Round): nat {
    if round.op == Write then QueueLength(round) else 0
  }

  function ToClean(round: Round): nat {
    if round.op == Delete && round.clearDirs then QueueLength(round) else 0
  }

  function JobsOf(round: Round): seq<Job> {
    Jobs(QueueLength(round), round.shape.files)
  }

  // ----- Steps

  function Begin(c: Setup, fs: FS): System {
    System(P.InitialState(c), fs, seq(c.workers, i => Site(Quiet, EMPTY_REGISTRY, 0, [])))
  }

  predicate Fits(c: Setup, s: System) {
    && P.Shaped(c, s.protocol) && |s.sites| == c.workers
    && forall r :: 0 <= r < |c.plan| ==> SizesValid(c.plan[r].shape)
  }

  predicate Assigned(c: Setup, l: P.Link) {
    l.assignment.Some? && l.assignment.value.round < |c.plan|
  }

  function RoundOf(c: Setup, l: P.Link): Round
    requires Assigned(c, l)
  {
    c.plan[l.assignment.value.round]
  }

  predicate IsDrained(activity: Activity) {
    activity.Running? && Drained(activity.pool)
  }

  /** How many directories have been removed; removing starts when the clients are done. */
  function Cleaned(activity: Activity): nat {
    if activity.Cleaning? then activity.k else 0
  }

  predicate Can(c: Setup, s: System, act: Act)
    requires Fits(c, s)
  {
    match act
    case Protocol(step) =>
      && P.Enabled(c, s.protocol, step)
      && (step.FinishPreparations? || step.FinishWork? ==> MayFinish(c, s.protocol.links[step.w], s.sites[step.w], step))
    case MakeDirectory(w) =>
      && w < c.workers && Assigned(c, s.protocol.links[w]) && s.sites[w].activity.Making?
      && s.sites[w].activity.k < ToMake(RoundOf(c, s.protocol.links[w]))
    case PoolMoves(w, move) => w < c.workers && Assigned(c, s.protocol.links[w]) && s.sites[w].activity.Running? && CanStep(s.sites[w].activity.pool, move)
    case CleanDirectory(w) =>
      && w < c.workers && Assigned(c, s.protocol.links[w]) && (IsDrained(s.sites[w].activity) || s.sites[w].activity.Cleaning?)
      && Cleaned(s.sites[w].activity) < ToClean(RoundOf(c, s.protocol.links[w]))
  }

  /** A worker answers when its directories are made, and reports its counters when its clients and the cleaning are done. */
  predicate MayFinish(c: Setup, l: P.Link, site: Site, step: P.Step) {
    && Assigned(c, l)
    && (step.FinishPreparations? ==> site.activity.Making? && site.activity.k == ToMake(RoundOf(c, l)))
    && (step.FinishWork? ==>
          && (IsDrained(site.activity) || site.activity.Cleaning?)
          && Cleaned(site.activity) == ToClean(RoundOf(c, l))
          && Reports(step.result, site.counters, l.assignment.value.testName))
  }

  /** The worker's part of a protocol step, `l` being its connection afterwards. */
  function SiteAfter(c: Setup, l: P.Link, site: Site, step: P.Step): Site {
    match step
    case WorkerReceives(_) =>
      if l.worker == P.Preparing then site.(activity := Making(0), made := 0, done := [])
      else if l.worker == P.Working && Assigned(c, l) then
        site.(activity := Running(Start(JobsOf(RoundOf(c, l)), RoundOf(c, l).threads)))
      else site
    case FinishPreparations(_) => site.(activity := Quiet)
    case FinishWork(_, _) => site.(activity := Quiet)
    case _ => site
  }

  function ProtocolNext(c: Setup, s: System, step: P.Step): (s': System)
    requires Fits(c, s) && P.Enabled(c, s.protocol, step)
    ensures Fits(c, s')
  {
    var protocol := P.Apply(c, s.protocol, step);
    if P.IsWorkerStep(step) then
      System(protocol, s.fs, s.sites[step.w := SiteAfter(c, protocol.links[step.w], s.sites[step.w], step)])
    else s.(protocol := protocol)
  }

  function MakeNext(round: Round, a: P.Assignment, fs: FS, site: Site): (FS, Site)
    requires site.activity.Making?
  {
    var k := site.activity.k;
    var (fs', ok) := MakeAll(fs, Leaf(round.shape, a.tree, k));
    (fs', site.(activity := Making(k + 1), made := site.made + 1, counters := WorkItems.CountMkdir(site.counters, ok, a.testName)))
  }

  /** A move of a client: only doing a job touches anything outside the pool. */
  function PoolMoveNext(round: Round, a: P.Assignment, fs: FS, site: Site, move: PoolStep): (FS, Site)
    requires site.activity.Running? && CanStep(site.activity.pool, move)
    requires SizesValid(round.shape)
  {
    var pool := PoolNext(site.activity.pool, move);
    if move.Do? then
      var job := site.activity.pool.clients[move.i].job;
      var (fs', ok) := WorkItems.Execute(round.op, fs, round.shape, Leaf(round.shape, a.tree, job.directory), job.index);
      (fs', site.(activity := Running(pool), done := site.done + [job],
                  counters := WorkItems.Count(site.counters, round.op, ok, a.testName, round.shape.size)))
    else (fs, site.(activity := Running(pool)))
  }

  function CleanNext(round: Round, a: P.Assignment, fs: FS, site: Site): (FS, Site) {
    var k := Cleaned(site.activity);
    (Remove(fs, Leaf(round.shape, a.tree, k)).0, site.(activity := Cleaning(k + 1)))
  }

  /** The effect of a worker's own step on the file system and on itself. */
  function LocalNext(c: Setup, s: System, act: Act): (FS, Site)
    requires Fits(c, s) && Can(c, s, act) && !act.Protocol?
  {
    var l := s.protocol.links[act.w];
    var round, a, site := RoundOf(c, l), l.assignment.value, s.sites[act.w];
    match act
    case MakeDirectory(_) => MakeNext(round, a, s.fs, site)
    case PoolMoves(_, move) => PoolMoveNext(round, a, s.fs, site, move)
    case CleanDirectory(_) => CleanNext(round, a, s.fs, site)
  }

  function Next(c: Setup, s: System, act: Act): (s': System)
    requires Fits(c, s) && Can(c, s, act)
    ensures Fits(c, s')
  {
    if act.Protocol? then ProtocolNext(c, s, act.step)
    else
      var (fs, site) := LocalNext(c, s, act);
      s.(fs := fs, sites := s.sites[act.w := site])
  }

  /** The system after a sequence of steps, or None if one of them could not be taken. */
  function Run(c: Setup, fs: FS, acts: seq<Act>): (r: Option<System>)
    requires c.Valid()
    requires forall r :: 0 <= r < |c.plan| ==> SizesValid(c.plan[r].shape)
    ensures r.Some? ==> Fits(c, r.value)
  {
    if acts == [] then Some(Begin(c, fs))
    else
      var before := Run(c, fs, acts[..|acts| - 1]);
      var act := acts[|acts| - 1];
      if before.Some? && Can(c, before.value, act) then Some(Next(c, before.value, act)) else None
  }
}
