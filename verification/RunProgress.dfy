/** Progress of a benchmark run: nobody waits for ever, and every run that is not cut short by a dropped connection
    takes the same number of steps, whether operations fail or not. */
module RunProgress {
  import opened Arithmetic
  import opened Options
  import opened BenchmarkPlan
  import opened BenchmarkResults
  import opened Counters
  import opened FileSystem
  import opened ClientPool
  import opened RoundFiles
  import opened BenchmarkRun
  import opened RunInvariant
  import opened RunSteps
  import P = RoundProtocol
  import I = ProtocolInvariant
  import G = ProtocolProgress
  import V = ProtocolRecovery

  /** The steps of the clients of one worker in a round, and of the cleaning after them. */
  function WorkSteps(round: Round): nat {
    3 * |JobsOf(round)| + 2 * round.threads + ToClean(round)
  }

  function MakingFrom(plan: seq<Round>, n: nat): nat
    decreases |plan| - n
  {
    if n >= |plan| then 0 else ToMake(plan[n]) + MakingFrom(plan, n + 1)
  }

  function WorkingFrom(plan: seq<Round>, n: nat): nat
    decreases |plan| - n
  {
    if n >= |plan| then 0 else WorkSteps(plan[n]) + WorkingFrom(plan, n + 1)
  }

  /** The steps a worker has still to make in what it is busy with. */
  function ActivityLeft(round: Round, activity: Activity): int {
    match activity
    case Quiet => 0
    case Making(k) => ToMake(round) - k
    case Running(pool) => PoolLeft(pool) + ToClean(round)
    case Cleaning(k) => ToClean(round) - k
  }

  /** The steps of its own a worker has still to make. */
  function SiteLeft(c: Setup, l: P.Link, site: Site): int {
    MakingFrom(c.plan, l.inits) + WorkingFrom(c.plan, l.starts)
    + if 0 < l.inits <= |c.plan| then ActivityLeft(c.plan[l.inits - 1], site.activity) else 0
  }

  function SitesLeft(c: Setup, links: seq<P.Link>, sites: seq<Site>): int
    requires |links| == |sites|
  {
    if sites == [] then 0
    else SitesLeft(c, links[..|sites| - 1], sites[..|sites| - 1]) + SiteLeft(c, links[|sites| - 1], sites[|sites| - 1])
  }

  function ActsLeft(c: Setup, s: System): int
    requires Fits(c, s)
  {
    G.StepsLeft(c, s.protocol) + SitesLeft(c, s.protocol.links, s.sites)
  }

  /** The number of steps of a complete run. */
  function ActsOfRun(c: Setup): nat {
    |c.plan| * G.StepsPerRound(c) + c.workers * (MakingFrom(c.plan, 0) + WorkingFrom(c.plan, 0))
  }

  lemma {:induction false} SitesLeftUpdated(c: Setup, links: seq<P.Link>, sites: seq<Site>, w: nat, l: P.Link, site: Site)
    requires |links| == |sites| && w < |sites|
    ensures SitesLeft(c, links[w := l], sites[w := site])
         == SitesLeft(c, links, sites) - SiteLeft(c, links[w], sites[w]) + SiteLeft(c, l, site)
  {
    var last := |sites| - 1;
    if w == last {
      assert sites[w := site][..last] == sites[..last] && links[w := l][..last] == links[..last];
    } else {
      assert sites[w := site][..last] == sites[..last][w := site] && links[w := l][..last] == links[..last][w := l];
      SitesLeftUpdated(c, links[..last], sites[..last], w, l, site);
    }
  }

  /** What a worker has left depends on its rounds and its activity only. */
  predicate SameLeft(l: P.Link, l': P.Link) {
    l'.inits == l.inits && l'.starts == l.starts
  }

  lemma {:induction false} SitesLeftSame(c: Setup, links: seq<P.Link>, links': seq<P.Link>, sites: seq<Site>)
    requires |links| == |links'| == |sites| && forall w :: 0 <= w < |sites| ==> SameLeft(links[w], links'[w])
    ensures SitesLeft(c, links', sites) == SitesLeft(c, links, sites)
  {
    if sites != [] {
      var last := |sites| - 1;
      assert SameLeft(links[last], links'[last]);
      SitesLeftSame(c, links[..last], links'[..last], sites[..last]);
    }
  }

  predicate HasLeft(c: Setup, l: P.Link, site: Site, left: int) {
    SiteLeft(c, l, site) == left
  }

  lemma {:induction false} SitesLeftUniform(c: Setup, links: seq<P.Link>, sites: seq<Site>, left: int)
    requires |links| == |sites| && forall w :: 0 <= w < |sites| ==> HasLeft(c, links[w], sites[w], left)
    ensures SitesLeft(c, links, sites) == |sites| * left
  {
    if sites != [] {
      var last := |sites| - 1;
      assert HasLeft(c, links[last], sites[last], left);
      SitesLeftUniform(c, links[..last], sites[..last], left);
      OneMore(last, left);
    }
  }

  // ----- Steps of the workers on their own

  lemma DrainedHasNothingLeft(jobs: seq<Job>, clients: nat, pool: Pool)
    requires PoolInv(jobs, clients, pool) && Drained(pool) && clients > 0
    ensures PoolLeft(pool) == 0
  {
    DrainedMeansAllExecuted(jobs, clients, pool);
    ClientCounts(pool.clients);
  }

  lemma LocalUsesOne(c: Setup, s: System, act: Act)
    requires Fits(c, s) && Can(c, s, act) && !act.Protocol? && SiteInv(c, s.protocol.links[act.w], s.sites[act.w])
    requires 0 < s.protocol.links[act.w].inits == s.protocol.links[act.w].assignment.value.round + 1
    requires forall r :: 0 <= r < |c.plan| ==> Runnable(c.plan[r])
    ensures SiteLeft(c, s.protocol.links[act.w], LocalNext(c, s, act).1) == SiteLeft(c, s.protocol.links[act.w], s.sites[act.w]) - 1
  {
    var l, site := s.protocol.links[act.w], s.sites[act.w];
    var round := c.plan[l.inits - 1];
    match act
    case MakeDirectory(_) =>
    case PoolMoves(_, move) => PoolStepCounts(site.activity.pool, move);
    case CleanDirectory(_) =>
      if site.activity.Running? {
        DrainedHasNothingLeft(JobsOf(round), round.threads, site.activity.pool);
      }
  }

  lemma LocalActCounts(c: Setup, s: System, act: Act)
    requires !act.Protocol? && AtWork(c, s, act.w) && Can(c, s, act)
    requires forall r :: 0 <= r < |c.plan| ==> Runnable(c.plan[r])
    ensures ActsLeft(c, Next(c, s, act)) == ActsLeft(c, s) - 1
  {
    var w, l := act.w, s.protocol.links[act.w];
    LocalUsesOne(c, s, act);
    SitesLeftUpdated(c, s.protocol.links, s.sites, w, l, LocalNext(c, s, act).1);
    assert s.protocol.links[w := l] == s.protocol.links;
  }

  // ----- Steps of the protocol

  lemma OthersKeepLeft(c: Setup, s: P.State, step: P.Step)
    requires P.Shaped(c, s) && P.Enabled(c, s, step) && !P.IsWorkerStep(step)
    ensures forall w :: 0 <= w < c.workers ==> SameLeft(s.links[w], P.Apply(c, s, step).links[w])
  {
  }

  lemma ReceivedStart(c: Setup, h: P.Handler, l: P.Link, r: nat, w: nat)
    requires c.workers >= 1 && r < |c.plan| && I.LinkInv(c, h, l, r, w) && l.worker == P.Idle && l.toWorker != []
    requires LeafCount(c.plan[r].shape) > 0
    ensures var l' := P.Accept(c, l);
      && l.starts == l'.starts + (if l'.worker == P.Preparing then 0 else -1)
      && (l'.worker != P.Preparing ==> l.starts == r)
  {
  }

  lemma ReceivingKeepsLeft(c: Setup, l: P.Link, l': P.Link, site: Site, step: P.Step, r: nat)
    requires SiteInv(c, l, site) && r < |c.plan| && l.worker == P.Idle && step.WorkerReceives?
    requires l'.inits == r + 1
    requires if l.inits == r then l'.worker == P.Preparing && l'.starts == l.starts
             else l.inits == r + 1 && l'.worker == P.Working && l.starts == r && l'.starts == r + 1
                  && Assigned(c, l') && l'.assignment.value.round == r
    ensures SiteLeft(c, l', SiteAfter(c, l', site, step)) == SiteLeft(c, l, site)
  {
    var round := c.plan[r];
    if l.inits != r {
      WorkLeftOfStream(JobsOf(round), round.threads);
      FreshClients(Start(JobsOf(round), round.threads).clients, Job(0, 0));
    }
  }

  lemma FinishingKeepsLeft(c: Setup, l: P.Link, l': P.Link, site: Site, step: P.Step)
    requires SiteInv(c, l, site) && 0 < l.inits == l'.inits && l.starts == l'.starts
    requires (step.FinishPreparations? || step.FinishWork?) && MayFinish(c, l, site, step)
    requires l.assignment.value.round == l.inits - 1 && c.plan[l.inits - 1].threads > 0
    ensures SiteLeft(c, l', SiteAfter(c, l', site, step)) == SiteLeft(c, l, site)
  {
    var round := c.plan[l.inits - 1];
    if site.activity.Running? {
      DrainedHasNothingLeft(JobsOf(round), round.threads, site.activity.pool);
    }
  }

  predicate KeepsLeft(c: Setup, s: System, step: P.Step)
    requires Fits(c, s) && Can(c, s, Protocol(step)) && P.IsWorkerStep(step)
  {
    var l' := P.WorkerStep(c, s.protocol.links[step.w], step);
    SiteLeft(c, l', SiteAfter(c, l', s.sites[step.w], step)) == SiteLeft(c, s.protocol.links[step.w], s.sites[step.w])
  }

  lemma ReceiverKeepsLeft(c: Setup, s: System, w: nat)
    requires Fits(c, s) && Can(c, s, Protocol(P.WorkerReceives(w))) && I.LinkHolds(c, s.protocol, w)
    requires SiteInv(c, s.protocol.links[w], s.sites[w])
    requires forall r :: 0 <= r < |c.plan| ==> LeafCount(c.plan[r].shape) > 0
    ensures KeepsLeft(c, s, P.WorkerReceives(w))
  {
    var l, r := s.protocol.links[w], |s.protocol.rounds| - 1;
    if s.protocol.server != P.Between {
      ReceivedWhat(c, s.protocol.rounds[r].handlers[w], l, r, w);
      ReceivedStart(c, s.protocol.rounds[r].handlers[w], l, r, w);
      ReceivingKeepsLeft(c, l, P.Accept(c, l), s.sites[w], P.WorkerReceives(w), r);
    }
  }

  lemma FinisherKeepsLeft(c: Setup, s: System, step: P.Step)
    requires Fits(c, s) && I.Inv(c, s.protocol) && Can(c, s, Protocol(step)) && (step.FinishPreparations? || step.FinishWork?)
    requires SiteInv(c, s.protocol.links[step.w], s.sites[step.w])
    requires forall r :: 0 <= r < |c.plan| ==> c.plan[r].threads > 0
    ensures KeepsLeft(c, s, step)
  {
    var l := s.protocol.links[step.w];
    BusyWorker(c, s.protocol, step.w);
    FinishingKeepsLeft(c, l, P.WorkerStep(c, l, step), s.sites[step.w], step);
  }

  lemma LeaverKeepsLeft(c: Setup, s: System, step: P.Step)
    requires Fits(c, s) && Can(c, s, Protocol(step)) && (step.WorkerFails? || step.Drop?)
    ensures KeepsLeft(c, s, step)
  {
  }

  lemma WorkerKeepsLeft(c: Setup, s: System, step: P.Step)
    requires Fits(c, s) && I.Inv(c, s.protocol) && Can(c, s, Protocol(step)) && P.IsWorkerStep(step)
    requires SiteInv(c, s.protocol.links[step.w], s.sites[step.w])
    requires forall r :: 0 <= r < |c.plan| ==> LeafCount(c.plan[r].shape) > 0 && c.plan[r].threads > 0
    ensures KeepsLeft(c, s, step)
  {
    if step.WorkerReceives? {
      assert I.LinkHolds(c, s.protocol, step.w);
      ReceiverKeepsLeft(c, s, step.w);
    } else if step.FinishPreparations? || step.FinishWork? {
      FinisherKeepsLeft(c, s, step);
    } else {
      LeaverKeepsLeft(c, s, step);
    }
  }

  /** Nothing of a worker's own work is used up by a step of the protocol. */
  lemma ProtocolKeepsLeft(c: Setup, s: System, step: P.Step)
    requires Fits(c, s) && Can(c, s, Protocol(step))
    requires P.IsWorkerStep(step) ==> KeepsLeft(c, s, step)
    ensures var s' := Next(c, s, Protocol(step)); SitesLeft(c, s'.protocol.links, s'.sites) == SitesLeft(c, s.protocol.links, s.sites)
  {
    var s' := Next(c, s, Protocol(step));
    if P.IsWorkerStep(step) {
      SitesLeftUpdated(c, s.protocol.links, s.sites, step.w, s'.protocol.links[step.w], s'.sites[step.w]);
    } else {
      OthersKeepLeft(c, s.protocol, step);
      SitesLeftSame(c, s.protocol.links, s'.protocol.links, s.sites);
    }
  }

  lemma PlanHasWork(c: Setup)
    requires forall r :: 0 <= r < |c.plan| ==> Runnable(c.plan[r])
    ensures G.SomeWorkInEveryRound(c)
  {
    forall r | 0 <= r < |c.plan| ensures LeafCount(c.plan[r].shape) > 0 {
      LeavesExist(c.plan[r].shape);
    }
  }

  lemma OneLess(c: Setup, s: System, s': System)
    requires Fits(c, s) && Fits(c, s') && G.StepsLeft(c, s'.protocol) == G.StepsLeft(c, s.protocol) - 1
    requires SitesLeft(c, s'.protocol.links, s'.sites) == SitesLeft(c, s.protocol.links, s.sites)
    ensures ActsLeft(c, s') == ActsLeft(c, s) - 1
  {
  }

  /** A step that does not give up a connection. */
  predicate GoesOn(act: Act) {
    act.Protocol? ==> G.GoesOn(act.step)
  }

  lemma ProtocolActCounts(c: Setup, s: System, step: P.Step)
    requires Fits(c, s) && I.Inv(c, s.protocol) && SitesInv(c, s.protocol.links, s.sites)
    requires Can(c, s, Protocol(step)) && G.AllViable(c, s.protocol) && G.GoesOn(step)
    requires forall r :: 0 <= r < |c.plan| ==> LeafCount(c.plan[r].shape) > 0 && c.plan[r].threads > 0
    ensures ActsLeft(c, Next(c, s, Protocol(step))) == ActsLeft(c, s) - 1
    ensures G.AllViable(c, Next(c, s, Protocol(step)).protocol)
  {
    V.GoingOn(c, s.protocol, step);
    if P.IsWorkerStep(step) {
      SiteHolds(c, s.protocol.links, s.sites, step.w);
      WorkerKeepsLeft(c, s, step);
    }
    ProtocolKeepsLeft(c, s, step);
    OneLess(c, s, Next(c, s, Protocol(step)));
  }

  /** As long as no connection is given up that is still needed, every step brings the end one step nearer. */
  lemma ActCounts(c: Setup, initial: FS, s: System, act: Act)
    requires Workable(c) && RunInv(c, initial, s) && Can(c, s, act) && G.AllViable(c, s.protocol) && GoesOn(act)
    ensures ActsLeft(c, Next(c, s, act)) == ActsLeft(c, s) - 1 && G.AllViable(c, Next(c, s, act).protocol)
  {
    if act.Protocol? {
      PlanHasWork(c);
      ProtocolActCounts(c, s, act.step);
    } else {
      BusyIsAtWork(c, s, act.w);
      LocalActCounts(c, s, act);
    }
  }

  // ----- Runs

  predicate NoDrops(acts: seq<Act>) {
    forall i :: 0 <= i < |acts| ==> !(acts[i].Protocol? && acts[i].step.Drop?)
  }

  lemma StartLeft(c: Setup, initial: FS)
    requires Workable(c)
    ensures ActsLeft(c, Begin(c, initial)) == ActsOfRun(c)
  {
    var s := Begin(c, initial);
    assert forall w :: 0 <= w < c.workers ==> HasLeft(c, s.protocol.links[w], s.sites[w], MakingFrom(c.plan, 0) + WorkingFrom(c.plan, 0));
    SitesLeftUniform(c, s.protocol.links, s.sites, MakingFrom(c.plan, 0) + WorkingFrom(c.plan, 0));
  }

  /** With all connections up, only dropping one gives it up. */
  lemma UpGoesOn(c: Setup, initial: FS, s: System, act: Act)
    requires Workable(c) && RunInv(c, initial, s) && Can(c, s, act) && G.AllUp(c, s.protocol) && !(act.Protocol? && act.step.Drop?)
    ensures GoesOn(act) && G.AllUp(c, Next(c, s, act).protocol)
  {
    if act.Protocol? {
      PlanHasWork(c);
      G.StepCounts(c, s.protocol, act.step);
    }
  }

  lemma {:induction false} ActsAddUp(c: Setup, initial: FS, acts: seq<Act>)
    requires Workable(c) && NoDrops(acts) && Run(c, initial, acts).Some?
    ensures var s := Run(c, initial, acts).value;
      G.AllUp(c, s.protocol) && |acts| + ActsLeft(c, s) == ActsOfRun(c)
  {
    if acts == [] {
      StartLeft(c, initial);
    } else {
      var init, act := acts[..|acts| - 1], acts[|acts| - 1];
      ActsAddUp(c, initial, init);
      EveryRunKeepsInv(c, initial, init);
      var s := Run(c, initial, init).value;
      UpGoesOn(c, initial, s, act);
      G.UpIsViable(c, s.protocol);
      ActCounts(c, initial, s, act);
    }
  }

  // ----- Nobody waits for ever

  function ReportOf(counters: Registry, testName: string): BenchmarkResult {
    BenchmarkResult(testName,
      Sum(counters.finished, testName) as real,
      Sum(counters.failed, testName) as real,
      (Sum(counters.uploaded, testName) + Sum(counters.downloaded, testName)) as real,
      0.0, 0.0, 0.0)
  }

  /** A busy worker can always do the next thing. */
  lemma BusyWorkerCanAct(c: Setup, s: System, w: nat) returns (act: Act)
    requires Fits(c, s) && w < c.workers && s.sites[w].activity != Quiet && Assigned(c, s.protocol.links[w])
    requires SiteInv(c, s.protocol.links[w], s.sites[w])
    requires s.protocol.links[w].inits == s.protocol.links[w].assignment.value.round + 1
    requires RoundOf(c, s.protocol.links[w]).threads >= 1
    ensures Can(c, s, act) && GoesOn(act)
  {
    var l, site := s.protocol.links[w], s.sites[w];
    var round := RoundOf(c, l);
    if site.activity.Making? {
      act := if site.activity.k == ToMake(round) then Protocol(P.FinishPreparations(w)) else MakeDirectory(w);
    } else if site.activity.Running? && !Drained(site.activity.pool) {
      var move := PoolCanMove(JobsOf(round), round.threads, site.activity.pool);
      act := PoolMoves(w, move);
    } else if Cleaned(site.activity) < ToClean(round) {
      act := CleanDirectory(w);
    } else {
      act := Protocol(P.FinishWork(w, ReportOf(site.counters, l.assignment.value.testName)));
    }
  }

  lemma WorkerAtWorkCanAct(c: Setup, s: System, w: nat) returns (act: Act)
    requires AtWork(c, s, w) && s.sites[w].activity != Quiet
    requires forall r :: 0 <= r < |c.plan| ==> Runnable(c.plan[r])
    ensures Can(c, s, act) && GoesOn(act)
  {
    act := BusyWorkerCanAct(c, s, w);
  }

  /** Deadlock freedom of the whole system: as long as no connection has dropped that is still needed, somebody can go on
      until the run is complete. */
  lemma SomebodyCanAct(c: Setup, initial: FS, s: System) returns (act: Act)
    requires Workable(c) && RunInv(c, initial, s) && G.AllViable(c, s.protocol) && !G.Complete(c, s.protocol)
    ensures Can(c, s, act) && GoesOn(act)
  {
    PlanHasWork(c);
    var step := G.SomebodyCanMove(c, s.protocol);
    if step.FinishPreparations? || step.FinishWork? {
      SiteHolds(c, s.protocol.links, s.sites, step.w);
      BusyIsAtWork(c, s, step.w);
      act := WorkerAtWorkCanAct(c, s, step.w);
    } else {
      act := Protocol(step);
    }
  }

  lemma SiteLeftBounds(c: Setup, l: P.Link, site: Site)
    requires SiteInv(c, l, site)
    ensures SiteLeft(c, l, site) >= 0
    ensures l.inits == l.starts == |c.plan| && site.activity == Quiet ==> SiteLeft(c, l, site) == 0
  {
  }

  lemma {:induction false} SitesLeftNatural(c: Setup, links: seq<P.Link>, sites: seq<Site>)
    requires |links| == |sites| && forall w {:trigger sites[w]} :: 0 <= w < |sites| ==> SiteLeft(c, links[w], sites[w]) >= 0
    ensures SitesLeft(c, links, sites) >= 0
  {
    if sites != [] {
      SitesLeftNatural(c, links[..|sites| - 1], sites[..|sites| - 1]);
    }
  }

  lemma ActsLeftBounds(c: Setup, initial: FS, s: System)
    requires Workable(c) && RunInv(c, initial, s)
    ensures ActsLeft(c, s) >= 0
    ensures G.Complete(c, s.protocol) <==> ActsLeft(c, s) == 0
  {
    var links := s.protocol.links;
    G.StepsLeftBounds(c, s.protocol);
    forall w | 0 <= w < c.workers ensures SiteLeft(c, links[w], s.sites[w]) >= 0 {
      assert SiteInv(c, links[w], s.sites[w]);
      SiteLeftBounds(c, links[w], s.sites[w]);
    }
    SitesLeftNatural(c, links, s.sites);
    if G.Complete(c, s.protocol) {
      forall w | 0 <= w < c.workers ensures HasLeft(c, links[w], s.sites[w], 0) {
        assert SiteInv(c, links[w], s.sites[w]) && I.LinkHolds(c, s.protocol, w);
        SiteLeftBounds(c, links[w], s.sites[w]);
      }
      SitesLeftUniform(c, links, s.sites, 0);
    }
  }

  lemma NothingAfterCompletion(c: Setup, initial: FS, s: System, act: Act)
    requires Workable(c) && RunInv(c, initial, s) && G.AllUp(c, s.protocol) && G.Complete(c, s.protocol)
    requires !(act.Protocol? && act.step.Drop?)
    ensures !Can(c, s, act)
  {
    if Can(c, s, act) {
      ActsLeftBounds(c, initial, s);
      UpGoesOn(c, initial, s, act);
      G.UpIsViable(c, s.protocol);
      ActCounts(c, initial, s, act);
      ActKeepsInv(c, initial, s, act);
      ActsLeftBounds(c, initial, Next(c, s, act));
    }
  }

  /** A run without dropped connections, in whatever order its steps come: it is never stuck before every round is
      complete, it cannot go on afterwards, and every complete run takes the same number of steps. */
  lemma RunsToTheEnd(c: Setup, initial: FS, acts: seq<Act>)
    requires Workable(c) && NoDrops(acts) && Run(c, initial, acts).Some?
    ensures var s := Run(c, initial, acts).value;
      && (G.Complete(c, s.protocol) <==> forall act: Act :: (act.Protocol? ==> !act.step.Drop?) ==> !Can(c, s, act))
      && (G.Complete(c, s.protocol) <==> |acts| == ActsOfRun(c))
      && |acts| <= ActsOfRun(c)
  {
    var s := Run(c, initial, acts).value;
    EveryRunKeepsInv(c, initial, acts);
    ActsAddUp(c, initial, acts);
    ActsLeftBounds(c, initial, s);
    if G.Complete(c, s.protocol) {
      forall act: Act | act.Protocol? ==> !act.step.Drop? ensures !Can(c, s, act) {
        NothingAfterCompletion(c, initial, s, act);
      }
    } else {
      G.UpIsViable(c, s.protocol);
      var act := SomebodyCanAct(c, initial, s);
    }
  }

  // ----- Carrying a run on

  lemma OneMoreAct(c: Setup, initial: FS, acts: seq<Act>, act: Act)
    requires Workable(c) && Run(c, initial, acts).Some? && Can(c, Run(c, initial, acts).value, act)
    ensures Run(c, initial, acts + [act]) == Some(Next(c, Run(c, initial, acts).value, act))
  {
    assert (acts + [act])[..|acts|] == acts;
  }

  lemma OneMoreGoingOn(c: Setup, initial: FS, acts: seq<Act>) returns (act: Act)
    requires Workable(c) && Run(c, initial, acts).Some? && G.AllViable(c, Run(c, initial, acts).value.protocol)
    requires !G.Complete(c, Run(c, initial, acts).value.protocol)
    ensures GoesOn(act) && Run(c, initial, acts + [act]).Some? && G.AllViable(c, Run(c, initial, acts + [act]).value.protocol)
    ensures 0 <= ActsLeft(c, Run(c, initial, acts + [act]).value) < ActsLeft(c, Run(c, initial, acts).value)
  {
    var s := Run(c, initial, acts).value;
    EveryRunKeepsInv(c, initial, acts);
    act := SomebodyCanAct(c, initial, s);
    ActCounts(c, initial, s, act);
    OneMoreAct(c, initial, acts, act);
    ActKeepsInv(c, initial, s, act);
    ActsLeftBounds(c, initial, Next(c, s, act));
  }

  predicate CompletesWith(c: Setup, initial: FS, acts: seq<Act>, more: seq<Act>)
    requires c.Valid() && forall r :: 0 <= r < |c.plan| ==> SizesValid(c.plan[r].shape)
  {
    Run(c, initial, acts + more).Some? && G.Complete(c, Run(c, initial, acts + more).value.protocol)
  }

  lemma NothingMore(acts: seq<Act>)
    ensures acts + [] == acts
  {
  }

  lemma Associates(acts: seq<Act>, act: Act, rest: seq<Act>)
    ensures acts + ([act] + rest) == (acts + [act]) + rest
  {
  }

  lemma OneMoreWithoutDrop(act: Act, rest: seq<Act>)
    requires GoesOn(act) && NoDrops(rest)
    ensures NoDrops([act] + rest)
  {
  }

  lemma CarryOn(c: Setup, initial: FS, acts: seq<Act>) returns (more: seq<Act>)
    requires Workable(c) && Run(c, initial, acts).Some? && G.AllViable(c, Run(c, initial, acts).value.protocol)
    ensures CompletesWith(c, initial, acts, more) && NoDrops(more)
    decreases ActsLeft(c, Run(c, initial, acts).value)
  {
    if G.Complete(c, Run(c, initial, acts).value.protocol) {
      more := [];
      NothingMore(acts);
    } else {
      var act := OneMoreGoingOn(c, initial, acts);
      var rest := CarryOn(c, initial, acts + [act]);
      more := [act] + rest;
      Associates(acts, act, rest);
      OneMoreWithoutDrop(act, rest);
    }
  }

  /** Any run without dropped connections can be carried on to completion. */
  lemma CompletedRun(c: Setup, initial: FS, acts: seq<Act>) returns (all: seq<Act>)
    requires Workable(c) && NoDrops(acts) && Run(c, initial, acts).Some?
    ensures acts <= all && NoDrops(all) && Run(c, initial, all).Some? && G.Complete(c, Run(c, initial, all).value.protocol)
  {
    ActsAddUp(c, initial, acts);
    G.UpIsViable(c, Run(c, initial, acts).value.protocol);
    var more := CarryOn(c, initial, acts);
    all := acts + more;
  }

  /** Every workable benchmark has a complete run. */
  lemma SomeRunCompletes(c: Setup, initial: FS)
    requires Workable(c)
    ensures exists acts :: NoDrops(acts) && Run(c, initial, acts).Some? && G.Complete(c, Run(c, initial, acts).value.protocol)
  {
    var all := CompletedRun(c, initial, []);
  }

  // ----- ... and what keeps one from completing

  lemma StrandedStays(c: Setup, s: System, act: Act, w: nat)
    requires Fits(c, s) && I.Inv(c, s.protocol) && Can(c, s, act) && w < c.workers && !G.Viable(c, s.protocol, w)
    ensures !G.Viable(c, Next(c, s, act).protocol, w)
  {
    if act.Protocol? {
      V.StrandedStays(c, s.protocol, act.step, w);
    }
  }

  lemma LastOfMore(acts: seq<Act>, more: seq<Act>)
    requires more != []
    ensures acts + more == (acts + more[..|more| - 1]) + [more[|more| - 1]]
  {
  }

  lemma LastAct(c: Setup, initial: FS, acts: seq<Act>, act: Act)
    requires Workable(c) && Run(c, initial, acts + [act]).Some?
    ensures Run(c, initial, acts).Some? && Can(c, Run(c, initial, acts).value, act)
    ensures Run(c, initial, acts + [act]).value == Next(c, Run(c, initial, acts).value, act)
  {
    assert (acts + [act])[..|acts|] == acts;
  }

  lemma {:induction false} StrandedForEver(c: Setup, initial: FS, acts: seq<Act>, more: seq<Act>, w: nat)
    requires Workable(c) && Run(c, initial, acts).Some? && Run(c, initial, acts + more).Some?
    requires w < c.workers && !G.Viable(c, Run(c, initial, acts).value.protocol, w)
    ensures !G.Viable(c, Run(c, initial, acts + more).value.protocol, w)
  {
    if more == [] {
      NothingMore(acts);
    } else {
      var init, act := more[..|more| - 1], more[|more| - 1];
      LastOfMore(acts, more);
      LastAct(c, initial, acts + init, act);
      StrandedForEver(c, initial, acts, init, w);
      EveryRunKeepsInv(c, initial, acts + init);
      StrandedStays(c, Run(c, initial, acts + init).value, act, w);
    }
  }

  ghost predicate CanStillComplete(c: Setup, initial: FS, acts: seq<Act>)
    requires c.Valid() && forall r :: 0 <= r < |c.plan| ==> SizesValid(c.plan[r].shape)
  {
    exists more :: CompletesWith(c, initial, acts, more)
  }

  /** After whatever has happened, a run of the whole system can still be completed if and only if every connection is up
      or has delivered its worker's result of the last round. */
  lemma CompletableIffAllViable(c: Setup, initial: FS, acts: seq<Act>)
    requires Workable(c) && Run(c, initial, acts).Some?
    ensures CanStillComplete(c, initial, acts) <==> G.AllViable(c, Run(c, initial, acts).value.protocol)
  {
    var s := Run(c, initial, acts).value;
    if G.AllViable(c, s.protocol) {
      var more := CarryOn(c, initial, acts);
    } else if CanStillComplete(c, initial, acts) {
      var more :| CompletesWith(c, initial, acts, more);
      var w :| 0 <= w < c.workers && !G.Viable(c, s.protocol, w);
      StrandedForEver(c, initial, acts, more, w);
    }
  }
}
