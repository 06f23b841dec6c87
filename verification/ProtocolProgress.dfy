/** Progress of the round protocol: deadlock freedom and the exact number of steps of a run without dropped connections. */
module ProtocolProgress {
  import opened BenchmarkPlan
  import opened BenchmarkResults
  import opened RoundProtocol
  import opened ProtocolInvariant
  import opened ProtocolSteps
  import opened ProtocolTheorems

  predicate FaultFree(steps: seq<Step>) {
    forall i :: 0 <= i < |steps| ==> !steps[i].Drop?
  }

  /** Every round gives every worker something to do. */
  predicate SomeWorkInEveryRound(c: Setup) {
    forall r :: 0 <= r < |c.plan| ==> LeafCount(c.plan[r].shape) > 0
  }

  predicate AllUp(c: Setup, s: State)
    requires Shaped(c, s)
  {
    forall w :: 0 <= w < c.workers ==> s.links[w].up
  }

  /** The result of the worker is on its way to the server or has got there: the connection is not needed any more. */
  predicate PastWork(h: Handler, l: Link) {
    h.PostingFinished? || h.PostingResult? || h.Returned? || (h == Decoding(true) && l.fromWorker != [])
  }

  /** A connection does not stand in the way of completing the benchmark: it is up, or it has served in the last round. */
  predicate Viable(c: Setup, s: State, w: nat)
    requires Shaped(c, s) && w < c.workers
  {
    || s.links[w].up
    || (|s.rounds| == |c.plan| && (s.server == Between || PastWork(s.rounds[|s.rounds| - 1].handlers[w], s.links[w])))
  }

  predicate AllViable(c: Setup, s: State)
    requires Shaped(c, s)
  {
    forall w {:trigger s.links[w]} :: 0 <= w < c.workers ==> Viable(c, s, w)
  }

  lemma UpIsViable(c: Setup, s: State)
    requires Shaped(c, s) && AllUp(c, s)
    ensures AllViable(c, s)
  {
    forall w | 0 <= w < c.workers ensures Viable(c, s, w) {
      assert s.links[w].up;
    }
  }

  /** A step that does not give up a connection. */
  predicate GoesOn(step: Step) {
    !step.Drop? && !step.HandlerFails? && !step.WorkerFails?
  }

  predicate Complete(c: Setup, s: State) {
    s.server == Between && |s.rounds| == |c.plan|
  }

  /** The steps left on one connection before its handler has returned. */
  function LinkLeft(h: Handler, l: Link): nat {
    match h
    case Absent => 12
    case Starting => 12
    case Decoding(posted) =>
      (if posted then 3 else 9) + (if l.toWorker != [] then 2 else if l.worker == Preparing || l.worker == Working then 1 else 0)
    case PostingPrepared => 8
    case AwaitingContinue => 7
    case SendingStart => 6
    case PostingFinished(_) => 2
    case PostingResult(_) => 1
    case Returned(_) => 0
    case Failed(_) => 0
  }

  function LinksLeft(hs: seq<Handler>, links: seq<Link>): nat
    requires |hs| == |links|
  {
    if hs == [] then 0
    else LinksLeft(hs[..|hs| - 1], links[..|hs| - 1]) + LinkLeft(hs[|hs| - 1], links[|hs| - 1])
  }

  /** The steps left to the server in the round under way. */
  function ServerLeft(c: Setup, server: Server): int {
    var n := c.workers;
    match server
    case Between => 0
    case Spawning(k) => 5 * n - k
    case AwaitPrepared(k) => 4 * n - k
    case Releasing(k) => 3 * n - k
    case AwaitFinished(k) => 2 * (n - k)
    case AwaitResult(k) => 2 * (n - k) - 1
  }

  function StepsPerRound(c: Setup): nat {
    17 * c.workers + 1
  }

  function RoundLeft(c: Setup, s: State): int
    requires Shaped(c, s)
  {
    if s.server == Between then 0
    else ServerLeft(c, s.server) + LinksLeft(s.rounds[|s.rounds| - 1].handlers, s.links)
  }

  /** The number of steps a fault-free run has still to make. */
  function StepsLeft(c: Setup, s: State): int
    requires Shaped(c, s)
  {
    (|c.plan| - |s.rounds|) * StepsPerRound(c) + RoundLeft(c, s)
  }

  lemma {:induction false} LinksLeftUpdated(hs: seq<Handler>, links: seq<Link>, w: nat, h: Handler, l: Link)
    requires |hs| == |links| && w < |hs|
    ensures LinksLeft(hs[w := h], links[w := l]) == LinksLeft(hs, links) - LinkLeft(hs[w], links[w]) + LinkLeft(h, l)
  {
    var last := |hs| - 1;
    if w == last {
      assert hs[w := h][..last] == hs[..last] && links[w := l][..last] == links[..last];
    } else {
      assert hs[w := h][..last] == hs[..last][w := h] && links[w := l][..last] == links[..last][w := l];
      LinksLeftUpdated(hs[..last], links[..last], w, h, l);
    }
  }

  lemma {:induction false} LinksLeftUniform(hs: seq<Handler>, links: seq<Link>, left: nat)
    requires |hs| == |links| && forall w :: 0 <= w < |hs| ==> LinkLeft(hs[w], links[w]) == left
    ensures LinksLeft(hs, links) == |hs| * left
  {
    if hs != [] {
      LinksLeftUniform(hs[..|hs| - 1], links[..|hs| - 1], left);
    }
  }

  // ----- Every step uses up exactly one

  /** A step that moves one handler and its connection one place on. */
  lemma LinkAdvanced(c: Setup, s: State, s': State, r: nat, w: nat, h: Handler, l: Link)
    requires Shaped(c, s) && Shaped(c, s') && s.server != Between && r == |s.rounds| - 1 && w < c.workers
    requires s'.server == s.server && |s'.rounds| == |s.rounds|
    requires s'.rounds[r].handlers == s.rounds[r].handlers[w := h] && s'.links == s.links[w := l]
    requires LinkLeft(h, l) + 1 == LinkLeft(s.rounds[r].handlers[w], s.links[w])
    ensures StepsLeft(c, s') == StepsLeft(c, s) - 1
  {
    LinksLeftUpdated(s.rounds[r].handlers, s.links, w, h, l);
  }

  lemma HandlerUsesOne(c: Setup, s: State, step: Step)
    requires Shaped(c, s) && Enabled(c, s, step) && !IsServerStep(step) && !IsWorkerStep(step)
    requires step.r < |c.plan| && s.links[step.w].up && LinkInv(c, s.rounds[step.r].handlers[step.w], s.links[step.w], step.r, step.w)
    ensures var s' := Apply(c, s, step);
      LinkLeft(s'.rounds[step.r].handlers[step.w], s'.links[step.w]) + 1
      == LinkLeft(s.rounds[step.r].handlers[step.w], s.links[step.w])
  {
  }

  lemma StaysUp(c: Setup, s: State, s': State, w: nat)
    requires Shaped(c, s) && Shaped(c, s') && AllUp(c, s) && w < c.workers
    requires s'.links == s.links[w := s'.links[w]] && s'.links[w].up
    ensures AllUp(c, s')
  {
  }

  lemma HandlerStepCounts(c: Setup, s: State, step: Step)
    requires Inv(c, s) && Enabled(c, s, step) && AllUp(c, s) && !IsServerStep(step) && !IsWorkerStep(step)
    ensures StepsLeft(c, Apply(c, s, step)) == StepsLeft(c, s) - 1 && AllUp(c, Apply(c, s, step))
  {
    var r, w, s' := step.r, step.w, Apply(c, s, step);
    HandlerTouches(c, s, step);
    StaysUp(c, s, s', w);
    OnlyCurrentHandlersAct(c, s, r, w);
    HandlerUsesOne(c, s, step);
    LinkAdvanced(c, s, s', r, w, s'.rounds[r].handlers[w], s'.links[w]);
  }

  lemma WorkerUsesOne(c: Setup, h: Handler, l: Link, r: nat, w: nat, step: Step)
    requires c.workers >= 1 && r < |c.plan| && LinkInv(c, h, l, r, w) && WorkerCan(l, step)
    requires l.up && LeafCount(c.plan[r].shape) > 0 && !step.Drop?
    ensures LinkLeft(h, WorkerStep(c, l, step)) + 1 == LinkLeft(h, l) && WorkerStep(c, l, step).up
  {
  }

  /** Between two rounds a worker has nothing to do. */
  lemma RestingIsIdle(c: Setup, s: State, step: Step)
    requires Shaped(c, s) && IsWorkerStep(step) && step.w < c.workers && LinkHolds(c, s, step.w) && s.links[step.w].up
    requires WorkerCan(s.links[step.w], step) && !step.Drop?
    ensures s.server != Between
  {
  }

  lemma WorkerStepCounts(c: Setup, s: State, step: Step)
    requires Inv(c, s) && Enabled(c, s, step) && AllUp(c, s) && IsWorkerStep(step) && !step.Drop? && SomeWorkInEveryRound(c)
    ensures StepsLeft(c, Apply(c, s, step)) == StepsLeft(c, s) - 1 && AllUp(c, Apply(c, s, step))
  {
    var w := step.w;
    assert LinkHolds(c, s, w);
    WorkerStepCountsAt(c, s, step);
  }

  lemma WorkerStepCountsAt(c: Setup, s: State, step: Step)
    requires Shaped(c, s) && Enabled(c, s, step) && AllUp(c, s) && IsWorkerStep(step) && !step.Drop? && SomeWorkInEveryRound(c)
    requires LinkHolds(c, s, step.w)
    ensures StepsLeft(c, Apply(c, s, step)) == StepsLeft(c, s) - 1 && AllUp(c, Apply(c, s, step))
  {
    var w, r := step.w, |s.rounds| - 1;
    RestingIsIdle(c, s, step);
    WorkerUsesOne(c, s.rounds[r].handlers[w], s.links[w], r, w, step);
    StaysUp(c, s, Apply(c, s, step), w);
    LinkAdvanced(c, s, Apply(c, s, step), r, w, s.rounds[r].handlers[w], WorkerStep(c, s.links[w], step));
  }

  lemma BeginRoundCounts(c: Setup, s: State)
    requires Inv(c, s) && Enabled(c, s, BeginRound)
    ensures StepsLeft(c, Apply(c, s, BeginRound)) == StepsLeft(c, s) - 1
  {
    var s' := Apply(c, s, BeginRound);
    LinksLeftUniform(s'.rounds[|s.rounds|].handlers, s'.links, 12);
    var k := |c.plan| - |s.rounds|;
    assert k * StepsPerRound(c) == (k - 1) * StepsPerRound(c) + StepsPerRound(c);
  }

  lemma SpawnCounts(c: Setup, s: State)
    requires Shaped(c, s) && Enabled(c, s, Spawn) && s.rounds[|s.rounds| - 1].handlers[s.server.k] == Absent
    ensures StepsLeft(c, Apply(c, s, Spawn)) == StepsLeft(c, s) - 1
  {
    LinksLeftUpdated(s.rounds[|s.rounds| - 1].handlers, s.links, s.server.k, Starting, s.links[s.server.k]);
    assert s.links[s.server.k := s.links[s.server.k]] == s.links;
  }

  /** A step of the server that touches neither handlers nor connections. */
  lemma ChannelStepCounts(c: Setup, s: State, step: Step)
    requires Shaped(c, s) && Enabled(c, s, step) && s.server != Between && s.server.k < c.workers
    requires IsServerStep(step) && !step.Spawn? && (step.TakeResult? ==> s.server.k + 1 < c.workers)
    ensures StepsLeft(c, Apply(c, s, step)) == StepsLeft(c, s) - 1
  {
  }

  lemma NothingLeftAtTheEnd(c: Setup, s: State)
    requires Inv(c, s) && Enabled(c, s, TakeResult) && s.server.k + 1 == c.workers
    ensures LinksLeft(s.rounds[|s.rounds| - 1].handlers, s.links) == 0
  {
    LastResultEndsRound(c, s);
    LinksLeftUniform(s.rounds[|s.rounds| - 1].handlers, s.links, 0);
  }

  lemma LastResultCounts(c: Setup, s: State)
    requires Inv(c, s) && Enabled(c, s, TakeResult) && s.server.k + 1 == c.workers
    ensures StepsLeft(c, Apply(c, s, TakeResult)) == StepsLeft(c, s) - 1
  {
    NothingLeftAtTheEnd(c, s);
    ResultTaken(c, s);
  }

  lemma ServerStepCounts(c: Setup, s: State, step: Step)
    requires Inv(c, s) && Enabled(c, s, step) && IsServerStep(step)
    ensures StepsLeft(c, Apply(c, s, step)) == StepsLeft(c, s) - 1
  {
    assert s.server != Between ==> Positioned(c, s.server, s.rounds[|s.rounds| - 1]);
    if step.BeginRound? {
      BeginRoundCounts(c, s);
    } else if step.Spawn? {
      SpawnCounts(c, s);
    } else if step.TakeResult? && s.server.k + 1 == c.workers {
      LastResultCounts(c, s);
    } else {
      ChannelStepCounts(c, s, step);
    }
  }

  lemma StepCounts(c: Setup, s: State, step: Step)
    requires Inv(c, s) && Enabled(c, s, step) && AllUp(c, s) && !step.Drop? && SomeWorkInEveryRound(c)
    ensures StepsLeft(c, Apply(c, s, step)) == StepsLeft(c, s) - 1 && AllUp(c, Apply(c, s, step))
  {
    if IsServerStep(step) {
      ServerStepCounts(c, s, step);
    } else if IsWorkerStep(step) {
      WorkerStepCounts(c, s, step);
    } else {
      HandlerStepCounts(c, s, step);
    }
  }

  /** The steps a fault-free run has made and those it has still to make always add up to the same number. */
  lemma {:induction false} StepsAddUp(c: Setup, steps: seq<Step>)
    requires c.Valid() && SomeWorkInEveryRound(c) && FaultFree(steps) && Execute(c, steps).Some?
    ensures var s := Execute(c, steps).value;
      AllUp(c, s) && |steps| + StepsLeft(c, s) == |c.plan| * StepsPerRound(c)
  {
    if steps != [] {
      var init := steps[..|steps| - 1];
      StepsAddUp(c, init);
      RunKeepsInv(c, init);
      StepCounts(c, Execute(c, init).value, steps[|steps| - 1]);
    }
  }

  // ----- Somebody can always move

  lemma {:induction false} SomeBetween(hs: seq<Handler>, low: nat, high: nat) returns (w: nat)
    requires low <= high && AtLeast(hs, high) < AtLeast(hs, low)
    ensures w < |hs| && low <= Rank(hs[w]) < high
  {
    var last := |hs| - 1;
    if low <= Rank(hs[last]) < high {
      w := last;
    } else {
      w := SomeBetween(hs[..last], low, high);
    }
  }

  lemma {:induction false} RankAtLeastZero(hs: seq<Handler>)
    ensures AtLeast(hs, 0) == |hs|
  {
    if hs != [] {
      RankAtLeastZero(hs[..|hs| - 1]);
    }
  }

  /** A worker that has not finished its part of the round can take a step, unless it waits to be let through. */
  lemma LinkCanMove(c: Setup, s: State, w: nat) returns (step: Step)
    requires Inv(c, s) && AllViable(c, s) && SomeWorkInEveryRound(c) && s.server != Between && w < c.workers
    requires var now := s.rounds[|s.rounds| - 1];
      && 1 <= Rank(now.handlers[w]) < HAS_RETURNED
      && (now.handlers[w] == AwaitingContinue ==> now.continueWorkers > 0)
    ensures GoesOn(step) && Enabled(c, s, step)
  {
    var r := |s.rounds| - 1;
    assert LinkHolds(c, s, w);
    assert Viable(c, s, w);
    RoomToPost(c, s, r, w);
    var l := s.links[w];
    match s.rounds[r].handlers[w]
    case Starting => step := SendInit(r, w);
    case Decoding(_) =>
      step := if l.toWorker != [] then WorkerReceives(w)
              else if l.worker == Preparing then FinishPreparations(w)
              else if l.worker == Working then FinishWork(w, BenchmarkResult(l.assignment.value.testName, 0.0, 0.0, 0.0, 0.0, 0.0, 0.0))
              else Receive(r, w);
    case PostingPrepared => step := PostPrepared(r, w);
    case AwaitingContinue => step := TakeContinue(r, w);
    case SendingStart => step := SendStart(r, w);
    case PostingFinished(_) => step := PostFinished(r, w);
    case PostingResult(_) => step := PostResult(r, w);
  }

  /** While the server waits on an empty channel, some worker that has not yet posted there can take a step. */
  lemma WaitingIsForSomebody(c: Setup, s: State) returns (w: nat)
    requires Inv(c, s) && s.server != Between
    requires var now := s.rounds[|s.rounds| - 1];
      || ((s.server.AwaitPrepared? || s.server.AwaitFinished?) && now.done == [])
      || (s.server.AwaitResult? && now.results == [])
    ensures w < c.workers
    ensures var now := s.rounds[|s.rounds| - 1];
      && 1 <= Rank(now.handlers[w]) < HAS_RETURNED
      && (now.handlers[w] == AwaitingContinue ==> now.continueWorkers > 0)
  {
    var now := s.rounds[|s.rounds| - 1];
    RankAtLeastZero(now.handlers);
    AllAtLeast(now.handlers, HAS_PREPARED);
    AllAtLeast(now.handlers, HAS_CONTINUED);
    AtLeastBounds(now.handlers, HAS_CONTINUED, HAS_CONTINUED);
    AtLeastBounds(now.handlers, HAS_FINISHED, HAS_FINISHED);
    AtLeastBounds(now.handlers, HAS_RETURNED, HAS_RETURNED);
    match s.server
    case AwaitPrepared(_) => w := SomeBetween(now.handlers, 0, HAS_PREPARED);
    case AwaitFinished(_) => w := SomeBetween(now.handlers, 0, HAS_FINISHED);
    case AwaitResult(_) => w := SomeBetween(now.handlers, HAS_FINISHED, HAS_RETURNED);
  }

  /** Deadlock freedom: as long as every round has work and no connection has dropped that is still needed, somebody can
      move until the run is complete. */
  lemma SomebodyCanMove(c: Setup, s: State) returns (step: Step)
    requires Inv(c, s) && AllViable(c, s) && SomeWorkInEveryRound(c) && !Complete(c, s)
    ensures GoesOn(step) && Enabled(c, s, step)
  {
    match s.server
    case Between => step := BeginRound;
    case Spawning(_) => step := Spawn;
    case Releasing(_) => step := Release;
    case _ =>
      var now := s.rounds[|s.rounds| - 1];
      if s.server.AwaitPrepared? && now.done != [] {
        step := TakePrepared;
      } else if s.server.AwaitFinished? && now.done != [] {
        step := TakeFinished;
      } else if s.server.AwaitResult? && now.results != [] {
        step := TakeResult;
      } else {
        var w := WaitingIsForSomebody(c, s);
        step := LinkCanMove(c, s, w);
      }
  }

  lemma RoundLeftBounds(c: Setup, s: State)
    requires Shaped(c, s) && (s.server != Between ==> s.server.k < c.workers)
    ensures if s.server == Between then RoundLeft(c, s) == 0 else RoundLeft(c, s) > 0
  {
  }

  lemma Product(a: nat, b: nat)
    ensures if a == 0 then a * b == 0 else a * b >= b
  {
  }

  lemma StepsLeftBounds(c: Setup, s: State)
    requires Inv(c, s)
    ensures StepsLeft(c, s) >= 0
    ensures Complete(c, s) <==> StepsLeft(c, s) == 0
  {
    RoundLeftBounds(c, s);
    Product(|c.plan| - |s.rounds|, StepsPerRound(c));
  }

  lemma NothingAfterCompletion(c: Setup, s: State, step: Step)
    requires Inv(c, s) && AllUp(c, s) && SomeWorkInEveryRound(c) && Complete(c, s) && !step.Drop?
    ensures !Enabled(c, s, step)
  {
    StepsLeftBounds(c, s);
    if Enabled(c, s, step) {
      StepKeepsInv(c, s, step);
      StepCounts(c, s, step);
      StepsLeftBounds(c, Apply(c, s, step));
    }
  }

  /** A fault-free run cannot be stuck before it is complete, cannot go on afterwards, and has then made exactly
      17 steps per worker and one more in every round, in whatever order they came. */
  lemma MaximalRunsComplete(c: Setup, steps: seq<Step>)
    requires c.Valid() && SomeWorkInEveryRound(c) && FaultFree(steps) && Execute(c, steps).Some?
    ensures var s := Execute(c, steps).value;
      && (Complete(c, s) <==> forall step: Step :: !step.Drop? ==> !Enabled(c, s, step))
      && (Complete(c, s) <==> |steps| == |c.plan| * StepsPerRound(c))
      && |steps| <= |c.plan| * StepsPerRound(c)
  {
    var s := Execute(c, steps).value;
    RunKeepsInv(c, steps);
    StepsAddUp(c, steps);
    StepsLeftBounds(c, s);
    if Complete(c, s) {
      forall step: Step | !step.Drop? ensures !Enabled(c, s, step) {
        NothingAfterCompletion(c, s, step);
      }
    } else {
      UpIsViable(c, s);
      var step := SomebodyCanMove(c, s);
    }
  }

  lemma RecordedHadWork(c: Setup, s: State, r: nat)
    requires Inv(c, s) && r < |s.recorded|
    ensures r < |c.plan| && LeafCount(c.plan[r].shape) > 0
  {
    assert Over(c, s, r) && RealWork(c, s.links[0].reports);
    assert s.links[0].reports[r].testName == c.plan[r].name;
  }

  /** A round without work stops the benchmark: its workers leave instead of reporting, whatever else happens. */
  lemma EmptyRoundNeverCompletes(c: Setup, steps: seq<Step>, r: nat)
    requires c.Valid() && Execute(c, steps).Some? && r < |c.plan| && LeafCount(c.plan[r].shape) == 0
    ensures |Execute(c, steps).value.recorded| <= r
  {
    RunKeepsInv(c, steps);
    if r < |Execute(c, steps).value.recorded| {
      RecordedHadWork(c, Execute(c, steps).value, r);
    }
  }

  lemma CompletedRun(c: Setup, steps: seq<Step>) returns (all: seq<Step>)
    requires c.Valid() && SomeWorkInEveryRound(c) && FaultFree(steps) && Execute(c, steps).Some?
    ensures FaultFree(all) && Execute(c, all).Some? && Complete(c, Execute(c, all).value) && steps <= all
    decreases |c.plan| * StepsPerRound(c) - |steps|
  {
    var s := Execute(c, steps).value;
    if Complete(c, s) {
      all := steps;
    } else {
      RunKeepsInv(c, steps);
      StepsAddUp(c, steps);
      MaximalRunsComplete(c, steps);
      UpIsViable(c, s);
      var step := SomebodyCanMove(c, s);
      assert (steps + [step])[..|steps|] == steps;
      all := CompletedRun(c, steps + [step]);
    }
  }

  predicate CanComplete(c: Setup, steps: seq<Step>)
    requires c.Valid()
  {
    FaultFree(steps) && Execute(c, steps).Some? && Complete(c, Execute(c, steps).value)
  }

  /** A benchmark can be completed if and only if no round has an empty work queue. */
  lemma CompletesIffWorkInEveryRound(c: Setup)
    requires c.Valid()
    ensures (exists steps :: CanComplete(c, steps)) <==> SomeWorkInEveryRound(c)
  {
    if SomeWorkInEveryRound(c) {
      var all := CompletedRun(c, []);
      assert CanComplete(c, all);
    }
    if steps :| CanComplete(c, steps) {
      RunKeepsInv(c, steps);
      forall r | 0 <= r < |c.plan| ensures LeafCount(c.plan[r].shape) > 0 {
        if LeafCount(c.plan[r].shape) == 0 {
          EmptyRoundNeverCompletes(c, steps, r);
        }
      }
    }
  }

  // ----- A handler that gives up

  predicate HasFailed(s: State, r: nat, w: nat) {
    AtHandler(s, r, w) && s.rounds[r].handlers[w].Failed?
  }

  /** A step touches no handler but its own, or the one the server spawns. */
  lemma HandlersStay(c: Setup, s: State, step: Step, r: nat, w: nat)
    requires Shaped(c, s) && Enabled(c, s, step) && AtHandler(s, r, w) && IsServerStep(step)
    ensures AtHandler(Apply(c, s, step), r, w)
    ensures step != Spawn || r != |s.rounds| - 1 || w != s.server.k ==> Apply(c, s, step).rounds[r].handlers[w] == s.rounds[r].handlers[w]
  {
  }

  lemma FailedStays(c: Setup, s: State, step: Step, r: nat, w: nat)
    requires Shaped(c, s) && Enabled(c, s, step) && HasFailed(s, r, w)
    requires s.server.Spawning? && s.server.k < c.workers ==> s.rounds[|s.rounds| - 1].handlers[s.server.k] == Absent
    ensures HasFailed(Apply(c, s, step), r, w)
  {
    if IsServerStep(step) {
      HandlersStay(c, s, step, r, w);
    } else if !IsWorkerStep(step) {
      HandlerTouches(c, s, step);
      assert step.r == r && step.w == w ==> false;
    }
  }

  lemma SpawnsInEmptyPlaces(c: Setup, s: State)
    requires Inv(c, s) && s.server.Spawning? && s.server.k < c.workers
    ensures s.rounds[|s.rounds| - 1].handlers[s.server.k] == Absent
  {
    assert Positioned(c, s.server, s.rounds[|s.rounds| - 1]);
  }

  lemma FailedStaysFailed(c: Setup, s: State, step: Step, r: nat, w: nat)
    requires Inv(c, s) && Enabled(c, s, step) && HasFailed(s, r, w)
    ensures HasFailed(Apply(c, s, step), r, w)
  {
    if s.server.Spawning? && s.server.k < c.workers {
      SpawnsInEmptyPlaces(c, s);
    }
    FailedStays(c, s, step, r, w);
  }

  lemma RecordedHasReturned(c: Setup, s: State, r: nat, w: nat)
    requires Inv(c, s) && r < |s.recorded| && w < c.workers
    ensures r < |s.rounds| && s.rounds[r].handlers[w].Returned?
  {
    assert Over(c, s, r);
  }

  lemma FailedIsNotRecorded(c: Setup, s: State, r: nat, w: nat)
    requires Inv(c, s) && HasFailed(s, r, w)
    ensures |s.recorded| <= r
  {
    if r < |s.recorded| {
      RecordedHasReturned(c, s, r, w);
    }
  }

  lemma LastStep(c: Setup, steps: seq<Step>, step: Step)
    requires c.Valid() && Execute(c, steps + [step]).Some?
    ensures Execute(c, steps).Some? && Enabled(c, Execute(c, steps).value, step)
    ensures Execute(c, steps + [step]).value == Apply(c, Execute(c, steps).value, step)
  {
    assert (steps + [step])[..|steps|] == steps;
  }

  lemma LastOfMore(steps: seq<Step>, more: seq<Step>)
    requires more != []
    ensures steps + more == (steps + more[..|more| - 1]) + [more[|more| - 1]]
  {
  }

  lemma {:induction false} FailureStays(c: Setup, steps: seq<Step>, more: seq<Step>, r: nat, w: nat)
    requires c.Valid() && Execute(c, steps).Some? && HasFailed(Execute(c, steps).value, r, w)
    requires Execute(c, steps + more).Some?
    ensures HasFailed(Execute(c, steps + more).value, r, w)
  {
    if more == [] {
      assert steps + more == steps;
    } else {
      var init, step := more[..|more| - 1], more[|more| - 1];
      LastOfMore(steps, more);
      LastStep(c, steps + init, step);
      FailureStays(c, steps, init, r, w);
      RunKeepsInv(c, steps + init);
      FailedStaysFailed(c, Execute(c, steps + init).value, step, r, w);
    }
  }

  /** A handler that fails to decode a message tells nobody: the server waits for ever, and whatever happens later, the
      round is never recorded, nor is any round after it. */
  lemma FailureStopsTheBenchmark(c: Setup, steps: seq<Step>, more: seq<Step>, r: nat, w: nat)
    requires c.Valid() && Execute(c, steps).Some? && HasFailed(Execute(c, steps).value, r, w)
    requires Execute(c, steps + more).Some?
    ensures |Execute(c, steps + more).value.recorded| <= r
  {
    FailureStays(c, steps, more, r, w);
    RunKeepsInv(c, steps + more);
    FailedIsNotRecorded(c, Execute(c, steps + more).value, r, w);
  }
}
