/** What the round protocol guarantees over every run, whatever the interleaving and whichever connections drop. */
module ProtocolTheorems {
  import opened BenchmarkPlan
  import opened BenchmarkResults
  import opened RoundProtocol
  import opened ProtocolInvariant
  import opened ProtocolSteps

  /** Once a handler has been let through, every worker has answered. */
  lemma ReleasedMeansAllAnswered(c: Setup, s: State, w: nat)
    requires Inv(c, s) && s.server != Between && w < c.workers
    requires Rank(s.rounds[|s.rounds| - 1].handlers[w]) >= HAS_CONTINUED
    ensures forall i :: 0 <= i < c.workers ==> s.links[i].answers == |s.rounds|
  {
    var hs := s.rounds[|s.rounds| - 1].handlers;
    NoneAtLeast(hs, HAS_CONTINUED);
    AtLeastBounds(hs, HAS_PREPARED, HAS_PREPARED);
    AllAtLeast(hs, HAS_PREPARED);
    forall i | 0 <= i < c.workers ensures s.links[i].answers == |s.rounds| {
      assert LinkHolds(c, s, i) && Rank(hs[i]) >= HAS_PREPARED;
    }
  }

  lemma LinkCounts(c: Setup, h: Handler, l: Link, r: nat, w: nat)
    requires c.workers >= 1 && r < |c.plan| && LinkInv(c, h, l, r, w)
    ensures r <= |l.reports| <= l.starts <= l.answers <= l.inits <= r + 1
    ensures l.starts > r || StartWork in l.toWorker ==> Rank(h) >= HAS_CONTINUED
    ensures StartWork in l.toWorker ==> l.starts == r
  {
  }

  /** One worker is not ahead of another by more than the barriers allow. */
  predicate Synchronized(l: Link, other: Link) {
    && l.starts + (if StartWork in l.toWorker then 1 else 0) <= other.answers <= other.inits
    && l.inits <= |other.reports| + 1
  }

  lemma BarrierHolds(c: Setup, s: State, i: nat, j: nat)
    requires Inv(c, s) && i < c.workers && j < c.workers
    ensures Synchronized(s.links[i], s.links[j])
  {
    assert LinkHolds(c, s, i) && LinkHolds(c, s, j);
    if s.server != Between {
      var r := |s.rounds| - 1;
      LinkCounts(c, s.rounds[r].handlers[i], s.links[i], r, i);
      LinkCounts(c, s.rounds[r].handlers[j], s.links[j], r, j);
      if Rank(s.rounds[r].handlers[i]) >= HAS_CONTINUED {
        ReleasedMeansAllAnswered(c, s, i);
      }
    }
  }

  /** The barrier.  Counting rounds per worker: nobody has received more "start work" messages than anybody has sent
      "preparations done" answers, a "start work" under way included; and nobody has received the "init" of a round
      before everybody has reported the round before it. */
  lemma Barrier(c: Setup, steps: seq<Step>, i: nat, j: nat)
    requires c.Valid() && Execute(c, steps).Some? && i < c.workers && j < c.workers
    ensures Synchronized(Execute(c, steps).value.links[i], Execute(c, steps).value.links[j])
  {
    RunKeepsInv(c, steps);
    BarrierHolds(c, Execute(c, steps).value, i, j);
  }

  /** Although the tests' names are shared and overwritten in place, an "init" message on its way always carries
      the round it was sent for, the tree of its worker and the name of that round. */
  lemma InitsCarryTheirRound(c: Setup, steps: seq<Step>, w: nat, a: Assignment)
    requires c.Valid() && Execute(c, steps).Some? && w < c.workers
    requires Init(a) in Execute(c, steps).value.links[w].toWorker
    ensures a.round == |Execute(c, steps).value.rounds| - 1 < |c.plan|
    ensures a.tree == TreeOf(c, c.plan[a.round].op, w) && a.testName == c.plan[a.round].name
  {
    RunKeepsInv(c, steps);
    assert LinkHolds(c, Execute(c, steps).value, w);
  }

  /** A queue of a connection in one step: as it was, without its first message, or, as long as the connection is up, with
      one more at its end. */
  predicate FirstInFirstOut<T(==)>(queue: seq<T>, queue': seq<T>, up: bool) {
    || queue' == queue
    || (queue != [] && queue' == queue[1..])
    || (up && |queue'| == |queue| + 1 && queue <= queue')
  }

  predicate LinkGoesOn(l: Link, l': Link) {
    && FirstInFirstOut(l.toWorker, l'.toWorker, l.up) && FirstInFirstOut(l.fromWorker, l'.fromWorker, l.up)
    && (l'.up ==> l.up)
  }

  lemma WorkerQueues(c: Setup, l: Link, step: Step)
    requires IsWorkerStep(step) && (step.WorkerReceives? ==> l.toWorker != [])
    ensures LinkGoesOn(l, WorkerStep(c, l, step))
    ensures step.Drop? ==> WorkerStep(c, l, step) == l.(up := false)
  {
  }

  lemma HandlerQueues(c: Setup, s: State, step: Step, w: nat)
    requires Shaped(c, s) && Enabled(c, s, step) && !IsServerStep(step) && !IsWorkerStep(step) && w < c.workers
    ensures LinkGoesOn(s.links[w], HandlerStep(c, s, step).links[w])
  {
  }

  lemma ServerQueues(c: Setup, s: State, step: Step)
    requires Shaped(c, s) && Enabled(c, s, step) && IsServerStep(step)
    ensures ServerStep(c, s, step).links == s.links
  {
  }

  /** Messages arrive in the order in which they were sent.  Nothing more is sent over a connection once it has dropped, which
      it remains; but what had been sent before is still there. */
  lemma Queues(c: Setup, s: State, step: Step, w: nat)
    requires Shaped(c, s) && Enabled(c, s, step) && w < c.workers
    ensures LinkGoesOn(s.links[w], Apply(c, s, step).links[w])
    ensures step == Drop(w) ==> Apply(c, s, step).links[w] == s.links[w].(up := false)
  {
    if IsServerStep(step) {
      ServerQueues(c, s, step);
    } else if IsWorkerStep(step) {
      WorkerQueues(c, s.links[step.w], step);
    } else {
      HandlerQueues(c, s, step, w);
    }
  }

  /** A token posted for one phase is never taken for the other. */
  lemma PhasesNeverConfused(c: Setup, steps: seq<Step>)
    requires c.Valid() && Execute(c, steps).Some?
    ensures var s := Execute(c, steps).value;
      && (s.server.AwaitPrepared? ==> Finished !in s.rounds[|s.rounds| - 1].done)
      && (s.server.AwaitFinished? ==> Prepared !in s.rounds[|s.rounds| - 1].done)
  {
    RunKeepsInv(c, steps);
    TokensNeverConfused(c, Execute(c, steps).value);
  }

  /** With channels as large as the number of workers, no send ever blocks. */
  lemma SendsNeverBlock(c: Setup, steps: seq<Step>, r: nat, w: nat)
    requires c.Valid() && Execute(c, steps).Some? && AtHandler(Execute(c, steps).value, r, w)
    ensures var s := Execute(c, steps).value;
      && (s.rounds[r].handlers[w] == PostingPrepared ==> Enabled(c, s, PostPrepared(r, w)))
      && (s.rounds[r].handlers[w].PostingFinished? ==> Enabled(c, s, PostFinished(r, w)))
      && (s.rounds[r].handlers[w].PostingResult? ==> Enabled(c, s, PostResult(r, w)))
      && (s.server.Releasing? ==> Enabled(c, s, Release))
  {
    var s := Execute(c, steps).value;
    RunKeepsInv(c, steps);
    if !s.rounds[r].handlers[w].Returned? {
      RoomToPost(c, s, r, w);
    }
  }

  lemma TokensAddUp(done: seq<Token>)
    ensures |done| == Tokens(done, Prepared) + Tokens(done, Finished)
  {
    if done != [] {
      TokensAddUp(done[1..]);
      TakenFromChannel(done);
      assert done[0] == Prepared || done[0] == Finished;
    }
  }

  lemma RoomToPost(c: Setup, s: State, r: nat, w: nat)
    requires Inv(c, s) && AtHandler(s, r, w) && !s.rounds[r].handlers[w].Returned?
    ensures var h := s.rounds[r].handlers[w];
      && (h == PostingPrepared || h.PostingFinished? ==> |s.rounds[r].done| < c.workers)
      && (h.PostingResult? ==> |s.rounds[r].results| < c.workers)
  {
    OnlyCurrentHandlersAct(c, s, r, w);
    var now := s.rounds[r];
    NoneAtLeast(now.handlers, HAS_CONTINUED);
    AllAtLeast(now.handlers, HAS_PREPARED);
    AllAtLeast(now.handlers, HAS_FINISHED);
    AllAtLeast(now.handlers, HAS_RETURNED);
    AtLeastBounds(now.handlers, HAS_PREPARED, HAS_PREPARED);
    AtLeastBounds(now.handlers, HAS_CONTINUED, HAS_FINISHED);
    AtLeastBounds(now.handlers, HAS_FINISHED, HAS_FINISHED);
    AtLeastBounds(now.handlers, HAS_RETURNED, HAS_RETURNED);
    TokensAddUp(now.done);
  }

  /** When a round's handler starts on a connection, nothing is in flight on it, so a new decoder loses no message,
      and every earlier handler of that connection has returned for good. */
  lemma HandOver(c: Setup, steps: seq<Step>, r: nat, w: nat, earlier: nat)
    requires c.Valid() && Execute(c, steps).Some? && AtHandler(Execute(c, steps).value, r, w)
    requires Execute(c, steps).value.rounds[r].handlers[w] == Starting && earlier < r
    ensures var s := Execute(c, steps).value;
      && s.links[w].toWorker == [] && s.links[w].fromWorker == []
      && s.rounds[earlier].handlers[w].Returned?
  {
    var s := Execute(c, steps).value;
    RunKeepsInv(c, steps);
    OnlyCurrentHandlersAct(c, s, r, w);
    assert Over(c, s, earlier);
  }

  function ReportsOf(links: seq<Link>, r: nat): seq<BenchmarkResult>
    requires forall w :: 0 <= w < |links| ==> r < |links[w].reports|
  {
    seq(|links|, w requires 0 <= w < |links| => links[w].reports[r])
  }

  lemma {:induction false} PostedByAll(hs: seq<Handler>, results: seq<BenchmarkResult>)
    requires |hs| == |results| && forall w :: 0 <= w < |hs| ==> hs[w] == Returned(results[w])
    ensures Posted(hs) == multiset(results)
  {
    if hs != [] {
      var n := |hs| - 1;
      PostedByAll(hs[..n], results[..n]);
      assert results == results[..n] + [results[n]];
    }
  }

  /** What the server records for a completed round is exactly one result of each worker, the one that worker sent in
      that very round, under the name of the round. */
  lemma OneResultPerWorker(c: Setup, steps: seq<Step>, r: nat)
    requires c.Valid() && Execute(c, steps).Some? && r < |Execute(c, steps).value.recorded|
    ensures var s := Execute(c, steps).value;
      && (forall w :: 0 <= w < c.workers ==> r < |s.links[w].reports|)
      && multiset(s.recorded[r]) == multiset(ReportsOf(s.links, r))
      && r < |c.plan| && (forall k :: 0 <= k < |s.recorded[r]| ==> s.recorded[r][k].testName == c.plan[r].name)
      && |s.recorded[r]| == c.workers
  {
    RunKeepsInv(c, steps);
    RecordedExactly(c, Execute(c, steps).value, r);
  }

  lemma RecordedExactly(c: Setup, s: State, r: nat)
    requires Inv(c, s) && r < |s.recorded|
    ensures
      && (forall w :: 0 <= w < c.workers ==> r < |s.links[w].reports|)
      && multiset(s.recorded[r]) == multiset(ReportsOf(s.links, r))
      && r < |c.plan| && (forall k :: 0 <= k < |s.recorded[r]| ==> s.recorded[r][k].testName == c.plan[r].name)
      && |s.recorded[r]| == c.workers
  {
    assert Over(c, s, r);
    var reports := ReportsOf(s.links, r);
    PostedByAll(s.rounds[r].handlers, reports);
    forall k | 0 <= k < |s.recorded[r]| ensures s.recorded[r][k].testName == c.plan[r].name {
      assert s.recorded[r][k] in multiset(reports);
      var w :| 0 <= w < |reports| && reports[w] == s.recorded[r][k];
      assert RealWork(c, s.links[w].reports);
    }
  }
}
