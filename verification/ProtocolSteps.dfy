/** Every step of the round protocol keeps the invariant. */
module ProtocolSteps {
  import opened BenchmarkPlan
  import opened BenchmarkResults
  import opened RoundProtocol
  import opened ProtocolInvariant

  // ----- Frame lemmas: a step touches one connection, one round, or only the server

  /** Only the round under way has handlers that can still act. */
  lemma OnlyCurrentHandlersAct(c: Setup, s: State, r: nat, w: nat)
    requires Inv(c, s) && AtHandler(s, r, w) && !s.rounds[r].handlers[w].Returned?
    ensures s.server != Between && r == |s.rounds| - 1
    ensures LinkInv(c, s.rounds[r].handlers[w], s.links[w], r, w)
    ensures Balanced(c, s.server, s.rounds[r], s.collected)
    ensures s.names[c.plan[r].test] == c.plan[r].name
  {
    assert r < Completed(s) ==> Over(c, s, r);
    assert LinkHolds(c, s, w);
  }

  lemma OverStays(c: Setup, s: State, s': State, r: nat)
    requires Shaped(c, s) && Shaped(c, s') && r < |s.rounds| && r < |s'.rounds| && Over(c, s, r)
    requires s'.rounds[r] == s.rounds[r]
    requires forall w :: 0 <= w < c.workers ==> s.links[w].reports <= s'.links[w].reports
    ensures Over(c, s', r)
  {
  }

  /** Completed rounds stay as they are. */
  lemma RoundsStayOver(c: Setup, s: State, s': State)
    requires Shaped(c, s) && Shaped(c, s') && RoundsOver(c, s)
    requires Completed(s') == Completed(s) && s'.recorded == s.recorded && |s.rounds| <= |s'.rounds|
    requires forall r :: 0 <= r < Completed(s) ==> s'.rounds[r] == s.rounds[r]
    requires forall w :: 0 <= w < c.workers ==> s.links[w].reports <= s'.links[w].reports
    ensures RoundsOver(c, s')
  {
    forall r | 0 <= r < Completed(s') ensures Over(c, s', r) {
      assert Over(c, s, r);
      OverStays(c, s, s', r);
    }
  }

  predicate SameHandlersBut(s: State, s': State, w: nat) {
    && s'.server != Between && s.server != Between && |s'.rounds| == |s.rounds| > 0
    && var r := |s.rounds| - 1;
      && |s'.rounds[r].handlers| == |s.rounds[r].handlers|
      && forall i :: 0 <= i < |s.rounds[r].handlers| && i != w ==> s'.rounds[r].handlers[i] == s.rounds[r].handlers[i]
  }

  /** Connections other than `w` stay in step with their handlers. */
  lemma LinksStay(c: Setup, s: State, s': State, w: nat)
    requires Shaped(c, s) && Shaped(c, s') && LinksInv(c, s) && OnlyRealWork(c, s) && w < c.workers
    requires s'.links == s.links[w := s'.links[w]]
    requires (s'.server == s.server == Between && |s'.rounds| == |s.rounds|) || SameHandlersBut(s, s', w)
    requires LinkHolds(c, s', w) && RealWork(c, s'.links[w].reports)
    ensures LinksInv(c, s') && OnlyRealWork(c, s')
  {
    forall i | 0 <= i < c.workers ensures LinkHolds(c, s', i) && RealWork(c, s'.links[i].reports) {
      assert LinkHolds(c, s, i) && RealWork(c, s.links[i].reports);
    }
  }

  lemma LinkMoved(c: Setup, s: State, w: nat, l': Link, s': State)
    requires Inv(c, s) && w < c.workers
    requires s' == s.(links := s.links[w := l'])
    requires s.links[w].reports <= l'.reports
    requires LinkHolds(c, s', w) && RealWork(c, l'.reports)
    ensures Inv(c, s')
  {
    RoundsStayOver(c, s, s');
    LinksStay(c, s, s', w);
  }

  lemma ServerMoved(c: Setup, s: State, now': Channels, s': State)
    requires Inv(c, s) && s.server != Between && s'.server != Between
    requires var r := |s.rounds| - 1;
      && s' == s.(server := s'.server, collected := s'.collected, rounds := s.rounds[r := now'])
      && now'.handlers == s.rounds[r].handlers
      && Positioned(c, s'.server, now')
      && Balanced(c, s'.server, now', s'.collected)
    ensures Inv(c, s')
  {
    RoundsStayOver(c, s, s');
    assert LinkHolds(c, s, 0) && RealWork(c, s.links[0].reports);
    LinksStay(c, s, s', 0);
  }

  // ----- Steps of the handlers

  /** Handler `w` goes from where it is to `h`, and the channels change by what lies between the two places. */
  predicate Moves(now: Channels, w: nat, h: Handler, now': Channels)
    requires w < |now.handlers|
  {
    var before := now.handlers[w];
    && !before.Returned? && before != Absent && h != Absent
    && now'.handlers == now.handlers[w := h]
    && Rank(before) <= Rank(h)
    && Tokens(now'.done, Prepared) == Tokens(now.done, Prepared) + Passed(before, h, HAS_PREPARED)
    && Tokens(now'.done, Finished) == Tokens(now.done, Finished) + Passed(before, h, HAS_FINISHED)
    && now'.continueWorkers + Passed(before, h, HAS_CONTINUED) == now.continueWorkers
    && now'.results == now.results + (if h.Returned? then [h.result] else [])
  }

  function Passed(before: Handler, after: Handler, k: nat): nat {
    if Rank(before) < k <= Rank(after) then 1 else 0
  }

  lemma HandlerCounts(now: Channels, w: nat, h: Handler, now': Channels, k: nat)
    requires w < |now.handlers| && Moves(now, w, h, now')
    ensures AtLeast(now'.handlers, k) == AtLeast(now.handlers, k) + Passed(now.handlers[w], h, k)
  {
    AtLeastUpdated(now.handlers, w, h, k);
  }

  lemma PostsMore(collected: seq<BenchmarkResult>, results: seq<BenchmarkResult>, h: Handler)
    ensures multiset(collected + (results + if h.Returned? then [h.result] else [])) == multiset(collected + results) + PostedBy(h)
  {
    assert collected + (results + if h.Returned? then [h.result] else []) == (collected + results) + if h.Returned? then [h.result] else [];
  }

  lemma ResultsPosted(hs: seq<Handler>, w: nat, h: Handler, collected: seq<BenchmarkResult>, results: seq<BenchmarkResult>)
    requires w < |hs| && !hs[w].Returned? && multiset(collected + results) == Posted(hs)
    ensures multiset(collected + (results + if h.Returned? then [h.result] else [])) == Posted(hs[w := h])
  {
    PostedUpdated(hs, w, h);
    PostsMore(collected, results, h);
  }

  lemma HandlerPosts(now: Channels, w: nat, h: Handler, now': Channels, collected: seq<BenchmarkResult>)
    requires w < |now.handlers| && Moves(now, w, h, now') && multiset(collected + now.results) == Posted(now.handlers)
    ensures multiset(collected + now'.results) == Posted(now'.handlers)
    ensures |now'.results| == |now.results| + Passed(now.handlers[w], h, HAS_RETURNED)
  {
    ResultsPosted(now.handlers, w, h, collected, now.results);
  }

  lemma HandlerBalances(c: Setup, server: Server, now: Channels, w: nat, h: Handler, now': Channels, collected: seq<BenchmarkResult>)
    requires w < |now.handlers| && Balanced(c, server, now, collected) && Moves(now, w, h, now')
    ensures Balanced(c, server, now', collected)
  {
    HandlerCounts(now, w, h, now', HAS_PREPARED);
    HandlerCounts(now, w, h, now', HAS_CONTINUED);
    HandlerCounts(now, w, h, now', HAS_FINISHED);
    HandlerCounts(now, w, h, now', HAS_RETURNED);
    HandlerPosts(now, w, h, now', collected);
  }

  /** Handler `w` moves on to `h`, posting on or taking from the channels what the move stands for. */
  lemma HandlerMoved(c: Setup, s: State, r: nat, w: nat, h: Handler, now': Channels, l': Link, s': State)
    requires Inv(c, s) && AtHandler(s, r, w)
    requires s' == s.(rounds := s.rounds[r := now'], links := s.links[w := l']) && l'.reports == s.links[w].reports
    requires s.server != Between && r == |s.rounds| - 1
    requires LinkInv(c, h, l', r, w)
    requires Moves(s.rounds[r], w, h, now')
    ensures Inv(c, s')
  {
    HandlerBalances(c, s.server, s.rounds[r], w, h, now', s.collected);
    RoundsStayOver(c, s, s');
    assert RealWork(c, s.links[w].reports);
    LinksStay(c, s, s', w);
  }

  lemma TokenPosted(done: seq<Token>, t: Token)
    ensures forall kind :: Tokens(done + [t], kind) == Tokens(done, kind) + (if kind == t then 1 else 0)
  {
    assert multiset(done + [t]) == multiset(done) + multiset{t};
  }

  lemma DeliveredToWorker(c: Setup, l: Link, r: nat, w: nat)
    requires c.workers >= 1 && r < |c.plan|
    ensures Resting(l, r) ==>
      LinkInv(c, Decoding(false), Deliver(l, Init(Assignment(r, TreeOf(c, c.plan[r].op, w), c.plan[r].name))), r, w)
    ensures PreparedLink(c, l, r, w) ==> LinkInv(c, Decoding(true), Deliver(l, StartWork), r, w)
  {
  }

  lemma ReceivedFromWorker(c: Setup, posted: bool, l: Link, r: nat, w: nat)
    requires c.workers >= 1 && r < |c.plan| && LinkInv(c, Decoding(posted), l, r, w) && l.fromWorker != []
    ensures var h := Dispatch(l.fromWorker[0]);
      && (if posted then h.PostingFinished? else h.PostingPrepared?)
      && LinkInv(c, h, l.(fromWorker := l.fromWorker[1..]), r, w)
  {
    assert l.fromWorker[1..] == [];
  }

  /** What a step of a handler does to its round and to its connection. */
  predicate HandlerKeeps(c: Setup, s: State, step: Step)
    requires Shaped(c, s) && Enabled(c, s, step) && !IsServerStep(step) && !IsWorkerStep(step) && step.r < |c.plan|
  {
    var r, w, s' := step.r, step.w, Apply(c, s, step);
    && Moves(s.rounds[r], w, s'.rounds[r].handlers[w], s'.rounds[r])
    && LinkInv(c, s'.rounds[r].handlers[w], s'.links[w], r, w)
    && s'.links[w].reports == s.links[w].reports
  }

  /** What a step of a handler starts from. */
  predicate HandlerReady(c: Setup, s: State, step: Step)
    requires Shaped(c, s) && Enabled(c, s, step) && !IsServerStep(step) && !IsWorkerStep(step)
  {
    && step.r < |c.plan| && s.names[c.plan[step.r].test] == c.plan[step.r].name
    && LinkInv(c, s.rounds[step.r].handlers[step.w], s.links[step.w], step.r, step.w)
  }

  lemma SendInitKeeps(c: Setup, s: State, r: nat, w: nat)
    requires Shaped(c, s) && Enabled(c, s, SendInit(r, w)) && HandlerReady(c, s, SendInit(r, w))
    ensures HandlerKeeps(c, s, SendInit(r, w))
  {
    DeliveredToWorker(c, s.links[w], r, w);
  }

  lemma ReceiveKeeps(c: Setup, s: State, r: nat, w: nat)
    requires Shaped(c, s) && Enabled(c, s, Receive(r, w)) && HandlerReady(c, s, Receive(r, w))
    ensures HandlerKeeps(c, s, Receive(r, w))
  {
    ReceivedFromWorker(c, s.rounds[r].handlers[w].posted, s.links[w], r, w);
  }

  lemma SendStartKeeps(c: Setup, s: State, r: nat, w: nat)
    requires Shaped(c, s) && Enabled(c, s, SendStart(r, w)) && HandlerReady(c, s, SendStart(r, w))
    ensures HandlerKeeps(c, s, SendStart(r, w))
  {
    DeliveredToWorker(c, s.links[w], r, w);
  }

  lemma HandlerFailsKeeps(c: Setup, s: State, r: nat, w: nat)
    requires Shaped(c, s) && Enabled(c, s, HandlerFails(r, w)) && HandlerReady(c, s, HandlerFails(r, w))
    ensures HandlerKeeps(c, s, HandlerFails(r, w))
  {
  }

  lemma PostPreparedKeeps(c: Setup, s: State, r: nat, w: nat)
    requires Shaped(c, s) && Enabled(c, s, PostPrepared(r, w)) && HandlerReady(c, s, PostPrepared(r, w))
    ensures HandlerKeeps(c, s, PostPrepared(r, w))
  {
    TokenPosted(s.rounds[r].done, Prepared);
  }

  lemma TakeContinueKeeps(c: Setup, s: State, r: nat, w: nat)
    requires Shaped(c, s) && Enabled(c, s, TakeContinue(r, w)) && HandlerReady(c, s, TakeContinue(r, w))
    ensures HandlerKeeps(c, s, TakeContinue(r, w))
  {
  }

  lemma PostFinishedKeeps(c: Setup, s: State, r: nat, w: nat)
    requires Shaped(c, s) && Enabled(c, s, PostFinished(r, w)) && HandlerReady(c, s, PostFinished(r, w))
    ensures HandlerKeeps(c, s, PostFinished(r, w))
  {
    TokenPosted(s.rounds[r].done, Finished);
  }

  lemma PostResultKeeps(c: Setup, s: State, r: nat, w: nat)
    requires Shaped(c, s) && Enabled(c, s, PostResult(r, w)) && HandlerReady(c, s, PostResult(r, w))
    ensures HandlerKeeps(c, s, PostResult(r, w))
  {
  }

  lemma HandlerStepKeeps(c: Setup, s: State, step: Step)
    requires Shaped(c, s) && Enabled(c, s, step) && !IsServerStep(step) && !IsWorkerStep(step) && HandlerReady(c, s, step)
    ensures HandlerKeeps(c, s, step)
  {
    if step.SendInit? {
      SendInitKeeps(c, s, step.r, step.w);
    } else if step.Receive? {
      ReceiveKeeps(c, s, step.r, step.w);
    } else if step.SendStart? {
      SendStartKeeps(c, s, step.r, step.w);
    } else if step.HandlerFails? {
      HandlerFailsKeeps(c, s, step.r, step.w);
    } else if step.PostPrepared? {
      PostPreparedKeeps(c, s, step.r, step.w);
    } else if step.TakeContinue? {
      TakeContinueKeeps(c, s, step.r, step.w);
    } else if step.PostFinished? {
      PostFinishedKeeps(c, s, step.r, step.w);
    } else {
      PostResultKeeps(c, s, step.r, step.w);
    }
  }

  /** A step of a handler touches its place in its round, the channels of the round and its connection. */
  lemma HandlerTouches(c: Setup, s: State, step: Step)
    requires Shaped(c, s) && Enabled(c, s, step) && !IsServerStep(step) && !IsWorkerStep(step)
    ensures var r, w, s' := step.r, step.w, Apply(c, s, step);
      && s' == s.(rounds := s.rounds[r := s'.rounds[r]], links := s.links[w := s'.links[w]])
      && s'.rounds[r].handlers == s.rounds[r].handlers[w := s'.rounds[r].handlers[w]]
      && s'.links[w].up == s.links[w].up
      && !s.rounds[r].handlers[w].Returned?
  {
  }

  lemma HandlerStepKeepsInv(c: Setup, s: State, step: Step)
    requires Inv(c, s) && Enabled(c, s, step) && !IsServerStep(step) && !IsWorkerStep(step)
    ensures Inv(c, Apply(c, s, step))
  {
    var r, w, s' := step.r, step.w, Apply(c, s, step);
    HandlerTouches(c, s, step);
    OnlyCurrentHandlersAct(c, s, r, w);
    HandlerStepKeeps(c, s, step);
    HandlerMoved(c, s, r, w, s'.rounds[r].handlers[w], s'.rounds[r], s'.links[w], s');
  }

  // ----- Steps of the workers and of the network

  lemma WorkerReceived(c: Setup, h: Handler, l: Link, r: nat, w: nat)
    requires c.workers >= 1 && r < |c.plan| && LinkInv(c, h, l, r, w) && l.worker == Idle && l.toWorker != []
    ensures LinkInv(c, h, Accept(c, l), r, w)
  {
    assert l.toWorker[1..] == [];
  }

  lemma PreparationsFinished(c: Setup, h: Handler, l: Link, r: nat, w: nat)
    requires c.workers >= 1 && r < |c.plan| && LinkInv(c, h, l, r, w) && l.worker == Preparing
    ensures LinkInv(c, h, Answer(l, PreparationsDone).(worker := Idle, answers := l.answers + 1), r, w)
  {
  }

  lemma WorkFinished(c: Setup, h: Handler, l: Link, r: nat, w: nat, result: BenchmarkResult)
    requires c.workers >= 1 && r < |c.plan| && LinkInv(c, h, l, r, w) && l.worker == Working
    requires l.assignment.Some? && result.testName == l.assignment.value.testName
    ensures LinkInv(c, h, Answer(l, WorkDone(result)).(worker := Idle, reports := l.reports + [result]), r, w)
    ensures |l.reports| == r && LeafCount(c.plan[r].shape) > 0 && result.testName == c.plan[r].name
  {
  }

  /** What a step of a worker asks of its connection. */
  predicate WorkerCan(l: Link, step: Step) {
    && IsWorkerStep(step)
    && (step.WorkerReceives? ==> l.worker == Idle && l.toWorker != [])
    && (step.FinishPreparations? ==> l.worker == Preparing)
    && (step.FinishWork? ==>
          l.worker == Working && l.assignment.Some? && step.result.testName == l.assignment.value.testName)
    && (step.WorkerFails? ==> l.worker == Idle && !l.up)
  }

  lemma WorkerStepKeepsResting(c: Setup, l: Link, n: nat, step: Step)
    requires Resting(l, n) && WorkerCan(l, step)
    ensures Resting(WorkerStep(c, l, step), n) && WorkerStep(c, l, step).reports == l.reports
  {
  }

  lemma RealWorkGrows(c: Setup, reports: seq<BenchmarkResult>, result: BenchmarkResult)
    requires RealWork(c, reports) && |reports| < |c.plan|
    requires LeafCount(c.plan[|reports|].shape) > 0 && result.testName == c.plan[|reports|].name
    ensures RealWork(c, reports + [result])
  {
    var reports' := reports + [result];
    forall r | 0 <= r < |reports'| ensures LeafCount(c.plan[r].shape) > 0 && reports'[r].testName == c.plan[r].name {
      assert r < |reports| ==> reports'[r] == reports[r];
    }
  }

  /** A connection that drops, or whose worker notices that it has. */
  lemma LinkLost(c: Setup, h: Handler, l: Link, r: nat, w: nat, step: Step)
    requires c.workers >= 1 && r < |c.plan| && LinkInv(c, h, l, r, w) && WorkerCan(l, step) && (step.WorkerFails? || step.Drop?)
    ensures LinkInv(c, h, WorkerStep(c, l, step), r, w)
  {
  }

  lemma WorkerStepKeepsLink(c: Setup, h: Handler, l: Link, r: nat, w: nat, step: Step)
    requires c.workers >= 1 && r < |c.plan| && LinkInv(c, h, l, r, w) && WorkerCan(l, step)
    ensures LinkInv(c, h, WorkerStep(c, l, step), r, w)
  {
    if step.WorkerReceives? {
      WorkerReceived(c, h, l, r, w);
    } else if step.FinishPreparations? {
      PreparationsFinished(c, h, l, r, w);
    } else if step.FinishWork? {
      WorkFinished(c, h, l, r, w, step.result);
    } else {
      LinkLost(c, h, l, r, w, step);
    }
  }

  lemma WorkerStepKeepsReports(c: Setup, h: Handler, l: Link, r: nat, w: nat, step: Step)
    requires c.workers >= 1 && r < |c.plan| && LinkInv(c, h, l, r, w) && RealWork(c, l.reports) && WorkerCan(l, step)
    ensures RealWork(c, WorkerStep(c, l, step).reports) && l.reports <= WorkerStep(c, l, step).reports
  {
    if step.FinishWork? {
      WorkFinished(c, h, l, r, w, step.result);
      RealWorkGrows(c, l.reports, step.result);
    }
  }

  predicate LinkCould(c: Setup, s: State, w: nat, l: Link)
    requires Shaped(c, s) && w < c.workers
  {
    if s.server == Between then Resting(l, |s.rounds|)
    else LinkInv(c, s.rounds[|s.rounds| - 1].handlers[w], l, |s.rounds| - 1, w)
  }

  lemma WorkerStepKeepsLinkHolds(c: Setup, s: State, step: Step)
    requires Shaped(c, s) && IsWorkerStep(step) && step.w < c.workers && WorkerCan(s.links[step.w], step)
    requires LinkHolds(c, s, step.w) && RealWork(c, s.links[step.w].reports)
    ensures LinkCould(c, s, step.w, WorkerStep(c, s.links[step.w], step))
    ensures var reports := WorkerStep(c, s.links[step.w], step).reports; RealWork(c, reports) && s.links[step.w].reports <= reports
  {
    var w := step.w;
    if s.server == Between {
      WorkerStepKeepsResting(c, s.links[w], |s.rounds|, step);
    } else {
      WorkerStepKeepsLink(c, s.rounds[|s.rounds| - 1].handlers[w], s.links[w], |s.rounds| - 1, w, step);
      WorkerStepKeepsReports(c, s.rounds[|s.rounds| - 1].handlers[w], s.links[w], |s.rounds| - 1, w, step);
    }
  }

  lemma WorkerMoved(c: Setup, s: State, w: nat, l': Link)
    requires Inv(c, s) && w < c.workers
    requires LinkCould(c, s, w, l') && RealWork(c, l'.reports) && s.links[w].reports <= l'.reports
    ensures Inv(c, SetLink(c, s, w, l'))
  {
    LinkMoved(c, s, w, l', SetLink(c, s, w, l'));
  }

  lemma WorkerStepKeepsInv(c: Setup, s: State, step: Step)
    requires Inv(c, s) && Enabled(c, s, step) && IsWorkerStep(step)
    ensures Inv(c, Apply(c, s, step))
  {
    assert LinkHolds(c, s, step.w) && RealWork(c, s.links[step.w].reports);
    WorkerStepKeepsLinkHolds(c, s, step);
    WorkerMoved(c, s, step.w, WorkerStep(c, s.links[step.w], step));
  }

  // ----- Steps of the server

  lemma OneKindOfToken(c: Setup, server: Server, now: Channels, collected: seq<BenchmarkResult>)
    requires Balanced(c, server, now, collected) && |now.handlers| == c.workers && server != Between && server.k < c.workers
    ensures server.AwaitPrepared? ==> Finished !in now.done
    ensures server.AwaitFinished? ==> Prepared !in now.done
  {
    AtLeastBounds(now.handlers, HAS_CONTINUED, HAS_FINISHED);
    AtLeastBounds(now.handlers, HAS_PREPARED, HAS_PREPARED);
    assert server.AwaitPrepared? ==> Tokens(now.done, Finished) == 0;
    assert server.AwaitFinished? ==> Tokens(now.done, Prepared) == 0;
  }

  /** The tokens cannot be confused: whatever the server takes while it waits for preparations is a prepared token,
      and whatever it takes while it waits for the end of the work is a finished token. */
  lemma TokensNeverConfused(c: Setup, s: State)
    requires Inv(c, s)
    ensures s.server.AwaitPrepared? ==> Finished !in s.rounds[|s.rounds| - 1].done
    ensures s.server.AwaitFinished? ==> Prepared !in s.rounds[|s.rounds| - 1].done
  {
    if s.server != Between {
      OneKindOfToken(c, s.server, s.rounds[|s.rounds| - 1], s.collected);
    }
  }

  lemma TakenFromChannel<T>(s: seq<T>)
    requires s != []
    ensures multiset(s) == multiset(s[1..]) + multiset{s[0]}
  {
    assert s == [s[0]] + s[1..];
  }

  lemma {:induction false} NothingPosted(hs: seq<Handler>, k: nat)
    requires forall w :: 0 <= w < |hs| ==> hs[w] == Absent
    requires k > 0
    ensures AtLeast(hs, k) == 0 && Posted(hs) == multiset{}
  {
    if hs != [] {
      NothingPosted(hs[..|hs| - 1], k);
    }
  }

  lemma BeginRoundKeepsInv(c: Setup, s: State)
    requires Inv(c, s) && Enabled(c, s, BeginRound)
    ensures Inv(c, Apply(c, s, BeginRound))
  {
    var s' := Apply(c, s, BeginRound);
    var hs := s'.rounds[|s.rounds|].handlers;
    NothingPosted(hs, HAS_PREPARED);
    NothingPosted(hs, HAS_CONTINUED);
    NothingPosted(hs, HAS_FINISHED);
    NothingPosted(hs, HAS_RETURNED);
    forall r | 0 <= r < Completed(s') ensures Over(c, s', r) {
      assert Over(c, s, r);
    }
    forall i | 0 <= i < c.workers ensures LinkHolds(c, s', i) && RealWork(c, s'.links[i].reports) {
      assert LinkHolds(c, s, i) && RealWork(c, s.links[i].reports);
    }
    assert Balanced(c, s'.server, s'.rounds[|s.rounds|], s'.collected);
  }

  lemma SpawnCountsNothing(hs: seq<Handler>, k: nat)
    requires k < |hs| && hs[k] == Absent
    ensures forall rank :: rank == HAS_PREPARED || rank == HAS_CONTINUED || rank == HAS_FINISHED || rank == HAS_RETURNED ==>
      AtLeast(hs[k := Starting], rank) == AtLeast(hs, rank)
    ensures Posted(hs[k := Starting]) == Posted(hs)
  {
    AtLeastUpdated(hs, k, Starting, HAS_PREPARED);
    AtLeastUpdated(hs, k, Starting, HAS_CONTINUED);
    AtLeastUpdated(hs, k, Starting, HAS_FINISHED);
    AtLeastUpdated(hs, k, Starting, HAS_RETURNED);
    PostedUpdated(hs, k, Starting);
  }

  lemma SpawnBalances(c: Setup, server: Server, now: Channels, collected: seq<BenchmarkResult>, server': Server)
    requires server.Spawning? && server.k < |now.handlers| && now.handlers[server.k] == Absent
    requires Balanced(c, server, now, collected) && (server'.Spawning? || server' == AwaitPrepared(0))
    ensures Balanced(c, server', now.(handlers := now.handlers[server.k := Starting]), collected)
  {
    SpawnCountsNothing(now.handlers, server.k);
  }

  lemma SpawnKeepsInv(c: Setup, s: State)
    requires Inv(c, s) && Enabled(c, s, Spawn)
    ensures Inv(c, Apply(c, s, Spawn))
  {
    var s' := Apply(c, s, Spawn);
    SpawnBalances(c, s.server, s.rounds[|s.rounds| - 1], s.collected, s'.server);
    RoundsStayOver(c, s, s');
    assert LinkHolds(c, s, s.server.k) && RealWork(c, s.links[s.server.k].reports);
    LinksStay(c, s, s', s.server.k);
  }

  lemma TakePreparedBalances(c: Setup, now: Channels, collected: seq<BenchmarkResult>, k: nat, server': Server)
    requires k < c.workers && Balanced(c, AwaitPrepared(k), now, collected) && |now.handlers| == c.workers && now.done != []
    requires server' == if k + 1 == c.workers then Releasing(0) else AwaitPrepared(k + 1)
    ensures Balanced(c, server', now.(done := now.done[1..]), collected)
  {
    OneKindOfToken(c, AwaitPrepared(k), now, collected);
    TakenFromChannel(now.done);
    assert now.done[0] in now.done && now.done[0] == Prepared;
  }

  lemma TakePreparedKeepsInv(c: Setup, s: State)
    requires Inv(c, s) && Enabled(c, s, TakePrepared)
    ensures Inv(c, Apply(c, s, TakePrepared))
  {
    var s' := Apply(c, s, TakePrepared);
    TakePreparedBalances(c, s.rounds[|s.rounds| - 1], s.collected, s.server.k, s'.server);
    ServerMoved(c, s, s'.rounds[|s.rounds| - 1], s');
  }

  lemma TakeFinishedBalances(c: Setup, now: Channels, collected: seq<BenchmarkResult>, k: nat)
    requires k < c.workers && Balanced(c, AwaitFinished(k), now, collected) && |now.handlers| == c.workers && now.done != []
    ensures Balanced(c, AwaitResult(k), now.(done := now.done[1..]), collected)
  {
    OneKindOfToken(c, AwaitFinished(k), now, collected);
    TakenFromChannel(now.done);
    assert now.done[0] in now.done && now.done[0] == Finished;
  }

  lemma TakeFinishedKeepsInv(c: Setup, s: State)
    requires Inv(c, s) && Enabled(c, s, TakeFinished)
    ensures Inv(c, Apply(c, s, TakeFinished))
  {
    var s' := Apply(c, s, TakeFinished);
    TakeFinishedBalances(c, s.rounds[|s.rounds| - 1], s.collected, s.server.k);
    ServerMoved(c, s, s'.rounds[|s.rounds| - 1], s');
  }

  lemma ReleaseKeepsInv(c: Setup, s: State)
    requires Inv(c, s) && Enabled(c, s, Release)
    ensures Inv(c, Apply(c, s, Release))
  {
    var s' := Apply(c, s, Release);
    ServerMoved(c, s, s'.rounds[|s.rounds| - 1], s');
  }

  lemma SomeToken(done: seq<Token>)
    ensures done != [] ==> Tokens(done, Prepared) + Tokens(done, Finished) > 0
  {
    assert done != [] ==> done[0] in multiset(done) && (done[0] == Prepared || done[0] == Finished);
  }

  lemma AllReturned(c: Setup, now: Channels, collected: seq<BenchmarkResult>)
    requires c.workers >= 1 && |now.handlers| == c.workers && now.results != []
    requires Balanced(c, AwaitResult(c.workers - 1), now, collected)
    ensures now.done == [] && |now.results| == 1 && now.continueWorkers == 0
    ensures forall w :: 0 <= w < c.workers ==> Rank(now.handlers[w]) >= HAS_RETURNED
  {
    AtLeastBounds(now.handlers, HAS_PREPARED, HAS_RETURNED);
    AtLeastBounds(now.handlers, HAS_CONTINUED, HAS_RETURNED);
    AtLeastBounds(now.handlers, HAS_FINISHED, HAS_RETURNED);
    AtLeastBounds(now.handlers, HAS_PREPARED, HAS_PREPARED);
    AtLeastBounds(now.handlers, HAS_CONTINUED, HAS_CONTINUED);
    AtLeastBounds(now.handlers, HAS_FINISHED, HAS_FINISHED);
    AllAtLeast(now.handlers, HAS_RETURNED);
    assert Tokens(now.done, Prepared) == 0 && Tokens(now.done, Finished) == 0;
    SomeToken(now.done);
  }

  /** When the server has taken a result from every worker, the round is over for good. */
  lemma LastResultEndsRound(c: Setup, s: State)
    requires Inv(c, s) && s.server.AwaitResult? && s.server.k + 1 == c.workers
    requires s.rounds[|s.rounds| - 1].results != []
    ensures var r := |s.rounds| - 1; var now := s.rounds[r];
      && now.done == [] && |now.results| == 1 && now.continueWorkers == 0
      && forall w :: 0 <= w < c.workers ==>
          now.handlers[w].Returned? && Resting(s.links[w], r + 1) && now.handlers[w] == Returned(s.links[w].reports[r])
  {
    var r := |s.rounds| - 1;
    var now := s.rounds[r];
    AllReturned(c, now, s.collected);
    forall w | 0 <= w < c.workers
      ensures now.handlers[w].Returned? && Resting(s.links[w], r + 1) && now.handlers[w] == Returned(s.links[w].reports[r])
    {
      assert Rank(now.handlers[w]) >= HAS_RETURNED;
      assert LinkHolds(c, s, w);
    }
  }

  lemma TakeResultBalances(c: Setup, now: Channels, collected: seq<BenchmarkResult>, k: nat)
    requires k + 1 < c.workers && Balanced(c, AwaitResult(k), now, collected) && now.results != []
    ensures Balanced(c, AwaitFinished(k + 1), now.(results := now.results[1..]), collected + [now.results[0]])
  {
    assert (collected + [now.results[0]]) + now.results[1..] == collected + now.results;
  }

  /** The state after the server has taken a result. */
  lemma ResultTaken(c: Setup, s: State)
    requires Shaped(c, s) && Enabled(c, s, TakeResult)
    ensures var s', r := Apply(c, s, TakeResult), |s.rounds| - 1;
      var now := s.rounds[r];
      var rounds := s.rounds[r := now.(results := now.results[1..])];
      s' == if s.server.k + 1 == c.workers
            then s.(rounds := rounds, server := Between, collected := [], recorded := s.recorded + [s.collected + [now.results[0]]])
            else s.(rounds := rounds, server := AwaitFinished(s.server.k + 1), collected := s.collected + [now.results[0]])
  {
  }

  lemma EarlyResultTaken(c: Setup, s: State)
    requires Shaped(c, s) && Enabled(c, s, TakeResult) && s.server.k + 1 != c.workers
    ensures var s', r := Apply(c, s, TakeResult), |s.rounds| - 1;
      var now := s.rounds[r];
      s' == s.(server := AwaitFinished(s.server.k + 1), collected := s.collected + [now.results[0]],
               rounds := s.rounds[r := now.(results := now.results[1..])])
  {
    ResultTaken(c, s);
  }

  lemma TakeResultKeepsInv(c: Setup, s: State)
    requires Inv(c, s) && Enabled(c, s, TakeResult) && s.server.k + 1 < c.workers
    ensures Inv(c, Apply(c, s, TakeResult))
  {
    var now := s.rounds[|s.rounds| - 1];
    EarlyResultTaken(c, s);
    TakeResultBalances(c, now, s.collected, s.server.k);
    ServerMoved(c, s, now.(results := now.results[1..]), Apply(c, s, TakeResult));
  }

  lemma RecordedIsPosted(c: Setup, now: Channels, collected: seq<BenchmarkResult>)
    requires c.workers >= 1 && |now.results| == 1 && Balanced(c, AwaitResult(c.workers - 1), now, collected)
    ensures |collected + [now.results[0]]| == c.workers && multiset(collected + [now.results[0]]) == Posted(now.handlers)
  {
    assert collected + [now.results[0]] == collected + now.results;
  }

  lemma RoundIsOver(c: Setup, s: State, s': State, r: nat)
    requires Shaped(c, s) && Shaped(c, s') && r < |s.rounds| && |s'.rounds| == |s.rounds| && s'.links == s.links
    requires s'.rounds[r] == s.rounds[r].(results := []) && s.rounds[r].done == [] && s.rounds[r].continueWorkers == 0
    requires forall w :: 0 <= w < c.workers ==>
      Resting(s.links[w], r + 1) && s.rounds[r].handlers[w] == Returned(s.links[w].reports[r])
    ensures Over(c, s', r)
  {
  }

  lemma OneMoreOver(c: Setup, s: State, s': State, result: seq<BenchmarkResult>)
    requires Shaped(c, s) && Shaped(c, s') && RoundsOver(c, s) && s.server != Between && s'.server == Between
    requires |s'.rounds| == |s.rounds| && s'.links == s.links && s'.recorded == s.recorded + [result]
    requires forall r :: 0 <= r < |s.rounds| - 1 ==> s'.rounds[r] == s.rounds[r]
    requires Over(c, s', |s.rounds| - 1)
    requires |result| == c.workers && multiset(result) == Posted(s'.rounds[|s.rounds| - 1].handlers)
    ensures RoundsOver(c, s')
  {
    forall r | 0 <= r < Completed(s') ensures Over(c, s', r) {
      if r < |s.rounds| - 1 {
        assert Over(c, s, r);
        OverStays(c, s, s', r);
      }
    }
  }

  /** The round that ends with the last result is over, and those before it still are. */
  lemma LastResultEndsRounds(c: Setup, s: State)
    requires Inv(c, s) && Enabled(c, s, TakeResult) && s.server.k + 1 == c.workers
    ensures RoundsOver(c, Apply(c, s, TakeResult))
  {
    var s', r := Apply(c, s, TakeResult), |s.rounds| - 1;
    ResultTaken(c, s);
    LastResultEndsRound(c, s);
    RecordedIsPosted(c, s.rounds[r], s.collected);
    RoundIsOver(c, s, s', r);
    OneMoreOver(c, s, s', s.collected + [s.rounds[r].results[0]]);
  }

  lemma TakeLastResultKeepsInv(c: Setup, s: State)
    requires Inv(c, s) && Enabled(c, s, TakeResult) && s.server.k + 1 == c.workers
    ensures Inv(c, Apply(c, s, TakeResult))
  {
    var s' := Apply(c, s, TakeResult);
    LastResultEndsRound(c, s);
    LastResultEndsRounds(c, s);
    forall i | 0 <= i < c.workers ensures LinkHolds(c, s', i) && RealWork(c, s'.links[i].reports) {
      assert RealWork(c, s.links[i].reports);
    }
  }

  lemma ServerStepKeepsInv(c: Setup, s: State, step: Step)
    requires Inv(c, s) && Enabled(c, s, step) && IsServerStep(step)
    ensures Inv(c, Apply(c, s, step))
  {
    if step.BeginRound? {
      BeginRoundKeepsInv(c, s);
    } else if step.Spawn? {
      SpawnKeepsInv(c, s);
    } else if step.TakePrepared? {
      TakePreparedKeepsInv(c, s);
    } else if step.Release? {
      ReleaseKeepsInv(c, s);
    } else if step.TakeFinished? {
      TakeFinishedKeepsInv(c, s);
    } else if s.server.k + 1 < c.workers {
      TakeResultKeepsInv(c, s);
    } else {
      assert Positioned(c, s.server, s.rounds[|s.rounds| - 1]);
      TakeLastResultKeepsInv(c, s);
    }
  }

  // ----- All steps

  lemma StepKeepsInv(c: Setup, s: State, step: Step)
    requires Inv(c, s) && Enabled(c, s, step)
    ensures Inv(c, Apply(c, s, step))
  {
    if IsServerStep(step) {
      ServerStepKeepsInv(c, s, step);
    } else if IsWorkerStep(step) {
      WorkerStepKeepsInv(c, s, step);
    } else {
      HandlerStepKeepsInv(c, s, step);
    }
  }

  /** The invariant holds after every run, whatever the order of the steps and whichever connections drop. */
  lemma {:induction false} RunKeepsInv(c: Setup, steps: seq<Step>)
    requires c.Valid()
    ensures Execute(c, steps).Some? ==> Inv(c, Execute(c, steps).value)
  {
    if steps != [] {
      var before := Execute(c, steps[..|steps| - 1]);
      var step := steps[|steps| - 1];
      RunKeepsInv(c, steps[..|steps| - 1]);
      if before.Some? && Enabled(c, before.value, step) {
        StepKeepsInv(c, before.value, step);
      }
    }
  }
}
