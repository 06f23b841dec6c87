/** The inductive invariant of the round protocol, kept by every step, dropped connections included. */
module ProtocolInvariant {
  import opened BenchmarkPlan
  import opened BenchmarkResults
  import opened Options
  import opened RoundProtocol

  // ----- Counting over the handlers of a round

  /** How far a handler has come. */
  function Rank(h: Handler): nat {
    match h
    case Absent => 0
    case Starting => 1
    case Decoding(posted) => if posted then 6 else 2
    case Failed(posted) => if posted then 6 else 2
    case PostingPrepared => 3
    case AwaitingContinue => 4
    case SendingStart => 5
    case PostingFinished(_) => 7
    case PostingResult(_) => 8
    case Returned(_) => 9
  }

  const HAS_PREPARED: nat := 4   // has posted its prepared token
  const HAS_CONTINUED: nat := 5  // has taken a continue token
  const HAS_FINISHED: nat := 8   // has posted its finished token
  const HAS_RETURNED: nat := 9   // has posted its result

  /** The number of handlers of rank `k` or more. */
  function AtLeast(hs: seq<Handler>, k: nat): nat {
    if hs == [] then 0
    else AtLeast(hs[..|hs| - 1], k) + (if Rank(hs[|hs| - 1]) >= k then 1 else 0)
  }

  function PostedBy(h: Handler): multiset<BenchmarkResult> {
    if h.Returned? then multiset{h.result} else multiset{}
  }

  /** The results the returned handlers have posted. */
  function Posted(hs: seq<Handler>): multiset<BenchmarkResult> {
    if hs == [] then multiset{} else Posted(hs[..|hs| - 1]) + PostedBy(hs[|hs| - 1])
  }

  function Tokens(done: seq<Token>, kind: Token): nat {
    multiset(done)[kind]
  }

  lemma {:induction false} AtLeastUpdated(hs: seq<Handler>, w: nat, h: Handler, k: nat)
    requires w < |hs|
    ensures AtLeast(hs[w := h], k) + (if Rank(hs[w]) >= k then 1 else 0) == AtLeast(hs, k) + (if Rank(h) >= k then 1 else 0)
  {
    var last := |hs| - 1;
    if w == last {
      assert hs[w := h][..last] == hs[..last];
    } else {
      assert hs[w := h][..last] == hs[..last][w := h];
      AtLeastUpdated(hs[..last], w, h, k);
    }
  }

  lemma Shuffle<T>(a: multiset<T>, b: multiset<T>, c: multiset<T>)
    ensures (a + b) + c == (a + c) + b
    ensures a + multiset{} == a
  {
  }

  lemma {:induction false} PostedUpdated(hs: seq<Handler>, w: nat, h: Handler)
    requires w < |hs| && !hs[w].Returned?
    ensures Posted(hs[w := h]) == Posted(hs) + PostedBy(h)
  {
    var last := |hs| - 1;
    Shuffle(Posted(hs[..last]), PostedBy(h), PostedBy(hs[last]));
    if w == last {
      assert hs[w := h][..last] == hs[..last];
    } else {
      assert hs[w := h][..last] == hs[..last][w := h];
      PostedUpdated(hs[..last], w, h);
    }
  }

  lemma {:induction false} AtLeastBounds(hs: seq<Handler>, low: nat, high: nat)
    requires low <= high
    ensures AtLeast(hs, high) <= AtLeast(hs, low) <= |hs|
  {
    if hs != [] {
      AtLeastBounds(hs[..|hs| - 1], low, high);
    }
  }

  lemma {:induction false} AllAtLeast(hs: seq<Handler>, k: nat)
    ensures AtLeast(hs, k) == |hs| <==> forall w :: 0 <= w < |hs| ==> Rank(hs[w]) >= k
  {
    if hs != [] {
      var init := hs[..|hs| - 1];
      AllAtLeast(init, k);
      AtLeastBounds(init, k, k);
      assert forall w :: 0 <= w < |init| ==> init[w] == hs[w];
    }
  }

  lemma {:induction false} NoneAtLeast(hs: seq<Handler>, k: nat)
    ensures AtLeast(hs, k) == 0 <==> forall w :: 0 <= w < |hs| ==> Rank(hs[w]) < k
  {
    if hs != [] {
      var init := hs[..|hs| - 1];
      NoneAtLeast(init, k);
      assert forall w :: 0 <= w < |init| ==> init[w] == hs[w];
    }
  }

  // ----- One connection

  /** Nothing is in flight and the worker has gone through exactly `n` rounds. */
  predicate Resting(l: Link, n: nat) {
    && l.toWorker == [] && l.fromWorker == []
    && Counts(l, n, n, n, n)
    && ParkedWorker(l)
  }

  predicate Counts(l: Link, inits: nat, answers: nat, starts: nat, reports: nat) {
    l.inits == inits && l.answers == answers && l.starts == starts && |l.reports| == reports
  }

  /** The worker decodes, or it has left, which it does only when the connection is down. */
  predicate ParkedWorker(l: Link) {
    l.worker == Idle || (l.worker == Left && !l.up)
  }

  predicate AssignedTo(c: Setup, l: Link, r: nat, w: nat)
    requires c.workers >= 1 && r < |c.plan|
  {
    l.assignment == Some(Assignment(r, TreeOf(c, c.plan[r].op, w), c.plan[r].name))
  }

  /** Between sending "init" and receiving "preparations done". */
  predicate PreparingLink(c: Setup, l: Link, r: nat, w: nat)
    requires c.workers >= 1 && r < |c.plan|
  {
    var init := Init(Assignment(r, TreeOf(c, c.plan[r].op, w), c.plan[r].name));
    || (Counts(l, r, r, r, r) && ParkedWorker(l) && l.fromWorker == [] && (l.toWorker == [init] || (l.toWorker == [] && !l.up)))
    || (Counts(l, r + 1, r, r, r) && l.worker == Preparing && l.fromWorker == [] && l.toWorker == [] && AssignedTo(c, l, r, w))
    || (Counts(l, r + 1, r + 1, r, r) && ParkedWorker(l) && l.toWorker == [] && AssignedTo(c, l, r, w)
        && (l.fromWorker == [PreparationsDone] || (l.fromWorker == [] && !l.up)))
  }

  /** Between receiving "preparations done" and sending "start work". */
  predicate PreparedLink(c: Setup, l: Link, r: nat, w: nat)
    requires c.workers >= 1 && r < |c.plan|
  {
    Counts(l, r + 1, r + 1, r, r) && ParkedWorker(l) && l.toWorker == [] && l.fromWorker == [] && AssignedTo(c, l, r, w)
  }

  /** Between sending "start work" and receiving "work done". */
  predicate WorkingLink(c: Setup, l: Link, r: nat, w: nat)
    requires c.workers >= 1 && r < |c.plan|
  {
    || (Counts(l, r + 1, r + 1, r, r) && ParkedWorker(l) && l.fromWorker == [] && AssignedTo(c, l, r, w)
        && (l.toWorker == [StartWork] || (l.toWorker == [] && !l.up)))
    || (Counts(l, r + 1, r + 1, r + 1, r) && l.toWorker == [] && l.fromWorker == [] && AssignedTo(c, l, r, w)
        && (if l.worker == Working then LeafCount(c.plan[r].shape) > 0 else l.worker == Left && !l.up))
    || (Counts(l, r + 1, r + 1, r + 1, r + 1) && ParkedWorker(l) && l.toWorker == []
        && (l.fromWorker == [WorkDone(l.reports[r])] || (l.fromWorker == [] && !l.up)))
  }

  /** What a connection looks like while its handler of round `r` is at `h`. */
  predicate LinkInv(c: Setup, h: Handler, l: Link, r: nat, w: nat)
    requires c.workers >= 1 && r < |c.plan|
  {
    match h
    case Absent => Resting(l, r)
    case Starting => Resting(l, r)
    case Decoding(posted) => if posted then WorkingLink(c, l, r, w) else PreparingLink(c, l, r, w)
    case Failed(posted) => !l.up && if posted then WorkingLink(c, l, r, w) else PreparingLink(c, l, r, w)
    case PostingPrepared => PreparedLink(c, l, r, w)
    case AwaitingContinue => PreparedLink(c, l, r, w)
    case SendingStart => PreparedLink(c, l, r, w)
    case PostingFinished(result) => Resting(l, r + 1) && result == l.reports[r]
    case PostingResult(result) => Resting(l, r + 1) && result == l.reports[r]
    case Returned(result) => Resting(l, r + 1) && result == l.reports[r]
  }

  // ----- The channels of the round under way

  /** How many prepared tokens, continue tokens, finished tokens and results the server has dealt with. */
  function TakenPrepared(c: Setup, server: Server): nat {
    match server
    case Spawning(_) => 0
    case AwaitPrepared(k) => k
    case _ => c.workers
  }

  function Released(c: Setup, server: Server): nat {
    match server
    case Spawning(_) => 0
    case AwaitPrepared(_) => 0
    case Releasing(k) => k
    case _ => c.workers
  }

  function TakenFinished(c: Setup, server: Server): nat {
    match server
    case AwaitFinished(k) => k
    case AwaitResult(k) => k + 1
    case Between => c.workers
    case _ => 0
  }

  function TakenResults(c: Setup, server: Server): nat {
    match server
    case AwaitFinished(k) => k
    case AwaitResult(k) => k
    case Between => c.workers
    case _ => 0
  }

  /** Every token and every result is accounted for: posted by a handler, and either taken or still in its channel. */
  predicate Balanced(c: Setup, server: Server, now: Channels, collected: seq<BenchmarkResult>) {
    && TakenPrepared(c, server) + Tokens(now.done, Prepared) == AtLeast(now.handlers, HAS_PREPARED)
    && TakenFinished(c, server) + Tokens(now.done, Finished) == AtLeast(now.handlers, HAS_FINISHED)
    && Released(c, server) == now.continueWorkers + AtLeast(now.handlers, HAS_CONTINUED)
    && TakenResults(c, server) + |now.results| == AtLeast(now.handlers, HAS_RETURNED)
    && |collected| == TakenResults(c, server)
    && multiset(collected + now.results) == Posted(now.handlers)
  }

  predicate Positioned(c: Setup, server: Server, now: Channels) {
    && |now.handlers| == c.workers
    && server != Between && server.k < c.workers
    && forall w :: 0 <= w < c.workers ==> (now.handlers[w] == Absent <==> server.Spawning? && w >= server.k)
  }

  // ----- The whole state

  /** A completed round: every handler has returned and the channels are empty for ever. */
  predicate Over(c: Setup, s: State, r: nat)
    requires Shaped(c, s) && r < |s.rounds|
  {
    && s.rounds[r].done == [] && s.rounds[r].results == [] && s.rounds[r].continueWorkers == 0
    && (forall w :: 0 <= w < c.workers ==> |s.links[w].reports| > r && s.rounds[r].handlers[w] == Returned(s.links[w].reports[r]))
  }

  function Completed(s: State): nat
  {
    if s.server == Between || s.rounds == [] then |s.rounds| else |s.rounds| - 1
  }

  predicate RoundsOver(c: Setup, s: State)
    requires Shaped(c, s)
  {
    && |s.recorded| == Completed(s)
    && (forall r {:trigger Over(c, s, r)} :: 0 <= r < Completed(s) ==> Over(c, s, r))
    && (forall r {:trigger s.recorded[r]} :: 0 <= r < Completed(s) ==>
          |s.recorded[r]| == c.workers && multiset(s.recorded[r]) == Posted(s.rounds[r].handlers))
  }

  predicate LinkHolds(c: Setup, s: State, w: nat)
    requires Shaped(c, s) && w < c.workers
  {
    if s.server == Between then Resting(s.links[w], |s.rounds|)
    else LinkInv(c, s.rounds[|s.rounds| - 1].handlers[w], s.links[w], |s.rounds| - 1, w)
  }

  predicate LinksInv(c: Setup, s: State)
    requires Shaped(c, s)
  {
    forall w {:trigger LinkHolds(c, s, w)} :: 0 <= w < c.workers ==> LinkHolds(c, s, w)
  }

  predicate CurrentInv(c: Setup, s: State)
    requires Shaped(c, s)
  {
    s.server != Between ==>
      var r := |s.rounds| - 1;
      && s.names[c.plan[r].test] == c.plan[r].name
      && Positioned(c, s.server, s.rounds[r])
      && Balanced(c, s.server, s.rounds[r], s.collected)
  }

  /** A worker reports only in rounds that gave it work, and under the name of the round. */
  predicate RealWork(c: Setup, reports: seq<BenchmarkResult>) {
    && |reports| <= |c.plan|
    && forall r {:trigger reports[r]} :: 0 <= r < |reports| ==>
         LeafCount(c.plan[r].shape) > 0 && reports[r].testName == c.plan[r].name
  }

  predicate OnlyRealWork(c: Setup, s: State)
    requires Shaped(c, s)
  {
    forall w {:trigger RealWork(c, s.links[w].reports)} :: 0 <= w < c.workers ==> RealWork(c, s.links[w].reports)
  }

  predicate Inv(c: Setup, s: State) {
    Shaped(c, s) && RoundsOver(c, s) && LinksInv(c, s) && CurrentInv(c, s) && OnlyRealWork(c, s)
  }
}
