/** The rounds between the server and its workers, as a step system.
    The server, one handler goroutine per round and connection, and the workers take turns in any order;
    connections may drop at any time.  Channels are created afresh for every round. */
module RoundProtocol {
  import opened BenchmarkPlan
  import opened BenchmarkResults
  import opened Options

  /** What an item on a round's `doneChannel` stands for.  The channel itself carries plain `true`s,
      and no step below looks at the kind of a token. */
  datatype Token = Prepared | Finished

  datatype Assignment = Assignment(round: nat, tree: nat, testName: string)
  datatype ToWorker = Init(assignment: Assignment) | StartWork
  datatype FromWorker = PreparationsDone | WorkDone(result: BenchmarkResult)

  /** Where a handler goroutine is.  `posted` remembers whether it has announced the end of the preparations. */
  datatype Handler =
    | Absent
    | Starting
    | Decoding(posted: bool)
    | PostingPrepared
    | AwaitingContinue
    | SendingStart
    | PostingFinished(result: BenchmarkResult)
    | PostingResult(result: BenchmarkResult)
    | Returned(result: BenchmarkResult)
    | Failed(posted: bool)

  datatype WorkerState = Idle | Preparing | Working | Left

  /** One connection with the worker at its far end.  The last four fields are its history:
      the number of "init" messages it received, of "preparations done" it sent, of "start work" it received,
      and the results it sent, one per round. */
  datatype Link = Link(
    up: bool,
    toWorker: seq<ToWorker>,
    fromWorker: seq<FromWorker>,
    worker: WorkerState,
    assignment: Option<Assignment>,
    inits: nat,
    answers: nat,
    starts: nat,
    reports: seq<BenchmarkResult>)

  /** The handlers and channels of one round. */
  datatype Channels = Channels(
    handlers: seq<Handler>,
    done: seq<Token>,
    continueWorkers: nat,
    results: seq<BenchmarkResult>)

  datatype Server =
    | Between
    | Spawning(k: nat)
    | AwaitPrepared(k: nat)
    | Releasing(k: nat)
    | AwaitFinished(k: nat)
    | AwaitResult(k: nat)

  datatype State = State(
    server: Server,
    rounds: seq<Channels>,                // every round begun so far; handlers of old rounds are still there
    collected: seq<BenchmarkResult>,      // results of the current round
    recorded: seq<seq<BenchmarkResult>>,  // results of the completed rounds
    names: seq<string>,                   // the Name field of each test, shared and overwritten
    links: seq<Link>)

  datatype Step =
    | BeginRound | Spawn | TakePrepared | Release | TakeFinished | TakeResult
    | SendInit(r: nat, w: nat) | Receive(r: nat, w: nat) | PostPrepared(r: nat, w: nat) | TakeContinue(r: nat, w: nat)
    | SendStart(r: nat, w: nat) | PostFinished(r: nat, w: nat) | PostResult(r: nat, w: nat) | HandlerFails(r: nat, w: nat)
    | WorkerReceives(w: nat) | FinishPreparations(w: nat) | FinishWork(w: nat, result: BenchmarkResult) | WorkerFails(w: nat)
    | Drop(w: nat)

  const FRESH_LINK := Link(true, [], [], Idle, None, 0, 0, 0, [])

  function InitialState(c: Setup): State {
    State(Between, [], [], [], c.testNames, seq(c.workers, i => FRESH_LINK))
  }

  predicate Shaped(c: Setup, s: State) {
    && c.workers >= 1
    && |s.links| == c.workers
    && |s.names| == |c.testNames|
    && |s.rounds| <= |c.plan|
    && (forall r :: 0 <= r < |s.rounds| ==> |s.rounds[r].handlers| == c.workers)
    && (forall r :: 0 <= r < |c.plan| ==> c.plan[r].test < |s.names|)
    && (s.server != Between ==> |s.rounds| > 0)
  }

  predicate AtHandler(s: State, r: nat, w: nat) {
    r < |s.rounds| && w < |s.rounds[r].handlers|
  }

  /** The guard of a step: sends on a full channel, receives on an empty one and decoding an empty queue block. */
  predicate Enabled(c: Setup, s: State, step: Step)
    requires Shaped(c, s)
  {
    match step
    case BeginRound => s.server == Between && |s.rounds| < |c.plan|
    case Spawn => s.server.Spawning? && s.server.k < c.workers
    case TakePrepared => s.server.AwaitPrepared? && s.rounds[|s.rounds| - 1].done != []
    case Release => s.server.Releasing? && s.rounds[|s.rounds| - 1].continueWorkers < c.workers
    case TakeFinished => s.server.AwaitFinished? && s.rounds[|s.rounds| - 1].done != []
    case TakeResult => s.server.AwaitResult? && s.rounds[|s.rounds| - 1].results != []
    case SendInit(r, w) => AtHandler(s, r, w) && s.rounds[r].handlers[w] == Starting
    case Receive(r, w) => AtHandler(s, r, w) && s.rounds[r].handlers[w].Decoding? && s.links[w].fromWorker != []
    case PostPrepared(r, w) =>
      AtHandler(s, r, w) && s.rounds[r].handlers[w] == PostingPrepared && |s.rounds[r].done| < c.workers
    case TakeContinue(r, w) =>
      AtHandler(s, r, w) && s.rounds[r].handlers[w] == AwaitingContinue && s.rounds[r].continueWorkers > 0
    case SendStart(r, w) => AtHandler(s, r, w) && s.rounds[r].handlers[w] == SendingStart
    case PostFinished(r, w) =>
      AtHandler(s, r, w) && s.rounds[r].handlers[w].PostingFinished? && |s.rounds[r].done| < c.workers
    case PostResult(r, w) =>
      AtHandler(s, r, w) && s.rounds[r].handlers[w].PostingResult? && |s.rounds[r].results| < c.workers
    case HandlerFails(r, w) => AtHandler(s, r, w) && s.rounds[r].handlers[w].Decoding? && !s.links[w].up
    case WorkerReceives(w) => w < c.workers && s.links[w].worker == Idle && s.links[w].toWorker != []
    case FinishPreparations(w) => w < c.workers && s.links[w].worker == Preparing
    case FinishWork(w, result) =>
      && w < c.workers && s.links[w].worker == Working
      && s.links[w].assignment.Some? && result.testName == s.links[w].assignment.value.testName
    case WorkerFails(w) => w < c.workers && s.links[w].worker == Idle && !s.links[w].up
    case Drop(w) => w < c.workers && s.links[w].up
  }

  /** A message sent over a dropped connection is lost; the sender does not look at the error. */
  function Deliver(l: Link, message: ToWorker): Link {
    if l.up then l.(toWorker := l.toWorker + [message]) else l
  }

  function Answer(l: Link, message: FromWorker): Link {
    if l.up then l.(fromWorker := l.fromWorker + [message]) else l
  }

  function SetLink(c: Setup, s: State, w: nat, l: Link): (s': State)
    requires Shaped(c, s) && w < c.workers
    ensures Shaped(c, s')
  {
    s.(links := s.links[w := l])
  }

  function SetChannels(c: Setup, s: State, r: nat, channels: Channels): (s': State)
    requires Shaped(c, s) && r < |s.rounds| && |channels.handlers| == c.workers
    ensures Shaped(c, s')
  {
    s.(rounds := s.rounds[r := channels])
  }

  /** The channels of round `r` with handler `w` moved to `h`. */
  function Moved(s: State, r: nat, w: nat, h: Handler): Channels
    requires AtHandler(s, r, w)
  {
    s.rounds[r].(handlers := s.rounds[r].handlers[w := h])
  }

  function Goto(c: Setup, s: State, r: nat, w: nat, h: Handler): (s': State)
    requires Shaped(c, s) && AtHandler(s, r, w)
    ensures Shaped(c, s')
  {
    SetChannels(c, s, r, Moved(s, r, w, h))
  }

  /** What the handler does with a decoded message: the same loop serves both phases. */
  function Dispatch(message: FromWorker): Handler {
    match message
    case PreparationsDone => PostingPrepared
    case WorkDone(result) => PostingFinished(result)
  }

  /** What the worker does with a decoded message.  Told to start with an empty queue, it closes the connection. */
  function Accept(c: Setup, l: Link): Link
    requires l.toWorker != []
  {
    var rest := l.(toWorker := l.toWorker[1..]);
    match l.toWorker[0]
    case Init(a) => rest.(worker := Preparing, assignment := Some(a), inits := l.inits + 1)
    case StartWork =>
      if l.assignment.Some? && l.assignment.value.round < |c.plan| && LeafCount(c.plan[l.assignment.value.round].shape) > 0
      then rest.(worker := Working, starts := l.starts + 1)
      else rest.(worker := Left, up := false, starts := l.starts + 1)
  }

  predicate IsWorkerStep(step: Step) {
    step.WorkerReceives? || step.FinishPreparations? || step.FinishWork? || step.WorkerFails? || step.Drop?
  }

  /** A connection after a step of its worker, or after dropping. */
  function WorkerStep(c: Setup, l: Link, step: Step): Link
    requires IsWorkerStep(step) && (step.WorkerReceives? ==> l.toWorker != [])
  {
    match step
    case WorkerReceives(_) => Accept(c, l)
    case FinishPreparations(_) => Answer(l, PreparationsDone).(worker := Idle, answers := l.answers + 1)
    case FinishWork(_, result) => Answer(l, WorkDone(result)).(worker := Idle, reports := l.reports + [result])
    case WorkerFails(_) => l.(worker := Left)
    case _ => l.(up := false)
  }

  predicate IsServerStep(step: Step) {
    step.BeginRound? || step.Spawn? || step.TakePrepared? || step.Release? || step.TakeFinished? || step.TakeResult?
  }

  function ServerStep(c: Setup, s: State, step: Step): (s': State)
    requires Shaped(c, s) && Enabled(c, s, step) && IsServerStep(step)
    ensures Shaped(c, s')
  {
    if step.BeginRound? then
      var round := c.plan[|s.rounds|];
      s.(server := Spawning(0), collected := [], names := s.names[round.test := round.name],
         rounds := s.rounds + [Channels(seq(c.workers, i => Absent), [], 0, [])])
    else
      var last := |s.rounds| - 1;
      var now, k := s.rounds[last], s.server.k;
      match step
      case Spawn => Goto(c, s, last, k, Starting).(server := if k + 1 == c.workers then AwaitPrepared(0) else Spawning(k + 1))
      case TakePrepared =>
        SetChannels(c, s, last, now.(done := now.done[1..]))
        .(server := if k + 1 == c.workers then Releasing(0) else AwaitPrepared(k + 1))
      case Release =>
        SetChannels(c, s, last, now.(continueWorkers := now.continueWorkers + 1))
        .(server := if k + 1 == c.workers then AwaitFinished(0) else Releasing(k + 1))
      case TakeFinished =>
        SetChannels(c, s, last, now.(done := now.done[1..])).(server := AwaitResult(k))
      case TakeResult =>
        var collected := s.collected + [now.results[0]];
        var s' := SetChannels(c, s, last, now.(results := now.results[1..]));
        if k + 1 == c.workers then s'.(server := Between, collected := [], recorded := s.recorded + [collected])
        else s'.(server := AwaitFinished(k + 1), collected := collected)
  }

  function HandlerStep(c: Setup, s: State, step: Step): (s': State)
    requires Shaped(c, s) && Enabled(c, s, step) && !IsServerStep(step) && !IsWorkerStep(step)
    ensures Shaped(c, s')
  {
    match step
    case SendInit(r, w) =>
      var assignment := Assignment(r, TreeOf(c, c.plan[r].op, w), s.names[c.plan[r].test]);
      SetLink(c, Goto(c, s, r, w, Decoding(false)), w, Deliver(s.links[w], Init(assignment)))
    case Receive(r, w) =>
      var l := s.links[w];
      SetLink(c, Goto(c, s, r, w, Dispatch(l.fromWorker[0])), w, l.(fromWorker := l.fromWorker[1..]))
    case PostPrepared(r, w) =>
      SetChannels(c, s, r, Moved(s, r, w, AwaitingContinue).(done := s.rounds[r].done + [Prepared]))
    case TakeContinue(r, w) =>
      SetChannels(c, s, r, Moved(s, r, w, SendingStart).(continueWorkers := s.rounds[r].continueWorkers - 1))
    case SendStart(r, w) =>
      SetLink(c, Goto(c, s, r, w, Decoding(true)), w, Deliver(s.links[w], StartWork))
    case PostFinished(r, w) =>
      var result := s.rounds[r].handlers[w].result;
      SetChannels(c, s, r, Moved(s, r, w, PostingResult(result)).(done := s.rounds[r].done + [Finished]))
    case PostResult(r, w) =>
      var result := s.rounds[r].handlers[w].result;
      SetChannels(c, s, r, Moved(s, r, w, Returned(result)).(results := s.rounds[r].results + [result]))
    case HandlerFails(r, w) => Goto(c, s, r, w, Failed(s.rounds[r].handlers[w].posted))
  }

  /** The effect of a step. */
  function Apply(c: Setup, s: State, step: Step): (s': State)
    requires Shaped(c, s) && Enabled(c, s, step)
    ensures Shaped(c, s')
  {
    if IsServerStep(step) then ServerStep(c, s, step)
    else if IsWorkerStep(step) then SetLink(c, s, step.w, WorkerStep(c, s.links[step.w], step))
    else HandlerStep(c, s, step)
  }

  /** The state after a sequence of steps from the initial state, or None if one of them was not enabled. */
  function Execute(c: Setup, steps: seq<Step>): (r: Option<State>)
    requires c.Valid()
    ensures r.Some? ==> Shaped(c, r.value)
  {
    if steps == [] then Some(InitialState(c))
    else
      var before := Execute(c, steps[..|steps| - 1]);
      var step := steps[|steps| - 1];
      if before.Some? && Enabled(c, before.value, step) then Some(Apply(c, before.value, step)) else None
  }
}
