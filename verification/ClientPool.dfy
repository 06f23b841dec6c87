/** The parallel clients of one worker: a producer feeds a bounded first-in-first-out channel with every
    (directory, file index) pair and then one stopper per client; each client works until it takes a stopper. */
module ClientPool {
  import opened Options

  datatype Job = Job(directory: nat, index: nat)
  datatype Work = Item(job: Job) | Stopper
  datatype Client = Receiving | Doing(job: Job) | Stopped

  /** `executed` is the history of the jobs done, in the order in which they ended. */
  datatype Pool = Pool(toSend: seq<Work>, channel: seq<Work>, clients: seq<Client>, executed: seq<Job>)

  datatype PoolStep = Send | Take(i: nat) | Do(i: nat)

  // ----- The stream of work

  function FilesOf(directory: nat, files: nat): seq<Job> {
    seq(files, i requires 0 <= i => Job(directory, i))
  }

  /** The jobs of the first `directories` entries of the work queue, file by file. */
  function Jobs(directories: nat, files: nat): seq<Job> {
    if directories == 0 then [] else Jobs(directories - 1, files) + FilesOf(directories - 1, files)
  }

  function Items(jobs: seq<Job>): (w: seq<Work>)
    ensures |w| == |jobs|
  {
    seq(|jobs|, k requires 0 <= k < |jobs| => Item(jobs[k]))
  }

  function Stream(jobs: seq<Job>, clients: nat): seq<Work> {
    Items(jobs) + seq(clients, k => Stopper)
  }

  /** The producer's loops put exactly that stream on the channel. */
  method Produce(directories: nat, files: nat, clients: nat) returns (sent: seq<Work>)
    ensures sent == Stream(Jobs(directories, files), clients)
  {
    sent := [];
    for d := 0 to directories
      invariant sent == Items(Jobs(d, files))
    {
      for i := 0 to files
        invariant sent == Items(Jobs(d, files) + FilesOf(d, i))
      {
        sent := sent + [Item(Job(d, i))];
      }
      assert FilesOf(d, files) == FilesOf(d, files)[..files];
    }
    ghost var items := sent;
    for worker := 0 to clients
      invariant sent == items + seq(worker, k => Stopper)
    {
      sent := sent + [Stopper];
    }
  }

  /** Each pair of a directory and an index below `files` is there once, and nothing else is. */
  lemma {:induction false} JobsExactly(directories: nat, files: nat, job: Job)
    ensures multiset(Jobs(directories, files))[job] == if job.directory < directories && job.index < files then 1 else 0
  {
    if directories > 0 {
      JobsExactly(directories - 1, files, job);
      FilesExactly(directories - 1, files, job);
      var before, last := Jobs(directories - 1, files), FilesOf(directories - 1, files);
      assert multiset(before + last)[job] == multiset(before)[job] + multiset(last)[job];
    }
  }

  lemma {:induction false} FilesExactly(directory: nat, files: nat, job: Job)
    ensures multiset(FilesOf(directory, files))[job] == if job.directory == directory && job.index < files then 1 else 0
  {
    if files > 0 {
      FilesExactly(directory, files - 1, job);
      assert FilesOf(directory, files) == FilesOf(directory, files - 1) + [Job(directory, files - 1)];
    }
  }

  lemma {:induction false} JobCount(directories: nat, files: nat)
    ensures |Jobs(directories, files)| == directories * files
  {
    if directories > 0 {
      JobCount(directories - 1, files);
      assert directories * files == (directories - 1) * files + files;
    }
  }

  /** The jobs come directory by directory, and file by file in each. */
  lemma {:induction false} JobAt(directories: nat, files: nat, k: nat, i: nat)
    requires k < directories && i < files
    ensures var at := k * files + i; at < |Jobs(directories, files)| && Jobs(directories, files)[at] == Job(k, i)
  {
    JobCount(directories - 1, files);
    if k < directories - 1 {
      JobAt(directories - 1, files, k, i);
    }
  }

  // ----- The steps

  function Start(jobs: seq<Job>, clients: nat): Pool {
    Pool(Stream(jobs, clients), [], seq(clients, i => Receiving), [])
  }

  /** The channel holds as many items as there are clients; a client without work blocks on an empty channel. */
  predicate CanStep(p: Pool, step: PoolStep) {
    match step
    case Send => p.toSend != [] && |p.channel| < |p.clients|
    case Take(i) => i < |p.clients| && p.clients[i] == Receiving && p.channel != []
    case Do(i) => i < |p.clients| && p.clients[i].Doing?
  }

  function PoolNext(p: Pool, step: PoolStep): Pool
    requires CanStep(p, step)
  {
    match step
    case Send => p.(toSend := p.toSend[1..], channel := p.channel + [p.toSend[0]])
    case Take(i) =>
      var client := match p.channel[0] case Item(job) => Doing(job) case Stopper => Stopped;
      p.(channel := p.channel[1..], clients := p.clients[i := client])
    case Do(i) => p.(clients := p.clients[i := Receiving], executed := p.executed + [p.clients[i].job])
  }

  /** The producer has sent everything and every client has stopped: this is when the worker goes on. */
  predicate Drained(p: Pool) {
    p.toSend == [] && forall i :: 0 <= i < |p.clients| ==> p.clients[i] == Stopped
  }

  // ----- Counting over the clients

  function StoppedClients(clients: seq<Client>): nat {
    if clients == [] then 0
    else StoppedClients(clients[..|clients| - 1]) + (if clients[|clients| - 1] == Stopped then 1 else 0)
  }

  /** How many clients are doing `job`, and how many are doing anything. */
  function UnderWay(clients: seq<Client>, job: Job): nat {
    if clients == [] then 0
    else UnderWay(clients[..|clients| - 1], job) + (if clients[|clients| - 1] == Doing(job) then 1 else 0)
  }

  function BusyClients(clients: seq<Client>): nat {
    if clients == [] then 0
    else BusyClients(clients[..|clients| - 1]) + (if clients[|clients| - 1].Doing? then 1 else 0)
  }

  lemma {:induction false} ClientUpdated(clients: seq<Client>, i: nat, client: Client)
    requires i < |clients|
    ensures StoppedClients(clients[i := client]) + (if clients[i] == Stopped then 1 else 0)
         == StoppedClients(clients) + (if client == Stopped then 1 else 0)
    ensures BusyClients(clients[i := client]) + (if clients[i].Doing? then 1 else 0)
         == BusyClients(clients) + (if client.Doing? then 1 else 0)
  {
    var last := |clients| - 1;
    if i == last {
      assert clients[i := client][..last] == clients[..last];
    } else {
      assert clients[i := client][..last] == clients[..last][i := client];
      ClientUpdated(clients[..last], i, client);
    }
  }

  lemma {:induction false} UnderWayUpdated(clients: seq<Client>, i: nat, client: Client, job: Job)
    requires i < |clients|
    ensures UnderWay(clients[i := client], job) + (if clients[i] == Doing(job) then 1 else 0)
         == UnderWay(clients, job) + (if client == Doing(job) then 1 else 0)
  {
    var last := |clients| - 1;
    if i == last {
      assert clients[i := client][..last] == clients[..last];
    } else {
      assert clients[i := client][..last] == clients[..last][i := client];
      UnderWayUpdated(clients[..last], i, client, job);
    }
  }

  lemma {:induction false} ClientCounts(clients: seq<Client>)
    ensures StoppedClients(clients) + BusyClients(clients) <= |clients|
    ensures StoppedClients(clients) == |clients| <==> forall i :: 0 <= i < |clients| ==> clients[i] == Stopped
  {
    if clients != [] {
      var init := clients[..|clients| - 1];
      ClientCounts(init);
      assert forall i :: 0 <= i < |init| ==> init[i] == clients[i];
    }
  }

  lemma {:induction false} UnderWayBounds(clients: seq<Client>, job: Job)
    ensures UnderWay(clients, job) <= BusyClients(clients)
    ensures forall i :: 0 <= i < |clients| && clients[i] == Doing(job) ==> UnderWay(clients, job) > 0
  {
    if clients != [] {
      var init := clients[..|clients| - 1];
      UnderWayBounds(init, job);
      assert forall i :: 0 <= i < |init| ==> init[i] == clients[i];
    }
  }

  lemma {:induction false} SomeStopped(clients: seq<Client>, i: nat)
    requires i < |clients| && clients[i] == Stopped
    ensures StoppedClients(clients) > 0
  {
    if i < |clients| - 1 {
      SomeStopped(clients[..|clients| - 1], i);
    }
  }

  lemma {:induction false} FreshClients(clients: seq<Client>, job: Job)
    requires forall i :: 0 <= i < |clients| ==> clients[i] == Receiving
    ensures StoppedClients(clients) == BusyClients(clients) == UnderWay(clients, job) == 0
  {
    if clients != [] {
      FreshClients(clients[..|clients| - 1], job);
    }
  }

  // ----- The invariant

  /** How much of the stream the clients have taken. */
  function Taken(jobs: seq<Job>, p: Pool): int {
    |jobs| + |p.clients| - |p.channel| - |p.toSend|
  }

  /** The jobs among what has been taken. */
  function TakenJobs(jobs: seq<Job>, p: Pool): seq<Job>
    requires 0 <= Taken(jobs, p)
  {
    if Taken(jobs, p) < |jobs| then jobs[..Taken(jobs, p)] else jobs
  }

  predicate Accounted(jobs: seq<Job>, p: Pool, job: Job)
    requires 0 <= Taken(jobs, p)
  {
    multiset(p.executed)[job] + UnderWay(p.clients, job) == multiset(TakenJobs(jobs, p))[job]
  }

  ghost predicate PoolInv(jobs: seq<Job>, clients: nat, p: Pool) {
    && |p.clients| == clients
    && |p.channel| <= clients
    && 0 <= Taken(jobs, p)
    && p.channel + p.toSend == Stream(jobs, clients)[Taken(jobs, p)..]
    && StoppedClients(p.clients) == (if Taken(jobs, p) < |jobs| then 0 else Taken(jobs, p) - |jobs|)
    && |p.executed| + BusyClients(p.clients) == |TakenJobs(jobs, p)|
    && forall job {:trigger Accounted(jobs, p, job)} :: Accounted(jobs, p, job)
  }

  lemma StartKeepsPoolInv(jobs: seq<Job>, clients: nat)
    ensures PoolInv(jobs, clients, Start(jobs, clients))
  {
    var p := Start(jobs, clients);
    FreshClients(p.clients, Job(0, 0));
    forall job ensures Accounted(jobs, p, job) {
      FreshClients(p.clients, job);
    }
  }

  lemma SendKeepsPoolInv(jobs: seq<Job>, clients: nat, p: Pool)
    requires PoolInv(jobs, clients, p) && CanStep(p, Send)
    ensures PoolInv(jobs, clients, PoolNext(p, Send))
  {
    var p' := PoolNext(p, Send);
    assert p'.channel + p'.toSend == p.channel + p.toSend;
    forall job ensures Accounted(jobs, p', job) {
      assert Accounted(jobs, p, job);
    }
  }

  /** The item a client takes is the next one of the stream. */
  lemma NextOfStream(jobs: seq<Job>, clients: nat, p: Pool)
    requires PoolInv(jobs, clients, p) && p.channel != []
    ensures var n := Taken(jobs, p);
      && p.channel[0] == (if n < |jobs| then Item(jobs[n]) else Stopper)
      && p.channel[1..] + p.toSend == Stream(jobs, clients)[n + 1..]
      && (n < |jobs| ==> jobs[..n + 1] == jobs[..n] + [jobs[n]])
      && (n + 1 == |jobs| ==> jobs[..n + 1] == jobs)
  {
    var stream, n := Stream(jobs, clients), Taken(jobs, p);
    assert stream[n] == (p.channel + p.toSend)[0] == p.channel[0];
    assert p.channel[1..] + p.toSend == (p.channel + p.toSend)[1..] == stream[n + 1..];
  }

  lemma TakeKeepsPoolInv(jobs: seq<Job>, clients: nat, p: Pool, i: nat)
    requires PoolInv(jobs, clients, p) && CanStep(p, Take(i))
    ensures PoolInv(jobs, clients, PoolNext(p, Take(i)))
  {
    var p', n := PoolNext(p, Take(i)), Taken(jobs, p);
    NextOfStream(jobs, clients, p);
    ClientUpdated(p.clients, i, p'.clients[i]);
    assert TakenJobs(jobs, p') == TakenJobs(jobs, p) + (if n < |jobs| then [jobs[n]] else []);
    forall job ensures Accounted(jobs, p', job) {
      assert Accounted(jobs, p, job);
      UnderWayUpdated(p.clients, i, p'.clients[i], job);
    }
  }

  lemma DoKeepsPoolInv(jobs: seq<Job>, clients: nat, p: Pool, i: nat)
    requires PoolInv(jobs, clients, p) && CanStep(p, Do(i))
    ensures PoolInv(jobs, clients, PoolNext(p, Do(i)))
  {
    var p' := PoolNext(p, Do(i));
    ClientUpdated(p.clients, i, Receiving);
    forall job ensures Accounted(jobs, p', job) {
      assert Accounted(jobs, p, job);
      UnderWayUpdated(p.clients, i, Receiving, job);
    }
  }

  lemma StepKeepsPoolInv(jobs: seq<Job>, clients: nat, p: Pool, step: PoolStep)
    requires PoolInv(jobs, clients, p) && CanStep(p, step)
    ensures PoolInv(jobs, clients, PoolNext(p, step))
  {
    match step
    case Send => SendKeepsPoolInv(jobs, clients, p);
    case Take(i) => TakeKeepsPoolInv(jobs, clients, p, i);
    case Do(i) => DoKeepsPoolInv(jobs, clients, p, i);
  }

  // ----- What the pool guarantees

  /** When the worker goes on, every job has been executed exactly as often as it is in the queue, and the channel is empty. */
  lemma DrainedMeansAllExecuted(jobs: seq<Job>, clients: nat, p: Pool)
    requires PoolInv(jobs, clients, p) && Drained(p) && clients > 0
    ensures p.channel == [] && multiset(p.executed) == multiset(jobs)
  {
    ClientCounts(p.clients);
    forall job ensures multiset(p.executed)[job] == multiset(jobs)[job] {
      assert Accounted(jobs, p, job);
      UnderWayBounds(p.clients, job);
    }
  }

  /** A client stops only after all the work has been taken: what is left then is stoppers. */
  lemma StoppersComeLast(jobs: seq<Job>, clients: nat, p: Pool, i: nat)
    requires PoolInv(jobs, clients, p) && i < clients && p.clients[i] == Stopped
    ensures forall k :: 0 <= k < |p.channel + p.toSend| ==> (p.channel + p.toSend)[k] == Stopper
    ensures forall job :: multiset(p.executed)[job] + UnderWay(p.clients, job) == multiset(jobs)[job]
  {
    SomeStopped(p.clients, i);
    forall job ensures multiset(p.executed)[job] + UnderWay(p.clients, job) == multiset(jobs)[job] {
      assert Accounted(jobs, p, job);
    }
  }

  /** The steps the pool has still to make: every item is sent, taken and, if it is a job, done. */
  function PoolLeft(p: Pool): nat {
    WorkLeft(p.toSend, 2) + WorkLeft(p.channel, 1) + BusyClients(p.clients)
  }

  /** `moves` per item, and one more for every job among them. */
  function WorkLeft(work: seq<Work>, moves: nat): nat {
    if work == [] then 0 else WorkLeft(work[1..], moves) + moves + (if work[0].Item? then 1 else 0)
  }

  lemma {:induction false} WorkLeftAppend(work: seq<Work>, w: Work, moves: nat)
    ensures WorkLeft(work + [w], moves) == WorkLeft(work, moves) + moves + (if w.Item? then 1 else 0)
  {
    if work != [] {
      assert (work + [w])[1..] == work[1..] + [w];
      WorkLeftAppend(work[1..], w, moves);
    }
  }

  lemma {:induction false} WorkLeftOfStream(jobs: seq<Job>, clients: nat)
    ensures WorkLeft(Stream(jobs, clients), 2) == 3 * |jobs| + 2 * clients
    decreases |jobs| + clients
  {
    if jobs != [] {
      assert Stream(jobs, clients)[1..] == Stream(jobs[1..], clients);
      WorkLeftOfStream(jobs[1..], clients);
    } else if clients > 0 {
      assert Stream(jobs, clients)[1..] == Stream(jobs, clients - 1);
      WorkLeftOfStream(jobs, clients - 1);
    }
  }

  lemma PoolStepCounts(p: Pool, step: PoolStep)
    requires CanStep(p, step)
    ensures PoolLeft(PoolNext(p, step)) == PoolLeft(p) - 1
  {
    match step
    case Send => WorkLeftAppend(p.channel, p.toSend[0], 1);
    case Take(i) => ClientUpdated(p.clients, i, PoolNext(p, step).clients[i]);
    case Do(i) => ClientUpdated(p.clients, i, Receiving);
  }

  lemma {:induction false} SomeIdle(clients: seq<Client>) returns (i: nat)
    requires BusyClients(clients) == 0 && StoppedClients(clients) < |clients|
    ensures i < |clients| && clients[i] == Receiving
  {
    var last := |clients| - 1;
    if clients[last] == Receiving {
      i := last;
    } else {
      i := SomeIdle(clients[..last]);
    }
  }

  lemma {:induction false} SomeBusy(clients: seq<Client>) returns (i: nat)
    requires BusyClients(clients) > 0
    ensures i < |clients| && clients[i].Doing?
  {
    var last := |clients| - 1;
    if clients[last].Doing? {
      i := last;
    } else {
      i := SomeBusy(clients[..last]);
    }
  }

  /** With at least one client the pool is never stuck before it is drained. */
  lemma PoolCanMove(jobs: seq<Job>, clients: nat, p: Pool) returns (step: PoolStep)
    requires PoolInv(jobs, clients, p) && clients > 0 && !Drained(p)
    ensures CanStep(p, step)
  {
    ClientCounts(p.clients);
    if p.toSend != [] && |p.channel| < clients {
      step := Send;
    } else if BusyClients(p.clients) > 0 {
      var i := SomeBusy(p.clients);
      step := Do(i);
    } else {
      var i := SomeIdle(p.clients);
      step := Take(i);
    }
  }

  /** Without clients the producer blocks on its first item: the pool is stuck from the start unless there is no work. */
  lemma NoClientsNoProgress(jobs: seq<Job>, step: PoolStep)
    ensures !CanStep(Start(jobs, 0), step)
    ensures Drained(Start(jobs, 0)) <==> jobs == []
  {
    assert Drained(Start(jobs, 0)) ==> |Stream(jobs, 0)| == 0;
  }

  // ----- Runs of the pool

  function ExecutePool(jobs: seq<Job>, clients: nat, steps: seq<PoolStep>): Option<Pool> {
    if steps == [] then Some(Start(jobs, clients))
    else
      var before := ExecutePool(jobs, clients, steps[..|steps| - 1]);
      var step := steps[|steps| - 1];
      if before.Some? && CanStep(before.value, step) then Some(PoolNext(before.value, step)) else None
  }

  lemma {:induction false} PoolRunKeepsInv(jobs: seq<Job>, clients: nat, steps: seq<PoolStep>)
    requires ExecutePool(jobs, clients, steps).Some?
    ensures var p := ExecutePool(jobs, clients, steps).value;
      && PoolInv(jobs, clients, p)
      && |steps| + PoolLeft(p) == 3 * |jobs| + 2 * clients
  {
    if steps == [] {
      StartKeepsPoolInv(jobs, clients);
      WorkLeftOfStream(jobs, clients);
      FreshClients(Start(jobs, clients).clients, Job(0, 0));
    } else {
      var init, step := steps[..|steps| - 1], steps[|steps| - 1];
      PoolRunKeepsInv(jobs, clients, init);
      StepKeepsPoolInv(jobs, clients, ExecutePool(jobs, clients, init).value, step);
      PoolStepCounts(ExecutePool(jobs, clients, init).value, step);
    }
  }

  /** Any run of the pool that cannot go on has drained it, provided there is a client, and then every job of the queue
      has been executed exactly once, after the same number of steps in every interleaving. */
  lemma PoolRunsToTheEnd(directories: nat, files: nat, clients: nat, steps: seq<PoolStep>)
    requires ExecutePool(Jobs(directories, files), clients, steps).Some? && clients > 0
    ensures var p := ExecutePool(Jobs(directories, files), clients, steps).value;
      && (Drained(p) <==> forall step: PoolStep :: !CanStep(p, step))
      && (Drained(p) ==> |steps| == 3 * (directories * files) + 2 * clients)
      && (Drained(p) ==> forall job: Job :: multiset(p.executed)[job] == if job.directory < directories && job.index < files then 1 else 0)
  {
    var jobs := Jobs(directories, files);
    var p := ExecutePool(jobs, clients, steps).value;
    PoolRunKeepsInv(jobs, clients, steps);
    JobCount(directories, files);
    if Drained(p) {
      DrainedMeansAllExecuted(jobs, clients, p);
      ClientCounts(p.clients);
      forall job: Job ensures multiset(p.executed)[job] == if job.directory < directories && job.index < files then 1 else 0 {
        JobsExactly(directories, files, job);
      }
      forall step: PoolStep ensures !CanStep(p, step) {
        assert step.Do? && step.i < |p.clients| ==> p.clients[step.i] == Stopped;
      }
    } else {
      var step := PoolCanMove(jobs, clients, p);
    }
  }
}
