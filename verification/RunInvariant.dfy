/** The invariant of a benchmark run: how far each worker is, and the file system that goes with that. */
module RunInvariant {
  import opened BenchmarkPlan
  import opened WorkTree
  import opened FileSystem
  import opened ClientPool
  import opened RoundFiles
  import opened BenchmarkRun
  import P = RoundProtocol
  import I = ProtocolInvariant

  // ----- One worker

  predicate AllDone(round: Round, done: seq<Job>) {
    multiset(done) == multiset(JobsOf(round))
  }

  /** How far a worker is in the round it was last assigned. */
  ghost predicate OnTrack(round: Round, site: Site, reported: bool) {
    match site.activity
    case Making(k) => k <= ToMake(round) && site.made == k && site.done == [] && !reported
    case Running(pool) =>
      && site.made == ToMake(round) && !reported
      && PoolInv(JobsOf(round), round.threads, pool) && site.done == pool.executed
    case Cleaning(k) => site.made == ToMake(round) && AllDone(round, site.done) && k <= ToClean(round) && !reported
    case Quiet => site.made == ToMake(round) && (if reported then AllDone(round, site.done) else site.done == [])
  }

  ghost predicate SiteInv(c: Setup, l: P.Link, site: Site) {
    && |l.reports| <= l.inits <= |c.plan|
    && (l.worker == P.Preparing <==> site.activity.Making?)
    && (l.worker == P.Working <==> site.activity.Running? || site.activity.Cleaning?)
    && (l.inits > 0 ==> OnTrack(c.plan[l.inits - 1], site, |l.reports| == l.inits))
  }

  // ----- What the workers have done in a round

  /** The jobs a worker has done in round number `n`, counting from one. */
  function DoneIn(l: P.Link, site: Site, n: nat): seq<Job> {
    if l.inits == n then site.done else []
  }

  function JobPath(c: Setup, r: nat, w: nat, job: Job): Path
    requires c.workers >= 1 && r < |c.plan|
  {
    FilePath(c.plan[r].shape, TreeOf(c, c.plan[r].op, w), job.directory, job.index)
  }

  /** What every worker has done in round `r`. */
  function Dones(c: Setup, s: System, r: nat): (dones: seq<seq<Job>>)
    requires Fits(c, s)
  {
    seq(c.workers, w requires 0 <= w < c.workers => DoneIn(s.protocol.links[w], s.sites[w], r + 1))
  }

  function DoneBy(c: Setup, r: nat, w: nat, done: seq<Job>): set<Path>
    requires c.workers >= 1 && r < |c.plan|
  {
    set j | 0 <= j < |done| :: JobPath(c, r, w, done[j])
  }

  /** The files of round `r` that have been worked on. */
  function DoneFiles(c: Setup, r: nat, dones: seq<seq<Job>>): set<Path>
    requires c.workers >= 1 && r < |c.plan|
  {
    if dones == [] then {} else DoneFiles(c, r, dones[..|dones| - 1]) + DoneBy(c, r, |dones| - 1, dones[|dones| - 1])
  }

  /** How many of its leaf directories a worker has made or removed in round number `n`, counting from one. */
  function Handled(round: Round, l: P.Link, site: Site, n: nat): nat {
    if l.inits != n then 0
    else if round.op == Write then site.made
    else if Clears(round) then (if |l.reports| == n then QueueLength(round) else Cleaned(site.activity))
    else 0
  }

  function AllHandled(c: Setup, s: System, r: nat): (handled: seq<nat>)
    requires Fits(c, s) && r < |c.plan|
  {
    seq(c.workers, w requires 0 <= w < c.workers => Handled(c.plan[r], s.protocol.links[w], s.sites[w], r + 1))
  }

  function LeafAt(c: Setup, r: nat, w: nat, k: nat): Path
    requires c.workers >= 1 && r < |c.plan|
  {
    Leaf(c.plan[r].shape, TreeOf(c, c.plan[r].op, w), k)
  }

  function LeavesBy(c: Setup, r: nat, w: nat, handled: nat): set<Path>
    requires c.workers >= 1 && r < |c.plan|
  {
    set k | 0 <= k < handled :: LeafAt(c, r, w, k)
  }

  function LeavesSoFar(c: Setup, r: nat, handled: seq<nat>): set<Path>
    requires c.workers >= 1 && r < |c.plan|
  {
    if handled == [] then {}
    else LeavesSoFar(c, r, handled[..|handled| - 1]) + LeavesBy(c, r, |handled| - 1, handled[|handled| - 1])
  }

  // ----- The invariant

  /** The file system in the midst of round `r`, given the files worked on and the leaf directories dealt with so far. */
  predicate Midway(c: Setup, initial: FS, r: nat, fs: FS, done: set<Path>, leaves: set<Path>)
    requires r < |c.plan| && forall q :: 0 <= q < |c.plan| ==> SizesValid(c.plan[q].shape)
  {
    fs == Effect(c.workers, c.plan[r], Settled(c, initial, r), done, leaves)
  }

  predicate FSAt(c: Setup, initial: FS, s: System, r: nat)
    requires Fits(c, s) && r < |c.plan|
  {
    Midway(c, initial, r, s.fs, DoneFiles(c, r, Dones(c, s, r)), LeavesSoFar(c, r, AllHandled(c, s, r)))
  }

  /** ... when `n` rounds have begun. */
  predicate FSBefore(c: Setup, initial: FS, s: System, n: nat)
    requires Fits(c, s)
  {
    n <= |c.plan| && if n == 0 then s.fs == initial else FSAt(c, initial, s, n - 1)
  }

  predicate FSInv(c: Setup, initial: FS, s: System)
    requires Fits(c, s)
  {
    FSBefore(c, initial, s, |s.protocol.rounds|)
  }

  /** The invariant of the workers, apart from that of the protocol. */
  ghost predicate SitesInv(c: Setup, links: seq<P.Link>, sites: seq<Site>) {
    && |links| == |sites| == c.workers
    && forall w {:trigger sites[w]} :: 0 <= w < c.workers ==> SiteInv(c, links[w], sites[w])
  }

  ghost predicate RunInv(c: Setup, initial: FS, s: System) {
    && Fits(c, s)
    && I.Inv(c, s.protocol)
    && SitesInv(c, s.protocol.links, s.sites)
    && FSInv(c, initial, s)
  }

  // ----- Sets of done files

  lemma DoneByAppend(c: Setup, r: nat, w: nat, done: seq<Job>, job: Job)
    requires c.workers >= 1 && r < |c.plan|
    ensures DoneBy(c, r, w, done + [job]) == DoneBy(c, r, w, done) + {JobPath(c, r, w, job)}
  {
    var done' := done + [job];
    forall j | 0 <= j < |done| ensures done'[j] == done[j] {
    }
    assert done'[|done|] == job;
    forall p | p in DoneBy(c, r, w, done) ensures p in DoneBy(c, r, w, done') {
      var j :| 0 <= j < |done| && p == JobPath(c, r, w, done[j]);
      assert done'[j] == done[j];
    }
  }

  lemma DoneByOneMore(c: Setup, r: nat, w: nat, done: seq<Job>, done': seq<Job>, job: Job)
    requires c.workers >= 1 && r < |c.plan| && done' == done + [job]
    ensures DoneBy(c, r, w, done') == DoneBy(c, r, w, done) + {JobPath(c, r, w, job)}
  {
    DoneByAppend(c, r, w, done, job);
  }

  lemma {:induction false} DoneBySome(c: Setup, r: nat, dones: seq<seq<Job>>, p: Path)
    requires c.workers >= 1 && r < |c.plan|
    ensures p in DoneFiles(c, r, dones) <==> exists w :: 0 <= w < |dones| && p in DoneBy(c, r, w, dones[w])
  {
    if dones != [] {
      var init := dones[..|dones| - 1];
      DoneBySome(c, r, init, p);
      if w :| 0 <= w < |dones| && p in DoneBy(c, r, w, dones[w]) {
        assert w < |init| ==> init[w] == dones[w];
      }
    }
  }

  lemma {:induction false} OneMoreDone(c: Setup, r: nat, dones: seq<seq<Job>>, w: nat, job: Job)
    requires c.workers >= 1 && r < |c.plan| && w < |dones|
    ensures DoneFiles(c, r, dones[w := dones[w] + [job]]) == DoneFiles(c, r, dones) + {JobPath(c, r, w, job)}
  {
    var last := |dones| - 1;
    var dones' := dones[w := dones[w] + [job]];
    if w == last {
      assert dones'[..last] == dones[..last];
      DoneByAppend(c, r, w, dones[w], job);
    } else {
      assert dones'[..last] == dones[..last][w := dones[..last][w] + [job]];
      OneMoreDone(c, r, dones[..last], w, job);
    }
  }

  lemma {:induction false} NothingDone(c: Setup, r: nat, dones: seq<seq<Job>>)
    requires c.workers >= 1 && r < |c.plan| && forall w :: 0 <= w < |dones| ==> dones[w] == []
    ensures DoneFiles(c, r, dones) == {}
  {
    if dones != [] {
      NothingDone(c, r, dones[..|dones| - 1]);
    }
  }

  /** A job somebody has done already is not one this worker has yet to do. */
  lemma NewJobNotDone(c: Setup, r: nat, dones: seq<seq<Job>>, w: nat, job: Job)
    requires c.workers >= 1 && r < |c.plan| && |dones| == c.workers && w < c.workers
    requires c.plan[r].shape.depth > 0 && job.directory < LeafCount(c.plan[r].shape)
    requires forall i, j :: 0 <= i < c.workers && 0 <= j < |dones[i]| ==> dones[i][j].directory < LeafCount(c.plan[r].shape)
    requires job !in dones[w]
    ensures JobPath(c, r, w, job) !in DoneFiles(c, r, dones)
  {
    var p := JobPath(c, r, w, job);
    DoneBySome(c, r, dones, p);
    if i :| 0 <= i < |dones| && p in DoneBy(c, r, i, dones[i]) {
      var j :| 0 <= j < |dones[i]| && p == JobPath(c, r, i, dones[i][j]);
      var other := dones[i][j];
      FilesDiffer(c.plan[r].shape, TreeOf(c, c.plan[r].op, w), job.directory, job.index,
                  TreeOf(c, c.plan[r].op, i), other.directory, other.index);
      TreesDiffer(c, c.plan[r].op, i, w);
    }
  }

  lemma TreesDiffer(c: Setup, op: OpType, i: nat, w: nat)
    requires i < c.workers && w < c.workers && TreeOf(c, op, i) == TreeOf(c, op, w)
    ensures i == w
  {
    var tree := TreeOf(c, op, i);
    var v := TreesArePermutation(c, op, tree);
  }

  /** The trees of a round are a permutation of the workers. */
  lemma TreesArePermutation(c: Setup, op: OpType, tree: nat) returns (w: nat)
    requires c.workers >= 1 && tree < c.workers
    ensures w < c.workers && TreeOf(c, op, w) == tree
    ensures forall i :: 0 <= i < c.workers && TreeOf(c, op, i) == tree ==> i == w
    ensures op != Write && c.reorderTasks && c.workers >= 2 ==> w != tree
  {
    w := if op != Write && c.reorderTasks then (if tree == 0 then c.workers - 1 else tree - 1) else tree;
    forall i: nat | i < c.workers && TreeOf(c, op, i) == tree ensures i == w {
      NextTree(i, c.workers);
    }
    NextTree(w, c.workers);
  }

  lemma NextTree(i: nat, n: nat)
    requires i < n
    ensures (i + 1) % n == if i + 1 == n then 0 else i + 1
  {
  }

  // ----- Sets of leaf directories

  lemma {:induction false} LeafOfSome(c: Setup, r: nat, handled: seq<nat>, q: Path)
    requires c.workers >= 1 && r < |c.plan|
    ensures q in LeavesSoFar(c, r, handled) <==> exists w :: 0 <= w < |handled| && q in LeavesBy(c, r, w, handled[w])
  {
    if handled != [] {
      var init := handled[..|handled| - 1];
      LeafOfSome(c, r, init, q);
      if w :| 0 <= w < |handled| && q in LeavesBy(c, r, w, handled[w]) {
        assert w < |init| ==> init[w] == handled[w];
      }
    }
  }

  lemma OneMoreBy(c: Setup, r: nat, w: nat, handled: nat)
    requires c.workers >= 1 && r < |c.plan|
    ensures LeavesBy(c, r, w, handled + 1) == LeavesBy(c, r, w, handled) + {LeafAt(c, r, w, handled)}
  {
  }

  lemma LeavesByOneMore(c: Setup, r: nat, w: nat, handled: nat, handled': nat)
    requires c.workers >= 1 && r < |c.plan| && handled' == handled + 1
    ensures LeavesBy(c, r, w, handled') == LeavesBy(c, r, w, handled) + {LeafAt(c, r, w, handled)}
  {
    OneMoreBy(c, r, w, handled);
  }

  lemma {:induction false} OneMoreHandled(c: Setup, r: nat, handled: seq<nat>, w: nat)
    requires c.workers >= 1 && r < |c.plan| && w < |handled|
    ensures LeavesSoFar(c, r, handled[w := handled[w] + 1]) == LeavesSoFar(c, r, handled) + {LeafAt(c, r, w, handled[w])}
  {
    var last := |handled| - 1;
    var handled' := handled[w := handled[w] + 1];
    if w == last {
      assert handled'[..last] == handled[..last];
      OneMoreBy(c, r, w, handled[w]);
    } else {
      assert handled'[..last] == handled[..last][w := handled[..last][w] + 1];
      OneMoreHandled(c, r, handled[..last], w);
    }
  }

  lemma {:induction false} NothingHandled(c: Setup, r: nat, handled: seq<nat>)
    requires c.workers >= 1 && r < |c.plan| && forall w :: 0 <= w < |handled| ==> handled[w] == 0
    ensures LeavesSoFar(c, r, handled) == {}
  {
    if handled != [] {
      NothingHandled(c, r, handled[..|handled| - 1]);
    }
  }

  lemma TreeInRange(c: Setup, op: OpType, w: nat)
    requires w < c.workers
    ensures TreeOf(c, op, w) < c.workers
  {
    NextTree(w, c.workers);
  }

  /** A leaf directory of any tree is one of the worker that has the tree. */
  lemma LeafHasWorker(c: Setup, r: nat, q: Path) returns (w: nat, k: nat)
    requires c.workers >= 1 && r < |c.plan| && q in AllLeaves(c.workers, c.plan[r].shape)
    ensures w < c.workers && k < QueueLength(c.plan[r]) && q == LeafAt(c, r, w, k)
  {
    var tree;
    tree, k :| 0 <= tree < c.workers && 0 <= k < LeafCount(c.plan[r].shape) && q == Leaf(c.plan[r].shape, tree, k);
    w := TreesArePermutation(c, c.plan[r].op, tree);
  }

  lemma LeafIsListed(c: Setup, r: nat, w: nat, k: nat)
    requires r < |c.plan| && w < c.workers && k < QueueLength(c.plan[r])
    ensures LeafAt(c, r, w, k) in AllLeaves(c.workers, c.plan[r].shape)
  {
    TreeInRange(c, c.plan[r].op, w);
  }

  lemma EverythingHandled(c: Setup, r: nat, handled: seq<nat>)
    requires |handled| == c.workers >= 1 && r < |c.plan|
    requires forall w :: 0 <= w < |handled| ==> handled[w] == QueueLength(c.plan[r])
    ensures LeavesSoFar(c, r, handled) == AllLeaves(c.workers, c.plan[r].shape)
  {
    forall q | q in LeavesSoFar(c, r, handled) ensures q in AllLeaves(c.workers, c.plan[r].shape) {
      LeafOfSome(c, r, handled, q);
      var w :| 0 <= w < |handled| && q in LeavesBy(c, r, w, handled[w]);
      var k :| 0 <= k < handled[w] && q == LeafAt(c, r, w, k);
      LeafIsListed(c, r, w, k);
    }
    forall q | q in AllLeaves(c.workers, c.plan[r].shape) ensures q in LeavesSoFar(c, r, handled) {
      var w, k := LeafHasWorker(c, r, q);
      assert q in LeavesBy(c, r, w, handled[w]);
      LeafOfSome(c, r, handled, q);
    }
  }

  lemma LeafIsNew(c: Setup, r: nat, handled: seq<nat>, w: nat)
    requires |handled| == c.workers >= 1 && r < |c.plan| && w < c.workers && c.plan[r].shape.depth > 0
    requires handled[w] < QueueLength(c.plan[r]) && forall i :: 0 <= i < |handled| ==> handled[i] <= QueueLength(c.plan[r])
    ensures LeafAt(c, r, w, handled[w]) !in LeavesSoFar(c, r, handled)
  {
    var q := LeafAt(c, r, w, handled[w]);
    LeafOfSome(c, r, handled, q);
    if i :| 0 <= i < |handled| && q in LeavesBy(c, r, i, handled[i]) {
      var k :| 0 <= k < handled[i] && q == LeafAt(c, r, i, k);
      LeavesDiffer(c.plan[r].shape, TreeOf(c, c.plan[r].op, i), k, TreeOf(c, c.plan[r].op, w), handled[w]);
      TreesDiffer(c, c.plan[r].op, i, w);
    }
  }

  lemma LeavesAreListed(c: Setup, r: nat, handled: seq<nat>)
    requires |handled| == c.workers >= 1 && r < |c.plan|
    requires forall w :: 0 <= w < |handled| ==> handled[w] <= QueueLength(c.plan[r])
    ensures LeavesSoFar(c, r, handled) <= AllLeaves(c.workers, c.plan[r].shape)
  {
    forall q | q in LeavesSoFar(c, r, handled) ensures q in AllLeaves(c.workers, c.plan[r].shape) {
      LeafOfSome(c, r, handled, q);
      var w :| 0 <= w < |handled| && q in LeavesBy(c, r, w, handled[w]);
      var k :| 0 <= k < handled[w] && q == LeafAt(c, r, w, k);
      LeafIsListed(c, r, w, k);
    }
  }
}
