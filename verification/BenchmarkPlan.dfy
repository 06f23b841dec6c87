/** What the server schedules: the rounds of a benchmark and which directory tree a worker gets in each. */
module BenchmarkPlan {

  datatype OpType = Read | Write | Stat | Delete

  /** A file-system define together with the block size of its workload. */
  datatype Shape = Shape(anchor: seq<string>, depth: nat, width: nat, files: nat, size: nat, blockSize: nat)

  /** One round of the innermost loop of the scheduler. */
  datatype Round = Round(test: nat, name: string, op: OpType, threads: nat, shape: Shape, clearDirs: bool)

  /** The inputs of a run: the worker count, the rounds in order, the configured test names and the reorder flag. */
  datatype Setup = Setup(workers: nat, plan: seq<Round>, testNames: seq<string>, reorderTasks: bool)
  {
    /** A run needs a worker (summing the results of none fails), and a round belongs to a configured test. */
    ghost predicate Valid() {
      && workers >= 1
      && forall r :: 0 <= r < |plan| ==> plan[r].test < |testNames|
    }
  }

  function Pow(base: nat, exponent: nat): nat {
    if exponent == 0 then 1 else base * Pow(base, exponent - 1)
  }

  /** The number of leaf directories of one worker's tree, which is the length of its work queue. */
  function LeafCount(shape: Shape): nat {
    Pow(shape.width, shape.depth)
  }

  /** The client divides by the block size when a file is larger than a block. */
  predicate SizesValid(shape: Shape) {
    shape.size <= shape.blockSize || shape.blockSize > 0
  }

  /** The tree a worker is told to use: its own when writing, its right neighbour's otherwise if tasks are reordered. */
  function TreeOf(setup: Setup, op: OpType, worker: nat): nat
    requires setup.workers >= 1
  {
    if op != Write && setup.reorderTasks then (worker + 1) % setup.workers else worker
  }

  /** Everybody writes the tree of its own number.  Reordered, with two workers or more, nobody is told in another round to
      use the tree it writes, but everybody the one that its right neighbour writes; otherwise everybody its own. */
  lemma TreesRotate(setup: Setup, op: OpType, worker: nat)
    requires worker < setup.workers
    ensures TreeOf(setup, Write, worker) == worker
    ensures !setup.reorderTasks ==> TreeOf(setup, op, worker) == TreeOf(setup, Write, worker)
    ensures setup.reorderTasks && op != Write ==> TreeOf(setup, op, worker) == TreeOf(setup, Write, (worker + 1) % setup.workers)
    ensures setup.reorderTasks && op != Write && setup.workers >= 2 ==> TreeOf(setup, op, worker) != TreeOf(setup, Write, worker)
  {
    assert (worker + 1) % setup.workers == if worker + 1 == setup.workers then 0 else worker + 1;
  }
}
