/** Whose files a worker works on, in every run: when tasks are reordered, nobody gets back the files it has written. */
module Rotation {
  import opened BenchmarkPlan
  import opened WorkTree
  import opened FileSystem
  import opened ClientPool
  import opened RoundFiles
  import opened BenchmarkRun
  import opened RunInvariant
  import opened RunSteps

  /** The files of one tree. */
  function FilesOfTree(shape: Shape, tree: nat): set<Path> {
    set k, i | 0 <= k < LeafCount(shape) && 0 <= i < shape.files :: FilePath(shape, tree, k, i)
  }

  lemma TreesShareNoFile(shape: Shape, tree: nat, tree': nat)
    requires shape.depth > 0 && tree != tree'
    ensures FilesOfTree(shape, tree) !! FilesOfTree(shape, tree')
  {
    forall p | p in FilesOfTree(shape, tree) ensures p !in FilesOfTree(shape, tree') {
      if p in FilesOfTree(shape, tree') {
        var k, i :| 0 <= k < LeafCount(shape) && 0 <= i < shape.files && p == FilePath(shape, tree, k, i);
        var k', i' :| 0 <= k' < LeafCount(shape) && 0 <= i' < shape.files && p == FilePath(shape, tree', k', i');
        FilesDiffer(shape, tree, k, i, tree', k', i');
      }
    }
  }

  /** The worker whose tree worker `w` uses in a round: its right neighbour if tasks are reordered and the round does not write. */
  function Writer(c: Setup, op: OpType, w: nat): nat
    requires c.workers >= 1
  {
    if c.reorderTasks && op != Write then (w + 1) % c.workers else w
  }

  /** Worker `w` is in the round under way. */
  predicate Takes(c: Setup, s: System, w: nat)
    requires Fits(c, s)
  {
    w < c.workers && 0 < |s.protocol.rounds| <= |c.plan| && s.protocol.links[w].inits == |s.protocol.rounds|
  }

  /** The files worker `w` has worked on in the round under way. */
  function TouchedBy(c: Setup, s: System, w: nat): set<Path>
    requires Fits(c, s) && Takes(c, s, w)
  {
    DoneBy(c, |s.protocol.rounds| - 1, w, s.sites[w].done)
  }

  lemma TouchesOneTree(c: Setup, s: System, w: nat)
    requires Fits(c, s) && SitesInv(c, s.protocol.links, s.sites) && Takes(c, s, w)
    ensures var round := c.plan[|s.protocol.rounds| - 1];
      TouchedBy(c, s, w) <= FilesOfTree(round.shape, TreeOf(c, round.op, w))
  {
    var r, l, site := |s.protocol.rounds| - 1, s.protocol.links[w], s.sites[w];
    SiteHolds(c, s.protocol.links, s.sites, w);
    forall p | p in TouchedBy(c, s, w) ensures p in FilesOfTree(c.plan[r].shape, TreeOf(c, c.plan[r].op, w)) {
      var j :| 0 <= j < |site.done| && p == JobPath(c, r, w, site.done[j]);
      DoneInShape(c.plan[r], site, |l.reports| == l.inits, site.done[j]);
    }
  }

  /** Worker `w` touches files of the one tree only that it should. */
  predicate KeepsToTree(c: Setup, s: System, w: nat)
    requires Fits(c, s) && Takes(c, s, w)
  {
    var round := c.plan[|s.protocol.rounds| - 1];
    TouchedBy(c, s, w) <= FilesOfTree(round.shape, Writer(c, round.op, w))
  }

  /** In every run a worker touches files of one tree only: its own when writing, and otherwise, when tasks are reordered, the
      one its right neighbour writes. */
  lemma WorksOnOneTree(c: Setup, initial: FS, acts: seq<Act>, w: nat)
    requires Workable(c) && Run(c, initial, acts).Some? && Takes(c, Run(c, initial, acts).value, w)
    ensures KeepsToTree(c, Run(c, initial, acts).value, w)
  {
    EveryRunKeepsInv(c, initial, acts);
    var s := Run(c, initial, acts).value;
    TouchesOneTree(c, s, w);
    TreesRotate(c, c.plan[|s.protocol.rounds| - 1].op, w);
    TreesRotate(c, Write, (w + 1) % c.workers);
  }

  lemma WritersDiffer(c: Setup, op: OpType, w: nat)
    requires c.reorderTasks && c.workers >= 2 && op != Write && w < c.workers
    ensures Writer(c, op, w) != Writer(c, Write, w)
  {
    NextTree(w, c.workers);
  }

  lemma PartsShareNothing(a: set<Path>, b: set<Path>, all: set<Path>, all': set<Path>)
    requires a <= all && b <= all' && all !! all'
    ensures a !! b
  {
  }

  /** State `s` is in a round that writes, and `s'` in another on the same define. */
  predicate WrittenBefore(c: Setup, s: System, s': System)
    requires 0 < |s.protocol.rounds| <= |c.plan| && 0 < |s'.protocol.rounds| <= |c.plan|
  {
    var round, round' := c.plan[|s.protocol.rounds| - 1], c.plan[|s'.protocol.rounds| - 1];
    round.op == Write && round'.op != Write && round.shape == round'.shape
  }

  lemma TouchesDiffer(c: Setup, s: System, s': System, w: nat)
    requires Fits(c, s) && Fits(c, s') && Takes(c, s, w) && Takes(c, s', w) && KeepsToTree(c, s, w) && KeepsToTree(c, s', w)
    requires WrittenBefore(c, s, s') && c.reorderTasks && c.workers >= 2 && c.plan[|s'.protocol.rounds| - 1].shape.depth > 0
    ensures TouchedBy(c, s, w) !! TouchedBy(c, s', w)
  {
    var round := c.plan[|s'.protocol.rounds| - 1];
    WritersDiffer(c, round.op, w);
    TreesShareNoFile(round.shape, Writer(c, Write, w), Writer(c, round.op, w));
    PartsShareNothing(TouchedBy(c, s, w), TouchedBy(c, s', w),
                      FilesOfTree(round.shape, Writer(c, Write, w)), FilesOfTree(round.shape, Writer(c, round.op, w)));
  }

  /** So with reordered tasks and two workers or more, what a worker reads, checks or deletes is never what it wrote in a round
      on the same define: in whatever runs, and whenever in their rounds. */
  lemma NobodyGetsItsOwn(c: Setup, initial: FS, initial': FS, acts: seq<Act>, acts': seq<Act>, w: nat)
    requires Workable(c) && Run(c, initial, acts).Some? && Run(c, initial', acts').Some?
    requires Takes(c, Run(c, initial, acts).value, w) && Takes(c, Run(c, initial', acts').value, w)
    requires WrittenBefore(c, Run(c, initial, acts).value, Run(c, initial', acts').value) && c.reorderTasks && c.workers >= 2
    ensures TouchedBy(c, Run(c, initial, acts).value, w) !! TouchedBy(c, Run(c, initial', acts').value, w)
  {
    WorksOnOneTree(c, initial, acts, w);
    WorksOnOneTree(c, initial', acts', w);
    TouchesDiffer(c, Run(c, initial, acts).value, Run(c, initial', acts').value, w);
  }
}
