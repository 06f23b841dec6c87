/** Two tests of different depths on one anchor, the first deeper or not: what their housekeeping leaves. */
module MixedDepths {
  import opened Options
  import opened BenchmarkPlan
  import opened Configuration
  import opened WorkTree
  import opened FileSystem
  import opened RoundFiles
  import opened Schedule
  import opened ScheduleTheorems
  import opened ConfiguredRun
  import opened RunDirs
  import opened BenchmarkRun
  import opened RunSteps

  /** A test that writes one file in a tree of one branch, deletes it and clears the tree's leaf directory. */
  function OneBranch(depth: nat): Shape {
    Shape(["mnt"], depth, 1, 1, 10, 4)
  }

  function TestOf(name: string, depth: nat): Case {
    Case(name, ["write", "delete"], [1], OneBranch(depth), true)
  }

  function Tests(first: nat, second: nat): seq<Case> {
    [TestOf("first", first), TestOf("second", second)]
  }

  const EMPTY_DISK := FS(map[], {})
  const ONE_WORKER := Global("", None, [], [], 1, true)

  function LeafOfDepth(depth: nat): Path {
    Leaf(OneBranch(depth), 0, 0)
  }

  lemma {:induction false} PowOfOne(n: nat)
    ensures Pow(1, n) == 1
  {
    if n > 0 {
      PowOfOne(n - 1);
    }
  }

  lemma OneLeaf(depth: nat)
    ensures AllLeaves(1, OneBranch(depth)) == {LeafOfDepth(depth)} && |LeafOfDepth(depth)| == 1 + depth
  {
    PowOfOne(depth);
    LeafExtends(OneBranch(depth), WorkerId(0), ["mnt"], 0, 0);
  }

  /** The leaf of a smaller depth is on the way to that of a larger one. */
  lemma {:induction false} OnTheWay(small: nat, large: nat, path: Path, level: nat)
    requires level <= small <= large
    ensures LeafBelow(OneBranch(small), WorkerId(0), path, level, 0) <= LeafBelow(OneBranch(large), WorkerId(0), path, level, 0)
    decreases small - level
  {
    PowOfOne(large - level);
    if level == small {
      LeafExtends(OneBranch(large), WorkerId(0), path, level, 0);
    } else {
      PowOfOne(small - level - 1);
      PowOfOne(large - level - 1);
      OnTheWay(small, large, path + [SubDir(WorkerId(0), level, 0)], level + 1);
    }
  }

  lemma TestsAreReady(first: nat, second: nat)
    requires first >= 1 && second >= 1
    ensures forall k :: 0 <= k < |AllCombos(Tests(first, second))| ==> ToOpType(AllCombos(Tests(first, second))[k].op).Some?
    ensures Ready(Tests(first, second), ONE_WORKER, PlanOf(Tests(first, second)), EMPTY_DISK)
  {
    assert AllCyclic(Tests(first, second));
    OrdinaryIsReady(Tests(first, second), ONE_WORKER, EMPTY_DISK);
  }

  /** The rounds: write and delete at the first depth, then at the second. */
  lemma Rounds(first: nat, second: nat) returns (plan: seq<Round>)
    requires first >= 1 && second >= 1
    ensures Ready(Tests(first, second), ONE_WORKER, plan, EMPTY_DISK) && |plan| == 4
    ensures plan[0].op == plan[2].op == Write && Clears(plan[1]) && Clears(plan[3])
    ensures plan[0].shape == plan[1].shape == OneBranch(first) && plan[2].shape == plan[3].shape == OneBranch(second)
  {
    var cases := Tests(first, second);
    TestsAreReady(first, second);
    plan := PlanOf(cases);
    CombosCount(cases);
    assert RoundsBefore(cases, 1) == RoundsBefore(cases, 0) + 1 * 2;
    assert RoundsBefore(cases, 2) == RoundsBefore(cases, 1) + 1 * 2;
    Order(cases, 0, 0, 0);
    Order(cases, 0, 0, 1);
    Order(cases, 1, 0, 0);
    Order(cases, 1, 0, 1);
  }

  lemma ParentsOfOne(q: Path, p: Path)
    ensures p in WithParents({q}) <==> p <= q
  {
    if p <= q {
      assert p == q[..|p|];
    }
  }

  /** The first test leaves everything on the way to its leaf directory, but not that. */
  lemma AfterFirstTest(c: Setup, p: Path)
    requires c.workers == 1 && |c.plan| >= 2 && c.plan[0].op == Write && Clears(c.plan[1]) && c.plan[0].shape == c.plan[1].shape
    requires c.plan[0].shape == OneBranch(c.plan[0].shape.depth)
    ensures var leaf := LeafOfDepth(c.plan[0].shape.depth);
      p in PlannedDirs(c, EMPTY_DISK, 2) <==> p <= leaf && p != leaf
  {
    var leaf := LeafOfDepth(c.plan[0].shape.depth);
    OneLeaf(c.plan[0].shape.depth);
    var made := PlannedDirs(c, EMPTY_DISK, 1);
    assert made == {} + WithParents({leaf}) by {
      assert PlannedDirs(c, EMPTY_DISK, 0) == {};
    }
    ParentsOfOne(leaf, p);
    ParentsOfOne(leaf, leaf);
    forall q | q in made ensures !Below(q, leaf) {
      ParentsOfOne(leaf, q);
    }
    assert IsEmptyDir(FS(map[], made), leaf);
  }

  /** The second test finds something below its leaf directory exactly if the first one's tree is deeper by two levels
      or more: one level down is the first test's own leaf directory, which is gone by then. */
  lemma BelowSecondLeaf(c: Setup)
    requires c.workers == 1 && |c.plan| >= 4 && c.plan[0].op == c.plan[2].op == Write && Clears(c.plan[1])
    requires c.plan[0].shape == c.plan[1].shape == OneBranch(c.plan[0].shape.depth)
    requires c.plan[2].shape == OneBranch(c.plan[2].shape.depth)
    ensures var first, second := c.plan[0].shape.depth, c.plan[2].shape.depth;
      HasBelow(PlannedDirs(c, EMPTY_DISK, 3), LeafOfDepth(second)) <==> first >= second + 2
  {
    var first, second := c.plan[0].shape.depth, c.plan[2].shape.depth;
    var deep, leaf := LeafOfDepth(first), LeafOfDepth(second);
    OneLeaf(first);
    OneLeaf(second);
    forall p ensures p in PlannedDirs(c, EMPTY_DISK, 3) <==> (p <= deep && p != deep) || p <= leaf {
      AfterFirstTest(c, p);
      ParentsOfOne(leaf, p);
    }
    if first >= second + 2 {
      OnTheWay(second, first, ["mnt"], 0);
      var p := deep[..second + 2];
      assert p in PlannedDirs(c, EMPTY_DISK, 3) && Below(p, leaf);
    }
  }

  lemma SecondLeaf(c: Setup, depth: nat)
    requires Sound(c, EMPTY_DISK) && c.workers == 1 && |c.plan| == 4 && Clears(c.plan[3]) && c.plan[3].shape == OneBranch(depth)
    ensures LeafOfDepth(depth) in PlannedDirs(c, EMPTY_DISK, 4) <==> HasBelow(PlannedDirs(c, EMPTY_DISK, 3), LeafOfDepth(depth))
  {
    OneLeaf(depth);
    LeafIsLeftIff(c, EMPTY_DISK, 3, LeafOfDepth(depth));
  }

  /** A test that clears its directories after a deeper one on the same anchor leaves its leaf directory if and only if
      the other was deeper by at least two levels: then a directory between the two leaves is still in the way. */
  lemma MixedDepthsLeave(first: nat, second: nat) returns (plan: seq<Round>)
    requires first >= 1 && second >= 1
    ensures Ready(Tests(first, second), ONE_WORKER, plan, EMPTY_DISK) && |plan| == 4
    ensures var c := SetupOf(Tests(first, second), ONE_WORKER, plan);
      LeafOfDepth(second) in PlannedDirs(c, EMPTY_DISK, 4) <==> first >= second + 2
  {
    plan := Rounds(first, second);
    var c := SetupOf(Tests(first, second), ONE_WORKER, plan);
    BelowSecondLeaf(c);
    ReadyIffSound(Tests(first, second), ONE_WORKER, plan, EMPTY_DISK);
    SecondLeaf(c, second);
  }

  lemma NextIsSecondLeaf(c: Setup, s: System, depth: nat)
    requires c.workers == 1 && |c.plan| == |s.protocol.rounds| == 4 && c.plan[3].shape == OneBranch(depth) && AtWork(c, s, 0)
    requires Can(c, s, CleanDirectory(0))
    ensures NextToRemove(c, s, 0) == LeafOfDepth(depth)
  {
    OneLeaf(depth);
    NextIsLeaf(c, s, 0);
  }

  lemma NoFirstFiles(q: Path)
    ensures !HasBelow(EMPTY_DISK.files.Keys, q)
  {
  }

  /** That is the directory a worker is about to remove in the last round, and then, in every run, its removal fails. */
  lemma MixedDepthsFail(first: nat, second: nat, acts: seq<Act>) returns (plan: seq<Round>)
    requires first >= 1 && second >= 1
    ensures Ready(Tests(first, second), ONE_WORKER, plan, EMPTY_DISK) && |plan| == 4
    ensures var c := SetupOf(Tests(first, second), ONE_WORKER, plan);
      Workable(c) && (Run(c, EMPTY_DISK, acts).Some? ==>
        var s := Run(c, EMPTY_DISK, acts).value;
        Can(c, s, CleanDirectory(0)) && |s.protocol.rounds| == 4 ==>
          (!Remove(s.fs, NextToRemove(c, s, 0)).1 <==> first >= second + 2))
  {
    plan := Rounds(first, second);
    var c := SetupOf(Tests(first, second), ONE_WORKER, plan);
    BelowSecondLeaf(c);
    ReadyIffSound(Tests(first, second), ONE_WORKER, plan, EMPTY_DISK);
    if Run(c, EMPTY_DISK, acts).Some? {
      LastRemoval(c, acts, second);
    }
  }

  lemma LastRemoval(c: Setup, acts: seq<Act>, depth: nat)
    requires Sound(c, EMPTY_DISK) && c.workers == 1 && |c.plan| == 4 && c.plan[3].shape == OneBranch(depth)
    requires Run(c, EMPTY_DISK, acts).Some?
    ensures var s := Run(c, EMPTY_DISK, acts).value;
      Can(c, s, CleanDirectory(0)) && |s.protocol.rounds| == 4 ==>
        (Remove(s.fs, NextToRemove(c, s, 0)).1 <==> !HasBelow(PlannedDirs(c, EMPTY_DISK, 3), LeafOfDepth(depth)))
  {
    var s := Run(c, EMPTY_DISK, acts).value;
    if Can(c, s, CleanDirectory(0)) && |s.protocol.rounds| == 4 {
      EveryRunKeepsInv(c, EMPTY_DISK, acts);
      BusyIsAtWork(c, s, 0);
      NextIsSecondLeaf(c, s, depth);
      NoFirstFiles(LeafOfDepth(depth));
      RemovingLeaf(c, EMPTY_DISK, acts, 0);
    }
  }
}
