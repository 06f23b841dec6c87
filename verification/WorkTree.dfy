/** The directory trees the workers fill, and the paths of the files in them. */
module WorkTree {
  import opened Text
  import opened Arithmetic
  import opened BenchmarkPlan

  type Path = seq<string>

  function WorkerId(tree: nat): string {
    "w" + Decimal(tree)
  }

  /** The name of a directory of the tree; on the top level it starts with the worker's ID. */
  function SubDir(workerId: string, level: nat, i: nat): string {
    if level == 0 then workerId + ".fsb.0_" + Decimal(i) else "fsb." + Decimal(level) + "_" + Decimal(i)
  }

  function FileName(index: nat): string {
    "bat." + Decimal(index)
  }

  /** The k-th leaf below `path`: on each level the directory is chosen by the next base-`width` digit of k. */
  function LeafBelow(shape: Shape, workerId: string, path: Path, level: nat, k: nat): Path
    decreases shape.depth - level
  {
    if level >= shape.depth then path
    else
      var below := Pow(shape.width, shape.depth - level - 1);
      if below == 0 then path
      else LeafBelow(shape, workerId, path + [SubDir(workerId, level, k / below)], level + 1, k % below)
  }

  /** Leaf directory `k` of tree `tree`. */
  function Leaf(shape: Shape, tree: nat, k: nat): Path {
    LeafBelow(shape, WorkerId(tree), shape.anchor, 0, k)
  }

  function FilePath(shape: Shape, tree: nat, k: nat, index: nat): Path {
    Leaf(shape, tree, k) + [FileName(index)]
  }

  /** The names of the test in pkg/worker/worker_test.go: the directory of a level ends in its place on the level, and only
      those on top begin with the worker. */
  lemma SomeNames()
    ensures SubDir(WorkerId(1), 0, 1) == "w1.fsb.0_1" && SubDir(WorkerId(1), 2, 0) == "fsb.2_0" && SubDir(WorkerId(1), 3, 1) == "fsb.3_1"
    ensures WorkerId(12) == "w12" && FileName(0) == "bat.0" && FileName(10) == "bat.10"
  {
    assert Decimal(0) == "0" && Decimal(1) == "1" && Decimal(2) == "2" && Decimal(3) == "3";
    assert Decimal(10) == "10" && Decimal(12) == "12";
  }

  /** A directory's name ends in its place among those of its level, whose names begin alike. */
  lemma SubDirForm(workerId: string, level: nat, i: nat)
    ensures var start := if level == 0 then workerId + ".fsb.0_" else "fsb." + Decimal(level) + "_";
      var name := SubDir(workerId, level, i);
      start <= name && AllDigits(name[|start|..]) && Value(name[|start|..]) == i
  {
    var start := if level == 0 then workerId + ".fsb.0_" else "fsb." + Decimal(level) + "_";
    assert SubDir(workerId, level, i) == start + Decimal(i);
    ValueOfDecimal(i);
  }

  lemma FileNameForm(index: nat)
    ensures "bat." <= FileName(index) && AllDigits(FileName(index)[4..]) && Value(FileName(index)[4..]) == index
  {
    assert FileName(index)[4..] == Decimal(index);
    ValueOfDecimal(index);
  }

  lemma DivMod(i: nat, j: nat, d: nat)
    requires j < d
    ensures (i * d + j) / d == i && (i * d + j) % d == j
  {
    var q := (i * d + j) / d;
    ProductMonotone(q, i, d);
    ProductMonotone(i, q, d);
  }

  lemma DigitBound(k: nat, width: nat, below: nat)
    requires k < width * below
    ensures below > 0 && k / below < width && k % below < below && k == (k / below) * below + k % below
  {
    assert below != 0;
    ProductMonotone(k / below, width, below);
  }

  /** The recursive enumeration lists exactly the width^depth leaves, in the order of their digits. */
  method PopulateLevel(shape: Shape, workerId: string, currentPath: Path, currentDepth: nat) returns (dirs: seq<Path>)
    requires currentDepth <= shape.depth
    ensures |dirs| == Pow(shape.width, shape.depth - currentDepth)
    ensures forall k :: 0 <= k < |dirs| ==> dirs[k] == LeafBelow(shape, workerId, currentPath, currentDepth, k)
    decreases shape.depth - currentDepth
  {
    dirs := [];
    if currentDepth < shape.depth {
      ghost var below := Pow(shape.width, shape.depth - currentDepth - 1);
      for i := 0 to shape.width
        invariant |dirs| == i * below
        invariant forall k :: 0 <= k < |dirs| ==> dirs[k] == LeafBelow(shape, workerId, currentPath, currentDepth, k)
      {
        var more := PopulateLevel(shape, workerId, currentPath + [SubDir(workerId, currentDepth, i)], currentDepth + 1);
        forall j | 0 <= j < below
          ensures more[j] == LeafBelow(shape, workerId, currentPath, currentDepth, i * below + j)
        {
          DivMod(i, j, below);
        }
        OneMore(i, below);
        dirs := dirs + more;
      }
    } else {
      dirs := dirs + [currentPath];
    }
  }

  method PopulateDirs(shape: Shape, tree: nat) returns (dirs: seq<Path>)
    ensures |dirs| == LeafCount(shape)
    ensures forall k :: 0 <= k < |dirs| ==> dirs[k] == Leaf(shape, tree, k)
  {
    dirs := PopulateLevel(shape, WorkerId(tree), shape.anchor, 0);
  }

  // ----- All these paths are different

  lemma {:induction false} LeafExtends(shape: Shape, workerId: string, path: Path, level: nat, k: nat)
    requires level <= shape.depth && k < Pow(shape.width, shape.depth - level)
    ensures |LeafBelow(shape, workerId, path, level, k)| == |path| + shape.depth - level
    ensures path <= LeafBelow(shape, workerId, path, level, k)
    decreases shape.depth - level
  {
    if level < shape.depth {
      var below := Pow(shape.width, shape.depth - level - 1);
      DigitBound(k, shape.width, below);
      LeafExtends(shape, workerId, path + [SubDir(workerId, level, k / below)], level + 1, k % below);
    }
  }

  /** Directories of one level and one worker have different names. */
  lemma SubDirInjective(workerId: string, level: nat, i: nat, j: nat)
    requires SubDir(workerId, level, i) == SubDir(workerId, level, j)
    ensures i == j
  {
    var prefix := if level == 0 then workerId + ".fsb.0_" else "fsb." + Decimal(level) + "_";
    assert SubDir(workerId, level, i) == prefix + Decimal(i) && SubDir(workerId, level, j) == prefix + Decimal(j);
    assert Decimal(i) == SubDir(workerId, level, i)[|prefix|..];
    assert Decimal(j) == SubDir(workerId, level, j)[|prefix|..];
    DecimalInjective(i, j);
  }

  /** No top directory of one worker is one of another, w1 and w11 included. */
  lemma TopDirInjective(tree: nat, tree': nat, i: nat, i': nat)
    requires SubDir(WorkerId(tree), 0, i) == SubDir(WorkerId(tree'), 0, i')
    ensures tree == tree' && i == i'
  {
    var rest, rest' := "fsb.0_" + Decimal(i), "fsb.0_" + Decimal(i');
    assert SubDir(WorkerId(tree), 0, i) == WorkerId(tree) + ['.'] + rest;
    assert SubDir(WorkerId(tree'), 0, i') == WorkerId(tree') + ['.'] + rest';
    SplitAtFirst(WorkerId(tree), rest, WorkerId(tree'), rest', '.');
    assert WorkerId(tree)[1..] == Decimal(tree) && WorkerId(tree')[1..] == Decimal(tree');
    DecimalInjective(tree, tree');
    SubDirInjective(WorkerId(tree), 0, i, i');
  }

  lemma FileNameInjective(i: nat, j: nat)
    requires FileName(i) == FileName(j)
    ensures i == j
  {
    assert FileName(i)[4..] == Decimal(i) && FileName(j)[4..] == Decimal(j);
    DecimalInjective(i, j);
  }

  /** One level of the enumeration: the directory that comes next on the way to leaf `k`, and the leaf's number below it. */
  lemma LeafStep(shape: Shape, workerId: string, path: Path, level: nat, k: nat) returns (digit: nat, rest: nat)
    requires level < shape.depth && k < Pow(shape.width, shape.depth - level)
    ensures rest < Pow(shape.width, shape.depth - level - 1)
    ensures k == digit * Pow(shape.width, shape.depth - level - 1) + rest
    ensures LeafBelow(shape, workerId, path, level, k)
         == LeafBelow(shape, workerId, path + [SubDir(workerId, level, digit)], level + 1, rest)
    ensures |LeafBelow(shape, workerId, path, level, k)| > |path|
    ensures LeafBelow(shape, workerId, path, level, k)[|path|] == SubDir(workerId, level, digit)
  {
    var below := Pow(shape.width, shape.depth - level - 1);
    DigitBound(k, shape.width, below);
    digit, rest := k / below, k % below;
    var next := path + [SubDir(workerId, level, digit)];
    LeafExtends(shape, workerId, next, level + 1, rest);
    assert LeafBelow(shape, workerId, path, level, k)[|path|] == next[|path|];
  }

  lemma {:induction false} LeafInjective(shape: Shape, workerId: string, path: Path, level: nat, k: nat, k': nat)
    requires level <= shape.depth
    requires k < Pow(shape.width, shape.depth - level) && k' < Pow(shape.width, shape.depth - level)
    requires LeafBelow(shape, workerId, path, level, k) == LeafBelow(shape, workerId, path, level, k')
    ensures k == k'
    decreases shape.depth - level
  {
    if level < shape.depth {
      var digit, rest := LeafStep(shape, workerId, path, level, k);
      var digit', rest' := LeafStep(shape, workerId, path, level, k');
      SubDirInjective(workerId, level, digit, digit');
      LeafInjective(shape, workerId, path + [SubDir(workerId, level, digit)], level + 1, rest, rest');
    }
  }

  /** The component of a leaf right below the anchor. */
  lemma TopOfLeaf(shape: Shape, tree: nat, k: nat) returns (i: nat)
    requires shape.depth > 0 && k < LeafCount(shape)
    ensures |Leaf(shape, tree, k)| == |shape.anchor| + shape.depth
    ensures Leaf(shape, tree, k)[|shape.anchor|] == SubDir(WorkerId(tree), 0, i)
  {
    var rest;
    i, rest := LeafStep(shape, WorkerId(tree), shape.anchor, 0, k);
    LeafExtends(shape, WorkerId(tree), shape.anchor, 0, k);
  }

  /** The leaves of all trees of a round are pairwise different. */
  lemma LeavesDiffer(shape: Shape, tree: nat, k: nat, tree': nat, k': nat)
    requires shape.depth > 0 && k < LeafCount(shape) && k' < LeafCount(shape)
    requires Leaf(shape, tree, k) == Leaf(shape, tree', k')
    ensures tree == tree' && k == k'
  {
    var i := TopOfLeaf(shape, tree, k);
    var i' := TopOfLeaf(shape, tree', k');
    TopDirInjective(tree, tree', i, i');
    LeafInjective(shape, WorkerId(tree), shape.anchor, 0, k, k');
  }

  /** So are the paths of all files. */
  lemma FilesDiffer(shape: Shape, tree: nat, k: nat, i: nat, tree': nat, k': nat, i': nat)
    requires shape.depth > 0 && k < LeafCount(shape) && k' < LeafCount(shape)
    requires FilePath(shape, tree, k, i) == FilePath(shape, tree', k', i')
    ensures tree == tree' && k == k' && i == i'
  {
    var p, p' := FilePath(shape, tree, k, i), FilePath(shape, tree', k', i');
    assert p[..|p| - 1] == Leaf(shape, tree, k) && p'[..|p'| - 1] == Leaf(shape, tree', k');
    assert p[|p| - 1] == FileName(i) && p'[|p'| - 1] == FileName(i');
    LeavesDiffer(shape, tree, k, tree', k');
    FileNameInjective(i, i');
  }
}
