/** What a round does to the file system, whatever the order of its operations, and what the file system is between
    rounds. */
module RoundFiles {
  import opened BenchmarkPlan
  import opened WorkTree
  import opened FileSystem

  predicate InShape(shape: Shape, k: nat, i: nat) {
    k < LeafCount(shape) && i < shape.files
  }

  /** All files of a round's trees, one tree per worker. */
  function AllFiles(workers: nat, shape: Shape): set<Path> {
    set tree, k, i | 0 <= tree < workers && 0 <= k < LeafCount(shape) && 0 <= i < shape.files :: FilePath(shape, tree, k, i)
  }

  /** All leaf directories of a round's trees. */
  function AllLeaves(workers: nat, shape: Shape): set<Path> {
    set tree, k | 0 <= tree < workers && 0 <= k < LeafCount(shape) :: Leaf(shape, tree, k)
  }

  function LengthOf(shape: Shape): nat
    requires SizesValid(shape)
  {
    FileLength(shape.size, shape.blockSize)
  }

  function Filled(paths: set<Path>, length: nat): map<Path, nat> {
    map p | p in paths :: length
  }

  function Parent(p: Path): Path {
    if p == [] then [] else p[..|p| - 1]
  }

  function Parents(paths: set<Path>): set<Path> {
    set p | p in paths :: Parent(p)
  }

  /** The given directories and those they are in. */
  function WithParents(leaves: set<Path>): set<Path> {
    set q, n | q in leaves && 0 <= n <= |q| :: q[..n]
  }

  /** Deleting with housekeeping: the leaf directories are removed, as far as they are empty. */
  predicate Clears(round: Round) {
    round.op == Delete && round.clearDirs
  }

  // ----- One round, in terms of the file system before it

  /** Whether the operation of the round on file `p` succeeds. */
  predicate Succeeds(round: Round, base: FS, p: Path)
    requires SizesValid(round.shape)
  {
    match round.op
    case Write => CanMake(base, Parent(p)) && !Exists(base, p)
    case Read => CanMake(base, Parent(p)) && p in base.files && base.files[p] >= LengthOf(round.shape)
    case Stat => Exists(base, p)
    case Delete => p in base.files || IsEmptyDir(base, p)
  }

  function Good(round: Round, base: FS, paths: set<Path>): set<Path>
    requires SizesValid(round.shape)
  {
    set p | p in paths && Succeeds(round, base, p)
  }

  /** Those of the directories that can be made. */
  function Makeable(base: FS, leaves: set<Path>): set<Path> {
    set q | q in leaves && CanMake(base, q)
  }

  /** The directories that come into being when the given ones are made, as far as no file is in the way. */
  function Made(base: FS, leaves: set<Path>): set<Path> {
    WithParents(Makeable(base, leaves))
  }

  /** What is left after the given paths have been removed one by one; none of them is below another. */
  function Without(base: FS, paths: set<Path>): FS {
    FS(base.files - paths, base.dirs - (set p | p in paths && p !in base.files && IsEmptyDir(base, p)))
  }

  /** The same when it depends on another file system what is a file and what is empty. */
  function Cleared(fs: FS, base: FS, paths: set<Path>): FS {
    FS(fs.files - paths, fs.dirs - (set p | p in paths && p !in base.files && IsEmptyDir(base, p)))
  }

  /** The file system in the midst of a round: the operation has been done on the files `done`, and the leaf directories
      `leaves` have been prepared, or removed.  What happened to each depends on the file system before the round only. */
  function Effect(workers: nat, round: Round, base: FS, done: set<Path>, leaves: set<Path>): FS
    requires SizesValid(round.shape)
  {
    match round.op
    case Write => FS(base.files + Filled(Good(round, base, done), LengthOf(round.shape)), base.dirs + Made(base, leaves + Parents(done)))
    case Read => base.(dirs := base.dirs + Made(base, Parents(done)))
    case Stat => base
    case Delete => Cleared(Without(base, done), Without(base, AllFiles(workers, round.shape)), leaves)
  }

  /** The leaf directories a round prepares or removes. */
  function LeavesOf(workers: nat, round: Round): set<Path> {
    if round.op == Write || Clears(round) then AllLeaves(workers, round.shape) else {}
  }

  /** There is a worker, and no client divides by zero. */
  predicate SizedPlan(c: Setup) {
    c.workers >= 1 && forall q :: 0 <= q < |c.plan| ==> SizesValid(c.plan[q].shape)
  }

  /** The file system between round n - 1 and round n. */
  function Settled(c: Setup, initial: FS, n: nat): FS
    requires n <= |c.plan| && forall q :: 0 <= q < |c.plan| ==> SizesValid(c.plan[q].shape)
  {
    if n == 0 then initial
    else
      var round := c.plan[n - 1];
      Effect(c.workers, round, Settled(c, initial, n - 1), AllFiles(c.workers, round.shape), LeavesOf(c.workers, round))
  }

  // ----- What is asked of a benchmark

  /** Operations come in cycles on one shape: write first, then any reads and stats, then delete. */
  predicate InCycles(plan: seq<Round>) {
    forall r {:trigger FollowsOn(plan, r)} :: 0 <= r < |plan| ==> FollowsOn(plan, r)
  }

  predicate FollowsOn(plan: seq<Round>, r: nat)
    requires r < |plan|
  {
    && (plan[r].op == Write <==> r == 0 || plan[r - 1].op == Delete)
    && (plan[r].op != Write ==> plan[r].shape == plan[r - 1].shape)
  }

  predicate NamesDistinct(plan: seq<Round>) {
    forall q, r :: 0 <= q < r < |plan| ==> plan[q].name != plan[r].name
  }

  /** What every claim about runs asks for: a worker, and rounds of at least one client, directory and level. */
  ghost predicate Workable(c: Setup) {
    c.Valid() && forall r :: 0 <= r < |c.plan| ==> Runnable(c.plan[r])
  }

  predicate Runnable(round: Round) {
    round.threads >= 1 && round.shape.width >= 1 && round.shape.depth >= 1 && SizesValid(round.shape)
  }

  ghost predicate IsBenchFile(c: Setup, p: Path) {
    exists r, tree, k, i :: FileOf(c, p, r, tree, k, i)
  }

  predicate FileOf(c: Setup, p: Path, r: nat, tree: nat, k: nat, i: nat) {
    r < |c.plan| && tree < c.workers && InShape(c.plan[r].shape, k, i) && p == FilePath(c.plan[r].shape, tree, k, i)
  }

  predicate LeafOf(c: Setup, p: Path, r: nat, tree: nat, k: nat) {
    r < |c.plan| && tree < c.workers && k < LeafCount(c.plan[r].shape) && p == Leaf(c.plan[r].shape, tree, k)
  }

  /** No path is needed both as a file and as a directory, and none of the files is there to begin with. */
  ghost predicate NoClash(c: Setup, fs: FS) {
    && (forall p, q, r, tree, k {:trigger LeafOf(c, q, r, tree, k), IsBenchFile(c, p)} ::
          LeafOf(c, q, r, tree, k) && IsBenchFile(c, p) ==> !(p <= q))
    && (forall p {:trigger IsBenchFile(c, p)} :: IsBenchFile(c, p) ==> p !in fs.files && p !in fs.dirs)
    && (forall q, r, tree, k {:trigger LeafOf(c, q, r, tree, k)} :: LeafOf(c, q, r, tree, k) ==> CanMake(fs, q))
  }

  /** What it takes for no operation to fail. */
  ghost predicate Sound(c: Setup, fs: FS) {
    Workable(c) && InCycles(c.plan) && NamesDistinct(c.plan) && NoClash(c, fs)
  }

  // ----- Files and leaf directories

  predicate LooksLikeDir(name: string) {
    |name| > 0 && (name[0] == 'w' || name[0] == 'f')
  }

  lemma DirName(workerId: string, level: nat, i: nat)
    requires LooksLikeDir(workerId)
    ensures LooksLikeDir(SubDir(workerId, level, i))
  {
  }

  lemma {:induction false} ComponentOfLeaf(shape: Shape, workerId: string, path: Path, level: nat, k: nat, at: nat)
    requires LooksLikeDir(workerId) && level <= shape.depth && k < Pow(shape.width, shape.depth - level)
    requires |path| <= at < |path| + shape.depth - level
    ensures at < |LeafBelow(shape, workerId, path, level, k)|
    ensures LooksLikeDir(LeafBelow(shape, workerId, path, level, k)[at])
    decreases shape.depth - level
  {
    LeafExtends(shape, workerId, path, level, k);
    var digit, rest := LeafStep(shape, workerId, path, level, k);
    if at == |path| {
      DirName(workerId, level, digit);
    } else {
      ComponentOfLeaf(shape, workerId, path + [SubDir(workerId, level, digit)], level + 1, rest, at);
    }
  }

  lemma FileNameIsNoDir(index: nat)
    ensures !LooksLikeDir(FileName(index))
  {
    assert FileName(index)[0] == 'b';
  }

  lemma LastComponent(shape: Shape, tree: nat, k: nat, i: nat)
    ensures var file := FilePath(shape, tree, k, i); file[|file| - 1] == FileName(i)
  {
  }

  /** File names do not look like directory names: a file is on the way to a leaf directory, on whatever anchors the two
      may be, only if it is on the way to the anchor. */
  lemma FileOnTheWay(shape: Shape, tree: nat, k: nat, i: nat, shape': Shape, tree': nat, k': nat)
    requires k' < LeafCount(shape')
    ensures FilePath(shape, tree, k, i) <= Leaf(shape', tree', k') <==> FilePath(shape, tree, k, i) <= shape'.anchor
  {
    var file, leaf := FilePath(shape, tree, k, i), Leaf(shape', tree', k');
    LeafExtends(shape', WorkerId(tree'), shape'.anchor, 0, k');
    if file <= leaf && |file| > |shape'.anchor| {
      ComponentOfLeaf(shape', WorkerId(tree'), shape'.anchor, 0, k', |file| - 1);
      LastComponent(shape, tree, k, i);
      FileNameIsNoDir(i);
    }
  }
}
