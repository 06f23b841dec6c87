/** One operation in the midst of a round: its outcome is what it would have been before the round, whichever operations
    of the round came before it. */
module RoundEffects {
  import opened BenchmarkPlan
  import opened WorkTree
  import opened FileSystem
  import opened RoundFiles
  import WorkItems

  // ----- Lengths keep the paths of a round apart

  function LeafLength(shape: Shape): nat {
    |shape.anchor| + shape.depth
  }

  lemma LeafHasLength(shape: Shape, tree: nat, k: nat)
    requires k < LeafCount(shape)
    ensures |Leaf(shape, tree, k)| == LeafLength(shape)
  {
    LeafExtends(shape, WorkerId(tree), shape.anchor, 0, k);
  }

  lemma FilesHaveLength(workers: nat, shape: Shape)
    ensures forall p <- AllFiles(workers, shape) :: |p| == LeafLength(shape) + 1
  {
    forall p <- AllFiles(workers, shape) ensures |p| == LeafLength(shape) + 1 {
      var tree, k, i :| 0 <= tree < workers && 0 <= k < LeafCount(shape) && 0 <= i < shape.files && p == FilePath(shape, tree, k, i);
      LeafHasLength(shape, tree, k);
    }
  }

  lemma LeavesHaveLength(workers: nat, shape: Shape)
    ensures forall q <- AllLeaves(workers, shape) :: |q| == LeafLength(shape)
  {
    forall q <- AllLeaves(workers, shape) ensures |q| == LeafLength(shape) {
      var tree, k :| 0 <= tree < workers && 0 <= k < LeafCount(shape) && q == Leaf(shape, tree, k);
      LeafHasLength(shape, tree, k);
    }
  }

  /** A part of a round: some of its files, and some of its leaf directories. */
  predicate PartOf(workers: nat, shape: Shape, done: set<Path>, leaves: set<Path>) {
    done <= AllFiles(workers, shape) && leaves <= AllLeaves(workers, shape)
  }

  /** Lengths are all that is used of the paths. */
  predicate Long(paths: set<Path>, length: nat) {
    forall p <- paths :: |p| == length
  }

  lemma Lengths(workers: nat, shape: Shape, done: set<Path>, leaves: set<Path>)
    requires PartOf(workers, shape, done, leaves)
    ensures Long(done, LeafLength(shape) + 1) && Long(leaves, LeafLength(shape))
    ensures Long(AllFiles(workers, shape), LeafLength(shape) + 1) && Long(AllLeaves(workers, shape), LeafLength(shape))
    ensures Long(Parents(done), LeafLength(shape))
  {
    FilesHaveLength(workers, shape);
    LeavesHaveLength(workers, shape);
  }

  // ----- Making directories

  lemma MadeOneMore(base: FS, leaves: set<Path>, q: Path)
    ensures Made(base, leaves + {q}) == Made(base, leaves) + (if CanMake(base, q) then Prefixes(q) else {})
  {
  }

  /** Files as long as the round's are not in the way of its leaf directories. */
  lemma SameWay(base: FS, fs: FS, q: Path)
    requires forall p :: |p| <= |q| ==> (p in fs.files <==> p in base.files)
    ensures CanMake(fs, q) <==> CanMake(base, q)
  {
    if CanMake(base, q) {
      forall n | 0 <= n <= |q| ensures q[..n] !in fs.files {
        assert |q[..n]| <= |q|;
      }
    }
    if CanMake(fs, q) {
      forall n | 0 <= n <= |q| ensures q[..n] !in base.files {
        assert |q[..n]| <= |q|;
      }
    }
  }

  /** Nothing is in the way of a leaf directory in the midst of a round that was not there before it. */
  lemma SameWayInRound(workers: nat, round: Round, base: FS, done: set<Path>, leaves: set<Path>, q: Path)
    requires SizesValid(round.shape) && round.op != Delete && PartOf(workers, round.shape, done, leaves)
    requires |q| == LeafLength(round.shape)
    ensures CanMake(Effect(workers, round, base, done, leaves), q) <==> CanMake(base, q)
  {
    Lengths(workers, round.shape, done, leaves);
    SameWay(base, Effect(workers, round, base, done, leaves), q);
  }

  lemma PreparedDirs(base: FS, leaves: set<Path>, others: set<Path>, q: Path)
    ensures var before := base.dirs + Made(base, leaves + others);
      base.dirs + Made(base, (leaves + {q}) + others) == if CanMake(base, q) then before + Prefixes(q) else before
  {
    MadeOneMore(base, leaves + others, q);
    assert (leaves + {q}) + others == (leaves + others) + {q};
  }

  /** Preparing a leaf directory. */
  lemma PreparingOne(workers: nat, round: Round, base: FS, done: set<Path>, leaves: set<Path>, q: Path)
    requires SizesValid(round.shape) && round.op == Write && PartOf(workers, round.shape, done, leaves)
    requires |q| == LeafLength(round.shape)
    ensures MakeAll(Effect(workers, round, base, done, leaves), q)
         == (Effect(workers, round, base, done, leaves + {q}), CanMake(base, q))
  {
    SameWayInRound(workers, round, base, done, leaves, q);
    PreparedDirs(base, leaves, Parents(done), q);
  }

  // ----- The operations

  lemma ParentOfFile(dir: Path, name: string)
    ensures Parent(dir + [name]) == dir
  {
  }

  lemma OpenedDirs(base: FS, leaves: set<Path>, done: set<Path>, p: Path)
    ensures var before := base.dirs + Made(base, leaves + Parents(done));
      base.dirs + Made(base, leaves + Parents(done + {p})) == if CanMake(base, Parent(p)) then before + Prefixes(Parent(p)) else before
  {
    assert leaves + Parents(done + {p}) == (leaves + Parents(done)) + {Parent(p)};
    MadeOneMore(base, leaves + Parents(done), Parent(p));
  }

  lemma MadeAreShort(base: FS, leaves: set<Path>, length: nat, p: Path)
    requires Long(leaves, length) && |p| > length
    ensures p !in Made(base, leaves)
  {
  }

  lemma WrittenFiles(round: Round, base: FS, done: set<Path>, p: Path)
    requires SizesValid(round.shape)
    ensures var length := LengthOf(round.shape);
      base.files + Filled(Good(round, base, done + {p}), length)
      == if Succeeds(round, base, p) then (base.files + Filled(Good(round, base, done), length))[p := length]
         else base.files + Filled(Good(round, base, done), length)
  {
    if Succeeds(round, base, p) {
      assert Good(round, base, done + {p}) == Good(round, base, done) + {p};
    } else {
      assert Good(round, base, done + {p}) == Good(round, base, done);
    }
  }

  lemma UntouchedByMaking(workers: nat, round: Round, base: FS, done: set<Path>, leaves: set<Path>, p: Path)
    requires SizesValid(round.shape) && round.op != Delete && PartOf(workers, round.shape, done, leaves)
    requires |p| == LeafLength(round.shape) + 1 && p !in done
    ensures SameAt(Effect(workers, round, base, done, leaves), base, p)
  {
    Lengths(workers, round.shape, done, leaves);
    if round.op == Write {
      MadeAreShort(base, leaves + Parents(done), LeafLength(round.shape), p);
    } else if round.op == Read {
      MadeAreShort(base, Parents(done), LeafLength(round.shape), p);
    }
  }

  lemma WritingOne(workers: nat, round: Round, base: FS, done: set<Path>, leaves: set<Path>, dir: Path, name: string)
    requires SizesValid(round.shape) && round.op == Write && PartOf(workers, round.shape, done, leaves)
    requires |dir| == LeafLength(round.shape) && dir + [name] !in done
    ensures WriteNew(Effect(workers, round, base, done, leaves), dir, name, LengthOf(round.shape))
         == (Effect(workers, round, base, done + {dir + [name]}, leaves), Succeeds(round, base, dir + [name]))
  {
    var p := dir + [name];
    ParentOfFile(dir, name);
    SameWayInRound(workers, round, base, done, leaves, dir);
    UntouchedByMaking(workers, round, base, done, leaves, p);
    OpenedDirs(base, leaves, done, p);
    WrittenFiles(round, base, done, p);
    NotOnTheWay(dir, p);
  }

  lemma NotOnTheWay(q: Path, p: Path)
    requires |p| > |q|
    ensures p !in Prefixes(q)
  {
  }

  lemma ReadingOne(workers: nat, round: Round, base: FS, done: set<Path>, leaves: set<Path>, dir: Path, name: string)
    requires SizesValid(round.shape) && round.op == Read && PartOf(workers, round.shape, done, leaves)
    requires |dir| == LeafLength(round.shape)
    ensures ReadBack(Effect(workers, round, base, done, leaves), dir, name, LengthOf(round.shape))
         == (Effect(workers, round, base, done + {dir + [name]}, leaves), Succeeds(round, base, dir + [name]))
  {
    ParentOfFile(dir, name);
    SameWayInRound(workers, round, base, done, leaves, dir);
    OpenedDirs(base, {}, done, dir + [name]);
    assert {} + Parents(done) == Parents(done) && {} + Parents(done + {dir + [name]}) == Parents(done + {dir + [name]});
  }

  // ----- Removing

  lemma SameEmptiness(fs: FS, fs': FS, q: Path)
    requires q in fs.dirs <==> q in fs'.dirs
    requires forall p | Below(p, q) :: (p in fs.files <==> p in fs'.files) && (p in fs.dirs <==> p in fs'.dirs)
    ensures IsEmptyDir(fs, q) <==> IsEmptyDir(fs', q)
  {
  }

  /** Paths of other lengths, and files of the round still to be deleted, are untouched by a round that deletes. */
  lemma UntouchedByDeleting(workers: nat, round: Round, base: FS, done: set<Path>, leaves: set<Path>, p: Path)
    requires SizesValid(round.shape) && round.op == Delete && PartOf(workers, round.shape, done, leaves)
    requires p !in done && |p| > LeafLength(round.shape)
    ensures SameAt(Effect(workers, round, base, done, leaves), base, p)
  {
    Lengths(workers, round.shape, done, leaves);
  }

  lemma DeletableInRound(workers: nat, round: Round, base: FS, done: set<Path>, leaves: set<Path>, p: Path)
    requires SizesValid(round.shape) && round.op == Delete && PartOf(workers, round.shape, done, leaves)
    requires p !in done && |p| == LeafLength(round.shape) + 1
    ensures var fs := Effect(workers, round, base, done, leaves);
      (p in fs.files <==> p in base.files) && (IsEmptyDir(fs, p) <==> IsEmptyDir(base, p))
  {
    var fs := Effect(workers, round, base, done, leaves);
    Lengths(workers, round.shape, done, leaves);
    UntouchedByDeleting(workers, round, base, done, leaves, p);
    forall x | Below(x, p) ensures (x in fs.files <==> x in base.files) && (x in fs.dirs <==> x in base.dirs) {
      UntouchedByDeleting(workers, round, base, done, leaves, x);
    }
    SameEmptiness(fs, base, p);
  }

  lemma WithoutOneMore(base: FS, last: FS, done: set<Path>, leaves: set<Path>, p: Path)
    requires p !in leaves
    ensures var before, after := Cleared(Without(base, done), last, leaves), Cleared(Without(base, done + {p}), last, leaves);
      && after.files == before.files - {p}
      && after.dirs == before.dirs - (if p !in base.files && IsEmptyDir(base, p) then {p} else {})
  {
  }

  lemma DeletingOne(workers: nat, round: Round, base: FS, done: set<Path>, leaves: set<Path>, p: Path)
    requires SizesValid(round.shape) && round.op == Delete && PartOf(workers, round.shape, done, leaves)
    requires p !in done && |p| == LeafLength(round.shape) + 1
    ensures Remove(Effect(workers, round, base, done, leaves), p)
         == (Effect(workers, round, base, done + {p}, leaves), Succeeds(round, base, p))
  {
    Lengths(workers, round.shape, done, leaves);
    DeletableInRound(workers, round, base, done, leaves, p);
    WithoutOneMore(base, Without(base, AllFiles(workers, round.shape)), done, leaves, p);
    var before := Effect(workers, round, base, done, leaves);
    if p !in before.files {
      assert before.files - {p} == before.files;
    }
    assert before.dirs - {} == before.dirs;
  }

  /** Whether removing leaf directory `q` succeeds, told from the file system before the round. */
  predicate Clearable(workers: nat, round: Round, base: FS, q: Path) {
    var last := Without(base, AllFiles(workers, round.shape));
    q in last.files || IsEmptyDir(last, q)
  }

  predicate FilesDone(shape: Shape, tree: nat, k: nat, done: set<Path>) {
    forall i :: 0 <= i < shape.files ==> FilePath(shape, tree, k, i) in done
  }

  lemma FileBelowItsLeafOnly(shape: Shape, tree: nat, k: nat, tree': nat, k': nat, i: nat)
    requires shape.depth > 0 && k < LeafCount(shape) && k' < LeafCount(shape)
    requires Below(FilePath(shape, tree', k', i), Leaf(shape, tree, k))
    ensures tree' == tree && k' == k
  {
    var leaf, leaf' := Leaf(shape, tree, k), Leaf(shape, tree', k');
    LeafHasLength(shape, tree, k);
    LeafHasLength(shape, tree', k');
    assert FilePath(shape, tree', k', i)[..|leaf|] == leaf';
    LeavesDiffer(shape, tree, k, tree', k');
  }

  /** The files below a leaf directory are its own. */
  lemma FilesBelowLeaf(workers: nat, shape: Shape, tree: nat, k: nat, done: set<Path>, p: Path)
    requires shape.depth > 0 && k < LeafCount(shape) && FilesDone(shape, tree, k, done)
    requires p in AllFiles(workers, shape) && Below(p, Leaf(shape, tree, k))
    ensures p in done
  {
    var tree', k', i :| 0 <= tree' < workers && 0 <= k' < LeafCount(shape) && 0 <= i < shape.files && p == FilePath(shape, tree', k', i);
    FileBelowItsLeafOnly(shape, tree, k, tree', k', i);
  }

  /** Once its own files are deleted, a leaf directory looks as it will when all files of the round are. */
  lemma ClearableInRound(workers: nat, round: Round, base: FS, done: set<Path>, leaves: set<Path>, tree: nat, k: nat)
    requires SizesValid(round.shape) && round.op == Delete && round.shape.depth > 0 && PartOf(workers, round.shape, done, leaves)
    requires k < LeafCount(round.shape) && Leaf(round.shape, tree, k) !in leaves && FilesDone(round.shape, tree, k, done)
    ensures var fs, last, q := Effect(workers, round, base, done, leaves), Without(base, AllFiles(workers, round.shape)), Leaf(round.shape, tree, k);
      (q in fs.files <==> q in last.files) && (IsEmptyDir(fs, q) <==> IsEmptyDir(last, q))
  {
    var fs, last, q := Effect(workers, round, base, done, leaves), Without(base, AllFiles(workers, round.shape)), Leaf(round.shape, tree, k);
    Lengths(workers, round.shape, done, leaves);
    LeafHasLength(round.shape, tree, k);
    forall x | Below(x, q) ensures (x in fs.files <==> x in last.files) && (x in fs.dirs <==> x in last.dirs) {
      if x in AllFiles(workers, round.shape) {
        FilesBelowLeaf(workers, round.shape, tree, k, done, x);
      }
    }
    SameEmptiness(fs, last, q);
  }

  lemma ClearedOneMore(fs: FS, last: FS, leaves: set<Path>, q: Path)
    ensures var before, after := Cleared(fs, last, leaves), Cleared(fs, last, leaves + {q});
      && after.files == before.files - {q}
      && after.dirs == before.dirs - (if q !in last.files && IsEmptyDir(last, q) then {q} else {})
  {
  }

  /** Removing a leaf directory whose files have been dealt with. */
  lemma ClearingOne(workers: nat, round: Round, base: FS, done: set<Path>, leaves: set<Path>, tree: nat, k: nat)
    requires SizesValid(round.shape) && round.op == Delete && round.shape.depth > 0 && PartOf(workers, round.shape, done, leaves)
    requires k < LeafCount(round.shape) && Leaf(round.shape, tree, k) !in leaves && FilesDone(round.shape, tree, k, done)
    ensures var q := Leaf(round.shape, tree, k);
      Remove(Effect(workers, round, base, done, leaves), q)
      == (Effect(workers, round, base, done, leaves + {q}), Clearable(workers, round, base, q))
  {
    var q, before := Leaf(round.shape, tree, k), Effect(workers, round, base, done, leaves);
    ClearableInRound(workers, round, base, done, leaves, tree, k);
    ClearedOneMore(Without(base, done), Without(base, AllFiles(workers, round.shape)), leaves, q);
    if q !in before.files {
      assert before.files - {q} == before.files;
    }
    assert before.dirs - {} == before.dirs;
  }

  // ----- All of it

  /** A job of the round, in the midst of it. */
  lemma DoingOne(workers: nat, round: Round, base: FS, done: set<Path>, leaves: set<Path>, tree: nat, k: nat, i: nat)
    requires SizesValid(round.shape) && PartOf(workers, round.shape, done, leaves) && k < LeafCount(round.shape)
    requires FilePath(round.shape, tree, k, i) !in done
    ensures var p := FilePath(round.shape, tree, k, i);
      WorkItems.Execute(round.op, Effect(workers, round, base, done, leaves), round.shape, Leaf(round.shape, tree, k), i)
      == (Effect(workers, round, base, done + {p}, leaves), Succeeds(round, base, p))
  {
    var dir, name := Leaf(round.shape, tree, k), FileName(i);
    LeafHasLength(round.shape, tree, k);
    match round.op
    case Write => WritingOne(workers, round, base, done, leaves, dir, name);
    case Read => ReadingOne(workers, round, base, done, leaves, dir, name);
    case Stat =>
    case Delete => DeletingOne(workers, round, base, done, leaves, dir + [name]);
  }

  /** So a job succeeds if and only if it would if it were the only one of its round. */
  lemma SucceedsAsIfAlone(round: Round, base: FS, tree: nat, k: nat, i: nat)
    requires SizesValid(round.shape) && k < LeafCount(round.shape)
    ensures Succeeds(round, base, FilePath(round.shape, tree, k, i))
        <==> WorkItems.Execute(round.op, base, round.shape, Leaf(round.shape, tree, k), i).1
  {
    NothingYet(0, round, base);
    DoingOne(0, round, base, {}, {}, tree, k, i);
  }

  /** A round starts from the file system it finds. */
  lemma NothingYet(workers: nat, round: Round, base: FS)
    requires SizesValid(round.shape)
    ensures Effect(workers, round, base, {}, {}) == base
  {
    assert Parents({}) == {} && {} + Parents({}) == {} && Made(base, {}) == {};
    assert Good(round, base, {}) == {};
    assert base.files + Filled({}, LengthOf(round.shape)) == base.files;
    assert (base.files - {}) - {} == base.files;
  }
}
