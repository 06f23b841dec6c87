/** A round that writes files an earlier round has written already, nothing having been deleted since: no file can be
    created again. */
module Rewriting {
  import opened BenchmarkPlan
  import opened BenchmarkResults
  import opened WorkTree
  import opened FileSystem
  import opened RoundFiles
  import opened BenchmarkRun
  import opened RunTheorems

  /** File `p` cannot be created. */
  predicate Blocked(fs: FS, p: Path) {
    !CanMake(fs, Parent(p)) || Exists(fs, p)
  }

  predicate Grown(fs: FS, fs': FS) {
    fs.files.Keys <= fs'.files.Keys && fs.dirs <= fs'.dirs
  }

  lemma StaysBlocked(fs: FS, fs': FS, p: Path)
    requires Grown(fs, fs') && Blocked(fs, p)
    ensures Blocked(fs', p)
  {
    if !CanMake(fs, Parent(p)) {
      var n :| 0 <= n <= |Parent(p)| && Parent(p)[..n] in fs.files;
      assert Parent(p)[..n] in fs'.files;
    }
  }

  /** Only deleting takes anything away. */
  lemma Grows(workers: nat, round: Round, base: FS, done: set<Path>, leaves: set<Path>)
    requires SizesValid(round.shape) && round.op != Delete
    ensures Grown(base, Effect(workers, round, base, done, leaves))
  {
  }

  lemma WritingBlocks(workers: nat, round: Round, base: FS, done: set<Path>, leaves: set<Path>, p: Path)
    requires SizesValid(round.shape) && round.op == Write && p in done
    ensures Blocked(Effect(workers, round, base, done, leaves), p)
  {
    if !Succeeds(round, base, p) {
      Grows(workers, round, base, done, leaves);
      StaysBlocked(base, Effect(workers, round, base, done, leaves), p);
    }
  }

  predicate NothingDeleted(plan: seq<Round>, q: nat, r: nat)
    requires r <= |plan|
  {
    forall k :: q < k < r ==> plan[k].op != Delete
  }

  lemma {:induction false} BlockedSince(c: Setup, initial: FS, q: nat, r: nat, p: Path)
    requires SizedPlan(c) && q < r <= |c.plan| && c.plan[q].op == Write && NothingDeleted(c.plan, q, r)
    requires p in AllFiles(c.workers, c.plan[q].shape)
    ensures Blocked(Settled(c, initial, r), p)
    decreases r
  {
    var round := c.plan[r - 1];
    var files, leaves := AllFiles(c.workers, round.shape), LeavesOf(c.workers, round);
    if q == r - 1 {
      WritingBlocks(c.workers, round, Settled(c, initial, r - 1), files, leaves, p);
    } else {
      BlockedSince(c, initial, q, r - 1, p);
      Grows(c.workers, round, Settled(c, initial, r - 1), files, leaves);
      StaysBlocked(Settled(c, initial, r - 1), Settled(c, initial, r), p);
    }
  }

  lemma NothingSucceeds(c: Setup, initial: FS, q: nat, r: nat)
    requires SizedPlan(c) && q < r < |c.plan| && c.plan[q].op == c.plan[r].op == Write && c.plan[q].shape == c.plan[r].shape
    requires NothingDeleted(c.plan, q, r)
    ensures Good(c.plan[r], Settled(c, initial, r), AllFiles(c.workers, c.plan[r].shape)) == {}
  {
    forall p | p in AllFiles(c.workers, c.plan[r].shape) ensures !Succeeds(c.plan[r], Settled(c, initial, r), p) {
      BlockedSince(c, initial, q, r, p);
    }
  }

  /** In every run, whatever is done in between except deleting: the second of two rounds that write the same files creates
      none of them, and still counts them all, as failed, with all their bytes. */
  lemma SecondWriteFails(c: Setup, initial: FS, acts: seq<Act>, q: nat, r: nat)
    requires Workable(c) && NamesDistinct(c.plan) && Run(c, initial, acts).Some?
    requires q < r < |Run(c, initial, acts).value.protocol.recorded| && r < |c.plan|
    requires c.plan[q].op == c.plan[r].op == Write && c.plan[q].shape == c.plan[r].shape && NothingDeleted(c.plan, q, r)
    ensures var results := Run(c, initial, acts).value.protocol.recorded[r];
      && results != []
      && Summed(results).failedOperations >= |AllFiles(c.workers, c.plan[r].shape)| as real
      && Summed(results).bytes == Bytes(c, c.plan[r]) as real
  {
    TotalsOfRound(c, initial, acts, r);
    NothingSucceeds(c, initial, q, r);
    OneOperationEach(c, r);
    SubsetCount(Makeable(Settled(c, initial, r), LeavesMade(c, c.plan[r])), LeavesMade(c, c.plan[r]));
  }
}
