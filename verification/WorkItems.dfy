/** The operations of the benchmark: their effect on the file system, and what they count. */
module WorkItems {
  import opened BenchmarkPlan
  import opened WorkTree
  import opened FileSystem
  import opened Counters

  /** What `Do` does to the file system, and whether it succeeds. */
  function Execute(op: OpType, fs: FS, shape: Shape, dir: Path, index: nat): (FS, bool)
    requires SizesValid(shape)
  {
    var name := FileName(index);
    var length := FileLength(shape.size, shape.blockSize);
    match op
    case Write => WriteNew(fs, dir, name, length)
    case Read => ReadBack(fs, dir, name, length)
    case Stat => (fs, Exists(fs, dir + [name]))
    case Delete => Remove(fs, dir + [name])
  }

  function Method(op: OpType): string {
    match op
    case Write => "WRITE"
    case Read => "READ"
    case Stat => "STAT"
    case Delete => "DELETE"
  }

  /** The counters after an operation: it counts as finished or failed, and bytes count even when it failed. */
  function Count(counters: Registry, op: OpType, ok: bool, testName: string, size: nat): Registry {
    var counted := if ok then counters.(finished := Bump(counters.finished, testName, Method(op), 1))
                   else counters.(failed := Bump(counters.failed, testName, Method(op), 1));
    match op
    case Write => counted.(uploaded := Bump(counted.uploaded, testName, Method(op), size))
    case Read => counted.(downloaded := Bump(counted.downloaded, testName, Method(op), size))
    case _ => counted
  }

  /** An operation adds one to the successes or to the failures of its test; writing adds its size to the bytes sent, reading
      to those received, whether it succeeded or not, and no other operation to either. */
  lemma CountSums(counters: Registry, op: OpType, ok: bool, testName: string, size: nat, wanted: string)
    ensures var counters' := Count(counters, op, ok, testName, size);
      && Sum(counters'.finished, wanted) == Sum(counters.finished, wanted) + (if ok && wanted == testName then 1 else 0)
      && Sum(counters'.failed, wanted) == Sum(counters.failed, wanted) + (if !ok && wanted == testName then 1 else 0)
      && Sum(counters'.uploaded, wanted) == Sum(counters.uploaded, wanted) + (if op == Write && wanted == testName then size else 0)
      && Sum(counters'.downloaded, wanted) == Sum(counters.downloaded, wanted) + (if op == Read && wanted == testName then size else 0)
  {
    var operation := Method(op);
    SumAfterBump(counters.finished, testName, operation, 1, wanted);
    SumAfterBump(counters.failed, testName, operation, 1, wanted);
    SumAfterBump(counters.uploaded, testName, operation, size, wanted);
    SumAfterBump(counters.downloaded, testName, operation, size, wanted);
  }

  function CountMkdir(counters: Registry, ok: bool, testName: string): Registry {
    if ok then counters.(finished := Bump(counters.finished, testName, "MKDIR", 1))
    else counters.(failed := Bump(counters.failed, testName, "MKDIR", 1))
  }

  /** Making a directory counts as one operation of its test, under MKDIR, and moves no bytes. */
  lemma MkdirSums(counters: Registry, ok: bool, testName: string, wanted: string, operation: string)
    ensures var counters' := CountMkdir(counters, ok, testName);
      && Sum(counters'.finished, wanted) == Sum(counters.finished, wanted) + (if ok && wanted == testName then 1 else 0)
      && Sum(counters'.failed, wanted) == Sum(counters.failed, wanted) + (if !ok && wanted == testName then 1 else 0)
      && counters'.uploaded == counters.uploaded && counters'.downloaded == counters.downloaded
      && ValueUnder(counters'.finished, wanted, operation)
         == ValueUnder(counters.finished, wanted, operation) + (if ok && wanted == testName && operation == "MKDIR" then 1 else 0)
      && ValueUnder(counters'.failed, wanted, operation)
         == ValueUnder(counters.failed, wanted, operation) + (if !ok && wanted == testName && operation == "MKDIR" then 1 else 0)
  {
    SumAfterBump(counters.finished, testName, "MKDIR", 1, wanted);
    SumAfterBump(counters.failed, testName, "MKDIR", 1, wanted);
    ValueAfterBump(counters.finished, testName, "MKDIR", 1, wanted, operation);
    ValueAfterBump(counters.failed, testName, "MKDIR", 1, wanted, operation);
  }

  /** An operation counts under its own method. */
  lemma CountedUnder(counters: Registry, op: OpType, ok: bool, testName: string, size: nat, wanted: string, operation: string)
    ensures var counters' := Count(counters, op, ok, testName, size);
      var own := wanted == testName && operation == Method(op);
      && ValueUnder(counters'.finished, wanted, operation) == ValueUnder(counters.finished, wanted, operation) + (if ok && own then 1 else 0)
      && ValueUnder(counters'.failed, wanted, operation) == ValueUnder(counters.failed, wanted, operation) + (if !ok && own then 1 else 0)
      && ValueUnder(counters'.uploaded, wanted, operation)
         == ValueUnder(counters.uploaded, wanted, operation) + (if op == Write && own then size else 0)
      && ValueUnder(counters'.downloaded, wanted, operation)
         == ValueUnder(counters.downloaded, wanted, operation) + (if op == Read && own then size else 0)
  {
    var name := Method(op);
    ValueAfterBump(counters.finished, testName, name, 1, wanted, operation);
    ValueAfterBump(counters.failed, testName, name, 1, wanted, operation);
    ValueAfterBump(counters.uploaded, testName, name, size, wanted, operation);
    ValueAfterBump(counters.downloaded, testName, name, size, wanted, operation);
  }

  /** One operation of a directory's work item. */
  class WorkItem {
    const op: OpType
    const testName: string
    const directory: Path

    constructor (op: OpType, testName: string, directory: Path)
      ensures this.op == op && this.testName == testName && this.directory == directory
    {
      this.op, this.testName, this.directory := op, testName, directory;
    }

    /** Only writing prepares anything. */
    method Prepare(disk: Disk, metrics: Metrics) returns (ok: bool)
      modifies disk, metrics
      ensures op == Write ==>
        (disk.content, ok) == MakeAll(old(disk.content), directory) && metrics.values == CountMkdir(old(metrics.values), ok, testName)
      ensures op != Write ==> ok && disk.content == old(disk.content) && metrics.values == old(metrics.values)
    {
      if op != Write {
        return true;
      }
      var (fs, made) := MakeAll(disk.content, directory);
      disk.content := fs;
      ok := made;
      if ok {
        metrics.Finished(testName, "MKDIR");
      } else {
        metrics.Failed(testName, "MKDIR");
      }
    }

    method Do(disk: Disk, metrics: Metrics, shape: Shape, index: nat) returns (ok: bool)
      requires SizesValid(shape)
      modifies disk, metrics
      ensures (disk.content, ok) == Execute(op, old(disk.content), shape, directory, index)
      ensures metrics.values == Count(old(metrics.values), op, ok, testName, shape.size)
    {
      var name := FileName(index);
      var client := new OSClient(directory, shape.size, shape.blockSize);
      match op {
        case Write => ok := client.Write(disk, name);
        case Read => ok := client.Read(disk, name);
        case Stat => ok := client.Stat(disk, name);
        case Delete => ok := client.Delete(disk, name);
      }
      if ok {
        metrics.Finished(testName, Method(op));
      } else {
        metrics.Failed(testName, Method(op));
      }
      match op {
        case Write => metrics.Uploaded(testName, Method(op), shape.size);
        case Read => metrics.Downloaded(testName, Method(op), shape.size);
        case _ =>
      }
    }

    /** Only deleting cleans anything: the directory goes if nothing is below it any more, and all else stays. */
    method Clean(disk: Disk) returns (ok: bool)
      modifies disk
      ensures op == Delete ==> (disk.content, ok) == Remove(old(disk.content), directory)
      ensures op == Delete && directory !in old(disk.content.files) ==>
        (ok <==> directory in old(disk.content.dirs) && NothingBelow(old(disk.content), directory))
      ensures op == Delete && ok ==> OnlyGone(old(disk.content), disk.content, directory)
      ensures op != Delete || !ok ==> disk.content == old(disk.content)
      ensures op != Delete ==> ok
    {
      if op != Delete {
        return true;
      }
      ok := disk.RemovePath(directory);
    }
  }
}
