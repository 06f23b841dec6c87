/** An ideal file system, and the client that creates, reads, checks and removes the benchmark's files on it. */
module FileSystem {
  import opened Arithmetic
  import opened WorkTree

  /** The length of every file, and the directories. */
  datatype FS = FS(files: map<Path, nat>, dirs: set<Path>)

  function Prefixes(path: Path): set<Path> {
    set n | 0 <= n <= |path| :: path[..n]
  }

  /** Nothing on the way to `path` is a file. */
  predicate CanMake(fs: FS, path: Path) {
    forall n :: 0 <= n <= |path| ==> path[..n] !in fs.files
  }

  function MakeAll(fs: FS, path: Path): (FS, bool) {
    if CanMake(fs, path) then (fs.(dirs := fs.dirs + Prefixes(path)), true) else (fs, false)
  }

  predicate Exists(fs: FS, path: Path) {
    path in fs.files || path in fs.dirs
  }

  /** A directory can be made if and only if no file is on the way to it, itself included; then it is there with all those
      that it is in, and nothing else is there that was not; otherwise nothing changes. */
  lemma MakingDirectories(fs: FS, dir: Path, p: Path)
    ensures var (fs', ok) := MakeAll(fs, dir);
      && (ok <==> forall q <- fs.files :: !(q <= dir))
      && fs'.files == fs.files
      && (p in fs'.dirs <==> p in fs.dirs || (ok && p <= dir))
      && (Exists(fs', p) <==> Exists(fs, p) || (ok && p <= dir))
  {
    if q :| q in fs.files && q <= dir {
      assert q == dir[..|q|];
    }
    if p <= dir {
      assert p == dir[..|p|];
    }
    if !CanMake(fs, dir) {
      var n :| 0 <= n <= |dir| && dir[..n] in fs.files;
      assert dir[..n] <= dir;
    }
  }

  predicate Below(path: Path, parent: Path) {
    parent <= path && parent != path
  }

  predicate NothingBelow(fs: FS, path: Path) {
    (forall p <- fs.files :: !Below(p, path)) && (forall p <- fs.dirs :: !Below(p, path))
  }

  predicate IsEmptyDir(fs: FS, path: Path) {
    path in fs.dirs && NothingBelow(fs, path)
  }

  /** A path is the same file, the same directory, or nothing, in both. */
  predicate SameAt(fs: FS, fs': FS, path: Path) {
    && (path in fs.files <==> path in fs'.files)
    && (path in fs.files && path in fs'.files ==> fs.files[path] == fs'.files[path])
    && (path in fs.dirs <==> path in fs'.dirs)
  }

  /** The file, or else the directory, with this path is gone, and everything else is as it was. */
  ghost predicate OnlyGone(fs: FS, fs': FS, path: Path) {
    && Exists(fs, path)
    && (if path in fs.files then path !in fs'.files else path !in fs'.dirs)
    && forall p :: p != path ==> SameAt(fs, fs', p)
  }

  /** Removes a file or an empty directory. */
  function Remove(fs: FS, path: Path): (FS, bool) {
    if path in fs.files then (fs.(files := fs.files - {path}), true)
    else if IsEmptyDir(fs, path) then (fs.(dirs := fs.dirs - {path}), true)
    else (fs, false)
  }

  /** The outcome of writing a new file of `length` bytes: the directory is made if need be, and the file must not exist. */
  function WriteNew(fs: FS, dir: Path, name: string, length: nat): (FS, bool) {
    var (fs', made) := MakeAll(fs, dir);
    var path := dir + [name];
    if made && !Exists(fs', path) then (fs'.(files := fs'.files[path := length]), true) else (fs', false)
  }

  /** The outcome of reading `length` bytes of a file; opening it makes its directory if need be. */
  function ReadBack(fs: FS, dir: Path, name: string, length: nat): (FS, bool) {
    var (fs', made) := MakeAll(fs, dir);
    var path := dir + [name];
    (fs', made && path in fs'.files && fs'.files[path] >= length)
  }

  // ----- Block arithmetic

  function BlockSize(fsize: nat, bsize: nat): nat {
    if fsize <= bsize then fsize else bsize
  }

  function BlockCount(fsize: nat, bsize: nat): nat
    requires fsize <= bsize || bsize > 0
  {
    if fsize <= bsize then 1 else (fsize - 1) / bsize + 1
  }

  function FileLength(fsize: nat, bsize: nat): nat
    requires fsize <= bsize || bsize > 0
  {
    BlockCount(fsize, bsize) * BlockSize(fsize, bsize)
  }

  /** The length written is the requested size, or if that exceeds a block, the least number of whole blocks that holds it. */
  lemma FileLengthIsLeast(fsize: nat, bsize: nat)
    requires fsize <= bsize || bsize > 0
    ensures fsize <= bsize ==> FileLength(fsize, bsize) == fsize
    ensures fsize > bsize ==>
      && fsize <= FileLength(fsize, bsize) < fsize + bsize
      && forall n: nat :: n * bsize >= fsize ==> n >= BlockCount(fsize, bsize)
  {
    if fsize > bsize {
      var q := (fsize - 1) / bsize;
      assert q * bsize <= fsize - 1 < q * bsize + bsize;
      assert (q + 1) * bsize == q * bsize + bsize;
      forall n: nat | n * bsize >= fsize ensures n >= q + 1 {
        ProductMonotone(q, n, bsize);
      }
    }
  }

  /** The file system shared by all workers. */
  class Disk {
    var content: FS

    constructor (fs: FS)
      ensures content == fs
    {
      content := fs;
    }

    /** Removes a file, or a directory that nothing is below. */
    method RemovePath(path: Path) returns (ok: bool)
      modifies this
      ensures (content, ok) == Remove(old(content), path)
      ensures ok <==> path in old(content.files) || (path in old(content.dirs) && NothingBelow(old(content), path))
      ensures ok ==> OnlyGone(old(content), content, path)
      ensures !ok ==> content == old(content)
    {
      if path in content.files {
        content := content.(files := content.files - {path});
        return true;
      }
      if path !in content.dirs || !NothingBelow(content, path) {
        return false;
      }
      content := content.(dirs := content.dirs - {path});
      return true;
    }
  }

  class OSClient {
    var rootDir: Path
    var fsize: nat
    var bsize: nat
    var bcount: nat

    /** The source divides by the block size when a file is larger than a block. */
    constructor (rootDir: Path, fsize: nat, bsize: nat)
      requires fsize <= bsize || bsize > 0
      ensures this.rootDir == rootDir
      ensures this.bsize == BlockSize(fsize, bsize) && this.bcount == BlockCount(fsize, bsize)
      ensures this.fsize == this.bcount * this.bsize == FileLength(fsize, bsize)
      ensures fsize <= bsize ==> this.bcount == 1 && this.bsize == fsize
      ensures fsize > bsize ==> this.bsize == bsize
    {
      this.rootDir := rootDir;
      this.fsize := fsize;
      this.bsize := bsize;
      if fsize <= bsize {
        this.bcount := 1;
        this.bsize := fsize;
      } else {
        var bcount := (fsize - 1) / bsize + 1;
        this.bcount := bcount;
        this.fsize := bcount * bsize;
      }
    }

    /** Writes the blocks one after the other to a file that must not exist yet. */
    method Write(disk: Disk, name: string) returns (ok: bool)
      modifies disk
      ensures (disk.content, ok) == WriteNew(old(disk.content), rootDir, name, bcount * bsize)
      ensures ok <==> CanMake(old(disk.content), rootDir) && !Exists(old(disk.content), rootDir + [name])
      ensures disk.content.dirs == MakeAll(old(disk.content), rootDir).0.dirs
      ensures disk.content.files == if ok then old(disk.content.files)[rootDir + [name] := bcount * bsize] else old(disk.content.files)
    {
      var (fs, made) := MakeAll(disk.content, rootDir);
      var path := rootDir + [name];
      MakingDirectories(disk.content, rootDir, path);
      disk.content := fs;
      if !made || Exists(disk.content, path) {
        return false;
      }
      disk.content := disk.content.(files := disk.content.files[path := 0]);
      for i := 0 to bcount
        invariant disk.content == fs.(files := fs.files[path := i * bsize])
      {
        disk.content := disk.content.(files := disk.content.files[path := disk.content.files[path] + bsize]);
        assert (i + 1) * bsize == i * bsize + bsize;
      }
      return true;
    }

    /** Reads block by block; a block that is not full is an error. */
    method Read(disk: Disk, name: string) returns (ok: bool)
      modifies disk
      ensures (disk.content, ok) == ReadBack(old(disk.content), rootDir, name, bcount * bsize)
      ensures disk.content == MakeAll(old(disk.content), rootDir).0
      ensures ok <==>
        && CanMake(old(disk.content), rootDir) && rootDir + [name] in old(disk.content.files)
        && old(disk.content.files)[rootDir + [name]] >= bcount * bsize
    {
      var (fs, made) := MakeAll(disk.content, rootDir);
      disk.content := fs;
      var path := rootDir + [name];
      if !made || path !in disk.content.files {
        return false;
      }
      var length, offset := disk.content.files[path], 0;
      for i := 0 to bcount
        invariant disk.content == fs && offset == i * bsize <= length
      {
        ghost var rest := bcount - i;
        assert bcount * bsize == i * bsize + rest * bsize;
        ProductMonotone(rest, 1, bsize);
        var n := if length - offset < bsize then length - offset else bsize;
        if n != bsize {
          return false;
        }
        offset := offset + n;
        assert (i + 1) * bsize == i * bsize + bsize;
      }
      return true;
    }

    method Stat(disk: Disk, name: string) returns (ok: bool)
      ensures ok == Exists(disk.content, rootDir + [name])
    {
      ok := Exists(disk.content, rootDir + [name]);
    }

    method Delete(disk: Disk, name: string) returns (ok: bool)
      modifies disk
      ensures (disk.content, ok) == Remove(old(disk.content), rootDir + [name])
      ensures rootDir + [name] in old(disk.content.files) ==> ok
      ensures ok ==> OnlyGone(old(disk.content), disk.content, rootDir + [name])
      ensures !ok ==> disk.content == old(disk.content)
    {
      ok := disk.RemovePath(rootDir + [name]);
    }
  }

  /** What one client wrote, another built from the same sizes reads back in full. */
  method WriteThenRead(disk: Disk, dir: Path, name: string, fsize: nat, bsize: nat) returns (written: bool, read: bool)
    requires fsize <= bsize || bsize > 0
    modifies disk
    ensures written ==> read && disk.content.files == old(disk.content.files)[dir + [name] := FileLength(fsize, bsize)]
    ensures written <==> CanMake(old(disk.content), dir) && !Exists(old(disk.content), dir + [name])
  {
    var writer := new OSClient(dir, fsize, bsize);
    var reader := new OSClient(dir, fsize, bsize);
    written := writer.Write(disk, name);
    ghost var before := disk.content;
    if written {
      assert forall n :: 0 <= n <= |dir| ==> dir[..n] != dir + [name];
    }
    read := reader.Read(disk, name);
  }

  /** The life of a file: once written it is found, read in full and deleted, and then found no more; all that is left of
      it is its directory and those that is in.  If it cannot be written, nothing is deleted. */
  method FileLife(disk: Disk, dir: Path, name: string, fsize: nat, bsize: nat)
    returns (written: bool, found: bool, read: bool, deleted: bool, left: bool)
    requires fsize <= bsize || bsize > 0
    modifies disk
    ensures written <==> CanMake(old(disk.content), dir) && !Exists(old(disk.content), dir + [name])
    ensures written ==> found && read && deleted && !left
    ensures written ==> disk.content.dirs == old(disk.content.dirs) + Prefixes(dir)
    ensures disk.content.files == old(disk.content.files)
  {
    found, read, deleted, left := false, false, false, false;
    var client := new OSClient(dir, fsize, bsize);
    assert forall n :: 0 <= n <= |dir| ==> |dir[..n]| == n && dir[..n] != dir + [name];
    assert dir + [name] !in Prefixes(dir);
    written := client.Write(disk, name);
    if written {
      found := client.Stat(disk, name);
      read := client.Read(disk, name);
      deleted := client.Delete(disk, name);
      left := client.Stat(disk, name);
      assert disk.content.files == old(disk.content.files);
      assert disk.content.dirs == old(disk.content.dirs) + Prefixes(dir);
    }
  }
}
