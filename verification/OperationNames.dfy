/** What the texts of a configuration stand for: which operation each names, what that does and what it counts. */
module OperationNames {
  import opened Options
  import opened BenchmarkPlan
  import opened WorkTree
  import opened FileSystem
  import opened RoundFiles
  import opened Schedule
  import opened ScheduleTheorems
  import opened ByteSizes
  import WorkItems
  import C = RunCounts

  // ----- Printing an operation

  /** Operations are bits, so that a number stands for a set of them. */
  function Flag(t: OpType): nat {
    match t
    case Read => 1
    case Write => 2
    case Stat => 4
    case Delete => 8
  }

  predicate Has(flags: nat, t: OpType) {
    flags / Flag(t) % 2 == 1
  }

  function Names(flags: nat): seq<string> {
    (if Has(flags, Read) then ["read"] else [])
    + (if Has(flags, Write) then ["write"] else [])
    + (if Has(flags, Stat) then ["stat"] else [])
    + (if Has(flags, Delete) then ["delete"] else [])
  }

  function Join(parts: seq<string>, separator: string): string {
    if parts == [] then ""
    else if |parts| == 1 then parts[0]
    else Join(parts[..|parts| - 1], separator) + separator + parts[|parts| - 1]
  }

  /** What an operation, or a set of them, is printed as. */
  function String(flags: nat): string {
    Join(Names(flags), ",")
  }

  lemma OneName(t: OpType)
    ensures String(Flag(t)) == match t case Read => "read" case Write => "write" case Stat => "stat" case Delete => "delete"
  {
  }

  /** An operation is read from what it is printed as, and from nothing else. */
  lemma NamedIff(s: string, t: OpType)
    ensures ToOpType(s) == Some(t) <==> s == String(Flag(t))
  {
    OneName(t);
  }

  lemma {:induction false} CommaInJoin(parts: seq<string>)
    requires |parts| >= 2
    ensures ',' in Join(parts, ",")
  {
    var before := Join(parts[..|parts| - 1], ",");
    assert Join(parts, ",")[|before|] == ',';
  }

  lemma NoComma(s: string)
    requires ToOpType(s).Some?
    ensures s != "" && ',' !in s
  {
  }

  lemma HowManyNames(flags: nat)
    requires flags < 16
    ensures |Names(flags)| == (flags % 2) + (flags / 2 % 2) + (flags / 4 % 2) + (flags / 8 % 2)
  {
  }

  lemma FewFlags(flags: nat)
    requires flags < 16
    ensures var n := (flags % 2) + (flags / 2 % 2) + (flags / 4 % 2) + (flags / 8 % 2);
      (n == 0 <==> flags == 0) && (n == 1 <==> flags == 1 || flags == 2 || flags == 4 || flags == 8)
  {
  }

  lemma OneFlagIsNamed(flags: nat)
    requires flags == 1 || flags == 2 || flags == 4 || flags == 8
    ensures ToOpType(String(flags)).Some?
  {
    var t := if flags == 1 then Read else if flags == 2 then Write else if flags == 4 then Stat else Delete;
    NamedIff(String(flags), t);
  }

  /** What several operations, or none, are printed as names no operation. */
  lemma OnlyOneIsNamed(flags: nat)
    requires flags < 16
    ensures ToOpType(String(flags)).Some? <==> flags == 1 || flags == 2 || flags == 4 || flags == 8
  {
    HowManyNames(flags);
    FewFlags(flags);
    if |Names(flags)| == 1 {
      OneFlagIsNamed(flags);
    } else if ToOpType(String(flags)).Some? {
      NoComma(String(flags));
      if |Names(flags)| >= 2 {
        CommaInJoin(Names(flags));
      }
    }
  }

  /** Counters and latencies of an operation are kept under its name in capitals. */
  lemma MethodIsName(t: OpType)
    ensures WorkItems.Method(t) == ToUpper(String(Flag(t)))
  {
    OneName(t);
    assert ToUpper("read") == "READ" && ToUpper("write") == "WRITE";
    assert ToUpper("stat") == "STAT" && ToUpper("delete") == "DELETE";
  }

  // ----- What the texts do

  predicate Creates(fs: FS, fs': FS, ok: bool, dir: Path, p: Path, length: nat) {
    && (ok <==> CanMake(fs, dir) && !Exists(fs, p))
    && fs'.files == (if ok then fs.files[p := length] else fs.files)
  }

  predicate ReadsBack(fs: FS, fs': FS, ok: bool, dir: Path, p: Path, length: nat) {
    && (ok <==> CanMake(fs, dir) && p in fs.files && fs.files[p] >= length)
    && fs'.files == fs.files
  }

  predicate LooksUp(fs: FS, fs': FS, ok: bool, p: Path) {
    (ok <==> p in fs.files || p in fs.dirs) && fs' == fs
  }

  predicate Removes(fs: FS, fs': FS, ok: bool, p: Path) {
    && (p in fs.files ==> ok && fs'.files == fs.files - {p} && fs'.dirs == fs.dirs)
    && (!Exists(fs, p) ==> !ok && fs' == fs)
  }

  /** "write" creates the file at its full length, which must not be there; "read" needs all of it to be there and changes no
      file; "stat" looks for it and changes nothing; "delete" removes it. */
  lemma WhatTextsDo(op: string, fs: FS, shape: Shape, dir: Path, index: nat)
    requires ToOpType(op).Some? && SizesValid(shape)
    ensures var p, length := dir + [FileName(index)], FileLength(shape.size, shape.blockSize);
      var (fs', ok) := WorkItems.Execute(ToOpType(op).value, fs, shape, dir, index);
      && (op == "write" ==> Creates(fs, fs', ok, dir, p, length))
      && (op == "read" ==> ReadsBack(fs, fs', ok, dir, p, length))
      && (op == "stat" ==> LooksUp(fs, fs', ok, p))
      && (op == "delete" ==> Removes(fs, fs', ok, p))
      && (op == "write" || op == "read" || op == "stat" || op == "delete")
  {
    MakingDirectories(fs, dir, dir + [FileName(index)]);
  }

  /** A round moves the requested size for each of its files if its text is "write" or "read", and no byte if it is "stat" or
      "delete"; it makes directories if it is "write", and removes them if it is "delete" and its test says so. */
  lemma WhatTextsMean(cases: seq<Case>, plan: seq<Round>, k: nat)
    requires IsPlan(cases, plan) && k < |plan|
    ensures var op, round := AllCombos(cases)[k].op, plan[k];
      && AllCombos(cases)[k].test < |cases|
      && (op == "write" || op == "read" ==> C.BytesOf(round) == round.shape.size)
      && (op == "stat" || op == "delete" ==> C.BytesOf(round) == 0)
      && (op == "write" <==> round.op == Write)
      && (op == "delete" && cases[AllCombos(cases)[k].test].clearDirs <==> Clears(round))
  {
    RoundIsFor(cases, plan, k);
    TextIs(AllCombos(cases)[k].op, plan[k].op);
  }

  lemma TextIs(op: string, t: OpType)
    requires ToOpType(op) == Some(t)
    ensures (op == "write" <==> t == Write) && (op == "read" <==> t == Read)
    ensures (op == "stat" <==> t == Stat) && (op == "delete" <==> t == Delete)
  {
  }

  lemma RoundIsFor(cases: seq<Case>, plan: seq<Round>, k: nat)
    requires IsPlan(cases, plan) && k < |plan|
    ensures var combo, round := AllCombos(cases)[k], plan[k];
      && combo.test < |cases| && ToOpType(combo.op) == Some(round.op)
      && round.shape == cases[combo.test].shape && round.clearDirs == cases[combo.test].clearDirs
  {
    assert plan[k] == RoundFor(cases[AllCombos(cases)[k].test], AllCombos(cases)[k]);
  }

  /** Test, thread count and operation of a round are those of its place: the round runs that many clients on each worker,
      does that operation, and has the define and the housekeeping of its test. */
  lemma RoundOfPlace(cases: seq<Case>, plan: seq<Round>, i: nat, t: nat, o: nat)
    requires IsPlan(cases, plan) && i < |cases| && t < |cases[i].threads| && o < |cases[i].operations|
    ensures var at := RoundsBefore(cases, i) + t * |cases[i].operations| + o;
      && at < |plan| && plan[at].test == i
      && plan[at].threads == cases[i].threads[t]
      && cases[i].operations[o] == String(Flag(plan[at].op))
      && plan[at].shape == cases[i].shape && plan[at].clearDirs == cases[i].clearDirs
      && plan[at].name == RoundName(cases[i].name, cases[i].operations[o], cases[i].threads[t])
  {
    Order(cases, i, t, o);
    var at := RoundsBefore(cases, i) + t * |cases[i].operations| + o;
    var combo := AllCombos(cases)[at];
    assert plan[at] == RoundFor(cases[combo.test], combo);
    NamedIff(combo.op, plan[at].op);
  }
}
