/** The configured test cases, and how the global settings fill in what they leave out. */
module Configuration {
  import opened Options

  /** The settings for all tests.  An empty text, an empty list and None stand for "not set". */
  datatype Global = Global(anchor: string, directIO: Option<bool>, operations: seq<string>, threads: seq<nat>,
                           workers: nat, reorderTasks: bool)

  /** What can be overridden in a file-system define, and in a workload define. */
  datatype Target = Target(anchor: string, directIO: Option<bool>)
  datatype Load = Load(operations: seq<string>, threads: seq<nat>)

  /** A file-system define. */
  class FSD {
    var target: Target
    const depth: nat
    const width: nat
    const files: nat
    const size: nat

    constructor (target: Target, depth: nat, width: nat, files: nat, size: nat)
      ensures this.target == target && this.depth == depth && this.width == width && this.files == files && this.size == size
    {
      this.target, this.depth, this.width, this.files, this.size := target, depth, width, files, size;
    }
  }

  /** A workload define. */
  class FWD {
    var load: Load
    const blockSize: nat

    constructor (load: Load, blockSize: nat)
      ensures this.load == load && this.blockSize == blockSize
    {
      this.load, this.blockSize := load, blockSize;
    }
  }

  class TestCase {
    var name: string
    const payloadGenerator: string
    const fsd: FSD?
    const fwd: FWD?
    const clearDirs: bool

    constructor (name: string, payloadGenerator: string, fsd: FSD?, fwd: FWD?, clearDirs: bool)
      ensures this.name == name && this.payloadGenerator == payloadGenerator
      ensures this.fsd == fsd && this.fwd == fwd && this.clearDirs == clearDirs
    {
      this.name, this.payloadGenerator, this.fsd, this.fwd, this.clearDirs := name, payloadGenerator, fsd, fwd, clearDirs;
    }
  }

  datatype Defect = NoTests | BadPayloadGenerator | NoDefines | NoAnchor | NoDirectIO | NoOperations | NoThreads

  /** The settings of a test case that are checked; None for a define that is missing. */
  datatype Settings = Settings(payloadGenerator: string, target: Option<Target>, load: Option<Load>)

  function SettingsOf(test: TestCase): Settings
    reads test.fsd, test.fwd
  {
    Settings(test.payloadGenerator,
             if test.fsd == null then None else Some(test.fsd.target),
             if test.fwd == null then None else Some(test.fwd.load))
  }

  /** The first thing wrong with a test case, in the order in which it is looked for. */
  function DefectOf(global: Global, test: Settings): Option<Defect> {
    if test.payloadGenerator !in {"", "random", "empty"} then Some(BadPayloadGenerator)
    else if test.target.None? || test.load.None? then Some(NoDefines)
    else if global.anchor == "" == test.target.value.anchor then Some(NoAnchor)
    else if global.directIO.None? && test.target.value.directIO.None? then Some(NoDirectIO)
    else if global.operations == [] == test.load.value.operations then Some(NoOperations)
    else if global.threads == [] == test.load.value.threads then Some(NoThreads)
    else None
  }

  function FilledTarget(global: Global, target: Target): Target {
    Target(if target.anchor == "" then global.anchor else target.anchor,
           if target.directIO.None? then global.directIO else target.directIO)
  }

  function FilledLoad(global: Global, load: Load): Load {
    Load(if load.operations == [] then global.operations else load.operations,
         if load.threads == [] then global.threads else load.threads)
  }

  function Filled(global: Global, test: Settings): Settings {
    test.(target := if test.target.None? then None else Some(FilledTarget(global, test.target.value)),
          load := if test.load.None? then None else Some(FilledLoad(global, test.load.value)))
  }

  /** Nothing is missing. */
  predicate IsComplete(test: Settings) {
    && test.target.Some? && test.target.value.anchor != "" && test.target.value.directIO.Some?
    && test.load.Some? && test.load.value.operations != [] && test.load.value.threads != []
  }

  /** A test is complete after filling exactly when nothing was wrong with it; filling again changes nothing, and
      what is wrong with a test does not depend on having been filled. */
  lemma FilledOnce(global: Global, test: Settings)
    ensures DefectOf(global, test).None? <==> test.payloadGenerator in {"", "random", "empty"} && IsComplete(Filled(global, test))
    ensures Filled(global, Filled(global, test)) == Filled(global, test)
    ensures DefectOf(global, Filled(global, test)) == DefectOf(global, test)
  {
  }

  function Targets(tests: seq<TestCase>): set<FSD> {
    set test <- tests | test.fsd != null :: test.fsd as FSD
  }

  function Loads(tests: seq<TestCase>): set<FWD> {
    set test <- tests | test.fwd != null :: test.fwd as FWD
  }

  function TargetsOf(tests: seq<TestCase>): (targets: map<FSD, Target>)
    reads Targets(tests)
  {
    map fsd: FSD | fsd in Targets(tests) :: fsd.target
  }

  function LoadsOf(tests: seq<TestCase>): (loads: map<FWD, Load>)
    reads Loads(tests)
  {
    map fwd: FWD | fwd in Loads(tests) :: fwd.load
  }

  /** The settings of a test case, given the contents of all defines. */
  function SettingsIn(test: TestCase, targets: map<FSD, Target>, loads: map<FWD, Load>): Settings
    requires (test.fsd != null ==> test.fsd in targets) && (test.fwd != null ==> test.fwd in loads)
  {
    Settings(test.payloadGenerator,
             if test.fsd == null then None else Some(targets[test.fsd]),
             if test.fwd == null then None else Some(loads[test.fwd]))
  }

  /** The first `n` tests have no defect. */
  predicate NoDefects(global: Global, tests: seq<TestCase>, n: nat, targets: map<FSD, Target>, loads: map<FWD, Load>)
    requires n <= |tests| && targets.Keys == Targets(tests) && loads.Keys == Loads(tests)
  {
    forall i :: 0 <= i < n ==> DefectIn(global, tests, i, targets, loads).None?
  }

  function DefectIn(global: Global, tests: seq<TestCase>, i: nat, targets: map<FSD, Target>, loads: map<FWD, Load>): Option<Defect>
    requires i < |tests| && targets.Keys == Targets(tests) && loads.Keys == Loads(tests)
  {
    assert tests[i] in tests;
    DefectOf(global, SettingsIn(tests[i], targets, loads))
  }

  // ----- What can be wrong with a test case

  predicate GeneratorBad(test: TestCase) {
    test.payloadGenerator != "" && test.payloadGenerator != "random" && test.payloadGenerator != "empty"
  }

  predicate DefineMissing(test: TestCase) {
    test.fsd == null || test.fwd == null
  }

  predicate AnchorMissing(test: TestCase, global: Global)
    requires !DefineMissing(test)
    reads test.fsd
  {
    test.fsd.target.anchor == "" && global.anchor == ""
  }

  predicate DirectIOMissing(test: TestCase, global: Global)
    requires !DefineMissing(test)
    reads test.fsd
  {
    test.fsd.target.directIO.None? && global.directIO.None?
  }

  predicate OperationsMissing(test: TestCase, global: Global)
    requires !DefineMissing(test)
    reads test.fwd
  {
    test.fwd.load.operations == [] && global.operations == []
  }

  predicate ThreadsMissing(test: TestCase, global: Global)
    requires !DefineMissing(test)
    reads test.fwd
  {
    test.fwd.load.threads == [] && global.threads == []
  }

  /** A setting that a define had before has stayed; one that it had not is the global one. */
  predicate Overrides(target: Target, target': Target, load: Load, load': Load, global: Global) {
    && (target.anchor != "" ==> target'.anchor == target.anchor) && (target.anchor == "" ==> target'.anchor == global.anchor)
    && (target.directIO.Some? ==> target'.directIO == target.directIO) && (target.directIO.None? ==> target'.directIO == global.directIO)
    && (load.operations != [] ==> load'.operations == load.operations) && (load.operations == [] ==> load'.operations == global.operations)
    && (load.threads != [] ==> load'.threads == load.threads) && (load.threads == [] ==> load'.threads == global.threads)
  }

  method FirstDefect(test: TestCase, global: Global) returns (defect: Option<Defect>)
    ensures defect == DefectOf(global, SettingsOf(test))
    ensures defect == Some(BadPayloadGenerator) <==> GeneratorBad(test)
    ensures defect == Some(NoDefines) <==> !GeneratorBad(test) && DefineMissing(test)
    ensures defect == Some(NoAnchor) <==> !GeneratorBad(test) && !DefineMissing(test) && AnchorMissing(test, global)
    ensures defect == Some(NoDirectIO) <==>
      !GeneratorBad(test) && !DefineMissing(test) && !AnchorMissing(test, global) && DirectIOMissing(test, global)
    ensures defect == Some(NoOperations) <==>
      && !GeneratorBad(test) && !DefineMissing(test) && !AnchorMissing(test, global) && !DirectIOMissing(test, global)
      && OperationsMissing(test, global)
    ensures defect == Some(NoThreads) <==>
      && !GeneratorBad(test) && !DefineMissing(test) && !AnchorMissing(test, global) && !DirectIOMissing(test, global)
      && !OperationsMissing(test, global) && ThreadsMissing(test, global)
    ensures defect != Some(NoTests)
  {
    if test.payloadGenerator != "" && test.payloadGenerator != "random" && test.payloadGenerator != "empty" {
      return Some(BadPayloadGenerator);
    }
    if test.fsd == null || test.fwd == null {
      return Some(NoDefines);
    }
    if global.anchor == "" && test.fsd.target.anchor == "" {
      return Some(NoAnchor);
    }
    if global.directIO.None? && test.fsd.target.directIO.None? {
      return Some(NoDirectIO);
    }
    if |global.operations| == 0 && |test.fwd.load.operations| == 0 {
      return Some(NoOperations);
    }
    if |global.threads| == 0 && |test.fwd.load.threads| == 0 {
      return Some(NoThreads);
    }
    return None;
  }

  method FillIn(test: TestCase, global: Global)
    requires test.fsd != null && test.fwd != null
    modifies test.fsd, test.fwd
    ensures test.fsd.target == FilledTarget(global, old(test.fsd.target))
    ensures test.fwd.load == FilledLoad(global, old(test.fwd.load))
  {
    if test.fsd.target.anchor == "" {
      test.fsd.target := test.fsd.target.(anchor := global.anchor);
    }
    if test.fsd.target.directIO.None? {
      test.fsd.target := test.fsd.target.(directIO := global.directIO);
    }
    if |test.fwd.load.operations| == 0 {
      test.fwd.load := test.fwd.load.(operations := global.operations);
    }
    if |test.fwd.load.threads| == 0 {
      test.fwd.load := test.fwd.load.(threads := global.threads);
    }
  }

  /** What filling in means: own settings stay, and the others become the global ones. */
  lemma OwnSettingsStay(global: Global, target: Target, load: Load)
    ensures Overrides(target, FilledTarget(global, target), load, FilledLoad(global, load), global)
  {
  }

  /** The defines of the first `n` tests have been filled in, and the others are as they were. */
  predicate FilledUpTo(global: Global, tests: seq<TestCase>, n: nat,
                       targets: map<FSD, Target>, loads: map<FWD, Load>, targets': map<FSD, Target>, loads': map<FWD, Load>)
    requires n <= |tests| && targets.Keys == targets'.Keys == Targets(tests) && loads.Keys == loads'.Keys == Loads(tests)
  {
    && (forall fsd <- Targets(tests) ::
          targets'[fsd] == if fsd in Targets(tests[..n]) then FilledTarget(global, targets[fsd]) else targets[fsd])
    && (forall fwd <- Loads(tests) ::
          loads'[fwd] == if fwd in Loads(tests[..n]) then FilledLoad(global, loads[fwd]) else loads[fwd])
  }

  /** Filling in a define once more, because two tests share it, changes nothing. */
  lemma SettingsSoFar(global: Global, tests: seq<TestCase>, n: nat, i: nat, targets: map<FSD, Target>, loads: map<FWD, Load>,
                      targets': map<FSD, Target>, loads': map<FWD, Load>)
    requires n <= |tests| && i < |tests|
    requires targets.Keys == targets'.Keys == Targets(tests) && loads.Keys == loads'.Keys == Loads(tests)
    requires FilledUpTo(global, tests, n, targets, loads, targets', loads')
    ensures DefectIn(global, tests, i, targets', loads') == DefectIn(global, tests, i, targets, loads)
    ensures i < n ==> SettingsIn(tests[i], targets', loads') == Filled(global, SettingsIn(tests[i], targets, loads))
  {
    if i < n {
      assert tests[..n][i] == tests[i];
    }
  }

  lemma DefinesOfNext(tests: seq<TestCase>, n: nat)
    requires n < |tests| && tests[n].fsd != null && tests[n].fwd != null
    ensures Targets(tests[..n + 1]) == Targets(tests[..n]) + {tests[n].fsd}
    ensures Loads(tests[..n + 1]) == Loads(tests[..n]) + {tests[n].fwd}
    ensures tests[n].fsd in Targets(tests) && tests[n].fwd in Loads(tests)
  {
    assert tests[..n + 1] == tests[..n] + [tests[n]];
    assert tests[n] in tests;
  }

  lemma FillingTwice(global: Global, target: Target, load: Load)
    ensures FilledTarget(global, FilledTarget(global, target)) == FilledTarget(global, target)
    ensures FilledLoad(global, FilledLoad(global, load)) == FilledLoad(global, load)
  {
  }

  lemma FilledNext(global: Global, tests: seq<TestCase>, n: nat, targets: map<FSD, Target>, loads: map<FWD, Load>,
                   targets': map<FSD, Target>, loads': map<FWD, Load>)
    requires n < |tests| && targets.Keys == targets'.Keys == Targets(tests) && loads.Keys == loads'.Keys == Loads(tests)
    requires tests[n].fsd != null && tests[n].fwd != null && tests[n].fsd in targets && tests[n].fwd in loads
    requires FilledUpTo(global, tests, n, targets, loads, targets', loads')
    ensures FilledUpTo(global, tests, n + 1, targets, loads,
                       targets'[tests[n].fsd := FilledTarget(global, targets'[tests[n].fsd])],
                       loads'[tests[n].fwd := FilledLoad(global, loads'[tests[n].fwd])])
  {
    DefinesOfNext(tests, n);
    FillingTwice(global, targets[tests[n].fsd], loads[tests[n].fwd]);
  }

  /** The tests are filled in up to the `n`-th, their defines having been `targets` and `loads` at first. */
  predicate Progress(global: Global, tests: seq<TestCase>, n: nat, targets: map<FSD, Target>, loads: map<FWD, Load>)
    reads Targets(tests), Loads(tests)
  {
    && n <= |tests| && targets.Keys == Targets(tests) && loads.Keys == Loads(tests)
    && FilledUpTo(global, tests, n, targets, loads, TargetsOf(tests), LoadsOf(tests))
  }

  method CheckNext(tests: seq<TestCase>, n: nat, global: Global, ghost targets: map<FSD, Target>, ghost loads: map<FWD, Load>)
    returns (defect: Option<Defect>)
    requires n < |tests| && Progress(global, tests, n, targets, loads)
    ensures defect == DefectIn(global, tests, n, targets, loads)
  {
    SettingsSoFar(global, tests, n, n, targets, loads, TargetsOf(tests), LoadsOf(tests));
    defect := FirstDefect(tests[n], global);
  }

  method FillNext(tests: seq<TestCase>, n: nat, global: Global, ghost targets: map<FSD, Target>, ghost loads: map<FWD, Load>)
    requires n < |tests| && tests[n].fsd != null && tests[n].fwd != null && Progress(global, tests, n, targets, loads)
    modifies tests[n].fsd, tests[n].fwd
    ensures Progress(global, tests, n + 1, targets, loads)
  {
    ghost var targets', loads' := TargetsOf(tests), LoadsOf(tests);
    ghost var fsd, fwd := tests[n].fsd as FSD, tests[n].fwd as FWD;
    DefinesOfNext(tests, n);
    FilledNext(global, tests, n, targets, loads, targets', loads');
    FillIn(tests[n], global);
    assert TargetsOf(tests) == targets'[fsd := FilledTarget(global, targets'[fsd])];
    assert LoadsOf(tests) == loads'[fwd := FilledLoad(global, loads'[fwd])];
  }

  lemma PartOfAll(tests: seq<TestCase>, n: nat)
    requires n < |tests|
    ensures tests[n].fsd != null ==> tests[n].fsd in Targets(tests)
    ensures tests[n].fwd != null ==> tests[n].fwd in Loads(tests)
  {
    assert tests[n] in tests;
  }

  /** After all tests have been accepted, each has its own settings, and the global ones for those it did not have. */
  lemma AllOverride(global: Global, tests: seq<TestCase>, i: nat, targets: map<FSD, Target>, loads: map<FWD, Load>,
                    targets': map<FSD, Target>, loads': map<FWD, Load>)
    requires i < |tests| && targets.Keys == targets'.Keys == Targets(tests) && loads.Keys == loads'.Keys == Loads(tests)
    requires FilledUpTo(global, tests, |tests|, targets, loads, targets', loads')
    requires NoDefects(global, tests, |tests|, targets, loads)
    ensures tests[i].fsd != null && tests[i].fwd != null && tests[i].fsd in targets && tests[i].fwd in loads
    ensures Overrides(targets[tests[i].fsd], targets'[tests[i].fsd], loads[tests[i].fwd], loads'[tests[i].fwd], global)
  {
    PartOfAll(tests, i);
    assert DefectIn(global, tests, i, targets, loads).None?;
    assert tests[..|tests|] == tests;
    OwnSettingsStay(global, targets[tests[i].fsd], loads[tests[i].fwd]);
  }

  /** After all tests have been accepted, none has anything missing. */
  lemma AllComplete(global: Global, tests: seq<TestCase>, targets: map<FSD, Target>, loads: map<FWD, Load>,
                    targets': map<FSD, Target>, loads': map<FWD, Load>)
    requires targets.Keys == targets'.Keys == Targets(tests) && loads.Keys == loads'.Keys == Loads(tests)
    requires FilledUpTo(global, tests, |tests|, targets, loads, targets', loads')
    requires NoDefects(global, tests, |tests|, targets, loads)
    ensures forall i :: 0 <= i < |tests| ==> IsComplete(SettingsIn(tests[i], targets', loads'))
  {
    forall i | 0 <= i < |tests| ensures IsComplete(SettingsIn(tests[i], targets', loads')) {
      SettingsSoFar(global, tests, |tests|, i, targets, loads, targets', loads');
      FilledOnce(global, SettingsIn(tests[i], targets, loads));
    }
  }

  /** Checking again what has been accepted finds no defect and changes no define. */
  lemma SecondRun(global: Global, tests: seq<TestCase>, targets: map<FSD, Target>, loads: map<FWD, Load>,
                  targets': map<FSD, Target>, loads': map<FWD, Load>, targets'': map<FSD, Target>, loads'': map<FWD, Load>)
    requires targets.Keys == targets'.Keys == targets''.Keys == Targets(tests)
    requires loads.Keys == loads'.Keys == loads''.Keys == Loads(tests)
    requires NoDefects(global, tests, |tests|, targets, loads)
    requires FilledUpTo(global, tests, |tests|, targets, loads, targets', loads')
    requires FilledUpTo(global, tests, |tests|, targets', loads', targets'', loads'')
    ensures NoDefects(global, tests, |tests|, targets', loads')
    ensures targets'' == targets' && loads'' == loads'
  {
    assert tests[..|tests|] == tests;
    forall i | 0 <= i < |tests| ensures DefectIn(global, tests, i, targets', loads').None? {
      SettingsSoFar(global, tests, |tests|, i, targets, loads, targets', loads');
    }
  }

  /** Test number `k` has this defect, none before it has any, and only those before it have been filled in. */
  predicate StoppedAt(global: Global, tests: seq<TestCase>, k: nat, targets: map<FSD, Target>, loads: map<FWD, Load>,
                      error: Option<Defect>)
    reads Targets(tests), Loads(tests)
  {
    && k < |tests| && Progress(global, tests, k, targets, loads)
    && NoDefects(global, tests, k, targets, loads) && error == DefectIn(global, tests, k, targets, loads)
  }

  /** Fills the tests in one after the other, and stops at the first one with a defect. */
  method CheckTestCase(tests: seq<TestCase>, global: Global) returns (error: Option<Defect>)
    modifies Targets(tests), Loads(tests)
    ensures tests == [] <==> error == Some(NoTests)
    ensures error.None? ==>
      && NoDefects(global, tests, |tests|, old(TargetsOf(tests)), old(LoadsOf(tests)))
      && Progress(global, tests, |tests|, old(TargetsOf(tests)), old(LoadsOf(tests)))
    ensures error.None? ==> forall i :: 0 <= i < |tests| ==>
      && tests[i].fsd != null && tests[i].fwd != null
      && Overrides(old(tests[i].fsd.target), tests[i].fsd.target, old(tests[i].fwd.load), tests[i].fwd.load, global)
    ensures error.Some? && tests != [] ==>
      exists k :: StoppedAt(global, tests, k, old(TargetsOf(tests)), old(LoadsOf(tests)), error)
  {
    if |tests| == 0 {
      return Some(NoTests);
    }
    ghost var targets, loads := TargetsOf(tests), LoadsOf(tests);
    for i := 0 to |tests|
      invariant Progress(global, tests, i, targets, loads)
      invariant NoDefects(global, tests, i, targets, loads)
    {
      var defect := CheckNext(tests, i, global, targets, loads);
      if defect.Some? {
        assert StoppedAt(global, tests, i, targets, loads, defect);
        return defect;
      }
      PartOfAll(tests, i);
      FillNext(tests, i, global, targets, loads);
    }
    forall i | 0 <= i < |tests|
      ensures tests[i].fsd != null && tests[i].fwd != null
      ensures Overrides(old(tests[i].fsd.target), tests[i].fsd.target, old(tests[i].fwd.load), tests[i].fwd.load, global)
    {
      AllOverride(global, tests, i, targets, loads, TargetsOf(tests), LoadsOf(tests));
    }
    return None;
  }
}
