/** The rounds the scheduler runs for the configured tests: one per test, thread count and operation, each under a name
    of its own that overwrites the name of the test. */
module Schedule {
  import opened Options
  import opened Text
  import opened BenchmarkPlan
  import opened Configuration
  import opened ByteSizes

  /** What the scheduler takes from a test case. */
  datatype Case = Case(name: string, operations: seq<string>, threads: seq<nat>, shape: Shape, clearDirs: bool)

  /** One iteration of the three nested loops over tests, thread counts and operations. */
  datatype Combo = Combo(test: nat, thread: nat, op: string)

  /** An unknown operation is a panic. */
  function ToOpType(op: string): Option<OpType> {
    match op
    case "write" => Some(Write)
    case "read" => Some(Read)
    case "stat" => Some(Stat)
    case "delete" => Some(Delete)
    case _ => None
  }

  function RoundName(name: string, op: string, thread: nat): string {
    name + "-" + op + "-t" + Decimal(thread)
  }

  /** The components of an anchor. */
  function Components(anchor: string, component: string): seq<string>
    decreases |anchor|
  {
    var done := if component == "" then [] else [component];
    if anchor == "" then done
    else if anchor[0] == '/' then done + Components(anchor[1..], "")
    else Components(anchor[1..], component + [anchor[0]])
  }

  lemma {:induction false} OneComponent(s: string, component: string)
    requires '/' !in s
    ensures Components(s, component) == if component + s == "" then [] else [component + s]
    decreases |s|
  {
    if s != "" {
      assert '/' !in s[1..];
      OneComponent(s[1..], component + [s[0]]);
      assert component + [s[0]] + s[1..] == component + s;
    } else {
      assert component + s == component;
    }
  }

  /** An anchor is split at its slashes; several of them together, or at its ends, count as one. */
  lemma {:induction false} SplitAtSlash(a: string, b: string, component: string)
    ensures Components(a + "/" + b, component) == Components(a, component) + Components(b, "")
    decreases |a|
  {
    if a == "" {
      assert a + "/" + b == "/" + b;
      assert (a + "/" + b)[1..] == b;
    } else {
      assert (a + "/" + b)[0] == a[0] && (a + "/" + b)[1..] == a[1..] + "/" + b;
      SplitAtSlash(a[1..], b, if a[0] == '/' then "" else component + [a[0]]);
    }
  }

  /** An absolute path with these components. */
  function Slashed(parts: seq<string>): string {
    if parts == [] then "" else Slashed(parts[..|parts| - 1]) + "/" + parts[|parts| - 1]
  }

  /** So an absolute anchor has the components it is written with. */
  lemma {:induction false} ComponentsOfPath(parts: seq<string>)
    requires forall i :: 0 <= i < |parts| ==> parts[i] != "" && '/' !in parts[i]
    ensures Components(Slashed(parts), "") == parts
  {
    if parts != [] {
      var init, last := parts[..|parts| - 1], parts[|parts| - 1];
      ComponentsOfPath(init);
      SplitAtSlash(Slashed(init), last, "");
      OneComponent(last, "");
      assert "" + last == last;
    }
  }

  /** The name of a round: that of its test, the operation, and the thread count in decimal digits. */
  lemma RoundNameForm(name: string, op: string, thread: nat)
    ensures var start := name + "-" + op + "-t";
      var round := RoundName(name, op, thread);
      start <= round && AllDigits(round[|start|..]) && Value(round[|start|..]) == thread
  {
    ValueOfDecimal(thread);
    assert RoundName(name, op, thread)[|name + "-" + op + "-t"|..] == Decimal(thread);
  }

  /** A define as the workers decode it: both sizes have travelled in their printed form. */
  function ShapeOf(fsd: FSD, fwd: FWD): Shape
    reads fsd, fwd
  {
    Shape(Components(fsd.target.anchor, ""), fsd.depth, fsd.width, fsd.files, Carried(fsd.size), Carried(fwd.blockSize))
  }

  predicate HasDefines(test: TestCase) {
    test.fsd != null && test.fwd != null
  }

  function CaseOf(test: TestCase): Case
    requires HasDefines(test)
    reads test, test.fsd, test.fwd
  {
    Case(test.name, test.fwd.load.operations, test.fwd.load.threads, ShapeOf(test.fsd, test.fwd), test.clearDirs)
  }

  // ----- The order of the rounds

  function OpCombos(test: nat, thread: nat, ops: seq<string>): (combos: seq<Combo>)
    ensures |combos| == |ops|
  {
    seq(|ops|, k requires 0 <= k < |ops| => Combo(test, thread, ops[k]))
  }

  function TestCombos(test: nat, threads: seq<nat>, ops: seq<string>): seq<Combo> {
    if threads == [] then []
    else TestCombos(test, threads[..|threads| - 1], ops) + OpCombos(test, threads[|threads| - 1], ops)
  }

  function AllCombos(cases: seq<Case>): seq<Combo> {
    if cases == [] then []
    else
      var last := |cases| - 1;
      AllCombos(cases[..last]) + TestCombos(last, cases[last].threads, cases[last].operations)
  }

  function RoundFor(tested: Case, combo: Combo): Round
    requires ToOpType(combo.op).Some?
  {
    Round(combo.test, RoundName(tested.name, combo.op, combo.thread), ToOpType(combo.op).value, combo.thread,
          tested.shape, tested.clearDirs)
  }

  /** The rounds `plan` are those of the first combinations, whose operations are all known. */
  predicate Carries(cases: seq<Case>, combos: seq<Combo>, plan: seq<Round>) {
    && |plan| <= |combos|
    && forall k :: 0 <= k < |plan| ==>
         && combos[k].test < |cases| && ToOpType(combos[k].op).Some?
         && plan[k] == RoundFor(cases[combos[k].test], combos[k])
  }

  /** Scheduling ends with the last combination, or with a panic at the first unknown operation. */
  predicate Ends(combos: seq<Combo>, rounds: nat, completed: bool) {
    if completed then rounds == |combos| else rounds < |combos| && ToOpType(combos[rounds].op).None?
  }

  /** The name a test is left with. */
  function LastName(name: string, started: seq<Combo>): string {
    if started == [] then name else RoundName(name, started[|started| - 1].op, started[|started| - 1].thread)
  }

  /** The combinations that have been started: those of the rounds, and the one that panics. */
  function Started(combos: seq<Combo>, rounds: nat, completed: bool): seq<Combo>
    requires Ends(combos, rounds, completed)
  {
    combos[..if completed then rounds else rounds + 1]
  }

  // ----- The loops of one test

  /** What has been started after `t` thread counts and `o` operations more. */
  function Done(test: nat, threads: seq<nat>, ops: seq<string>, t: nat, o: nat): seq<Combo>
    requires t <= |threads| && o <= |ops|
  {
    TestCombos(test, threads[..t], ops) + (if t < |threads| then OpCombos(test, threads[t], ops)[..o] else [])
  }

  lemma DoneNext(test: nat, threads: seq<nat>, ops: seq<string>, t: nat, o: nat)
    requires t < |threads| && o < |ops|
    ensures Done(test, threads, ops, t, o + 1) == Done(test, threads, ops, t, o) + [Combo(test, threads[t], ops[o])]
  {
    assert OpCombos(test, threads[t], ops)[..o + 1] == OpCombos(test, threads[t], ops)[..o] + [Combo(test, threads[t], ops[o])];
  }

  lemma DoneRow(test: nat, threads: seq<nat>, ops: seq<string>, t: nat)
    requires t < |threads|
    ensures Done(test, threads, ops, t + 1, 0) == Done(test, threads, ops, t, |ops|)
  {
    assert threads[..t + 1][..t] == threads[..t];
  }

  lemma {:induction false} RowsArePrefix(test: nat, threads: seq<nat>, ops: seq<string>, t: nat)
    requires t <= |threads|
    ensures TestCombos(test, threads[..t], ops) <= TestCombos(test, threads, ops)
    decreases |threads|
  {
    if t == |threads| {
      assert threads[..t] == threads;
    } else {
      RowsArePrefix(test, threads[..|threads| - 1], ops, t);
      assert threads[..|threads| - 1][..t] == threads[..t];
    }
  }

  lemma DoneIsPrefix(test: nat, threads: seq<nat>, ops: seq<string>, t: nat, o: nat)
    requires t <= |threads| && o <= |ops|
    ensures Done(test, threads, ops, t, o) <= TestCombos(test, threads, ops)
    ensures t == |threads| ==> Done(test, threads, ops, t, o) == TestCombos(test, threads, ops)
  {
    if t < |threads| {
      DoneRow(test, threads, ops, t);
      RowsArePrefix(test, threads, ops, t + 1);
      assert Done(test, threads, ops, t + 1, 0) == TestCombos(test, threads[..t + 1], ops);
      assert Done(test, threads, ops, t, o) <= Done(test, threads, ops, t, |ops|);
    } else {
      assert threads[..t] == threads;
    }
  }

  predicate CarriesTest(tested: Case, number: nat, combos: seq<Combo>, rounds: seq<Round>) {
    && |rounds| <= |combos|
    && forall k :: 0 <= k < |rounds| ==>
         combos[k].test == number && ToOpType(combos[k].op).Some? && rounds[k] == RoundFor(tested, combos[k])
  }

  predicate CarriedSome(tested: Case, number: nat, t: nat, o: nat, rounds: seq<Round>) {
    && t <= |tested.threads| && o <= |tested.operations|
    && |rounds| == |Done(number, tested.threads, tested.operations, t, o)|
    && CarriesTest(tested, number, Done(number, tested.threads, tested.operations, t, o), rounds)
  }

  /** An iteration of the inner loop: the next round, or a panic. */
  lemma OneMoreRound(tested: Case, number: nat, t: nat, o: nat, rounds: seq<Round>)
    requires CarriedSome(tested, number, t, o, rounds) && t < |tested.threads| && o < |tested.operations|
    ensures var combos, combo := TestCombos(number, tested.threads, tested.operations), Combo(number, tested.threads[t], tested.operations[o]);
      && LastName(tested.name, Done(number, tested.threads, tested.operations, t, o + 1)) == RoundName(tested.name, combo.op, combo.thread)
      && (ToOpType(combo.op).Some? ==> CarriedSome(tested, number, t, o + 1, rounds + [RoundFor(tested, combo)]))
      && (ToOpType(combo.op).None? ==>
            && CarriesTest(tested, number, combos, rounds) && Ends(combos, |rounds|, false)
            && Started(combos, |rounds|, false) == Done(number, tested.threads, tested.operations, t, o + 1))
  {
    DoneNext(number, tested.threads, tested.operations, t, o);
    DoneIsPrefix(number, tested.threads, tested.operations, t, o + 1);
  }

  /** The rounds of test number `number`. */
  method ScheduleTest(test: TestCase, number: nat) returns (rounds: seq<Round>, completed: bool)
    requires HasDefines(test)
    modifies test
    ensures var was := old(CaseOf(test));
      var combos := TestCombos(number, was.threads, was.operations);
      && CarriesTest(was, number, combos, rounds)
      && Ends(combos, |rounds|, completed)
      && CaseOf(test) == was.(name := LastName(was.name, Started(combos, |rounds|, completed)))
  {
    ghost var was := CaseOf(test);
    var name := test.name;
    var threads, ops := test.fwd.load.threads, test.fwd.load.operations;
    rounds := [];
    for t := 0 to |threads|
      invariant CaseOf(test) == was.(name := LastName(name, Done(number, threads, ops, t, 0)))
      invariant CarriedSome(was, number, t, 0, rounds)
    {
      var thread := threads[t];
      for o := 0 to |ops|
        invariant CaseOf(test) == was.(name := LastName(name, Done(number, threads, ops, t, o)))
        invariant CarriedSome(was, number, t, o, rounds)
      {
        var op := ops[o];
        OneMoreRound(was, number, t, o, rounds);
        test.name := RoundName(name, op, thread);
        var opType := ToOpType(op);
        if opType.None? {
          return rounds, false;
        }
        rounds := rounds + [Round(number, test.name, opType.value, thread, ShapeOf(test.fsd, test.fwd), test.clearDirs)];
      }
      DoneRow(number, threads, ops, t);
    }
    DoneIsPrefix(number, threads, ops, |threads|, 0);
    assert Started(TestCombos(number, threads, ops), |rounds|, true) == TestCombos(number, threads, ops);
    return rounds, true;
  }

  // ----- The loop over the tests

  lemma {:induction false} TestsArePrefix(cases: seq<Case>, n: nat)
    requires n <= |cases|
    ensures AllCombos(cases[..n]) <= AllCombos(cases)
    decreases |cases|
  {
    if n == |cases| {
      assert cases[..n] == cases;
    } else {
      TestsArePrefix(cases[..|cases| - 1], n);
      assert cases[..|cases| - 1][..n] == cases[..n];
    }
  }

  lemma NextTest(cases: seq<Case>, n: nat)
    requires n < |cases|
    ensures AllCombos(cases[..n + 1]) == AllCombos(cases[..n]) + TestCombos(n, cases[n].threads, cases[n].operations)
  {
    assert cases[..n + 1][..n] == cases[..n];
  }

  predicate AllOf(test: nat, combos: seq<Combo>) {
    forall k :: 0 <= k < |combos| ==> combos[k].test == test
  }

  lemma {:induction false} TestCombosAreOf(test: nat, threads: seq<nat>, ops: seq<string>)
    ensures AllOf(test, TestCombos(test, threads, ops))
  {
    if threads != [] {
      TestCombosAreOf(test, threads[..|threads| - 1], ops);
    }
  }

  lemma {:induction false} CombosAreBelow(cases: seq<Case>)
    ensures forall k :: 0 <= k < |AllCombos(cases)| ==> AllCombos(cases)[k].test < |cases|
  {
    if cases != [] {
      var last := |cases| - 1;
      CombosAreBelow(cases[..last]);
      TestCombosAreOf(last, cases[last].threads, cases[last].operations);
    }
  }

  /** The name of test `i` after these combinations of all tests have been started. */
  function NameAfter(name: string, i: nat, started: seq<Combo>): string {
    if started == [] then name
    else
      var last := started[|started| - 1];
      if last.test == i then RoundName(name, last.op, last.thread) else NameAfter(name, i, started[..|started| - 1])
  }

  lemma {:induction false} NameUnaffected(name: string, i: nat, before: seq<Combo>, others: seq<Combo>)
    requires forall k :: 0 <= k < |others| ==> others[k].test != i
    ensures NameAfter(name, i, before + others) == NameAfter(name, i, before)
  {
    if others == [] {
      assert before + others == before;
    } else {
      assert (before + others)[..|before + others| - 1] == before + others[..|others| - 1];
      NameUnaffected(name, i, before, others[..|others| - 1]);
    }
  }

  lemma NameOfOwn(name: string, i: nat, before: seq<Combo>, own: seq<Combo>)
    requires AllOf(i, own) && NameAfter(name, i, before) == name
    ensures NameAfter(name, i, before + own) == LastName(name, own)
  {
    if own == [] {
      assert before + own == before;
    } else {
      assert (before + own)[|before + own| - 1] == own[|own| - 1];
    }
  }

  function CombosOf(cases: seq<Case>, n: nat): seq<Combo>
    requires n < |cases|
  {
    TestCombos(n, cases[n].threads, cases[n].operations)
  }

  lemma CarriesMore(cases: seq<Case>, n: nat, before: seq<Combo>, combos: seq<Combo>, plan: seq<Round>, rounds: seq<Round>)
    requires n < |cases| && |plan| == |before| && Carries(cases, before, plan) && CarriesTest(cases[n], n, combos, rounds)
    ensures Carries(cases, before + combos, plan + rounds)
  {
  }

  lemma CarriesLonger(cases: seq<Case>, combos: seq<Combo>, all: seq<Combo>, plan: seq<Round>)
    requires Carries(cases, combos, plan) && combos <= all
    ensures Carries(cases, all, plan)
  {
  }

  /** A panic among the combinations `own` of one test, those of the tests before it being `before`. */
  lemma StopsEarly(cases: seq<Case>, n: nat, before: seq<Combo>, own: seq<Combo>, all: seq<Combo>, plan: seq<Round>, rounds: seq<Round>)
    requires n < |cases| && |plan| == |before| && Carries(cases, before, plan) && CarriesTest(cases[n], n, own, rounds)
    requires Ends(own, |rounds|, false) && before + own <= all
    ensures Carries(cases, all, plan + rounds) && Ends(all, |plan + rounds|, false)
    ensures Started(all, |plan + rounds|, false) == before + Started(own, |rounds|, false)
  {
    CarriesMore(cases, n, before, own, plan, rounds);
    CarriesLonger(cases, before + own, all, plan + rounds);
    var at := |plan + rounds|;
    assert all[at] == (before + own)[at] == own[|rounds|];
    assert all[..at + 1] == (before + own)[..at + 1];
  }

  /** What it does to the names: it changes its own only. */
  lemma AddNames(cases: seq<Case>, n: nat, own: seq<Combo>, i: nat)
    requires n < |cases| && i < |cases| && AllOf(n, own)
    ensures NameAfter(cases[i].name, i, AllCombos(cases[..n]) + own)
         == if i == n then LastName(cases[i].name, own) else NameAfter(cases[i].name, i, AllCombos(cases[..n]))
  {
    var before := AllCombos(cases[..n]);
    CombosAreBelow(cases[..n]);
    if i == n {
      assert [] + before == before;
      NameUnaffected(cases[i].name, i, [], before);
      NameOfOwn(cases[i].name, i, before, own);
    } else {
      NameUnaffected(cases[i].name, i, before, own);
    }
  }

  function Cases(tests: seq<TestCase>): (cases: seq<Case>)
    requires forall i :: 0 <= i < |tests| ==> HasDefines(tests[i])
    reads tests, Targets(tests), Loads(tests)
    ensures |cases| == |tests|
    ensures forall i :: 0 <= i < |tests| ==> cases[i] == (PartOfAll(tests, i); CaseOf(tests[i]))
  {
    if tests == [] then []
    else
      PartOfAll(tests, |tests| - 1);
      assert Targets(tests[..|tests| - 1]) <= Targets(tests) && Loads(tests[..|tests| - 1]) <= Loads(tests);
      Cases(tests[..|tests| - 1]) + [CaseOf(tests[|tests| - 1])]
  }

  /** Every test is as in `cases`, but for its name, which is that of the last of its combinations to be started. */
  predicate Renamed(tests: seq<TestCase>, cases: seq<Case>, started: seq<Combo>)
    requires |cases| == |tests| && forall i :: 0 <= i < |tests| ==> HasDefines(tests[i])
    reads tests, Targets(tests), Loads(tests)
  {
    forall i :: 0 <= i < |tests| ==>
      (PartOfAll(tests, i); CaseOf(tests[i])) == cases[i].(name := NameAfter(cases[i].name, i, started))
  }

  /** The rounds of one more test, and what they do to the names of all. */
  method ScheduleNext(tests: seq<TestCase>, n: nat, ghost cases: seq<Case>) returns (rounds: seq<Round>, completed: bool)
    requires |cases| == |tests| && forall i :: 0 <= i < |tests| ==> HasDefines(tests[i])
    requires forall i, j :: 0 <= i < j < |tests| ==> tests[i] != tests[j]
    requires n < |tests| && Renamed(tests, cases, AllCombos(cases[..n]))
    modifies tests[n]
    ensures CarriesTest(cases[n], n, CombosOf(cases, n), rounds) && Ends(CombosOf(cases, n), |rounds|, completed)
    ensures Renamed(tests, cases, AllCombos(cases[..n]) + Started(CombosOf(cases, n), |rounds|, completed))
  {
    AddNames(cases, n, [], n);
    assert AllCombos(cases[..n]) + [] == AllCombos(cases[..n]);
    rounds, completed := ScheduleTest(tests[n], n);
    ghost var own := Started(CombosOf(cases, n), |rounds|, completed);
    TestCombosAreOf(n, cases[n].threads, cases[n].operations);
    forall i | 0 <= i < |tests|
      ensures CaseOf(tests[i]) == cases[i].(name := NameAfter(cases[i].name, i, AllCombos(cases[..n]) + own))
    {
      AddNames(cases, n, own, i);
    }
  }

  /** The tests after scheduling, and the rounds it ran. */
  predicate Scheduled(tests: seq<TestCase>, cases: seq<Case>, plan: seq<Round>, completed: bool)
    requires |cases| == |tests| && forall i :: 0 <= i < |tests| ==> HasDefines(tests[i])
    reads tests, Targets(tests), Loads(tests)
  {
    var combos := AllCombos(cases);
    && Carries(cases, combos, plan)
    && Ends(combos, |plan|, completed)
    && Renamed(tests, cases, Started(combos, |plan|, completed))
  }

  /** The rounds of the first `n` tests. */
  predicate ScheduledSome(cases: seq<Case>, n: nat, plan: seq<Round>) {
    n <= |cases| && |plan| == |AllCombos(cases[..n])| && Carries(cases, AllCombos(cases[..n]), plan)
  }

  lemma Stopped(tests: seq<TestCase>, cases: seq<Case>, n: nat, plan: seq<Round>, rounds: seq<Round>)
    requires |cases| == |tests| && (forall i :: 0 <= i < |tests| ==> HasDefines(tests[i]))
    requires n < |cases| && ScheduledSome(cases, n, plan)
    requires CarriesTest(cases[n], n, CombosOf(cases, n), rounds) && Ends(CombosOf(cases, n), |rounds|, false)
    requires Renamed(tests, cases, AllCombos(cases[..n]) + Started(CombosOf(cases, n), |rounds|, false))
    ensures Scheduled(tests, cases, plan + rounds, false)
  {
    NextTest(cases, n);
    TestsArePrefix(cases, n + 1);
    StopsEarly(cases, n, AllCombos(cases[..n]), CombosOf(cases, n), AllCombos(cases), plan, rounds);
  }

  lemma NothingScheduled(tests: seq<TestCase>, cases: seq<Case>)
    requires |cases| == |tests| && (forall i :: 0 <= i < |tests| ==> HasDefines(tests[i])) && cases == Cases(tests)
    ensures ScheduledSome(cases, 0, []) && Renamed(tests, cases, AllCombos(cases[..0]))
  {
  }

  lemma OneMoreScheduled(cases: seq<Case>, n: nat, plan: seq<Round>, rounds: seq<Round>)
    requires n < |cases| && ScheduledSome(cases, n, plan)
    requires CarriesTest(cases[n], n, CombosOf(cases, n), rounds) && Ends(CombosOf(cases, n), |rounds|, true)
    ensures ScheduledSome(cases, n + 1, plan + rounds)
    ensures AllCombos(cases[..n + 1]) == AllCombos(cases[..n]) + Started(CombosOf(cases, n), |rounds|, true)
  {
    NextTest(cases, n);
    CarriesMore(cases, n, AllCombos(cases[..n]), CombosOf(cases, n), plan, rounds);
    assert Started(CombosOf(cases, n), |rounds|, true) == CombosOf(cases, n);
  }

  lemma AllScheduled(tests: seq<TestCase>, cases: seq<Case>, plan: seq<Round>)
    requires |cases| == |tests| && forall i :: 0 <= i < |tests| ==> HasDefines(tests[i])
    requires ScheduledSome(cases, |cases|, plan) && Renamed(tests, cases, AllCombos(cases[..|cases|]))
    ensures Scheduled(tests, cases, plan, true)
  {
    assert cases[..|cases|] == cases;
    assert AllCombos(cases)[..|plan|] == AllCombos(cases);
  }

  /** The rounds of all tests: the combinations in order, up to the first with an unknown operation. */
  method ScheduleTests(tests: seq<TestCase>) returns (plan: seq<Round>, completed: bool)
    requires forall i :: 0 <= i < |tests| ==> HasDefines(tests[i])
    requires forall i, j :: 0 <= i < j < |tests| ==> tests[i] != tests[j]
    modifies tests
    ensures Scheduled(tests, old(Cases(tests)), plan, completed)
  {
    ghost var cases := Cases(tests);
    plan := [];
    NothingScheduled(tests, cases);
    for n := 0 to |tests|
      invariant ScheduledSome(cases, n, plan)
      invariant Renamed(tests, cases, AllCombos(cases[..n]))
    {
      var rounds, ok := ScheduleNext(tests, n, cases);
      if !ok {
        Stopped(tests, cases, n, plan, rounds);
        return plan + rounds, false;
      }
      OneMoreScheduled(cases, n, plan, rounds);
      plan := plan + rounds;
    }
    AllScheduled(tests, cases, plan);
    return plan, true;
  }
}
