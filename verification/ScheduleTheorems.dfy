/** What the schedule guarantees: its order and length, distinct names, cycles of operations, and with these that every
    configured benchmark is one the theorems about runs apply to. */
module ScheduleTheorems {
  import opened Text
  import opened Arithmetic
  import opened BenchmarkPlan
  import opened RoundFiles
  import opened Schedule

  // ----- Order

  /** The number of rounds of the tests before test `n`. */
  function RoundsBefore(cases: seq<Case>, n: nat): nat
    requires n <= |cases|
  {
    if n == 0 then 0 else RoundsBefore(cases, n - 1) + |cases[n - 1].threads| * |cases[n - 1].operations|
  }

  lemma {:induction false} TestCount(test: nat, threads: seq<nat>, ops: seq<string>)
    ensures |TestCombos(test, threads, ops)| == |threads| * |ops|
  {
    if threads != [] {
      TestCount(test, threads[..|threads| - 1], ops);
      OneMore(|threads| - 1, |ops|);
    }
  }

  lemma {:induction false} TestOrder(test: nat, threads: seq<nat>, ops: seq<string>, t: nat, o: nat)
    requires t < |threads| && o < |ops|
    ensures var at := t * |ops| + o;
      at < |TestCombos(test, threads, ops)| && TestCombos(test, threads, ops)[at] == Combo(test, threads[t], ops[o])
    decreases |threads|
  {
    var init := threads[..|threads| - 1];
    TestCount(test, init, ops);
    if t < |init| {
      TestOrder(test, init, ops, t, o);
    }
  }

  /** The rounds run test by test, thread count by thread count, operation by operation. */
  lemma Order(cases: seq<Case>, test: nat, t: nat, o: nat)
    requires test < |cases| && t < |cases[test].threads| && o < |cases[test].operations|
    ensures var at := RoundsBefore(cases, test) + t * |cases[test].operations| + o;
      at < |AllCombos(cases)| && AllCombos(cases)[at] == Combo(test, cases[test].threads[t], cases[test].operations[o])
  {
    CombosCount(cases[..test]);
    SameBefore(cases, cases[..test], test);
    TestOrder(test, cases[test].threads, cases[test].operations, t, o);
    InAll(cases, test, t * |cases[test].operations| + o);
  }

  lemma InAll(cases: seq<Case>, n: nat, k: nat)
    requires n < |cases| && k < |CombosOf(cases, n)|
    ensures var at := |AllCombos(cases[..n])| + k; at < |AllCombos(cases)| && AllCombos(cases)[at] == CombosOf(cases, n)[k]
  {
    NextTest(cases, n);
    TestsArePrefix(cases, n + 1);
    assert AllCombos(cases[..n + 1])[|AllCombos(cases[..n])| + k] == CombosOf(cases, n)[k];
  }

  lemma {:induction false} SameBefore(cases: seq<Case>, init: seq<Case>, n: nat)
    requires n <= |init| <= |cases| && init == cases[..|init|]
    ensures RoundsBefore(init, n) == RoundsBefore(cases, n)
  {
    if n > 0 {
      SameBefore(cases, init, n - 1);
    }
  }

  lemma {:induction false} CombosCount(cases: seq<Case>)
    ensures |AllCombos(cases)| == RoundsBefore(cases, |cases|)
  {
    if cases != [] {
      var last := |cases| - 1;
      CombosCount(cases[..last]);
      SameBefore(cases, cases[..last], last);
      TestCount(last, cases[last].threads, cases[last].operations);
    }
  }

  // ----- Names

  lemma KnownOps(op: string)
    requires ToOpType(op).Some?
    ensures '-' !in op
  {
  }

  lemma ThreadSuffix(thread: nat)
    ensures '-' !in "t" + Decimal(thread)
  {
    var s := "t" + Decimal(thread);
    assert AllDigits(Decimal(thread));
    forall i | 0 <= i < |s| ensures s[i] != '-' {
      assert i > 0 ==> IsDigit(Decimal(thread)[i - 1]);
    }
  }

  /** The name of a round tells the test, the operation and the thread count, whatever dashes the test's name has. */
  lemma RoundNameInjective(name: string, op: string, thread: nat, name': string, op': string, thread': nat)
    requires ToOpType(op).Some? && ToOpType(op').Some?
    requires RoundName(name, op, thread) == RoundName(name', op', thread')
    ensures name == name' && op == op' && thread == thread'
  {
    var head, tail := name + "-" + op, "t" + Decimal(thread);
    var head', tail' := name' + "-" + op', "t" + Decimal(thread');
    assert RoundName(name, op, thread) == head + ['-'] + tail;
    assert RoundName(name', op', thread') == head' + ['-'] + tail';
    ThreadSuffix(thread);
    ThreadSuffix(thread');
    SplitAtLast(head, tail, head', tail', '-');
    KnownOps(op);
    KnownOps(op');
    SplitAtLast(name, op, name', op', '-');
    assert tail[1..] == Decimal(thread) && tail'[1..] == Decimal(thread');
    DecimalInjective(thread, thread');
  }

  /** The plan of a schedule that ran to its end. */
  predicate IsPlan(cases: seq<Case>, plan: seq<Round>) {
    Carries(cases, AllCombos(cases), plan) && |plan| == |AllCombos(cases)|
  }

  predicate SameTriple(cases: seq<Case>, a: Combo, b: Combo)
    requires a.test < |cases| && b.test < |cases|
  {
    cases[a.test].name == cases[b.test].name && a.op == b.op && a.thread == b.thread
  }

  predicate TriplesDistinct(cases: seq<Case>, combos: seq<Combo>) {
    forall q, r :: 0 <= q < r < |combos| ==>
      combos[q].test < |cases| && combos[r].test < |cases| && !SameTriple(cases, combos[q], combos[r])
  }

  lemma SameNameSameTriple(cases: seq<Case>, plan: seq<Round>, q: nat, r: nat)
    requires IsPlan(cases, plan) && q < |plan| && r < |plan|
    ensures var combos := AllCombos(cases); plan[q].name == plan[r].name <==> SameTriple(cases, combos[q], combos[r])
  {
    var a, b := AllCombos(cases)[q], AllCombos(cases)[r];
    assert plan[q] == RoundFor(cases[a.test], a) && plan[r] == RoundFor(cases[b.test], b);
    if plan[q].name == plan[r].name {
      RoundNameInjective(cases[a.test].name, a.op, a.thread, cases[b.test].name, b.op, b.thread);
    }
  }

  /** The rounds have distinct names exactly when no test name, operation and thread count come together twice. */
  lemma NamesDistinctIff(cases: seq<Case>, plan: seq<Round>)
    requires IsPlan(cases, plan)
    ensures NamesDistinct(plan) <==> TriplesDistinct(cases, AllCombos(cases))
  {
    var combos := AllCombos(cases);
    forall q, r | 0 <= q < r < |combos|
      ensures combos[q].test < |cases| && combos[r].test < |cases|
      ensures plan[q].name == plan[r].name <==> SameTriple(cases, combos[q], combos[r])
    {
      assert plan[q] == RoundFor(cases[combos[q].test], combos[q]) && plan[r] == RoundFor(cases[combos[r].test], combos[r]);
      SameNameSameTriple(cases, plan, q, r);
    }
  }

  predicate Distinct<T(==)>(s: seq<T>) {
    forall i, j :: 0 <= i < j < |s| ==> s[i] != s[j]
  }

  lemma DistinctJoin<T>(a: seq<T>, b: seq<T>)
    requires Distinct(a) && Distinct(b) && forall i, j :: 0 <= i < |a| && 0 <= j < |b| ==> a[i] != b[j]
    ensures Distinct(a + b)
  {
  }

  lemma {:induction false} ComboOfTest(test: nat, threads: seq<nat>, ops: seq<string>, k: nat)
    requires k < |TestCombos(test, threads, ops)|
    ensures var combo := TestCombos(test, threads, ops)[k]; combo.test == test && combo.thread in threads && combo.op in ops
  {
    var last := |threads| - 1;
    if k < |TestCombos(test, threads[..last], ops)| {
      ComboOfTest(test, threads[..last], ops, k);
    }
  }

  lemma {:induction false} TestCombosDistinct(test: nat, threads: seq<nat>, ops: seq<string>)
    requires Distinct(threads) && Distinct(ops)
    ensures Distinct(TestCombos(test, threads, ops))
  {
    if threads != [] {
      var last := |threads| - 1;
      var before, row := TestCombos(test, threads[..last], ops), OpCombos(test, threads[last], ops);
      TestCombosDistinct(test, threads[..last], ops);
      forall i, j | 0 <= i < |before| && 0 <= j < |row| ensures before[i] != row[j] {
        ComboOfTest(test, threads[..last], ops, i);
      }
      DistinctJoin(before, row);
    }
  }

  lemma {:induction false} AllCombosDistinct(cases: seq<Case>)
    requires forall i :: 0 <= i < |cases| ==> Distinct(cases[i].threads) && Distinct(cases[i].operations)
    ensures Distinct(AllCombos(cases))
  {
    if cases != [] {
      var last := |cases| - 1;
      var before, own := AllCombos(cases[..last]), CombosOf(cases, last);
      AllCombosDistinct(cases[..last]);
      TestCombosDistinct(last, cases[last].threads, cases[last].operations);
      CombosAreBelow(cases[..last]);
      TestCombosAreOf(last, cases[last].threads, cases[last].operations);
      DistinctJoin(before, own);
    }
  }

  /** Distinct test names, and no thread count or operation twice in one test, are enough for distinct round names. */
  lemma DistinctListsAreEnough(cases: seq<Case>)
    requires forall i, j :: 0 <= i < j < |cases| ==> cases[i].name != cases[j].name
    requires forall i :: 0 <= i < |cases| ==> Distinct(cases[i].threads) && Distinct(cases[i].operations)
    ensures TriplesDistinct(cases, AllCombos(cases))
  {
    AllCombosDistinct(cases);
    CombosAreBelow(cases);
  }

  /** The plan for tests whose operations are all known. */
  function PlanOf(cases: seq<Case>): (plan: seq<Round>)
    requires forall k :: 0 <= k < |AllCombos(cases)| ==> ToOpType(AllCombos(cases)[k].op).Some?
    ensures IsPlan(cases, plan)
  {
    CombosAreBelow(cases);
    seq(|AllCombos(cases)|, k requires 0 <= k < |AllCombos(cases)| => RoundFor(cases[AllCombos(cases)[k].test], AllCombos(cases)[k]))
  }

  // ----- Cycles

  /** A list of operations that writes first and deletes last, and writes again only after deleting. */
  predicate CyclicOps(ops: seq<string>) {
    && ops != [] && ops[|ops| - 1] == "delete"
    && forall k {:trigger OpFollows(ops, k)} :: 0 <= k < |ops| ==> OpFollows(ops, k)
  }

  predicate OpFollows(ops: seq<string>, k: nat)
    requires k < |ops|
  {
    ops[k] == "write" <==> k == 0 || ops[k - 1] == "delete"
  }

  predicate CyclicCombos(combos: seq<Combo>) {
    && (combos != [] ==> combos[|combos| - 1].op == "delete")
    && forall k {:trigger CycleAt(combos, k)} :: 0 <= k < |combos| ==> CycleAt(combos, k)
  }

  predicate CycleAt(combos: seq<Combo>, k: nat)
    requires k < |combos|
  {
    && (combos[k].op == "write" <==> k == 0 || combos[k - 1].op == "delete")
    && (combos[k].op != "write" ==> combos[k].test == combos[k - 1].test)
  }

  lemma CyclesJoin(a: seq<Combo>, b: seq<Combo>)
    requires CyclicCombos(a) && CyclicCombos(b)
    ensures CyclicCombos(a + b)
  {
    forall k | 0 <= k < |a + b| ensures CycleAt(a + b, k) {
      if k < |a| {
        assert CycleAt(a, k);
      } else {
        assert CycleAt(b, k - |a|);
        assert (a + b)[k] == b[k - |a|];
        assert k > 0 ==> (a + b)[k - 1] == if k == |a| then a[|a| - 1] else b[k - |a| - 1];
      }
    }
  }

  lemma OpsAreCyclic(test: nat, thread: nat, ops: seq<string>)
    requires CyclicOps(ops)
    ensures CyclicCombos(OpCombos(test, thread, ops))
  {
    var combos := OpCombos(test, thread, ops);
    forall k | 0 <= k < |combos| ensures CycleAt(combos, k) {
      assert OpFollows(ops, k) && combos[k].op == ops[k];
    }
  }

  lemma {:induction false} TestIsCyclic(test: nat, threads: seq<nat>, ops: seq<string>)
    requires CyclicOps(ops)
    ensures CyclicCombos(TestCombos(test, threads, ops))
  {
    if threads != [] {
      TestIsCyclic(test, threads[..|threads| - 1], ops);
      OpsAreCyclic(test, threads[|threads| - 1], ops);
      CyclesJoin(TestCombos(test, threads[..|threads| - 1], ops), OpCombos(test, threads[|threads| - 1], ops));
    }
  }

  lemma {:induction false} CombosAreCyclic(cases: seq<Case>)
    requires forall i :: 0 <= i < |cases| ==> CyclicOps(cases[i].operations)
    ensures CyclicCombos(AllCombos(cases))
  {
    if cases != [] {
      var last := |cases| - 1;
      CombosAreCyclic(cases[..last]);
      TestIsCyclic(last, cases[last].threads, cases[last].operations);
      CyclesJoin(AllCombos(cases[..last]), TestCombos(last, cases[last].threads, cases[last].operations));
    }
  }

  /** If the operations of every test come in cycles, so do the rounds of all tests together. */
  lemma PlanIsCyclic(cases: seq<Case>, plan: seq<Round>)
    requires IsPlan(cases, plan) && forall i :: 0 <= i < |cases| ==> CyclicOps(cases[i].operations)
    ensures InCycles(plan)
  {
    var combos := AllCombos(cases);
    CombosAreCyclic(cases);
    forall r | 0 <= r < |plan| ensures FollowsOn(plan, r) {
      assert CycleAt(combos, r);
      assert plan[r] == RoundFor(cases[combos[r].test], combos[r]);
      if r > 0 {
        assert plan[r - 1] == RoundFor(cases[combos[r - 1].test], combos[r - 1]);
      }
    }
  }
}
