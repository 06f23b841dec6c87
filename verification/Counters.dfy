/** Prometheus counters with their labels, and the sums over them that form a worker's report. */
module Counters {

  datatype Label = Label(name: string, value: string)

  /** One child of a counter vector. */
  datatype Metric = Metric(labels: seq<Label>, value: nat)

  datatype Registry = Registry(finished: seq<Metric>, failed: seq<Metric>, uploaded: seq<Metric>, downloaded: seq<Metric>)

  const EMPTY_REGISTRY := Registry([], [], [], [])

  function LabelsOf(testName: string, operation: string): seq<Label> {
    [Label("method", operation), Label("testName", testName)]
  }

  /** A counter vector after adding `amount` to the child with these labels, which is created if need be. */
  function Bump(metrics: seq<Metric>, testName: string, operation: string, amount: nat): seq<Metric> {
    if metrics == [] then [Metric(LabelsOf(testName, operation), amount)]
    else if metrics[0].labels == LabelsOf(testName, operation) then [metrics[0].(value := metrics[0].value + amount)] + metrics[1..]
    else [metrics[0]] + Bump(metrics[1..], testName, operation, amount)
  }

  predicate Names(tag: Label, testName: string) {
    tag.name == "testName" && tag.value == testName
  }

  /** How many labels of a metric name the test. */
  function Matches(labels: seq<Label>, testName: string): nat {
    if labels == [] then 0
    else Matches(labels[..|labels| - 1], testName) + (if Names(labels[|labels| - 1], testName) then 1 else 0)
  }

  function Sum(metrics: seq<Metric>, testName: string): nat {
    if metrics == [] then 0
    else Sum(metrics[..|metrics| - 1], testName) + metrics[|metrics| - 1].value * Matches(metrics[|metrics| - 1].labels, testName)
  }

  method SumCounterForTest(metrics: seq<Metric>, testName: string) returns (sum: nat)
    ensures sum == Sum(metrics, testName)
  {
    sum := 0;
    for i := 0 to |metrics|
      invariant sum == Sum(metrics[..i], testName)
    {
      var metric := metrics[i];
      ghost var before := sum;
      for j := 0 to |metric.labels|
        invariant sum == before + metric.value * Matches(metric.labels[..j], testName)
      {
        assert metric.labels[..j + 1][..j] == metric.labels[..j];
        var tag := metric.labels[j];
        if tag.name == "testName" && tag.value == testName {
          sum := sum + metric.value;
        }
      }
      assert metric.labels[..|metric.labels|] == metric.labels;
      assert metrics[..i + 1][..i] == metrics[..i];
    }
    assert metrics[..|metrics|] == metrics;
  }

  lemma MatchesOwnLabels(testName: string, operation: string, wanted: string)
    ensures Matches(LabelsOf(testName, operation), wanted) == if testName == wanted then 1 else 0
  {
    var labels := LabelsOf(testName, operation);
    assert labels[..1] == [Label("method", operation)];
    assert Matches(labels[..1], wanted) == Matches([], wanted) + 0 by {
      assert labels[..1][..0] == [];
      assert !Names(Label("method", operation), wanted);
    }
  }

  lemma {:induction false} SumAppend(a: seq<Metric>, b: seq<Metric>, testName: string)
    ensures Sum(a + b, testName) == Sum(a, testName) + Sum(b, testName)
  {
    if b == [] {
      assert a + b == a;
    } else {
      assert (a + b)[..|a + b| - 1] == a + b[..|b| - 1];
      SumAppend(a, b[..|b| - 1], testName);
    }
  }

  /** Counting an operation of one test adds to the sum of that test and to no other, whatever the operation. */
  lemma {:induction false} SumAfterBump(metrics: seq<Metric>, testName: string, operation: string, amount: nat, wanted: string)
    ensures Sum(Bump(metrics, testName, operation, amount), wanted) == Sum(metrics, wanted) + (if testName == wanted then amount else 0)
  {
    MatchesOwnLabels(testName, operation, wanted);
    if metrics == [] {
      assert Sum([Metric(LabelsOf(testName, operation), amount)][..0], wanted) == 0;
    } else {
      var head, rest := metrics[0], metrics[1..];
      assert metrics == [head] + rest;
      SumAppend([head], rest, wanted);
      SumOfOne(head, wanted);
      if head.labels == LabelsOf(testName, operation) {
        SumAppend([head.(value := head.value + amount)], rest, wanted);
        SumOfOne(head.(value := head.value + amount), wanted);
      } else {
        SumAppend([head], Bump(rest, testName, operation, amount), wanted);
        SumAfterBump(rest, testName, operation, amount, wanted);
      }
    }
  }

  /** The child of a test and an operation, or 0 if there is none yet. */
  function ValueUnder(metrics: seq<Metric>, testName: string, operation: string): nat {
    if metrics == [] then 0
    else if metrics[0].labels == LabelsOf(testName, operation) then metrics[0].value
    else ValueUnder(metrics[1..], testName, operation)
  }

  lemma LabelsDiffer(testName: string, operation: string, testName': string, operation': string)
    ensures LabelsOf(testName, operation) == LabelsOf(testName', operation') <==> testName == testName' && operation == operation'
  {
    var labels, labels' := LabelsOf(testName, operation), LabelsOf(testName', operation');
    assert labels[0] == Label("method", operation) && labels'[0] == Label("method", operation');
    assert labels[1] == Label("testName", testName) && labels'[1] == Label("testName", testName');
  }

  /** Counting adds to the child of its own test and operation, and to no other. */
  lemma {:induction false} ValueAfterBump(metrics: seq<Metric>, testName: string, operation: string, amount: nat,
                                          testName': string, operation': string)
    ensures ValueUnder(Bump(metrics, testName, operation, amount), testName', operation')
         == ValueUnder(metrics, testName', operation') + (if testName == testName' && operation == operation' then amount else 0)
  {
    LabelsDiffer(testName, operation, testName', operation');
    if metrics != [] && metrics[0].labels != LabelsOf(testName, operation) {
      var rest := Bump(metrics[1..], testName, operation, amount);
      assert ([metrics[0]] + rest)[1..] == rest;
      ValueAfterBump(metrics[1..], testName, operation, amount, testName', operation');
    }
  }

  lemma SumOfOne(metric: Metric, testName: string)
    ensures Sum([metric], testName) == metric.value * Matches(metric.labels, testName)
  {
    assert [metric][..0] == [];
  }

  /** The counters of one worker process. */
  class Metrics {
    var values: Registry

    constructor ()
      ensures values == EMPTY_REGISTRY
    {
      values := EMPTY_REGISTRY;
    }

    method Finished(testName: string, operation: string)
      modifies this
      ensures values == old(values).(finished := Bump(old(values).finished, testName, operation, 1))
    {
      values := values.(finished := Bump(values.finished, testName, operation, 1));
    }

    method Failed(testName: string, operation: string)
      modifies this
      ensures values == old(values).(failed := Bump(old(values).failed, testName, operation, 1))
    {
      values := values.(failed := Bump(values.failed, testName, operation, 1));
    }

    method Uploaded(testName: string, operation: string, bytes: nat)
      modifies this
      ensures values == old(values).(uploaded := Bump(old(values).uploaded, testName, operation, bytes))
    {
      values := values.(uploaded := Bump(values.uploaded, testName, operation, bytes));
    }

    method Downloaded(testName: string, operation: string, bytes: nat)
      modifies this
      ensures values == old(values).(downloaded := Bump(old(values).downloaded, testName, operation, bytes))
    {
      values := values.(downloaded := Bump(values.downloaded, testName, operation, bytes));
    }
  }
}
