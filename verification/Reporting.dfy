/** What a worker reports for a test: sums over its counters, and averages over its latency histograms. */
module Reporting {
  import opened BenchmarkResults
  import opened Counters

  /** One child of a histogram vector. */
  datatype Histogram = Histogram(labels: seq<Label>, sampleSum: real, sampleCount: nat)

  /** A child counts once for every label of it that names the test. */
  function Times(x: real, n: nat): real {
    if n == 0 then 0.0 else Times(x, n - 1) + x
  }

  function TimesNat(x: nat, n: nat): nat {
    if n == 0 then 0 else TimesNat(x, n - 1) + x
  }

  function SampleSum(metrics: seq<Histogram>, testName: string): real {
    if metrics == [] then 0.0
    else
      var last := metrics[|metrics| - 1];
      SampleSum(metrics[..|metrics| - 1], testName) + Times(last.sampleSum, Matches(last.labels, testName))
  }

  function SampleCount(metrics: seq<Histogram>, testName: string): nat {
    if metrics == [] then 0
    else
      var last := metrics[|metrics| - 1];
      SampleCount(metrics[..|metrics| - 1], testName) + TimesNat(last.sampleCount, Matches(last.labels, testName))
  }

  /** The mean of all samples of a test, or -1 if there are none. */
  function Average(metrics: seq<Histogram>, testName: string): real {
    if SampleCount(metrics, testName) == 0 then -1.0
    else SampleSum(metrics, testName) / SampleCount(metrics, testName) as real
  }

  // ----- Samples of a test

  /** A histogram vector after observing one sample of an operation, whose child is created if need be. */
  function Observe(metrics: seq<Histogram>, testName: string, operation: string, x: real): seq<Histogram> {
    if metrics == [] then [Histogram(LabelsOf(testName, operation), x, 1)]
    else if metrics[0].labels == LabelsOf(testName, operation) then
      [metrics[0].(sampleSum := metrics[0].sampleSum + x, sampleCount := metrics[0].sampleCount + 1)] + metrics[1..]
    else [metrics[0]] + Observe(metrics[1..], testName, operation, x)
  }

  lemma {:induction false} SamplesAppend(a: seq<Histogram>, b: seq<Histogram>, testName: string)
    ensures SampleSum(a + b, testName) == SampleSum(a, testName) + SampleSum(b, testName)
    ensures SampleCount(a + b, testName) == SampleCount(a, testName) + SampleCount(b, testName)
  {
    if b == [] {
      assert a + b == a;
    } else {
      assert (a + b)[..|a + b| - 1] == a + b[..|b| - 1];
      SamplesAppend(a, b[..|b| - 1], testName);
    }
  }

  lemma SamplesOfOne(metric: Histogram, testName: string)
    ensures SampleSum([metric], testName) == Times(metric.sampleSum, Matches(metric.labels, testName))
    ensures SampleCount([metric], testName) == TimesNat(metric.sampleCount, Matches(metric.labels, testName))
  {
    assert [metric][..0] == [];
  }

  lemma SamplesOfOwn(labels: seq<Label>, sum: real, count: nat, testName: string, operation: string, wanted: string)
    requires labels == LabelsOf(testName, operation)
    ensures SampleSum([Histogram(labels, sum, count)], wanted) == if testName == wanted then sum else 0.0
    ensures SampleCount([Histogram(labels, sum, count)], wanted) == if testName == wanted then count else 0
  {
    SamplesOfOne(Histogram(labels, sum, count), wanted);
    MatchesOwnLabels(testName, operation, wanted);
    assert Times(sum, 1) == Times(sum, 0) + sum && TimesNat(count, 1) == TimesNat(count, 0) + count;
  }

  /** A sample of one test counts for that test and for no other, whatever the operation. */
  lemma {:induction false} SamplesAfterObserve(metrics: seq<Histogram>, testName: string, operation: string, x: real, wanted: string)
    ensures var metrics' := Observe(metrics, testName, operation, x);
      && SampleSum(metrics', wanted) == SampleSum(metrics, wanted) + (if testName == wanted then x else 0.0)
      && SampleCount(metrics', wanted) == SampleCount(metrics, wanted) + (if testName == wanted then 1 else 0)
  {
    if metrics == [] {
      SamplesOfOwn(LabelsOf(testName, operation), x, 1, testName, operation, wanted);
    } else {
      var head, rest := metrics[0], metrics[1..];
      assert metrics == [head] + rest;
      SamplesAppend([head], rest, wanted);
      if head.labels == LabelsOf(testName, operation) {
        var head' := head.(sampleSum := head.sampleSum + x, sampleCount := head.sampleCount + 1);
        SamplesAppend([head'], rest, wanted);
        SamplesOfOwn(head.labels, head.sampleSum, head.sampleCount, testName, operation, wanted);
        SamplesOfOwn(head.labels, head'.sampleSum, head'.sampleCount, testName, operation, wanted);
      } else {
        SamplesAppend([head], Observe(rest, testName, operation, x), wanted);
        SamplesAfterObserve(rest, testName, operation, x, wanted);
      }
    }
  }

  /** The samples of an operation, one after the other. */
  function ObserveAll(metrics: seq<Histogram>, testName: string, operation: string, samples: seq<real>): seq<Histogram> {
    if samples == [] then metrics
    else Observe(ObserveAll(metrics, testName, operation, samples[..|samples| - 1]), testName, operation, samples[|samples| - 1])
  }

  function SumOf(samples: seq<real>): real {
    if samples == [] then 0.0 else SumOf(samples[..|samples| - 1]) + samples[|samples| - 1]
  }

  lemma {:induction false} SamplesAfterAll(testName: string, operation: string, samples: seq<real>, wanted: string)
    ensures var metrics := ObserveAll([], testName, operation, samples);
      && SampleSum(metrics, wanted) == (if testName == wanted then SumOf(samples) else 0.0)
      && SampleCount(metrics, wanted) == (if testName == wanted then |samples| else 0)
  {
    if samples != [] {
      var init := samples[..|samples| - 1];
      SamplesAfterAll(testName, operation, init, wanted);
      SamplesAfterObserve(ObserveAll([], testName, operation, init), testName, operation, samples[|samples| - 1], wanted);
    }
  }

  /** What is reported is the mean of the test's samples, and -1 for a test that has none, as when nothing is generated in a
      round that reads. */
  lemma AverageOfSamples(testName: string, operation: string, samples: seq<real>, wanted: string)
    ensures var average := Average(ObserveAll([], testName, operation, samples), wanted);
      && (testName == wanted && samples != [] ==> average == SumOf(samples) / |samples| as real)
      && (testName != wanted || samples == [] ==> average == -1.0)
  {
    SamplesAfterAll(testName, operation, samples, wanted);
  }

  method AverageHistogramForTest(metrics: seq<Histogram>, testName: string) returns (average: real)
    ensures average == Average(metrics, testName)
  {
    var sum, count := 0.0, 0;
    for i := 0 to |metrics|
      invariant sum == SampleSum(metrics[..i], testName) && count == SampleCount(metrics[..i], testName)
    {
      var metric := metrics[i];
      ghost var sumBefore, countBefore := sum, count;
      for j := 0 to |metric.labels|
        invariant sum == sumBefore + Times(metric.sampleSum, Matches(metric.labels[..j], testName))
        invariant count == countBefore + TimesNat(metric.sampleCount, Matches(metric.labels[..j], testName))
      {
        assert metric.labels[..j + 1][..j] == metric.labels[..j];
        var tag := metric.labels[j];
        if tag.name == "testName" && tag.value == testName {
          sum := sum + metric.sampleSum;
          count := count + metric.sampleCount;
        }
      }
      assert metric.labels[..|metric.labels|] == metric.labels;
      assert metrics[..i + 1][..i] == metrics[..i];
    }
    assert metrics[..|metrics|] == metrics;
    if count == 0 {
      return -1.0;
    }
    return sum / count as real;
  }

  /** The mean of `count` samples that add up to `sum` is between `low` and `high`, if there are any. */
  predicate Between(sum: real, count: nat, low: real, high: real) {
    low * count as real <= sum <= high * count as real
  }

  lemma BetweenAdds(sum: real, count: nat, sum': real, count': nat, low: real, high: real)
    requires Between(sum, count, low, high) && Between(sum', count', low, high)
    ensures Between(sum + sum', count + count', low, high)
  {
    Distributes(low, count, count');
    Distributes(high, count, count');
  }

  lemma Distributes(bound: real, m: nat, n: nat)
    ensures bound * (m + n) as real == bound * m as real + bound * n as real
  {
  }

  lemma {:induction false} TimesBetween(metric: Histogram, n: nat, low: real, high: real)
    requires Between(metric.sampleSum, metric.sampleCount, low, high)
    ensures Between(Times(metric.sampleSum, n), TimesNat(metric.sampleCount, n), low, high)
  {
    if n > 0 {
      TimesBetween(metric, n - 1, low, high);
      BetweenAdds(Times(metric.sampleSum, n - 1), TimesNat(metric.sampleCount, n - 1), metric.sampleSum, metric.sampleCount, low, high);
    }
  }

  lemma {:induction false} SumBetween(metrics: seq<Histogram>, testName: string, low: real, high: real)
    requires forall i :: 0 <= i < |metrics| && Matches(metrics[i].labels, testName) > 0 ==>
      Between(metrics[i].sampleSum, metrics[i].sampleCount, low, high)
    ensures Between(SampleSum(metrics, testName), SampleCount(metrics, testName), low, high)
  {
    if metrics != [] {
      var init, last := metrics[..|metrics| - 1], metrics[|metrics| - 1];
      var n := Matches(last.labels, testName);
      SumBetween(init, testName, low, high);
      if n > 0 {
        TimesBetween(last, n, low, high);
      }
      BetweenAdds(SampleSum(init, testName), SampleCount(init, testName),
                  Times(last.sampleSum, n), TimesNat(last.sampleCount, n), low, high);
    }
  }

  lemma MeanIsBetween(sum: real, count: nat, low: real, high: real)
    requires count > 0 && Between(sum, count, low, high)
    ensures low <= sum / count as real <= high
  {
    Quotient(sum, count as real, low, high);
  }

  /** The reported latency lies between the means of the operations of the test that it is made of. */
  lemma AverageIsBetween(metrics: seq<Histogram>, testName: string, low: real, high: real)
    requires SampleCount(metrics, testName) > 0
    requires forall i :: 0 <= i < |metrics| && Matches(metrics[i].labels, testName) > 0 ==>
      Between(metrics[i].sampleSum, metrics[i].sampleCount, low, high)
    ensures low <= Average(metrics, testName) <= high
  {
    SumBetween(metrics, testName, low, high);
    MeanIsBetween(SampleSum(metrics, testName), SampleCount(metrics, testName), low, high);
  }

  /** The totals of a worker's counters for a test, as it reports them. */
  predicate Reports(result: BenchmarkResult, counters: Registry, testName: string) {
    && result.testName == testName
    && result.successfulOperations == Sum(counters.finished, testName) as real
    && result.failedOperations == Sum(counters.failed, testName) as real
    && result.bytes == (Sum(counters.uploaded, testName) + Sum(counters.downloaded, testName)) as real
  }

  /** The bandwidth is filled in afterwards, from the bytes and the duration. */
  method GetCurrentPromValues(metrics: Metrics, latencies: seq<Histogram>, genBytesLatencies: seq<Histogram>, testName: string)
    returns (result: BenchmarkResult)
    ensures Reports(result, metrics.values, testName)
    ensures result.latencyAvg == Average(latencies, testName) && result.genBytesLatencyAvg == Average(genBytesLatencies, testName)
  {
    var finished := SumCounterForTest(metrics.values.finished, testName);
    var failed := SumCounterForTest(metrics.values.failed, testName);
    var uploaded := SumCounterForTest(metrics.values.uploaded, testName);
    var downloaded := SumCounterForTest(metrics.values.downloaded, testName);
    var latency := AverageHistogramForTest(latencies, testName);
    var genBytesLatency := AverageHistogramForTest(genBytesLatencies, testName);
    result := BenchmarkResult(testName, finished as real, failed as real, (uploaded + downloaded) as real, 0.0, latency, genBytesLatency);
  }
}
