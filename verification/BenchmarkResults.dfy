/** The results of a round, and how the server sums them up. */
module BenchmarkResults {

  /** What a worker reports after a round.  All numbers are floating-point in the program and real here. */
  datatype BenchmarkResult = BenchmarkResult(
    testName: string,
    successfulOperations: real,
    failedOperations: real,
    bytes: real,
    bandwidthAvg: real,
    latencyAvg: real,
    genBytesLatencyAvg: real)

  function Total(results: seq<BenchmarkResult>, field: BenchmarkResult -> real): real {
    if results == [] then 0.0 else Total(results[..|results| - 1], field) + field(results[|results| - 1])
  }

  const SUCCESSFUL := (r: BenchmarkResult) => r.successfulOperations
  const FAILED_OPS := (r: BenchmarkResult) => r.failedOperations
  const BYTES_MOVED := (r: BenchmarkResult) => r.bytes
  const BANDWIDTH := (r: BenchmarkResult) => r.bandwidthAvg
  const LATENCY := (r: BenchmarkResult) => r.latencyAvg
  const GEN_BYTES_LATENCY := (r: BenchmarkResult) => r.genBytesLatencyAvg

  /** Operations, bytes and bandwidths add up; latencies are averaged; the name is that of the first result. */
  function Summed(results: seq<BenchmarkResult>): BenchmarkResult
    requires results != []
  {
    var n := |results| as real;
    BenchmarkResult(results[0].testName, Total(results, SUCCESSFUL), Total(results, FAILED_OPS), Total(results, BYTES_MOVED),
                    Total(results, BANDWIDTH), Total(results, LATENCY) / n, Total(results, GEN_BYTES_LATENCY) / n)
  }

  method SumBenchmarkResults(results: seq<BenchmarkResult>) returns (sum: BenchmarkResult)
    requires results != []
    ensures sum == Summed(results)
  {
    var bytes, successful, failed, latencies, genBytesLatencies, bandwidths := 0.0, 0.0, 0.0, 0.0, 0.0, 0.0;
    for i := 0 to |results|
      invariant bytes == Total(results[..i], BYTES_MOVED)
      invariant successful == Total(results[..i], SUCCESSFUL) && failed == Total(results[..i], FAILED_OPS)
      invariant latencies == Total(results[..i], LATENCY) && genBytesLatencies == Total(results[..i], GEN_BYTES_LATENCY)
      invariant bandwidths == Total(results[..i], BANDWIDTH)
    {
      assert results[..i + 1][..i] == results[..i];
      var result := results[i];
      bytes := bytes + result.bytes;
      successful := successful + result.successfulOperations;
      failed := failed + result.failedOperations;
      latencies := latencies + result.latencyAvg;
      genBytesLatencies := genBytesLatencies + result.genBytesLatencyAvg;
      bandwidths := bandwidths + result.bandwidthAvg;
    }
    assert results[..|results|] == results;
    var n := |results| as real;
    sum := BenchmarkResult(results[0].testName, successful, failed, bytes, bandwidths, latencies / n, genBytesLatencies / n);
  }

  lemma {:induction false} TotalOfBoth(a: seq<BenchmarkResult>, b: seq<BenchmarkResult>, field: BenchmarkResult -> real)
    ensures Total(a + b, field) == Total(a, field) + Total(b, field)
  {
    if b == [] {
      assert a + b == a;
    } else {
      assert (a + b)[..|a + b| - 1] == a + b[..|b| - 1];
      TotalOfBoth(a, b[..|b| - 1], field);
    }
  }

  lemma MeanTimes(total: real, n: nat)
    requires n > 0
    ensures n as real * (total / n as real) == total
  {
  }

  lemma TotalOfOne(r: BenchmarkResult, field: BenchmarkResult -> real)
    ensures Total([r], field) == field(r)
  {
    assert [r][..0] == [];
    assert Total([r], field) == Total([], field) + field(r);
  }

  /** The summary of one result is that result. */
  lemma SummaryOfOne(r: BenchmarkResult)
    ensures Summed([r]) == r
  {
    TotalOfOne(r, SUCCESSFUL);
    TotalOfOne(r, FAILED_OPS);
    TotalOfOne(r, BYTES_MOVED);
    TotalOfOne(r, BANDWIDTH);
    TotalOfOne(r, LATENCY);
    TotalOfOne(r, GEN_BYTES_LATENCY);
  }

  /** Operations, bytes and bandwidths of two groups of workers add up, whereas their latencies are averaged, each group
      counting as much as it has workers. */
  lemma SummaryOfBoth(a: seq<BenchmarkResult>, b: seq<BenchmarkResult>)
    requires a != [] && b != []
    ensures Summed(a + b).testName == Summed(a).testName
    ensures Summed(a + b).successfulOperations == Summed(a).successfulOperations + Summed(b).successfulOperations
    ensures Summed(a + b).failedOperations == Summed(a).failedOperations + Summed(b).failedOperations
    ensures Summed(a + b).bytes == Summed(a).bytes + Summed(b).bytes
    ensures Summed(a + b).bandwidthAvg == Summed(a).bandwidthAvg + Summed(b).bandwidthAvg
    ensures |a + b| as real * Summed(a + b).latencyAvg == |a| as real * Summed(a).latencyAvg + |b| as real * Summed(b).latencyAvg
    ensures |a + b| as real * Summed(a + b).genBytesLatencyAvg
         == |a| as real * Summed(a).genBytesLatencyAvg + |b| as real * Summed(b).genBytesLatencyAvg
  {
    TotalOfBoth(a, b, SUCCESSFUL);
    TotalOfBoth(a, b, FAILED_OPS);
    TotalOfBoth(a, b, BYTES_MOVED);
    TotalOfBoth(a, b, BANDWIDTH);
    TotalOfBoth(a, b, LATENCY);
    TotalOfBoth(a, b, GEN_BYTES_LATENCY);
    MeanTimes(Total(a + b, LATENCY), |a + b|);
    MeanTimes(Total(a, LATENCY), |a|);
    MeanTimes(Total(b, LATENCY), |b|);
    MeanTimes(Total(a + b, GEN_BYTES_LATENCY), |a + b|);
    MeanTimes(Total(a, GEN_BYTES_LATENCY), |a|);
    MeanTimes(Total(b, GEN_BYTES_LATENCY), |b|);
  }

  // ----- The order in which the workers' results arrive does not matter

  lemma {:induction false} TotalWithout(results: seq<BenchmarkResult>, k: nat, field: BenchmarkResult -> real)
    requires k < |results|
    ensures Total(results, field) == Total(results[..k] + results[k + 1..], field) + field(results[k])
  {
    var last := |results| - 1;
    if k == last {
      assert results[..k] + results[k + 1..] == results[..last];
    } else {
      TotalWithout(results[..last], k, field);
      var rest := results[..k] + results[k + 1..];
      assert rest[..|rest| - 1] == results[..last][..k] + results[..last][k + 1..];
    }
  }

  lemma OneLess<T>(s: seq<T>, k: nat)
    requires k < |s|
    ensures multiset(s[..k] + s[k + 1..]) == multiset(s) - multiset{s[k]}
  {
    assert s == s[..k] + [s[k]] + s[k + 1..];
  }

  lemma AllButLast<T>(s: seq<T>)
    requires s != []
    ensures multiset(s[..|s| - 1]) == multiset(s) - multiset{s[|s| - 1]}
  {
    assert s == s[..|s| - 1] + [s[|s| - 1]];
  }

  lemma Found<T>(a: seq<T>, b: seq<T>, x: T) returns (k: nat)
    requires multiset(a) == multiset(b) && x in a
    ensures k < |b| && b[k] == x
  {
    assert x in multiset(b);
    k :| 0 <= k < |b| && b[k] == x;
  }

  lemma {:induction false} TotalOfPermutation(a: seq<BenchmarkResult>, b: seq<BenchmarkResult>, field: BenchmarkResult -> real)
    requires multiset(a) == multiset(b)
    ensures Total(a, field) == Total(b, field)
    decreases |a|
  {
    if a == [] {
      assert |multiset(b)| == 0;
    } else {
      var k := Found(a, b, a[|a| - 1]);
      TotalWithout(b, k, field);
      AllButLast(a);
      OneLess(b, k);
      TotalOfPermutation(a[..|a| - 1], b[..k] + b[k + 1..], field);
    }
  }

  lemma OrderDoesNotMatter(a: seq<BenchmarkResult>, b: seq<BenchmarkResult>, testName: string)
    requires multiset(a) == multiset(b) && a != []
    requires forall k :: 0 <= k < |a| ==> a[k].testName == testName
    ensures b != [] && Summed(a) == Summed(b) && Summed(a).testName == testName
  {
    assert |a| == |multiset(a)| == |multiset(b)| == |b|;
    assert b[0] in multiset(a);
    TotalOfPermutation(a, b, SUCCESSFUL);
    TotalOfPermutation(a, b, FAILED_OPS);
    TotalOfPermutation(a, b, BYTES_MOVED);
    TotalOfPermutation(a, b, BANDWIDTH);
    TotalOfPermutation(a, b, LATENCY);
    TotalOfPermutation(a, b, GEN_BYTES_LATENCY);
  }

  lemma {:induction false} TotalBounds(results: seq<BenchmarkResult>, field: BenchmarkResult -> real, low: real, high: real)
    requires forall k :: 0 <= k < |results| ==> low <= field(results[k]) <= high
    ensures low * |results| as real <= Total(results, field) <= high * |results| as real
  {
    if results != [] {
      TotalBounds(results[..|results| - 1], field, low, high);
    }
  }

  /** The averaged latency lies between those of the workers. */
  lemma AverageWithinBounds(results: seq<BenchmarkResult>, low: real, high: real)
    requires results != [] && forall k :: 0 <= k < |results| ==> low <= results[k].latencyAvg <= high
    ensures low <= Summed(results).latencyAvg <= high
  {
    TotalBounds(results, LATENCY, low, high);
    var n, total := |results| as real, Total(results, LATENCY);
    Quotient(total, n, low, high);
  }

  lemma Quotient(total: real, n: real, low: real, high: real)
    requires n > 0.0 && low * n <= total <= high * n
    ensures low <= total / n <= high
  {
    assert (total / n) * n == total;
  }

  lemma {:induction false} TotalOfEqual(results: seq<BenchmarkResult>, field: BenchmarkResult -> real, value: real)
    requires forall k :: 0 <= k < |results| ==> field(results[k]) == value
    ensures Total(results, field) == |results| as real * value
  {
    if results != [] {
      TotalOfEqual(results[..|results| - 1], field, value);
    }
  }
}
