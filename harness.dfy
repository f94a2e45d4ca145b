/** The benchmarking session: a named set of benchmark cases run one after
    another, whose results are sorted, reported and optionally appended to a
    results file when the session finishes. */
module Harness {
  import opened Wrappers
  import opened Statistics
  import opened Sampling
  import opened Csv

  /** The launch metadata read from the process arguments. */
  datatype LaunchConfig = LaunchConfig(launchTime: string, outpath: string)

  /** argv[1] is the launch time and argv[2] the output file; a missing one is left empty. */
  function ParseLaunchArgs(argv: seq<string>): LaunchConfig
  {
    LaunchConfig(if |argv| >= 2 then argv[1] else "",
                 if |argv| >= 3 then argv[2] else "")
  }

  /** The file the rows go to: `<workspace>/bench/<outpath>`. */
  function ResultsPath(workspace: string, outpath: string): string
  {
    workspace + "/bench/" + outpath
  }

  /** Most expensive first. */
  predicate SortedByMeanDescending(s: seq<BenchmarkResult>)
  {
    forall i, j :: 0 <= i < j < |s| ==> s[i].mean >= s[j].mean
  }

  /** Rows appended to a file. */
  datatype Persisted = Persisted(path: string, rows: seq<string>)

  /** What `finish` produces: either the notice that no benchmark ran, or the
      extreme means that scale the report and the rows persisted, if any. */
  datatype Report =
    | NoBenchmarksRan
    | Reported(maxMean: real, minMean: real, appended: Option<Persisted>)

  /** Sorts the results in place, most expensive mean first. Equal means may
      end up in any order: the sort is not required to be stable. */
  method SortByMeanDescending(a: array<BenchmarkResult>)
    modifies a
    ensures SortedByMeanDescending(a[..])
    ensures multiset(a[..]) == old(multiset(a[..]))
  {
    var i := 0;
    while i < a.Length
      invariant 0 <= i <= a.Length
      invariant SortedByMeanDescending(a[..i])
      invariant multiset(a[..]) == old(multiset(a[..]))
    {
      InsertIntoSorted(a, i);
      i := i + 1;
    }
    assert a[..i] == a[..];
  }

  /** The result vector sorted in its own storage, as `std::sort` does. */
  method SortResults(results: seq<BenchmarkResult>) returns (sorted: seq<BenchmarkResult>)
    ensures SortedByMeanDescending(sorted)
    ensures multiset(sorted) == multiset(results)
  {
    var a := new BenchmarkResult[|results|](i requires 0 <= i < |results| => results[i]);
    assert a[..] == results;
    SortByMeanDescending(a);
    sorted := a[..];
  }

  /** Moves a[i] left into the sorted prefix a[..i], past every smaller mean:
      the first i + 1 cells end up sorted and hold what they held, the rest stay put. */
  method InsertIntoSorted(a: array<BenchmarkResult>, i: nat)
    requires i < a.Length
    requires SortedByMeanDescending(a[..i])
    modifies a
    ensures SortedByMeanDescending(a[..i + 1])
    ensures multiset(a[..i + 1]) == old(multiset(a[..i + 1]))
    ensures a[i + 1..] == old(a[i + 1..])
    ensures multiset(a[..]) == old(multiset(a[..]))
  {
    SiftLeft(a, i);
    assert a[i + 1..] == old(a[i + 1..]);
    SameTailSamePrefix(old(a[..]), a[..], i + 1);
  }

  /** The swapping loop of one insertion step, stated cell by cell. */
  method SiftLeft(a: array<BenchmarkResult>, i: nat)
    requires i < a.Length
    requires forall p, q :: 0 <= p < q < i ==> a[p].mean >= a[q].mean
    modifies a
    ensures forall p, q :: 0 <= p < q <= i ==> a[p].mean >= a[q].mean
    ensures forall k :: i < k < a.Length ==> a[k] == old(a[k])
    ensures multiset(a[..]) == old(multiset(a[..]))
  {
    var j := i;
    while j > 0 && a[j - 1].mean < a[j].mean
      invariant 0 <= j <= i
      invariant forall k :: i < k < a.Length ==> a[k] == old(a[k])
      invariant forall p, q :: 0 <= p < q <= i && p != j && q != j ==> a[p].mean >= a[q].mean
      invariant forall q :: j < q <= i ==> a[j].mean >= a[q].mean
      invariant multiset(a[..]) == old(multiset(a[..]))
    {
      SwapAdjacent(a, j);
      j := j - 1;
    }
  }

  /** Two arrangements of one multiset that agree from k on agree as multisets before k. */
  lemma SameTailSamePrefix(before: seq<BenchmarkResult>, after: seq<BenchmarkResult>, k: nat)
    requires |before| == |after| && k <= |before|
    requires multiset(before) == multiset(after)
    requires before[k..] == after[k..]
    ensures multiset(before[..k]) == multiset(after[..k])
  {
    assert before == before[..k] + before[k..];
    assert after == after[..k] + after[k..];
    assert multiset(before[..k]) == multiset(before) - multiset(before[k..]);
    assert multiset(after[..k]) == multiset(after) - multiset(after[k..]);
  }

  /** Exchanges a[j - 1] and a[j]. */
  method SwapAdjacent(a: array<BenchmarkResult>, j: nat)
    requires 0 < j < a.Length
    modifies a
    ensures a[j - 1] == old(a[j]) && a[j] == old(a[j - 1])
    ensures forall k :: 0 <= k < a.Length && k != j - 1 && k != j ==> a[k] == old(a[k])
    ensures multiset(a[..]) == old(multiset(a[..]))
  {
    a[j - 1], a[j] := a[j], a[j - 1];
  }

  /** In a list sorted by descending mean, every mean lies between the last one and the first one. */
  lemma SortedMeansBounded(s: seq<BenchmarkResult>)
    requires |s| > 0 && SortedByMeanDescending(s)
    ensures forall r :: r in s ==> s[|s| - 1].mean <= r.mean <= s[0].mean
  {
  }

  /** Results with means 5, 1 and 3, in any order, sort to the order 5, 3, 1. */
  lemma SortExample(s: seq<BenchmarkResult>, a: BenchmarkResult, b: BenchmarkResult, c: BenchmarkResult)
    requires a.mean == 5.0 && b.mean == 1.0 && c.mean == 3.0
    requires multiset(s) == multiset([a, b, c]) && SortedByMeanDescending(s)
    ensures s == [a, c, b]
  {
  }

  /** The file-writing loop: one row per result, in list order. */
  method WriteRows(launchTime: string, setName: string, results: seq<BenchmarkResult>, fmt: real -> string)
    returns (rows: seq<string>)
    ensures rows == CsvRows(launchTime, setName, results, fmt)
  {
    rows := [];
    var i := 0;
    while i < |results|
      invariant 0 <= i <= |results|
      invariant rows == CsvRows(launchTime, setName, results[..i], fmt)
    {
      rows := rows + [CsvRow(launchTime, setName, results[i], fmt)];
      i := i + 1;
    }
    assert results[..i] == results;
  }

  /** A reordering of valid results holds only valid results. */
  lemma ReorderingKeepsValid(before: seq<BenchmarkResult>, after: seq<BenchmarkResult>)
    requires multiset(after) == multiset(before)
    requires forall r :: r in before ==> ValidResult(r)
    ensures forall r :: r in after ==> ValidResult(r)
  {
    assert forall r :: r in after ==> r in multiset(before);
  }

  class Benchmarker {
    var results: seq<BenchmarkResult>
    var name: string
    var path: string
    var outpath: string
    var launchTime: string

    /** Every result held is one the collector produced. */
    ghost predicate Valid()
      reads this
    {
      forall r :: r in results ==> ValidResult(r)
    }

    /** Starts a session named `name`, declared in source file `path`,
        reading the launch time and the output file from `argv`. */
    constructor (name: string, path: string, argv: seq<string>)
      ensures this.name == name && this.path == path
      ensures LaunchConfig(launchTime, outpath) == ParseLaunchArgs(argv)
      ensures results == [] && Valid()
    {
      this.name := name;
      this.path := path;
      launchTime := "";
      outpath := "";
      if |argv| >= 2 {
        launchTime := argv[1];
      }
      if |argv| >= 3 {
        outpath := argv[2];
      }
      results := [];
    }

    /** Runs one benchmark case and appends its result; when a call raises
        (runs past `durations`) nothing is appended. */
    method RunBenchmark(funcName: string, testName: string, durations: seq<real>, sqrt: real -> real)
      returns (completed: bool)
      requires Valid()
      requires IsSquareRoot(sqrt)
      modifies this`results
      ensures Valid()
      ensures completed <==> !NeverStops(durations)
      ensures !completed ==> results == old(results)
      ensures completed ==> |results| == |old(results)| + 1 && results[..|old(results)|] == old(results)
      ensures completed ==>
        var r := results[|results| - 1];
        r.funcName == funcName && r.testName == testName &&
        StopsFirstAt(durations, r.numIterations) && r.times == durations[..r.numIterations]
    {
      var times, totalDuration;
      completed, times, totalDuration := CollectSamples(durations);
      if !completed {
        return;
      }
      assert !NeverStops(durations) by {
        assert ShouldStop(|times|, Sum(durations[..|times|]));
      }
      var m := ComputeMean(times);
      var mean := m.value;
      var v := ComputeVariance(times, mean);
      var variance := v.value;
      var sd := StandardDeviation(variance, sqrt);
      var cv := CoefficientOfVariation(sd, mean);
      var bench := BenchmarkResult(funcName, testName, times, |times|, mean, variance, sd, cv, totalDuration);
      StopsFirstAtPrefix(durations, |times|);
      results := results + [bench];
    }

    /** Ends the session: with no results, only the notice; otherwise sorts the
        results by descending mean, takes the extreme means from both ends and,
        when an output file was given, produces one row per result in sorted order. */
    method Finish(workspace: string, fmt: real -> string) returns (report: Report)
      requires Valid()
      modifies this`results
      ensures Valid()
      ensures old(results) == [] ==> results == [] && report == NoBenchmarksRan
      ensures old(results) != [] ==>
        multiset(results) == multiset(old(results)) && SortedByMeanDescending(results) &&
        report.Reported? && report.maxMean == results[0].mean && report.minMean == results[|results| - 1].mean
      ensures report.Reported? ==> forall r :: r in results ==> report.minMean <= r.mean <= report.maxMean
      ensures report.Reported? ==> (report.appended.Some? <==> outpath != "")
      ensures report.Reported? && report.appended.Some? ==>
        report.appended.value == Persisted(ResultsPath(workspace, outpath), CsvRows(launchTime, name, results, fmt))
    {
      if |results| == 0 {
        return NoBenchmarksRan;
      }
      ghost var unsorted := results;
      results := SortResults(results);
      ReorderingKeepsValid(unsorted, results);
      var maxMean := results[0].mean;
      var minMean := results[|results| - 1].mean;
      SortedMeansBounded(results);
      var appended := None;
      if outpath != "" {
        var rows := WriteRows(launchTime, name, results, fmt);
        appended := Some(Persisted(ResultsPath(workspace, outpath), rows));
      }
      report := Reported(maxMean, minMean, appended);
    }
  }
}
