/** The workspace launcher: from the build targets the build system lists it
    picks those named `<package>:benchmark`, and launches each with the launch
    time and the results file name as its two arguments. */
module Launcher {
  import opened Sampling
  import opened Csv
  import opened Harness

  /** The name every benchmark target ends with. */
  const TargetSuffix: string := ":benchmark"

  /** The results file, relative to the workspace's bench directory. */
  const ResultsFile: string := "bench_results.csv"

  /** The column names of the results file. */
  const Headers: seq<string> :=
    ["datetime", "bench_set", "function_name", "test_name", "mean", "variance", "stdev", "coef_of_variance"]

  /** Longer than the suffix, and ends with it. */
  predicate IsBenchmarkTarget(x: string)
  {
    |x| > |TargetSuffix| && x[|x| - |TargetSuffix|..] == TargetSuffix
  }

  /** The benchmark targets among the listed ones, in listing order. */
  function SelectTargets(lines: seq<string>): (targets: seq<string>)
    ensures |targets| <= |lines|
  {
    if lines == [] then []
    else (if IsBenchmarkTarget(lines[0]) then [lines[0]] else []) + SelectTargets(lines[1..])
  }

  /** `xs` is `ys` with some elements left out and the rest in their original order. */
  predicate IsSubsequence(xs: seq<string>, ys: seq<string>)
    decreases |ys|
  {
    if xs == [] then true
    else if ys == [] then false
    else (xs[0] == ys[0] && IsSubsequence(xs[1..], ys[1..])) || IsSubsequence(xs, ys[1..])
  }

  /** The process arguments a target sees when launched with a launch time and a file name. */
  function LaunchArgv(program: string, launchTime: string, filename: string): seq<string>
  {
    [program, launchTime, filename]
  }

  /** Every selected target ends with ":benchmark" and is longer than it. */
  lemma {:induction false} SelectedAreTargets(lines: seq<string>)
    ensures forall t :: t in SelectTargets(lines) ==>
      |t| > |TargetSuffix| && t[|t| - |TargetSuffix|..] == TargetSuffix
  {
    if lines != [] {
      SelectedAreTargets(lines[1..]);
    }
  }

  /** The bare suffix is not a target. */
  lemma BareSuffixRejected()
    ensures SelectTargets([TargetSuffix]) == []
  {
  }

  /** The selection keeps the listing order. */
  lemma {:induction false} SelectionIsSubsequence(lines: seq<string>)
    ensures IsSubsequence(SelectTargets(lines), lines)
  {
    if lines != [] {
      SelectionIsSubsequence(lines[1..]);
      var rest := SelectTargets(lines[1..]);
      if IsBenchmarkTarget(lines[0]) {
        assert SelectTargets(lines) == [lines[0]] + rest;
        assert ([lines[0]] + rest)[1..] == rest;
      } else {
        assert SelectTargets(lines) == rest;
        if rest != [] {
          assert IsSubsequence(rest, lines) by {
            assert IsSubsequence(rest, lines[1..]);
          }
        }
      }
    }
  }

  /** Each target occurs in the selection exactly as often as in the listing,
      and nothing else occurs in it. */
  lemma {:induction false} SelectionCounts(lines: seq<string>)
    ensures forall x :: multiset(SelectTargets(lines))[x] ==
                        (if IsBenchmarkTarget(x) then multiset(lines)[x] else 0)
  {
    if lines != [] {
      SelectionCounts(lines[1..]);
      assert lines == [lines[0]] + lines[1..];
      assert multiset(lines) == multiset([lines[0]]) + multiset(lines[1..]);
    }
  }

  /** Every listed target is selected. */
  lemma SelectionComplete(lines: seq<string>)
    ensures forall x :: x in lines && IsBenchmarkTarget(x) ==> x in SelectTargets(lines)
  {
    SelectionCounts(lines);
    forall x | x in lines && IsBenchmarkTarget(x)
      ensures x in SelectTargets(lines)
    {
      assert multiset(lines)[x] > 0;
    }
  }

  /** Selecting twice selects the same targets as selecting once. */
  lemma {:induction false} SelectionIdempotent(lines: seq<string>)
    ensures SelectTargets(SelectTargets(lines)) == SelectTargets(lines)
  {
    if lines != [] {
      SelectionIdempotent(lines[1..]);
      var rest := SelectTargets(lines[1..]);
      if IsBenchmarkTarget(lines[0]) {
        var selected := [lines[0]] + rest;
        assert selected[0] == lines[0] && selected[1..] == rest;
        assert SelectTargets(selected) == [lines[0]] + SelectTargets(rest);
      } else {
        assert SelectTargets(lines) == rest;
      }
    }
  }

  /** The header names the eight columns a row holds: it splits into eight
      fields, as many as a row of plain fields. */
  lemma HeaderMatchesRowLayout(launchTime: string, setName: string, r: BenchmarkResult, fmt: real -> string)
    requires forall f :: f in RowFields(launchTime, setName, r, fmt) ==> IsPlainField(f)
    ensures Split(Join(Headers)) == Headers
    ensures |Headers| == |ParseRow(CsvRow(launchTime, setName, r, fmt))| == 8
  {
    SplitJoin(Headers);
    RowLayout(launchTime, setName, r, fmt);
  }

  /** A launched target reads the launch time as its launch time and the file
      name as its output file, so a launch with a file name persists its rows. */
  lemma LaunchArgumentsRoundTrip(program: string, launchTime: string, filename: string)
    ensures ParseLaunchArgs(LaunchArgv(program, launchTime, filename)) == LaunchConfig(launchTime, filename)
    ensures ParseLaunchArgs(LaunchArgv(program, launchTime, ResultsFile)).outpath != ""
  {
  }
}
