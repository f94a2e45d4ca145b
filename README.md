# holbench harness model

A Dafny model of the benchmarking harness in `bench/include/bench/benc.h` and
of the target selection in the workspace launcher `bench/scripts/bench.py`.

A `Benchmarker` session is named and started from the process arguments.
`argv[1]` is the launch time and `argv[2]` the results file. The session then
runs benchmark cases one at a time. Each case times calls of a function until
a stopping test holds: at 1000 iterations, or once the total time reaches 1
second with at least 50 iterations. The case's result records the samples,
mean, population variance, standard deviation and coefficient of variation,
and is appended to the session's results. `finish` sorts the results by
descending mean and takes the extreme means from both ends. When an output
file was given, it also appends one comma-separated row of eight fields per
result. The launcher keeps the build targets whose names end in `:benchmark`.
It starts each one with the launch time and the file name as arguments.

Files:

- `wrappers.dfy`: `Option`, used where the source produces NaN or no value.
- `statistics.dfy` (module `Statistics`): sum, mean, variance, standard
  deviation, and the index loops that compute them.
- `sampling.dfy` (module `Sampling`): the stopping test, the sample-collection
  loop, the result record and the invariant every result satisfies.
- `csv.dfy` (module `Csv`): the row layout of the results file, with joining
  and splitting at commas.
- `harness.dfy` (module `Harness`): the `Benchmarker` class (constructor,
  `RunBenchmark`, `Finish`) and the sort by descending mean.
- `launcher.dfy` (module `Launcher`): target selection, the header list, and
  the arguments passed to each target.

Abstractions:

- The clock is replaced by a list of durations. `durations[i]` is the measured
  duration of the (i+1)-th timed call. A call past the end of the list is one
  whose callable raised. The exception then leaves `runBenchmark`, and nothing
  is appended.
- `sqrt` is a parameter. It is constrained only by `IsSquareRoot`: it returns
  a non-negative root whose square is its argument.
- The stream formatting of a `double` is a parameter `fmt`. The numeric fields
  of a row are opaque strings.
- The `BUILD_WORKSPACE_DIRECTORY` environment value is a parameter `workspace`.

Two behaviours of the code are kept as written:

- `std::sort` is used, so results with equal means are not guaranteed to stay
  in registration order. The model promises only that the results end up
  ordered by mean and form a permutation of what they were.
- An empty vector or a zero mean yields NaN, not an error. The model returns
  `None` in those places.

## Model

| member | source | states |
|---|---|---|
| `Statistics.ComputeMean` | bench/include/bench/benc.h:12-18 | the accumulation loop returns Sum/n, or None for an empty vector (0/0 in the source) |
| `Statistics.ComputeVariance` | bench/include/bench/benc.h:20-27 | the loop returns the squared deviations divided by n (population variance), which is non-negative, or None for an empty vector |
| `Statistics.StandardDeviation` | bench/include/bench/benc.h:29 | the standard deviation is non-negative and its square is the variance |
| `Statistics.MeanWithinBounds` | bench/include/bench/benc.h:12-18 | when every sample lies in [lo, hi], so does the mean |
| `Statistics.MeanBetweenMinAndMax` | bench/include/bench/benc.h:12-18 | the mean lies between the smallest and the largest sample |
| `Statistics.VarianceNonNegative` | bench/include/bench/benc.h:20-27 | the variance around any mean is non-negative |
| `Statistics.ConstantSamples` | bench/include/bench/benc.h:12-27 | when all samples equal c, the mean is c and the variance around it is 0 |
| `Sampling.CoefficientOfVariation` | bench/include/bench/benc.h:105 | the coefficient is defined exactly when the mean is non-zero, and then coefficient * mean == 100 * sd |
| `Sampling.CollectSamples` | bench/include/bench/benc.h:87-100 | when the loop completes, its samples are the first k durations, where k is the first iteration at which the stopping test holds, and the total is their sum; when it does not complete, the test held at no iteration the durations allow |
| `Sampling.StopBounds` | bench/include/bench/benc.h:90-100 | the loop runs at least 1 and at most 1000 iterations |
| `Sampling.EarlyStopMeetsBudget` | bench/include/bench/benc.h:96-97 | stopping before 1000 iterations means a total of at least 1 second and at least 50 iterations |
| `Sampling.StopIsUnique` | bench/include/bench/benc.h:90-100 | the stopping iteration is unique |
| `Sampling.StopExists` | bench/include/bench/benc.h:90-100 | when 1000 calls return, or the test holds at some iteration, the loop stops at some iteration |
| `Sampling.NeverStopsIsShort` | bench/include/bench/benc.h:96 | a run that never meets the stopping test had a call raise before iteration 1000 |
| `Sampling.ZeroDurationsStopAtCap` | bench/include/bench/benc.h:96-97 | calls that take no time stop at exactly 1000 iterations |
| `Sampling.ConstantSlowDurationsStopAtFloor` | bench/include/bench/benc.h:96-97 | calls of constant duration d with 50 * d >= 1 stop at exactly 50 iterations |
| `Sampling.SlowCallStopsAtFifty` | bench/include/bench/benc.h:96-97 | calls of 1.1 seconds each stop at exactly 50 iterations |
| `Sampling.ValidResultFacts` | bench/include/bench/benc.h:87-105 | every result has between 1 and 1000 samples, a non-negative variance, and a mean between its extreme samples |
| `Csv.CsvRows` | bench/include/bench/benc.h:144-148 | there is exactly one row per result |
| `Csv.SplitJoin` | bench/include/bench/benc.h:145-147 | splitting a comma-joined line at its commas gives back the fields, when no field holds a comma |
| `Csv.RowLayout` | bench/include/bench/benc.h:145-147 | when none of the eight values holds a comma or a newline, a row is exactly one line (its only newline is the last character) and splits into exactly 8 fields: launch time, set name, function name, test name, mean, variance, standard deviation, coefficient of variation |
| `Csv.CsvRowsAppend` | bench/include/bench/benc.h:144-148 | the rows of two concatenated result lists are the rows of each, in order |
| `Harness.SortByMeanDescending` | bench/include/bench/benc.h:126-128 | after the in-place sort the array is ordered by non-increasing mean and is a permutation of what it held |
| `Harness.InsertIntoSorted` | bench/include/bench/benc.h:127-128 | one insertion step leaves the first i + 1 cells sorted by non-increasing mean and holding the same multiset as before, and leaves every later cell unchanged |
| `Harness.SiftLeft` | bench/include/bench/benc.h:127-128 | the swapping loop of one insertion step orders the first i + 1 cells, leaves later cells unchanged and keeps the array's multiset |
| `Harness.SwapAdjacent` | bench/include/bench/benc.h:127-128 | an exchange of two neighbours that leaves every other element and the multiset unchanged |
| `Harness.SortResults` | bench/include/bench/benc.h:126-128 | the sorted result vector is ordered by non-increasing mean and is a permutation of the input |
| `Harness.SortedMeansBounded` | bench/include/bench/benc.h:129-130 | in a sorted result list every mean lies between the last mean (minMean) and the first (maxMean) |
| `Harness.SortExample` | bench/include/bench/benc.h:126-128 | results with means 5, 1 and 3 sort to the order 5, 3, 1 |
| `Harness.ReorderingKeepsValid` | bench/include/bench/benc.h:126-128 | reordering the results keeps every result valid |
| `Harness.WriteRows` | bench/include/bench/benc.h:144-148 | the writing loop yields one row per result, in sorted order |
| `Harness.Benchmarker.constructor` | bench/include/bench/benc.h:47-54 | name and path are stored verbatim; the launch time is argv[1] when argc >= 2 and the output file is argv[2] when argc >= 3, otherwise each stays empty; the results start empty |
| `Harness.Benchmarker.RunBenchmark` | bench/include/bench/benc.h:81-108 | when the loop completes, exactly one valid result is appended and earlier results are unchanged; the result carries the names and the samples up to the first stopping iteration; when a call raises, the results are unchanged |
| `Harness.Benchmarker.Finish` | bench/include/bench/benc.h:119-151 | with no results it only reports that none ran; otherwise the results become a permutation sorted by descending mean, maxMean is the first mean and minMean the last, and every mean lies between them; rows are persisted exactly when the output file is non-empty, to `<workspace>/bench/<outpath>`, one row per result in sorted order |
| `Launcher.SelectTargets` | bench/scripts/bench.py:30-32 | the selection is no longer than the listing |
| `Launcher.SelectedAreTargets` | bench/scripts/bench.py:32 | every selected target ends with ":benchmark" and is strictly longer than it |
| `Launcher.BareSuffixRejected` | bench/scripts/bench.py:32 | the bare token ":benchmark" is not selected |
| `Launcher.SelectionIsSubsequence` | bench/scripts/bench.py:32 | the selection is an order-preserving subsequence of the listing |
| `Launcher.SelectionCounts` | bench/scripts/bench.py:32 | each target occurs in the selection as often as in the listing, and nothing else occurs in it |
| `Launcher.SelectionComplete` | bench/scripts/bench.py:32 | every listed token that is a target is selected |
| `Launcher.SelectionIdempotent` | bench/scripts/bench.py:32 | filtering the selection again leaves it unchanged |
| `Launcher.HeaderMatchesRowLayout` | bench/scripts/bench.py:15 | the header list splits into its own 8 names, as many columns as a row written by finish |
| `Launcher.LaunchArgumentsRoundTrip` | bench/scripts/bench.py:37 | a target started with a launch time and a file name reads them back as its launch time and output file, so the results file enables persistence |

## Left out

- Clock reads and the call of the function under test (`timeFunctionCall`, benc.h:111-117) are replaced by the list of durations. So is the unused `start` at benc.h:89. The generator runs before the timer starts, so its cost is outside each duration. The model only states this.
- IEEE floating point: durations and statistics are exact reals, so rounding, NaN and infinity are not modelled. An undefined value is `None`.
- `Csv.FormatCoefficient` always writes an undefined coefficient as "nan". In the source the spelling depends on the platform: all-zero durations give 0/0, which x86-64 with glibc prints as "-nan". A zero mean with a non-zero deviation prints as "inf"; that can only happen with negative durations.
- `Statistics.StandardDeviation` requires a non-negative variance. On a negative one, the source's `sqrt` would give NaN. No caller can pass one, because every variance is a sum of squares divided by n.
- `printBenchmarkResult` (benc.h:60-78) is left out: the console line, its logarithmic colour scale and `hsv2rgb`. `colors.h` is not part of this model. The colour computation divides by zero when `minMean == maxMean`.
- All console output and the ANSI colour macros are left out.
- File system effects are left out: opening the file in append mode, writing to it, and what the file held before. `Finish` returns the target path and the rows it appends.
- The environment lookup of `BUILD_WORKSPACE_DIRECTORY` is a parameter. Its unset case, a null pointer in the source, is not modelled.
- The registration macros (benc.h:162-168) are left out: they only expand to the constructor, `RunBenchmark` and `Finish`.
- `example/bench/example-benchmarks.cpp` is usage code and is not part of this model.
- The launcher's `main` plumbing is left out: `chdir`, header-file creation, `datetime`, and the build-system query and run subprocesses. Also left out: decoding the query output and splitting it on whitespace. The model starts from the decoded token list.
