/** One benchmark case: the sample-collection loop and its stopping policy,
    and the summary record it produces. A call's duration is supplied by the
    caller in place of the clock: `durations[i]` is the measured duration of
    the (i+1)-th timed call, and a call past the end of `durations` is one
    whose callable raised, which ends the run without a result. */
module Sampling {
  import opened Wrappers
  import opened Statistics

  /** The loop stops unconditionally after this many iterations. */
  const MaxIterations: nat := 1000
  /** Past the time budget, the loop still runs at least this many iterations. */
  const MinIterations: nat := 50
  /** The time budget, in seconds, after which the loop may stop early. */
  const TimeBudget: real := 1.0

  /** The stopping test evaluated after every completed iteration. */
  predicate ShouldStop(numIterations: nat, totalDuration: real)
  {
    numIterations >= MaxIterations || (totalDuration >= TimeBudget && numIterations >= MinIterations)
  }

  /** Given these call durations, the loop stops after exactly k iterations:
      the test holds after iteration k and after no earlier one. */
  predicate StopsFirstAt(durations: seq<real>, k: nat)
  {
    1 <= k <= |durations| &&
    ShouldStop(k, Sum(durations[..k])) &&
    forall j :: 1 <= j < k ==> !ShouldStop(j, Sum(durations[..j]))
  }

  /** The stopping test holds after none of the iterations these durations allow. */
  predicate NeverStops(durations: seq<real>)
  {
    forall j :: 1 <= j <= |durations| ==> !ShouldStop(j, Sum(durations[..j]))
  }

  /** One completed benchmark case. */
  datatype BenchmarkResult = BenchmarkResult(
    funcName: string,
    testName: string,
    times: seq<real>,
    numIterations: nat,
    mean: real,
    variance: real,
    standardDeviation: real,
    coefficientOfVariation: Option<real>,
    totalDuration: real)

  /** 100 * sd / mean, the standard deviation as a percentage of the mean;
      None where the source divides by a zero mean. */
  function CoefficientOfVariation(sd: real, mean: real): (cv: Option<real>)
    ensures cv.Some? <==> mean != 0.0
    ensures cv.Some? ==> cv.value * mean == 100.0 * sd
  {
    if mean == 0.0 then None else Some(100.0 * sd / mean)
  }

  /** What holds of every result the collector hands to the harness. */
  ghost predicate ValidResult(r: BenchmarkResult)
  {
    r.numIterations == |r.times| &&
    StopsFirstAt(r.times, r.numIterations) &&
    r.totalDuration == Sum(r.times) &&
    r.mean == Mean(r.times) &&
    r.variance == Variance(r.times, r.mean) &&
    r.standardDeviation >= 0.0 && r.standardDeviation * r.standardDeviation == r.variance &&
    r.coefficientOfVariation == CoefficientOfVariation(r.standardDeviation, r.mean)
  }

  /** The timing loop: time one call per iteration, append its duration,
      count it and add it to the total, until the stopping test holds.
      `completed` is false when a call raised before the test held. */
  method CollectSamples(durations: seq<real>) returns (completed: bool, times: seq<real>, totalDuration: real)
    ensures completed ==> StopsFirstAt(durations, |times|)
    ensures completed ==> times == durations[..|times|] && totalDuration == Sum(times)
    ensures !completed ==> NeverStops(durations)
  {
    times := [];
    totalDuration := 0.0;
    var numIterations: nat := 0;
    while true
      invariant numIterations == |times| < MaxIterations
      invariant numIterations <= |durations| && times == durations[..numIterations]
      invariant totalDuration == Sum(times)
      invariant forall j :: 1 <= j <= numIterations ==> !ShouldStop(j, Sum(durations[..j]))
      decreases MaxIterations - numIterations
    {
      if numIterations == |durations| {
        assert durations[..numIterations] == durations;
        return false, times, totalDuration;
      }
      times := times + [durations[numIterations]];
      numIterations := numIterations + 1;
      totalDuration := totalDuration + times[|times| - 1];
      assert times[..|times| - 1] == durations[..numIterations - 1];
      assert times == durations[..numIterations];
      if ShouldStop(numIterations, totalDuration) {
        break;
      }
    }
    completed := true;
  }

  /** The loop never runs more than 1000 iterations, and it always runs at least one. */
  lemma StopBounds(durations: seq<real>, k: nat)
    requires StopsFirstAt(durations, k)
    ensures 1 <= k <= MaxIterations
  {
    if k > MaxIterations {
      assert ShouldStop(MaxIterations, Sum(durations[..MaxIterations]));
    }
  }

  /** Stopping before the cap means both the time budget and the 50-iteration floor were reached. */
  lemma EarlyStopMeetsBudget(durations: seq<real>, k: nat)
    requires StopsFirstAt(durations, k) && k < MaxIterations
    ensures Sum(durations[..k]) >= TimeBudget && k >= MinIterations
  {
  }

  /** The stopping point is unique. */
  lemma StopIsUnique(durations: seq<real>, k1: nat, k2: nat)
    requires StopsFirstAt(durations, k1) && StopsFirstAt(durations, k2)
    ensures k1 == k2
  {
  }

  /** With a duration for each of the first 1000 calls the loop always stops. */
  lemma {:induction false} StopExists(durations: seq<real>)
    requires |durations| >= MaxIterations || !NeverStops(durations)
    ensures exists k :: StopsFirstAt(durations, k)
  {
    var k: nat := 1;
    while !ShouldStop(k, Sum(durations[..k]))
      invariant 1 <= k <= MaxIterations && k <= |durations|
      invariant forall j :: 1 <= j < k ==> !ShouldStop(j, Sum(durations[..j]))
      decreases MaxIterations - k
    {
      k := k + 1;
    }
    assert StopsFirstAt(durations, k);
  }

  /** Calls that never raise make the loop complete. */
  lemma NeverStopsIsShort(durations: seq<real>)
    requires NeverStops(durations)
    ensures |durations| < MaxIterations
  {
    if |durations| >= MaxIterations {
      assert ShouldStop(MaxIterations, Sum(durations[..MaxIterations]));
    }
  }

  /** The loop stops at k over `durations` exactly when it stops at k over their first k entries. */
  lemma StopsFirstAtPrefix(durations: seq<real>, k: nat)
    requires k <= |durations|
    ensures StopsFirstAt(durations, k) <==> StopsFirstAt(durations[..k], k)
  {
    assert forall j :: 0 <= j <= k ==> durations[..k][..j] == durations[..j];
  }

  /** The prefix sum of a vector of equal durations. */
  lemma ConstantPrefixSum(durations: seq<real>, d: real, j: nat)
    requires forall i :: 0 <= i < |durations| ==> durations[i] == d
    requires j <= |durations|
    ensures Sum(durations[..j]) == (j as real) * d
  {
    SumBounds(durations[..j], d, d);
  }

  /** Calls that take no time run into the cap: exactly 1000 iterations. */
  lemma ZeroDurationsStopAtCap(durations: seq<real>)
    requires |durations| >= MaxIterations
    requires forall i :: 0 <= i < |durations| ==> durations[i] == 0.0
    ensures StopsFirstAt(durations, MaxIterations)
  {
    forall j | 1 <= j <= MaxIterations
      ensures Sum(durations[..j]) == 0.0
    {
      ConstantPrefixSum(durations, 0.0, j);
    }
  }

  /** Calls of constant duration d with 50 * d >= 1 second stop at the floor: exactly 50 iterations. */
  lemma ConstantSlowDurationsStopAtFloor(durations: seq<real>, d: real)
    requires |durations| >= MinIterations
    requires forall i :: 0 <= i < |durations| ==> durations[i] == d
    requires (MinIterations as real) * d >= TimeBudget
    ensures StopsFirstAt(durations, MinIterations)
  {
    ConstantPrefixSum(durations, d, MinIterations);
  }

  /** The example of a 1.1-second call: exactly 50 iterations. */
  lemma SlowCallStopsAtFifty(durations: seq<real>)
    requires |durations| >= MinIterations
    requires forall i :: 0 <= i < |durations| ==> durations[i] == 1.1
    ensures StopsFirstAt(durations, 50)
  {
    ConstantSlowDurationsStopAtFloor(durations, 1.1);
  }

  /** Facts every valid result carries: at least one and at most 1000 samples,
      a non-negative variance, and a mean between the extreme samples. */
  lemma ValidResultFacts(r: BenchmarkResult)
    requires ValidResult(r)
    ensures 1 <= r.numIterations <= MaxIterations
    ensures r.variance >= 0.0
    ensures Min(r.times) <= r.mean <= Max(r.times)
  {
    StopBounds(r.times, r.numIterations);
    VarianceNonNegative(r.times, r.mean);
    MeanBetweenMinAndMax(r.times);
  }
}
