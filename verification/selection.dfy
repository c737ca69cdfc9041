/**
  What the ε-greedy and UCB selectors share: the greedy scan that keeps a running
  maximum started at 0.0 and replaces it on `>=`, and the incremental sample-mean
  update Q + (1/n)(R - Q).
 */
module Selection {

  /**
    The (max, max_index) pair after the selectors' loop has scanned `scores` in
    ascending order, starting from max = 0.0, max_index = 0 and taking score i
    whenever score i >= max.
   */
  function RunningMax(scores: seq<real>): (best: (real, nat))
    ensures best.0 >= 0.0
    ensures forall j :: 0 <= j < |scores| ==> scores[j] <= best.0
    ensures (forall j :: 0 <= j < |scores| ==> scores[j] < 0.0) ==> best == (0.0, 0)
    ensures (exists j :: 0 <= j < |scores| && scores[j] >= 0.0) ==>
              best.1 < |scores| && scores[best.1] == best.0 &&
              forall j :: best.1 < j < |scores| ==> scores[j] < best.0
  {
    if scores == [] then (0.0, 0)
    else
      var prev := RunningMax(scores[..|scores| - 1]);
      if scores[|scores| - 1] >= prev.0 then (scores[|scores| - 1], |scores| - 1) else prev
  }

  /**
    The index the greedy scan returns: the highest index holding the maximum score
    when that maximum is at least 0.0, and 0 when every score is negative.
   */
  function ArgMaxFromZero(scores: seq<real>): (index: nat)
    ensures |scores| == 0 ==> index == 0
    ensures |scores| > 0 ==> index < |scores|
    ensures (forall j :: 0 <= j < |scores| ==> scores[j] < 0.0) ==> index == 0
    ensures (exists j :: 0 <= j < |scores| && scores[j] >= 0.0) ==>
              (forall j :: 0 <= j < |scores| ==> scores[j] <= scores[index]) &&
              (forall j :: index < j < |scores| ==> scores[j] < scores[index])
  {
    RunningMax(scores).1
  }

  /** One step of the greedy scan, as the selectors' loop bodies perform it. */
  lemma RunningMaxStep(scores: seq<real>, i: nat)
    requires i < |scores|
    ensures RunningMax(scores[..i + 1]) ==
              var prev := RunningMax(scores[..i]);
              if scores[i] >= prev.0 then (scores[i], i) else prev
  {
    assert scores[..i + 1][..i] == scores[..i];
  }

  /**
    The incremental sample mean: the new estimate after a reward observed on the
    count-th visit. It moves the estimate towards the reward without passing it.
   */
  function IncrementalMean(estimate: real, reward: real, count: real): (r: real)
    requires count >= 1.0
    ensures count == 1.0 ==> r == reward
    ensures estimate <= reward ==> estimate <= r <= reward
    ensures reward <= estimate ==> reward <= r <= estimate
  {
    var step := 1.0 / count;
    StepIsFraction(count);
    ScaleBetween(step, if estimate <= reward then reward - estimate else estimate - reward);
    estimate + step * (reward - estimate)
  }

  lemma StepIsFraction(count: real)
    requires count >= 1.0
    ensures 0.0 < 1.0 / count <= 1.0
  {
    var step := 1.0 / count;
    assert step * count == 1.0;
    assert step * count >= step * 1.0;
  }

  lemma ScaleBetween(step: real, x: real)
    requires 0.0 < step <= 1.0 && 0.0 <= x
    ensures 0.0 <= step * x <= x
  {
    assert (1.0 - step) * x >= 0.0;
  }

  function Sum(rewards: seq<real>): real {
    if rewards == [] then 0.0 else Sum(rewards[..|rewards| - 1]) + rewards[|rewards| - 1]
  }

  /** The estimate after rewards[0], rewards[1], ... were fed to IncrementalMean with counts 1, 2, ..., starting from 0.0. */
  function RunningMean(rewards: seq<real>): real {
    if rewards == [] then 0.0
    else IncrementalMean(RunningMean(rewards[..|rewards| - 1]), rewards[|rewards| - 1], |rewards| as real)
  }

  /** n incremental updates with counts 1..n compute the average of the n rewards. */
  lemma {:induction false} RunningMeanIsAverage(rewards: seq<real>)
    requires |rewards| >= 1
    ensures RunningMean(rewards) == Sum(rewards) / |rewards| as real
  {
    ScaledRunningMean(rewards);
  }

  lemma {:induction false} ScaledRunningMean(rewards: seq<real>)
    ensures |rewards| as real * RunningMean(rewards) == Sum(rewards)
  {
    if rewards != [] {
      var prefix, x := rewards[..|rewards| - 1], rewards[|rewards| - 1];
      var n := |rewards| as real;
      var m := RunningMean(prefix);
      ScaledRunningMean(prefix);
      assert RunningMean(rewards) == m + (1.0 / n) * (x - m);
      ScaledStep(n, m, x);
    }
  }

  /** Scaling one incremental update by its count n: n * (m + (x - m) / n) == (n - 1) * m + x. */
  lemma ScaledStep(n: real, m: real, x: real)
    requires n >= 1.0
    ensures n * (m + (1.0 / n) * (x - m)) == (n - 1.0) * m + x
  {
    assert n * (1.0 / n) == 1.0;
    assert n * ((1.0 / n) * (x - m)) == (n * (1.0 / n)) * (x - m);
  }

  /** n updates with one and the same reward r, from an estimate of 0.0, leave the estimate at r. */
  lemma {:induction false} ConstantRewardsMean(rewards: seq<real>, r: real)
    requires forall i :: 0 <= i < |rewards| ==> rewards[i] == r
    requires |rewards| >= 1
    ensures RunningMean(rewards) == r
  {
    var prefix := rewards[..|rewards| - 1];
    if prefix != [] {
      ConstantRewardsMean(prefix, r);
    }
  }

  /**
    The exploration bonus of UCB1, sqrt(c * ln(N) / n), seen as a function of the
    confidence level c, the total number of actions N and the visit count n; the
    floating-point square root and logarithm are not modelled.
   */
  type Bonus = (real, nat, real) -> real

  /** The UCB score of one action: its estimate plus the exploration bonus. */
  function UcbScore(bonus: Bonus, confidenceLevel: real, totalActions: nat, estimate: real, count: real): real {
    estimate + bonus(confidenceLevel, totalActions, count)
  }
}
