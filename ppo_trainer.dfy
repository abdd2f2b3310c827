/**
 * The discrete and algebraic skeleton of the PPO update: the per-sample
 * clipped surrogate and clipped value loss, the weighted total loss, the
 * slicing of a shuffled index sequence into mini-batches, and the averaging of
 * per-batch statistics over every mini-batch step of every epoch.
 *
 * What the policy network computes for a mini-batch (the probability ratio,
 * the value estimate and the entropy of each sample) is a caller-supplied
 * function of the update step and the sample; the gradient step itself is not
 * modelled.
 */
module Trainer {
  import Rollout

  function Min(a: real, b: real): real
  {
    if a <= b then a else b
  }

  function Max(a: real, b: real): real
  {
    if a >= b then a else b
  }

  function MinNat(a: nat, b: nat): nat
  {
    if a <= b then a else b
  }

  function Square(x: real): real
  {
    x * x
  }

  lemma MulLeft(c: real, x: real, y: real)
    requires c >= 0.0 && x <= y
    ensures c * x <= c * y
  {
  }

  lemma MulLeftStrict(c: real, x: real, y: real)
    requires c > 0.0 && x < y
    ensures c * x < c * y
  {
  }

  // ---------------------------------------------------------------------------
  // Per-sample losses

  /** Limits x to [lo, hi]: the larger of x and lo, then the smaller of that and hi. */
  function Clamp(x: real, lo: real, hi: real): (r: real)
    ensures lo <= hi ==> lo <= r <= hi
    ensures lo <= x <= hi ==> r == x
    ensures lo <= hi && x < lo ==> r == lo
    ensures x > hi ==> r == hi
  {
    Min(Max(x, lo), hi)
  }

  /** The clipped surrogate objective of one sample. */
  function Surrogate(ratio: real, advantage: real, eps: real): real
  {
    Min(ratio * advantage, Clamp(ratio, 1.0 - eps, 1.0 + eps) * advantage)
  }

  /** A ratio inside the trust region is not clipped. */
  lemma SurrogateInsideRange(ratio: real, advantage: real, eps: real)
    requires 1.0 - eps <= ratio <= 1.0 + eps
    ensures Surrogate(ratio, advantage, eps) == ratio * advantage
  {
  }

  /**
   * The surrogate is a pessimistic bound: never above the unclipped objective,
   * and never above the objective at the edge of the trust region on the side
   * the advantage favours.
   */
  lemma SurrogateBounds(ratio: real, advantage: real, eps: real)
    requires eps >= 0.0
    ensures Surrogate(ratio, advantage, eps) <= ratio * advantage
    ensures advantage >= 0.0 ==> Surrogate(ratio, advantage, eps) <= (1.0 + eps) * advantage
    ensures advantage < 0.0 ==> Surrogate(ratio, advantage, eps) <= (1.0 - eps) * advantage
  {
    var c := Clamp(ratio, 1.0 - eps, 1.0 + eps);
    if advantage >= 0.0 {
      MulLeft(advantage, c, 1.0 + eps);
      assert c * advantage <= (1.0 + eps) * advantage;
    } else {
      MulLeft(-advantage, 1.0 - eps, c);
      assert c * advantage <= (1.0 - eps) * advantage;
    }
  }

  /** A ratio pushed past the trust region in the favoured direction takes the clipped branch. */
  lemma SurrogateClippedBranch(ratio: real, advantage: real, eps: real)
    requires eps >= 0.0
    ensures advantage > 0.0 && ratio > 1.0 + eps ==> Surrogate(ratio, advantage, eps) == (1.0 + eps) * advantage
    ensures advantage < 0.0 && ratio < 1.0 - eps ==> Surrogate(ratio, advantage, eps) == (1.0 - eps) * advantage
  {
    if advantage > 0.0 && ratio > 1.0 + eps {
      MulLeftStrict(advantage, 1.0 + eps, ratio);
      assert (1.0 + eps) * advantage < ratio * advantage;
    }
    if advantage < 0.0 && ratio < 1.0 - eps {
      MulLeftStrict(-advantage, ratio, 1.0 - eps);
      assert (1.0 - eps) * advantage < ratio * advantage;
    }
  }

  /** The new value estimate moved at most eps away from the old one. */
  function ClippedValue(value: real, oldValue: real, eps: real): (r: real)
    ensures eps >= 0.0 ==> oldValue - eps <= r <= oldValue + eps
    ensures -eps <= value - oldValue <= eps ==> r == value
  {
    oldValue + Clamp(value - oldValue, -eps, eps)
  }

  /** The clipped value loss of one sample: the larger of the two squared errors. */
  function SampleValueLoss(value: real, oldValue: real, ret: real, eps: real): real
  {
    Max(Square(value - ret), Square(ClippedValue(value, oldValue, eps) - ret))
  }

  /**
   * The clipped value loss never falls below the plain squared error, and
   * equals it when the new estimate stays within eps of the old one.
   */
  lemma SampleValueLossBounds(value: real, oldValue: real, ret: real, eps: real)
    ensures SampleValueLoss(value, oldValue, ret, eps) >= Square(value - ret)
    ensures -eps <= value - oldValue <= eps ==> SampleValueLoss(value, oldValue, ret, eps) == Square(value - ret)
  {
  }

  /** The loss the optimiser minimises. */
  function TotalLoss(policyLoss: real, valueLoss: real, entropyLoss: real, valueCoef: real, entropyCoef: real): real
  {
    policyLoss + valueCoef * valueLoss + entropyCoef * entropyLoss
  }

  /** The entropy term enters negated: a higher mean entropy lowers the loss. */
  lemma HigherEntropyLowersLoss(policyLoss: real, valueLoss: real, e1: real, e2: real, valueCoef: real, entropyCoef: real)
    requires entropyCoef > 0.0 && e1 < e2
    ensures TotalLoss(policyLoss, valueLoss, -e2, valueCoef, entropyCoef)
          < TotalLoss(policyLoss, valueLoss, -e1, valueCoef, entropyCoef)
  {
    MulLeftStrict(entropyCoef, -e2, -e1);
  }

  // ---------------------------------------------------------------------------
  // Sums and means

  function Sum(s: seq<real>): real
  {
    if s == [] then 0.0 else Sum(s[..|s| - 1]) + s[|s| - 1]
  }

  function Mean(s: seq<real>): real
    requires |s| > 0
  {
    Sum(s) / |s| as real
  }

  lemma SumSnoc(s: seq<real>, x: real)
    ensures Sum(s + [x]) == Sum(s) + x
  {
    assert (s + [x])[..|s|] == s;
  }

  lemma {:induction false} SumMonotone(a: seq<real>, b: seq<real>)
    requires |a| == |b|
    requires forall k :: 0 <= k < |a| ==> a[k] <= b[k]
    ensures Sum(a) <= Sum(b)
  {
    if a != [] {
      SumMonotone(a[..|a| - 1], b[..|b| - 1]);
    }
  }

  lemma {:induction false} SumBounds(s: seq<real>, lo: real, hi: real)
    requires forall k :: 0 <= k < |s| ==> lo <= s[k] <= hi
    ensures |s| as real * lo <= Sum(s) <= |s| as real * hi
  {
    if s != [] {
      SumBounds(s[..|s| - 1], lo, hi);
      assert |s| as real * lo == (|s| - 1) as real * lo + lo;
      assert |s| as real * hi == (|s| - 1) as real * hi + hi;
    }
  }

  /** A mean lies between any bounds of its terms. */
  lemma MeanBounds(s: seq<real>, lo: real, hi: real)
    requires |s| > 0
    requires forall k :: 0 <= k < |s| ==> lo <= s[k] <= hi
    ensures lo <= Mean(s) <= hi
  {
    SumBounds(s, lo, hi);
    var c := |s| as real;
    assert Mean(s) * c == Sum(s);
    if Mean(s) < lo {
      MulLeftStrict(c, Mean(s), lo);
    }
    if Mean(s) > hi {
      MulLeftStrict(c, hi, Mean(s));
    }
  }

  lemma MeanMonotone(a: seq<real>, b: seq<real>)
    requires |a| == |b| > 0
    requires forall k :: 0 <= k < |a| ==> a[k] <= b[k]
    ensures Mean(a) <= Mean(b)
  {
    SumMonotone(a, b);
  }

  // ---------------------------------------------------------------------------
  // Mini-batch losses

  /** What the policy yields for one sample: exp(new log-prob - old log-prob), the value, the entropy. */
  datatype SampleEval = SampleEval(ratio: real, value: real, entropy: real)

  /** The per-transition targets: returns, (normalised) advantages, and the values at collection time. */
  datatype Targets = Targets(rets: seq<real>, advantages: seq<real>, oldValues: seq<real>)

  datatype Coefficients = Coefficients(clipEpsilon: real, valueCoef: real, entropyCoef: real)

  /** The statistics of one mini-batch step, and the loss it minimises. */
  datatype Losses = Losses(policyLoss: real, valueLoss: real, entropy: real, loss: real)

  predicate TargetsFor(t: Targets, n: nat)
  {
    |t.rets| == n && |t.advantages| == n && |t.oldValues| == n
  }

  /** A mini-batch is a non-empty sequence of transition indices below n. */
  predicate ValidBatch(batch: seq<nat>, n: nat)
  {
    |batch| > 0 && forall j :: 0 <= j < |batch| ==> batch[j] < n
  }

  predicate ValidBatches(schedule: seq<seq<nat>>, n: nat)
  {
    forall k :: 0 <= k < |schedule| ==> ValidBatch(schedule[k], n)
  }

  function Surrogates(batch: seq<nat>, evaluate: (nat, nat) -> SampleEval, k: nat, t: Targets, c: Coefficients): (s: seq<real>)
    requires ValidBatch(batch, |t.advantages|)
    ensures |s| == |batch|
  {
    seq(|batch|, j requires 0 <= j < |batch| => Surrogate(evaluate(k, batch[j]).ratio, t.advantages[batch[j]], c.clipEpsilon))
  }

  function UnclippedObjectives(batch: seq<nat>, evaluate: (nat, nat) -> SampleEval, k: nat, t: Targets): (s: seq<real>)
    requires ValidBatch(batch, |t.advantages|)
    ensures |s| == |batch|
  {
    seq(|batch|, j requires 0 <= j < |batch| => evaluate(k, batch[j]).ratio * t.advantages[batch[j]])
  }

  function ValueLosses(batch: seq<nat>, evaluate: (nat, nat) -> SampleEval, k: nat, t: Targets, c: Coefficients): (s: seq<real>)
    requires ValidBatch(batch, |t.rets|) && TargetsFor(t, |t.rets|)
    ensures |s| == |batch|
  {
    seq(|batch|, j requires 0 <= j < |batch| =>
      SampleValueLoss(evaluate(k, batch[j]).value, t.oldValues[batch[j]], t.rets[batch[j]], c.clipEpsilon))
  }

  function Entropies(batch: seq<nat>, evaluate: (nat, nat) -> SampleEval, k: nat): (s: seq<real>)
    ensures |s| == |batch|
  {
    seq(|batch|, j requires 0 <= j < |batch| => evaluate(k, batch[j]).entropy)
  }

  /**
   * The losses of the k-th mini-batch step: the negated mean surrogate, the
   * mean clipped value loss, the mean entropy and their weighted total.
   */
  function BatchLosses(batch: seq<nat>, evaluate: (nat, nat) -> SampleEval, k: nat, t: Targets, c: Coefficients): Losses
    requires TargetsFor(t, |t.rets|) && ValidBatch(batch, |t.rets|)
  {
    var policyLoss := -Mean(Surrogates(batch, evaluate, k, t, c));
    var valueLoss := Mean(ValueLosses(batch, evaluate, k, t, c));
    var entropy := Mean(Entropies(batch, evaluate, k));
    Losses(policyLoss, valueLoss, entropy, TotalLoss(policyLoss, valueLoss, -entropy, c.valueCoef, c.entropyCoef))
  }

  /**
   * The batch policy loss is at least the negated mean unclipped objective, and
   * the batch value loss at least the mean plain squared error.
   */
  lemma BatchLossesPessimistic(batch: seq<nat>, evaluate: (nat, nat) -> SampleEval, k: nat, t: Targets, c: Coefficients)
    requires TargetsFor(t, |t.rets|) && ValidBatch(batch, |t.rets|)
    requires c.clipEpsilon >= 0.0
    ensures BatchLosses(batch, evaluate, k, t, c).policyLoss >= -Mean(UnclippedObjectives(batch, evaluate, k, t))
    ensures BatchLosses(batch, evaluate, k, t, c).valueLoss
         >= Mean(seq(|batch|, j requires 0 <= j < |batch| => Square(evaluate(k, batch[j]).value - t.rets[batch[j]])))
  {
    var surrogates := Surrogates(batch, evaluate, k, t, c);
    var unclipped := UnclippedObjectives(batch, evaluate, k, t);
    forall j | 0 <= j < |batch|
      ensures surrogates[j] <= unclipped[j]
    {
      SurrogateBounds(evaluate(k, batch[j]).ratio, t.advantages[batch[j]], c.clipEpsilon);
    }
    MeanMonotone(surrogates, unclipped);
    var squared := seq(|batch|, j requires 0 <= j < |batch| => Square(evaluate(k, batch[j]).value - t.rets[batch[j]]));
    var valueLosses := ValueLosses(batch, evaluate, k, t, c);
    forall j | 0 <= j < |batch|
      ensures squared[j] <= valueLosses[j]
    {
      SampleValueLossBounds(evaluate(k, batch[j]).value, t.oldValues[batch[j]], t.rets[batch[j]], c.clipEpsilon);
    }
    MeanMonotone(squared, valueLosses);
  }

  // ---------------------------------------------------------------------------
  // Mini-batch slicing

  /** The number of start indices of `range(0, n, batchSize)`: n / batchSize rounded up. */
  function NumBatches(n: nat, batchSize: nat): nat
    requires batchSize > 0
  {
    (n + batchSize - 1) / batchSize
  }

  lemma NumBatchesBounds(n: nat, batchSize: nat)
    requires batchSize > 0
    ensures n <= NumBatches(n, batchSize) * batchSize < n + batchSize
  {
    var q, r := (n + batchSize - 1) / batchSize, (n + batchSize - 1) % batchSize;
    assert n + batchSize - 1 == q * batchSize + r;
  }

  lemma MulMonotone(a: nat, b: nat, c: nat)
    requires a <= b
    ensures a * c <= b * c
  {
  }

  lemma MulSuccessor(j: nat, c: nat)
    ensures (j + 1) * c == j * c + c
  {
  }

  /** A count q with n <= q * batchSize < n + batchSize is the batch count. */
  lemma NumBatchesUnique(n: nat, batchSize: nat, q: nat)
    requires batchSize > 0
    requires n <= q * batchSize < n + batchSize
    ensures NumBatches(n, batchSize) == q
  {
    var nb := NumBatches(n, batchSize);
    NumBatchesBounds(n, batchSize);
    if nb < q {
      MulMonotone(nb + 1, q, batchSize);
      MulSuccessor(nb, batchSize);
    } else if nb > q {
      MulMonotone(q + 1, nb, batchSize);
      MulSuccessor(q, batchSize);
    }
  }

  /**
   * The mini-batches of an index order: the slice `s[start : min(start +
   * batchSize, n)]` at start 0, then the mini-batches of what follows it.
   */
  function Chunks<T>(s: seq<T>, batchSize: nat): seq<seq<T>>
    requires batchSize > 0
    decreases |s|
  {
    if s == [] then []
    else [s[..MinNat(batchSize, |s|)]] + Chunks(s[MinNat(batchSize, |s|)..], batchSize)
  }

  /** There is one mini-batch per start index of `range(0, n, batchSize)`. */
  lemma {:induction false} ChunkCount<T>(s: seq<T>, batchSize: nat)
    requires batchSize > 0
    ensures |Chunks(s, batchSize)| == NumBatches(|s|, batchSize)
    decreases |s|
  {
    if s == [] {
    } else if |s| <= batchSize {
      assert s[|s|..] == [];
      NumBatchesUnique(|s|, batchSize, 1);
    } else {
      var rest := s[batchSize..];
      ChunkCount(rest, batchSize);
      var q := NumBatches(|rest|, batchSize);
      NumBatchesBounds(|rest|, batchSize);
      MulSuccessor(q, batchSize);
      NumBatchesUnique(|s|, batchSize, q + 1);
    }
  }

  /** The k-th mini-batch is the slice starting at k * batchSize. */
  lemma {:induction false} ChunkAt<T>(s: seq<T>, batchSize: nat, k: nat)
    requires batchSize > 0
    requires k < |Chunks(s, batchSize)|
    ensures k * batchSize < |s|
    ensures Chunks(s, batchSize)[k] == s[k * batchSize .. MinNat(k * batchSize + batchSize, |s|)]
    decreases |s|
  {
    var m := MinNat(batchSize, |s|);
    if k > 0 {
      var rest := s[m..];
      assert Chunks(s, batchSize)[k] == Chunks(rest, batchSize)[k - 1];
      ChunkAt(rest, batchSize, k - 1);
      MulSuccessor(k - 1, batchSize);
      ShiftedSlice(s, batchSize, (k - 1) * batchSize, k * batchSize);
    }
  }

  /** A slice of the suffix after the first batch, written as a slice of the whole. */
  lemma ShiftedSlice<T>(s: seq<T>, batchSize: nat, a: nat, a': nat)
    requires batchSize < |s| && a' == batchSize + a && a < |s| - batchSize
    ensures s[batchSize..][a .. MinNat(a + batchSize, |s| - batchSize)] == s[a' .. MinNat(a' + batchSize, |s|)]
  {
  }

  /** Every mini-batch is non-empty and at most batchSize long; all but the last are exactly batchSize long. */
  lemma {:induction false} ChunkSizes<T>(s: seq<T>, batchSize: nat)
    requires batchSize > 0
    ensures var r := Chunks(s, batchSize);
      forall k :: 0 <= k < |r| ==>
        && 0 < |r[k]| <= batchSize
        && (k < |r| - 1 ==> |r[k]| == batchSize)
    decreases |s|
  {
    if s != [] {
      var m := MinNat(batchSize, |s|);
      ChunkSizes(s[m..], batchSize);
      var r := Chunks(s, batchSize);
      forall k | 0 <= k < |r|
        ensures 0 < |r[k]| <= batchSize
        ensures k < |r| - 1 ==> |r[k]| == batchSize
      {
        if k > 0 {
          assert r[k] == Chunks(s[m..], batchSize)[k - 1];
        } else if |r| > 1 {
          assert s[m..] != [];
        }
      }
    }
  }

  /** The concatenation of a sequence of sequences. */
  function Flatten<T>(ss: seq<seq<T>>): seq<T>
  {
    if ss == [] then [] else ss[0] + Flatten(ss[1..])
  }

  /**
   * The mini-batches partition the index order: concatenated in order they give
   * it back, so every position is covered exactly once.
   */
  lemma {:induction false} ChunksPartition<T>(s: seq<T>, batchSize: nat)
    requires batchSize > 0
    ensures Flatten(Chunks(s, batchSize)) == s
    decreases |s|
  {
    if s != [] {
      var m := MinNat(batchSize, |s|);
      var r := Chunks(s, batchSize);
      ChunksPartition(s[m..], batchSize);
      assert r[1..] == Chunks(s[m..], batchSize);
      assert s[..m] + s[m..] == s;
    }
  }

  /** Taking the mini-batch at start turns the chunks of s[start..] into that batch and the chunks after it. */
  lemma ChunksFrom<T>(s: seq<T>, batchSize: nat, start: nat)
    requires batchSize > 0
    requires start < |s|
    ensures Chunks(s[start..], batchSize)
         == [s[start .. MinNat(start + batchSize, |s|)]] + Chunks(s[MinNat(start + batchSize, |s|)..], batchSize)
  {
    var rest := s[start..];
    var m := MinNat(batchSize, |rest|);
    assert rest[..m] == s[start .. MinNat(start + batchSize, |s|)];
    assert rest[m..] == s[MinNat(start + batchSize, |s|)..];
  }

  // ---------------------------------------------------------------------------
  // The schedule of mini-batch steps

  /** A shuffled index sequence: a permutation of 0 .. n-1. */
  predicate IsPermutation(p: seq<nat>, n: nat)
  {
    && |p| == n
    && (forall i :: 0 <= i < n ==> p[i] < n)
    && (forall i, j :: 0 <= i < j < n ==> p[i] != p[j])
  }

  /** Every mini-batch of every epoch, in the order they are processed. */
  function Schedule(perms: seq<seq<nat>>, batchSize: nat): seq<seq<nat>>
    requires batchSize > 0
  {
    if perms == [] then [] else Schedule(perms[..|perms| - 1], batchSize) + Chunks(perms[|perms| - 1], batchSize)
  }

  /** The number of mini-batch steps: epochs times the slices per epoch. */
  lemma {:induction false} ScheduleLength(perms: seq<seq<nat>>, batchSize: nat, n: nat)
    requires batchSize > 0
    requires forall e :: 0 <= e < |perms| ==> |perms[e]| == n
    ensures |Schedule(perms, batchSize)| == |perms| * NumBatches(n, batchSize)
  {
    if perms != [] {
      ScheduleLength(perms[..|perms| - 1], batchSize, n);
      ChunkCount(perms[|perms| - 1], batchSize);
      MulSuccessor(|perms| - 1, NumBatches(n, batchSize));
    }
  }

  /** The losses of every mini-batch step, the k-th evaluated by the policy after k optimiser steps. */
  function UpdateLosses(schedule: seq<seq<nat>>, evaluate: (nat, nat) -> SampleEval, t: Targets, c: Coefficients): (ls: seq<Losses>)
    requires TargetsFor(t, |t.rets|)
    requires ValidBatches(schedule, |t.rets|)
    ensures |ls| == |schedule|
  {
    seq(|schedule|, k requires 0 <= k < |schedule| => BatchLosses(schedule[k], evaluate, k, t, c))
  }

  /** The statistics an update reports. */
  datatype Stats = Stats(policyLoss: real, valueLoss: real, entropy: real)

  function PolicyLosses(ls: seq<Losses>): (s: seq<real>)
    ensures |s| == |ls|
  {
    seq(|ls|, k requires 0 <= k < |ls| => ls[k].policyLoss)
  }

  function ValueLossesOf(ls: seq<Losses>): (s: seq<real>)
    ensures |s| == |ls|
  {
    seq(|ls|, k requires 0 <= k < |ls| => ls[k].valueLoss)
  }

  function EntropiesOf(ls: seq<Losses>): (s: seq<real>)
    ensures |s| == |ls|
  {
    seq(|ls|, k requires 0 <= k < |ls| => ls[k].entropy)
  }

  /** Each statistic averaged over all mini-batch steps. */
  function Average(ls: seq<Losses>): Stats
    requires |ls| > 0
  {
    Stats(Mean(PolicyLosses(ls)), Mean(ValueLossesOf(ls)), Mean(EntropiesOf(ls)))
  }

  /** The running sums of each statistic over the steps so far. */
  function Totals(ls: seq<Losses>): Stats
  {
    Stats(Sum(PolicyLosses(ls)), Sum(ValueLossesOf(ls)), Sum(EntropiesOf(ls)))
  }

  function Accumulate(totals: Stats, l: Losses): Stats
  {
    Stats(totals.policyLoss + l.policyLoss, totals.valueLoss + l.valueLoss, totals.entropy + l.entropy)
  }

  /**
   * The running sums as the update accumulates them, one mini-batch step at a
   * time, step k evaluated after k optimiser steps.
   */
  function RunningTotals(schedule: seq<seq<nat>>, evaluate: (nat, nat) -> SampleEval, t: Targets, c: Coefficients): Stats
    requires TargetsFor(t, |t.rets|) && ValidBatches(schedule, |t.rets|)
  {
    if schedule == [] then Stats(0.0, 0.0, 0.0)
    else
      var k := |schedule| - 1;
      Accumulate(RunningTotals(schedule[..k], evaluate, t, c), BatchLosses(schedule[k], evaluate, k, t, c))
  }

  /** Accumulating step by step gives the sums of the per-step statistics. */
  lemma {:induction false} RunningTotalsAreSums(schedule: seq<seq<nat>>, evaluate: (nat, nat) -> SampleEval, t: Targets, c: Coefficients)
    requires TargetsFor(t, |t.rets|) && ValidBatches(schedule, |t.rets|)
    ensures RunningTotals(schedule, evaluate, t, c) == Totals(UpdateLosses(schedule, evaluate, t, c))
  {
    if schedule != [] {
      var k := |schedule| - 1;
      RunningTotalsAreSums(schedule[..k], evaluate, t, c);
      assert schedule[..k] + [schedule[k]] == schedule;
      UpdateLossesSnoc(schedule[..k], schedule[k], evaluate, t, c);
    }
  }

  /** Each reported statistic lies between the smallest and largest per-batch value. */
  lemma AverageWithinBatchRange(ls: seq<Losses>, lo: real, hi: real)
    requires |ls| > 0
    requires forall k :: 0 <= k < |ls| ==> lo <= ls[k].policyLoss <= hi
    ensures lo <= Average(ls).policyLoss <= hi
  {
    MeanBounds(PolicyLosses(ls), lo, hi);
  }

  /** The entropy statistic is non-negative when every sample's entropy is. */
  lemma AverageEntropyNonNegative(ls: seq<Losses>)
    requires |ls| > 0
    requires forall k :: 0 <= k < |ls| ==> ls[k].entropy >= 0.0
    ensures Average(ls).entropy >= 0.0
  {
    var e := EntropiesOf(ls);
    SumMonotone(seq(|e|, _ => 0.0), e);
    assert Sum(seq(|e|, _ => 0.0)) == 0.0 by {
      SumBounds(seq(|e|, _ => 0.0), 0.0, 0.0);
    }
  }

  // ---------------------------------------------------------------------------
  // The trainer

  /**
   * The targets an update trains on: GAE advantages of the buffer, returns as
   * advantages plus values, the normalised advantages and the stored values.
   */
  function TrainingTargets(rewards: seq<real>, values: seq<real>, dones: seq<bool>, gamma: real, gaeLambda: real,
                           normalize: seq<real> -> seq<real>): (t: Targets)
    requires Rollout.SameLength(rewards, values, dones)
    requires forall a: seq<real> :: |normalize(a)| == |a|
    ensures TargetsFor(t, |rewards|)
  {
    var advantages := Rollout.Advantages(rewards, values, dones, gamma, gaeLambda);
    Targets(Rollout.ReturnsOf(advantages, values), normalize(advantages), values)
  }

  /** One more epoch appends its mini-batches to the schedule. */
  lemma ScheduleSnoc(perms: seq<seq<nat>>, batchSize: nat, e: nat)
    requires batchSize > 0 && e < |perms|
    ensures Schedule(perms[..e + 1], batchSize) == Schedule(perms[..e], batchSize) + Chunks(perms[e], batchSize)
  {
    assert perms[..e + 1][..e] == perms[..e];
  }

  /** With at least one epoch and one transition there is at least one mini-batch step. */
  lemma ScheduleNonEmpty(epochs: nat, n: nat, batchSize: nat)
    requires batchSize > 0 && epochs > 0 && n > 0
    ensures epochs * NumBatches(n, batchSize) > 0
  {
    NumBatchesBounds(n, batchSize);
    MulMonotone(1, epochs, NumBatches(n, batchSize));
  }

  /** Dividing the running totals by the number of steps gives the averages of the per-step statistics. */
  lemma RunningAverage(schedule: seq<seq<nat>>, evaluate: (nat, nat) -> SampleEval, t: Targets, c: Coefficients)
    requires TargetsFor(t, |t.rets|) && ValidBatches(schedule, |t.rets|) && |schedule| > 0
    ensures var r := RunningTotals(schedule, evaluate, t, c);
      var m := |schedule| as real;
      Stats(r.policyLoss / m, r.valueLoss / m, r.entropy / m) == Average(UpdateLosses(schedule, evaluate, t, c))
  {
    RunningTotalsAreSums(schedule, evaluate, t, c);
  }

  class PPOTrainer {
    const lr: real             // used only by the optimiser, which is not modelled
    const gamma: real
    const gaeLambda: real
    const clipEpsilon: real
    const valueCoef: real
    const entropyCoef: real
    const maxGradNorm: real    // used only by gradient clipping, which is not modelled
    const updateEpochs: int
    const batchSize: int

    constructor(lr: real := 0.0003, gamma: real := 0.99, gaeLambda: real := 0.95, clipEpsilon: real := 0.2,
                valueCoef: real := 0.5, entropyCoef: real := 0.01, maxGradNorm: real := 0.5,
                updateEpochs: int := 4, batchSize: int := 64)
      ensures this.lr == lr && this.gamma == gamma && this.gaeLambda == gaeLambda
      ensures this.clipEpsilon == clipEpsilon && this.valueCoef == valueCoef && this.entropyCoef == entropyCoef
      ensures this.maxGradNorm == maxGradNorm && this.updateEpochs == updateEpochs && this.batchSize == batchSize
    {
      this.lr := lr;
      this.gamma := gamma;
      this.gaeLambda := gaeLambda;
      this.clipEpsilon := clipEpsilon;
      this.valueCoef := valueCoef;
      this.entropyCoef := entropyCoef;
      this.maxGradNorm := maxGradNorm;
      this.updateEpochs := updateEpochs;
      this.batchSize := batchSize;
    }

    function Coeffs(): Coefficients
    {
      Coefficients(clipEpsilon, valueCoef, entropyCoef)
    }

    /**
     * One PPO update over the buffer. `perms[e]` is the shuffled index order of
     * epoch e; `evaluate(k, i)` is what the policy, after k optimiser steps of
     * this update, yields for transition i; `normalize` stands for the
     * advantage normalisation. The statistics are the averages over every
     * mini-batch step of the per-batch policy loss, value loss and entropy.
     */
    method Update(buffer: Rollout.RolloutBuffer, perms: seq<seq<nat>>,
                  evaluate: (nat, nat) -> SampleEval, normalize: seq<real> -> seq<real>)
      returns (stats: Stats)
      requires buffer.Valid()
      requires buffer.Len() > 0 && updateEpochs > 0 && batchSize > 0
      requires |perms| == updateEpochs
      requires forall e :: 0 <= e < |perms| ==> IsPermutation(perms[e], buffer.Len())
      requires forall a: seq<real> :: |normalize(a)| == |a|
      ensures |Schedule(perms, batchSize)| == updateEpochs * NumBatches(buffer.Len(), batchSize) > 0
      ensures ValidBatches(Schedule(perms, batchSize), buffer.Len())
      ensures stats == Average(UpdateLosses(Schedule(perms, batchSize), evaluate,
                         TrainingTargets(buffer.rewards, buffer.values, buffer.dones, gamma, gaeLambda, normalize), Coeffs()))
    {
      var batch := buffer.Get();
      var rets, rawAdvantages := buffer.ComputeReturnsAndAdvantages(gamma, gaeLambda);
      var advantages := normalize(rawAdvantages);
      var n := |batch.states|;
      assert rets == Rollout.ReturnsOf(rawAdvantages, buffer.values);
      assert batch.values == buffer.values;
      var targets := Targets(rets, advantages, batch.values);
      assert targets == TrainingTargets(buffer.rewards, buffer.values, buffer.dones, gamma, gaeLambda, normalize);

      var totals := Stats(0.0, 0.0, 0.0);
      var numUpdates := 0;
      ghost var done: seq<seq<nat>> := [];

      var epoch := 0;
      while epoch < updateEpochs
        invariant 0 <= epoch <= updateEpochs
        invariant done == Schedule(perms[..epoch], batchSize)
        invariant numUpdates == |done|
        invariant ValidBatches(done, n)
        invariant totals == RunningTotals(done, evaluate, targets, Coeffs())
      {
        var indices := perms[epoch];
        totals, numUpdates, done := RunEpoch(indices, evaluate, targets, totals, numUpdates, done);
        ScheduleSnoc(perms, batchSize, epoch);
        epoch := epoch + 1;
      }
      assert perms[..epoch] == perms;
      ScheduleLength(perms, batchSize, n);
      ScheduleNonEmpty(|perms|, n, batchSize);
      RunningAverage(done, evaluate, targets, Coeffs());

      stats := Stats(totals.policyLoss / numUpdates as real, totals.valueLoss / numUpdates as real,
                     totals.entropy / numUpdates as real);
    }

    /**
     * One mini-batch step: evaluates the batch with the policy after
     * `numUpdates0` optimiser steps, computes its losses and adds its
     * statistics to the running totals.
     */
    method TrainBatch(batchIndices: seq<nat>, evaluate: (nat, nat) -> SampleEval, targets: Targets,
                      totals0: Stats, numUpdates0: nat, ghost done: seq<seq<nat>>)
      returns (totals: Stats, numUpdates: nat)
      requires TargetsFor(targets, |targets.rets|)
      requires ValidBatch(batchIndices, |targets.rets|) && ValidBatches(done, |targets.rets|)
      requires numUpdates0 == |done|
      requires totals0 == RunningTotals(done, evaluate, targets, Coeffs())
      ensures ValidBatches(done + [batchIndices], |targets.rets|)
      ensures numUpdates == |done + [batchIndices]|
      ensures totals == RunningTotals(done + [batchIndices], evaluate, targets, Coeffs())
    {
      var losses := BatchLosses(batchIndices, evaluate, numUpdates0, targets, Coeffs());
      totals := Accumulate(totals0, losses);
      numUpdates := numUpdates0 + 1;
      assert (done + [batchIndices])[..|done|] == done;
    }

    /** The mini-batch loop of one epoch over the shuffled indices. */
    method RunEpoch(indices: seq<nat>, evaluate: (nat, nat) -> SampleEval, targets: Targets,
                    totals0: Stats, updates0: nat, ghost done0: seq<seq<nat>>)
      returns (totals: Stats, numUpdates: nat, ghost done: seq<seq<nat>>)
      requires batchSize > 0
      requires TargetsFor(targets, |targets.rets|)
      requires IsPermutation(indices, |targets.rets|)
      requires updates0 == |done0|
      requires ValidBatches(done0, |targets.rets|)
      requires totals0 == RunningTotals(done0, evaluate, targets, Coeffs())
      ensures done == done0 + Chunks(indices, batchSize)
      ensures numUpdates == |done|
      ensures ValidBatches(done, |targets.rets|)
      ensures totals == RunningTotals(done, evaluate, targets, Coeffs())
    {
      var n := |indices|;
      totals, numUpdates, done := totals0, updates0, done0;
      var startIdx := 0;
      ghost var pos := 0;
      while startIdx < n
        invariant pos == MinNat(startIdx, n)
        invariant done0 + Chunks(indices, batchSize) == done + Chunks(indices[pos..], batchSize)
        invariant numUpdates == |done|
        invariant ValidBatches(done, n)
        invariant totals == RunningTotals(done, evaluate, targets, Coeffs())
        decreases n - startIdx
      {
        var endIdx := MinNat(startIdx + batchSize, n);
        var batchIndices := indices[startIdx..endIdx];
        EpochStep(indices, batchSize, startIdx, endIdx, done0, done);
        totals, numUpdates := TrainBatch(batchIndices, evaluate, targets, totals, numUpdates, done);
        done := done + [batchIndices];
        startIdx := startIdx + batchSize;
        pos := endIdx;
      }
      assert indices[pos..] == [];
    }
  }

  /** One iteration of the mini-batch loop: the batch at start is the next one of the epoch and is valid. */
  lemma EpochStep(indices: seq<nat>, batchSize: nat, start: nat, end: nat, done0: seq<seq<nat>>, done: seq<seq<nat>>)
    requires batchSize > 0
    requires IsPermutation(indices, |indices|)
    requires start < |indices| && end == MinNat(start + batchSize, |indices|)
    requires done0 + Chunks(indices, batchSize) == done + Chunks(indices[start..], batchSize)
    ensures done0 + Chunks(indices, batchSize) == (done + [indices[start..end]]) + Chunks(indices[end..], batchSize)
    ensures ValidBatch(indices[start..end], |indices|)
  {
    ChunksFrom(indices, batchSize, start);
    ConcatAssociative(done, [indices[start..end]], Chunks(indices[end..], batchSize));
  }

  lemma ConcatAssociative<T>(a: seq<T>, b: seq<T>, c: seq<T>)
    ensures a + (b + c) == (a + b) + c
  {
  }

  /** Appending a mini-batch step appends its losses to each statistic's sequence. */
  lemma UpdateLossesSnoc(done: seq<seq<nat>>, b: seq<nat>, evaluate: (nat, nat) -> SampleEval, t: Targets, c: Coefficients)
    requires TargetsFor(t, |t.rets|)
    requires ValidBatches(done, |t.rets|)
    requires ValidBatch(b, |t.rets|)
    ensures Totals(UpdateLosses(done + [b], evaluate, t, c))
         == Accumulate(Totals(UpdateLosses(done, evaluate, t, c)), BatchLosses(b, evaluate, |done|, t, c))
  {
    var before := UpdateLosses(done, evaluate, t, c);
    var after := UpdateLosses(done + [b], evaluate, t, c);
    var l := BatchLosses(b, evaluate, |done|, t, c);
    assert after == before + [l];
    assert PolicyLosses(after) == PolicyLosses(before) + [l.policyLoss];
    assert ValueLossesOf(after) == ValueLossesOf(before) + [l.valueLoss];
    assert EntropiesOf(after) == EntropiesOf(before) + [l.entropy];
    SumSnoc(PolicyLosses(before), l.policyLoss);
    SumSnoc(ValueLossesOf(before), l.valueLoss);
    SumSnoc(EntropiesOf(before), l.entropy);
  }
}
