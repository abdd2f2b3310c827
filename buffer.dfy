/**
 * The rollout buffer: six parallel, append-only sequences of transitions, and
 * Generalized Advantage Estimation (GAE) over them.
 *
 * GAE is specified by the recursion `Gae` over the per-step residuals and
 * decays (advantage at step t from the one at t + 1) and, independently, by the
 * closed form `DiscountedSum` (a sum of temporal-difference residuals weighted
 * by products of decays).
 * The buffer's backward loop is proved to compute the recursion, and the
 * recursion is proved equal to the closed form.
 */
module Rollout {

  /** `done` as the number the source subtracts from 1. */
  function AsReal(b: bool): real
  {
    if b then 1.0 else 0.0
  }

  predicate SameLength(rewards: seq<real>, values: seq<real>, dones: seq<bool>)
  {
    |values| == |rewards| && |dones| == |rewards|
  }

  /** The value bootstrapped after step t: the next value, or 0 at the last step. */
  function NextValue(values: seq<real>, t: nat): real
    requires t < |values|
  {
    if t == |values| - 1 then 0.0 else values[t + 1]
  }

  /** The temporal-difference residual at step t. */
  function Delta(rewards: seq<real>, values: seq<real>, dones: seq<bool>, gamma: real, t: nat): real
    requires SameLength(rewards, values, dones)
    requires t < |rewards|
  {
    rewards[t] + gamma * NextValue(values, t) * (1.0 - AsReal(dones[t])) - values[t]
  }

  /** The factor by which the advantage at t + 1 flows into the one at t. */
  function Decay(dones: seq<bool>, gamma: real, gaeLambda: real, t: nat): real
    requires t < |dones|
  {
    gamma * gaeLambda * (1.0 - AsReal(dones[t]))
  }

  /** The residual of every step. */
  function Deltas(rewards: seq<real>, values: seq<real>, dones: seq<bool>, gamma: real): (ds: seq<real>)
    requires SameLength(rewards, values, dones)
    ensures |ds| == |rewards|
  {
    seq(|rewards|, t requires 0 <= t < |rewards| => Delta(rewards, values, dones, gamma, t))
  }

  /** The decay of every step. */
  function Decays(dones: seq<bool>, gamma: real, gaeLambda: real): (cs: seq<real>)
    ensures |cs| == |dones|
  {
    seq(|dones|, t requires 0 <= t < |dones| => Decay(dones, gamma, gaeLambda, t))
  }

  /** The backward recursion over residuals and decays; 0 past the last step. */
  function Gae(deltas: seq<real>, decays: seq<real>, t: nat): real
    requires |decays| == |deltas|
    requires t <= |deltas|
    decreases |deltas| - t
  {
    if t == |deltas| then 0.0 else deltas[t] + decays[t] * Gae(deltas, decays, t + 1)
  }

  /** The GAE advantage at step t. */
  function Advantage(rewards: seq<real>, values: seq<real>, dones: seq<bool>,
                     gamma: real, gaeLambda: real, t: nat): real
    requires SameLength(rewards, values, dones)
    requires t <= |rewards|
  {
    Gae(Deltas(rewards, values, dones, gamma), Decays(dones, gamma, gaeLambda), t)
  }

  function Advantages(rewards: seq<real>, values: seq<real>, dones: seq<bool>,
                      gamma: real, gaeLambda: real): (adv: seq<real>)
    requires SameLength(rewards, values, dones)
    ensures |adv| == |rewards|
  {
    seq(|rewards|, t requires 0 <= t < |rewards| => Advantage(rewards, values, dones, gamma, gaeLambda, t))
  }

  /** The return of each step: its advantage plus its value estimate. */
  function ReturnsOf(advantages: seq<real>, values: seq<real>): (r: seq<real>)
    requires |values| == |advantages|
    ensures |r| == |advantages|
  {
    seq(|advantages|, t requires 0 <= t < |advantages| => advantages[t] + values[t])
  }

  /** The recursion step written per transition: residual plus decayed next advantage. */
  lemma AdvantageStep(rewards: seq<real>, values: seq<real>, dones: seq<bool>, gamma: real, gaeLambda: real, t: nat)
    requires SameLength(rewards, values, dones)
    requires t < |rewards|
    ensures Advantage(rewards, values, dones, gamma, gaeLambda, t)
         == Delta(rewards, values, dones, gamma, t)
            + Decay(dones, gamma, gaeLambda, t) * Advantage(rewards, values, dones, gamma, gaeLambda, t + 1)
  {
    var deltas, decays := Deltas(rewards, values, dones, gamma), Decays(dones, gamma, gaeLambda);
    assert deltas[t] == Delta(rewards, values, dones, gamma, t);
    assert decays[t] == Decay(dones, gamma, gaeLambda, t);
  }

  /** The end of the buffer: the advantage is 0 there. */
  lemma AdvantageAtEnd(rewards: seq<real>, values: seq<real>, dones: seq<bool>, gamma: real, gaeLambda: real)
    requires SameLength(rewards, values, dones)
    ensures Advantage(rewards, values, dones, gamma, gaeLambda, |rewards|) == 0.0
  {
  }

  // ---------------------------------------------------------------------------
  // The closed form

  /** The product of the decays of steps t .. k-1: the weight of residual k in the advantage at t. */
  function Weight(decays: seq<real>, t: nat, k: nat): real
    requires t <= k <= |decays|
    decreases k - t
  {
    if t == k then 1.0 else decays[t] * Weight(decays, t + 1, k)
  }

  /** The sum of Weight(t, k) * deltas[k] for k from t up to m - 1. */
  function DiscountedSum(deltas: seq<real>, decays: seq<real>, t: nat, m: nat): real
    requires |decays| == |deltas|
    requires t <= m <= |deltas|
    decreases m
  {
    if m == t then 0.0
    else DiscountedSum(deltas, decays, t, m - 1) + Weight(decays, t, m - 1) * deltas[m - 1]
  }

  /** Peeling the first residual off the discounted sum. */
  lemma {:induction false} DiscountedSumHead(deltas: seq<real>, decays: seq<real>, t: nat, m: nat)
    requires |decays| == |deltas|
    requires t < m <= |deltas|
    ensures DiscountedSum(deltas, decays, t, m) == deltas[t] + decays[t] * DiscountedSum(deltas, decays, t + 1, m)
    decreases m
  {
    if m > t + 1 {
      DiscountedSumHead(deltas, decays, t, m - 1);
      var c, a, w, d := decays[t], DiscountedSum(deltas, decays, t + 1, m - 1), Weight(decays, t + 1, m - 1), deltas[m - 1];
      assert Weight(decays, t, m - 1) == c * w;
      assert c * (a + w * d) == c * a + (c * w) * d;
    }
  }

  /** The recursion equals the discounted sum of the residuals up to the end. */
  lemma {:induction false} GaeClosedForm(deltas: seq<real>, decays: seq<real>, t: nat)
    requires |decays| == |deltas|
    requires t <= |deltas|
    ensures Gae(deltas, decays, t) == DiscountedSum(deltas, decays, t, |deltas|)
    decreases |deltas| - t
  {
    if t < |deltas| {
      GaeClosedForm(deltas, decays, t + 1);
      DiscountedSumHead(deltas, decays, t, |deltas|);
    }
  }

  /** The advantage at t is the sum over k >= t of residual k weighted by the decays of steps t .. k-1. */
  lemma AdvantageClosedForm(rewards: seq<real>, values: seq<real>, dones: seq<bool>,
                            gamma: real, gaeLambda: real, t: nat)
    requires SameLength(rewards, values, dones)
    requires t <= |rewards|
    ensures Advantage(rewards, values, dones, gamma, gaeLambda, t)
         == DiscountedSum(Deltas(rewards, values, dones, gamma), Decays(dones, gamma, gaeLambda), t, |rewards|)
  {
    GaeClosedForm(Deltas(rewards, values, dones, gamma), Decays(dones, gamma, gaeLambda), t);
  }

  // ---------------------------------------------------------------------------
  // Edge cases of the recursion

  /** At the last step nothing is bootstrapped, whatever the done flag. */
  lemma LastAdvantage(rewards: seq<real>, values: seq<real>, dones: seq<bool>, gamma: real, gaeLambda: real)
    requires SameLength(rewards, values, dones)
    requires |rewards| > 0
    ensures var t := |rewards| - 1;
      Advantage(rewards, values, dones, gamma, gaeLambda, t) == rewards[t] - values[t]
  {
    AdvantageStep(rewards, values, dones, gamma, gaeLambda, |rewards| - 1);
  }

  /** At a done step the advantage is the reward minus the value. */
  lemma DoneAdvantage(rewards: seq<real>, values: seq<real>, dones: seq<bool>, gamma: real, gaeLambda: real, t: nat)
    requires SameLength(rewards, values, dones)
    requires t < |rewards| && dones[t]
    ensures Advantage(rewards, values, dones, gamma, gaeLambda, t) == rewards[t] - values[t]
  {
    AdvantageStep(rewards, values, dones, gamma, gaeLambda, t);
  }

  /** A zero decay at step t cuts the recursion: nothing after t reaches the steps up to t. */
  lemma {:induction false} GaeCut(deltas: seq<real>, decays: seq<real>, t: nat, s: nat)
    requires |decays| == |deltas|
    requires s <= t < |deltas| && decays[t] == 0.0
    ensures Gae(deltas, decays, s) == Gae(deltas[..t + 1], decays[..t + 1], s)
    decreases t - s
  {
    if s < t {
      GaeCut(deltas, decays, t, s + 1);
    }
  }

  /**
   * A done flag at step t cuts the recursion: the advantages at steps up to t
   * are those of the trajectory truncated after t, so nothing recorded after
   * t reaches them.
   */
  lemma DoneCutsRecursion(rewards: seq<real>, values: seq<real>, dones: seq<bool>,
                          gamma: real, gaeLambda: real, t: nat, s: nat)
    requires SameLength(rewards, values, dones)
    requires t < |rewards| && dones[t]
    requires s <= t
    ensures Advantage(rewards, values, dones, gamma, gaeLambda, s)
         == Advantage(rewards[..t + 1], values[..t + 1], dones[..t + 1], gamma, gaeLambda, s)
  {
    var rs, vs, ds := rewards[..t + 1], values[..t + 1], dones[..t + 1];
    var deltas, decays := Deltas(rewards, values, dones, gamma), Decays(dones, gamma, gaeLambda);
    forall k | 0 <= k <= t
      ensures Deltas(rs, vs, ds, gamma)[k] == deltas[k]
    {
      if k < t {
        assert NextValue(vs, k) == NextValue(values, k);
      }
    }
    assert Deltas(rs, vs, ds, gamma) == deltas[..t + 1];
    forall k | 0 <= k <= t
      ensures Decays(ds, gamma, gaeLambda)[k] == decays[k]
    {
      assert ds[k] == dones[k];
    }
    assert Decays(ds, gamma, gaeLambda) == decays[..t + 1];
    assert decays[t] == 0.0;
    GaeCut(deltas, decays, t, s);
  }

  /** A single done transition: the advantage is r - v and the return is r. */
  lemma SingleDoneTransition(r: real, v: real, gamma: real, gaeLambda: real)
    ensures Advantages([r], [v], [true], gamma, gaeLambda) == [r - v]
    ensures ReturnsOf(Advantages([r], [v], [true], gamma, gaeLambda), [v]) == [r]
  {
    DoneAdvantage([r], [v], [true], gamma, gaeLambda, 0);
    assert Advantages([r], [v], [true], gamma, gaeLambda)[0] == r - v;
    assert ReturnsOf([r - v], [v])[0] == r;
  }

  /** Two transitions, the second done. */
  lemma TwoTransitions(r0: real, r1: real, v0: real, v1: real, g: real, l: real)
    ensures var adv1 := r1 - v1;
      Advantages([r0, r1], [v0, v1], [false, true], g, l) == [r0 + g * v1 - v0 + g * l * adv1, adv1]
    ensures var adv0 := r0 + g * v1 - v0 + g * l * (r1 - v1);
      ReturnsOf(Advantages([r0, r1], [v0, v1], [false, true], g, l), [v0, v1]) == [adv0 + v0, r1]
  {
    var rs, vs, ds := [r0, r1], [v0, v1], [false, true];
    DoneAdvantage(rs, vs, ds, g, l, 1);
    AdvantageStep(rs, vs, ds, g, l, 0);
    var a1 := Advantage(rs, vs, ds, g, l, 1);
    assert Delta(rs, vs, ds, g, 0) == r0 + g * v1 - v0;
    assert Decay(ds, g, l, 0) == g * l;
    assert Advantage(rs, vs, ds, g, l, 0) == r0 + g * v1 - v0 + g * l * a1;
    var adv := Advantages(rs, vs, ds, g, l);
    assert adv[0] == r0 + g * v1 - v0 + g * l * (r1 - v1) && adv[1] == r1 - v1;
    var rets := ReturnsOf(adv, vs);
    assert rets[0] == adv[0] + v0 && rets[1] == r1;
  }

  /**
   * The returns satisfy the lambda-return recursion: the return at t is the
   * reward plus, unless t is done, the discounted mix (1 - lambda) V_{t+1} +
   * lambda G_{t+1}; at the last step it is the reward alone.
   */
  lemma ReturnStep(rewards: seq<real>, values: seq<real>, dones: seq<bool>, gamma: real, gaeLambda: real, t: nat)
    requires SameLength(rewards, values, dones)
    requires t < |rewards|
    ensures var g := ReturnsOf(Advantages(rewards, values, dones, gamma, gaeLambda), values);
      if t == |rewards| - 1 then g[t] == rewards[t]
      else g[t] == rewards[t] + gamma * (1.0 - AsReal(dones[t]))
                   * ((1.0 - gaeLambda) * values[t + 1] + gaeLambda * g[t + 1])
  {
    var adv := Advantages(rewards, values, dones, gamma, gaeLambda);
    var g := ReturnsOf(adv, values);
    AdvantageStep(rewards, values, dones, gamma, gaeLambda, t);
    if t == |rewards| - 1 {
      AdvantageAtEnd(rewards, values, dones, gamma, gaeLambda);
      assert g[t] == adv[t] + values[t];
    } else {
      assert g[t] == adv[t] + values[t];
      assert g[t + 1] == adv[t + 1] + values[t + 1];
    }
  }

  /** One iteration of the backward pass turns the advantage at t + 1 into the one at t. */
  lemma BackwardStep(rewards: seq<real>, values: seq<real>, dones: seq<bool>, gamma: real, gaeLambda: real,
                     t: nat, nextValue: real, gae: real)
    requires SameLength(rewards, values, dones)
    requires t < |rewards|
    requires nextValue == NextValue(values, t)
    requires gae == Advantage(rewards, values, dones, gamma, gaeLambda, t + 1)
    ensures rewards[t] + gamma * nextValue * (1.0 - AsReal(dones[t])) - values[t]
            + gamma * gaeLambda * (1.0 - AsReal(dones[t])) * gae
         == Advantage(rewards, values, dones, gamma, gaeLambda, t)
  {
    AdvantageStep(rewards, values, dones, gamma, gaeLambda, t);
  }

  // ---------------------------------------------------------------------------
  // The buffer

  /** What `Get` hands to the trainer: the first five sequences, in insertion order. */
  datatype Batch = Batch(states: seq<seq<real>>, actions: seq<int>, rewards: seq<real>,
                         logProbs: seq<real>, values: seq<real>)

  class RolloutBuffer {
    var states: seq<seq<real>>
    var actions: seq<int>
    var rewards: seq<real>
    var logProbs: seq<real>
    var values: seq<real>
    var dones: seq<bool>

    /** The six sequences have one entry per transition. */
    ghost predicate Valid()
      reads this
    {
      |actions| == |states| && |rewards| == |states| && |logProbs| == |states|
      && |values| == |states| && |dones| == |states|
    }

    constructor()
      ensures Valid() && Len() == 0
      ensures states == [] && actions == [] && rewards == [] && logProbs == [] && values == [] && dones == []
    {
      states, actions, rewards, logProbs, values, dones := [], [], [], [], [], [];
    }

    /** Appends one transition to each of the six sequences. */
    method Add(state: seq<real>, action: int, reward: real, logProb: real, value: real, done: bool)
      requires Valid()
      modifies this
      ensures Valid() && Len() == old(Len()) + 1
      ensures states == old(states) + [state] && actions == old(actions) + [action]
      ensures rewards == old(rewards) + [reward] && logProbs == old(logProbs) + [logProb]
      ensures values == old(values) + [value] && dones == old(dones) + [done]
    {
      states := states + [state];
      actions := actions + [action];
      rewards := rewards + [reward];
      logProbs := logProbs + [logProb];
      values := values + [value];
      dones := dones + [done];
    }

    /** Empties all six sequences: the buffer is as freshly constructed. */
    method Clear()
      modifies this
      ensures Valid() && Len() == 0
      ensures states == [] && actions == [] && rewards == [] && logProbs == [] && values == [] && dones == []
    {
      states := [];
      actions := [];
      rewards := [];
      logProbs := [];
      values := [];
      dones := [];
    }

    /** The number of stored transitions. */
    function Len(): nat
      reads this
    {
      |states|
    }

    /** The stored states, actions, rewards, log-probabilities and values, in insertion order. */
    function Get(): (b: Batch)
      reads this
      requires Valid()
      ensures |b.states| == Len() && |b.actions| == Len() && |b.rewards| == Len()
      ensures |b.logProbs| == Len() && |b.values| == Len()
      ensures forall i :: 0 <= i < Len() ==>
        b.states[i] == states[i] && b.actions[i] == actions[i] && b.rewards[i] == rewards[i]
        && b.logProbs[i] == logProbs[i] && b.values[i] == values[i]
    {
      Batch(states, actions, rewards, logProbs, values)
    }

    /**
     * GAE by one backward pass over the stored transitions: the advantages are
     * those of the recursion, and each return is its advantage plus its value.
     */
    method ComputeReturnsAndAdvantages(gamma: real := 0.99, gaeLambda: real := 0.95)
      returns (rets: seq<real>, advantages: seq<real>)
      requires Valid()
      ensures advantages == Advantages(rewards, values, dones, gamma, gaeLambda)
      ensures rets == ReturnsOf(advantages, values)
    {
      var rs, vs, ds := rewards, values, dones;
      var n := |rs|;
      var adv := new real[n](_ => 0.0);
      var gae := 0.0;
      var t := n;
      while t > 0
        invariant 0 <= t <= n
        invariant gae == Advantage(rs, vs, ds, gamma, gaeLambda, t)
        invariant forall k :: t <= k < n ==> adv[k] == Advantage(rs, vs, ds, gamma, gaeLambda, k)
        decreases t
      {
        t := t - 1;
        var nextValue := if t == n - 1 then 0.0 else vs[t + 1];
        var delta := rs[t] + gamma * nextValue * (1.0 - AsReal(ds[t])) - vs[t];
        BackwardStep(rs, vs, ds, gamma, gaeLambda, t, nextValue, gae);
        gae := delta + gamma * gaeLambda * (1.0 - AsReal(ds[t])) * gae;
        adv[t] := gae;
      }
      advantages := adv[..];
      assert advantages == Advantages(rs, vs, ds, gamma, gaeLambda) by {
        forall k | 0 <= k < n
          ensures advantages[k] == Advantages(rs, vs, ds, gamma, gaeLambda)[k]
        {
        }
      }
      rets := ReturnsOf(advantages, vs);
    }
  }
}
