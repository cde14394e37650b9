/** Double DQN (`DoubleDQNPolicy` and the hooks of `train_double_dqn`): the
    online network chooses the next action, a separate target network values
    it, and the target network follows the online one by a soft update every
    `target_update_freq` updates. Both networks are flattened into arrays of
    parameters of the same length; their forward passes appear only through
    the Q-rows they produce. */
module DoubleDqn {
  import opened Common
  import opened QRows
  import PeriodicCounter

  /** `compute_target_q`: the next action is the online row's argmax, and
      the target row's value at that action is bootstrapped. */
  function DoubleTargets(rews: seq<real>, dones: seq<real>, gamma: real,
                         onlineRows: seq<QRow>, targetRows: seq<QRow>): (t: seq<real>)
    requires |rews| == |dones| == |onlineRows| == |targetRows|
    requires NonEmptyRows(onlineRows)
    requires forall i :: 0 <= i < |onlineRows| ==> |targetRows[i]| == |onlineRows[i]|
    ensures |t| == |rews|
    ensures forall i :: 0 <= i < |t| && dones[i] == 1.0 ==> t[i] == rews[i]
  {
    seq(|rews|, i requires 0 <= i < |rews| =>
      TdTarget(rews[i], dones[i], gamma, targetRows[i][ArgMax(onlineRows[i])]))
  }

  /** Each Double-DQN target bootstraps the target row's value at an action
      that maximises the online row (the first such action). */
  lemma DoubleTargetUsesOnlineGreedy(rews: seq<real>, dones: seq<real>, gamma: real,
                                     onlineRows: seq<QRow>, targetRows: seq<QRow>, i: int)
    requires |rews| == |dones| == |onlineRows| == |targetRows|
    requires NonEmptyRows(onlineRows)
    requires forall k :: 0 <= k < |onlineRows| ==> |targetRows[k]| == |onlineRows[k]|
    requires 0 <= i < |rews|
    ensures exists a :: 0 <= a < |onlineRows[i]|
              && onlineRows[i][a] == Max(onlineRows[i])
              && (forall j :: 0 <= j < a ==> onlineRows[i][j] < onlineRows[i][a])
              && DoubleTargets(rews, dones, gamma, onlineRows, targetRows)[i]
                 == TdTarget(rews[i], dones[i], gamma, targetRows[i][a])
  {
    var a := ArgMax(onlineRows[i]);
    MaxUnique(onlineRows[i], a);
  }

  /** When the target network agrees with the online one, Double DQN is the
      vanilla target `r + (1 - done) * gamma * max Q(next)`. */
  lemma DoubleIsVanillaWhenNetworksAgree(rews: seq<real>, dones: seq<real>, gamma: real, rows: seq<QRow>)
    requires |rews| == |dones| == |rows| && NonEmptyRows(rows)
    ensures DoubleTargets(rews, dones, gamma, rows, rows) == VanillaTargets(rews, dones, gamma, rows)
  {
    var d := DoubleTargets(rews, dones, gamma, rows, rows);
    var v := VanillaTargets(rews, dones, gamma, rows);
    forall i | 0 <= i < |rews|
      ensures d[i] == v[i]
    {
      assert rows[i][ArgMax(rows[i])] == Max(rows[i]);
    }
  }

  /** The value the Double target bootstraps never exceeds the target row's
      maximum, which the vanilla target on the target network would use. */
  lemma DoubleBootstrapAtMostTargetMax(onlineRow: QRow, targetRow: QRow)
    requires |onlineRow| > 0 && |targetRow| == |onlineRow|
    ensures targetRow[ArgMax(onlineRow)] <= Max(targetRow)
  {
  }

  /** `tau * online + (1 - tau) * target`, parameter by parameter. */
  function Blend(tau: real, online: seq<real>, target: seq<real>): (r: seq<real>)
    requires |online| == |target|
    ensures |r| == |online|
    ensures tau == 1.0 ==> r == online
    ensures tau == 0.0 ==> r == target
  {
    seq(|online|, i requires 0 <= i < |online| => tau * online[i] + (1.0 - tau) * target[i])
  }

  /** Where the two networks already agree a blend changes nothing. */
  lemma BlendFixesAgreement(tau: real, online: seq<real>, target: seq<real>, i: int)
    requires |online| == |target| && 0 <= i < |online|
    requires online[i] == target[i]
    ensures Blend(tau, online, target)[i] == target[i]
  {
    var x := online[i];
    assert tau * x + (1.0 - tau) * x == x;
  }

  /** The collect epsilon of `train_double_dqn`: geometric decay per epoch,
      floored at the minimum. */
  function CollectEps(epsCollect: real, epsCollectGamma: real, epsCollectMin: real, epoch: nat): (eps: real)
    ensures eps >= epsCollectMin
    ensures eps == epsCollectMin || eps == epsCollect * Pow(epsCollectGamma, epoch)
    ensures epsCollect * Pow(epsCollectGamma, epoch) > epsCollectMin ==> eps == epsCollect * Pow(epsCollectGamma, epoch)
  {
    var e := epsCollect * Pow(epsCollectGamma, epoch);
    if e > epsCollectMin then e else epsCollectMin
  }

  /** With a non-negative start and a rate in [0, 1], the collect epsilon
      never grows from one epoch to the next. */
  lemma CollectEpsNonIncreasing(epsCollect: real, epsCollectGamma: real, epsCollectMin: real, epoch: nat)
    requires epsCollect >= 0.0 && 0.0 <= epsCollectGamma <= 1.0
    ensures CollectEps(epsCollect, epsCollectGamma, epsCollectMin, epoch + 1)
            <= CollectEps(epsCollect, epsCollectGamma, epsCollectMin, epoch)
  {
    PowUnitInterval(epsCollectGamma, epoch);
    var p := Pow(epsCollectGamma, epoch);
    assert Pow(epsCollectGamma, epoch + 1) == epsCollectGamma * p;
    PowStepDown(epsCollectGamma, p);
    ScaleMonotone(epsCollect, epsCollectGamma * p, p);
  }

  lemma PowStepDown(g: real, p: real)
    requires 0.0 <= g <= 1.0 && p >= 0.0
    ensures g * p <= p
  {
    assert (1.0 - g) * p >= 0.0;
  }

  lemma ScaleMonotone(c: real, a: real, b: real)
    requires c >= 0.0 && a <= b
    ensures c * a <= c * b
  {
    assert c * (b - a) >= 0.0;
  }

  /** `save` of `train_double_dqn`: a checkpoint is written only on a strict
      improvement, and training stops only when the improved reward reaches
      `max_reward`. */
  function Save(bestRew: real, rew: real, maxReward: Option<real>): (o: SaveOutcome)
    ensures o.checkpoint <==> rew > bestRew
    ensures !o.keepTraining <==> rew > bestRew && maxReward.Some? && rew >= maxReward.value
  {
    if rew <= bestRew then SaveOutcome(false, true)
    else match maxReward
      case Some(m) => SaveOutcome(true, rew < m)
      case None => SaveOutcome(true, true)
  }

  class DoubleDQNPolicy {
    const network: array<real>
    const targetNetwork: array<real>
    const gamma: real
    const targetUpdateFreq: int
    const tau: real
    var updateCount: int
    var eps: real
    /** How many `update` calls have run, and how many of them synced. */
    ghost var updates: nat
    ghost var syncs: nat

    /** Separate networks of one shape; the counter and the number of syncs
        are those of the periodic counter after `updates` calls from zero. */
    ghost predicate Valid()
      reads this
    {
      network != targetNetwork && network.Length == targetNetwork.Length
      && PeriodicCounter.After(0, targetUpdateFreq, updates) == PeriodicCounter.Run(updateCount, syncs)
    }

    /** `__init__`: the target network starts as a copy of the online one. */
    constructor(network: array<real>, gamma: real, targetNetwork: array<real>, targetUpdateFreq: int, tau: real)
      requires network != targetNetwork && network.Length == targetNetwork.Length
      modifies targetNetwork
      ensures Valid()
      ensures this.network == network && this.targetNetwork == targetNetwork
      ensures this.gamma == gamma && this.targetUpdateFreq == targetUpdateFreq && this.tau == tau
      ensures updateCount == 0 && updates == 0 && syncs == 0
      ensures targetNetwork[..] == network[..]
      ensures network[..] == old(network[..])
    {
      this.network := network;
      this.targetNetwork := targetNetwork;
      this.gamma := gamma;
      this.targetUpdateFreq := targetUpdateFreq;
      this.tau := tau;
      updateCount := 0;
      updates := 0;
      syncs := 0;
      new;
      var i := 0;
      while i < targetNetwork.Length
        invariant 0 <= i <= targetNetwork.Length
        invariant targetNetwork[..i] == network[..i]
        invariant network[..] == old(network[..])
        invariant Valid() && updateCount == 0 && updates == 0 && syncs == 0
      {
        targetNetwork[i] := network[i];
        i := i + 1;
      }
    }

    /** `soft_update_target`: every target parameter becomes
        `tau * online + (1 - tau) * target`; the online parameters stay. */
    method SoftUpdateTarget()
      requires Valid()
      modifies targetNetwork
      ensures targetNetwork[..] == Blend(tau, network[..], old(targetNetwork[..]))
      ensures network[..] == old(network[..])
    {
      var i := 0;
      while i < targetNetwork.Length
        invariant 0 <= i <= targetNetwork.Length
        invariant forall j :: 0 <= j < i ==>
                    targetNetwork[j] == tau * network[j] + (1.0 - tau) * old(targetNetwork[j])
        invariant forall j :: i <= j < targetNetwork.Length ==> targetNetwork[j] == old(targetNetwork[j])
      {
        targetNetwork[i] := tau * network[i] + (1.0 - tau) * targetNetwork[i];
        i := i + 1;
      }
      var b := Blend(tau, network[..], old(targetNetwork[..]));
      assert forall j :: 0 <= j < targetNetwork.Length ==> targetNetwork[..][j] == b[j];
    }

    /** The part of `update` this class adds after the gradient step: count
        the update and, once the count reaches the period, subtract the
        period and soft-update the target network. */
    method Update()
      requires Valid()
      modifies this, targetNetwork
      ensures Valid()
      ensures updateCount == PeriodicCounter.Step(old(updateCount), targetUpdateFreq).count
      ensures updates == old(updates) + 1
      ensures PeriodicCounter.Step(old(updateCount), targetUpdateFreq).fired ==>
                syncs == old(syncs) + 1 && targetNetwork[..] == Blend(tau, network[..], old(targetNetwork[..]))
      ensures !PeriodicCounter.Step(old(updateCount), targetUpdateFreq).fired ==>
                syncs == old(syncs) && targetNetwork[..] == old(targetNetwork[..])
      ensures network[..] == old(network[..]) && eps == old(eps)
    {
      updateCount := updateCount + 1;
      updates := updates + 1;
      if updateCount >= targetUpdateFreq {
        updateCount := updateCount - targetUpdateFreq;
        syncs := syncs + 1;
        SoftUpdateTarget();
      }
    }

    /** With a positive period the number of target syncs is the number of
        updates divided by the period. */
    lemma SyncsAreQuotient()
      requires Valid() && targetUpdateFreq >= 1
      ensures syncs == updates / targetUpdateFreq
      ensures updateCount == updates % targetUpdateFreq
    {
      PeriodicCounter.AfterFromZero(targetUpdateFreq, updates);
    }

    /** `precollect`: eps follows the geometric collect schedule. */
    method Precollect(epsCollect: real, epsCollectGamma: real, epsCollectMin: real, epoch: nat)
      modifies this
      ensures eps == CollectEps(epsCollect, epsCollectGamma, epsCollectMin, epoch)
      ensures eps >= epsCollectMin
      ensures updateCount == old(updateCount) && updates == old(updates) && syncs == old(syncs)
    {
      var e := epsCollect * Pow(epsCollectGamma, epoch);
      eps := if e > epsCollectMin then e else epsCollectMin;
    }

    /** `preupdate`: no exploration while learning. */
    method Preupdate()
      modifies this
      ensures eps == 0.0
      ensures updateCount == old(updateCount) && updates == old(updates) && syncs == old(syncs)
    {
      eps := 0.0;
    }

    /** `pretest`: the test epsilon. */
    method Pretest(epsTest: real)
      modifies this
      ensures eps == epsTest
      ensures updateCount == old(updateCount) && updates == old(updates) && syncs == old(syncs)
    {
      eps := epsTest;
    }
  }
}
