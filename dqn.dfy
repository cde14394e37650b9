/** `DQNPolicy` of `dqn.py` and the hooks of its `main`: greedy action choice
    with an epsilon perturbation of whole Q-rows, the TD update on a sampled
    batch (optionally from a prioritised buffer), and the exploration
    schedule. The update as written reads the action column where it means
    the rewards and the done flags; both that update and the intended one are
    modelled, and the rest of the model uses the intended one. */
module Dqn {
  import opened Common
  import opened QRows

  /** The part of a prioritised sample that a plain one lacks. */
  datatype Priority = Priority(indexes: seq<nat>, weights: seq<real>)

  /** A sampled batch: the online Q-row of each observation, the taken
      actions, rewards and done flags, the online Q-row of each next
      observation, and for a prioritised buffer the indexes and weights. */
  datatype Batch = Batch(qRows: seq<QRow>, acts: seq<nat>, rewards: seq<real>, dones: seq<bool>,
                         nextQRows: seq<QRow>, priority: Option<Priority>)

  ghost predicate WellFormed(b: Batch)
  {
    |b.qRows| > 0 && ActionsInRange(b.qRows, b.acts)
    && |b.rewards| == |b.qRows| && |b.dones| == |b.qRows| && |b.nextQRows| == |b.qRows|
    && NonEmptyRows(b.nextQRows)
    && (b.priority.Some? ==> |b.priority.value.indexes| == |b.qRows| && |b.priority.value.weights| == |b.qRows|)
  }

  /** A column of actions read as numbers, as `torch.FloatTensor(batch.acts)`
      and `torch.LongTensor(batch.acts)` do. */
  function ActsAsReals(acts: seq<nat>): (r: seq<real>)
    ensures |r| == |acts|
    ensures forall i :: 0 <= i < |r| ==> r[i] == acts[i] as real
  {
    seq(|acts|, i requires 0 <= i < |acts| => acts[i] as real)
  }

  /** The targets `update` computes as written: rewards and done flags are
      both the action column, and the maximum comes from the online network. */
  function TargetsAsWritten(b: Batch, gamma: real): (t: seq<real>)
    requires WellFormed(b)
    ensures |t| == |b.qRows|
    ensures forall i :: 0 <= i < |t| ==>
              t[i] == TdTarget(b.acts[i] as real, b.acts[i] as real, gamma, Max(b.nextQRows[i]))
  {
    VanillaTargets(ActsAsReals(b.acts), ActsAsReals(b.acts), gamma, b.nextQRows)
  }

  /** The intended targets `r + (1 - done) * gamma * max Q(next)`. */
  function Targets(b: Batch, gamma: real): (t: seq<real>)
    requires WellFormed(b)
    ensures |t| == |b.qRows|
    ensures forall i :: 0 <= i < |t| && b.dones[i] ==> t[i] == b.rewards[i]
    ensures forall i :: 0 <= i < |t| && !b.dones[i] ==> t[i] == b.rewards[i] + gamma * Max(b.nextQRows[i])
  {
    BatchTargets(b.rewards, b.dones, gamma, b.nextQRows)
  }

  /** As written, the target ignores the rewards and done flags altogether:
      an action-0 sample bootstraps with no reward, and an action-1 sample is
      treated as terminal with reward 1. */
  lemma TargetsAsWrittenIgnoreRewards(b: Batch, gamma: real)
    requires WellFormed(b)
    ensures forall i :: 0 <= i < |b.qRows| && b.acts[i] == 0 ==>
              TargetsAsWritten(b, gamma)[i] == gamma * Max(b.nextQRows[i])
    ensures forall i :: 0 <= i < |b.qRows| && b.acts[i] == 1 ==>
              TargetsAsWritten(b, gamma)[i] == 1.0
  {
  }

  /** One non-terminal transition with action 1, reward 0 and a next-state
      maximum of 2: the intended target is 1.8, the one written is 1. */
  lemma TargetsAsWrittenDiffer()
    ensures var b := Batch([[0.0, 0.0]], [1], [0.0], [false], [[2.0, 0.0]], None);
            WellFormed(b) && TargetsAsWritten(b, 0.9) == [1.0] && Targets(b, 0.9) == [1.8]
  {
    var b := Batch([[0.0, 0.0]], [1], [0.0], [false], [[2.0, 0.0]], None);
    MaxUnique([2.0, 0.0], 0);
    assert Max(b.nextQRows[0]) == 2.0;
  }

  /** What one `update` produces: the TD errors, the loss, and the call
      `update_weight(indexes, errors)` made on a prioritised buffer. */
  datatype UpdateResult = UpdateResult(tdErrors: seq<real>, loss: real, weightUpdate: Option<(seq<nat>, seq<real>)>)

  /** The loss weights: the sampled ones for a prioritised buffer, 1.0 otherwise. */
  function LossWeights(b: Batch): (w: seq<real>)
    requires WellFormed(b)
    ensures |w| == |b.qRows|
    ensures b.priority.Some? ==> w == b.priority.value.weights
    ensures b.priority.None? ==> forall i :: 0 <= i < |w| ==> w[i] == 1.0
  {
    match b.priority
    case Some(p) => p.weights
    case None => UnitWeights(|b.qRows|)
  }

  /** The update on given targets: TD error `pred - targ`, loss
      `(td_err^2 * weights).mean()`, and the priority feedback. */
  function UpdateOn(b: Batch, targ: seq<real>): (r: UpdateResult)
    requires WellFormed(b) && |targ| == |b.qRows|
    ensures |r.tdErrors| == |b.qRows|
    ensures forall i :: 0 <= i < |b.qRows| ==> b.qRows[i][b.acts[i]] == targ[i] + r.tdErrors[i]
    ensures (forall i :: 0 <= i < |b.qRows| ==> LossWeights(b)[i] >= 0.0) ==> r.loss >= 0.0
    ensures (forall i :: 0 <= i < |b.qRows| ==> b.qRows[i][b.acts[i]] == targ[i]) ==> r.loss == 0.0
    ensures r.weightUpdate.Some? <==> b.priority.Some?
    ensures b.priority.Some? ==> r.weightUpdate == Some((b.priority.value.indexes, r.tdErrors))
  {
    var td := TdErrors(Gather(b.qRows, b.acts), targ);
    var loss := WeightedMeanSquare(td, LossWeights(b));
    UpdateResult(td, loss, if b.priority.Some? then Some((b.priority.value.indexes, td)) else None)
  }

  /** `update` as written: each prediction is the target built from the
      action column plus its TD error, the loss is non-negative under
      non-negative weights and zero when every prediction meets its target,
      and a prioritised buffer gets its indexes back with the TD errors. */
  function UpdateAsWritten(b: Batch, gamma: real): (r: UpdateResult)
    requires WellFormed(b)
    ensures |r.tdErrors| == |b.qRows|
    ensures forall i :: 0 <= i < |b.qRows| ==>
              b.qRows[i][b.acts[i]]
              == TdTarget(b.acts[i] as real, b.acts[i] as real, gamma, Max(b.nextQRows[i])) + r.tdErrors[i]
    ensures (forall i :: 0 <= i < |b.qRows| ==> LossWeights(b)[i] >= 0.0) ==> r.loss >= 0.0
    ensures (forall i :: 0 <= i < |b.qRows| ==>
               b.qRows[i][b.acts[i]] == TdTarget(b.acts[i] as real, b.acts[i] as real, gamma, Max(b.nextQRows[i])))
            ==> r.loss == 0.0
    ensures r.weightUpdate.Some? <==> b.priority.Some?
    ensures b.priority.Some? ==> r.weightUpdate == Some((b.priority.value.indexes, r.tdErrors))
  {
    UpdateOn(b, TargetsAsWritten(b, gamma))
  }

  /** `update` with the batch's rewards and done flags: each prediction is
      its target plus its TD error, where a terminal sample's target is its
      reward and any other's bootstraps `gamma` times the next row's maximum;
      the loss and the priority feedback are as in `UpdateAsWritten`. */
  function Update(b: Batch, gamma: real): (r: UpdateResult)
    requires WellFormed(b)
    ensures |r.tdErrors| == |b.qRows|
    ensures forall i :: 0 <= i < |b.qRows| && b.dones[i] ==>
              b.qRows[i][b.acts[i]] == b.rewards[i] + r.tdErrors[i]
    ensures forall i :: 0 <= i < |b.qRows| && !b.dones[i] ==>
              b.qRows[i][b.acts[i]] == b.rewards[i] + gamma * Max(b.nextQRows[i]) + r.tdErrors[i]
    ensures (forall i :: 0 <= i < |b.qRows| ==> LossWeights(b)[i] >= 0.0) ==> r.loss >= 0.0
    ensures (forall i :: 0 <= i < |b.qRows| ==>
               b.qRows[i][b.acts[i]] == if b.dones[i] then b.rewards[i] else b.rewards[i] + gamma * Max(b.nextQRows[i]))
            ==> r.loss == 0.0
    ensures r.weightUpdate.Some? <==> b.priority.Some?
    ensures b.priority.Some? ==> r.weightUpdate == Some((b.priority.value.indexes, r.tdErrors))
  {
    UpdateOn(b, Targets(b, gamma))
  }

  /** The two updates agree on every batch whose rewards and done flags are
      the action column read as numbers. */
  lemma UpdatesAgreeWhenRewardsAreActions(b: Batch, gamma: real)
    requires WellFormed(b)
    requires forall i :: 0 <= i < |b.qRows| ==> b.rewards[i] == b.acts[i] as real
    requires forall i :: 0 <= i < |b.qRows| ==> DoneValue(b.dones[i]) == b.acts[i] as real
    ensures UpdateAsWritten(b, gamma) == Update(b, gamma)
  {
    assert ActsAsReals(b.acts) == b.rewards;
    assert ActsAsReals(b.acts) == DoneValues(b.dones);
  }

  /** `precollect` of `main`: eps falls linearly from `eps_collect` at step 0
      to `eps_collect_min` at step 10^6 and stays there. */
  function LinearCollectEps(epsCollect: real, epsCollectMin: real, steps: int): real
  {
    if steps as real <= 1000000.0 then
      epsCollect - steps as real / 1000000.0 * (epsCollect - epsCollectMin)
    else epsCollectMin
  }

  /** The schedule starts at `eps_collect`, meets `eps_collect_min` at step
      10^6 without a jump, holds it afterwards, and in between stays within
      the two ends. */
  lemma LinearCollectEpsShape(epsCollect: real, epsCollectMin: real, steps: int)
    ensures LinearCollectEps(epsCollect, epsCollectMin, 0) == epsCollect
    ensures LinearCollectEps(epsCollect, epsCollectMin, 1000000) == epsCollectMin
    ensures steps > 1000000 ==> LinearCollectEps(epsCollect, epsCollectMin, steps) == epsCollectMin
    ensures epsCollectMin <= epsCollect && 0 <= steps <= 1000000 ==>
              epsCollectMin <= LinearCollectEps(epsCollect, epsCollectMin, steps) <= epsCollect
  {
    if epsCollectMin <= epsCollect && 0 <= steps <= 1000000 {
      var x := steps as real / 1000000.0;
      var d := epsCollect - epsCollectMin;
      FractionOfGap(x, d);
    }
  }

  lemma FractionOfGap(x: real, d: real)
    requires 0.0 <= x <= 1.0 && d >= 0.0
    ensures 0.0 <= x * d <= d
  {
    assert (1.0 - x) * d >= 0.0;
  }

  /** `save` of `main`: a checkpoint only on strict improvement, and the
      trainer is always told to go on. */
  function Save(bestRew: real, rew: real): (o: SaveOutcome)
    ensures o.checkpoint <==> rew > bestRew
    ensures o.keepTraining
  {
    if rew <= bestRew then SaveOutcome(false, true) else SaveOutcome(true, true)
  }

  class DQNPolicy {
    const gamma: real
    var eps: real

    /** `__init__`: no exploration until a hook sets eps. */
    constructor(gamma: real)
      ensures this.gamma == gamma && eps == 0.0
    {
      this.gamma := gamma;
      eps := 0.0;
    }

    /** `forward` on the Q-rows the network gives for a batch of
        observations: unless eps is zero, each row whose coin falls below eps
        is overwritten by its noise row; then each row's argmax is taken. */
    method Forward(rows: seq<QRow>, coins: seq<real>, noise: seq<QRow>) returns (acts: seq<nat>)
      requires ExploreInputs(rows, coins, noise) && NonEmptyRows(rows)
      ensures |acts| == |rows|
      ensures acts == GreedyActions(Explore(rows, eps, coins, noise))
      ensures eps == 0.0 ==> forall i :: 0 <= i < |rows| ==> acts[i] < |rows[i]| && rows[i][acts[i]] == Max(rows[i])
    {
      var qvals := rows;
      if eps != 0.0 {
        var i := 0;
        while i < |qvals|
          invariant 0 <= i <= |rows| && |qvals| == |rows|
          invariant forall j :: 0 <= j < i ==> qvals[j] == Explore(rows, eps, coins, noise)[j]
          invariant forall j :: i <= j < |rows| ==> qvals[j] == rows[j]
        {
          if coins[i] < eps {
            qvals := qvals[i := noise[i]];
          }
          i := i + 1;
        }
      }
      assert qvals == Explore(rows, eps, coins, noise);
      acts := GreedyActions(qvals);
    }

    /** `precollect`: eps follows the linear collect schedule. */
    method Precollect(epsCollect: real, epsCollectMin: real, steps: int)
      modifies this
      ensures eps == LinearCollectEps(epsCollect, epsCollectMin, steps)
    {
      if steps as real <= 1000000.0 {
        eps := epsCollect - steps as real / 1000000.0 * (epsCollect - epsCollectMin);
      } else {
        eps := epsCollectMin;
      }
    }

    /** `preupdate`: no exploration while learning. */
    method Preupdate()
      modifies this
      ensures eps == 0.0
    {
      eps := 0.0;
    }

    /** `pretest`: the test epsilon. */
    method Pretest(epsTest: real)
      modifies this
      ensures eps == epsTest
    {
      eps := epsTest;
    }
  }
}
