/** `DQNWithExperienceReplayAgent`: every transition the agent sees is added
    to an experience replay, and once every `step_per_learn` transitions a
    batch is sampled and one gradient step is taken on the mean squared TD
    error. The replay itself is outside the model: it is recorded as the list
    of transitions added to it, and the answer of `can_sample`/`sample` at
    each learning step is an input (`None` when it cannot sample yet). */
module DqnWithExperienceReplay {
  import opened Common
  import opened QRows
  import PeriodicCounter

  /** `Transition(obs, act, reward, next_obs, done)`. */
  datatype Transition<O> = Transition(obs: O, act: nat, reward: real, nextObs: O, done: bool)

  /** A sampled batch as the networks see it: the online Q-row of each
      observation, the taken actions, the rewards and done flags, and the
      Q-row of each next observation. */
  datatype ReplayBatch = ReplayBatch(qRows: seq<QRow>, acts: seq<nat>, rewards: seq<real>,
                                     dones: seq<bool>, nextQRows: seq<QRow>)

  /** The tensor shapes `_do_learn` relies on: one entry per sample in every
      column, actions inside their rows, and a non-empty batch. */
  ghost predicate WellFormed(b: ReplayBatch)
  {
    |b.qRows| > 0 && ActionsInRange(b.qRows, b.acts)
    && |b.rewards| == |b.qRows| && |b.dones| == |b.qRows| && |b.nextQRows| == |b.qRows|
    && NonEmptyRows(b.nextQRows)
  }

  /** `_do_learn`: nothing happens when the replay cannot sample; otherwise
      the loss is the mean squared error between the Q-value of each taken
      action and its target. The next Q-rows come from
      `_predict_qvalue(next_obs, 0)`, that is unperturbed. */
  function DoLearn(sample: Option<ReplayBatch>, gamma: real): (loss: Option<real>)
    requires sample.Some? ==> WellFormed(sample.value)
    ensures loss.None? <==> sample.None?
    ensures loss.Some? ==> loss.value >= 0.0
    ensures loss.Some? ==>
              loss.value == MeanSquaredError(Gather(sample.value.qRows, sample.value.acts),
                                             BatchTargets(sample.value.rewards, sample.value.dones, gamma, sample.value.nextQRows))
  {
    match sample
    case None => None
    case Some(b) => Some(MeanSquaredError(Gather(b.qRows, b.acts), BatchTargets(b.rewards, b.dones, gamma, b.nextQRows)))
  }

  /** A batch whose taken-action values already meet their targets gives a
      zero loss. */
  lemma DoLearnZeroAtFixpoint(b: ReplayBatch, gamma: real)
    requires WellFormed(b)
    requires forall i :: 0 <= i < |b.qRows| ==> b.qRows[i][b.acts[i]] == BatchTargets(b.rewards, b.dones, gamma, b.nextQRows)[i]
    ensures DoLearn(Some(b), gamma) == Some(0.0)
  {
    var pred := Gather(b.qRows, b.acts);
    var targ := BatchTargets(b.rewards, b.dones, gamma, b.nextQRows);
    assert forall i :: 0 <= i < |pred| ==> pred[i] == targ[i];
  }

  /** The learning side of the agent: the replay log and the learn counter. */
  class ReplayLearner<O> {
    /** Every transition added to the experience replay, oldest first. */
    var replay: seq<Transition<O>>
    const stepPerLearn: int
    const gamma: real
    var learnCount: int
    /** How many `learn` calls have run, and how many reached `_do_learn`. */
    ghost var calls: nat
    ghost var learnSteps: nat

    /** One replay entry per call; the counter and the number of learn
        steps are those of the periodic counter after `calls` calls from zero. */
    ghost predicate Valid()
      reads this
    {
      |replay| == calls
      && PeriodicCounter.After(0, stepPerLearn, calls) == PeriodicCounter.Run(learnCount, learnSteps)
    }

    /** `__init__`: an empty replay and a zero counter. */
    constructor(stepPerLearn: int, gamma: real)
      ensures Valid()
      ensures this.stepPerLearn == stepPerLearn && this.gamma == gamma
      ensures replay == [] && learnCount == 0 && calls == 0 && learnSteps == 0
    {
      this.stepPerLearn := stepPerLearn;
      this.gamma := gamma;
      replay := [];
      learnCount := 0;
      calls := 0;
      learnSteps := 0;
    }

    /** `learn`: add the transition, count it, and on every
        `step_per_learn`-th call run `_do_learn` on the replay's answer. */
    method Learn(obs: O, act: nat, reward: real, nextObs: O, done: bool, sample: Option<ReplayBatch>)
      returns (loss: Option<real>)
      requires Valid()
      requires sample.Some? ==> WellFormed(sample.value)
      modifies this
      ensures Valid()
      ensures replay == old(replay) + [Transition(obs, act, reward, nextObs, done)]
      ensures calls == old(calls) + 1
      ensures learnCount == PeriodicCounter.Step(old(learnCount), stepPerLearn).count
      ensures PeriodicCounter.Step(old(learnCount), stepPerLearn).fired ==>
                learnSteps == old(learnSteps) + 1 && loss == DoLearn(sample, gamma)
      ensures !PeriodicCounter.Step(old(learnCount), stepPerLearn).fired ==>
                learnSteps == old(learnSteps) && loss == None
    {
      replay := replay + [Transition(obs, act, reward, nextObs, done)];
      calls := calls + 1;
      learnCount := learnCount + 1;
      if learnCount >= stepPerLearn {
        learnCount := learnCount - stepPerLearn;
        learnSteps := learnSteps + 1;
        loss := DoLearn(sample, gamma);
      } else {
        loss := None;
      }
    }

    /** With a positive period, `_do_learn` has run once per completed block
        of `step_per_learn` calls. */
    lemma LearnStepsAreQuotient()
      requires Valid() && stepPerLearn >= 1
      ensures learnSteps == calls / stepPerLearn
      ensures learnCount == calls % stepPerLearn
    {
      PeriodicCounter.AfterFromZero(stepPerLearn, calls);
    }
  }
}
