# Value-based neural-network Q-learning, modelled in Dafny

This project models the decision logic of the value-based neural-network
scripts. These scripts train DQN and Double-DQN agents on CartPole and Flappy
Bird. The model covers:

- **Double DQN** (`DoubleDQNPolicy` and the hooks of `train_double_dqn`):
  - The target network starts as a copy of the online one.
  - The Double-DQN target: the online network picks the next action and the
    target network values it.
  - The `update_count` counter and the soft update it triggers every
    `target_update_freq` updates.
  - The geometric collect epsilon and the `save` decision.
- **DQN with experience replay** (`DQNWithExperienceReplayAgent`):
  - Every `learn` call adds one transition to the replay.
  - One call in every `step_per_learn` runs `_do_learn`.
  - `_do_learn` does nothing while the replay cannot sample. Otherwise it
    takes the mean squared error between the taken-action Q-values and
    `r + (1 - done) * gamma * max Q(next)`.
- **DQN** (`DQNPolicy` and the hooks of `main`):
  - The epsilon-perturbed greedy `forward`.
  - The `update` arithmetic: targets, TD errors, the weighted loss, and
    priority feedback to a prioritised buffer.
  - The linear collect schedule and the `save` decision.
- **`NNQAgent`**:
  - The linear-then-decayed `update_eps` and the epsilon-greedy `__call__`.
  - The `train`, `test` and `evaluate` loops.
  - The whole event schedule of `train_test_eval`.
- **`FlappyBirdWrapper`**: the stack of the last `stack_num` frames, which
  `step` and `reset` slide by one frame each.

Shared pieces live in three modules:

- `PeriodicCounter`: the "increment, and at the period subtract it and act"
  counter, used by both `update_count` and `learn_count`.
- `QRows`: operations on Q-value rows such as `argmax`, `max`, `gather`, the
  TD target, the losses and the epsilon perturbation.
- `Common`: option, power, sum and mean.

Modelling choices:

- Networks are opaque. A forward pass appears only as the Q-rows it
  produces, and network parameters are flat arrays of reals.
- Python floats are reals, so rounding is ignored.
- The environment is a value: `reset` and `step` are total functions over an
  environment state that the loops thread through.
- Random draws are inputs: the coins of `np.random.rand()` and the noise rows
  of `torch.rand`.
- The replay buffer is recorded only as the log of what was added to it. Its
  answer to `can_sample`/`sample` at each learning step is an input.

Where the code departs from the textbook DQN algorithm, or does something
other than its names and arguments suggest, the model follows the code:

- Exploration does not pick a uniformly random action. Each row whose coin
  falls below eps is overwritten with uniform noise, and the argmax of the
  result is taken.
- `update` in `dqn.py` reads the action column as both the rewards and the
  done flags. See "Findings" below.
- `train` and `test` with `max_step <= 1` fail after their loop, when they
  log the never-bound loop variable `step`. In `train_test_eval` this ends
  the run after the first `train`. The model reports this as `ok == false`
  and as an incomplete schedule.
- `train_test_eval` always attempts to load the checkpoint. Its test reads
  the module's `load_ckpt` function, which is always truthy, instead of the
  `load_cpkt` argument. The load itself does nothing when the checkpoint
  file is missing. It also always evaluates 10 episodes, whatever
  `total_eval_episode` says.

## Model

| member | source | states |
|---|---|---|
| PeriodicCounter.Step | value-based/neural-network/double_dqn.py:49-51 | with a period p >= 1 and a counter in [0, p), the counter stays in [0, p) and the action fires exactly when the counter was p - 1; a period <= 0 fires on every call |
| PeriodicCounter.AfterInRange | value-based/neural-network/dqn_with_experience_replay.py:42-44 | with a positive period, a counter starting in [0, period) stays there after any number of calls |
| PeriodicCounter.AfterFromZero | value-based/neural-network/double_dqn.py:46-54 | from a zero counter, after n calls the counter is n mod period and the action has run n div period times |
| PeriodicCounter.StepOnRemainder | value-based/neural-network/double_dqn.py:49-51 | one call on the remainder of m yields the remainder of m + 1, and fires exactly when the quotient grows by one |
| PeriodicCounter.WindowFiresOnce | value-based/neural-network/dqn_with_experience_replay.py:41-45 | any `period` consecutive calls from a zero counter contain exactly one firing |
| PeriodicCounter.NonPositivePeriodAlwaysFires | value-based/neural-network/dqn_with_experience_replay.py:42-45 | with a period <= 0 every call fires and the counter never goes negative |
| Common.PowUnitInterval | value-based/neural-network/double_dqn.py:122 | `gamma ** epoch` stays in [0, 1] for gamma in [0, 1] |
| Common.SumNonNegative | value-based/neural-network/utils/nnq_agent.py:150 | a sum of non-negative rewards is non-negative, and zero exactly when every term is zero |
| Common.MeanNonNegative | value-based/neural-network/utils/nnq_agent.py:192 | a mean of non-negative terms is non-negative, and zero exactly when every term is zero |
| QRows.ArgMax | value-based/neural-network/dqn.py:44 | `argmax(-1)` returns an index of the row whose value bounds every entry, and it is the first such index |
| QRows.Max | value-based/neural-network/dqn_with_experience_replay.py:54 | `max(-1)[0]` is a value of the row that bounds every entry |
| QRows.MaxUnique | value-based/neural-network/dqn_with_experience_replay.py:54 | any entry bounding the whole row is the row's maximum |
| QRows.GreedyActions | value-based/neural-network/dqn.py:44 | each action of a batch indexes its row and attains that row's maximum |
| QRows.Gather | value-based/neural-network/dqn_with_experience_replay.py:52 | the predicted value of each sample is the Q-entry of its taken action |
| QRows.DoneValues | value-based/neural-network/dqn_with_experience_replay.py:55 | a done flag becomes 1 exactly when it is set and 0 exactly when it is not |
| QRows.TerminalTargetIsReward | value-based/neural-network/dqn_with_experience_replay.py:55 | with done = 1 the TD target is the reward, whatever the next value |
| QRows.VanillaTargets | value-based/neural-network/dqn.py:62 | each target is `r + (1 - done) * gamma * max Q(next)` of its sample, and the reward when done = 1 |
| QRows.BatchTargets | value-based/neural-network/dqn_with_experience_replay.py:54-55 | a terminal sample's target is its reward; any other's is `r + gamma * max Q(next)` of its next row |
| QRows.TdErrors | value-based/neural-network/dqn.py:64 | prediction = target + TD error, sample by sample |
| QRows.WeightedSquares | value-based/neural-network/dqn.py:66 | each term `err^2 * w` is non-negative for w >= 0, and zero for a zero error |
| QRows.WeightedMeanSquare | value-based/neural-network/dqn.py:66 | the weighted loss is non-negative for non-negative weights, and zero when every TD error is zero |
| QRows.UnitWeights | value-based/neural-network/dqn.py:56 | a non-prioritised buffer weighs every sample by 1.0 |
| QRows.MeanSquaredError | value-based/neural-network/dqn_with_experience_replay.py:57 | the MSE loss is non-negative, and zero when every prediction meets its target |
| QRows.Explore | value-based/neural-network/utils/nnq_agent.py:258-261 | a row is replaced by its noise row exactly when eps is not zero and its coin is below eps; eps <= 0 keeps every row, eps >= 1 replaces every row |
| DoubleDqn.DoubleTargets | value-based/neural-network/double_dqn.py:34-44 | one target per sample, equal to the reward when done = 1 |
| DoubleDqn.DoubleTargetUsesOnlineGreedy | value-based/neural-network/double_dqn.py:41-43 | each target bootstraps the target row's value at the first action maximising the online row |
| DoubleDqn.DoubleIsVanillaWhenNetworksAgree | value-based/neural-network/double_dqn.py:41-43 | when the target rows equal the online rows, the Double target is `r + (1 - done) * gamma * max Q(next)` |
| DoubleDqn.DoubleBootstrapAtMostTargetMax | value-based/neural-network/double_dqn.py:41-42 | the bootstrapped value never exceeds the target row's maximum |
| DoubleDqn.Blend | value-based/neural-network/double_dqn.py:60-62 | tau = 1 gives the online parameters exactly, and tau = 0 leaves the target parameters unchanged |
| DoubleDqn.BlendFixesAgreement | value-based/neural-network/double_dqn.py:60-62 | a parameter on which the networks already agree keeps its value under any tau |
| DoubleDqn.CollectEps | value-based/neural-network/double_dqn.py:122-123 | eps is never below `eps_collect_min`; it equals either the minimum or `eps_collect * gamma^epoch`, and equals the latter whenever that exceeds the minimum |
| DoubleDqn.CollectEpsNonIncreasing | value-based/neural-network/double_dqn.py:122-123 | with a non-negative start and a rate in [0, 1], eps never grows from one epoch to the next |
| DoubleDqn.Save | value-based/neural-network/double_dqn.py:134-141 | a checkpoint is written exactly on strict improvement; training stops exactly when the improved reward reaches a set `max_reward` |
| DoubleDqn.DoubleDQNPolicy.constructor | value-based/neural-network/double_dqn.py:26-32 | the target parameters are a copy of the online ones, the online ones are untouched, and the counter starts at 0 |
| DoubleDqn.DoubleDQNPolicy.SoftUpdateTarget | value-based/neural-network/double_dqn.py:56-62 | every target parameter becomes `tau * online + (1 - tau) * old target`; the online parameters are unchanged |
| DoubleDqn.DoubleDQNPolicy.Update | value-based/neural-network/double_dqn.py:46-54 | the counter takes one periodic step; on firing the target is soft-updated once, otherwise the target is unchanged; the counter invariant is kept |
| DoubleDqn.DoubleDQNPolicy.SyncsAreQuotient | value-based/neural-network/double_dqn.py:46-54 | with a positive period, syncs = updates div period and the counter = updates mod period |
| DoubleDqn.DoubleDQNPolicy.Precollect | value-based/neural-network/double_dqn.py:119-123 | eps is set to the floored geometric schedule; the counters are unchanged |
| DoubleDqn.DoubleDQNPolicy.Preupdate | value-based/neural-network/double_dqn.py:126-129 | eps is 0 while updating |
| DoubleDqn.DoubleDQNPolicy.Pretest | value-based/neural-network/double_dqn.py:131-132 | eps is the test epsilon |
| DqnWithExperienceReplay.DoLearn | value-based/neural-network/dqn_with_experience_replay.py:47-62 | no loss exactly when the replay cannot sample; otherwise a non-negative loss equal to the MSE of taken-action values against their targets |
| DqnWithExperienceReplay.DoLearnZeroAtFixpoint | value-based/neural-network/dqn_with_experience_replay.py:52-57 | a batch whose taken-action values meet their targets gives loss 0 |
| DqnWithExperienceReplay.ReplayLearner.constructor | value-based/neural-network/dqn_with_experience_replay.py:22-25 | empty replay and a zero counter |
| DqnWithExperienceReplay.ReplayLearner.Learn | value-based/neural-network/dqn_with_experience_replay.py:30-45 | exactly the transition built from the arguments is appended; the counter takes one periodic step; `_do_learn` runs exactly when it fires, and the result is None otherwise |
| DqnWithExperienceReplay.ReplayLearner.LearnStepsAreQuotient | value-based/neural-network/dqn_with_experience_replay.py:41-45 | after n calls, `_do_learn` has run n div `step_per_learn` times, and the counter is n mod `step_per_learn` |
| Dqn.ActsAsReals | value-based/neural-network/dqn.py:53-54 | the action column read as numbers, entry by entry |
| Dqn.TargetsAsWritten | value-based/neural-network/dqn.py:53-62 | one target per sample: `a + (1 - a) * gamma * max Q(next)` with the sample's action `a` in place of both its reward and its done flag |
| Dqn.Targets | value-based/neural-network/dqn.py:62 | with the batch's rewards and done flags: the reward for a terminal sample, `r + gamma * max Q(next)` otherwise |
| Dqn.TargetsAsWrittenIgnoreRewards | value-based/neural-network/dqn.py:53-54 | as written, an action-0 sample bootstraps with no reward, and an action-1 sample gets target 1 whatever its reward |
| Dqn.TargetsAsWrittenDiffer | value-based/neural-network/dqn.py:53-54 | on a concrete one-sample batch the written target is 1 where the intended one is 1.8 |
| Dqn.LossWeights | value-based/neural-network/dqn.py:56 | the sampled weights for a prioritised buffer, 1.0 for every sample otherwise |
| Dqn.UpdateOn | value-based/neural-network/dqn.py:58-66 | prediction = target + TD error; the loss is non-negative for non-negative weights and zero when predictions meet targets; `update_weight(indexes, td_err)` is called exactly for a prioritised buffer |
| Dqn.UpdateAsWritten | value-based/neural-network/dqn.py:47-91 | as written: each prediction is the action-column target plus its TD error; the loss is non-negative for non-negative weights and zero when every prediction meets its target; `update_weight(indexes, td_err)` is called exactly for a prioritised buffer |
| Dqn.Update | value-based/neural-network/dqn.py:47-91 | as intended: each prediction is its target plus its TD error, the target being the reward for a terminal sample and `r + gamma * max Q(next)` otherwise; same loss and priority facts |
| Dqn.UpdatesAgreeWhenRewardsAreActions | value-based/neural-network/dqn.py:53-54 | the written and the intended update coincide on every batch whose rewards and done flags equal its actions |
| Dqn.LinearCollectEpsShape | value-based/neural-network/dqn.py:142-149 | the collect eps starts at `eps_collect`, reaches `eps_collect_min` at step 10^6 without a jump, holds it afterwards, and stays between the two in between |
| Dqn.Save | value-based/neural-network/dqn.py:157-162 | a checkpoint exactly on strict improvement, and training always goes on |
| Dqn.DQNPolicy.constructor | value-based/neural-network/dqn.py:34-35 | eps starts at 0 |
| Dqn.DQNPolicy.Forward | value-based/neural-network/dqn.py:37-45 | the actions are the argmaxes of the perturbed rows; with eps = 0 every action attains its row's maximum |
| Dqn.DQNPolicy.Precollect | value-based/neural-network/dqn.py:142-148 | eps is set to the linear collect schedule |
| Dqn.DQNPolicy.Preupdate | value-based/neural-network/dqn.py:151-152 | eps is 0 while updating |
| Dqn.DQNPolicy.Pretest | value-based/neural-network/dqn.py:154-155 | eps is the test epsilon |
| NnqAgent.PlayShape | value-based/neural-network/utils/nnq_agent.py:141-153 | an episode takes at most its budget of steps; each step starts from the previous step's observation and uses the action picked for it; only the last step may be done; an episode shorter than its budget ended on done |
| NnqAgent.TotalRewardAppend | value-based/neural-network/utils/nnq_agent.py:150 | `total_reward += reward` adds the step's reward to the running total |
| NnqAgent.TrainBudget | value-based/neural-network/utils/nnq_agent.py:141 | `range(1, max_step)` runs `max_step - 1` times, or not at all |
| NnqAgent.LinearEpsShape | value-based/neural-network/utils/nnq_agent.py:102-105 | the line is `eps_train` at episode 0 and `eps_min` at `total_episode`, and between the two in between |
| NnqAgent.LinearEpsEnd | value-based/neural-network/utils/nnq_agent.py:103-105 | at the last episode the line reaches `eps_min` |
| NnqAgent.LinearEpsBetween | value-based/neural-network/utils/nnq_agent.py:103-105 | for episodes in [0, total] the line stays within [eps_min, eps_train] |
| NnqAgent.DefaultEpsSchedule | value-based/neural-network/utils/nnq_agent.py:75-107 | under the default hyper-parameters every scheduled training eps lies in [0.0099, 0.891], above the test eps 0.001 |
| NnqAgent.LoopEventsMembers | value-based/neural-network/utils/nnq_agent.py:218-223 | the loop trains exactly episodes 1 .. total - 1 and tests exactly the positive multiples of `episode_per_test` among them |
| NnqAgent.ScheduleShape | value-based/neural-network/utils/nnq_agent.py:201-235 | a run always loads first; it aborts exactly when the step limit is at most 1 and there is an episode to train; a completed run trains and tests as above and ends by evaluating 10 episodes |
| NnqAgent.LoopSaveCount | value-based/neural-network/utils/nnq_agent.py:224-225 | the loop saves once per multiple of `episode_per_save` below the total |
| NnqAgent.ScheduleSaves | value-based/neural-network/utils/nnq_agent.py:218-228 | a completed run with a positive `episode_per_save` saves (total - 1) div `episode_per_save` + 1 times for `total_train_episode >= 1` and exactly once for a smaller total; it never saves without a positive period, and an aborted run never saves |
| NnqAgent.NoSavesWithoutPeriod | value-based/neural-network/utils/nnq_agent.py:224 | with `episode_per_save <= 0` the loop never saves |
| NnqAgent.PredictQValue | value-based/neural-network/utils/nnq_agent.py:253-263 | the rows are perturbed exactly as the exploration rule says, and returned unchanged when eps is 0 |
| NnqAgent.NNQAgent.constructor | value-based/neural-network/utils/nnq_agent.py:98-100 | eps starts at `eps_train` and no training step is counted |
| NnqAgent.NNQAgent.UpdateEps | value-based/neural-network/utils/nnq_agent.py:102-107 | eps is the linear schedule times the decay factor, returned and stored; episode 0 gives `eps_train * decay`, the last episode `eps_min * decay` |
| NnqAgent.NNQAgent.Call | value-based/neural-network/utils/nnq_agent.py:120-127 | the action is the argmax of the row perturbed with the train or the test eps, indexes the row, and attains the maximum when that eps is 0 |
| NnqAgent.NNQAgent.RunEpisode | value-based/neural-network/utils/nnq_agent.py:163-169 | the loop produces exactly the episode of the step-by-step play, and the total is the sum of its rewards |
| NnqAgent.NNQAgent.Train | value-based/neural-network/utils/nnq_agent.py:129-157 | eps follows the schedule; the episode is the play from the reset state with `max_step - 1` steps at most; every step goes to `learn` and is counted once; the replay grows by exactly the episode's transitions; it fails exactly when `max_step <= 1`; one train event is logged |
| NnqAgent.NNQAgent.Test | value-based/neural-network/utils/nnq_agent.py:159-173 | the episode is the play from the reset state with `max_step - 1` steps at most, with its reward total; it fails exactly when `max_step <= 1`; eps and the step count are unchanged and one test event is logged |
| NnqAgent.NNQAgent.Evaluate | value-based/neural-network/utils/nnq_agent.py:175-192 | each of the `total_episode` episodes runs from a fresh reset with `max_step` steps at most; the result is the mean of their totals, and there is none for no episode; eps and the step count are unchanged and one evaluation event is logged |
| NnqAgent.NNQAgent.SaveNetwork | value-based/neural-network/utils/nnq_agent.py:109-112 | one save event is logged; eps and the step count are unchanged |
| NnqAgent.NNQAgent.LoadNetwork | value-based/neural-network/utils/nnq_agent.py:114-117 | one load event is logged; eps and the step count are unchanged |
| NnqAgent.NNQAgent.LoopPass | value-based/neural-network/utils/nnq_agent.py:218-225 | one pass logs its train event, then a test and a save on the multiples of their periods; a failing train (exactly when `max_step <= 1`) logs only the train; eps is the schedule at this episode and total times the decay; the train state moves to the end of the episode played from its reset, whose transitions are appended to the replay and counted as training steps; the test state moves only when a test runs |
| NnqAgent.NNQAgent.EpisodeLoop | value-based/neural-network/utils/nnq_agent.py:218-225 | the loop logs the events of episodes 1 .. total - 1; it stops after the first train exactly when the step limit is at most 1 and there is an episode to train, leaving replay and step count as they were; otherwise the replay grows by, and the step count by the length of, the training episodes played one after the other, each from a reset of the state the last one left; eps ends at the schedule of episode total - 1 (of episode 1 after an abort) |
| NnqAgent.NNQAgent.FinishRun | value-based/neural-network/utils/nnq_agent.py:227-234 | a completed run logs the final save when saving is on, then one evaluation of 10 episodes whose mean reward it returns |
| NnqAgent.NNQAgent.TrainTestEval | value-based/neural-network/utils/nnq_agent.py:201-235 | the load, train, test, save and evaluate events the calls log, and whether the run completes, are exactly the schedule's; a completed run's replay and step count grow by the training episodes chained from the state the `log_graph` reset left, and its mean reward is the mean of the totals of 10 evaluation episodes from the evaluation state; an aborted run has no mean and leaves replay and step count unchanged; eps ends at the schedule of the last episode trained, each computed against `total_train_episode` |
| NnqAgent.NNQAgent.NextPass | value-based/neural-network/utils/nnq_agent.py:218-225 | after the passes of episodes 1 .. episode - 1, one more pass extends the log by that episode's events and the replay, the step count and the train state by one more training episode |
| NnqAgent.NNQAgent.AllPasses | value-based/neural-network/utils/nnq_agent.py:218-225 | when no train can fail, the loop over episodes 1 .. total - 1 logs exactly their events and chains all their training episodes into the replay and the step count; eps ends at the schedule of episode total - 1, or is untouched when no episode runs |
| NnqAgent.NNQAgent.TrainPhase | value-based/neural-network/utils/nnq_agent.py:213-225 | `log_graph` resets the train environment, the load is logged, and the loop runs from the state the reset left, with the effects of `EpisodeLoop` |
| NnqAgent.TrainRunsNext | value-based/neural-network/utils/nnq_agent.py:218-220 | episode e + 1 of the training run extends the first e - 1 episodes by the episode played from a reset of the state they left |
| NnqAgent.TrainRunsLength | value-based/neural-network/utils/nnq_agent.py:141 | training episodes 1 .. upTo - 1 append at most `max_step - 1` transitions each |
| FlappyBird.Push | value-based/neural-network/utils/flappybird_wrapper.py:52 | the stack keeps its length, slot i takes the old slot i + 1, and the last slot holds the new frame |
| FlappyBird.PushAll | value-based/neural-network/utils/flappybird_wrapper.py:49-53 | any number of pushes keeps the stack length |
| FlappyBird.PushAllWindow | value-based/neural-network/utils/flappybird_wrapper.py:49-53 | after any pushes the stack is a window over the old stack followed by the pushed frames, ending at the newest frame |
| FlappyBird.LastFrames | value-based/neural-network/utils/flappybird_wrapper.py:49-53 | after at least `stack_num` pushes the stack is exactly the last `stack_num` frames, in arrival order |
| FlappyBird.EmptyStack | value-based/neural-network/utils/flappybird_wrapper.py:38-39 | `stack_num` copies of the zero frame |
| FlappyBird.FlappyBirdWrapper.constructor | value-based/neural-network/utils/flappybird_wrapper.py:38-39 | the initial stack holds `stack_num` frames, all zero |
| FlappyBird.FlappyBirdWrapper.GetObs | value-based/neural-network/utils/flappybird_wrapper.py:49-53 | exactly one push of the current screen, and the new stack is returned |
| FlappyBird.FlappyBirdWrapper.Step | value-based/neural-network/utils/flappybird_wrapper.py:55-59 | the returned stack is one push on the previous stack; reward and done are the game's |
| FlappyBird.FlappyBirdWrapper.Reset | value-based/neural-network/utils/flappybird_wrapper.py:61-63 | the stack is not cleared: one frame is pushed onto the previous game's frames |
| FlappyBird.FlappyBirdWrapper.ObsIsWindow | value-based/neural-network/utils/flappybird_wrapper.py:38-53 | the observation is the last `stack_num` frames since construction, padded at the front with zero frames while fewer have arrived |

## Left out

- QRows.WeightedMeanSquare: only "zero errors give zero loss" is proved, not the converse ("a zero loss means every weighted error is zero").
- QRows.MeanSquaredError: only "predictions meeting targets give zero loss" is proved, not the converse.
- QRows.WeightedSquares: the converse ("a zero term means a zero error or weight") is not proved; `Dqn.UpdateOn` and `DqnWithExperienceReplay.DoLearn` inherit this one direction.
- Networks, forward passes, back-propagation and optimizer steps are thin library calls; Q-values enter as rows of reals.
- The replay buffers and their sampling, priorities and weight updates are library code outside this model. `update_weight` is recorded only as the call `update` makes.
- Random draws are inputs: the coins and noise rows of the exploration rule, and each episode's action choices (`pick`). `np.isclose(eps, 0)` is taken as `eps == 0`.
- Float rounding: all arithmetic is on reals.
- The `Policy` base class, `Collector`, `Tester` and the generic `train` driver are not part of this model. The same goes for `raw_dqn.py`. `DoubleDQNPolicy`'s initial eps therefore comes from a base class outside the model and is left unspecified.
- Logging, checkpoint files, directory creation, argument parsing and the `main` functions are I/O glue. The checkpoint decision of each `save` hook is modelled; writing the file is not. The default `gamma` of `__init__` is not modelled: the discount is a parameter of each update.
- The `episode` argument of `learn`/`_do_learn` is not used by the modelled arithmetic.
- Image capture and preprocessing (screen grab, resize, grey-scale) and the game itself are foreign libraries. Frames are an opaque type, and the reward and game-over flag of `step` are inputs. `save_screen` and `create_network` are left out.
- FlappyBird.FlappyBirdWrapper.constructor: requires `stack_num >= 1`. With no frames `np.stack` raises (flappybird_wrapper.py:39), and every caller uses the default of 4.
- NnqAgent.NNQAgent.UpdateEps: requires `total_episode != 0`, like `NnqAgent.NNQAgent.Train` and `NnqAgent.LinearEps`. A zero total raises ZeroDivisionError (nnq_agent.py:104), and `train_test_eval` only trains when the total exceeds 1.
- NnqAgent.NNQAgent.Evaluate: with no episode the result is `None`, where `np.mean([])` returns nan with a warning; nan is not modelled.
- NnqAgent.NNQAgent.EpisodeLoop: the state the test environment is left in after the whole loop is not stated; `NnqAgent.NNQAgent.LoopPass` states it pass by pass.
- NnqAgent.NNQAgent.TrainTestEval: `log_graph` is modelled only as the reset of the train environment it performs; the graph itself goes to the summary writer, which is left out.
- NnqAgent.NNQAgent.TrainTestEval: the train, test and evaluation environments are separate values. An environment object shared between two roles, as a script may pass, is not captured.
- DoubleDqn.DoubleDQNPolicy.Update: only the part after the base class's gradient step is modelled, because `super().update` is outside the model.

## Findings

| source | as written | input that shows it | evidently intended | confidence | as-written member | corrected member |
|---|---|---|---|---|---|---|
| value-based/neural-network/dqn.py:53-54 | `rews` and `dones` are both built from `batch.acts`, so the target ignores the sampled rewards and done flags | one non-terminal sample, action 1, reward 0, next row [2, 0], gamma 0.9: target 1 instead of 1.8 | `rews` from `batch.rews` and `dones` from `batch.dones` | high (not executed) | Dqn.TargetsAsWrittenDiffer | Dqn.Targets |
