/** `NNQAgent`, the neural-network Q-learning agent that drives
    `DQNWithExperienceReplayAgent`: the epsilon schedule, the epsilon-greedy
    action, the train / test / evaluate episode loops and the episode
    schedule of `train_test_eval`.

    The environment is a value: `reset` and `step` are total functions over
    an environment state `S`, threaded through the loops. The action the
    agent takes at each step depends on network weights and random draws the
    model does not hold, so inside the loops it is an input `pick(k, obs)`
    (step k of the episode); `Call` models how one such action is chosen from
    a Q-row. Logging to the summary writer is left out. */
module NnqAgent {
  import opened Common
  import opened QRows
  import opened DqnWithExperienceReplay

  /** The default hyper-parameters of `__init__`. */
  const DefaultEpsTrain: real := 0.9
  const DefaultEpsTest: real := 0.001
  const DefaultEpsMin: real := 0.01
  const DefaultEpsDecayPerUpdate: real := 0.99

  /** What `env.step(act)` returns, with the environment's next state. */
  datatype Outcome<S, O> = Outcome(state: S, obs: O, reward: real, done: bool)

  /** A gym environment: `reset` gives the first observation of an episode,
      `step` the outcome of an action. */
  datatype Env<!S, O> = Env(reset: S -> (S, O), step: (S, nat) -> Outcome<S, O>)

  /** The transitions of one episode and the environment state it ends in. */
  datatype Episode<S, O> = Episode(steps: seq<Transition<O>>, final: S)

  /** Runs an episode from `obs` for at most `budget` steps, stopping right
      after the first step that reports done. */
  function Play<S, O>(env: Env<S, O>, s: S, obs: O, pick: (nat, O) -> nat, k: nat, budget: nat): (e: Episode<S, O>)
    decreases budget
  {
    if budget == 0 then Episode([], s)
    else
      var a := pick(k, obs);
      var out := env.step(s, a);
      var t := Transition(obs, a, out.reward, out.obs, out.done);
      if out.done then Episode([t], out.state)
      else
        var rest := Play(env, out.state, out.obs, pick, k + 1, budget - 1);
        Episode([t] + rest.steps, rest.final)
  }

  /** An episode takes at most `budget` steps; each step starts from the
      observation the previous one produced and uses the action picked for
      it; no step but the last reports done; and an episode shorter than its
      budget ended on done. */
  lemma {:induction false} PlayShape<S, O>(env: Env<S, O>, s: S, obs: O, pick: (nat, O) -> nat, k: nat, budget: nat)
    ensures var e := Play(env, s, obs, pick, k, budget);
      |e.steps| <= budget
      && (|e.steps| > 0 ==> e.steps[0].obs == obs)
      && (forall i :: 0 <= i < |e.steps| ==> e.steps[i].act == pick(k + i, e.steps[i].obs))
      && (forall i :: 0 <= i < |e.steps| - 1 ==> !e.steps[i].done && e.steps[i + 1].obs == e.steps[i].nextObs)
      && (0 < |e.steps| < budget ==> e.steps[|e.steps| - 1].done)
      && (|e.steps| == 0 <==> budget == 0)
    decreases budget
  {
    if budget > 0 {
      var a := pick(k, obs);
      var out := env.step(s, a);
      if !out.done {
        PlayShape(env, out.state, out.obs, pick, k + 1, budget - 1);
        var rest := Play(env, out.state, out.obs, pick, k + 1, budget - 1);
        var e := Play(env, s, obs, pick, k, budget);
        assert e.steps == [Transition(obs, a, out.reward, out.obs, out.done)] + rest.steps;
        forall i | 1 <= i < |e.steps|
          ensures e.steps[i] == rest.steps[i - 1]
        {
        }
      }
    }
  }

  /** The rewards of an episode's transitions. */
  function Rewards<O>(steps: seq<Transition<O>>): (r: seq<real>)
    ensures |r| == |steps| && forall i :: 0 <= i < |steps| ==> r[i] == steps[i].reward
  {
    seq(|steps|, i requires 0 <= i < |steps| => steps[i].reward)
  }

  /** `total_reward`: the rewards summed in the order they arrived. */
  function TotalReward<O>(steps: seq<Transition<O>>): real
  {
    Sum(Rewards(steps))
  }

  lemma TotalRewardAppend<O>(steps: seq<Transition<O>>, t: Transition<O>)
    ensures TotalReward(steps + [t]) == TotalReward(steps) + t.reward
  {
    assert Rewards(steps + [t])[..|steps|] == Rewards(steps);
  }

  /** A loop that has taken `steps` and stands at (`cur`, `o`) is on track
      to produce the episode `Play` describes from (`s0`, `obs0`). */
  ghost predicate OnTrack<S, O>(env: Env<S, O>, s0: S, obs0: O, pick: (nat, O) -> nat, budget: nat,
                                steps: seq<Transition<O>>, cur: S, o: O, done: bool)
  {
    var full := Play(env, s0, obs0, pick, 0, budget);
    |steps| <= budget
    && (done ==> Episode(steps, cur) == full)
    && (!done ==> var rest := Play(env, cur, o, pick, |steps|, budget - |steps|);
                  steps + rest.steps == full.steps && rest.final == full.final)
  }

  lemma OnTrackStart<S, O>(env: Env<S, O>, s0: S, obs0: O, pick: (nat, O) -> nat, budget: nat)
    ensures OnTrack(env, s0, obs0, pick, budget, [], s0, obs0, false)
  {
    assert [] + Play(env, s0, obs0, pick, 0, budget).steps == Play(env, s0, obs0, pick, 0, budget).steps;
  }

  /** Taking the picked action keeps the loop on track. */
  lemma Advance<S, O>(env: Env<S, O>, s0: S, obs0: O, pick: (nat, O) -> nat, budget: nat,
                      steps: seq<Transition<O>>, cur: S, o: O)
    requires OnTrack(env, s0, obs0, pick, budget, steps, cur, o, false) && |steps| < budget
    ensures var a := pick(|steps|, o);
            var out := env.step(cur, a);
            OnTrack(env, s0, obs0, pick, budget, steps + [Transition(o, a, out.reward, out.obs, out.done)],
                    out.state, out.obs, out.done)
  {
    var k := |steps|;
    var a := pick(k, o);
    var out := env.step(cur, a);
    var t := Transition(o, a, out.reward, out.obs, out.done);
    var rest := Play(env, cur, o, pick, k, budget - k);
    if !out.done {
      var next := Play(env, out.state, out.obs, pick, k + 1, budget - k - 1);
      assert rest.steps == [t] + next.steps;
      assert steps + ([t] + next.steps) == (steps + [t]) + next.steps;
    } else {
      assert rest.steps == [t];
    }
  }

  /** A loop that stopped on done or used up its budget has produced the episode. */
  lemma OnTrackEnd<S, O>(env: Env<S, O>, s0: S, obs0: O, pick: (nat, O) -> nat, budget: nat,
                         steps: seq<Transition<O>>, cur: S, o: O, done: bool)
    requires OnTrack(env, s0, obs0, pick, budget, steps, cur, o, done)
    requires done || |steps| == budget
    ensures Episode(steps, cur) == Play(env, s0, obs0, pick, 0, budget)
  {
    if !done {
      assert steps + [] == steps;
    }
  }

  /** `range(1, max_step)` runs `max_step - 1` times, or not at all. */
  function TrainBudget(maxStep: int): (b: nat)
    ensures maxStep > 1 ==> b == maxStep - 1
    ensures maxStep <= 1 ==> b == 0
  {
    if maxStep > 1 then maxStep - 1 else 0
  }

  /** The epsilon of `update_eps` before the decay factor: linear from
      `eps_train` at episode 0 to `eps_min` at `total_episode`. */
  function LinearEps(epsTrain: real, epsMin: real, episode: int, totalEpisode: int): real
    requires totalEpisode != 0
  {
    epsTrain - (epsTrain - epsMin) * episode as real / totalEpisode as real
  }

  /** The line starts at `eps_train`, ends at `eps_min`, and in between
      stays within the two. */
  lemma LinearEpsShape(epsTrain: real, epsMin: real, episode: int, totalEpisode: int)
    requires totalEpisode != 0
    ensures LinearEps(epsTrain, epsMin, 0, totalEpisode) == epsTrain
    ensures LinearEps(epsTrain, epsMin, totalEpisode, totalEpisode) == epsMin
    ensures epsMin <= epsTrain && 0 <= episode <= totalEpisode ==>
              epsMin <= LinearEps(epsTrain, epsMin, episode, totalEpisode) <= epsTrain
  {
    LinearEpsEnd(epsTrain, epsMin, totalEpisode);
    if epsMin <= epsTrain && 0 <= episode <= totalEpisode {
      LinearEpsBetween(epsTrain, epsMin, episode, totalEpisode);
    }
  }

  lemma LinearEpsEnd(epsTrain: real, epsMin: real, totalEpisode: int)
    requires totalEpisode != 0
    ensures LinearEps(epsTrain, epsMin, totalEpisode, totalEpisode) == epsMin
  {
    Quotient(epsTrain - epsMin, totalEpisode as real, totalEpisode as real);
  }

  lemma LinearEpsBetween(epsTrain: real, epsMin: real, episode: int, totalEpisode: int)
    requires epsMin <= epsTrain && 0 <= episode <= totalEpisode && totalEpisode != 0
    ensures epsMin <= LinearEps(epsTrain, epsMin, episode, totalEpisode) <= epsTrain
  {
    Quotient(epsTrain - epsMin, episode as real, totalEpisode as real);
  }

  /** Under the default hyper-parameters every training eps of an episode
      in the schedule lies between 0.0099 and 0.891, so training always
      explores more often than testing does. */
  lemma DefaultEpsSchedule(episode: int, totalEpisode: int)
    requires 0 <= episode <= totalEpisode && totalEpisode != 0
    ensures var e := LinearEps(DefaultEpsTrain, DefaultEpsMin, episode, totalEpisode) * DefaultEpsDecayPerUpdate;
            0.0099 <= e <= 0.891 && DefaultEpsTest < e
  {
    LinearEpsBetween(DefaultEpsTrain, DefaultEpsMin, episode, totalEpisode);
  }

  /** `d * x / t` is `d` when `x` is `t`, and lies in [0, d] when `x` lies in [0, t]. */
  lemma Quotient(d: real, x: real, t: real)
    requires t != 0.0
    ensures x == t ==> d * x / t == d
    ensures d >= 0.0 && 0.0 <= x <= t ==> 0.0 <= d * x / t <= d
  {
    var q := d * x / t;
    assert q * t == d * x;
    if x == t {
      assert (q - d) * t == 0.0;
    }
    if d >= 0.0 && 0.0 <= x <= t {
      assert d * x >= 0.0;
      assert d * (t - x) >= 0.0;
      assert q * t >= 0.0 && (d - q) * t >= 0.0;
    }
  }

  /** An episode played from a reset of `s`. */
  function EpisodeFrom<S, O>(env: Env<S, O>, s: S, pick: (nat, O) -> nat, budget: nat): (e: Episode<S, O>)
    ensures |e.steps| <= budget
  {
    PlayShape(env, env.reset(s).0, env.reset(s).1, pick, 0, budget);
    Play(env, env.reset(s).0, env.reset(s).1, pick, 0, budget)
  }

  /** The events of `train_test_eval`, in the order they happen. */
  datatype Event = Load | TrainEpisode(episode: int) | TestEpisode(episode: int) | SaveCheckpoint | Evaluation(episodes: int)

  /** The events of one pass of the episode loop. */
  function EpisodeEvents(episode: int, episodePerTest: int, episodePerSave: int): seq<Event>
  {
    [TrainEpisode(episode)]
    + (if episodePerTest > 0 && episode % episodePerTest == 0 then [TestEpisode(episode)] else [])
    + (if episodePerSave > 0 && episode % episodePerSave == 0 then [SaveCheckpoint] else [])
  }

  /** The events of the loop over episodes `1 .. upTo - 1`. */
  function LoopEvents(upTo: int, episodePerTest: int, episodePerSave: int): seq<Event>
    decreases upTo
  {
    if upTo <= 1 then []
    else LoopEvents(upTo - 1, episodePerTest, episodePerSave) + EpisodeEvents(upTo - 1, episodePerTest, episodePerSave)
  }

  /** The whole schedule and whether it runs to the end: the first `train`
      fails when `max_step_per_episode <= 1`, because it logs a loop
      variable that was never bound. */
  datatype Schedule = Schedule(events: seq<Event>, completed: bool)

  function TrainTestEvalSchedule(totalTrainEpisode: int, maxStepPerEpisode: int,
                                 episodePerTest: int, episodePerSave: int): Schedule
  {
    if maxStepPerEpisode <= 1 && totalTrainEpisode > 1 then Schedule([Load, TrainEpisode(1)], false)
    else Schedule([Load] + LoopEvents(totalTrainEpisode, episodePerTest, episodePerSave)
                  + (if episodePerSave > 0 then [SaveCheckpoint] else []) + [Evaluation(10)], true)
  }

  /** Which train and test episodes the loop runs. */
  lemma {:induction false} LoopEventsMembers(upTo: int, episodePerTest: int, episodePerSave: int, e: int)
    ensures TrainEpisode(e) in LoopEvents(upTo, episodePerTest, episodePerSave) <==> 1 <= e < upTo
    ensures TestEpisode(e) in LoopEvents(upTo, episodePerTest, episodePerSave) <==>
              1 <= e < upTo && episodePerTest > 0 && e % episodePerTest == 0
    decreases upTo
  {
    if upTo > 1 {
      LoopEventsMembers(upTo - 1, episodePerTest, episodePerSave, e);
    }
  }

  /** A completed run trains episodes 1 .. total - 1, tests exactly the
      positive multiples of `episode_per_test` among them, always loads
      first, and always ends by evaluating 10 episodes, whatever evaluation
      count was asked for. An aborted run is one whose step limit is at most
      one and that had an episode to train. */
  lemma ScheduleShape(totalTrainEpisode: int, maxStepPerEpisode: int, episodePerTest: int, episodePerSave: int, e: int)
    ensures var r := TrainTestEvalSchedule(totalTrainEpisode, maxStepPerEpisode, episodePerTest, episodePerSave);
      |r.events| >= 2 && r.events[0] == Load
      && (!r.completed <==> maxStepPerEpisode <= 1 && totalTrainEpisode > 1)
      && (r.completed ==> r.events[|r.events| - 1] == Evaluation(10))
      && (r.completed ==> (TrainEpisode(e) in r.events <==> 1 <= e < totalTrainEpisode))
      && (r.completed ==> (TestEpisode(e) in r.events <==>
                            1 <= e < totalTrainEpisode && episodePerTest > 0 && e % episodePerTest == 0))
  {
    LoopEventsMembers(totalTrainEpisode, episodePerTest, episodePerSave, e);
  }

  lemma LoopEventsStep(episode: int, episodePerTest: int, episodePerSave: int)
    requires episode >= 1
    ensures LoopEvents(episode + 1, episodePerTest, episodePerSave)
            == LoopEvents(episode, episodePerTest, episodePerSave) + EpisodeEvents(episode, episodePerTest, episodePerSave)
  {
  }

  /** A log that grew by the training phase and, when that completed, by
      the final save and evaluation, grew by exactly the schedule. */
  lemma LogFollowsSchedule(start: seq<Event>, trained: seq<Event>, finished: seq<Event>, ok: bool,
                           totalTrainEpisode: int, maxStepPerEpisode: int, episodePerTest: int, episodePerSave: int)
    requires ok <==> !(maxStepPerEpisode <= 1 && totalTrainEpisode > 1)
    requires ok ==> trained == start + [Load] + LoopEvents(totalTrainEpisode, episodePerTest, episodePerSave)
    requires !ok ==> trained == start + [Load, TrainEpisode(1)] && finished == trained
    requires ok ==> finished == trained + (if episodePerSave > 0 then [SaveCheckpoint] else []) + [Evaluation(10)]
    ensures var r := TrainTestEvalSchedule(totalTrainEpisode, maxStepPerEpisode, episodePerTest, episodePerSave);
            finished == start + r.events && ok == r.completed
  {
  }

  function SaveCount(events: seq<Event>): nat
  {
    if events == [] then 0
    else SaveCount(events[..|events| - 1]) + if events[|events| - 1] == SaveCheckpoint then 1 else 0
  }

  lemma {:induction false} SaveCountAppend(a: seq<Event>, b: seq<Event>)
    ensures SaveCount(a + b) == SaveCount(a) + SaveCount(b)
    decreases |b|
  {
    if b != [] {
      var b' := b[..|b| - 1];
      assert (a + b)[..|a + b| - 1] == a + b';
      SaveCountAppend(a, b');
    } else {
      assert a + b == a;
    }
  }

  /** The loop saves once per multiple of `episode_per_save` below `upTo`. */
  lemma {:induction false} LoopSaveCount(upTo: int, episodePerTest: int, episodePerSave: int)
    requires upTo >= 1 && episodePerSave > 0
    ensures SaveCount(LoopEvents(upTo, episodePerTest, episodePerSave)) == (upTo - 1) / episodePerSave
    decreases upTo
  {
    if upTo > 1 {
      var e := upTo - 1;
      LoopSaveCount(e, episodePerTest, episodePerSave);
      SaveCountAppend(LoopEvents(e, episodePerTest, episodePerSave), EpisodeEvents(e, episodePerTest, episodePerSave));
      var tst: seq<Event> := if episodePerTest > 0 && e % episodePerTest == 0 then [TestEpisode(e)] else [];
      var sv: seq<Event> := if e % episodePerSave == 0 then [SaveCheckpoint] else [];
      SaveCountAppend([TrainEpisode(e)], tst);
      SaveCountAppend([TrainEpisode(e)] + tst, sv);
      assert SaveCount([TrainEpisode(e)]) == 0 by {
        assert [TrainEpisode(e)][..0] == [];
      }
      assert SaveCount(tst) == 0 by {
        if tst != [] {
          assert tst[..0] == [];
        }
      }
      assert SaveCount(sv) == if e % episodePerSave == 0 then 1 else 0 by {
        if sv != [] {
          assert sv[..0] == [];
        }
      }
      CountMultiples(e, episodePerSave);
    }
  }

  /** Going from n - 1 to n adds one to n / p exactly when p divides n. */
  lemma CountMultiples(n: int, p: int)
    requires n >= 1 && p >= 1
    ensures n / p == (n - 1) / p + if n % p == 0 then 1 else 0
  {
    var q, r := (n - 1) / p, (n - 1) % p;
    assert n - 1 == p * q + r;
    if r == p - 1 {
      assert n == p * (q + 1) + 0;
      DivModUnique(n, p, q + 1, 0);
    } else {
      DivModUnique(n, p, q, r + 1);
    }
  }

  /** A completed run with a positive `episode_per_save` saves once per
      multiple of it among the trained episodes 1 .. total - 1 and once more
      at the end, so exactly once when there is no episode to train; with no
      positive period it never saves, and an aborted run never saves. */
  lemma ScheduleSaves(totalTrainEpisode: int, maxStepPerEpisode: int, episodePerTest: int, episodePerSave: int)
    ensures var r := TrainTestEvalSchedule(totalTrainEpisode, maxStepPerEpisode, episodePerTest, episodePerSave);
            var trained := if totalTrainEpisode >= 1 then totalTrainEpisode - 1 else 0;
            (r.completed ==> SaveCount(r.events) == if episodePerSave > 0 then trained / episodePerSave + 1 else 0)
            && (!r.completed ==> SaveCount(r.events) == 0)
  {
    if maxStepPerEpisode <= 1 && totalTrainEpisode > 1 {
      AbortedRunSaves();
    } else {
      CompletedRunSaves(totalTrainEpisode, episodePerTest, episodePerSave);
    }
  }

  /** The events of an aborted run hold no checkpoint. */
  lemma AbortedRunSaves()
    ensures SaveCount([Load, TrainEpisode(1)]) == 0
  {
    SaveCountAppend([Load], [TrainEpisode(1)]);
    assert [Load] + [TrainEpisode(1)] == [Load, TrainEpisode(1)];
    assert SaveCount([Load]) == 0 by {
      assert [Load][..0] == [];
    }
    assert SaveCount([TrainEpisode(1)]) == 0 by {
      assert [TrainEpisode(1)][..0] == [];
    }
  }

  /** The checkpoints of a completed run: one per multiple of the period
      among the trained episodes, plus the final save. */
  lemma CompletedRunSaves(totalTrainEpisode: int, episodePerTest: int, episodePerSave: int)
    ensures var trained := if totalTrainEpisode >= 1 then totalTrainEpisode - 1 else 0;
            SaveCount([Load] + LoopEvents(totalTrainEpisode, episodePerTest, episodePerSave)
                      + (if episodePerSave > 0 then [SaveCheckpoint] else []) + [Evaluation(10)])
            == if episodePerSave > 0 then trained / episodePerSave + 1 else 0
  {
    var fin: seq<Event> := if episodePerSave > 0 then [SaveCheckpoint] else [];
    FramedSaveCount(LoopEvents(totalTrainEpisode, episodePerTest, episodePerSave), fin);
    LoopSaves(totalTrainEpisode, episodePerTest, episodePerSave);
    if episodePerSave > 0 {
      assert SaveCount(fin) == 1 by {
        assert fin[..0] == [];
      }
    }
  }

  /** Loading and the closing evaluation add no checkpoint. */
  lemma FramedSaveCount(loop: seq<Event>, fin: seq<Event>)
    ensures SaveCount([Load] + loop + fin + [Evaluation(10)]) == SaveCount(loop) + SaveCount(fin)
  {
    SaveCountAppend([Load], loop);
    SaveCountAppend([Load] + loop, fin);
    SaveCountAppend([Load] + loop + fin, [Evaluation(10)]);
    assert SaveCount([Load]) == 0 by {
      assert [Load][..0] == [];
    }
    assert SaveCount([Evaluation(10)]) == 0 by {
      assert [Evaluation(10)][..0] == [];
    }
  }

  /** The loop's own checkpoints, whatever the episode count. */
  lemma LoopSaves(totalTrainEpisode: int, episodePerTest: int, episodePerSave: int)
    ensures var trained := if totalTrainEpisode >= 1 then totalTrainEpisode - 1 else 0;
            SaveCount(LoopEvents(totalTrainEpisode, episodePerTest, episodePerSave))
            == if episodePerSave > 0 then trained / episodePerSave else 0
  {
    if episodePerSave > 0 {
      var upTo := if totalTrainEpisode >= 1 then totalTrainEpisode else 1;
      assert LoopEvents(totalTrainEpisode, episodePerTest, episodePerSave) == LoopEvents(upTo, episodePerTest, episodePerSave);
      LoopSaveCount(upTo, episodePerTest, episodePerSave);
    } else {
      NoSavesWithoutPeriod(totalTrainEpisode, episodePerTest, episodePerSave);
    }
  }

  lemma {:induction false} NoSavesWithoutPeriod(upTo: int, episodePerTest: int, episodePerSave: int)
    requires episodePerSave <= 0
    ensures SaveCount(LoopEvents(upTo, episodePerTest, episodePerSave)) == 0
    decreases upTo
  {
    if upTo > 1 {
      var e := upTo - 1;
      NoSavesWithoutPeriod(e, episodePerTest, episodePerSave);
      SaveCountAppend(LoopEvents(e, episodePerTest, episodePerSave), EpisodeEvents(e, episodePerTest, episodePerSave));
      var tst: seq<Event> := if episodePerTest > 0 && e % episodePerTest == 0 then [TestEpisode(e)] else [];
      SaveCountAppend([TrainEpisode(e)], tst);
      assert EpisodeEvents(e, episodePerTest, episodePerSave) == [TrainEpisode(e)] + tst;
      assert SaveCount([TrainEpisode(e)]) == 0 by {
        assert [TrainEpisode(e)][..0] == [];
      }
      assert SaveCount(tst) == 0 by {
        if tst != [] {
          assert tst[..0] == [];
        }
      }
    }
  }

  /** The per-episode totals and the final environment state of `evaluate`'s
      first `n` episodes, each given `budget` steps. */
  datatype Evaluation<S> = EvaluationRuns(totals: seq<real>, final: S)

  function EvaluationRun<S, O>(env: Env<S, O>, s: S, picks: nat -> (nat, O) -> nat, n: nat, budget: nat): (r: Evaluation<S>)
    ensures |r.totals| == n
  {
    if n == 0 then EvaluationRuns([], s)
    else
      var prev := EvaluationRun(env, s, picks, n - 1, budget);
      var (s1, obs) := env.reset(prev.final);
      var e := Play(env, s1, obs, picks(n - 1), 0, budget);
      EvaluationRuns(prev.totals + [TotalReward(e.steps)], e.final)
  }

  /** The transitions and the final environment state of the training
      episodes 1 .. upTo - 1, each starting from a reset of the state the
      previous one left and given `budget` steps. */
  function TrainRuns<S, O>(env: Env<S, O>, s: S, picks: nat -> (nat, O) -> nat, upTo: int, budget: nat): (r: Episode<S, O>)
    decreases upTo
  {
    if upTo <= 1 then Episode([], s)
    else
      var prev := TrainRuns(env, s, picks, upTo - 1, budget);
      var e := EpisodeFrom(env, prev.final, picks(upTo - 1), budget);
      Episode(prev.steps + e.steps, e.final)
  }

  /** One more training episode extends the run by the episode played from
      a reset of the state the run left. */
  lemma TrainRunsNext<S, O>(env: Env<S, O>, s: S, picks: nat -> (nat, O) -> nat, episode: int, budget: nat)
    requires episode >= 1
    ensures var prev := TrainRuns(env, s, picks, episode, budget);
            var e := EpisodeFrom(env, prev.final, picks(episode), budget);
            TrainRuns(env, s, picks, episode + 1, budget) == Episode(prev.steps + e.steps, e.final)
  {
  }

  /** The training episodes before `upTo` take at most `budget` steps each. */
  lemma {:induction false} TrainRunsLength<S, O>(env: Env<S, O>, s: S, picks: nat -> (nat, O) -> nat, upTo: int, budget: nat)
    requires upTo >= 1
    ensures |TrainRuns(env, s, picks, upTo, budget).steps| <= (upTo - 1) * budget
    decreases upTo
  {
    if upTo > 1 {
      TrainRunsLength(env, s, picks, upTo - 1, budget);
      var prev := TrainRuns(env, s, picks, upTo - 1, budget);
      PlayShape(env, env.reset(prev.final).0, env.reset(prev.final).1, picks(upTo - 1), 0, budget);
      assert (upTo - 2) * budget + budget == (upTo - 1) * budget;
    }
  }

  /** `_predict_qvalue` on the Q-rows the network gives: unless eps is
      zero, each row whose coin falls below eps is overwritten by noise. */
  method PredictQValue(rows: seq<QRow>, eps: real, coins: seq<real>, noise: seq<QRow>) returns (q: seq<QRow>)
    requires ExploreInputs(rows, coins, noise)
    ensures q == Explore(rows, eps, coins, noise)
    ensures eps == 0.0 ==> q == rows
  {
    q := rows;
    if eps != 0.0 {
      for i := 0 to |rows|
        invariant |q| == |rows|
        invariant forall j :: 0 <= j < i ==> q[j] == Explore(rows, eps, coins, noise)[j]
        invariant forall j :: i <= j < |rows| ==> q[j] == rows[j]
      {
        if coins[i] < eps {
          q := q[i := noise[i]];
        }
      }
    }
    assert q == Explore(rows, eps, coins, noise);
  }

  class NNQAgent<O> {
    const epsTrain: real
    const epsTest: real
    const epsMin: real
    const epsDecayPerUpdate: real
    var eps: real
    var trainStepCount: nat
    /** The `learn` of the concrete agent, with its replay and counter. */
    const learner: ReplayLearner<O>
    /** The loads, train and test episodes, saves and evaluations run so
        far, in order. */
    ghost var log: seq<Event>

    /** Every learn call is one counted training step. */
    ghost predicate Valid()
      reads this, learner
    {
      learner.Valid() && trainStepCount == learner.calls
    }

    /** `__init__`: training starts at `eps_train` with no steps counted. */
    constructor(learner: ReplayLearner<O>, epsTrain: real, epsTest: real, epsMin: real, epsDecayPerUpdate: real)
      requires learner.Valid() && learner.calls == 0
      ensures Valid()
      ensures this.learner == learner && this.epsTrain == epsTrain && this.epsTest == epsTest
      ensures this.epsMin == epsMin && this.epsDecayPerUpdate == epsDecayPerUpdate
      ensures eps == epsTrain && trainStepCount == 0 && log == []
    {
      this.learner := learner;
      this.epsTrain := epsTrain;
      this.epsTest := epsTest;
      this.epsMin := epsMin;
      this.epsDecayPerUpdate := epsDecayPerUpdate;
      eps := epsTrain;
      trainStepCount := 0;
      log := [];
    }

    /** `update_eps`: the linear schedule, scaled by the decay factor. The
        source divides by `total_episode`, so it must not be zero. */
    method UpdateEps(episode: int, totalEpisode: int) returns (e: real)
      requires totalEpisode != 0
      modifies this
      ensures e == eps == LinearEps(epsTrain, epsMin, episode, totalEpisode) * epsDecayPerUpdate
      ensures episode == 0 ==> e == epsTrain * epsDecayPerUpdate
      ensures episode == totalEpisode ==> e == epsMin * epsDecayPerUpdate
      ensures trainStepCount == old(trainStepCount) && log == old(log)
    {
      LinearEpsShape(epsTrain, epsMin, episode, totalEpisode);
      eps := epsTrain - (epsTrain - epsMin) * episode as real / totalEpisode as real;
      eps := eps * epsDecayPerUpdate;
      e := eps;
    }

    /** `__call__` on the Q-row of one observation: the training eps when
        training, the test eps otherwise, then the argmax. */
    method Call(isTrain: bool, row: QRow, coin: real, noise: QRow) returns (act: nat)
      requires |row| > 0 && ExploreInputs([row], [coin], [noise])
      ensures act == ArgMax(Explore([row], if isTrain then eps else epsTest, [coin], [noise])[0])
      ensures act < |row|
      ensures (if isTrain then eps else epsTest) == 0.0 ==> row[act] == Max(row)
    {
      var e := if isTrain then eps else epsTest;
      var q := PredictQValue([row], e, [coin], [noise]);
      act := ArgMax(q[0]);
    }

    /** One episode of steps without learning: the inner loop of `test`
        and of `evaluate`. */
    method RunEpisode<S>(env: Env<S, O>, s: S, obs: O, pick: (nat, O) -> nat, budget: nat)
      returns (steps: seq<Transition<O>>, final: S, total: real)
      ensures Episode(steps, final) == Play(env, s, obs, pick, 0, budget)
      ensures total == TotalReward(steps)
    {
      var cur, o := s, obs;
      steps, total := [], 0.0;
      var done := false;
      OnTrackStart(env, s, obs, pick, budget);
      while |steps| < budget && !done
        invariant OnTrack(env, s, obs, pick, budget, steps, cur, o, done)
        invariant total == TotalReward(steps)
        decreases budget - |steps|, if done then 0 else 1
      {
        var a := pick(|steps|, o);
        var out := env.step(cur, a);
        var t := Transition(o, a, out.reward, out.obs, out.done);
        Advance(env, s, obs, pick, budget, steps, cur, o);
        TotalRewardAppend(steps, t);
        total := total + out.reward;
        steps := steps + [t];
        cur, o := out.state, out.obs;
        done := out.done;
      }
      OnTrackEnd(env, s, obs, pick, budget, steps, cur, o, done);
      final := cur;
    }

    /** `test`: reset, then play for at most `max_step - 1` steps with the
        test eps. With `max_step <= 1` the source fails after the loop, on
        logging the unbound loop variable; `ok` is false then. */
    method Test<S>(episode: int, env: Env<S, O>, s: S, maxStep: int, pick: (nat, O) -> nat)
      returns (ok: bool, steps: seq<Transition<O>>, final: S, total: real)
      requires Valid()
      modifies this
      ensures Valid() && eps == old(eps) && trainStepCount == old(trainStepCount)
      ensures log == old(log) + [TestEpisode(episode)]
      ensures ok <==> maxStep > 1
      ensures var (s1, obs) := env.reset(s);
              Episode(steps, final) == Play(env, s1, obs, pick, 0, TrainBudget(maxStep))
      ensures total == TotalReward(steps)
    {
      var (s1, obs) := env.reset(s);
      steps, final, total := RunEpisode(env, s1, obs, pick, TrainBudget(maxStep));
      ok := maxStep > 1;
      log := log + [TestEpisode(episode)];
    }

    /** `evaluate`: `total_episode` episodes of at most `max_step` steps
        each, and the mean of their totals; there is no mean of no episode. */
    method Evaluate<S>(totalEpisode: int, env: Env<S, O>, s: S, maxStep: int, picks: nat -> (nat, O) -> nat)
      returns (mean: Option<real>, final: S)
      requires Valid()
      modifies this
      ensures Valid() && eps == old(eps) && trainStepCount == old(trainStepCount)
      ensures log == old(log) + [Evaluation(totalEpisode)]
      ensures var n := if totalEpisode > 0 then totalEpisode else 0;
              var r := EvaluationRun(env, s, picks, n, if maxStep > 0 then maxStep else 0);
              final == r.final && (mean.Some? <==> n > 0) && (n > 0 ==> mean == Some(Mean(r.totals)))
    {
      var n := if totalEpisode > 0 then totalEpisode else 0;
      var budget := if maxStep > 0 then maxStep else 0;
      var totals: seq<real> := [];
      final := s;
      for e := 0 to n
        invariant EvaluationRun(env, s, picks, e, budget) == EvaluationRuns(totals, final)
        invariant unchanged(this)
      {
        var (s1, obs) := env.reset(final);
        var steps, fin, total := RunEpisode(env, s1, obs, picks(e), budget);
        totals := totals + [total];
        final := fin;
      }
      mean := if n > 0 then Some(Mean(totals)) else None;
      log := log + [Evaluation(totalEpisode)];
    }

    /** `train`: set eps by the schedule, reset, and play at most
        `max_step - 1` steps; every step goes to `learn` (which receives the
        replay's sample for that learn call) and is counted. With
        `max_step <= 1` the source fails after the loop; `ok` is false then. */
    method Train<S>(episode: int, totalEpisode: int, env: Env<S, O>, s: S, maxStep: int,
                    pick: (nat, O) -> nat, samples: nat -> Option<ReplayBatch>)
      returns (ok: bool, steps: seq<Transition<O>>, final: S, total: real)
      requires totalEpisode != 0
      requires Valid()
      requires forall n :: samples(n).Some? ==> WellFormed(samples(n).value)
      modifies this, learner
      ensures Valid()
      ensures ok <==> maxStep > 1
      ensures eps == LinearEps(epsTrain, epsMin, episode, totalEpisode) * epsDecayPerUpdate
      ensures var (s1, obs) := env.reset(s);
              Episode(steps, final) == Play(env, s1, obs, pick, 0, TrainBudget(maxStep))
      ensures total == TotalReward(steps)
      ensures trainStepCount == old(trainStepCount) + |steps|
      ensures learner.replay == old(learner.replay) + steps
      ensures log == old(log) + [TrainEpisode(episode)]
    {
      var _ := UpdateEps(episode, totalEpisode);
      var (s0, obs0) := env.reset(s);
      var budget := TrainBudget(maxStep);
      var cur, o := s0, obs0;
      steps, total := [], 0.0;
      var done := false;
      OnTrackStart(env, s0, obs0, pick, budget);
      while |steps| < budget && !done
        invariant Valid()
        invariant eps == LinearEps(epsTrain, epsMin, episode, totalEpisode) * epsDecayPerUpdate
        invariant trainStepCount == old(trainStepCount) + |steps|
        invariant learner.replay == old(learner.replay) + steps
        invariant log == old(log)
        invariant OnTrack(env, s0, obs0, pick, budget, steps, cur, o, done)
        invariant total == TotalReward(steps)
        decreases budget - |steps|, if done then 0 else 1
      {
        var a := pick(|steps|, o);
        var out := env.step(cur, a);
        var t := Transition(o, a, out.reward, out.obs, out.done);
        Advance(env, s0, obs0, pick, budget, steps, cur, o);
        TotalRewardAppend(steps, t);
        var _ := learner.Learn(o, a, out.reward, out.obs, out.done, samples(trainStepCount));
        trainStepCount := trainStepCount + 1;
        total := total + out.reward;
        steps := steps + [t];
        cur, o := out.state, out.obs;
        done := out.done;
      }
      OnTrackEnd(env, s0, obs0, pick, budget, steps, cur, o, done);
      final := cur;
      ok := maxStep > 1;
      log := log + [TrainEpisode(episode)];
    }

    /** `save`: the network goes to the checkpoint file, which is outside
        the model; only the event is recorded. */
    method SaveNetwork()
      requires Valid()
      modifies this
      ensures Valid() && eps == old(eps) && trainStepCount == old(trainStepCount)
      ensures log == old(log) + [SaveCheckpoint]
    {
      log := log + [SaveCheckpoint];
    }

    /** `load`: an attempt to read the checkpoint file, which is outside
        the model; only the event is recorded. */
    method LoadNetwork()
      requires Valid()
      modifies this
      ensures Valid() && eps == old(eps) && trainStepCount == old(trainStepCount)
      ensures log == old(log) + [Load]
    {
      log := log + [Load];
    }

    /** One pass of `train_test_eval`'s episode loop: train, then test and
        save on the multiples of their periods. A failing `train` (`ok`
        false) ends the pass. */
    method LoopPass<S>(episode: int, totalTrainEpisode: int, trainEnv: Env<S, O>, testEnv: Env<S, O>,
                       trainS: S, testS: S, maxStepPerEpisode: int, episodePerTest: int, episodePerSave: int,
                       trainPick: (nat, O) -> nat, testPick: (nat, O) -> nat, samples: nat -> Option<ReplayBatch>)
      returns (ok: bool, trainS': S, testS': S)
      requires totalTrainEpisode != 0
      requires Valid()
      requires forall n :: samples(n).Some? ==> WellFormed(samples(n).value)
      modifies this, learner
      ensures Valid()
      ensures ok <==> maxStepPerEpisode > 1
      ensures log == old(log) + if ok then EpisodeEvents(episode, episodePerTest, episodePerSave)
                                else [TrainEpisode(episode)]
      ensures eps == LinearEps(epsTrain, epsMin, episode, totalTrainEpisode) * epsDecayPerUpdate
      ensures var e := EpisodeFrom(trainEnv, trainS, trainPick, TrainBudget(maxStepPerEpisode));
              trainS' == e.final && learner.replay == old(learner.replay) + e.steps
              && trainStepCount == old(trainStepCount) + |e.steps|
      ensures testS' == if ok && episodePerTest > 0 && episode % episodePerTest == 0
                        then EpisodeFrom(testEnv, testS, testPick, TrainBudget(maxStepPerEpisode)).final
                        else testS
    {
      var _, _, fin, _ := Train(episode, totalTrainEpisode, trainEnv, trainS, maxStepPerEpisode, trainPick, samples);
      ok := maxStepPerEpisode > 1;
      trainS', testS' := fin, testS;
      if !ok {
        return;
      }
      if episodePerTest > 0 && episode % episodePerTest == 0 {
        var _, _, finT, _ := Test(episode, testEnv, testS, maxStepPerEpisode, testPick);
        testS' := finT;
      }
      if episodePerSave > 0 && episode % episodePerSave == 0 {
        SaveNetwork();
      }
    }

    /** One pass of the episode loop after a run of earlier passes that
        started from `log0`, `replay0` and `count0`: the run grows by one
        episode in the log, the replay, the step count and the train state. */
    method NextPass<S>(episode: int, totalTrainEpisode: int, trainEnv: Env<S, O>, testEnv: Env<S, O>,
                       trainState: S, trainS: S, testS: S, maxStepPerEpisode: int,
                       episodePerTest: int, episodePerSave: int,
                       trainPicks: nat -> (nat, O) -> nat, testPicks: nat -> (nat, O) -> nat,
                       samples: nat -> Option<ReplayBatch>,
                       ghost log0: seq<Event>, ghost replay0: seq<Transition<O>>, ghost count0: int)
      returns (trainS': S, testS': S)
      requires 1 <= episode < totalTrainEpisode && maxStepPerEpisode > 1
      requires Valid()
      requires forall n :: samples(n).Some? ==> WellFormed(samples(n).value)
      requires log == log0 + LoopEvents(episode, episodePerTest, episodePerSave)
      requires var runs := TrainRuns(trainEnv, trainState, trainPicks, episode, TrainBudget(maxStepPerEpisode));
               trainS == runs.final && learner.replay == replay0 + runs.steps
               && trainStepCount == count0 + |runs.steps|
      modifies this, learner
      ensures Valid()
      ensures log == log0 + LoopEvents(episode + 1, episodePerTest, episodePerSave)
      ensures var runs := TrainRuns(trainEnv, trainState, trainPicks, episode + 1, TrainBudget(maxStepPerEpisode));
              trainS' == runs.final && learner.replay == replay0 + runs.steps
              && trainStepCount == count0 + |runs.steps|
      ensures eps == LinearEps(epsTrain, epsMin, episode, totalTrainEpisode) * epsDecayPerUpdate
    {
      TrainRunsNext(trainEnv, trainState, trainPicks, episode, TrainBudget(maxStepPerEpisode));
      LoopEventsStep(episode, episodePerTest, episodePerSave);
      var passed;
      passed, trainS', testS' := LoopPass(episode, totalTrainEpisode, trainEnv, testEnv, trainS, testS, maxStepPerEpisode,
                                     episodePerTest, episodePerSave, trainPicks(episode), testPicks(episode), samples);
    }

    /** The episode loop of `train_test_eval`: episodes 1 .. total - 1,
        stopped by the first failing `train`, which can only be the first. */
    method EpisodeLoop<S>(trainEnv: Env<S, O>, testEnv: Env<S, O>, trainState: S, testState: S,
                          totalTrainEpisode: int, maxStepPerEpisode: int, episodePerTest: int, episodePerSave: int,
                          trainPicks: nat -> (nat, O) -> nat, testPicks: nat -> (nat, O) -> nat,
                          samples: nat -> Option<ReplayBatch>)
      returns (ok: bool)
      requires Valid()
      requires forall n :: samples(n).Some? ==> WellFormed(samples(n).value)
      modifies this, learner
      ensures Valid()
      ensures ok <==> !(maxStepPerEpisode <= 1 && totalTrainEpisode > 1)
      ensures ok ==> log == old(log) + LoopEvents(totalTrainEpisode, episodePerTest, episodePerSave)
      ensures !ok ==> log == old(log) + [TrainEpisode(1)]
      ensures ok ==> var runs := TrainRuns(trainEnv, trainState, trainPicks, totalTrainEpisode,
                                           TrainBudget(maxStepPerEpisode));
                     learner.replay == old(learner.replay) + runs.steps
                     && trainStepCount == old(trainStepCount) + |runs.steps|
      ensures !ok ==> learner.replay == old(learner.replay) && trainStepCount == old(trainStepCount)
      ensures ok && totalTrainEpisode > 1 ==>
                eps == LinearEps(epsTrain, epsMin, totalTrainEpisode - 1, totalTrainEpisode) * epsDecayPerUpdate
      ensures !ok ==> eps == LinearEps(epsTrain, epsMin, 1, totalTrainEpisode) * epsDecayPerUpdate
      ensures ok && totalTrainEpisode <= 1 ==> eps == old(eps)
    {
      if maxStepPerEpisode <= 1 && totalTrainEpisode > 1 {
        // The first `train` fails, and the run ends with it, having played
        // no step.
        var trainS, testS;
        ok, trainS, testS := LoopPass(1, totalTrainEpisode, trainEnv, testEnv, trainState, testState, maxStepPerEpisode,
                             episodePerTest, episodePerSave, trainPicks(1), testPicks(1), samples);
      } else {
        AllPasses(trainEnv, testEnv, trainState, testState, totalTrainEpisode, maxStepPerEpisode,
                  episodePerTest, episodePerSave, trainPicks, testPicks, samples);
        ok := true;
      }
    }

    /** The episode loop when no `train` fails: every episode 1 .. total - 1
        is trained on the state the previous one left. */
    method AllPasses<S>(trainEnv: Env<S, O>, testEnv: Env<S, O>, trainState: S, testState: S,
                        totalTrainEpisode: int, maxStepPerEpisode: int, episodePerTest: int, episodePerSave: int,
                        trainPicks: nat -> (nat, O) -> nat, testPicks: nat -> (nat, O) -> nat,
                        samples: nat -> Option<ReplayBatch>)
      requires totalTrainEpisode > 1 ==> maxStepPerEpisode > 1
      requires Valid()
      requires forall n :: samples(n).Some? ==> WellFormed(samples(n).value)
      modifies this, learner
      ensures Valid()
      ensures log == old(log) + LoopEvents(totalTrainEpisode, episodePerTest, episodePerSave)
      ensures var runs := TrainRuns(trainEnv, trainState, trainPicks, totalTrainEpisode, TrainBudget(maxStepPerEpisode));
              learner.replay == old(learner.replay) + runs.steps
              && trainStepCount == old(trainStepCount) + |runs.steps|
      ensures totalTrainEpisode > 1 ==>
                eps == LinearEps(epsTrain, epsMin, totalTrainEpisode - 1, totalTrainEpisode) * epsDecayPerUpdate
      ensures totalTrainEpisode <= 1 ==> eps == old(eps)
    {
      var trainS, testS := trainState, testState;
      var episode := 1;
      ghost var lastEpisode := 0;
      while episode < totalTrainEpisode
        invariant 1 <= episode <= if totalTrainEpisode > 1 then totalTrainEpisode else 1
        invariant lastEpisode == episode - 1
        invariant Valid()
        invariant log == old(log) + LoopEvents(episode, episodePerTest, episodePerSave)
        invariant var runs := TrainRuns(trainEnv, trainState, trainPicks, episode, TrainBudget(maxStepPerEpisode));
                  trainS == runs.final && learner.replay == old(learner.replay) + runs.steps
                  && trainStepCount == old(trainStepCount) + |runs.steps|
        invariant episode > 1 ==> eps == LinearEps(epsTrain, epsMin, lastEpisode, totalTrainEpisode) * epsDecayPerUpdate
        invariant episode == 1 ==> eps == old(eps)
      {
        trainS, testS := NextPass(episode, totalTrainEpisode, trainEnv, testEnv, trainState, trainS, testS,
                                  maxStepPerEpisode, episodePerTest, episodePerSave, trainPicks, testPicks, samples,
                                  old(log), old(learner.replay), old(trainStepCount));
        lastEpisode := episode;
        episode := episode + 1;
      }
      if totalTrainEpisode <= 1 {
        assert LoopEvents(totalTrainEpisode, episodePerTest, episodePerSave) == [];
        assert TrainRuns(trainEnv, trainState, trainPicks, totalTrainEpisode, TrainBudget(maxStepPerEpisode))
               == Episode([], trainState);
      } else {
        assert episode == totalTrainEpisode;
      }
    }

    /** The end of a completed `train_test_eval`: the final save when
        saving is on, then the evaluation of 10 episodes. */
    method FinishRun<S>(evalEnv: Env<S, O>, evalState: S, maxStepPerEpisode: int, episodePerSave: int,
                        evalPicks: nat -> (nat, O) -> nat)
      returns (meanReward: Option<real>)
      requires Valid()
      modifies this
      ensures Valid() && eps == old(eps) && trainStepCount == old(trainStepCount)
      ensures log == old(log) + (if episodePerSave > 0 then [SaveCheckpoint] else []) + [Evaluation(10)]
      ensures meanReward == Some(Mean(EvaluationRun(evalEnv, evalState, evalPicks, 10,
                                                    if maxStepPerEpisode > 0 then maxStepPerEpisode else 0).totals))
    {
      if episodePerSave > 0 {
        SaveNetwork();
      }
      var evalEpisodes := 10;
      var mean, _ := Evaluate(evalEpisodes, evalEnv, evalState, maxStepPerEpisode, evalPicks);
      meanReward := mean;
    }

    /** The training phase of `train_test_eval`: `log_graph` resets the
        train environment, the checkpoint is loaded, and the episode loop
        runs from the state that reset left. */
    method TrainPhase<S>(trainEnv: Env<S, O>, testEnv: Env<S, O>, trainState: S, testState: S,
                         totalTrainEpisode: int, maxStepPerEpisode: int, episodePerTest: int, episodePerSave: int,
                         trainPicks: nat -> (nat, O) -> nat, testPicks: nat -> (nat, O) -> nat,
                         samples: nat -> Option<ReplayBatch>)
      returns (ok: bool)
      requires Valid()
      requires forall n :: samples(n).Some? ==> WellFormed(samples(n).value)
      modifies this, learner
      ensures Valid()
      ensures ok <==> !(maxStepPerEpisode <= 1 && totalTrainEpisode > 1)
      ensures ok ==> log == old(log) + [Load] + LoopEvents(totalTrainEpisode, episodePerTest, episodePerSave)
      ensures !ok ==> log == old(log) + [Load, TrainEpisode(1)]
      ensures ok ==> var runs := TrainRuns(trainEnv, trainEnv.reset(trainState).0, trainPicks,
                                           totalTrainEpisode, TrainBudget(maxStepPerEpisode));
                     learner.replay == old(learner.replay) + runs.steps
                     && trainStepCount == old(trainStepCount) + |runs.steps|
      ensures !ok ==> learner.replay == old(learner.replay) && trainStepCount == old(trainStepCount)
      ensures ok && totalTrainEpisode > 1 ==>
                eps == LinearEps(epsTrain, epsMin, totalTrainEpisode - 1, totalTrainEpisode) * epsDecayPerUpdate
      ensures !ok ==> eps == LinearEps(epsTrain, epsMin, 1, totalTrainEpisode) * epsDecayPerUpdate
      ensures ok && totalTrainEpisode <= 1 ==> eps == old(eps)
    {
      var trainS := trainEnv.reset(trainState).0;
      LoadNetwork();
      ok := EpisodeLoop(trainEnv, testEnv, trainS, testState, totalTrainEpisode, maxStepPerEpisode,
                        episodePerTest, episodePerSave, trainPicks, testPicks, samples);
    }

    /** `train_test_eval`: reset the train environment to log the network
        graph, load (the test is on the module's `load_ckpt` function, which
        is always truthy, so the `load_cpkt` flag is never read), train
        episodes 1 .. total - 1 with tests and saves on their multiples,
        save once more, and evaluate 10 episodes (the `total_eval_episode`
        argument is overwritten). A failing `train` ends the run. */
    method TrainTestEval<S>(trainEnv: Env<S, O>, testEnv: Env<S, O>, evalEnv: Env<S, O>,
                            trainState: S, testState: S, evalState: S,
                            totalTrainEpisode: int, totalEvalEpisode: int, maxStepPerEpisode: int,
                            episodePerTest: int, episodePerSave: int, loadCpkt: bool,
                            trainPicks: nat -> (nat, O) -> nat, testPicks: nat -> (nat, O) -> nat,
                            evalPicks: nat -> (nat, O) -> nat, samples: nat -> Option<ReplayBatch>)
      returns (completed: bool, meanReward: Option<real>)
      requires Valid()
      requires forall n :: samples(n).Some? ==> WellFormed(samples(n).value)
      modifies this, learner
      ensures Valid()
      ensures var r := TrainTestEvalSchedule(totalTrainEpisode, maxStepPerEpisode, episodePerTest, episodePerSave);
              log == old(log) + r.events && completed == r.completed
      ensures completed ==> meanReward == Some(Mean(EvaluationRun(evalEnv, evalState, evalPicks, 10,
                                                                  if maxStepPerEpisode > 0 then maxStepPerEpisode else 0).totals))
      ensures !completed ==> meanReward == None
      ensures completed ==> var runs := TrainRuns(trainEnv, trainEnv.reset(trainState).0, trainPicks,
                                                  totalTrainEpisode, TrainBudget(maxStepPerEpisode));
                            learner.replay == old(learner.replay) + runs.steps
                            && trainStepCount == old(trainStepCount) + |runs.steps|
      ensures !completed ==> learner.replay == old(learner.replay) && trainStepCount == old(trainStepCount)
      ensures completed && totalTrainEpisode > 1 ==>
                eps == LinearEps(epsTrain, epsMin, totalTrainEpisode - 1, totalTrainEpisode) * epsDecayPerUpdate
      ensures !completed ==> eps == LinearEps(epsTrain, epsMin, 1, totalTrainEpisode) * epsDecayPerUpdate
      ensures completed && totalTrainEpisode <= 1 ==> eps == old(eps)
    {
      completed := TrainPhase(trainEnv, testEnv, trainState, testState, totalTrainEpisode, maxStepPerEpisode,
                              episodePerTest, episodePerSave, trainPicks, testPicks, samples);
      if !completed {
        LogFollowsSchedule(old(log), log, log, completed, totalTrainEpisode, maxStepPerEpisode, episodePerTest, episodePerSave);
        meanReward := None;
        return;
      }
      ghost var afterLoop := log;
      meanReward := FinishRun(evalEnv, evalState, maxStepPerEpisode, episodePerSave, evalPicks);
      LogFollowsSchedule(old(log), afterLoop, log, completed, totalTrainEpisode, maxStepPerEpisode, episodePerTest, episodePerSave);
    }
  }
}
