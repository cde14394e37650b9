/** Q-value rows: a network's output for one observation is a row with one
    value per action. This module holds the tensor operations that the
    policies apply to such rows: `argmax(-1)`, `max(-1)`, `gather(1, acts)`,
    the one-step TD target, the mean squared error, and the epsilon
    perturbation that replaces whole rows by uniform noise. */
module QRows {
  import opened Common

  type QRow = seq<real>

  /** `row.argmax(-1)`: an index attaining the row's maximum; the first one
      when several do (torch returns the first maximal index). */
  function ArgMax(row: QRow): (a: nat)
    requires |row| > 0
    ensures a < |row|
    ensures forall j :: 0 <= j < |row| ==> row[j] <= row[a]
    ensures forall j :: 0 <= j < a ==> row[j] < row[a]
    decreases |row|
  {
    if |row| == 1 then 0
    else
      var init := row[..|row| - 1];
      var k := ArgMax(init);
      assert forall j :: 0 <= j < |init| ==> init[j] == row[j];
      if row[|row| - 1] > row[k] then |row| - 1 else k
  }

  /** `row.max(-1)[0]`: the largest value of the row. */
  function Max(row: QRow): (m: real)
    requires |row| > 0
    ensures exists a :: 0 <= a < |row| && row[a] == m
    ensures forall j :: 0 <= j < |row| ==> row[j] <= m
  {
    row[ArgMax(row)]
  }

  /** A value of the row that bounds every entry is the row's maximum. */
  lemma MaxUnique(row: QRow, a: nat)
    requires a < |row|
    requires forall j :: 0 <= j < |row| ==> row[j] <= row[a]
    ensures Max(row) == row[a]
  {
    var m := Max(row);
    var b :| 0 <= b < |row| && row[b] == m;
    assert row[b] <= row[a] && row[a] <= m;
  }

  ghost predicate NonEmptyRows(rows: seq<QRow>)
  {
    forall i :: 0 <= i < |rows| ==> |rows[i]| > 0
  }

  /** `qvals.argmax(-1)` over a batch: for every row, the action attaining
      that row's maximum. */
  function GreedyActions(rows: seq<QRow>): (acts: seq<nat>)
    requires NonEmptyRows(rows)
    ensures |acts| == |rows|
    ensures forall i :: 0 <= i < |rows| ==> acts[i] == ArgMax(rows[i])
    ensures forall i :: 0 <= i < |rows| ==> acts[i] < |rows[i]| && rows[i][acts[i]] == Max(rows[i])
  {
    seq(|rows|, i requires 0 <= i < |rows| => ArgMax(rows[i]))
  }

  /** Every taken action indexes into its row. */
  ghost predicate ActionsInRange(rows: seq<QRow>, acts: seq<nat>)
  {
    |acts| == |rows| && forall i :: 0 <= i < |rows| ==> acts[i] < |rows[i]|
  }

  /** `rows.gather(1, acts).squeeze()`: the value of the action taken in each row. */
  function Gather(rows: seq<QRow>, acts: seq<nat>): (q: seq<real>)
    requires ActionsInRange(rows, acts)
    ensures |q| == |rows|
    ensures forall i :: 0 <= i < |rows| ==> q[i] == rows[i][acts[i]]
  {
    seq(|rows|, i requires 0 <= i < |rows| => rows[i][acts[i]])
  }

  /** A done flag as the number it becomes in `1 - done`. */
  function DoneValue(done: bool): real
  {
    if done then 1.0 else 0.0
  }

  /** A column of done flags as the numbers `1 - dones` subtracts. */
  function DoneValues(dones: seq<bool>): (d: seq<real>)
    ensures |d| == |dones|
    ensures forall i :: 0 <= i < |d| ==> (d[i] == 1.0 <==> dones[i]) && (d[i] == 0.0 <==> !dones[i])
  {
    seq(|dones|, i requires 0 <= i < |dones| => DoneValue(dones[i]))
  }

  /** The one-step TD target `reward + (1 - done) * gamma * next`, where
      `next` is the value bootstrapped from the next observation. */
  function TdTarget(reward: real, done: real, gamma: real, next: real): real
  {
    reward + (1.0 - done) * gamma * next
  }

  /** A terminal transition's target is its reward: nothing is bootstrapped. */
  lemma TerminalTargetIsReward(reward: real, gamma: real, next: real)
    ensures TdTarget(reward, 1.0, gamma, next) == reward
  {
  }

  /** The vanilla DQN targets of a batch: `rews + (1 - dones) * gamma * max Q(next)`. */
  function VanillaTargets(rews: seq<real>, dones: seq<real>, gamma: real, nextRows: seq<QRow>): (t: seq<real>)
    requires |rews| == |dones| == |nextRows| && NonEmptyRows(nextRows)
    ensures |t| == |rews|
    ensures forall i :: 0 <= i < |t| ==> t[i] == TdTarget(rews[i], dones[i], gamma, Max(nextRows[i]))
    ensures forall i :: 0 <= i < |t| && dones[i] == 1.0 ==> t[i] == rews[i]
  {
    seq(|rews|, i requires 0 <= i < |rews| => TdTarget(rews[i], dones[i], gamma, Max(nextRows[i])))
  }

  /** The targets of a sampled batch from its rewards and done flags: a
      terminal sample's target is its reward, any other's bootstraps the
      maximum of its next row. */
  function BatchTargets(rewards: seq<real>, dones: seq<bool>, gamma: real, nextRows: seq<QRow>): (t: seq<real>)
    requires |rewards| == |dones| == |nextRows| && NonEmptyRows(nextRows)
    ensures |t| == |rewards|
    ensures forall i :: 0 <= i < |t| && dones[i] ==> t[i] == rewards[i]
    ensures forall i :: 0 <= i < |t| && !dones[i] ==> t[i] == rewards[i] + gamma * Max(nextRows[i])
  {
    VanillaTargets(rewards, DoneValues(dones), gamma, nextRows)
  }

  /** The per-sample TD errors `pred - targ`. */
  function TdErrors(pred: seq<real>, targ: seq<real>): (e: seq<real>)
    requires |pred| == |targ|
    ensures |e| == |pred|
    ensures forall i :: 0 <= i < |e| ==> pred[i] == targ[i] + e[i]
  {
    seq(|pred|, i requires 0 <= i < |pred| => pred[i] - targ[i])
  }

  /** The terms `err^2 * weight` whose mean is the loss. */
  function WeightedSquares(err: seq<real>, weights: seq<real>): (s: seq<real>)
    requires |weights| == |err|
    ensures |s| == |err|
    ensures forall i :: 0 <= i < |err| && weights[i] >= 0.0 ==> s[i] >= 0.0
    ensures forall i :: 0 <= i < |err| && err[i] == 0.0 ==> s[i] == 0.0
  {
    var s := seq(|err|, i requires 0 <= i < |err| => err[i] * err[i] * weights[i]);
    SquareTermsFacts(err, weights, s);
    s
  }

  lemma SquareTermsFacts(err: seq<real>, weights: seq<real>, s: seq<real>)
    requires |weights| == |err| == |s|
    requires forall i :: 0 <= i < |s| ==> s[i] == err[i] * err[i] * weights[i]
    ensures forall i :: 0 <= i < |err| && weights[i] >= 0.0 ==> s[i] >= 0.0
    ensures forall i :: 0 <= i < |err| && err[i] == 0.0 ==> s[i] == 0.0
  {
    forall i | 0 <= i < |err|
      ensures weights[i] >= 0.0 ==> s[i] >= 0.0
      ensures err[i] == 0.0 ==> s[i] == 0.0
    {
      SquareTerm(err[i], weights[i], s[i]);
    }
  }

  /** A squared error scaled by a non-negative weight is non-negative, and a
      zero error gives a zero term. */
  lemma SquareTerm(x: real, w: real, term: real)
    requires term == x * x * w
    ensures w >= 0.0 ==> term >= 0.0
    ensures x == 0.0 ==> term == 0.0
  {
    if w >= 0.0 {
      assert x * x >= 0.0;
    }
  }

  /** `(err.pow(2) * weights).mean()`: non-negative for non-negative weights,
      and zero when every error is zero. */
  function WeightedMeanSquare(err: seq<real>, weights: seq<real>): (loss: real)
    requires |err| > 0 && |weights| == |err|
    ensures (forall i :: 0 <= i < |weights| ==> weights[i] >= 0.0) ==> loss >= 0.0
    ensures (forall i :: 0 <= i < |err| ==> err[i] == 0.0) ==> loss == 0.0
  {
    var s := WeightedSquares(err, weights);
    MeanNonNegative(s);
    Mean(s)
  }

  /** A weight of 1.0 for every sample: the broadcast scalar `1.0` that a
      non-prioritised buffer uses. */
  function UnitWeights(n: nat): (w: seq<real>)
    ensures |w| == n && forall i :: 0 <= i < n ==> w[i] == 1.0
  {
    seq(n, _ => 1.0)
  }

  /** `mse_loss(pred, targ)`: the mean of the squared differences; never
      negative, and zero when every prediction meets its target. */
  function MeanSquaredError(pred: seq<real>, targ: seq<real>): (loss: real)
    requires |pred| == |targ| > 0
    ensures loss >= 0.0
    ensures (forall i :: 0 <= i < |pred| ==> pred[i] == targ[i]) ==> loss == 0.0
  {
    WeightedMeanSquare(TdErrors(pred, targ), UnitWeights(|pred|))
  }

  /** Values drawn by `np.random.rand()` and `torch.rand`: all in [0, 1). */
  ghost predicate UnitDraws(coins: seq<real>, noise: seq<QRow>)
  {
    (forall i :: 0 <= i < |coins| ==> 0.0 <= coins[i] < 1.0)
    && (forall i, j :: 0 <= i < |noise| && 0 <= j < |noise[i]| ==> 0.0 <= noise[i][j] < 1.0)
  }

  /** The epsilon perturbation: unless eps is zero, each row whose coin
      falls below eps is overwritten with its noise row of the same shape. */
  ghost predicate ExploreInputs(rows: seq<QRow>, coins: seq<real>, noise: seq<QRow>)
  {
    |coins| == |rows| && |noise| == |rows|
    && (forall i :: 0 <= i < |rows| ==> |noise[i]| == |rows[i]|)
    && UnitDraws(coins, noise)
  }

  function Explore(rows: seq<QRow>, eps: real, coins: seq<real>, noise: seq<QRow>): (r: seq<QRow>)
    requires ExploreInputs(rows, coins, noise)
    ensures |r| == |rows|
    ensures forall i :: 0 <= i < |rows| ==> |r[i]| == |rows[i]|
    ensures forall i :: 0 <= i < |rows| ==>
              if eps != 0.0 && coins[i] < eps then r[i] == noise[i] else r[i] == rows[i]
    ensures eps <= 0.0 ==> r == rows
    ensures eps >= 1.0 ==> r == noise
  {
    seq(|rows|, i requires 0 <= i < |rows| => if eps != 0.0 && coins[i] < eps then noise[i] else rows[i])
  }
}
