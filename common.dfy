/** Small shared vocabulary: an option type, real powers, sums and means of
    real sequences (Python floats are modelled as reals; rounding is ignored),
    and the uniqueness of integer division used by the counting lemmas. */
module Common {

  datatype Option<+T> = None | Some(value: T)

  /** What a trainer `save` hook decides: whether a checkpoint file is written
      and whether the trainer is told to keep training (the hook's bool). */
  datatype SaveOutcome = SaveOutcome(checkpoint: bool, keepTraining: bool)

  /** x ** n for a natural exponent. */
  function Pow(x: real, n: nat): real
  {
    if n == 0 then 1.0 else x * Pow(x, n - 1)
  }

  /** A power of a number in [0, 1] stays in [0, 1]. */
  lemma {:induction false} PowUnitInterval(x: real, n: nat)
    requires 0.0 <= x <= 1.0
    ensures 0.0 <= Pow(x, n) <= 1.0
  {
    if n > 0 {
      PowUnitInterval(x, n - 1);
      var p := Pow(x, n - 1);
      assert Pow(x, n) == x * p;
      assert x * p >= 0.0;
      assert x * p <= p by {
        assert (1.0 - x) * p >= 0.0;
      }
    }
  }

  /** Sum of a sequence of reals, accumulated left to right as the source's
      `total += x` loops do. */
  function Sum(s: seq<real>): real
  {
    if s == [] then 0.0 else Sum(s[..|s| - 1]) + s[|s| - 1]
  }

  /** A sum of non-negative terms is non-negative, and it is zero exactly when
      every term is zero. */
  lemma {:induction false} SumNonNegative(s: seq<real>)
    requires forall i :: 0 <= i < |s| ==> s[i] >= 0.0
    ensures Sum(s) >= 0.0
    ensures Sum(s) == 0.0 <==> forall i :: 0 <= i < |s| ==> s[i] == 0.0
  {
    if s != [] {
      var init := s[..|s| - 1];
      assert forall i :: 0 <= i < |init| ==> init[i] == s[i];
      SumNonNegative(init);
    }
  }

  /** numpy's mean of a non-empty sequence. */
  function Mean(s: seq<real>): real
    requires |s| > 0
  {
    Sum(s) / |s| as real
  }

  /** A mean of non-negative terms is non-negative, and zero exactly when
      every term is zero. */
  lemma MeanNonNegative(s: seq<real>)
    requires |s| > 0
    ensures (forall i :: 0 <= i < |s| ==> s[i] >= 0.0) ==>
              Mean(s) >= 0.0 && (Mean(s) == 0.0 <==> forall i :: 0 <= i < |s| ==> s[i] == 0.0)
  {
    if forall i :: 0 <= i < |s| ==> s[i] >= 0.0 {
      SumNonNegative(s);
    }
  }

  /** Quotient and remainder are determined by n == p * q + r with 0 <= r < p. */
  lemma DivModUnique(n: int, p: int, q: int, r: int)
    requires p > 0 && n == p * q + r && 0 <= r < p
    ensures n / p == q && n % p == r
  {
    var q', r' := n / p, n % p;
    assert n == p * q' + r' && 0 <= r' < p;
    if q' > q {
      MulAtLeast(p, q' - q);
      assert false;
    } else if q' < q {
      MulAtLeast(p, q - q');
      assert false;
    }
  }

  lemma MulAtLeast(p: int, d: int)
    requires p > 0 && d >= 1
    ensures p * d >= p
  {
    assert p * d == p + p * (d - 1);
  }
}
