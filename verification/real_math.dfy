/** Exact real arithmetic used by the analytic formulas: integer powers and factorials,
    with the handful of algebraic facts the product-form proofs rely on. */
module RealMath {

  /** `x ** k` for a natural exponent (`0.0 ** 0 == 1.0`, as in Python). */
  function Pow(x: real, k: nat): real
  {
    if k == 0 then 1.0 else x * Pow(x, k - 1)
  }

  /** `math.factorial(n)`. */
  function Factorial(n: nat): (r: nat)
    ensures r >= 1
  {
    if n == 0 then 1 else n * Factorial(n - 1)
  }

  /** One more factor. */
  lemma PowSucc(x: real, k: nat)
    ensures Pow(x, k + 1) == x * Pow(x, k)
  {
  }

  /** One factor fewer. */
  lemma PowPred(x: real, k: nat)
    requires k > 0
    ensures Pow(x, k) == x * Pow(x, k - 1)
  {
  }

  lemma {:induction false} PowNonNegative(x: real, k: nat)
    requires 0.0 <= x
    ensures 0.0 <= Pow(x, k)
  {
    if k > 0 {
      PowNonNegative(x, k - 1);
    }
  }

  lemma {:induction false} PowPositive(x: real, k: nat)
    requires 0.0 < x
    ensures 0.0 < Pow(x, k)
  {
    if k > 0 {
      PowPositive(x, k - 1);
    }
  }

  /** For a base in [0, 1], raising the exponent never increases the power. */
  lemma {:induction false} PowAntitone(x: real, j: nat, k: nat)
    requires 0.0 <= x <= 1.0
    requires j <= k
    ensures Pow(x, k) <= Pow(x, j)
  {
    if j < k {
      PowAntitone(x, j, k - 1);
      PowNonNegative(x, k - 1);
      assert Pow(x, k) == x * Pow(x, k - 1);
      assert x * Pow(x, k - 1) <= Pow(x, k - 1);
    }
  }

  lemma {:induction false} PowOfProduct(a: real, b: real, k: nat)
    ensures Pow(a * b, k) == Pow(a, k) * Pow(b, k)
  {
    if k > 0 {
      PowOfProduct(a, b, k - 1);
      var pa, pb := Pow(a, k - 1), Pow(b, k - 1);
      assert Pow(a * b, k) == (a * b) * (pa * pb);
      assert Pow(a, k) * Pow(b, k) == (a * pa) * (b * pb);
      assert (a * b) * (pa * pb) == (a * pa) * (b * pb);
    }
  }
}
