/** Exact powers of reals with a natural exponent: the `(1 + r)**n` of the
    payment and discounting formulas, without floating-point rounding. */
module PowMath {

  /** x raised to the natural power n */
  function Pow(x: real, n: nat): real
    decreases n
  {
    if n == 0 then 1.0 else x * Pow(x, n - 1)
  }

  /** The product of two non-negative reals is non-negative. */
  lemma MulNonNegative(a: real, b: real)
    requires a >= 0.0 && b >= 0.0
    ensures a * b >= 0.0
  {
  }

  /** The product of two positive reals is positive. */
  lemma MulPositive(a: real, b: real)
    requires a > 0.0 && b > 0.0
    ensures a * b > 0.0
  {
  }

  lemma {:induction false} PowPositive(x: real, n: nat)
    requires x > 0.0
    ensures Pow(x, n) > 0.0
    decreases n
  {
    if n > 0 {
      PowPositive(x, n - 1);
    }
  }

  lemma {:induction false} PowAtLeastOne(x: real, n: nat)
    requires x >= 1.0
    ensures Pow(x, n) >= 1.0
    decreases n
  {
    if n > 0 {
      PowAtLeastOne(x, n - 1);
      var p := Pow(x, n - 1);
      assert x * p - p == (x - 1.0) * p;
      assert (x - 1.0) * p >= 0.0;
    }
  }

  /** A base above one gives a power strictly above one for any positive exponent. */
  lemma {:induction false} PowAboveOne(x: real, n: nat)
    requires x > 1.0 && n >= 1
    ensures Pow(x, n) > 1.0
  {
    PowAtLeastOne(x, n - 1);
    var p := Pow(x, n - 1);
    assert x * p - p == (x - 1.0) * p;
    assert (x - 1.0) * p > 0.0;
  }

  /** A base in [0, 1) gives a power in [0, 1) for any positive exponent. */
  lemma {:induction false} PowBelowOne(x: real, n: nat)
    requires 0.0 <= x < 1.0 && n >= 1
    ensures 0.0 <= Pow(x, n) < 1.0
    decreases n
  {
    if n == 1 {
      assert Pow(x, 0) == 1.0;
    } else {
      PowBelowOne(x, n - 1);
      var p := Pow(x, n - 1);
      assert Pow(x, n) == x * p;
      MulNonNegative(x, p);
      MulNonNegative(1.0 - x, p);
      assert p - x * p == (1.0 - x) * p;
    }
  }

  /** An even power is the power of the square. */
  lemma {:induction false} PowEven(x: real, k: nat)
    ensures Pow(x, 2 * k) == Pow(x * x, k)
    decreases k
  {
    if k > 0 {
      PowEven(x, k - 1);
      SquareStep(x, Pow(x, 2 * k), Pow(x, 2 * k - 1), Pow(x, 2 * (k - 1)), Pow(x * x, k), Pow(x * x, k - 1));
    }
  }

  /** In plain reals: two more factors of x on one side match one more
      factor of x * x on the other.
      Its arguments are plain variables rather than `Pow` terms, so the
      solver does not unfold `Pow` here. */
  lemma SquareStep(x: real, e2: real, e1: real, e0: real, s1: real, s0: real)
    requires e2 == x * e1 && e1 == x * e0 && s1 == (x * x) * s0 && e0 == s0
    ensures e2 == s1
  {
  }

  /** Powers of a positive base grow with the base. */
  lemma {:induction false} PowStrictlyMonotoneInBase(x: real, y: real, n: nat)
    requires 0.0 < x < y && n >= 1
    ensures Pow(x, n) < Pow(y, n)
    decreases n
  {
    if n == 1 {
      assert Pow(x, 0) == 1.0 && Pow(y, 0) == 1.0;
    } else {
      PowStrictlyMonotoneInBase(x, y, n - 1);
      PowPositive(x, n - 1);
      var p, q := Pow(x, n - 1), Pow(y, n - 1);
      assert x * p < y * p by {
        assert y * p - x * p == (y - x) * p;
        assert (y - x) * p > 0.0;
      }
      assert y * p < y * q by {
        assert y * q - y * p == y * (q - p);
        assert y * (q - p) > 0.0;
      }
      assert Pow(x, n) == x * p && Pow(y, n) == y * q;
    }
  }
}
