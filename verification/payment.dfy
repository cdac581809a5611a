/** The fixed-rate annuity payment (`pmt`) of the three analyzer scripts, over
    exact reals, together with the annuity factor that characterises it. */
module Payment {
  import opened PowMath

  /** Monthly periodic rate of an annual percentage rate: 6.75 becomes 0.005625. */
  function MonthlyRate(rateAnnualPct: real): real
  {
    (rateAnnualPct / 100.0) / 12.0
  }

  /** Number of monthly periods of a term in whole years. */
  function Periods(termYears: nat): nat
  {
    termYears * 12
  }

  /** The inputs on which the annuity formula never divides by zero: a zero
      term, or any rate other than -2400% a year (monthly rate -2, where
      (1 + r)^n is 1 for every even n). */
  predicate PmtDefined(rateAnnualPct: real, termYears: nat)
  {
    termYears == 0 || rateAnnualPct != -2400.0
  }

  /** Away from a zero rate and a monthly rate of -2, the denominator
      (1 + r)^n - 1 of the annuity formula is nonzero. */
  lemma AnnuityDenominatorNonzero(rateAnnualPct: real, termYears: nat)
    requires termYears >= 1 && rateAnnualPct != 0.0 && rateAnnualPct != -2400.0
    ensures Pow(1.0 + MonthlyRate(rateAnnualPct), Periods(termYears)) != 1.0
  {
    var x := 1.0 + MonthlyRate(rateAnnualPct);
    var k := termYears * 6;
    PowEven(x, k);
    assert Periods(termYears) == 2 * k;
    var y := x * x;
    assert y >= 0.0;
    if y < 1.0 {
      PowBelowOne(y, k);
    } else {
      assert y != 1.0 by {
        assert x - 1.0 != 0.0 && x + 1.0 != 0.0;
        assert (x - 1.0) * (x + 1.0) != 0.0;
        assert (x - 1.0) * (x + 1.0) == y - 1.0;
      }
      PowAboveOne(y, k);
    }
  }

  /** At -2400% a year the formula's denominator is zero for every positive
      term, so `pmt` raises a division error there: over exact reals, the
      precondition of Pmt excludes exactly the inputs the source cannot
      evaluate. */
  lemma AnnuityDenominatorVanishes(termYears: nat)
    requires termYears >= 1
    ensures Pow(1.0 + MonthlyRate(-2400.0), Periods(termYears)) == 1.0
  {
    var x := 1.0 + MonthlyRate(-2400.0);
    assert x == -1.0;
    var k := termYears * 6;
    PowEven(x, k);
    assert Periods(termYears) == 2 * k;
    PowOfOne(k);
  }

  lemma {:induction false} PowOfOne(n: nat)
    ensures Pow(1.0, n) == 1.0
  {
    if n > 0 {
      PowOfOne(n - 1);
    }
  }

  /** The annuity formula principal * r(1+r)^n / ((1+r)^n - 1), characterised
      by the equation it solves. */
  function AnnuityPayment(r: real, n: nat, principal: real): (p: real)
    requires Pow(1.0 + r, n) != 1.0
    ensures p * (Pow(1.0 + r, n) - 1.0) == principal * (r * Pow(1.0 + r, n))
  {
    principal * (r * Pow(1.0 + r, n)) / (Pow(1.0 + r, n) - 1.0)
  }

  /** `pmt` of mortgage_analyzer_app.py and mortgage_analyzer_app_enhanced.py:
      a zero-period loan pays nothing, a zero-rate loan is repaid in equal
      instalments, anything else pays the level annuity payment. */
  function Pmt(rateAnnualPct: real, termYears: nat, principal: real): (p: real)
    requires PmtDefined(rateAnnualPct, termYears)
    ensures termYears == 0 ==> p == 0.0
    ensures termYears >= 1 && rateAnnualPct == 0.0 ==> p * (Periods(termYears) as real) == principal
  {
    var r := MonthlyRate(rateAnnualPct);
    var n := Periods(termYears);
    if n == 0 then 0.0
    else if r == 0.0 then principal / (n as real)
    else
      AnnuityDenominatorNonzero(rateAnnualPct, termYears);
      AnnuityPayment(r, n, principal)
  }

  /** The no-division-error condition of the basic script's `pmt`, which tests
      the rate before the term: with a nonzero rate it needs a positive term. */
  predicate PmtBasicDefined(rateAnnualPct: real, termYears: nat)
  {
    rateAnnualPct == 0.0 || (termYears >= 1 && rateAnnualPct != -2400.0)
  }

  /** `pmt` of mortgage_analyzer_app_basic.py: the zero-rate test comes first
      and the zero-term guard sits inside it. Wherever it does not fail it
      agrees with Pmt. */
  function PmtBasic(rateAnnualPct: real, termYears: nat, principal: real): (p: real)
    requires PmtBasicDefined(rateAnnualPct, termYears)
    ensures PmtDefined(rateAnnualPct, termYears)
    ensures p == Pmt(rateAnnualPct, termYears, principal)
  {
    var r := MonthlyRate(rateAnnualPct);
    var n := Periods(termYears);
    if r == 0.0 then
      (if n != 0 then principal / (n as real) else 0.0)
    else
      AnnuityDenominatorNonzero(rateAnnualPct, termYears);
      AnnuityPayment(r, n, principal)
  }

  /** With a nonzero rate and a zero term the basic `pmt` divides by zero,
      where the guarded version returns 0. */
  lemma PmtBasicGuardOrder(rateAnnualPct: real, principal: real)
    requires rateAnnualPct != 0.0
    ensures !PmtBasicDefined(rateAnnualPct, 0)
    ensures Pmt(rateAnnualPct, 0, principal) == 0.0
  {
  }

  /** On the terms the loan-term widget allows, 5 to 40 years, there are at
      least 60 periods and both versions of `pmt` are defined at every
      non-negative rate. */
  lemma PmtDefinedOnWidgetTerms(rateAnnualPct: real, termYears: nat)
    requires 5 <= termYears <= 40 && rateAnnualPct >= 0.0
    ensures 60 <= Periods(termYears) <= 480
    ensures PmtBasicDefined(rateAnnualPct, termYears) && PmtDefined(rateAnnualPct, termYears)
  {
  }

  /** Present value, one period apart, of n payments of 1 at per-period growth
      factor x: the sum of 1/x^m for m = 1..n. */
  function AnnuityFactor(x: real, n: nat): (f: real)
    requires x > 0.0
    decreases n
  {
    if n == 0 then 0.0
    else
      PowPositive(x, n);
      AnnuityFactor(x, n - 1) + 1.0 / Pow(x, n)
  }

  lemma {:induction false} AnnuityFactorPositive(x: real, n: nat)
    requires x > 0.0 && n >= 1
    ensures AnnuityFactor(x, n) > 0.0
    decreases n
  {
    PowPositive(x, n);
    if n > 1 {
      AnnuityFactorPositive(x, n - 1);
    }
  }

  /** The annuity factor at a zero rate is the number of periods. */
  lemma {:induction false} AnnuityFactorAtOne(n: nat)
    ensures AnnuityFactor(1.0, n) == n as real
    decreases n
  {
    if n > 0 {
      AnnuityFactorAtOne(n - 1);
      PowOfOne(n);
    }
  }

  /** Closed form of the geometric sum: AF(x, n) * (x - 1) * x^n == x^n - 1. */
  lemma {:induction false} AnnuityFactorClosedForm(x: real, n: nat)
    requires x > 0.0
    ensures AnnuityFactor(x, n) * (x - 1.0) * Pow(x, n) == Pow(x, n) - 1.0
    decreases n
  {
    if n > 0 {
      AnnuityFactorClosedForm(x, n - 1);
      PowPositive(x, n);
      ClosedFormStep(AnnuityFactor(x, n), AnnuityFactor(x, n - 1), x, Pow(x, n - 1), Pow(x, n));
    }
  }

  /** One step of the geometric sum in plain reals: if a * (x - 1) * p == p - 1
      and q == x * p, then f = a + 1/q, the sum with the next term, keeps the
      identity at q.
      Its arguments are plain variables rather than `Pow` terms, so the
      solver does not unfold `Pow` here. */
  lemma ClosedFormStep(f: real, a: real, x: real, p: real, q: real)
    requires q == x * p && q != 0.0 && a * (x - 1.0) * p == p - 1.0 && f == a + 1.0 / q
    ensures f * (x - 1.0) * q == q - 1.0
  {
    calc {
      f * (x - 1.0) * q;
      (a + 1.0 / q) * (x - 1.0) * q;
      a * (x - 1.0) * q + (1.0 / q) * q * (x - 1.0);
      { assert (1.0 / q) * q == 1.0; }
      a * (x - 1.0) * (x * p) + (x - 1.0);
      (a * (x - 1.0) * p) * x + (x - 1.0);
      (p - 1.0) * x + (x - 1.0);
      q - 1.0;
    }
  }

  /** A larger growth factor discounts every payment more: the annuity factor
      strictly decreases in x. */
  lemma {:induction false} AnnuityFactorDecreasing(x: real, y: real, n: nat)
    requires 0.0 < x < y && n >= 1
    ensures AnnuityFactor(y, n) < AnnuityFactor(x, n)
    decreases n
  {
    PowStrictlyMonotoneInBase(x, y, n);
    PowPositive(x, n);
    var px, py := Pow(x, n), Pow(y, n);
    assert 1.0 / py < 1.0 / px by {
      assert 1.0 / px - 1.0 / py == (py - px) / (px * py);
      assert px * py > 0.0;
    }
    if n > 1 {
      AnnuityFactorDecreasing(x, y, n - 1);
    }
  }

  /** Each payment at a positive rate is worth less than its face value, so
      the annuity factor is below the number of periods. */
  lemma {:induction false} AnnuityFactorBelowPeriods(x: real, n: nat)
    requires x > 1.0 && n >= 1
    ensures AnnuityFactor(x, n) < n as real
    decreases n
  {
    PowAboveOne(x, n);
    var p := Pow(x, n);
    assert 1.0 / p < 1.0;
    if n > 1 {
      AnnuityFactorBelowPeriods(x, n - 1);
    }
  }

  /** The defining property of the annuity payment: n level payments of Pmt,
      each discounted at the monthly rate to the month it is paid, are worth
      exactly the principal. Holds for every rate above -1200% a year. */
  lemma PmtIsLevelAnnuity(rateAnnualPct: real, termYears: nat, principal: real)
    requires termYears >= 1 && rateAnnualPct > -1200.0
    ensures Pmt(rateAnnualPct, termYears, principal)
              * AnnuityFactor(1.0 + MonthlyRate(rateAnnualPct), Periods(termYears)) == principal
  {
    var r := MonthlyRate(rateAnnualPct);
    var n := Periods(termYears);
    var p := Pmt(rateAnnualPct, termYears, principal);
    if r == 0.0 {
      AnnuityFactorAtOne(n);
    } else {
      AnnuityDenominatorNonzero(rateAnnualPct, termYears);
      AnnuityFactorClosedForm(1.0 + r, n);
      var q := Pow(1.0 + r, n);
      var f := AnnuityFactor(1.0 + r, n);
      PowPositive(1.0 + r, n);
      assert f * r * q == q - 1.0;
      assert p * (q - 1.0) == principal * (r * q);
      assert (p * f - principal) * (r * q) == 0.0 by {
        calc {
          (p * f - principal) * (r * q);
          p * (f * r * q) - principal * (r * q);
          p * (q - 1.0) - principal * (r * q);
          0.0;
        }
      }
      assert r * q != 0.0;
    }
  }

  /** Total nominal payments cover the principal: n * Pmt >= principal for a
      non-negative rate, with equality exactly at a zero rate, and strictly
      more for a positive rate and a positive principal. */
  lemma PmtCoversPrincipal(rateAnnualPct: real, termYears: nat, principal: real)
    requires termYears >= 1 && rateAnnualPct >= 0.0 && principal >= 0.0
    ensures Pmt(rateAnnualPct, termYears, principal) * (Periods(termYears) as real) >= principal
    ensures rateAnnualPct == 0.0 ==>
              Pmt(rateAnnualPct, termYears, principal) * (Periods(termYears) as real) == principal
    ensures rateAnnualPct > 0.0 && principal > 0.0 ==>
              Pmt(rateAnnualPct, termYears, principal) * (Periods(termYears) as real) > principal
  {
    if rateAnnualPct > 0.0 {
      var x := 1.0 + MonthlyRate(rateAnnualPct);
      var n := Periods(termYears);
      var p, f := LevelPayment(rateAnnualPct, termYears, principal);
      AnnuityFactorPositive(x, n);
      AnnuityFactorBelowPeriods(x, n);
      CoverStep(principal, p, f, n as real);
    }
  }

  /** In plain reals: a payment whose annuity factor f lies in (0, n) pays,
      over n periods, at least the principal it amortises, and strictly more
      when that principal is positive.
      Its arguments are plain variables rather than `Pow` terms, so the
      solver does not unfold `Pow` here. */
  lemma CoverStep(principal: real, p: real, f: real, n: real)
    requires 0.0 < f < n && p * f == principal && principal >= 0.0
    ensures p * n >= principal
    ensures principal > 0.0 ==> p * n > principal
  {
    assert p == principal / f;
    assert p >= 0.0;
    assert p * n - p * f == p * (n - f);
    if principal > 0.0 {
      assert p > 0.0;
      assert p * (n - f) > 0.0;
    }
  }

  /** In plain reals: of two payments that amortise the same positive
      principal, the one with the smaller annuity factor is larger.
      Its arguments are plain variables rather than `Pow` terms, so the
      solver does not unfold `Pow` here. */
  lemma SameProductOrder(a: real, f1: real, f2: real, p1: real, p2: real)
    requires a > 0.0 && f1 > f2 > 0.0 && p1 * f1 == a && p2 * f2 == a
    ensures p1 < p2
  {
    assert p1 == a / f1;
    assert p2 == a / f2;
    assert a / f2 - a / f1 == a * (f1 - f2) / (f1 * f2);
    assert a * (f1 - f2) > 0.0;
    assert f1 * f2 > 0.0;
  }

  /** A higher note rate means a higher payment on the same loan: for a
      positive principal Pmt is strictly increasing in the rate (above -1200%
      a year, where the growth factor stays positive). */
  lemma PmtIncreasingInRate(rate1: real, rate2: real, termYears: nat, principal: real)
    requires -1200.0 < rate1 < rate2 && termYears >= 1 && principal > 0.0
    ensures Pmt(rate1, termYears, principal) < Pmt(rate2, termYears, principal)
  {
    var p1, f1 := LevelPayment(rate1, termYears, principal);
    var p2, f2 := LevelPayment(rate2, termYears, principal);
    AnnuityFactorsOrdered(rate1, rate2, termYears);
    SameProductOrder(principal, f1, f2, p1, p2);
  }

  /** The payment and its annuity factor as plain values, with the level
      annuity identity between them. */
  lemma LevelPayment(rateAnnualPct: real, termYears: nat, principal: real) returns (p: real, f: real)
    requires termYears >= 1 && rateAnnualPct > -1200.0
    ensures p == Pmt(rateAnnualPct, termYears, principal)
    ensures f == AnnuityFactor(1.0 + MonthlyRate(rateAnnualPct), Periods(termYears))
    ensures p * f == principal
  {
    PmtIsLevelAnnuity(rateAnnualPct, termYears, principal);
    p, f := Pmt(rateAnnualPct, termYears, principal), AnnuityFactor(1.0 + MonthlyRate(rateAnnualPct), Periods(termYears));
  }

  /** A higher annual rate gives a smaller, still positive, annuity factor. */
  lemma AnnuityFactorsOrdered(rate1: real, rate2: real, termYears: nat)
    requires -1200.0 < rate1 < rate2 && termYears >= 1
    ensures AnnuityFactor(1.0 + MonthlyRate(rate1), Periods(termYears))
            > AnnuityFactor(1.0 + MonthlyRate(rate2), Periods(termYears)) > 0.0
  {
    AnnuityFactorDecreasing(1.0 + MonthlyRate(rate1), 1.0 + MonthlyRate(rate2), Periods(termYears));
    AnnuityFactorPositive(1.0 + MonthlyRate(rate2), Periods(termYears));
  }
}
