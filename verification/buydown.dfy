/** Temporary rate buydowns: the stepped yearly rates
    (`temp_buydown_yearly_rates`), the month-by-month discounted value of the
    payment subsidy (`present_value_of_diffs`) and the per-year schedule the
    scenario loops build from them. */
module Buydown {
  import opened PowMath
  import opened Payment

  /** The three buydown schemes the incentive widget offers. The source
      compares strings; every string other than "2-1" and "3-2-1" behaves as
      Permanent. */
  datatype Scheme = Permanent | TwoOne | ThreeTwoOne {
    /** A temporary scheme produces a stepped-rate schedule. */
    predicate IsTemporary() {
      this != Permanent
    }
  }

  /** Stepped note rates, year 1 first: 2-1 lowers the rate by 2 then 1
      points, 3-2-1 by 3, 2 then 1; a permanent buydown has no steps. */
  function TempBuydownYearlyRates(baseRate: real, scheme: Scheme): (rates: seq<real>)
    ensures scheme == Permanent <==> rates == []
    ensures scheme == TwoOne ==> |rates| == 2
    ensures scheme == ThreeTwoOne ==> |rates| == 3
    ensures forall k :: 0 <= k < |rates| ==> rates[k] == baseRate - (|rates| - k) as real
    ensures forall k :: 0 <= k < |rates| ==> rates[k] < baseRate
    ensures forall j, k :: 0 <= j < k < |rates| ==> rates[j] < rates[k]
  {
    match scheme
    case TwoOne => [baseRate - 2.0, baseRate - 1.0]
    case ThreeTwoOne => [baseRate - 3.0, baseRate - 2.0, baseRate - 1.0]
    case Permanent => []
  }

  /** The step rates as both scenario loops write them inline, reached only
      for a temporary scheme: "2-1", or else "3-2-1". Nothing calls it: it
      exists to show that the inline lists agree with the helper, which is
      what lets `BuildTempBuydown` use the helper. */
  function InlineStepRates(rate: real, scheme: Scheme): (rates: seq<real>)
    requires scheme.IsTemporary()
    ensures rates == TempBuydownYearlyRates(rate, scheme)
  {
    if scheme == TwoOne then [rate - 2.0, rate - 1.0]
    else [rate - 3.0, rate - 2.0, rate - 1.0]
  }

  /** One `(months, diff)` entry: a monthly payment difference repeated for a
      number of months. */
  datatype MonthlyDiff = MonthlyDiff(months: nat, diff: real)

  /** Value today of `diff` paid at absolute month m, at monthly rate i; a
      non-positive rate leaves it undiscounted. */
  function Discount(diff: real, i: real, m: nat): (d: real)
    ensures i > 0.0 ==> d * Pow(1.0 + i, m) == diff
    ensures i <= 0.0 ==> d == diff
  {
    if i > 0.0 then
      PowAtLeastOne(1.0 + i, m);
      diff / Pow(1.0 + i, m)
    else diff
  }

  /** Discounted value of `months` equal differences paid in the months
      start+1 .. start+months. */
  function EntryPv(months: nat, diff: real, i: real, start: nat): real
    decreases months
  {
    if months == 0 then 0.0
    else EntryPv(months - 1, diff, i, start) + Discount(diff, i, start + months)
  }

  /** Total number of months the entries cover. */
  function TotalMonths(diffs: seq<MonthlyDiff>): nat
  {
    if |diffs| == 0 then 0 else diffs[0].months + TotalMonths(diffs[1..])
  }

  /** Discounted value of the entries, the first one starting after month
      `start` and each one continuing the month count of the one before. */
  function PvFrom(diffs: seq<MonthlyDiff>, i: real, start: nat): real
    decreases |diffs|
  {
    if |diffs| == 0 then 0.0
    else EntryPv(diffs[0].months, diffs[0].diff, i, start)
         + PvFrom(diffs[1..], i, start + diffs[0].months)
  }

  /** `present_value_of_diffs`: the value of the subsidy discounted month by
      month at the base note rate, the month index starting at 1. */
  function PresentValue(diffs: seq<MonthlyDiff>, baseRatePct: real): real
  {
    PvFrom(diffs, MonthlyRate(baseRatePct), 0)
  }

  /** Undiscounted sum of the subsidy: months * diff over all entries. */
  function Undiscounted(diffs: seq<MonthlyDiff>): real
  {
    if |diffs| == 0 then 0.0
    else (diffs[0].months as real) * diffs[0].diff + Undiscounted(diffs[1..])
  }

  /** The app's `sum_cost`: twelve times each entry's difference. */
  function TwelveFoldSum(diffs: seq<MonthlyDiff>): real
  {
    if |diffs| == 0 then 0.0 else 12.0 * diffs[0].diff + TwelveFoldSum(diffs[1..])
  }

  predicate AllYearly(diffs: seq<MonthlyDiff>)
  {
    forall k :: 0 <= k < |diffs| ==> diffs[k].months == 12
  }

  predicate AllNonNegative(diffs: seq<MonthlyDiff>)
  {
    forall k :: 0 <= k < |diffs| ==> diffs[k].diff >= 0.0
  }

  /** When every entry covers a year, twelve times the differences is the
      undiscounted subsidy. */
  lemma {:induction false} TwelveFoldSumIsUndiscounted(diffs: seq<MonthlyDiff>)
    requires AllYearly(diffs)
    ensures TwelveFoldSum(diffs) == Undiscounted(diffs)
    decreases |diffs|
  {
    if |diffs| > 0 {
      assert diffs[0].months == 12;
      TwelveFoldSumIsUndiscounted(diffs[1..]);
    }
  }

  /** Appending an entry adds its value at the months following all earlier
      entries. */
  lemma {:induction false} PvFromAppend(diffs: seq<MonthlyDiff>, e: MonthlyDiff, i: real, start: nat)
    ensures TotalMonths(diffs + [e]) == TotalMonths(diffs) + e.months
    ensures PvFrom(diffs + [e], i, start)
              == PvFrom(diffs, i, start) + EntryPv(e.months, e.diff, i, start + TotalMonths(diffs))
    decreases |diffs|
  {
    if |diffs| == 0 {
      assert [e][1..] == [];
    } else {
      assert (diffs + [e])[1..] == diffs[1..] + [e];
      PvFromAppend(diffs[1..], e, i, start + diffs[0].months);
    }
  }

  /** The source's nested loop: the outer loop walks the entries, the inner
      loop walks the months of an entry, and the month counter m runs on from
      one entry to the next. `termYears` is accepted and never read, as in
      mortgage_analyzer_app.py; the two-argument version in
      mortgage_analyzer_app_enhanced.py is this method without it. */
  method PresentValueOfDiffs(diffs: seq<MonthlyDiff>, baseRatePct: real, termYears: nat)
    returns (pv: real)
    ensures pv == PresentValue(diffs, baseRatePct)
  {
    var i := MonthlyRate(baseRatePct);
    pv := 0.0;
    var m: nat := 0;
    var j := 0;
    while j < |diffs|
      invariant 0 <= j <= |diffs|
      invariant m == TotalMonths(diffs[..j])
      invariant pv == PvFrom(diffs[..j], i, 0)
    {
      var months := diffs[j].months;
      var diff := diffs[j].diff;
      var k := 0;
      while k < months
        invariant 0 <= k <= months
        invariant m == TotalMonths(diffs[..j]) + k
        invariant pv == PvFrom(diffs[..j], i, 0) + EntryPv(k, diff, i, TotalMonths(diffs[..j]))
      {
        m := m + 1;
        pv := pv + Discount(diff, i, m);
        k := k + 1;
      }
      PvFromAppend(diffs[..j], diffs[j], i, 0);
      assert diffs[..j + 1] == diffs[..j] + [diffs[j]];
      j := j + 1;
    }
    assert diffs[..|diffs|] == diffs;
  }

  lemma {:induction false} EntryPvUndiscounted(months: nat, diff: real, i: real, start: nat)
    requires i <= 0.0
    ensures EntryPv(months, diff, i, start) == (months as real) * diff
    decreases months
  {
    if months > 0 {
      EntryPvUndiscounted(months - 1, diff, i, start);
    }
  }

  lemma {:induction false} PvFromUndiscounted(diffs: seq<MonthlyDiff>, i: real, start: nat)
    requires i <= 0.0
    ensures PvFrom(diffs, i, start) == Undiscounted(diffs)
    decreases |diffs|
  {
    if |diffs| > 0 {
      EntryPvUndiscounted(diffs[0].months, diffs[0].diff, i, start);
      PvFromUndiscounted(diffs[1..], i, start + diffs[0].months);
    }
  }

  /** At a zero or negative base rate nothing is discounted: the present value
      is the undiscounted subsidy. */
  lemma PresentValueAtNonPositiveRate(diffs: seq<MonthlyDiff>, baseRatePct: real)
    requires baseRatePct <= 0.0
    ensures PresentValue(diffs, baseRatePct) == Undiscounted(diffs)
  {
    PvFromUndiscounted(diffs, MonthlyRate(baseRatePct), 0);
  }

  /** At a positive rate a non-negative difference loses value, but stays
      non-negative, when discounted. */
  lemma DiscountBounds(diff: real, i: real, m: nat)
    requires i > 0.0 && diff >= 0.0
    ensures 0.0 <= Discount(diff, i, m) <= diff
  {
    DiscountIsScaled(diff, i, m);
    var q := Pow(1.0 + i, m);
    var inv := 1.0 / q;
    assert inv * q == 1.0;
    assert 0.0 < inv <= 1.0;
    MulNonNegative(diff, inv);
    MulNonNegative(diff, 1.0 - inv);
    assert diff - diff * inv == diff * (1.0 - inv);
  }

  lemma {:induction false} EntryPvBounds(months: nat, diff: real, i: real, start: nat)
    requires i > 0.0 && diff >= 0.0
    ensures 0.0 <= EntryPv(months, diff, i, start) <= (months as real) * diff
    decreases months
  {
    if months > 0 {
      EntryPvBounds(months - 1, diff, i, start);
      DiscountBounds(diff, i, start + months);
      assert (months as real) * diff == ((months - 1) as real) * diff + diff;
    }
  }

  lemma {:induction false} PvFromBounds(diffs: seq<MonthlyDiff>, i: real, start: nat)
    requires i > 0.0 && AllNonNegative(diffs)
    ensures 0.0 <= PvFrom(diffs, i, start) <= Undiscounted(diffs)
    decreases |diffs|
  {
    if |diffs| > 0 {
      assert diffs[0].diff >= 0.0;
      EntryPvBounds(diffs[0].months, diffs[0].diff, i, start);
      PvFromBounds(diffs[1..], i, start + diffs[0].months);
    }
  }

  /** At a positive base rate a non-negative subsidy is worth between zero and
      its undiscounted sum. */
  lemma PresentValueBounds(diffs: seq<MonthlyDiff>, baseRatePct: real)
    requires baseRatePct > 0.0 && AllNonNegative(diffs)
    ensures 0.0 <= PresentValue(diffs, baseRatePct) <= Undiscounted(diffs)
  {
    PvFromBounds(diffs, MonthlyRate(baseRatePct), 0);
  }

  lemma {:induction false} UndiscountedPositive(diffs: seq<MonthlyDiff>)
    requires |diffs| >= 1
    requires forall k :: 0 <= k < |diffs| ==> diffs[k].months >= 1 && diffs[k].diff > 0.0
    ensures Undiscounted(diffs) > 0.0
    decreases |diffs|
  {
    var e := diffs[0];
    assert (e.months as real) * e.diff > 0.0;
    if |diffs| > 1 {
      UndiscountedPositive(diffs[1..]);
    }
  }

  /** A nonzero factor cancels from both sides of an equation. It is a separate
      lemma so that callers do not ask the solver to divide by `q`. */
  lemma CancelFactor(a: real, b: real, q: real)
    requires q != 0.0 && a * q == b * q
    ensures a == b
  {
    assert (a - b) * q == 0.0;
  }

  /** `diff` repeated n times. */
  function Repeat(diff: real, n: nat): (s: seq<real>)
    ensures |s| == n
    ensures forall k :: 0 <= k < n ==> s[k] == diff
  {
    seq(n, _ => diff)
  }

  /** The month-by-month subsidy: entry after entry, each difference repeated
      for its months. */
  function Flatten(diffs: seq<MonthlyDiff>): seq<real>
    decreases |diffs|
  {
    if |diffs| == 0 then [] else Repeat(diffs[0].diff, diffs[0].months) + Flatten(diffs[1..])
  }

  /** Discounted sum of a month-by-month subsidy whose k-th element (from 0)
      is paid in month start + k + 1. */
  function DiscountedSum(s: seq<real>, i: real, start: nat): real
    decreases |s|
  {
    if |s| == 0 then 0.0
    else DiscountedSum(s[..|s| - 1], i, start) + Discount(s[|s| - 1], i, start + |s|)
  }

  lemma {:induction false} DiscountedSumRepeat(diff: real, n: nat, i: real, start: nat)
    ensures DiscountedSum(Repeat(diff, n), i, start) == EntryPv(n, diff, i, start)
    decreases n
  {
    if n > 0 {
      assert Repeat(diff, n)[..n - 1] == Repeat(diff, n - 1);
      DiscountedSumRepeat(diff, n - 1, i, start);
    }
  }

  lemma {:induction false} DiscountedSumConcat(a: seq<real>, b: seq<real>, i: real, start: nat)
    ensures DiscountedSum(a + b, i, start) == DiscountedSum(a, i, start) + DiscountedSum(b, i, start + |a|)
    decreases |b|
  {
    if |b| == 0 {
      assert a + b == a;
    } else {
      assert (a + b)[..|a + b| - 1] == a + b[..|b| - 1];
      DiscountedSumConcat(a, b[..|b| - 1], i, start);
    }
  }

  lemma {:induction false} PvFromFlatten(diffs: seq<MonthlyDiff>, i: real, start: nat)
    ensures |Flatten(diffs)| == TotalMonths(diffs)
    ensures PvFrom(diffs, i, start) == DiscountedSum(Flatten(diffs), i, start)
    decreases |diffs|
  {
    if |diffs| > 0 {
      var e := diffs[0];
      PvFromFlatten(diffs[1..], i, start + e.months);
      DiscountedSumConcat(Repeat(e.diff, e.months), Flatten(diffs[1..]), i, start);
      DiscountedSumRepeat(e.diff, e.months, i, start);
    }
  }

  /** The month index runs on across entries: the present value is the
      discounted sum of the flattened month-by-month subsidy, month k of it
      (from 1) discounted by (1 + i)^k, over all TotalMonths months. */
  lemma PresentValueMonthByMonth(diffs: seq<MonthlyDiff>, baseRatePct: real)
    ensures |Flatten(diffs)| == TotalMonths(diffs)
    ensures PresentValue(diffs, baseRatePct) == DiscountedSum(Flatten(diffs), MonthlyRate(baseRatePct), 0)
  {
    PvFromFlatten(diffs, MonthlyRate(baseRatePct), 0);
  }

  lemma DiscountIsScaled(diff: real, i: real, m: nat)
    requires i > 0.0
    ensures Pow(1.0 + i, m) >= 1.0
    ensures Discount(diff, i, m) == diff * (1.0 / Pow(1.0 + i, m))
  {
    PowAtLeastOne(1.0 + i, m);
    var q := Pow(1.0 + i, m);
    var d := Discount(diff, i, m);
    var e := diff * (1.0 / q);
    assert e * q == diff by {
      assert (1.0 / q) * q == 1.0;
      assert e * q == diff * ((1.0 / q) * q);
    }
    CancelFactor(d, e, q);
  }

  /** At a positive monthly rate, n equal differences from month 1 on are
      worth the difference times the annuity factor of n months. */
  lemma {:induction false} EntryPvIsAnnuity(n: nat, diff: real, i: real) returns (pv: real, factor: real)
    requires i > 0.0
    ensures pv == EntryPv(n, diff, i, 0) && factor == AnnuityFactor(1.0 + i, n)
    ensures pv == diff * factor
    decreases n
  {
    if n == 0 {
      pv, factor := EntryPvAnnuityBase(diff, i);
    } else {
      var pv0, factor0 := EntryPvIsAnnuity(n - 1, diff, i);
      pv, factor := EntryPvIsAnnuityStep(n, diff, i, pv0, factor0);
    }
  }

  /** The base case: no months are worth nothing, and so is an empty annuity. */
  lemma EntryPvAnnuityBase(diff: real, i: real) returns (pv: real, factor: real)
    requires i > 0.0
    ensures pv == EntryPv(0, diff, i, 0) && factor == AnnuityFactor(1.0 + i, 0)
    ensures pv == diff * factor
  {
    pv, factor := 0.0, 0.0;
  }

  /** The inductive step: the identity for n - 1 months carries to n months. */
  lemma EntryPvIsAnnuityStep(n: nat, diff: real, i: real, pv0: real, factor0: real) returns (pv: real, factor: real)
    requires i > 0.0 && n > 0
    requires pv0 == EntryPv(n - 1, diff, i, 0) && factor0 == AnnuityFactor(1.0 + i, n - 1)
    requires pv0 == diff * factor0
    ensures pv == EntryPv(n, diff, i, 0) && factor == AnnuityFactor(1.0 + i, n)
    ensures pv == diff * factor
  {
    var e, prev, d, a, g, af := EntryPvAnnuityTerms(n, diff, i);
    assert e == pv0 + d && af == factor0 + g;
    DistributeStep(e, pv0, d, diff, factor0, g, af);
    pv, factor := e, af;
  }

  /** One month more: the present value gains the discounted difference
      diff * g and the annuity factor gains g = 1 / (1 + i)^n. The six
      results only name these terms, so that the inductive step can reason
      about variables rather than unfold `EntryPv`, `Discount` and `Pow`. */
  lemma EntryPvAnnuityTerms(n: nat, diff: real, i: real) returns (e: real, prev: real, d: real, a: real, g: real, af: real)
    requires i > 0.0 && n > 0
    ensures e == EntryPv(n, diff, i, 0) && prev == EntryPv(n - 1, diff, i, 0)
    ensures a == AnnuityFactor(1.0 + i, n - 1) && af == AnnuityFactor(1.0 + i, n)
    ensures e == prev + d && d == diff * g && af == a + g
  {
    DiscountIsScaled(diff, i, n);
    e, prev, d := EntryPv(n, diff, i, 0), EntryPv(n - 1, diff, i, 0), Discount(diff, i, n);
    a, g, af := AnnuityFactor(1.0 + i, n - 1), 1.0 / Pow(1.0 + i, n), AnnuityFactor(1.0 + i, n);
  }

  /** In plain reals: a running total that grows by diff * g keeps being
      diff times a factor that grows by g.
      Its arguments are plain variables rather than `Pow` terms, so the
      solver does not unfold `Pow` here. */
  lemma DistributeStep(e: real, prev: real, d: real, diff: real, a: real, g: real, af: real)
    requires prev == diff * a && d == diff * g && e == prev + d && af == a + g
    ensures e == diff * af
  {
  }

  /** The payment and the present value are inverse: n months of the level
      payment, discounted at the same non-negative note rate, are worth
      exactly the principal. */
  lemma LevelPaymentsRepayPrincipal(rateAnnualPct: real, termYears: nat, principal: real)
    requires termYears >= 1 && rateAnnualPct >= 0.0
    ensures PresentValue([MonthlyDiff(Periods(termYears), Pmt(rateAnnualPct, termYears, principal))],
                         rateAnnualPct) == principal
  {
    var n := Periods(termYears);
    var p := Pmt(rateAnnualPct, termYears, principal);
    var i := MonthlyRate(rateAnnualPct);
    var diffs := [MonthlyDiff(n, p)];
    assert diffs[1..] == [];
    assert PvFrom(diffs[1..], i, n) == 0.0;
    assert PresentValue(diffs, rateAnnualPct) == EntryPv(n, p, i, 0);
    if rateAnnualPct == 0.0 {
      EntryPvUndiscounted(n, p, i, 0);
    } else {
      var pv, factor := EntryPvIsAnnuity(n, p, i);
      var p', f := LevelPayment(rateAnnualPct, termYears, principal);
    }
  }

  /** One row of the stepped schedule: year number (from 1), rate, payment. */
  datatype YearPayment = YearPayment(year: nat, rate: real, payment: real)

  /** A temporary-buydown record: the scheme, the yearly stepped payments,
      the `(12, base payment - stepped payment)` entries and their present
      value at the note rate. */
  datatype TempBuydown = TempBuydown(scheme: Scheme, yearly: seq<YearPayment>,
                                     diffs: seq<MonthlyDiff>, pvCost: real)
  {
    /** The undiscounted subsidy the app reports as `sum_cost`. */
    function SumCost(): real
    {
      TwelveFoldSum(diffs)
    }
  }

  /** Every stepped rate of the scheme can be fed to Pmt. */
  predicate StepRatesDefined(noteRate: real, scheme: Scheme, termYears: nat)
  {
    forall x <- TempBuydownYearlyRates(noteRate, scheme) :: PmtDefined(x, termYears)
  }

  /** The stepped schedule a scenario builds for a temporary scheme: one year
      per stepped rate, each with the payment at that rate on the same loan,
      and the monthly difference from the note-rate payment for 12 months. */
  function BuildTempBuydown(scheme: Scheme, noteRate: real, termYears: nat, loanAmount: real,
                            basePayment: real): (b: TempBuydown)
    requires scheme.IsTemporary() && StepRatesDefined(noteRate, scheme, termYears)
    ensures b.scheme == scheme
    ensures |b.yearly| == |b.diffs| == (if scheme == TwoOne then 2 else 3)
    ensures forall k :: 0 <= k < |b.yearly| ==>
              && b.yearly[k].year == k + 1
              && b.yearly[k].rate == noteRate - (|b.yearly| - k) as real
              && b.yearly[k].payment == Pmt(b.yearly[k].rate, termYears, loanAmount)
              && b.diffs[k] == MonthlyDiff(12, basePayment - b.yearly[k].payment)
    ensures b.pvCost == PresentValue(b.diffs, noteRate)
  {
    var rates := TempBuydownYearlyRates(noteRate, scheme);
    var yearly := seq(|rates|, k requires 0 <= k < |rates| =>
                        assert rates[k] in rates;
                        YearPayment(k + 1, rates[k], Pmt(rates[k], termYears, loanAmount)));
    var diffs := seq(|rates|, k requires 0 <= k < |rates| => MonthlyDiff(12, basePayment - yearly[k].payment));
    TempBuydown(scheme, yearly, diffs, PresentValue(diffs, noteRate))
  }

  /** Funding a temporary buydown of a positive loan at its own note-rate
      payment is a genuine subsidy: every stepped year pays less, the subsidy
      is positive, and its present value lies between zero and the
      undiscounted sum (equal to it at a non-positive note rate). */
  lemma BuydownSubsidyBounded(scheme: Scheme, noteRate: real, termYears: nat, loanAmount: real)
    requires scheme.IsTemporary() && termYears >= 1 && loanAmount > 0.0
    requires noteRate > -1197.0
    ensures StepRatesDefined(noteRate, scheme, termYears) && PmtDefined(noteRate, termYears)
    ensures var b := BuildTempBuydown(scheme, noteRate, termYears, loanAmount,
                                      Pmt(noteRate, termYears, loanAmount));
            && (forall k :: 0 <= k < |b.diffs| ==> b.diffs[k].diff > 0.0)
            && b.SumCost() > 0.0
            && (noteRate > 0.0 ==> 0.0 <= b.pvCost <= b.SumCost())
            && (noteRate <= 0.0 ==> b.pvCost == b.SumCost())
  {
    var base := Pmt(noteRate, termYears, loanAmount);
    var b := BuildTempBuydown(scheme, noteRate, termYears, loanAmount, base);
    forall k | 0 <= k < |b.diffs|
      ensures b.diffs[k].diff > 0.0
    {
      PmtIncreasingInRate(b.yearly[k].rate, noteRate, termYears, loanAmount);
    }
    assert AllNonNegative(b.diffs);
    assert AllYearly(b.diffs);
    TwelveFoldSumIsUndiscounted(b.diffs);
    UndiscountedPositive(b.diffs);
    if noteRate > 0.0 {
      PresentValueBounds(b.diffs, noteRate);
    } else {
      PresentValueAtNonPositiveRate(b.diffs, noteRate);
    }
  }
}
