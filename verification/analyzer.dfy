/** The full scenario pipeline of mortgage_analyzer_app.py: incentive
    resolution, fee financing, monthly figures, the temporary buydown of the
    builder scenario, eligibility, advisory warnings, and the builder-versus-
    outside P&I baseline. */
module Analyzer {
  import opened Payment
  import opened Buydown
  import opened Escrow
  import opened Eligibility
  import opened Composer

  /** The advisory warnings, in the order the loop appends them. */
  datatype Warning =
    | GovernmentNeedsPrimary
    | HighLtvConventional
    | FhaLtvLimit
    | VaNotEligible
    | BuydownShortfall

  function Rank(w: Warning): nat
  {
    match w
    case GovernmentNeedsPrimary => 0
    case HighLtvConventional => 1
    case FhaLtvLimit => 2
    case VaNotEligible => 3
    case BuydownShortfall => 4
  }

  /** Warnings listed in strictly increasing rank, hence each at most once. */
  predicate Ordered(ws: seq<Warning>)
  {
    forall j, k :: 0 <= j < k < |ws| ==> Rank(ws[j]) < Rank(ws[k])
  }

  /** One check of the loop: append `w` when its condition holds. */
  function AppendIf(ws: seq<Warning>, w: Warning, cond: bool): (r: seq<Warning>)
    requires Ordered(ws) && forall x <- ws :: Rank(x) < Rank(w)
    ensures Ordered(r)
    ensures forall x :: x in r <==> x in ws || (cond && x == w)
    ensures forall x <- r :: Rank(x) <= Rank(w)
  {
    if cond then ws + [w] else ws
  }

  /** Each warning is listed exactly when its condition holds, at most once,
      and in the fixed order of the checks. */
  function Warnings(occupancy: Occupancy, program: Program, ltv: real, vaEligible: bool,
                    shortfall: bool): (ws: seq<Warning>)
    ensures GovernmentNeedsPrimary in ws <==> occupancy != Primary && program != Conventional
    ensures HighLtvConventional in ws <==> program == Conventional && ltv > 0.95
    ensures FhaLtvLimit in ws <==> program == FHA && ltv > 0.965
    ensures VaNotEligible in ws <==> program == VA && !vaEligible
    ensures BuydownShortfall in ws <==> shortfall
    ensures Ordered(ws)
  {
    var w1 := AppendIf([], GovernmentNeedsPrimary, occupancy != Primary && (program == FHA || program == VA));
    var w2 := AppendIf(w1, HighLtvConventional, program == Conventional && ltv > 0.95);
    var w3 := AppendIf(w2, FhaLtvLimit, program == FHA && ltv > 0.965);
    var w4 := AppendIf(w3, VaNotEligible, program == VA && !vaEligible);
    AppendIf(w4, BuydownShortfall, shortfall)
  }

  /** Everything one scenario reports. */
  datatype AppResult = AppResult(
    figures: Figures, eligibility: Eligibility, buydown: Option<TempBuydown>, warnings: seq<Warning>)

  /** Only the first scenario, using a RateBuydown incentive with a 2-1 or
      3-2-1 scheme, gets a temporary-buydown schedule. */
  predicate BuydownApplies(inc: Incentive, index: nat, slot: Slot)
  {
    inc.kind == RateBuydown && slot.useIncentive && index == 1 && inc.scheme.IsTemporary()
  }

  /** The scenario's payments can all be computed without a division error. */
  predicate ScenarioDefined(m: LoanInputs, inc: Incentive, index: nat, slot: Slot)
  {
    && PmtDefined(slot.rate, m.loanTerm)
    && (BuydownApplies(inc, index, slot) ==> StepRatesDefined(slot.rate, inc.scheme, m.loanTerm))
  }

  /** The scenario loop body for scenario number `index` (from 1). */
  function EvaluateScenario(a: Assumptions, t: Thresholds, b: Borrower, m: LoanInputs, inc: Incentive,
                            index: nat, slot: Slot): (r: AppResult)
    requires ScenarioDefined(m, inc, index, slot)
    ensures r.figures.price == (if inc.kind == PriceReduction && slot.useIncentive
                                then m.price - inc.amount else m.price)
    ensures r.figures.closingCredit == (if inc.kind == ClosingCredit && slot.useIncentive
                                        then inc.amount else 0.0)
    ensures r.figures == ScenarioFigures(a, t, b, m, r.figures.price, r.figures.closingCredit,
                                         slot.rate, slot.down)
    ensures r.eligibility == Evaluate(b, t, r.figures.dti)
    ensures r.buydown.Some? <==> BuydownApplies(inc, index, slot)
    ensures r.buydown.Some? ==>
              r.buydown.value == BuildTempBuydown(inc.scheme, slot.rate, m.loanTerm,
                                                  r.figures.loanAmount, r.figures.monthlyPi)
    ensures BuydownShortfall in r.warnings <==> r.buydown.Some? && inc.amount < r.buydown.value.pvCost
    ensures GovernmentNeedsPrimary in r.warnings <==>
              b.occupancy != Primary && r.figures.program != Conventional
    ensures HighLtvConventional in r.warnings <==> r.figures.program == Conventional && r.figures.ltv > 0.95
    ensures FhaLtvLimit in r.warnings <==> r.figures.program == FHA && r.figures.ltv > 0.965
    ensures VaNotEligible !in r.warnings
    ensures r.warnings == Warnings(b.occupancy, r.figures.program, r.figures.ltv, b.vaEligible,
                                   r.buydown.Some? && inc.amount < r.buydown.value.pvCost)
    ensures Ordered(r.warnings)
  {
    var res := ResolveIncentive(inc.kind, slot.useIncentive, m.price, inc.amount);
    var f := ScenarioFigures(a, t, b, m, res.price, res.closingCredit, slot.rate, slot.down);
    var buydown :=
      if BuydownApplies(inc, index, slot)
      then Some(BuildTempBuydown(inc.scheme, slot.rate, m.loanTerm, f.loanAmount, f.monthlyPi))
      else None;
    var shortfall := inc.kind == RateBuydown && slot.useIncentive && buydown.Some?
                     && inc.amount < buydown.value.pvCost;
    AppResult(f, Evaluate(b, t, f.dti), buydown,
              Warnings(b.occupancy, f.program, f.ltv, b.vaEligible, shortfall))
  }

  /** The scenario loop over all slots, numbered from 1. Only the first
      scenario can carry a temporary buydown or its shortfall warning. */
  function EvaluateAll(a: Assumptions, t: Thresholds, b: Borrower, m: LoanInputs, inc: Incentive,
                       slots: seq<Slot>): (rs: seq<AppResult>)
    requires forall k :: 0 <= k < |slots| ==> ScenarioDefined(m, inc, k + 1, slots[k])
    ensures |rs| == |slots|
    ensures forall k :: 0 <= k < |slots| ==> rs[k] == EvaluateScenario(a, t, b, m, inc, k + 1, slots[k])
    ensures forall k :: 1 <= k < |rs| ==> rs[k].buydown.None? && BuydownShortfall !in rs[k].warnings
  {
    seq(|slots|, k requires 0 <= k < |slots| => EvaluateScenario(a, t, b, m, inc, k + 1, slots[k]))
  }

  /** The three scenario slots with their widget defaults: the builder lender
      at the builder rate using the incentive, the outside lender without it,
      and a custom slot like the first. */
  function DefaultSlots(m: LoanInputs, builderRate: real): (slots: seq<Slot>)
    ensures |slots| == 3
    ensures forall k :: 0 <= k < 3 ==> slots[k].down == m.downPayment
    ensures slots[0] == slots[2] && slots[0].rate == builderRate && slots[0].useIncentive
    ensures slots[1].rate == m.rateOutside && !slots[1].useIncentive
  {
    [Slot(builderRate, true, m.downPayment), Slot(m.rateOutside, false, m.downPayment),
     Slot(builderRate, true, m.downPayment)]
  }

  /** The builder-versus-outside P&I comparison on the global down payment. */
  datatype Baseline = Baseline(builderPi: real, outsidePi: real)

  /** The baseline loan: the price, reduced whenever the incentive is a price
      reduction, less the global down payment, floored at 0. */
  function BaselineLoan(m: LoanInputs, inc: Incentive): (loan: real)
    ensures loan >= 0.0
    ensures var adj := if inc.kind == PriceReduction then m.price - inc.amount else m.price;
            loan >= adj - m.downPayment && (loan == 0.0 || loan == adj - m.downPayment)
  {
    Max0((if inc.kind == PriceReduction then m.price - inc.amount else m.price) - m.downPayment)
  }

  /** The baseline as the script computes it: the builder rate it starts from
      already carries the points reduction, and the reduction is applied to it
      a second time. */
  function BaselineAsWritten(a: Assumptions, m: LoanInputs, inc: Incentive): (bl: Baseline)
    requires m.Valid() && inc.Valid()
    ensures bl.builderPi == Pmt(PointsAdjustedRate(BuilderRate(m, inc, a), a), m.loanTerm, BaselineLoan(m, inc))
    ensures bl.outsidePi == Pmt(m.rateOutside, m.loanTerm, BaselineLoan(m, inc))
  {
    var loan := BaselineLoan(m, inc);
    var builderRate := PointsAdjustedRate(BuilderRate(m, inc, a), a);
    Baseline(Pmt(builderRate, m.loanTerm, loan), Pmt(m.rateOutside, m.loanTerm, loan))
  }

  /** Baseline with the points reduction applied once: the builder P&I is
      computed at the builder rate the scenarios default to. */
  function IntendedBaseline(a: Assumptions, m: LoanInputs, inc: Incentive): (bl: Baseline)
    requires m.Valid() && inc.Valid()
    ensures bl.outsidePi == BaselineAsWritten(a, m, inc).outsidePi
    ensures !(a.applyPointsToBuilderRate && a.pointsPct > 0.0) ==> bl == BaselineAsWritten(a, m, inc)
    ensures bl.builderPi == Pmt(BuilderRate(m, inc, a), m.loanTerm, BaselineLoan(m, inc))
  {
    var loan := BaselineLoan(m, inc);
    Baseline(Pmt(BuilderRate(m, inc, a), m.loanTerm, loan), Pmt(m.rateOutside, m.loanTerm, loan))
  }

  /** With the intended baseline, the builder P&I is exactly the P&I of the
      builder scenario at its default inputs whenever no upfront fee is
      financed (a Conventional hint). */
  lemma IntendedBaselineMatchesBuilderScenario(a: Assumptions, t: Thresholds, b: Borrower,
                                               m: LoanInputs, inc: Incentive)
    requires m.Valid() && inc.Valid()
    requires ProgramHint(b, t.minCreditConv) == Conventional
    ensures var slot := DefaultSlots(m, BuilderRate(m, inc, a))[0];
            ScenarioDefined(m, inc, 1, slot)
            && EvaluateScenario(a, t, b, m, inc, 1, slot).figures.monthlyPi
               == IntendedBaseline(a, m, inc).builderPi
  {
    var slot := DefaultSlots(m, BuilderRate(m, inc, a))[0];
    var rates := TempBuydownYearlyRates(slot.rate, inc.scheme);
    assert forall x <- rates :: x >= slot.rate - 3.0;
    var f := EvaluateScenario(a, t, b, m, inc, 1, slot).figures;
    assert f.baseLoan == BaselineLoan(m, inc);
  }

  /** The discrepancy of the baseline as written: one discount point at 25
      basis points a point takes the builder scenarios from 6.75% to 6.5%, but
      the baseline to 6.25%, so on a $520,000 loan it reports a lower builder
      P&I than the builder scenario pays. */
  lemma BaselineAppliesPointsTwice()
    ensures var a := Assumptions(0.03, 0.006, 0.0035, 0.006, 0.0175, 0.0055, 0.01, 0.25, true);
            var m := LoanInputs(550000.0, 30000.0, 0.0, 30, 6.75, 7.0);
            var inc := Incentive(ClosingCredit, 10000.0, Permanent, 6.25);
            && BuilderRate(m, inc, a) == 6.5
            && PointsAdjustedRate(BuilderRate(m, inc, a), a) == 6.25
            && BaselineAsWritten(a, m, inc).builderPi < IntendedBaseline(a, m, inc).builderPi
  {
    var a := Assumptions(0.03, 0.006, 0.0035, 0.006, 0.0175, 0.0055, 0.01, 0.25, true);
    var m := LoanInputs(550000.0, 30000.0, 0.0, 30, 6.75, 7.0);
    var inc := Incentive(ClosingCredit, 10000.0, Permanent, 6.25);
    assert BaselineLoan(m, inc) == 520000.0;
    PmtIncreasingInRate(6.25, 6.5, 30, 520000.0);
  }
}
