/** The scenario loop and baseline of mortgage_analyzer_app_basic.py: no
    upfront-fee financing, no points, a fixed 0.55% FHA MIP, and no
    eligibility checks. */
module Basic {
  import opened Payment
  import opened Escrow
  import opened Eligibility
  import opened Composer
  import Analyzer

  /** The FHA annual MIP the basic script hard-codes. */
  const BasicFhaAnnualMip: real := 0.0055

  /** The builder rate: the entered reduced rate for any rate buydown (the
      script has no scheme selector), otherwise the builder lender's rate. */
  function BasicBuilderRate(m: LoanInputs, inc: Incentive): (r: real)
    ensures inc.kind == RateBuydown ==> r == inc.permanentRate
    ensures inc.kind != RateBuydown ==> r == m.rateBuilder
    ensures m.Valid() && inc.Valid() ==> r >= 0.0
  {
    if inc.kind == RateBuydown then inc.permanentRate else m.rateBuilder
  }

  /** One pass of the basic loop body. The loan is the price less the down
      payment and never carries a financed fee. */
  function BasicScenario(a: Assumptions, b: Borrower, minCreditConv: int, m: LoanInputs, inc: Incentive,
                         slot: Slot): (f: Figures)
    requires PmtBasicDefined(slot.rate, m.loanTerm)
    ensures f.price == (if inc.kind == PriceReduction && slot.useIncentive then m.price - inc.amount else m.price)
    ensures f.closingCredit == (if inc.kind == ClosingCredit && slot.useIncentive then inc.amount else 0.0)
    ensures f.noteRate == slot.rate && f.down == slot.down && f.hoa == m.hoa
    ensures f.program == ProgramHint(b, minCreditConv)
    ensures f.financed == 0.0 && f.loanAmount == f.baseLoan
    ensures f.loanAmount >= 0.0 && f.loanAmount >= f.price - slot.down
    ensures f.loanAmount == 0.0 || f.loanAmount == f.price - slot.down
    ensures f.monthlyPi == Pmt(slot.rate, m.loanTerm, f.loanAmount)
    ensures var price := ResolveIncentive(inc.kind, slot.useIncentive, m.price, inc.amount).price;
            f.monthlyTax == Monthly(price * a.taxRate) && f.monthlyIns == Monthly(price * a.insRate)
    ensures f.ltv == Ltv(f.loanAmount, f.price)
    ensures f.mi == MonthlyMi(f.program, f.ltv, f.loanAmount, a.pmiRate, BasicFhaAnnualMip)
    ensures f.piti == f.monthlyPi + f.monthlyTax + f.monthlyIns + f.hoa + f.mi
    ensures f.dti == Dti(b.existingMonthlyDebts, f.piti, b.grossMonthlyIncome)
    ensures f.estClosingCosts == f.price * a.closingCostPct
    ensures f.cashToClose >= slot.down
    ensures f.closingCredit >= f.estClosingCosts ==> f.cashToClose == slot.down
    ensures f.closingCredit < f.estClosingCosts ==>
              f.cashToClose == slot.down + f.estClosingCosts - f.closingCredit
  {
    var res := ResolveIncentive(inc.kind, slot.useIncentive, m.price, inc.amount);
    var loan := Max0(res.price - slot.down);
    AssembleFigures(a, b, m, res.price, res.closingCredit, slot.rate, slot.down,
                    Sizing(ProgramHint(b, minCreditConv), loan, loan, 0.0),
                    PmtBasic(slot.rate, m.loanTerm, loan), BasicFhaAnnualMip, 0.0)
  }

  /** The three basic scenarios, in slot order. */
  function BasicAll(a: Assumptions, b: Borrower, minCreditConv: int, m: LoanInputs, inc: Incentive,
                    slots: seq<Slot>): (fs: seq<Figures>)
    requires forall k :: 0 <= k < |slots| ==> PmtBasicDefined(slots[k].rate, m.loanTerm)
    ensures |fs| == |slots|
    ensures forall k :: 0 <= k < |slots| ==> fs[k] == BasicScenario(a, b, minCreditConv, m, inc, slots[k])
  {
    seq(|slots|, k requires 0 <= k < |slots| => BasicScenario(a, b, minCreditConv, m, inc, slots[k]))
  }

  /** Builder versus outside P&I on the global down payment, the builder side
      at the builder rate the scenarios default to. */
  function BasicBaseline(m: LoanInputs, inc: Incentive): (bl: Analyzer.Baseline)
    requires PmtBasicDefined(BasicBuilderRate(m, inc), m.loanTerm)
    requires PmtBasicDefined(m.rateOutside, m.loanTerm)
    ensures bl.builderPi == Pmt(BasicBuilderRate(m, inc), m.loanTerm, Analyzer.BaselineLoan(m, inc))
    ensures bl.outsidePi == Pmt(m.rateOutside, m.loanTerm, Analyzer.BaselineLoan(m, inc))
  {
    var loan := Analyzer.BaselineLoan(m, inc);
    Analyzer.Baseline(PmtBasic(BasicBuilderRate(m, inc), m.loanTerm, loan),
                      PmtBasic(m.rateOutside, m.loanTerm, loan))
  }

  /** The basic baseline's builder P&I is the P&I of the first scenario at its
      default inputs, whatever the program hint, since no fee is financed. */
  lemma BasicBaselineMatchesBuilderScenario(a: Assumptions, b: Borrower, minCreditConv: int,
                                            m: LoanInputs, inc: Incentive)
    requires m.Valid() && inc.Valid()
    ensures PmtBasicDefined(BasicBuilderRate(m, inc), m.loanTerm)
    ensures PmtBasicDefined(m.rateOutside, m.loanTerm)
    ensures var slot := Analyzer.DefaultSlots(m, BasicBuilderRate(m, inc))[0];
            BasicScenario(a, b, minCreditConv, m, inc, slot).monthlyPi == BasicBaseline(m, inc).builderPi
  {
    var slot := Analyzer.DefaultSlots(m, BasicBuilderRate(m, inc))[0];
    assert BasicScenario(a, b, minCreditConv, m, inc, slot).loanAmount == Analyzer.BaselineLoan(m, inc);
  }

  /** Without points, with no upfront MIP and the same 0.55% annual MIP, and
      for a borrower who is not hinted VA, the basic script computes exactly
      the figures of mortgage_analyzer_app.py. `BasicLoanNoLarger` covers the
      cases it leaves out. */
  lemma BasicAgreesWithApp(a: Assumptions, t: Thresholds, b: Borrower, m: LoanInputs, inc: Incentive,
                           slot: Slot)
    requires PmtBasicDefined(slot.rate, m.loanTerm)
    requires a.pointsPct == 0.0 && a.fhaUfmipPct == 0.0 && a.fhaAnnualMip == BasicFhaAnnualMip
    requires ProgramHint(b, t.minCreditConv) != VA
    ensures PmtDefined(slot.rate, m.loanTerm)
    ensures var f := BasicScenario(a, b, t.minCreditConv, m, inc, slot);
            f == ScenarioFigures(a, t, b, m, f.price, f.closingCredit, slot.rate, slot.down)
  {
    var f := BasicScenario(a, b, t.minCreditConv, m, inc, slot);
    var loan := Max0(f.price - slot.down);
    assert SizeLoan(a, t, b, f.price, slot.down) == Sizing(ProgramHint(b, t.minCreditConv), loan, loan, 0.0);
  }

  /** The basic script finances no upfront fee, so its loan is never larger
      than the app's for the same price and down payment: an FHA upfront MIP
      or a VA funding fee only adds to the app's loan. */
  lemma BasicLoanNoLarger(a: Assumptions, t: Thresholds, b: Borrower, m: LoanInputs, inc: Incentive,
                          slot: Slot)
    requires PmtBasicDefined(slot.rate, m.loanTerm)
    requires a.Valid()
    ensures PmtDefined(slot.rate, m.loanTerm)
    ensures var f := BasicScenario(a, b, t.minCreditConv, m, inc, slot);
            var g := ScenarioFigures(a, t, b, m, f.price, f.closingCredit, slot.rate, slot.down);
            f.baseLoan == g.baseLoan && f.loanAmount <= g.loanAmount
            && (g.program == Conventional ==> f.loanAmount == g.loanAmount)
  {
  }
}
