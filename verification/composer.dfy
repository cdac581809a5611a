/** The pieces every scenario loop shares: scenario inputs, incentive
    resolution, upfront-fee financing, the monthly figures, closing costs and
    cash to close, and the points-adjusted builder rate. */
module Composer {
  import opened Payment
  import opened FeeSchedule
  import opened Buydown
  import opened Escrow
  import opened Eligibility
  import opened PowMath

  datatype Option<T> = None | Some(value: T)

  /** The builder incentive types. */
  datatype IncentiveKind = ClosingCredit | PriceReduction | RateBuydown

  /** The builder incentive: its type, dollar amount, buydown scheme and the
      reduced note rate entered for a permanent buydown. The scheme widget is
      shown only for RateBuydown, so every other type keeps "Permanent". */
  datatype Incentive = Incentive(kind: IncentiveKind, amount: real, scheme: Scheme, permanentRate: real)
  {
    predicate Valid() {
      amount >= 0.0 && permanentRate >= 0.0 && (kind != RateBuydown ==> scheme == Permanent)
    }
  }

  /** Sidebar assumptions, as fractions (the widgets' percentages divided by
      100; the per-point rate reduction in percentage points). */
  datatype Assumptions = Assumptions(
    closingCostPct: real, taxRate: real, insRate: real, pmiRate: real,
    fhaUfmipPct: real, fhaAnnualMip: real,
    pointsPct: real, rateReductionPerPoint: real, applyPointsToBuilderRate: bool)
  {
    /** Every widget here has a minimum of zero. */
    predicate Valid() {
      && closingCostPct >= 0.0 && taxRate >= 0.0 && insRate >= 0.0 && pmiRate >= 0.0
      && fhaUfmipPct >= 0.0 && fhaAnnualMip >= 0.0 && pointsPct >= 0.0 && rateReductionPerPoint >= 0.0
    }
  }

  /** The main loan inputs shared by all scenarios. */
  datatype LoanInputs = LoanInputs(
    price: real, downPayment: real, hoa: real, loanTerm: nat, rateBuilder: real, rateOutside: real)
  {
    /** The widget bounds: non-negative amounts and rates, a 5 to 40 year term. */
    predicate Valid() {
      && price >= 0.0 && downPayment >= 0.0 && hoa >= 0.0
      && 5 <= loanTerm <= 40 && rateBuilder >= 0.0 && rateOutside >= 0.0
    }
  }

  /** The per-scenario overrides: note rate, whether the builder incentive is
      used, and the down payment. */
  datatype Slot = Slot(rate: real, useIncentive: bool, down: real)

  /** The figures every scenario reports. */
  datatype Figures = Figures(
    price: real, noteRate: real, down: real,
    baseLoan: real, loanAmount: real, financed: real,
    monthlyPi: real, monthlyTax: real, monthlyIns: real, hoa: real, mi: real, piti: real,
    dti: real, ltv: real, closingCredit: real, estClosingCosts: real, cashToClose: real,
    program: Program)

  /** Effective price and closing credit of one scenario. */
  datatype Resolved = Resolved(price: real, closingCredit: real)

  /** A used price reduction lowers the price by the amount, a used closing
      credit becomes the credit; a scenario never gets both, and an unused
      incentive changes nothing. */
  function ResolveIncentive(kind: IncentiveKind, use: bool, price: real, amount: real): (r: Resolved)
    ensures r.price == price || r.closingCredit == 0.0
    ensures !use ==> r == Resolved(price, 0.0)
    ensures r.price != price ==> kind == PriceReduction && use && r.price == price - amount
    ensures r.closingCredit != 0.0 ==> kind == ClosingCredit && use && r.closingCredit == amount
    ensures use && kind == PriceReduction ==> r.price == price - amount
    ensures use && kind == ClosingCredit ==> r.closingCredit == amount
  {
    Resolved(
      if kind == PriceReduction && use then price - amount else price,
      if kind == ClosingCredit && use then amount else 0.0)
  }

  /** The loan after upfront-fee financing and the fee financed. */
  datatype Financing = Financing(loanAmount: real, financed: real)

  /** FHA adds its upfront MIP, VA its funding fee (looked up by down-payment
      fraction and first use), Conventional nothing. */
  function FinanceUpfrontFee(program: Program, baseLoan: real, down: real, price: real,
                             fhaUfmipPct: real, vaFirstUse: bool): (f: Financing)
    ensures f.loanAmount == baseLoan + f.financed
    ensures program == Conventional ==> f.financed == 0.0
    ensures program == FHA ==> f.financed == baseLoan * fhaUfmipPct
    ensures program == VA ==> f.financed == baseLoan * VaFundingFeePct(Ratio(down, price), vaFirstUse)
    ensures baseLoan >= 0.0 && fhaUfmipPct >= 0.0 ==> f.financed >= 0.0
  {
    match program
    case FHA => Financing(baseLoan + baseLoan * fhaUfmipPct, baseLoan * fhaUfmipPct)
    case VA =>
      var fee := baseLoan * VaFundingFeePct(Ratio(down, price), vaFirstUse);
      Financing(baseLoan + fee, fee)
    case Conventional => Financing(baseLoan, 0.0)
  }

  /** One twelfth of an annual amount. */
  function Monthly(annual: real): (m: real)
    ensures 12.0 * m == annual
  {
    annual / 12.0
  }

  /** Cash to close: the down payment plus whatever closing costs the credit
      does not cover; a credit larger than the costs is not paid out. */
  function CashToClose(down: real, estClosingCosts: real, closingCredit: real): (c: real)
    ensures c >= down
    ensures closingCredit >= estClosingCosts ==> c == down
    ensures closingCredit < estClosingCosts ==> c == down + estClosingCosts - closingCredit
  {
    down + Max0(estClosingCosts - closingCredit)
  }

  /** The loan a scenario is sized at: the program hint, the base loan and
      the loan after any financed upfront fee. */
  datatype Sizing = Sizing(program: Program, baseLoan: real, loanAmount: real, financed: real)

  /** The base loan is the price less the down payment, clamped at 0; FHA
      and VA then finance their upfront fee on top of it. */
  function SizeLoan(a: Assumptions, t: Thresholds, b: Borrower, price: real, down: real): (s: Sizing)
    ensures s.program == ProgramHint(b, t.minCreditConv)
    ensures s.baseLoan >= 0.0 && s.baseLoan >= price - down
    ensures s.baseLoan == 0.0 || s.baseLoan == price - down
    ensures s.loanAmount == s.baseLoan + s.financed
    ensures s.program == Conventional ==> s.financed == 0.0
    ensures s.program == FHA ==> s.financed == s.baseLoan * a.fhaUfmipPct
    ensures s.program == VA ==>
              s.financed == s.baseLoan * VaFundingFeePct(Ratio(down, price), b.vaFirstUse)
    ensures a.fhaUfmipPct >= 0.0 ==> s.loanAmount >= s.baseLoan
  {
    var baseLoan := Max0(price - down);
    var program := ProgramHint(b, t.minCreditConv);
    var fin := FinanceUpfrontFee(program, baseLoan, down, price, a.fhaUfmipPct, b.vaFirstUse);
    Sizing(program, baseLoan, fin.loanAmount, fin.financed)
  }

  /** Estimated closing costs: a share of the price, plus discount points
      charged on the base loan. */
  function EstClosingCosts(price: real, closingCostPct: real, pointsPct: real, baseLoan: real): real
  {
    price * closingCostPct + pointsPct * baseLoan
  }

  /** The monthly figures and cash to close of a scenario whose loan is
      sized: P&I as given, tax and insurance on the price, MI on the LTV of
      the sized loan, the PITI sum, DTI, and closing costs with `pointsPct`
      points on the base loan. */
  function AssembleFigures(a: Assumptions, b: Borrower, m: LoanInputs, price: real, closingCredit: real,
                           rate: real, down: real, s: Sizing, monthlyPi: real,
                           fhaAnnualMip: real, pointsPct: real): (f: Figures)
    ensures f.price == price && f.closingCredit == closingCredit && f.noteRate == rate
    ensures f.down == down && f.hoa == m.hoa && f.monthlyPi == monthlyPi
    ensures Sizing(f.program, f.baseLoan, f.loanAmount, f.financed) == s
    ensures f.monthlyTax == Monthly(price * a.taxRate) && f.monthlyIns == Monthly(price * a.insRate)
    ensures f.ltv == Ltv(f.loanAmount, price)
    ensures f.mi == MonthlyMi(f.program, f.ltv, f.loanAmount, a.pmiRate, fhaAnnualMip)
    ensures f.piti == f.monthlyPi + f.monthlyTax + f.monthlyIns + f.mi + f.hoa
    ensures f.dti == Dti(b.existingMonthlyDebts, f.piti, b.grossMonthlyIncome)
    ensures f.estClosingCosts == price * a.closingCostPct + pointsPct * f.baseLoan
    ensures f.cashToClose >= down
    ensures closingCredit >= f.estClosingCosts ==> f.cashToClose == down
    ensures closingCredit < f.estClosingCosts ==> f.cashToClose == down + f.estClosingCosts - closingCredit
  {
    var monthlyTax := Monthly(price * a.taxRate);
    var monthlyIns := Monthly(price * a.insRate);
    var ltv := Ltv(s.loanAmount, price);
    var mi := MonthlyMi(s.program, ltv, s.loanAmount, a.pmiRate, fhaAnnualMip);
    var piti := monthlyPi + monthlyTax + monthlyIns + mi + m.hoa;
    var dti := Dti(b.existingMonthlyDebts, piti, b.grossMonthlyIncome);
    var est := EstClosingCosts(price, a.closingCostPct, pointsPct, s.baseLoan);
    Figures(price, rate, down, s.baseLoan, s.loanAmount, s.financed,
            monthlyPi, monthlyTax, monthlyIns, m.hoa, mi, piti,
            dti, ltv, closingCredit, est, CashToClose(down, est, closingCredit),
            s.program)
  }

  /** The monthly figures, loan sizing and cash to close of one scenario once
      its price, credit, rate and down payment are known: the loop bodies of
      mortgage_analyzer_app.py and mortgage_analyzer_app_enhanced.py, which
      are the same code. */
  function ScenarioFigures(a: Assumptions, t: Thresholds, b: Borrower, m: LoanInputs,
                           price: real, closingCredit: real, rate: real, down: real): (f: Figures)
    requires PmtDefined(rate, m.loanTerm)
    ensures f.price == price && f.closingCredit == closingCredit && f.noteRate == rate
    ensures f.down == down && f.hoa == m.hoa
    ensures Sizing(f.program, f.baseLoan, f.loanAmount, f.financed) == SizeLoan(a, t, b, price, down)
    // payment, escrow and insurance, each on this scenario's price and post-fee loan
    ensures f.monthlyPi == Pmt(rate, m.loanTerm, f.loanAmount)
    ensures f.monthlyTax == Monthly(price * a.taxRate) && f.monthlyIns == Monthly(price * a.insRate)
    ensures f.ltv == Ltv(f.loanAmount, price)
    ensures f.mi == MonthlyMi(f.program, f.ltv, f.loanAmount, a.pmiRate, a.fhaAnnualMip)
    ensures f.piti == f.monthlyPi + f.monthlyTax + f.monthlyIns + f.mi + f.hoa
    ensures f.dti == Dti(b.existingMonthlyDebts, f.piti, b.grossMonthlyIncome)
    // closing
    ensures f.estClosingCosts == EstClosingCosts(price, a.closingCostPct, a.pointsPct, f.baseLoan)
    ensures f.cashToClose >= down
    ensures closingCredit >= f.estClosingCosts ==> f.cashToClose == down
    ensures closingCredit < f.estClosingCosts ==> f.cashToClose == down + f.estClosingCosts - closingCredit
  {
    var s := SizeLoan(a, t, b, price, down);
    AssembleFigures(a, b, m, price, closingCredit, rate, down, s, Pmt(rate, m.loanTerm, s.loanAmount),
                    a.fhaAnnualMip, a.pointsPct)
  }

  /** The estimated closing costs of a scenario: the closing-cost percentage
      of its price plus the discount points on its base loan (not on the
      loan with a financed fee). */
  lemma ScenarioClosingCosts(a: Assumptions, t: Thresholds, b: Borrower, m: LoanInputs,
                             price: real, closingCredit: real, rate: real, down: real)
    requires PmtDefined(rate, m.loanTerm)
    ensures var f := ScenarioFigures(a, t, b, m, price, closingCredit, rate, down);
            f.estClosingCosts == price * a.closingCostPct + a.pointsPct * f.baseLoan
  {
  }

  /** Scaling by a non-negative factor keeps order. */
  lemma ScaleMonotone(lo: real, hi: real, k: real)
    requires lo <= hi && k >= 0.0
    ensures lo * k <= hi * k
  {
    assert hi * k - lo * k == (hi - lo) * k;
    MulNonNegative(hi - lo, k);
  }

  lemma MonthlyMonotone(x: real, y: real)
    requires x <= y
    ensures Monthly(x) <= Monthly(y)
  {
  }

  /** A lower price, all else equal, never raises the monthly tax, the
      monthly insurance or the base loan. */
  lemma LowerPriceLowersCosts(a: Assumptions, t: Thresholds, b: Borrower, lower: real, higher: real, down: real)
    requires a.Valid() && lower <= higher
    ensures Monthly(lower * a.taxRate) <= Monthly(higher * a.taxRate)
    ensures Monthly(lower * a.insRate) <= Monthly(higher * a.insRate)
    ensures SizeLoan(a, t, b, lower, down).baseLoan <= SizeLoan(a, t, b, higher, down).baseLoan
  {
    ScaleMonotone(lower, higher, a.taxRate);
    ScaleMonotone(lower, higher, a.insRate);
    MonthlyMonotone(lower * a.taxRate, higher * a.taxRate);
    MonthlyMonotone(lower * a.insRate, higher * a.insRate);
  }

  /** Points applied to the builder rate: each point of `pointsPct` (as a
      percentage) lowers the rate by `rateReductionPerPoint`, never below 0. */
  function PointsAdjustedRate(rate: real, a: Assumptions): (r: real)
    ensures a.applyPointsToBuilderRate && a.pointsPct > 0.0 ==> r >= 0.0
    ensures rate >= 0.0 ==> r >= 0.0
    ensures a.Valid() ==> r <= rate || r == 0.0
    ensures !(a.applyPointsToBuilderRate && a.pointsPct > 0.0) ==> r == rate
    ensures a.applyPointsToBuilderRate && a.pointsPct > 0.0
            && rate >= a.rateReductionPerPoint * (a.pointsPct * 100.0) ==>
              r == rate - a.rateReductionPerPoint * (a.pointsPct * 100.0)
    ensures a.applyPointsToBuilderRate && a.pointsPct > 0.0
            && rate < a.rateReductionPerPoint * (a.pointsPct * 100.0) ==>
              r == 0.0
  {
    if a.applyPointsToBuilderRate && a.pointsPct > 0.0 then
      Max0(rate - a.rateReductionPerPoint * (a.pointsPct * 100.0))
    else rate
  }

  /** The builder rate after the incentive and pricing controls: the entered
      reduced rate for a permanent buydown, then the points adjustment, in
      that order. */
  function BuilderRate(m: LoanInputs, inc: Incentive, a: Assumptions): (r: real)
    ensures r == PointsAdjustedRate(if inc.kind == RateBuydown && inc.scheme == Permanent then inc.permanentRate
                                    else m.rateBuilder, a)
    ensures m.Valid() && inc.Valid() ==> r >= 0.0
    ensures !(a.applyPointsToBuilderRate && a.pointsPct > 0.0) ==>
              r == (if inc.kind == RateBuydown && inc.scheme == Permanent then inc.permanentRate
                    else m.rateBuilder)
  {
    var rate := if inc.kind == RateBuydown && inc.scheme == Permanent then inc.permanentRate
                else m.rateBuilder;
    PointsAdjustedRate(rate, a)
  }
}
