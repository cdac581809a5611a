/** Loan-to-value, mortgage insurance and debt-to-income, as the scenario
    loops of the three analyzer scripts compute them. */
module Escrow {

  /** The loan program the scenario is sized under. */
  datatype Program = Conventional | FHA | VA

  /** `max(0.0, x)`. */
  function Max0(x: real): (m: real)
    ensures m >= 0.0 && m >= x
    ensures m == x || m == 0.0
  {
    if x > 0.0 then x else 0.0
  }

  /** The scripts' guarded division `x / y if y else 0.0`: the quotient, or
      the sentinel 0 when the divisor is 0. */
  function Ratio(x: real, y: real): (q: real)
    ensures y == 0.0 ==> q == 0.0
    ensures y != 0.0 ==> q * y == x
  {
    if y != 0.0 then x / y else 0.0
  }

  /** Loan-to-value against the scenario price; a zero price gives the
      sentinel 0 instead of a division. */
  function Ltv(loanAmount: real, price: real): (ltv: real)
    ensures price == 0.0 ==> ltv == 0.0
    ensures price != 0.0 ==> ltv * price == loanAmount
  {
    Ratio(loanAmount, price)
  }

  /** Monthly mortgage insurance: Conventional pays PMI only above 80% LTV,
      FHA always pays its annual MIP, VA pays none. */
  function MonthlyMi(program: Program, ltv: real, loanAmount: real, pmiRate: real, fhaAnnualMip: real)
    : (mi: real)
    ensures mi != 0.0 ==> program == FHA || (program == Conventional && ltv > 0.80)
    ensures program == Conventional && ltv > 0.80 ==> 12.0 * mi == loanAmount * pmiRate
    ensures program == FHA ==> 12.0 * mi == loanAmount * fhaAnnualMip
    ensures loanAmount >= 0.0 && pmiRate >= 0.0 && fhaAnnualMip >= 0.0 ==> mi >= 0.0
  {
    if program == Conventional && ltv > 0.80 then loanAmount * pmiRate / 12.0
    else if program == FHA then loanAmount * fhaAnnualMip / 12.0
    else 0.0
  }

  /** Debt-to-income: existing debts plus housing payment over gross income;
      zero income gives the sentinel 0, which does not mean "qualifies". */
  function Dti(existingMonthlyDebts: real, piti: real, grossMonthlyIncome: real): (dti: real)
    ensures grossMonthlyIncome == 0.0 ==> dti == 0.0
    ensures grossMonthlyIncome != 0.0 ==> dti * grossMonthlyIncome == existingMonthlyDebts + piti
  {
    Ratio(existingMonthlyDebts + piti, grossMonthlyIncome)
  }
}
