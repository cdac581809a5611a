/** The program hint and the three program-eligibility checks of
    mortgage_analyzer_app.py. */
module Eligibility {
  import opened Escrow

  datatype Occupancy = Primary | SecondHome | Investment

  /** What the scenario model knows about the borrower. Yes/No selections
      are booleans; the credit score widget bounds it to 300..900 and the
      income and debt widgets to non-negative amounts. */
  datatype Borrower = Borrower(
    creditScore: int,
    grossMonthlyIncome: real,
    existingMonthlyDebts: real,
    occupancy: Occupancy,
    vaEligible: bool,
    vaFirstUse: bool,
    recentBankruptcy: bool,
    recentForeclosure: bool)

  /** Lender overlays: minimum credit score and maximum DTI (a fraction) per
      program. */
  datatype Thresholds = Thresholds(
    minCreditConv: int, minCreditFha: int, minCreditVa: int,
    maxDtiConv: real, maxDtiFha: real, maxDtiVa: real)

  datatype Eligibility = Eligibility(convOk: bool, fhaOk: bool, vaOk: bool)

  /** The program hint: VA for a VA-eligible borrower, otherwise FHA below the
      conventional credit minimum, otherwise Conventional. */
  function ProgramHint(b: Borrower, minCreditConv: int): (p: Program)
    ensures p == VA <==> b.vaEligible
    ensures p == FHA <==> !b.vaEligible && b.creditScore < minCreditConv
    ensures p == Conventional <==> !b.vaEligible && b.creditScore >= minCreditConv
  {
    if b.vaEligible then VA
    else if b.creditScore < minCreditConv then FHA
    else Conventional
  }

  /** All three checks, against the same DTI, whatever program sized the loan. */
  function Evaluate(b: Borrower, t: Thresholds, dti: real): (e: Eligibility)
    ensures e.convOk <==> b.creditScore >= t.minCreditConv && dti <= t.maxDtiConv
                          && !b.recentBankruptcy && !b.recentForeclosure
    ensures e.fhaOk <==> b.creditScore >= t.minCreditFha && dti <= t.maxDtiFha
    ensures e.vaOk <==> b.vaEligible && b.creditScore >= t.minCreditVa && dti <= t.maxDtiVa
                        && b.occupancy == Primary
  {
    Eligibility(
      b.creditScore >= t.minCreditConv && dti <= t.maxDtiConv && !b.recentBankruptcy && !b.recentForeclosure,
      b.creditScore >= t.minCreditFha && dti <= t.maxDtiFha,
      b.vaEligible && b.creditScore >= t.minCreditVa && dti <= t.maxDtiVa && b.occupancy == Primary)
  }

  /** FHA eligibility does not look at bankruptcy or foreclosure history:
      changing either flag leaves it as it was, while either flag alone rules
      out Conventional. */
  lemma FhaIgnoresDerogatoryHistory(b: Borrower, t: Thresholds, dti: real, bk: bool, fc: bool)
    ensures Evaluate(b.(recentBankruptcy := bk, recentForeclosure := fc), t, dti).fhaOk
            == Evaluate(b, t, dti).fhaOk
    ensures bk || fc ==> !Evaluate(b.(recentBankruptcy := bk, recentForeclosure := fc), t, dti).convOk
  {
  }

  /** The hint and the checks can disagree, but not arbitrarily: an FHA hint
      means the conventional check fails, and a passing VA check means the
      hint is VA. */
  lemma HintAndChecksConsistent(b: Borrower, t: Thresholds, dti: real)
    ensures ProgramHint(b, t.minCreditConv) == FHA ==> !Evaluate(b, t, dti).convOk
    ensures Evaluate(b, t, dti).vaOk ==> ProgramHint(b, t.minCreditConv) == VA
  {
  }

  /** A borrower with score 600 and DTI 40% fails Conventional at a 620
      minimum and passes FHA at a 580 minimum and 50% maximum DTI. */
  lemma ScoreSixHundredExample(b: Borrower, t: Thresholds)
    requires b.creditScore == 600 && !b.recentBankruptcy && !b.recentForeclosure
    requires t.minCreditConv == 620 && t.minCreditFha == 580 && t.maxDtiFha == 0.50
    ensures !Evaluate(b, t, 0.40).convOk
    ensures Evaluate(b, t, 0.40).fhaOk
    ensures ProgramHint(b, t.minCreditConv) == (if b.vaEligible then VA else FHA)
  {
  }
}
