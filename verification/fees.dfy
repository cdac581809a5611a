/** The VA funding-fee schedule (`va_funding_fee_pct`), identical in
    mortgage_analyzer_app.py and mortgage_analyzer_app_enhanced.py. */
module FeeSchedule {

  /** Fee as a fraction of the base loan, keyed by the down-payment fraction
      (breakpoints 5% and 10%, compared with a strict `<`) and by whether this
      is the borrower's first use of the benefit. */
  function VaFundingFeePct(downFrac: real, firstUse: bool): (fee: real)
    ensures 0.0125 <= fee <= 0.036
    ensures firstUse ==> fee <= 0.0215
  {
    if !firstUse then
      if downFrac < 0.05 then 0.036
      else if downFrac < 0.10 then 0.0175
      else 0.015
    else
      if downFrac < 0.05 then 0.0215
      else if downFrac < 0.10 then 0.015
      else 0.0125
  }

  /** The three tiers for each kind of use, each tier an interval closed at
      its lower breakpoint. */
  lemma VaFeeTiers(downFrac: real)
    ensures downFrac < 0.05 ==>
              VaFundingFeePct(downFrac, true) == 0.0215 && VaFundingFeePct(downFrac, false) == 0.036
    ensures 0.05 <= downFrac < 0.10 ==>
              VaFundingFeePct(downFrac, true) == 0.015 && VaFundingFeePct(downFrac, false) == 0.0175
    ensures 0.10 <= downFrac ==>
              VaFundingFeePct(downFrac, true) == 0.0125 && VaFundingFeePct(downFrac, false) == 0.015
  {
  }

  /** The breakpoints belong to the higher tier: exactly 5% down is already
      the middle tier and exactly 10% down the lowest fee. */
  lemma VaFeeBreakpoints()
    ensures VaFundingFeePct(0.05, true) == 0.015 && VaFundingFeePct(0.05, false) == 0.0175
    ensures VaFundingFeePct(0.10, true) == 0.0125 && VaFundingFeePct(0.10, false) == 0.015
    ensures VaFundingFeePct(0.03, true) == 0.0215
    ensures VaFundingFeePct(0.12, false) == 0.015
  {
  }

  /** A larger down payment never raises the fee. */
  lemma VaFeeNonIncreasing(lo: real, hi: real, firstUse: bool)
    requires lo <= hi
    ensures VaFundingFeePct(hi, firstUse) <= VaFundingFeePct(lo, firstUse)
  {
  }

  /** Subsequent use always costs more than first use at the same down payment. */
  lemma VaFeeSubsequentAboveFirst(downFrac: real)
    ensures VaFundingFeePct(downFrac, false) > VaFundingFeePct(downFrac, true)
  {
  }
}
