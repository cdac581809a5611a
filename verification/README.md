# Mortgage scenario model

A Dafny model of the scenario financial model of the MortgageCalculator
Streamlit apps. The model covers the three scripts `mortgage_analyzer_app.py`,
`mortgage_analyzer_app_enhanced.py` and `mortgage_analyzer_app_basic.py`.
Each script builds a few loan scenarios for a home purchase. The model
covers:

- how a scenario applies the builder incentive: a price reduction, a closing
  credit, or a permanent or temporary (2-1, 3-2-1) rate buydown;
- loan sizing, including a financed FHA upfront MIP or VA funding fee;
- the level monthly P&I payment (`pmt`), property tax, insurance and
  PMI/MIP, PITI and DTI;
- estimated closing costs and cash to close;
- the present value of a temporary buydown's subsidy;
- the program hint, the eligibility checks and the advisory warnings;
- the builder-versus-outside-lender P&I baseline.

All arithmetic is exact over `real`, with a recursive `Pow`. The term is a
whole number of years, and a month count is `12 * years`.

Modules, bottom up:

- `PowMath` (pow.dfy) holds integer powers and their monotonicity.
- `Payment` (payment.dfy) holds `pmt` in both guard orders and the annuity
  factor. It proves that the payment repays the principal as a level
  annuity, and that it rises with the rate.
- `FeeSchedule` (fees.dfy) holds the VA funding fee tiers.
- `Buydown` (buydown.dfy) holds:
  - the stepped buydown rates;
  - the month-by-month present value, as a recursive function and as the
    nested loop of the source;
  - the temporary-buydown record.
- `Escrow` (escrow.dfy) holds LTV, mortgage insurance and DTI.
- `Eligibility` (eligibility.dfy) holds the borrower, the program hint and
  the three checks.
- `Composer` (composer.dfy) holds the per-scenario figures. The loop bodies
  of the app and the enhanced script share them, because the two compute
  these figures with the same code.
- The scenario loops:
  - `Analyzer` (analyzer.dfy) for `mortgage_analyzer_app.py`;
  - `Enhanced` (enhanced.dfy) for the forced-type loop;
  - `Basic` (basic.dfy) for the basic script.

`pmt` and `va_funding_fee_pct` are identical in `mortgage_analyzer_app.py`
(lines 10-30) and `mortgage_analyzer_app_enhanced.py` (lines 9-28) apart
from a comment (`mortgage_analyzer_app.py`, line 23), so one definition
models both.

`present_value_of_diffs` does not differ in substance between the scripts.
The enhanced script's two-argument version (lines 30-37) is the
three-argument loop without the unused `term_years`.
`Buydown.PresentValueOfDiffs` keeps that parameter. Its contract does not
mention the parameter, so the result is the same for every term.

Over exact reals, a scenario's `pmt` call can fail only by dividing by zero,
and its precondition `PmtDefined` is exactly the condition under which `pmt`
returns a value: a zero term, or any annual rate other than -2400%.
Floating point adds failures the model does not have (see "## Left out"). At -2400% the
growth factor is `1 + r = -1`, and an even power of -1 is 1.

The basic script tests the rate before the term, so its precondition
(`PmtBasicDefined`) also excludes a zero term at a nonzero rate. The widget
allows only terms of 5 to 40 years, so such a term never reaches it.

## Model

| member | source | states |
|---|---|---|
| Payment.Pmt | mortgage_analyzer_app.py:10-17 | 0 when there are no periods; with a zero rate, n equal payments repay the principal exactly |
| Payment.AnnuityDenominatorNonzero | mortgage_analyzer_app.py:17 | with a positive term and a rate other than 0 and -2400%, the annuity denominator `(1+r)^n - 1` is nonzero |
| Payment.AnnuityDenominatorVanishes | mortgage_analyzer_app.py:17 | at -2400% the denominator is 0 for every positive term, so `pmt` would divide by zero there |
| Payment.PmtIsLevelAnnuity | mortgage_analyzer_app.py:10-17 | the payment discounted over its n months at the monthly rate sums to the principal: it is the level annuity the formula claims to be |
| Payment.PmtCoversPrincipal | mortgage_analyzer_app.py:10-17 | at a non-negative rate the n payments total at least the principal, exactly the principal at 0%, and strictly more at a positive rate |
| Payment.PmtIncreasingInRate | mortgage_analyzer_app.py:10-17 | for a positive principal, a higher rate gives a strictly higher payment |
| Payment.LevelPayment | mortgage_analyzer_app.py:10-17 | the payment times the annuity factor of its rate and term is the principal |
| Payment.PmtBasic | mortgage_analyzer_app_basic.py:7-12 | wherever the basic script's `pmt` returns, it returns the same value as the app's `pmt` |
| Payment.PmtBasicGuardOrder | mortgage_analyzer_app_basic.py:10-12 | for every principal, with a zero term and a nonzero rate the basic `pmt` reaches a zero denominator where the guarded `pmt` returns 0 |
| Payment.PmtDefinedOnWidgetTerms | mortgage_analyzer_app_basic.py:42 | a term of 5 to 40 years means 60 to 480 periods, on which, over exact reals, both `pmt` versions are defined at any non-negative rate |
| FeeSchedule.VaFundingFeePct | mortgage_analyzer_app.py:22-30 | the fee lies between 1.25% and 3.6%, and is at most 2.15% on first use |
| FeeSchedule.VaFeeTiers | mortgage_analyzer_app.py:22-30 | the three tiers for each kind of use, with the strict `<` boundaries at 5% and 10% down |
| FeeSchedule.VaFeeBreakpoints | mortgage_analyzer_app.py:26-29 | exactly 5% down falls in the middle tier, and exactly 10% down in the lowest |
| FeeSchedule.VaFeeNonIncreasing | mortgage_analyzer_app.py:22-30 | a larger down payment never raises the fee |
| FeeSchedule.VaFeeSubsequentAboveFirst | mortgage_analyzer_app.py:22-30 | a subsequent use always costs strictly more than a first use at the same down fraction |
| Buydown.TempBuydownYearlyRates | mortgage_analyzer_app.py:32-38 | no rates for Permanent; two for 2-1 and three for 3-2-1, ending 1 point below the base; every rate is below the base, and the list is strictly ascending |
| Buydown.InlineStepRates | mortgage_analyzer_app.py:186-189 | the rates written inline in the scenario loop (and identically in `mortgage_analyzer_app_enhanced.py`, lines 173-176) are the helper's rates; nothing calls it, it only shows the two agree |
| Buydown.Discount | mortgage_analyzer_app.py:47 | at a positive monthly rate, month m's discounted amount grown by `(1+i)^m` gives back the diff; otherwise it is the diff itself |
| Buydown.PresentValueOfDiffs | mortgage_analyzer_app.py:40-48 | the nested month loop computes the month-indexed present value, whatever the unused term argument |
| Buydown.PresentValueMonthByMonth | mortgage_analyzer_app.py:44-47 | the present value is the discounted sum of the flattened month sequence, with month indices running on across entries |
| Buydown.PresentValueAtNonPositiveRate | mortgage_analyzer_app.py:47 | at a rate of 0 or below, the present value is the undiscounted sum of months times diff |
| Buydown.PresentValueBounds | mortgage_analyzer_app.py:40-48 | at a positive rate with non-negative diffs, the present value lies between 0 and the undiscounted sum |
| Buydown.TwelveFoldSumIsUndiscounted | mortgage_analyzer_app.py:195-197 | for yearly entries, the script's `sum_cost` (12 times each diff) is the undiscounted sum |
| Buydown.EntryPvIsAnnuity | mortgage_analyzer_app.py:44-47 | at a positive monthly rate, n equal diffs from month 1 are worth the diff times the annuity factor |
| Buydown.LevelPaymentsRepayPrincipal | mortgage_analyzer_app.py:40-48 | discounting the n level `pmt` payments at the loan's own rate gives back the principal |
| Buydown.BuildTempBuydown | mortgage_analyzer_app.py:185-198 | one entry per stepped rate, numbered from 1; each carries its `pmt` and the diff `monthly_pi - pay` over 12 months; the PV cost is the present value of those diffs at the note rate |
| Buydown.BuydownSubsidyBounded | mortgage_analyzer_app.py:190-198 | for a positive loan, every yearly subsidy is positive; the PV cost is between 0 and `sum_cost` at a positive rate, and equals `sum_cost` otherwise |
| Escrow.Max0 | mortgage_analyzer_app.py:147 | the clamp is non-negative, at least its argument, and equal to it or 0 |
| Escrow.Ratio | mortgage_analyzer_app.py:162-172 | the guarded division `x / y if y else 0.0`, used for the VA down fraction (line 162) and the LTV (line 172): 0 when the divisor is 0, otherwise the quotient times the divisor is the dividend |
| Escrow.Ltv | mortgage_analyzer_app.py:172 | LTV times price is the loan; 0 when the price is 0 |
| Escrow.MonthlyMi | mortgage_analyzer_app.py:173-178 | PMI only for Conventional above 80% LTV, MIP for FHA, nothing for VA; non-negative for non-negative inputs |
| Escrow.Dti | mortgage_analyzer_app.py:201 | DTI times income is debts plus PITI; 0 when the income is 0 |
| Eligibility.ProgramHint | mortgage_analyzer_app.py:150 | VA exactly when VA-eligible; FHA exactly when not VA-eligible and below the conventional credit minimum; otherwise Conventional |
| Eligibility.Evaluate | mortgage_analyzer_app.py:203-205 | each check passes exactly when all of its conditions hold |
| Eligibility.FhaIgnoresDerogatoryHistory | mortgage_analyzer_app.py:203-204 | the bankruptcy and foreclosure flags never change the FHA check, and either one fails the conventional check |
| Eligibility.HintAndChecksConsistent | mortgage_analyzer_app.py:150-205 | an FHA hint implies the conventional check fails; a passing VA check implies a VA hint |
| Eligibility.ScoreSixHundredExample | mortgage_analyzer_app.py:203-204 | a 600 score at 40% DTI fails Conventional (620 minimum) and passes FHA (580 minimum, 50% maximum) |
| Composer.ResolveIncentive | mortgage_analyzer_app.py:144-145 | an unused incentive changes nothing; a used price reduction lowers the price by the amount; a used closing credit becomes the credit; a scenario never gets both |
| Composer.FinanceUpfrontFee | mortgage_analyzer_app.py:152-167 | loan = base loan + financed fee; the fee is 0 for Conventional, base loan × UFMIP for FHA, base loan × VA fee for VA, and non-negative |
| Composer.CashToClose | mortgage_analyzer_app.py:208 | at least the down payment; exactly the down payment when the credit covers the closing costs, and otherwise the down payment plus the costs less the credit |
| Composer.SizeLoan | mortgage_analyzer_app.py:147-167 | the base loan is the price less the down payment clamped at 0; the loan adds the financed fee, which is 0 for Conventional, the UFMIP share of the base loan for FHA and the VA fee share for VA; with a non-negative UFMIP the loan is never below the base loan |
| Composer.Monthly | mortgage_analyzer_app.py:169-170 | twelve monthly amounts make the annual amount |
| Composer.AssembleFigures | mortgage_analyzer_app.py:169-208 | tax and insurance on this price, LTV of the sized loan over this price, MI on that LTV, PITI as the sum of its five parts, DTI on that PITI, closing costs as the price share plus points on the base loan, and cash to close that is the down payment plus the uncovered costs |
| Composer.ScenarioFigures | mortgage_analyzer_app.py:147-208 | the scenario keeps its price, credit, rate and down payment; its loan is sized as `SizeLoan` says; P&I is `pmt` on the post-fee loan; LTV, MI, PITI and DTI follow from that loan and this price; estimated closing costs are the closing-cost share of the price plus points on the base loan; cash to close is the down payment when the credit covers those costs, and otherwise the down payment plus the costs less the credit |
| Composer.ScenarioClosingCosts | mortgage_analyzer_app.py:207 | the estimated closing costs are the closing-cost share of the price plus the points on the base loan, not on the loan with the financed fee |
| Composer.LowerPriceLowersCosts | mortgage_analyzer_app.py:147-170 | a lower price never raises the monthly tax, the monthly insurance or the base loan |
| Composer.PointsAdjustedRate | mortgage_analyzer_app.py:122-123 | when points apply, the rate is the entered rate less the per-point reduction times the points, clamped at 0 (exactly 0 when the reduction exceeds the rate); otherwise it is the entered rate |
| Composer.BuilderRate | mortgage_analyzer_app.py:114-123 | the points adjustment applied to the entered reduced rate for a permanent buydown, and to the builder rate otherwise, in that order; never negative on valid inputs |
| Analyzer.AppendIf | mortgage_analyzer_app.py:210-221 | one warning check keeps the list in rank order and adds its warning exactly when the condition holds |
| Analyzer.Warnings | mortgage_analyzer_app.py:210-221 | each warning appears exactly when its condition holds, at most once, in the order of the checks |
| Analyzer.EvaluateScenario | mortgage_analyzer_app.py:137-248 | the figures, checks and buydown of one scenario; a buydown exactly for scenario 1 with a used temporary rate buydown; the shortfall warning exactly when the incentive is below the PV cost; the VA-not-eligible warning never fires; the warning list is exactly `Warnings` of this scenario's figures, so it keeps the source's order and repeats nothing |
| Analyzer.EvaluateAll | mortgage_analyzer_app.py:136-248 | one result per slot, numbered from 1; no scenario after the first carries a buydown or a shortfall warning |
| Analyzer.DefaultSlots | mortgage_analyzer_app.py:130-142 | builder rate with the incentive, outside rate without it, and the custom slot like the first, all at the global down payment |
| Analyzer.BaselineLoan | mortgage_analyzer_app.py:296-297 | the baseline loan is the price (less the reduction for a price-reduction incentive) minus the down payment, clamped at 0 |
| Analyzer.BaselineAsWritten | mortgage_analyzer_app.py:296-302 | the builder P&I is taken at the points-adjusted builder rate adjusted a second time; the outside P&I at the outside rate |
| Analyzer.IntendedBaseline | mortgage_analyzer_app.py:296-302 | same outside P&I; the builder P&I is `pmt` at the builder rate adjusted once on the baseline loan, identical to the as-written baseline whenever points do not apply |
| Analyzer.IntendedBaselineMatchesBuilderScenario | mortgage_analyzer_app.py:296-302 | with a Conventional hint, the corrected baseline's builder P&I equals the P&I of scenario 1 at its defaults |
| Analyzer.BaselineAppliesPointsTwice | mortgage_analyzer_app.py:298-300 | one point at 25 bps takes 6.75% to 6.5% for the scenarios but to 6.25% for the baseline, so the baseline reports a lower builder P&I |
| Enhanced.EffectiveKind | mortgage_analyzer_app_enhanced.py:122 | the forced type when there is one, otherwise the global type |
| Enhanced.EvaluateEnhanced | mortgage_analyzer_app_enhanced.py:122-185 | price and credit follow the effective type; the note rate stays as entered, even for a permanent buydown; a buydown exactly for a used temporary rate buydown, in any scenario |
| Enhanced.DefaultEnhancedSlots | mortgage_analyzer_app_enhanced.py:106-120 | three internal slots at the builder rate using the incentive, and the external one at the outside rate without it |
| Enhanced.EvaluateAllEnhanced | mortgage_analyzer_app_enhanced.py:115-193 | Internal A always gets the price reduction and Internal B the credit, whatever the global type; a buydown appears only in Internal C or the external scenario, and only under a global rate buydown |
| Enhanced.EnhancedAgreesWithApp | mortgage_analyzer_app_enhanced.py:122-182 | where the effective type is the global type, the figures equal the app's; the buydown agrees for scenario 1; later scenarios may get one the app never builds |
| Basic.BasicBuilderRate | mortgage_analyzer_app_basic.py:60-62 | the entered reduced rate for any rate buydown, otherwise the builder rate |
| Basic.BasicScenario | mortgage_analyzer_app_basic.py:80-93 | price and credit follow the incentive; nothing is financed and the loan is the clamped price less the down payment; P&I is `pmt` on that loan; tax and insurance on the scenario price; MI on the LTV with the fixed 0.55% FHA MIP; PITI and DTI on those figures; closing costs without points; cash to close is the down payment when the credit covers the costs, and otherwise the down payment plus the costs less the credit |
| Basic.BasicAll | mortgage_analyzer_app_basic.py:74-99 | one figure set per slot, in order |
| Basic.BasicBaseline | mortgage_analyzer_app_basic.py:111-114 | builder and outside P&I on the baseline loan, at the builder and outside rates |
| Basic.BasicBaselineMatchesBuilderScenario | mortgage_analyzer_app_basic.py:111-113 | the baseline builder P&I equals scenario 1's P&I at its defaults, whatever the hint, since nothing is financed |
| Basic.BasicAgreesWithApp | mortgage_analyzer_app_basic.py:80-93 | with no points, no upfront MIP, a 0.55% annual MIP and a non-VA hint, the basic figures are exactly the app's |
| Basic.BasicLoanNoLarger | mortgage_analyzer_app_basic.py:82 | the basic loan has the app's base loan and is never larger than the app's loan, equal under a Conventional hint; the app's FHA upfront MIP or VA fee only adds to it |

## Left out

- Streamlit presentation and input collection are not modelled: the page, sidebar, widgets, expanders, metrics, warning display and data frames. The widget inputs become parameters. Their `min_value`/`max_value` bounds become the `Valid` predicates, used only where a property needs them.
- Currency and percent formatting, the `fhava_note` strings, and the warning texts are not modelled. Warnings are an enumeration.
- The HTML report and download buttons are not modelled. They are output only.
- IEEE floating point is not modelled. The arithmetic is exact over `real`, so float rounding in `**` and `/` does not appear.
- Payment.PmtDefined: describes the inputs `pmt` can evaluate over exact reals only. In floating point, `pmt` also raises `ZeroDivisionError` when `1 + r` rounds to 1.0, i.e. for a nonzero annual rate below about 1e-13 %. The model has no such case, because floats are not modelled.
- Payment.PmtDefined: in floating point, `(1 + r)**n` raises `OverflowError` for large rates over long terms, for example 5000% a year over 40 years. The rate inputs have no upper bound, but the exact model has no overflow, because floats are not modelled.
- The loan term is a whole number of years (`nat`). `int(n_years*12)` on a fractional or negative term is not modelled, because the widget only produces integers from 5 to 40.
- The scheme is one of the widget's three options. The helper's "anything else gives []" case appears only as `Permanent`.
- The USDA flag and the "USDA" member of the occupancy warning check are left out, since no hint is ever USDA.
- The eligibility thresholds that the basic script reads but never uses are left out.
- Scenario names, and the lookup of the first scenario whose name contains "Builder" for the details panel, are left out. They are display only.
- No amortization schedule is modelled. None exists in the source.

## Findings

| source | as written | input that shows it | evidently intended | confidence | as-written member | corrected member |
|---|---|---|---|---|---|---|
| mortgage_analyzer_app.py:298-300 | the baseline starts from `rate_builder`, which lines 122-123 already reduced for points, and reduces it again | builder rate 6.75%, 1 point, 25 bps per point, "apply points" on: scenarios use 6.5%, the baseline uses 6.25% and shows a lower builder P&I on a $520,000 loan | the baseline's builder P&I at the same once-adjusted rate the scenarios use | high, from reading the code; not executed | Analyzer.BaselineAppliesPointsTwice | Analyzer.IntendedBaselineMatchesBuilderScenario |
