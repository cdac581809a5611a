/** The scenario loop of mortgage_analyzer_app_enhanced.py: three internal
    scenarios that each force one incentive type and one external scenario
    that follows the global type. It reports figures and the temporary
    buydown only; it has no eligibility checks, warnings or baseline. */
module Enhanced {
  import opened Payment
  import opened Buydown
  import opened Eligibility
  import opened Composer
  import Analyzer

  /** The incentive type a scenario forces, if any. */
  datatype ForcedType = NotForced | Forced(kind: IncentiveKind)

  /** Internal A forces a price reduction, Internal B a closing credit,
      Internal C a rate buydown; the external scenario forces nothing. */
  const ForcedTypes: seq<ForcedType> :=
    [Forced(PriceReduction), Forced(ClosingCredit), Forced(RateBuydown), NotForced]

  /** The forced type if there is one, otherwise the global incentive type. */
  function EffectiveKind(forced: ForcedType, global: IncentiveKind): (k: IncentiveKind)
    ensures forced.Forced? ==> k == forced.kind
    ensures forced.NotForced? ==> k == global
  {
    match forced
    case Forced(kind) => kind
    case NotForced => global
  }

  datatype EnhancedResult = EnhancedResult(figures: Figures, buydown: Option<TempBuydown>)

  /** Any scenario, not just the first, whose effective type is a used rate
      buydown with a 2-1 or 3-2-1 scheme gets a temporary-buydown schedule. */
  predicate TempBuydownApplies(kind: IncentiveKind, use: bool, scheme: Scheme)
  {
    kind == RateBuydown && use && scheme.IsTemporary()
  }

  /** The scenario's payments can all be computed without a division error. */
  predicate EnhancedDefined(m: LoanInputs, inc: Incentive, forced: ForcedType, slot: Slot)
  {
    && PmtDefined(slot.rate, m.loanTerm)
    && (TempBuydownApplies(EffectiveKind(forced, inc.kind), slot.useIncentive, inc.scheme) ==>
          StepRatesDefined(slot.rate, inc.scheme, m.loanTerm))
  }

  /** One pass of the enhanced loop body. A used permanent buydown leaves the
      note rate as entered: the reduced rate reached the scenario only through
      its default. */
  function EvaluateEnhanced(a: Assumptions, t: Thresholds, b: Borrower, m: LoanInputs, inc: Incentive,
                            forced: ForcedType, slot: Slot): (r: EnhancedResult)
    requires EnhancedDefined(m, inc, forced, slot)
    ensures r.figures.price == (if EffectiveKind(forced, inc.kind) == PriceReduction && slot.useIncentive
                                then m.price - inc.amount else m.price)
    ensures r.figures.closingCredit == (if EffectiveKind(forced, inc.kind) == ClosingCredit && slot.useIncentive
                                        then inc.amount else 0.0)
    ensures r.figures.noteRate == slot.rate
    ensures r.figures == ScenarioFigures(a, t, b, m, r.figures.price, r.figures.closingCredit,
                                         slot.rate, slot.down)
    ensures r.buydown.Some? <==> TempBuydownApplies(EffectiveKind(forced, inc.kind), slot.useIncentive, inc.scheme)
    ensures r.buydown.Some? ==>
              r.buydown.value == BuildTempBuydown(inc.scheme, slot.rate, m.loanTerm,
                                                  r.figures.loanAmount, r.figures.monthlyPi)
  {
    var kind := EffectiveKind(forced, inc.kind);
    var res := ResolveIncentive(kind, slot.useIncentive, m.price, inc.amount);
    var f := ScenarioFigures(a, t, b, m, res.price, res.closingCredit, slot.rate, slot.down);
    var buydown :=
      if TempBuydownApplies(kind, slot.useIncentive, inc.scheme)
      then Some(BuildTempBuydown(inc.scheme, slot.rate, m.loanTerm, f.loanAmount, f.monthlyPi))
      else None;
    EnhancedResult(f, buydown)
  }

  /** The four scenario slots with their widget defaults: three internal
      scenarios at the builder rate using the incentive, and the outside
      lender without it. */
  function DefaultEnhancedSlots(m: LoanInputs, builderRate: real): (slots: seq<Slot>)
    ensures |slots| == |ForcedTypes| == 4
    ensures forall k :: 0 <= k < 4 ==> slots[k].down == m.downPayment
    ensures forall k :: 0 <= k < 3 ==> slots[k].rate == builderRate && slots[k].useIncentive
    ensures slots[3].rate == m.rateOutside && !slots[3].useIncentive
  {
    [Slot(builderRate, true, m.downPayment), Slot(builderRate, true, m.downPayment),
     Slot(builderRate, true, m.downPayment), Slot(m.rateOutside, false, m.downPayment)]
  }

  /** The four scenarios. Internal A and B apply their own incentive type
      whatever the global type is; a temporary buydown can appear only in
      Internal C or the external scenario, and only when the global type is a
      rate buydown (the scheme selector exists only then). */
  function EvaluateAllEnhanced(a: Assumptions, t: Thresholds, b: Borrower, m: LoanInputs, inc: Incentive,
                               slots: seq<Slot>): (rs: seq<EnhancedResult>)
    requires |slots| == |ForcedTypes|
    requires forall k :: 0 <= k < |slots| ==> EnhancedDefined(m, inc, ForcedTypes[k], slots[k])
    ensures |rs| == |slots|
    ensures forall k :: 0 <= k < |slots| ==> rs[k] == EvaluateEnhanced(a, t, b, m, inc, ForcedTypes[k], slots[k])
    ensures slots[0].useIncentive ==> rs[0].figures.price == m.price - inc.amount
                                      && rs[0].figures.closingCredit == 0.0
    ensures slots[1].useIncentive ==> rs[1].figures.price == m.price
                                      && rs[1].figures.closingCredit == inc.amount
    ensures !slots[3].useIncentive ==> rs[3].figures.price == m.price
                                       && rs[3].figures.closingCredit == 0.0 && rs[3].buydown.None?
    ensures inc.Valid() ==>
              forall k :: 0 <= k < |rs| && rs[k].buydown.Some? ==> k >= 2 && inc.kind == RateBuydown
  {
    seq(|slots|, k requires 0 <= k < |slots| => EvaluateEnhanced(a, t, b, m, inc, ForcedTypes[k], slots[k]))
  }

  /** Where the effective type is the global type, the enhanced loop computes
      the same figures as mortgage_analyzer_app.py, and for the first
      scenario the same buydown; past the first scenario it may add a buydown
      the other script would not. */
  lemma EnhancedAgreesWithApp(a: Assumptions, t: Thresholds, b: Borrower, m: LoanInputs, inc: Incentive,
                              forced: ForcedType, index: nat, slot: Slot)
    requires EffectiveKind(forced, inc.kind) == inc.kind
    requires EnhancedDefined(m, inc, forced, slot)
    ensures Analyzer.ScenarioDefined(m, inc, index, slot)
    ensures EvaluateEnhanced(a, t, b, m, inc, forced, slot).figures
            == Analyzer.EvaluateScenario(a, t, b, m, inc, index, slot).figures
    ensures index == 1 ==> EvaluateEnhanced(a, t, b, m, inc, forced, slot).buydown
                           == Analyzer.EvaluateScenario(a, t, b, m, inc, index, slot).buydown
    ensures index != 1 && TempBuydownApplies(inc.kind, slot.useIncentive, inc.scheme) ==>
              EvaluateEnhanced(a, t, b, m, inc, forced, slot).buydown.Some?
              && Analyzer.EvaluateScenario(a, t, b, m, inc, index, slot).buydown.None?
  {
  }
}
