/**
 * The valuation engine: from one completed set of business figures to the
 * primary and secondary valuations, the method that chose them and the
 * estimate range around them.
 */
module Valuation {
  import opened Wrappers
  import opened Industries
  import opened Formulas
  import opened Range

  /** Revenue at or above this amount switches from the SDE to the EBITDA method. */
  const SizeThreshold: real := 5000000.0

  /**
   * The figures the engine reads, already converted to numbers (an empty
   * amount is 0). `arr` stays optional: an empty ARR field disables the
   * subscription rule.
   */
  datatype Input = Input(
    industry: Option<Industry>,
    annualRevenue: real,
    costOfGoodsSold: real,
    operatingExpenses: real,
    ownerSalary: real,
    ownerBenefits: real,
    discretionaryExpenses: real,
    depreciation: real,
    tangibleAssets: real,
    intangibleAssets: real,
    totalLiabilities: real,
    arr: Option<real>)

  datatype Method = SdeMultiple | EbitdaMultiple | ArrMultiple

  /** The label shown for a method. */
  function Label(m: Method): string {
    match m
    case SdeMultiple => "SDE Multiple"
    case EbitdaMultiple => "EBITDA Multiple"
    case ArrMultiple => "ARR Multiple"
  }

  lemma LabelsDistinct(m: Method, n: Method)
    ensures Label(m) == Label(n) <==> m == n
  {
  }

  /** A choice of primary and secondary valuation and the method behind the primary one. */
  datatype Selection = Selection(primary: real, secondary: real, basis: Method)

  /** The results record; `basis` is the valuation method behind the primary valuation. */
  datatype Result = Result(
    primaryValuation: real,
    secondaryValuation: real,
    assetValuation: real,
    lowEstimate: real,
    highEstimate: real,
    basis: Method,
    sde: real,
    ebitda: real,
    multiples: Multiples)

  /** The size rule: small businesses are valued on SDE, larger ones on EBITDA. */
  function SizeRule(revenue: real, sdeValuation: real, ebitdaValuation: real,
                    assetValuation: real, revenueValuation: real): (s: Selection)
    ensures s.basis != ArrMultiple
    ensures s.basis == SdeMultiple <==> revenue < SizeThreshold
    ensures s.basis == SdeMultiple ==> s.primary == sdeValuation && s.secondary == assetValuation
    ensures s.basis == EbitdaMultiple ==> s.primary == ebitdaValuation && s.secondary == revenueValuation
  {
    if revenue < SizeThreshold then Selection(sdeValuation, assetValuation, SdeMultiple)
    else Selection(ebitdaValuation, revenueValuation, EbitdaMultiple)
  }

  /**
   * The subscription valuation: ARR times the industry's revenue multiple
   * for a SaaS business with ARR given, else 0.
   */
  function SaasValuation(x: Input): (r: real)
    ensures r > 0.0 <==> ArrApplies(x)
    ensures r != 0.0 ==> x.industry == Some(Saas) && x.arr.Some?
    ensures x.industry == Some(Saas) && x.arr.Some? ==> r == x.arr.value * 8.0
  {
    var m := MultiplesOf(Resolve(x.industry));
    if x.industry == Some(Saas) && x.arr.Some? then x.arr.value * m.revenueMultiple else 0.0
  }

  /** When the ARR rule takes over the primary valuation. */
  predicate ArrApplies(x: Input) {
    x.industry == Some(Saas) && x.arr.Some? && x.arr.value > 0.0
  }

  function Evaluate(x: Input): (r: Result)
    ensures r.multiples == MultiplesOf(Resolve(x.industry))
    ensures r.sde == Sde(x.annualRevenue, x.operatingExpenses, x.ownerSalary, x.ownerBenefits,
                         x.discretionaryExpenses)
    ensures r.ebitda == Ebitda(x.annualRevenue, x.costOfGoodsSold, x.operatingExpenses, x.depreciation)
    ensures r.assetValuation == AssetValue(x.tangibleAssets, x.intangibleAssets, x.totalLiabilities)
    ensures r.basis == ArrMultiple <==> ArrApplies(x)
    ensures r.basis == SdeMultiple <==> !ArrApplies(x) && x.annualRevenue < SizeThreshold
    ensures r.basis == SdeMultiple ==> r.primaryValuation == r.sde * r.multiples.sdeMultiple
    ensures r.basis == EbitdaMultiple ==> r.primaryValuation == r.ebitda * r.multiples.ebitdaMultiple
    ensures r.basis == ArrMultiple ==>
              r.primaryValuation == x.arr.value * r.multiples.revenueMultiple && r.primaryValuation > 0.0
    ensures r.secondaryValuation ==
              if x.annualRevenue < SizeThreshold then r.assetValuation
              else x.annualRevenue * r.multiples.revenueMultiple
    ensures r.lowEstimate == Low(r.primaryValuation, r.secondaryValuation)
    ensures r.highEstimate == High(r.primaryValuation, r.secondaryValuation)
    ensures Max(r.primaryValuation, r.secondaryValuation) >= 0.0 ==> r.lowEstimate <= r.highEstimate
  {
    var multiples := MultiplesOf(Resolve(x.industry));
    var sde := Sde(x.annualRevenue, x.operatingExpenses, x.ownerSalary, x.ownerBenefits,
                   x.discretionaryExpenses);
    var sdeValuation := sde * multiples.sdeMultiple;
    var ebitda := Ebitda(x.annualRevenue, x.costOfGoodsSold, x.operatingExpenses, x.depreciation);
    var ebitdaValuation := ebitda * multiples.ebitdaMultiple;
    var assetValuation := AssetValue(x.tangibleAssets, x.intangibleAssets, x.totalLiabilities);
    var revenueValuation := x.annualRevenue * multiples.revenueMultiple;
    var saasValuation := SaasValuation(x);
    var sized := SizeRule(x.annualRevenue, sdeValuation, ebitdaValuation, assetValuation, revenueValuation);
    var chosen :=
      if x.industry == Some(Saas) && saasValuation > 0.0 then sized.(primary := saasValuation, basis := ArrMultiple)
      else sized;
    Result(chosen.primary, chosen.secondary, assetValuation,
           Low(chosen.primary, chosen.secondary), High(chosen.primary, chosen.secondary),
           chosen.basis, sde, ebitda, multiples)
  }

  /** Revenue of exactly 5,000,000 already counts as a large business. */
  lemma ThresholdTakesEbitda(x: Input)
    requires x.annualRevenue == SizeThreshold && !ArrApplies(x)
    ensures Evaluate(x).basis == EbitdaMultiple
    ensures Evaluate(x).secondaryValuation == x.annualRevenue * Evaluate(x).multiples.revenueMultiple
  {
  }

  /** When the ARR rule applies it replaces the primary valuation and the method, and nothing else. */
  lemma ArrOverrideKeepsTheRest(x: Input)
    requires ArrApplies(x)
    ensures var r, s := Evaluate(x), Evaluate(x.(arr := None));
            && r.basis == ArrMultiple && r.primaryValuation == x.arr.value * 8.0
            && r.secondaryValuation == s.secondaryValuation
            && r.assetValuation == s.assetValuation && r.sde == s.sde && r.ebitda == s.ebitda
            && r.multiples == s.multiples
  {
  }

  /** When the ARR rule does not apply, the ARR field has no effect at all. */
  lemma ArrInertUnlessApplies(x: Input)
    requires !ArrApplies(x)
    ensures Evaluate(x) == Evaluate(x.(arr := None))
  {
    var r, s := Evaluate(x), Evaluate(x.(arr := None));
    assert r.basis == s.basis;
    assert r.primaryValuation == s.primaryValuation;
    assert r.secondaryValuation == s.secondaryValuation;
  }

  /** Outside the SaaS industry, any ARR, present or absent, leaves the result unchanged. */
  lemma ArrIgnoredOutsideSaas(x: Input, arr: Option<real>)
    requires x.industry != Some(Saas)
    ensures Evaluate(x.(arr := arr)) == Evaluate(x)
  {
    ArrInertUnlessApplies(x);
    ArrInertUnlessApplies(x.(arr := arr));
  }

  /** An industry never chosen is valued exactly as `General`. */
  lemma UnselectedIsGeneral(x: Input)
    ensures Evaluate(x.(industry := None)) == Evaluate(x.(industry := Some(General)))
  {
  }

  /** Cost of goods sold reaches only EBITDA, so below the size threshold it changes nothing but that figure. */
  lemma CogsOnlyReachesEbitda(x: Input, cogs: real)
    requires x.annualRevenue < SizeThreshold
    ensures var r, s := Evaluate(x), Evaluate(x.(costOfGoodsSold := cogs));
            s == r.(ebitda := s.ebitda)
  {
  }

  /**
   * A small business whose liabilities exceed its assets has a negative
   * secondary valuation, so its low estimate is negative whatever its earnings.
   */
  lemma InsolventSmallBusinessLowNegative(x: Input)
    requires x.annualRevenue < SizeThreshold
    requires x.totalLiabilities > x.tangibleAssets + x.intangibleAssets
    ensures Evaluate(x).secondaryValuation < 0.0
    ensures Evaluate(x).lowEstimate < 0.0
  {
  }

  /** When both candidate valuations are non-negative the range brackets the primary valuation. */
  lemma RangeBracketsPrimary(x: Input)
    requires Evaluate(x).primaryValuation >= 0.0 && Evaluate(x).secondaryValuation >= 0.0
    ensures Evaluate(x).lowEstimate <= Evaluate(x).primaryValuation <= Evaluate(x).highEstimate
  {
  }

  /** A small general business with losses and debts: both valuations are -100 and the range is inverted. */
  const LossMaking: Input :=
    Input(Some(General), 0.0, 0.0, 40.0, 0.0, 0.0, 0.0, 0.0, 0.0, 0.0, 100.0, None)

  lemma RangeInvertedForLossMaking()
    ensures var r := Evaluate(LossMaking);
            && r.primaryValuation == -100.0 && r.secondaryValuation == -100.0
            && r.lowEstimate == -80.0 && r.highEstimate == -120.0
            && r.lowEstimate > r.highEstimate
  {
  }

  /** The same business with the evidently intended range: ordered, and containing both valuations. */
  function EvaluateWidened(x: Input): (r: Result)
    ensures r.lowEstimate <= r.primaryValuation <= r.highEstimate
    ensures r.lowEstimate <= r.secondaryValuation <= r.highEstimate
    ensures r == Evaluate(x).(lowEstimate := r.lowEstimate, highEstimate := r.highEstimate)
  {
    var r := Evaluate(x);
    r.(lowEstimate := WidenedLow(r.primaryValuation, r.secondaryValuation),
       highEstimate := WidenedHigh(r.primaryValuation, r.secondaryValuation))
  }

  lemma WidenedMatchesWhenNonNegative(x: Input)
    requires Evaluate(x).primaryValuation >= 0.0 && Evaluate(x).secondaryValuation >= 0.0
    ensures EvaluateWidened(x) == Evaluate(x)
  {
  }

  /** A general business under the threshold, valued on SDE: the placeholder figures. */
  const PlaceholderBusiness: Input :=
    Input(Some(General), 1000000.0, 0.0, 750000.0, 100000.0, 25000.0, 15000.0, 0.0, 0.0, 0.0, 0.0, None)

  lemma SmallGeneralBusiness()
    ensures var r := Evaluate(PlaceholderBusiness);
            && r.sde == 390000.0 && r.primaryValuation == 975000.0 && r.basis == SdeMultiple
  {
  }

  /** The same business as SaaS with 800,000 of ARR: the ARR rule replaces the primary valuation only. */
  lemma SmallSaasBusiness()
    ensures var r := Evaluate(PlaceholderBusiness.(industry := Some(Saas), arr := Some(800000.0)));
            && r.primaryValuation == 6400000.0 && r.basis == ArrMultiple
            && r.secondaryValuation == r.assetValuation
  {
  }

  /** A general business of 6,000,000 revenue, valued on EBITDA with the revenue multiple as secondary. */
  lemma LargeGeneralBusiness()
    ensures var r := Evaluate(Input(Some(General), 6000000.0, 2000000.0, 3000000.0, 0.0, 0.0, 0.0, 100000.0,
                                    0.0, 0.0, 0.0, None));
            && r.ebitda == 1100000.0 && r.primaryValuation == 5500000.0
            && r.secondaryValuation == 6000000.0 && r.basis == EbitdaMultiple
            && r.lowEstimate == 4400000.0 && r.highEstimate == 7200000.0
  {
  }
}
