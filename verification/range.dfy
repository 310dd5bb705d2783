/**
 * The low/high estimate range drawn around the primary and secondary
 * valuations, as the tool's code computes it and as it was evidently meant.
 */
module Range {

  const LowFactor: real := 0.8
  const HighFactor: real := 1.2

  function Min(a: real, b: real): (r: real)
    ensures r <= a && r <= b && (r == a || r == b)
  {
    if a <= b then a else b
  }

  function Max(a: real, b: real): (r: real)
    ensures r >= a && r >= b && (r == a || r == b)
  {
    if a <= b then b else a
  }

  /** The low estimate: the smaller valuation scaled down by 20%. */
  function Low(primary: real, secondary: real): (r: real)
    ensures r <= 0.8 * primary && r <= 0.8 * secondary
  {
    Min(primary, secondary) * LowFactor
  }

  /** The high estimate: the larger valuation scaled up by 20%. */
  function High(primary: real, secondary: real): (r: real)
    ensures r >= 1.2 * primary && r >= 1.2 * secondary
  {
    Max(primary, secondary) * HighFactor
  }

  /** Each bound is attained: low is 0.8 times one valuation, high is 1.2 times one valuation. */
  lemma BoundsAreScaledValuations(primary: real, secondary: real)
    ensures Low(primary, secondary) == 0.8 * primary || Low(primary, secondary) == 0.8 * secondary
    ensures High(primary, secondary) == 1.2 * primary || High(primary, secondary) == 1.2 * secondary
  {
  }

  /**
   * The range is ordered exactly when the larger valuation is non-negative
   * or the smaller one lies at least half as far again below zero.
   */
  lemma OrderedExactly(primary: real, secondary: real)
    ensures Low(primary, secondary) <= High(primary, secondary)
            <==> Max(primary, secondary) >= 0.0 || Min(primary, secondary) <= 1.5 * Max(primary, secondary)
  {
  }

  /** In particular the range is ordered whenever one valuation is non-negative. */
  lemma OrderedWhenMaxNonNegative(primary: real, secondary: real)
    requires Max(primary, secondary) >= 0.0
    ensures Low(primary, secondary) <= High(primary, secondary)
  {
  }

  /** With both valuations non-negative the range brackets each of them. */
  lemma BracketsWhenNonNegative(primary: real, secondary: real)
    requires primary >= 0.0 && secondary >= 0.0
    ensures Low(primary, secondary) <= primary <= High(primary, secondary)
    ensures Low(primary, secondary) <= secondary <= High(primary, secondary)
  {
  }

  /** Two equal negative valuations give an inverted range: low -80 above high -120. */
  lemma InvertedWhenBothNegative()
    ensures Low(-100.0, -100.0) == -80.0
    ensures High(-100.0, -100.0) == -120.0
    ensures Low(-100.0, -100.0) > High(-100.0, -100.0)
  {
  }

  /**
   * The evidently intended range: 20% outward on each side whatever the
   * sign, so that it always contains both valuations.
   */
  function WidenedLow(primary: real, secondary: real): (r: real)
    ensures r <= primary && r <= secondary
  {
    var m := Min(primary, secondary);
    if m >= 0.0 then m * LowFactor else m * HighFactor
  }

  function WidenedHigh(primary: real, secondary: real): (r: real)
    ensures r >= primary && r >= secondary
  {
    var m := Max(primary, secondary);
    if m >= 0.0 then m * HighFactor else m * LowFactor
  }

  /** The widened range is ordered for every pair of valuations. */
  lemma WidenedOrdered(primary: real, secondary: real)
    ensures WidenedLow(primary, secondary) <= WidenedHigh(primary, secondary)
  {
  }

  /** On non-negative valuations the widened range is the range the code computes. */
  lemma WidenedAgreesOnNonNegative(primary: real, secondary: real)
    requires primary >= 0.0 && secondary >= 0.0
    ensures WidenedLow(primary, secondary) == Low(primary, secondary)
    ensures WidenedHigh(primary, secondary) == High(primary, secondary)
  {
  }
}
