/**
 * The startup valuation estimator: revenue times a multiple scored from
 * growth and margin buckets, a qualitative profile chosen by a first-match
 * decision table, an optional LTV/CAC unit-economics verdict, and an optional
 * conversion of the rupee valuation to dollars at the current exchange rate.
 */
module Valuation {
  import opened Wrappers

  /** The five parsed form fields; an empty LTV or CAC field parses to 0. */
  datatype ValuationInput = ValuationInput(revenue: real, growth: real, margin: real, ltv: real, cac: real)

  /** The one reason the handler refuses its input. */
  datatype ValuationError = InvalidRevenue

  /**
   * The five profile sentences of the decision table, in its order: "Steady
   * or early-stage profile ...", "Balanced profile ...", "Compelling profile
   * ...", "High growth but loss-making ..." and "Signals are mixed ...".
   */
  datatype Profile = SteadyOrEarly | Balanced | Compelling | HighGrowthLossMaking | Mixed

  /**
   * The three LTV/CAC notes: "... currently unfavourable ...", "... are
   * reasonable ..." and "... appear attractive ...".
   */
  datatype Verdict = Unfavourable | Reasonable | Attractive

  /** The LTV/CAC section, shown only when both figures are positive. */
  datatype UnitEconomics = UnitEconomics(ratio: real, verdict: Verdict)

  /** Everything the valuation result box shows. */
  datatype ValuationResult = ValuationResult(
    multiple: real,
    valuationInr: real,
    valuationUsd: Option<real>,
    profile: Profile,
    unitEconomics: Option<UnitEconomics>)

  const BaseMultiple: real := 1.5
  const MinMultiple: real := 1.0
  const MaxMultiple: real := 10.0

  /** Growth bucket: below 10% scores 1, below 25% scores 2, otherwise 3. */
  function GrowthScore(growth: real): (s: int)
    ensures 1 <= s <= 3
    ensures s == 1 <==> growth < 10.0
    ensures s == 3 <==> growth >= 25.0
  {
    if growth < 10.0 then 1
    else if growth < 25.0 then 2
    else 3
  }

  /** Margin bucket: negative scores 0, below 10% scores 1, below 20% scores 2, otherwise 3. */
  function MarginScore(margin: real): (s: int)
    ensures 0 <= s <= 3
    ensures s == 0 <==> margin < 0.0
    ensures s == 1 <==> 0.0 <= margin < 10.0
    ensures s == 3 <==> margin >= 20.0
  {
    if margin < 0.0 then 0
    else if margin < 10.0 then 1
    else if margin < 20.0 then 2
    else 3
  }

  /** Higher growth never scores lower. */
  lemma GrowthScoreMonotone(g1: real, g2: real)
    requires g1 <= g2
    ensures GrowthScore(g1) <= GrowthScore(g2)
  {
  }

  /** Higher margin never scores lower. */
  lemma MarginScoreMonotone(m1: real, m2: real)
    requires m1 <= m2
    ensures MarginScore(m1) <= MarginScore(m2)
  {
  }

  /** `x` limited to the band [lo, hi]. */
  function Clamp(x: real, lo: real, hi: real): (r: real)
    requires lo <= hi
    ensures lo <= r <= hi
    ensures lo <= x <= hi ==> r == x
  {
    if x < lo then lo else if x > hi then hi else x
  }

  /**
   * The suggested multiple: the base plus both scores, clamped to [1, 10].
   * The clamp never takes effect: the multiple is exactly base plus scores
   * and always lies in [2.5, 7.5].
   */
  function Multiple(growth: real, margin: real): (m: real)
    ensures m == BaseMultiple + GrowthScore(growth) as real + MarginScore(margin) as real
    ensures 2.5 <= m <= 7.5
    ensures MinMultiple <= m <= MaxMultiple
  {
    Clamp(BaseMultiple + GrowthScore(growth) as real + MarginScore(margin) as real, MinMultiple, MaxMultiple)
  }

  /** The multiple never falls when growth or margin rises. */
  lemma MultipleMonotone(g1: real, m1: real, g2: real, m2: real)
    requires g1 <= g2 && m1 <= m2
    ensures Multiple(g1, m1) <= Multiple(g2, m2)
  {
    GrowthScoreMonotone(g1, g2);
    MarginScoreMonotone(m1, m2);
  }

  /** The decision table, tried in order; the first guard that holds wins. */
  function ChooseProfile(growth: real, margin: real): (p: Profile)
    ensures InRegion(p, growth, margin)
  {
    if growth < 10.0 && margin < 10.0 then SteadyOrEarly
    else if growth >= 10.0 && growth < 30.0 && margin >= 10.0 then Balanced
    else if growth >= 30.0 && margin >= 15.0 then Compelling
    else if growth >= 30.0 && margin < 0.0 then HighGrowthLossMaking
    else Mixed
  }

  /** The region each of the four guarded profiles stands for, read without any order. */
  predicate InGuardedRegion(p: Profile, growth: real, margin: real) {
    match p
    case SteadyOrEarly => growth < 10.0 && margin < 10.0
    case Balanced => 10.0 <= growth < 30.0 && margin >= 10.0
    case Compelling => growth >= 30.0 && margin >= 15.0
    case HighGrowthLossMaking => growth >= 30.0 && margin < 0.0
    case Mixed => false
  }

  /** The region of the (growth, margin) plane each profile stands for; `Mixed` covers what no guarded region does. */
  predicate InRegion(p: Profile, growth: real, margin: real) {
    if p == Mixed then
      && !InGuardedRegion(SteadyOrEarly, growth, margin)
      && !InGuardedRegion(Balanced, growth, margin)
      && !InGuardedRegion(Compelling, growth, margin)
      && !InGuardedRegion(HighGrowthLossMaking, growth, margin)
    else InGuardedRegion(p, growth, margin)
  }

  /**
   * The four guarded regions do not overlap, so the first-match order of the
   * table never decides anything: the chosen profile is the one and only
   * profile whose region holds the input.
   */
  lemma ProfileIsUniqueRegion(growth: real, margin: real, p: Profile)
    ensures ChooseProfile(growth, margin) == p <==> InRegion(p, growth, margin)
  {
  }

  /** The profile text agrees with the multiple: premium profiles score high, cautious ones low. */
  lemma ProfileBoundsMultiple(growth: real, margin: real)
    ensures ChooseProfile(growth, margin) == Compelling ==> Multiple(growth, margin) >= 6.5
    ensures ChooseProfile(growth, margin) == SteadyOrEarly ==> Multiple(growth, margin) <= 3.5
    ensures ChooseProfile(growth, margin) == Balanced ==> Multiple(growth, margin) >= 5.5
    ensures ChooseProfile(growth, margin) == HighGrowthLossMaking ==> Multiple(growth, margin) == 4.5
  {
  }

  /** The verdict bucket of an LTV/CAC ratio: below 1, from 1 up to 3, and 3 or more. */
  function VerdictOf(ratio: real): (v: Verdict)
    ensures v == Unfavourable <==> ratio < 1.0
    ensures v == Reasonable <==> 1.0 <= ratio < 3.0
    ensures v == Attractive <==> ratio >= 3.0
  {
    if ratio < 1.0 then Unfavourable
    else if ratio >= 1.0 && ratio < 3.0 then Reasonable
    else Attractive
  }

  /** The LTV/CAC section: present only when both figures are positive. */
  function AssessUnitEconomics(ltv: real, cac: real): (u: Option<UnitEconomics>)
    ensures u.Some? <==> ltv > 0.0 && cac > 0.0
    ensures u.Some? ==> u.value.ratio * cac == ltv
  {
    if ltv > 0.0 && cac > 0.0 then Some(UnitEconomics(ltv / cac, VerdictOf(ltv / cac)))
    else None
  }

  /**
   * The verdict compares LTV with CAC directly, without the division: a
   * customer costing more than they bring is unfavourable, LTV equal to CAC
   * is reasonable, and LTV of three times CAC or more is attractive.
   */
  lemma VerdictWithoutDivision(ltv: real, cac: real)
    requires ltv > 0.0 && cac > 0.0
    ensures AssessUnitEconomics(ltv, cac).value.verdict == Unfavourable <==> ltv < cac
    ensures AssessUnitEconomics(ltv, cac).value.verdict == Reasonable <==> cac <= ltv < 3.0 * cac
    ensures AssessUnitEconomics(ltv, cac).value.verdict == Attractive <==> ltv >= 3.0 * cac
  {
    assert AssessUnitEconomics(ltv, cac).value.verdict == VerdictOf(ltv / cac);
    DivBelow(ltv, cac, 1.0);
    DivBelow(ltv, cac, 3.0);
  }

  /** For a positive divisor, the quotient is below a bound exactly when the dividend is below bound times divisor. */
  lemma DivBelow(x: real, y: real, b: real)
    requires y > 0.0
    ensures x / y < b <==> x < b * y
  {
    var q := x / y;
    assert x == q * y;
    if q < b {
      assert (b - q) * y > 0.0;
      assert b * y - q * y > 0.0;
    } else {
      assert (q - b) * y >= 0.0;
      assert q * y - b * y >= 0.0;
    }
  }

  /** The rupee valuation in dollars, only when the rate is set and truthy (non-zero). */
  function ToUsd(valuationInr: real, usdInrRate: Option<real>): (usd: Option<real>)
    ensures usd.Some? <==> usdInrRate.Some? && usdInrRate.value != 0.0
    ensures usd.Some? ==> usd.value * usdInrRate.value == valuationInr
  {
    if usdInrRate.Some? && usdInrRate.value != 0.0 then Some(valuationInr / usdInrRate.value)
    else None
  }

  /**
   * The valuation submit handler (lines 225-303), with the current exchange
   * rate passed in. Non-positive revenue is refused and nothing is computed;
   * otherwise the valuation is revenue times the multiple, the dollar figure
   * exists exactly when a non-zero rate is known and is the valuation divided
   * by that rate, and the LTV/CAC section exists exactly when both are positive.
   */
  function Score(inp: ValuationInput, usdInrRate: Option<real>): (res: Result<ValuationResult, ValuationError>)
    ensures res.Err? <==> inp.revenue <= 0.0
    ensures res.Ok? ==>
              var v := res.value;
              && v.multiple == Multiple(inp.growth, inp.margin)
              && 2.5 <= v.multiple <= 7.5
              && v.valuationInr == inp.revenue * v.multiple
              && 2.5 * inp.revenue <= v.valuationInr <= 7.5 * inp.revenue
              && v.profile == ChooseProfile(inp.growth, inp.margin)
              && (v.valuationUsd.Some? <==> usdInrRate.Some? && usdInrRate.value != 0.0)
              && (v.valuationUsd.Some? ==> v.valuationUsd.value * usdInrRate.value == v.valuationInr)
              && (v.unitEconomics.Some? <==> inp.ltv > 0.0 && inp.cac > 0.0)
              && v.unitEconomics == AssessUnitEconomics(inp.ltv, inp.cac)
  {
    if inp.revenue <= 0.0 then Err(InvalidRevenue)
    else
      var multiple := Multiple(inp.growth, inp.margin);
      var valuationInr := inp.revenue * multiple;
      Ok(ValuationResult(
        multiple,
        valuationInr,
        ToUsd(valuationInr, usdInrRate),
        ChooseProfile(inp.growth, inp.margin),
        AssessUnitEconomics(inp.ltv, inp.cac)))
  }
}
