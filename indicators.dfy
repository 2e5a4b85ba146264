/**
 * The indicators that are read straight from the dataset: select the rows
 * with the indicator's label and, when there are none, fall back to the
 * placeholder generator and patch its columns.
 */
module Indicators {
  import opened Wrappers
  import opened Frames
  import opened Placeholders

  const OutturnMatcher: Matcher := LabelContains("PEFA: Aggregate expenditure out-turn")

  /** Expenditure out-turn: PEFA aggregate out-turn rows, or Intended/Actual placeholders around 25. */
  function CalculateExpenditureOutturn(df: Frame, gen: Generator): (r: Frame)
    ensures HasMatch(df, OutturnMatcher) ==> r == Select(df, OutturnMatcher)
    ensures !HasMatch(df, OutturnMatcher) ==>
      r == gen(FallbackRequest(df, 25.0, None, None, Some(["Intended", "Actual"])))
  {
    var found := Select(df, OutturnMatcher);
    if |found.rows| > 0 then found
    else gen(FallbackRequest(df, 25.0, None, None, Some(["Intended", "Actual"])))
  }

  const TaxRevenueLabel: string := "Tax Revenue - % of GDP - value"

  /**
   * Tax revenue as a share of GDP: the rows labelled exactly so, or
   * placeholders around 15 with a 5% trend whose region is "Unknown", whose
   * label is the indicator's, and whose country name is looked up from the
   * code when the generator gave no country column.
   */
  function CalculateTaxRevenueGdp(df: Frame, gen: Generator): (r: Frame)
    ensures HasMatch(df, LabelIs(TaxRevenueLabel)) ==> r == Select(df, LabelIs(TaxRevenueLabel))
    ensures !HasMatch(df, LabelIs(TaxRevenueLabel)) ==>
      var p := gen(FallbackRequest(df, 15.0, Some(0.05), None, None));
      && r.columns == p.columns + {RegionName, IndicatorLabel, CountryOrArea}
      && |r.rows| == |p.rows|
      && forall i :: 0 <= i < |r.rows| ==>
           && r.rows[i].regionName == Some("Unknown")
           && r.rows[i].indicatorLabel == Some(TaxRevenueLabel)
           && r.rows[i].countryOrArea ==
                (if CountryOrArea in p.columns then p.rows[i].countryOrArea else NameCell(p.rows[i].iso3))
           && r.rows[i].(regionName := p.rows[i].regionName, indicatorLabel := p.rows[i].indicatorLabel,
                         countryOrArea := p.rows[i].countryOrArea) == p.rows[i]
  {
    var found := Select(df, LabelIs(TaxRevenueLabel));
    if |found.rows| > 0 then found
    else
      var p := gen(FallbackRequest(df, 15.0, Some(0.05), None, None));
      var patched := WithLabel(WithRegion(p, "Unknown"), TaxRevenueLabel);
      if CountryOrArea !in p.columns then WithCountryNames(patched) else patched
  }

  const IffLabel: string := "Illicit Financial Flows (current US$)"

  /** Annual volume of illicit flows: the rows labelled exactly so, or relabelled placeholders around one billion. */
  function CalculateAnnualIffVolume(df: Frame, gen: Generator): (r: Frame)
    ensures HasMatch(df, LabelIs(IffLabel)) ==> r == Select(df, LabelIs(IffLabel))
    ensures !HasMatch(df, LabelIs(IffLabel)) ==>
      r == WithLabel(gen(FallbackRequest(df, 1000000000.0, Some(0.1), None, None)), IffLabel)
  {
    var found := Select(df, LabelIs(IffLabel));
    if |found.rows| > 0 then found
    else WithLabel(gen(FallbackRequest(df, 1000000000.0, Some(0.1), None, None)), IffLabel)
  }

  /**
   * The shape shared by the five indicators matched by a case-insensitive
   * pattern: the rows whose label contains the pattern, or the generator's
   * rows for the indicator's base value and trend, relabelled.
   */
  function ResolveByPattern(df: Frame, gen: Generator, pattern: string, baseValue: real, trend: real,
                            fallbackLabel: string): (r: Frame)
    ensures HasMatch(df, LabelContains(pattern)) ==> r == Select(df, LabelContains(pattern))
    ensures !HasMatch(df, LabelContains(pattern)) ==>
      r == WithLabel(gen(FallbackRequest(df, baseValue, Some(trend), None, None)), fallbackLabel)
  {
    var found := Select(df, LabelContains(pattern));
    if |found.rows| > 0 then found
    else WithLabel(gen(FallbackRequest(df, baseValue, Some(trend), None, None)), fallbackLabel)
  }

  /** Trade mispricing: rows mentioning "Trade mispricing", or placeholders around 500 million with a 5% trend. */
  function CalculateTradeMispricing(df: Frame, gen: Generator): (r: Frame)
    ensures HasMatch(df, LabelContains("Trade mispricing")) ==>
      r == Select(df, LabelContains("Trade mispricing"))
    ensures !HasMatch(df, LabelContains("Trade mispricing")) ==>
      r == WithLabel(gen(FallbackRequest(df, 500000000.0, Some(0.05), None, None)), "Trade Mispricing (current US$)")
  {
    ResolveByPattern(df, gen, "Trade mispricing", 500000000.0, 0.05, "Trade Mispricing (current US$)")
  }

  /** Tax evasion: rows mentioning "Tax evasion", or placeholders around 300 million with a 3% trend. */
  function CalculateTaxEvasion(df: Frame, gen: Generator): (r: Frame)
    ensures HasMatch(df, LabelContains("Tax evasion")) ==>
      r == Select(df, LabelContains("Tax evasion"))
    ensures !HasMatch(df, LabelContains("Tax evasion")) ==>
      r == WithLabel(gen(FallbackRequest(df, 300000000.0, Some(0.03), None, None)), "Tax Evasion (current US$)")
  {
    ResolveByPattern(df, gen, "Tax evasion", 300000000.0, 0.03, "Tax Evasion (current US$)")
  }

  /** Criminal activities: rows mentioning "Criminal proceeds", or placeholders around 200 million with a 2% trend. */
  function CalculateCriminalActivities(df: Frame, gen: Generator): (r: Frame)
    ensures HasMatch(df, LabelContains("Criminal proceeds")) ==>
      r == Select(df, LabelContains("Criminal proceeds"))
    ensures !HasMatch(df, LabelContains("Criminal proceeds")) ==>
      r == WithLabel(gen(FallbackRequest(df, 200000000.0, Some(0.02), None, None)), "Criminal Proceeds (current US$)")
  {
    ResolveByPattern(df, gen, "Criminal proceeds", 200000000.0, 0.02, "Criminal Proceeds (current US$)")
  }

  /** Enforcement effectiveness: rows mentioning "Enforcement effectiveness", or scores around 70 with a 1% trend. */
  function CalculateEnforcementEffectiveness(df: Frame, gen: Generator): (r: Frame)
    ensures HasMatch(df, LabelContains("Enforcement effectiveness")) ==>
      r == Select(df, LabelContains("Enforcement effectiveness"))
    ensures !HasMatch(df, LabelContains("Enforcement effectiveness")) ==>
      r == WithLabel(gen(FallbackRequest(df, 70.0, Some(0.01), None, None)), "Enforcement Effectiveness Score")
  {
    ResolveByPattern(df, gen, "Enforcement effectiveness", 70.0, 0.01, "Enforcement Effectiveness Score")
  }

  /** Corruption: rows mentioning "Corruption", or scores around 50 with a -1% trend. */
  function CalculateCorruptionIndex(df: Frame, gen: Generator): (r: Frame)
    ensures HasMatch(df, LabelContains("Corruption")) ==>
      r == Select(df, LabelContains("Corruption"))
    ensures !HasMatch(df, LabelContains("Corruption")) ==>
      r == WithLabel(gen(FallbackRequest(df, 50.0, Some(-0.01), None, None)), "Corruption Perception Index")
  {
    ResolveByPattern(df, gen, "Corruption", 50.0, -0.01, "Corruption Perception Index")
  }

  /**
   * Whatever a pattern-matched indicator returns, either every row is a
   * dataset row whose label contains the pattern, or the dataset has no
   * such row and every returned row carries the fallback label.
   */
  lemma ResolvedRowsAreLabelled(df: Frame, gen: Generator, pattern: string, baseValue: real, trend: real,
                                fallbackLabel: string)
    ensures var r := ResolveByPattern(df, gen, pattern, baseValue, trend, fallbackLabel);
      || (r.rows != [] && forall x :: x in r.rows ==>
            x in df.rows && x.indicatorLabel.Some? && ContainsIgnoringCase(x.indicatorLabel.value, pattern))
      || (!HasMatch(df, LabelContains(pattern)) && forall x :: x in r.rows ==> x.indicatorLabel == Some(fallbackLabel))
  {
  }
}
