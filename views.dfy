/**
 * The data and metrics behind each chart: the indicator's rows narrowed to
 * the selected countries and, when given, an inclusive range of years,
 * then summarised over the latest year. Chart construction is not modelled.
 */
module Views {
  import opened Wrappers
  import opened Frames
  import opened Placeholders
  import Indicators
  import Derived
  import Quality
  import Metrics

  /** Which column the selection is matched against. */
  datatype SelectionKey = ByIso3 | ByCountry

  function KeyOf(x: Row, key: SelectionKey): Option<string> {
    match key
    case ByIso3 => x.iso3
    case ByCountry => x.countryOrArea
  }

  /** A `[start_year, end_year]` filter, both ends included. */
  datatype YearRange = YearRange(start: int, end: int)

  /** `isin(selected)`: the key is present and listed; a missing key never is. */
  predicate Selected(x: Row, key: SelectionKey, selected: seq<string>) {
    KeyOf(x, key).Some? && KeyOf(x, key).value in selected
  }

  predicate InRange(x: Row, range: Option<YearRange>) {
    range.Some? ==> range.value.start <= x.year <= range.value.end
  }

  /**
   * `get_filtered_data`: the indicator's rows in the selection and then,
   * when a range is given, within it; columns and row order are kept.
   */
  function GetFilteredData(data: Frame, key: SelectionKey, selected: seq<string>, range: Option<YearRange>)
    : (r: Frame)
    ensures r.columns == data.columns
    ensures |r.rows| <= |data.rows|
    ensures forall x :: x in r.rows <==> x in data.rows && Selected(x, key, selected) && InRange(x, range)
  {
    var inSelection := Where(data.rows, (x: Row) => Selected(x, key, selected));
    var filtered :=
      if range.Some? then
        var lo, hi := range.value.start, range.value.end;
        Where(inSelection, (x: Row) => lo <= x.year <= hi)
      else inSelection;
    Frame(data.columns, filtered)
  }

  /** The two filtering stages are one mask over the indicator's rows: the order of the rows is kept. */
  lemma FilteredDataIsOneMask(data: Frame, key: SelectionKey, selected: seq<string>, range: Option<YearRange>)
    ensures GetFilteredData(data, key, selected, range).rows ==
      Where(data.rows, (x: Row) => Selected(x, key, selected) && InRange(x, range))
  {
    var sel := (x: Row) => Selected(x, key, selected);
    var both := (x: Row) => Selected(x, key, selected) && InRange(x, range);
    if range.Some? {
      var lo, hi := range.value.start, range.value.end;
      var years := (x: Row) => lo <= x.year <= hi;
      WhereTwice(data.rows, sel, years);
      assert Where(data.rows, (x: Row) => sel(x) && years(x)) == Where(data.rows, both) by {
        WhereSameMask(data.rows, (x: Row) => sel(x) && years(x), both);
      }
    } else {
      WhereSameMask(data.rows, sel, both);
    }
  }

  /** The average/maximum/minimum metrics of an indicator's filtered rows. */
  function SummaryView(data: Frame, key: SelectionKey, selected: seq<string>, range: Option<YearRange>)
    : (m: Metrics.Summary)
    ensures Metrics.Describes(m, GetFilteredData(data, key, selected, range).rows)
    ensures GetFilteredData(data, key, selected, range).rows == [] ==> m == Metrics.NoDataSummary
  {
    Metrics.Summarize(GetFilteredData(data, key, selected, range).rows)
  }

  // ---------------------------------------------------------------------
  // The views, one per chart
  // ---------------------------------------------------------------------

  /** Expenditure out-turn by iso3: no metrics without data, else the out-turn metrics of the latest year. */
  function VisualizeExpenditureOutturn(df: Frame, gen: Generator, selectedIso3: seq<string>,
                                       range: Option<YearRange>): (m: Option<Metrics.OutturnMetrics>)
    ensures var rows := GetFilteredData(Indicators.CalculateExpenditureOutturn(df, gen), ByIso3, selectedIso3, range).rows;
      && (m.None? <==> rows == [])
      && (m.Some? ==>
            && m.value.avgActual == Metrics.Mean(Metrics.LatestOfType(rows, "Actual"))
            && m.value.avgIntended == Metrics.Mean(Metrics.LatestOfType(rows, "Intended"))
            && m.value.efficiency == Metrics.Efficiency(m.value.avgActual, m.value.avgIntended))
  {
    Metrics.SummarizeOutturn(
      GetFilteredData(Indicators.CalculateExpenditureOutturn(df, gen), ByIso3, selectedIso3, range).rows)
  }

  /** Expenditure quality by iso3: only the filtered rows, which the chart draws; there are no metrics. */
  function VisualizeExpenditureQuality(df: Frame, gen: Generator, selectedIso3: seq<string>,
                                       range: Option<YearRange>): (r: Frame)
    ensures r.columns == Quality.ExpenditureQuality(df, gen).columns
    ensures forall x :: x in r.rows <==>
      && x in Quality.ExpenditureQuality(df, gen).rows
      && x.iso3.Some? && x.iso3.value in selectedIso3
      && InRange(x, range)
  {
    GetFilteredData(Quality.ExpenditureQuality(df, gen), ByIso3, selectedIso3, range)
  }

  /** IFFs as a share of GDP, selected by iso3. */
  function VisualizeIffsAsGdpPercentage(df: Frame, gen: Generator, selectedIso3: seq<string>,
                                        range: Option<YearRange>): (m: Metrics.Summary)
    ensures Metrics.Describes(m,
      GetFilteredData(Derived.CalculateIffsAsGdpPercentage(df, gen), ByIso3, selectedIso3, range).rows)
  {
    SummaryView(Derived.CalculateIffsAsGdpPercentage(df, gen), ByIso3, selectedIso3, range)
  }

  /** Annual IFF volume, selected by country name: a total of the latest year instead of a mean. */
  function VisualizeAnnualIffVolume(df: Frame, gen: Generator, selectedCountries: seq<string>,
                                    range: Option<YearRange>): (m: Metrics.VolumeSummary)
    ensures Metrics.DescribesVolume(m,
      GetFilteredData(Indicators.CalculateAnnualIffVolume(df, gen), ByCountry, selectedCountries, range).rows)
  {
    Metrics.SummarizeVolume(
      GetFilteredData(Indicators.CalculateAnnualIffVolume(df, gen), ByCountry, selectedCountries, range).rows)
  }

  /** Trade mispricing, selected by country name. */
  function VisualizeTradeMispricing(df: Frame, gen: Generator, selectedCountries: seq<string>,
                                    range: Option<YearRange>): (m: Metrics.Summary)
    ensures Metrics.Describes(m,
      GetFilteredData(Indicators.CalculateTradeMispricing(df, gen), ByCountry, selectedCountries, range).rows)
  {
    SummaryView(Indicators.CalculateTradeMispricing(df, gen), ByCountry, selectedCountries, range)
  }

  /** Tax evasion, selected by country name. */
  function VisualizeTaxEvasion(df: Frame, gen: Generator, selectedCountries: seq<string>,
                               range: Option<YearRange>): (m: Metrics.Summary)
    ensures Metrics.Describes(m,
      GetFilteredData(Indicators.CalculateTaxEvasion(df, gen), ByCountry, selectedCountries, range).rows)
  {
    SummaryView(Indicators.CalculateTaxEvasion(df, gen), ByCountry, selectedCountries, range)
  }

  /** Criminal activities, selected by country name. */
  function VisualizeCriminalActivities(df: Frame, gen: Generator, selectedCountries: seq<string>,
                                       range: Option<YearRange>): (m: Metrics.Summary)
    ensures Metrics.Describes(m,
      GetFilteredData(Indicators.CalculateCriminalActivities(df, gen), ByCountry, selectedCountries, range).rows)
  {
    SummaryView(Indicators.CalculateCriminalActivities(df, gen), ByCountry, selectedCountries, range)
  }

  /** Enforcement effectiveness, selected by country name. */
  function VisualizeEnforcementEffectiveness(df: Frame, gen: Generator, selectedCountries: seq<string>,
                                             range: Option<YearRange>): (m: Metrics.Summary)
    ensures Metrics.Describes(m,
      GetFilteredData(Indicators.CalculateEnforcementEffectiveness(df, gen), ByCountry, selectedCountries, range).rows)
  {
    SummaryView(Indicators.CalculateEnforcementEffectiveness(df, gen), ByCountry, selectedCountries, range)
  }

  /** Corruption index, selected by country name. */
  function VisualizeCorruptionIndex(df: Frame, gen: Generator, selectedCountries: seq<string>,
                                    range: Option<YearRange>): (m: Metrics.Summary)
    ensures Metrics.Describes(m,
      GetFilteredData(Indicators.CalculateCorruptionIndex(df, gen), ByCountry, selectedCountries, range).rows)
  {
    SummaryView(Indicators.CalculateCorruptionIndex(df, gen), ByCountry, selectedCountries, range)
  }

  /**
   * Every row a summary is taken over is in the selection and the range:
   * the latest year's rows of the filtered data are rows of the indicator
   * that pass both filters.
   */
  lemma SummarisedRowsPassTheFilters(data: Frame, key: SelectionKey, selected: seq<string>,
                                     range: Option<YearRange>, x: Row)
    requires GetFilteredData(data, key, selected, range).rows != []
    requires x in Metrics.LatestRows(GetFilteredData(data, key, selected, range).rows)
    ensures x in data.rows && Selected(x, key, selected) && InRange(x, range)
    ensures forall y :: y in data.rows && Selected(y, key, selected) && InRange(y, range) ==> y.year <= x.year
  {
  }
}
