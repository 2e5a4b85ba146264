# Indicator pipeline of the public finance dashboard

This project models the data pipeline behind the dashboard's tax, expenditure and
illicit-financial-flow indicators. Each indicator goes through the same steps:

- **Resolve**: pick out the dataset rows whose `indicator_label` equals a fixed
  string, contains a pattern (ignoring case), or is one of a list.
- **Fall back**: when nothing matches, ask the placeholder generator for series
  over a fallback country set and the years 2015 to 2020, then patch the label,
  region and country-name columns.
- **Derive**: inner-join two series on `(year, country_or_area, iso3)` and divide
  their values. The result is a missing value when the denominator is not positive.
- **Summarise**: keep the rows of the selected countries within an inclusive
  year range. Then report the average, maximum and minimum (or the total) over
  the latest year present, or all zeros when nothing is left.

A data frame is a `Frame`: the set of columns it has and a sequence of `Row`s.
A cell that is NaN is `None`. Operations that write a frame leave the cells of
a column it lacks as `None`, but nothing forces that on a frame the dataset or
the generator supplies: the column set and the row cells are kept side by side
and checked separately. The year of a row is an `int` and is always present.
Values are `real`, so division is exact.

The placeholder generator lives outside this code. It is modelled as a
function-typed parameter `gen: Generator` that receives the request
(countries, years, base value and the optional trend, variation and indicator
types), so every property holds whatever frame it returns. The random taxpayer
counts are a parameter `draws`, constrained to the range the source draws from.

Modules:

- `Frames`: the data model, boolean masks, label matching, column assignment.
- `Placeholders`: the fallback country set, the placeholder years, the request,
  the fixed country tables.
- `Indicators`: indicators read straight from the dataset.
- `Derived`: the tax effort ratio and IFFs as a share of GDP.
- `Taxpayers` and `Quality`: the two fallbacks built in a loop, each a `method`
  proved equal to a specification function.
- `Metrics`: latest-year summaries.
- `Views`: `get_filtered_data` and the metrics of every `visualize_*` function.

## Model

| member | source | states |
|---|---|---|
| Frames.Where | postprocessed.py:18-22 | a boolean mask keeps exactly the rows that pass it, never more rows than it was given |
| Frames.WhereConcat | postprocessed.py:18-22 | masking keeps row order: a mask over a concatenation is the concatenation of the masks |
| Frames.WhereKeepsAll | postprocessed.py:18-22 | a mask every row passes returns the rows unchanged |
| Frames.WhereKeepsNone | postprocessed.py:18-22 | a mask no row passes returns no rows |
| Frames.WherePartition | postprocessed.py:18-22 | a mask and its complement split the rows: together they are a permutation of the input |
| Frames.WhereTwice | postprocessed.py:240-245 | filtering in two stages equals filtering once by the conjunction |
| Frames.WhereSameMask | postprocessed.py:681-687 | masks that agree on every row select the same rows |
| Frames.CaseOfLabelIsIgnored | postprocessed.py:18-22 | upper- or lower-casing a label does not change whether it contains a pattern with `case=False` |
| Frames.ContainsIgnoringCase | postprocessed.py:18-22 | `str.contains(pattern, case=False, na=False)`: true iff the pattern lies over some stretch of the label character by character, ignoring case; the empty pattern is found everywhere and a pattern longer than the label nowhere |
| Frames.Select | postprocessed.py:47 | the selected rows are exactly the input rows whose label matches, with every column kept; a missing label never matches; the result is empty iff no row matches |
| Frames.WithLabel | postprocessed.py:61 | assigning a label column gives every row that label and changes nothing else |
| Frames.WithRegion | postprocessed.py:60 | assigning a region column gives every row that region and changes nothing else |
| Placeholders.Range | postprocessed.py:27 | `range(lo, hi)` is the hi - lo consecutive integers from lo |
| Placeholders.PlaceholderYearsAre2015To2020 | postprocessed.py:27 | the placeholder years are exactly 2015 to 2020, six of them, ascending |
| Placeholders.Codes | postprocessed.py:26 | the non-missing iso3 codes are exactly the codes some row carries |
| Placeholders.CodesConcat | postprocessed.py:26 | the codes keep row order and repetitions: the codes of a concatenation are the concatenated codes |
| Placeholders.Unique | postprocessed.py:26 | `unique()` keeps every element once and drops nothing else |
| Placeholders.UniqueKeepsFirstAppearanceOrder | postprocessed.py:26 | `unique()` lists elements in the order in which they first appear |
| Placeholders.FallbackCountries | postprocessed.py:26 | at most five distinct codes, all taken from the dataset when it has an iso3 column and a row, and the default five otherwise |
| Placeholders.FallbackCountriesAreFirstFive | postprocessed.py:26 | the codes taken from the dataset are in order of first appearance, and a code is left out only when five codes that appear earlier were already taken |
| Placeholders.FallbackRequest | postprocessed.py:26-33 | every fallback asks for at most five distinct countries (the dataset's codes when it has an iso3 column and a row, else the default five), the years 2015 to 2020 in order, and passes its base value, trend, variation and indicator types through unchanged |
| Placeholders.NameOf | postprocessed.py:65-74 | a code not in the name table names itself; the default countries get their table name |
| Placeholders.RegionOf | postprocessed.py:165-184 | a code not in the region table is in region "Unknown"; the default countries get their table region |
| Placeholders.WithCountryNames | postprocessed.py:72-74 | every row's country name becomes the display name of its own code (missing stays missing), nothing else changes |
| Indicators.CalculateExpenditureOutturn | postprocessed.py:8-35 | the rows whose label contains the PEFA out-turn pattern, unchanged, when there is one; otherwise the generator's frame for base 25 with Intended/Actual types |
| Indicators.CalculateTaxRevenueGdp | postprocessed.py:37-78 | the rows labelled exactly with the tax revenue label when there is one; otherwise each generator row with region "Unknown", the label, and, when the generator gave no country column, the name of its code, nothing else changed |
| Indicators.CalculateAnnualIffVolume | postprocessed.py:500-525 | the rows labelled exactly with the IFF label when there is one; otherwise the generator's rows for base 1e9 and trend 0.1, relabelled |
| Indicators.ResolveByPattern | postprocessed.py:537-552 | the rows whose label contains the pattern, ignoring case, when there is one; otherwise the relabelled generator rows for the indicator's base value and trend |
| Indicators.CalculateTradeMispricing | postprocessed.py:527-552 | pattern "Trade mispricing", fallback base 5e8, trend 0.05, label "Trade Mispricing (current US$)" |
| Indicators.CalculateTaxEvasion | postprocessed.py:554-579 | pattern "Tax evasion", fallback base 3e8, trend 0.03, label "Tax Evasion (current US$)" |
| Indicators.CalculateCriminalActivities | postprocessed.py:581-606 | pattern "Criminal proceeds", fallback base 2e8, trend 0.02, label "Criminal Proceeds (current US$)" |
| Indicators.CalculateEnforcementEffectiveness | postprocessed.py:608-633 | pattern "Enforcement effectiveness", fallback base 70, trend 0.01, label "Enforcement Effectiveness Score" |
| Indicators.CalculateCorruptionIndex | postprocessed.py:635-660 | pattern "Corruption", fallback base 50, trend -0.01, label "Corruption Perception Index" |
| Indicators.ResolvedRowsAreLabelled | postprocessed.py:537-552 | either every returned row is a dataset row whose label contains the pattern, or the dataset has no such row and every returned row carries the fallback label |
| Derived.SafeDivide | postprocessed.py:101-105 | the derived value is present iff both values are present and the denominator is positive, and then value × denominator = scale × numerator |
| Derived.Combine | postprocessed.py:94-105 | a joined row keeps the numerator's key and region, and its value is missing exactly when a value is missing or the denominator is ≤ 0 |
| Derived.Join | postprocessed.py:94-99 | the inner merge has exactly one row per (numerator, denominator) pair with equal keys |
| Derived.JoinRowIsMaskedRight | postprocessed.py:94-99 | one numerator row contributes exactly its combination with each equal-key denominator row, in the denominator's order, once each |
| Derived.JoinConcat | postprocessed.py:94-99 | the merge of concatenated numerator rows is the concatenation of their merges, so numerator order is kept |
| Derived.JoinSound | postprocessed.py:94-99 | every joined row comes from a left row and a right row with the same (year, country_or_area, iso3) |
| Derived.JoinComplete | postprocessed.py:94-99 | every left row and right row with the same key yield a joined row |
| Derived.JoinRowSound | postprocessed.py:94-99 | the rows one left row contributes each come from a right row with its key |
| Derived.JoinRowComplete | postprocessed.py:94-99 | every right row with the left row's key contributes a row |
| Derived.SelectedJoinSound | postprocessed.py:90-99 | every merged row pairs a numerator-labelled and a denominator-labelled dataset row with equal keys |
| Derived.SelectedJoinComplete | postprocessed.py:90-99 | every such pair of dataset rows yields a merged row |
| Derived.CalculateTaxEffortRatio | postprocessed.py:80-117 | when both actual and potential rows exist, their inner join as a ratio with the merged columns; otherwise the generator's frame for base 0.8 and variation 0.1 |
| Derived.TaxEffortRatioRows | postprocessed.py:90-107 | every computed tax effort row pairs an actual and a potential row with the same key; its value is missing exactly when a value is missing or the potential is ≤ 0, and is otherwise actual / potential |
| Derived.CalculateIffsAsGdpPercentage | postprocessed.py:354-410 | when both flow and GDP rows exist, their inner join as a percentage, labelled; otherwise the labelled generator rows, with region "Unknown" added only when the generator gave no region column |
| Derived.IffsAsGdpPercentageIsLabelled | postprocessed.py:388 | every row of the IFF share, computed or generated, carries the label "IFFs as % of GDP" |
| Derived.IffsAsGdpPercentageRows | postprocessed.py:364-385 | every computed row pairs a flow row and a GDP row with the same key; its value is missing exactly when a value is missing or GDP is ≤ 0, and is otherwise flows / GDP × 100 |
| Derived.IffsShareExample | postprocessed.py:364-392 | flows of 10 against a GDP of 200 for one country and year give the single row with value 5 |
| Taxpayers.TaxpayerRows | postprocessed.py:144-149 | the taxpayer rows, narrowed to the code when a country is given and to the year when a year is given |
| Taxpayers.FirstWithCode | postprocessed.py:158 | the first row carrying the code |
| Taxpayers.CountryMetadata | postprocessed.py:155-184 | without a dataset row for the code, the table name and region with their defaults; with one, each present name or region column is read from the first row with the code, and the code and "Unknown" stand in for a column the dataset lacks |
| Taxpayers.MetadataFromFirstRow | postprocessed.py:157-163 | when the dataset has a row for the code, the name and the region, each when its column is present, are those of the earliest such row |
| Taxpayers.TaxpayerComposition | postprocessed.py:119-200 | an error iff no row is found and the country or the year is missing; the found rows, unchanged, when there are any |
| Taxpayers.PlaceholderRows | postprocessed.py:186-196 | six rows, row i carrying taxpayer type i, the code, the year, draw i as its value, and the country's name and region, with no indicator type |
| Taxpayers.PlaceholderComposition | postprocessed.py:186-198 | a placeholder composition has exactly six rows, one per taxpayer type in order, each with the given code and year, a count in [10000, 1000000) and the country's metadata |
| Taxpayers.CalculateTaxpayerComposition | postprocessed.py:119-200 | the loop that appends one row per taxpayer type returns the composition |
| Quality.Stacked | postprocessed.py:306-311 | every stacked row carries one of the labels |
| Quality.StackedLength | postprocessed.py:306-311 | the concatenation has one block of placeholder rows per label |
| Quality.StackedEntry | postprocessed.py:306-311 | row i of block k is placeholder row i relabelled with label k, nothing else changed |
| Quality.ExpenditureQuality | postprocessed.py:286-313 | the rows with one of the three quality labels when there is one; otherwise the relabelled copies of the generator's rows, with the label column added |
| Quality.CalculateExpenditureQuality | postprocessed.py:286-313 | the loop that collects one relabelled copy per indicator returns the quality frame |
| Quality.QualityRowsAreQualityIndicators | postprocessed.py:286-313 | every returned row carries a quality label, and a fallback has three times as many rows as the generator gave |
| Metrics.Present | postprocessed.py:469-473 | the non-missing values are exactly the values some row carries |
| Metrics.PresentConcat | postprocessed.py:469-473 | the present values keep row order and multiplicity: those of a concatenation are the concatenated values |
| Metrics.MaxOf | postprocessed.py:471 | the maximum is a value and no value exceeds it |
| Metrics.MinOf | postprocessed.py:472 | the minimum is a value and no value is below it |
| Metrics.SumAtLeast | postprocessed.py:717 | a total is at least the count times any lower bound |
| Metrics.SumAtMost | postprocessed.py:717 | a total is at most the count times any upper bound |
| Metrics.Mean | postprocessed.py:470 | the mean is missing iff there are no values; otherwise mean × count = total, and min ≤ mean ≤ max |
| Metrics.MaxYear | postprocessed.py:466 | the latest year is some row's year and no row is later |
| Metrics.LatestRows | postprocessed.py:466-467 | the latest year's rows are exactly the rows of that year; there is at least one |
| Metrics.LatestRowsIgnoreEarlierYears | postprocessed.py:466-467 | rows of earlier years inserted anywhere change neither the latest year nor its rows |
| Metrics.LatestValues | postprocessed.py:466-473 | the values summarised are exactly the present values of the latest year's rows |
| Metrics.SummaryOf | postprocessed.py:469-473 | all NaN for no values; otherwise the largest and the smallest value and their mean, which lies between them |
| Metrics.Summarize | postprocessed.py:464-493 | the summary describes the filtered rows: all zero for no rows, else the summary of the latest year's present values |
| Metrics.SummarizesValuesIsUnique | postprocessed.py:469-473 | at most one summary fits given values |
| Metrics.DescribesIsUnique | postprocessed.py:464-493 | the description pins the metrics down completely |
| Metrics.SummaryIgnoresEarlierYears | postprocessed.py:466-473 | rows of earlier years inserted anywhere leave the metrics unchanged |
| Metrics.LatestYearExample | postprocessed.py:466-473 | values 10 and 20 in 2018 and 30 in 2019 summarise to 30, 30, 30 |
| Metrics.VolumeOf | postprocessed.py:716-720 | the total of the values (0 when none is present) and their extremes, with count × min ≤ total ≤ count × max |
| Metrics.SummarizeVolume | postprocessed.py:711-739 | the volume metrics describe the filtered rows: all zero for no rows, else the total and extremes of the latest year's present values |
| Metrics.LatestOfType | postprocessed.py:268-269 | the values averaged for a type are exactly the present values of the latest year's rows of that type |
| Metrics.Efficiency | postprocessed.py:273 | actual as a percentage of intended (efficiency × intended = 100 × actual) when intended is positive, missing when actual is, and 0 when intended is missing or ≤ 0 |
| Metrics.SummarizeOutturn | postprocessed.py:261-279 | no metrics iff there are no rows; otherwise the means of the latest year's Actual and Intended values and their efficiency |
| Views.GetFilteredData | postprocessed.py:431-437 | the filtered rows are exactly the rows whose key is present and selected and whose year lies in the range when one is given; columns kept |
| Views.FilteredDataIsOneMask | postprocessed.py:681-687 | the staged filters are one mask over the indicator's rows, so row order is kept |
| Views.SummaryView | postprocessed.py:764-823 | the metrics describe the filtered rows, and are all zero when none is left |
| Views.SummarisedRowsPassTheFilters | postprocessed.py:713-720 | every row summarised is an indicator row that passes both filters, and no such row is later |
| Views.VisualizeExpenditureOutturn | postprocessed.py:224-284 | outturn metrics over the rows selected by iso3: none without rows, else the latest year's Actual and Intended means and their efficiency |
| Views.VisualizeExpenditureQuality | postprocessed.py:315-352 | the chart gets the quality frame's columns and exactly its rows with a selected iso3 and a year in range |
| Views.VisualizeIffsAsGdpPercentage | postprocessed.py:412-498 | the metrics describe the IFF share rows selected by iso3 |
| Views.VisualizeAnnualIffVolume | postprocessed.py:662-744 | the volume metrics describe the IFF rows selected by country name: all zero without rows, else the total and extremes of the latest year's values |
| Views.VisualizeTradeMispricing | postprocessed.py:746-828 | the metrics describe the trade mispricing rows selected by country name |
| Views.VisualizeTaxEvasion | postprocessed.py:830-912 | the metrics describe the tax evasion rows selected by country name |
| Views.VisualizeCriminalActivities | postprocessed.py:914-996 | the metrics describe the criminal proceeds rows selected by country name |
| Views.VisualizeEnforcementEffectiveness | postprocessed.py:998-1081 | the metrics describe the enforcement rows selected by country name |
| Views.VisualizeCorruptionIndex | postprocessed.py:1083-1166 | the metrics describe the corruption rows selected by country name |

## Left out

- Chart construction: the Altair and Plotly figures, their layouts, and `visualize_indicator`. The views return only the metrics, or the filtered rows for expenditure quality.
- `plot_indicator`: it only forwards its arguments to `visualize_indicator`, which is not part of this model.
- `generate_placeholder_data` is not part of this model. It is the parameter `gen`, and nothing is assumed about what it returns.
- `np.random.randint`: the six taxpayer counts are the parameter `draws`, each in [10000, 1000000).
- Debug `print` output.
- The Streamlit page. It only lays out widgets and formats the metrics.
- Floating point: values are exact reals. A NaN is a missing value, and the mean, maximum, minimum and sum skip it as pandas does.
- `KeyError`: pandas raises when code reads a column the frame lacks. For example: the `indicator_label` reads of every resolver (lines 18, 47, 90-91, 144, 294, 365-366, 510 and 537-645), the taxpayer narrowing (lines 147 and 149), a `get_filtered_data` filtering on `iso3`, `country_or_area` or `year` (lines 433-436), the `iso3` mapping to names (line 72), the merge columns (lines 95-96 and 374-375), `indicator_type` (lines 268-269) and `value` (lines 271-272, 470-472 and 717-719). The model raises no error. It reads the row's cell, which is missing for a column an operation of the model did not write.
- Frame well-formedness: the model does not require a frame's rows to leave the cells of absent columns missing. A frame the dataset or the generator supplies may carry values in a column outside its column set, and the model then reads those values where pandas would raise.
- Missing years: `year` is an integer in every row. A NaN year, which pandas skips in `max()` (line 466), never equals `latest_year` (line 467), fails the range filter (lines 435-436) and matches another NaN year in `pd.merge` (line 97), is not modelled. A frame without a `year` column is not modelled either.
- Derived.Join: the merged frames keep neither the suffixed `value_actual`/`value_potential` (or `_iffs`/`_gdp`) columns nor pandas' row order for repeated keys. The model lists left rows in order, each followed by its matching right rows in order. Nothing downstream reads those columns. NaN keys match each other, as in pandas.
- Frames.ContainsIgnoringCase: case is folded for ASCII letters only. The patterns are matched as literal text, which is what `str.contains` does with these patterns because they hold no regular-expression metacharacters.
- Views.GetFilteredData: the year range is a start and an end. A `year_range` list of any other length, which would raise or be read differently, is not modelled. An empty list counts as no range, as in the source.
- Taxpayers.TaxpayerComposition: the placeholder counts are integers in the source. Here they are reals with integral values.
