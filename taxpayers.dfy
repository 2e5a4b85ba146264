/**
 * Taxpayer composition: the dataset's rows for the six taxpayer counts,
 * narrowed to one country and one year when those are given; when nothing
 * is found, six placeholder rows for the country and year, built one type
 * at a time, with the country's name and region taken from the dataset or
 * from the fixed tables.
 */
module Taxpayers {
  import opened Wrappers
  import opened Frames
  import opened Placeholders

  /** The six taxpayer counts, in the order the placeholder rows follow. */
  const TaxpayerTypes: seq<string> := [
    "Number of corporate income taxpayers",
    "Number of VAT taxpayers",
    "Number of personal income taxpayers",
    "Number of wage/salary taxpayers (employers)",
    "Number of wage/salary taxpayers (employees)",
    "Number of trust taxpayers"]

  /** A placeholder count is drawn from MinDraw up to but excluding MaxDraw. */
  const MinDraw: int := 10000
  const MaxDraw: int := 1000000

  /** `if country:` — the argument was passed and is not the empty string. */
  predicate CountryGiven(country: Option<string>) {
    country.Some? && country.value != ""
  }

  /** `if year:` — the argument was passed and is not zero. */
  predicate YearGiven(year: Option<int>) {
    year.Some? && year.value != 0
  }

  /** The taxpayer rows of the dataset, narrowed by country and then by year when each is given. */
  function TaxpayerRows(df: Frame, country: Option<string>, year: Option<int>): (r: seq<Row>)
    ensures forall x :: x in r <==>
      && x in df.rows
      && Matches(LabelIn(TaxpayerTypes), x.indicatorLabel)
      && (CountryGiven(country) ==> x.iso3 == Some(country.value))
      && (YearGiven(year) ==> x.year == year.value)
  {
    var typed := Select(df, LabelIn(TaxpayerTypes)).rows;
    var byCountry :=
      if CountryGiven(country) then
        var code := country.value;
        Where(typed, (x: Row) => x.iso3 == Some(code))
      else typed;
    if YearGiven(year) then
      var y := year.value;
      Where(byCountry, (x: Row) => x.year == y)
    else byCountry
  }

  // ---------------------------------------------------------------------
  // Country metadata
  // ---------------------------------------------------------------------

  /** The name and region written on every placeholder row; a NaN cell is None. */
  datatype Metadata = Metadata(countryOrArea: Option<string>, regionName: Option<string>)

  predicate HasCode(rows: seq<Row>, code: string) {
    exists x :: x in rows && x.iso3 == Some(code)
  }

  /** The position of the first row with the code (`.iloc[0]` of the rows for it). */
  function FirstWithCode(rows: seq<Row>, code: string): (i: nat)
    requires HasCode(rows, code)
    ensures i < |rows| && rows[i].iso3 == Some(code)
    ensures forall j :: 0 <= j < i ==> rows[j].iso3 != Some(code)
  {
    if rows[0].iso3 == Some(code) then 0
    else
      assert HasCode(rows[1..], code) by {
        var x :| x in rows && x.iso3 == Some(code);
        var k :| 0 <= k < |rows| && rows[k] == x;
        assert rows[1..][k - 1] == x;
      }
      1 + FirstWithCode(rows[1..], code)
  }

  /**
   * The metadata of a country: when the dataset has an iso3 column and a row
   * with the code, the first such row's name and region (the code and
   * "Unknown" for a column the dataset lacks); otherwise the fixed tables,
   * whose defaults are the code itself and "Unknown".
   */
  function CountryMetadata(df: Frame, code: string): (m: Metadata)
    ensures !(Iso3 in df.columns && HasCode(df.rows, code)) ==>
      m == Metadata(Some(NameOf(code)), Some(RegionOf(code)))
    ensures Iso3 in df.columns && HasCode(df.rows, code) && CountryOrArea !in df.columns ==>
      m.countryOrArea == Some(code)
    ensures Iso3 in df.columns && HasCode(df.rows, code) && RegionName !in df.columns ==>
      m.regionName == Some("Unknown")
    ensures Iso3 in df.columns && HasCode(df.rows, code) && CountryOrArea in df.columns ==>
      m.countryOrArea == df.rows[FirstWithCode(df.rows, code)].countryOrArea
    ensures Iso3 in df.columns && HasCode(df.rows, code) && RegionName in df.columns ==>
      m.regionName == df.rows[FirstWithCode(df.rows, code)].regionName
  {
    if Iso3 in df.columns && |df.rows| > 0 && HasCode(df.rows, code) then
      var info := df.rows[FirstWithCode(df.rows, code)];
      Metadata(if CountryOrArea in df.columns then info.countryOrArea else Some(code),
               if RegionName in df.columns then info.regionName else Some("Unknown"))
    else
      Metadata(Some(NameOf(code)), Some(RegionOf(code)))
  }

  /**
   * When the dataset knows the country, the metadata is the name and region
   * of the earliest row with its code, each read only from a column the
   * dataset has.
   */
  lemma MetadataFromFirstRow(df: Frame, code: string)
    requires Iso3 in df.columns && HasCode(df.rows, code)
    ensures exists i :: (0 <= i < |df.rows|
      && df.rows[i].iso3 == Some(code)
      && (forall j :: 0 <= j < i ==> df.rows[j].iso3 != Some(code))
      && (CountryOrArea in df.columns ==> CountryMetadata(df, code).countryOrArea == df.rows[i].countryOrArea)
      && (RegionName in df.columns ==> CountryMetadata(df, code).regionName == df.rows[i].regionName))
  {
    var i := FirstWithCode(df.rows, code);
    assert 0 <= i < |df.rows| && df.rows[i].iso3 == Some(code);
  }

  // ---------------------------------------------------------------------
  // The composition
  // ---------------------------------------------------------------------

  /** `ValueError` raised when no row is found and the country or the year is missing. */
  datatype CompositionError = CountryAndYearRequired

  /** The columns of a placeholder composition. */
  const CompositionColumns: set<Column> := {Year, Value, Iso3, IndicatorLabel, CountryOrArea, RegionName}

  /** One placeholder row: a taxpayer type's drawn count for the country and year. */
  function PlaceholderRow(code: string, year: int, m: Metadata, taxpayerType: string, draw: int): Row {
    Row(year, Some(code), m.countryOrArea, m.regionName, Some(taxpayerType), None, Some(draw as real))
  }

  predicate ValidDraws(draws: seq<int>) {
    |draws| == |TaxpayerTypes| && forall i :: 0 <= i < |draws| ==> MinDraw <= draws[i] < MaxDraw
  }

  /** The placeholder rows for a country and year: one per taxpayer type, in order, with its drawn count. */
  function PlaceholderRows(code: string, year: int, m: Metadata, draws: seq<int>): (r: seq<Row>)
    requires |draws| == |TaxpayerTypes|
    ensures |r| == |TaxpayerTypes|
    ensures forall i :: 0 <= i < |r| ==>
      && r[i].indicatorLabel == Some(TaxpayerTypes[i])
      && r[i].iso3 == Some(code) && r[i].year == year
      && r[i].value == Some(draws[i] as real)
      && r[i].countryOrArea == m.countryOrArea && r[i].regionName == m.regionName
      && r[i].indicatorType.None?
  {
    seq(|TaxpayerTypes|, i requires 0 <= i < |TaxpayerTypes| => PlaceholderRow(code, year, m, TaxpayerTypes[i], draws[i]))
  }

  /**
   * What the composition returns, for the random counts `draws` (one per
   * taxpayer type): the dataset's rows when there are any; otherwise an
   * error unless both country and year are given, and else the placeholder
   * rows for the country's code, the year and its metadata.
   */
  function TaxpayerComposition(df: Frame, country: Option<string>, year: Option<int>, draws: seq<int>)
    : (r: Result<Frame, CompositionError>)
    requires ValidDraws(draws)
    ensures r.Err? <==> TaxpayerRows(df, country, year) == [] && !(CountryGiven(country) && YearGiven(year))
    ensures TaxpayerRows(df, country, year) != [] ==> r == Ok(Frame(df.columns, TaxpayerRows(df, country, year)))
  {
    var found := TaxpayerRows(df, country, year);
    if |found| > 0 then Ok(Frame(df.columns, found))
    else if !CountryGiven(country) || !YearGiven(year) then Err(CountryAndYearRequired)
    else
      var m := CountryMetadata(df, country.value);
      Ok(Frame(CompositionColumns, PlaceholderRows(country.value, year.value, m, draws)))
  }

  /**
   * A placeholder composition has the six columns and one row per taxpayer
   * type, in order, each with the given code and year, a count in the drawn
   * range, and the country's metadata.
   */
  lemma PlaceholderComposition(df: Frame, country: Option<string>, year: Option<int>, draws: seq<int>)
    requires ValidDraws(draws)
    requires TaxpayerRows(df, country, year) == [] && CountryGiven(country) && YearGiven(year)
    ensures var r := TaxpayerComposition(df, country, year, draws);
      && r.Ok?
      && r.value.columns == CompositionColumns
      && |r.value.rows| == |TaxpayerTypes|
      && forall i :: 0 <= i < |r.value.rows| ==>
           && r.value.rows[i].indicatorLabel == Some(TaxpayerTypes[i])
           && r.value.rows[i].iso3 == country
           && r.value.rows[i].year == year.value
           && r.value.rows[i].value.Some?
           && MinDraw as real <= r.value.rows[i].value.value < MaxDraw as real
           && r.value.rows[i].countryOrArea == CountryMetadata(df, country.value).countryOrArea
           && r.value.rows[i].regionName == CountryMetadata(df, country.value).regionName
  {
  }

  /**
   * `calculate_taxpayer_composition`: when nothing is found, the placeholder
   * rows are appended one taxpayer type at a time.
   */
  method CalculateTaxpayerComposition(df: Frame, country: Option<string>, year: Option<int>, draws: seq<int>)
    returns (r: Result<Frame, CompositionError>)
    requires ValidDraws(draws)
    ensures r == TaxpayerComposition(df, country, year, draws)
  {
    var found := TaxpayerRows(df, country, year);
    if |found| > 0 {
      return Ok(Frame(df.columns, found));
    }
    if !CountryGiven(country) || !YearGiven(year) {
      return Err(CountryAndYearRequired);
    }
    var code, y := country.value, year.value;
    var m := CountryMetadata(df, code);
    var data: seq<Row> := [];
    for k := 0 to |TaxpayerTypes|
      invariant |data| == k
      invariant forall i :: 0 <= i < k ==> data[i] == PlaceholderRow(code, y, m, TaxpayerTypes[i], draws[i])
    {
      data := data + [PlaceholderRow(code, y, m, TaxpayerTypes[k], draws[k])];
    }
    assert data == PlaceholderRows(code, y, m, draws);
    r := Ok(Frame(CompositionColumns, data));
  }
}
