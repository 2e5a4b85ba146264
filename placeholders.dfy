/**
 * What every indicator falls back to when the dataset has no row for it:
 * the countries and years handed to the placeholder generator, the
 * generator itself (an opaque collaborator), and the fixed country tables.
 */
module Placeholders {
  import opened Wrappers
  import opened Frames

  /** The countries used when the dataset cannot supply any. */
  const DefaultCountries: seq<string> := ["USA", "GBR", "FRA", "DEU", "JPN"]

  /** The most countries a fallback takes from the dataset. */
  const MaxFallbackCountries: nat := 5

  /** Python's `range(lo, hi)`: the integers from lo up to but excluding hi. */
  function Range(lo: int, hi: int): (r: seq<int>)
    decreases hi - lo
    ensures |r| == if lo <= hi then hi - lo else 0
    ensures forall i :: 0 <= i < |r| ==> r[i] == lo + i
  {
    if lo >= hi then [] else [lo] + Range(lo + 1, hi)
  }

  /** The years of every placeholder series. */
  const PlaceholderYears: seq<int> := Range(2015, 2021)

  /** The placeholder years are exactly 2015 to 2020, ascending. */
  lemma PlaceholderYearsAre2015To2020()
    ensures forall y :: y in PlaceholderYears <==> 2015 <= y <= 2020
    ensures |PlaceholderYears| == 6
    ensures forall i, j :: 0 <= i < j < |PlaceholderYears| ==> PlaceholderYears[i] < PlaceholderYears[j]
  {
  }

  // ---------------------------------------------------------------------
  // The fallback country set
  // ---------------------------------------------------------------------

  /** The non-missing iso3 codes of the rows, in row order (the column with NaN dropped). */
  function Codes(rows: seq<Row>): (r: seq<string>)
    ensures forall c :: c in r <==> exists x :: x in rows && x.iso3 == Some(c)
  {
    if rows == [] then []
    else (if rows[0].iso3.Some? then [rows[0].iso3.value] else []) + Codes(rows[1..])
  }

  /** The codes keep row order and repetitions: those of a concatenation are concatenated. */
  lemma {:induction false} CodesConcat(a: seq<Row>, b: seq<Row>)
    ensures Codes(a + b) == Codes(a) + Codes(b)
  {
    if a == [] {
      assert a + b == b;
    } else {
      var head := if a[0].iso3.Some? then [a[0].iso3.value] else [];
      assert (a + b)[0] == a[0] && (a + b)[1..] == a[1..] + b;
      assert Codes(a + b) == head + Codes(a[1..] + b);
      CodesConcat(a[1..], b);
      assert Codes(a) == head + Codes(a[1..]);
    }
  }

  predicate Distinct(s: seq<string>) {
    forall i, j :: 0 <= i < j < |s| ==> s[i] != s[j]
  }

  /** The distinct elements of `s`, each where it first appears. */
  function Unique(s: seq<string>): (r: seq<string>)
    ensures forall c :: c in r <==> c in s
    ensures Distinct(r)
  {
    if s == [] then []
    else
      var u := Unique(s[..|s| - 1]);
      assert s == s[..|s| - 1] + [s[|s| - 1]];
      if s[|s| - 1] in u then u else u + [s[|s| - 1]]
  }

  /** The position where `c` first appears in `s`. */
  function FirstIndex(s: seq<string>, c: string): (i: nat)
    requires c in s
    ensures i < |s| && s[i] == c
    ensures forall j :: 0 <= j < i ==> s[j] != c
  {
    if s[0] == c then 0 else 1 + FirstIndex(s[1..], c)
  }

  lemma {:induction false} FirstIndexOfPrefix(p: seq<string>, x: string, c: string)
    requires c in p
    ensures FirstIndex(p + [x], c) == FirstIndex(p, c)
  {
    if p[0] != c {
      assert (p + [x])[1..] == p[1..] + [x];
      FirstIndexOfPrefix(p[1..], x, c);
    }
  }

  /** `Unique` lists elements in the order in which they first appear. */
  lemma {:induction false} UniqueKeepsFirstAppearanceOrder(s: seq<string>, i: nat, j: nat)
    requires i < j < |Unique(s)|
    ensures FirstIndex(s, Unique(s)[i]) < FirstIndex(s, Unique(s)[j])
  {
    var p, last := s[..|s| - 1], s[|s| - 1];
    assert s == p + [last];
    var u := Unique(p);
    assert Unique(s)[i] in p by {
      if i < |u| { assert Unique(s)[i] == u[i]; }
    }
    FirstIndexOfPrefix(p, last, Unique(s)[i]);
    if last in u || j < |u| {
      assert Unique(s)[i] == u[i] && Unique(s)[j] == u[j];
      FirstIndexOfPrefix(p, last, Unique(s)[j]);
      UniqueKeepsFirstAppearanceOrder(p, i, j);
    } else {
      assert Unique(s)[j] == last && last !in p;
      assert FirstIndex(s, last) == |s| - 1;
    }
  }

  /**
   * The countries a fallback generates for: the first five distinct
   * non-missing iso3 codes when the frame has an iso3 column and at least
   * one row, and the default five otherwise.
   */
  function FallbackCountries(df: Frame): (r: seq<string>)
    ensures |r| <= MaxFallbackCountries && Distinct(r)
    ensures Iso3 !in df.columns || df.rows == [] ==> r == DefaultCountries
    ensures Iso3 in df.columns && df.rows != [] ==>
      forall c :: c in r ==> exists x :: x in df.rows && x.iso3 == Some(c)
  {
    if Iso3 in df.columns && |df.rows| > 0 then
      var u := Unique(Codes(df.rows));
      if |u| <= MaxFallbackCountries then u else u[..MaxFallbackCountries]
    else
      DefaultCountries
  }

  /**
   * From the dataset, the fallback takes codes in order of first appearance,
   * and leaves a code out only when it already has five codes that all
   * appear earlier.
   */
  lemma FallbackCountriesAreFirstFive(df: Frame)
    requires Iso3 in df.columns && df.rows != []
    ensures var r, codes := FallbackCountries(df), Codes(df.rows);
      && (forall c :: c in r ==> c in codes)
      && (forall i, j :: 0 <= i < j < |r| ==> FirstIndex(codes, r[i]) < FirstIndex(codes, r[j]))
      && (forall c :: c in codes && c !in r ==>
            |r| == MaxFallbackCountries && FirstIndex(codes, r[|r| - 1]) < FirstIndex(codes, c))
  {
    var r, codes := FallbackCountries(df), Codes(df.rows);
    var u := Unique(codes);
    assert r == u[..|r|];
    forall i, j | 0 <= i < j < |r|
      ensures FirstIndex(codes, r[i]) < FirstIndex(codes, r[j])
    {
      UniqueKeepsFirstAppearanceOrder(codes, i, j);
    }
    forall c | c in codes && c !in r
      ensures |r| == MaxFallbackCountries && FirstIndex(codes, r[|r| - 1]) < FirstIndex(codes, c)
    {
      var k :| 0 <= k < |u| && u[k] == c;
      assert |u| > MaxFallbackCountries;
      assert k >= |r|;
      UniqueKeepsFirstAppearanceOrder(codes, |r| - 1, k);
    }
  }

  // ---------------------------------------------------------------------
  // The placeholder generator
  // ---------------------------------------------------------------------

  /**
   * The arguments of one call to the placeholder generator. The optional
   * keyword arguments that a caller leaves out are None.
   */
  datatype PlaceholderRequest = PlaceholderRequest(
    countries: seq<string>,
    years: seq<int>,
    baseValue: real,
    trend: Option<real>,
    variation: Option<real>,
    indicatorTypes: Option<seq<string>>)

  /**
   * The placeholder generator lives outside this model; every result below
   * holds for whatever frame it returns.
   */
  type Generator = PlaceholderRequest -> Frame

  /** The request a fallback makes for `df`: its fallback countries, 2015 to 2020, and the indicator's parameters. */
  function FallbackRequest(df: Frame, baseValue: real, trend: Option<real>, variation: Option<real>,
                           indicatorTypes: Option<seq<string>>): (r: PlaceholderRequest)
    ensures |r.countries| <= MaxFallbackCountries && Distinct(r.countries)
    ensures Iso3 !in df.columns || df.rows == [] ==> r.countries == DefaultCountries
    ensures Iso3 in df.columns && df.rows != [] ==>
      forall c :: c in r.countries ==> exists x :: x in df.rows && x.iso3 == Some(c)
    ensures |r.years| == 6 && forall i :: 0 <= i < |r.years| ==> r.years[i] == 2015 + i
    ensures r.baseValue == baseValue && r.trend == trend && r.variation == variation
    ensures r.indicatorTypes == indicatorTypes
  {
    PlaceholderRequest(FallbackCountries(df), PlaceholderYears, baseValue, trend, variation, indicatorTypes)
  }

  // ---------------------------------------------------------------------
  // Fixed country tables
  // ---------------------------------------------------------------------

  const CountryNames: map<string, string> := map[
    "USA" := "United States", "GBR" := "United Kingdom", "FRA" := "France",
    "DEU" := "Germany", "JPN" := "Japan"]

  const CountryRegions: map<string, string> := map[
    "USA" := "North America", "GBR" := "Europe", "FRA" := "Europe",
    "DEU" := "Europe", "JPN" := "Asia"]

  /** The display name of a code: from the table, or the code itself. */
  function NameOf(code: string): (name: string)
    ensures code !in CountryNames ==> name == code
    ensures code in DefaultCountries ==> code in CountryNames && name == CountryNames[code]
  {
    if code in CountryNames then CountryNames[code] else code
  }

  /** The region of a code: from the table, or "Unknown". */
  function RegionOf(code: string): (region: string)
    ensures code !in CountryRegions ==> region == "Unknown"
    ensures code in DefaultCountries ==> code in CountryRegions && region == CountryRegions[code]
  {
    if code in CountryRegions then CountryRegions[code] else "Unknown"
  }

  /** The display name of a possibly missing code; a missing code stays missing. */
  function NameCell(code: Option<string>): Option<string> {
    match code
    case Some(c) => Some(NameOf(c))
    case None => None
  }

  /**
   * `df["country_or_area"] = df["iso3"].map(name from table, else the code)`:
   * every row gets the display name of its own code, nothing else changes.
   */
  function WithCountryNames(f: Frame): (r: Frame)
    ensures r.columns == f.columns + {CountryOrArea}
    ensures |r.rows| == |f.rows|
    ensures forall i :: 0 <= i < |r.rows| ==>
      r.rows[i].countryOrArea == NameCell(f.rows[i].iso3)
      && r.rows[i].(countryOrArea := f.rows[i].countryOrArea) == f.rows[i]
  {
    Frame(f.columns + {CountryOrArea},
          seq(|f.rows|, i requires 0 <= i < |f.rows| => f.rows[i].(countryOrArea := NameCell(f.rows[i].iso3))))
  }
}
