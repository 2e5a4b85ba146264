/**
 * The metrics reported next to each chart: taken over the rows of the
 * latest year present only, skipping missing values as pandas does, and
 * all zero when the filtered data is empty.
 */
module Metrics {
  import opened Wrappers
  import opened Frames

  // ---------------------------------------------------------------------
  // Aggregates over present values
  // ---------------------------------------------------------------------

  /** The values of the rows that are not missing, in row order (`mean`, `max`, `min`, `sum` skip NaN). */
  function Present(rows: seq<Row>): (r: seq<real>)
    ensures |r| <= |rows|
    ensures forall v :: v in r <==> exists x :: x in rows && x.value == Some(v)
  {
    if rows == [] then []
    else (if rows[0].value.Some? then [rows[0].value.value] else []) + Present(rows[1..])
  }

  /** The present values keep row order and multiplicity: those of a concatenation are concatenated. */
  lemma {:induction false} PresentConcat(a: seq<Row>, b: seq<Row>)
    ensures Present(a + b) == Present(a) + Present(b)
  {
    if a == [] {
      assert a + b == b;
    } else {
      var head := if a[0].value.Some? then [a[0].value.value] else [];
      assert (a + b)[0] == a[0] && (a + b)[1..] == a[1..] + b;
      assert Present(a + b) == head + Present(a[1..] + b);
      PresentConcat(a[1..], b);
      assert Present(a) == head + Present(a[1..]);
    }
  }

  function Sum(s: seq<real>): real {
    if s == [] then 0.0 else s[0] + Sum(s[1..])
  }

  function MaxOf(s: seq<real>): (m: real)
    requires s != []
    ensures m in s && forall v :: v in s ==> v <= m
  {
    if |s| == 1 then s[0]
    else
      var rest := MaxOf(s[1..]);
      assert forall v :: v in s ==> v == s[0] || v in s[1..];
      if s[0] >= rest then s[0] else rest
  }

  function MinOf(s: seq<real>): (m: real)
    requires s != []
    ensures m in s && forall v :: v in s ==> m <= v
  {
    if |s| == 1 then s[0]
    else
      var rest := MinOf(s[1..]);
      assert forall v :: v in s ==> v == s[0] || v in s[1..];
      if s[0] <= rest then s[0] else rest
  }

  lemma {:induction false} SumAtLeast(s: seq<real>, lo: real)
    requires forall v :: v in s ==> lo <= v
    ensures |s| as real * lo <= Sum(s)
  {
    if s != [] {
      assert forall v :: v in s[1..] ==> v in s;
      SumAtLeast(s[1..], lo);
      assert s[0] in s;
      assert |s| as real * lo == (|s| - 1) as real * lo + lo;
    }
  }

  lemma {:induction false} SumAtMost(s: seq<real>, hi: real)
    requires forall v :: v in s ==> v <= hi
    ensures Sum(s) <= |s| as real * hi
  {
    if s != [] {
      assert forall v :: v in s[1..] ==> v in s;
      SumAtMost(s[1..], hi);
      assert s[0] in s;
      assert |s| as real * hi == (|s| - 1) as real * hi + hi;
    }
  }

  /** A total between n times lo and n times hi has its n-th part between lo and hi. */
  lemma PartBetween(total: real, n: real, lo: real, hi: real)
    requires n > 0.0 && n * lo <= total <= n * hi
    ensures lo <= total / n <= hi
  {
  }

  /** The arithmetic mean of the present values; NaN (None) when there are none. */
  function Mean(s: seq<real>): (r: Option<real>)
    ensures r.None? <==> s == []
    ensures r.Some? ==> r.value * |s| as real == Sum(s) && MinOf(s) <= r.value <= MaxOf(s)
  {
    if s == [] then None
    else
      var n := |s| as real;
      SumAtLeast(s, MinOf(s));
      SumAtMost(s, MaxOf(s));
      PartBetween(Sum(s), n, MinOf(s), MaxOf(s));
      Some(Sum(s) / n)
  }

  // ---------------------------------------------------------------------
  // The latest year
  // ---------------------------------------------------------------------

  /** `data["year"].max()`. */
  function MaxYear(rows: seq<Row>): (y: int)
    requires rows != []
    ensures exists x :: x in rows && x.year == y
    ensures forall x :: x in rows ==> x.year <= y
  {
    if |rows| == 1 then rows[0].year
    else
      var rest := MaxYear(rows[1..]);
      assert forall x :: x in rows ==> x == rows[0] || x in rows[1..];
      if rows[0].year >= rest then rows[0].year else rest
  }

  /** `data[data["year"] == latest_year]`: the rows of the latest year, in order; never empty. */
  function LatestRows(rows: seq<Row>): (r: seq<Row>)
    requires rows != []
    ensures r != []
    ensures forall x :: x in r <==> x in rows && x.year == MaxYear(rows)
  {
    var y := MaxYear(rows);
    var r := Where(rows, (x: Row) => x.year == y);
    assert exists x :: x in r;
    r
  }

  /**
   * Rows of earlier years, wherever they sit, never change which rows are
   * the latest: `keep` marks the other rows, and every row it drops is
   * older than the latest of those it keeps.
   */
  lemma LatestRowsIgnoreEarlierYears(all: seq<Row>, keep: Row -> bool)
    requires Where(all, keep) != []
    requires forall x :: x in all && !keep(x) ==> x.year < MaxYear(Where(all, keep))
    ensures MaxYear(all) == MaxYear(Where(all, keep))
    ensures LatestRows(all) == LatestRows(Where(all, keep))
  {
    var rows := Where(all, keep);
    var y := MaxYear(rows);
    var w :| w in rows && w.year == y;
    assert w in all;
    assert forall x :: x in all ==> x.year <= y by {
      forall x | x in all ensures x.year <= y {
        if keep(x) {
          assert x in rows;
        }
      }
    }
    assert MaxYear(all) == y;
    var latest := (x: Row) => x.year == y;
    WhereTwice(all, keep, latest);
    WhereSameMask(all, (x: Row) => keep(x) && latest(x), latest);
  }

  // ---------------------------------------------------------------------
  // Average, maximum and minimum
  // ---------------------------------------------------------------------

  /** Average, maximum and minimum value; a None field is NaN. */
  datatype Summary = Summary(average: Option<real>, maximum: Option<real>, minimum: Option<real>)

  /** The metrics shown when the filtered data is empty. */
  const NoDataSummary: Summary := Summary(Some(0.0), Some(0.0), Some(0.0))

  /** The present values of the rows of the latest year, in row order. */
  function LatestValues(rows: seq<Row>): (vs: seq<real>)
    requires rows != []
    ensures forall v :: v in vs <==> exists x :: x in rows && x.year == MaxYear(rows) && x.value == Some(v)
  {
    Present(LatestRows(rows))
  }

  /**
   * What a summary of values means: all NaN for no values, and otherwise
   * their largest and smallest value and their mean, which lies between
   * the two.
   */
  predicate SummarizesValues(s: Summary, vs: seq<real>) {
    && (vs == [] ==> s == Summary(None, None, None))
    && (vs != [] ==>
          && s.maximum.Some? && s.maximum.value in vs && (forall v :: v in vs ==> v <= s.maximum.value)
          && s.minimum.Some? && s.minimum.value in vs && (forall v :: v in vs ==> s.minimum.value <= v)
          && s.average.Some? && s.average.value * |vs| as real == Sum(vs)
          && s.minimum.value <= s.average.value <= s.maximum.value)
  }

  /** `mean()`, `max()` and `min()` of a value column. */
  function SummaryOf(vs: seq<real>): (s: Summary)
    ensures SummarizesValues(s, vs)
  {
    if vs == [] then Summary(None, None, None)
    else Summary(Mean(vs), Some(MaxOf(vs)), Some(MinOf(vs)))
  }

  /**
   * What the metrics of filtered rows mean: all zero for no rows, and
   * otherwise the summary of the latest year's present values.
   */
  predicate Describes(s: Summary, rows: seq<Row>) {
    if rows == [] then s == NoDataSummary else SummarizesValues(s, LatestValues(rows))
  }

  /** The average/maximum/minimum metrics of the filtered data. */
  function Summarize(rows: seq<Row>): (s: Summary)
    ensures Describes(s, rows)
  {
    if rows == [] then NoDataSummary else SummaryOf(LatestValues(rows))
  }

  lemma CancelFactor(a: real, b: real, n: real)
    requires n > 0.0 && a * n == b * n
    ensures a == b
  {
  }

  /** At most one summary summarises given values. */
  lemma SummarizesValuesIsUnique(s: Summary, t: Summary, vs: seq<real>)
    requires SummarizesValues(s, vs) && SummarizesValues(t, vs)
    ensures s == t
  {
    if vs != [] {
      var n := |vs| as real;
      assert s.average.value * n == Sum(vs) == t.average.value * n;
      assert s.maximum.value <= t.maximum.value <= s.maximum.value;
      assert s.minimum.value <= t.minimum.value <= s.minimum.value;
      CancelFactor(s.average.value, t.average.value, |vs| as real);
    }
  }

  /** At most one summary describes given rows: `Describes` pins the metrics down completely. */
  lemma DescribesIsUnique(s: Summary, t: Summary, rows: seq<Row>)
    requires Describes(s, rows) && Describes(t, rows)
    ensures s == t
  {
    if rows != [] {
      SummarizesValuesIsUnique(s, t, LatestValues(rows));
    }
  }

  /** Rows of earlier years, wherever they sit, leave the summary as it is. */
  lemma SummaryIgnoresEarlierYears(all: seq<Row>, keep: Row -> bool)
    requires Where(all, keep) != []
    requires forall x :: x in all && !keep(x) ==> x.year < MaxYear(Where(all, keep))
    ensures Summarize(all) == Summarize(Where(all, keep))
  {
    LatestRowsIgnoreEarlierYears(all, keep);
  }

  /** Years 2018 with values 10 and 20 and 2019 with value 30 summarise to 30, 30 and 30. */
  lemma LatestYearExample()
    ensures var a := Row(2018, Some("USA"), Some("United States"), None, None, None, Some(10.0));
      var b := Row(2018, Some("USA"), Some("United States"), None, None, None, Some(20.0));
      var c := Row(2019, Some("USA"), Some("United States"), None, None, None, Some(30.0));
      Summarize([a, b, c]) == Summary(Some(30.0), Some(30.0), Some(30.0))
  {
    var a := Row(2018, Some("USA"), Some("United States"), None, None, None, Some(10.0));
    var b := Row(2018, Some("USA"), Some("United States"), None, None, None, Some(20.0));
    var c := Row(2019, Some("USA"), Some("United States"), None, None, None, Some(30.0));
    var rows := [a, b, c];
    assert MaxYear(rows) == 2019;
    var keep := (x: Row) => x.year == 2019;
    assert Where(rows, keep) == [c] by {
      assert rows[1..] == [b, c] && rows[1..][1..] == [c];
    }
    assert LatestRows(rows) == [c];
    assert Present([c]) == [30.0];
    assert Sum([30.0]) == 30.0;
  }

  // ---------------------------------------------------------------------
  // Total, maximum and minimum
  // ---------------------------------------------------------------------

  /** Total, maximum and minimum value; a None field is NaN. */
  datatype VolumeSummary = VolumeSummary(total: real, maximum: Option<real>, minimum: Option<real>)

  const NoDataVolume: VolumeSummary := VolumeSummary(0.0, Some(0.0), Some(0.0))

  /**
   * What volume metrics of values mean: their total (zero when there are
   * none, as `sum()` of an all-NaN column) and, when there are values,
   * their largest and smallest one, between which the total lies once
   * divided by the number of values.
   */
  predicate TotalsValues(s: VolumeSummary, vs: seq<real>) {
    && s.total == Sum(vs)
    && (s.maximum.Some? <==> vs != []) && (s.minimum.Some? <==> vs != [])
    && (vs != [] ==>
          && s.maximum.value in vs && (forall v :: v in vs ==> v <= s.maximum.value)
          && s.minimum.value in vs && (forall v :: v in vs ==> s.minimum.value <= v)
          && |vs| as real * s.minimum.value <= s.total <= |vs| as real * s.maximum.value)
  }

  /** `sum()`, `max()` and `min()` of a value column. */
  function VolumeOf(vs: seq<real>): (s: VolumeSummary)
    ensures TotalsValues(s, vs)
  {
    if vs == [] then VolumeSummary(0.0, None, None)
    else
      SumAtLeast(vs, MinOf(vs));
      SumAtMost(vs, MaxOf(vs));
      VolumeSummary(Sum(vs), Some(MaxOf(vs)), Some(MinOf(vs)))
  }

  /** What the volume metrics of filtered rows mean: all zero for no rows, else those of the latest year's values. */
  predicate DescribesVolume(s: VolumeSummary, rows: seq<Row>) {
    if rows == [] then s == NoDataVolume else TotalsValues(s, LatestValues(rows))
  }

  /** The total/maximum/minimum metrics of the filtered data. */
  function SummarizeVolume(rows: seq<Row>): (s: VolumeSummary)
    ensures DescribesVolume(s, rows)
  {
    if rows == [] then NoDataVolume else VolumeOf(LatestValues(rows))
  }

  // ---------------------------------------------------------------------
  // Expenditure out-turn
  // ---------------------------------------------------------------------

  /** Average actual and intended spending of the latest year and the actual-to-intended percentage. */
  datatype OutturnMetrics = OutturnMetrics(avgActual: Option<real>, avgIntended: Option<real>, efficiency: Option<real>)

  /** The present values of the latest year's rows of one indicator type. */
  function LatestOfType(rows: seq<Row>, indicatorType: string): (vs: seq<real>)
    requires rows != []
    ensures forall v :: v in vs <==>
      exists x :: x in rows && x.year == MaxYear(rows) && x.indicatorType == Some(indicatorType) && x.value == Some(v)
  {
    Present(Where(LatestRows(rows), (x: Row) => x.indicatorType == Some(indicatorType)))
  }

  lemma PercentTimesWhole(part: real, whole: real)
    requires whole > 0.0
    ensures part / whole * 100.0 * whole == 100.0 * part
  {
  }

  /**
   * The efficiency: actual as a percentage of intended when the intended
   * average is positive (NaN when the actual one is), and 0 when the
   * intended average is NaN, zero or negative.
   */
  function Efficiency(avgActual: Option<real>, avgIntended: Option<real>): (e: Option<real>)
    ensures avgIntended.Some? && avgIntended.value > 0.0 ==>
      && (e.Some? <==> avgActual.Some?)
      && (e.Some? ==> e.value * avgIntended.value == 100.0 * avgActual.value)
    ensures !(avgIntended.Some? && avgIntended.value > 0.0) ==> e == Some(0.0)
  {
    if avgIntended.Some? && avgIntended.value > 0.0 then
      if avgActual.Some? then
        PercentTimesWhole(avgActual.value, avgIntended.value);
        Some(avgActual.value / avgIntended.value * 100.0)
      else None
    else Some(0.0)
  }

  /**
   * The out-turn metrics: nothing (an empty dict) for no rows; otherwise the
   * means of the latest year's Actual and Intended values and the
   * efficiency of the two.
   */
  function SummarizeOutturn(rows: seq<Row>): (m: Option<OutturnMetrics>)
    ensures m.None? <==> rows == []
    ensures m.Some? ==>
      && m.value.avgActual == Mean(LatestOfType(rows, "Actual"))
      && m.value.avgIntended == Mean(LatestOfType(rows, "Intended"))
      && m.value.efficiency == Efficiency(m.value.avgActual, m.value.avgIntended)
  {
    if rows == [] then None
    else
      var actual := Mean(LatestOfType(rows, "Actual"));
      var intended := Mean(LatestOfType(rows, "Intended"));
      Some(OutturnMetrics(actual, intended, Efficiency(actual, intended)))
  }
}
