/**
 * Indicators derived from two series: an inner join on
 * (year, country_or_area, iso3) followed by a division that yields a
 * missing value instead of failing when the denominator is not positive.
 */
module Derived {
  import opened Wrappers
  import opened Frames
  import opened Placeholders
  import Indicators

  /** How the joined values are combined. */
  datatype Relation =
    | Ratio       // numerator / denominator
    | Percentage  // numerator / denominator * 100

  function Scale(rel: Relation): real {
    if rel == Ratio then 1.0 else 100.0
  }

  /**
   * The derived value of one joined row: present only when both values are
   * present and the denominator is positive.
   */
  function SafeDivide(num: Option<real>, den: Option<real>, rel: Relation): (r: Option<real>)
    ensures r.Some? <==> num.Some? && den.Some? && den.value > 0.0
    ensures r.Some? ==> r.value * den.value == Scale(rel) * num.value
  {
    if num.Some? && den.Some? && den.value > 0.0 then
      var q := num.value / den.value;
      Some(if rel == Ratio then q else q * 100.0)
    else None
  }

  /** The join key: both rows are about the same year, country name and code. */
  predicate SameKey(a: Row, b: Row) {
    a.year == b.year && a.countryOrArea == b.countryOrArea && a.iso3 == b.iso3
  }

  /**
   * The output row for a numerator row `a` joined with a denominator row `b`:
   * the key and region of `a`, the given label, and the derived value.
   */
  function Combine(a: Row, b: Row, rel: Relation, text: Option<string>): (o: Row)
    ensures DerivedFrom(o, a, b, rel)
    ensures o.indicatorLabel == text && o.indicatorType == None
  {
    Row(a.year, a.iso3, a.countryOrArea, a.regionName, text, None, SafeDivide(a.value, b.value, rel))
  }

  /**
   * `o` is the row derived from numerator row `a` and denominator row `b`:
   * it has the numerator's key and region, and its value is
   * missing exactly when a value is missing or the denominator is not
   * positive, and is otherwise the scaled quotient.
   */
  predicate DerivedFrom(o: Row, a: Row, b: Row, rel: Relation) {
    && SameKey(o, a) && o.regionName == a.regionName
    && (o.value.None? <==> a.value.None? || b.value.None? || b.value.value <= 0.0)
    && (o.value.Some? ==> o.value.value * b.value.value == Scale(rel) * a.value.value)
  }

  /** The rows that numerator row `a` contributes: one per denominator row with the same key. */
  function JoinRow(a: Row, right: seq<Row>, rel: Relation, text: Option<string>): seq<Row> {
    if right == [] then []
    else (if SameKey(a, right[0]) then [Combine(a, right[0], rel, text)] else [])
         + JoinRow(a, right[1..], rel, text)
  }

  /** The denominator rows with the key of numerator row `a`, in order. */
  function Partners(a: Row, right: seq<Row>): seq<Row> {
    Where(right, (b: Row) => SameKey(a, b))
  }

  /** The number of (numerator, denominator) pairs with equal keys. */
  function PairCount(left: seq<Row>, right: seq<Row>): nat {
    if left == [] then 0 else |Partners(left[0], right)| + PairCount(left[1..], right)
  }

  /**
   * One numerator row contributes exactly one combined row per denominator
   * row with its key, in the denominator's order, and nothing else.
   */
  lemma {:induction false} JoinRowIsMaskedRight(a: Row, right: seq<Row>, rel: Relation, text: Option<string>)
    ensures var m := Partners(a, right);
      JoinRow(a, right, rel, text) == seq(|m|, k requires 0 <= k < |m| => Combine(a, m[k], rel, text))
  {
    if right != [] {
      var rest := right[1..];
      JoinRowIsMaskedRight(a, rest, rel, text);
      var m, m' := Partners(a, right), Partners(a, rest);
      var head := if SameKey(a, right[0]) then [right[0]] else [];
      assert m == head + m';
      assert JoinRow(a, right, rel, text)
          == (if SameKey(a, right[0]) then [Combine(a, right[0], rel, text)] else []) + JoinRow(a, rest, rel, text);
    }
  }

  /**
   * Inner join of `left` with `right`: numerator rows in order, each with
   * its matching denominator rows in order; one row per pair with equal keys.
   */
  function Join(left: seq<Row>, right: seq<Row>, rel: Relation, text: Option<string>): (r: seq<Row>)
    ensures |r| == PairCount(left, right)
  {
    if left == [] then []
    else
      JoinRowIsMaskedRight(left[0], right, rel, text);
      JoinRow(left[0], right, rel, text) + Join(left[1..], right, rel, text)
  }

  /** Joining a concatenation of numerator rows concatenates their joins: the numerator's order is kept. */
  lemma {:induction false} JoinConcat(l1: seq<Row>, l2: seq<Row>, right: seq<Row>, rel: Relation, text: Option<string>)
    ensures Join(l1 + l2, right, rel, text) == Join(l1, right, rel, text) + Join(l2, right, rel, text)
  {
    if l1 == [] {
      assert l1 + l2 == l2;
    } else {
      assert (l1 + l2)[0] == l1[0] && (l1 + l2)[1..] == l1[1..] + l2;
      JoinConcat(l1[1..], l2, right, rel, text);
    }
  }

  lemma {:induction false} JoinRowSound(a: Row, right: seq<Row>, rel: Relation, text: Option<string>, o: Row)
    requires o in JoinRow(a, right, rel, text)
    ensures exists j :: 0 <= j < |right| && SameKey(a, right[j]) && o == Combine(a, right[j], rel, text)
  {
    if o !in (if SameKey(a, right[0]) then [Combine(a, right[0], rel, text)] else []) {
      JoinRowSound(a, right[1..], rel, text, o);
      var j :| 0 <= j < |right[1..]| && SameKey(a, right[1..][j]) && o == Combine(a, right[1..][j], rel, text);
      assert right[1..][j] == right[j + 1];
    }
  }

  lemma {:induction false} JoinRowComplete(a: Row, right: seq<Row>, rel: Relation, text: Option<string>, j: nat)
    requires j < |right| && SameKey(a, right[j])
    ensures Combine(a, right[j], rel, text) in JoinRow(a, right, rel, text)
  {
    if j > 0 {
      JoinRowComplete(a, right[1..], rel, text, j - 1);
    }
  }

  /** Every joined row comes from a numerator row and a denominator row with the same key. */
  lemma {:induction false} JoinSound(left: seq<Row>, right: seq<Row>, rel: Relation, text: Option<string>, o: Row)
    requires o in Join(left, right, rel, text)
    ensures exists i, j :: 0 <= i < |left| && 0 <= j < |right| && SameKey(left[i], right[j])
                          && o == Combine(left[i], right[j], rel, text)
  {
    if o in JoinRow(left[0], right, rel, text) {
      JoinRowSound(left[0], right, rel, text, o);
      var j :| 0 <= j < |right| && SameKey(left[0], right[j]) && o == Combine(left[0], right[j], rel, text);
    } else {
      JoinSound(left[1..], right, rel, text, o);
      var i, j :| 0 <= i < |left[1..]| && 0 <= j < |right| && SameKey(left[1..][i], right[j])
                  && o == Combine(left[1..][i], right[j], rel, text);
      assert left[1..][i] == left[i + 1];
    }
  }

  /** Every pair of a numerator row and a denominator row with the same key yields a joined row. */
  lemma {:induction false} JoinComplete(left: seq<Row>, right: seq<Row>, rel: Relation, text: Option<string>,
                                        i: nat, j: nat)
    requires i < |left| && j < |right| && SameKey(left[i], right[j])
    ensures Combine(left[i], right[j], rel, text) in Join(left, right, rel, text)
  {
    if i == 0 {
      JoinRowComplete(left[0], right, rel, text, j);
    } else {
      JoinComplete(left[1..], right, rel, text, i - 1, j);
    }
  }

  /** The columns a merged frame keeps: the key, the numerator's region and the derived value. */
  const MergedColumns: set<Column> := {Year, CountryOrArea, Iso3, RegionName, Value}

  const ActualTax: Matcher := LabelIs(Indicators.TaxRevenueLabel)
  const PotentialTax: Matcher := LabelIs("Tax Revenue - % of GDP - Capacity")

  /**
   * Tax effort: when both actual and potential tax revenue rows exist, their
   * inner join with actual / potential as the value; otherwise placeholders
   * around 0.8 with 10% variation.
   */
  function CalculateTaxEffortRatio(df: Frame, gen: Generator): (r: Frame)
    ensures HasMatch(df, ActualTax) && HasMatch(df, PotentialTax) ==>
      r == Frame(MergedColumns, Join(Select(df, ActualTax).rows, Select(df, PotentialTax).rows, Ratio, None))
    ensures !(HasMatch(df, ActualTax) && HasMatch(df, PotentialTax)) ==>
      r == gen(FallbackRequest(df, 0.8, None, Some(0.1), None))
  {
    var actual, potential := Select(df, ActualTax), Select(df, PotentialTax);
    if |actual.rows| > 0 && |potential.rows| > 0 then
      Frame(MergedColumns, Join(actual.rows, potential.rows, Ratio, None))
    else
      gen(FallbackRequest(df, 0.8, None, Some(0.1), None))
  }

  /**
   * Joining the rows that match `num` with the rows that match `den` is an
   * inner join, in one direction: every output row comes from a pair of such
   * rows with equal keys.
   */
  lemma SelectedJoinSound(df: Frame, num: Matcher, den: Matcher, rel: Relation, text: Option<string>, o: Row)
    requires o in Join(Select(df, num).rows, Select(df, den).rows, rel, text)
    ensures exists a, b :: (a in df.rows && b in df.rows
      && Matches(num, a.indicatorLabel) && Matches(den, b.indicatorLabel)
      && SameKey(a, b) && o == Combine(a, b, rel, text))
  {
    var left, right := Select(df, num).rows, Select(df, den).rows;
    JoinSound(left, right, rel, text, o);
    var i, j :| 0 <= i < |left| && 0 <= j < |right| && SameKey(left[i], right[j])
                && o == Combine(left[i], right[j], rel, text);
    assert left[i] in left && right[j] in right;
  }

  /**
   * Joining the rows that match `num` with the rows that match `den` is an
   * inner join, in the other direction: every pair of such rows with equal
   * keys yields an output row.
   */
  lemma SelectedJoinComplete(df: Frame, num: Matcher, den: Matcher, rel: Relation, text: Option<string>,
                             a: Row, b: Row)
    requires a in df.rows && b in df.rows && SameKey(a, b)
    requires Matches(num, a.indicatorLabel) && Matches(den, b.indicatorLabel)
    ensures Combine(a, b, rel, text) in Join(Select(df, num).rows, Select(df, den).rows, rel, text)
  {
    var left, right := Select(df, num).rows, Select(df, den).rows;
    assert a in left && b in right;
    var i :| 0 <= i < |left| && left[i] == a;
    var j :| 0 <= j < |right| && right[j] == b;
    JoinComplete(left, right, rel, text, i, j);
  }

  /**
   * Every tax effort row computed from the dataset pairs an actual and a
   * potential row with the same key; its value is missing exactly when one
   * value is missing or the potential is not positive, and is otherwise
   * actual / potential.
   */
  lemma TaxEffortRatioRows(df: Frame, gen: Generator, o: Row)
    requires HasMatch(df, ActualTax) && HasMatch(df, PotentialTax)
    requires o in CalculateTaxEffortRatio(df, gen).rows
    ensures exists a, p :: (a in df.rows && p in df.rows
      && a.indicatorLabel == Some(Indicators.TaxRevenueLabel)
      && p.indicatorLabel == Some("Tax Revenue - % of GDP - Capacity")
      && SameKey(a, p) && DerivedFrom(o, a, p, Ratio))
  {
    SelectedJoinSound(df, ActualTax, PotentialTax, Ratio, None, o);
    var a, p :| a in df.rows && p in df.rows
      && Matches(ActualTax, a.indicatorLabel) && Matches(PotentialTax, p.indicatorLabel)
      && SameKey(a, p) && o == Combine(a, p, Ratio, None);
  }

  const GdpLabel: string := "GDP (current US$)"
  const IffsAsGdpLabel: string := "IFFs as % of GDP"

  /**
   * Illicit flows as a share of GDP: when both flow and GDP rows exist,
   * their inner join with 100 * flows / GDP as the value and the label
   * "IFFs as % of GDP"; otherwise placeholders around 2 with a 10% trend,
   * given that label, and given the region "Unknown" when the generator
   * gave no region column.
   */
  function CalculateIffsAsGdpPercentage(df: Frame, gen: Generator): (r: Frame)
    ensures HasMatch(df, LabelIs(Indicators.IffLabel)) && HasMatch(df, LabelIs(GdpLabel)) ==>
      r == Frame(MergedColumns + {IndicatorLabel},
                 Join(Select(df, LabelIs(Indicators.IffLabel)).rows, Select(df, LabelIs(GdpLabel)).rows,
                      Percentage, Some(IffsAsGdpLabel)))
    ensures !(HasMatch(df, LabelIs(Indicators.IffLabel)) && HasMatch(df, LabelIs(GdpLabel))) ==>
      var p := gen(FallbackRequest(df, 2.0, Some(0.1), None, None));
      && RegionName in r.columns
      && r == (if RegionName in p.columns then WithLabel(p, IffsAsGdpLabel)
               else WithRegion(WithLabel(p, IffsAsGdpLabel), "Unknown"))
  {
    var iffs, gdp := Select(df, LabelIs(Indicators.IffLabel)), Select(df, LabelIs(GdpLabel));
    if |iffs.rows| > 0 && |gdp.rows| > 0 then
      Frame(MergedColumns + {IndicatorLabel}, Join(iffs.rows, gdp.rows, Percentage, Some(IffsAsGdpLabel)))
    else
      var p := gen(FallbackRequest(df, 2.0, Some(0.1), None, None));
      var labelled := WithLabel(p, IffsAsGdpLabel);
      if RegionName !in p.columns then WithRegion(labelled, "Unknown") else labelled
  }

  /** Whichever way it is produced, every row of the IFF share carries the label "IFFs as % of GDP". */
  lemma IffsAsGdpPercentageIsLabelled(df: Frame, gen: Generator)
    ensures var r := CalculateIffsAsGdpPercentage(df, gen);
      forall o :: o in r.rows ==> o.indicatorLabel == Some(IffsAsGdpLabel)
  {
    var r := CalculateIffsAsGdpPercentage(df, gen);
    var iffs, gdp := Select(df, LabelIs(Indicators.IffLabel)), Select(df, LabelIs(GdpLabel));
    forall o | o in r.rows ensures o.indicatorLabel == Some(IffsAsGdpLabel) {
      if |iffs.rows| > 0 && |gdp.rows| > 0 {
        JoinSound(iffs.rows, gdp.rows, Percentage, Some(IffsAsGdpLabel), o);
      } else {
        var i :| 0 <= i < |r.rows| && r.rows[i] == o;
      }
    }
  }

  /**
   * Every IFF share row computed from the dataset pairs a flow row and a
   * GDP row with the same key; its value is missing exactly when one value
   * is missing or GDP is not positive, and is otherwise flows / GDP * 100.
   */
  lemma IffsAsGdpPercentageRows(df: Frame, gen: Generator, o: Row)
    requires HasMatch(df, LabelIs(Indicators.IffLabel)) && HasMatch(df, LabelIs(GdpLabel))
    requires o in CalculateIffsAsGdpPercentage(df, gen).rows
    ensures exists a, g :: (a in df.rows && g in df.rows
      && a.indicatorLabel == Some(Indicators.IffLabel) && g.indicatorLabel == Some(GdpLabel)
      && SameKey(a, g) && DerivedFrom(o, a, g, Percentage))
  {
    SelectedJoinSound(df, LabelIs(Indicators.IffLabel), LabelIs(GdpLabel), Percentage, Some(IffsAsGdpLabel), o);
    var a, g :| a in df.rows && g in df.rows
      && Matches(LabelIs(Indicators.IffLabel), a.indicatorLabel) && Matches(LabelIs(GdpLabel), g.indicatorLabel)
      && SameKey(a, g) && o == Combine(a, g, Percentage, Some(IffsAsGdpLabel));
  }

  /** Flows of 10 against a GDP of 200 for the same country and year give a share of 5 percent. */
  lemma IffsShareExample(gen: Generator)
    ensures var flows := Row(2020, Some("USA"), Some("United States"), Some("Americas"),
                             Some(Indicators.IffLabel), None, Some(10.0));
            var gdp := Row(2020, Some("USA"), Some("United States"), Some("Americas"),
                           Some(GdpLabel), None, Some(200.0));
            var df := Frame({Year, Iso3, CountryOrArea, RegionName, IndicatorLabel, Value}, [flows, gdp]);
            CalculateIffsAsGdpPercentage(df, gen).rows
              == [Row(2020, Some("USA"), Some("United States"), Some("Americas"),
                      Some(IffsAsGdpLabel), None, Some(5.0))]
  {
    var flows := Row(2020, Some("USA"), Some("United States"), Some("Americas"),
                     Some(Indicators.IffLabel), None, Some(10.0));
    var gdp := Row(2020, Some("USA"), Some("United States"), Some("Americas"),
                   Some(GdpLabel), None, Some(200.0));
    var df := Frame({Year, Iso3, CountryOrArea, RegionName, IndicatorLabel, Value}, [flows, gdp]);
    assert |Indicators.IffLabel| != |GdpLabel|;
    assert [flows, gdp][1..] == [gdp];
    assert Where([gdp], (x: Row) => Matches(LabelIs(Indicators.IffLabel), x.indicatorLabel)) == [];
    assert Where([flows, gdp], (x: Row) => Matches(LabelIs(GdpLabel), x.indicatorLabel)) == [gdp];
    assert Select(df, LabelIs(Indicators.IffLabel)).rows == [flows];
    assert Select(df, LabelIs(GdpLabel)).rows == [gdp];
    assert HasMatch(df, LabelIs(Indicators.IffLabel)) && HasMatch(df, LabelIs(GdpLabel)) by {
      assert flows in df.rows && gdp in df.rows;
    }
    assert JoinRow(flows, [gdp], Percentage, Some(IffsAsGdpLabel)) == [Combine(flows, gdp, Percentage, Some(IffsAsGdpLabel))];
    assert Join([flows], [gdp], Percentage, Some(IffsAsGdpLabel)) == [Combine(flows, gdp, Percentage, Some(IffsAsGdpLabel))];
    assert SafeDivide(Some(10.0), Some(200.0), Percentage) == Some(5.0);
  }
}
