/**
 * Expenditure quality: the dataset's rows for the three PEFA quality
 * indicators or, when there are none, one copy of the placeholder series
 * per indicator, each copy relabelled and the copies concatenated.
 */
module Quality {
  import opened Wrappers
  import opened Frames
  import opened Placeholders

  /** The three PEFA quality indicators, in the order the placeholder copies follow. */
  const QualityIndicators: seq<string> := [
    "PEFA: Expenditure composition outturn by function",
    "PEFA: Expenditure composition outturn by economic type",
    "PEFA: Expenditure from contingency reserves"]

  /** The placeholder request of the quality fallback: scores around 3 with a variation of 0.5. */
  function QualityRequest(df: Frame): PlaceholderRequest {
    FallbackRequest(df, 3.0, None, Some(0.5), None)
  }

  /** `pd.concat` of one relabelled copy of `p` per label, in label order, with a fresh index. */
  function Stacked(p: Frame, labels: seq<string>): (r: seq<Row>)
    ensures forall x :: x in r ==> x.indicatorLabel.Some? && x.indicatorLabel.value in labels
    decreases |labels|
  {
    if labels == [] then []
    else Stacked(p, labels[..|labels| - 1]) + WithLabel(p, labels[|labels| - 1]).rows
  }

  lemma BlockBound(k: nat, i: nat, n: nat, m: nat)
    requires k < n && i < m
    ensures k * m + i < n * m
  {
    assert k * m + i < (k + 1) * m;
    assert (k + 1) * m <= n * m;
  }

  /** The stack has one block of placeholder rows per label. */
  lemma {:induction false} StackedLength(p: Frame, labels: seq<string>)
    ensures |Stacked(p, labels)| == |labels| * |p.rows|
    decreases |labels|
  {
    if labels != [] {
      var n, m := |labels|, |p.rows|;
      StackedLength(p, labels[..n - 1]);
      assert (n - 1) * m + m == n * m;
    }
  }

  /** Row `i` of block `k` is placeholder row `i` with label `k` and nothing else changed. */
  lemma {:induction false} StackedEntry(p: Frame, labels: seq<string>, k: nat, i: nat)
    requires k < |labels| && i < |p.rows|
    ensures k * |p.rows| + i < |Stacked(p, labels)|
    ensures Stacked(p, labels)[k * |p.rows| + i] == p.rows[i].(indicatorLabel := Some(labels[k]))
    decreases |labels|
  {
    var n, m := |labels|, |p.rows|;
    var front := labels[..n - 1];
    StackedLength(p, front);
    var s, w := Stacked(p, front), WithLabel(p, labels[n - 1]).rows;
    assert Stacked(p, labels) == s + w;
    if k < n - 1 {
      BlockBound(k, i, n - 1, m);
      StackedEntry(p, front, k, i);
      assert front[k] == labels[k];
    } else {
      assert k * m + i == |s| + i;
    }
  }

  /** What the quality indicator returns for the dataset and the placeholder generator. */
  function ExpenditureQuality(df: Frame, gen: Generator): (r: Frame)
    ensures HasMatch(df, LabelIn(QualityIndicators)) ==> r == Select(df, LabelIn(QualityIndicators))
    ensures !HasMatch(df, LabelIn(QualityIndicators)) ==>
      var p := gen(QualityRequest(df));
      r.columns == p.columns + {IndicatorLabel} && r.rows == Stacked(p, QualityIndicators)
  {
    var found := Select(df, LabelIn(QualityIndicators));
    if |found.rows| > 0 then found
    else
      var p := gen(QualityRequest(df));
      Frame(p.columns + {IndicatorLabel}, Stacked(p, QualityIndicators))
  }

  /**
   * `calculate_expenditure_quality`: when nothing matches, the relabelled
   * copies of the placeholder series are collected one indicator at a time.
   */
  method CalculateExpenditureQuality(df: Frame, gen: Generator) returns (r: Frame)
    ensures r == ExpenditureQuality(df, gen)
  {
    var found := Select(df, LabelIn(QualityIndicators));
    if |found.rows| > 0 {
      return found;
    }
    var p := gen(QualityRequest(df));
    var data: seq<Row> := [];
    for k := 0 to |QualityIndicators|
      invariant data == Stacked(p, QualityIndicators[..k])
    {
      assert QualityIndicators[..k + 1][..k] == QualityIndicators[..k];
      data := data + WithLabel(p, QualityIndicators[k]).rows;
    }
    assert QualityIndicators[..|QualityIndicators|] == QualityIndicators;
    r := Frame(p.columns + {IndicatorLabel}, data);
  }

  /**
   * Whichever branch is taken, every returned row carries one of the three
   * quality labels; the fallback has three times as many rows as the
   * placeholder series.
   */
  lemma QualityRowsAreQualityIndicators(df: Frame, gen: Generator)
    ensures forall x :: x in ExpenditureQuality(df, gen).rows ==>
      x.indicatorLabel.Some? && x.indicatorLabel.value in QualityIndicators
    ensures !HasMatch(df, LabelIn(QualityIndicators)) ==>
      |ExpenditureQuality(df, gen).rows| == 3 * |gen(QualityRequest(df)).rows|
  {
    if !HasMatch(df, LabelIn(QualityIndicators)) {
      var p := gen(QualityRequest(df));
      StackedLength(p, QualityIndicators);
    }
  }
}
