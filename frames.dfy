/**
 * Data frames of indicator observations, boolean-mask selection, label
 * matching, and whole-column assignment.
 */
module Frames {
  import opened Wrappers

  /** The columns of the indicator dataset that the pipeline reads or writes. */
  datatype Column = Year | Iso3 | CountryOrArea | RegionName | IndicatorLabel | IndicatorType | Value

  /**
   * One observation. A cell that is missing, either NaN or absent because
   * the frame has no such column, is None.
   */
  datatype Row = Row(
    year: int,
    iso3: Option<string>,
    countryOrArea: Option<string>,
    regionName: Option<string>,
    indicatorLabel: Option<string>,
    indicatorType: Option<string>,
    value: Option<real>)

  /** A data frame: the set of columns it has and its rows in order. */
  datatype Frame = Frame(columns: set<Column>, rows: seq<Row>)

  // ---------------------------------------------------------------------
  // Boolean masks
  // ---------------------------------------------------------------------

  /** The rows of `rows` for which `keep` holds, in their original order. */
  function Where(rows: seq<Row>, keep: Row -> bool): (r: seq<Row>)
    ensures |r| <= |rows|
    ensures forall x :: x in r <==> x in rows && keep(x)
  {
    if rows == [] then []
    else (if keep(rows[0]) then [rows[0]] else []) + Where(rows[1..], keep)
  }

  /** A mask over a concatenation is the concatenation of the masks: order is kept. */
  lemma {:induction false} WhereConcat(a: seq<Row>, b: seq<Row>, keep: Row -> bool)
    ensures Where(a + b, keep) == Where(a, keep) + Where(b, keep)
  {
    if a == [] {
      assert a + b == b;
    } else {
      assert (a + b)[0] == a[0];
      assert (a + b)[1..] == a[1..] + b;
      WhereConcat(a[1..], b, keep);
    }
  }

  /** A mask that every row passes returns the rows unchanged. */
  lemma {:induction false} WhereKeepsAll(rows: seq<Row>, keep: Row -> bool)
    requires forall x :: x in rows ==> keep(x)
    ensures Where(rows, keep) == rows
  {
    if rows != [] {
      assert forall x :: x in rows[1..] ==> x in rows;
      WhereKeepsAll(rows[1..], keep);
    }
  }

  /** A mask that no row passes returns nothing. */
  lemma {:induction false} WhereKeepsNone(rows: seq<Row>, keep: Row -> bool)
    requires forall x :: x in rows ==> !keep(x)
    ensures Where(rows, keep) == []
  {
    if rows != [] {
      assert forall x :: x in rows[1..] ==> x in rows;
      WhereKeepsNone(rows[1..], keep);
    }
  }

  /** A row either passes a mask or its complement: together they are a permutation of the rows. */
  lemma {:induction false} WherePartition(rows: seq<Row>, keep: Row -> bool)
    ensures multiset(Where(rows, keep)) + multiset(Where(rows, (x: Row) => !keep(x))) == multiset(rows)
  {
    if rows != [] {
      var drop := (x: Row) => !keep(x);
      var head := [rows[0]];
      WherePartition(rows[1..], keep);
      assert rows == head + rows[1..];
      if keep(rows[0]) {
        assert Where(rows, keep) == head + Where(rows[1..], keep);
        assert Where(rows, drop) == Where(rows[1..], drop);
      } else {
        assert Where(rows, keep) == Where(rows[1..], keep);
        assert Where(rows, drop) == head + Where(rows[1..], drop);
      }
    }
  }

  /** Applying two masks in stages is the same as applying their conjunction once. */
  lemma {:induction false} WhereTwice(rows: seq<Row>, p: Row -> bool, q: Row -> bool)
    ensures Where(Where(rows, p), q) == Where(rows, (x: Row) => p(x) && q(x))
  {
    if rows != [] {
      WhereTwice(rows[1..], p, q);
      if p(rows[0]) {
        assert Where(rows, p) == [rows[0]] + Where(rows[1..], p);
        assert Where(rows, p)[1..] == Where(rows[1..], p);
      } else {
        assert Where(rows, p) == Where(rows[1..], p);
      }
    }
  }

  /** Masks that agree on every row select the same rows. */
  lemma {:induction false} WhereSameMask(rows: seq<Row>, p: Row -> bool, q: Row -> bool)
    requires forall x :: x in rows ==> p(x) == q(x)
    ensures Where(rows, p) == Where(rows, q)
  {
    if rows != [] {
      assert forall x :: x in rows[1..] ==> x in rows;
      WhereSameMask(rows[1..], p, q);
    }
  }

  // ---------------------------------------------------------------------
  // Label matching
  // ---------------------------------------------------------------------

  /** ASCII lower-casing of one character. */
  function Lower(c: char): char {
    if 'A' <= c <= 'Z' then (c as int - 'A' as int + 'a' as int) as char else c
  }

  /** ASCII upper-casing of one character. */
  function Upper(c: char): char {
    if 'a' <= c <= 'z' then (c as int - 'a' as int + 'A' as int) as char else c
  }

  function LowerString(s: string): string {
    seq(|s|, i requires 0 <= i < |s| => Lower(s[i]))
  }

  function UpperString(s: string): string {
    seq(|s|, i requires 0 <= i < |s| => Upper(s[i]))
  }

  /** `pattern` occurs in `text` starting at position `i`. */
  predicate OccursAt(text: string, pattern: string, i: int) {
    0 <= i <= |text| - |pattern| && text[i..i + |pattern|] == pattern
  }

  /** `pattern` occurs somewhere in `text` as a contiguous piece. */
  predicate Contains(text: string, pattern: string) {
    exists i :: 0 <= i <= |text| - |pattern| && OccursAt(text, pattern, i)
  }

  /** Every character of `pattern` equals, up to case, the character of `text` it lies over when placed at `i`. */
  predicate FoldedAt(text: string, pattern: string, i: int) {
    && 0 <= i <= |text| - |pattern|
    && forall k :: 0 <= k < |pattern| ==> Lower(text[i + k]) == Lower(pattern[k])
  }

  lemma FoldedAtIsOccurrence(text: string, pattern: string, i: int)
    ensures OccursAt(LowerString(text), LowerString(pattern), i) <==> FoldedAt(text, pattern, i)
  {
    if 0 <= i <= |text| - |pattern| {
      var piece := LowerString(text)[i..i + |pattern|];
      assert forall k :: 0 <= k < |pattern| ==> piece[k] == Lower(text[i + k]);
      assert forall k :: 0 <= k < |pattern| ==> LowerString(pattern)[k] == Lower(pattern[k]);
      if FoldedAt(text, pattern, i) {
        assert piece == LowerString(pattern);
      }
    }
  }

  /**
   * A substring search that ignores the case of letters: the pattern lies
   * over some stretch of the text, character by character up to case. The
   * empty pattern is found in every text and a longer pattern in none.
   */
  function ContainsIgnoringCase(text: string, pattern: string): (b: bool)
    ensures b <==> exists i :: FoldedAt(text, pattern, i)
    ensures pattern == [] ==> b
    ensures |pattern| > |text| ==> !b
  {
    forall i ensures OccursAt(LowerString(text), LowerString(pattern), i) <==> FoldedAt(text, pattern, i) {
      FoldedAtIsOccurrence(text, pattern, i);
    }
    assert pattern == [] ==> FoldedAt(text, pattern, 0);
    Contains(LowerString(text), LowerString(pattern))
  }

  /** Changing the case of the label changes nothing about whether it matches. */
  lemma CaseOfLabelIsIgnored(text: string, pattern: string)
    ensures ContainsIgnoringCase(UpperString(text), pattern) == ContainsIgnoringCase(text, pattern)
    ensures ContainsIgnoringCase(LowerString(text), pattern) == ContainsIgnoringCase(text, pattern)
  {
    assert LowerString(UpperString(text)) == LowerString(text);
    assert LowerString(LowerString(text)) == LowerString(text);
  }

  /** How an indicator picks out its rows by label. */
  datatype Matcher =
    | LabelIs(text: string)          // the label equals a fixed string
    | LabelContains(pattern: string)  // the label contains a pattern, ignoring case
    | LabelIn(labels: seq<string>)    // the label is one of a list

  /** Whether a label cell satisfies the matcher; a missing label never does. */
  predicate Matches(m: Matcher, cell: Option<string>) {
    match m
    case LabelIs(l) => cell == Some(l)
    case LabelContains(p) => cell.Some? && ContainsIgnoringCase(cell.value, p)
    case LabelIn(ls) => cell.Some? && cell.value in ls
  }

  predicate HasMatch(df: Frame, m: Matcher) {
    exists x :: x in df.rows && Matches(m, x.indicatorLabel)
  }

  /** The rows whose label satisfies `m`, unchanged and in input order, with every column kept. */
  function Select(df: Frame, m: Matcher): (r: Frame)
    ensures r.columns == df.columns
    ensures forall x :: x in r.rows <==> x in df.rows && Matches(m, x.indicatorLabel)
    ensures forall x :: x in r.rows ==> x.indicatorLabel.Some?
    ensures r.rows == [] <==> !HasMatch(df, m)
  {
    var kept := Where(df.rows, (x: Row) => Matches(m, x.indicatorLabel));
    assert kept != [] ==> kept[0] in kept;
    Frame(df.columns, kept)
  }

  // ---------------------------------------------------------------------
  // Whole-column assignment
  // ---------------------------------------------------------------------

  /** `df["indicator_label"] = text`: every row gets the label, nothing else changes. */
  function WithLabel(f: Frame, text: string): (r: Frame)
    ensures r.columns == f.columns + {IndicatorLabel}
    ensures |r.rows| == |f.rows|
    ensures forall i :: 0 <= i < |r.rows| ==>
      r.rows[i].indicatorLabel == Some(text) && r.rows[i].(indicatorLabel := f.rows[i].indicatorLabel) == f.rows[i]
  {
    Frame(f.columns + {IndicatorLabel},
          seq(|f.rows|, i requires 0 <= i < |f.rows| => f.rows[i].(indicatorLabel := Some(text))))
  }

  /** `df["region_name"] = region`: every row gets the region, nothing else changes. */
  function WithRegion(f: Frame, region: string): (r: Frame)
    ensures r.columns == f.columns + {RegionName}
    ensures |r.rows| == |f.rows|
    ensures forall i :: 0 <= i < |r.rows| ==>
      r.rows[i].regionName == Some(region) && r.rows[i].(regionName := f.rows[i].regionName) == f.rows[i]
  {
    Frame(f.columns + {RegionName},
          seq(|f.rows|, i requires 0 <= i < |f.rows| => f.rows[i].(regionName := Some(region))))
  }
}
