/** Evaluation numbers: retrieval counters over a dataset, and interpolated percentiles. */
module Metrics {
  import opened Json
  import opened Planner

  // ---------- Retrieval counters ----------

  /** The ids a row expects and the ids retrieved for it, best first. */
  datatype Row = Row(expected: seq<int>, retrieved: seq<int>)
  datatype Stats = Stats(scored: nat, recall: nat, top1: nat, mrr: real)

  const NO_STATS := Stats(0, 0, 0, 0.0)

  predicate HitAt(row: Row, i: nat) {
    i < 5 && i < |row.retrieved| && row.retrieved[i] in row.expected
  }

  /** The first of the five best that is expected. */
  function FirstHit(row: Row, from: nat): (i: Option<nat>)
    requires from <= 5
    ensures i.Some? ==> from <= i.value && HitAt(row, i.value) && forall j | from <= j < i.value :: !HitAt(row, j)
    ensures i.None? ==> forall j | from <= j :: !HitAt(row, j)
    decreases 5 - from
  {
    if from == 5 then None else if HitAt(row, from) then Some(from) else FirstHit(row, from + 1)
  }

  function Scored(s: Stats, row: Row): Stats {
    if row.expected == [] then s
    else
      var hit := FirstHit(row, 0);
      Stats(s.scored + 1,
            s.recall + if hit.Some? then 1 else 0,
            s.top1 + if HitAt(row, 0) then 1 else 0,
            s.mrr + if hit.Some? then 1.0 / (hit.value + 1) as real else 0.0)
  }

  function Evaluated(rows: seq<Row>): Stats {
    if rows == [] then NO_STATS else Scored(Evaluated(rows[..|rows| - 1]), rows[|rows| - 1])
  }

  class EvalStats {
    var faq_scored: nat
    var recall_at_5: nat
    var top1: nat
    var mrr_sum: real

    constructor ()
      ensures ToStats() == NO_STATS
    {
      faq_scored, recall_at_5, top1, mrr_sum := 0, 0, 0, 0.0;
    }

    function ToStats(): Stats
      reads this
    {
      Stats(faq_scored, recall_at_5, top1, mrr_sum)
    }

    /** The retrieval part of `score_row`. */
    method ScoreRow(row: Row)
      modifies this
      ensures ToStats() == Scored(old(ToStats()), row)
      ensures row.expected == [] ==> ToStats() == old(ToStats())
      ensures row.expected != [] ==>
                && faq_scored == old(faq_scored) + 1
                && top1 == old(top1) + (if row.retrieved != [] && row.retrieved[0] in row.expected then 1 else 0)
                && (forall i | 0 <= i < 5 && i < |row.retrieved| && row.retrieved[i] in row.expected
                               && forall j | 0 <= j < i :: row.retrieved[j] !in row.expected ::
                      recall_at_5 == old(recall_at_5) + 1 && mrr_sum == old(mrr_sum) + 1.0 / (i + 1) as real)
                && ((forall i | 0 <= i < 5 && i < |row.retrieved| :: row.retrieved[i] !in row.expected) ==>
                      recall_at_5 == old(recall_at_5) && mrr_sum == old(mrr_sum))
    {
      if row.expected == [] { return; }
      faq_scored := faq_scored + 1;
      var positions: seq<nat> := [];
      var i := 0;
      while i < 5 && i < |row.retrieved|
        invariant 0 <= i <= 5 && i <= |row.retrieved|
        invariant positions == [] ==> FirstHit(row, 0) == FirstHit(row, i)
        invariant positions != [] ==> positions[0] > 0 && FirstHit(row, 0) == Some(positions[0] - 1)
      {
        if row.retrieved[i] in row.expected { positions := positions + [i + 1]; }
        i := i + 1;
      }
      if positions != [] {
        recall_at_5 := recall_at_5 + 1;
        mrr_sum := mrr_sum + 1.0 / positions[0] as real;
      }
      if row.retrieved != [] && row.retrieved[0] in row.expected {
        top1 := top1 + 1;
      }
    }

    method EvaluateDataset(rows: seq<Row>)
      requires ToStats() == NO_STATS
      modifies this
      ensures ToStats() == Evaluated(rows)
    {
      var i := 0;
      while i < |rows|
        invariant 0 <= i <= |rows| && ToStats() == Evaluated(rows[..i])
      {
        ScoreRow(rows[i]);
        assert rows[..i + 1][..i] == rows[..i];
        i := i + 1;
      }
      assert rows[..i] == rows;
    }
  }

  /** For every dataset: first-place hits never exceed the reciprocal ranks, these never the hits,
      these never the scored rows; and the ranks reach the hits exactly when every hit is a
      first-place hit. */
  lemma {:induction false} MetricsAreOrdered(rows: seq<Row>)
    ensures var s := Evaluated(rows);
            && s.top1 as real <= s.mrr <= s.recall as real <= s.scored as real
            && (s.mrr == s.recall as real <==> s.top1 == s.recall)
  {
    if rows != [] { MetricsAreOrdered(rows[..|rows| - 1]); }
  }

  // ---------- Percentiles ----------

  predicate Sorted(values: seq<real>) {
    forall i, j | 0 <= i <= j < |values| :: values[i] <= values[j]
  }

  /** `a * (1 - w) + b * w`. */
  function Between(a: real, b: real, w: real): real {
    a * (1.0 - w) + b * w
  }

  function Rank(n: nat, p: nat): real
    requires n > 0
  {
    (n - 1) as real * p as real / 100.0
  }

  /** `percentile`, on a sorted list, for whole percentages. */
  function Percentile(values: seq<real>, p: nat): Outcome<real>
    requires p <= 100
  {
    if values == [] then Raise("empty values")
    else if |values| == 1 then Ok(values[0])
    else
      RankInRange(|values|, p);
      var lower := Rank(|values|, p).Floor;
      var upper := if lower + 1 < |values| - 1 then lower + 1 else |values| - 1;
      Ok(Between(values[lower], values[upper], Rank(|values|, p) - lower as real))
  }

  lemma RankInRange(n: nat, p: nat)
    requires n > 0 && p <= 100
    ensures 0.0 <= Rank(n, p) <= (n - 1) as real && 0 <= Rank(n, p).Floor < n
  {
  }

  lemma NonNegative(x: real, y: real)
    requires x >= 0.0 && y >= 0.0
    ensures x * y >= 0.0
  {
  }

  lemma BetweenBounds(a: real, b: real, w: real)
    requires a <= b && 0.0 <= w <= 1.0
    ensures a <= Between(a, b, w) <= b
  {
    assert Between(a, b, w) == a + (b - a) * w;
    NonNegative(b - a, w);
    NonNegative(b - a, 1.0 - w);
  }

  lemma BetweenMonotone(a: real, b: real, w: real, w': real)
    requires a <= b && w <= w'
    ensures Between(a, b, w) <= Between(a, b, w')
  {
  }

  lemma PercentileInCell(values: seq<real>, p: nat)
    requires |values| > 1 && p <= 100 && Sorted(values)
    ensures var lower := Rank(|values|, p).Floor;
            && 0 <= lower < |values|
            && values[lower] <= Percentile(values, p).value <= values[if lower + 1 < |values| then lower + 1 else lower]
  {
    RankInRange(|values|, p);
    var lower := Rank(|values|, p).Floor;
    var upper := if lower + 1 < |values| - 1 then lower + 1 else |values| - 1;
    BetweenBounds(values[lower], values[upper], Rank(|values|, p) - lower as real);
  }

  /** Interpolated percentiles lie between the ends of the list, reach them at 0 and 100, and grow
      with the percentage. */
  lemma PercentileBounds(values: seq<real>, p: nat)
    requires values != [] && p <= 100 && Sorted(values)
    ensures values[0] <= Percentile(values, p).value <= values[|values| - 1]
    ensures Percentile(values, 0).value == values[0]
    ensures Percentile(values, 100).value == values[|values| - 1]
  {
    if |values| > 1 {
      PercentileInCell(values, p);
      var n := |values|;
      assert Rank(n, 0) == 0.0;
      assert Rank(n, 100) == (n - 1) as real;
      assert Rank(n, 100).Floor == n - 1;
    }
  }

  lemma PercentileMonotone(values: seq<real>, p: nat, q: nat)
    requires values != [] && p <= q <= 100 && Sorted(values)
    ensures Percentile(values, p).value <= Percentile(values, q).value
  {
    if |values| > 1 {
      var n := |values|;
      RankMonotone(n, p, q);
      PercentileInCell(values, p);
      PercentileInCell(values, q);
      var a, b := Rank(n, p).Floor, Rank(n, q).Floor;
      if a == b {
        BetweenMonotone(values[a], values[if a + 1 < n - 1 then a + 1 else n - 1], Rank(n, p) - a as real, Rank(n, q) - a as real);
      } else {
        assert values[a + 1] <= values[b];
      }
    }
  }

  /** Between two neighbours of the list a percentile divides the distance as the rank does: with
      `100 * lower + part` hundredths of a place below it, it is `part` hundredths of the way up. */
  lemma PercentileInterpolates(values: seq<real>, p: nat, lower: nat, part: nat)
    requires values != [] && p <= 100 && (|values| - 1) * p == 100 * lower + part && part < 100
    ensures lower < |values|
    ensures var upper := if lower + 1 < |values| then lower + 1 else lower;
            100.0 * (Percentile(values, p).value - values[lower]) == part as real * (values[upper] - values[lower])
  {
    var n := |values|;
    RankInRange(n, p);
    RankParts(n, p, lower, part);
    if n > 1 {
      var upper := if lower + 1 < n - 1 then lower + 1 else n - 1;
      var w := part as real / 100.0;
      assert Percentile(values, p).value == Between(values[lower], values[upper], w);
      assert Between(values[lower], values[upper], w) - values[lower] == w * (values[upper] - values[lower]);
      if lower == n - 1 { assert part == 0; }
    }
  }

  lemma RankParts(n: nat, p: nat, lower: nat, part: nat)
    requires n > 0 && p <= 100 && (n - 1) * p == 100 * lower + part && part < 100
    ensures Rank(n, p).Floor == lower && Rank(n, p) - lower as real == part as real / 100.0
    ensures lower < n && (lower == n - 1 ==> part == 0)
  {
    assert Rank(n, p) == (100 * lower + part) as real / 100.0;
    assert (100 * lower + part) as real == 100.0 * lower as real + part as real;
    SmallProduct(n - 1, p);
  }

  lemma SmallProduct(a: nat, p: nat)
    requires p <= 100
    ensures a * p <= 100 * a
  {
  }

  lemma RankMonotone(n: nat, p: nat, q: nat)
    requires n > 0 && p <= q
    ensures Rank(n, p) <= Rank(n, q) && Rank(n, p).Floor <= Rank(n, q).Floor
  {
  }
}
