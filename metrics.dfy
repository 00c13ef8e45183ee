/** `calcular_metricas_performance`: add the category, the recomputed total and the
    efficiency to every corrected row. */
module Metrics {
  import opened Records
  import opened Categories
  import opened BusinessRules

  /** The guarded ratio: correct / total when the total is positive, and exactly 0.0 otherwise,
      so no division by zero can happen. With 0 <= correct <= total it lies in [0, 1]. */
  function Efficiency(correct: real, computedTotal: real): (e: real)
    ensures computedTotal > 0.0 ==> e * computedTotal == correct
    ensures computedTotal <= 0.0 ==> e == 0.0
    ensures 0.0 <= correct <= computedTotal ==> 0.0 <= e <= 1.0
  {
    if computedTotal > 0.0 then correct / computedTotal else 0.0
  }

  /** Counts that the cleaner read as non-negative numbers. */
  predicate NonNegativeCounts(r: Row) {
    r.correct >= 0.0 && r.wrong >= 0.0 && r.total >= 0.0
  }

  /** One row with its three new columns: the row itself is kept, the category comes from
      its label, the recomputed total ignores the recorded total, and the efficiency is the
      share of correct actions when that total is positive and 0.0 otherwise. */
  function EnrichRow(r: Row): (e: EnrichedRow)
    ensures e.row == r && e.category == Categorize(r.fundamental)
    ensures e.computedTotal == r.correct + r.wrong
    ensures e.efficiency == Efficiency(r.correct, e.computedTotal)
    ensures e.computedTotal <= 0.0 ==> e.efficiency == 0.0
    ensures NonNegativeCounts(r) ==> 0.0 <= e.efficiency <= 1.0
  {
    var computedTotal := r.correct + r.wrong;
    EnrichedRow(r, Categorize(r.fundamental), computedTotal, Efficiency(r.correct, computedTotal))
  }

  /** The enriched table: the same rows in the same order; the recomputed total is always
      correct + wrong, never the recorded total; the efficiency is the guarded ratio of the correct
      count to that total, so it is 0.0 when the total is not positive, and it lies in
      [0, 1] for every row whose counts are non-negative. */
  function Enrich(rows: seq<Row>): (out: seq<EnrichedRow>)
    ensures |out| == |rows|
    ensures forall i :: 0 <= i < |out| ==> out[i].row == rows[i]
    ensures forall i :: 0 <= i < |out| ==> out[i].category == Categorize(rows[i].fundamental)
    ensures forall i :: 0 <= i < |out| ==> out[i].computedTotal == rows[i].correct + rows[i].wrong
    ensures forall i :: 0 <= i < |out| ==> out[i].efficiency == Efficiency(rows[i].correct, out[i].computedTotal)
    ensures forall i :: 0 <= i < |out| && out[i].computedTotal <= 0.0 ==> out[i].efficiency == 0.0
    ensures forall i :: 0 <= i < |out| && NonNegativeCounts(rows[i]) ==> 0.0 <= out[i].efficiency <= 1.0
  {
    seq(|rows|, i requires 0 <= i < |rows| => EnrichRow(rows[i]))
  }

  /** Enrichment works row by row, so it keeps the order of a concatenation. */
  lemma EnrichConcat(a: seq<Row>, b: seq<Row>)
    ensures Enrich(a + b) == Enrich(a) + Enrich(b)
  {
  }

  /** A corrected good-set row with a positive total is fully efficient, and its recomputed
      total is the recorded total. */
  lemma GoodSetEfficiency(r: Row)
    requires r.fundamental == GoodSetLabel && r.total > 0.0
    ensures EnrichRow(Corrected(r)).computedTotal == r.total
    ensures EnrichRow(Corrected(r)).efficiency == 1.0
  {
    var c := Corrected(r);
    assert c.correct == r.total && c.wrong == 0.0;
    assert c.correct + c.wrong == r.total;
    assert Efficiency(c.correct, r.total) == r.total / r.total == 1.0;
  }

  /** A corrected fatal-error row has efficiency 0.0, and its recomputed total is the
      recorded total. */
  lemma FatalErrorEfficiency(r: Row)
    requires IsFatalSetError(r.fundamental)
    ensures EnrichRow(Corrected(r)).computedTotal == r.total
    ensures EnrichRow(Corrected(r)).efficiency == 0.0
  {
    var c := Corrected(r);
    assert c.correct == 0.0 && c.wrong == r.total;
  }
}
