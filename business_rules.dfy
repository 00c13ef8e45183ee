/** `aplicar_regras_negocio_volei`: correct the rows whose labels record only a total,
    then remove the rollup rows that repeat a category's volume. */
module BusinessRules {
  import opened Records
  import Seqs

  /** A fatal setting error label, matched exactly. */
  predicate IsFatalSetError(fundamental: string) {
    fundamental in FatalSetErrorLabels
  }

  /** The labels of the rollup rows: the bare category names, matched exactly. */
  const RollupLabels: seq<string> := [SettingText, AttackPrefix]

  predicate IsRollup(fundamental: string) {
    fundamental in RollupLabels
  }

  /** Rule 1: a good set is all correct, so correct := total and wrong := 0; any other row is untouched. */
  function ApplyGoodSetRule(r: Row): (c: Row)
    ensures r.fundamental == GoodSetLabel ==> c.correct == r.total && c.wrong == 0.0
    ensures c.date == r.date && c.fundamental == r.fundamental && c.total == r.total && c.rest == r.rest
    ensures r.fundamental != GoodSetLabel ==> c == r
  {
    if r.fundamental == GoodSetLabel then r.(correct := r.total, wrong := 0.0) else r
  }

  /** Rule 2: a fatal setting error is all wrong, so correct := 0 and wrong := total; any other row is untouched. */
  function ApplyFatalErrorRule(r: Row): (c: Row)
    ensures IsFatalSetError(r.fundamental) ==> c.correct == 0.0 && c.wrong == r.total
    ensures c.date == r.date && c.fundamental == r.fundamental && c.total == r.total && c.rest == r.rest
    ensures !IsFatalSetError(r.fundamental) ==> c == r
  {
    if IsFatalSetError(r.fundamental) then r.(correct := 0.0, wrong := r.total) else r
  }

  /** Both corrections, in the order the source applies them. Only the counts of the four
      sentinel labels change, and for each of them correct + wrong becomes the recorded total. */
  function Corrected(r: Row): (c: Row)
    ensures c.date == r.date && c.fundamental == r.fundamental && c.total == r.total && c.rest == r.rest
    ensures r.fundamental == GoodSetLabel ==> c.correct == r.total && c.wrong == 0.0
    ensures IsFatalSetError(r.fundamental) ==> c.correct == 0.0 && c.wrong == r.total
    ensures r.fundamental == GoodSetLabel || IsFatalSetError(r.fundamental) ==> c.correct + c.wrong == r.total
    ensures r.fundamental != GoodSetLabel && !IsFatalSetError(r.fundamental) ==> c == r
  {
    ApplyFatalErrorRule(ApplyGoodSetRule(r))
  }

  /** Correcting a corrected row changes nothing: the rules are stable under re-application. */
  lemma CorrectedIdempotent(r: Row)
    ensures Corrected(Corrected(r)) == Corrected(r)
  {
  }

  /** Every row, corrected, in place and in order. */
  function CorrectAll(rows: seq<Row>): (out: seq<Row>)
    ensures |out| == |rows|
    ensures forall i :: 0 <= i < |out| ==>
      out[i].date == rows[i].date && out[i].fundamental == rows[i].fundamental
      && out[i].total == rows[i].total && out[i].rest == rows[i].rest
    ensures forall i :: 0 <= i < |out| && rows[i].fundamental == GoodSetLabel ==>
      out[i].correct == rows[i].total && out[i].wrong == 0.0
    ensures forall i :: 0 <= i < |out| && IsFatalSetError(rows[i].fundamental) ==>
      out[i].correct == 0.0 && out[i].wrong == rows[i].total
    ensures forall i :: 0 <= i < |out| && (rows[i].fundamental == GoodSetLabel || IsFatalSetError(rows[i].fundamental)) ==>
      out[i].correct + out[i].wrong == rows[i].total
    ensures forall i :: 0 <= i < |out| && rows[i].fundamental != GoodSetLabel && !IsFatalSetError(rows[i].fundamental) ==>
      out[i] == rows[i]
  {
    seq(|rows|, i requires 0 <= i < |rows| => Corrected(rows[i]))
  }

  predicate NotRollup(r: Row) {
    !IsRollup(r.fundamental)
  }

  /** Rule 3: the rows whose label is not exactly a rollup label, in order. A label that only
      contains or resembles a rollup label ("Ataque - Diagonal", " Ataque ") survives. */
  function RemoveRollups(rows: seq<Row>): (kept: seq<Row>)
    ensures forall r :: r in kept ==> r in rows && !IsRollup(r.fundamental)
    ensures forall r :: r in rows && !IsRollup(r.fundamental) ==> r in kept
  {
    Seqs.Filter(NotRollup, rows)
  }

  /** The whole stage as a function of the cleaned table: every row that is not a rollup row
      comes out corrected, and nothing else comes out. */
  function ApplyRules(rows: seq<Row>): (out: seq<Row>)
    ensures |out| <= |rows|
    ensures forall r :: r in out ==> !IsRollup(r.fundamental)
    ensures forall r :: r in out ==> r in CorrectAll(rows)
    ensures forall i :: 0 <= i < |rows| && !IsRollup(rows[i].fundamental) ==> Corrected(rows[i]) in out
  {
    var corrected := CorrectAll(rows);
    assert forall i :: 0 <= i < |rows| ==> corrected[i] in corrected;
    RemoveRollups(corrected)
  }

  /** The stage works row by row: on a concatenation it handles each part, so the surviving
      rows keep their relative order. */
  lemma {:induction false} ApplyRulesConcat(a: seq<Row>, b: seq<Row>)
    ensures ApplyRules(a + b) == ApplyRules(a) + ApplyRules(b)
  {
    assert CorrectAll(a + b) == CorrectAll(a) + CorrectAll(b);
    Seqs.FilterConcat(NotRollup, CorrectAll(a), CorrectAll(b));
  }

  /** A table without rollup rows loses no row to the stage. */
  lemma ApplyRulesKeepsNonRollupTables(rows: seq<Row>)
    requires forall i :: 0 <= i < |rows| ==> !IsRollup(rows[i].fundamental)
    ensures ApplyRules(rows) == CorrectAll(rows)
  {
    var corrected := CorrectAll(rows);
    assert forall r :: r in corrected ==> NotRollup(r);
    Seqs.FilterKeepsAll(NotRollup, corrected);
  }

  /** Applying the stage to its own output changes nothing. */
  lemma ApplyRulesIdempotent(rows: seq<Row>)
    ensures ApplyRules(ApplyRules(rows)) == ApplyRules(rows)
  {
    var once := ApplyRules(rows);
    assert forall i :: 0 <= i < |once| ==> once[i] in once;
    ApplyRulesKeepsNonRollupTables(once);
    forall i | 0 <= i < |once| ensures CorrectAll(once)[i] == once[i] {
      var r := once[i];
      assert r in CorrectAll(rows);
      var j :| 0 <= j < |rows| && CorrectAll(rows)[j] == r;
      CorrectedIdempotent(rows[j]);
    }
  }

  /** The stage as the source runs it: the two corrections assign the count columns of the
      table in place, then the rows that are not rollups are copied out. */
  method ApplyBusinessRules(frame: array<Row>) returns (kept: seq<Row>)
    modifies frame
    ensures frame[..] == CorrectAll(old(frame[..]))
    ensures kept == RemoveRollups(frame[..])
  {
    for i := 0 to frame.Length
      invariant forall j :: 0 <= j < i ==> frame[j] == ApplyGoodSetRule(old(frame[j]))
      invariant forall j :: i <= j < frame.Length ==> frame[j] == old(frame[j])
    {
      if frame[i].fundamental == GoodSetLabel {
        frame[i] := frame[i].(correct := frame[i].total, wrong := 0.0);
      }
    }
    for i := 0 to frame.Length
      invariant forall j :: 0 <= j < i ==> frame[j] == Corrected(old(frame[j]))
      invariant forall j :: i <= j < frame.Length ==> frame[j] == ApplyGoodSetRule(old(frame[j]))
    {
      if IsFatalSetError(frame[i].fundamental) {
        frame[i] := frame[i].(correct := 0.0, wrong := frame[i].total);
      }
    }
    kept := RemoveRollups(frame[..]);
  }
}
