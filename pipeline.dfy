/** `carregar_dados_processados`: read, clean, correct and enrich, failing closed. */
module Pipeline {
  import opened Wrappers
  import opened Records
  import opened Text
  import opened Cleaning
  import opened BusinessRules
  import opened Metrics

  /** Why a run produced no table: the worksheet could not be read, or, once titles are
      trimmed, a column the stages index is absent or is named by more than one title (the
      table library then hands the stage a table of columns instead of one column, and the
      date, number and label operations raise on it). */
  datatype Failure = SourceUnavailable(reason: string) | MissingColumn(column: string) | RepeatedColumn(column: string)

  /** The columns the cleaner indexes, in the order it indexes them. */
  const RequiredColumns: seq<string> := [DateColumn, LabelColumn, CorrectColumn, WrongColumn, TotalColumn]

  /** The column titles with surrounding whitespace removed. */
  function TrimColumns(columns: seq<string>): (trimmed: seq<string>)
    ensures |trimmed| == |columns|
    ensures forall i :: 0 <= i < |columns| ==> trimmed[i] == Strip(columns[i])
  {
    seq(|columns|, i requires 0 <= i < |columns| => Strip(columns[i]))
  }

  /** The first required column that is absent, if any. */
  function FirstMissing(required: seq<string>, present: seq<string>): (m: Option<string>)
    ensures m.None? <==> forall c :: c in required ==> c in present
    ensures m.Some? ==> m.value in required && m.value !in present
  {
    if required == [] then None
    else if required[0] !in present then Some(required[0])
    else FirstMissing(required[1..], present)
  }

  /** The first required column that more than one title names, if any. */
  function FirstRepeated(required: seq<string>, present: seq<string>): (m: Option<string>)
    ensures m.None? <==> forall c :: c in required ==> multiset(present)[c] <= 1
    ensures m.Some? ==> m.value in required && multiset(present)[m.value] > 1
  {
    if required == [] then None
    else if multiset(present)[required[0]] > 1 then Some(required[0])
    else FirstRepeated(required[1..], present)
  }

  /** The whole pipeline. A sheet with no rows is returned as it is by the cleaner, so it
      yields an empty table; otherwise every required column must be named by exactly one
      trimmed title. */
  function Run(source: Result<Sheet, string>, p: Parsers): (r: Result<seq<EnrichedRow>, Failure>)
    ensures source.Failure? ==> r == Failure(SourceUnavailable(source.error))
    ensures source.Success? && source.value.rows == [] ==> r == Success([])
    ensures source.Success? && source.value.rows != [] ==>
      (r.Failure? <==> !HasRequiredColumns(source.value.columns))
    ensures r.Failure? ==> source.Failure? || r.error.MissingColumn? || r.error.RepeatedColumn?
    ensures r.Failure? && r.error.MissingColumn? ==>
      r.error.column in RequiredColumns && r.error.column !in TrimColumns(source.value.columns)
    ensures r.Failure? && r.error.RepeatedColumn? ==>
      r.error.column in RequiredColumns && multiset(TrimColumns(source.value.columns))[r.error.column] > 1
    ensures r.Success? ==> source.Success? && |r.value| <= |source.value.rows|
  {
    match source
    case Failure(reason) => Failure(SourceUnavailable(reason))
    case Success(sheet) =>
      if sheet.rows == [] then Success([])
      else
        var trimmed := TrimColumns(sheet.columns);
        match FirstMissing(RequiredColumns, trimmed)
        case Some(column) => Failure(MissingColumn(column))
        case None =>
          match FirstRepeated(RequiredColumns, trimmed)
          case Some(column) => Failure(RepeatedColumn(column))
          case None => Success(Enrich(ApplyRules(Clean(sheet.rows, p))))
  }

  /** The facade's result: the enriched table, or an empty table on any failure. */
  function Load(source: Result<Sheet, string>, p: Parsers): (rows: seq<EnrichedRow>)
    ensures source.Failure? ==> rows == []
    ensures source.Success? && !HasRequiredColumns(source.value.columns) ==> rows == []
  {
    match Run(source, p)
    case Success(rows) => rows
    case Failure(_) => []
  }

  /** Once titles are trimmed, every required column is named by exactly one title. */
  predicate HasRequiredColumns(columns: seq<string>) {
    forall c :: c in RequiredColumns ==> multiset(TrimColumns(columns))[c] == 1
  }

  /** The enriched form of a raw row that went through every stage. */
  function Processed(r: RawRow, p: Parsers): EnrichedRow
    requires r.fundamental.Some?
  {
    EnrichRow(Corrected(NormalizeRow(r, p)))
  }

  /** `e` is the processed form of a complete, non-rollup row of `raw`. */
  ghost predicate TracesToKeptRow(e: EnrichedRow, raw: seq<RawRow>, p: Parsers) {
    exists r :: r in raw && IsComplete(r) && !IsRollup(r.fundamental.value) && e == Processed(r, p)
  }

  /** On a non-empty sheet that passes the column check, the facade's result is the three
      stages applied in order. */
  lemma LoadIsStages(sheet: Sheet, p: Parsers)
    requires sheet.rows != [] && HasRequiredColumns(sheet.columns)
    ensures Load(Success(sheet), p) == Enrich(ApplyRules(Clean(sheet.rows, p)))
  {
  }

  /** One output row of the stages, traced back to the raw row it was made from. */
  lemma StagesRowTraces(raw: seq<RawRow>, e: EnrichedRow, p: Parsers)
    requires e in Enrich(ApplyRules(Clean(raw, p)))
    ensures TracesToKeptRow(e, raw, p)
  {
    var cleaned := Clean(raw, p);
    var corrected := CorrectAll(cleaned);
    var kept := RemoveRollups(corrected);
    var out := Enrich(kept);
    var i :| 0 <= i < |out| && out[i] == e;
    assert e == EnrichRow(kept[i]);
    assert kept[i] in kept;
    var j :| 0 <= j < |corrected| && corrected[j] == kept[i];
    assert cleaned[j] in cleaned;
    CleanKeepsExactlyCompleteRows(raw, p);
    assert ComesFromCompleteRow(cleaned[j], raw, p);
    var r :| r in raw && IsComplete(r) && cleaned[j] == NormalizeRow(r, p);
    assert e == Processed(r, p);
  }

  /** One complete, non-rollup raw row, followed forward to the output of the stages. */
  lemma StagesKeepRow(raw: seq<RawRow>, r: RawRow, p: Parsers)
    requires r in raw && IsComplete(r) && !IsRollup(r.fundamental.value)
    ensures Processed(r, p) in Enrich(ApplyRules(Clean(raw, p)))
  {
    var cleaned := Clean(raw, p);
    var corrected := CorrectAll(cleaned);
    var kept := RemoveRollups(corrected);
    var out := Enrich(kept);
    var row := NormalizeRow(r, p);
    CleanKeepsExactlyCompleteRows(raw, p);
    assert row in cleaned;
    var j :| 0 <= j < |cleaned| && cleaned[j] == row;
    assert corrected[j] == Corrected(row);
    assert Corrected(row) in kept;
    var i :| 0 <= i < |kept| && kept[i] == Corrected(row);
    assert out[i] == Processed(r, p);
  }

  /** No row comes from nowhere: every output row is the processed form of a raw row with a
      date and a label that is not exactly a rollup label. So a row with a blank date or
      label, or labelled exactly "Ataque" or "Levantamento", never reaches the output. */
  lemma LoadRowsTraceToKeptRows(sheet: Sheet, p: Parsers)
    ensures forall e :: e in Load(Success(sheet), p) ==> TracesToKeptRow(e, sheet.rows, p)
  {
    if sheet.rows != [] && HasRequiredColumns(sheet.columns) {
      LoadIsStages(sheet, p);
      forall e | e in Load(Success(sheet), p) ensures TracesToKeptRow(e, sheet.rows, p) {
        StagesRowTraces(sheet.rows, e, p);
      }
    }
  }

  /** No kept row is lost: when the column check passes, every raw row with a date and a label
      that is not exactly a rollup label reaches the output ("Ataque - Diagonal" and
      " Ataque " among them). */
  lemma LoadKeepsCompleteNonRollupRows(sheet: Sheet, p: Parsers)
    requires HasRequiredColumns(sheet.columns)
    ensures forall r :: r in sheet.rows && IsComplete(r) && !IsRollup(r.fundamental.value) ==>
      Processed(r, p) in Load(Success(sheet), p)
  {
    if sheet.rows != [] {
      LoadIsStages(sheet, p);
      forall r | r in sheet.rows && IsComplete(r) && !IsRollup(r.fundamental.value)
        ensures Processed(r, p) in Load(Success(sheet), p)
      {
        StagesKeepRow(sheet.rows, r, p);
      }
    }
  }

  /** A cell the cleaner reads as a non-negative number (or as 0). */
  predicate NonNegativeCell(c: Cell, p: Parsers) {
    match c
    case Blank => true
    case Num(v) => v >= 0.0
    case Str(s) => p.number(s).None? || p.number(s).value >= 0.0
  }

  predicate NonNegativeRawCounts(r: RawRow, p: Parsers) {
    NonNegativeCell(r.correct, p) && NonNegativeCell(r.wrong, p) && NonNegativeCell(r.total, p)
  }

  /** One row through every stage: non-negative counts give an efficiency in [0, 1]. */
  lemma ProcessedEfficiency(r: RawRow, p: Parsers)
    requires r.fundamental.Some? && NonNegativeRawCounts(r, p)
    ensures 0.0 <= Processed(r, p).efficiency <= 1.0
    ensures Processed(r, p).computedTotal == Processed(r, p).row.correct + Processed(r, p).row.wrong
  {
    var row := NormalizeRow(r, p);
    assert NonNegativeCounts(row);
    assert NonNegativeCounts(Corrected(row));
  }

  /** Efficiency bound end to end: the cleaner does not clamp negative numbers, so when every
      count the sheet holds is non-negative, every output row has efficiency in [0, 1] and a
      recomputed total equal to correct + wrong. */
  lemma LoadEfficiencyInUnitInterval(sheet: Sheet, p: Parsers)
    requires forall r :: r in sheet.rows ==> NonNegativeRawCounts(r, p)
    ensures forall e :: e in Load(Success(sheet), p) ==>
      0.0 <= e.efficiency <= 1.0 && e.computedTotal == e.row.correct + e.row.wrong
  {
    LoadRowsTraceToKeptRows(sheet, p);
    forall e | e in Load(Success(sheet), p)
      ensures 0.0 <= e.efficiency <= 1.0 && e.computedTotal == e.row.correct + e.row.wrong
    {
      assert TracesToKeptRow(e, sheet.rows, p);
      var r :| r in sheet.rows && IsComplete(r) && !IsRollup(r.fundamental.value) && e == Processed(r, p);
      ProcessedEfficiency(r, p);
    }
  }

  /** One row through every stage: its efficiency is the share of correct actions in the
      recomputed total, or 0.0 when that total is not positive. */
  lemma ProcessedEfficiencyShare(r: RawRow, p: Parsers)
    requires r.fundamental.Some?
    ensures var e := Processed(r, p);
      e.computedTotal == e.row.correct + e.row.wrong
      && e.efficiency == Efficiency(e.row.correct, e.computedTotal)
      && (e.computedTotal <= 0.0 ==> e.efficiency == 0.0)
  {
    var row := Corrected(NormalizeRow(r, p));
    var e := EnrichRow(row);
    assert e.row == row && e.computedTotal == row.correct + row.wrong;
  }

  /** The efficiency end to end: every output row's efficiency is the guarded ratio of its
      correct count to correct + wrong (so efficiency × total = correct when the total is
      positive), and exactly 0.0 when that total is not positive, negative totals included. */
  lemma LoadEfficiencyIsCorrectShare(sheet: Sheet, p: Parsers)
    ensures forall e :: e in Load(Success(sheet), p) ==>
      e.computedTotal == e.row.correct + e.row.wrong
      && e.efficiency == Efficiency(e.row.correct, e.computedTotal)
      && (e.computedTotal <= 0.0 ==> e.efficiency == 0.0)
  {
    LoadRowsTraceToKeptRows(sheet, p);
    forall e | e in Load(Success(sheet), p)
      ensures e.computedTotal == e.row.correct + e.row.wrong
      ensures e.efficiency == Efficiency(e.row.correct, e.computedTotal)
      ensures e.computedTotal <= 0.0 ==> e.efficiency == 0.0
    {
      assert TracesToKeptRow(e, sheet.rows, p);
      var r :| r in sheet.rows && IsComplete(r) && !IsRollup(r.fundamental.value) && e == Processed(r, p);
      ProcessedEfficiencyShare(r, p);
    }
  }

  /** The pipeline works row by row: on a sheet that passes the column check, the output for a
      concatenation of rows is the output for each part, in order. */
  lemma LoadConcat(columns: seq<string>, a: seq<RawRow>, b: seq<RawRow>, p: Parsers)
    requires HasRequiredColumns(columns)
    ensures Load(Success(Sheet(columns, a + b)), p)
      == Load(Success(Sheet(columns, a)), p) + Load(Success(Sheet(columns, b)), p)
  {
    CleanConcat(a, b, p);
    ApplyRulesConcat(Clean(a, p), Clean(b, p));
    EnrichConcat(ApplyRules(Clean(a, p)), ApplyRules(Clean(b, p)));
    if a == [] {
      assert a + b == b;
    } else if b == [] {
      assert a + b == a;
    }
  }

  /** A sheet of one row yields that row processed, or nothing when the row lacks a date or a
      label or is a rollup row. */
  lemma LoadSingleRow(columns: seq<string>, r: RawRow, p: Parsers)
    requires HasRequiredColumns(columns)
    ensures Load(Success(Sheet(columns, [r])), p)
      == if IsComplete(r) && !IsRollup(r.fundamental.value) then [Processed(r, p)] else []
  {
    var cleaned := Clean([r], p);
    if IsComplete(r) {
      assert DropIncomplete([r]) == [r];
      assert cleaned == [NormalizeRow(r, p)];
      assert CorrectAll(cleaned) == [Corrected(NormalizeRow(r, p))];
    } else {
      assert DropIncomplete([r]) == [];
    }
  }

  /** A title that trims to a required column already named by another title makes the
      sheet fail closed: the table library would hand the stages two columns of that name. */
  lemma RepeatedTitleFails(columns: seq<string>, extra: string, rows: seq<RawRow>, p: Parsers)
    requires Strip(extra) in RequiredColumns && Strip(extra) in TrimColumns(columns)
    ensures !HasRequiredColumns(columns + [extra])
    ensures Load(Success(Sheet(columns + [extra], rows)), p) == []
  {
    var trimmed := TrimColumns(columns + [extra]);
    assert trimmed == TrimColumns(columns) + [Strip(extra)];
    assert multiset(trimmed)[Strip(extra)] == multiset(TrimColumns(columns))[Strip(extra)] + 1;
  }

  /** Column titles without surrounding whitespace are their own trimmed form. */
  lemma TrimUnpaddedColumns(columns: seq<string>)
    requires forall i :: 0 <= i < |columns| ==> columns[i] != [] && !IsSpace(columns[i][0]) && !IsSpace(columns[i][|columns[i]| - 1])
    ensures TrimColumns(columns) == columns
  {
    forall i | 0 <= i < |columns| ensures Strip(columns[i]) == columns[i] {
      StripUnpadded(columns[i]);
    }
  }

  /** `carregar_dados_processados` as the source runs it: the read is the `source` argument,
      the cleaner returns a fresh table, the rules change it in place and return a filtered
      copy, and the enrichment adds the three columns. */
  method LoadProcessedData(source: Result<Sheet, string>, p: Parsers) returns (out: seq<EnrichedRow>)
    ensures out == Load(source, p)
  {
    if source.Failure? {
      return [];
    }
    var sheet := source.value;
    if sheet.rows == [] {
      return [];
    }
    var trimmed := TrimColumns(sheet.columns);
    if FirstMissing(RequiredColumns, trimmed).Some? || FirstRepeated(RequiredColumns, trimmed).Some? {
      return [];
    }
    var cleaned := CleanData(sheet.rows, p);
    var frame := new Row[|cleaned|](i requires 0 <= i < |cleaned| => cleaned[i]);
    assert frame[..] == cleaned;
    var kept := ApplyBusinessRules(frame);
    out := Enrich(kept);
  }
}
