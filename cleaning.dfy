/** The first stage: drop rows without a date or a label, parse dates day-first,
    and coerce the three count columns to numbers with failures becoming 0. */
module Cleaning {
  import opened Wrappers
  import opened Records
  import Seqs

  /** A row whose date cell and fundamental cell are both filled in: the rows `dropna` keeps. */
  predicate IsComplete(r: RawRow) {
    !r.date.Blank? && r.fundamental.Some?
  }

  /** `dropna` on the date and fundamental columns: the complete rows, in order. */
  function DropIncomplete(raw: seq<RawRow>): (kept: seq<RawRow>)
    ensures forall r :: r in kept <==> r in raw && IsComplete(r)
    ensures forall i :: 0 <= i < |kept| ==> IsComplete(kept[i])
  {
    Seqs.Filter(IsComplete, raw)
  }

  /** `v` is what `to_numeric(errors='coerce')` followed by `fillna(0)` makes of the cell `c`:
      a number stays, text is parsed, and a blank cell or text that does not parse becomes 0. */
  predicate ReadsAs(c: Cell, p: Parsers, v: real) {
    (c.Num? ==> v == c.value)
    && (c.Str? && p.number(c.text).Some? ==> v == p.number(c.text).value)
    && (c.Blank? || (c.Str? && p.number(c.text).None?) ==> v == 0.0)
  }

  /** The numeric conversion of one count cell. */
  function ToNumber(c: Cell, p: Parsers): (v: real)
    ensures ReadsAs(c, p, v)
  {
    match c
    case Blank => 0.0
    case Num(x) => x
    case Str(s) => (match p.number(s) case Some(x) => x case None => 0.0)
  }

  /** The three count columns, in the order the cleaner converts them. */
  datatype CountColumn = CorrectCount | WrongCount | TotalCount

  const CountColumns: seq<CountColumn> := [CorrectCount, WrongCount, TotalCount]

  function GetCount(r: RawRow, c: CountColumn): Cell {
    match c
    case CorrectCount => r.correct
    case WrongCount => r.wrong
    case TotalCount => r.total
  }

  function SetCount(r: RawRow, c: CountColumn, v: Cell): RawRow {
    match c
    case CorrectCount => r.(correct := v)
    case WrongCount => r.(wrong := v)
    case TotalCount => r.(total := v)
  }

  /** The numeric cell that replaces `c`. */
  function Coerce(c: Cell, p: Parsers): Cell {
    Num(ToNumber(c, p))
  }

  /** `r` is `orig` with the first `k` count columns converted and everything else untouched. */
  predicate CoercedThrough(r: RawRow, orig: RawRow, k: nat, p: Parsers) {
    r.date == orig.date && r.fundamental == orig.fundamental && r.rest == orig.rest
    && r.correct == (if 0 < k then Coerce(orig.correct, p) else orig.correct)
    && r.wrong == (if 1 < k then Coerce(orig.wrong, p) else orig.wrong)
    && r.total == (if 2 < k then Coerce(orig.total, p) else orig.total)
  }

  /** Every count cell of `r` holds a number. */
  predicate CountsNumeric(r: RawRow) {
    r.correct.Num? && r.wrong.Num? && r.total.Num?
  }

  /** The loop over the count columns, converting each column of the table in place.
      Afterwards no count cell is blank or text: each holds the number `ToNumber` gives. */
  method CoerceCountColumns(frame: array<RawRow>, p: Parsers)
    modifies frame
    ensures forall i :: 0 <= i < frame.Length ==> CountsNumeric(frame[i])
    ensures forall i :: 0 <= i < frame.Length ==> CoercedThrough(frame[i], old(frame[i]), 3, p)
  {
    for k := 0 to |CountColumns|
      invariant forall i :: 0 <= i < frame.Length ==> CoercedThrough(frame[i], old(frame[i]), k, p)
    {
      var column := CountColumns[k];
      for i := 0 to frame.Length
        invariant forall j :: 0 <= j < i ==> CoercedThrough(frame[j], old(frame[j]), k + 1, p)
        invariant forall j :: i <= j < frame.Length ==> CoercedThrough(frame[j], old(frame[j]), k, p)
      {
        frame[i] := SetCount(frame[i], column, Coerce(GetCount(frame[i], column), p));
      }
    }
  }

  /** The cleaned form of one complete raw row: the date cell parsed day-first (None when it
      does not parse), the label and the carried cells kept, and each count read as a number. */
  function NormalizeRow(r: RawRow, p: Parsers): (row: Row)
    requires r.fundamental.Some?
    ensures row.date == p.date(r.date) && row.fundamental == r.fundamental.value && row.rest == r.rest
    ensures ReadsAs(r.correct, p, row.correct) && ReadsAs(r.wrong, p, row.wrong) && ReadsAs(r.total, p, row.total)
  {
    Row(p.date(r.date), r.fundamental.value, ToNumber(r.correct, p), ToNumber(r.wrong, p), ToNumber(r.total, p), r.rest)
  }

  /** Each row of `kept`, normalized, in order. */
  function NormalizeAll(kept: seq<RawRow>, p: Parsers): (rows: seq<Row>)
    requires forall i :: 0 <= i < |kept| ==> kept[i].fundamental.Some?
  {
    seq(|kept|, i requires 0 <= i < |kept| => NormalizeRow(kept[i], p))
  }

  /** The cleaned table: an empty table is returned as it is, otherwise the complete rows
      are normalized. */
  function Clean(raw: seq<RawRow>, p: Parsers): (rows: seq<Row>)
    ensures |rows| <= |raw|
  {
    if raw == [] then [] else NormalizeAll(DropIncomplete(raw), p)
  }

  /** `row` is the normalized form of some complete row of `raw`. */
  ghost predicate ComesFromCompleteRow(row: Row, raw: seq<RawRow>, p: Parsers) {
    exists r :: r in raw && IsComplete(r) && row == NormalizeRow(r, p)
  }

  /** Exactly the complete rows survive cleaning: every cleaned row is the normalized form of
      a complete raw row, and every complete raw row is there. A row whose date does not
      parse is kept, with no date. */
  lemma CleanKeepsExactlyCompleteRows(raw: seq<RawRow>, p: Parsers)
    ensures forall row :: row in Clean(raw, p) ==> ComesFromCompleteRow(row, raw, p)
    ensures forall r :: r in raw && IsComplete(r) ==> NormalizeRow(r, p) in Clean(raw, p)
  {
    if raw != [] {
      var kept := DropIncomplete(raw);
      var rows := Clean(raw, p);
      forall r | r in raw && IsComplete(r) ensures NormalizeRow(r, p) in rows {
        var i :| 0 <= i < |kept| && kept[i] == r;
        assert rows[i] == NormalizeRow(r, p);
      }
      forall row | row in rows
        ensures ComesFromCompleteRow(row, raw, p)
      {
        var i :| 0 <= i < |rows| && rows[i] == row;
        var r := kept[i];
        assert r in kept;
        assert r in raw && IsComplete(r) && rows[i] == NormalizeRow(r, p);
      }
    } else {
      assert Clean(raw, p) == [];
    }
  }

  /** Normalizing is row by row, so it distributes over concatenation. */
  lemma NormalizeAllConcat(ka: seq<RawRow>, kb: seq<RawRow>, p: Parsers)
    requires forall i :: 0 <= i < |ka| ==> ka[i].fundamental.Some?
    requires forall i :: 0 <= i < |kb| ==> kb[i].fundamental.Some?
    ensures forall i :: 0 <= i < |ka + kb| ==> (ka + kb)[i].fundamental.Some?
    ensures NormalizeAll(ka + kb, p) == NormalizeAll(ka, p) + NormalizeAll(kb, p)
  {
    var left, right := NormalizeAll(ka, p), NormalizeAll(kb, p);
    forall i | 0 <= i < |ka + kb| ensures (ka + kb)[i].fundamental.Some? {
      if i < |ka| {
        assert (ka + kb)[i] == ka[i];
      } else {
        assert (ka + kb)[i] == kb[i - |ka|];
      }
    }
    forall i | 0 <= i < |left| + |right|
      ensures NormalizeAll(ka + kb, p)[i] == (left + right)[i]
    {
      if i < |left| {
        assert (ka + kb)[i] == ka[i];
      } else {
        assert (ka + kb)[i] == kb[i - |left|];
      }
    }
  }

  /** Cleaning works row by row: cleaning a concatenation cleans each part, so the
      surviving rows keep their relative order. */
  lemma {:induction false} CleanConcat(a: seq<RawRow>, b: seq<RawRow>, p: Parsers)
    ensures Clean(a + b, p) == Clean(a, p) + Clean(b, p)
  {
    if a == [] {
      assert a + b == b;
    } else if b == [] {
      assert a + b == a;
    } else {
      Seqs.FilterConcat(IsComplete, a, b);
      var ka, kb := DropIncomplete(a), DropIncomplete(b);
      NormalizeAllConcat(ka, kb, p);
      assert Clean(a + b, p) == NormalizeAll(ka + kb, p);
    }
  }

  /** `limpar_e_padronizar_dados`: the early return for an empty table, `dropna` into a fresh
      table, the column conversions in place, then the typed rows. */
  method CleanData(raw: seq<RawRow>, p: Parsers) returns (rows: seq<Row>)
    ensures rows == Clean(raw, p)
  {
    if raw == [] {
      return [];
    }
    var kept := DropIncomplete(raw);
    var frame := new RawRow[|kept|](i requires 0 <= i < |kept| => kept[i]);
    CoerceCountColumns(frame, p);
    rows := [];
    for i := 0 to frame.Length
      invariant |rows| == i
      invariant forall j :: 0 <= j < i ==> rows[j] == NormalizeRow(kept[j], p)
    {
      var r := frame[i];
      assert CoercedThrough(r, kept[i], 3, p);
      rows := rows + [Row(p.date(r.date), r.fundamental.value, r.correct.value, r.wrong.value, r.total.value, r.rest)];
    }
  }
}
