/** Worked inputs for the pipeline: its behaviour on small sheets, stated as lemmas. */
module PipelineExamples {
  import opened Wrappers
  import opened Records
  import opened Text
  import opened Cleaning
  import opened Categories
  import opened BusinessRules
  import opened Pipeline

  /** The column titles of the worksheet. */
  const Header: seq<string> := [DateColumn, PlaceColumn, LabelColumn, CorrectColumn, WrongColumn, TotalColumn]

  /** The six titles have six different lengths, so each occurs once among them. */
  lemma HeaderTitlesDistinct()
    ensures forall c :: c in Header ==> multiset(Header)[c] == 1
  {
    assert |DateColumn| == 4 && |PlaceColumn| == 5 && |LabelColumn| == 11;
    assert |CorrectColumn| == 18 && |WrongColumn| == 17 && |TotalColumn| == 16;
  }

  /** The worksheet's titles name every column the stages index, each exactly once. */
  lemma HeaderHasRequiredColumns()
    ensures HasRequiredColumns(Header)
  {
    assert DateColumn[0] == 'D' && DateColumn[|DateColumn| - 1] == 'a';
    assert PlaceColumn[0] == 'L' && PlaceColumn[|PlaceColumn| - 1] == 'l';
    assert LabelColumn[0] == 'F' && LabelColumn[|LabelColumn| - 1] == 's';
    assert CorrectColumn[0] == 'Q' && CorrectColumn[|CorrectColumn| - 1] == 'a';
    assert WrongColumn[0] == 'Q' && WrongColumn[|WrongColumn| - 1] == 'a';
    assert TotalColumn[0] == 'Q' && TotalColumn[|TotalColumn| - 1] == 'l';
    TrimUnpaddedColumns(Header);
    HeaderTitlesDistinct();
  }

  /** A row of a beach practice with its cells written as text. */
  function BeachRow(date: string, fundamental: string, correct: string, wrong: string, total: string): RawRow {
    RawRow(Str(date), Some(fundamental), Str(correct), Str(wrong), Str(total), [Str("Praia")])
  }

  /** Every sentinel label starts with 'L', so a label that does not is left alone by the corrections. */
  lemma NotSentinel(fundamental: string)
    requires fundamental != [] && fundamental[0] != 'L'
    ensures fundamental != GoodSetLabel && !IsFatalSetError(fundamental)
  {
    assert SettingText[0] == 'L';
    assert GoodSetLabel[0] == 'L';
    assert DoubleTouchLabel[0] == 'L';
    assert CarryLabel[0] == 'L';
    assert NoAttackPossibleLabel[0] == 'L';
  }

  /** A serve label: no surrounding whitespace, starts with "Saque", and names neither a
      setting nor a reception. */
  lemma ServeLabelIsServe(s: string)
    requires s != [] && !IsSpace(s[0]) && !IsSpace(s[|s| - 1])
    requires StartsWith(s, ServeText) && 'L' !in s && 'R' !in s
    ensures Categorize(s) == ServeText
  {
    StripUnpadded(s);
    MissingFirstCharNotContained(s, SettingText);
    MissingFirstCharNotContained(s, ReceptionText);
    assert s[0] == 'S';
  }

  /** "Saque - Curto" is a serve. */
  lemma ServeLabelCategory()
    ensures Categorize("Saque - Curto") == ServeText
  {
    var s := "Saque - Curto";
    assert s[0] == 'S' && s[|s| - 1] == 'o' && s[..5] == ServeText && 'L' !in s && 'R' !in s;
    ServeLabelIsServe(s);
  }

  /** An attack sub-label: no surrounding whitespace and starts with "Ataque". */
  lemma AttackLabelIsAttack(s: string)
    requires s != [] && !IsSpace(s[0]) && !IsSpace(s[|s| - 1])
    requires StartsWith(s, AttackPrefix)
    ensures Categorize(s) == AttackPrefix
  {
    StripUnpadded(s);
  }

  /** A serve row of a beach practice: 8 correct and 2 wrong out of 10. */
  const ServeRow := BeachRow("01/03/2024", "Saque - Curto", "8", "2", "10")

  /** The rollup row of all attacks on a day, labelled exactly "Ataque". */
  const RollupRow := BeachRow("02/03/2024", "Ataque", "5", "5", "10")

  /** An attack sub-label row: 3 correct and 1 wrong out of 4. */
  const AttackRow := BeachRow("02/03/2024", "Ataque - Diagonal", "3", "1", "4")

  /** The serve row, once processed, is a serve with efficiency 0.8. */
  lemma ServeRowProcessed(p: Parsers)
    requires p.number("8") == Some(8.0) && p.number("2") == Some(2.0) && p.number("10") == Some(10.0)
    ensures var e := Processed(ServeRow, p);
      e.row.fundamental == "Saque - Curto" && e.category == ServeText
      && e.computedTotal == 10.0 && e.efficiency == 0.8
  {
    var s := "Saque - Curto";
    var row := NormalizeRow(BeachRow("01/03/2024", s, "8", "2", "10"), p);
    assert row.fundamental == s && row.correct == 8.0 && row.wrong == 2.0;
    ServeLabelCategory();
    assert s[0] != 'L';
    NotSentinel(s);
    assert Corrected(row) == row;
  }

  /** The attack sub-label row, once processed, is an attack with efficiency 0.75. */
  lemma AttackRowProcessed(p: Parsers)
    requires p.number("3") == Some(3.0) && p.number("1") == Some(1.0) && p.number("4") == Some(4.0)
    ensures var e := Processed(AttackRow, p);
      e.row.fundamental == "Ataque - Diagonal" && e.category == AttackPrefix
      && e.computedTotal == 4.0 && e.efficiency == 0.75
  {
    var a := "Ataque - Diagonal";
    var row := NormalizeRow(BeachRow("02/03/2024", a, "3", "1", "4"), p);
    assert row.fundamental == a && row.correct == 3.0 && row.wrong == 1.0;
    assert a[0] != 'L';
    NotSentinel(a);
    assert Corrected(row) == row;
    assert a[0] == 'A' && a[|a| - 1] == 'l' && a[..6] == AttackPrefix;
    AttackLabelIsAttack(a);
  }

  /** A sheet holding only the serve row yields that row, processed. */
  lemma ServeRowKept(p: Parsers)
    ensures Load(Success(Sheet(Header, [ServeRow])), p) == [Processed(ServeRow, p)]
  {
    HeaderHasRequiredColumns();
    var s := "Saque - Curto";
    assert ServeRow.fundamental.value == s && s[0] != 'L';
    assert !IsRollup(s) by {
      assert SettingText[0] == 'L' && AttackPrefix[0] == 'A';
    }
    LoadSingleRow(Header, ServeRow, p);
  }

  /** A sheet holding only the attack sub-label row yields that row, processed. */
  lemma AttackRowKept(p: Parsers)
    ensures Load(Success(Sheet(Header, [AttackRow])), p) == [Processed(AttackRow, p)]
  {
    HeaderHasRequiredColumns();
    var a := "Ataque - Diagonal";
    assert AttackRow.fundamental.value == a;
    assert !IsRollup(a) by {
      assert |a| != |AttackPrefix| && a[0] != 'L';
    }
    LoadSingleRow(Header, AttackRow, p);
  }

  /** A sheet holding only a rollup row labelled exactly "Ataque" yields nothing. */
  lemma RollupRowDropped(p: Parsers)
    ensures Load(Success(Sheet(Header, [RollupRow])), p) == []
  {
    HeaderHasRequiredColumns();
    assert IsRollup(AttackPrefix);
    LoadSingleRow(Header, RollupRow, p);
  }

  /** A row labelled " Ataque ": the rollup label with surrounding spaces. */
  const PaddedRollupRow := BeachRow("02/03/2024", " Ataque ", "5", "5", "10")

  /** Rollup removal compares labels exactly while categorisation strips them first, so a
      padded rollup row is kept, and counted as an attack. */
  lemma PaddedRollupKeptAsAttack(p: Parsers)
    ensures Load(Success(Sheet(Header, [PaddedRollupRow])), p) == [Processed(PaddedRollupRow, p)]
    ensures Processed(PaddedRollupRow, p).category == AttackPrefix
  {
    HeaderHasRequiredColumns();
    var s := " Ataque ";
    assert PaddedRollupRow.fundamental.value == s;
    assert !IsRollup(s) by {
      assert s[0] == ' ' && SettingText[0] == 'L' && AttackPrefix[0] == 'A';
    }
    LoadSingleRow(Header, PaddedRollupRow, p);
    PaddedAttackIsAttack();
  }

  /** The worksheet's titles plus "Data " with a trailing space: trimmed, two titles read
      "Data", so the sheet yields nothing, even with the serve row in it. */
  lemma PaddedRepeatedDateTitleFails(p: Parsers)
    ensures Load(Success(Sheet(Header + [DateColumn + " "], [ServeRow])), p) == []
  {
    var extra := DateColumn + " ";
    assert extra[0] == 'D' && extra[4] == ' ' && !IsSpace(extra[3]);
    assert SkipSpaces(extra, 0) == 0;
    assert SkipSpacesBack(extra, 0, 5) == 4;
    assert extra[0..4] == DateColumn;
    TrimUnpaddedColumns(Header);
    assert Header[0] == DateColumn;
    RepeatedTitleFails(Header, extra, [ServeRow], p);
  }

  /** A row that yields nothing alone adds nothing in front of another row. */
  lemma {:induction false} LoadDropsFirst(columns: seq<string>, b: RawRow, c: RawRow, p: Parsers)
    requires HasRequiredColumns(columns)
    requires Load(Success(Sheet(columns, [b])), p) == []
    ensures Load(Success(Sheet(columns, [b, c])), p) == Load(Success(Sheet(columns, [c])), p)
  {
    var sb, sc := [b], [c];
    assert sb + sc == [b, c];
    LoadConcat(columns, sb, sc, p);
  }

  /** Loading three rows whose middle one is dropped yields what the outer two yield alone. */
  lemma {:induction false} LoadDropsMiddle(columns: seq<string>, a: RawRow, b: RawRow, c: RawRow, p: Parsers)
    requires HasRequiredColumns(columns)
    requires Load(Success(Sheet(columns, [b])), p) == []
    ensures Load(Success(Sheet(columns, [a, b, c])), p)
      == Load(Success(Sheet(columns, [a])), p) + Load(Success(Sheet(columns, [c])), p)
  {
    var first, rest := [a], [b, c];
    assert first + rest == [a, b, c];
    LoadConcat(columns, first, rest, p);
    LoadDropsFirst(columns, b, c, p);
  }

  /** Three rows: the serve row and the attack sub-label row survive, in order; the
      rollup row between them is removed. */
  lemma ServeRollupAttackKept(p: Parsers)
    ensures Load(Success(Sheet(Header, [ServeRow, RollupRow, AttackRow])), p)
      == [Processed(ServeRow, p), Processed(AttackRow, p)]
  {
    HeaderHasRequiredColumns();
    RollupRowDropped(p);
    LoadDropsMiddle(Header, ServeRow, RollupRow, AttackRow, p);
    ServeRowKept(p);
    AttackRowKept(p);
  }

  /** The same three rows: the survivors carry efficiencies 0.8 and 0.75. */
  lemma ServeRollupAttackScenario(p: Parsers)
    requires p.number("8") == Some(8.0) && p.number("2") == Some(2.0) && p.number("10") == Some(10.0)
    requires p.number("3") == Some(3.0) && p.number("1") == Some(1.0) && p.number("4") == Some(4.0)
    ensures var out := Load(Success(Sheet(Header, [ServeRow, RollupRow, AttackRow])), p);
      |out| == 2
      && out[0].row.fundamental == "Saque - Curto" && out[0].category == ServeText
      && out[0].computedTotal == 10.0 && out[0].efficiency == 0.8
      && out[1].row.fundamental == "Ataque - Diagonal" && out[1].category == AttackPrefix
      && out[1].computedTotal == 4.0 && out[1].efficiency == 0.75
  {
    ServeRollupAttackKept(p);
    ServeRowProcessed(p);
    AttackRowProcessed(p);
  }
}
