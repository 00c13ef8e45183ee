/** The domain constants of the pipeline and the row records of each stage:
    a raw spreadsheet row, a normalized row and an enriched row. */
module Records {
  import opened Wrappers

  /** Source column titles. */
  const DateColumn: string := "Data"
  const PlaceColumn: string := "Local"
  const LabelColumn: string := "Fundamentos"
  const CorrectColumn: string := "Quantidade correta"
  const WrongColumn: string := "Quantidade errada"
  const TotalColumn: string := "Quantidade total"

  /** Label fragments that decide a category, and the fallback category. */
  const AttackPrefix: string := "Ataque"
  const SettingText: string := "Levantamento"
  const ReceptionText: string := "Recepção"
  const ServeText: string := "Saque"
  const OtherCategory: string := "Outros"

  /** The "good set" fundamental, "Levantamento - Bom (não considere manchete)": only its
      total is recorded, and all of it is correct. Each sentinel label is written as the
      setting text followed by its qualifier, which spells the same string. */
  const GoodSetLabel: string := SettingText + " - Bom (não considere manchete)"

  /** The fatal setting errors: only their total is recorded, and all of it is wrong. */
  const NoAttackPossibleLabel: string := SettingText + " - Bola não permite ataque (Erro)"
  const DoubleTouchLabel: string := SettingText + " - Dois toque (Erro)"
  const CarryLabel: string := SettingText + " - Condução (Erro)"
  const FatalSetErrorLabels: seq<string> := [NoAttackPossibleLabel, DoubleTouchLabel, CarryLabel]

  /** A spreadsheet cell as read: empty, a number, or text (which may be a placeholder such as "-"). */
  datatype Cell = Blank | Num(value: real) | Str(text: string)

  /** A calendar date. */
  datatype Date = Date(year: int, month: int, day: int)

  /** The parsing the table library performs: a day-first date parser, where None is the
      "not a time" marker, and a number parser, where None is a failed conversion. */
  datatype Parsers = Parsers(date: Cell -> Option<Date>, number: string -> Option<real>)

  /** One spreadsheet row. The fundamental is None when its cell is empty; `rest` holds the
      cells of the columns the pipeline only carries along (place, training type, athlete). */
  datatype RawRow = RawRow(date: Cell, fundamental: Option<string>, correct: Cell, wrong: Cell, total: Cell, rest: seq<Cell>)

  /** A cleaned row: date parsed (None when unparseable), counts coerced to numbers. */
  datatype Row = Row(date: Option<Date>, fundamental: string, correct: real, wrong: real, total: real, rest: seq<Cell>)

  /** A row with the three columns the enrichment adds. */
  datatype EnrichedRow = EnrichedRow(row: Row, category: string, computedTotal: real, efficiency: real)

  /** A worksheet: its column titles as read, and its rows. */
  datatype Sheet = Sheet(columns: seq<string>, rows: seq<RawRow>)
}
