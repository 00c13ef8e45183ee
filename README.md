# Volleyball training dashboard: the data pipeline

This project models the data pipeline of a volleyball training dashboard (`dashboard_data.py`).
The dashboard reads hand-entered worksheet rows. Each row records one fundamental ("Saque - Curto",
"Ataque - Diagonal", "Levantamento - Bom (não considere manchete)", ...) with its correct, wrong and
total counts. The pipeline turns these rows into a clean table in four stages:

1. **Cleaning** (`limpar_e_padronizar_dados`). An empty table is returned as it is. Otherwise:
   - column titles are trimmed;
   - rows without a date or a fundamental are dropped;
   - dates are parsed day-first;
   - the three count columns are coerced to numbers, and a value that does not parse becomes 0.
2. **Business rules** (`aplicar_regras_negocio_volei`):
   - the good-set sentinel label gets `correct := total, wrong := 0`;
   - the three fatal setting-error labels get `correct := 0, wrong := total`;
   - rollup rows labelled exactly "Levantamento" or "Ataque" are removed.
3. **Enrichment** (`identificar_categoria`, `calcular_metricas_performance`):
   - a category is chosen by first-match-wins rules on the stripped label;
   - `Total Calculado = correct + wrong`;
   - `Eficiencia = correct / Total Calculado`, or exactly 0.0 when that total is not positive.
4. **Facade** (`carregar_dados_processados`): runs the stages in order and fails closed. Any
   failure yields an empty table.

Modules, one per file:

| file | module | contents |
|---|---|---|
| `wrappers.dfy` | `Wrappers` | `Option`, `Result` |
| `seqs.dfy` | `Seqs` | order-preserving `Filter` (pandas boolean-mask selection) |
| `text.dfy` | `Text` | Python's `str.strip`, `startswith` and `in` on strings |
| `records.dfy` | `Records` | the constants of lines 12-17 and 25-37 (each sentinel label written as "Levantamento" followed by its qualifier, the same string); raw, cleaned and enriched rows; the parsers |
| `cleaning.dfy` | `Cleaning` | the cleaner, with the count-column loop in place on an array |
| `categories.dfy` | `Categories` | the categoriser and its rule-table reading |
| `business_rules.dfy` | `BusinessRules` | the corrections, in place on an array, and the rollup filter |
| `metrics.dfy` | `Metrics` | the recomputed total and the guarded efficiency |
| `pipeline.dfy` | `Pipeline` | the facade and its end-to-end properties |
| `examples.dfy` | `PipelineExamples` | concrete worksheets and what the pipeline makes of them |

How the source is modelled:
- **Rows.** A row is a record per stage: `RawRow` → `Row` → `EnrichedRow`. The columns the
  pipeline does not look at, such as "Local", travel along unchanged in `rest`.
- **Cells.** A raw cell is blank, a number or text.
- **Parsers.** `pd.to_datetime(dayfirst=True, errors='coerce')` and
  `pd.to_numeric(errors='coerce')` are the two functions of a `Parsers` value, passed in. Their
  results are `Option`s, and `None` is pandas' `NaT`/`NaN`.
- **Numbers.** Counts and efficiencies are real numbers.
- **Where the source changes a table in place**, the model does too:
  - `Cleaning.CoerceCountColumns` converts the count columns of an `array` one column at a time, as the loop at lines 83-84 does.
  - `BusinessRules.ApplyBusinessRules` assigns the corrected counts in the array and returns the filtered copy.
  - Each method is proved equal to a specification function (`Clean`, `CorrectAll`/`RemoveRollups`, `Load`), and the properties are proved about those functions.

## Model

| member | source | states |
|---|---|---|
| Text.Strip | dashboard_data.py:98 | the result is a contiguous slice of the input, with only whitespace removed on each side, and has no whitespace at either end |
| Text.SkipSpaces | dashboard_data.py:98 | the scan from the left stops at the first non-space character (or the end), and everything it passed is whitespace |
| Text.SkipSpacesBack | dashboard_data.py:98 | the scan from the right stops after the last non-space character (or at the left bound), and everything it passed is whitespace |
| Text.ContainsIffOccurs | dashboard_data.py:102-107 | the substring test `part in text` holds exactly when `part` occurs at some index of `text` |
| Cleaning.DropIncomplete | dashboard_data.py:76 | `dropna` on date and fundamental: a row is kept iff it is in the input and has both a date and a fundamental |
| Cleaning.ToNumber | dashboard_data.py:84 | `ReadsAs`: a number stays; text becomes its parsed value; a blank cell or text that does not parse becomes 0 |
| Cleaning.CoerceCountColumns | dashboard_data.py:82-84 | after the loop over the three count columns, every count cell of every row is numeric and equals `ToNumber` of the original cell; every other field is unchanged |
| Cleaning.NormalizeRow | dashboard_data.py:79-84 | a complete raw row becomes a typed row with its date parsed day-first, its label and other columns kept, and each of the three counts read as `ToNumber` reads it |
| Cleaning.Clean | dashboard_data.py:68-69 | an empty table is returned empty; cleaning never adds rows |
| Cleaning.CleanKeepsExactlyCompleteRows | dashboard_data.py:68-84 | every cleaned row is the normalised form of a raw row with a date and a fundamental, and every such raw row appears in the cleaned table |
| Cleaning.NormalizeAllConcat | dashboard_data.py:79-84 | typing the rows works row by row: it distributes over concatenation |
| Cleaning.CleanConcat | dashboard_data.py:76-84 | cleaning works row by row: cleaning `a + b` yields the cleaned `a` followed by the cleaned `b`, so relative order is kept |
| Cleaning.CleanData | dashboard_data.py:58-86 | the cleaner as run (early return, `dropna` copy, in-place column conversion) yields exactly `Clean` |
| Categories.Categorize | dashboard_data.py:88-109 | the category is one of the five names. It is "Ataque" iff the stripped label starts with "Ataque"; "Levantamento" iff not that and the label contains "Levantamento"; "Recepção" and "Saque" likewise in that order; otherwise "Outros" |
| Categories.FirstMatch | dashboard_data.py:100-109 | first-match-wins over a rule table: the category of the first matching rule, or the fallback when none matches |
| Categories.CategorizeIsFirstMatch | dashboard_data.py:98-109 | the chain of early returns equals first-match-wins over the table (prefix "Ataque", then the substrings "Levantamento", "Recepção", "Saque") on the stripped label, with "Outros" as fallback |
| Categories.AttackPrefixWins | dashboard_data.py:100-103 | a label starting with "Ataque" that also contains "Levantamento" is an attack |
| Categories.PaddedAttackIsAttack | dashboard_data.py:98-101 | " Ataque " is categorised "Ataque" because the label is stripped first |
| Categories.SettingLabelIsSetting | dashboard_data.py:100-103 | an unpadded label starting with "Levantamento" is a setting |
| Categories.SentinelLabelIsSetting | dashboard_data.py:32-37 | the good-set label and the three fatal-error labels are all categorised "Levantamento" |
| BusinessRules.ApplyGoodSetRule | dashboard_data.py:121-124 | for the good-set label, correct becomes total and wrong becomes 0; any other row is unchanged |
| BusinessRules.ApplyFatalErrorRule | dashboard_data.py:126-129 | for a fatal-error label, correct becomes 0 and wrong becomes total; any other row is unchanged |
| BusinessRules.Corrected | dashboard_data.py:121-129 | date, label, total and other columns are kept. For each of the four sentinel labels `correct + wrong` equals the recorded total; any other row is unchanged |
| BusinessRules.CorrectedIdempotent | dashboard_data.py:121-129 | applying both corrections twice equals applying them once |
| BusinessRules.CorrectAll | dashboard_data.py:121-129 | same length; date, label, total and other columns kept at every index. A good-set row gets correct = total and wrong = 0; a fatal-error row gets correct = 0 and wrong = total; every other row is unchanged |
| BusinessRules.ApplyRules | dashboard_data.py:121-135 | never more rows than the input; no output row has a rollup label; every output row is a corrected input row; every input row without a rollup label appears in the output corrected |
| BusinessRules.RemoveRollups | dashboard_data.py:133-135 | a row is kept iff it is in the input and its label is not exactly "Levantamento" or "Ataque" |
| BusinessRules.ApplyRulesConcat | dashboard_data.py:121-135 | the stage works row by row, so survivors keep their relative order |
| BusinessRules.ApplyRulesKeepsNonRollupTables | dashboard_data.py:133-135 | a table with no rollup label loses no row |
| BusinessRules.ApplyRulesIdempotent | dashboard_data.py:111-138 | applying the stage to its own output changes nothing |
| BusinessRules.ApplyBusinessRules | dashboard_data.py:111-138 | the in-place `loc` assignments leave the array equal to `CorrectAll` of its old contents; the returned table is that array without rollup rows |
| Metrics.Efficiency | dashboard_data.py:156-162 | with a positive total, efficiency × total = correct; otherwise exactly 0 (no division by zero); with 0 ≤ correct ≤ total it lies in [0, 1] |
| Metrics.EnrichRow | dashboard_data.py:150-162 | the row is kept; it gets the category of its label, a recomputed total of exactly correct + wrong, and the guarded efficiency of correct over that total (0.0 when the total is not positive); with non-negative counts the efficiency lies in [0, 1] |
| Metrics.Enrich | dashboard_data.py:150-162 | same rows in the same order. Each row gets the category of its label, a recomputed total of exactly correct + wrong, and the guarded efficiency of correct over that total: efficiency × total = correct when the total is positive, exactly 0.0 when it is not; in [0, 1] for non-negative counts |
| Metrics.EnrichConcat | dashboard_data.py:150-162 | enrichment works row by row |
| Metrics.GoodSetEfficiency | dashboard_data.py:153-162 | a corrected good-set row with positive total has recomputed total = recorded total and efficiency exactly 1.0 |
| Metrics.FatalErrorEfficiency | dashboard_data.py:153-162 | a corrected fatal-error row has recomputed total = recorded total and efficiency exactly 0.0 |
| Pipeline.TrimColumns | dashboard_data.py:72 | every column title is replaced by its stripped form, and the number of columns is kept |
| Pipeline.FirstMissing | dashboard_data.py:76-84 | reports a column the cleaner indexes iff one is absent (pandas raises `KeyError`), naming an absent one |
| Pipeline.FirstRepeated | dashboard_data.py:72-84 | reports a required column iff more than one trimmed title names it, naming such a column |
| Pipeline.Run | dashboard_data.py:166-182 | an unreadable source fails; a sheet with no rows gives an empty table; otherwise it fails iff some required column is not named by exactly one trimmed title, and the failure names a column that is absent or repeated; a successful run never has more rows than the sheet |
| Pipeline.Load | dashboard_data.py:174-182 | fail closed: an unreadable source, or a sheet whose trimmed titles lack or repeat a required column, gives the empty table |
| Pipeline.RepeatedTitleFails | dashboard_data.py:72-84 | a title that trims to a required column another title already names fails the column check, and the facade returns the empty table |
| Pipeline.LoadIsStages | dashboard_data.py:175-178 | on a non-empty sheet where each required column is named by exactly one trimmed title, the result is the cleaner, the rules and the enrichment applied in that order |
| Pipeline.StagesRowTraces | dashboard_data.py:175-178 | any row output by the three stages is the processed form of a raw row with a date, a label, and no rollup label |
| Pipeline.StagesKeepRow | dashboard_data.py:175-178 | any raw row with a date and a label that is not a rollup label appears, processed, in the output of the three stages |
| Pipeline.LoadRowsTraceToKeptRows | dashboard_data.py:174-178 | every output row is the processed form of a raw row with a date and a label not exactly a rollup label |
| Pipeline.LoadKeepsCompleteNonRollupRows | dashboard_data.py:174-178 | when each required column is named by exactly one trimmed title, every raw row with a date and a non-rollup label is in the output, processed |
| Pipeline.ProcessedEfficiency | dashboard_data.py:153-162 | a row whose counts read as non-negative ends with efficiency in [0, 1] and recomputed total correct + wrong |
| Pipeline.LoadEfficiencyInUnitInterval | dashboard_data.py:158-162 | if every count in the sheet reads as non-negative, every output efficiency lies in [0, 1] and every recomputed total is correct + wrong |
| Pipeline.ProcessedEfficiencyShare | dashboard_data.py:156-162 | a processed row's efficiency is the guarded ratio of its correct count to correct + wrong, and exactly 0.0 when that total is not positive |
| Pipeline.LoadEfficiencyIsCorrectShare | dashboard_data.py:156-162 | for any sheet, every output row's recomputed total is correct + wrong and its efficiency is the guarded ratio of correct to that total, exactly 0.0 when it is not positive, whatever the signs of the counts |
| Pipeline.LoadConcat | dashboard_data.py:174-178 | the pipeline works row by row: the output for `a + b` is the output for `a` followed by that for `b` |
| Pipeline.LoadSingleRow | dashboard_data.py:174-178 | a one-row sheet yields that row processed if it is complete and not a rollup row, and nothing otherwise |
| Pipeline.TrimUnpaddedColumns | dashboard_data.py:72 | titles without surrounding whitespace are unchanged by trimming |
| Pipeline.LoadProcessedData | dashboard_data.py:166-182 | the facade as run (cleaner, in-place rules, enrichment, early returns on failure) yields exactly `Load` |
| PipelineExamples.HeaderTitlesDistinct | dashboard_data.py:12-17 | each of the six column titles occurs once among them |
| PipelineExamples.HeaderHasRequiredColumns | dashboard_data.py:12-17 | the worksheet's six column titles name every column the stages index, each exactly once |
| PipelineExamples.PaddedRepeatedDateTitleFails | dashboard_data.py:72-79 | the six titles plus "Data " (trailing space) yield nothing, even with a serve row: trimmed, two titles read "Data" |
| PipelineExamples.NotSentinel | dashboard_data.py:32-37 | a label not starting with 'L' is none of the four sentinel labels |
| PipelineExamples.ServeLabelIsServe | dashboard_data.py:102-107 | an unpadded label starting with "Saque" that contains no 'L' and no 'R' is a serve |
| PipelineExamples.ServeLabelCategory | dashboard_data.py:106-107 | "Saque - Curto" is categorised "Saque" |
| PipelineExamples.AttackLabelIsAttack | dashboard_data.py:100-101 | an unpadded label starting with "Ataque" is an attack |
| PipelineExamples.ServeRowProcessed | dashboard_data.py:150-162 | "Saque - Curto" with 8 correct and 2 wrong becomes a serve with total 10 and efficiency 0.8 |
| PipelineExamples.AttackRowProcessed | dashboard_data.py:150-162 | "Ataque - Diagonal" with 3 correct and 1 wrong becomes an attack with total 4 and efficiency 0.75 |
| PipelineExamples.ServeRowKept | dashboard_data.py:174-178 | a sheet holding the serve row yields that row, processed |
| PipelineExamples.AttackRowKept | dashboard_data.py:133-135 | the attack sub-label row is not a rollup row and survives |
| PipelineExamples.RollupRowDropped | dashboard_data.py:133-135 | a row labelled exactly "Ataque" yields nothing |
| PipelineExamples.PaddedRollupKeptAsAttack | dashboard_data.py:98-135 | " Ataque " survives rollup removal (exact comparison) and is categorised "Ataque" (stripped comparison) |
| PipelineExamples.LoadDropsFirst | dashboard_data.py:174-178 | a row that yields nothing alone adds nothing in front of another row |
| PipelineExamples.LoadDropsMiddle | dashboard_data.py:174-178 | if the middle of three rows yields nothing alone, the three rows yield the outer two's outputs in order |
| PipelineExamples.ServeRollupAttackKept | dashboard_data.py:131-135 | serve, rollup and attack rows yield the processed serve and attack rows, in that order |
| PipelineExamples.ServeRollupAttackScenario | dashboard_data.py:166-182 | the same sheet yields exactly two rows: a serve with efficiency 0.8, then an attack with efficiency 0.75 |

## Left out

- `obter_conexao_e_dados_brutos` (the Google Sheets read of worksheet "Página1" with header row 1) is not modelled. Its outcome is the `source` argument: a `Result` holding the sheet, or the reason the read failed.
- `st.error` reporting is left out. The `try`/`except` of the facade is modelled only as "on any failure, return an empty table", and the `Failure` value of `Pipeline.Run` says which failure it was.
- pandas date and number parsing are abstract functions. The `dd/mm/yyyy` grammar and pandas' number syntax are not modelled.
- Floating point is not modelled: counts and efficiencies are real numbers, so there is no rounding, `inf` or `NaN`.
- A non-string fundamental (a number typed into the label column, turned into text by `str(...)` before categorising) is not modelled. Labels are strings or blank.
- In the source the date column is parsed before the count columns are converted; the model parses dates when it builds the typed row, after the conversion. The two are independent columns, so the result is the same.
- On a sheet with no rows, the cleaner returns the table unchanged and the later stages may raise on a missing column, which the facade turns into an empty table. The model returns the empty table directly, without distinguishing the two ways.
- `Cleaning.NormalizeAllConcat`, `Cleaning.CleanConcat`, `Pipeline.LoadConcat`, `PipelineExamples.LoadDropsFirst`, `PipelineExamples.LoadDropsMiddle`: the date parser is modelled cell by cell. `pd.to_datetime` without an explicit format infers one format from the column's values (pandas 2.0 and later) and applies it to the whole column, so how one date cell parses can depend on the other rows. These row-by-row laws, and the examples built on them, hold for the date field only under the per-cell abstraction. A dropped row (a rollup row, say) still takes part in that column-wide guess, since rollup rows are removed after the dates are parsed. The counts, labels and other columns are converted cell by cell in the source too.
- Column-title trimming is modelled as a check that each required column is named by exactly one title after stripping. The renamed titles themselves are not carried into the output rows.
- `Pipeline.Run`: when one sheet both lacks a required column and repeats another, the model reports the missing one, while pandas raises on whichever the stages reach first. The output is the empty table either way. The failure value stands in for the `st.error` message, which is not modelled.
- `Metrics.Enrich`: the efficiency bound is stated for non-negative counts only, because the cleaner does not clamp negative numbers.
- `streamlit_app.py` (page layout, filters, caching, charts and display helpers), `configuracoes.py` (style constants) and `inspect_excel.py` (a command-line dump of a spreadsheet) are not part of this model. They are presentation or I/O, not pipeline logic.
