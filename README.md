# Sheet annotator of datasus-stat-proc, in Dafny

The scripts of datasus-stat-proc add completeness percentages to the worksheets
of an Excel workbook. For each worksheet they:

1. find the first cell, in row-major order, whose text contains the marker
   "Período" (or "Periodo"), ignoring case;
2. take the row below the marker as the header row;
3. take the data rectangle from two rows below the marker, column 2, down to
   the row above the last row and across to the last column;
4. write two headers, two formulas per data row (`=COUNT(..)/COUNTA(..)` and
   `=1-ref`) and a trailer with the overall ratios.

Sheets that are too short, or have no marker, are collected by title into a
short text report. There are two versions of the annotator:

- the class `PlanilhaProcessor` in `trata_planilhas.py`;
- the functions of `trata_modelo.py`, which differ in their row threshold,
  their missing-marker handling, the spelling of the marker and the trailer.

The model keeps openpyxl's worksheet as a class, `Sheets.Worksheet`. It holds a
title, a map from `(row, column)` to cells and the current bounds. A cell has
a value, a number format and a "styled" flag, openpyxl's `has_style`. Formulas are terms
(`CountRatio`, `OneMinus`) over 1-based cell references, never evaluated.

The library behaviour the scripts rely on is written out in `sheets.dfy`:

- every `ws.cell(row, column)` stores the cell and widens the bounds;
- `value=None` leaves a stored value alone;
- row or column 0 raises.

Each operation that changes a sheet is a method proved equal to a
specification function on snapshots (`SheetData`). Each specification
function is described cell by cell, against a reference definition, by
lemmas. An exception that ends a script is an outcome, `Crashed`, which
stops the workbook loop.

Modules, in dependency order:

- `Sheets` (sheets.dfy): cells, snapshots, the `Worksheet` class and its four primitive writes.
- `CellSearch` (cell_search.dfy): `buscar_celula_por_texto`, in all three copies.
- `SheetLimits` (sheet_limits.dfy): `obter_limites_planilha`, `planilha_esta_vazia` and the example classification loop.
- `SheetLibrary` (sheet_library.dfy): the writing helpers of `gerenciador_biblioteca_openpyxl.py`.
- `Annotation` (annotation.dfy): the layout, headers and per-row formulas both versions write.
- `SkipReport` (skip_report.dfy): the list of skipped titles and the report text.
- `WorkbookPass` (workbook_pass.dfy): steps of a pass over the workbook, the first raise, the counter.
- `SheetProcessor` (sheet_processor.dfy): the class-based version.
- `ModelScript` (model_script.dfy): the function-based version, and how it compares with the class-based one.

The two versions differ in these points, and the model follows each one's code:

- neither computes a percentage: both write formula text, which the model keeps as terms;
- `trata_planilhas.py:67-70` skips a sheet without the marker, while `trata_modelo.py:62-63` reads the row of a search result that may be None, and so raises;
- `trata_planilhas.py:131-132` writes the separator one row above the first trailer label, while `trata_modelo.py:42-45` writes both into the same cell, so the label replaces the separator;
- `trata_planilhas.py:63` skips sheets of fewer than 3 rows (`< 3`), while `trata_modelo.py:80` processes only sheets of more than 3 rows (`> 3`), so a sheet of exactly 3 rows passes the class version's length test and fails the script's: holding "Período", it is annotated, or raises, in the class version and is skipped by the script.

## Model

Five specification functions carry no contract of their own; lemmas describe them:

- `SheetProcessor.ProcessStep` (trata_planilhas.py:60-86), the class version on one sheet: `SkipIff`, `ColumnPath`, `RelabelPath`, `RelabelCrash`, `StepByColumns`, `StepByRelabel`, `ProcessStepWellFormed`;
- `ModelScript.ScriptSheet` (trata_modelo.py:80-84), the script's loop body on one sheet: `ScriptSkipIff`, `ScriptPath`, `ThresholdsDiffer`, `MissingMarkerDiffers`, `ScriptStepWellFormed`;
- `SkipReport.ReportText` (trata_planilhas.py:143-147), the report text: `ReportRoundTrip`, `LinesOfJoin`;
- `SheetProcessor.Totals` (trata_planilhas.py:131-137), the class version's trailer: `TotalsAt`, `TotalsAreSteps`, `TotalsWellFormed`;
- `ModelScript.ScriptTotals` (trata_modelo.py:41-57), the script's trailer: `ScriptTotalsAt`, `ScriptTotalsAreSteps`, `ScriptTotalsWellFormed`.

| member | source | states |
|---|---|---|
| Sheets.Touched | trata_planilhas.py:74-75 | the looked-up cell lies within the new bounds, and a well-formed sheet stays well formed |
| Sheets.Assigned | trata_modelo.py:21-22 | the assigned cell lies within the new bounds, and a well-formed sheet stays well formed |
| Sheets.Formatted | trata_modelo.py:35 | the formatted cell lies within the new bounds, and a well-formed sheet stays well formed |
| Sheets.Stored | gerenciador_biblioteca_openpyxl.py:104 | the stored cell lies within the new bounds, and a well-formed sheet stays well formed |
| Sheets.TouchedAt | trata_planilhas.py:74-75 | looking a cell up changes no cell's contents and keeps the title; the bounds become the old ones widened to that cell |
| Sheets.AssignedAt | trata_modelo.py:21-22 | `cell.value = v` changes only that cell's value, keeping its format and the title; the bounds widen to that cell |
| Sheets.FormattedAt | trata_modelo.py:35 | assigning a number format changes only that cell's format, and marks it styled unless the format is "General"; the title stays and the bounds widen to that cell |
| Sheets.StoredAt | gerenciador_biblioteca_openpyxl.py:104 | `cell(row, column, value=v)` assigns v, except that None leaves every cell as it was; the title stays and the bounds widen to that cell |
| Sheets.Worksheet.Touch | trata_modelo.py:65 | the sheet after a lookup is `Touched` of the sheet before, and stays well formed |
| Sheets.Worksheet.Assign | trata_modelo.py:22 | the sheet after a value assignment is `Assigned` of the sheet before |
| Sheets.Worksheet.AssignFormat | trata_modelo.py:35 | the sheet after a format assignment is `Formatted` of the sheet before |
| Sheets.Worksheet.Store | gerenciador_biblioteca_openpyxl.py:104 | the sheet after `cell(row, column, value=v)` is `Stored` of the sheet before |
| Sheets.States | trata_planilhas.py:158 | the snapshots of the workbook's sheets, one per sheet, in workbook order |
| CellSearch.Lower | gerenciador_biblioteca_openpyxl.py:76 | lower-casing keeps the length, moves each ASCII or Latin-1 capital 32 code points down to its small letter, leaves every other character alone, and leaves no capital |
| CellSearch.Find | gerenciador_biblioteca_openpyxl.py:76-81 | a result is an in-bounds cell holding a non-empty string that contains the text, ignoring case; no cell before it in row-major order matches; None exactly when no cell matches |
| CellSearch.ScanFrom | busca_celula_por_texto.py:14-19 | the scan from (r, c) returns the first matching cell at or after (r, c), or None when none from there matches |
| CellSearch.SearchRows | trata_modelo.py:6-13 | the nested row and column loops with early return give exactly `Find`'s result and write nothing |
| CellSearch.EmptyTextMatchesNonEmptyStrings | gerenciador_biblioteca_openpyxl.py:79 | the empty text matches exactly the non-empty strings: None, numbers and "" never match |
| CellSearch.NothingToFindWithoutText | busca_celula_por_texto.py:17 | a sheet whose cells are all None, numbers, formulas or "" has nothing to find |
| CellSearch.LowerIdempotent | busca_celula_por_texto.py:14 | lower-casing twice is lower-casing once |
| CellSearch.ScanIgnoresTextCase | busca_celula_por_texto.py:14-18 | two texts that lower-case alike give the same scan result from any position |
| CellSearch.FindIgnoresTextCase | busca_celula_por_texto.py:14 | searching for a text finds what searching for its lower-cased form finds |
| CellSearch.TooLongNotContained | gerenciador_biblioteca_openpyxl.py:79 | Python's `in` on strings: a needle longer than the haystack is not contained |
| CellSearch.SameLengthContains | gerenciador_biblioteca_openpyxl.py:79 | between strings of equal length, `in` is equality |
| CellSearch.FindWidened | trata_planilhas.py:74-78 | widening the bounds over cells that do not match leaves the search result unchanged |
| SheetLimits.Limits | obter_limites_planilha.py:3-6 | returns the last row and column; on a well-formed sheet both are at least 1 and cover every stored cell |
| SheetLimits.IsBlankSheet | obter_limites_planilha.py:8-14 | true exactly when every cell within the bounds holds None |
| SheetLimits.FalsyValuesAreNotBlank | obter_limites_planilha.py:12-13 | a sheet holding "" or 0 within its bounds is not empty, since the test is `is not None` |
| SheetLimits.BlankSheetHasNoMatch | obter_limites_planilha.py:8-14 | an empty sheet has no cell to find, whatever the text |
| SheetLimits.ClassifyAll | obter_limites_planilha.py:18-25 | one classification per sheet, in order; a sheet is reported short exactly when it is not empty and has fewer than 3 rows |
| SheetLibrary.Added | gerenciador_biblioteca_openpyxl.py:104-107 | the written cell lies within the new bounds, and a well-formed sheet stays well formed |
| SheetLibrary.AddedAt | gerenciador_biblioteca_openpyxl.py:104-107 | `adicionar_celula` changes only its cell: a value other than None replaces the value, a non-empty format replaces the format; the title stays and the bounds widen to that cell |
| SheetLibrary.AddedIsStoreThenFormat | gerenciador_biblioteca_openpyxl.py:104-106 | the helper is the library's store followed, only when a format is given, by the format assignment |
| SheetLibrary.AddCell | gerenciador_biblioteca_openpyxl.py:83-107 | raises before any change for a row or column below 1; otherwise the sheet becomes `Added` of the sheet before |
| SheetLibrary.FormatCell | gerenciador_biblioteca_openpyxl.py:109-112 | raises for a row or column below 1; otherwise only that cell's format changes, to any string given, "" included |
| SheetLibrary.ColumnFormattedAt | gerenciador_biblioteca_openpyxl.py:147-150 | exactly rows 1 to k of the column get the format; values and all other cells stay |
| SheetLibrary.ColumnFormattedBounds | gerenciador_biblioteca_openpyxl.py:147-150 | formatting keeps the title, reaches row k and covers the column |
| SheetLibrary.FormatColumn | gerenciador_biblioteca_openpyxl.py:131-150 | the loop formats rows 1 to the last row read before it; a column below 1 raises before any change |
| SheetLibrary.CopyStep | gerenciador_biblioteca_openpyxl.py:120-127 | copying one cell changes only the destination cell at the same position, the format only when the source is styled |
| SheetLibrary.GeneralFormatNotCopied | gerenciador_biblioteca_openpyxl.py:123-127 | an unstyled source cell formatted "General" stays unstyled, so the copy keeps the destination's format |
| SheetLibrary.CopiedFromAt | gerenciador_biblioteca_openpyxl.py:118-127 | every source cell from the start position on lands at the same position; every other destination cell stays |
| SheetLibrary.CopiedFromBounds | gerenciador_biblioteca_openpyxl.py:118-120 | the copy keeps the destination's title and widens its bounds to the source's |
| SheetLibrary.CopyWithFormat | gerenciador_biblioteca_openpyxl.py:114-129 | the nested loops leave the destination as `CopiedFrom` of the source over the whole source |
| Annotation.LayoutOf | trata_planilhas.py:73-75 | with a marker in the sheet, the header row is at least 1 and the data start at a real cell in the row below it; the data end names a real cell exactly when the sheet has at least 2 rows and a column, and then the layout is placed and its data end at or above the last row; every data cell lies within the bounds read before any write and below the header row; every cell within those bounds is at or above the last row and at or left of the last column |
| Annotation.HeaderColumnsAreSteps | trata_planilhas.py:100-101 | the two headers are two `adicionar_celula` calls without a format |
| Annotation.HeaderColumnsAt | trata_planilhas.py:100-101 | the header row gets the two labels right of the last column, keeping their formats; nothing else changes |
| Annotation.HeaderColumnsWellFormed | trata_planilhas.py:100-101 | the two headers keep a well-formed sheet well formed |
| Annotation.RowCellsAt | trata_planilhas.py:118-119 | a data row gets the ratio over its own data cells and one minus it, both in "0.00%"; nothing else changes; the title stays and the bounds widen to the row and both new columns |
| Annotation.RowCellsAreSteps | trata_planilhas.py:118-119 | a row's two cells are two `adicionar_celula` calls with the percentage format |
| Annotation.RowFormulasAt | trata_planilhas.py:115-119 | every row from the first data row to the last gets both formulas; no cell is written when the first is past the last |
| Annotation.RowFormulasWellFormed | trata_planilhas.py:115-119 | the row loop keeps a well-formed sheet well formed |
| Annotation.RowFormulasBounds | trata_planilhas.py:115-119 | the row loop keeps the title and reaches the last data row and the second new column |
| SkipReport.LinesOfJoin | trata_planilhas.py:146-147 | reading back the lines of the titles, each followed by a newline, gives the titles |
| SkipReport.ReportRoundTrip | trata_planilhas.py:143-147 | a report exists exactly when some sheet was skipped; its lines are the header line and then the skipped titles, in order |
| SkipReport.SkippedIndicesSpec | trata_planilhas.py:64-69 | the skipped indices are ascending, each within range and skipped, and every skipped index is among them |
| SkipReport.SkippedTitlesStep | trata_planilhas.py:158-159 | one more turn of the loop appends the sheet's title when it is skipped, and nothing when it raised |
| SkipReport.SkippedTitlesInOrder | trata_planilhas.py:158-159 | the collected titles are those of exactly the skipped sheets, each once, in workbook order |
| WorkbookPass.FirstCrash | trata_planilhas.py:158-159 | the index of the first step that raised, or the number of steps: no earlier step raised |
| WorkbookPass.FirstCrashIs | trata_planilhas.py:158-159 | an index before which nothing raised, and at which a step raised or the steps end, is the first raise |
| WorkbookPass.Progress | trata_planilhas.py:158-159 | after k turns the workbook has as many sheets as before, and sheets k onwards are still their snapshots |
| WorkbookPass.ProgressNone | trata_planilhas.py:158 | before the first turn, every sheet is its snapshot |
| WorkbookPass.ProgressStep | trata_planilhas.py:159 | a turn on sheet k replaces exactly sheet k with its step's result |
| WorkbookPass.ReachedWellFormed | trata_planilhas.py:158-159 | when every step keeps a well-formed sheet well formed, every well-formed sheet is still well formed wherever the loop stopped |
| WorkbookPass.CountsCoverSheets | trata_modelo.py:75-84 | without a raise, the processed counter plus the number of skipped titles is the number of sheets gone through |
| SheetProcessor.TotalsAreSteps | trata_planilhas.py:131-137 | the trailer's five `adicionar_celula` calls amount to writing the five trailer cells |
| SheetProcessor.TotalsAt | trata_planilhas.py:131-137 | separator below the last row; then the complete label and the ratio over the whole rectangle; then the absent label and one minus that ratio; nothing else changes |
| SheetProcessor.MarkedOutcome | trata_planilhas.py:78-81 | after the lookups, processing raises exactly when the first "dados faltantes" cell is in column 1 |
| SheetProcessor.TotalsWellFormed | trata_planilhas.py:131-137 | the trailer keeps a well-formed sheet well formed |
| SheetProcessor.AnnotatedWellFormed | trata_planilhas.py:83-86 | the column path keeps a well-formed sheet well formed |
| SheetProcessor.MarkedStepWellFormed | trata_planilhas.py:77-86 | after the lookups, every branch, the raising one included, keeps a well-formed sheet well formed |
| SheetProcessor.ProcessStepWellFormed | trata_planilhas.py:60-86 | processing a sheet keeps a well-formed sheet well formed, whatever the outcome |
| SheetProcessor.PassWellFormed | trata_planilhas.py:158-159 | in a pass, each step on a well-formed sheet leaves it well formed |
| SheetProcessor.SkipIff | trata_planilhas.py:62-70 | a sheet is skipped exactly when it has fewer than 3 rows or no marker, and then it is left as it was |
| SheetProcessor.TouchedSearch | trata_planilhas.py:74-78 | the search for "dados faltantes" after the two lookups finds what it would have found before them |
| SheetProcessor.StepByColumns | trata_planilhas.py:77-86 | without a "dados faltantes" cell, the sheet takes the column path on the sheet after the two lookups |
| SheetProcessor.AnnotatedAt | trata_planilhas.py:83-86 | the column path, cell by cell, and the bounds it reaches |
| SheetProcessor.ColumnPath | trata_planilhas.py:73-86 | headers below the marker, both formulas in every data row, the trailer, all else as it was; 3 rows and 2 columns added |
| SheetProcessor.RelabelledAt | trata_planilhas.py:80-86 | the relabel path, cell by cell, and the bounds it reaches |
| SheetProcessor.StepByRelabel | trata_planilhas.py:77-81 | with a "dados faltantes" cell, the sheet takes the relabel path, or raises when that cell is in column 1 |
| SheetProcessor.RelabelPath | trata_planilhas.py:78-86 | a "dados faltantes" cell past column 1 and its left neighbour are relabelled and the trailer written, without row formulas |
| SheetProcessor.RelabelCrash | trata_planilhas.py:79-81 | a "dados faltantes" cell in column 1 is relabelled and then processing raises, every other cell as it was |
| SheetProcessor.LookupsKeepCells | trata_planilhas.py:74-75 | the two lookups of the rectangle's corners change no cell's contents |
| SheetProcessor.PassExists | trata_planilhas.py:158-159 | every workbook has a pass of steps, one per sheet |
| SheetProcessor.Processor.constructor | trata_planilhas.py:38 | the processor starts with the workbook's sheets and an empty list of skipped titles |
| SheetProcessor.Processor.AddHeaderColumns | trata_planilhas.py:100-102 | the sheet becomes `HeaderColumns`; the returned columns are last column + 1 and + 2 |
| SheetProcessor.Processor.RowPercentages | trata_planilhas.py:115-119 | the row loop leaves the sheet as `RowFormulas` from the first data row |
| SheetProcessor.Processor.OverallPercentages | trata_planilhas.py:131-137 | the sheet becomes `Totals` of the sheet before |
| SheetProcessor.Processor.RelabelColumns | trata_planilhas.py:79-81 | the "dados faltantes" cell gets the absent header; true exactly when it has a left neighbour, which then gets the obtained header; false after the first write, when that neighbour would be column 0 |
| SheetProcessor.Processor.AddColumns | trata_planilhas.py:83-84 | the two headers and the row loop leave the sheet as `Columns`: the header row and every data row get the two new columns |
| SheetProcessor.Processor.ProcessSheet | trata_planilhas.py:60-86 | the sheet ends as the step function says; false exactly when it raised; a skipped sheet's title is appended; a well-formed sheet stays well formed |
| SheetProcessor.Processor.AnnotateSheet | trata_planilhas.py:74-86 | the two lookups, then relabel (raising in column 1) or add the columns, then the trailer: the sheet ends as `MarkedStep` of the sheet after the lookups, false exactly when it raised, and a well-formed sheet stays well formed |
| SheetProcessor.Processor.ProcessAt | trata_planilhas.py:158-159 | one sheet of the loop ends as its step, nothing else changes, and its title is appended when skipped |
| SheetProcessor.Processor.Turn | trata_planilhas.py:158-159 | one turn either keeps the loop invariant for one more sheet or records the first raise |
| SheetProcessor.Processor.RunSheets | trata_planilhas.py:158-159 | the loop runs through all sheets, or stops at the first raise |
| SheetProcessor.Processor.Process | trata_planilhas.py:153-164 | sheets in order until one raises; sheets up to it end as their steps, later ones untouched; the list holds the skipped titles in order; the report only when nothing raised; every well-formed sheet stays well formed |
| ModelScript.ScriptTotalsAreSteps | trata_modelo.py:42-57 | the script's trailer assignments, separator first, amount to the trailer without the separator |
| ModelScript.ScriptTotalsAt | trata_modelo.py:41-57 | complete label and the ratio over the rectangle in the row below the last; absent label and one minus that ratio in the next; nothing else changes |
| ModelScript.ScriptTotalsWellFormed | trata_modelo.py:41-57 | the two-row trailer keeps a well-formed sheet well formed |
| ModelScript.ScriptedWellFormed | trata_modelo.py:69-71 | the three writes after the lookups keep a well-formed sheet well formed |
| ModelScript.ScriptStepWellFormed | trata_modelo.py:59-84 | `processar_planilha`, and the loop body around it, keep a well-formed sheet well formed, whatever the outcome |
| ModelScript.ScriptPassWellFormed | trata_modelo.py:79-84 | in a pass, each step on a well-formed sheet leaves it well formed |
| ModelScript.ScriptStep | trata_modelo.py:59-71 | `processar_planilha` never skips: it annotates or raises |
| ModelScript.ScriptSkipIff | trata_modelo.py:80-84 | a sheet is skipped exactly when it has at most 3 rows, untouched; a longer one without the marker raises, untouched |
| ModelScript.ScriptedCell | trata_modelo.py:69-71 | one cell of the headers, row formulas and trailer, against its reference definition |
| ModelScript.ScriptedBounds | trata_modelo.py:69-71 | the annotation keeps the title and reaches two rows below the last and two columns right of it |
| ModelScript.TouchedScripted | trata_modelo.py:65-71 | the annotation after the two lookups, stated against the sheet before them |
| ModelScript.ScriptPath | trata_modelo.py:59-71 | headers below the marker, both formulas in every data row, the two-row trailer, all else as it was; 2 rows and 2 columns added |
| ModelScript.ThresholdsDiffer | trata_modelo.py:80 | a sheet of exactly 3 rows with the accented marker is skipped untouched by this version and not skipped by the class version, which on a well-formed sheet annotates it, or raises when the first "dados faltantes" cell is in column 1 |
| ModelScript.MissingMarkerDiffers | trata_modelo.py:62-63 | a long sheet with neither marker spelling is skipped untouched by the class version and raises in this one |
| ModelScript.AccentedMarkerUnseen | trata_modelo.py:62 | a cell holding "Período" in any capitalisation matches the class version's marker but not "Periodo" |
| ModelScript.ScriptSearchIgnoresCase | busca_celula_por_texto.py:23-25 | searching for "PERIODO" finds the same cell as searching for "Periodo" |
| ModelScript.PathCellsAgree | trata_modelo.py:42-45 | the two column paths agree on every row up to the last; the row below it holds the separator in one and the complete label in the other |
| ModelScript.VersionsAgreeAboveTrailer | trata_modelo.py:29-57 | on a sheet both versions annotate from markers in the same row, all rows up to the last end up equal; below, the class version keeps the separator and reaches one row further |
| ModelScript.ScriptHeaders | trata_modelo.py:20-27 | the two header assignments leave the sheet as `HeaderColumns`; the columns are last column + 1 and + 2 |
| ModelScript.ScriptRowCellsAreSteps | trata_modelo.py:33-39 | value then format, for each of a row's two cells, amounts to `RowCells` |
| ModelScript.ScriptRowPercentages | trata_modelo.py:29-39 | the row loop leaves the sheet as the class version's `RowFormulas` |
| ModelScript.ScriptOverall | trata_modelo.py:41-57 | the sheet becomes `ScriptTotals` of the sheet before |
| ModelScript.ScriptAnnotate | trata_modelo.py:69-71 | the three writes after the lookups leave the sheet as `Scripted` |
| ModelScript.ScriptProcessSheet | trata_modelo.py:59-71 | the sheet ends as `ScriptStep` says; false exactly when it raised; a well-formed sheet stays well formed |
| ModelScript.ScriptPassExists | trata_modelo.py:79 | every workbook has a pass of the loop body, one step per sheet |
| ModelScript.ScriptSheetBody | trata_modelo.py:80-84 | the loop body ends the sheet as `ScriptSheet` says, counts it when processed and lists it when skipped |
| ModelScript.ScriptAt | trata_modelo.py:79-84 | sheet i ends as step i, the counter and the list move by step i, nothing else changes |
| ModelScript.ScriptTurn | trata_modelo.py:79-84 | one turn either keeps the loop invariant for one more sheet or records the first raise |
| ModelScript.ScriptRun | trata_modelo.py:79-84 | the loop runs through all sheets, or stops at the first raise |
| ModelScript.ProcessWorkbook | trata_modelo.py:73-94 | sheets in order until one raises; the counter counts the processed, the list the skipped, together the whole workbook; the report only when nothing raised; every well-formed sheet stays well formed |

## Left out

- Loading and saving workbooks (`carregar_planilha`, `abrir_arquivo`, `wb.save`), `abrir_planilha.py`, argparse and every `print`: they are input and output. The model returns the report text instead of writing `planilhas_nao_processadas.txt`, and the counter instead of printing it.
- `calcula_completude_planilhas.py`: a script of file input and output and floating-point averages over a helper module not shown here.
- `remover_coluna`: it delegates to openpyxl's `delete_cols`, which is not part of this model. `renomear_planilha` is a single field assignment.
- Evaluation of `COUNT`/`COUNTA`: formulas stay uninterpreted terms. Column letters and coordinates are not rendered: formulas refer to cells by row and column numbers.
- Formula cells never match the text search, because their rendered text would need column letters.
- Python's Unicode `str.lower`: the model lowers ASCII and the Latin-1 capitals only.
- Sheets.Formatted: the styled flag does not record which parts of a style are set. A cell whose only style is its number format keeps the flag when that format is set back to "General", where openpyxl's `has_style` becomes false; `CopyWithFormat` then copies that "General".
- Styles other than the number format, such as alignment, fonts and borders. `copiar_planilha_com_formatacao` copies the alignment too, and that copy is not modelled.
- openpyxl's upper limits on the grid: it raises for a row above 1048576 or a column above 16384, so the trailer written below the last row would raise on a full sheet. The model's grid is unbounded and no write raises for being too far down or right.
- openpyxl's own `max_row`/`max_column` bookkeeping: the bounds are sheet fields that grow with every cell looked up or written, as `ws.cell` does.
- SheetLibrary.CopyWithFormat: requires distinct source and destination worksheets; copying a sheet onto itself is not modelled.
- SheetLibrary.AddCell: returns whether the call went through, not the cell object `adicionar_celula` returns. Its callers use only the cell's row and column, which the model passes as numbers.
- SheetLibrary.FormatCell: returns whether the call went through, not the cell object `formata_celula` returns, for the same reason.
- SheetProcessor.Processor.Process: an exception ends the script, so the sheets after it are never processed and nothing is saved or reported. The method returns `ok = false` instead of raising, and its ghost `steps` out-parameter exists only to state the contract.
- ModelScript.ProcessWorkbook: raises in the same way, modelled the same way, with a ghost `steps` out-parameter.
- ModelScript.ScriptStep: its own contract only says the step never skips. Its cell-by-cell result is stated by `ScriptPath`, `ScriptSkipIff` and `MissingMarkerDiffers`.
- The workbook loops are split into helpers (`ProcessAt`/`Turn`/`RunSheets`, `ScriptSheetBody`/`ScriptAt`/`ScriptTurn`/`ScriptRun`). The loops themselves are the same as the source's.
