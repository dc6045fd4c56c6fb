/**
 * The function-based annotator: every worksheet with more than 3 rows is
 * annotated, with no guard for a missing "Periodo" marker, and the others are
 * counted out by title. It writes the same headers and per-row formulas as the
 * class-based one, but a trailer of two rows whose separator is overwritten.
 */
module ModelScript {
  import opened Sheets
  import opened CellSearch
  import opened SheetLimits
  import opened Annotation
  import opened SkipReport
  import opened WorkbookPass
  import opened SheetProcessor

  /** The marker this version searches for, written without the accent. */
  const ScriptMarkerText: string := "Periodo"

  /**
   * The trailer as it ends up: the overall ratio and its label in the row
   * below the last, one minus that ratio and its label in the row after.
   */
  function ScriptTotals(d: SheetData, first: Pos, last: Pos, lastRow: nat): SheetData {
    d.(cells := d.cells[Pos(lastRow + 1, 1) := At(d, Pos(lastRow + 1, 1)).(value := Str(CompleteLabel))]
                       [Pos(lastRow + 1, 2) := PercentCell(CountRatio(first.row, first.col, last.row, last.col))]
                       [Pos(lastRow + 2, 1) := At(d, Pos(lastRow + 2, 1)).(value := Str(AbsentLabel))]
                       [Pos(lastRow + 2, 2) := PercentCell(OneMinus(lastRow + 1, 2))],
       maxRow := Max(d.maxRow, lastRow + 2), maxCol := Max(d.maxCol, 2))
  }

  /** The trailer's assignments in the order the script makes them, the separator first. */
  function ScriptTotalsSteps(d: SheetData, first: Pos, last: Pos, lastRow: nat): SheetData {
    var s1 := Assigned(d, Pos(lastRow + 1, 1), Str(Separator));
    var s2 := Assigned(s1, Pos(lastRow + 1, 1), Str(CompleteLabel));
    var s3 := Formatted(Assigned(s2, Pos(lastRow + 1, 2), Formula(CountRatio(first.row, first.col, last.row, last.col))), Pos(lastRow + 1, 2), Percent);
    var s4 := Assigned(s3, Pos(lastRow + 2, 1), Str(AbsentLabel));
    Formatted(Assigned(s4, Pos(lastRow + 2, 2), Formula(OneMinus(lastRow + 1, 2))), Pos(lastRow + 2, 2), Percent)
  }

  /** The separator written first does not survive: the label assigned to the same cell replaces it. */
  lemma ScriptTotalsAreSteps(d: SheetData, first: Pos, last: Pos, lastRow: nat)
    ensures ScriptTotalsSteps(d, first, last, lastRow) == ScriptTotals(d, first, last, lastRow)
  {
    var p := Pos(lastRow + 1, 1);
    var s1 := Assigned(d, p, Str(Separator));
    var s2 := Assigned(d, p, Str(CompleteLabel));
    assert Assigned(s1, p, Str(CompleteLabel)) == s2;
    var q := Pos(lastRow + 1, 2);
    assert Formatted(Assigned(s2, q, Formula(CountRatio(first.row, first.col, last.row, last.col))), q, Percent).cells
        == s2.cells[q := PercentCell(CountRatio(first.row, first.col, last.row, last.col))];
    assert ScriptTotalsSteps(d, first, last, lastRow).cells == ScriptTotals(d, first, last, lastRow).cells;
  }

  /** Cell q, holding c, after the two-row trailer. */
  function ScriptTrailerCell(c: Cell, first: Pos, last: Pos, lastRow: nat, q: Pos): Cell {
    if q == Pos(lastRow + 1, 1) then c.(value := Str(CompleteLabel))
    else if q == Pos(lastRow + 1, 2) then PercentCell(CountRatio(first.row, first.col, last.row, last.col))
    else if q == Pos(lastRow + 2, 1) then c.(value := Str(AbsentLabel))
    else if q == Pos(lastRow + 2, 2) then PercentCell(OneMinus(lastRow + 1, 2))
    else c
  }

  /** The four trailer cells below the last row; no other cell changes, and no cell holds the separator. */
  lemma ScriptTotalsAt(d: SheetData, first: Pos, last: Pos, lastRow: nat, q: Pos)
    ensures At(ScriptTotals(d, first, last, lastRow), q) == ScriptTrailerCell(At(d, q), first, last, lastRow, q)
    ensures ScriptTotals(d, first, last, lastRow).title == d.title
    ensures ScriptTotals(d, first, last, lastRow).maxRow == Max(d.maxRow, lastRow + 2)
    ensures ScriptTotals(d, first, last, lastRow).maxCol == Max(d.maxCol, 2)
  {
  }

  /** The annotation after the two lookups: the headers and per-row formulas of the class version, then the two-row trailer. */
  function Scripted(t: SheetData, l: Layout): SheetData
    requires Placed(l)
  {
    ScriptTotals(Columns(t, l), l.first, l.last, l.lastRow)
  }

  /**
   * `processar_planilha` of the function version. Bounds are read first; a
   * missing marker raises on `None.row` before any write. The start cell is
   * looked up, then the end cell, which raises when the row above the last or
   * the last column is below 1; the headers, row formulas and trailer follow.
   */
  function ScriptStep(d: SheetData): (r: Step)
    ensures !r.outcome.Skipped?
  {
    match Find(d, ScriptMarkerText)
      case None => Step(d, Crashed)
      case Some(marker) =>
        var l := LayoutOf(d, marker);
        var t := Touched(d, l.first);
        if !IsPos(l.last) then Step(t, Crashed)
        else Step(Scripted(Touched(t, l.last), l), Processed)
  }

  /** The loop body of `processar_planilhas`: sheets of more than 3 rows are processed, the others skipped untouched. */
  function ScriptSheet(d: SheetData): Step {
    if d.maxRow > 3 then ScriptStep(d) else Step(d, Skipped)
  }

  /** The two-row trailer keeps a well-formed sheet well formed. */
  lemma ScriptTotalsWellFormed(d: SheetData, first: Pos, last: Pos, lastRow: nat)
    requires WellFormed(d)
    ensures WellFormed(ScriptTotals(d, first, last, lastRow))
  {
  }

  /** The annotation keeps a well-formed sheet well formed. */
  lemma ScriptedWellFormed(t: SheetData, l: Layout)
    requires WellFormed(t) && Placed(l)
    ensures WellFormed(Scripted(t, l))
  {
    var headed := HeaderColumns(t, l.header, l.lastCol);
    HeaderColumnsWellFormed(t, l.header, l.lastCol);
    RowFormulasWellFormed(headed, l.first, l.last, l.lastCol + 1, l.lastCol + 2, l.first.row);
    ScriptTotalsWellFormed(RowFormulas(headed, l.first, l.last, l.lastCol + 1, l.lastCol + 2, l.first.row), l.first, l.last, l.lastRow);
  }

  /** Processing keeps a well-formed sheet well formed, whichever way it ends. */
  lemma ScriptStepWellFormed(d: SheetData)
    requires WellFormed(d)
    ensures WellFormed(ScriptStep(d).data)
    ensures WellFormed(ScriptSheet(d).data)
  {
    if Find(d, ScriptMarkerText).Some? {
      var l := LayoutOf(d, Find(d, ScriptMarkerText).value);
      if IsPos(l.last) {
        ScriptedWellFormed(Touched(Touched(d, l.first), l.last), l);
      }
    }
  }

  /**
   * A sheet is skipped exactly when it has at most 3 rows, and then it is left
   * as it was; a longer one without the marker raises, also untouched.
   */
  lemma ScriptSkipIff(d: SheetData)
    ensures ScriptSheet(d).outcome.Skipped? <==> d.maxRow <= 3
    ensures ScriptSheet(d).outcome.Skipped? ==> ScriptSheet(d).data == d
    ensures d.maxRow > 3 && Find(d, ScriptMarkerText).None? ==> ScriptSheet(d) == Step(d, Crashed)
  {
  }

  /** Cell q after the function version annotated the sheet. */
  function ScriptPathCell(d: SheetData, l: Layout, q: Pos): Cell {
    if q == Pos(l.lastRow + 1, 1) then At(d, q).(value := Str(CompleteLabel))
    else if q == Pos(l.lastRow + 1, 2) then PercentCell(CountRatio(l.first.row, l.first.col, l.last.row, l.last.col))
    else if q == Pos(l.lastRow + 2, 1) then At(d, q).(value := Str(AbsentLabel))
    else if q == Pos(l.lastRow + 2, 2) then PercentCell(OneMinus(l.lastRow + 1, 2))
    else if q == Pos(l.header, l.lastCol + 1) then At(d, q).(value := Str(ObtainedHeader))
    else if q == Pos(l.header, l.lastCol + 2) then At(d, q).(value := Str(MissingHeader))
    else if l.first.row <= q.row <= l.last.row && q.col == l.lastCol + 1 then
      PercentCell(CountRatio(q.row, l.first.col, q.row, l.last.col))
    else if l.first.row <= q.row <= l.last.row && q.col == l.lastCol + 2 then
      PercentCell(OneMinus(q.row, l.lastCol + 1))
    else At(d, q)
  }

  /** The three layers compose to the reference cell. */
  lemma ScriptLayers(d: SheetData, l: Layout, q: Pos)
    requires Placed(l) && Separated(l)
    ensures ScriptTrailerCell(RowsCell(HeaderCell(At(d, q), l.header, l.lastCol, q), l.first, l.last, l.lastCol + 1, l.lastCol + 2, l.first.row, q),
                              l.first, l.last, l.lastRow, q)
            == ScriptPathCell(d, l, q)
  {
  }

  /** One cell of the annotation, layer by layer. */
  lemma ScriptedCell(t: SheetData, l: Layout, q: Pos)
    requires Placed(l) && Separated(l)
    ensures At(Scripted(t, l), q) == ScriptPathCell(t, l, q)
  {
    var headed := HeaderColumns(t, l.header, l.lastCol);
    var rows := RowFormulas(headed, l.first, l.last, l.lastCol + 1, l.lastCol + 2, l.first.row);
    assert Scripted(t, l) == ScriptTotals(rows, l.first, l.last, l.lastRow);
    HeaderColumnsAt(t, l.header, l.lastCol, q);
    RowFormulasAt(headed, l.first, l.last, l.lastCol + 1, l.lastCol + 2, l.first.row, q);
    ScriptTotalsAt(rows, l.first, l.last, l.lastRow, q);
    ScriptLayers(t, l, q);
  }

  /** The bounds the annotation reaches. */
  lemma ScriptedBounds(t: SheetData, l: Layout)
    requires Placed(l) && Separated(l)
    ensures Scripted(t, l).title == t.title
    ensures Scripted(t, l).maxRow == Max(Max(t.maxRow, l.header), l.lastRow + 2)
    ensures Scripted(t, l).maxCol == Max(t.maxCol, l.lastCol + 2)
  {
    var headed := HeaderColumns(t, l.header, l.lastCol);
    var rows := RowFormulas(headed, l.first, l.last, l.lastCol + 1, l.lastCol + 2, l.first.row);
    HeaderColumnsAt(t, l.header, l.lastCol, l.first);
    RowFormulasBounds(headed, l.first, l.last, l.lastCol + 1, l.lastCol + 2, l.first.row);
    ScriptTotalsAt(rows, l.first, l.last, l.lastRow, l.first);
  }

  /** The annotation on the sheet after the two lookups, stated against the sheet before them. */
  lemma TouchedScripted(d: SheetData, marker: Pos)
    requires WellFormed(d) && d.maxRow > 3 && InBounds(d, marker)
    ensures var l := LayoutOf(d, marker);
            var r := Scripted(Touched(Touched(d, l.first), l.last), l);
            && (forall q :: At(r, q) == ScriptPathCell(d, l, q))
            && r.title == d.title && r.maxRow == d.maxRow + 2 && r.maxCol == d.maxCol + 2
  {
    var l := LayoutOf(d, marker);
    var t := Touched(Touched(d, l.first), l.last);
    LookupsKeepCells(d, l.first, l.last);
    forall q
      ensures At(Scripted(t, l), q) == ScriptPathCell(d, l, q)
    {
      ScriptedCell(t, l, q);
      TouchedScriptCell(d, l, q);
    }
    ScriptedBounds(t, l);
  }

  /** The two lookups change no cell the script's path reads. */
  lemma TouchedScriptCell(d: SheetData, l: Layout, q: Pos)
    requires IsPos(l.first) && IsPos(l.last)
    ensures ScriptPathCell(Touched(Touched(d, l.first), l.last), l, q) == ScriptPathCell(d, l, q)
  {
    LookupsKeepCells(d, l.first, l.last);
  }

  /**
   * A sheet of more than 3 rows with the marker ends up with the two headers
   * in the row below the marker, the two formulas in every data row, the
   * two-row trailer, and every other cell as it was; two rows and two columns
   * are added to its bounds.
   */
  lemma ScriptPath(d: SheetData, marker: Pos)
    requires WellFormed(d) && d.maxRow > 3 && Find(d, ScriptMarkerText) == Some(marker)
    ensures ScriptSheet(d).outcome == Processed
    ensures forall q :: At(ScriptSheet(d).data, q) == ScriptPathCell(d, LayoutOf(d, marker), q)
    ensures ScriptSheet(d).data.title == d.title
    ensures ScriptSheet(d).data.maxRow == d.maxRow + 2 && ScriptSheet(d).data.maxCol == d.maxCol + 2
  {
    TouchedScripted(d, marker);
  }

  /**
   * A sheet of exactly 3 rows with the accented marker: this version skips
   * it, and the class version does not; it annotates the sheet, unless the
   * first "dados faltantes" cell is in column 1, where it raises.
   */
  lemma ThresholdsDiffer(d: SheetData)
    requires d.maxRow == 3 && Find(d, MarkerText).Some?
    ensures !Skips(d)
    ensures WellFormed(d) ==>
              ProcessStep(d).outcome == if Find(d, MissingDataText).Some? && Find(d, MissingDataText).value.col == 1 then Crashed else Processed
    ensures ScriptSheet(d) == Step(d, Skipped)
  {
    if WellFormed(d) {
      var l := LayoutOf(d, Find(d, MarkerText).value);
      TouchedSearch(d, Find(d, MarkerText).value);
      MarkedOutcome(Touched(Touched(d, l.first), l.last), l);
    }
  }

  /** A long sheet holding neither spelling of the marker: the class version skips it, and this version raises. */
  lemma MissingMarkerDiffers(d: SheetData)
    requires d.maxRow > 3 && Find(d, MarkerText).None? && Find(d, ScriptMarkerText).None?
    ensures Skips(d) && ProcessStep(d).data == d
    ensures ScriptSheet(d) == Step(d, Crashed)
  {
  }

  /**
   * A cell holding the accented marker in any capitalisation ("Período",
   * "PERÍODO", ...) is found by the class version's search and not by this
   * version's.
   */
  lemma AccentedMarkerUnseen(c: Cell)
    requires c.value.Str? && Lower(c.value.s) == Lower(MarkerText)
    ensures Matches(c, MarkerText)
    ensures !Matches(c, ScriptMarkerText)
  {
    var a, b := Lower(MarkerText), Lower(ScriptMarkerText);
    assert a[3] == '\U{00ED}' && b[3] == 'i';
    SameLengthContains(a, a);
    SameLengthContains(a, b);
  }

  /** Upper-case spellings of the marker find the same cell as the script's. */
  lemma ScriptSearchIgnoresCase(d: SheetData)
    ensures Find(d, "PERIODO") == Find(d, ScriptMarkerText)
  {
    assert Lower("PERIODO") == Lower(ScriptMarkerText);
    FindIgnoresTextCase(d, "PERIODO");
    FindIgnoresTextCase(d, ScriptMarkerText);
  }

  /** Cell by cell, the two versions' column paths agree down to the last row and differ in the trailer. */
  lemma PathCellsAgree(d: SheetData, l: Layout)
    ensures forall q: Pos :: q.row <= l.lastRow ==> ColumnPathCell(d, l, q) == ScriptPathCell(d, l, q)
    ensures ColumnPathCell(d, l, Pos(l.lastRow + 1, 1)).value == Str(Separator)
    ensures ScriptPathCell(d, l, Pos(l.lastRow + 1, 1)).value == Str(CompleteLabel)
  {
  }

  /**
   * On a sheet that both versions annotate with the two percentage columns,
   * from markers in the same row (each spelling in its own cell, or one cell
   * holding both), every row up to the last row ends up the same; below
   * it, the class version keeps the separator where this one has the overall
   * ratio's label, and it reaches one row further.
   */
  lemma VersionsAgreeAboveTrailer(d: SheetData, marker: Pos, scriptMarker: Pos)
    requires WellFormed(d) && d.maxRow > 3
    requires Find(d, MarkerText) == Some(marker) && Find(d, ScriptMarkerText) == Some(scriptMarker)
    requires marker.row == scriptMarker.row
    requires Find(d, MissingDataText) == None
    ensures forall q: Pos :: q.row <= d.maxRow ==> At(ProcessStep(d).data, q) == At(ScriptSheet(d).data, q)
    ensures At(ProcessStep(d).data, Pos(d.maxRow + 1, 1)).value == Str(Separator)
    ensures At(ScriptSheet(d).data, Pos(d.maxRow + 1, 1)).value == Str(CompleteLabel)
    ensures ProcessStep(d).data.maxRow == ScriptSheet(d).data.maxRow + 1
  {
    ColumnPath(d, marker);
    ScriptPath(d, scriptMarker);
    PathCellsAgree(d, LayoutOf(d, marker));
  }

  /** `adiciona_colunas_dados_obtidos_e_ausentes`: the two headers, as plain value assignments. */
  method ScriptHeaders(ws: Worksheet, header: int, lastCol: nat) returns (obtCol: int, ausCol: int)
    requires header >= 1
    modifies ws
    ensures obtCol == lastCol + 1 && ausCol == lastCol + 2
    ensures ws.State() == HeaderColumns(old(ws.State()), header, lastCol)
  {
    ws.Assign(Pos(header, lastCol + 1), Str(ObtainedHeader));
    ws.Assign(Pos(header, lastCol + 2), Str(MissingHeader));
    obtCol, ausCol := lastCol + 1, lastCol + 2;
  }

  /** A data row's two cells, each written as a value assignment followed by a format assignment. */
  lemma ScriptRowCellsAreSteps(d: SheetData, first: Pos, last: Pos, obtCol: int, ausCol: int, r: int)
    requires r >= 1 && obtCol >= 1 && ausCol >= 1
    ensures RowCells(d, first, last, obtCol, ausCol, r) ==
            Formatted(Assigned(Formatted(Assigned(d, Pos(r, obtCol), Formula(CountRatio(r, first.col, r, last.col))), Pos(r, obtCol), Percent),
                               Pos(r, ausCol), Formula(OneMinus(r, obtCol))), Pos(r, ausCol), Percent)
  {
    var steps := Formatted(Assigned(Formatted(Assigned(d, Pos(r, obtCol), Formula(CountRatio(r, first.col, r, last.col))), Pos(r, obtCol), Percent),
                                    Pos(r, ausCol), Formula(OneMinus(r, obtCol))), Pos(r, ausCol), Percent);
    assert RowCells(d, first, last, obtCol, ausCol, r).cells == steps.cells;
  }

  /** `calcula_porcentagens_dados_obtidos_e_ausentes`: value then format, for each of the two cells of every data row. */
  method ScriptRowPercentages(ws: Worksheet, first: Pos, last: Pos, obtCol: int, ausCol: int)
    requires first.row >= 1 && obtCol >= 1 && ausCol >= 1
    modifies ws
    ensures ws.State() == RowFormulas(old(ws.State()), first, last, obtCol, ausCol, first.row)
  {
    ghost var d0 := ws.State();
    var row := first.row;
    while row <= last.row
      invariant first.row <= row
      invariant RowFormulas(ws.State(), first, last, obtCol, ausCol, row) == RowFormulas(d0, first, last, obtCol, ausCol, first.row)
      decreases last.row + 1 - row
    {
      ScriptRowCellsAreSteps(ws.State(), first, last, obtCol, ausCol, row);
      ws.Assign(Pos(row, obtCol), Formula(CountRatio(row, first.col, row, last.col)));
      ws.AssignFormat(Pos(row, obtCol), Percent);
      ws.Assign(Pos(row, ausCol), Formula(OneMinus(row, obtCol)));
      ws.AssignFormat(Pos(row, ausCol), Percent);
      row := row + 1;
    }
  }

  /** `calcula_porcentagens_gerais` of the function version: the separator, then the label over it and the two ratios. */
  method ScriptOverall(ws: Worksheet, first: Pos, last: Pos, lastRow: nat)
    modifies ws
    ensures ws.State() == ScriptTotals(old(ws.State()), first, last, lastRow)
  {
    ghost var d0 := ws.State();
    ws.Assign(Pos(lastRow + 1, 1), Str(Separator));
    ws.Assign(Pos(lastRow + 1, 1), Str(CompleteLabel));
    ws.Assign(Pos(lastRow + 1, 2), Formula(CountRatio(first.row, first.col, last.row, last.col)));
    ws.AssignFormat(Pos(lastRow + 1, 2), Percent);
    ws.Assign(Pos(lastRow + 2, 1), Str(AbsentLabel));
    ws.Assign(Pos(lastRow + 2, 2), Formula(OneMinus(lastRow + 1, 2)));
    ws.AssignFormat(Pos(lastRow + 2, 2), Percent);
    ScriptTotalsAreSteps(d0, first, last, lastRow);
  }

  /** The writes of `processar_planilha` after the two lookups. */
  method ScriptAnnotate(ws: Worksheet, l: Layout)
    requires Placed(l)
    modifies ws
    ensures ws.State() == Scripted(old(ws.State()), l)
  {
    var obtCol, ausCol := ScriptHeaders(ws, l.header, l.lastCol);
    ScriptRowPercentages(ws, l.first, l.last, obtCol, ausCol);
    ScriptOverall(ws, l.first, l.last, l.lastRow);
  }

  /** `processar_planilha`: the sheet ends as ScriptStep says; `ok` is false when it raised; a well-formed sheet stays well formed. */
  method ScriptProcessSheet(ws: Worksheet) returns (ok: bool)
    modifies ws
    ensures ws.State() == ScriptStep(old(ws.State())).data
    ensures ok <==> !ScriptStep(old(ws.State())).outcome.Crashed?
    ensures old(ws.Valid()) ==> ws.Valid()
  {
    ghost var d0 := ws.State();
    if WellFormed(d0) {
      ScriptStepWellFormed(d0);
    }
    var lastRow, lastCol := Limits(ws);
    var marker := SearchRows(ws, ScriptMarkerText);
    if marker.None? {
      return false;
    }
    var header := marker.value.row + 1;
    var first := Pos(header + 1, 2);
    ws.Touch(first);
    var last := Pos(lastRow - 1, lastCol);
    var l := Layout(header, first, last, lastRow, lastCol);
    assert l == LayoutOf(d0, marker.value);
    if !IsPos(last) {
      assert ScriptStep(d0) == Step(ws.State(), Crashed);
      return false;
    }
    ws.Touch(last);
    assert ScriptStep(d0) == Step(Scripted(ws.State(), l), Processed);
    ScriptAnnotate(ws, l);
    ok := true;
  }

  /** `steps` holds each sheet's loop body on its own snapshot, in workbook order. */
  ghost predicate ScriptPass(ds: seq<SheetData>, steps: seq<Step>) {
    |steps| == |ds| && forall j {:trigger ScriptSheet(ds[j])} :: 0 <= j < |ds| ==> steps[j] == ScriptSheet(ds[j])
  }

  /** Every workbook has a pass. */
  lemma ScriptPassExists(ds: seq<SheetData>) returns (steps: seq<Step>)
    ensures ScriptPass(ds, steps)
  {
    steps := seq(|ds|, j requires 0 <= j < |ds| => ScriptSheet(ds[j]));
  }

  /** In a pass, each step on a well-formed sheet leaves it well formed. */
  lemma ScriptPassWellFormed(ds: seq<SheetData>, steps: seq<Step>)
    requires ScriptPass(ds, steps)
    ensures forall i :: 0 <= i < |ds| && WellFormed(ds[i]) ==> WellFormed(steps[i].data)
  {
    forall i | 0 <= i < |ds| && WellFormed(ds[i])
      ensures WellFormed(steps[i].data)
    {
      ScriptStepWellFormed(ds[i]);
    }
  }

  /** The loop body on one worksheet: it ends as ScriptSheet says, counted when processed and listed when skipped. */
  method ScriptSheetBody(ws: Worksheet, count: nat, skipped: seq<string>) returns (ok: bool, count': nat, skipped': seq<string>)
    modifies ws
    ensures ws.State() == ScriptSheet(old(ws.State())).data
    ensures ok <==> !ScriptSheet(old(ws.State())).outcome.Crashed?
    ensures count' == count + if ScriptSheet(old(ws.State())).outcome.Processed? then 1 else 0
    ensures skipped' == skipped + if ScriptSheet(old(ws.State())).outcome.Skipped? then [old(ws.title)] else []
  {
    count', skipped' := count, skipped;
    if ws.maxRow > 3 {
      ok := ScriptProcessSheet(ws);
      if ok {
        count' := count + 1;
      }
    } else {
      skipped' := skipped + [ws.title];
      ok := true;
    }
  }

  /** The loop's two accumulators: the processed counter and the list of skipped titles. */
  datatype Tally = Tally(count: nat, skipped: seq<string>)

  /** The accumulators after the first n steps. */
  function TallyOf(steps: seq<Step>, n: nat): Tally
    requires n <= |steps|
  {
    Tally(ProcessedCount(steps, n), SkippedTitles(steps, n))
  }

  /** One sheet of the loop: sheet i ends as step i, the counter counts it when processed, and the list takes its title when skipped. */
  method ScriptAt(sheets: seq<Worksheet>, ghost ds: seq<SheetData>, ghost steps: seq<Step>, i: nat, tally: Tally)
    returns (ok: bool, next: Tally)
    requires Distinct(sheets) && ScriptPass(ds, steps)
    requires i < |ds| == |sheets| && sheets[i].State() == ds[i]
    modifies sheets[i]
    ensures States(sheets) == old(States(sheets))[i := steps[i].data]
    ensures ok <==> !steps[i].outcome.Crashed?
    ensures next.count == tally.count + if steps[i].outcome.Processed? then 1 else 0
    ensures next.skipped == tally.skipped + if steps[i].outcome.Skipped? then [steps[i].data.title] else []
  {
    ScriptSkipIff(ds[i]);
    var count, skipped;
    ok, count, skipped := ScriptSheetBody(sheets[i], tally.count, tally.skipped);
    next := Tally(count, skipped);
  }

  /**
   * The loop has run the first n sheets without a raise: those hold their
   * steps, the others their snapshots, and the accumulators account for the
   * first n steps.
   */
  ghost predicate ScriptReached(sheets: seq<Worksheet>, ds: seq<SheetData>, steps: seq<Step>, tally: Tally, n: nat)
    reads set w | w in sheets
  {
    && |ds| == |steps| == |sheets| && n <= |sheets|
    && (forall j :: 0 <= j < n ==> !steps[j].outcome.Crashed?)
    && States(sheets) == Progress(ds, steps, n)
    && tally == TallyOf(steps, n)
  }

  /** The loop stopped because sheet n raised, after the first n ran without one. */
  ghost predicate ScriptStopped(sheets: seq<Worksheet>, ds: seq<SheetData>, steps: seq<Step>, tally: Tally, n: nat)
    reads set w | w in sheets
  {
    && |ds| == |steps| == |sheets| && n < |sheets|
    && (forall j :: 0 <= j < n ==> !steps[j].outcome.Crashed?)
    && steps[n].outcome.Crashed?
    && States(sheets) == Progress(ds, steps, n + 1)
    && tally == TallyOf(steps, n)
  }

  /** One turn of the loop: sheet i either lets the loop go on or is the first to raise. */
  method ScriptTurn(sheets: seq<Worksheet>, ghost ds: seq<SheetData>, ghost steps: seq<Step>, i: nat, tally: Tally)
    returns (ok: bool, next: Tally)
    requires Distinct(sheets) && ScriptPass(ds, steps) && i < |sheets| && ScriptReached(sheets, ds, steps, tally, i)
    modifies sheets
    ensures if ok then ScriptReached(sheets, ds, steps, next, i + 1) else ScriptStopped(sheets, ds, steps, next, i)
  {
    ok, next := ScriptAt(sheets, ds, steps, i, tally);
    SkippedTitlesStep([], tally.skipped, next.skipped, steps, i);
    ProgressStep(ds, steps, i);
  }

  /** The loop over the workbook, stopping at the first sheet that raises. */
  method ScriptRun(sheets: seq<Worksheet>, ghost ds: seq<SheetData>, ghost steps: seq<Step>) returns (n: nat, tally: Tally)
    requires Distinct(sheets) && ScriptPass(ds, steps) && States(sheets) == ds
    modifies sheets
    ensures (n == |sheets| && ScriptReached(sheets, ds, steps, tally, n)) || ScriptStopped(sheets, ds, steps, tally, n)
  {
    ProgressNone(ds, steps);
    n, tally := 0, Tally(0, []);
    while n < |sheets|
      invariant ScriptReached(sheets, ds, steps, tally, n)
    {
      var ok;
      ok, tally := ScriptTurn(sheets, ds, steps, n, tally);
      if !ok {
        return;
      }
      n := n + 1;
    }
  }

  /**
   * `processar_planilhas`: the sheets in workbook order until one raises.
   * `steps` is the pass over the sheets as they were. When none raises, every
   * sheet ends as its step, the counter and the list together cover the
   * workbook, and the report lists the skipped titles; otherwise the sheets up
   * to the failing one end as their steps, the later ones are untouched, and
   * nothing is reported. Every well-formed sheet stays well formed.
   */
  method ProcessWorkbook(sheets: seq<Worksheet>) returns (ok: bool, count: nat, skipped: seq<string>, report: Option<string>, ghost steps: seq<Step>)
    requires Distinct(sheets)
    modifies sheets
    ensures ScriptPass(old(States(sheets)), steps)
    ensures var n := FirstCrash(steps);
            && (ok <==> n == |steps|)
            && (forall i :: 0 <= i < |sheets| ==> sheets[i].State() == if i <= n then steps[i].data else old(sheets[i].State()))
            && count == ProcessedCount(steps, n)
            && skipped == SkippedTitles(steps, n)
            && report == if ok then ReportText(skipped) else None
    ensures ok ==> count + |skipped| == |sheets|
    ensures forall i :: 0 <= i < |sheets| && old(sheets[i].Valid()) ==> sheets[i].Valid()
  {
    ghost var ds := States(sheets);
    steps := ScriptPassExists(ds);
    ScriptPassWellFormed(ds, steps);
    var n, tally := ScriptRun(sheets, ds, steps);
    count, skipped := tally.count, tally.skipped;
    FirstCrashIs(steps, n);
    ReachedWellFormed(ds, steps, States(sheets), n);
    ok := n == |sheets|;
    if ok {
      CountsCoverSheets(steps, n);
    }
    report := if ok then ReportText(skipped) else None;
  }
}
