/**
 * The class-based annotator: each worksheet of the workbook is either
 * skipped (too short, or without the "Período" marker) or annotated with
 * percentage columns and a trailer, and the titles of the skipped sheets are
 * collected for the report.
 */
module SheetProcessor {
  import opened Sheets
  import opened CellSearch
  import opened SheetLimits
  import opened SheetLibrary
  import opened Annotation
  import opened SkipReport
  import opened WorkbookPass

  const MarkerText: string := "Per\U{00ED}odo"
  const MissingDataText: string := "dados faltantes"

  /**
   * The trailer below the last row: the separator, then the overall ratio over
   * the data rectangle and one minus its cell, each under its label.
   */
  function Totals(d: SheetData, first: Pos, last: Pos, lastRow: nat): SheetData {
    d.(cells := d.cells[Pos(lastRow + 1, 1) := AddedCell(At(d, Pos(lastRow + 1, 1)), Str(Separator), None)]
                       [Pos(lastRow + 2, 1) := AddedCell(At(d, Pos(lastRow + 2, 1)), Str(CompleteLabel), None)]
                       [Pos(lastRow + 2, 2) := AddedCell(At(d, Pos(lastRow + 2, 2)), Formula(CountRatio(first.row, first.col, last.row, last.col)), Some(Percent))]
                       [Pos(lastRow + 3, 1) := AddedCell(At(d, Pos(lastRow + 3, 1)), Str(AbsentLabel), None)]
                       [Pos(lastRow + 3, 2) := AddedCell(At(d, Pos(lastRow + 3, 2)), Formula(OneMinus(lastRow + 2, 2)), Some(Percent))],
       maxRow := Max(d.maxRow, lastRow + 3), maxCol := Max(d.maxCol, 2))
  }

  /** The trailer's five `adicionar_celula` calls, one after another. */
  function TotalsSteps(d: SheetData, first: Pos, last: Pos, lastRow: nat): SheetData {
    var s1 := Added(d, Pos(lastRow + 1, 1), Str(Separator), None);
    var s2 := Added(s1, Pos(lastRow + 2, 1), Str(CompleteLabel), None);
    var s3 := Added(s2, Pos(lastRow + 2, 2), Formula(CountRatio(first.row, first.col, last.row, last.col)), Some(Percent));
    var s4 := Added(s3, Pos(lastRow + 3, 1), Str(AbsentLabel), None);
    Added(s4, Pos(lastRow + 3, 2), Formula(OneMinus(lastRow + 2, 2)), Some(Percent))
  }

  /** The five calls write five distinct cells, so they amount to the trailer written at once. */
  lemma TotalsAreSteps(d: SheetData, first: Pos, last: Pos, lastRow: nat)
    ensures TotalsSteps(d, first, last, lastRow) == Totals(d, first, last, lastRow)
  {
    assert TotalsSteps(d, first, last, lastRow).cells == Totals(d, first, last, lastRow).cells;
  }

  /** Cell q, holding c, after the trailer: labels keep the cells' formats, formulas are percentages. */
  function TrailerCell(c: Cell, first: Pos, last: Pos, lastRow: nat, q: Pos): Cell {
    if q == Pos(lastRow + 1, 1) then c.(value := Str(Separator))
    else if q == Pos(lastRow + 2, 1) then c.(value := Str(CompleteLabel))
    else if q == Pos(lastRow + 2, 2) then PercentCell(CountRatio(first.row, first.col, last.row, last.col))
    else if q == Pos(lastRow + 3, 1) then c.(value := Str(AbsentLabel))
    else if q == Pos(lastRow + 3, 2) then PercentCell(OneMinus(lastRow + 2, 2))
    else c
  }

  /** The five trailer cells below the last row; no other cell changes. */
  lemma TotalsAt(d: SheetData, first: Pos, last: Pos, lastRow: nat, q: Pos)
    ensures At(Totals(d, first, last, lastRow), q) == TrailerCell(At(d, q), first, last, lastRow, q)
    ensures Totals(d, first, last, lastRow).title == d.title
    ensures Totals(d, first, last, lastRow).maxRow == Max(d.maxRow, lastRow + 3)
    ensures Totals(d, first, last, lastRow).maxCol == Max(d.maxCol, 2)
  {
  }

  /** The two header columns and the per-row formulas over the data rows. */
  function Columns(t: SheetData, l: Layout): SheetData
    requires Placed(l)
  {
    RowFormulas(HeaderColumns(t, l.header, l.lastCol), l.first, l.last, l.lastCol + 1, l.lastCol + 2, l.first.row)
  }

  /** The column path: the two headers, the per-row formulas over the data rows, then the trailer. */
  function Annotated(t: SheetData, l: Layout): SheetData
    requires Placed(l)
  {
    Totals(Columns(t, l), l.first, l.last, l.lastRow)
  }

  /** Cell q past column 1 becomes the missing-data header and its left neighbour the obtained-data header. */
  function Renamed(t: SheetData, q: Pos): SheetData
    requires IsPos(q) && q.col > 1
  {
    Assigned(Assigned(t, q, Str(MissingHeader)), Pos(q.row, q.col - 1), Str(ObtainedHeader))
  }

  /** The relabel path: the two cells renamed, then the trailer. */
  function Relabelled(t: SheetData, l: Layout, q: Pos): SheetData
    requires IsPos(q) && q.col > 1
  {
    Totals(Renamed(t, q), l.first, l.last, l.lastRow)
  }

  /**
   * `processar_planilha` on one sheet. Bounds are read first; a sheet with
   * fewer than 3 rows, or with no cell containing the marker, is skipped
   * untouched. Otherwise the start and end cells of the data rectangle are
   * looked up, and then either an existing "dados faltantes" column is
   * relabelled (its left neighbour through `offset(0, -1)`, which raises in
   * column 1) or the two percentage columns are added; the trailer follows.
   */
  function ProcessStep(d: SheetData): Step {
    if d.maxRow < 3 then Step(d, Skipped)
    else match Find(d, MarkerText)
      case None => Step(d, Skipped)
      case Some(marker) =>
        var l := LayoutOf(d, marker);
        MarkedStep(Touched(Touched(d, l.first), l.last), l)
  }

  /**
   * The part of `processar_planilha` after the two lookups, on the sheet t
   * they left: relabel an existing "dados faltantes" cell and its left
   * neighbour, or add the two percentage columns; the trailer follows.
   */
  function MarkedStep(t: SheetData, l: Layout): Step
    requires Placed(l)
  {
    match Find(t, MissingDataText)
      case Some(q) =>
        if q.col - 1 < 1 then Step(Assigned(t, q, Str(MissingHeader)), Crashed)
        else Step(Relabelled(t, l, q), Processed)
      case None => Step(Annotated(t, l), Processed)
  }

  /** After the lookups, the step raises exactly when the first "dados faltantes" cell is in column 1. */
  lemma MarkedOutcome(t: SheetData, l: Layout)
    requires Placed(l)
    ensures MarkedStep(t, l).outcome == if Find(t, MissingDataText).Some? && Find(t, MissingDataText).value.col == 1 then Crashed else Processed
  {
  }

  /** The trailer keeps a well-formed sheet well formed. */
  lemma TotalsWellFormed(d: SheetData, first: Pos, last: Pos, lastRow: nat)
    requires WellFormed(d)
    ensures WellFormed(Totals(d, first, last, lastRow))
  {
  }

  /** The column path keeps a well-formed sheet well formed. */
  lemma AnnotatedWellFormed(t: SheetData, l: Layout)
    requires WellFormed(t) && Placed(l)
    ensures WellFormed(Annotated(t, l))
  {
    HeaderColumnsWellFormed(t, l.header, l.lastCol);
    RowFormulasWellFormed(HeaderColumns(t, l.header, l.lastCol), l.first, l.last, l.lastCol + 1, l.lastCol + 2, l.first.row);
    TotalsWellFormed(Columns(t, l), l.first, l.last, l.lastRow);
  }

  /** The rest of processing keeps the sheet the lookups left well formed, whichever way it ends. */
  lemma MarkedStepWellFormed(t: SheetData, l: Layout)
    requires WellFormed(t) && Placed(l)
    ensures WellFormed(MarkedStep(t, l).data)
  {
    match Find(t, MissingDataText)
    case Some(q) =>
      if q.col > 1 {
        TotalsWellFormed(Renamed(t, q), l.first, l.last, l.lastRow);
      }
    case None =>
      AnnotatedWellFormed(t, l);
  }

  /** Processing keeps a well-formed sheet well formed, whichever way it ends. */
  lemma ProcessStepWellFormed(d: SheetData)
    requires WellFormed(d)
    ensures WellFormed(ProcessStep(d).data)
  {
    if d.maxRow >= 3 && Find(d, MarkerText).Some? {
      var l := LayoutOf(d, Find(d, MarkerText).value);
      MarkedStepWellFormed(Touched(Touched(d, l.first), l.last), l);
    }
  }

  /** Whether the sheet lands in the list of sheets not processed. */
  predicate Skips(d: SheetData) {
    ProcessStep(d).outcome.Skipped?
  }

  /** Whether processing the sheet raises. */
  predicate Crashes(d: SheetData) {
    ProcessStep(d).outcome.Crashed?
  }

  /** A sheet is skipped exactly when it is shorter than 3 rows or has no marker, and then it is left as it was. */
  lemma SkipIff(d: SheetData)
    ensures Skips(d) <==> d.maxRow < 3 || Find(d, MarkerText).None?
    ensures Skips(d) ==> ProcessStep(d).data == d
  {
  }

  /** The second search, run after the two lookups, finds what it would have found before them. */
  lemma TouchedSearch(d: SheetData, marker: Pos)
    requires WellFormed(d) && d.maxRow >= 3 && InBounds(d, marker)
    ensures var l := LayoutOf(d, marker);
            Find(Touched(Touched(d, l.first), l.last), MissingDataText) == Find(d, MissingDataText)
  {
    var l := LayoutOf(d, marker);
    var t := Touched(Touched(d, l.first), l.last);
    TouchedAt(d, l.first);
    TouchedAt(Touched(d, l.first), l.last);
    forall q | InBounds(t, q) && !InBounds(d, q)
      ensures !Matches(At(t, q), MissingDataText)
    {
      assert q !in d.cells;
    }
    FindWidened(d, t, MissingDataText);
  }

  /** Cell q after the sheet was annotated with the two percentage columns. */
  function ColumnPathCell(d: SheetData, l: Layout, q: Pos): Cell {
    if q == Pos(l.lastRow + 1, 1) then At(d, q).(value := Str(Separator))
    else if q == Pos(l.lastRow + 2, 1) then At(d, q).(value := Str(CompleteLabel))
    else if q == Pos(l.lastRow + 2, 2) then PercentCell(CountRatio(l.first.row, l.first.col, l.last.row, l.last.col))
    else if q == Pos(l.lastRow + 3, 1) then At(d, q).(value := Str(AbsentLabel))
    else if q == Pos(l.lastRow + 3, 2) then PercentCell(OneMinus(l.lastRow + 2, 2))
    else if q == Pos(l.header, l.lastCol + 1) then At(d, q).(value := Str(ObtainedHeader))
    else if q == Pos(l.header, l.lastCol + 2) then At(d, q).(value := Str(MissingHeader))
    else if l.first.row <= q.row <= l.last.row && q.col == l.lastCol + 1 then
      PercentCell(CountRatio(q.row, l.first.col, q.row, l.last.col))
    else if l.first.row <= q.row <= l.last.row && q.col == l.lastCol + 2 then
      PercentCell(OneMinus(q.row, l.lastCol + 1))
    else At(d, q)
  }

  /** The three layers of the column path compose to the reference cell. */
  lemma ColumnLayers(d: SheetData, l: Layout, q: Pos)
    requires Placed(l) && Separated(l)
    ensures TrailerCell(RowsCell(HeaderCell(At(d, q), l.header, l.lastCol, q), l.first, l.last, l.lastCol + 1, l.lastCol + 2, l.first.row, q),
                        l.first, l.last, l.lastRow, q)
            == ColumnPathCell(d, l, q)
  {
  }

  /** One cell of the three layers written out: headers, then per-row formulas, then the trailer. */
  lemma LayeredCell(t: SheetData, l: Layout, q: Pos)
    requires Placed(l) && Separated(l)
    ensures At(Totals(RowFormulas(HeaderColumns(t, l.header, l.lastCol), l.first, l.last, l.lastCol + 1, l.lastCol + 2, l.first.row),
                      l.first, l.last, l.lastRow), q)
            == ColumnPathCell(t, l, q)
  {
    var headed := HeaderColumns(t, l.header, l.lastCol);
    var rows := RowFormulas(headed, l.first, l.last, l.lastCol + 1, l.lastCol + 2, l.first.row);
    HeaderColumnsAt(t, l.header, l.lastCol, q);
    RowFormulasAt(headed, l.first, l.last, l.lastCol + 1, l.lastCol + 2, l.first.row, q);
    TotalsAt(rows, l.first, l.last, l.lastRow, q);
    ColumnLayers(t, l, q);
  }

  /** The column path is the three layers applied in order. */
  lemma AnnotatedUnfold(t: SheetData, l: Layout)
    requires Placed(l)
    ensures Annotated(t, l) == Totals(RowFormulas(HeaderColumns(t, l.header, l.lastCol), l.first, l.last, l.lastCol + 1, l.lastCol + 2, l.first.row),
                      l.first, l.last, l.lastRow)
  {}

  /** The column path at one cell, layer by layer. */
  lemma ColumnCell(t: SheetData, l: Layout, q: Pos)
    requires Placed(l) && Separated(l)
    ensures At(Annotated(t, l), q) == ColumnPathCell(t, l, q)
  {
    LayeredCell(t, l, q);
    AnnotatedUnfold(t, l);
  }

  /** How the bounds of the three layers add up, given what each layer does to them. */
  lemma BoundsCompose(t: SheetData, headed: SheetData, rows: SheetData, res: SheetData, l: Layout)
    requires Placed(l) && Separated(l)
    requires headed.title == t.title && headed.maxRow == Max(t.maxRow, l.header) && headed.maxCol == Max(t.maxCol, l.lastCol + 2)
    requires rows.title == headed.title
    requires rows.maxRow == (if l.first.row <= l.last.row then Max(headed.maxRow, l.last.row) else headed.maxRow)
    requires rows.maxCol == (if l.first.row <= l.last.row then Max(Max(headed.maxCol, l.lastCol + 1), l.lastCol + 2) else headed.maxCol)
    requires res.title == rows.title && res.maxRow == Max(rows.maxRow, l.lastRow + 3) && res.maxCol == Max(rows.maxCol, 2)
    ensures res.title == t.title && res.maxRow == Max(Max(t.maxRow, l.header), l.lastRow + 3) && res.maxCol == Max(t.maxCol, l.lastCol + 2)
  {
  }

  /** The bounds of the three layers written out. */
  lemma LayeredBounds(t: SheetData, l: Layout)
    requires Placed(l) && Separated(l)
    ensures var r := Totals(RowFormulas(HeaderColumns(t, l.header, l.lastCol), l.first, l.last, l.lastCol + 1, l.lastCol + 2, l.first.row),
                            l.first, l.last, l.lastRow);
            r.title == t.title && r.maxRow == Max(Max(t.maxRow, l.header), l.lastRow + 3) && r.maxCol == Max(t.maxCol, l.lastCol + 2)
  {
    var headed := HeaderColumns(t, l.header, l.lastCol);
    var rows := RowFormulas(headed, l.first, l.last, l.lastCol + 1, l.lastCol + 2, l.first.row);
    HeaderColumnsAt(t, l.header, l.lastCol, l.first);
    RowFormulasBounds(headed, l.first, l.last, l.lastCol + 1, l.lastCol + 2, l.first.row);
    TotalsAt(rows, l.first, l.last, l.lastRow, l.first);
    BoundsCompose(t, headed, rows, Totals(rows, l.first, l.last, l.lastRow), l);
  }

  /** The bounds the column path reaches, layer by layer. */
  lemma ColumnBounds(t: SheetData, l: Layout)
    requires Placed(l) && Separated(l)
    ensures var r := Annotated(t, l);
            r.title == t.title && r.maxRow == Max(Max(t.maxRow, l.header), l.lastRow + 3) && r.maxCol == Max(t.maxCol, l.lastCol + 2)
  {
    LayeredBounds(t, l);
    AnnotatedUnfold(t, l);
  }

  /** The column path cell by cell, and the bounds it reaches. */
  lemma AnnotatedAt(t: SheetData, l: Layout)
    requires Placed(l) && Separated(l)
    ensures forall q :: At(Annotated(t, l), q) == ColumnPathCell(t, l, q)
    ensures Annotated(t, l).title == t.title
    ensures Annotated(t, l).maxRow == Max(Max(t.maxRow, l.header), l.lastRow + 3)
    ensures Annotated(t, l).maxCol == Max(t.maxCol, l.lastCol + 2)
  {
    forall q
      ensures At(Annotated(t, l), q) == ColumnPathCell(t, l, q)
    {
      ColumnCell(t, l, q);
    }
    ColumnBounds(t, l);
  }

  /** Past the two guards and without a "dados faltantes" cell, the sheet takes the column path. */
  lemma StepByColumns(d: SheetData, marker: Pos)
    requires WellFormed(d) && d.maxRow >= 3
    requires Find(d, MarkerText) == Some(marker) && Find(d, MissingDataText) == None
    ensures var l := LayoutOf(d, marker);
            ProcessStep(d) == Step(Annotated(Touched(Touched(d, l.first), l.last), l), Processed)
  {
    TouchedSearch(d, marker);
  }

  /**
   * Without a "dados faltantes" cell, the sheet ends up with the two headers
   * in the row below the marker, the two formulas in every data row, the
   * trailer, and every other cell as it was; three rows and two columns are
   * added to its bounds.
   */
  lemma ColumnPath(d: SheetData, marker: Pos)
    requires WellFormed(d) && d.maxRow >= 3
    requires Find(d, MarkerText) == Some(marker) && Find(d, MissingDataText) == None
    ensures ProcessStep(d).outcome == Processed
    ensures forall q :: At(ProcessStep(d).data, q) == ColumnPathCell(d, LayoutOf(d, marker), q)
    ensures ProcessStep(d).data.title == d.title
    ensures ProcessStep(d).data.maxRow == d.maxRow + 3 && ProcessStep(d).data.maxCol == d.maxCol + 2
  {
    StepByColumns(d, marker);
    TouchedColumns(d, marker);
  }

  /** The column path on the sheet after the two lookups, stated against the sheet before them. */
  lemma TouchedColumns(d: SheetData, marker: Pos)
    requires WellFormed(d) && d.maxRow >= 3 && InBounds(d, marker)
    ensures var l := LayoutOf(d, marker);
            var r := Annotated(Touched(Touched(d, l.first), l.last), l);
            && (forall q :: At(r, q) == ColumnPathCell(d, l, q))
            && r.title == d.title && r.maxRow == d.maxRow + 3 && r.maxCol == d.maxCol + 2
  {
    var l := LayoutOf(d, marker);
    var t := Touched(Touched(d, l.first), l.last);
    TouchedAt(d, l.first);
    TouchedAt(Touched(d, l.first), l.last);
    AnnotatedAt(t, l);
    forall q
      ensures At(Annotated(t, l), q) == ColumnPathCell(d, l, q)
    {
      TouchedPathCell(d, l, q);
    }
  }

  /** The two lookups change no cell the column path reads. */
  lemma TouchedPathCell(d: SheetData, l: Layout, q: Pos)
    requires IsPos(l.first) && IsPos(l.last)
    ensures ColumnPathCell(Touched(Touched(d, l.first), l.last), l, q) == ColumnPathCell(d, l, q)
  {
    TouchedAt(d, l.first);
    TouchedAt(Touched(d, l.first), l.last);
  }

  /** Cell p after the "dados faltantes" cell q and its left neighbour were relabelled and the trailer written. */
  function RelabelPathCell(d: SheetData, l: Layout, q: Pos, p: Pos): Cell {
    if p == Pos(l.lastRow + 1, 1) then At(d, p).(value := Str(Separator))
    else if p == Pos(l.lastRow + 2, 1) then At(d, p).(value := Str(CompleteLabel))
    else if p == Pos(l.lastRow + 2, 2) then PercentCell(CountRatio(l.first.row, l.first.col, l.last.row, l.last.col))
    else if p == Pos(l.lastRow + 3, 1) then At(d, p).(value := Str(AbsentLabel))
    else if p == Pos(l.lastRow + 3, 2) then PercentCell(OneMinus(l.lastRow + 2, 2))
    else if p == q then At(d, p).(value := Str(MissingHeader))
    else if p == Pos(q.row, q.col - 1) then At(d, p).(value := Str(ObtainedHeader))
    else At(d, p)
  }

  /** Cell p, holding c, after q and its left neighbour were relabelled. */
  function RelabelCell(c: Cell, q: Pos, p: Pos): Cell {
    if p == Pos(q.row, q.col - 1) then c.(value := Str(ObtainedHeader))
    else if p == q then c.(value := Str(MissingHeader))
    else c
  }

  /** The two layers of the relabel path compose to the reference cell. */
  lemma RelabelLayers(d: SheetData, l: Layout, q: Pos, p: Pos)
    ensures TrailerCell(RelabelCell(At(d, p), q, p), l.first, l.last, l.lastRow, p) == RelabelPathCell(d, l, q, p)
  {
  }

  /** The relabel path at one cell. */
  lemma RelabelledCell(t: SheetData, l: Layout, q: Pos, p: Pos)
    requires IsPos(q) && q.col > 1
    ensures At(Relabelled(t, l, q), p) == RelabelPathCell(t, l, q, p)
  {
    var named := Assigned(Assigned(t, q, Str(MissingHeader)), Pos(q.row, q.col - 1), Str(ObtainedHeader));
    assert At(named, p) == RelabelCell(At(t, p), q, p);
    TotalsAt(named, l.first, l.last, l.lastRow, p);
    RelabelLayers(t, l, q, p);
  }

  /** The relabel path cell by cell, and the bounds it reaches. */
  lemma RelabelledAt(t: SheetData, l: Layout, q: Pos)
    requires IsPos(q) && q.col > 1
    ensures forall p :: At(Relabelled(t, l, q), p) == RelabelPathCell(t, l, q, p)
    ensures Relabelled(t, l, q).title == t.title
    ensures Relabelled(t, l, q).maxRow == Max(Max(t.maxRow, q.row), l.lastRow + 3)
    ensures Relabelled(t, l, q).maxCol == Max(Max(t.maxCol, q.col), 2)
  {
    var named := Assigned(Assigned(t, q, Str(MissingHeader)), Pos(q.row, q.col - 1), Str(ObtainedHeader));
    forall p
      ensures At(Relabelled(t, l, q), p) == RelabelPathCell(t, l, q, p)
    {
      RelabelledCell(t, l, q, p);
    }
    TotalsAt(named, l.first, l.last, l.lastRow, q);
  }

  /**
   * With a "dados faltantes" cell q past column 1, only q and its left
   * neighbour are relabelled and the trailer is written, without any per-row
   * formula.
   */
  lemma RelabelPath(d: SheetData, marker: Pos, q: Pos)
    requires WellFormed(d) && d.maxRow >= 3
    requires Find(d, MarkerText) == Some(marker) && Find(d, MissingDataText) == Some(q) && q.col > 1
    ensures ProcessStep(d).outcome == Processed
    ensures forall p :: At(ProcessStep(d).data, p) == RelabelPathCell(d, LayoutOf(d, marker), q, p)
    ensures ProcessStep(d).data.title == d.title
    ensures ProcessStep(d).data.maxRow == d.maxRow + 3 && ProcessStep(d).data.maxCol == Max(d.maxCol, 2)
  {
    StepByRelabel(d, marker, q);
    TouchedRelabel(d, marker, q);
  }

  /**
   * A "dados faltantes" cell q in column 1 has no left neighbour: q is
   * relabelled and processing raises, leaving every other cell as it was.
   */
  lemma RelabelCrash(d: SheetData, marker: Pos, q: Pos)
    requires WellFormed(d) && d.maxRow >= 3
    requires Find(d, MarkerText) == Some(marker) && Find(d, MissingDataText) == Some(q) && q.col == 1
    ensures ProcessStep(d).outcome == Crashed
    ensures ProcessStep(d).data.title == d.title
    ensures forall p :: At(ProcessStep(d).data, p) == if p == q then At(d, q).(value := Str(MissingHeader)) else At(d, p)
  {
    StepByRelabel(d, marker, q);
    var l := LayoutOf(d, marker);
    var t := Touched(Touched(d, l.first), l.last);
    LookupsKeepCells(d, l.first, l.last);
    forall p
      ensures At(Assigned(t, q, Str(MissingHeader)), p) == if p == q then At(d, q).(value := Str(MissingHeader)) else At(d, p)
    {
      AssignedAt(t, q, Str(MissingHeader), p);
    }
  }

  /** The two lookups of the data rectangle's corners change no cell's contents. */
  lemma LookupsKeepCells(d: SheetData, a: Pos, b: Pos)
    requires IsPos(a) && IsPos(b)
    ensures forall p :: At(Touched(Touched(d, a), b), p) == At(d, p)
  {
    TouchedAt(d, a);
    TouchedAt(Touched(d, a), b);
  }

  /** Past the two guards and with a "dados faltantes" cell q, the sheet takes the relabel path, or raises in column 1. */
  lemma StepByRelabel(d: SheetData, marker: Pos, q: Pos)
    requires WellFormed(d) && d.maxRow >= 3
    requires Find(d, MarkerText) == Some(marker) && Find(d, MissingDataText) == Some(q)
    ensures var l := LayoutOf(d, marker);
            var t := Touched(Touched(d, l.first), l.last);
            ProcessStep(d) == if q.col == 1 then Step(Assigned(t, q, Str(MissingHeader)), Crashed)
                              else Step(Relabelled(t, l, q), Processed)
  {
    TouchedSearch(d, marker);
  }

  /** The relabel path on the sheet after the two lookups, stated against the sheet before them. */
  lemma TouchedRelabel(d: SheetData, marker: Pos, q: Pos)
    requires WellFormed(d) && d.maxRow >= 3 && InBounds(d, marker) && InBounds(d, q) && q.col > 1
    ensures var l := LayoutOf(d, marker);
            var r := Relabelled(Touched(Touched(d, l.first), l.last), l, q);
            && (forall p :: At(r, p) == RelabelPathCell(d, l, q, p))
            && r.title == d.title && r.maxRow == d.maxRow + 3 && r.maxCol == Max(d.maxCol, 2)
  {
    var l := LayoutOf(d, marker);
    var t := Touched(Touched(d, l.first), l.last);
    RelabelledAt(t, l, q);
    forall p
      ensures At(Relabelled(t, l, q), p) == RelabelPathCell(d, l, q, p)
    {
      TouchedRelabelCell(d, l, q, p);
    }
  }

  /** One cell of the relabel path after the two lookups, against the sheet before them. */
  lemma TouchedRelabelCell(d: SheetData, l: Layout, q: Pos, p: Pos)
    requires IsPos(l.first) && IsPos(l.last) && IsPos(q) && q.col > 1
    ensures At(Relabelled(Touched(Touched(d, l.first), l.last), l, q), p) == RelabelPathCell(d, l, q, p)
  {
    var t := Touched(Touched(d, l.first), l.last);
    LookupsKeepCells(d, l.first, l.last);
    RelabelledCell(t, l, q, p);
    assert RelabelPathCell(t, l, q, p) == RelabelPathCell(d, l, q, p);
  }

  /** `steps` holds each sheet's step on its own snapshot, in workbook order: the pass as if nothing raised. */
  ghost predicate Pass(ds: seq<SheetData>, steps: seq<Step>) {
    |steps| == |ds| && forall j {:trigger ProcessStep(ds[j])} :: 0 <= j < |ds| ==> steps[j] == ProcessStep(ds[j])
  }

  /** Every workbook has a pass. */
  lemma PassExists(ds: seq<SheetData>) returns (steps: seq<Step>)
    ensures Pass(ds, steps)
  {
    steps := seq(|ds|, j requires 0 <= j < |ds| => ProcessStep(ds[j]));
  }

  /** In a pass, each step on a well-formed sheet leaves it well formed. */
  lemma PassWellFormed(ds: seq<SheetData>, steps: seq<Step>)
    requires Pass(ds, steps)
    ensures forall i :: 0 <= i < |ds| && WellFormed(ds[i]) ==> WellFormed(steps[i].data)
  {
    forall i | 0 <= i < |ds| && WellFormed(ds[i])
      ensures WellFormed(steps[i].data)
    {
      ProcessStepWellFormed(ds[i]);
    }
  }

  /** `PlanilhaProcessor`: the workbook's worksheets and the titles of those not processed. */
  class Processor {
    const sheets: seq<Worksheet>
    var skipped: seq<string>

    /** The workbook as opened, with no sheet skipped yet. */
    constructor (sheets: seq<Worksheet>)
      ensures this.sheets == sheets && skipped == []
    {
      this.sheets := sheets;
      skipped := [];
    }

    /** `adicionar_colunas_dados_obtidos_ausentes`: the two headers right of the last column. */
    method AddHeaderColumns(ws: Worksheet, header: int, lastCol: nat) returns (obtCol: int, ausCol: int)
      requires header >= 1
      modifies ws
      ensures obtCol == lastCol + 1 && ausCol == lastCol + 2
      ensures ws.State() == HeaderColumns(old(ws.State()), header, lastCol)
    {
      var _ := AddCell(ws, header, lastCol + 1, Str(ObtainedHeader), None);
      var _ := AddCell(ws, header, lastCol + 2, Str(MissingHeader), None);
      obtCol, ausCol := lastCol + 1, lastCol + 2;
    }

    /** `calcular_porcentagens_dados_tabela`: both formulas in every row from the first to the last data row. */
    method RowPercentages(ws: Worksheet, first: Pos, last: Pos, obtCol: int, ausCol: int)
      requires first.row >= 1 && obtCol >= 1 && ausCol >= 1
      modifies ws
      ensures ws.State() == RowFormulas(old(ws.State()), first, last, obtCol, ausCol, first.row)
    {
      ghost var d0 := ws.State();
      var row := first.row;
      while row <= last.row
        invariant first.row <= row
        invariant RowFormulas(ws.State(), first, last, obtCol, ausCol, row) == RowFormulas(d0, first, last, obtCol, ausCol, first.row)
        decreases last.row + 1 - row
      {
        var _ := AddCell(ws, row, obtCol, Formula(CountRatio(row, first.col, row, last.col)), Some(Percent));
        var _ := AddCell(ws, row, ausCol, Formula(OneMinus(row, obtCol)), Some(Percent));
        row := row + 1;
      }
    }

    /** `calcular_porcentagens_gerais`: the trailer below the last row. */
    method OverallPercentages(ws: Worksheet, first: Pos, last: Pos, lastRow: nat)
      modifies ws
      ensures ws.State() == Totals(old(ws.State()), first, last, lastRow)
    {
      var _ := AddCell(ws, lastRow + 1, 1, Str(Separator), None);
      var _ := AddCell(ws, lastRow + 2, 1, Str(CompleteLabel), None);
      var _ := AddCell(ws, lastRow + 2, 2, Formula(CountRatio(first.row, first.col, last.row, last.col)), Some(Percent));
      var _ := AddCell(ws, lastRow + 3, 1, Str(AbsentLabel), None);
      var _ := AddCell(ws, lastRow + 3, 2, Formula(OneMinus(lastRow + 2, 2)), Some(Percent));
    }

    /**
     * `processar_planilha`: the sheet ends as ProcessStep says; `ok` is false
     * when processing raised, a skipped sheet's title is appended to the list,
     * and a well-formed sheet stays well formed.
     */
    method ProcessSheet(ws: Worksheet) returns (ok: bool)
      modifies this, ws
      ensures ws.State() == ProcessStep(old(ws.State())).data
      ensures ok <==> !Crashes(old(ws.State()))
      ensures skipped == old(skipped) + if Skips(old(ws.State())) then [old(ws.title)] else []
      ensures old(ws.Valid()) ==> ws.Valid()
    {
      ghost var d0 := ws.State();
      var lastRow, lastCol := Limits(ws);
      if lastRow < 3 {
        skipped := skipped + [ws.title];
        assert ProcessStep(d0) == Step(d0, Skipped);
        return true;
      }
      var marker := SearchRows(ws, MarkerText);
      if marker.None? {
        skipped := skipped + [ws.title];
        assert ProcessStep(d0) == Step(d0, Skipped);
        return true;
      }
      var header := marker.value.row + 1;
      var l := Layout(header, Pos(header + 1, 2), Pos(lastRow - 1, lastCol), lastRow, lastCol);
      assert l == LayoutOf(d0, marker.value);
      ok := AnnotateSheet(ws, l);
    }

    /**
     * `processar_planilha` found an existing "dados faltantes" cell q: q
     * becomes the missing-data header, and then its left neighbour, reached
     * through `offset(0, -1)`, the obtained-data header; the offset raises in
     * column 1. `ok` is false when it raised.
     */
    method RelabelColumns(ws: Worksheet, q: Pos) returns (ok: bool)
      requires IsPos(q)
      modifies ws
      ensures ok <==> q.col > 1
      ensures ws.State() == if ok then Renamed(old(ws.State()), q) else Assigned(old(ws.State()), q, Str(MissingHeader))
    {
      ws.Assign(q, Str(MissingHeader));
      if q.col - 1 < 1 {
        return false;
      }
      ws.Assign(Pos(q.row, q.col - 1), Str(ObtainedHeader));
      ok := true;
    }

    /** `processar_planilha` found no "dados faltantes" cell: the two header columns, then the per-row formulas. */
    method AddColumns(ws: Worksheet, l: Layout)
      requires Placed(l)
      modifies ws
      ensures ws.State() == Columns(old(ws.State()), l)
    {
      var obtCol, ausCol := AddHeaderColumns(ws, l.header, l.lastCol);
      RowPercentages(ws, l.first, l.last, obtCol, ausCol);
    }

    /**
     * The rest of `processar_planilha` once the marker is found: the lookups
     * of the data rectangle's corners, either branch, then the trailer. `ok`
     * is false when it raised, and a well-formed sheet stays well formed.
     */
    method AnnotateSheet(ws: Worksheet, l: Layout) returns (ok: bool)
      requires Placed(l)
      modifies ws
      ensures ws.State() == MarkedStep(Touched(Touched(old(ws.State()), l.first), l.last), l).data
      ensures ok <==> !MarkedStep(Touched(Touched(old(ws.State()), l.first), l.last), l).outcome.Crashed?
      ensures old(ws.Valid()) ==> ws.Valid()
    {
      ws.Touch(l.first);
      ws.Touch(l.last);
      ghost var t := ws.State();
      if WellFormed(t) {
        MarkedStepWellFormed(t, l);
      }
      var missing := SearchRows(ws, MissingDataText);
      if missing.Some? {
        ok := RelabelColumns(ws, missing.value);
        if !ok {
          return;
        }
        assert MarkedStep(t, l).data == Totals(ws.State(), l.first, l.last, l.lastRow);
      } else {
        AddColumns(ws, l);
        assert MarkedStep(t, l).data == Totals(ws.State(), l.first, l.last, l.lastRow);
      }
      OverallPercentages(ws, l.first, l.last, l.lastRow);
      ok := true;
    }

    /** One sheet of the workbook loop: sheet i ends as step i of the pass, and a skipped sheet's title is appended. */
    method ProcessAt(ghost ds: seq<SheetData>, ghost steps: seq<Step>, i: nat) returns (ok: bool)
      requires Distinct(sheets) && Pass(ds, steps)
      requires i < |ds| == |sheets| && sheets[i].State() == ds[i]
      modifies this, sheets[i]
      ensures States(sheets) == old(States(sheets))[i := steps[i].data]
      ensures ok <==> !steps[i].outcome.Crashed?
      ensures skipped == old(skipped) + if steps[i].outcome.Skipped? then [steps[i].data.title] else []
    {
      SkipIff(ds[i]);
      ghost var before := States(sheets);
      ok := ProcessSheet(sheets[i]);
      assert forall j :: 0 <= j < |sheets| && j != i ==> sheets[j].State() == before[j];
    }

    /**
     * The loop has run the first n steps of the pass without a raise: those
     * sheets hold their steps, the others their snapshots, and the titles of
     * the skipped ones follow `start`.
     */
    ghost predicate Reached(ds: seq<SheetData>, steps: seq<Step>, start: seq<string>, n: nat)
      reads this, set w | w in sheets
    {
      && |ds| == |steps| == |sheets| && n <= |sheets|
      && (forall j :: 0 <= j < n ==> !steps[j].outcome.Crashed?)
      && States(sheets) == Progress(ds, steps, n)
      && skipped == start + SkippedTitles(steps, n)
    }

    /** The loop stopped because step n raised, after the first n steps ran without one. */
    ghost predicate Stopped(ds: seq<SheetData>, steps: seq<Step>, start: seq<string>, n: nat)
      reads this, set w | w in sheets
    {
      && |ds| == |steps| == |sheets| && n < |sheets|
      && (forall j :: 0 <= j < n ==> !steps[j].outcome.Crashed?)
      && steps[n].outcome.Crashed?
      && States(sheets) == Progress(ds, steps, n + 1)
      && skipped == start + SkippedTitles(steps, n)
    }

    /** One turn of the loop: sheet i either lets the loop go on or is the first to raise. */
    method Turn(ghost ds: seq<SheetData>, ghost steps: seq<Step>, ghost start: seq<string>, i: nat) returns (ok: bool)
      requires Distinct(sheets) && Pass(ds, steps) && i < |sheets| && Reached(ds, steps, start, i)
      modifies this, sheets
      ensures if ok then Reached(ds, steps, start, i + 1) else Stopped(ds, steps, start, i)
    {
      ghost var before := skipped;
      ok := ProcessAt(ds, steps, i);
      SkippedTitlesStep(start, before, skipped, steps, i);
      ProgressStep(ds, steps, i);
    }

    /**
     * The loop over the workbook: it stops at the first sheet that raises and
     * returns how many sheets were processed before it.
     */
    method RunSheets(ghost ds: seq<SheetData>, ghost steps: seq<Step>) returns (n: nat)
      requires Distinct(sheets) && Pass(ds, steps) && States(sheets) == ds
      modifies this, sheets
      ensures (n == |sheets| && Reached(ds, steps, old(skipped), n)) || Stopped(ds, steps, old(skipped), n)
    {
      ghost var start := skipped;
      ProgressNone(ds, steps);
      n := 0;
      while n < |sheets|
        invariant Reached(ds, steps, start, n)
      {
        var ok := Turn(ds, steps, start, n);
        if !ok {
          return;
        }
        n := n + 1;
      }
    }

    /**
     * `processar`: the sheets in workbook order until one raises. `steps` is
     * the pass over the sheets as they were. When no step raises, every sheet
     * ends as its step and the report lists the skipped titles; otherwise the
     * sheets up to the failing one end as their steps (the failing one as it
     * was when it raised), the later ones are untouched, and nothing is
     * reported. Every well-formed sheet stays well formed.
     */
    method Process() returns (ok: bool, report: Option<string>, ghost steps: seq<Step>)
      requires Distinct(sheets)
      modifies this, sheets
      ensures Pass(old(States(sheets)), steps)
      ensures var n := FirstCrash(steps);
              && (ok <==> n == |steps|)
              && (forall i :: 0 <= i < |sheets| ==> sheets[i].State() == if i <= n then steps[i].data else old(sheets[i].State()))
              && skipped == old(skipped) + SkippedTitles(steps, n)
              && report == if ok then ReportText(skipped) else None
      ensures forall i :: 0 <= i < |sheets| && old(sheets[i].Valid()) ==> sheets[i].Valid()
    {
      ghost var ds := States(sheets);
      steps := PassExists(ds);
      PassWellFormed(ds, steps);
      var n := RunSheets(ds, steps);
      FirstCrashIs(steps, n);
      ReachedWellFormed(ds, steps, States(sheets), n);
      ok := n == |sheets|;
      report := if ok then ReportText(skipped) else None;
    }
  }
}
