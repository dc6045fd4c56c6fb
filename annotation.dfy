/**
 * What both versions of the annotator write: the layout derived from the
 * marker cell, the two header cells and the two percentage formulas per data
 * row. The trailer rows differ between the versions and live with each.
 */
module Annotation {
  import opened Sheets
  import opened SheetLibrary

  const Percent: string := "0.00%"
  const ObtainedHeader: string := "DADOS_OBTIDOS (%)"
  const MissingHeader: string := "DADOS_AUSENTES (%)"
  const CompleteLabel: string := "PORCENT_COMPLETA (%)"
  const AbsentLabel: string := "PORCENT_AUSENTE (%)"
  const Separator: string := "-------------"

  /** How processing one sheet ends: annotated, skipped, or stopped by an exception. */
  datatype Outcome = Processed | Skipped | Crashed

  /** The sheet after processing, and how processing ended. */
  datatype Step = Step(data: SheetData, outcome: Outcome)

  /** A formula cell in the two-decimal percentage format. */
  function PercentCell(t: FormulaTerm): Cell {
    Cell(Formula(t), Percent, true)
  }

  /**
   * The table around a marker cell, from the bounds read before any write:
   * the header is the row below the marker, the data start one row lower in
   * column 2 and end in the row above the last row, in the last column.
   */
  datatype Layout = Layout(header: int, first: Pos, last: Pos, lastRow: nat, lastCol: nat)

  /** The data rectangle's corners are real cells and the header row exists. */
  predicate Placed(l: Layout) {
    l.header >= 1 && IsPos(l.first) && l.first.row == l.header + 1 && IsPos(l.last)
  }

  /** The header row lies above the data rows and the trailer below them, to the left of the new columns. */
  predicate Separated(l: Layout) {
    l.last.row <= l.lastRow && l.lastCol >= 1
  }

  /** Whether q lies in the data rectangle of l. */
  predicate InData(l: Layout, q: Pos) {
    l.first.row <= q.row <= l.last.row && l.first.col <= q.col <= l.last.col
  }

  /**
   * For a marker that is a real cell: the header row and the first data cell
   * are real cells too, the end cell is one exactly when the sheet has at
   * least 2 rows, and then the layout is placed and separated. The data
   * rectangle lies within the bounds, below the header row, and the new
   * columns and the trailer rows lie outside the bounds.
   */
  function LayoutOf(d: SheetData, marker: Pos): (l: Layout)
    ensures IsPos(marker) ==> l.header >= 1 && IsPos(l.first) && l.first.row == l.header + 1
    ensures IsPos(l.last) <==> d.maxRow >= 2 && d.maxCol >= 1
    ensures IsPos(marker) && d.maxRow >= 2 && d.maxCol >= 1 ==> Placed(l) && Separated(l)
    ensures IsPos(marker) ==> forall q :: InData(l, q) ==> InBounds(d, q) && q.row > l.header
    ensures forall q :: InBounds(d, q) ==> q.row <= l.lastRow && q.col <= l.lastCol
  {
    Layout(marker.row + 1, Pos(marker.row + 2, 2), Pos(d.maxRow - 1, d.maxCol), d.maxRow, d.maxCol)
  }

  /** The two header cells after the last column, in the header row. */
  function HeaderColumns(d: SheetData, header: int, lastCol: nat): SheetData
    requires header >= 1
  {
    d.(cells := d.cells[Pos(header, lastCol + 1) := AddedCell(At(d, Pos(header, lastCol + 1)), Str(ObtainedHeader), None)]
                       [Pos(header, lastCol + 2) := AddedCell(At(d, Pos(header, lastCol + 2)), Str(MissingHeader), None)],
       maxRow := Max(d.maxRow, header), maxCol := Max(d.maxCol, lastCol + 2))
  }

  /** The two headers are two `adicionar_celula` calls without a format. */
  lemma HeaderColumnsAreSteps(d: SheetData, header: int, lastCol: nat)
    requires header >= 1
    ensures HeaderColumns(d, header, lastCol) ==
            Added(Added(d, Pos(header, lastCol + 1), Str(ObtainedHeader), None), Pos(header, lastCol + 2), Str(MissingHeader), None)
  {
    assert HeaderColumns(d, header, lastCol).cells ==
           Added(Added(d, Pos(header, lastCol + 1), Str(ObtainedHeader), None), Pos(header, lastCol + 2), Str(MissingHeader), None).cells;
  }

  /** Cell q, holding c, after the two header labels were written: they keep the cells' formats. */
  function HeaderCell(c: Cell, header: int, lastCol: nat, q: Pos): Cell {
    if q == Pos(header, lastCol + 2) then c.(value := Str(MissingHeader))
    else if q == Pos(header, lastCol + 1) then c.(value := Str(ObtainedHeader))
    else c
  }

  /** The header row gets the two labels after the last column; nothing else changes. */
  lemma HeaderColumnsAt(d: SheetData, header: int, lastCol: nat, q: Pos)
    requires header >= 1
    ensures At(HeaderColumns(d, header, lastCol), q) == HeaderCell(At(d, q), header, lastCol, q)
    ensures HeaderColumns(d, header, lastCol).title == d.title
    ensures HeaderColumns(d, header, lastCol).maxRow == Max(d.maxRow, header)
    ensures HeaderColumns(d, header, lastCol).maxCol == Max(d.maxCol, lastCol + 2)
  {
  }

  /** The two formulas of data row r: the ratio over the row's data cells, and one minus it. */
  function RowCells(d: SheetData, first: Pos, last: Pos, obtCol: int, ausCol: int, r: int): SheetData
    requires r >= 1 && obtCol >= 1 && ausCol >= 1
  {
    d.(cells := d.cells[Pos(r, obtCol) := PercentCell(CountRatio(r, first.col, r, last.col))]
                       [Pos(r, ausCol) := PercentCell(OneMinus(r, obtCol))],
       maxRow := Max(d.maxRow, r), maxCol := Max(Max(d.maxCol, obtCol), ausCol))
  }

  /**
   * Row r's obtained cell holds the ratio over the row and its missing cell
   * one minus the obtained cell, both in the percentage format; every other
   * cell stays, and the bounds reach the row and both columns.
   */
  lemma RowCellsAt(d: SheetData, first: Pos, last: Pos, obtCol: int, ausCol: int, r: int, q: Pos)
    requires r >= 1 && obtCol >= 1 && ausCol >= 1
    ensures At(RowCells(d, first, last, obtCol, ausCol, r), q) ==
              if q == Pos(r, ausCol) then PercentCell(OneMinus(r, obtCol))
              else if q == Pos(r, obtCol) then PercentCell(CountRatio(r, first.col, r, last.col))
              else At(d, q)
    ensures RowCells(d, first, last, obtCol, ausCol, r).title == d.title
    ensures RowCells(d, first, last, obtCol, ausCol, r).maxRow == Max(d.maxRow, r)
    ensures RowCells(d, first, last, obtCol, ausCol, r).maxCol == Max(Max(d.maxCol, obtCol), ausCol)
  {
  }

  /** A data row's two cells are two `adicionar_celula` calls in the percentage format. */
  lemma RowCellsAreSteps(d: SheetData, first: Pos, last: Pos, obtCol: int, ausCol: int, r: int)
    requires r >= 1 && obtCol >= 1 && ausCol >= 1
    ensures RowCells(d, first, last, obtCol, ausCol, r) ==
            Added(Added(d, Pos(r, obtCol), Formula(CountRatio(r, first.col, r, last.col)), Some(Percent)),
                  Pos(r, ausCol), Formula(OneMinus(r, obtCol)), Some(Percent))
  {
    var steps := Added(Added(d, Pos(r, obtCol), Formula(CountRatio(r, first.col, r, last.col)), Some(Percent)),
                       Pos(r, ausCol), Formula(OneMinus(r, obtCol)), Some(Percent));
    assert RowCells(d, first, last, obtCol, ausCol, r).cells == steps.cells;
  }

  /** The per-row loop over data rows r to last.row, inclusive. */
  function RowFormulas(d: SheetData, first: Pos, last: Pos, obtCol: int, ausCol: int, r: int): SheetData
    requires r >= 1 && obtCol >= 1 && ausCol >= 1
    decreases last.row + 1 - r
  {
    if r > last.row then d
    else RowFormulas(RowCells(d, first, last, obtCol, ausCol, r), first, last, obtCol, ausCol, r + 1)
  }

  /** Whether row `row` is one the per-row loop from `r` writes. */
  predicate InRows(r: int, last: Pos, row: int) {
    r <= row <= last.row
  }

  /** Cell q, holding c, after the per-row loop from row r: both formulas in the percentage format. */
  function RowsCell(c: Cell, first: Pos, last: Pos, obtCol: int, ausCol: int, r: int, q: Pos): Cell {
    if InRows(r, last, q.row) && q.col == ausCol then PercentCell(OneMinus(q.row, obtCol))
    else if InRows(r, last, q.row) && q.col == obtCol then PercentCell(CountRatio(q.row, first.col, q.row, last.col))
    else c
  }

  /**
   * In every data row from r to last.row, the obtained column holds the ratio
   * over that row and the missing column one minus the obtained cell, both in
   * the percentage format; every other cell is as before (so nothing is
   * written when r is past last.row).
   */
  lemma {:induction false} RowFormulasAt(d: SheetData, first: Pos, last: Pos, obtCol: int, ausCol: int, r: int, q: Pos)
    requires r >= 1 && obtCol >= 1 && ausCol >= 1
    decreases last.row + 1 - r
    ensures At(RowFormulas(d, first, last, obtCol, ausCol, r), q) == RowsCell(At(d, q), first, last, obtCol, ausCol, r, q)
  {
    if r <= last.row {
      var next := RowCells(d, first, last, obtCol, ausCol, r);
      assert RowFormulas(d, first, last, obtCol, ausCol, r) == RowFormulas(next, first, last, obtCol, ausCol, r + 1);
      RowFormulasAt(next, first, last, obtCol, ausCol, r + 1, q);
    }
  }

  /** The per-row loop keeps the title and reaches the last data row and the later of the two columns. */
  lemma {:induction false} RowFormulasBounds(d: SheetData, first: Pos, last: Pos, obtCol: int, ausCol: int, r: int)
    requires r >= 1 && obtCol >= 1 && ausCol >= 1
    decreases last.row + 1 - r
    ensures RowFormulas(d, first, last, obtCol, ausCol, r).title == d.title
    ensures RowFormulas(d, first, last, obtCol, ausCol, r).maxRow ==
            if r <= last.row then Max(d.maxRow, last.row) else d.maxRow
    ensures RowFormulas(d, first, last, obtCol, ausCol, r).maxCol ==
            if r <= last.row then Max(Max(d.maxCol, obtCol), ausCol) else d.maxCol
  {
    if r <= last.row {
      var next := RowCells(d, first, last, obtCol, ausCol, r);
      assert RowFormulas(d, first, last, obtCol, ausCol, r) == RowFormulas(next, first, last, obtCol, ausCol, r + 1);
      RowFormulasBounds(next, first, last, obtCol, ausCol, r + 1);
    }
  }

  /** The two headers keep a well-formed sheet well formed. */
  lemma HeaderColumnsWellFormed(d: SheetData, header: int, lastCol: nat)
    requires WellFormed(d) && header >= 1
    ensures WellFormed(HeaderColumns(d, header, lastCol))
  {
  }

  /** Row by row, the per-row loop keeps a well-formed sheet well formed. */
  lemma {:induction false} RowFormulasWellFormed(d: SheetData, first: Pos, last: Pos, obtCol: int, ausCol: int, r: int)
    requires WellFormed(d) && r >= 1 && obtCol >= 1 && ausCol >= 1
    decreases last.row + 1 - r
    ensures WellFormed(RowFormulas(d, first, last, obtCol, ausCol, r))
  {
    if r <= last.row {
      var next := RowCells(d, first, last, obtCol, ausCol, r);
      assert WellFormed(next);
      assert RowFormulas(d, first, last, obtCol, ausCol, r) == RowFormulas(next, first, last, obtCol, ausCol, r + 1);
      RowFormulasWellFormed(next, first, last, obtCol, ausCol, r + 1);
    }
  }
}
