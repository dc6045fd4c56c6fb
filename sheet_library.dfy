/**
 * The helper functions that write into worksheets: add a cell with an
 * optional number format, format one cell, format a whole column, and copy a
 * sheet's values and number formats into another sheet.
 */
module SheetLibrary {
  import opened Sheets

  /** Python truthiness of the optional format argument: None and "" do not apply. */
  predicate FormatGiven(fmt: Option<string>) {
    fmt.Some? && fmt.value != ""
  }

  /** What cell `c` becomes when `adicionar_celula` writes `v` with `fmt` into it. */
  function AddedCell(c: Cell, v: Value, fmt: Option<string>): Cell {
    Cell(if v.Empty? then c.value else v,
         if FormatGiven(fmt) then fmt.value else c.format,
         c.styled || (FormatGiven(fmt) && fmt.value != General))
  }

  /**
   * `adicionar_celula`: cell p takes the value (a None value leaves it as it
   * was) and, only when a format is given, that format; no other cell changes.
   */
  function Added(d: SheetData, p: Pos, v: Value, fmt: Option<string>): (r: SheetData)
    requires IsPos(p)
    ensures InBounds(r, p)
    ensures WellFormed(d) ==> WellFormed(r)
  {
    d.(cells := d.cells[p := AddedCell(At(d, p), v, fmt)], maxRow := Max(d.maxRow, p.row), maxCol := Max(d.maxCol, p.col))
  }

  /** Only cell p changes; the bounds widen to cover it. */
  lemma AddedAt(d: SheetData, p: Pos, v: Value, fmt: Option<string>, q: Pos)
    requires IsPos(p)
    ensures At(Added(d, p, v, fmt), q) == if q == p then AddedCell(At(d, p), v, fmt) else At(d, q)
    ensures Added(d, p, v, fmt).title == d.title && Added(d, p, v, fmt).maxRow == Max(d.maxRow, p.row) && Added(d, p, v, fmt).maxCol == Max(d.maxCol, p.col)
  {
  }

  /** The helper is the library's two steps: store the value, then assign the format when one is given. */
  lemma AddedIsStoreThenFormat(d: SheetData, p: Pos, v: Value, fmt: Option<string>)
    requires IsPos(p)
    ensures Added(d, p, v, fmt) == if FormatGiven(fmt) then Formatted(Stored(d, p, v), p, fmt.value) else Stored(d, p, v)
  {
    var stored := Stored(d, p, v);
    var r := if FormatGiven(fmt) then Formatted(stored, p, fmt.value) else stored;
    assert Added(d, p, v, fmt).cells == r.cells;
  }

  /** The library raises ValueError, before any change, for a row or column below 1. */
  method AddCell(ws: Worksheet, row: int, col: int, v: Value, fmt: Option<string>) returns (ok: bool)
    modifies ws
    ensures ok <==> row >= 1 && col >= 1
    ensures ws.State() == if ok then Added(old(ws.State()), Pos(row, col), v, fmt) else old(ws.State())
  {
    if row < 1 || col < 1 {
      return false;
    }
    var p := Pos(row, col);
    ws.Store(p, v);
    if fmt.Some? && fmt.value != "" {
      ws.AssignFormat(p, fmt.value);
    }
    ok := true;
  }

  /** `formata_celula`: the format is assigned whatever it is, the empty string included. */
  method FormatCell(ws: Worksheet, row: int, col: int, f: string) returns (ok: bool)
    modifies ws
    ensures ok <==> row >= 1 && col >= 1
    ensures ws.State() == if ok then Formatted(old(ws.State()), Pos(row, col), f) else old(ws.State())
  {
    if row < 1 || col < 1 {
      return false;
    }
    ws.AssignFormat(Pos(row, col), f);
    ok := true;
  }

  /** Rows 1 to k of column c formatted with f, one after another. */
  function ColumnFormatted(d: SheetData, c: int, f: string, k: nat): SheetData
    requires c >= 1
  {
    if k == 0 then d else Formatted(ColumnFormatted(d, c, f, k - 1), Pos(k, c), f)
  }

  /** Exactly rows 1 to k of column c get format f; values and every other cell stay. */
  lemma {:induction false} ColumnFormattedAt(d: SheetData, c: int, f: string, k: nat, q: Pos)
    requires c >= 1
    ensures At(ColumnFormatted(d, c, f, k), q) ==
            if q.col == c && 1 <= q.row <= k then At(d, q).(format := f, styled := At(d, q).styled || f != General) else At(d, q)
  {
    if k > 0 {
      ColumnFormattedAt(d, c, f, k - 1, q);
    }
  }

  /** Formatting rows 1 to k keeps the title, reaches row k and covers column c. */
  lemma {:induction false} ColumnFormattedBounds(d: SheetData, c: int, f: string, k: nat)
    requires c >= 1
    ensures ColumnFormatted(d, c, f, k).title == d.title
    ensures ColumnFormatted(d, c, f, k).maxRow == Max(d.maxRow, k)
    ensures ColumnFormatted(d, c, f, k).maxCol == if k == 0 then d.maxCol else Max(d.maxCol, c)
  {
    if k > 0 {
      ColumnFormattedBounds(d, c, f, k - 1);
    }
  }

  /**
   * `aplicar_formatacao_coluna`: formats rows 1 to the last row read at the
   * start; a column below 1 makes the first lookup raise before any change.
   */
  method FormatColumn(ws: Worksheet, col: int, f: string) returns (ok: bool)
    modifies ws
    ensures ok <==> col >= 1
    ensures ws.State() == if ok then ColumnFormatted(old(ws.State()), col, f, old(ws.maxRow)) else old(ws.State())
  {
    var lastRow := ws.maxRow;
    if col < 1 {
      return false;
    }
    ghost var d0 := ws.State();
    for r := 1 to lastRow + 1
      invariant ws.State() == ColumnFormatted(d0, col, f, r - 1)
    {
      ws.AssignFormat(Pos(r, col), f);
    }
    ok := true;
  }

  /** What destination cell `t` becomes when source cell `s` is copied onto it. */
  function CopiedCell(s: Cell, t: Cell): Cell {
    Cell(if s.value.Empty? then t.value else s.value,
         if s.styled then s.format else t.format,
         t.styled || (s.styled && s.format != General))
  }

  /** Copying one cell: the value through `cell(row, column, value=...)`, the format only when styled. */
  function CopyStep(s: SheetData, d: SheetData, p: Pos): (r: SheetData)
    requires IsPos(p)
    ensures r.title == d.title && r.maxRow == Max(d.maxRow, p.row) && r.maxCol == Max(d.maxCol, p.col)
    ensures forall q :: At(r, q) == if q == p then CopiedCell(At(s, p), At(d, p)) else At(d, q)
  {
    var stored := Stored(d, p, At(s, p).value);
    if At(s, p).styled then Formatted(stored, p, At(s, p).format) else stored
  }

  /**
   * A source cell without a style whose format was set to "General" has no
   * style, so the copy leaves the destination's format as it was.
   */
  lemma GeneralFormatNotCopied(s: SheetData, d: SheetData, p: Pos)
    requires IsPos(p) && !At(s, p).styled
    ensures !At(Formatted(s, p, General), p).styled
    ensures At(CopyStep(Formatted(s, p, General), d, p), p).format == At(d, p).format
  {
  }

  /** The copy of source positions (r, c) onward, in row-major order, into d. */
  function CopiedFrom(s: SheetData, d: SheetData, r: int, c: int): SheetData
    requires 1 <= r && 1 <= c <= s.maxCol + 1
    decreases s.maxRow + 1 - r, s.maxCol + 1 - c
  {
    if r > s.maxRow then d
    else if c > s.maxCol then CopiedFrom(s, d, r + 1, 1)
    else CopiedFrom(s, CopyStep(s, d, Pos(r, c)), r, c + 1)
  }

  /** Each source cell from (r, c) onward lands at the same position; every other destination cell stays. */
  lemma {:induction false} CopiedFromAt(s: SheetData, d: SheetData, r: int, c: int, q: Pos)
    requires 1 <= r && 1 <= c <= s.maxCol + 1
    decreases s.maxRow + 1 - r, s.maxCol + 1 - c
    ensures At(CopiedFrom(s, d, r, c), q) ==
            if InBounds(s, q) && !Before(q, Pos(r, c)) then CopiedCell(At(s, q), At(d, q)) else At(d, q)
  {
    if r > s.maxRow {
    } else if c > s.maxCol {
      CopiedFromAt(s, d, r + 1, 1, q);
    } else {
      CopiedFromAt(s, CopyStep(s, d, Pos(r, c)), r, c + 1, q);
    }
  }

  /** Positions from (r, c) to the end of the source remain to be copied. */
  predicate Remaining(s: SheetData, r: int, c: int) {
    r < s.maxRow || (r == s.maxRow && c <= s.maxCol)
  }

  /** The copy keeps the destination's title and widens its bounds to the source's. */
  lemma {:induction false} CopiedFromBounds(s: SheetData, d: SheetData, r: int, c: int)
    requires 1 <= r && 1 <= c <= s.maxCol + 1
    requires s.maxCol >= 1
    decreases s.maxRow + 1 - r, s.maxCol + 1 - c
    ensures CopiedFrom(s, d, r, c).title == d.title
    ensures CopiedFrom(s, d, r, c).maxRow == if Remaining(s, r, c) then Max(d.maxRow, s.maxRow) else d.maxRow
    ensures CopiedFrom(s, d, r, c).maxCol == if Remaining(s, r, c) then Max(d.maxCol, s.maxCol) else d.maxCol
  {
    if r > s.maxRow {
    } else if c > s.maxCol {
      CopiedFromBounds(s, d, r + 1, 1);
    } else {
      CopiedFromBounds(s, CopyStep(s, d, Pos(r, c)), r, c + 1);
    }
  }

  /** `copiar_planilha_com_formatacao`: the nested loops over the source's rows and cells. */
  method CopyWithFormat(source: Worksheet, target: Worksheet)
    requires source != target
    modifies target
    ensures target.State() == CopiedFrom(source.State(), old(target.State()), 1, 1)
  {
    ghost var result := CopiedFrom(source.State(), target.State(), 1, 1);
    var r := 1;
    while r <= source.maxRow
      invariant 1 <= r <= source.maxRow + 1
      invariant CopiedFrom(source.State(), target.State(), r, 1) == result
    {
      var c := 1;
      while c <= source.maxCol
        invariant 1 <= c <= source.maxCol + 1
        invariant CopiedFrom(source.State(), target.State(), r, c) == result
      {
        var cell := At(source.State(), Pos(r, c));
        target.Store(Pos(r, c), cell.value);
        if cell.styled {
          target.AssignFormat(Pos(r, c), cell.format);
        }
        c := c + 1;
      }
      r := r + 1;
    }
  }
}
