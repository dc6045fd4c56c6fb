/**
 * The worksheet the scripts operate on, as the spreadsheet library presents it:
 * a 1-based grid of cells addressed by (row, column), the last row and column
 * the sheet has seen so far, and a title.
 *
 * Library behaviour the scripts rely on, modelled here:
 *  - looking a cell up by (row, column) stores it and widens the bounds to cover it;
 *  - `cell(row, column, value=v)` leaves the stored value alone when v is None;
 *  - assigning a number format other than "General" (built-in format 0) marks the
 *    cell as styled; "General" leaves the flag as it was.
 */
module Sheets {

  datatype Option<T> = None | Some(value: T)

  /** Formula text the scripts write, kept as a term over 1-based cell references. */
  datatype FormulaTerm =
    | CountRatio(r1: int, c1: int, r2: int, c2: int)  // =COUNT(range) / COUNTA(range)
    | OneMinus(r: int, c: int)                        // =1-ref

  /** A cell value; Python's None is Empty. */
  datatype Value = Empty | Str(s: string) | Num(x: real) | Formula(term: FormulaTerm)

  datatype Pos = Pos(row: int, col: int)

  /** A cell's value, its number format, and whether it carries a non-default style. */
  datatype Cell = Cell(value: Value, format: string, styled: bool)

  const General: string := "General"

  /** What a cell the sheet has never stored reads as. */
  const Fresh: Cell := Cell(Empty, General, false)

  /** A snapshot of a worksheet: its title, its stored cells and its bounds. */
  datatype SheetData = SheetData(title: string, cells: map<Pos, Cell>, maxRow: nat, maxCol: nat)

  /** The library refuses rows and columns below 1. */
  predicate IsPos(p: Pos) {
    p.row >= 1 && p.col >= 1
  }

  predicate InBounds(d: SheetData, p: Pos) {
    1 <= p.row <= d.maxRow && 1 <= p.col <= d.maxCol
  }

  /** Row-major (reading) order. */
  predicate Before(p: Pos, q: Pos) {
    p.row < q.row || (p.row == q.row && p.col < q.col)
  }

  /** Bounds are at least 1 and cover every stored cell; each write below keeps this. */
  ghost predicate WellFormed(d: SheetData) {
    && d.maxRow >= 1
    && d.maxCol >= 1
    && forall p :: p in d.cells ==> InBounds(d, p)
  }

  function At(d: SheetData, p: Pos): Cell {
    if p in d.cells then d.cells[p] else Fresh
  }

  function Max(a: nat, b: int): nat {
    if a >= b then a else b
  }

  /** Looking up cell p: it becomes stored, unchanged, and the bounds grow to cover it. */
  function Touched(d: SheetData, p: Pos): (r: SheetData)
    requires IsPos(p)
    ensures InBounds(r, p)
    ensures WellFormed(d) ==> WellFormed(r)
  {
    d.(cells := d.cells[p := At(d, p)], maxRow := Max(d.maxRow, p.row), maxCol := Max(d.maxCol, p.col))
  }

  /** `cell.value = v`: cell p gets value v, keeping its format. */
  function Assigned(d: SheetData, p: Pos, v: Value): (r: SheetData)
    requires IsPos(p)
    ensures InBounds(r, p)
    ensures WellFormed(d) ==> WellFormed(r)
  {
    d.(cells := d.cells[p := At(d, p).(value := v)], maxRow := Max(d.maxRow, p.row), maxCol := Max(d.maxCol, p.col))
  }

  /** Cell c with number format f: a format other than "General" gives it a style. */
  function Restyled(c: Cell, f: string): Cell {
    c.(format := f, styled := c.styled || f != General)
  }

  /** `cell.number_format = f`: cell p gets format f, and a style unless f is "General", keeping its value. */
  function Formatted(d: SheetData, p: Pos, f: string): (r: SheetData)
    requires IsPos(p)
    ensures InBounds(r, p)
    ensures WellFormed(d) ==> WellFormed(r)
  {
    d.(cells := d.cells[p := Restyled(At(d, p), f)], maxRow := Max(d.maxRow, p.row), maxCol := Max(d.maxCol, p.col))
  }

  /** `cell(row, column, value=v)`: a None value leaves the stored value as it was. */
  function Stored(d: SheetData, p: Pos, v: Value): (r: SheetData)
    requires IsPos(p)
    ensures InBounds(r, p)
    ensures WellFormed(d) ==> WellFormed(r)
  {
    if v.Empty? then Touched(d, p) else Assigned(d, p, v)
  }

  /** A lookup changes no cell's contents; it keeps the title and widens the bounds to cover the cell. */
  lemma TouchedAt(d: SheetData, p: Pos)
    requires IsPos(p)
    ensures forall q :: At(Touched(d, p), q) == At(d, q)
    ensures Touched(d, p).title == d.title && Touched(d, p).maxRow == Max(d.maxRow, p.row) && Touched(d, p).maxCol == Max(d.maxCol, p.col)
  {
  }

  /** An assignment changes the value of cell p only, and widens the bounds to cover it. */
  lemma AssignedAt(d: SheetData, p: Pos, v: Value, q: Pos)
    requires IsPos(p)
    ensures At(Assigned(d, p, v), q) == if q == p then At(d, p).(value := v) else At(d, q)
    ensures Assigned(d, p, v).title == d.title && Assigned(d, p, v).maxRow == Max(d.maxRow, p.row) && Assigned(d, p, v).maxCol == Max(d.maxCol, p.col)
  {
  }

  /** A format assignment changes the format of cell p only, styling it unless the format is "General", and widens the bounds to cover it. */
  lemma FormattedAt(d: SheetData, p: Pos, f: string, q: Pos)
    requires IsPos(p)
    ensures At(Formatted(d, p, f), q) == if q == p then At(d, p).(format := f, styled := At(d, p).styled || f != General) else At(d, q)
    ensures Formatted(d, p, f).title == d.title && Formatted(d, p, f).maxRow == Max(d.maxRow, p.row) && Formatted(d, p, f).maxCol == Max(d.maxCol, p.col)
  {
  }

  /** A store with a value assigns it; a store of None changes no cell; either widens the bounds to cover it. */
  lemma StoredAt(d: SheetData, p: Pos, v: Value, q: Pos)
    requires IsPos(p)
    ensures At(Stored(d, p, v), q) == if q == p && !v.Empty? then At(d, p).(value := v) else At(d, q)
    ensures Stored(d, p, v).title == d.title && Stored(d, p, v).maxRow == Max(d.maxRow, p.row) && Stored(d, p, v).maxCol == Max(d.maxCol, p.col)
  {
  }

  class Worksheet {
    var title: string
    var cells: map<Pos, Cell>
    var maxRow: nat
    var maxCol: nat

    function State(): SheetData
      reads this
    {
      SheetData(title, cells, maxRow, maxCol)
    }

    ghost predicate Valid()
      reads this
    {
      WellFormed(State())
    }

    method Touch(p: Pos)
      requires IsPos(p)
      modifies this
      ensures old(Valid()) ==> Valid()
      ensures State() == Touched(old(State()), p)
    {
      cells, maxRow, maxCol := cells[p := At(State(), p)], Max(maxRow, p.row), Max(maxCol, p.col);
    }

    method Assign(p: Pos, v: Value)
      requires IsPos(p)
      modifies this
      ensures old(Valid()) ==> Valid()
      ensures State() == Assigned(old(State()), p, v)
    {
      cells, maxRow, maxCol := cells[p := At(State(), p).(value := v)], Max(maxRow, p.row), Max(maxCol, p.col);
    }

    method AssignFormat(p: Pos, f: string)
      requires IsPos(p)
      modifies this
      ensures old(Valid()) ==> Valid()
      ensures State() == Formatted(old(State()), p, f)
    {
      cells, maxRow, maxCol := cells[p := Restyled(At(State(), p), f)], Max(maxRow, p.row), Max(maxCol, p.col);
    }

    method Store(p: Pos, v: Value)
      requires IsPos(p)
      modifies this
      ensures old(Valid()) ==> Valid()
      ensures State() == Stored(old(State()), p, v)
    {
      if v.Empty? {
        Touch(p);
      } else {
        Assign(p, v);
      }
    }
  }

  /** The snapshots of a workbook's worksheets, in workbook order. */
  function States(ws: seq<Worksheet>): (ds: seq<SheetData>)
    reads set w | w in ws
    ensures |ds| == |ws|
    ensures forall i :: 0 <= i < |ws| ==> ds[i] == ws[i].State()
  {
    if ws == [] then [] else [ws[0].State()] + States(ws[1..])
  }

  /** A workbook never holds the same worksheet object twice. */
  predicate Distinct(ws: seq<Worksheet>) {
    forall i, j :: 0 <= i < j < |ws| ==> ws[i] != ws[j]
  }
}
