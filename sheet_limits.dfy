/**
 * Reading a worksheet's bounds, testing it for emptiness, and the order in
 * which a sheet is classified as empty or as too short.
 */
module SheetLimits {
  import opened Sheets
  import opened CellSearch

  /** `obter_limites_planilha`: the last row and the last column, reading the sheet only. */
  method Limits(ws: Worksheet) returns (lastRow: nat, lastCol: nat)
    ensures lastRow == ws.maxRow && lastCol == ws.maxCol
    ensures ws.Valid() ==> lastRow >= 1 && lastCol >= 1
    ensures ws.Valid() ==> forall p :: p in ws.cells ==> 1 <= p.row <= lastRow && 1 <= p.col <= lastCol
  {
    lastRow := ws.maxRow;
    lastCol := ws.maxCol;
  }

  /** Every cell within the bounds holds None; "" and 0 are values like any other. */
  ghost predicate AllBlank(d: SheetData) {
    forall p :: InBounds(d, p) ==> At(d, p).value.Empty?
  }

  /** `planilha_esta_vazia`: the nested scan that stops at the first value that is not None. */
  method IsBlankSheet(ws: Worksheet) returns (empty: bool)
    ensures empty <==> AllBlank(ws.State())
  {
    var r := 1;
    while r <= ws.maxRow
      invariant 1 <= r <= ws.maxRow + 1
      invariant forall p :: InBounds(ws.State(), p) && p.row < r ==> At(ws.State(), p).value.Empty?
    {
      var c := 1;
      while c <= ws.maxCol
        invariant 1 <= c <= ws.maxCol + 1
        invariant forall p :: InBounds(ws.State(), p) && Before(p, Pos(r, c)) ==> At(ws.State(), p).value.Empty?
      {
        if !At(ws.State(), Pos(r, c)).value.Empty? {
          return false;
        }
        c := c + 1;
      }
      r := r + 1;
    }
    return true;
  }

  /** A sheet holding an empty string or a zero somewhere in its bounds is not empty. */
  lemma FalsyValuesAreNotBlank(d: SheetData, p: Pos)
    requires InBounds(d, p)
    requires At(d, p).value == Str("") || At(d, p).value == Num(0.0)
    ensures !AllBlank(d)
  {
  }

  /** A blank sheet has no cell to find, whatever the text. */
  lemma BlankSheetHasNoMatch(d: SheetData, text: string)
    requires AllBlank(d)
    ensures Find(d, text) == None
  {
  }

  /** How the bounds-reporting loop reports a sheet. */
  datatype SheetKind = EmptySheet | ShortSheet | RegularSheet

  /** Emptiness is tested first, so an empty sheet is reported as empty even when it is short. */
  ghost function Classify(d: SheetData): SheetKind {
    if AllBlank(d) then EmptySheet
    else if d.maxRow < 3 then ShortSheet
    else RegularSheet
  }

  /** The reporting loop over the workbook's sheets, one classification per sheet, in order. */
  method ClassifyAll(sheets: seq<Worksheet>) returns (kinds: seq<SheetKind>)
    ensures |kinds| == |sheets|
    ensures forall i :: 0 <= i < |sheets| ==> kinds[i] == Classify(sheets[i].State())
    ensures forall i :: 0 <= i < |sheets| ==> (kinds[i] == ShortSheet <==> !AllBlank(sheets[i].State()) && sheets[i].maxRow < 3)
  {
    kinds := [];
    for i := 0 to |sheets|
      invariant |kinds| == i
      invariant forall j :: 0 <= j < i ==> kinds[j] == Classify(sheets[j].State())
    {
      var rows, cols := Limits(sheets[i]);
      var empty := IsBlankSheet(sheets[i]);
      var kind := if empty then EmptySheet else if rows < 3 then ShortSheet else RegularSheet;
      kinds := kinds + [kind];
    }
  }
}
