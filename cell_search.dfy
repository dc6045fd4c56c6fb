/**
 * Locating a cell by text: the cells are scanned in row-major order and the
 * first one holding a non-empty string that contains the search text, both
 * sides lower-cased, is returned; otherwise there is none.
 */
module CellSearch {
  import opened Sheets

  /** The capitals lower-casing acts on: ASCII and Latin-1 (U+00C0 to U+00DE, except the sign U+00D7). */
  predicate IsCapital(ch: char) {
    'A' <= ch <= 'Z' || ('\U{00C0}' <= ch <= '\U{00DE}' && ch != '\U{00D7}')
  }

  /** Each capital's small letter lies 32 code points above it. */
  function LowerChar(ch: char): char {
    if IsCapital(ch) then (ch as int + 32) as char else ch
  }

  /**
   * `str.lower()` on the characters modelled: other characters are kept,
   * each capital becomes its small letter, and no capital is left, so
   * lower-casing the result again changes nothing.
   */
  function Lower(s: string): (r: string)
    ensures |r| == |s|
    ensures forall i :: 0 <= i < |s| && !IsCapital(s[i]) ==> r[i] == s[i]
    ensures forall i :: 0 <= i < |s| && IsCapital(s[i]) ==> r[i] as int == s[i] as int + 32
    ensures forall i :: 0 <= i < |r| ==> !IsCapital(r[i])
  {
    seq(|s|, i requires 0 <= i < |s| => LowerChar(s[i]))
  }

  /** Python's `needle in haystack` for strings. */
  predicate Contains(haystack: string, needle: string)
    decreases |haystack|
  {
    needle <= haystack || (haystack != [] && Contains(haystack[1..], needle))
  }

  /** The test applied to each cell: a truthy `str` value containing the text, ignoring case. */
  predicate Matches(c: Cell, text: string) {
    c.value.Str? && c.value.s != "" && Contains(Lower(c.value.s), Lower(text))
  }

  /**
   * The scan from position (r, c) onwards: the first matching cell at or after
   * (r, c) in row-major order within the bounds, if any.
   */
  function ScanFrom(d: SheetData, text: string, r: int, c: int): (res: Option<Pos>)
    requires 1 <= r && 1 <= c <= d.maxCol + 1
    decreases d.maxRow + 1 - r, d.maxCol + 1 - c
    ensures res.Some? ==> InBounds(d, res.value) && Matches(At(d, res.value), text)
    ensures res.Some? ==> !Before(res.value, Pos(r, c))
    ensures forall q :: InBounds(d, q) && !Before(q, Pos(r, c)) && (res.Some? ==> Before(q, res.value))
                        ==> !Matches(At(d, q), text)
  {
    if r > d.maxRow then None
    else if c > d.maxCol then ScanFrom(d, text, r + 1, 1)
    else if Matches(At(d, Pos(r, c)), text) then Some(Pos(r, c))
    else ScanFrom(d, text, r, c + 1)
  }

  /**
   * `buscar_celula_por_texto`: the first cell in row-major order that matches,
   * and None exactly when no cell of the sheet matches.
   */
  function Find(d: SheetData, text: string): (res: Option<Pos>)
    ensures res.Some? ==> InBounds(d, res.value) && Matches(At(d, res.value), text)
    ensures res.Some? ==> forall q :: InBounds(d, q) && Before(q, res.value) ==> !Matches(At(d, q), text)
    ensures res.None? <==> forall q :: InBounds(d, q) ==> !Matches(At(d, q), text)
  {
    ScanFrom(d, text, 1, 1)
  }

  /** The nested row and column loops with their early return, reading the sheet only. */
  method SearchRows(ws: Worksheet, text: string) returns (res: Option<Pos>)
    ensures res == Find(ws.State(), text)
  {
    var needle := Lower(text);
    var r := 1;
    while r <= ws.maxRow
      invariant 1 <= r <= ws.maxRow + 1
      invariant ScanFrom(ws.State(), text, r, 1) == Find(ws.State(), text)
    {
      var c := 1;
      while c <= ws.maxCol
        invariant 1 <= c <= ws.maxCol + 1
        invariant ScanFrom(ws.State(), text, r, c) == Find(ws.State(), text)
      {
        var v := At(ws.State(), Pos(r, c)).value;
        if v.Str? && v.s != "" && Contains(Lower(v.s), needle) {
          return Some(Pos(r, c));
        }
        c := c + 1;
      }
      r := r + 1;
    }
    return None;
  }

  /** Non-strings, None and the empty string never match, even the empty text; every other string does. */
  lemma EmptyTextMatchesNonEmptyStrings(c: Cell)
    ensures Matches(c, "") <==> c.value.Str? && c.value.s != ""
  {
    if c.value.Str? {
      assert Lower("") == "";
      assert "" <= Lower(c.value.s);
    }
  }

  /** A sheet whose cells are all None, empty strings or numbers has nothing to find. */
  lemma NothingToFindWithoutText(d: SheetData, text: string)
    requires forall q :: InBounds(d, q) ==> !At(d, q).value.Str? || At(d, q).value.s == ""
    ensures Find(d, text) == None
  {
  }

  lemma LowerCharIdempotent(ch: char)
    ensures LowerChar(LowerChar(ch)) == LowerChar(ch)
  {
  }

  lemma LowerIdempotent(s: string)
    ensures Lower(Lower(s)) == Lower(s)
  {
    forall i | 0 <= i < |s|
      ensures Lower(Lower(s))[i] == Lower(s)[i]
    {
      LowerCharIdempotent(s[i]);
    }
  }

  /** Two texts that lower-case alike find the same cell. */
  lemma {:induction false} ScanIgnoresTextCase(d: SheetData, t1: string, t2: string, r: int, c: int)
    requires Lower(t1) == Lower(t2)
    requires 1 <= r && 1 <= c <= d.maxCol + 1
    decreases d.maxRow + 1 - r, d.maxCol + 1 - c
    ensures ScanFrom(d, t1, r, c) == ScanFrom(d, t2, r, c)
  {
    if r > d.maxRow {
    } else if c > d.maxCol {
      ScanIgnoresTextCase(d, t1, t2, r + 1, 1);
    } else if Matches(At(d, Pos(r, c)), t1) {
    } else {
      ScanIgnoresTextCase(d, t1, t2, r, c + 1);
    }
  }

  /** The search ignores the case of the text searched for. */
  lemma FindIgnoresTextCase(d: SheetData, text: string)
    ensures Find(d, text) == Find(d, Lower(text))
  {
    LowerIdempotent(text);
    ScanIgnoresTextCase(d, text, Lower(text), 1, 1);
  }

  /** A needle longer than the haystack is never contained in it. */
  lemma {:induction false} TooLongNotContained(haystack: string, needle: string)
    requires |needle| > |haystack|
    ensures !Contains(haystack, needle)
    decreases |haystack|
  {
    if haystack != [] {
      TooLongNotContained(haystack[1..], needle);
    }
  }

  /** Between strings of equal length, containment is equality. */
  lemma SameLengthContains(haystack: string, needle: string)
    requires |needle| == |haystack|
    ensures Contains(haystack, needle) <==> needle == haystack
  {
    if haystack != [] {
      TooLongNotContained(haystack[1..], needle);
    }
  }

  /**
   * Widening the bounds over cells that do not match leaves the search result
   * as it was: the same first match, or none.
   */
  lemma FindWidened(d: SheetData, e: SheetData, text: string)
    requires forall q :: At(e, q) == At(d, q)
    requires d.maxRow <= e.maxRow && d.maxCol <= e.maxCol
    requires forall q :: InBounds(e, q) && !InBounds(d, q) ==> !Matches(At(e, q), text)
    ensures Find(e, text) == Find(d, text)
  {
    var a, b := Find(d, text), Find(e, text);
    if a.Some? && b.Some? {
      assert InBounds(d, b.value);
      assert !Before(b.value, a.value);
      assert !Before(a.value, b.value);
    }
  }
}
