/**
 * The list of worksheets that were not processed: which sheets it holds, in
 * what order, and the text written for it.
 */
module SkipReport {
  import opened Sheets
  import opened Annotation

  const HeaderLine: string := "Planilhas n\U{00E3}o processadas:"

  /** Each title followed by a newline, as the report's loop writes them. */
  function Join(titles: seq<string>): string {
    if titles == [] then "" else titles[0] + "\n" + Join(titles[1..])
  }

  /** The report text, written only when some sheet was skipped. */
  function ReportText(titles: seq<string>): Option<string> {
    if titles == [] then None else Some(HeaderLine + "\n" + Join(titles))
  }

  /** Index of the first newline, or the length when there is none. */
  function FirstNewline(s: string): (k: nat)
    ensures k <= |s|
    ensures k < |s| ==> s[k] == '\n'
    ensures forall j :: 0 <= j < k ==> s[j] != '\n'
  {
    if s == [] || s[0] == '\n' then 0 else 1 + FirstNewline(s[1..])
  }

  /** The lines of a text, each ended by a newline or by the end of the text. */
  function Lines(s: string): seq<string>
    decreases |s|
  {
    if s == [] then []
    else
      var k := FirstNewline(s);
      [s[..k]] + (if k < |s| then Lines(s[k + 1..]) else [])
  }

  predicate NoNewline(t: string) {
    forall j :: 0 <= j < |t| ==> t[j] != '\n'
  }

  lemma FirstNewlineAfterLine(t: string, rest: string)
    requires NoNewline(t)
    ensures FirstNewline(t + "\n" + rest) == |t|
  {
    var s := t + "\n" + rest;
    var k := FirstNewline(s);
    assert s[|t|] == '\n';
  }

  lemma LinesCons(t: string, rest: string)
    requires NoNewline(t)
    ensures Lines(t + "\n" + rest) == [t] + Lines(rest)
  {
    var s := t + "\n" + rest;
    FirstNewlineAfterLine(t, rest);
    assert s[..|t|] == t;
    assert s[|t| + 1..] == rest;
  }

  lemma {:induction false} LinesOfJoin(titles: seq<string>)
    requires forall i :: 0 <= i < |titles| ==> NoNewline(titles[i])
    ensures Lines(Join(titles)) == titles
  {
    if titles != [] {
      LinesOfJoin(titles[1..]);
      LinesCons(titles[0], Join(titles[1..]));
    }
  }

  /**
   * The report exists exactly when a sheet was skipped, and reading its lines
   * back gives the header line followed by the skipped titles, in order,
   * provided no title holds a newline.
   */
  lemma ReportRoundTrip(titles: seq<string>)
    requires forall i :: 0 <= i < |titles| ==> NoNewline(titles[i])
    ensures ReportText(titles).Some? <==> |titles| > 0
    ensures ReportText(titles).Some? ==> Lines(ReportText(titles).value) == [HeaderLine] + titles
  {
    if titles != [] {
      assert NoNewline(HeaderLine);
      LinesOfJoin(titles);
      LinesCons(HeaderLine, Join(titles));
    }
  }

  /** The indices i with from <= i < to of the skipped steps, in ascending order. */
  function SkippedIndices(steps: seq<Step>, from: nat, to: nat): seq<nat>
    requires from <= to <= |steps|
    decreases (to as int) - from
  {
    if from == to then []
    else (if steps[from].outcome.Skipped? then [from] else []) + SkippedIndices(steps, from + 1, to)
  }

  /** Strictly ascending indices of exactly the skipped steps in range, so each appears once and in order. */
  lemma {:induction false} SkippedIndicesSpec(steps: seq<Step>, from: nat, to: nat)
    requires from <= to <= |steps|
    decreases (to as int) - from
    ensures forall k :: 0 <= k < |SkippedIndices(steps, from, to)| ==>
              from <= SkippedIndices(steps, from, to)[k] < to && steps[SkippedIndices(steps, from, to)[k]].outcome.Skipped?
    ensures forall k, l :: 0 <= k < l < |SkippedIndices(steps, from, to)| ==>
              SkippedIndices(steps, from, to)[k] < SkippedIndices(steps, from, to)[l]
    ensures forall i :: from <= i < to && steps[i].outcome.Skipped? ==> i in SkippedIndices(steps, from, to)
  {
    if from < to {
      SkippedIndicesSpec(steps, from + 1, to);
    }
  }

  /** The titles of the sheets the steps at the given indices left. */
  function TitlesAt(steps: seq<Step>, idx: seq<nat>): seq<string>
    requires forall k :: 0 <= k < |idx| ==> idx[k] < |steps|
  {
    seq(|idx|, k requires 0 <= k < |idx| => steps[idx[k]].data.title)
  }

  /** The titles of the skipped sheets among the first n steps, as a loop appending them would collect them. */
  function SkippedTitles(steps: seq<Step>, n: nat): seq<string>
    requires n <= |steps|
  {
    if n == 0 then []
    else SkippedTitles(steps, n - 1) + (if steps[n - 1].outcome.Skipped? then [steps[n - 1].data.title] else [])
  }

  /**
   * A list holding `start` and then the titles collected from the first i
   * steps, once step i's title is appended when it is a skip, holds the
   * titles collected from the first i + 1 steps; a step that raised is no skip.
   */
  lemma SkippedTitlesStep(start: seq<string>, before: seq<string>, after: seq<string>, steps: seq<Step>, i: nat)
    requires i < |steps|
    requires before == start + SkippedTitles(steps, i)
    requires after == before + if steps[i].outcome.Skipped? then [steps[i].data.title] else []
    ensures after == start + SkippedTitles(steps, i + 1)
    ensures steps[i].outcome.Crashed? ==> after == start + SkippedTitles(steps, i)
  {
  }

  /** Widening the range by one step at the end adds its index at the end when it is a skip. */
  lemma {:induction false} SkippedIndicesSnoc(steps: seq<Step>, from: nat, to: nat)
    requires from <= to < |steps|
    decreases (to as int) - from
    ensures SkippedIndices(steps, from, to + 1) ==
            SkippedIndices(steps, from, to) + (if steps[to].outcome.Skipped? then [to] else [])
  {
    if from < to {
      SkippedIndicesSnoc(steps, from + 1, to);
    }
  }

  /** The collected titles are those of exactly the skipped sheets among the first n, each once, in workbook order. */
  lemma {:induction false} SkippedTitlesInOrder(steps: seq<Step>, n: nat)
    requires n <= |steps|
    ensures forall k :: 0 <= k < |SkippedIndices(steps, 0, n)| ==> SkippedIndices(steps, 0, n)[k] < |steps|
    ensures SkippedTitles(steps, n) == TitlesAt(steps, SkippedIndices(steps, 0, n))
  {
    SkippedIndicesSpec(steps, 0, n);
    if n > 0 {
      SkippedTitlesInOrder(steps, n - 1);
      SkippedIndicesSnoc(steps, 0, n - 1);
      SkippedIndicesSpec(steps, 0, n - 1);
    }
  }
}
