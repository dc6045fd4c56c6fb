/**
 * What both workbook loops share: the steps of a pass over the sheets in
 * workbook order, the first one that raised, the workbook part-way through
 * the loop, and how many sheets were processed.
 */
module WorkbookPass {
  import opened Sheets
  import opened Annotation
  import opened SkipReport

  /** The index of the first step that raised, or the number of steps when none did. */
  function FirstCrash(steps: seq<Step>): (n: nat)
    ensures n <= |steps|
    ensures forall i :: 0 <= i < n ==> !steps[i].outcome.Crashed?
    ensures n < |steps| ==> steps[n].outcome.Crashed?
  {
    CrashFrom(steps, 0)
  }

  /** The index of the first step from k on that raised, or the number of steps when none did. */
  function CrashFrom(steps: seq<Step>, k: nat): (n: nat)
    requires k <= |steps|
    decreases |steps| - k
    ensures k <= n <= |steps|
    ensures forall i :: k <= i < n ==> !steps[i].outcome.Crashed?
    ensures n < |steps| ==> steps[n].outcome.Crashed?
  {
    if k == |steps| then k else if steps[k].outcome.Crashed? then k else CrashFrom(steps, k + 1)
  }

  /** The first step that raised is the one the three facts single out. */
  lemma FirstCrashIs(steps: seq<Step>, n: nat)
    requires n <= |steps|
    requires forall j :: 0 <= j < n ==> !steps[j].outcome.Crashed?
    requires n < |steps| ==> steps[n].outcome.Crashed?
    ensures n == FirstCrash(steps)
  {
  }

  /**
   * The workbook after the loop has run the first k steps: those sheets hold
   * their steps, the rest their snapshots, so the sheets not yet reached are
   * untouched.
   */
  function Progress(ds: seq<SheetData>, steps: seq<Step>, k: nat): (r: seq<SheetData>)
    requires |steps| == |ds| && k <= |ds|
    ensures |r| == |ds|
    ensures r[k..] == ds[k..]
  {
    seq(|ds|, j requires 0 <= j < |ds| => if j < k then steps[j].data else ds[j])
  }

  /** Before the first step, the workbook is its snapshots. */
  lemma ProgressNone(ds: seq<SheetData>, steps: seq<Step>)
    requires |steps| == |ds|
    ensures Progress(ds, steps, 0) == ds
  {
  }

  /** Running step k moves the loop from k steps to k + 1. */
  lemma ProgressStep(ds: seq<SheetData>, steps: seq<Step>, k: nat)
    requires |steps| == |ds| && k < |ds|
    ensures Progress(ds, steps, k)[k := steps[k].data] == Progress(ds, steps, k + 1)
  {
  }

  /**
   * When every step keeps a well-formed sheet well formed, a workbook whose
   * sheets up to n hold their steps and whose later sheets hold their
   * snapshots has every sheet that was well formed still well formed.
   */
  lemma ReachedWellFormed(ds: seq<SheetData>, steps: seq<Step>, now: seq<SheetData>, n: nat)
    requires |steps| == |ds| == |now|
    requires forall i :: 0 <= i < |ds| && WellFormed(ds[i]) ==> WellFormed(steps[i].data)
    requires forall i :: 0 <= i < |ds| ==> now[i] == if i <= n then steps[i].data else ds[i]
    ensures forall i :: 0 <= i < |ds| && WellFormed(ds[i]) ==> WellFormed(now[i])
  {
  }

  /** How many of the first n steps processed their sheet, as a counter the loop increments would hold. */
  function ProcessedCount(steps: seq<Step>, n: nat): nat
    requires n <= |steps|
  {
    if n == 0 then 0 else ProcessedCount(steps, n - 1) + (if steps[n - 1].outcome.Processed? then 1 else 0)
  }

  /** Between them, the counter and the list of skipped titles account for every sheet the loop went through without a raise. */
  lemma {:induction false} CountsCoverSheets(steps: seq<Step>, n: nat)
    requires n <= |steps|
    requires forall j :: 0 <= j < n ==> !steps[j].outcome.Crashed?
    ensures ProcessedCount(steps, n) + |SkippedTitles(steps, n)| == n
  {
    if n > 0 {
      CountsCoverSheets(steps, n - 1);
    }
  }
}
