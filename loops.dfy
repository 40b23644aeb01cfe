/**
 * The run-length matching behind LOOP (digit 9). A run is a maximal block
 * of consecutive 9 cells; a closing run at `i` jumps back to just after the
 * nearest earlier run of the same length, unless a longer run comes first.
 */
module Loops {
  import opened Wrappers
  import opened Tape

  /** Number of consecutive 9 cells ending at `p` (0 when `p` holds no 9). */
  function RunLength(t: string, p: int): (n: nat)
    ensures forall k :: p - n < k <= p ==> Read(t, k) == 9
    ensures Read(t, p - n) != 9
    decreases if p < 0 then 0 else p + 1
  {
    if Read(t, p) == 9 then 1 + RunLength(t, p - 1) else 0
  }

  /** A block of exactly `m` nines ending at `p` has run length `m`. */
  lemma RunLengthIs(t: string, p: int, m: nat)
    requires forall k :: p - m < k <= p ==> Read(t, k) == 9
    requires Read(t, p - m) != 9
    ensures RunLength(t, p) == m
  {
  }

  /** `e` is the last cell of a run of nines. */
  predicate IsRunEnd(t: string, e: int) {
    0 <= e < |t| && Read(t, e) == 9 && Read(t, e + 1) != 9
  }

  /**
   * `e` ends the run LOOP at `i` jumps to: a run as long as the closing run,
   * wholly to its left, not starting at cell 0 (there is a cell before it),
   * and every run between the two is shorter.
   */
  ghost predicate IsLoopMatch(t: string, i: int, e: int) {
    var n := RunLength(t, i);
    && IsRunEnd(t, e)
    && RunLength(t, e) == n
    && e - n >= 0
    && e < i - n
    && forall e' :: e < e' < i - n && IsRunEnd(t, e') ==> RunLength(t, e') < n
  }

  /** At most one run matches. */
  lemma LoopMatchUnique(t: string, i: int, e1: int, e2: int)
    requires IsLoopMatch(t, i, e1) && IsLoopMatch(t, i, e2)
    ensures e1 == e2
  {
  }

  /** The end of the run LOOP at `i` jumps to, if any. */
  ghost function LoopTarget(t: string, i: int): (r: Option<int>)
    ensures r.Some? ==> IsLoopMatch(t, i, r.value)
    ensures r.None? ==> forall e :: !IsLoopMatch(t, i, e)
  {
    if exists e :: IsLoopMatch(t, i, e) then
      var e :| IsLoopMatch(t, i, e); Some(e)
    else
      None
  }

  lemma LoopTargetIs(t: string, i: int, e: int)
    requires IsLoopMatch(t, i, e)
    ensures LoopTarget(t, i) == Some(e)
  {
  }

  /** A jump always lands strictly left of the closing run. */
  lemma LoopTargetBehind(t: string, i: int)
    requires 0 <= i < |t| && Read(t, i) == 9 && LoopTarget(t, i).Some?
    ensures 0 <= LoopTarget(t, i).value + 1 <= i - RunLength(t, i) < i
  {
  }

  /**
   * The scan gives up at the first run longer than the closing run, even when
   * a run of equal length lies further left.
   */
  lemma LoopStopsAtLonger(t: string, i: int, e0: int)
    requires IsRunEnd(t, e0) && e0 < i - RunLength(t, i)
    requires RunLength(t, e0) > RunLength(t, i)
    requires forall e' :: e0 < e' < i - RunLength(t, i) && IsRunEnd(t, e') ==> RunLength(t, e') < RunLength(t, i)
    ensures LoopTarget(t, i) == None
  {
  }

  /**
   * A run that starts in cell 0 is never matched, so when it is the only
   * candidate of the right length LOOP does not jump.
   */
  lemma LoopIgnoresRunAtStart(t: string, i: int, e0: int)
    requires IsRunEnd(t, e0) && e0 < i - RunLength(t, i)
    requires RunLength(t, e0) == e0 + 1
    requires forall e' :: e0 < e' < i - RunLength(t, i) && IsRunEnd(t, e') ==> RunLength(t, e') < RunLength(t, i)
    ensures LoopTarget(t, i) == None
  {
  }

  /** When every run before the closing run is shorter, LOOP does not jump. */
  lemma NoJumpWhenAllShorter(t: string, i: int)
    requires forall e :: e < i - RunLength(t, i) && IsRunEnd(t, e) ==> RunLength(t, e) < RunLength(t, i)
    ensures LoopTarget(t, i) == None
  {
  }

  /**
   * What the backward scan knows before it looks at cell `j`: if `inRun`, the
   * cells `j+1 .. j+count` are the right end of a run not yet finished
   * (otherwise `count` is 0 and cell `j+1` is no 9, or the scan has not
   * started), and every run ending between there and the closing run is
   * shorter than the closing run.
   */
  ghost predicate ScanInvariant(t: string, i: int, j: int, inRun: bool, count: int) {
    var n := RunLength(t, i);
    && -1 <= j <= i - n
    && (inRun ==> count >= 1 && j + count < i - n && IsRunEnd(t, j + count) && RunLength(t, j + count) >= count)
    && (!inRun ==> count == 0 && (j == i - n || Read(t, j + 1) != 9))
    && forall e :: j + count < e < i - n && IsRunEnd(t, e) ==> RunLength(t, e) < n
  }

  /** The scan starts just left of the closing run, with no run in progress. */
  lemma ScanStart(t: string, i: int)
    requires 0 <= i < |t| && Read(t, i) == 9
    ensures ScanInvariant(t, i, i - RunLength(t, i), false, 0)
  {
  }

  /** A 9 extends the run being measured. */
  lemma ScanNine(t: string, i: int, j: int, inRun: bool, count: int)
    requires ScanInvariant(t, i, j, inRun, count) && j >= 0 && Read(t, j) == 9
    ensures ScanInvariant(t, i, j - 1, true, count + 1)
  {
  }

  /** A non-9 ends a shorter run, or continues a gap. */
  lemma ScanOther(t: string, i: int, j: int, inRun: bool, count: int)
    requires ScanInvariant(t, i, j, inRun, count) && j >= 0 && Read(t, j) != 9
    requires inRun ==> count < RunLength(t, i)
    ensures ScanInvariant(t, i, j - 1, false, 0)
  {
  }

  /** A finished run of the closing run's length is the match. */
  lemma ScanMatch(t: string, i: int, j: int, count: int)
    requires ScanInvariant(t, i, j, true, count) && j >= 0 && Read(t, j) != 9
    requires count == RunLength(t, i)
    ensures LoopTarget(t, i) == Some(j + count)
  {
    ScanRunEnds(t, j, count);
    LoopTargetIs(t, i, j + count);
  }

  /** A finished longer run stops the scan without a jump. */
  lemma ScanLonger(t: string, i: int, j: int, count: int)
    requires ScanInvariant(t, i, j, true, count) && j >= 0 && Read(t, j) != 9
    requires count > RunLength(t, i)
    ensures LoopTarget(t, i) == None
  {
  }

  /** Reaching the start of the tape means there is no match. */
  lemma ScanEnd(t: string, i: int, inRun: bool, count: int)
    requires ScanInvariant(t, i, -1, inRun, count)
    ensures LoopTarget(t, i) == None
  {
  }

  /** A run whose cells `j+1 .. j+count` are 9 and whose cell `j` is not has length `count`. */
  lemma ScanRunEnds(t: string, j: int, count: nat)
    requires RunLength(t, j + count) >= count && Read(t, j) != 9
    ensures RunLength(t, j + count) == count
  {
  }
}
