/**
 * Bounds-checked access to the tape (`read` and `write`). The tape is the
 * program text itself, a string of digit characters.
 */
module Tape {
  import opened Digits

  predicate AllDigits(t: string) {
    forall k :: 0 <= k < |t| ==> IsDigitChar(t[k])
  }

  /** `read`: the digit at `pos`, or 0 outside the tape. */
  function Read(t: string, pos: int): (d: int)
    ensures !(0 <= pos < |t|) ==> d == 0
    ensures 0 <= pos < |t| && IsDigitChar(t[pos]) ==> Itoc(d) == t[pos]
    ensures AllDigits(t) ==> 0 <= d <= 9
  {
    if pos < 0 || pos >= |t| then 0 else Ctoi(t[pos])
  }

  /** `write`: stores the character of `v` at `pos` when `pos` is on the tape. */
  function Write(t: string, pos: int, v: int): (r: string)
    ensures |r| == |t|
    ensures !(0 <= pos < |t|) ==> r == t
    ensures forall k :: 0 <= k < |t| && k != pos ==> r[k] == t[k]
    ensures 0 <= pos < |t| && 0 <= v <= 9 ==> Read(r, pos) == v
    ensures AllDigits(t) && 0 <= v <= 9 ==> AllDigits(r)
  {
    if 0 <= pos < |t| then t[pos := Itoc(v)] else t
  }

  /** Reading after writing a digit sees the digit at `pos` and the old tape elsewhere. */
  lemma ReadAfterWrite(t: string, pos: int, v: int, q: int)
    requires 0 <= v <= 9
    ensures Read(Write(t, pos, v), q) == if q == pos && 0 <= q < |t| then v else Read(t, q)
  {
  }
}
