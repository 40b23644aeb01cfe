/** Small programs run by hand through the model, one property each. */
module Examples {
  import opened Wrappers
  import opened Tape
  import opened Loops
  import opened Semantics

  /** ADD at the first cell has no cells before it: both operands read as 0. */
  lemma AddAtStart()
    ensures Step(Initial("15", [])).tape == "05"
  {
  }

  /** Two 7s in a row set the flag. */
  lemma FlagSetByTwoSevens()
    ensures Run(Initial("77", []), 2).flag
  {
  }

  /** A 0 between two 7s keeps the flag clear. */
  lemma FlagKeptBySeparatedSevens()
    ensures !Run(Initial("707", []), 3).flag
  {
  }

  /** A program of NOPs runs to its end without output and without changing the tape. */
  lemma NopsOnly()
    ensures Evaluate("0000", [], 4) == Finished([])
    ensures Run(Initial("0000", []), 4).tape == "0000"
  {
  }

  /** IO on "065" prints 'A' (65), drains the empty bank as three 0s and ends the run. */
  lemma PrintA()
    ensures Evaluate("2065", [], 1) == Finished([65])
    ensures Run(Initial("2065", []), 1).tape == "2000"
  {
  }

  /** IO on a non-printable byte with the input exhausted skips its operands and changes nothing. */
  lemma InputExhausted()
    ensures Evaluate("2000", [], 1) == Finished([])
    ensures Run(Initial("2000", []), 1).tape == "2000"
  {
  }

  /** With input, the digit replaces the IO cell and execution continues at the next cell. */
  lemma InputTaken()
    ensures Step(Initial("2000", [7])) == Config("7000", 1, [], false, [], [])
  {
  }

  /** A `getInput` call that finds no digit skips its IO but leaves the later results in place. */
  lemma InputNoDigit()
    ensures Step(Initial("20002000", [-1, 7])) == Config("20002000", 4, [], false, [], [7])
  {
  }

  /** After such a skip, the next IO still receives the next digit. */
  lemma InputAfterNoDigit()
    ensures Step(Config("20002000", 4, [], false, [], [7])) == Config("20007000", 5, [], false, [], [])
  {
  }

  /** A set JUMP continues just after the next 3. */
  lemma JumpToNextThree()
    ensures Step(Config("3003", 0, [], true, [], [])).pc == 4
  {
  }

  /** A run of equal length that starts in cell 0 is never matched. */
  lemma LoopRunAtStartIgnored()
    ensures LoopTarget("909", 2) == None
  {
  }

  /** A shorter run is skipped and the nearest earlier run of equal length is the target. */
  lemma LoopSkipsShorterRun()
    ensures LoopTarget("09909099", 7) == Some(2)
  {
    var t := "09909099";
    assert Read(t, 7) == 9 && Read(t, 6) == 9 && Read(t, 5) == 0;
    RunLengthIs(t, 7, 2);
    assert Read(t, 4) == 9 && Read(t, 3) == 0;
    RunLengthIs(t, 4, 1);
    assert Read(t, 2) == 9 && Read(t, 1) == 9 && Read(t, 0) == 0;
    RunLengthIs(t, 2, 2);
    assert IsLoopMatch(t, 7, 2);
    LoopTargetIs(t, 7, 2);
  }

  /** The scan gives up at a longer run, though a run of equal length lies further left. */
  lemma LoopStopsAtLongerRun()
    ensures LoopTarget("0990999099", 9) == None
  {
  }
}
