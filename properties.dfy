/** What one step and whole runs of the dispatch loop promise. */
module Properties {
  import opened Digits
  import opened Tape
  import opened Loops
  import opened Semantics

  /** The step at `c` is a LOOP that jumps back. */
  ghost predicate LoopJumps(c: Config) {
    && !Halted(c)
    && Read(c.tape, c.pc) == 9
    && c.flag
    && Read(c.tape, c.pc + 1) != 9
    && LoopTarget(c.tape, c.pc).Some?
  }

  /** ADD stores the sum mod 10 of the two cells before it in its own cell, and changes nothing else. */
  lemma AddStep(c: Config)
    requires !Halted(c) && Read(c.tape, c.pc) == 1
    ensures var r := Step(c);
      && Read(r.tape, c.pc) == (Read(c.tape, c.pc - 1) + Read(c.tape, c.pc - 2)) % 10
      && (forall k :: 0 <= k < |c.tape| && k != c.pc ==> r.tape[k] == c.tape[k])
      && r.pc == c.pc + 1
      && r.(tape := c.tape, pc := c.pc) == c
  {
  }

  /** The flag changes exactly on the second of two consecutive 7 cells. */
  lemma FlagToggle(c: Config)
    requires !Halted(c)
    ensures Step(c).flag != c.flag <==> Read(c.tape, c.pc) == 7 && Read(c.tape, c.pc - 1) == 7
  {
  }

  /** JUMP and LOOP only advance past themselves while the flag is clear. */
  lemma InactiveWithoutFlag(c: Config)
    requires !Halted(c) && !c.flag
    requires Read(c.tape, c.pc) == 3 || Read(c.tape, c.pc) == 9
    ensures Step(c) == c.(pc := c.pc + 1)
  {
  }

  /** A set-flag JUMP resumes just after the next 3, or moves on by one when there is none; nothing else changes. */
  lemma JumpStep(c: Config)
    requires !Halted(c) && c.flag && Read(c.tape, c.pc) == 3
    ensures Step(c) == c.(pc := Jump(c.tape, c.pc, c.flag) + 1)
    ensures var p := Step(c).pc - 1;
      && c.pc <= p
      && (forall k :: c.pc < k < p ==> c.tape[k] != '3')
      && (p == c.pc ==> forall k :: c.pc < k < |c.tape| ==> c.tape[k] != '3')
      && (p > c.pc ==> p < |c.tape| && c.tape[p] == '3')
  {
  }

  /**
   * A printable IO appends its byte, drains up to three bank values (0 once
   * the bank is empty) into the three following cells, and continues four
   * cells on.
   */
  lemma IoPrintable(c: Config)
    requires !Halted(c) && IsDigitSeq(c.bank) && Read(c.tape, c.pc) == 2 && Printable(IoByte(c.tape, c.pc))
    ensures var r := Step(c);
      && r.output == c.output + [IoByte(c.tape, c.pc)]
      && r.pc == c.pc + 4
      && (c.pc + 1 < |c.tape| ==> Read(r.tape, c.pc + 1) == (if |c.bank| >= 1 then c.bank[0] else 0))
      && (c.pc + 2 < |c.tape| ==> Read(r.tape, c.pc + 2) == (if |c.bank| >= 2 then c.bank[1] else 0))
      && (c.pc + 3 < |c.tape| ==> Read(r.tape, c.pc + 3) == (if |c.bank| >= 3 then c.bank[2] else 0))
      && (forall k :: 0 <= k < |c.tape| && !(c.pc < k <= c.pc + 3) ==> r.tape[k] == c.tape[k])
      && r.bank == (if |c.bank| <= 3 then [] else c.bank[3..])
      && r.flag == c.flag && r.input == c.input
  {
  }

  /**
   * A non-printable IO makes one `getInput` call. A digit goes into its own
   * cell and execution continues with the next cell; a negative result, or
   * none left, leaves the tape alone and skips the three operand cells.
   */
  lemma IoNonPrintable(c: Config)
    requires !Halted(c) && IsInputSeq(c.input) && Read(c.tape, c.pc) == 2 && !Printable(IoByte(c.tape, c.pc))
    ensures var r := Step(c);
      && r.output == c.output && r.bank == c.bank && r.flag == c.flag
      && (c.input == [] ==> r == c.(pc := c.pc + 4))
      && (c.input != [] && c.input[0] < 0 ==> r == c.(input := c.input[1..], pc := c.pc + 4))
      && (c.input != [] && c.input[0] >= 0 ==>
            && Read(r.tape, c.pc) == c.input[0]
            && (forall k :: 0 <= k < |c.tape| && k != c.pc ==> r.tape[k] == c.tape[k])
            && r.input == c.input[1..]
            && r.pc == c.pc + 1)
  {
  }

  /** Output grows only by a printable IO, by exactly its byte. */
  lemma OutputOnlyFromIo(c: Config)
    requires !Halted(c)
    ensures Step(c).output != c.output <==> Read(c.tape, c.pc) == 2 && Printable(IoByte(c.tape, c.pc))
    ensures Step(c).output != c.output ==> Step(c).output == c.output + [IoByte(c.tape, c.pc)]
  {
  }

  /** PUSH puts the value of the cell before it on the front of the bank. */
  lemma PushStep(c: Config)
    requires !Halted(c) && Read(c.tape, c.pc) == 4
    ensures Step(c) == c.(bank := [Read(c.tape, c.pc - 1)] + c.bank, pc := c.pc + 1)
  {
  }

  /**
   * POP moves the front of the bank into its own cell; on an empty bank it
   * skips the next cell instead.
   */
  lemma PopStep(c: Config)
    requires !Halted(c) && IsDigitSeq(c.bank) && Read(c.tape, c.pc) == 5
    ensures c.bank == [] ==> Step(c) == c.(pc := c.pc + 2)
    ensures c.bank != [] ==>
      && Step(c) == c.(tape := Write(c.tape, c.pc, c.bank[0]), bank := c.bank[1..], pc := c.pc + 1)
      && Read(Step(c).tape, c.pc) == c.bank[0]
      && (forall k :: 0 <= k < |c.tape| && k != c.pc ==> Step(c).tape[k] == c.tape[k])
  {
  }

  /** ROTATE moves the front of the bank to its back, keeping the same values; on an empty bank it does nothing. */
  lemma RotateStep(c: Config)
    requires !Halted(c) && Read(c.tape, c.pc) == 8
    ensures c.bank == [] ==> Step(c) == c.(pc := c.pc + 1)
    ensures c.bank != [] ==> Step(c) == c.(bank := c.bank[1..] + [c.bank[0]], pc := c.pc + 1)
    ensures multiset(Step(c).bank) == multiset(c.bank)
  {
    if c.bank != [] {
      assert c.bank == [c.bank[0]] + c.bank[1..];
    }
  }

  /** SKIP passes over the next cell without looking at it. */
  lemma SkipStep(c: Config)
    requires !Halted(c) && Read(c.tape, c.pc) == 6
    ensures Step(c) == c.(pc := c.pc + 2)
  {
  }

  /** NOP only moves on by one. */
  lemma NopStep(c: Config)
    requires !Halted(c) && Read(c.tape, c.pc) == 0
    ensures Step(c) == c.(pc := c.pc + 1)
  {
  }

  /** FLAG changes only the flag: it is toggled when the cell before also holds a 7. */
  lemma FlagStep(c: Config)
    requires !Halted(c) && Read(c.tape, c.pc) == 7
    ensures Step(c) == c.(flag := c.flag != (Read(c.tape, c.pc - 1) == 7), pc := c.pc + 1)
  {
  }

  /** LOOP fires only at the last 9 of a run and lands just after the matching earlier run. */
  lemma LoopStep(c: Config)
    requires !Halted(c) && Read(c.tape, c.pc) == 9
    ensures Step(c).pc != c.pc + 1 <==> LoopJumps(c)
    ensures LoopJumps(c) ==>
      && IsLoopMatch(c.tape, c.pc, Step(c).pc - 1)
      && Step(c).pc <= c.pc - RunLength(c.tape, c.pc)
    ensures Step(c).(pc := c.pc) == c
  {
    assert Step(c) == c.(pc := Loop(c.tape, c.pc, c.flag) + 1);
  }

  /** Every step but a jumping LOOP moves the pointer strictly forward. */
  lemma StepAdvances(c: Config)
    requires !Halted(c) && !LoopJumps(c)
    ensures Step(c).pc > c.pc
  {
  }

  /** No LOOP jumps back within the next `fuel` steps. */
  ghost predicate NoLoopJumps(c: Config, fuel: nat)
    decreases fuel
  {
    fuel == 0 || Halted(c) || (!LoopJumps(c) && NoLoopJumps(Step(c), fuel - 1))
  }

  /** Without backward LOOP jumps the pointer leaves the tape within as many steps as cells remain. */
  lemma {:induction false} FinishesWithoutLoopJumps(c: Config, fuel: nat)
    requires fuel >= |c.tape| - c.pc && NoLoopJumps(c, fuel)
    ensures Halted(Run(c, fuel))
    decreases fuel
  {
    if !Halted(c) {
      var rest: nat := fuel - 1;
      var next := Step(c);
      StepAdvances(c);
      FinishesWithoutLoopJumps(next, rest);
      RunUnfold(c, next, rest);
    }
  }

  /** Hence a program whose LOOPs never jump finishes in at most one step per cell. */
  lemma ProgramFinishes(program: string, input: seq<int>)
    requires IsDigits(program)
    requires NoLoopJumps(Initial(program, input), |program|)
    ensures Evaluate(program, input, |program|).Finished?
  {
    FinishesWithoutLoopJumps(Initial(program, input), |program|);
  }

  /** A program with a non-digit character is rejected before anything runs. */
  lemma RejectsNonDigits(program: string, input: seq<int>, fuel: nat, k: nat)
    requires k < |program| && !IsDigitChar(program[k])
    ensures Evaluate(program, input, fuel) == Invalid(NonNumericError)
  {
  }

  /** The empty program produces no output. */
  lemma EmptyProgram(input: seq<int>, fuel: nat)
    ensures Evaluate("", input, fuel) == Finished([])
  {
  }
}
