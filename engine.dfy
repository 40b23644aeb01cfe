/**
 * The interpreter itself: `parseString` and the state its loop updates in
 * place. The tape is an array of characters overwritten cell by cell; the
 * bank, flag, output and pending input are fields the steps reassign.
 * Every method is proved to do exactly what module Semantics says.
 */
module Engine {
  import opened Wrappers
  import Strings
  import opened Digits
  import opened Tape
  import opened Loops
  import opened Semantics

  class Interpreter {
    var tape: array<char>
    var bank: seq<int>
    var flag: bool
    var output: seq<int>
    var input: seq<int>

    /** The configuration these fields stand for when the loop counter is `i`. */
    ghost function State(i: int): Config
      reads this, tape
    {
      Config(tape[..], i, bank, flag, output, input)
    }

    constructor (program: string, input: seq<int>)
      ensures fresh(tape)
      ensures State(0) == Initial(program, input)
    {
      tape := new char[|program|](k requires 0 <= k < |program| => program[k]);
      bank, flag, output := [], false, [];
      this.input := input;
    }

    /** `read` on the tape array. */
    function ReadCell(pos: int): (d: int)
      reads this, tape
      ensures d == Read(tape[..], pos)
    {
      if pos < 0 || pos >= tape.Length then 0 else Ctoi(tape[pos])
    }

    /** `write` on the tape array. */
    method WriteCell(pos: int, v: int)
      modifies tape
      ensures tape[..] == Write(old(tape[..]), pos, v)
    {
      if 0 <= pos < tape.Length {
        tape[pos] := Itoc(v);
      }
    }

    /** The front of the bank (0 when it is empty), removed if there is one. */
    method TakeFront() returns (v: int)
      modifies this`bank
      ensures (v, bank) == PopOr0(old(bank))
    {
      v := if bank == [] then 0 else bank[0];
      if bank != [] {
        bank := bank[1..];
      }
    }

    /** `getInput`: the next result, or a negative value once the input is used up. */
    method GetInput() returns (d: int)
      modifies this`input
      ensures old(input) == [] ==> d < 0 && input == []
      ensures old(input) != [] ==> d == old(input)[0] && input == old(input)[1..]
    {
      if input == [] {
        d := -1;
      } else {
        d, input := input[0], input[1..];
      }
    }

    /** The IO case; returns the loop counter as the case leaves it, before `++i`. */
    method Io(i: int) returns (next: int)
      requires IsInputSeq(input)
      modifies this, tape
      ensures tape == old(tape) && flag == old(flag)
      ensures State(next + 1) == Semantics.Io(old(State(i)))
    {
      var a := ReadCell(i + 1);
      var b := ReadCell(i + 2);
      var e := ReadCell(i + 3);
      var d := (a * 100 + b * 10 + e) % 256;
      assert d == IoByte(tape[..], i);
      if d == 127 || d < 32 {
        next := IoInput(i);
      } else {
        next := IoPrint(i, d);
      }
    }

    /** IO on a non-printable byte: take one input digit into cell `i`, or skip three cells on a negative result. */
    method IoInput(i: int) returns (next: int)
      requires IsInputSeq(input)
      modifies this`input, tape
      ensures tape == old(tape)
      ensures State(next + 1) == TakeInput(old(State(i)))
    {
      next := i;
      var d := GetInput();
      if d < 0 {
        next := next + 3;
      } else {
        WriteCell(i, d);
      }
    }

    /** IO on a printable byte `d`: output it and drain three bank values into the next three cells. */
    method IoPrint(i: int, d: int) returns (next: int)
      requires d == IoByte(tape[..], i)
      modifies this`output, this`bank, tape
      ensures tape == old(tape)
      ensures State(next + 1) == Print(old(State(i)))
    {
      ghost var t := tape[..];
      output := output + [d];
      var a := TakeFront();
      var b := TakeFront();
      var e := TakeFront();
      WriteCell(i + 1, a);
      WriteCell(i + 2, b);
      WriteCell(i + 3, e);
      assert tape[..] == Write(Write(Write(t, i + 1, a), i + 2, b), i + 3, e);
      next := i + 3;
    }

    /**
     * The LOOP scan: measure the closing run ending at `i`, then look for the
     * run to jump to.
     */
    method LoopScan(i: int) returns (target: Option<int>)
      requires 0 <= i < tape.Length && Read(tape[..], i) == 9
      ensures target == LoopTarget(tape[..], i)
    {
      var startCount := 1;
      while ReadCell(i - startCount) == 9
        invariant 1 <= startCount <= i + 1
        invariant forall k :: i - startCount < k <= i ==> Read(tape[..], k) == 9
        decreases i - startCount
      {
        startCount := startCount + 1;
      }
      RunLengthIs(tape[..], i, startCount);
      target := ScanBack(i, startCount);
    }

    /**
     * The backward half of the LOOP scan: walk left from the cell before the
     * closing run (of length `startCount`), measuring each earlier run, and
     * stop at the first one at least as long.
     */
    method ScanBack(i: int, startCount: nat) returns (target: Option<int>)
      requires 0 <= i < tape.Length && Read(tape[..], i) == 9 && startCount == RunLength(tape[..], i)
      ensures target == LoopTarget(tape[..], i)
    {
      ghost var t := tape[..];
      var newString := false;
      var endCount := 0;
      var j := i - startCount;
      ScanStart(t, i);
      while j >= 0
        invariant ScanInvariant(t, i, j, newString, endCount)
        invariant newString ==> endCount >= 1
      {
        if ReadCell(j) == 9 {
          ScanNine(t, i, j, newString, endCount);
          newString := true;
          endCount := endCount + 1;
        } else if newString {
          if endCount == startCount {
            ScanMatch(t, i, j, endCount);
            return Some(j + endCount);
          } else if endCount > startCount {
            ScanLonger(t, i, j, endCount);
            return None;
          } else {
            ScanOther(t, i, j, newString, endCount);
            endCount := 0;
            newString := false;
          }
        } else {
          ScanOther(t, i, j, newString, endCount);
        }
        j := j - 1;
      }
      ScanEnd(t, i, newString, endCount);
      return None;
    }

    /** One iteration of `parseString`'s loop at counter `i`, `++i` included. */
    method Step(i: int) returns (next: int)
      requires IsInputSeq(input) && 0 <= i < tape.Length
      modifies this, tape
      ensures tape == old(tape)
      ensures State(next) == Semantics.Step(old(State(i)))
    {
      next := i;
      match ReadCell(i) {
      case 1 =>
        Add(i);
      case 2 =>
        next := Io(i);
      case 3 =>
        next := JumpOp(i);
      case 4 =>
        var a := ReadCell(i - 1);
        bank := [a] + bank;
      case 5 =>
        next := Pop(i);
      case 6 =>
        next := next + 1;
      case 7 =>
        if ReadCell(i - 1) == 7 {
          flag := !flag;
        }
      case 8 =>
        if bank != [] {
          bank := bank[1..] + [bank[0]];
        }
      case 9 =>
        next := LoopOp(i);
      case _ =>
      }
      next := next + 1;
    }

    /** ADD: the sum mod 10 of the two cells before `i` goes into cell `i`. */
    method Add(i: int)
      requires Read(tape[..], i) == 1
      modifies tape
      ensures tape == old(tape)
      ensures State(i + 1) == Semantics.Step(old(State(i)))
    {
      var a := ReadCell(i - 1);
      var b := ReadCell(i - 2);
      WriteCell(i, (a + b) % 10);
    }

    /** POP: the front of the bank goes into cell `i`; an empty bank skips the next cell. */
    method Pop(i: int) returns (next: int)
      requires Read(tape[..], i) == 5
      modifies this`bank, tape
      ensures tape == old(tape)
      ensures State(next + 1) == Semantics.Step(old(State(i)))
    {
      next := i;
      if bank == [] {
        next := next + 1;
      } else {
        WriteCell(i, bank[0]);
        bank := bank[1..];
      }
    }

    /** JUMP as the method form of `Jump`: with the flag set, move to the next 3 after `i` if there is one. */
    method JumpOp(i: int) returns (next: int)
      requires 0 <= i < tape.Length
      ensures next == Jump(tape[..], i, flag)
    {
      next := i;
      if flag {
        match Strings.FindFirstOf(tape[..], {'3'}, i + 1)
        case Some(pos) => next := pos;
        case None =>
      }
    }

    /** LOOP as the method form of `Loop`: with the flag set and at the end of a run of 9s, move to the end of the matching earlier run. */
    method LoopOp(i: int) returns (next: int)
      requires 0 <= i < tape.Length && Read(tape[..], i) == 9
      ensures next == Loop(tape[..], i, flag)
    {
      next := i;
      if flag && ReadCell(i + 1) != 9 {
        var target := LoopScan(i);
        if target.Some? {
          next := target.value;
        }
      }
    }

    /** The dispatch loop, for at most `fuel` iterations; returns the final counter. */
    method Execute(fuel: nat) returns (i: int)
      requires Valid(State(0))
      modifies this, tape
      ensures tape == old(tape)
      ensures State(i) == Run(old(State(0)), fuel)
    {
      i := 0;
      var remaining := fuel;
      ghost var cfg := State(0);
      while i < tape.Length && remaining > 0
        invariant tape == old(tape)
        invariant cfg == State(i) && Valid(cfg)
        invariant Run(cfg, remaining) == Run(old(State(0)), fuel)
        decreases remaining
      {
        StepValid(cfg);
        i := Step(i);
        remaining := remaining - 1;
        RunUnfold(cfg, State(i), remaining);
        cfg := State(i);
      }
    }
  }

  /** `parseString`: reject non-digit programs, otherwise run the tape and return the output. */
  method ParseString(program: string, input: seq<int>, fuel: nat) returns (r: Outcome)
    requires IsInputSeq(input)
    ensures r == Evaluate(program, input, fuel)
  {
    if !IsDigits(program) {
      return Invalid(NonNumericError);
    }
    var engine := new Interpreter(program, input);
    var i := engine.Execute(fuel);
    r := if i >= engine.tape.Length then Finished(engine.output) else OutOfFuel(engine.output);
  }
}
