/**
 * The meaning of one Codexter execution, as functions over a configuration:
 * one step of the dispatch loop (`Step`), a run of up to `fuel` steps (`Run`)
 * and the whole `parseString` (`Evaluate`). The interpreter in module Engine
 * is proved to compute exactly these.
 */
module Semantics {
  import opened Wrappers
  import Strings
  import opened Digits
  import opened Tape
  import opened Loops

  const NonNumericError: string := "ERROR: String contains non-numeric characters!"

  /**
   * The state of `parseString` at the head of one iteration of its loop:
   * the tape, the loop counter `i` (`pc`), the memory bank front first, the
   * flag, the output bytes so far and the results of the `getInput` calls
   * still to come (see `IsInputSeq`).
   */
  datatype Config = Config(tape: string, pc: int, bank: seq<int>, flag: bool, output: seq<int>, input: seq<int>)

  datatype Outcome = Invalid(message: string) | Finished(output: seq<int>) | OutOfFuel(output: seq<int>)

  predicate IsDigitSeq(s: seq<int>) {
    forall k :: 0 <= k < |s| ==> 0 <= s[k] <= 9
  }

  /**
   * The results of successive `getInput` calls. Each is a digit, or a
   * negative value when the word read from the console has no digit left
   * (the C++ then returns `ctoi('\0')`); a later call reads a new word and
   * may give digits again. Once the sequence is used up every call is
   * negative, as at the end of the input.
   */
  predicate IsInputSeq(s: seq<int>) {
    forall k :: 0 <= k < |s| ==> s[k] <= 9
  }

  /** A byte IO prints: 32..255 except 127. */
  predicate Printable(d: int) {
    32 <= d <= 255 && d != 127
  }

  predicate AllPrintable(s: seq<int>) {
    forall k :: 0 <= k < |s| ==> Printable(s[k])
  }

  /** What every reachable configuration satisfies. */
  predicate Valid(c: Config) {
    && AllDigits(c.tape)
    && c.pc >= 0
    && IsDigitSeq(c.bank)
    && IsInputSeq(c.input)
    && AllPrintable(c.output)
  }

  predicate Halted(c: Config) {
    c.pc >= |c.tape|
  }

  /** The state before the first iteration: the program as tape, counter 0, empty bank and output, flag clear. */
  function Initial(program: string, input: seq<int>): (c: Config)
    ensures Valid(c) <==> AllDigits(program) && IsInputSeq(input)
    ensures Halted(c) <==> program == []
  {
    Config(program, 0, [], false, [], input)
  }

  /** `mem.empty() ? 0 : mem.front()` followed by a guarded `pop_front`. */
  function PopOr0(bank: seq<int>): (r: (int, seq<int>))
    ensures bank == [] ==> r == (0, [])
    ensures bank != [] ==> [r.0] + r.1 == bank
  {
    if bank == [] then (0, []) else (bank[0], bank[1..])
  }

  /** The byte the three cells after an IO cell encode. */
  function IoByte(t: string, i: int): (d: int)
    ensures 0 <= d < 256
  {
    (100 * Read(t, i + 1) + 10 * Read(t, i + 2) + Read(t, i + 3)) % 256
  }

  /**
   * JUMP: the cell the pointer is set to (before the loop's own advance).
   * With the flag clear it stays; with it set it moves to the first 3 after
   * `i`, or stays when there is none.
   */
  function Jump(t: string, i: nat, flag: bool): (p: int)
    ensures !flag ==> p == i
    ensures p == i || (i < p < |t| && t[p] == '3')
    ensures forall k :: i < k < p ==> t[k] != '3'
    ensures flag && p == i ==> forall k :: i < k < |t| ==> t[k] != '3'
  {
    if flag then
      match Strings.FindFirstOf(t, {'3'}, i + 1)
      case Some(p) => p
      case None => i
    else i
  }

  /**
   * LOOP: the cell the pointer is set to (before the loop's own advance).
   * It moves only with the flag set, at the last 9 of a run, and then
   * exactly to the end of the matching earlier run.
   */
  ghost function Loop(t: string, i: int, flag: bool): (p: int)
    ensures !flag || Read(t, i + 1) == 9 ==> p == i
    ensures p != i <==> flag && Read(t, i + 1) != 9 && LoopTarget(t, i).Some?
    ensures p != i ==> IsLoopMatch(t, i, p)
  {
    if flag && Read(t, i + 1) != 9 then
      match LoopTarget(t, i)
      case Some(e) => e
      case None => i
    else i
  }

  /** IO (digit 2) at `c.pc`, including the loop's trailing advance. */
  function Io(c: Config): (r: Config)
    ensures r.flag == c.flag && |r.tape| == |c.tape|
    ensures r.pc == c.pc + 1 || r.pc == c.pc + 4
    ensures r.output != c.output <==> Printable(IoByte(c.tape, c.pc))
  {
    if Printable(IoByte(c.tape, c.pc)) then Print(c) else TakeInput(c)
  }

  /**
   * IO on a non-printable byte: one `getInput` call. A digit goes into the
   * IO cell; a negative result skips the three operand cells instead.
   */
  function TakeInput(c: Config): (r: Config)
    ensures r.bank == c.bank && r.output == c.output && r.flag == c.flag
    ensures r.input == if c.input == [] then [] else c.input[1..]
    ensures r.pc == c.pc + 1 <==> c.input != [] && c.input[0] >= 0
    ensures r.pc != c.pc + 1 ==> r.tape == c.tape && r.pc == c.pc + 4
  {
    if c.input == [] then c.(pc := c.pc + 4)
    else if c.input[0] < 0 then c.(input := c.input[1..], pc := c.pc + 4)
    else c.(tape := Write(c.tape, c.pc, c.input[0]), input := c.input[1..], pc := c.pc + 1)
  }

  /**
   * IO on a printable byte: output it, then drain three bank values (0 once
   * the bank is empty) into the three operand cells and skip them.
   */
  function Print(c: Config): (r: Config)
    ensures r.output == c.output + [IoByte(c.tape, c.pc)]
    ensures |r.bank| == if |c.bank| <= 3 then 0 else |c.bank| - 3
    ensures r.flag == c.flag && r.input == c.input && r.pc == c.pc + 4
  {
    var t, i := c.tape, c.pc;
    var (a, bank1) := PopOr0(c.bank);
    var (b, bank2) := PopOr0(bank1);
    var (e, bank3) := PopOr0(bank2);
    c.(output := c.output + [IoByte(t, i)], bank := bank3,
       tape := Write(Write(Write(t, i + 1, a), i + 2, b), i + 3, e),
       pc := i + 4)
  }

  /** One iteration of the dispatch loop, `++i` included. */
  ghost function Step(c: Config): (r: Config)
    ensures |r.tape| == |c.tape|
  {
    var t, i := c.tape, c.pc;
    match Read(t, i)
    case 1 => c.(tape := Write(t, i, (Read(t, i - 1) + Read(t, i - 2)) % 10), pc := i + 1)
    case 2 => Io(c)
    case 3 => c.(pc := Jump(t, i, c.flag) + 1)
    case 4 => c.(bank := [Read(t, i - 1)] + c.bank, pc := i + 1)
    case 5 =>
      if c.bank == [] then c.(pc := i + 2)
      else c.(tape := Write(t, i, c.bank[0]), bank := c.bank[1..], pc := i + 1)
    case 6 => c.(pc := i + 2)
    case 7 => c.(flag := if Read(t, i - 1) == 7 then !c.flag else c.flag, pc := i + 1)
    case 8 =>
      if c.bank == [] then c.(pc := i + 1)
      else c.(bank := c.bank[1..] + [c.bank[0]], pc := i + 1)
    case 9 => c.(pc := Loop(t, i, c.flag) + 1)
    case _ => c.(pc := i + 1)
  }

  /** Up to `fuel` iterations, stopping when the pointer leaves the tape. */
  ghost function Run(c: Config, fuel: nat): (r: Config)
    ensures |r.tape| == |c.tape|
    decreases fuel
  {
    if fuel == 0 || Halted(c) then c else Run(Step(c), fuel - 1)
  }

  /** One more step of a run. */
  lemma RunUnfold(c: Config, next: Config, rest: nat)
    requires !Halted(c) && next == Step(c)
    ensures Run(c, rest + 1) == Run(next, rest)
  {
  }

  /** Every step keeps a configuration valid and only appends to the output. */
  lemma StepValid(c: Config)
    requires Valid(c)
    ensures Valid(Step(c)) && c.output <= Step(c).output
  {
    if Read(c.tape, c.pc) == 2 {
      IoValid(c);
    }
  }

  /** IO keeps a configuration valid: it writes digits and appends only printable bytes. */
  lemma IoValid(c: Config)
    requires Valid(c)
    ensures Valid(Io(c)) && c.output <= Io(c).output
  {
    var t, i := c.tape, c.pc;
    if Printable(IoByte(t, i)) {
      var (a, bank1) := PopOr0(c.bank);
      var (b, bank2) := PopOr0(bank1);
      var (e, bank3) := PopOr0(bank2);
      assert IsDigitSeq(bank3) && 0 <= a <= 9 && 0 <= b <= 9 && 0 <= e <= 9;
    }
  }

  /** Hence so does every run. */
  lemma {:induction false} RunValid(c: Config, fuel: nat)
    requires Valid(c)
    ensures Valid(Run(c, fuel)) && c.output <= Run(c, fuel).output
    decreases fuel
  {
    if fuel > 0 && !Halted(c) {
      var rest: nat := fuel - 1;
      var next := Step(c);
      StepValid(c);
      RunValid(next, rest);
      RunUnfold(c, next, rest);
    }
  }

  /** `parseString` with at most `fuel` iterations of its loop. */
  ghost function Evaluate(program: string, input: seq<int>, fuel: nat): (r: Outcome)
    ensures r.Invalid? <==> !IsDigits(program)
    ensures r.Invalid? ==> r.message == NonNumericError
  {
    if !IsDigits(program) then Invalid(NonNumericError)
    else
      var f := Run(Initial(program, input), fuel);
      if Halted(f) then Finished(f.output) else OutOfFuel(f.output)
  }

  /** Every byte `parseString` outputs is printable. */
  lemma OutputPrintable(program: string, input: seq<int>, fuel: nat)
    requires IsInputSeq(input)
    ensures !Evaluate(program, input, fuel).Invalid? ==> AllPrintable(Evaluate(program, input, fuel).output)
  {
    if IsDigits(program) {
      RunValid(Initial(program, input), fuel);
    }
  }
}
