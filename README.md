# Codexter interpreter, modelled in Dafny

Codexter is an esoteric language whose programs are strings of decimal
digits. The interpreter (`parseString`) treats the program as a tape it may
rewrite while it runs. A pointer walks the tape. Each digit is an opcode:
0 NOP, 1 ADD (mod 10), 2 IO, 3 JUMP, 4 PUSH, 5 POP, 6 SKIP, 7 FLAG,
8 ROTATE, 9 LOOP. The interpreter also keeps a memory bank (a deque of
digits), a flag, and an output buffer of bytes.

The project has three layers:

- **Specification functions.** `Strings` models `find_first_of` and
  `find_first_not_of`. `Digits` models `itoc`, `ctoi` and `isDigits`.
  `Tape` models `read` and `write`. `Loops` gives a declarative account of
  LOOP's run-length matching. `Semantics` defines one iteration of the
  dispatch loop (`Step`), runs bounded by fuel (`Run`) and the whole
  `parseString` (`Evaluate`).
- **Imperative interpreter.** `Engine.Interpreter` is a class that holds
  the tape as an `array<char>` overwritten in place. The bank, flag, output
  and pending input are fields that its methods reassign. Each method is
  proved to compute exactly what `Semantics` says. The LOOP scan keeps the
  source's counting `while` loop and its backward `for` loop, each with
  invariants.
- **Properties.** `Properties` proves what each opcode does, that validity
  is preserved, and that a run whose LOOPs never jump halts within one
  step per cell. `Examples` runs small programs by hand through the model.

Two behaviours are defined here where the C++ leaves them open:

- ROTATE on an empty bank calls `front()` on an empty deque, which is
  undefined behaviour in C++. The model treats it as a NOP.
- The input source is the sequence of values successive `getInput` calls
  return: digits, or a negative value for a call whose console word had no
  digit left. Once the sequence is used up every call is negative, as at the
  end of the input.

## Model

| member | source | states |
|---|---|---|
| Strings.FindFirstOf | src/codexter.cpp:187 | the result is the first position at or after `from` holding a character of the set; `None` exactly when no such position exists |
| Strings.FindFirstNotOf | src/codexter.cpp:39 | the result is the first position at or after `from` holding a character outside the set; `None` exactly when every character from there on is in the set |
| Digits.Itoc | src/codexter.cpp:22-24 | the character is a byte (code below 256); for 0..9 it is the digit character, and `Ctoi` turns it back into the same value |
| Digits.Ctoi | src/codexter.cpp:30-32 | the value lies in 0..9 exactly when the character is a digit |
| Digits.ItocCtoi | src/codexter.cpp:22-32 | a digit character survives the round trip `Itoc(Ctoi(c)) == c` |
| Digits.IsDigits | src/codexter.cpp:38-40 | true exactly when every character of the string is in '0'..'9' |
| Tape.Read | src/codexter.cpp:113-115 | 0 outside the tape; on an all-digit tape always in 0..9 |
| Tape.Write | src/codexter.cpp:122-124 | length unchanged; outside the tape nothing changes; inside, only cell `pos` changes and reads back as the digit written; writing a digit keeps the tape all-digits |
| Tape.ReadAfterWrite | src/codexter.cpp:113-124 | after writing a digit, reading `pos` gives it and every other position reads as before |
| Loops.RunLength | src/codexter.cpp:228-231 | the cells `p-n+1..p` all hold 9 and cell `p-n` does not, so `n` is the length of the run ending at `p` |
| Loops.RunLengthIs | src/codexter.cpp:228-231 | a block of exactly `m` nines ending at `p` has run length `m` (what the counting loop computes) |
| Loops.LoopMatchUnique | src/codexter.cpp:233-261 | at most one earlier run matches the closing run |
| Loops.LoopTarget | src/codexter.cpp:233-261 | `Some(e)` names a matching run end; `None` means no run matches |
| Loops.LoopTargetIs | src/codexter.cpp:233-261 | any matching run end is the target |
| Loops.LoopTargetBehind | src/codexter.cpp:235-245 | the cell LOOP jumps to lies strictly before the closing run, so the jump goes backwards |
| Loops.LoopStopsAtLonger | src/codexter.cpp:249-253 | once the scan meets a run longer than the closing run, LOOP does not jump, even if an equal run lies further left |
| Loops.LoopIgnoresRunAtStart | src/codexter.cpp:235-241 | a run that starts in cell 0 is never matched, because the scan ends at `j = 0` without seeing a boundary |
| Loops.NoJumpWhenAllShorter | src/codexter.cpp:235-260 | when every earlier run is shorter, LOOP does not jump |
| Loops.ScanMatch | src/codexter.cpp:241-247 | at a boundary after a run of the closing run's length, the scan has found the target |
| Semantics.Initial | src/codexter.cpp:137-143 | the starting state is valid exactly when the program is all digits and the input holds only digits and negative results; it is already finished exactly for the empty program |
| Semantics.PopOr0 | src/codexter.cpp:171-176 | an empty bank gives 0 and stays empty; otherwise the front is returned and removed |
| Semantics.IoByte | src/codexter.cpp:157-160 | the byte IO decodes from the next three cells lies in 0..255 |
| Semantics.Jump | src/codexter.cpp:184-192 | with the flag clear JUMP stays; with it set JUMP moves to the first 3 after it, or stays when there is none |
| Semantics.Loop | src/codexter.cpp:222-266 | LOOP moves only with the flag set and the next cell not 9, and exactly when a matching run exists; it then moves to that run's end |
| Semantics.Io | src/codexter.cpp:155-183 | IO keeps the flag and the tape length, moves on by one or by four, and changes the output exactly when the decoded byte is printable |
| Semantics.TakeInput | src/codexter.cpp:161-169 | a non-printable IO consumes one `getInput` result and keeps bank, output and flag; it moves on by one exactly when that result is a digit, and otherwise leaves the tape alone and skips four cells |
| Semantics.Print | src/codexter.cpp:170-182 | a printable IO appends its byte, removes up to three bank values, keeps flag and input, and skips four cells |
| Semantics.Step | src/codexter.cpp:143-267 | one step never changes the tape's length; the whole new state for each opcode is stated by the `Properties` lemmas |
| Semantics.Run | src/codexter.cpp:143 | no number of steps changes the tape's length |
| Semantics.StepValid | src/codexter.cpp:143-267 | a step keeps the tape and bank all digits, the input digits or negative and the output printable, and only appends to the output |
| Semantics.IoValid | src/codexter.cpp:155-183 | IO writes only digits and appends only a printable byte |
| Semantics.RunValid | src/codexter.cpp:143-269 | the same holds for a whole run |
| Semantics.Evaluate | src/codexter.cpp:131-272 | the result is the fixed error exactly when the program has a non-digit character |
| Semantics.OutputPrintable | src/codexter.cpp:161-171 | every byte `parseString` outputs lies in 32..255 and is not 127 |
| Properties.AddStep | src/codexter.cpp:149-154 | ADD stores `(read(i-1) + read(i-2)) % 10` in its own cell, changes no other cell or field, and moves on by one |
| Properties.FlagToggle | src/codexter.cpp:211-216 | the flag changes exactly when a 7 is preceded by a 7 |
| Properties.InactiveWithoutFlag | src/codexter.cpp:184-226 | with the flag clear, JUMP and LOOP change nothing but move on by one |
| Properties.JumpStep | src/codexter.cpp:184-192 | a set JUMP changes only the pointer: it resumes just after the next 3, or moves on by one when there is none |
| Properties.IoPrintable | src/codexter.cpp:170-182 | a printable IO appends its byte, writes the first three bank values (0 once empty) into the next three cells, drops them from the bank, changes no other cell and continues four cells on |
| Properties.IoNonPrintable | src/codexter.cpp:161-169 | a non-printable IO stores a digit from `getInput` in its own cell and moves on by one; on a negative result it only consumes that result and skips four cells; with nothing left it changes nothing but skips four cells |
| Properties.OutputOnlyFromIo | src/codexter.cpp:170-171 | the output changes exactly on a printable IO, by its one byte |
| Properties.PushStep | src/codexter.cpp:193-196 | PUSH puts `read(i-1)` on the front of the bank and changes nothing else |
| Properties.PopStep | src/codexter.cpp:197-206 | POP on an empty bank only skips the next cell; otherwise it stores the front in its own cell, removes it from the bank, moves on by one and changes nothing else |
| Properties.RotateStep | src/codexter.cpp:217-221 | ROTATE moves the front of the bank to the back and changes nothing else, so the bank keeps the same values; on an empty bank it only moves on by one |
| Properties.SkipStep | src/codexter.cpp:207-210 | SKIP changes nothing but moves on by two, passing over the next cell |
| Properties.NopStep | src/codexter.cpp:146-148 | NOP changes nothing but moves on by one |
| Properties.FlagStep | src/codexter.cpp:211-216 | FLAG changes nothing but the flag, which it toggles when the cell before holds a 7, and moves on by one |
| Properties.LoopStep | src/codexter.cpp:222-266 | LOOP changes nothing but the pointer; it jumps back exactly when the flag is set, the next cell is not 9 and a matching run exists, and then lands just after that run, before the closing run |
| Properties.StepAdvances | src/codexter.cpp:143-210 | every step except a jumping LOOP moves the pointer forward |
| Properties.FinishesWithoutLoopJumps | src/codexter.cpp:143 | a run with no backward LOOP jump leaves the tape within as many steps as cells remain |
| Properties.ProgramFinishes | src/codexter.cpp:131-272 | such a program finishes within `|program|` steps |
| Properties.RejectsNonDigits | src/codexter.cpp:133-135 | a program with a non-digit character yields the fixed error message |
| Properties.EmptyProgram | src/codexter.cpp:143-271 | the empty program yields empty output |
| Engine.Interpreter.constructor | src/codexter.cpp:137-139 | the fresh interpreter stands for the initial configuration: the program as tape, empty bank and output, flag clear |
| Engine.Interpreter.ReadCell | src/codexter.cpp:113-115 | reading the array agrees with `Read` on its contents |
| Engine.Interpreter.WriteCell | src/codexter.cpp:122-124 | the array afterwards holds `Write` of its old contents |
| Engine.Interpreter.TakeFront | src/codexter.cpp:171-176 | takes the front of the bank (0 when empty) as `PopOr0` does |
| Engine.Interpreter.GetInput | src/codexter.cpp:162-163 | the next `getInput` result, which is consumed; a negative value once none is left |
| Engine.Interpreter.Io | src/codexter.cpp:155-183 | the IO case leaves the state `Semantics.Io` describes |
| Engine.Interpreter.IoInput | src/codexter.cpp:161-169 | the non-printable branch leaves the state `TakeInput` describes |
| Engine.Interpreter.IoPrint | src/codexter.cpp:170-182 | the printable branch leaves the state `Print` describes |
| Engine.Interpreter.LoopScan | src/codexter.cpp:226-261 | the counting loop and the backward scan together find exactly `LoopTarget` |
| Engine.Interpreter.ScanBack | src/codexter.cpp:233-261 | the backward `for` scan finds exactly `LoopTarget` |
| Engine.Interpreter.Add | src/codexter.cpp:149-154 | the ADD case leaves the state `Semantics.Step` describes |
| Engine.Interpreter.Pop | src/codexter.cpp:197-206 | the POP case leaves the state `Semantics.Step` describes |
| Engine.Interpreter.JumpOp | src/codexter.cpp:184-192 | the JUMP case sets the counter to `Jump`, whose contract says where that is |
| Engine.Interpreter.LoopOp | src/codexter.cpp:222-266 | the LOOP case sets the counter to `Loop`, whose contract says where that is |
| Engine.Interpreter.Step | src/codexter.cpp:143-267 | one iteration of the loop body, `++i` included, leaves the state `Semantics.Step` describes |
| Engine.Interpreter.Execute | src/codexter.cpp:143-269 | the loop leaves the state `Run` describes after at most `fuel` iterations |
| Engine.ParseString | src/codexter.cpp:131-272 | returns exactly `Evaluate`: the error for a non-digit program, otherwise the output |
| Examples.AddAtStart | src/codexter.cpp:149-154 | ADD in cell 0 reads two 0s: "15" becomes "05" |
| Examples.FlagSetByTwoSevens | src/codexter.cpp:211-216 | "77" ends with the flag set |
| Examples.FlagKeptBySeparatedSevens | src/codexter.cpp:211-216 | "707" ends with the flag clear |
| Examples.NopsOnly | src/codexter.cpp:146-148 | "0000" outputs nothing and keeps its tape |
| Examples.PrintA | src/codexter.cpp:170-182 | "2065" outputs byte 65 and leaves "2000" |
| Examples.InputExhausted | src/codexter.cpp:161-165 | "2000" with no input outputs nothing and keeps its tape |
| Examples.InputTaken | src/codexter.cpp:161-168 | "2000" with input 7 becomes "7000" and continues at cell 1 |
| Examples.InputNoDigit | src/codexter.cpp:161-165 | in "20002000" a `getInput` result without a digit skips the first IO and leaves the later result for the next call |
| Examples.InputAfterNoDigit | src/codexter.cpp:161-168 | the second IO of "20002000" then receives the digit 7 |
| Examples.JumpToNextThree | src/codexter.cpp:184-192 | a set JUMP in "3003" continues after cell 3 |
| Examples.LoopRunAtStartIgnored | src/codexter.cpp:235-261 | in "909" the LOOP at cell 2 has no target |
| Examples.LoopSkipsShorterRun | src/codexter.cpp:235-261 | in "09909099" the LOOP at cell 7 skips the single 9 and targets cell 2 |
| Examples.LoopStopsAtLongerRun | src/codexter.cpp:249-253 | in "0990999099" the LOOP at cell 9 stops at the run of three |

## Left out

- `getInput` (src/codexter.cpp:81-105) reads one whitespace-separated word from the console when its queue is empty and takes characters from the front of the queue, dropping non-digits. When the queue runs empty before a digit turns up, it returns `ctoi('\0')`, a negative value; the next call reads a new word. The console and the queue are not modelled: the model takes the sequence of values the calls return, each a digit or negative, so a skipped IO can be followed by one that receives a digit.
- `parseFile` (src/codexter.cpp:47-74) reads a file and concatenates its words. `main` (src/codexter.cpp:274-300) handles arguments and prints banners. Both are I/O and are not part of this model.
- Semantics.Run: programs may loop forever, so a run is bounded by `fuel`. `Evaluate` reports `OutOfFuel` with the output so far when the fuel runs out before the pointer leaves the tape.
- ROTATE on an empty bank is undefined behaviour in C++; the model treats it as a NOP.
- Output is a sequence of byte values (`int` 32..255) rather than a `std::string` of `char`.
- Tape.Read and Digits.Ctoi take a character's Unicode code point minus 48. The C++ `char` may be signed, so a non-ASCII byte would give a different value. `parseString` only reads tapes of digits, where both agree.
- Semantics.Step is defined on every configuration. On a tape with non-digit characters, ADD and IO use Dafny's non-negative remainder, not C++'s truncating `%`. `parseString` rejects such programs before any step runs, so every reachable configuration is all-digit and the lemmas in `Properties` require digit contents where they need them.
- The requirement that a program be non-empty is not enforced: the code accepts the empty program and returns empty output, and so does the model (Properties.EmptyProgram).
- Engine.Interpreter.ScanBack leaves the scan with `return` where the C++ `for` loop uses `break` and then falls out of the LOOP case. The effect on the counter is the same.
