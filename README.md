# LS-8 CPU in Dafny

A model of the LS-8 virtual CPU of `ls8/cpu.py`: an 8-bit-style machine with
eight registers (register 7 doubles as the stack pointer, starting at 0xF4),
256 memory cells, a program counter, a flags register and a `running` flag.
Thirteen opcode handlers (LDI, PRN, HLT, ADD, MUL, CMP, PUSH, POP, CALL, RET,
JMP, JEQ, JNE) change that state one instruction at a time, and `run` is a
fetch/dispatch loop over the branch table that goes on while `running` holds.

The project has four modules:

- `Ls8Spec` (`ls8_spec.dfy`) — the machine state as a value (`Machine`) and
  every handler, the ALU, the branch table (`Decode`), one iteration of the
  loop (`Step`) and a run bounded by a step budget (`Exec`) as functions.
  Lists are indexed as Python indexes them: an index `i` into a list of
  length `n` is accepted when `-n <= i < n`, a negative one counts from the
  end, and any other raises IndexError, which the model reports as the
  `IndexError` result and which ends the program.
- `Ls8Cpu` (`ls8_cpu.dfy`) — the `CPU` class itself: `reg` and `ram` are
  arrays updated in place, `pc`, `fl` and `running` are fields, and `output`
  collects what PRN prints. Every method is proved to leave the object in
  the state the matching `Ls8Spec` function computes; `Run` is a `while`
  loop proved against `Exec`.
- `Ls8Properties` (`ls8_properties.dfy`) — what the instructions guarantee:
  the effect of each one as a step of the loop, CMP's flags and their
  mirror image under swapped operands, PUSH/POP and CALL/RET round trips,
  halting on HLT and on unknown opcodes, and how bounded runs compose.
- `Ls8SumExample` (`ls8_sum_example.dfy`) — a whole program run on the model:
  a 29-byte loop using LDI, ADD, CMP, JNE, PRN and HLT, proved to print
  n(n + 1)/2 and halt for every n >= 1, both on the functional model and on
  a `CPU` object built, loaded and run.

The model follows the code where it differs from the usual description of
the LS-8:

- ADD and MUL do not reduce their result modulo 256, and registers and
  cells are unbounded integers (CALL may store `pc + 2` above 255 too).
- Only PUSH wraps SP (`& 0xff`); POP, CALL and RET add or subtract 1 without
  wrapping, so SP can leave 0..255 and a later stack access then uses a
  negative Python index or raises IndexError.
- JEQ and JNE compare `fl` with 1 exactly.
- Fetching reads `ram[pc + 1]` and `ram[pc + 2]` before `ram[pc]`, so an
  instruction whose two following cells lie outside memory raises
  IndexError even when it has no operands.
- An operand register index outside -8..7, a pc or SP outside memory, and
  so on, are not preconditions: they take the IndexError path, as in the
  code.

## Model

| member | source | states |
|---|---|---|
| Ls8Cpu.CPU.constructor | ls8/cpu.py:24-47 | registers are zero except SP = 0xF4, the 256 cells are zero, pc = 0, fl = 0, running; the state equals `Init()` |
| Ls8Spec.Init | ls8/cpu.py:24-47 | the initial machine has 8 registers, all zero except SP = 0xF4, 256 zero cells, pc = 0, fl = 0, running and nothing printed |
| Ls8Spec.Load | ls8/cpu.py:52-65 | after loading, cell a holds program byte a for every a below the program's length, every later cell is unchanged, and nothing but memory changes |
| Ls8Cpu.CPU.Load | ls8/cpu.py:52-65 | the loop writing successive bytes from address 0 leaves exactly the memory `Ls8Spec.Load` describes |
| Ls8Spec.Compare | ls8/cpu.py:80-88 | the flag is 4 iff x < y, 2 iff x > y, 1 iff x == y |
| Ls8Spec.Alu | ls8/cpu.py:73-91 | ADD, MUL and CMP on two register indices raise IndexError exactly when either index lies outside the register file, and otherwise keep the machine's shape |
| Ls8Cpu.CPU.Alu | ls8/cpu.py:73-91 | the in-place ALU reports IndexError exactly when `Ls8Spec.Alu` does and otherwise leaves the state it computes |
| Ls8Cpu.CPU.RamRead | ls8/cpu.py:113-118 | returns the cell at mar with Python indexing; callable only when pc + 1 and pc + 2 are valid indices too |
| Ls8Cpu.CPU.RamWrite | ls8/cpu.py:120-121 | memory afterwards is the old memory with mar set to mdr |
| Ls8Spec.LdiStep | ls8/cpu.py:127-133 | a completed LDI keeps 8 registers and 256 cells |
| Ls8Cpu.CPU.OpLdi | ls8/cpu.py:127-133 | fails exactly when `LdiStep` raises; otherwise the new state is `LdiStep`'s |
| Ls8Spec.PrnStep | ls8/cpu.py:135-139 | a completed PRN keeps the machine's shape |
| Ls8Cpu.CPU.OpPrn | ls8/cpu.py:135-139 | fails exactly when `PrnStep` raises; otherwise the new state, output included, is `PrnStep`'s |
| Ls8Spec.HltStep | ls8/cpu.py:141-143 | HLT never raises, and keeps the machine's shape |
| Ls8Cpu.CPU.OpHlt | ls8/cpu.py:141-143 | the new state is `HltStep`'s: running cleared, nothing else changed |
| Ls8Spec.AluStep | ls8/cpu.py:145-159 | a completed ADD, MUL or CMP keeps the machine's shape |
| Ls8Cpu.CPU.AluInstruction | ls8/cpu.py:145-159 | the shared body of the three ALU handlers leaves `AluStep`'s state |
| Ls8Cpu.CPU.OpAdd | ls8/cpu.py:145-151 | fails exactly when `AluStep(m, "ADD")` raises; otherwise leaves its state |
| Ls8Cpu.CPU.OpCmp | ls8/cpu.py:153-159 | fails exactly when `AluStep(m, "CMP")` raises; otherwise leaves its state |
| Ls8Cpu.CPU.OpMul | ls8/cpu.py:182-188 | fails exactly when `AluStep(m, "MUL")` raises; otherwise leaves its state |
| Ls8Spec.JmpStep | ls8/cpu.py:123-125 | a completed JMP keeps the machine's shape |
| Ls8Cpu.CPU.OpJmp | ls8/cpu.py:123-125 | fails exactly when `JmpStep` raises; otherwise leaves its state |
| Ls8Spec.JeqStep | ls8/cpu.py:161-169 | a completed JEQ keeps the machine's shape |
| Ls8Cpu.CPU.OpJeq | ls8/cpu.py:161-169 | fails exactly when `JeqStep` raises; otherwise leaves its state |
| Ls8Spec.JneStep | ls8/cpu.py:171-180 | a completed JNE keeps the machine's shape |
| Ls8Cpu.CPU.OpJne | ls8/cpu.py:171-180 | fails exactly when `JneStep` raises; otherwise leaves its state |
| Ls8Spec.PushStep | ls8/cpu.py:190-201 | a completed PUSH keeps the machine's shape |
| Ls8Cpu.CPU.OpPush | ls8/cpu.py:190-201 | fails exactly when `PushStep` raises and then changes nothing; otherwise leaves its state |
| Ls8Spec.PopStep | ls8/cpu.py:203-212 | a completed POP keeps the machine's shape |
| Ls8Cpu.CPU.OpPop | ls8/cpu.py:203-212 | fails exactly when `PopStep` raises; otherwise leaves its state |
| Ls8Spec.CallStep | ls8/cpu.py:214-224 | a completed CALL keeps the machine's shape |
| Ls8Cpu.CPU.OpCall | ls8/cpu.py:214-224 | fails exactly when `CallStep` raises; otherwise leaves its state, with the operand read after the return address is stored |
| Ls8Spec.RetStep | ls8/cpu.py:226-231 | a completed RET keeps the machine's shape |
| Ls8Cpu.CPU.OpRet | ls8/cpu.py:226-231 | fails exactly when `RetStep` raises; otherwise leaves its state |
| Ls8Spec.Decode | ls8/cpu.py:33-45 | a byte the branch table maps to an instruction is that instruction's opcode |
| Ls8Spec.Execute | ls8/cpu.py:245 | calling the handler an instruction is registered with keeps the machine's shape |
| Ls8Spec.Step | ls8/cpu.py:239-248 | one loop iteration keeps the machine's shape |
| Ls8Cpu.CPU.Step | ls8/cpu.py:239-248 | fetch and dispatch on the object fail exactly when `Ls8Spec.Step` raises and otherwise leave its state |
| Ls8Spec.Exec | ls8/cpu.py:233-248 | a run of at most `fuel` iterations ends in a well-formed machine |
| Ls8Spec.Cycle | ls8/cpu.py:239-248 | one iteration followed by the rest of the run ends in a well-formed machine |
| Ls8Cpu.CPU.Run | ls8/cpu.py:233-248 | the loop `while running` over `Step`, cut off after `fuel` iterations, leaves the object in the final state of `Exec` and returns why it stopped |
| Ls8Properties.DecodeEncode | ls8/cpu.py:33-45 | every instruction is found again under its opcode, so no two handlers share a byte |
| Ls8Properties.DecodeKnown | ls8/cpu.py:7-19 | a byte has a handler exactly when it is one of the thirteen opcodes |
| Ls8Properties.UnknownOpcodeStops | ls8/cpu.py:244-248 | a byte with no handler clears running and leaves pc, registers, memory and fl unchanged; a run then halts |
| Ls8Properties.HltStops | ls8/cpu.py:141-143 | HLT clears running without moving pc, and the run halts there whatever the remaining budget |
| Ls8Properties.LdiEffect | ls8/cpu.py:127-133 | LDI r v sets register r to v and adds 3 to pc; memory, fl and the other registers are unchanged |
| Ls8Properties.PrnEffect | ls8/cpu.py:135-139 | PRN r appends register r to the output and adds 2 to pc; registers, memory and fl are unchanged |
| Ls8Properties.LdiThenPrn | ls8/cpu.py:127-139 | LDI r v followed by PRN r appends v to the output and moves pc by 5 |
| Ls8Properties.ArithEffect | ls8/cpu.py:76-79 | ADD/MUL a b set register a to the sum/product of the two registers with no reduction modulo 256, add 3 to pc and change nothing else |
| Ls8Properties.CmpEffect | ls8/cpu.py:153-159 | CMP a b sets fl to the comparison of the two registers, one of 4, 2, 1, adds 3 to pc and changes nothing else |
| Ls8Properties.CompareSwap | ls8/cpu.py:80-88 | swapping the compared values swaps LT and GT and keeps EQ |
| Ls8Properties.CmpOperandsSwapped | ls8/cpu.py:153-159 | CMP b a leaves the mirror image of the flags CMP a b leaves |
| Ls8Properties.JumpEffect | ls8/cpu.py:123-125 | JMP always, JEQ iff fl == 1 and JNE iff fl != 1 set pc to the register named; otherwise pc moves by 2; only pc changes |
| Ls8Properties.PushEffect | ls8/cpu.py:190-201 | PUSH r (r not SP) sets SP to (SP - 1) & 0xff, stores register r at the new SP and adds 2 to pc; nothing else changes |
| Ls8Properties.PopEffect | ls8/cpu.py:203-212 | POP r with SP in 0..255 loads register r from the cell at SP, then adds 1 to SP without wrapping, and adds 2 to pc; memory and fl are unchanged |
| Ls8Properties.PushThenPop | ls8/cpu.py:190-212 | PUSH r then POP s (s not SP, SP in 1..256) puts the pushed value in register s and gives SP back its old value |
| Ls8Properties.PushThenPopFromZero | ls8/cpu.py:191-192 | at SP = 0, PUSH wraps SP to 255 but POP does not wrap, so SP ends at 256 rather than 0 |
| Ls8Properties.CallEffect | ls8/cpu.py:214-224 | CALL r stores pc + 2 just below SP, decrements SP and jumps to register r; nothing else changes |
| Ls8Properties.RetEffect | ls8/cpu.py:226-231 | RET with SP in 0..255 sets pc to the cell at SP and adds 1 to SP without wrapping; nothing else changes |
| Ls8Properties.CallThenRet | ls8/cpu.py:214-231 | CALL followed by RET at the called address resumes at the old pc + 2 with every register, SP included, restored |
| Ls8Properties.ExecStep | ls8/cpu.py:239-245 | a running machine whose step completes continues the run from the next state |
| Ls8Properties.ExecSplit | ls8/cpu.py:239-248 | a run of a + b iterations is a run of a iterations followed, when the budget cut it off, by b more |
| Ls8Properties.ExecChain | ls8/cpu.py:239-248 | a run that reaches a state with its budget spent continues from that state with any extra budget |
| Ls8Properties.ExecHalted | ls8/cpu.py:239 | a run reports Halted exactly when it ends with running false |
| Ls8Properties.NoStepWhenStopped | ls8/cpu.py:239 | a stopped machine runs no step, whatever the budget |
| Ls8Properties.ExecMoreFuel | ls8/cpu.py:239-248 | once a run has halted or crashed, a larger budget gives the same outcome |
| Ls8Properties.StepOutput | ls8/cpu.py:135-139 | only PRN writes the output, and it appends one value |
| Ls8Properties.ExecOutput | ls8/cpu.py:239-248 | what was printed before a run is a prefix of what has been printed after it |
| Ls8Properties.OutputOnlyGrows | ls8/cpu.py:239-248 | the output of a shorter run is a prefix of the output of a longer one |
| Ls8SumExample.LoopFrom | ls8/cpu.py:145-180 | from the loop's entry after k passes, 4(n - k) steps reach the PRN with R1 = 1 + ... + n |
| Ls8SumExample.RunFromStart | ls8/cpu.py:233-248 | from a fresh machine holding the program, any budget of at least 4n + 7 steps ends halted at the HLT with exactly 1 + ... + n printed |
| Ls8SumExample.SumProgramPrintsSum | ls8/cpu.py:233-248 | the loaded program halts and prints exactly n(n + 1)/2 |
| Ls8SumExample.RunSumProgram | ls8/cpu.py:24-248 | constructing a CPU, loading the program and running it prints [n(n + 1)/2] and stops by halting |

## Left out

- `load`'s command-line check, file opening, `sys.exit` and messages are
  I/O; so is its parsing of lines with `int(line, 2)`, whose leniency is not
  modelled. `Load` takes the already parsed bytes; a program longer than
  256 bytes (an IndexError in the code) is excluded by its precondition.
- `trace` prints the machine state for debugging and changes nothing.
- The `print` in PRN is modelled as appending to `output`; the diagnostic
  printed for an unknown instruction is dropped.
- The `running` argument every handler receives is unused by all of them,
  and `ram_read`'s `operand_a`/`operand_b` are kept only for the
  IndexError they can raise.
- Ls8Spec.Alu: the `raise` for an operation other than ADD, MUL and CMP is
  a precondition, because the handlers only ever pass those three names.
- The state a handler leaves behind when it raises IndexError half way
  (PUSH and CALL change SP before they read the operand) is not modelled:
  the exception ends the program, and the class methods report failure
  without changing anything.
- Ls8Spec.Exec: `run` is unbounded; the model runs at most `fuel`
  iterations and reports `OutOfFuel` when the budget runs out first.
- Ls8Spec.LdiStep: its own contract states only the shape of the machine it returns; what it does is stated, as one step of the loop, by `LdiEffect` in `Ls8Properties`, and in full by the class method proved against it.
- Ls8Spec.PrnStep: its own contract states only the shape of the machine it returns; what it does is stated, as one step of the loop, by `PrnEffect` in `Ls8Properties`, and in full by the class method proved against it.
- Ls8Spec.HltStep: its own contract states only the shape of the machine it returns (and, for HLT, that it never raises); what it does is stated, as one step of the loop, by `HltStops` in `Ls8Properties`, and in full by the class method proved against it.
- Ls8Spec.AluStep: its own contract states only the shape of the machine it returns; what it does is stated, as one step of the loop, by `ArithEffect` and `CmpEffect` in `Ls8Properties`, and in full by the class method proved against it.
- Ls8Spec.JmpStep: its own contract states only the shape of the machine it returns; what it does is stated, as one step of the loop, by `JumpEffect` in `Ls8Properties`, and in full by the class method proved against it.
- Ls8Spec.JeqStep: its own contract states only the shape of the machine it returns; what it does is stated, as one step of the loop, by `JumpEffect` in `Ls8Properties`, and in full by the class method proved against it.
- Ls8Spec.JneStep: its own contract states only the shape of the machine it returns; what it does is stated, as one step of the loop, by `JumpEffect` in `Ls8Properties`, and in full by the class method proved against it.
- Ls8Spec.PushStep: its own contract states only the shape of the machine it returns; what it does is stated, as one step of the loop, by `PushEffect` in `Ls8Properties`, and in full by the class method proved against it.
- Ls8Spec.PopStep: its own contract states only the shape of the machine it returns; what it does is stated, as one step of the loop, by `PopEffect` in `Ls8Properties`, and in full by the class method proved against it.
- Ls8Spec.CallStep: its own contract states only the shape of the machine it returns; what it does is stated, as one step of the loop, by `CallEffect` in `Ls8Properties`, and in full by the class method proved against it.
- Ls8Spec.RetStep: its own contract states only the shape of the machine it returns; what it does is stated, as one step of the loop, by `RetEffect` in `Ls8Properties`, and in full by the class method proved against it.
- Ls8Spec.Execute: its own contract states only the shape of the machine it returns; the dispatch is stated over `Step` by the effect lemmas of `Ls8Properties`, one per opcode.
- Ls8Spec.Step: its own contract states only the shape of the machine it returns; every effect lemma of `Ls8Properties` states what it does for one opcode, and `UnknownOpcodeStops` for a byte with no handler.
- Ls8Spec.Cycle: its own contract states only the shape of the machine it returns; `ExecStep` states that the run continues from the next state.
