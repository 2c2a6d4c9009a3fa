/** What the LS-8 instructions and the fetch/dispatch loop guarantee, stated
    over Ls8Spec: the effect of each instruction as one step of the loop,
    the pairs of instructions that undo each other, and how bounded runs
    compose. */
module Ls8Properties {
  import opened Ls8Spec

  // ---------------------------------------------------------------------
  // The branch table

  /** Every instruction is found again under the byte it is registered at,
      so no two instructions share an opcode. */
  lemma DecodeEncode(i: Instr)
    ensures Decode(Encode(i)) == Some(i)
  {
  }

  /** A byte has a handler exactly when it is one of the thirteen opcodes. */
  lemma DecodeKnown(b: int)
    ensures Decode(b).Some? <==>
      b in {LDI, PRN, HLT, ADD, MUL, PUSH, POP, CALL, RET, CMP, JMP, JEQ, JNE}
  {
  }

  // ---------------------------------------------------------------------
  // One step of the loop, instruction by instruction

  /** The machine is running and the instruction at pc, with the two bytes
      the fetch reads after it, lies in memory at non-negative addresses. */
  predicate ReadyToFetch(m: Machine) {
    Wf(m) && m.running && 0 <= m.pc && m.pc + 2 < MEMORY
  }

  /** An opcode byte with no handler stops the machine and changes nothing
      else: not pc, not a register, not memory, not fl. */
  lemma UnknownOpcodeStops(m: Machine)
    requires ReadyToFetch(m) && Decode(m.ram[m.pc]).None?
    ensures Step(m) == Ok(m.(running := false))
    ensures Exec(m, 1) == Outcome(m.(running := false), Halted)
  {
  }

  /** HLT stops the machine without moving pc. */
  lemma HltStops(m: Machine, fuel: nat)
    requires ReadyToFetch(m) && m.ram[m.pc] == HLT && fuel > 0
    ensures Exec(m, fuel) == Outcome(m.(running := false), Halted)
  {
    assert Step(m) == Ok(m.(running := false));
    ExecStep(m, fuel);
  }

  /** LDI r v loads v into register r and moves pc past its three bytes;
      memory, fl and the other registers are unchanged. */
  lemma LdiEffect(m: Machine)
    requires ReadyToFetch(m) && m.ram[m.pc] == LDI && 0 <= m.ram[m.pc + 1] < REGISTERS
    ensures Step(m) == Ok(m.(reg := m.reg[m.ram[m.pc + 1] := m.ram[m.pc + 2]], pc := m.pc + 3))
  {
  }

  /** LDI r v immediately followed by PRN r prints v: two steps load the
      register, append v to the output and move pc past both instructions. */
  lemma LdiThenPrn(m: Machine, r: int, v: int)
    requires Wf(m) && m.running && 0 <= m.pc && m.pc + 5 < MEMORY
    requires 0 <= r < REGISTERS
    requires m.ram[m.pc] == LDI && m.ram[m.pc + 1] == r && m.ram[m.pc + 2] == v
    requires m.ram[m.pc + 3] == PRN && m.ram[m.pc + 4] == r
    ensures Exec(m, 2) == Outcome(m.(reg := m.reg[r := v], pc := m.pc + 5, out := m.out + [v]), OutOfFuel)
  {
    var m1 := m.(reg := m.reg[r := v], pc := m.pc + 3);
    assert Step(m) == Ok(m1);
    var m2 := m1.(pc := m.pc + 5, out := m.out + [v]);
    assert Step(m1) == Ok(m2);
  }

  /** PRN r appends register r to the output and moves pc past its two
      bytes; registers, memory and fl are unchanged. */
  lemma PrnEffect(m: Machine)
    requires ReadyToFetch(m) && m.ram[m.pc] == PRN && 0 <= m.ram[m.pc + 1] < REGISTERS
    ensures Step(m) == Ok(m.(out := m.out + [m.reg[m.ram[m.pc + 1]]], pc := m.pc + 2))
  {
  }

  /** ADD a b and MUL a b overwrite register a with the sum or the product
      of the two registers, with no reduction modulo 256; pc moves past
      their three bytes and nothing else changes. */
  lemma ArithEffect(m: Machine, a: int, b: int)
    requires ReadyToFetch(m) && (m.ram[m.pc] == ADD || m.ram[m.pc] == MUL)
    requires m.ram[m.pc + 1] == a && m.ram[m.pc + 2] == b
    requires 0 <= a < REGISTERS && 0 <= b < REGISTERS
    ensures Step(m) == Ok(m.(reg := m.reg[a := if m.ram[m.pc] == ADD then m.reg[a] + m.reg[b]
                                                                      else m.reg[a] * m.reg[b]],
                             pc := m.pc + 3))
  {
  }

  /** CMP a b overwrites fl with the comparison of the two registers and
      moves pc past its three bytes; registers and memory are unchanged. */
  lemma CmpEffect(m: Machine, a: int, b: int)
    requires ReadyToFetch(m) && m.ram[m.pc] == CMP
    requires m.ram[m.pc + 1] == a && m.ram[m.pc + 2] == b
    requires 0 <= a < REGISTERS && 0 <= b < REGISTERS
    ensures Step(m) == Ok(m.(fl := Compare(m.reg[a], m.reg[b]), pc := m.pc + 3))
    ensures Step(m).next.fl in {FL_LT, FL_GT, FL_EQ}
  {
  }

  /** LT and GT trade places when the operands do; EQ stays. */
  function Mirror(f: int): int {
    if f == FL_LT then FL_GT else if f == FL_GT then FL_LT else f
  }

  /** Comparing y with x gives the mirror image of comparing x with y. */
  lemma CompareSwap(x: int, y: int)
    ensures Compare(y, x) == Mirror(Compare(x, y))
    ensures Compare(x, y) == FL_EQ <==> Compare(y, x) == FL_EQ
  {
  }

  /** Two CMP instructions that differ only in the order of their operands
      leave mirrored flags. */
  lemma CmpOperandsSwapped(m: Machine, a: int, b: int)
    requires ReadyToFetch(m) && m.ram[m.pc] == CMP
    requires m.ram[m.pc + 1] == a && m.ram[m.pc + 2] == b
    requires 0 <= a < REGISTERS && 0 <= b < REGISTERS
    ensures var swapped := m.(ram := m.ram[m.pc + 1 := b][m.pc + 2 := a]);
            Step(swapped).Ok? && Step(m).Ok? &&
            Step(swapped).next.fl == Mirror(Step(m).next.fl)
  {
    var swapped := m.(ram := m.ram[m.pc + 1 := b][m.pc + 2 := a]);
    CmpEffect(m, a, b);
    CmpEffect(swapped, b, a);
    CompareSwap(m.reg[a], m.reg[b]);
  }

  /** Whether a jump instruction with opcode op transfers control when the
      flags register holds fl: JMP always, JEQ iff fl is exactly 1, JNE iff
      it is not. */
  predicate Taken(op: int, fl: int) {
    op == JMP || (op == JEQ && fl == FL_EQ) || (op == JNE && fl != FL_EQ)
  }

  /** JMP, JEQ and JNE r set pc to register r when taken and move pc past
      their two bytes otherwise; nothing but pc changes. */
  lemma JumpEffect(m: Machine)
    requires ReadyToFetch(m) && m.ram[m.pc] in {JMP, JEQ, JNE}
    requires 0 <= m.ram[m.pc + 1] < REGISTERS
    ensures Step(m) == Ok(m.(pc := if Taken(m.ram[m.pc], m.fl) then m.reg[m.ram[m.pc + 1]]
                                                                else m.pc + 2))
  {
  }

  /** PUSH r first sets SP to (SP - 1) & 0xff, then stores register r
      at the new SP and moves pc past its two bytes; for r other than SP
      the stored value is register r as it was. */
  lemma PushEffect(m: Machine, r: int)
    requires ReadyToFetch(m) && m.ram[m.pc] == PUSH && m.ram[m.pc + 1] == r
    requires 0 <= r < SP
    ensures var sp := LowByte(m.reg[SP] - 1);
            Step(m) == Ok(m.(reg := m.reg[SP := sp], ram := m.ram[sp := m.reg[r]], pc := m.pc + 2))
  {
  }

  /** POP r with SP inside memory loads register r from the cell at SP,
      then adds 1 to SP without wrapping, and moves pc past its two bytes;
      memory and fl are unchanged. */
  lemma PopEffect(m: Machine, r: int)
    requires ReadyToFetch(m) && m.ram[m.pc] == POP && m.ram[m.pc + 1] == r
    requires 0 <= r < REGISTERS && 0 <= m.reg[SP] < MEMORY
    ensures var reg1 := m.reg[r := m.ram[m.reg[SP]]];
            Step(m) == Ok(m.(reg := reg1[SP := reg1[SP] + 1], pc := m.pc + 2))
  {
  }

  /** RET with SP inside memory sets pc to the cell at SP and adds 1 to SP
      without wrapping; memory, fl and the other registers are unchanged. */
  lemma RetEffect(m: Machine)
    requires ReadyToFetch(m) && m.ram[m.pc] == RET && 0 <= m.reg[SP] < MEMORY
    ensures Step(m) == Ok(m.(reg := m.reg[SP := m.reg[SP] + 1], pc := m.ram[m.reg[SP]]))
  {
  }

  /** The value a PUSH r stores: register r, or the already decremented SP
      when r is SP itself. */
  function Pushed(m: Machine, r: int): int
    requires Wf(m) && 0 <= r < REGISTERS
  {
    if r == SP then LowByte(m.reg[SP] - 1) else m.reg[r]
  }

  /** PUSH r immediately followed by POP s, for s other than SP and SP
      between 1 and 256, copies the pushed value into register s and gives
      SP back its old value; the pushed cell keeps the value. The pushed
      cell must not be the POP instruction itself. */
  lemma PushThenPop(m: Machine, r: int, s: int)
    requires Wf(m) && m.running && 0 <= m.pc && m.pc + 4 < MEMORY
    requires 0 <= r < REGISTERS && 0 <= s < REGISTERS && s != SP
    requires m.ram[m.pc] == PUSH && m.ram[m.pc + 1] == r
    requires m.ram[m.pc + 2] == POP && m.ram[m.pc + 3] == s
    requires 1 <= m.reg[SP] <= MEMORY
    requires m.reg[SP] - 1 != m.pc + 2 && m.reg[SP] - 1 != m.pc + 3
    ensures var v := Pushed(m, r);
            Exec(m, 2) == Outcome(m.(reg := m.reg[s := v], ram := m.ram[m.reg[SP] - 1 := v],
                                     pc := m.pc + 4), OutOfFuel)
  {
    var sp := m.reg[SP];
    var v := Pushed(m, r);
    var m1 := m.(reg := m.reg[SP := sp - 1], ram := m.ram[sp - 1 := v], pc := m.pc + 2);
    assert Step(m) == Ok(m1);
    var m2 := m1.(reg := m.reg[s := v], pc := m.pc + 4);
    assert m1.reg[s := v][SP := sp] == m.reg[s := v];
    assert Step(m1) == Ok(m2);
  }

  /** At SP = 0 the pair does not restore SP: PUSH wraps it to 255, and
      POP, which does not wrap, leaves it at 256. */
  lemma PushThenPopFromZero(m: Machine, r: int, s: int)
    requires Wf(m) && m.running && 0 <= m.pc && m.pc + 4 < 255
    requires 0 <= r < REGISTERS && 0 <= s < REGISTERS && s != SP
    requires m.ram[m.pc] == PUSH && m.ram[m.pc + 1] == r
    requires m.ram[m.pc + 2] == POP && m.ram[m.pc + 3] == s
    requires m.reg[SP] == 0
    ensures Exec(m, 2).final.reg[SP] == MEMORY
    ensures Exec(m, 2).final.reg[s] == Pushed(m, r)
  {
    var v := Pushed(m, r);
    var m1 := m.(reg := m.reg[SP := 255], ram := m.ram[255 := v], pc := m.pc + 2);
    assert Step(m) == Ok(m1);
    var m2 := m1.(reg := m.reg[s := v][SP := 256], pc := m.pc + 4);
    assert Step(m1) == Ok(m2);
  }

  /** CALL r with SP between 1 and 256 stores pc + 2 just below SP,
      decrements SP and sets pc to register r; fl, the output and the other
      registers are unchanged. The return address must not overwrite the
      operand byte, which is read after it is stored. */
  lemma CallEffect(m: Machine, r: int)
    requires ReadyToFetch(m) && m.ram[m.pc] == CALL && m.ram[m.pc + 1] == r
    requires 0 <= r < SP
    requires 1 <= m.reg[SP] <= MEMORY && m.reg[SP] - 1 != m.pc + 1
    ensures Step(m) == Ok(m.(reg := m.reg[SP := m.reg[SP] - 1],
                             ram := m.ram[m.reg[SP] - 1 := m.pc + 2],
                             pc := m.reg[r]))
  {
  }

  /** CALL r followed by a RET at the called address resumes right after
      the CALL with every register, SP included, as it was before; the
      return address stays behind in the freed stack cell. */
  lemma CallThenRet(m: Machine, r: int)
    requires ReadyToFetch(m) && m.ram[m.pc] == CALL && m.ram[m.pc + 1] == r
    requires 0 <= r < SP
    requires 1 <= m.reg[SP] <= MEMORY && m.reg[SP] - 1 != m.pc + 1
    requires 0 <= m.reg[r] && m.reg[r] + 2 < MEMORY && m.reg[r] != m.reg[SP] - 1
    requires m.ram[m.reg[r]] == RET
    ensures Exec(m, 2) == Outcome(m.(ram := m.ram[m.reg[SP] - 1 := m.pc + 2], pc := m.pc + 2),
                                  OutOfFuel)
  {
    var sp := m.reg[SP];
    CallEffect(m, r);
    var m1 := Step(m).next;
    var m2 := m.(ram := m.ram[sp - 1 := m.pc + 2], pc := m.pc + 2);
    assert m1.reg[SP := sp] == m.reg;
    assert Step(m1) == Ok(m2);
  }

  // ---------------------------------------------------------------------
  // Bounded runs

  /** A running machine whose step completes runs on from the next state. */
  lemma ExecStep(m: Machine, fuel: nat)
    requires Wf(m) && m.running && fuel > 0 && Step(m).Ok?
    ensures Exec(m, fuel) == Exec(Step(m).next, fuel - 1)
  {
  }

  /** A run of a + b steps is a run of a steps followed, if it was cut off
      by the budget, by a run of b steps from where it stopped. */
  lemma {:induction false} ExecSplit(m: Machine, a: nat, b: nat)
    requires Wf(m)
    ensures var o := Exec(m, a);
            Exec(m, a + b) == if o.stop == OutOfFuel then Exec(o.final, b) else o
    decreases a
  {
    if m.running && a > 0 {
      match Step(m)
      case IndexError =>
      case Ok(next) =>
        ExecSplit(next, a - 1, b);
    }
  }

  /** A run that reaches mid with its budget of a steps used up goes on
      from mid with whatever budget is added. */
  lemma ExecChain(m: Machine, mid: Machine, a: nat, b: nat)
    requires Wf(m) && Exec(m, a) == Outcome(mid, OutOfFuel)
    ensures Exec(m, a + b) == Exec(mid, b)
  {
    ExecSplit(m, a, b);
  }

  /** A bounded run reports Halted exactly when it ends with `running`
      false: the budget and IndexError both stop it while still running. */
  lemma {:induction false} ExecHalted(m: Machine, fuel: nat)
    requires Wf(m)
    ensures Exec(m, fuel).stop == Halted <==> !Exec(m, fuel).final.running
    decreases fuel
  {
    if m.running && fuel > 0 {
      match Step(m)
      case IndexError =>
      case Ok(next) =>
        ExecHalted(next, fuel - 1);
    }
  }

  /** A machine whose `running` is false executes no step, whatever the
      budget: the `while self.running` test fails at once. */
  lemma NoStepWhenStopped(m: Machine, fuel: nat)
    requires Wf(m) && !m.running
    ensures Exec(m, fuel) == Outcome(m, Halted)
  {
  }

  /** Once a run has halted or crashed, a larger budget changes nothing:
      no step executes after `running` is false. */
  lemma ExecMoreFuel(m: Machine, a: nat, b: nat)
    requires Wf(m) && a <= b && Exec(m, a).stop != OutOfFuel
    ensures Exec(m, b) == Exec(m, a)
  {
    ExecSplit(m, a, b - a);
  }

  /** A step appends to the output at most: PRN adds exactly one value,
      every other handler leaves the output as it was. */
  lemma StepOutput(m: Machine)
    requires Wf(m) && Step(m).Ok?
    ensures var out := Step(m).next.out;
            if Fetchable(m) && At(m.ram, m.pc) == PRN then |out| == |m.out| + 1 && m.out <= out
            else out == m.out
  {
  }

  /** Over a whole run the output only grows: whatever was printed before
      is still a prefix of what has been printed when the run ends. */
  lemma {:induction false} ExecOutput(m: Machine, fuel: nat)
    requires Wf(m)
    ensures m.out <= Exec(m, fuel).final.out
    decreases fuel
  {
    if m.running && fuel > 0 {
      match Step(m)
      case IndexError =>
      case Ok(next) =>
        StepOutput(m);
        ExecOutput(next, fuel - 1);
    }
  }

  /** The output of a shorter run is a prefix of the output of a longer run
      from the same machine. */
  lemma {:induction false} OutputOnlyGrows(m: Machine, a: nat, b: nat)
    requires Wf(m) && a <= b
    ensures Exec(m, a).final.out <= Exec(m, b).final.out
  {
    ExecSplit(m, a, b - a);
    var o := Exec(m, a);
    if o.stop == OutOfFuel {
      ExecOutput(o.final, b - a);
    }
  }
}
