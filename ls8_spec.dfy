/** The LS-8 machine as values: the state held by a CPU object, what each
    opcode handler does to it, and what the fetch/dispatch loop does with
    a bounded number of steps.

    Cells and registers are unbounded integers: the handlers never reduce
    a sum or a product modulo 256, and CALL stores pc + 2, which may exceed
    255. Lists are indexed the way Python indexes them: an index i into a
    list of length n is accepted when -n <= i < n, and a negative one counts
    from the end; any other index raises IndexError, which ends the program. */
module Ls8Spec {

  /** Register 7 doubles as the stack pointer. */
  const SP: int := 7
  const REGISTERS: nat := 8
  const MEMORY: nat := 256
  /** Initial value of the stack pointer; the stack grows down from here. */
  const STACK_TOP: int := 0xF4

  // Opcode bytes (written in binary in the source).
  const LDI: int := 0x82   // 0b10000010
  const PRN: int := 0x47   // 0b01000111
  const HLT: int := 0x01   // 0b00000001
  const ADD: int := 0xA0   // 0b10100000
  const MUL: int := 0xA2   // 0b10100010
  const PUSH: int := 0x45  // 0b01000101
  const POP: int := 0x46   // 0b01000110
  const CALL: int := 0x50  // 0b01010000
  const RET: int := 0x11   // 0b00010001
  const CMP: int := 0xA7   // 0b10100111
  const JMP: int := 0x54   // 0b01010100
  const JEQ: int := 0x55   // 0b01010101
  const JNE: int := 0x56   // 0b01010110

  // Flag values written by CMP.
  const FL_LT: int := 0x04  // 0b00000100
  const FL_GT: int := 0x02  // 0b00000010
  const FL_EQ: int := 0x01  // 0b00000001

  // ---------------------------------------------------------------------
  // Python list indexing

  /** Python accepts i as an index into a list of length n. */
  predicate Fits(i: int, n: nat) {
    -(n as int) <= i < n
  }

  /** The position an accepted Python index denotes. */
  function Slot(i: int, n: nat): (k: nat)
    requires Fits(i, n)
    ensures k < n
    ensures 0 <= i ==> k == i
  {
    if i < 0 then i + n else i
  }

  /** `s[i]` in Python. */
  function At(s: seq<int>, i: int): int
    requires Fits(i, |s|)
  {
    s[Slot(i, |s|)]
  }

  /** `s[i] = v` in Python, as the list afterwards. */
  function Put(s: seq<int>, i: int, v: int): (t: seq<int>)
    requires Fits(i, |s|)
    ensures |t| == |s|
  {
    s[Slot(i, |s|) := v]
  }

  /** `x & 0xff` in Python, which for negative x too is x modulo 256. */
  function LowByte(x: int): (b: int)
    ensures 0 <= b < 256
    ensures (x - b) % 256 == 0
  {
    x % 256
  }

  // ---------------------------------------------------------------------
  // Machine state

  /** The fields of a CPU object; `out` is what PRN has printed so far. */
  datatype Machine = Machine(
    reg: seq<int>,
    ram: seq<int>,
    pc: int,
    fl: int,
    running: bool,
    out: seq<int>)

  /** Eight registers and 256 memory cells, as `__init__` allocates them. */
  predicate Wf(m: Machine) {
    |m.reg| == REGISTERS && |m.ram| == MEMORY
  }

  /** A handler either completes or raises IndexError. */
  datatype Result = Ok(next: Machine) | IndexError

  /** The state `__init__` builds: registers zero except SP, zeroed
      memory, pc and fl zero, running. */
  function Init(): (m: Machine)
    ensures Wf(m)
    ensures forall i :: 0 <= i < REGISTERS ==> m.reg[i] == if i == SP then STACK_TOP else 0
    ensures forall a :: 0 <= a < MEMORY ==> m.ram[a] == 0
    ensures m.pc == 0 && m.fl == 0 && m.running && m.out == []
  {
    Machine(seq(REGISTERS, i => if i == SP then STACK_TOP else 0),
            seq(MEMORY, _ => 0), 0, 0, true, [])
  }

  /** Memory after the loader has written the program's bytes at
      addresses 0, 1, 2, ...: the rest is left as it was. */
  function Load(m: Machine, program: seq<int>): (m': Machine)
    requires Wf(m) && |program| <= MEMORY
    ensures Wf(m')
    ensures forall a :: 0 <= a < |program| ==> m'.ram[a] == program[a]
    ensures forall a :: |program| <= a < MEMORY ==> m'.ram[a] == m.ram[a]
    ensures m' == m.(ram := m'.ram)
  {
    m.(ram := program + m.ram[|program|..])
  }

  // ---------------------------------------------------------------------
  // ALU

  /** The flag CMP leaves: exactly one of LT, GT, EQ, by the order of x and y.
      (The source tests `<`, then `>`, then `==`; the last test always holds
      once the first two have failed.) */
  function Compare(x: int, y: int): (f: int)
    ensures f == FL_LT <==> x < y
    ensures f == FL_GT <==> x > y
    ensures f == FL_EQ <==> x == y
  {
    if x < y then FL_LT else if x > y then FL_GT else FL_EQ
  }

  /** The operations `alu` supports; any other name raises in the source. */
  predicate AluOp(op: string) {
    op == "ADD" || op == "MUL" || op == "CMP"
  }

  /** `alu(op, a, b)`: ADD and MUL overwrite register a, CMP overwrites fl. */
  function Alu(m: Machine, op: string, a: int, b: int): (r: Result)
    requires Wf(m) && AluOp(op)
    ensures r.Ok? ==> Wf(r.next)
    ensures r.IndexError? <==> !Fits(a, REGISTERS) || !Fits(b, REGISTERS)
  {
    if !Fits(a, REGISTERS) || !Fits(b, REGISTERS) then IndexError
    else
      var x, y := At(m.reg, a), At(m.reg, b);
      if op == "ADD" then Ok(m.(reg := Put(m.reg, a, x + y)))
      else if op == "MUL" then Ok(m.(reg := Put(m.reg, a, x * y)))
      else Ok(m.(fl := Compare(x, y)))
  }

  // ---------------------------------------------------------------------
  // Opcode handlers, each reading and writing in the order the source does

  /** LDI r v: register r := v; pc += 3. */
  function LdiStep(m: Machine): (r: Result)
    requires Wf(m)
    ensures r.Ok? ==> Wf(r.next)
  {
    if !Fits(m.pc + 1, MEMORY) || !Fits(m.pc + 2, MEMORY) then IndexError
    else
      var reg_num, value := At(m.ram, m.pc + 1), At(m.ram, m.pc + 2);
      if !Fits(reg_num, REGISTERS) then IndexError
      else Ok(m.(reg := Put(m.reg, reg_num, value), pc := m.pc + 3))
  }

  /** PRN r: print register r; pc += 2. */
  function PrnStep(m: Machine): (r: Result)
    requires Wf(m)
    ensures r.Ok? ==> Wf(r.next)
  {
    if !Fits(m.pc + 1, MEMORY) then IndexError
    else
      var reg_num := At(m.ram, m.pc + 1);
      if !Fits(reg_num, REGISTERS) then IndexError
      else Ok(m.(out := m.out + [At(m.reg, reg_num)], pc := m.pc + 2))
  }

  /** HLT: stop; pc stays where it is. */
  function HltStep(m: Machine): (r: Result)
    requires Wf(m)
    ensures r.Ok? && Wf(r.next)
  {
    Ok(m.(running := false))
  }

  /** ADD, MUL and CMP a b: the ALU operation on registers a and b; pc += 3. */
  function AluStep(m: Machine, op: string): (r: Result)
    requires Wf(m) && AluOp(op)
    ensures r.Ok? ==> Wf(r.next)
  {
    if !Fits(m.pc + 1, MEMORY) || !Fits(m.pc + 2, MEMORY) then IndexError
    else
      match Alu(m, op, At(m.ram, m.pc + 1), At(m.ram, m.pc + 2))
      case IndexError => IndexError
      case Ok(m') => Ok(m'.(pc := m'.pc + 3))
  }

  /** PUSH r: SP := (SP - 1) & 0xff, then ram[SP] := register r; pc += 2.
      When r is SP itself, the decremented SP is what gets pushed. */
  function PushStep(m: Machine): (r: Result)
    requires Wf(m)
    ensures r.Ok? ==> Wf(r.next)
  {
    var sp := LowByte(m.reg[SP] - 1);
    var reg1 := m.reg[SP := sp];
    if !Fits(m.pc + 1, MEMORY) then IndexError
    else
      var reg_num := At(m.ram, m.pc + 1);
      if !Fits(reg_num, REGISTERS) then IndexError
      else Ok(m.(reg := reg1, ram := m.ram[sp := At(reg1, reg_num)], pc := m.pc + 2))
  }

  /** POP r: register r := ram[SP], then SP += 1 (no wrap-around); pc += 2.
      When r is SP itself, the popped value is then incremented. */
  function PopStep(m: Machine): (r: Result)
    requires Wf(m)
    ensures r.Ok? ==> Wf(r.next)
  {
    var address := m.reg[SP];
    if !Fits(address, MEMORY) then IndexError
    else
      var value := At(m.ram, address);
      if !Fits(m.pc + 1, MEMORY) then IndexError
      else
        var reg_num := At(m.ram, m.pc + 1);
        if !Fits(reg_num, REGISTERS) then IndexError
        else
          var reg1 := Put(m.reg, reg_num, value);
          Ok(m.(reg := reg1[SP := reg1[SP] + 1], pc := m.pc + 2))
  }

  /** CALL r: SP -= 1 (no wrap-around), ram[SP] := pc + 2, then pc := register r.
      The operand byte is read after the return address is written. */
  function CallStep(m: Machine): (r: Result)
    requires Wf(m)
    ensures r.Ok? ==> Wf(r.next)
  {
    var return_addr := m.pc + 2;
    var reg1 := m.reg[SP := m.reg[SP] - 1];
    var address := reg1[SP];
    if !Fits(address, MEMORY) then IndexError
    else
      var ram1 := Put(m.ram, address, return_addr);
      if !Fits(m.pc + 1, MEMORY) then IndexError
      else
        var reg_num := At(ram1, m.pc + 1);
        if !Fits(reg_num, REGISTERS) then IndexError
        else Ok(m.(reg := reg1, ram := ram1, pc := At(reg1, reg_num)))
  }

  /** RET: pc := ram[SP], then SP += 1 (no wrap-around). */
  function RetStep(m: Machine): (r: Result)
    requires Wf(m)
    ensures r.Ok? ==> Wf(r.next)
  {
    var address := m.reg[SP];
    if !Fits(address, MEMORY) then IndexError
    else Ok(m.(reg := m.reg[SP := address + 1], pc := At(m.ram, address)))
  }

  /** JMP r: pc := register r. */
  function JmpStep(m: Machine): (r: Result)
    requires Wf(m)
    ensures r.Ok? ==> Wf(r.next)
  {
    if !Fits(m.pc + 1, MEMORY) then IndexError
    else
      var reg_num := At(m.ram, m.pc + 1);
      if !Fits(reg_num, REGISTERS) then IndexError
      else Ok(m.(pc := At(m.reg, reg_num)))
  }

  /** JEQ r: jump as JMP does when fl is exactly 1, otherwise pc += 2. */
  function JeqStep(m: Machine): (r: Result)
    requires Wf(m)
    ensures r.Ok? ==> Wf(r.next)
  {
    if m.fl == FL_EQ then JmpStep(m) else Ok(m.(pc := m.pc + 2))
  }

  /** JNE r: pc += 2 when fl is exactly 1, otherwise jump as JMP does. */
  function JneStep(m: Machine): (r: Result)
    requires Wf(m)
    ensures r.Ok? ==> Wf(r.next)
  {
    if m.fl == FL_EQ then Ok(m.(pc := m.pc + 2)) else JmpStep(m)
  }

  // ---------------------------------------------------------------------
  // The branch table

  /** The instructions the branch table holds a handler for. */
  datatype Instr = Ldi | Prn | Hlt | Mul | Add | Push | Pop | Call | Ret | Cmp | Jmp | Jeq | Jne

  /** The opcode byte an instruction is registered under. */
  function Encode(i: Instr): int {
    match i
    case Ldi => LDI
    case Prn => PRN
    case Hlt => HLT
    case Mul => MUL
    case Add => ADD
    case Push => PUSH
    case Pop => POP
    case Call => CALL
    case Ret => RET
    case Cmp => CMP
    case Jmp => JMP
    case Jeq => JEQ
    case Jne => JNE
  }

  /** Lookup in the branch table: None for a byte with no handler. */
  function Decode(b: int): (r: Option<Instr>)
    ensures r.Some? ==> Encode(r.value) == b
  {
    match b
    case LDI => Some(Ldi)
    case PRN => Some(Prn)
    case HLT => Some(Hlt)
    case MUL => Some(Mul)
    case ADD => Some(Add)
    case PUSH => Some(Push)
    case POP => Some(Pop)
    case CALL => Some(Call)
    case RET => Some(Ret)
    case CMP => Some(Cmp)
    case JMP => Some(Jmp)
    case JEQ => Some(Jeq)
    case JNE => Some(Jne)
    case _ => None
  }

  datatype Option<T> = None | Some(value: T)

  /** Runs the handler registered for an instruction. */
  function Execute(i: Instr, m: Machine): (r: Result)
    requires Wf(m)
    ensures r.Ok? ==> Wf(r.next)
  {
    match i
    case Ldi => LdiStep(m)
    case Prn => PrnStep(m)
    case Hlt => HltStep(m)
    case Mul => AluStep(m, "MUL")
    case Add => AluStep(m, "ADD")
    case Push => PushStep(m)
    case Pop => PopStep(m)
    case Call => CallStep(m)
    case Ret => RetStep(m)
    case Cmp => AluStep(m, "CMP")
    case Jmp => JmpStep(m)
    case Jeq => JeqStep(m)
    case Jne => JneStep(m)
  }

  // ---------------------------------------------------------------------
  // The fetch/dispatch loop

  /** `ram_read(pc)` reads ram[pc + 1] and ram[pc + 2] as well as ram[pc]. */
  predicate Fetchable(m: Machine) {
    Fits(m.pc, MEMORY) && Fits(m.pc + 1, MEMORY) && Fits(m.pc + 2, MEMORY)
  }

  /** One iteration of the body of `run`: fetch the byte at pc, then either
      run its handler or, for a byte with no handler, clear `running`. */
  function Step(m: Machine): (r: Result)
    requires Wf(m)
    ensures r.Ok? ==> Wf(r.next)
  {
    if !Fetchable(m) then IndexError
    else
      match Decode(At(m.ram, m.pc))
      case None => Ok(m.(running := false))
      case Some(i) => Execute(i, m)
  }

  /** Why a bounded run ended: `running` became false, the step budget ran
      out while still running, or a step raised IndexError. */
  datatype Stop = Halted | OutOfFuel | Crashed

  /** The machine where a bounded run ended, and why. After a crash, the
      machine is the one whose step raised. */
  datatype Outcome = Outcome(final: Machine, stop: Stop)

  /** `run` with at most `fuel` iterations of its `while self.running` loop. */
  function Exec(m: Machine, fuel: nat): (o: Outcome)
    requires Wf(m)
    ensures Wf(o.final)
    decreases fuel, 1
  {
    if !m.running then Outcome(m, Halted)
    else if fuel == 0 then Outcome(m, OutOfFuel)
    else Cycle(m, fuel)
  }

  /** One iteration of that loop, and the rest of the run after it. */
  function Cycle(m: Machine, fuel: nat): (o: Outcome)
    requires Wf(m) && m.running && fuel > 0
    ensures Wf(o.final)
    decreases fuel, 0
  {
    match Step(m)
    case IndexError => Outcome(m, Crashed)
    case Ok(next) => Exec(next, fuel - 1)
  }
}
