/** The LS-8 CPU object: register file and memory as arrays updated in
    place, pc, fl and running as fields, and the output PRN prints. Every
    method is proved to leave the object in the state the corresponding
    function of Ls8Spec computes; a handler that would raise IndexError
    reports it by returning false and changes nothing. */
module Ls8Cpu {
  import opened Ls8Spec

  class CPU {
    const reg: array<int>
    const ram: array<int>
    var pc: int
    var fl: int
    var running: bool
    /** Every value PRN has printed, in order. */
    var output: seq<int>

    ghost predicate Valid() {
      reg.Length == REGISTERS && ram.Length == MEMORY
    }

    /** The object's state as a value. */
    ghost function Snapshot(): (m: Machine)
      requires Valid()
      reads this, reg, ram
      ensures Wf(m)
    {
      Machine(reg[..], ram[..], pc, fl, running, output)
    }

    /** `__init__`: registers zero except SP = 0xF4, 256 zeroed cells,
        pc = 0, fl = 0, running. */
    constructor ()
      ensures Valid() && fresh(reg) && fresh(ram)
      ensures reg[..] == [0, 0, 0, 0, 0, 0, 0, 0xF4]
      ensures forall a :: 0 <= a < MEMORY ==> ram[a] == 0
      ensures pc == 0 && fl == 0 && running && output == []
      ensures Snapshot() == Init()
    {
      var r := new int[REGISTERS](_ => 0);
      r[SP] := STACK_TOP;
      reg := r;
      ram := new int[MEMORY](_ => 0);
      pc := 0;
      running := true;
      fl := 0;
      output := [];
      new;
      assert reg[..] == Init().reg;
      assert ram[..] == Init().ram;
    }

    /** The memory-writing part of `load`: successive bytes of an already
        parsed program go to addresses 0, 1, 2, ... A program longer than
        memory makes the source raise IndexError. */
    method Load(program: seq<int>)
      requires Valid() && |program| <= MEMORY
      modifies ram
      ensures Snapshot() == Ls8Spec.Load(old(Snapshot()), program)
    {
      var address := 0;
      while address < |program|
        invariant 0 <= address <= |program|
        invariant forall a :: 0 <= a < address ==> ram[a] == program[a]
        invariant forall a :: address <= a < MEMORY ==> ram[a] == old(ram[a])
      {
        ram[address] := program[address];
        address := address + 1;
      }
      assert ram[..] == program + old(ram[..])[|program|..];
    }

    /** `ram_read(mar)`: the cell at mar. It also reads the two cells after
        pc, so it raises IndexError unless they exist. */
    method RamRead(mar: int) returns (mdr: int)
      requires Valid()
      requires Fits(pc + 1, MEMORY) && Fits(pc + 2, MEMORY) && Fits(mar, MEMORY)
      ensures mdr == At(ram[..], mar)
    {
      mdr := ram[Slot(mar, MEMORY)];
    }

    /** `ram_write(mdr, mar)`: store mdr at mar. */
    method RamWrite(mdr: int, mar: int)
      requires Valid() && Fits(mar, MEMORY)
      modifies ram
      ensures ram[..] == Put(old(ram[..]), mar, mdr)
    {
      ram[Slot(mar, MEMORY)] := mdr;
    }

    /** `alu(op, reg_a, reg_b)`. */
    method Alu(op: string, a: int, b: int) returns (ok: bool)
      requires Valid() && AluOp(op)
      modifies this, reg
      ensures ok == Ls8Spec.Alu(old(Snapshot()), op, a, b).Ok?
      ensures Snapshot() == if ok then Ls8Spec.Alu(old(Snapshot()), op, a, b).next else old(Snapshot())
    {
      if !Fits(a, REGISTERS) || !Fits(b, REGISTERS) {
        return false;
      }
      var x, y := reg[Slot(a, REGISTERS)], reg[Slot(b, REGISTERS)];
      if op == "ADD" {
        reg[Slot(a, REGISTERS)] := x + y;
      } else if op == "MUL" {
        reg[Slot(a, REGISTERS)] := x * y;
      } else if x < y {
        fl := FL_LT;
      } else if x > y {
        fl := FL_GT;
      } else if x == y {
        fl := FL_EQ;
      }
      ok := true;
    }

    method OpLdi() returns (ok: bool)
      requires Valid()
      modifies this, reg
      ensures ok == LdiStep(old(Snapshot())).Ok?
      ensures Snapshot() == if ok then LdiStep(old(Snapshot())).next else old(Snapshot())
    {
      if !Fits(pc + 1, MEMORY) || !Fits(pc + 2, MEMORY) {
        return false;
      }
      var reg_num := ram[Slot(pc + 1, MEMORY)];
      var value := ram[Slot(pc + 2, MEMORY)];
      if !Fits(reg_num, REGISTERS) {
        return false;
      }
      reg[Slot(reg_num, REGISTERS)] := value;
      pc := pc + 3;
      ok := true;
    }

    method OpPrn() returns (ok: bool)
      requires Valid()
      modifies this
      ensures ok == PrnStep(old(Snapshot())).Ok?
      ensures Snapshot() == if ok then PrnStep(old(Snapshot())).next else old(Snapshot())
    {
      if !Fits(pc + 1, MEMORY) {
        return false;
      }
      var reg_num := ram[Slot(pc + 1, MEMORY)];
      if !Fits(reg_num, REGISTERS) {
        return false;
      }
      output := output + [reg[Slot(reg_num, REGISTERS)]];
      pc := pc + 2;
      ok := true;
    }

    method OpHlt() returns (ok: bool)
      requires Valid()
      modifies this
      ensures ok == HltStep(old(Snapshot())).Ok?
      ensures Snapshot() == if ok then HltStep(old(Snapshot())).next else old(Snapshot())
    {
      running := false;
      ok := true;
    }

    /** The shared body of `op_ADD`, `op_MUL` and `op_CMP`. */
    method AluInstruction(op: string) returns (ok: bool)
      requires Valid() && AluOp(op)
      modifies this, reg
      ensures ok == AluStep(old(Snapshot()), op).Ok?
      ensures Snapshot() == if ok then AluStep(old(Snapshot()), op).next else old(Snapshot())
    {
      if !Fits(pc + 1, MEMORY) || !Fits(pc + 2, MEMORY) {
        return false;
      }
      var reg_a := ram[Slot(pc + 1, MEMORY)];
      var reg_b := ram[Slot(pc + 2, MEMORY)];
      ok := Alu(op, reg_a, reg_b);
      if ok {
        pc := pc + 3;
      }
    }

    method OpAdd() returns (ok: bool)
      requires Valid()
      modifies this, reg
      ensures ok == AluStep(old(Snapshot()), "ADD").Ok?
      ensures Snapshot() == if ok then AluStep(old(Snapshot()), "ADD").next else old(Snapshot())
    {
      ok := AluInstruction("ADD");
    }

    method OpMul() returns (ok: bool)
      requires Valid()
      modifies this, reg
      ensures ok == AluStep(old(Snapshot()), "MUL").Ok?
      ensures Snapshot() == if ok then AluStep(old(Snapshot()), "MUL").next else old(Snapshot())
    {
      ok := AluInstruction("MUL");
    }

    method OpCmp() returns (ok: bool)
      requires Valid()
      modifies this, reg
      ensures ok == AluStep(old(Snapshot()), "CMP").Ok?
      ensures Snapshot() == if ok then AluStep(old(Snapshot()), "CMP").next else old(Snapshot())
    {
      ok := AluInstruction("CMP");
    }

    method OpPush() returns (ok: bool)
      requires Valid()
      modifies this, reg, ram
      ensures ok == PushStep(old(Snapshot())).Ok?
      ensures Snapshot() == if ok then PushStep(old(Snapshot())).next else old(Snapshot())
    {
      // The source decrements SP before it reads the operand; the check
      // comes first here so that a failing handler changes nothing.
      if !Fits(pc + 1, MEMORY) || !Fits(ram[Slot(pc + 1, MEMORY)], REGISTERS) {
        return false;
      }
      reg[SP] := reg[SP] - 1;
      reg[SP] := LowByte(reg[SP]);
      var reg_num := ram[Slot(pc + 1, MEMORY)];
      var value := reg[Slot(reg_num, REGISTERS)];
      var address_to_push := reg[SP];
      ram[address_to_push] := value;
      pc := pc + 2;
      ok := true;
    }

    method OpPop() returns (ok: bool)
      requires Valid()
      modifies this, reg
      ensures ok == PopStep(old(Snapshot())).Ok?
      ensures Snapshot() == if ok then PopStep(old(Snapshot())).next else old(Snapshot())
    {
      var address_to_pop := reg[SP];
      if !Fits(address_to_pop, MEMORY) || !Fits(pc + 1, MEMORY) {
        return false;
      }
      var value := ram[Slot(address_to_pop, MEMORY)];
      var reg_num := ram[Slot(pc + 1, MEMORY)];
      if !Fits(reg_num, REGISTERS) {
        return false;
      }
      reg[Slot(reg_num, REGISTERS)] := value;
      reg[SP] := reg[SP] + 1;
      pc := pc + 2;
      ok := true;
    }

    method OpCall() returns (ok: bool)
      requires Valid()
      modifies this, reg, ram
      ensures ok == CallStep(old(Snapshot())).Ok?
      ensures Snapshot() == if ok then CallStep(old(Snapshot())).next else old(Snapshot())
    {
      var return_addr := pc + 2;
      var address_to_push := reg[SP] - 1;
      if !Fits(address_to_push, MEMORY) || !Fits(pc + 1, MEMORY) {
        return false;
      }
      // The operand is read after the return address is stored, so a
      // store over pc + 1 changes which register is read.
      var reg_num := if Slot(pc + 1, MEMORY) == Slot(address_to_push, MEMORY)
                     then return_addr else ram[Slot(pc + 1, MEMORY)];
      if !Fits(reg_num, REGISTERS) {
        return false;
      }
      reg[SP] := address_to_push;
      ram[Slot(address_to_push, MEMORY)] := return_addr;
      pc := reg[Slot(reg_num, REGISTERS)];
      ok := true;
    }

    method OpRet() returns (ok: bool)
      requires Valid()
      modifies this, reg
      ensures ok == RetStep(old(Snapshot())).Ok?
      ensures Snapshot() == if ok then RetStep(old(Snapshot())).next else old(Snapshot())
    {
      var address_to_pop := reg[SP];
      if !Fits(address_to_pop, MEMORY) {
        return false;
      }
      var return_addr := ram[Slot(address_to_pop, MEMORY)];
      reg[SP] := reg[SP] + 1;
      pc := return_addr;
      ok := true;
    }

    method OpJmp() returns (ok: bool)
      requires Valid()
      modifies this
      ensures ok == JmpStep(old(Snapshot())).Ok?
      ensures Snapshot() == if ok then JmpStep(old(Snapshot())).next else old(Snapshot())
    {
      if !Fits(pc + 1, MEMORY) {
        return false;
      }
      var reg_num := ram[Slot(pc + 1, MEMORY)];
      if !Fits(reg_num, REGISTERS) {
        return false;
      }
      pc := reg[Slot(reg_num, REGISTERS)];
      ok := true;
    }

    method OpJeq() returns (ok: bool)
      requires Valid()
      modifies this
      ensures ok == JeqStep(old(Snapshot())).Ok?
      ensures Snapshot() == if ok then JeqStep(old(Snapshot())).next else old(Snapshot())
    {
      if fl == FL_EQ {
        ok := OpJmp();
      } else {
        pc := pc + 2;
        ok := true;
      }
    }

    method OpJne() returns (ok: bool)
      requires Valid()
      modifies this
      ensures ok == JneStep(old(Snapshot())).Ok?
      ensures Snapshot() == if ok then JneStep(old(Snapshot())).next else old(Snapshot())
    {
      if fl == FL_EQ {
        pc := pc + 2;
        ok := true;
      } else {
        ok := OpJmp();
      }
    }

    /** One iteration of the `run` loop: fetch, then dispatch through the
        branch table or stop on a byte it has no handler for. */
    method Step() returns (ok: bool)
      requires Valid()
      modifies this, reg, ram
      ensures ok == Ls8Spec.Step(old(Snapshot())).Ok?
      ensures Snapshot() == if ok then Ls8Spec.Step(old(Snapshot())).next else old(Snapshot())
    {
      if !(Fits(pc, MEMORY) && Fits(pc + 1, MEMORY) && Fits(pc + 2, MEMORY)) {
        return false;
      }
      var instruction := RamRead(pc);
      match Decode(instruction)
      case None =>
        running := false;
        ok := true;
      case Some(i) =>
        match i
        case Ldi => ok := OpLdi();
        case Prn => ok := OpPrn();
        case Hlt => ok := OpHlt();
        case Mul => ok := OpMul();
        case Add => ok := OpAdd();
        case Push => ok := OpPush();
        case Pop => ok := OpPop();
        case Call => ok := OpCall();
        case Ret => ok := OpRet();
        case Cmp => ok := OpCmp();
        case Jmp => ok := OpJmp();
        case Jeq => ok := OpJeq();
        case Jne => ok := OpJne();
    }

    /** `run`, cut off after `fuel` iterations: loop while running, and
        report why the loop ended. */
    method Run(fuel: nat) returns (stop: Stop)
      requires Valid()
      modifies this, reg, ram
      ensures Exec(old(Snapshot()), fuel) == Outcome(Snapshot(), stop)
    {
      var remaining: nat := fuel;
      while running && remaining > 0
        invariant Exec(Snapshot(), remaining) == Exec(old(Snapshot()), fuel)
      {
        ghost var before := Snapshot();
        var ok := Step();
        if !ok {
          assert Exec(before, remaining) == Outcome(before, Crashed);
          return Crashed;
        }
        remaining := remaining - 1;
      }
      stop := if running then OutOfFuel else Halted;
    }
  }
}
