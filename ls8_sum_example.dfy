/** A whole LS-8 program run end to end: the program loads n into R0,
    counts R2 up from 0 to n, adds each count to R1, loops with CMP and
    JNE while R2 differs from R0, then prints R1 and halts. For every
    n >= 1 it prints 1 + 2 + ... + n, which is n(n + 1)/2. */
module Ls8SumExample {
  import opened Ls8Spec
  import opened Ls8Properties
  import opened Ls8Cpu

  /** The reference computation: 0 + 1 + ... + k. */
  function Sum(k: nat): nat {
    if k == 0 then 0 else k + Sum(k - 1)
  }

  lemma {:induction false} SumClosedForm(k: nat)
    ensures 2 * Sum(k) == k * (k + 1)
  {
    if k > 0 {
      SumClosedForm(k - 1);
    }
  }

  /** Address of the loop body, and of the PRN after the loop. */
  const LOOP: int := 15
  const AFTER: int := 26

  /** The program, 29 bytes long. */
  function SumProgram(n: int): seq<int> {
    seq(29, a => ProgramByte(n, a))
  }

  /** The program's byte at address a. */
  function ProgramByte(n: int, a: int): int {
    match a
    case 0 => LDI  case 1 => 0  case 2 => n        //  0: R0 := n
    case 3 => LDI  case 4 => 1  case 5 => 0        //  3: R1 := 0, the running sum
    case 6 => LDI  case 7 => 2  case 8 => 0        //  6: R2 := 0, the counter
    case 9 => LDI  case 10 => 3  case 11 => 1      //  9: R3 := 1
    case 12 => LDI  case 13 => 4  case 14 => LOOP  // 12: R4 := address of the loop
    case 15 => ADD  case 16 => 2  case 17 => 3     // 15: R2 := R2 + 1
    case 18 => ADD  case 19 => 1  case 20 => 2     // 18: R1 := R1 + R2
    case 21 => CMP  case 22 => 2  case 23 => 0     // 21: compare R2 with R0
    case 24 => JNE  case 25 => 4                   // 24: back to 15 unless equal
    case 26 => PRN  case 27 => 1                   // 26: print R1
    case _ => HLT                                  // 28
  }

  /** Memory holding the program from address 0 on. */
  predicate Loaded(ram: seq<int>, n: int) {
    |ram| == MEMORY
    && ram[0] == LDI && ram[1] == 0 && ram[2] == n
    && ram[3] == LDI && ram[4] == 1 && ram[5] == 0
    && ram[6] == LDI && ram[7] == 2 && ram[8] == 0
    && ram[9] == LDI && ram[10] == 3 && ram[11] == 1
    && ram[12] == LDI && ram[13] == 4 && ram[14] == LOOP
    && ram[15] == ADD && ram[16] == 2 && ram[17] == 3
    && ram[18] == ADD && ram[19] == 1 && ram[20] == 2
    && ram[21] == CMP && ram[22] == 2 && ram[23] == 0
    && ram[24] == JNE && ram[25] == 4 && ram[26] == PRN
    && ram[27] == 1 && ram[28] == HLT
  }

  /** A fresh machine with the program loaded. */
  function Boot(n: int): (m: Machine)
    ensures Wf(m) && Loaded(m.ram, n)
    ensures m == Machine([0, 0, 0, 0, 0, 0, 0, STACK_TOP], m.ram, 0, 0, true, [])
  {
    var p := SumProgram(n);
    var m := Load(Init(), p);
    assert m.reg == [0, 0, 0, 0, 0, 0, 0, STACK_TOP];
    m
  }

  /** The machine at the loop's entry after k passes, with flags f. */
  function Head(ram: seq<int>, n: int, k: nat, f: int): (m: Machine)
    requires |ram| == MEMORY
    ensures Wf(m)
  {
    Machine([n, Sum(k), k, 1, LOOP, 0, 0, STACK_TOP], ram, LOOP, f, true, [])
  }

  /** The machine when the loop exits, at the PRN. */
  function Done(ram: seq<int>, n: nat): (m: Machine)
    requires |ram| == MEMORY
    ensures Wf(m)
  {
    Head(ram, n, n, FL_EQ).(pc := AFTER)
  }

  /** The five LDIs set up R0 to R4 and reach the loop. */
  lemma Setup(m: Machine, n: int, fuel: nat)
    requires Loaded(m.ram, n)
    requires m == Machine([0, 0, 0, 0, 0, 0, 0, STACK_TOP], m.ram, 0, 0, true, [])
    requires fuel >= 5
    ensures Exec(m, fuel) == Exec(Head(m.ram, n, 0, 0), fuel - 5)
  {
    LdiEffect(m);
    var m1 := m.(reg := m.reg[0 := n], pc := 3);
    ExecStep(m, fuel);
    LdiEffect(m1);
    var m2 := m1.(reg := m1.reg[1 := 0], pc := 6);
    ExecStep(m1, fuel - 1);
    LdiEffect(m2);
    var m3 := m2.(reg := m2.reg[2 := 0], pc := 9);
    ExecStep(m2, fuel - 2);
    LdiEffect(m3);
    var m4 := m3.(reg := m3.reg[3 := 1], pc := 12);
    ExecStep(m3, fuel - 3);
    LdiEffect(m4);
    assert m4.reg[4 := LOOP] == [n, 0, 0, 1, LOOP, 0, 0, STACK_TOP];
    ExecStep(m4, fuel - 4);
  }

  /** The machine at the JNE after k passes and the three instructions of
      the next one. */
  function AtJne(ram: seq<int>, n: int, k: nat): (m: Machine)
    requires |ram| == MEMORY
    ensures Wf(m)
  {
    Machine([n, Sum(k + 1), k + 1, 1, LOOP, 0, 0, STACK_TOP], ram, 24, Compare(k + 1, n), true, [])
  }

  /** ADD, ADD, CMP: R2 counts up, R1 gains the new count, fl compares
      the count with n. */
  lemma PassBody(ram: seq<int>, n: int, k: nat, f: int, fuel: nat)
    requires Loaded(ram, n) && fuel >= 3
    ensures Exec(Head(ram, n, k, f), fuel) == Exec(AtJne(ram, n, k), fuel - 3)
  {
    var h := Head(ram, n, k, f);
    ArithEffect(h, 2, 3);
    var m1 := Machine([n, Sum(k), k + 1, 1, LOOP, 0, 0, STACK_TOP], ram, 18, f, true, []);
    assert Step(h) == Ok(m1);
    ExecStep(h, fuel);
    ArithEffect(m1, 1, 2);
    var m2 := Machine([n, Sum(k + 1), k + 1, 1, LOOP, 0, 0, STACK_TOP], ram, 21, f, true, []);
    assert Step(m1) == Ok(m2);
    ExecStep(m1, fuel - 1);
    CmpEffect(m2, 2, 0);
    assert Step(m2) == Ok(AtJne(ram, n, k));
    ExecStep(m2, fuel - 2);
  }

  /** JNE returns to the loop's entry while the count is below n, and
      falls through to the PRN once it reaches n. */
  lemma PassBranch(ram: seq<int>, n: int, k: nat, fuel: nat)
    requires Loaded(ram, n) && k < n && fuel >= 1
    ensures Exec(AtJne(ram, n, k), fuel) ==
            Exec(if k + 1 < n then Head(ram, n, k + 1, FL_LT) else Done(ram, n), fuel - 1)
  {
    var m := AtJne(ram, n, k);
    JumpEffect(m);
    ExecStep(m, fuel);
  }

  /** One pass through the loop: back at the entry with one more count
      while the count is below n, at the PRN once it reaches n. */
  lemma Pass(ram: seq<int>, n: int, k: nat, f: int, fuel: nat)
    requires Loaded(ram, n) && k < n && fuel >= 4
    ensures k + 1 < n ==> Exec(Head(ram, n, k, f), fuel) == Exec(Head(ram, n, k + 1, FL_LT), fuel - 4)
    ensures k + 1 == n ==> Exec(Head(ram, n, k, f), fuel) == Exec(Done(ram, n), fuel - 4)
  {
    PassBody(ram, n, k, f, fuel);
    PassBranch(ram, n, k, fuel - 3);
  }

  /** From the loop's entry after k passes, the remaining n - k passes end
      at the PRN with R1 holding Sum(n). */
  lemma {:induction false} LoopFrom(ram: seq<int>, n: int, k: nat, f: int, fuel: nat)
    requires Loaded(ram, n) && k < n && fuel >= 4 * (n - k)
    ensures Exec(Head(ram, n, k, f), fuel) == Exec(Done(ram, n), fuel - 4 * (n - k))
    decreases n - k
  {
    Pass(ram, n, k, f, fuel);
    if k + 1 < n {
      LoopFrom(ram, n, k + 1, FL_LT, fuel - 4);
      assert fuel - 4 - 4 * (n - (k + 1)) == fuel - 4 * (n - k);
    }
  }

  /** The final machine: Sum(n) printed, halted at the HLT. */
  function Final(ram: seq<int>, n: nat): (m: Machine)
    requires |ram| == MEMORY
    ensures Wf(m)
  {
    Done(ram, n).(pc := AFTER + 2, out := [Sum(n)], running := false)
  }

  /** PRN R1 prints the sum, and HLT stops. */
  lemma Finish(ram: seq<int>, n: nat, fuel: nat)
    requires Loaded(ram, n) && fuel >= 2
    ensures Exec(Done(ram, n), fuel) == Outcome(Final(ram, n), Halted)
  {
    var d := Done(ram, n);
    var m1 := d.(out := [Sum(n)], pc := AFTER + 2);
    assert Step(d) == Ok(m1);
    ExecStep(d, fuel);
    assert Step(m1) == Ok(Final(ram, n));
    ExecStep(m1, fuel - 1);
  }

  /** From a freshly constructed machine holding the program, for n >= 1,
      the run halts after 4n + 7 steps having printed Sum(n) alone; a
      larger budget changes nothing. */
  lemma RunFromStart(m: Machine, n: nat, fuel: nat)
    requires Loaded(m.ram, n) && n >= 1 && fuel >= 4 * n + 7
    requires m == Machine([0, 0, 0, 0, 0, 0, 0, STACK_TOP], m.ram, 0, 0, true, [])
    ensures Exec(m, fuel) == Outcome(Final(m.ram, n), Halted)
  {
    Setup(m, n, fuel);
    LoopFrom(m.ram, n, 0, 0, fuel - 5);
    Finish(m.ram, n, fuel - 5 - 4 * n);
  }

  /** For n >= 1 the program halts, having printed exactly one value,
      n(n + 1)/2, once the budget reaches 4n + 7 steps. */
  lemma SumProgramPrintsSum(n: nat, fuel: nat)
    requires n >= 1 && fuel >= 4 * n + 7
    ensures Exec(Boot(n), fuel).stop == Halted
    ensures Exec(Boot(n), fuel).final.out == [n * (n + 1) / 2]
  {
    RunFromStart(Boot(n), n, fuel);
    SumClosedForm(n);
  }

  /** What running the program on a CPU object prints: construct, load,
      run until the machine stops. */
  method RunSumProgram(n: nat) returns (printed: seq<int>, stop: Stop)
    requires n >= 1
    ensures stop == Halted
    ensures printed == [n * (n + 1) / 2]
  {
    var cpu := new CPU();
    cpu.Load(SumProgram(n));
    assert cpu.Snapshot() == Boot(n);
    stop := cpu.Run(4 * n + 7);
    SumProgramPrintsSum(n, 4 * n + 7);
    printed := cpu.output;
  }
}
