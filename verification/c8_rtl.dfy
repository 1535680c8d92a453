/**
 The single-cycle C8 hardware (`cpu.v`, `alu.v`): decode signals and clocked updates,
 and exactly when one clock of it matches one step of the simulator.
 */
module C8Rtl {
  import opened C8Sim

  // ---- The ALU: operands and a nine-bit intermediate ------------------------------------

  function Bit(a: nat, k: nat): bool
    requires k == 0 || k == 7 || k == 8
  {
    (if k == 0 then a else if k == 7 then a / 128 else a / 256) % 2 == 1
  }

  function AluFlags(r: Byte, c: bool, v: bool): Flags {
    Flags(r == 0, Bit(r, 7), c, v)
  }

  function Sum(a: Byte, b: Byte): Out {
    var wide := (a + b) % 512;
    var r := wide % 256;
    Out(r, AluFlags(r, Bit(wide, 8),
      (!Bit(a, 7) && !Bit(b, 7) && Bit(r, 7)) || (Bit(a, 7) && Bit(b, 7) && !Bit(r, 7))))
  }

  function Difference(a: Byte, b: Byte): Out {
    var wide := (a - b) % 512;
    var r := wide % 256;
    Out(r, AluFlags(r, Bit(wide, 8),
      (Bit(a, 7) && !Bit(b, 7) && !Bit(r, 7)) || (!Bit(a, 7) && Bit(b, 7) && Bit(r, 7))))
  }

  /** Function code 3 passes the operand and leaves the carry flag alone. */
  function Shift(fn: nat, a: Byte, flags: Flags): Out {
    match fn % 4
    case 0 => var r := a * 2 % 256; Out(r, AluFlags(r, Bit(a, 7), false))
    case 1 => var r := a / 2; Out(r, AluFlags(r, Bit(a, 0), false))
    case 2 => var r := a % 2 * 128 + a / 2; Out(r, AluFlags(r, Bit(a, 0), false))
    case _ => Out(a, AluFlags(a, flags.c, false))
  }

  function Alu(op: nat, fn: nat, a: Byte, b: Byte, flags: Flags): Out {
    match op
    case 1 => Sum(a, b)
    case 2 => Difference(a, b)
    case 3 => var r := And8(a, b); Out(r, AluFlags(r, false, false))
    case 4 => var r := Or8(a, b); Out(r, AluFlags(r, false, false))
    case 5 => var r := Xor8(a, b); Out(r, AluFlags(r, false, false))
    case 6 => Shift(fn, a, flags)
    case 7 => Difference(a, b)
    case 8 => Out(b, AluFlags(b, false, false))
    case _ => Out(a, flags)
  }

  // ---- Decode ------------------------------------------------------------------------------

  /** The signals of the combinational block. */
  datatype Signals = Signals(pcNext: Byte, spNext: Byte, rfWrite: bool, rfData: Byte,
                             dmWrite: bool, dmAddr: Byte, dmData: Byte, flagUpdate: bool)

  /** Six bits sign-extended to eight. */
  function Imm6(insn: Word): Byte {
    if insn / 32 % 2 == 1 then 192 + insn % 64 else insn % 64
  }

  function DmAddr(c: Cpu, insn: Word, a: Byte): Byte {
    match insn / 4096
    case 9 => (a + Imm6(insn)) % 256
    case 10 => (a + Imm6(insn)) % 256
    case 13 => c.sp
    case 14 => (c.sp + 1) % 256
    case _ => 0
  }

  function Control(c: Cpu, insn: Word): Signals {
    hide And8, Or8, Xor8, Sum, Difference, Shift, Taken;
    var op := insn / 4096;
    var a := ReadReg(c.regs, insn / 64 % 8);
    var b := ReadReg(c.regs, insn / 8 % 8);
    var out := Alu(op, insn % 8, a, if op == 8 then insn % 256 else b, c.flags);
    var addr := DmAddr(c, insn, a);
    var read := c.dmem[addr];
    var idle := Signals((c.pc + 1) % 256, c.sp, false, 0, false, addr, 0, false);
    if c.halted then idle
    else
      match op
      case 0 => idle
      case 7 => idle.(flagUpdate := true)
      case 8 => idle.(rfWrite := true, rfData := insn % 256)
      case 9 => idle.(rfWrite := true, rfData := read)
      case 10 => idle.(dmWrite := true, dmData := b)
      case 11 =>
        if Taken(c.flags, insn / 512 % 8)
        then idle.(pcNext := (c.pc + insn % 256) % 256) else idle
      case 12 => idle.(pcNext := insn % 256)
      case 13 => idle.(dmWrite := true, dmData := (c.pc + 1) % 256,
                       spNext := (c.sp - 1) % 256, pcNext := insn % 256)
      case 14 => idle.(spNext := (c.sp + 1) % 256, pcNext := read)
      case 15 => idle.(pcNext := c.pc)
      case _ => idle.(rfWrite := true, rfData := out.r, flagUpdate := true)
  }

  /** One rising edge out of reset. */
  function Edge(rom: Rom, c: Cpu): Cpu {
    var insn := rom[c.pc];
    var s := Control(c, insn);
    var out := Alu(insn / 4096, insn % 8, ReadReg(c.regs, insn / 64 % 8),
      if insn / 4096 == 8 then insn % 256 else ReadReg(c.regs, insn / 8 % 8), c.flags);
    Cpu(
      if s.rfWrite then WriteReg(c.regs, insn / 512 % 8, s.rfData) else c.regs,
      if s.dmWrite then c.dmem[s.dmAddr := s.dmData] else c.dmem,
      if c.halted then c.pc else s.pcNext,
      if c.halted then c.sp else s.spNext,
      if !c.halted && s.flagUpdate then out.flags else c.flags,
      c.halted || insn / 4096 == 15)
  }

  // ---- Lockstep ---------------------------------------------------------------------------

  lemma SumMatches(a: Byte, b: Byte)
    ensures Sum(a, b) == AddOut(a, b)
  {
  }

  lemma DifferenceMatches(a: Byte, b: Byte)
    ensures Difference(a, b) == SubOut(a, b)
  {
    var wide := a - b;
    if a >= b {
      assert wide % 512 == wide;
    } else {
      assert wide % 512 == wide + 512 && wide % 256 == wide + 256 && wide / 256 == -1;
    }
  }

  lemma ShiftMatches(fn: nat, a: Byte, flags: Flags)
    requires fn % 4 != 3
    ensures Shift(fn, a, flags) == ShfOut(fn, a)
  {
  }

  lemma Imm6Matches(insn: Word, a: Byte)
    ensures (a + Imm6(insn)) % 256 == (a + Signed6(insn % 64)) % 256
  {
  }

  lemma BranchMatches(insn: Word, pc: Byte)
    ensures (pc + insn % 256) % 256 == (pc + Signed9(insn % 512)) % 256
  {
  }

  /** When the two definitions of an instruction give the same next state: a store names
      equal registers in both of its source fields, and a shift with function code 3
      happens to rotate its operand onto itself as far as it is kept. */
  predicate Meets(c: Cpu, insn: Word) {
    var op, rd := insn / 4096, insn / 512 % 8;
    var a := ReadReg(c.regs, insn / 64 % 8);
    if op == 10 then ReadReg(c.regs, rd) == ReadReg(c.regs, insn / 8 % 8)
    else if op == 6 && insn % 4 == 3 then
      && (a % 2 == 1) == c.flags.c
      && (if rd == 0 then a % 2 == a / 128 else a == 0 || a == 255)
    else true
  }

  lemma EdgeArithmetic(rom: Rom, c: Cpu)
    requires !c.halted && (rom[c.pc] / 4096 == 1 || rom[c.pc] / 4096 == 2)
    ensures Edge(rom, c) == StepRom(rom, c)
  {
    hide And8, Or8, Xor8, Sum, Difference, Shift, AddOut, SubOut, ShfOut, Taken;
    var insn := rom[c.pc];
    var a, b := ReadReg(c.regs, insn / 64 % 8), ReadReg(c.regs, insn / 8 % 8);
    SumMatches(a, b);
    DifferenceMatches(a, b);
  }

  lemma EdgeCompare(rom: Rom, c: Cpu)
    requires !c.halted && rom[c.pc] / 4096 == 7
    ensures Edge(rom, c) == StepRom(rom, c)
  {
    hide And8, Or8, Xor8, Sum, Difference, Shift, AddOut, SubOut, ShfOut, Taken;
    var insn := rom[c.pc];
    DifferenceMatches(ReadReg(c.regs, insn / 64 % 8), ReadReg(c.regs, insn / 8 % 8));
  }

  lemma EdgeLogic(rom: Rom, c: Cpu)
    requires !c.halted && (rom[c.pc] / 4096 == 0 || 3 <= rom[c.pc] / 4096 <= 5)
    ensures Edge(rom, c) == StepRom(rom, c)
  {
    hide And8, Or8, Xor8, Sum, Difference, Shift, AddOut, SubOut, ShfOut, Taken, Imm6, Signed6, DmAddr;
  }

  lemma EdgeMemory(rom: Rom, c: Cpu)
    requires !c.halted && (rom[c.pc] / 4096 == 8 || rom[c.pc] / 4096 == 9 || rom[c.pc] / 4096 == 10)
    ensures Edge(rom, c) == StepRom(rom, c) <==> Meets(c, rom[c.pc])
  {
    hide And8, Or8, Xor8, Sum, Difference, Shift, AddOut, SubOut, ShfOut, Taken, Imm6, Signed6;
    var insn := rom[c.pc];
    var a := ReadReg(c.regs, insn / 64 % 8);
    Imm6Matches(insn, a);
    if insn / 4096 == 10 {
      var addr := Address(c, insn / 64 % 8, Signed6(insn % 64));
      assert Edge(rom, c).dmem[addr] == ReadReg(c.regs, insn / 8 % 8);
      assert StepRom(rom, c).dmem[addr] == ReadReg(c.regs, insn / 512 % 8);
    }
  }

  lemma EdgeJump(rom: Rom, c: Cpu)
    requires !c.halted && (rom[c.pc] / 4096 == 11 || rom[c.pc] / 4096 == 12)
    ensures Edge(rom, c) == StepRom(rom, c)
  {
    hide Alu, And8, Or8, Xor8, AddOut, SubOut, ShfOut, Taken, Imm6, Signed6, Signed9;
    BranchMatches(rom[c.pc], c.pc);
  }

  lemma EdgeCall(rom: Rom, c: Cpu)
    requires !c.halted && rom[c.pc] / 4096 >= 13
    ensures Edge(rom, c) == StepRom(rom, c)
  {
    hide Alu, And8, Or8, Xor8, AddOut, SubOut, ShfOut, Taken, Imm6, Signed6, Signed9;
  }

  lemma EdgeShift(rom: Rom, c: Cpu)
    requires !c.halted && rom[c.pc] / 4096 == 6
    ensures Edge(rom, c) == StepRom(rom, c) <==> Meets(c, rom[c.pc])
  {
    hide And8, Or8, Xor8, Sum, Difference, Shift, AddOut, SubOut, ShfOut, Taken, Imm6, Signed6;
    var insn := rom[c.pc];
    var rd := insn / 512 % 8;
    var a := ReadReg(c.regs, insn / 64 % 8);
    var hard, soft := Shift(insn % 8, a, c.flags), ShfOut(insn % 8, a);
    ShiftEdge(rom, c);
    if rd != 0 {
      assert Edge(rom, c).regs[rd] == hard.r && StepRom(rom, c).regs[rd] == soft.r;
    }
    ShiftsEqual(insn, a, c.flags);
  }

  lemma ShiftEdge(rom: Rom, c: Cpu)
    requires !c.halted && rom[c.pc] / 4096 == 6
    ensures var insn := rom[c.pc];
      Edge(rom, c) == Retire(c, insn / 512 % 8,
        Shift(insn % 8, ReadReg(c.regs, insn / 64 % 8), c.flags))
  {
    hide And8, Or8, Xor8, Sum, Difference, Shift, AddOut, SubOut, ShfOut, Taken;
  }

  lemma RotatedOntoItself(a: Byte)
    ensures a / 2 + a % 2 * 128 == a <==> a == 0 || a == 255
    ensures a / 2 + a % 2 * 128 == 0 <==> a == 0
    ensures Top(a / 2 + a % 2 * 128) == (a % 2 == 1)
  {
  }

  lemma ShiftsPart(fn: nat, a: Byte, flags: Flags)
    requires fn % 4 == 3
    ensures Shift(fn, a, flags).flags == ShfOut(fn, a).flags <==> (a % 2 == 1) == flags.c && a % 2 == a / 128
    ensures Shift(fn, a, flags).r == ShfOut(fn, a).r <==> a == 0 || a == 255
  {
    RotatedOntoItself(a);
  }

  lemma ShiftsEqual(insn: Word, a: Byte, flags: Flags)
    ensures var hard, soft := Shift(insn % 8, a, flags), ShfOut(insn % 8, a);
      && (hard.flags == soft.flags <==>
           insn % 4 != 3 || ((a % 2 == 1) == flags.c && a % 2 == a / 128))
      && (hard.r == soft.r <==> insn % 4 != 3 || a == 0 || a == 255)
  {
    hide ShlOut, ShrOut, Shift, ShfOut;
    assert insn % 8 % 4 == insn % 4;
    if insn % 4 != 3 {
      ShiftMatches(insn % 8, a, flags);
    } else {
      ShiftsPart(insn % 8, a, flags);
    }
  }

  /** One clock is one simulator step exactly where the two definitions meet. */
  lemma LockstepExact(rom: Rom, c: Cpu)
    ensures Edge(rom, c) == StepRom(rom, c) <==> c.halted || Meets(c, rom[c.pc])
  {
    hide Meets, Control, Exec;
    var op := rom[c.pc] / 4096;
    if c.halted {
      HaltedStays(rom, c);
    } else if op == 6 {
      EdgeShift(rom, c);
    } else if op <= 7 {
      if op == 1 || op == 2 {
        EdgeArithmetic(rom, c);
      } else if op == 7 {
        EdgeCompare(rom, c);
      } else {
        EdgeLogic(rom, c);
      }
      MeetsTrivially(c, rom[c.pc]);
    } else if op <= 10 {
      EdgeMemory(rom, c);
    } else {
      if op <= 12 {
        EdgeJump(rom, c);
      } else {
        EdgeCall(rom, c);
      }
      MeetsTrivially(c, rom[c.pc]);
    }
  }

  lemma HaltedStays(rom: Rom, c: Cpu)
    requires c.halted
    ensures Edge(rom, c) == c
  {
    hide Alu;
  }

  lemma MeetsTrivially(c: Cpu, insn: Word)
    requires insn / 4096 != 10 && insn / 4096 != 6
    ensures Meets(c, insn)
  {
  }

  function RunRtl(rom: Rom, c: Cpu, n: nat): Cpu {
    if n == 0 then c else Edge(rom, RunRtl(rom, c, n - 1))
  }

  /** After `k` simulator steps the next instruction is one on which the definitions meet;
      only stores and shifts by code 3 can fail this. */
  predicate MeetsAt(rom: Rom, c: Cpu, k: nat) {
    RunRom(rom, c, k).halted || Meets(RunRom(rom, c, k), rom[RunRom(rom, c, k).pc])
  }

  lemma {:induction false} RunsInLockstep(rom: Rom, c: Cpu, n: nat)
    requires forall k :: 0 <= k < n ==> MeetsAt(rom, c, k)
    ensures RunRtl(rom, c, n) == RunRom(rom, c, n)
  {
    hide Meets, Edge, StepRom;
    if n > 0 {
      RunsInLockstep(rom, c, n - 1);
      assert MeetsAt(rom, c, n - 1);
      LockstepExact(rom, RunRom(rom, c, n - 1));
    }
  }

  /** The first parting is visible on the next clock. */
  lemma PartsWhenNotMet(rom: Rom, c: Cpu, n: nat)
    requires (forall k :: 0 <= k < n ==> MeetsAt(rom, c, k)) && !MeetsAt(rom, c, n)
    ensures RunRtl(rom, c, n + 1) != RunRom(rom, c, n + 1)
  {
    RunsInLockstep(rom, c, n);
    hide Meets, Edge, StepRom;
    LockstepExact(rom, RunRom(rom, c, n));
  }

  /** From equal states the hardware and the simulator agree on each of the first `n`
      clocks exactly when the definitions meet at each of them. */
  lemma {:induction false} LockstepRunsExactly(rom: Rom, c: Cpu, n: nat)
    ensures (forall m :: 0 <= m <= n ==> RunRtl(rom, c, m) == RunRom(rom, c, m))
       <==> (forall k :: 0 <= k < n ==> MeetsAt(rom, c, k))
  {
    hide MeetsAt, RunRtl, RunRom;
    if forall k :: 0 <= k < n ==> MeetsAt(rom, c, k) {
      forall m | 0 <= m <= n
        ensures RunRtl(rom, c, m) == RunRom(rom, c, m)
      {
        RunsInLockstep(rom, c, m);
      }
    } else {
      LockstepRunsExactly(rom, c, n - 1);
      if forall k :: 0 <= k < n - 1 ==> MeetsAt(rom, c, k) {
        PartsWhenNotMet(rom, c, n - 1);
      }
    }
  }

  // ---- Reset ------------------------------------------------------------------------------

  function AfterReset(c: Cpu): Cpu {
    c.(pc := 0, sp := 255, flags := Flags(false, false, false, false), halted := false)
  }

  /** An edge while reset is held: the first instruction is decoded and its register or
      memory write lands, but the processor registers do not move. */
  function Held(rom: Rom, c: Cpu): Cpu {
    AfterReset(Edge(rom, AfterReset(c)))
  }

  /** The first instruction leaves its mark on an empty machine: a return address, or an
      immediate other than 0 in a register. */
  predicate MarksMemory(insn: Word) {
    insn / 4096 == 13 || (insn / 4096 == 8 && insn / 512 % 8 != 0 && insn % 256 != 0)
  }

  lemma ZeroOperands(op: nat, fn: nat, flags: Flags)
    requires 1 <= op <= 6
    ensures Alu(op, fn, 0, 0, flags).r == 0
  {
  }

  /** What the first instruction writes while reset is held: only LDI and CALL have
      anything but zeros at hand. */
  lemma FirstWrites(c: Cpu, insn: Word)
    requires c == PowerOn()
    ensures var s := Control(c, insn);
      && (s.rfWrite ==> s.rfData == if insn / 4096 == 8 then insn % 256 else 0)
      && (s.dmWrite ==> s.dmData == if insn / 4096 == 13 then 1 else 0)
      && (insn / 4096 == 8 ==> s.rfWrite) && (insn / 4096 == 13 ==> s.dmWrite)
  {
    hide And8, Or8, Xor8, Sum, Difference, Shift, Taken, Alu;
    if 1 <= insn / 4096 <= 6 {
      ZeroOperands(insn / 4096, insn % 8, c.flags);
    }
  }

  /** Held in reset, an empty machine is in its power-on state exactly when the first
      instruction does not mark it. */
  lemma ResetIsPowerOn(rom: Rom, c: Cpu)
    requires c.regs == PowerOn().regs && c.dmem == PowerOn().dmem
    ensures Held(rom, c) == PowerOn() <==> !MarksMemory(rom[0])
  {
    hide Control, Alu;
    var s := Control(AfterReset(c), rom[0]);
    FirstWrites(AfterReset(c), rom[0]);
    WriteShows(c.regs, rom[0] / 512 % 8, s.rfData);
    assert c.dmem[s.dmAddr := s.dmData][s.dmAddr] == s.dmData;
    assert s.dmData == 0 ==> c.dmem[s.dmAddr := s.dmData] == c.dmem;
  }

  lemma WriteShows(regs: Bank, i: nat, v: Byte)
    requires i < 8 && regs == PowerOn().regs
    ensures WriteReg(regs, i, v) == regs <==> i == 0 || v == 0
  {
    assert i != 0 ==> WriteReg(regs, i, v)[i] == v;
    assert v == 0 ==> WriteReg(regs, i, v) == regs;
  }

  /** `LDI r1, 5` at address 0 is in r1 before the machine has left reset. */
  lemma ResetLoadsRegister(rom: Rom)
    requires rom[0] == 0x8205
    ensures Held(rom, PowerOn()).regs[1] == 5
  {
    hide Alu;
  }

  // ---- The clocked form -----------------------------------------------------------------------

  class C8Core {
    const imem: Rom
    const regs: array<Byte>
    const dmem: array<Byte>
    var pc: Byte
    var sp: Byte
    var flags: Flags
    var halt: bool

    ghost predicate Valid()
      reads this
    {
      dmem.Length == 256 && regs.Length == 8 && dmem != regs
    }

    ghost function State(): Cpu
      requires Valid()
      reads this, regs, dmem
    {
      Cpu(regs[..], dmem[..], pc, sp, flags, halt)
    }

    constructor (rom: Rom)
      ensures Valid() && imem == rom && State() == PowerOn()
    {
      imem := rom;
      dmem := new Byte[256](i => 0);
      regs := new Byte[8](i => 0);
      pc, sp, flags, halt := 0, 255, Flags(false, false, false, false), false;
    }

    /** The asynchronous reset: the processor registers, not the memories. */
    method AssertReset()
      requires Valid()
      modifies this
      ensures Valid() && State() == AfterReset(old(State()))
    {
      pc, sp, flags, halt := 0, 255, Flags(false, false, false, false), false;
    }

    /** The write ports, which sample the decoded signals whether or not reset is held. */
    method WritePorts(ghost c: Cpu, s: Signals, rd: nat)
      requires Valid() && c == State() && rd < 8
      modifies regs, dmem
      ensures Valid()
      ensures regs[..] == if s.rfWrite then WriteReg(c.regs, rd, s.rfData) else c.regs
      ensures dmem[..] == if s.dmWrite then c.dmem[s.dmAddr := s.dmData] else c.dmem
    {
      if s.rfWrite && rd != 0 {
        regs[rd] := s.rfData;
      }
      if s.dmWrite {
        dmem[s.dmAddr] := s.dmData;
      }
    }

    /** One rising edge: the register file, the data memory and, out of reset, the
        processor registers all sample the signals decoded before it. */
    method Clock(held: bool)
      requires Valid()
      modifies this, regs, dmem
      ensures Valid() && State() == if held then Held(imem, old(State())) else Edge(imem, old(State()))
    {
      hide Control, Alu;
      if held {
        AssertReset();
      }
      var insn := imem[pc];
      var c := Cpu(regs[..], dmem[..], pc, sp, flags, halt);
      var s := Control(c, insn);
      var out := Alu(insn / 4096, insn % 8, ReadReg(c.regs, insn / 64 % 8),
        if insn / 4096 == 8 then insn % 256 else ReadReg(c.regs, insn / 8 % 8), flags);
      WritePorts(c, s, insn / 512 % 8);
      if !held && !halt {
        pc, sp := s.pcNext, s.spNext;
        if s.flagUpdate {
          flags := out.flags;
        }
        if insn / 4096 == 15 {
          halt := true;
        }
      }
    }
  }
}
