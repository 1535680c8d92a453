/**
 The C8 processor as its simulator defines it (`sim.py`): bytes and words are the
 naturals below 256 and 65536, as the simulator's own masked integers are.
 */
module C8Sim {
  import opened Basics

  type Byte = n: nat | n < 256
  type Word = n: nat | n < 0x10000

  type Bank = s: seq<Byte> | |s| == 8 witness Repeat(8, 0)
  type Ram = s: seq<Byte> | |s| == 256 witness Repeat(256, 0)

  datatype Flags = Flags(z: bool, n: bool, c: bool, v: bool)

  datatype Cpu = Cpu(regs: Bank, dmem: Ram, pc: Byte, sp: Byte, flags: Flags, halted: bool)

  function PowerOn(): Cpu {
    Cpu(Repeat(8, 0), Repeat(256, 0), 0, 255, Flags(false, false, false, false), false)
  }

  /** Register 0 reads as zero. */
  function ReadReg(regs: Bank, i: nat): Byte
    requires i < 8
  {
    if i == 0 then 0 else regs[i]
  }

  function WriteReg(regs: Bank, i: nat, v: Byte): Bank
    requires i < 8
  {
    if i == 0 then regs else regs[i := v]
  }

  // ---- Arithmetic ----------------------------------------------------------------------

  function And8(a: Byte, b: Byte): Byte {
    ((a as bv8) & (b as bv8)) as nat
  }

  function Or8(a: Byte, b: Byte): Byte {
    ((a as bv8) | (b as bv8)) as nat
  }

  function Xor8(a: Byte, b: Byte): Byte {
    ((a as bv8) ^ (b as bv8)) as nat
  }

  function Top(a: Byte): bool {
    a >= 128
  }

  datatype Out = Out(r: Byte, flags: Flags)

  function OutOf(r: Byte, c: bool, v: bool): Out {
    Out(r, Flags(r == 0, Top(r), c, v))
  }

  function AddOut(a: Byte, b: Byte): Out {
    var wide := a + b;
    var r := wide % 256;
    OutOf(r, wide / 256 % 2 == 1, (!Top(a) && !Top(b) && Top(r)) || (Top(a) && Top(b) && !Top(r)))
  }

  /** The carry flag is the borrow: bit 8 of the difference. */
  function SubOut(a: Byte, b: Byte): Out {
    var wide := a - b;
    var r := wide % 256;
    OutOf(r, wide / 256 % 2 == 1, (Top(a) && !Top(b) && !Top(r)) || (!Top(a) && Top(b) && Top(r)))
  }

  function ShlOut(a: Byte): Out {
    OutOf(a * 2 % 256, a / 128 % 2 == 1, false)
  }

  function ShrOut(a: Byte): Out {
    OutOf(a / 2, a % 2 == 1, false)
  }

  function RorOut(a: Byte): Out {
    OutOf(a / 2 + a % 2 * 128, a % 2 == 1, false)
  }

  /** Any function code other than 0 and 1 rotates. */
  function ShfOut(fn: nat, a: Byte): Out {
    if fn % 4 == 0 then ShlOut(a) else if fn % 4 == 1 then ShrOut(a) else RorOut(a)
  }

  function Signed6(v: nat): int {
    if v % 64 < 32 then v % 64 else v % 64 - 64
  }

  function Signed9(v: nat): int {
    if v % 512 < 256 then v % 512 else v % 512 - 512
  }

  predicate Taken(f: Flags, cc: nat)
    requires cc < 8
  {
    match cc
    case 0 => f.z
    case 1 => !f.z
    case 2 => f.n
    case 3 => !f.n
    case 4 => f.c
    case 5 => !f.c
    case 6 => true
    case _ => false
  }

  // ---- One instruction -----------------------------------------------------------------

  function Next(c: Cpu): Byte {
    (c.pc + 1) % 256
  }

  /** Writes a result and its flags, and goes on. */
  function Retire(c: Cpu, rd: nat, out: Out): Cpu
    requires rd < 8
  {
    c.(regs := WriteReg(c.regs, rd, out.r), flags := out.flags, pc := Next(c))
  }

  function LoadInto(c: Cpu, rd: nat, v: Byte): Cpu
    requires rd < 8
  {
    c.(regs := WriteReg(c.regs, rd, v), pc := Next(c))
  }

  function StoreAt(c: Cpu, a: Byte, v: Byte): Cpu {
    c.(dmem := c.dmem[a := v], pc := Next(c))
  }

  function CallTo(c: Cpu, target: Byte): Cpu {
    c.(dmem := c.dmem[c.sp := Next(c)], sp := (c.sp - 1) % 256, pc := target)
  }

  function Return(c: Cpu): Cpu {
    var sp := (c.sp + 1) % 256;
    c.(sp := sp, pc := c.dmem[sp])
  }

  function Address(c: Cpu, rs1: nat, off: int): Byte
    requires rs1 < 8
  {
    (ReadReg(c.regs, rs1) + off) % 256
  }

  /** `Sim.step` on a processor that is not halted. */
  function Exec(c: Cpu, insn: Word): Cpu {
    var rd := insn / 512 % 8;
    var rs1 := insn / 64 % 8;
    var a := ReadReg(c.regs, rs1);
    var b := ReadReg(c.regs, insn / 8 % 8);
    match insn / 4096 % 16
    case 0 => c.(pc := Next(c))
    case 1 => Retire(c, rd, AddOut(a, b))
    case 2 => Retire(c, rd, SubOut(a, b))
    case 3 => Retire(c, rd, OutOf(And8(a, b), false, false))
    case 4 => Retire(c, rd, OutOf(Or8(a, b), false, false))
    case 5 => Retire(c, rd, OutOf(Xor8(a, b), false, false))
    case 6 => Retire(c, rd, ShfOut(insn % 8, a))
    case 7 => c.(flags := SubOut(a, b).flags, pc := Next(c))
    case 8 => LoadInto(c, rd, insn % 256)
    case 9 => LoadInto(c, rd, c.dmem[Address(c, rs1, Signed6(insn % 64))])
    case 10 => StoreAt(c, Address(c, rs1, Signed6(insn % 64)), ReadReg(c.regs, rd))
    case 11 => c.(pc := if Taken(c.flags, rd) then (c.pc + Signed9(insn % 512)) % 256 else Next(c))
    case 12 => c.(pc := insn % 256)
    case 13 => CallTo(c, insn % 256)
    case 14 => Return(c)
    case _ => c.(halted := true)
  }

  type Rom = s: seq<Word> | |s| == 256 witness NopRom()

  function NopRom(): (s: seq<Word>)
    ensures |s| == 256
  {
    seq(256, i => 0)
  }

  function StepRom(rom: Rom, c: Cpu): Cpu {
    if c.halted then c else Exec(c, rom[c.pc])
  }

  function RunRom(rom: Rom, c: Cpu, n: nat): Cpu {
    if n == 0 then c else StepRom(rom, RunRom(rom, c, n - 1))
  }

  // ---- The simulator object -------------------------------------------------------------

  class Sim {
    var imem: Rom
    const dmem: array<Byte>
    const regs: array<Byte>
    var pc: Byte
    var sp: Byte
    var flags: Flags
    var halted: bool
    var cycles: nat

    ghost predicate Valid()
      reads this
    {
      dmem.Length == 256 && regs.Length == 8 && dmem != regs
    }

    ghost function State(): Cpu
      requires Valid()
      reads this, dmem, regs
    {
      Cpu(regs[..], dmem[..], pc, sp, flags, halted)
    }

    constructor (rom: Rom)
      ensures Valid() && fresh(dmem) && fresh(regs)
      ensures imem == rom && State() == PowerOn() && cycles == 0
    {
      imem := rom;
      dmem := new Byte[256](i => 0);
      regs := new Byte[8](i => 0);
      pc, sp, flags, halted, cycles := 0, 255, Flags(false, false, false, false), false, 0;
    }

    /** Clears everything but the two memories and the registers. */
    method Reset()
      requires Valid()
      modifies this
      ensures Valid() && imem == old(imem) && cycles == 0
      ensures State() == PowerOn().(regs := old(regs[..]), dmem := old(dmem[..]))
    {
      pc, sp, flags, halted, cycles := 0, 255, Flags(false, false, false, false), false, 0;
    }

    method RegRead(i: nat) returns (v: Byte)
      requires Valid() && i < 8
      ensures v == ReadReg(regs[..], i)
    {
      v := if i == 0 then 0 else regs[i];
    }

    method RegWrite(i: nat, v: Byte)
      requires Valid() && i < 8
      modifies regs
      ensures Valid() && regs[..] == WriteReg(old(regs[..]), i, v)
    {
      if i != 0 {
        regs[i] := v;
      }
    }

    /** Writes the result and the flags of an arithmetic instruction. */
    method WriteOut(rd: nat, out: Out)
      requires Valid() && rd < 8
      modifies regs, this`flags
      ensures Valid() && flags == out.flags && regs[..] == WriteReg(old(regs[..]), rd, out.r)
    {
      RegWrite(rd, out.r);
      flags := out.flags;
    }

    method Step() returns (running: bool)
      requires Valid()
      modifies this, dmem, regs
      ensures Valid() && imem == old(imem)
      ensures State() == StepRom(imem, old(State()))
      ensures running == !halted && cycles == old(cycles) + (if old(halted) then 0 else 1)
    {
      hide AddOut, SubOut, OutOf, ShfOut, And8, Or8, Xor8, Taken, Signed6, Signed9, ReadReg, WriteReg;
      if halted {
        return false;
      }
      ghost var was := State();
      var insn := imem[pc];
      var op, rd, rs1, rs2 := insn / 4096 % 16, insn / 512 % 8, insn / 64 % 8, insn / 8 % 8;
      var a := RegRead(rs1);
      var b := RegRead(rs2);
      var pcInc := (pc + 1) % 256;
      var nextPc: Byte := pcInc;
      match op {
        case 0 =>
        case 1 => WriteOut(rd, AddOut(a, b));
        case 2 => WriteOut(rd, SubOut(a, b));
        case 3 => WriteOut(rd, OutOf(And8(a, b), false, false));
        case 4 => WriteOut(rd, OutOf(Or8(a, b), false, false));
        case 5 => WriteOut(rd, OutOf(Xor8(a, b), false, false));
        case 6 => WriteOut(rd, ShfOut(insn % 8, a));
        case 7 => flags := SubOut(a, b).flags;
        case 8 => RegWrite(rd, insn % 256);
        case 9 => RegWrite(rd, dmem[(a + Signed6(insn % 64)) % 256]);
        case 10 =>
          var src := RegRead(rd);
          dmem[(a + Signed6(insn % 64)) % 256] := src;
        case 11 =>
          if Taken(flags, rd) {
            nextPc := (pc + Signed9(insn % 512)) % 256;
          }
        case 12 => nextPc := insn % 256;
        case 13 =>
          dmem[sp] := pcInc;
          sp := (sp - 1) % 256;
          nextPc := insn % 256;
        case 14 =>
          sp := (sp + 1) % 256;
          nextPc := dmem[sp];
        case _ =>
          halted := true;
          cycles := cycles + 1;
          return false;
      }
      pc := nextPc;
      cycles := cycles + 1;
      running := true;
    }

    /** Runs until HLT or the cycle limit; the state is that of the cycles it counted. */
    method Run(maxCycles: nat) returns (count: nat)
      requires Valid()
      modifies this, dmem, regs
      ensures Valid() && imem == old(imem) && count == cycles
      ensures cycles >= old(cycles) && State() == RunRom(imem, old(State()), cycles - old(cycles))
      ensures halted || cycles >= maxCycles
    {
      hide StepRom;
      while !halted && cycles < maxCycles
        invariant Valid() && imem == old(imem) && cycles >= old(cycles)
        invariant State() == RunRom(imem, old(State()), cycles - old(cycles))
        decreases maxCycles - cycles, !halted
      {
        var running := Step();
      }
      count := cycles;
    }
  }
}
