/**
 The architecture this core implements, one instruction at a time: no stages, no control
 word. Instructions are a datatype; RV32I is chapter 2 of the RISC-V Unprivileged ISA.
 Trap causes and priorities, data accesses that are not aligned, absent CSRs and unknown
 opcodes are the core's own choices; `RvStandard` states the standards' and proves on
 exactly which steps the two agree.
 */
module RvIsa {
  import opened Rv32iPkg

  datatype AluFn = FnAdd | FnSub | FnSll | FnSlt | FnSltu | FnXor | FnSrl | FnSra | FnOr | FnAnd
  datatype Cond = Eq | Ne | Lt | Ge | Ltu | Geu | Never
  datatype LoadKind = LoadByte | LoadHalf | LoadWord | LoadByteU | LoadHalfU
  datatype StoreKind = StoreByte | StoreHalf | StoreWord
  datatype CsrOp = CsrWrite | CsrSet | CsrClear | CsrReadOnly

  datatype Instr =
    | Lui(rd: RegIdx, imm: Word)
    | Auipc(rd: RegIdx, imm: Word)
    | Jal(rd: RegIdx, imm: Word)
    | Jalr(rd: RegIdx, imm: Word)
    | Branch(cond: Cond, imm: Word)
    | Load(kind: LoadKind, rd: RegIdx, imm: Word)
    | Store(width: StoreKind, imm: Word)
    | OpImm(fn: AluFn, rd: RegIdx, imm: Word)
    | OpReg(fn: AluFn, rd: RegIdx)
    | Fence
    | Csr(op: CsrOp, rd: RegIdx, addr: bv12, immediate: bool)
    | Ecall | Ebreak | Mret
    | Undecoded            // unknown opcode or privileged operation: a no-operation

  // ---- Fields and immediates of an instruction word --------------------------

  datatype Major =
    | LuiOp | AuipcOp | JalOp | JalrOp | BranchOp | LoadOp | StoreOp | ImmOp | RegOp | MiscMemOp | SystemOp
    | UnknownOp

  function MajorOf(opcode: bv7): Major {
    match opcode
    case 0x37 => LuiOp case 0x17 => AuipcOp case 0x6F => JalOp case 0x67 => JalrOp
    case 0x63 => BranchOp case 0x03 => LoadOp case 0x23 => StoreOp
    case 0x13 => ImmOp case 0x33 => RegOp case 0x0F => MiscMemOp case 0x73 => SystemOp
    case _ => UnknownOp
  }

  /** The major opcode, bits 6 to 0. */
  function Opcode(w: Word): Major { MajorOf((w & 0x7F) as bv7) }
  function Funct3(w: Word): bv3 { ((w >> 12) & 7) as bv3 }
  function Rd(w: Word): RegIdx { ((w >> 7) & 0x1F) as RegIdx }
  function Rs1(w: Word): RegIdx { ((w >> 15) & 0x1F) as RegIdx }
  function Rs2(w: Word): RegIdx { ((w >> 20) & 0x1F) as RegIdx }
  function Funct12(w: Word): bv12 { ((w >> 20) & 0xFFF) as bv12 }

  function SignBits(w: Word, mask: Word): Word { if w & 0x8000_0000 == 0 then 0 else mask }
  function ImmI(w: Word): Word { (w >> 20) | SignBits(w, 0xFFFF_F000) }
  function ImmS(w: Word): Word { ((w >> 20) & 0xFE0) | ((w >> 7) & 0x1F) | SignBits(w, 0xFFFF_F000) }
  function ImmB(w: Word): Word {
    ((w << 4) & 0x800) | ((w >> 20) & 0x7E0) | ((w >> 7) & 0x1E) | SignBits(w, 0xFFFF_F000)
  }
  function ImmU(w: Word): Word { w & 0xFFFF_F000 }
  function ImmJ(w: Word): Word {
    (w & 0xF_F000) | ((w >> 9) & 0x800) | ((w >> 20) & 0x7FE) | SignBits(w, 0xFFF0_0000)
  }

  // ---- Decoding ---------------------------------------------------------------

  function AluFnOf(funct3: bv3, alternate: bool): AluFn {
    match funct3
    case 0 => if alternate then FnSub else FnAdd
    case 1 => FnSll
    case 2 => FnSlt
    case 3 => FnSltu
    case 4 => FnXor
    case 5 => if alternate then FnSra else FnSrl
    case 6 => FnOr
    case _ => FnAnd
  }

  function CondOf(funct3: bv3): Cond {
    match funct3
    case 0 => Eq case 1 => Ne case 4 => Lt case 5 => Ge case 6 => Ltu case 7 => Geu
    case _ => Never
  }

  function LoadKindOf(funct3: bv3): LoadKind {
    match funct3
    case 0 => LoadByte case 1 => LoadHalf case 4 => LoadByteU case 5 => LoadHalfU
    case _ => LoadWord
  }

  function StoreKindOf(funct3: bv3): StoreKind {
    match funct3
    case 0 => StoreByte case 1 => StoreHalf
    case _ => StoreWord
  }

  function DecodeSystem(w: Word): Instr {
    if Funct3(w) == 0 then
      if Funct12(w) == 0x000 then Ecall
      else if Funct12(w) == 0x001 then Ebreak
      else if Funct12(w) == 0x302 then Mret
      else Undecoded
    else Csr(CsrOpOf(Funct3(w)), Rd(w), Funct12(w), Funct3(w) >= 4)
  }

  function Decode(w: Word): Instr {
    match Opcode(w)
    case LuiOp => Lui(Rd(w), ImmU(w))
    case AuipcOp => Auipc(Rd(w), ImmU(w))
    case JalOp => Jal(Rd(w), ImmJ(w))
    case JalrOp => Jalr(Rd(w), ImmI(w))
    case BranchOp => Branch(CondOf(Funct3(w)), ImmB(w))
    case LoadOp => Load(LoadKindOf(Funct3(w)), Rd(w), ImmI(w))
    case StoreOp => Store(StoreKindOf(Funct3(w)), ImmS(w))
    case ImmOp => OpImm(AluFnOf(Funct3(w), Funct3(w) == 5 && Bit(w, 30)), Rd(w), ImmI(w))
    case RegOp => OpReg(AluFnOf(Funct3(w), Bit(w, 30)), Rd(w))
    case MiscMemOp => Fence
    case SystemOp => DecodeSystem(w)
    case UnknownOp => Undecoded
  }

  // ---- Arithmetic -------------------------------------------------------------

  function Compute(fn: AluFn, a: Word, b: Word): Word {
    match fn
    case FnAdd => Plus(a, b)
    case FnSub => a - b
    case FnSll => Sll(a, Shamt(b))
    case FnSlt => if SignedLess(a, b) then 1 else 0
    case FnSltu => if a < b then 1 else 0
    case FnXor => a ^ b
    case FnSrl => Srl(a, Shamt(b))
    case FnSra => ShiftRightArith(a, Shamt(b))
    case FnOr => a | b
    case FnAnd => a & b
  }

  predicate Holds(c: Cond, a: Word, b: Word) {
    match c
    case Eq => a == b
    case Ne => a != b
    case Lt => SignedLess(a, b)
    case Ge => !SignedLess(a, b)
    case Ltu => a < b
    case Geu => a >= b
    case Never => false
  }

  // ---- Data accesses, aligned down to their own width -------------------------

  function HalfAt(m: Memory, a: Word): bv16 {
    CatHalf(ByteAt(m, a | 1), ByteAt(m, ClearLow1(a)))
  }

  function LoadValue(kind: LoadKind, m: Memory, a: Word): Word {
    match kind
    case LoadByte => Sext8(ByteAt(m, a))
    case LoadByteU => ByteAt(m, a) as Word
    case LoadHalf => Sext16(HalfAt(m, a))
    case LoadHalfU => HalfAt(m, a) as Word
    case LoadWord => ReadWord(m, a)
  }

  function StoreValue(width: StoreKind, m: Memory, a: Word, v: Word): Memory {
    match width
    case StoreByte => Put(m, a, ByteOf(v, 0))
    case StoreHalf => Put(Put(m, ClearLow1(a), ByteOf(v, 0)), a | 1, ByteOf(v, 1))
    case StoreWord =>
      Put(Put(Put(Put(m, Lane(a, 0), ByteOf(v, 0)), Lane(a, 1), ByteOf(v, 1)), Lane(a, 2), ByteOf(v, 2)),
          Lane(a, 3), ByteOf(v, 3))
  }

  // ---- Machine-mode CSRs ------------------------------------------------------

  datatype Csrs = Csrs(mie: bool, mpie: bool, mieReg: Word, mtvec: Word, mscratch: Word,
                       mepc: Word, mcause: Word, mtval: Word)

  const CSRS_AT_RESET := Csrs(false, false, 0, 0, 0, 0, 0, 0)

  /** What the outside world supplies to one step: the interrupt levels, the clock counter,
      and the half of the instruction counter a program may read. */
  datatype Env = Env(timer: bool, soft: bool, ext: bool, cycles: bv64, minstret: Word)

  function Mip(e: Env): Word {
    (if e.soft then 0x008 else 0) | (if e.timer then 0x080 else 0) | (if e.ext then 0x800 else 0)
  }

  function ReadCsr(c: Csrs, e: Env, addr: bv12): Word {
    match addr
    case 0x300 => 0x1800 | (if c.mie then 0x08 else 0) | (if c.mpie then 0x80 else 0)
    case 0x304 => c.mieReg
    case 0x305 => ClearLow2(c.mtvec)
    case 0x340 => c.mscratch
    case 0x341 => ClearLow2(c.mepc)
    case 0x342 => c.mcause
    case 0x343 => c.mtval
    case 0x344 => Mip(e)
    case 0xB00 => LowHalf(e.cycles)
    case 0xB02 => e.minstret
    case _ => 0
  }

  function WriteCsr(c: Csrs, addr: bv12, v: Word): Csrs {
    match addr
    case 0x300 => c.(mie := Bit(v, 3), mpie := Bit(v, 7))
    case 0x304 => c.(mieReg := v)
    case 0x305 => c.(mtvec := ClearLow2(v))
    case 0x340 => c.(mscratch := v)
    case 0x341 => c.(mepc := ClearLow2(v))
    case 0x342 => c.(mcause := v)
    case 0x343 => c.(mtval := v)
    case _ => c
  }

  /** Set and clear with source x0, or with a zero immediate, only read. */
  predicate CsrWrites(op: CsrOp, srcIsZero: bool) {
    op.CsrWrite? || ((op.CsrSet? || op.CsrClear?) && !srcIsZero)
  }

  function CsrValue(op: CsrOp, before: Word, src: Word): Word {
    match op
    case CsrWrite => src
    case CsrSet => before | src
    case CsrClear => before & !src
    case CsrReadOnly => before
  }

  function UpdateCsr(c: Csrs, e: Env, op: CsrOp, addr: bv12, src: Word, srcIsZero: bool): Csrs {
    if CsrWrites(op, srcIsZero) then WriteCsr(c, addr, CsrValue(op, ReadCsr(c, e, addr), src)) else c
  }

  function CsrOpOf(funct3: bv3): CsrOp {
    match funct3
    case 1 => CsrWrite case 5 => CsrWrite
    case 2 => CsrSet case 6 => CsrSet
    case 3 => CsrClear case 7 => CsrClear
    case _ => CsrReadOnly
  }

  // ---- Traps ------------------------------------------------------------------

  predicate ExtTaken(c: Csrs, e: Env) { c.mie && Bit(c.mieReg, 11) && e.ext }
  predicate SoftTaken(c: Csrs, e: Env) { c.mie && Bit(c.mieReg, 3) && e.soft }
  predicate TimerTaken(c: Csrs, e: Env) { c.mie && Bit(c.mieReg, 7) && e.timer }
  predicate InterruptPending(c: Csrs, e: Env) { ExtTaken(c, e) || SoftTaken(c, e) || TimerTaken(c, e) }

  predicate Traps(i: Instr, c: Csrs, e: Env) {
    !i.Undecoded? && (InterruptPending(c, e) || i.Ecall? || i.Ebreak?)
  }

  /** Synchronous causes first, then external, software, timer. */
  function Cause(i: Instr, c: Csrs, e: Env): Word {
    if i.Ecall? then 0x0000_0008
    else if i.Ebreak? then 0x0000_0003
    else if ExtTaken(c, e) then 0x8000_000B
    else if SoftTaken(c, e) then 0x8000_0003
    else 0x8000_0007
  }

  function EnterTrap(c: Csrs, pc: Word, cause: Word): Csrs {
    c.(mepc := ClearLow2(pc), mcause := cause, mtval := 0, mpie := c.mie, mie := false)
  }

  function ReturnFromTrap(c: Csrs): Csrs {
    c.(mie := c.mpie, mpie := true)
  }

  // ---- One step ---------------------------------------------------------------

  datatype RegEffect =
    | NoReg
    | WriteReg(rd: RegIdx, value: Word)
    | LoadReg(rd: RegIdx, kind: LoadKind, addr: Word)

  datatype MemEffect =
    | NoMem
    | StoreMem(width: StoreKind, addr: Word, value: Word)

  /** What one instruction does, as a function of its operand values. */
  datatype Effect = Effect(next: Word, reg: RegEffect, mem: MemEffect, csrs: Csrs)

  datatype Outcome = Outcome(next: Word, reg: RegEffect, mem: MemEffect)

  /** What an instruction other than a CSR access or MRET does; the CSRs stay as they are. */
  function Ordinary(i: Instr, pc: Word, a: Word, b: Word): Outcome {
    match i
    case Lui(rd, imm) => Outcome(PcPlus4(pc), WriteReg(rd, imm), NoMem)
    case Auipc(rd, imm) => Outcome(PcPlus4(pc), WriteReg(rd, Plus(pc, imm)), NoMem)
    case Jal(rd, imm) => Outcome(Plus(pc, imm), WriteReg(rd, PcPlus4(pc)), NoMem)
    case Jalr(rd, imm) => Outcome(ClearLow1(Plus(a, imm)), WriteReg(rd, PcPlus4(pc)), NoMem)
    case Branch(cond, imm) => Outcome(if Holds(cond, a, b) then Plus(pc, imm) else PcPlus4(pc), NoReg, NoMem)
    case Load(kind, rd, imm) => Outcome(PcPlus4(pc), LoadReg(rd, kind, Plus(a, imm)), NoMem)
    case Store(width, imm) => Outcome(PcPlus4(pc), NoReg, StoreMem(width, Plus(a, imm), b))
    case OpImm(fn, rd, imm) => Outcome(PcPlus4(pc), WriteReg(rd, Compute(fn, a, imm)), NoMem)
    case OpReg(fn, rd) => Outcome(PcPlus4(pc), WriteReg(rd, Compute(fn, a, b)), NoMem)
    case _ => Outcome(PcPlus4(pc), NoReg, NoMem)
  }

  /** `a` and `b` are the values of the rs1 and rs2 fields' registers. */
  function Execute(w: Word, pc: Word, a: Word, b: Word, c: Csrs, e: Env): Effect {
    match Decode(w)
    case Csr(op, rd, addr, immediate) =>
      var src := if immediate then Rs1(w) as Word else a;
      Effect(PcPlus4(pc), WriteReg(rd, ReadCsr(c, e, addr)), NoMem,
             UpdateCsr(c, e, op, addr, src, Rs1(w) == 0))
    case Mret => Effect(ClearLow2(c.mepc), NoReg, NoMem, ReturnFromTrap(c))
    case _ =>
      var o := Ordinary(Decode(w), pc, a, b);
      Effect(o.next, o.reg, o.mem, c)
  }

  /** The effect of the next step: the instruction's own, or a trap in its place. */
  function StepEffect(w: Word, pc: Word, a: Word, b: Word, c: Csrs, e: Env): Effect {
    var i := Decode(w);
    if Traps(i, c, e) then Effect(ClearLow2(c.mtvec), NoReg, NoMem, EnterTrap(c, pc, Cause(i, c, e)))
    else Execute(w, pc, a, b, c, e)
  }

  function ApplyReg(r: Regs, m: Memory, fx: RegEffect): Regs {
    match fx
    case NoReg => r
    case WriteReg(rd, v) => SetReg(r, rd, v)
    case LoadReg(rd, kind, addr) => SetReg(r, rd, LoadValue(kind, m, addr))
  }

  function ApplyMem(m: Memory, fx: MemEffect): Memory {
    match fx
    case NoMem => m
    case StoreMem(width, addr, v) => StoreValue(width, m, addr, v)
  }

  datatype State = State(pc: Word, regs: Regs, mem: Memory, csrs: Csrs)

  /** Instruction memory: 1024 words, addressed by the upper bits of the PC. */
  type Program = p: seq<Word> | |p| == 1024 witness seq(1024, i => 0)

  function Fetch(p: Program, pc: Word): Word {
    p[((pc >> 2) & 0x3FF) as nat]
  }

  function NextEffect(p: Program, s: State, e: Env): Effect {
    var w := Fetch(p, s.pc);
    StepEffect(w, s.pc, GetReg(s.regs, Rs1(w)), GetReg(s.regs, Rs2(w)), s.csrs, e)
  }

  function Step(p: Program, s: State, e: Env): State {
    var fx := NextEffect(p, s, e);
    State(fx.next, ApplyReg(s.regs, s.mem, fx.reg), ApplyMem(s.mem, fx.mem), fx.csrs)
  }
}
