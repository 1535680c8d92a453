/**
 The machine-level architecture as the RISC-V standards give it, written from their text
 and not from the core: RV32I loads and stores (Unprivileged ISA, section 2.6) and the
 machine-level CSRs and traps (Privileged Architecture 1.12, chapters 2 and 3) of a hart
 with RV32I and Zicsr in machine mode alone. Where the standards let a hart choose, this
 one chooses as the core does, and so on encodings they reserve. `RvIsa` is the
 architecture the core implements; this module says on exactly which steps the two are the
 same, and what differs on the others.
 */
module RvStandard {
  import opened Basics
  import opened Rv32iPkg
  import Isa = RvIsa

  // ---- Interrupts -------------------------------------------------------------------

  /** `mip`: MEIP, MTIP and MSIP in bits 11, 7 and 3. */
  function InterruptBits(e: Isa.Env): Word {
    (if e.ext then 0x800 else 0) | (if e.timer then 0x80 else 0) | (if e.soft then 8 else 0)
  }

  function Enabled(c: Isa.Csrs, e: Isa.Env): Word {
    if c.mie then InterruptBits(e) & c.mieReg else 0
  }

  predicate Pending(c: Isa.Csrs, e: Isa.Env) {
    Enabled(c, e) != 0
  }

  /** External before software before timer. */
  function InterruptCause(c: Isa.Csrs, e: Isa.Env): Word {
    if Enabled(c, e) & 0x800 != 0 then 0x8000_000b
    else if Enabled(c, e) & 8 != 0 then 0x8000_0003
    else 0x8000_0007
  }

  // ---- Control and status registers ----------------------------------------------------

  /** `mcycle` and `minstret`, with their upper halves. */
  predicate IsCounter(addr: bv12) {
    addr == 0xb00 || addr == 0xb02 || addr == 0xb80 || addr == 0xb82
  }

  /** Registers every machine-mode hart must have. */
  predicate Required(addr: bv12) {
    addr == 0x300 || addr == 0x304 || addr == 0x305 || 0x340 <= addr <= 0x344 || IsCounter(addr)
  }

  /** Registers that may read as zero and ignore writes: `misa`, `mstatush`, memory
      protection, the event selectors and counters of the performance monitor, and the
      identification block. */
  predicate MayBeZero(addr: bv12) {
    || addr == 0x301 || addr == 0x310 || addr == 0x320 || 0x3a0 <= addr <= 0x3ef
    || 0x323 <= addr <= 0x33f || 0xb03 <= addr <= 0xb1f || 0xb83 <= addr <= 0xb9f
    || 0xf11 <= addr <= 0xf15
  }

  predicate Writes(op: Isa.CsrOp, rs1: RegIdx) {
    match op
    case CsrWrite => true
    case CsrReadOnly => false
    case _ => rs1 != 0
  }

  /** An absent register, or a write to one whose two top address bits are set. */
  predicate IllegalAccess(op: Isa.CsrOp, addr: bv12, rs1: RegIdx) {
    (!Required(addr) && !MayBeZero(addr)) || (addr >= 0xc00 && Writes(op, rs1))
  }

  function Status(c: Isa.Csrs): Word {
    0x1800 | (if c.mpie then 0x80 else 0) | (if c.mie then 8 else 0)
  }

  /** `n` is the number of instructions retired so far. */
  function ReadCsr(c: Isa.Csrs, e: Isa.Env, n: bv64, addr: bv12): Word {
    if addr == 0x300 then Status(c)
    else if addr == 0x304 then c.mieReg
    else if addr == 0x305 then ClearLow2(c.mtvec)
    else if addr == 0x340 then c.mscratch
    else if addr == 0x341 then ClearLow2(c.mepc)
    else if addr == 0x342 then c.mcause
    else if addr == 0x343 then c.mtval
    else if addr == 0x344 then InterruptBits(e)
    else if addr == 0xb00 then LowHalf(e.cycles)
    else if addr == 0xb80 then HighHalf(e.cycles)
    else if addr == 0xb02 then LowHalf(n)
    else if addr == 0xb82 then HighHalf(n)
    else 0
  }

  function NewValue(op: Isa.CsrOp, before: Word, src: Word): Word {
    match op
    case CsrWrite => src
    case CsrSet => before | src
    case CsrClear => before & !src
    case CsrReadOnly => before
  }

  /** The writable bits of `mie`: MEIE, MTIE, MSIE and those left to the platform. The
      supervisor's enables and the unassigned bits below 16 are read-only zero. */
  const MIE_WRITABLE: Word := 0xFFFF_0888

  function Masked(v: Word): Word { v & MIE_WRITABLE }

  predicate SetsReadOnlyBit(v: Word) { v & !MIE_WRITABLE != 0 }

  /** MODE of `mtvec` and the low bits of `mepc` hold only zeros. */
  function WriteCsr(c: Isa.Csrs, addr: bv12, v: Word): Isa.Csrs {
    if addr == 0x300 then c.(mie := Bit(v, 3), mpie := Bit(v, 7))
    else if addr == 0x304 then c.(mieReg := Masked(v))
    else if addr == 0x305 then c.(mtvec := ClearLow2(v))
    else if addr == 0x340 then c.(mscratch := v)
    else if addr == 0x341 then c.(mepc := ClearLow2(v))
    else if addr == 0x342 then c.(mcause := v)
    else if addr == 0x343 then c.(mtval := v)
    else c
  }

  function Access(c: Isa.Csrs, e: Isa.Env, n: bv64, op: Isa.CsrOp, addr: bv12, src: Word, rs1: RegIdx): Isa.Csrs {
    if Writes(op, rs1) then WriteCsr(c, addr, NewValue(op, ReadCsr(c, e, n, addr), src)) else c
  }

  // ---- Traps ----------------------------------------------------------------------------

  /** WFI, which may be a no-operation. */
  const WFI: Word := 0x1050_0073

  /** The synchronous exception of an instruction; misaligned targets are reported on the
      jump or taken branch. */
  function Exception(w: Word, pc: Word, a: Word, b: Word): Option<Word> {
    match Isa.Decode(w)
    case Undecoded => if w == WFI then None else Some(2)
    case Csr(op, _, addr, _) => if IllegalAccess(op, addr, Isa.Rs1(w)) then Some(2) else None
    case Ecall => Some(11)
    case Ebreak => Some(3)
    case Jal(_, imm) => if Aligned(Plus(pc, imm)) then None else Some(0)
    case Jalr(_, imm) => if Aligned(ClearLow1(Plus(a, imm))) then None else Some(0)
    case Branch(cond, imm) => if Isa.Holds(cond, a, b) && !Aligned(Plus(pc, imm)) then Some(0) else None
    case _ => None
  }

  /** Every interrupt outranks every synchronous exception. */
  function Trap(w: Word, pc: Word, a: Word, b: Word, c: Isa.Csrs, e: Isa.Env): Option<Word> {
    if Pending(c, e) then Some(InterruptCause(c, e)) else Exception(w, pc, a, b)
  }

  function Enter(c: Isa.Csrs, pc: Word, cause: Word): Isa.Csrs {
    c.(mepc := pc, mcause := cause, mtval := 0, mpie := c.mie, mie := false)
  }

  // ---- Data accesses: the addressed bytes, little endian ----------------------------------

  function LoadValue(kind: Isa.LoadKind, m: Memory, a: Word): Word {
    match kind
    case LoadByte => Sext8(ByteAt(m, a))
    case LoadByteU => ByteAt(m, a) as Word
    case LoadHalf => Sext16(CatHalf(ByteAt(m, Plus(a, 1)), ByteAt(m, a)))
    case LoadHalfU => CatHalf(ByteAt(m, Plus(a, 1)), ByteAt(m, a)) as Word
    case LoadWord => Cat(ByteAt(m, Plus(a, 3)), ByteAt(m, Plus(a, 2)), ByteAt(m, Plus(a, 1)), ByteAt(m, a))
  }

  function StoreValue(width: Isa.StoreKind, m: Memory, a: Word, v: Word): Memory {
    match width
    case StoreByte => Put(m, a, ByteOf(v, 0))
    case StoreHalf => Put(Put(m, a, ByteOf(v, 0)), Plus(a, 1), ByteOf(v, 1))
    case StoreWord =>
      Put(Put(Put(Put(m, a, ByteOf(v, 0)), Plus(a, 1), ByteOf(v, 1)), Plus(a, 2), ByteOf(v, 2)),
          Plus(a, 3), ByteOf(v, 3))
  }

  // ---- One step ------------------------------------------------------------------------------

  function Execute(w: Word, pc: Word, a: Word, b: Word, c: Isa.Csrs, e: Isa.Env, n: bv64): Isa.Effect {
    match Isa.Decode(w)
    case Csr(op, rd, addr, immediate) =>
      Isa.Effect(PcPlus4(pc), Isa.WriteReg(rd, ReadCsr(c, e, n, addr)), Isa.NoMem,
                 Access(c, e, n, op, addr, if immediate then Isa.Rs1(w) as Word else a, Isa.Rs1(w)))
    case Mret => Isa.Effect(ClearLow2(c.mepc), Isa.NoReg, Isa.NoMem, c.(mie := c.mpie, mpie := true))
    case _ =>
      var o := Isa.Ordinary(Isa.Decode(w), pc, a, b);
      Isa.Effect(o.next, o.reg, o.mem, c)
  }

  function Effect(p: Isa.Program, s: Isa.State, e: Isa.Env, n: bv64): Isa.Effect {
    var w := Isa.Fetch(p, s.pc);
    var a, b := GetReg(s.regs, Isa.Rs1(w)), GetReg(s.regs, Isa.Rs2(w));
    match Trap(w, s.pc, a, b, s.csrs, e)
    case Some(cause) => Isa.Effect(ClearLow2(s.csrs.mtvec), Isa.NoReg, Isa.NoMem, Enter(s.csrs, s.pc, cause))
    case None => Execute(w, s.pc, a, b, s.csrs, e, n)
  }

  function ApplyReg(r: Regs, m: Memory, fx: Isa.RegEffect): Regs {
    match fx
    case NoReg => r
    case WriteReg(rd, v) => SetReg(r, rd, v)
    case LoadReg(rd, kind, addr) => SetReg(r, rd, LoadValue(kind, m, addr))
  }

  function ApplyMem(m: Memory, fx: Isa.MemEffect): Memory {
    match fx
    case NoMem => m
    case StoreMem(width, addr, v) => StoreValue(width, m, addr, v)
  }

  function Step(p: Isa.Program, s: Isa.State, e: Isa.Env, n: bv64): Isa.State {
    var fx := Effect(p, s, e, n);
    Isa.State(fx.next, ApplyReg(s.regs, s.mem, fx.reg), ApplyMem(s.mem, fx.mem), fx.csrs)
  }

  function TrapAt(p: Isa.Program, s: Isa.State, e: Isa.Env): Option<Word> {
    var w := Isa.Fetch(p, s.pc);
    Trap(w, s.pc, GetReg(s.regs, Isa.Rs1(w)), GetReg(s.regs, Isa.Rs2(w)), s.csrs, e)
  }

  /** The counters run on their own, outside the state, until an instruction writes one:
      the register it names and the value. */
  datatype CounterWrite = CounterWrite(addr: bv12, value: Word)

  function CounterWritten(w: Word, a: Word, c: Isa.Csrs, e: Isa.Env, n: bv64): Option<CounterWrite> {
    match Isa.Decode(w)
    case Csr(op, _, addr, immediate) =>
      if IsCounter(addr) && Writes(op, Isa.Rs1(w)) then
        Some(CounterWrite(addr, NewValue(op, ReadCsr(c, e, n, addr), if immediate then Isa.Rs1(w) as Word else a)))
      else None
    case _ => None
  }

  function CounterEffect(p: Isa.Program, s: Isa.State, e: Isa.Env, n: bv64): Option<CounterWrite> {
    var w := Isa.Fetch(p, s.pc);
    if TrapAt(p, s, e).Some? then None else CounterWritten(w, GetReg(s.regs, Isa.Rs1(w)), s.csrs, e, n)
  }

  /** An instruction that traps does not retire. */
  function Retired(p: Isa.Program, s: Isa.State, e: Isa.Env, n: bv64): bv64 {
    if TrapAt(p, s, e).Some? then n else n + 1
  }

  // ---- Data accesses agree exactly when aligned ------------------------------------------------

  predicate LoadAligned(kind: Isa.LoadKind, a: Word) {
    match kind
    case LoadByte => true
    case LoadByteU => true
    case LoadHalf => a & 1 == 0
    case LoadHalfU => a & 1 == 0
    case LoadWord => Aligned(a)
  }

  predicate StoreAligned(width: Isa.StoreKind, a: Word) {
    match width
    case StoreByte => true
    case StoreHalf => a & 1 == 0
    case StoreWord => Aligned(a)
  }

  lemma AlignedLane0(a: Word)
    requires Aligned(a)
    ensures Lane(a, 0) == a
  {
  }

  lemma AlignedLane1(a: Word)
    requires Aligned(a)
    ensures Lane(a, 1) == Plus(a, 1)
  {
  }

  lemma AlignedLane2(a: Word)
    requires Aligned(a)
    ensures Lane(a, 2) == Plus(a, 2)
  {
  }

  lemma AlignedLane3(a: Word)
    requires Aligned(a)
    ensures Lane(a, 3) == Plus(a, 3)
  {
  }

  lemma AlignedHalf(a: Word)
    requires a & 1 == 0
    ensures ClearLow1(a) == a
    ensures a | 1 == Plus(a, 1)
  {
  }

  lemma LoadSame(kind: Isa.LoadKind, m: Memory, a: Word)
    requires LoadAligned(kind, a)
    ensures Isa.LoadValue(kind, m, a) == LoadValue(kind, m, a)
  {
    hide ByteAt, Cat, CatHalf, Sext8, Sext16, Lane, Plus, ClearLow1, Aligned;
    match kind
    case LoadHalf => AlignedHalf(a);
    case LoadHalfU => AlignedHalf(a);
    case LoadWord =>
      AlignedLane0(a);
      AlignedLane1(a);
      AlignedLane2(a);
      AlignedLane3(a);
    case _ =>
  }

  lemma StoreSame(width: Isa.StoreKind, m: Memory, a: Word, v: Word)
    requires StoreAligned(width, a)
    ensures Isa.StoreValue(width, m, a, v) == StoreValue(width, m, a, v)
  {
    hide ByteOf, Put, Lane, Plus, ClearLow1, Aligned;
    match width
    case StoreHalf => AlignedHalf(a);
    case StoreWord =>
      AlignedLane0(a);
      AlignedLane1(a);
      AlignedLane2(a);
      AlignedLane3(a);
    case _ =>
  }

  lemma WordLowByte(b3: bv8, b2: bv8, b1: bv8, b0: bv8)
    ensures ByteOf(Cat(b3, b2, b1, b0), 0) == b0
  {
  }

  lemma HalfLowByte(b1: bv8, b0: bv8)
    ensures ByteOf(Sext16(CatHalf(b1, b0)), 0) == b0
  {
  }

  lemma HalfLowByteU(b1: bv8, b0: bv8)
    ensures ByteOf(CatHalf(b1, b0) as Word, 0) == b0
  {
  }

  lemma MisalignedElsewhere(a: Word)
    ensures !Aligned(a) ==> Lane(a, 0) != a
    ensures a & 1 != 0 ==> ClearLow1(a) != a
  {
  }

  /** A misaligned load reads the wrong byte from a memory that holds 1 at its address. */
  lemma LoadDiffers(kind: Isa.LoadKind, a: Word) returns (m: Memory)
    requires !LoadAligned(kind, a)
    ensures Isa.LoadValue(kind, m, a) != LoadValue(kind, m, a)
  {
    m := map[At(a) := 1];
    hide Cat, CatHalf, Sext16, Lane, Plus, ClearLow1, Aligned, ByteOf;
    MisalignedElsewhere(a);
    var x, y := Isa.LoadValue(kind, m, a), LoadValue(kind, m, a);
    match kind {
      case LoadHalf =>
        HalfLowByte(ByteAt(m, a | 1), ByteAt(m, ClearLow1(a)));
        HalfLowByte(ByteAt(m, Plus(a, 1)), ByteAt(m, a));
      case LoadHalfU =>
        HalfLowByteU(ByteAt(m, a | 1), ByteAt(m, ClearLow1(a)));
        HalfLowByteU(ByteAt(m, Plus(a, 1)), ByteAt(m, a));
      case _ =>
        WordLowByte(ByteAt(m, Lane(a, 3)), ByteAt(m, Lane(a, 2)), ByteAt(m, Lane(a, 1)), ByteAt(m, Lane(a, 0)));
        WordLowByte(ByteAt(m, Plus(a, 3)), ByteAt(m, Plus(a, 2)), ByteAt(m, Plus(a, 1)), ByteAt(m, a));
    }
    assert ByteOf(x, 0) == 0 && ByteOf(y, 0) == 1;
  }

  lemma LastByteOutside(a: Word)
    requires !Aligned(a)
    ensures Plus(a, 3) != Lane(a, 0) && Plus(a, 3) != Lane(a, 1)
    ensures Plus(a, 3) != Lane(a, 2) && Plus(a, 3) != Lane(a, 3)
  {
  }

  lemma NextByteOutside(a: Word)
    requires a & 1 != 0
    ensures Plus(a, 1) != ClearLow1(a) && Plus(a, 1) != a | 1
  {
  }

  lemma AfterPut(m: Memory, k: Word, v: bv8, x: Word)
    ensures ByteAt(Put(m, k, v), x) == if x == k then v else ByteAt(m, x)
  {
  }

  lemma Complements(b: bv8)
    ensures !b != b
  {
  }

  /** A misaligned store does not reach its last byte. */
  lemma StoreDiffers(width: Isa.StoreKind, a: Word, v: Word) returns (m: Memory)
    requires !StoreAligned(width, a)
    ensures Isa.StoreValue(width, m, a, v) != StoreValue(width, m, a, v)
  {
    hide Lane, Plus, ClearLow1, Aligned, ByteOf, Put;
    if width.StoreHalf? {
      var x := Plus(a, 1);
      NextByteOutside(a);
      m := map[At(x) := !ByteOf(v, 1)];
      Complements(ByteOf(v, 1));
      AfterPut(m, ClearLow1(a), ByteOf(v, 0), x);
      AfterPut(Put(m, ClearLow1(a), ByteOf(v, 0)), a | 1, ByteOf(v, 1), x);
      AfterPut(Put(m, a, ByteOf(v, 0)), x, ByteOf(v, 1), x);
    } else {
      var x := Plus(a, 3);
      LastByteOutside(a);
      m := map[At(x) := !ByteOf(v, 3)];
      Complements(ByteOf(v, 3));
      var m0 := Put(m, Lane(a, 0), ByteOf(v, 0));
      var m1 := Put(m0, Lane(a, 1), ByteOf(v, 1));
      var m2 := Put(m1, Lane(a, 2), ByteOf(v, 2));
      AfterPut(m, Lane(a, 0), ByteOf(v, 0), x);
      AfterPut(m0, Lane(a, 1), ByteOf(v, 1), x);
      AfterPut(m1, Lane(a, 2), ByteOf(v, 2), x);
      AfterPut(m2, Lane(a, 3), ByteOf(v, 3), x);
      AfterPut(Put(Put(Put(m, a, ByteOf(v, 0)), Plus(a, 1), ByteOf(v, 1)), Plus(a, 2), ByteOf(v, 2)),
        x, ByteOf(v, 3), x);
    }
  }

  /** The core's access is the standard's on every memory exactly when the address is
      aligned to the width; otherwise the core rounds it down. */
  lemma AccessesAgreeExactly(kind: Isa.LoadKind, width: Isa.StoreKind, a: Word, v: Word)
    ensures (forall m: Memory :: Isa.LoadValue(kind, m, a) == LoadValue(kind, m, a)) <==> LoadAligned(kind, a)
    ensures (forall m: Memory :: Isa.StoreValue(width, m, a, v) == StoreValue(width, m, a, v))
       <==> StoreAligned(width, a)
  {
    hide Isa.LoadValue, LoadValue, Isa.StoreValue, StoreValue, LoadAligned, StoreAligned;
    if LoadAligned(kind, a) {
      forall m: Memory
        ensures Isa.LoadValue(kind, m, a) == LoadValue(kind, m, a)
      {
        LoadSame(kind, m, a);
      }
    } else {
      var m := LoadDiffers(kind, a);
    }
    if StoreAligned(width, a) {
      forall m: Memory
        ensures Isa.StoreValue(width, m, a, v) == StoreValue(width, m, a, v)
      {
        StoreSame(width, m, a, v);
      }
    } else {
      var m := StoreDiffers(width, a, v);
    }
  }

  // ---- Traps agree exactly outside the core's own choices ---------------------------------------

  function CoreTrap(w: Word, c: Isa.Csrs, e: Isa.Env): Option<Word> {
    var i := Isa.Decode(w);
    if Isa.Traps(i, c, e) then Some(Isa.Cause(i, c, e)) else None
  }

  lemma EnabledBits(c: Isa.Csrs, e: Isa.Env)
    requires c.mie
    ensures Enabled(c, e) & 0x800 != 0 <==> Bit(c.mieReg, 11) && e.ext
    ensures Enabled(c, e) & 8 != 0 <==> Bit(c.mieReg, 3) && e.soft
    ensures Enabled(c, e) & 0x80 != 0 <==> Bit(c.mieReg, 7) && e.timer
  {
  }

  lemma EnabledOnly(c: Isa.Csrs, e: Isa.Env)
    ensures Enabled(c, e) != 0 <==>
      Enabled(c, e) & 0x800 != 0 || Enabled(c, e) & 8 != 0 || Enabled(c, e) & 0x80 != 0
  {
  }

  function ArbitratedCause(c: Isa.Csrs, e: Isa.Env): Word {
    if Isa.ExtTaken(c, e) then 0x8000_000b else if Isa.SoftTaken(c, e) then 0x8000_0003 else 0x8000_0007
  }

  /** The core's arbitration is the standard's among interrupts. */
  lemma InterruptsAgree(c: Isa.Csrs, e: Isa.Env)
    ensures Pending(c, e) <==> Isa.InterruptPending(c, e)
    ensures Pending(c, e) ==> InterruptCause(c, e) == ArbitratedCause(c, e)
  {
    hide Bit, InterruptBits;
    EnabledOnly(c, e);
    if c.mie {
      EnabledBits(c, e);
    }
    hide Enabled;
  }

  /** The trap is taken but its cause is the core's: 8 for an ECALL from machine mode where
      the standard has 11, and the instruction's own cause where an interrupt is pending. */
  predicate CauseDiffers(w: Word, c: Isa.Csrs, e: Isa.Env) {
    Isa.Decode(w).Ecall? || (Isa.Decode(w).Ebreak? && Pending(c, e))
  }

  /** The core goes on where the standard traps: it has no illegal-instruction and no
      misaligned-fetch exception, and takes no interrupt on an opcode it does not know. */
  predicate TrapMissing(w: Word, pc: Word, a: Word, b: Word, c: Isa.Csrs, e: Isa.Env) {
    var i := Isa.Decode(w);
    if Pending(c, e) then i.Undecoded?
    else !i.Ecall? && !i.Ebreak? && Exception(w, pc, a, b).Some?
  }

  lemma EcallCauses(c: Isa.Csrs, e: Isa.Env, pc: Word, a: Word, b: Word)
    ensures CoreTrap(0x0000_0073, c, e) == Some(8)
    ensures !Pending(c, e) ==> Trap(0x0000_0073, pc, a, b, c, e) == Some(11)
  {
    hide Isa.InterruptPending, Pending, Bit;
    assert Isa.Decode(0x0000_0073) == Isa.Ecall;
  }

  /** Trap or no trap, and its cause, are the standard's exactly outside those two. */
  lemma TrapsAgreeExactly(w: Word, pc: Word, a: Word, b: Word, c: Isa.Csrs, e: Isa.Env)
    ensures CoreTrap(w, c, e) == Trap(w, pc, a, b, c, e)
       <==> !CauseDiffers(w, c, e) && !TrapMissing(w, pc, a, b, c, e)
    ensures CoreTrap(w, c, e).Some? == Trap(w, pc, a, b, c, e).Some? <==> !TrapMissing(w, pc, a, b, c, e)
  {
    hide Isa.Decode, Isa.Holds, Isa.Rs1, Aligned, Plus, ClearLow1, IllegalAccess, Pending, InterruptCause;
    hide Isa.InterruptPending, Isa.ExtTaken, Isa.SoftTaken;
    InterruptsAgree(c, e);
  }

  // ---- Steps ----------------------------------------------------------------------------------

  /** What the core shows of a counter is what the standard's counter holds. The core has
      no upper halves, and its count of retired instructions is its own. */
  predicate CounterShown(e: Isa.Env, n: bv64, addr: bv12) {
    && (addr == 0xb02 ==> e.minstret == LowHalf(n))
    && (addr == 0xb80 ==> HighHalf(e.cycles) == 0)
    && (addr == 0xb82 ==> HighHalf(n) == 0)
  }

  lemma CsrReadsAgree(c: Isa.Csrs, e: Isa.Env, n: bv64, addr: bv12)
    ensures Isa.ReadCsr(c, e, addr) == ReadCsr(c, e, n, addr) <==> CounterShown(e, n, addr)
  {
    MipAgrees(e);
    StatusAgrees(c);
    hide ClearLow2, InterruptBits, Isa.Mip, Status, LowHalf, HighHalf;
  }

  lemma MipAgrees(e: Isa.Env)
    ensures Isa.Mip(e) == InterruptBits(e)
  {
  }

  lemma StatusAgrees(c: Isa.Csrs)
    ensures Status(c) == 0x1800 | (if c.mie then 0x08 else 0) | (if c.mpie then 0x80 else 0)
  {
  }

  lemma CsrWritesAgree(c: Isa.Csrs, addr: bv12, v: Word)
    ensures Isa.WriteCsr(c, addr, v) == WriteCsr(c, addr, v) <==> addr != 0x304 || !SetsReadOnlyBit(v)
  {
    MaskedSame(v);
    hide ClearLow2, Bit, Masked, SetsReadOnlyBit;
  }

  lemma MaskedSame(v: Word)
    ensures Masked(v) == v <==> !SetsReadOnlyBit(v)
  {
  }

  /** The register it reads and the register it writes are the standard's: the access writes
      no counter, sets no read-only bit of `mie`, and shows no counter the core gets wrong. */
  predicate AccessConforms(op: Isa.CsrOp, rd: RegIdx, addr: bv12, rs1: RegIdx, src: Word, c: Isa.Csrs, e: Isa.Env,
                           n: bv64)
  {
    && (Writes(op, rs1) ==> !IsCounter(addr) && (addr == 0x304 ==> !SetsReadOnlyBit(NewValue(op, c.mieReg, src))))
    && (rd == 0 || CounterShown(e, n, addr))
  }

  predicate CsrConforms(w: Word, a: Word, c: Isa.Csrs, e: Isa.Env, n: bv64) {
    match Isa.Decode(w)
    case Csr(op, rd, addr, immediate) =>
      AccessConforms(op, rd, addr, Isa.Rs1(w), if immediate then Isa.Rs1(w) as Word else a, c, e, n)
    case _ => true
  }

  lemma NotCounterShown(e: Isa.Env, n: bv64, addr: bv12)
    requires !IsCounter(addr)
    ensures CounterShown(e, n, addr)
  {
  }

  lemma AccessAgrees(c: Isa.Csrs, e: Isa.Env, n: bv64, op: Isa.CsrOp, addr: bv12, src: Word, rs1: RegIdx)
    requires Writes(op, rs1) ==> !IsCounter(addr)
    ensures Isa.UpdateCsr(c, e, op, addr, src, rs1 == 0) == Access(c, e, n, op, addr, src, rs1)
       <==> !Writes(op, rs1) || addr != 0x304 || !SetsReadOnlyBit(NewValue(op, c.mieReg, src))
  {
    assert ReadCsr(c, e, n, 0x304) == c.mieReg;
    if Writes(op, rs1) {
      NotCounterShown(e, n, addr);
      CsrReadsAgree(c, e, n, addr);
      CsrWritesAgree(c, addr, NewValue(op, ReadCsr(c, e, n, addr), src));
    }
    hide Isa.ReadCsr, ReadCsr, Isa.WriteCsr, WriteCsr, IsCounter, SetsReadOnlyBit;
  }

  lemma ConformingAccess(op: Isa.CsrOp, rd: RegIdx, addr: bv12, rs1: RegIdx, src: Word, c: Isa.Csrs, e: Isa.Env,
                         n: bv64)
    requires AccessConforms(op, rd, addr, rs1, src, c, e, n)
    ensures rd == 0 || Isa.ReadCsr(c, e, addr) == ReadCsr(c, e, n, addr)
    ensures Isa.UpdateCsr(c, e, op, addr, src, rs1 == 0) == Access(c, e, n, op, addr, src, rs1)
  {
    hide Isa.ReadCsr, ReadCsr, Isa.UpdateCsr, Access, SetsReadOnlyBit, CounterShown, NewValue, IsCounter;
    CsrReadsAgree(c, e, n, addr);
    AccessAgrees(c, e, n, op, addr, src, rs1);
  }

  /** A write to x0 shows nothing. */
  predicate SameWrite(x: Isa.RegEffect, y: Isa.RegEffect) {
    x == y || (x.WriteReg? && y.WriteReg? && x.rd == 0 && y.rd == 0)
  }

  lemma ExecutesAgree(w: Word, pc: Word, a: Word, b: Word, c: Isa.Csrs, e: Isa.Env, n: bv64)
    requires CsrConforms(w, a, c, e, n)
    ensures var fx, gx := Isa.Execute(w, pc, a, b, c, e), Execute(w, pc, a, b, c, e, n);
      fx.next == gx.next && fx.mem == gx.mem && fx.csrs == gx.csrs && SameWrite(fx.reg, gx.reg)
  {
    hide Isa.Decode, PcPlus4, ClearLow2, Isa.Rs1, Isa.ReadCsr, ReadCsr, Isa.UpdateCsr, Access, AccessConforms,
      Isa.Ordinary;
    var i := Isa.Decode(w);
    if i.Csr? {
      ConformingAccess(i.op, i.rd, i.addr, Isa.Rs1(w), if i.immediate then Isa.Rs1(w) as Word else a, c, e, n);
    }
  }

  /** A data access the core rounds down: a load into x0 shows nothing. */
  predicate DataAligned(w: Word, a: Word) {
    match Isa.Decode(w)
    case Load(kind, rd, imm) => rd == 0 || LoadAligned(kind, Plus(a, imm))
    case Store(width, imm) => StoreAligned(width, Plus(a, imm))
    case _ => true
  }

  predicate StepTraps(p: Isa.Program, s: Isa.State, e: Isa.Env) {
    Isa.Traps(Isa.Decode(Isa.Fetch(p, s.pc)), s.csrs, e)
  }

  /** The step does what the standard says, its cause register aside; `n` instructions have
      retired before it. */
  predicate ConformsButCause(p: Isa.Program, s: Isa.State, e: Isa.Env, n: bv64) {
    var w := Isa.Fetch(p, s.pc);
    var a, b := GetReg(s.regs, Isa.Rs1(w)), GetReg(s.regs, Isa.Rs2(w));
    && !TrapMissing(w, s.pc, a, b, s.csrs, e)
    && (StepTraps(p, s, e) || (DataAligned(w, a) && CsrConforms(w, a, s.csrs, e, n)))
  }

  predicate Conforms(p: Isa.Program, s: Isa.State, e: Isa.Env, n: bv64) {
    ConformsButCause(p, s, e, n) && !CauseDiffers(Isa.Fetch(p, s.pc), s.csrs, e)
  }

  lemma AlignedPc(pc: Word)
    requires Aligned(pc)
    ensures ClearLow2(pc) == pc
  {
  }

  /** The standard's state with the core's cause. */
  function WithCause(t: Isa.State, s: Isa.State): Isa.State {
    t.(csrs := t.csrs.(mcause := s.csrs.mcause))
  }

  lemma TrapStep(p: Isa.Program, s: Isa.State, e: Isa.Env, n: bv64)
    requires Aligned(s.pc) && ConformsButCause(p, s, e, n) && StepTraps(p, s, e)
    ensures Isa.Step(p, s, e) == WithCause(Step(p, s, e, n), Isa.Step(p, s, e))
    ensures CounterEffect(p, s, e, n) == None
  {
    var w := Isa.Fetch(p, s.pc);
    var a, b := GetReg(s.regs, Isa.Rs1(w)), GetReg(s.regs, Isa.Rs2(w));
    TrapsAgreeExactly(w, s.pc, a, b, s.csrs, e);
    AlignedPc(s.pc);
    hide Isa.Fetch, Isa.Decode, GetReg, Isa.Rs1, Isa.Rs2, ClearLow2, Aligned, Isa.Cause, Trap, TrapMissing, Execute,
      Isa.Execute, Isa.Traps, DataAligned, CsrConforms, CounterWritten;
  }

  lemma OutcomeAccess(w: Word, pc: Word, a: Word, b: Word)
    requires DataAligned(w, a)
    ensures var o := Isa.Ordinary(Isa.Decode(w), pc, a, b);
      && (o.reg.LoadReg? ==> o.reg.rd == 0 || LoadAligned(o.reg.kind, o.reg.addr))
      && (o.mem.StoreMem? ==> StoreAligned(o.mem.width, o.mem.addr))
  {
    hide Isa.Decode, Isa.Compute, Isa.Holds, Plus, PcPlus4, ClearLow1, LoadAligned, StoreAligned;
  }

  lemma ExecutedAccess(w: Word, pc: Word, a: Word, b: Word, c: Isa.Csrs, e: Isa.Env)
    requires DataAligned(w, a)
    ensures var fx := Isa.Execute(w, pc, a, b, c, e);
      && (fx.reg.LoadReg? ==> fx.reg.rd == 0 || LoadAligned(fx.reg.kind, fx.reg.addr))
      && (fx.mem.StoreMem? ==> StoreAligned(fx.mem.width, fx.mem.addr))
  {
    hide Isa.Decode, Isa.Ordinary, PcPlus4, ClearLow2, Isa.Rs1, Isa.ReadCsr, Isa.UpdateCsr, LoadAligned, StoreAligned,
      DataAligned;
    OutcomeAccess(w, pc, a, b);
  }

  lemma AppliesSame(r: Regs, m: Memory, reg: Isa.RegEffect, same: Isa.RegEffect, mem: Isa.MemEffect)
    requires SameWrite(reg, same)
    requires reg.LoadReg? ==> reg.rd == 0 || LoadAligned(reg.kind, reg.addr)
    requires mem.StoreMem? ==> StoreAligned(mem.width, mem.addr)
    ensures Isa.ApplyReg(r, m, reg) == ApplyReg(r, m, same)
    ensures Isa.ApplyMem(m, mem) == ApplyMem(m, mem)
  {
    if reg.LoadReg? && reg.rd != 0 {
      LoadSame(reg.kind, m, reg.addr);
    }
    if mem.StoreMem? {
      StoreSame(mem.width, m, mem.addr, mem.value);
    }
    hide LoadAligned, StoreAligned, Isa.LoadValue, LoadValue, Isa.StoreValue, StoreValue;
  }

  lemma NoCounterWritten(w: Word, a: Word, c: Isa.Csrs, e: Isa.Env, n: bv64)
    requires CsrConforms(w, a, c, e, n)
    ensures CounterWritten(w, a, c, e, n) == None
  {
    hide Isa.Decode, Isa.Rs1, SetsReadOnlyBit, CounterShown, IsCounter, Writes, ReadCsr;
  }

  lemma PlainStep(p: Isa.Program, s: Isa.State, e: Isa.Env, n: bv64)
    requires ConformsButCause(p, s, e, n) && !StepTraps(p, s, e)
    ensures Isa.Step(p, s, e) == Step(p, s, e, n)
    ensures CounterEffect(p, s, e, n) == None
  {
    var w := Isa.Fetch(p, s.pc);
    var a, b := GetReg(s.regs, Isa.Rs1(w)), GetReg(s.regs, Isa.Rs2(w));
    TrapsAgreeExactly(w, s.pc, a, b, s.csrs, e);
    ExecutesAgree(w, s.pc, a, b, s.csrs, e, n);
    NoCounterWritten(w, a, s.csrs, e, n);
    ExecutedAccess(w, s.pc, a, b, s.csrs, e);
    var fx := Isa.Execute(w, s.pc, a, b, s.csrs, e);
    AppliesSame(s.regs, s.mem, fx.reg, Execute(w, s.pc, a, b, s.csrs, e, n).reg, fx.mem);
    hide Isa.Fetch, Isa.Decode, GetReg, Isa.Rs1, Isa.Rs2, Trap, TrapMissing, Execute, Isa.Execute, Isa.Traps,
      DataAligned, CsrConforms, CounterWritten, SameWrite, ApplyReg, ApplyMem, Isa.ApplyReg, Isa.ApplyMem, Isa.Cause,
      LoadAligned, StoreAligned;
  }

  /** A conforming step is the standard's; one that differs in its cause differs in
      nothing else. */
  lemma ConformingStep(p: Isa.Program, s: Isa.State, e: Isa.Env, n: bv64)
    requires Aligned(s.pc) && ConformsButCause(p, s, e, n)
    ensures Isa.Step(p, s, e) == WithCause(Step(p, s, e, n), Isa.Step(p, s, e))
    ensures Conforms(p, s, e, n) ==> Isa.Step(p, s, e) == Step(p, s, e, n)
    ensures CounterEffect(p, s, e, n) == None
    ensures Retired(p, s, e, n) == if StepTraps(p, s, e) then n else n + 1
  {
    TrapsAlike(p, s, e, n);
    hide ConformsButCause, StepTraps, Isa.Step, Step, TrapAt, CounterEffect, CauseDiffers;
    if StepTraps(p, s, e) {
      TrapStep(p, s, e, n);
      if Conforms(p, s, e, n) {
        SameCause(p, s, e, n);
      }
    } else {
      PlainStep(p, s, e, n);
    }
  }

  lemma TrapsAlike(p: Isa.Program, s: Isa.State, e: Isa.Env, n: bv64)
    requires ConformsButCause(p, s, e, n)
    ensures StepTraps(p, s, e) <==> TrapAt(p, s, e).Some?
  {
    var w := Isa.Fetch(p, s.pc);
    TrapsAgreeExactly(w, s.pc, GetReg(s.regs, Isa.Rs1(w)), GetReg(s.regs, Isa.Rs2(w)), s.csrs, e);
    hide Isa.Fetch, Isa.Decode, GetReg, Isa.Rs1, Isa.Rs2, Trap, TrapMissing, Isa.Traps, Isa.Cause, DataAligned,
      CsrConforms;
  }

  lemma SameCause(p: Isa.Program, s: Isa.State, e: Isa.Env, n: bv64)
    requires Conforms(p, s, e, n) && StepTraps(p, s, e)
    ensures Isa.Step(p, s, e).csrs.mcause == Step(p, s, e, n).csrs.mcause
  {
    var w := Isa.Fetch(p, s.pc);
    var a, b := GetReg(s.regs, Isa.Rs1(w)), GetReg(s.regs, Isa.Rs2(w));
    TrapsAgreeExactly(w, s.pc, a, b, s.csrs, e);
    hide Isa.Fetch, Isa.Decode, GetReg, Isa.Rs1, Isa.Rs2, Isa.Cause, Trap, TrapMissing, Execute, Isa.Execute, Isa.Traps,
      CauseDiffers, DataAligned, CsrConforms, ClearLow2;
  }

  // ---- Exactly these steps ---------------------------------------------------------------------

  /** The trap decision at `s`, the core's and the standard's. */
  predicate SameTrap(p: Isa.Program, s: Isa.State, e: Isa.Env) {
    CoreTrap(Isa.Fetch(p, s.pc), s.csrs, e) == TrapAt(p, s, e)
  }

  /** The same next state, and no counter written: the core's counters always run on. */
  predicate SameStep(p: Isa.Program, s: Isa.State, e: Isa.Env, n: bv64) {
    Isa.Step(p, s, e) == Step(p, s, e, n) && CounterEffect(p, s, e, n) == None
  }

  function OnMemory(s: Isa.State, m: Memory): Isa.State {
    s.(mem := m)
  }

  /** What runs where neither machine traps. */
  lemma NoTrapSteps(p: Isa.Program, s: Isa.State, e: Isa.Env, n: bv64)
    requires !StepTraps(p, s, e) && SameTrap(p, s, e)
    ensures var w := Isa.Fetch(p, s.pc);
      var a, b := GetReg(s.regs, Isa.Rs1(w)), GetReg(s.regs, Isa.Rs2(w));
      var fx, gx := Isa.Execute(w, s.pc, a, b, s.csrs, e), Execute(w, s.pc, a, b, s.csrs, e, n);
      && Isa.Step(p, s, e)
         == Isa.State(fx.next, Isa.ApplyReg(s.regs, s.mem, fx.reg), Isa.ApplyMem(s.mem, fx.mem), fx.csrs)
      && Step(p, s, e, n) == Isa.State(gx.next, ApplyReg(s.regs, s.mem, gx.reg), ApplyMem(s.mem, gx.mem), gx.csrs)
      && CounterEffect(p, s, e, n) == CounterWritten(w, a, s.csrs, e, n)
  {
    hide Isa.Fetch, Isa.Decode, GetReg, Isa.Rs1, Isa.Rs2, Trap, Isa.Traps, Isa.Cause, Isa.Execute, Execute, ApplyReg,
      ApplyMem, Isa.ApplyReg, Isa.ApplyMem, CounterWritten;
  }

  lemma SetDiffers(r: Regs, rd: RegIdx, x: Word, y: Word)
    requires rd != 0 && x != y
    ensures SetReg(r, rd, x) != SetReg(r, rd, y)
  {
    assert SetReg(r, rd, x)[rd as nat] == x && SetReg(r, rd, y)[rd as nat] == y;
  }

  lemma LoadShows(p: Isa.Program, s: Isa.State, e: Isa.Env, n: bv64) returns (m: Memory)
    requires !StepTraps(p, s, e) && SameTrap(p, s, e)
    requires var w := Isa.Fetch(p, s.pc);
      Isa.Decode(w).Load? && !DataAligned(w, GetReg(s.regs, Isa.Rs1(w)))
    ensures !SameStep(p, OnMemory(s, m), e, n)
  {
    var w := Isa.Fetch(p, s.pc);
    var i := Isa.Decode(w);
    var a := Plus(GetReg(s.regs, Isa.Rs1(w)), i.imm);
    m := LoadDiffers(i.kind, a);
    SetDiffers(s.regs, i.rd, Isa.LoadValue(i.kind, m, a), LoadValue(i.kind, m, a));
    NoTrapSteps(p, OnMemory(s, m), e, n);
    hide Isa.Fetch, Isa.Decode, GetReg, SetReg, Isa.Rs1, Isa.Rs2, Plus, PcPlus4, Isa.LoadValue, LoadValue, LoadAligned,
      Isa.Step, Step, StepTraps, TrapAt, CoreTrap, CounterEffect;
  }

  lemma StoreShows(p: Isa.Program, s: Isa.State, e: Isa.Env, n: bv64) returns (m: Memory)
    requires !StepTraps(p, s, e) && SameTrap(p, s, e)
    requires var w := Isa.Fetch(p, s.pc);
      Isa.Decode(w).Store? && !DataAligned(w, GetReg(s.regs, Isa.Rs1(w)))
    ensures !SameStep(p, OnMemory(s, m), e, n)
  {
    var w := Isa.Fetch(p, s.pc);
    var i := Isa.Decode(w);
    m := StoreDiffers(i.width, Plus(GetReg(s.regs, Isa.Rs1(w)), i.imm), GetReg(s.regs, Isa.Rs2(w)));
    NoTrapSteps(p, OnMemory(s, m), e, n);
    hide Isa.Fetch, Isa.Decode, GetReg, Isa.Rs1, Isa.Rs2, Plus, PcPlus4, Isa.StoreValue, StoreValue, StoreAligned,
      Isa.Step, Step, StepTraps, TrapAt, CoreTrap, CounterEffect;
  }

  /** The CSR instruction at `s`, with its source operand. */
  function CsrSource(w: Word, s: Isa.State): Word
    requires Isa.Decode(w).Csr?
  {
    if Isa.Decode(w).immediate then Isa.Rs1(w) as Word else GetReg(s.regs, Isa.Rs1(w))
  }

  lemma CsrSteps(p: Isa.Program, s: Isa.State, e: Isa.Env, n: bv64)
    requires !StepTraps(p, s, e) && SameTrap(p, s, e) && Isa.Decode(Isa.Fetch(p, s.pc)).Csr?
    ensures var w := Isa.Fetch(p, s.pc);
      var i, rs1, src := Isa.Decode(w), Isa.Rs1(w), CsrSource(w, s);
      var x, y := Isa.Step(p, s, e), Step(p, s, e, n);
      && x.regs == SetReg(s.regs, i.rd, Isa.ReadCsr(s.csrs, e, i.addr))
      && y.regs == SetReg(s.regs, i.rd, ReadCsr(s.csrs, e, n, i.addr))
      && x.csrs == Isa.UpdateCsr(s.csrs, e, i.op, i.addr, src, rs1 == 0)
      && y.csrs == Access(s.csrs, e, n, i.op, i.addr, src, rs1)
      && CounterEffect(p, s, e, n)
         == if IsCounter(i.addr) && Writes(i.op, rs1)
            then Some(CounterWrite(i.addr, NewValue(i.op, ReadCsr(s.csrs, e, n, i.addr), src))) else None
  {
    NoTrapSteps(p, s, e, n);
    hide Isa.Fetch, Isa.Decode, GetReg, SetReg, Isa.Rs1, Isa.Rs2, PcPlus4, Isa.ReadCsr, ReadCsr, Isa.UpdateCsr, Access,
      Writes, IsCounter, NewValue, Isa.Step, Step, StepTraps, TrapAt, CoreTrap, CounterEffect;
  }

  lemma CsrShows(p: Isa.Program, s: Isa.State, e: Isa.Env, n: bv64)
    requires !StepTraps(p, s, e) && SameTrap(p, s, e)
    requires var w := Isa.Fetch(p, s.pc);
      !CsrConforms(w, GetReg(s.regs, Isa.Rs1(w)), s.csrs, e, n)
    ensures !SameStep(p, s, e, n)
  {
    hide Isa.Fetch, Isa.Decode, GetReg, SetReg, Isa.Rs1, Isa.ReadCsr, ReadCsr, Isa.UpdateCsr, Access, AccessConforms,
      Writes, IsCounter, NewValue, Isa.Step, Step, StepTraps, SameTrap, CounterEffect;
    var w := Isa.Fetch(p, s.pc);
    var i := Isa.Decode(w);
    CsrSteps(p, s, e, n);
    AccessShows(i.op, i.rd, i.addr, Isa.Rs1(w), CsrSource(w, s), s.csrs, e, n);
    if i.rd != 0 && Isa.ReadCsr(s.csrs, e, i.addr) != ReadCsr(s.csrs, e, n, i.addr) {
      SetDiffers(s.regs, i.rd, Isa.ReadCsr(s.csrs, e, i.addr), ReadCsr(s.csrs, e, n, i.addr));
    }
  }

  lemma AccessShows(op: Isa.CsrOp, rd: RegIdx, addr: bv12, rs1: RegIdx, src: Word, c: Isa.Csrs, e: Isa.Env, n: bv64)
    requires !AccessConforms(op, rd, addr, rs1, src, c, e, n)
    ensures || (rd != 0 && Isa.ReadCsr(c, e, addr) != ReadCsr(c, e, n, addr))
            || (IsCounter(addr) && Writes(op, rs1))
            || Isa.UpdateCsr(c, e, op, addr, src, rs1 == 0) != Access(c, e, n, op, addr, src, rs1)
  {
    hide Isa.ReadCsr, ReadCsr, Isa.UpdateCsr, Access, SetsReadOnlyBit, CounterShown, NewValue, IsCounter, Writes;
    CsrReadsAgree(c, e, n, addr);
    if !(IsCounter(addr) && Writes(op, rs1)) {
      AccessAgrees(c, e, n, op, addr, src, rs1);
    }
  }

  /** The core takes the standard's trap decision, and the standard's step on every
      memory, exactly where `Conforms` holds. */
  lemma ConformsExactly(p: Isa.Program, s: Isa.State, e: Isa.Env, n: bv64)
    requires Aligned(s.pc)
    ensures SameTrap(p, s, e) && (forall m: Memory :: SameStep(p, OnMemory(s, m), e, n)) <==> Conforms(p, s, e, n)
  {
    hide Isa.Step, Step, Isa.Fetch, Isa.Decode, GetReg, Isa.Rs1, Isa.Rs2, Trap, CoreTrap, TrapMissing, CauseDiffers,
      Isa.Traps, Aligned, CounterEffect, CsrConforms;
    var w := Isa.Fetch(p, s.pc);
    TrapsAgreeExactly(w, s.pc, GetReg(s.regs, Isa.Rs1(w)), GetReg(s.regs, Isa.Rs2(w)), s.csrs, e);
    if Conforms(p, s, e, n) {
      forall m: Memory
        ensures SameStep(p, OnMemory(s, m), e, n)
      {
        assert Conforms(p, OnMemory(s, m), e, n);
        ConformingStep(p, OnMemory(s, m), e, n);
      }
    } else if SameTrap(p, s, e) {
      if !CsrConforms(w, GetReg(s.regs, Isa.Rs1(w)), s.csrs, e, n) {
        CsrShows(p, s, e, n);
        assert OnMemory(s, s.mem) == s;
      } else if Isa.Decode(w).Load? {
        var m := LoadShows(p, s, e, n);
      } else {
        var m := StoreShows(p, s, e, n);
      }
    }
  }

  // ---- One input for each kind of access ---------------------------------------------------------

  /** Neither machine traps on an access to a required register below the read-only ones. */
  lemma NeitherTraps(p: Isa.Program, s: Isa.State, e: Isa.Env)
    requires var i := Isa.Decode(Isa.Fetch(p, s.pc)); i.Csr? && Required(i.addr) && i.addr < 0xc00
    requires !Pending(s.csrs, e)
    ensures !StepTraps(p, s, e) && SameTrap(p, s, e)
  {
    hide Isa.Fetch, Isa.Decode, GetReg, Isa.Rs1, Isa.Rs2, Isa.InterruptPending, Pending, Required, Isa.Cause;
    InterruptsAgree(s.csrs, e);
  }

  lemma MieWord()
    ensures Isa.Decode(0x3040_9073) == Isa.Csr(Isa.CsrWrite, 0, 0x304, false) && Isa.Rs1(0x3040_9073) == 1
  {
  }

  lemma MieWritten(c: Isa.Csrs, e: Isa.Env, n: bv64, v: Word)
    ensures Isa.UpdateCsr(c, e, Isa.CsrWrite, 0x304, v, false).mieReg == v
    ensures Access(c, e, n, Isa.CsrWrite, 0x304, v, 1).mieReg == Masked(v)
  {
    hide Isa.ReadCsr, ReadCsr, Masked;
  }

  /** `csrrw x0, mie, x1`: bits 9, 5 and 1 stay in the core and are gone in the standard. */
  lemma MieKeepsReadOnlyBits(p: Isa.Program, s: Isa.State, e: Isa.Env, n: bv64)
    requires Isa.Fetch(p, s.pc) == 0x3040_9073 && GetReg(s.regs, 1) == 0x222 && !Pending(s.csrs, e)
    ensures Isa.Step(p, s, e).csrs.mieReg == 0x222
    ensures Step(p, s, e, n).csrs.mieReg == 0
  {
    hide Isa.Fetch, Isa.Decode, Isa.Rs1, GetReg, SetReg, Pending, ReadCsr, Isa.ReadCsr, Isa.UpdateCsr, Access, Isa.Step,
      Step, StepTraps, SameTrap, CounterEffect;
    MieWord();
    NeitherTraps(p, s, e);
    CsrSteps(p, s, e, n);
    MieWritten(s.csrs, e, n, 0x222);
  }

  lemma CycleWord()
    ensures Isa.Decode(0xB000_9073) == Isa.Csr(Isa.CsrWrite, 0, 0xb00, false) && Isa.Rs1(0xB000_9073) == 1
  {
  }

  /** `csrrw x0, mcycle, x1` writes the counter in the standard, nothing in the core. */
  lemma CounterWriteLost(p: Isa.Program, s: Isa.State, e: Isa.Env, n: bv64)
    requires Isa.Fetch(p, s.pc) == 0xB000_9073 && !Pending(s.csrs, e)
    ensures Isa.Step(p, s, e).csrs == s.csrs
    ensures CounterEffect(p, s, e, n) == Some(CounterWrite(0xb00, GetReg(s.regs, 1)))
  {
    hide Isa.Fetch, Isa.Decode, Isa.Rs1, GetReg, SetReg, Pending, ReadCsr, Isa.ReadCsr, Access, Isa.Step, Step,
      StepTraps, SameTrap, CounterEffect, ClearLow2, Bit;
    CycleWord();
    NeitherTraps(p, s, e);
    CsrSteps(p, s, e, n);
  }

  lemma CycleHighWord()
    ensures Isa.Decode(0xB800_20F3) == Isa.Csr(Isa.CsrSet, 1, 0xb80, false) && Isa.Rs1(0xB800_20F3) == 0
  {
  }

  /** `csrrs x1, mcycleh, x0` reads 0 in the core and the upper half in the standard. */
  lemma CounterHalfLost(p: Isa.Program, s: Isa.State, e: Isa.Env, n: bv64)
    requires Isa.Fetch(p, s.pc) == 0xB800_20F3 && !Pending(s.csrs, e)
    ensures GetReg(Isa.Step(p, s, e).regs, 1) == 0
    ensures GetReg(Step(p, s, e, n).regs, 1) == HighHalf(e.cycles)
  {
    hide Isa.Fetch, Isa.Decode, Isa.Rs1, Pending, Isa.UpdateCsr, Access, Isa.Step, Step, StepTraps, SameTrap,
      CounterEffect, HighHalf;
    CycleHighWord();
    NeitherTraps(p, s, e);
    CsrSteps(p, s, e, n);
  }
}
