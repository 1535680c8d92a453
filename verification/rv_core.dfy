/**
 One clock edge of the five-stage core, as a function from register state to
 register state (modules/core/rtl/riscv_core.sv with if_stage.sv, csr_file.sv and
 memories.sv inside it).  Every field is a hardware register or a memory array.
 */
module RvCore {
  import opened Basics
  import opened Rv32iPkg
  import opened RvStages
  import Isa = RvIsa

  // ---- if_stage: PC register and branch predictor -----------------------------

  type Bht = s: seq<bv2> | |s| == 64 witness seq(64, i => 1)
  type Btb = s: seq<Word> | |s| == 64 witness seq(64, i => 4)
  type BtbTags = s: seq<bv24> | |s| == 64 witness seq(64, i => 0xFF_FFFF)

  datatype IfState = IfState(pc: Word, bht: Bht, btb: Btb, tags: BtbTags)

  function BhtIdx(pc: Word): (i: nat)
    ensures i < 64
  {
    (((pc >> 2) & 0x3F) as bv6) as nat
  }

  function TagOf(pc: Word): bv24 { (pc >> 8) as bv24 }

  predicate PredictTaken(f: IfState) {
    f.bht[BhtIdx(f.pc)] & 2 != 0 && f.tags[BhtIdx(f.pc)] == TagOf(f.pc)
  }

  function Saturate(counter: bv2, taken: bool): bv2 {
    if taken then (if counter == 3 then 3 else counter + 1)
    else (if counter == 0 then 0 else counter - 1)
  }

  /** What EX tells the fetch stage in one cycle. */
  datatype Resolve = Resolve(
    branchValid: bool, branchTaken: bool, pc: Word, branchTarget: Word,
    jumpValid: bool, jumpTarget: Word, trapValid: bool, trapTarget: Word, predicted: bool)

  predicate BogusRedirect(r: Resolve) { r.predicted && !r.branchValid && !r.jumpValid }

  predicate Mispredicted(r: Resolve) {
    BogusRedirect(r) || (r.branchValid && r.branchTaken != r.predicted)
  }

  predicate Redirect(r: Resolve) { r.trapValid || r.jumpValid || Mispredicted(r) }

  function PcNext(f: IfState, r: Resolve): Word {
    if r.trapValid then r.trapTarget
    else if r.jumpValid then r.jumpTarget
    else if Mispredicted(r) then
      if r.branchValid && r.branchTaken then r.branchTarget else PcPlus4(r.pc)
    else if PredictTaken(f) then f.btb[BhtIdx(f.pc)]
    else PcPlus4(f.pc)
  }

  /** Weakly not taken everywhere, a harmless target, and a tag of all ones. */
  function IfAtReset(): IfState {
    IfState(0, Repeat(64, 1), Repeat(64, 4), Repeat(64, 0xFF_FFFF))
  }

  function ClockIf(f: IfState, rst: bool, stall: bool, r: Resolve): IfState {
    if rst then IfAtReset() else
      var trained :=
        if r.branchValid then
          var i := BhtIdx(r.pc);
          f.(bht := f.bht[i := Saturate(f.bht[i], r.branchTaken)],
             btb := f.btb[i := r.branchTarget], tags := f.tags[i := TagOf(r.pc)])
        else f;
      if !stall || Redirect(r) then trained.(pc := PcNext(f, r)) else trained
  }

  // ---- Pipeline registers -----------------------------------------------------

  datatype FetchReg = FetchReg(pc: Word, predicted: bool, valid: bool)
  datatype IfId = IfId(pc: Word, instr: Word, predicted: bool, valid: bool)
  datatype IdEx = IdEx(ctrl: Ctrl, predicted: bool, pc: Word, rs1: RegIdx, rs2: RegIdx, rd: RegIdx,
                       rs1Data: Word, rs2Data: Word, imm: Word)
  datatype ExMem = ExMem(ctrl: Ctrl, alu: Word, rs2Data: Word, rd: RegIdx, pcPlus4: Word)
  datatype MemWb = MemWb(ctrl: Ctrl, alu: Word, rd: RegIdx)

  const NO_FETCH := FetchReg(0, false, false)
  const BUBBLE_ID := IfId(0, NOP_INSTR, false, false)
  const BUBBLE_EX := IdEx(NOP_CTRL, false, 0, 0, 0, 0, 0, 0, 0)
  const BUBBLE_MEM := ExMem(NOP_CTRL, 0, 0, 0, 0)
  const BUBBLE_WB := MemWb(NOP_CTRL, 0, 0)

  datatype Core = Core(
    ifs: IfState, fetch: FetchReg, imemData: Word, ifid: IfId, idex: IdEx, exmem: ExMem, memwb: MemWb,
    regs: Regs, dmem: Memory, dmemRdata: Word, csrs: Isa.Csrs, cycles: bv64, instret: bv64)

  datatype Inputs = Inputs(rst: bool, timer: bool, soft: bool, ext: bool)

  // ---- Wires, in the order the stages use them ---------------------------------

  /** The interrupt levels and counters as the CSR file sees them this cycle. */
  function EnvOf(s: Core, x: Inputs): Isa.Env {
    Isa.Env(x.timer, x.soft, x.ext, s.cycles, LowHalf(s.instret))
  }

  function WbData(s: Core): Word {
    if s.memwb.ctrl.memToReg
    then LoadExtend(s.memwb.ctrl.funct3, Offset(s.memwb.alu), s.dmemRdata)
    else s.memwb.alu
  }

  predicate Stall(s: Core) {
    LoadUse(s.idex.ctrl.memRead, s.idex.rd, Isa.Rs1(s.ifid.instr), Isa.Rs2(s.ifid.instr))
  }

  function OperandOf(s: Core, rs: RegIdx, own: Word): Word {
    ForwardMux(ForwardSelect(rs, s.exmem.ctrl.regWrite, s.exmem.rd, s.memwb.ctrl.regWrite, s.memwb.rd),
               own, s.exmem.alu, WbData(s))
  }

  function OperandA(s: Core): Word { OperandOf(s, s.idex.rs1, s.idex.rs1Data) }
  function OperandB(s: Core): Word { OperandOf(s, s.idex.rs2, s.idex.rs2Data) }

  // ---- csr_file ----------------------------------------------------------------

  predicate TakeTrap(ctrl: Ctrl, c: Isa.Csrs, e: Isa.Env) {
    (Isa.InterruptPending(c, e) && ctrl.valid) || (ctrl.valid && ctrl.isEcall) || (ctrl.valid && ctrl.isEbreak)
  }

  predicate TakeMret(ctrl: Ctrl) { ctrl.valid && ctrl.isMret }

  function TrapCause(ctrl: Ctrl, c: Isa.Csrs, e: Isa.Env): Word {
    if ctrl.valid && ctrl.isEcall then 0x0000_0008
    else if ctrl.valid && ctrl.isEbreak then 0x0000_0003
    else if Isa.ExtTaken(c, e) then 0x8000_000B
    else if Isa.SoftTaken(c, e) then 0x8000_0003
    else 0x8000_0007
  }

  function CsrAddr(imm: Word): bv12 { (imm & 0xFFF) as bv12 }

  function CsrWriteSource(ctrl: Ctrl, rs1: RegIdx, a: Word): Word {
    if ctrl.csrImm then rs1 as Word else a
  }

  predicate CsrWriteEnable(ctrl: Ctrl, rs1: RegIdx, src: Word) {
    ctrl.valid && ctrl.isCsr &&
    (match ctrl.funct3
     case 1 => true
     case 5 => true
     case 0 => false
     case 4 => false
     case _ => !(if ctrl.csrImm then src == 0 else rs1 == 0))
  }

  function CsrWriteData(ctrl: Ctrl, value: Word, src: Word): Word {
    match ctrl.funct3
    case 1 => src
    case 5 => src
    case 2 => value | src
    case 6 => value | src
    case 3 => value & !src
    case 7 => value & !src
    case _ => value
  }

  function ClockCsr(c: Isa.Csrs, rst: bool, ctrl: Ctrl, pc: Word, imm: Word, rs1: RegIdx, src: Word,
                    e: Isa.Env): Isa.Csrs
  {
    if rst then Isa.CSRS_AT_RESET
    else if TakeTrap(ctrl, c, e) then Isa.EnterTrap(c, pc, TrapCause(ctrl, c, e))
    else if TakeMret(ctrl) then Isa.ReturnFromTrap(c)
    else if CsrWriteEnable(ctrl, rs1, src) then
      Isa.WriteCsr(c, CsrAddr(imm), CsrWriteData(ctrl, Isa.ReadCsr(c, e, CsrAddr(imm)), src))
    else c
  }

  // ---- EX outputs ---------------------------------------------------------------

  function ExResult(x: IdEx, a: Word, b: Word, c: Isa.Csrs, e: Isa.Env): Word {
    if x.ctrl.isCsr then Isa.ReadCsr(c, e, CsrAddr(x.imm)) else AluResult(x.ctrl, x.pc, a, b, x.imm)
  }

  function ResolveEx(x: IdEx, a: Word, b: Word, c: Isa.Csrs, e: Isa.Env): Resolve {
    Resolve(x.ctrl.branch, BranchCond(x.ctrl.funct3, AluOut(x.ctrl, x.pc, a, b, x.imm)), x.pc, Plus(x.pc, x.imm),
            x.ctrl.jal || x.ctrl.jalr, JumpTarget(x.ctrl, x.pc, a, x.imm),
            TakeTrap(x.ctrl, c, e) || TakeMret(x.ctrl),
            if TakeTrap(x.ctrl, c, e) then ClearLow2(c.mtvec) else ClearLow2(c.mepc),
            x.predicted)
  }

  function NextExMem(x: IdEx, a: Word, b: Word, c: Isa.Csrs, e: Isa.Env): ExMem {
    if TakeTrap(x.ctrl, c, e) || TakeMret(x.ctrl) then BUBBLE_MEM
    else ExMem(x.ctrl, ExResult(x, a, b, c, e), b, x.rd, PcPlus4(x.pc))
  }

  function ResolveOf(s: Core, x: Inputs): Resolve {
    ResolveEx(s.idex, OperandA(s), OperandB(s), s.csrs, EnvOf(s, x))
  }

  function Succ64(n: bv64): bv64 { n + 1 }

  // ---- The edge ------------------------------------------------------------------

  function ClockFetch(s: Core, rst: bool, flush: bool, stall: bool): FetchReg {
    if rst || flush then NO_FETCH
    else if !stall then FetchReg(s.ifs.pc, PredictTaken(s.ifs), true)
    else s.fetch
  }

  function ClockIfId(s: Core, rst: bool, flush: bool, stall: bool): IfId {
    if rst || flush || !s.fetch.valid then BUBBLE_ID
    else if !stall then IfId(s.fetch.pc, s.imemData, s.fetch.predicted, true)
    else s.ifid
  }

  function DecodeSlot(d: IfId, regs: Regs, wbWrite: bool, wbRd: RegIdx, wbData: Word): IdEx {
    var ctrl := Control(d.instr);
    IdEx(ctrl.(valid := ctrl.valid && d.valid), d.predicted, d.pc,
         Isa.Rs1(d.instr), Isa.Rs2(d.instr), Isa.Rd(d.instr),
         ReadPort(regs, Isa.Rs1(d.instr), wbWrite, wbRd, wbData),
         ReadPort(regs, Isa.Rs2(d.instr), wbWrite, wbRd, wbData),
         ImmediateOf(d.instr))
  }

  function ClockIdEx(s: Core, rst: bool, flush: bool): IdEx {
    if rst || flush then BUBBLE_EX
    else DecodeSlot(s.ifid, s.regs, s.memwb.ctrl.regWrite, s.memwb.rd, WbData(s))
  }

  function ClockRegs(s: Core): Regs {
    if s.memwb.ctrl.regWrite && s.memwb.rd != 0 then s.regs[s.memwb.rd as nat := WbData(s)] else s.regs
  }

  function DmemPort(m: Memory, addr: Word, lanes: StoreLanes, we: bool): Memory {
    if we then WriteLanes(m, addr, lanes) else m
  }

  function ClockDmem(m: Memory, x: ExMem): Memory {
    DmemPort(m, x.alu, Lanes(x.ctrl.funct3, x.alu, x.rs2Data), x.ctrl.memWrite)
  }

  function ClockExMem(s: Core, x: Inputs): ExMem {
    if x.rst then BUBBLE_MEM else NextExMem(s.idex, OperandA(s), OperandB(s), s.csrs, EnvOf(s, x))
  }

  function ClockMemWb(s: Core, rst: bool): MemWb {
    if rst then BUBBLE_WB else MemWb(s.exmem.ctrl, s.exmem.alu, s.exmem.rd)
  }

  function ClockCycles(cycles: bv64, rst: bool): bv64 { if rst then 0 else Succ64(cycles) }

  function ClockInstret(instret: bv64, rst: bool, retired: bool): bv64 {
    if rst then 0 else if retired then Succ64(instret) else instret
  }

  function ImemAddr(s: Core): Word { if Stall(s) then s.fetch.pc else s.ifs.pc }

  function Clock(p: Isa.Program, s: Core, x: Inputs): Core {
    var r := ResolveOf(s, x);
    var flush := Redirect(r);
    var stall := Stall(s);
    Core(ClockIf(s.ifs, x.rst, stall, r),
         ClockFetch(s, x.rst, flush, stall),
         Isa.Fetch(p, ImemAddr(s)),
         ClockIfId(s, x.rst, flush, stall),
         ClockIdEx(s, x.rst, flush || stall),
         ClockExMem(s, x),
         ClockMemWb(s, x.rst),
         ClockRegs(s),
         ClockDmem(s.dmem, s.exmem),
         ReadWord(s.dmem, s.exmem.alu),
         ClockCsr(s.csrs, x.rst, s.idex.ctrl, s.idex.pc, s.idex.imm, s.idex.rs1,
                  CsrWriteSource(s.idex.ctrl, s.idex.rs1, OperandA(s)), EnvOf(s, x)),
         ClockCycles(s.cycles, x.rst),
         ClockInstret(s.instret, x.rst, s.memwb.ctrl.valid))
  }
}
