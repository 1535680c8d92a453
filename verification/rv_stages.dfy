/**
 The combinational parts of the pipeline stages, signal by signal: immediate
 generator and control decoder (id_stage), forwarding, ALU and branch resolution
 (ex_stage), store lanes (mem_stage), write-back select (wb_stage), and the
 load-use and forwarding decisions (hazard_unit).
 */
module RvStages {
  import opened Rv32iPkg
  import Isa = RvIsa

  // ---- id_stage ---------------------------------------------------------------

  /** Each wire lists its bits as the generator concatenates them, the sign bit repeated on
      the left; the fields are those the architecture takes. */
  function WireI(instr: Word): (imm: Word)
    ensures imm == Isa.ImmI(instr)
  {
    (if (instr >> 31) & 1 == 1 then 0xFFFF_F000 else 0) | ((instr >> 20) & 0xFFF)
  }

  function WireS(instr: Word): (imm: Word)
    ensures imm == Isa.ImmS(instr)
  {
    (if (instr >> 31) & 1 == 1 then 0xFFFF_F000 else 0) | (((instr >> 25) & 0x7F) << 5) | ((instr >> 7) & 0x1F)
  }

  function WireB(instr: Word): (imm: Word)
    ensures imm == Isa.ImmB(instr)
  {
    (if (instr >> 31) & 1 == 1 then 0xFFFF_F000 else 0) |
    (((instr >> 7) & 1) << 11) | (((instr >> 25) & 0x3F) << 5) | (((instr >> 8) & 0xF) << 1)
  }

  function WireU(instr: Word): (imm: Word)
    ensures imm == Isa.ImmU(instr)
  {
    ((instr >> 12) & 0xF_FFFF) << 12
  }

  function WireJ(instr: Word): (imm: Word)
    ensures imm == Isa.ImmJ(instr)
  {
    (if (instr >> 31) & 1 == 1 then 0xFFF0_0000 else 0) |
    (((instr >> 12) & 0xFF) << 12) | (((instr >> 20) & 1) << 11) | (((instr >> 21) & 0x3FF) << 1)
  }

  function ImmediateOf(instr: Word): Word {
    match Isa.Opcode(instr)
    case LuiOp => WireU(instr)
    case AuipcOp => WireU(instr)
    case JalOp => WireJ(instr)
    case JalrOp => WireI(instr)
    case LoadOp => WireI(instr)
    case ImmOp => WireI(instr)
    case BranchOp => WireB(instr)
    case StoreOp => WireS(instr)
    case SystemOp => CsrAddressField(instr)
    case _ => 0
  }

  function BranchAluOp(funct3: bv3): AluOp {
    match funct3
    case 4 => AluSlt
    case 5 => AluSlt
    case 6 => AluSltu
    case 7 => AluSltu
    case _ => AluSub
  }

  function ArithAluOp(funct3: bv3, subtract: bool, arithShift: bool): AluOp {
    match funct3
    case 0 => if subtract then AluSub else AluAdd
    case 1 => AluSll
    case 2 => AluSlt
    case 3 => AluSltu
    case 4 => AluXor
    case 5 => if arithShift then AluSra else AluSrl
    case 6 => AluOr
    case _ => AluAnd
  }

  /** funct3[2]: the 1xx forms take the rs1 field as a value. */
  predicate CsrImmediate(funct3: bv3) { funct3 & 4 != 0 }

  function CsrAddressField(instr: Word): Word { (instr >> 20) & 0xFFF }

  function SystemControl(instr: Word, base: Ctrl): Ctrl {
    if Isa.Funct3(instr) == 0 then
      if Isa.Funct12(instr) == 0x000 then base.(valid := true, isEcall := true)
      else if Isa.Funct12(instr) == 0x001 then base.(valid := true, isEbreak := true)
      else if Isa.Funct12(instr) == 0x302 then base.(valid := true, isMret := true)
      else base
    else
      base.(valid := true, isCsr := true, regWrite := true, csrImm := CsrImmediate(Isa.Funct3(instr)))
  }

  function Control(instr: Word): Ctrl {
    var base := NOP_CTRL.(funct3 := Isa.Funct3(instr));
    match Isa.Opcode(instr)
    case LuiOp => base.(valid := true, regWrite := true, aluSrc := true, lui := true, aluOp := AluLui)
    case AuipcOp => base.(valid := true, regWrite := true, aluSrc := true, auipc := true)
    case JalOp => base.(valid := true, regWrite := true, jal := true)
    case JalrOp => base.(valid := true, regWrite := true, jalr := true, aluSrc := true)
    case BranchOp => base.(valid := true, branch := true, aluOp := BranchAluOp(Isa.Funct3(instr)))
    case LoadOp => base.(valid := true, regWrite := true, memRead := true, memToReg := true, aluSrc := true)
    case StoreOp => base.(valid := true, memWrite := true, aluSrc := true)
    case ImmOp => base.(valid := true, regWrite := true, aluSrc := true,
                       aluOp := ArithAluOp(Isa.Funct3(instr), false, Bit(instr, 30)))
    case RegOp => base.(valid := true, regWrite := true,
                       aluOp := ArithAluOp(Isa.Funct3(instr), Bit(instr, 30), Bit(instr, 30)))
    case SystemOp => SystemControl(instr, base)
    case MiscMemOp => base.(valid := true)
    case UnknownOp => NOP_CTRL
  }

  /** Asynchronous register read with write-through from WB. */
  function ReadPort(regs: Regs, rs: RegIdx, wbWrite: bool, wbRd: RegIdx, wbData: Word): Word {
    if rs == 0 then 0
    else if wbWrite && wbRd == rs then wbData
    else regs[rs as nat]
  }

  // ---- ex_stage ---------------------------------------------------------------

  datatype Forward = FromIdEx | FromMem | FromWb

  function ForwardMux(sel: Forward, own: Word, memVal: Word, wbVal: Word): Word {
    match sel
    case FromIdEx => own
    case FromMem => memVal
    case FromWb => wbVal
  }

  function Alu(op: AluOp, a: Word, b: Word): Word {
    match op
    case AluAdd => Plus(a, b)
    case AluSub => a - b
    case AluSll => Sll(a, Shamt(b))
    case AluSlt => if SignedLess(a, b) then 1 else 0
    case AluSltu => if a < b then 1 else 0
    case AluXor => a ^ b
    case AluSrl => Srl(a, Shamt(b))
    case AluSra => ShiftRightArith(a, Shamt(b))
    case AluOr => a | b
    case AluAnd => a & b
    case AluLui => b
  }

  /** The ALU output before the return-address mux. */
  function AluOut(ctrl: Ctrl, pc: Word, a: Word, b: Word, imm: Word): Word {
    Alu(ctrl.aluOp, if ctrl.auipc then pc else a, if ctrl.aluSrc then imm else b)
  }

  function AluResult(ctrl: Ctrl, pc: Word, a: Word, b: Word, imm: Word): Word {
    if ctrl.jal || ctrl.jalr then PcPlus4(pc) else AluOut(ctrl, pc, a, b, imm)
  }

  predicate BranchCond(funct3: bv3, aluOut: Word) {
    match funct3
    case 0 => aluOut == 0
    case 1 => aluOut != 0
    case 4 => aluOut == 1
    case 5 => aluOut == 0
    case 6 => aluOut == 1
    case 7 => aluOut == 0
    case _ => false
  }

  function JumpTarget(ctrl: Ctrl, pc: Word, a: Word, imm: Word): Word {
    if ctrl.jalr then ClearLow1(Plus(a, imm)) else Plus(pc, imm)
  }

  // ---- mem_stage --------------------------------------------------------------

  datatype StoreLanes = StoreLanes(be: bv4, wdata: Word)

  function ByteEnables(offset: bv2): bv4 { 1 << (offset as bv3) }
  function HalfEnables(offset: bv2): bv4 { if offset & 2 != 0 then 0xC else 0x3 }
  predicate Enabled(be: bv4, k: bv2) { (be >> (k as bv3)) & 1 == 1 }

  function RepeatByte(data: Word): Word {
    var byte := data & 0xFF;
    (byte << 24) | (byte << 16) | (byte << 8) | byte
  }

  function RepeatHalf(data: Word): Word {
    var half := data & 0xFFFF;
    (half << 16) | half
  }

  function Offset(addr: Word): bv2 { (addr & 3) as bv2 }

  function Lanes(funct3: bv3, addr: Word, data: Word): StoreLanes {
    match funct3
    case 0 => StoreLanes(ByteEnables(Offset(addr)), RepeatByte(data))
    case 1 => StoreLanes(HalfEnables(Offset(addr)), RepeatHalf(data))
    case _ => StoreLanes(0xF, data)
  }

  /** The byte-enable write port of the data memory. */
  function WriteLanes(m: Memory, addr: Word, lanes: StoreLanes): Memory {
    var m0 := if Enabled(lanes.be, 0) then Put(m, Lane(addr, 0), ByteOf(lanes.wdata, 0)) else m;
    var m1 := if Enabled(lanes.be, 1) then Put(m0, Lane(addr, 1), ByteOf(lanes.wdata, 1)) else m0;
    var m2 := if Enabled(lanes.be, 2) then Put(m1, Lane(addr, 2), ByteOf(lanes.wdata, 2)) else m1;
    if Enabled(lanes.be, 3) then Put(m2, Lane(addr, 3), ByteOf(lanes.wdata, 3)) else m2
  }

  // ---- hazard_unit ------------------------------------------------------------

  predicate LoadUse(exMemRead: bool, exRd: RegIdx, idRs1: RegIdx, idRs2: RegIdx) {
    exMemRead && ((exRd == idRs1 && idRs1 != 0) || (exRd == idRs2 && idRs2 != 0))
  }

  function ForwardSelect(rs: RegIdx, memWrite: bool, memRd: RegIdx, wbWrite: bool, wbRd: RegIdx): Forward {
    if memWrite && memRd != 0 && memRd == rs then FromMem
    else if wbWrite && wbRd != 0 && wbRd == rs then FromWb
    else FromIdEx
  }
}
