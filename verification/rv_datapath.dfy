/**
 One instruction through decode, EX and the CSR file does what the architecture
 says: for every instruction word, operand values, CSR state and environment, the
 EX/MEM register it leaves behind, the CSR registers and the resolved next PC are
 the instruction's architectural effect.
 */
module RvDatapath {
  import opened Rv32iPkg
  import opened RvStages
  import opened RvCore
  import Isa = RvIsa

  /** The register write an EX/MEM slot still owes. */
  function PendingReg(x: ExMem): Isa.RegEffect {
    if !x.ctrl.regWrite then Isa.NoReg
    else if x.ctrl.memToReg then Isa.LoadReg(x.rd, Isa.LoadKindOf(x.ctrl.funct3), x.alu)
    else Isa.WriteReg(x.rd, x.alu)
  }

  /** The store an EX/MEM slot still owes. */
  function PendingMem(x: ExMem): Isa.MemEffect {
    if x.ctrl.memWrite then Isa.StoreMem(Isa.StoreKindOf(x.ctrl.funct3), x.alu, x.rs2Data) else Isa.NoMem
  }

  /** The PC that follows the instruction in EX, before any prediction is compared. */
  function ResolvedNext(r: Resolve): Word {
    if r.trapValid then r.trapTarget
    else if r.jumpValid then r.jumpTarget
    else if r.branchValid && r.branchTaken then r.branchTarget
    else PcPlus4(r.pc)
  }

  /** The ID/EX contents for word `w` fetched at `pc`. */
  function SlotFor(w: Word, pc: Word, predicted: bool, d1: Word, d2: Word): IdEx {
    IdEx(Control(w), predicted, pc, Isa.Rs1(w), Isa.Rs2(w), Isa.Rd(w), d1, d2, ImmediateOf(w))
  }

  // ---- The arithmetic facts, on funct3 alone ------------------------------------

  lemma SubtractIsZero(a: Word, b: Word)
    ensures a - b == 0 <==> a == b
  {
  }

  lemma BranchCondExact(f: bv3, a: Word, b: Word)
    ensures BranchCond(f, Alu(BranchAluOp(f), a, b)) <==> Isa.Holds(Isa.CondOf(f), a, b)
  {
    hide SignedLess, ShiftRightArith;
    if f == 0 || f == 1 {
      SubtractIsZero(a, b);
    }
  }

  lemma AluExact(f: bv3, subtract: bool, arithShift: bool, a: Word, b: Word)
    ensures Alu(ArithAluOp(f, subtract, arithShift), a, b)
         == Isa.Compute(Isa.AluFnOf(f, if f == 0 then subtract else arithShift), a, b)
  {
    hide SignedLess, ShiftRightArith, Sll, Srl, Shamt, Plus;
  }

  lemma AluExactImmediate(f: bv3, arithShift: bool, a: Word, b: Word)
    ensures Alu(ArithAluOp(f, false, arithShift), a, b)
         == Isa.Compute(Isa.AluFnOf(f, f == 5 && arithShift), a, b)
  {
    hide SignedLess, ShiftRightArith, Sll, Srl, Shamt, Plus;
  }

  lemma CsrFieldsExact(w: Word)
    ensures CsrAddr(CsrAddressField(w)) == Isa.Funct12(w)
    ensures CsrImmediate(Isa.Funct3(w)) <==> Isa.Funct3(w) >= 4
  {
  }

  /** The write half of a CSR instruction, on its control fields. */
  lemma CsrWriteExact(ctrl: Ctrl, rs1: RegIdx, a: Word, before: Word)
    requires ctrl.valid && ctrl.isCsr && ctrl.funct3 != 0
    ensures var src := CsrWriteSource(ctrl, rs1, a); var op := Isa.CsrOpOf(ctrl.funct3);
      && (CsrWriteEnable(ctrl, rs1, src) <==> Isa.CsrWrites(op, rs1 == 0))
      && (Isa.CsrWrites(op, rs1 == 0) ==> CsrWriteData(ctrl, before, src) == Isa.CsrValue(op, before, src))
  {
  }

  // ---- What the control word says about the instruction class -------------------

  /** The flags that decide traps, against the decoded instruction. */
  predicate FlagsAgree(ctrl: Ctrl, i: Isa.Instr) {
    && ctrl.valid == !i.Undecoded?
    && ctrl.isEcall == i.Ecall? && ctrl.isEbreak == i.Ebreak? && ctrl.isMret == i.Mret?
  }

  lemma SystemFlags(w: Word)
    requires Isa.Opcode(w) == Isa.SystemOp
    ensures FlagsAgree(Control(w), Isa.Decode(w))
  {
    hide Isa.Opcode, Isa.Funct12, Isa.Funct3, Isa.Rd;
  }

  lemma PrivilegedDecode(w: Word)
    requires Isa.Opcode(w) == Isa.SystemOp && Isa.Funct3(w) == 0 && Isa.Funct12(w) == 0x302
    ensures Isa.Decode(w) == Isa.Mret
  {
    hide Isa.Opcode, Isa.Funct12, Isa.Funct3, Isa.Rd;
  }

  lemma ComputationalFlags(w: Word)
    requires Isa.Opcode(w) != Isa.SystemOp
    ensures FlagsAgree(Control(w), Isa.Decode(w))
  {
    hide Isa.Opcode, Isa.Funct3, Isa.Rd, Isa.ImmI, Isa.ImmB, Isa.ImmJ, Isa.ImmS, Isa.ImmU, Bit;
    hide Isa.CondOf, Isa.LoadKindOf, Isa.StoreKindOf, Isa.AluFnOf, ArithAluOp, BranchAluOp;
  }

  lemma TrapDecision(w: Word, c: Isa.Csrs, e: Isa.Env)
    ensures TakeTrap(Control(w), c, e) <==> Isa.Traps(Isa.Decode(w), c, e)
    ensures TakeTrap(Control(w), c, e) ==> TrapCause(Control(w), c, e) == Isa.Cause(Isa.Decode(w), c, e)
    ensures TakeMret(Control(w)) <==> Isa.Decode(w).Mret?
  {
    hide Isa.InterruptPending, Isa.ExtTaken, Isa.SoftTaken, Isa.TimerTaken, Control, Isa.Decode;
    if Isa.Opcode(w) == Isa.SystemOp {
      SystemFlags(w);
    } else {
      ComputationalFlags(w);
    }
  }

  // ---- One lemma per instruction class, when no trap is taken -------------------

  /** A real instruction in EX: its word and PC, the prediction and register data
      latched with it, its forwarded operands, and what the CSR file sees. */
  datatype Occupant = Occupant(w: Word, pc: Word, predicted: bool, d1: Word, d2: Word,
                               a: Word, b: Word, c: Isa.Csrs, e: Isa.Env)

  function Execution(t: Occupant): Isa.Effect { Isa.Execute(t.w, t.pc, t.a, t.b, t.c, t.e) }

  /** The pipeline's next EX/MEM register, CSRs and resolved PC are this effect. */
  predicate Agrees(t: Occupant, fx: Isa.Effect) {
    var x := SlotFor(t.w, t.pc, t.predicted, t.d1, t.d2);
    && PendingReg(NextExMem(x, t.a, t.b, t.c, t.e)) == fx.reg
    && PendingMem(NextExMem(x, t.a, t.b, t.c, t.e)) == fx.mem
    && ClockCsr(t.c, false, x.ctrl, t.pc, x.imm, x.rs1, CsrWriteSource(x.ctrl, x.rs1, t.a), t.e) == fx.csrs
    && ResolvedNext(ResolveEx(x, t.a, t.b, t.c, t.e)) == fx.next
  }

  lemma OrdinaryExecution(t: Occupant)
    requires Isa.Opcode(t.w) != Isa.SystemOp
    ensures var o := Isa.Ordinary(Isa.Decode(t.w), t.pc, t.a, t.b);
      Execution(t) == Isa.Effect(o.next, o.reg, o.mem, t.c)
  {
    hide Isa.Ordinary, Isa.Opcode, Isa.Rd, Isa.Rs1, Isa.Rs2, Isa.Funct3, Isa.ReadCsr, Isa.UpdateCsr, ClearLow2,
      PcPlus4, Bit, Isa.ImmI, Isa.ImmS, Isa.ImmB, Isa.ImmU, Isa.ImmJ, Isa.AluFnOf, Isa.CondOf, Isa.LoadKindOf,
      Isa.StoreKindOf;
  }

  lemma QuietOutsideSystem(t: Occupant)
    requires Isa.Opcode(t.w) != Isa.SystemOp && !TakeTrap(Control(t.w), t.c, t.e)
    ensures !TakeMret(Control(t.w)) && !Control(t.w).isCsr
    ensures ClockCsr(t.c, false, Control(t.w), t.pc, ImmediateOf(t.w), Isa.Rs1(t.w),
                     CsrWriteSource(Control(t.w), Isa.Rs1(t.w), t.a), t.e) == t.c
  {
    hide Isa.Opcode, Isa.Funct3, Isa.ReadCsr, Isa.WriteCsr, CsrWriteData, TakeTrap, Isa.EnterTrap, Isa.ReturnFromTrap,
      ArithAluOp, BranchAluOp, ImmediateOf, CsrWriteSource, CsrAddr, TrapCause, Bit;
  }

  lemma CsrExecution(t: Occupant)
    requires Isa.Opcode(t.w) == Isa.SystemOp && Isa.Funct3(t.w) != 0
    ensures Execution(t) == Isa.Effect(PcPlus4(t.pc),
      Isa.WriteReg(Isa.Rd(t.w), Isa.ReadCsr(t.c, t.e, Isa.Funct12(t.w))), Isa.NoMem,
      Isa.UpdateCsr(t.c, t.e, Isa.CsrOpOf(Isa.Funct3(t.w)), Isa.Funct12(t.w),
        if Isa.Funct3(t.w) >= 4 then Isa.Rs1(t.w) as Word else t.a, Isa.Rs1(t.w) == 0))
  {
    hide Isa.Ordinary, Isa.Opcode, Isa.Rd, Isa.Rs1, Isa.Rs2, Isa.Funct3, Isa.Funct12, Isa.ReadCsr, Isa.UpdateCsr,
      ClearLow2, PcPlus4, Isa.CsrOpOf;
  }

  lemma LuiAgrees(t: Occupant)
    requires Isa.Opcode(t.w) == Isa.LuiOp
    requires !TakeTrap(Control(t.w), t.c, t.e)
    ensures Agrees(t, Execution(t))
  {
    OrdinaryExecution(t);
    QuietOutsideSystem(t);
    hide Execution, ClockCsr, TakeMret;
    hide Plus, PcPlus4, ClearLow1, ClearLow2, Isa.Opcode, Isa.Rd, Isa.Rs1, Isa.Rs2, Isa.Funct3, TakeTrap;
    hide Isa.ReadCsr, Isa.WriteCsr, Isa.UpdateCsr, CsrWriteData, TrapCause, Isa.EnterTrap, CsrAddr;
    hide Isa.ImmU;
  }

  lemma AuipcAgrees(t: Occupant)
    requires Isa.Opcode(t.w) == Isa.AuipcOp
    requires !TakeTrap(Control(t.w), t.c, t.e)
    ensures Agrees(t, Execution(t))
  {
    OrdinaryExecution(t);
    QuietOutsideSystem(t);
    hide Execution, ClockCsr, TakeMret;
    hide Plus, PcPlus4, ClearLow1, ClearLow2, Isa.Opcode, Isa.Rd, Isa.Rs1, Isa.Rs2, Isa.Funct3, TakeTrap;
    hide Isa.ReadCsr, Isa.WriteCsr, Isa.UpdateCsr, CsrWriteData, TrapCause, Isa.EnterTrap, CsrAddr;
    hide Isa.ImmU;
  }

  lemma FenceAgrees(t: Occupant)
    requires Isa.Opcode(t.w) == Isa.MiscMemOp
    requires !TakeTrap(Control(t.w), t.c, t.e)
    ensures Agrees(t, Execution(t))
  {
    OrdinaryExecution(t);
    QuietOutsideSystem(t);
    hide Execution, ClockCsr, TakeMret;
    hide Plus, PcPlus4, ClearLow1, ClearLow2, Isa.Opcode, Isa.Rd, Isa.Rs1, Isa.Rs2, Isa.Funct3, TakeTrap;
    hide Isa.ReadCsr, Isa.WriteCsr, Isa.UpdateCsr, CsrWriteData, TrapCause, Isa.EnterTrap, CsrAddr;
  }

  lemma UnknownAgrees(t: Occupant)
    requires Isa.Opcode(t.w) == Isa.UnknownOp
    requires !TakeTrap(Control(t.w), t.c, t.e)
    ensures Agrees(t, Execution(t))
  {
    OrdinaryExecution(t);
    QuietOutsideSystem(t);
    hide Execution, ClockCsr, TakeMret;
    hide Plus, PcPlus4, ClearLow1, ClearLow2, Isa.Opcode, Isa.Rd, Isa.Rs1, Isa.Rs2, Isa.Funct3, TakeTrap;
    hide Isa.ReadCsr, Isa.WriteCsr, Isa.UpdateCsr, CsrWriteData, TrapCause, Isa.EnterTrap, CsrAddr;
  }

  lemma JalAgrees(t: Occupant)
    requires Isa.Opcode(t.w) == Isa.JalOp
    requires !TakeTrap(Control(t.w), t.c, t.e)
    ensures Agrees(t, Execution(t))
  {
    OrdinaryExecution(t);
    QuietOutsideSystem(t);
    hide Execution, ClockCsr, TakeMret;
    hide Plus, PcPlus4, ClearLow1, ClearLow2, Isa.Opcode, Isa.Rd, Isa.Rs1, Isa.Rs2, Isa.Funct3, TakeTrap;
    hide Isa.ReadCsr, Isa.WriteCsr, Isa.UpdateCsr, CsrWriteData, TrapCause, Isa.EnterTrap, CsrAddr;
    hide Isa.ImmJ;
  }

  lemma JalrAgrees(t: Occupant)
    requires Isa.Opcode(t.w) == Isa.JalrOp
    requires !TakeTrap(Control(t.w), t.c, t.e)
    ensures Agrees(t, Execution(t))
  {
    OrdinaryExecution(t);
    QuietOutsideSystem(t);
    hide Execution, ClockCsr, TakeMret;
    hide Plus, PcPlus4, ClearLow1, ClearLow2, Isa.Opcode, Isa.Rd, Isa.Rs1, Isa.Rs2, Isa.Funct3, TakeTrap;
    hide Isa.ReadCsr, Isa.WriteCsr, Isa.UpdateCsr, CsrWriteData, TrapCause, Isa.EnterTrap, CsrAddr;
    hide Isa.ImmI;
  }

  lemma BranchAgrees(t: Occupant)
    requires Isa.Opcode(t.w) == Isa.BranchOp
    requires !TakeTrap(Control(t.w), t.c, t.e)
    ensures Agrees(t, Execution(t))
  {
    OrdinaryExecution(t);
    QuietOutsideSystem(t);
    hide Execution, ClockCsr, TakeMret;
    hide Plus, PcPlus4, ClearLow1, ClearLow2, Isa.Opcode, Isa.Rd, Isa.Rs1, Isa.Rs2, Isa.Funct3, TakeTrap;
    hide Isa.ReadCsr, Isa.WriteCsr, Isa.UpdateCsr, CsrWriteData, TrapCause, Isa.EnterTrap, CsrAddr;
    hide Isa.ImmB, Isa.CondOf, Isa.Holds, BranchAluOp, BranchCond, Alu;
    BranchCondExact(Isa.Funct3(t.w), t.a, t.b);
  }

  lemma LoadAgrees(t: Occupant)
    requires Isa.Opcode(t.w) == Isa.LoadOp
    requires !TakeTrap(Control(t.w), t.c, t.e)
    ensures Agrees(t, Execution(t))
  {
    OrdinaryExecution(t);
    QuietOutsideSystem(t);
    hide Execution, ClockCsr, TakeMret;
    hide Plus, PcPlus4, ClearLow1, ClearLow2, Isa.Opcode, Isa.Rd, Isa.Rs1, Isa.Rs2, Isa.Funct3, TakeTrap;
    hide Isa.ReadCsr, Isa.WriteCsr, Isa.UpdateCsr, CsrWriteData, TrapCause, Isa.EnterTrap, CsrAddr;
    hide Isa.ImmI, Isa.LoadKindOf;
  }

  lemma StoreAgrees(t: Occupant)
    requires Isa.Opcode(t.w) == Isa.StoreOp
    requires !TakeTrap(Control(t.w), t.c, t.e)
    ensures Agrees(t, Execution(t))
  {
    OrdinaryExecution(t);
    QuietOutsideSystem(t);
    hide Execution, ClockCsr, TakeMret;
    hide Plus, PcPlus4, ClearLow1, ClearLow2, Isa.Opcode, Isa.Rd, Isa.Rs1, Isa.Rs2, Isa.Funct3, TakeTrap;
    hide Isa.ReadCsr, Isa.WriteCsr, Isa.UpdateCsr, CsrWriteData, TrapCause, Isa.EnterTrap, CsrAddr;
    hide Isa.ImmS, Isa.StoreKindOf;
  }

  lemma ImmediateExecution(t: Occupant)
    requires Isa.Opcode(t.w) == Isa.ImmOp
    ensures Execution(t) == Isa.Effect(PcPlus4(t.pc),
      Isa.WriteReg(Isa.Rd(t.w), Isa.Compute(Isa.AluFnOf(Isa.Funct3(t.w), Isa.Funct3(t.w) == 5 && Bit(t.w, 30)),
        t.a, Isa.ImmI(t.w))), Isa.NoMem, t.c)
  {
    OrdinaryExecution(t);
    hide Execution, Isa.Compute, Isa.AluFnOf, Isa.Opcode, Isa.Rd, Isa.Funct3, Isa.ImmI, Bit, PcPlus4;
  }

  lemma ImmediateArithAgrees(t: Occupant)
    requires Isa.Opcode(t.w) == Isa.ImmOp
    requires !TakeTrap(Control(t.w), t.c, t.e)
    ensures Agrees(t, Execution(t))
  {
    ImmediateExecution(t);
    QuietOutsideSystem(t);
    hide Execution, ClockCsr, TakeMret;
    hide Plus, PcPlus4, ClearLow1, ClearLow2, Isa.Opcode, Isa.Rd, Isa.Rs1, Isa.Rs2, Isa.Funct3, TakeTrap;
    hide Isa.ReadCsr, Isa.WriteCsr, Isa.UpdateCsr, CsrWriteData, TrapCause, Isa.EnterTrap, CsrAddr, Isa.Decode;
    hide Isa.ImmI, Bit, Alu, Isa.Compute, ArithAluOp, Isa.AluFnOf;
    AluExactImmediate(Isa.Funct3(t.w), Bit(t.w, 30), t.a, Isa.ImmI(t.w));
  }

  lemma RegisterExecution(t: Occupant)
    requires Isa.Opcode(t.w) == Isa.RegOp
    ensures Execution(t) == Isa.Effect(PcPlus4(t.pc),
      Isa.WriteReg(Isa.Rd(t.w), Isa.Compute(Isa.AluFnOf(Isa.Funct3(t.w), Bit(t.w, 30)), t.a, t.b)), Isa.NoMem, t.c)
  {
    OrdinaryExecution(t);
    hide Execution, Isa.Compute, Isa.AluFnOf, Isa.Opcode, Isa.Rd, Isa.Funct3, Bit, PcPlus4;
  }

  lemma RegisterArithAgrees(t: Occupant)
    requires Isa.Opcode(t.w) == Isa.RegOp
    requires !TakeTrap(Control(t.w), t.c, t.e)
    ensures Agrees(t, Execution(t))
  {
    RegisterExecution(t);
    QuietOutsideSystem(t);
    hide Execution, ClockCsr, TakeMret, Isa.Decode;
    hide Plus, PcPlus4, ClearLow1, ClearLow2, Isa.Opcode, Isa.Rd, Isa.Rs1, Isa.Rs2, Isa.Funct3, TakeTrap;
    hide Isa.ReadCsr, Bit, Alu, Isa.Compute, ArithAluOp, Isa.AluFnOf;
    AluExact(Isa.Funct3(t.w), Bit(t.w, 30), Bit(t.w, 30), t.a, t.b);
  }

  lemma MretAgrees(t: Occupant)
    requires Isa.Decode(t.w) == Isa.Mret && FlagsAgree(Control(t.w), Isa.Mret)
    requires !TakeTrap(Control(t.w), t.c, t.e)
    ensures Agrees(t, Execution(t))
  {
    hide Plus, PcPlus4, ClearLow1, ClearLow2, Isa.Rd, Isa.Rs1, Isa.Rs2, TakeTrap, Control, Isa.Decode;
    hide CsrAddr, Isa.ReturnFromTrap, ImmediateOf, AluOut, BranchCond, JumpTarget, CsrWriteSource;
  }

  lemma UndecodedExecution(t: Occupant)
    requires Isa.Opcode(t.w) == Isa.SystemOp && Isa.Funct3(t.w) == 0 && Isa.Funct12(t.w) !in {0x000, 0x001, 0x302}
    ensures Execution(t) == Isa.Effect(PcPlus4(t.pc), Isa.NoReg, Isa.NoMem, t.c)
  {
    hide Isa.Opcode, Isa.Rd, Isa.Rs1, Isa.Funct3, Isa.Funct12, Isa.ReadCsr, Isa.UpdateCsr, ClearLow2, PcPlus4;
  }

  lemma OtherPrivilegedAgrees(t: Occupant)
    requires Isa.Opcode(t.w) == Isa.SystemOp && Isa.Funct3(t.w) == 0 && Isa.Funct12(t.w) !in {0x000, 0x001, 0x302}
    requires !TakeTrap(Control(t.w), t.c, t.e)
    ensures Agrees(t, Execution(t))
  {
    UndecodedExecution(t);
    hide Execution, Isa.Decode;
    hide Plus, PcPlus4, ClearLow1, ClearLow2, Isa.Opcode, Isa.Rd, Isa.Rs1, Isa.Rs2, Isa.Funct3, TakeTrap;
    hide Isa.ReadCsr, Isa.WriteCsr, Isa.UpdateCsr, CsrWriteData, TrapCause, Isa.EnterTrap, CsrAddr;
    hide CsrAddressField, CsrImmediate, Isa.Funct12;
  }

  lemma CsrStateAgrees(t: Occupant)
    requires Isa.Opcode(t.w) == Isa.SystemOp && Isa.Funct3(t.w) != 0
    requires !TakeTrap(Control(t.w), t.c, t.e)
    ensures ClockCsr(t.c, false, Control(t.w), t.pc, ImmediateOf(t.w), Isa.Rs1(t.w),
                     CsrWriteSource(Control(t.w), Isa.Rs1(t.w), t.a), t.e) == Execution(t).csrs
  {
    CsrExecution(t);
    hide Execution, Isa.Decode;
    hide Plus, PcPlus4, ClearLow1, ClearLow2, Isa.Opcode, Isa.Rd, Isa.Rs1, Isa.Rs2, Isa.Funct3, TakeTrap;
    hide Isa.Ordinary, Isa.ReturnFromTrap, Isa.ReadCsr, Isa.WriteCsr, CsrWriteData, TrapCause, Isa.EnterTrap, CsrAddr;
    hide Isa.Funct12, CsrAddressField, CsrImmediate, CsrWriteEnable, Isa.CsrWrites, Isa.CsrValue, Isa.CsrOpOf;
    CsrFieldsExact(t.w);
    CsrWriteExact(Control(t.w), Isa.Rs1(t.w), t.a, Isa.ReadCsr(t.c, t.e, Isa.Funct12(t.w)));
  }

  lemma CsrAgrees(t: Occupant)
    requires Isa.Opcode(t.w) == Isa.SystemOp && Isa.Funct3(t.w) != 0
    requires !TakeTrap(Control(t.w), t.c, t.e)
    ensures Agrees(t, Execution(t))
  {
    CsrExecution(t);
    hide Execution, Isa.Decode;
    hide Plus, PcPlus4, ClearLow1, ClearLow2, Isa.Opcode, Isa.Rd, Isa.Rs1, Isa.Rs2, Isa.Funct3, TakeTrap;
    hide Isa.ReadCsr, Isa.Funct12, CsrAddressField, CsrImmediate, Isa.CsrOpOf, Isa.UpdateCsr, CsrAddr, ClockCsr;
    CsrFieldsExact(t.w);
    CsrStateAgrees(t);
  }

  lemma CallsAlwaysTrap(t: Occupant)
    requires Isa.Opcode(t.w) == Isa.SystemOp && Isa.Funct3(t.w) == 0 && Isa.Funct12(t.w) in {0x000, 0x001}
    ensures TakeTrap(Control(t.w), t.c, t.e)
  {
    hide Isa.Opcode, Isa.Funct12, Isa.Funct3, Isa.InterruptPending, CsrImmediate;
  }

  /** Main result of this file. */
  lemma DatapathMatchesIsa(t: Occupant)
    ensures Agrees(t, Isa.StepEffect(t.w, t.pc, t.a, t.b, t.c, t.e))
  {
    TrapDecision(t.w, t.c, t.e);
    hide Plus, PcPlus4, ClearLow2, Control, Isa.Decode, Isa.Execute, TakeMret, TrapCause, Isa.Cause, Isa.Traps;
    if TakeTrap(Control(t.w), t.c, t.e) {
      hide TakeTrap, ExResult, AluOut, JumpTarget, BranchCond, ImmediateOf;
    } else {
      hide Agrees;
      match Isa.Opcode(t.w)
      case LuiOp => LuiAgrees(t);
      case AuipcOp => AuipcAgrees(t);
      case MiscMemOp => FenceAgrees(t);
      case UnknownOp => UnknownAgrees(t);
      case BranchOp => BranchAgrees(t);
      case LoadOp => LoadAgrees(t);
      case StoreOp => StoreAgrees(t);
      case JalOp => JalAgrees(t);
      case JalrOp => JalrAgrees(t);
      case ImmOp => ImmediateArithAgrees(t);
      case RegOp => RegisterArithAgrees(t);
      case SystemOp =>
        if Isa.Funct3(t.w) != 0 {
          CsrAgrees(t);
        } else if Isa.Funct12(t.w) == 0x302 {
          PrivilegedDecode(t.w);
          SystemFlags(t.w);
          MretAgrees(t);
        } else if Isa.Funct12(t.w) == 0 || Isa.Funct12(t.w) == 1 {
          CallsAlwaysTrap(t);
        } else {
          OtherPrivilegedAgrees(t);
        }
    }
  }
}
