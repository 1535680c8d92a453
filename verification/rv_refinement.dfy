/**
 The five-stage core refines the architecture: from reset, for every program and
 every interrupt schedule, each clock either leaves the abstract state unchanged
 or performs exactly one architectural step or trap entry.

 The abstract PC is that of the oldest real slot (EX, then ID, then the fetch
 register, then the PC register); the abstract registers and memory are the real
 ones with what WB and MEM still owe applied; the CSRs are architectural already,
 because they change only in EX.
 */
module RvRefinement {
  import opened Rv32iPkg
  import opened RvStages
  import opened RvCore
  import opened RvDatapath
  import opened RvMemoryPort
  import Isa = RvIsa

  /** A core, and whether ID/EX holds an instruction rather than a bubble.  The
      hardware cannot tell: an undecoded opcode also clears `valid`. */
  datatype Tracked = Tracked(core: Core, exReal: bool)

  function Tick(p: Isa.Program, t: Tracked, x: Inputs): Tracked {
    Tracked(Clock(p, t.core, x),
            !x.rst && !Redirect(ResolveOf(t.core, x)) && !Stall(t.core) && t.core.ifid.valid)
  }

  // ---- Abstraction --------------------------------------------------------------

  function AbsPc(t: Tracked): Word {
    if t.exReal then t.core.idex.pc
    else if t.core.ifid.valid then t.core.ifid.pc
    else if t.core.fetch.valid then t.core.fetch.pc
    else t.core.ifs.pc
  }

  /** The register file once WB has written. */
  function AfterWb(s: Core): Regs {
    if s.memwb.ctrl.regWrite then SetReg(s.regs, s.memwb.rd, WbData(s)) else s.regs
  }

  function AbsRegs(s: Core): Regs { Isa.ApplyReg(AfterWb(s), s.dmem, PendingReg(s.exmem)) }
  function AbsMem(s: Core): Memory { Isa.ApplyMem(s.dmem, PendingMem(s.exmem)) }

  function Abs(t: Tracked): Isa.State {
    Isa.State(AbsPc(t), AbsRegs(t.core), AbsMem(t.core), t.core.csrs)
  }

  // ---- Invariant ----------------------------------------------------------------

  function BranchTarget(p: Isa.Program, pc: Word): Word { Plus(pc, Isa.ImmB(Isa.Fetch(p, pc))) }
  predicate IsBranch(p: Isa.Program, pc: Word) { Isa.Opcode(Isa.Fetch(p, pc)) == Isa.BranchOp }

  /** Slots fill from the front, and each pairs a PC with the word at that PC. */
  predicate FetchPaired(p: Isa.Program, t: Tracked) {
    var s := t.core;
    && (t.exReal ==> s.ifid.valid) && (s.ifid.valid ==> s.fetch.valid)
    && (!s.ifid.valid ==> s.ifid == BUBBLE_ID)
    && (s.ifid.valid ==> s.ifid.instr == Isa.Fetch(p, s.ifid.pc))
    && (s.fetch.valid ==> s.imemData == Isa.Fetch(p, s.fetch.pc))
  }

  /** EX holds the decoded instruction at its PC, or something that does nothing. */
  predicate ExDecoded(p: Isa.Program, t: Tracked) {
    var x := t.core.idex;
    if t.exReal then
      var w := Isa.Fetch(p, x.pc);
      x == SlotFor(w, x.pc, x.predicted, GetReg(t.core.regs, Isa.Rs1(w)), GetReg(t.core.regs, Isa.Rs2(w)))
    else
      && !x.predicted && !x.ctrl.valid && !x.ctrl.branch && !x.ctrl.jal && !x.ctrl.jalr
      && !x.ctrl.memRead && !x.ctrl.memToReg && !x.ctrl.memWrite && !x.ctrl.isCsr
      && (x.ctrl.regWrite ==> x.rd == 0)
  }

  /** The instruction in EX reads nothing that a load in MEM is about to supply. */
  predicate LoadSettled(t: Tracked) {
    var m := t.core.exmem;
    && (m.ctrl.memToReg ==> m.ctrl.memRead)
    && (t.exReal && m.ctrl.memRead && m.rd != 0 ==> m.rd != t.core.idex.rs1 && m.rd != t.core.idex.rs2)
  }

  /** `next` is where the front end went after fetching `pc` with this prediction. */
  predicate Follows(p: Isa.Program, pc: Word, predicted: bool, next: Word) {
    if predicted then Aligned(pc) ==> IsBranch(p, pc) && next == BranchTarget(p, pc)
    else next == PcPlus4(pc)
  }

  predicate PathFollowed(p: Isa.Program, t: Tracked) {
    var s := t.core;
    && (t.exReal ==> Follows(p, s.idex.pc, s.idex.predicted, s.ifid.pc))
    && (s.ifid.valid ==> Follows(p, s.ifid.pc, s.ifid.predicted, s.fetch.pc))
    && (s.fetch.valid ==> Follows(p, s.fetch.pc, s.fetch.predicted, s.ifs.pc))
  }

  predicate Hit(f: IfState, pc: Word) {
    f.bht[BhtIdx(pc)] & 2 != 0 && f.tags[BhtIdx(pc)] == TagOf(pc)
  }

  /** Every aligned PC the predictor would send elsewhere is a branch, and the
      stored target is that branch's own. */
  ghost predicate BtbExact(p: Isa.Program, f: IfState) {
    forall pc: Word | Aligned(pc) && Hit(f, pc) :: IsBranch(p, pc) && f.btb[BhtIdx(pc)] == BranchTarget(p, pc)
  }

  ghost predicate Inv(p: Isa.Program, t: Tracked) {
    && FetchPaired(p, t) && ExDecoded(p, t) && LoadSettled(t)
    && PathFollowed(p, t) && BtbExact(p, t.core.ifs)
  }

  // ---- Operands -------------------------------------------------------------------

  lemma GetAfterSet(r: Regs, i: RegIdx, v: Word, j: RegIdx)
    ensures GetReg(SetReg(r, i, v), j) == if i == j && i != 0 then v else GetReg(r, j)
  {
  }

  /** Forwarding delivers the architectural register, whatever MEM and WB hold. */
  lemma OperandExact(t: Tracked, rs: RegIdx)
    requires t.core.exmem.ctrl.memToReg ==> t.core.exmem.ctrl.memRead
    requires t.core.exmem.ctrl.memRead && t.core.exmem.rd != 0 ==> t.core.exmem.rd != rs
    ensures OperandOf(t.core, rs, GetReg(t.core.regs, rs)) == GetReg(AbsRegs(t.core), rs)
  {
    hide GetReg, SetReg, WbData, Isa.LoadValue, Isa.LoadKindOf;
    var s := t.core;
    GetAfterSet(s.regs, s.memwb.rd, WbData(s), rs);
    match PendingReg(s.exmem) {
      case NoReg =>
      case WriteReg(rd, v) => GetAfterSet(AfterWb(s), rd, v, rs);
      case LoadReg(rd, kind, a) => GetAfterSet(AfterWb(s), rd, Isa.LoadValue(kind, s.dmem, a), rs);
    }
  }

  /** Both operands and the CSR source of the instruction in EX are the architectural
      register values before that instruction. */
  lemma OperandsArchitectural(p: Isa.Program, t: Tracked)
    requires ExDecoded(p, t) && LoadSettled(t) && t.exReal
    ensures var w := Isa.Fetch(p, AbsPc(t)); var r := Abs(t).regs;
      && OperandA(t.core) == GetReg(r, Isa.Rs1(w)) && OperandB(t.core) == GetReg(r, Isa.Rs2(w))
      && CsrWriteSource(t.core.idex.ctrl, t.core.idex.rs1, OperandA(t.core))
         == if Control(w).csrImm then Isa.Rs1(w) as Word else GetReg(r, Isa.Rs1(w))
  {
    var w := Isa.Fetch(p, t.core.idex.pc);
    OperandExact(t, Isa.Rs1(w));
    OperandExact(t, Isa.Rs2(w));
    hide AbsRegs, AbsMem, OperandOf, Control, ImmediateOf, Isa.Rs1, Isa.Rs2, Isa.Rd, GetReg, Isa.Fetch;
  }

  // ---- What WB and MEM owe --------------------------------------------------------

  lemma RegfilePort(s: Core)
    ensures ClockRegs(s) == AfterWb(s)
  {
    hide WbData;
  }

  /** One clock moves what MEM owed into WB and leaves the totals the same. */
  lemma CommitMoves(p: Isa.Program, s: Core, x: Inputs)
    requires !x.rst
    ensures AfterWb(Clock(p, s, x)) == AbsRegs(s)
    ensures Clock(p, s, x).dmem == AbsMem(s)
  {
    RegfilePort(s);
    WordLoad(s.dmem, s.exmem.ctrl.funct3, s.exmem.alu);
    LanesStore(s.dmem, s.exmem.ctrl.funct3, s.exmem.alu, s.exmem.rs2Data);
    hide ClockIf, ClockFetch, ClockIfId, ClockIdEx, ClockCsr, NextExMem, ClockRegs, ReadWord;
    hide LoadExtend, Offset, Isa.LoadValue, Isa.LoadKindOf, WriteLanes, Lanes, Isa.StoreValue, Isa.StoreKindOf;
    hide SetReg, Stall, ResolveOf, Redirect, EnvOf, OperandA, OperandB, CsrWriteSource, ImemAddr, Isa.Fetch;
  }

  // ---- What EX does ---------------------------------------------------------------

  /** A real instruction in EX leaves behind its architectural effect. */
  lemma ExAgrees(p: Isa.Program, t: Tracked, x: Inputs)
    requires ExDecoded(p, t) && LoadSettled(t) && t.exReal && !x.rst
    ensures var n := Clock(p, t.core, x); var fx := Isa.NextEffect(p, Abs(t), EnvOf(t.core, x));
      && PendingReg(n.exmem) == fx.reg && PendingMem(n.exmem) == fx.mem && n.csrs == fx.csrs
      && ResolvedNext(ResolveOf(t.core, x)) == fx.next
  {
    var s := t.core;
    var w := Isa.Fetch(p, s.idex.pc);
    OperandExact(t, Isa.Rs1(w));
    OperandExact(t, Isa.Rs2(w));
    DatapathMatchesIsa(Occupant(w, s.idex.pc, s.idex.predicted, s.idex.rs1Data, s.idex.rs2Data,
                                OperandA(s), OperandB(s), s.csrs, EnvOf(s, x)));
    hide ClockIf, ClockFetch, ClockIfId, ClockIdEx, ClockCsr, NextExMem, ClockRegs, ClockDmem, ReadWord;
    hide AbsRegs, AbsMem, OperandOf, Isa.Fetch, Isa.StepEffect, ResolvedNext, ResolveEx, PendingReg, PendingMem;
    hide Control, ImmediateOf, Isa.Rs1, Isa.Rs2, Isa.Rd, GetReg, Stall, Redirect, EnvOf, CsrWriteSource;
  }

  /** A bubble in EX changes nothing and redirects nothing. */
  lemma BubbleInert(p: Isa.Program, t: Tracked, x: Inputs)
    requires ExDecoded(p, t) && !t.exReal && !x.rst
    ensures var n := Clock(p, t.core, x);
      && (forall r: Regs, m: Memory :: Isa.ApplyReg(r, m, PendingReg(n.exmem)) == r)
      && PendingMem(n.exmem) == Isa.NoMem && n.csrs == t.core.csrs
    ensures var r := ResolveOf(t.core, x);
      !Redirect(r) && !r.branchValid
  {
    hide ClockIf, ClockFetch, ClockIfId, ClockIdEx, ClockRegs, ClockDmem, ReadWord, ExResult, AluOut, BranchCond;
    hide JumpTarget, OperandOf, Isa.Fetch, Stall, EnvOf, CsrWriteSource, Isa.EnterTrap, Isa.ReturnFromTrap;
    hide Isa.WriteCsr, Isa.ReadCsr, CsrAddr, CsrWriteData, TrapCause, Isa.InterruptPending;
  }

  // ---- Where the front end goes ----------------------------------------------------

  lemma BranchFields(p: Isa.Program, t: Tracked, x: Inputs)
    requires ExDecoded(p, t) && t.exReal
    ensures var r := ResolveOf(t.core, x);
      && (r.branchValid <==> IsBranch(p, t.core.idex.pc))
      && (r.branchValid ==> r.branchTarget == BranchTarget(p, t.core.idex.pc))
      && r.pc == t.core.idex.pc && r.predicted == t.core.idex.predicted
  {
    hide Isa.Fetch, Isa.Rs1, Isa.Rs2, Isa.Rd, GetReg, Plus, PcPlus4, Isa.ImmB, OperandOf, EnvOf, AluOut, BranchCond;
    hide JumpTarget, TakeTrap, TakeMret, Bit, ArithAluOp, BranchAluOp, Isa.Opcode, Isa.Funct3, Isa.Funct12;
    hide ClearLow2, Isa.ImmI, Isa.ImmS, Isa.ImmU, Isa.ImmJ, CsrAddressField, CsrImmediate;
  }

  /** The safety net for a redirect made on behalf of a non-branch never fires. */
  lemma BogusRedirectUnreachable(p: Isa.Program, t: Tracked, x: Inputs)
    requires FetchPaired(p, t) && ExDecoded(p, t) && PathFollowed(p, t)
    requires t.exReal ==> Aligned(t.core.idex.pc)
    ensures !BogusRedirect(ResolveOf(t.core, x))
  {
    if t.exReal { BranchFields(p, t, x); }
    hide Isa.Fetch, GetReg, Plus, PcPlus4, OperandOf, EnvOf, AluOut, BranchCond, JumpTarget, TakeTrap, TakeMret;
    hide ClearLow2, SlotFor, IsBranch, BranchTarget;
  }

  /** Comparing directions only is enough: either the fetch is redirected to the
      instruction's successor, or ID already holds it. */
  lemma SuccessorReached(p: Isa.Program, t: Tracked, x: Inputs)
    requires FetchPaired(p, t) && ExDecoded(p, t) && PathFollowed(p, t)
    requires t.exReal && Aligned(t.core.idex.pc)
    ensures var r := ResolveOf(t.core, x);
      ResolvedNext(r) == if Redirect(r) then PcNext(t.core.ifs, r) else t.core.ifid.pc
  {
    BranchFields(p, t, x);
    BogusRedirectUnreachable(p, t, x);
    hide ExDecoded, FetchPaired, IsBranch, BranchTarget, ResolveOf, PcPlus4, PredictTaken, BhtIdx;
  }

  // ---- The invariant is kept --------------------------------------------------------

  lemma FetchStaysPaired(p: Isa.Program, t: Tracked, x: Inputs)
    requires FetchPaired(p, t)
    ensures FetchPaired(p, Tick(p, t, x))
  {
    hide ClockIf, ClockIdEx, ClockCsr, NextExMem, ClockRegs, ClockDmem, ReadWord, Redirect, ResolveOf, PredictTaken;
    hide Isa.Fetch, EnvOf, CsrWriteSource, OperandA, OperandB, LoadUse;
    if !t.core.ifid.valid {
      BubbleNeverStalls(t.core);
    }
  }

  /** The injected bubble reads x0 only, so it never asks for a stall: a stall and
      an empty fetch register cannot meet. */
  lemma BubbleNeverStalls(s: Core)
    requires s.ifid == BUBBLE_ID
    ensures !Stall(s)
  {
  }

  lemma ReadPortCurrent(s: Core, rs: RegIdx)
    ensures ReadPort(s.regs, rs, s.memwb.ctrl.regWrite, s.memwb.rd, WbData(s)) == GetReg(ClockRegs(s), rs)
  {
    hide WbData;
  }

  lemma BubbleDecodes()
    ensures var c := Control(NOP_INSTR);
      && !c.branch && !c.jal && !c.jalr && !c.memRead && !c.memToReg && !c.memWrite && !c.isCsr
      && Isa.Rd(NOP_INSTR) == 0
  {
    assert Isa.Opcode(NOP_INSTR) == Isa.ImmOp;
    hide ArithAluOp;
  }

  lemma ExStaysDecoded(p: Isa.Program, t: Tracked, x: Inputs)
    requires FetchPaired(p, t)
    ensures ExDecoded(p, Tick(p, t, x))
  {
    ReadPortCurrent(t.core, Isa.Rs1(t.core.ifid.instr));
    ReadPortCurrent(t.core, Isa.Rs2(t.core.ifid.instr));
    BubbleDecodes();
    hide ClockIf, ClockFetch, ClockIfId, ClockCsr, NextExMem, ClockRegs, ClockDmem, ReadWord, Redirect, ResolveOf;
    hide Isa.Fetch, EnvOf, CsrWriteSource, OperandA, OperandB, Stall, Control, ImmediateOf, ReadPort, GetReg, WbData;
    hide Isa.Rs1, Isa.Rs2, Isa.Rd;
  }

  lemma LoadsReadMemory(w: Word)
    ensures Control(w).memToReg == Control(w).memRead
  {
    hide Isa.Opcode, Isa.Funct3, Isa.Funct12, ArithAluOp, BranchAluOp, CsrImmediate, Bit;
  }

  lemma LoadStaysSettled(p: Isa.Program, t: Tracked, x: Inputs)
    requires ExDecoded(p, t)
    ensures LoadSettled(Tick(p, t, x))
  {
    LoadsReadMemory(Isa.Fetch(p, t.core.idex.pc));
    hide ClockIf, ClockFetch, ClockIfId, ClockCsr, ClockRegs, ClockDmem, ReadWord, ResolveOf, ExResult;
    hide Isa.Fetch, EnvOf, CsrWriteSource, OperandA, OperandB, Control, ImmediateOf, ReadPort, GetReg, WbData;
    hide Isa.Rs1, Isa.Rs2, Isa.Rd, TakeTrap, TakeMret, PcPlus4;
  }

  lemma PredictionFollows(p: Isa.Program, f: IfState, r: Resolve)
    requires BtbExact(p, f) && !Redirect(r)
    ensures Follows(p, f.pc, PredictTaken(f), PcNext(f, r))
  {
    hide BhtIdx, TagOf, IsBranch, BranchTarget, PcPlus4, Aligned;
    if PredictTaken(f) && Aligned(f.pc) {
      assert Hit(f, f.pc);
    }
  }

  lemma PathStaysFollowed(p: Isa.Program, t: Tracked, x: Inputs)
    requires FetchPaired(p, t) && PathFollowed(p, t) && BtbExact(p, t.core.ifs)
    ensures PathFollowed(p, Tick(p, t, x))
  {
    var r := ResolveOf(t.core, x);
    if !Redirect(r) { PredictionFollows(p, t.core.ifs, r); }
    hide ClockCsr, ClockRegs, ClockDmem, ReadWord, ResolveOf, Redirect, Stall, NextExMem, Follows, BtbExact;
    hide Isa.Fetch, EnvOf, CsrWriteSource, OperandA, OperandB, Control, ImmediateOf, ReadPort, WbData;
    hide Isa.Rs1, Isa.Rs2, Isa.Rd, PredictTaken, PcNext, BhtIdx, Saturate, TagOf;
  }

  lemma AlignedIdentified(a: Word, b: Word)
    requires Aligned(a) && Aligned(b) && BhtIdx(a) == BhtIdx(b) && TagOf(a) == TagOf(b)
    ensures a == b
  {
    assert ((a >> 2) & 0x3F) as bv6 == ((b >> 2) & 0x3F) as bv6;
  }

  /** Why aligned PCs: the predictor ignores PC bits 1 and 0, so a PC that shares a
      branch's entry gets that branch's target, which is its own exactly when it is
      aligned. */
  lemma TargetExactIffAligned(p: Isa.Program, f: IfState, branch: Word, pc: Word)
    requires BtbExact(p, f) && Aligned(branch) && Hit(f, branch)
    requires ClearLow2(pc) == branch
    ensures Hit(f, pc) && Isa.Fetch(p, pc) == Isa.Fetch(p, branch)
    ensures f.btb[BhtIdx(pc)] == BranchTarget(p, pc) <==> Aligned(pc)
  {
    SameEntry(branch, pc);
    SameFetch(p, branch, pc);
    hide BhtIdx, TagOf, Isa.ImmB, PredictTaken, Plus, Isa.Fetch, ClearLow2, Aligned, Isa.Opcode, IsBranch;
    if f.btb[BhtIdx(pc)] == BranchTarget(p, pc) {
      PlusCancels(pc, branch, Isa.ImmB(Isa.Fetch(p, pc)));
    }
    AlignedIsItself(pc);
  }

  lemma SameFetch(p: Isa.Program, branch: Word, pc: Word)
    requires (pc >> 2) & 0x3FF == (branch >> 2) & 0x3FF
    ensures Isa.Fetch(p, pc) == Isa.Fetch(p, branch)
  {
  }

  lemma AlignedIsItself(pc: Word)
    ensures Aligned(pc) <==> ClearLow2(pc) == pc
  {
  }

  lemma PlusCancels(a: Word, b: Word, c: Word)
    requires Plus(a, c) == Plus(b, c)
    ensures a == b
  {
    assert (a + c) - c == a;
  }

  lemma SameEntry(branch: Word, pc: Word)
    requires ClearLow2(pc) == branch
    ensures BhtIdx(pc) == BhtIdx(branch) && TagOf(pc) == TagOf(branch)
    ensures (pc >> 2) & 0x3FF == (branch >> 2) & 0x3FF
  {
    assert (pc >> 2) & 0x3F == (branch >> 2) & 0x3F;
  }

  lemma BtbStaysExact(p: Isa.Program, f: IfState, rst: bool, stall: bool, r: Resolve)
    requires BtbExact(p, f)
    requires r.branchValid ==> Aligned(r.pc) && IsBranch(p, r.pc) && r.branchTarget == BranchTarget(p, r.pc)
    ensures BtbExact(p, ClockIf(f, rst, stall, r))
  {
    hide IsBranch, BranchTarget, Aligned, BhtIdx, TagOf, PcNext, Redirect, Saturate;
    var n := ClockIf(f, rst, stall, r);
    forall pc: Word | Aligned(pc) && Hit(n, pc)
      ensures IsBranch(p, pc) && n.btb[BhtIdx(pc)] == BranchTarget(p, pc)
    {
      if !rst {
        if r.branchValid && BhtIdx(pc) == BhtIdx(r.pc) {
          AlignedIdentified(pc, r.pc);
        } else {
          assert Hit(f, pc);
        }
      }
    }
  }

  lemma InvKept(p: Isa.Program, t: Tracked, x: Inputs)
    requires Inv(p, t) && (t.exReal ==> Aligned(t.core.idex.pc))
    ensures Inv(p, Tick(p, t, x))
  {
    FetchStaysPaired(p, t, x);
    ExStaysDecoded(p, t, x);
    LoadStaysSettled(p, t, x);
    PathStaysFollowed(p, t, x);
    if t.exReal {
      BranchFields(p, t, x);
    } else {
      assert !ResolveOf(t.core, x).branchValid by {
        hide OperandOf, EnvOf, AluOut, JumpTarget, BranchCond, TakeTrap, TakeMret;
      }
    }
    BtbStaysExact(p, t.core.ifs, x.rst, Stall(t.core), ResolveOf(t.core, x));
    hide FetchPaired, ExDecoded, LoadSettled, PathFollowed, BtbExact, ResolveOf, ClockIf, Stall, ClockCsr, ClockRegs;
    hide ClockDmem, NextExMem, ClockIfId, ClockIdEx, ClockFetch, IsBranch, BranchTarget, Redirect, Aligned;
  }

  // ---- The refinement -----------------------------------------------------------------

  lemma PcRefines(p: Isa.Program, t: Tracked, x: Inputs)
    requires FetchPaired(p, t) && ExDecoded(p, t) && PathFollowed(p, t) && !x.rst
    requires t.exReal ==> Aligned(t.core.idex.pc)
    ensures AbsPc(Tick(p, t, x)) == if t.exReal then ResolvedNext(ResolveOf(t.core, x)) else AbsPc(t)
  {
    if t.exReal {
      SuccessorReached(p, t, x);
    } else {
      BubbleInert(p, t, x);
    }
    hide ExDecoded, PathFollowed, ResolveOf, Stall, ClockCsr, ClockRegs, ClockDmem, NextExMem, Redirect, ResolvedNext;
    hide PcNext, Isa.Fetch, Control, ImmediateOf, ReadPort, PredictTaken, ImemAddr, ReadWord, EnvOf, WbData, Aligned;
    hide Isa.Rs1, Isa.Rs2, Isa.Rd, OperandA, OperandB, CsrWriteSource;
  }

  /** One clock of the pipeline is one architectural step, or none. */
  lemma TickRefines(p: Isa.Program, t: Tracked, x: Inputs)
    requires Inv(p, t) && !x.rst && Aligned(Abs(t).pc)
    ensures Inv(p, Tick(p, t, x))
    ensures Abs(Tick(p, t, x)) == if t.exReal then Isa.Step(p, Abs(t), EnvOf(t.core, x)) else Abs(t)
  {
    InvKept(p, t, x);
    PcRefines(p, t, x);
    CommitMoves(p, t.core, x);
    if t.exReal {
      ExAgrees(p, t, x);
    } else {
      BubbleInert(p, t, x);
    }
    hide Inv, FetchPaired, ExDecoded, PathFollowed, LoadSettled, Clock, PendingReg, PendingMem, ResolveOf, ResolvedNext;
    hide Isa.NextEffect, EnvOf, AfterWb, Stall, Redirect, Aligned;
  }
}
