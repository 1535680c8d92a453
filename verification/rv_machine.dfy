/**
 The core as clocked hardware: objects whose registers and arrays change in place
 on each clock, one class for each clocked block, tied register by register to the
 next-state function and so to the refinement.
 */
module RvMachine {
  import opened Rv32iPkg
  import opened RvStages
  import opened RvCore
  import opened RvRefinement
  import Isa = RvIsa

  /** PC register, counters, targets and tags (if_stage.sv). */
  class IfStage {
    var pcReg: Word
    const bht: array<bv2>
    const btb: array<Word>
    const btbTag: array<bv24>

    ghost function Repr(): set<object> { {this, bht, btb, btbTag} }

    ghost predicate Valid() {
      bht.Length == 64 && btb.Length == 64 && btbTag.Length == 64
    }

    function State(): IfState
      requires Valid()
      reads this, bht, btb, btbTag
    {
      IfState(pcReg, bht[..], btb[..], btbTag[..])
    }

    constructor ()
      ensures Valid() && fresh(Repr()) && State() == IfAtReset()
    {
      pcReg := 0;
      bht := new bv2[64](_ => 1);
      btb := new Word[64](_ => 4);
      btbTag := new bv24[64](_ => 0xFF_FFFF);
    }

    method Clock(rst: bool, stall: bool, r: Resolve)
      requires Valid()
      modifies Repr()
      ensures Valid()
      ensures State() == ClockIf(old(State()), rst, stall, r)
    {
      ghost var was := State();
      hide PcNext, Saturate, TagOf, BhtIdx, PredictTaken, Redirect;
      if rst {
        pcReg := 0;
        for i := 0 to 64
          invariant pcReg == 0
          invariant forall k :: 0 <= k < i ==> bht[k] == 1 && btb[k] == 4 && btbTag[k] == 0xFF_FFFF
        {
          bht[i] := 1;
          btb[i] := 4;
          btbTag[i] := 0xFF_FFFF;
        }
        assert bht[..] == IfAtReset().bht && btb[..] == IfAtReset().btb && btbTag[..] == IfAtReset().tags;
      } else {
        var next := PcNext(State(), r);
        if r.branchValid {
          var i := BhtIdx(r.pc);
          btb[i] := r.branchTarget;
          btbTag[i] := TagOf(r.pc);
          bht[i] := Saturate(bht[i], r.branchTaken);
        }
        if !stall || Redirect(r) {
          pcReg := next;
        }
      }
    }
  }

  /** The machine-mode CSRs and the two counters (csr_file.sv). */
  class CsrFile {
    var mstatusMie: bool
    var mstatusMpie: bool
    var mieReg: Word
    var mtvecReg: Word
    var mscratchReg: Word
    var mepcReg: Word
    var mcauseReg: Word
    var mtvalReg: Word
    var cycleCount: bv64
    var instretCount: bv64

    function State(): Isa.Csrs
      reads `mstatusMie, `mstatusMpie, `mieReg, `mtvecReg, `mscratchReg, `mepcReg, `mcauseReg, `mtvalReg
    {
      Isa.Csrs(mstatusMie, mstatusMpie, mieReg, mtvecReg, mscratchReg, mepcReg, mcauseReg, mtvalReg)
    }

    constructor ()
      ensures State() == Isa.CSRS_AT_RESET && cycleCount == 0 && instretCount == 0
    {
      mstatusMie, mstatusMpie := false, false;
      mieReg, mtvecReg, mscratchReg, mepcReg, mcauseReg, mtvalReg := 0, 0, 0, 0, 0, 0;
      cycleCount, instretCount := 0, 0;
    }

    method WriteRegister(addr: bv12, v: Word)
      modifies this
      ensures State() == Isa.WriteCsr(old(State()), addr, v)
      ensures cycleCount == old(cycleCount) && instretCount == old(instretCount)
    {
      hide Bit, ClearLow2;
      match addr
      case 0x300 => mstatusMie, mstatusMpie := Bit(v, 3), Bit(v, 7);
      case 0x304 => mieReg := v;
      case 0x305 => mtvecReg := ClearLow2(v);
      case 0x340 => mscratchReg := v;
      case 0x341 => mepcReg := ClearLow2(v);
      case 0x342 => mcauseReg := v;
      case 0x343 => mtvalReg := v;
      case _ =>
    }

    method Reset()
      modifies this
      ensures State() == Isa.CSRS_AT_RESET && cycleCount == 0 && instretCount == 0
    {
      mstatusMie, mstatusMpie := false, false;
      mieReg, mtvecReg, mscratchReg, mepcReg, mcauseReg, mtvalReg := 0, 0, 0, 0, 0, 0;
      cycleCount, instretCount := 0, 0;
    }

    method EnterTrap(pc: Word, cause: Word)
      modifies this
      ensures State() == Isa.EnterTrap(old(State()), pc, cause)
      ensures cycleCount == old(cycleCount) && instretCount == old(instretCount)
    {
      hide ClearLow2;
      mepcReg := ClearLow2(pc);
      mcauseReg := cause;
      mtvalReg := 0;
      mstatusMpie := mstatusMie;
      mstatusMie := false;
    }

    method ReturnFromTrap()
      modifies this
      ensures State() == Isa.ReturnFromTrap(old(State()))
      ensures cycleCount == old(cycleCount) && instretCount == old(instretCount)
    {
      mstatusMie := mstatusMpie;
      mstatusMpie := true;
    }

    method Clock(rst: bool, ctrl: Ctrl, pc: Word, imm: Word, rs1: RegIdx, src: Word, retired: bool, e: Isa.Env)
      modifies this
      ensures State() == ClockCsr(old(State()), rst, ctrl, pc, imm, rs1, src, e)
      ensures cycleCount == ClockCycles(old(cycleCount), rst)
      ensures instretCount == ClockInstret(old(instretCount), rst, retired)
    {
      var c := State();
      hide TakeTrap, TakeMret, TrapCause, CsrWriteEnable, CsrWriteData, CsrAddr, Succ64, Isa.ReadCsr, Isa.WriteCsr;
      hide Isa.EnterTrap, Isa.ReturnFromTrap, State;
      if rst {
        Reset();
        return;
      }
      cycleCount := Succ64(cycleCount);
      if retired {
        instretCount := Succ64(instretCount);
      }
      assert State() == c;
      if TakeTrap(ctrl, c, e) {
        EnterTrap(pc, TrapCause(ctrl, c, e));
        return;
      }
      if TakeMret(ctrl) {
        ReturnFromTrap();
        return;
      }
      if CsrWriteEnable(ctrl, rs1, src) {
        WriteRegister(CsrAddr(imm), CsrWriteData(ctrl, Isa.ReadCsr(c, e, CsrAddr(imm)), src));
        return;
      }
    }
  }

  /** Byte lanes written under enable, word read back a clock later (memories.sv). */
  class DataMemory {
    var mem: Memory
    var rdata: Word

    constructor ()
      ensures mem == map[] && rdata == 0
    {
      mem := map[];
      rdata := 0;
    }

    method Clock(addr: Word, lanes: StoreLanes, we: bool)
      modifies this
      ensures mem == DmemPort(old(mem), addr, lanes, we)
      ensures rdata == ReadWord(old(mem), addr)
    {
      hide ByteOf, Lane, Enabled, ReadWord, Put;
      rdata := ReadWord(mem, addr);
      if we {
        if Enabled(lanes.be, 0) { mem := Put(mem, Lane(addr, 0), ByteOf(lanes.wdata, 0)); }
        if Enabled(lanes.be, 1) { mem := Put(mem, Lane(addr, 1), ByteOf(lanes.wdata, 1)); }
        if Enabled(lanes.be, 2) { mem := Put(mem, Lane(addr, 2), ByteOf(lanes.wdata, 2)); }
        if Enabled(lanes.be, 3) { mem := Put(mem, Lane(addr, 3), ByteOf(lanes.wdata, 3)); }
      }
    }
  }

  /** The core with its two memories (riscv_core.sv). */
  class RiscvCore {
    const program: Isa.Program
    const ifStage: IfStage
    const csrFile: CsrFile
    const dmem: DataMemory
    const regfile: array<Word>
    var imemData: Word
    var fetch: FetchReg
    var ifid: IfId
    var idex: IdEx
    var exmem: ExMem
    var memwb: MemWb
    ghost var exReal: bool

    ghost function Repr(): set<object> {
      {this, csrFile, dmem, regfile} + ifStage.Repr()
    }

    ghost predicate Valid() {
      ifStage.Valid() && regfile.Length == 32 && regfile != ifStage.btb
    }

    function State(): Core
      requires Valid()
      reads Repr()
    {
      Core(ifStage.State(), fetch, imemData, ifid, idex, exmem, memwb, regfile[..], dmem.mem, dmem.rdata,
           csrFile.State(), csrFile.cycleCount, csrFile.instretCount)
    }

    ghost function Status(): Tracked
      requires Valid()
      reads Repr()
    {
      Tracked(State(), exReal)
    }

    constructor (p: Isa.Program)
      ensures Valid() && fresh(Repr()) && program == p
    {
      program := p;
      ifStage := new IfStage();
      csrFile := new CsrFile();
      dmem := new DataMemory();
      regfile := new Word[32](_ => 0);
      imemData := 0;
      fetch, ifid, idex, exmem, memwb := NO_FETCH, BUBBLE_ID, BUBBLE_EX, BUBBLE_MEM, BUBBLE_WB;
      exReal := false;
    }

    /** The register file's write port. */
    method WritePort(ghost s: Core, we: bool, rd: RegIdx, data: Word)
      requires regfile.Length == 32 && regfile[..] == s.regs
      requires we == s.memwb.ctrl.regWrite && rd == s.memwb.rd && data == WbData(s)
      modifies regfile
      ensures regfile[..] == ClockRegs(s)
    {
      hide WbData;
      if we && rd != 0 {
        regfile[rd as nat] := data;
      }
    }

    /** The CSR file and the data memory. */
    method ClockBack(ghost s: Core, rst: bool, idex: IdEx, exmem: ExMem, retired: bool, src: Word, e: Isa.Env)
      requires csrFile.State() == s.csrs && dmem.mem == s.dmem
      requires csrFile.cycleCount == s.cycles && csrFile.instretCount == s.instret
      modifies csrFile, dmem
      ensures csrFile.State() == ClockCsr(s.csrs, rst, idex.ctrl, idex.pc, idex.imm, idex.rs1, src, e)
      ensures csrFile.cycleCount == ClockCycles(s.cycles, rst)
      ensures csrFile.instretCount == ClockInstret(s.instret, rst, retired)
      ensures dmem.mem == ClockDmem(s.dmem, exmem) && dmem.rdata == ReadWord(s.dmem, exmem.alu)
    {
      hide CsrFile.State, ClockCsr, ClockCycles, ClockInstret, DmemPort, Lanes, ReadWord;
      csrFile.Clock(rst, idex.ctrl, idex.pc, idex.imm, idex.rs1, src, retired, e);
      dmem.Clock(exmem.alu, Lanes(exmem.ctrl.funct3, exmem.alu, exmem.rs2Data), exmem.ctrl.memWrite);
    }

    /** The blocks with state of their own. */
    method ClockBlocks(s: Core, rst: bool, stall: bool, r: Resolve, src: Word, e: Isa.Env)
      requires Valid()
      requires ifStage.State() == s.ifs && csrFile.State() == s.csrs && dmem.mem == s.dmem
      requires csrFile.cycleCount == s.cycles && csrFile.instretCount == s.instret
      modifies csrFile, dmem, ifStage.Repr()
      ensures ifStage.State() == ClockIf(s.ifs, rst, stall, r)
      ensures csrFile.State() == ClockCsr(s.csrs, rst, s.idex.ctrl, s.idex.pc, s.idex.imm, s.idex.rs1, src, e)
      ensures csrFile.cycleCount == ClockCycles(s.cycles, rst)
      ensures csrFile.instretCount == ClockInstret(s.instret, rst, s.memwb.ctrl.valid)
      ensures dmem.mem == ClockDmem(s.dmem, s.exmem) && dmem.rdata == ReadWord(s.dmem, s.exmem.alu)
      ensures unchanged(this) && regfile[..] == old(regfile[..])
    {
      hide IfStage.State, CsrFile.State, ClockIf, ClockCsr, ClockCycles, ClockInstret, ClockDmem, ReadWord;
      ClockBack(s, rst, s.idex, s.exmem, s.memwb.ctrl.valid, src, e);
      ifStage.Clock(rst, stall, r);
    }

    /** IF/ID, the fetch register and the instruction memory's output. */
    method LatchFetch(ghost s: Core, rst: bool, flush: bool, stall: bool, predicted: bool, pcIf: Word)
      requires fetch == s.fetch && ifid == s.ifid && imemData == s.imemData
      requires pcIf == s.ifs.pc && predicted == PredictTaken(s.ifs) && stall == Stall(s)
      modifies `imemData, `fetch, `ifid
      ensures imemData == Isa.Fetch(program, ImemAddr(s))
      ensures fetch == ClockFetch(s, rst, flush, stall)
      ensures ifid == ClockIfId(s, rst, flush, stall)
    {
      hide Isa.Fetch, PredictTaken, Stall;
      if rst || flush || !fetch.valid {
        ifid := BUBBLE_ID;
      } else if !stall {
        ifid := IfId(fetch.pc, imemData, fetch.predicted, true);
      }
      imemData := Isa.Fetch(program, if stall then fetch.pc else pcIf);
      if rst || flush {
        fetch := NO_FETCH;
      } else if !stall {
        fetch := FetchReg(pcIf, predicted, true);
      }
    }

    /** ID/EX, EX/MEM and MEM/WB. */
    method LatchBack(ghost s: Core, x: Inputs, bubble: bool, decoded: IdEx, resolved: ExMem)
      requires exmem == s.exmem
      requires decoded == DecodeSlot(s.ifid, s.regs, s.memwb.ctrl.regWrite, s.memwb.rd, WbData(s))
      requires resolved == NextExMem(s.idex, OperandA(s), OperandB(s), s.csrs, EnvOf(s, x))
      modifies `idex, `exmem, `memwb
      ensures idex == ClockIdEx(s, x.rst, bubble) && exmem == ClockExMem(s, x) && memwb == ClockMemWb(s, x.rst)
    {
      hide WbData, NextExMem, OperandA, OperandB, EnvOf, DecodeSlot;
      memwb := if x.rst then BUBBLE_WB else MemWb(exmem.ctrl, exmem.alu, exmem.rd);
      exmem := if x.rst then BUBBLE_MEM else resolved;
      idex := if x.rst || bubble then BUBBLE_EX else decoded;
    }

    /** Every pipeline register and the register file. */
    method LatchAll(s: Core, x: Inputs, flush: bool, stall: bool)
      requires Valid() && s == State() && flush == Redirect(ResolveOf(s, x)) && stall == Stall(s)
      modifies this, regfile
      ensures regfile[..] == ClockRegs(s) && imemData == Isa.Fetch(program, ImemAddr(s))
      ensures fetch == ClockFetch(s, x.rst, flush, stall) && ifid == ClockIfId(s, x.rst, flush, stall)
      ensures idex == ClockIdEx(s, x.rst, flush || stall)
      ensures exmem == ClockExMem(s, x) && memwb == ClockMemWb(s, x.rst)
      ensures exReal == (!x.rst && !flush && !stall && s.ifid.valid)
      ensures ifStage.State() == s.ifs && csrFile.State() == s.csrs && dmem.mem == s.dmem
      ensures csrFile.cycleCount == s.cycles && csrFile.instretCount == s.instret
    {
      hide ResolveOf, Redirect, Stall, OperandA, OperandB, EnvOf, Isa.Fetch, NextExMem, WbData, DecodeSlot, ClockRegs;
      hide PredictTaken, ClockFetch, ClockIfId, ImemAddr, ClockIdEx, ClockExMem, ClockMemWb, IfStage.State,
        CsrFile.State;
      var decoded := DecodeSlot(s.ifid, s.regs, s.memwb.ctrl.regWrite, s.memwb.rd, WbData(s));
      var resolved := NextExMem(s.idex, OperandA(s), OperandB(s), s.csrs, EnvOf(s, x));
      WritePort(s, s.memwb.ctrl.regWrite, s.memwb.rd, WbData(s));
      LatchFetch(s, x.rst, flush, stall, PredictTaken(s.ifs), s.ifs.pc);
      LatchBack(s, x, flush || stall, decoded, resolved);
      exReal := !x.rst && !flush && !stall && s.ifid.valid;
    }

    /** One rising edge: all wires are read from the registers as they stand, then
        every pipeline register and every block latches. */
    method Clock(x: Inputs)
      requires Valid()
      modifies Repr()
      ensures Valid()
      ensures Status() == Tick(program, old(Status()), x)
    {
      var s := State();
      hide ResolveOf, Redirect, Stall, OperandA, OperandB, EnvOf, ClockIf, ClockCsr, ReadWord, Isa.Fetch,
        CsrWriteSource;
      hide IfStage.State, CsrFile.State, ClockDmem, ClockCycles, ClockInstret, ClockRegs;
      hide ClockFetch, ClockIfId, ImemAddr, ClockIdEx, ClockExMem, ClockMemWb;
      var r := ResolveOf(s, x);
      LatchAll(s, x, Redirect(r), Stall(s));
      ClockBlocks(s, x.rst, Stall(s), r, CsrWriteSource(s.idex.ctrl, s.idex.rs1, OperandA(s)), EnvOf(s, x));
      ghost var n := RvCore.Clock(program, s, x);
      assert ifStage.State() == n.ifs && csrFile.State() == n.csrs && dmem.mem == n.dmem && dmem.rdata == n.dmemRdata;
      assert regfile[..] == n.regs && imemData == n.imemData && fetch == n.fetch && ifid == n.ifid && idex == n.idex;
      assert exmem == n.exmem && memwb == n.memwb;
      assert csrFile.cycleCount == n.cycles && csrFile.instretCount == n.instret;
      hide RvCore.Clock;
      assert State() == n;
    }

    /** The refinement, stated on the hardware: from a reachable state, one clock is
        one architectural step of the registers and memory, or none. */
    method ClockRefines(x: Inputs)
      requires Valid() && Inv(program, Status()) && !x.rst && Aligned(Abs(Status()).pc)
      modifies Repr()
      ensures Valid() && Inv(program, Status())
      ensures Abs(Status()) == if old(exReal)
                               then Isa.Step(program, old(Abs(Status())), old(EnvOf(State(), x)))
                               else old(Abs(Status()))
    {
      hide Inv, Abs, Isa.Step, Aligned, EnvOf, Tick;
      TickRefines(program, Status(), x);
      Clock(x);
    }
  }
}
