/**
 The timer demonstration from reset: the branch over the handler and the start-up code,
 which no interrupt can enter, reach the state the counting theorem starts from.
 */
module SocBoot {
  import opened Rv32iPkg
  import Isa = RvIsa
  import opened SocWords
  import opened SocFields
  import opened SocAsm
  import opened SocProgram
  import opened SocFirmware
  import opened SocDemo
  import opened RvTransparency
  import opened RvRuns
  import RvRefinement
  import RvCore

  // ---- What the other start-up instructions do ------------------------------------------

  /** The effect of `lui` and of the CSR writes, which the loop and handler do not use. */
  function Setting(x: Call, s: Isa.State, e: Isa.Env): Isa.Effect {
    var next := PcPlus4(s.pc);
    match x
    case Lui(rd, imm20) => Isa.Effect(next, Isa.WriteReg(rd, Upper(ToWord(imm20))), Isa.NoMem, s.csrs)
    case CsrReg(op, rd, csr, rs1) =>
      Isa.Effect(next, Isa.WriteReg(rd, Isa.ReadCsr(s.csrs, e, CsrField(csr))), Isa.NoMem,
        Isa.UpdateCsr(s.csrs, e, op, CsrField(csr), GetReg(s.regs, rs1), rs1 == 0))
    case CsrImm(op, rd, csr, uimm) =>
      Isa.Effect(next, Isa.WriteReg(rd, Isa.ReadCsr(s.csrs, e, CsrField(csr))), Isa.NoMem,
        Isa.UpdateCsr(s.csrs, e, op, CsrField(csr), uimm as Word, uimm == 0))
    case _ => Doing(x, s, e)
  }

  lemma SetsAsCalled(p: Isa.Program, s: Isa.State, e: Isa.Env, x: Call)
    requires Isa.Fetch(p, s.pc) == Encode(x) && Accepts(x) && !s.csrs.mie
    requires x.Lui? || x.CsrReg? || x.CsrImm?
    ensures Isa.NextEffect(p, s, e) == Setting(x, s, e)
  {
    hide Encode, Isa.Fetch, Isa.Decode, ToWord, Upper, CsrField, PcPlus4, SetReg, GetReg, Isa.InterruptPending;
    hide Isa.Rs1, Isa.Rs2, Plus, ClearLow2, Isa.ReadCsr, Isa.UpdateCsr, Isa.Ordinary;
    DecodesAsMeant(x);
    NoInterruptWithoutMie(s.csrs, e);
    if x.Lui? {
      var w := Encode(x);
      LuiOutcome(x.rd, Upper(ToWord(x.imm20)), s.pc, GetReg(s.regs, Isa.Rs1(w)), GetReg(s.regs, Isa.Rs2(w)));
    }
  }

  lemma LuiOutcome(rd: RegIdx, imm: Word, pc: Word, a: Word, b: Word)
    ensures Isa.Ordinary(Isa.Lui(rd, imm), pc, a, b) == Isa.Outcome(PcPlus4(pc), Isa.WriteReg(rd, imm), Isa.NoMem)
  {
  }

  // ---- Along the start-up code -------------------------------------------------------------

  function StartPc(i: nat): Word
    requires i <= 18
  {
    match i
    case 0 => 0x38 case 1 => 0x3c case 2 => 0x40 case 3 => 0x44 case 4 => 0x48 case 5 => 0x4c case 6 => 0x50
    case 7 => 0x54 case 8 => 0x58 case 9 => 0x5c case 10 => 0x60 case 11 => 0x64 case 12 => 0x68 case 13 => 0x6c
    case 14 => 0x70 case 15 => 0x74 case 16 => 0x78 case 17 => 0x7c case _ => 0x80
  }

  lemma StartIndex(i: nat)
    requires i <= 18
    ensures ((StartPc(i) >> 2) & 0x3ff) as nat == i + 14
    ensures i < 18 ==> PcPlus4(StartPc(i)) == StartPc(i + 1)
    ensures Aligned(StartPc(i))
  {
  }

  /** Before start-up instruction `i`: interrupts are off until the last of them, and what
      has been set up so far is in place. */
  ghost predicate Booting(s: Isa.State, i: nat) {
    && i <= 18 && s.pc == StartPc(i)
    && (i < 18 ==> !s.csrs.mie)
    && ReadWord(s.mem, 0) == 0
    && (i >= 1 ==> GetReg(s.regs, 20) == 0)
    && (i >= 4 ==> GetReg(s.regs, 24) == 0x4000_4000)
    && (i == 5 ==> GetReg(s.regs, 28) == 0x4000_4000)
    && (i >= 6 ==> GetReg(s.regs, 28) == 0x4000_4004)
    && (i == 14 ==> GetReg(s.regs, 5) == 4)
    && (i >= 15 ==> ClearLow2(s.csrs.mtvec) == 4)
  }

  lemma StartFetch(p: Isa.Program, i: nat)
    requires Loaded(p) && i < 19
    ensures Isa.Fetch(p, StartPc(i)) == Encode(StartCalls()[i])
  {
    hide Encode, StartCalls, Loaded, StartPc;
    StartIndex(i);
    DemoWords(p, i + 14);
  }

  lemma UpperConstant()
    ensures Upper(ToWord(0x40004)) == 0x4000_4000
  {
    assert Low(0x10) == 0x10;
    assert Low(0x100) == 0x100;
    assert Low(0x1000) == 0x1000;
    assert Low(0x10001) == 0x10001;
  }

  lemma SmallConstants()
    ensures Plus(0x4000_4000, ToWord(4)) == 0x4000_4004 && Plus(0, ToWord(4)) == 4 && Plus(0, ToWord(0)) == 0
    ensures ClearLow2(4) == 4
  {
    assert Low(4) == 4;
  }

  /** Start-up instructions that only load a register. */
  predicate LoadsRegister(i: nat) {
    i <= 7 || i == 10 || i == 11 || i == 13 || i == 15
  }

  lemma RegisterCalls(i: nat)
    requires i < 18 && LoadsRegister(i)
    ensures var x := StartCalls()[i];
      && Accepts(x) && (x.Addi? || x.Lui? || x.Lw?)
      && (x.rd == 20 <==> i == 0) && (x.rd == 24 <==> i == 3) && (x.rd == 28 <==> i == 4 || i == 5)
      && (x.rd == 5 <==> i == 13)
  {
    hide Encode, ToWord;
  }

  /** The registers the loop and the handler rely on, and where they come from. */
  lemma PointerCallsAt()
    ensures StartCalls()[0] == Addi(20, 0, 0) && StartCalls()[3] == Lui(24, 0x40004)
    ensures StartCalls()[4] == Lui(28, 0x40004) && StartCalls()[5] == Addi(28, 28, 4)
    ensures StartCalls()[13] == Addi(5, 0, 4)
  {
  }

  function RegisterValue(x: Call, s: Isa.State): Word
    requires x.Addi? || x.Lui? || x.Lw?
  {
    match x
    case Lui(_, imm20) => Upper(ToWord(imm20))
    case Addi(_, rs1, imm) => Plus(GetReg(s.regs, rs1), ToWord(imm))
    case Lw(_, rs1, imm) => Isa.LoadValue(Isa.LoadWord, s.mem, Plus(GetReg(s.regs, rs1), ToWord(imm)))
    case _ => 0
  }

  lemma RegisterStep(p: Isa.Program, s: Isa.State, e: Isa.Env, x: Call)
    requires Isa.Fetch(p, s.pc) == Encode(x) && Accepts(x) && !s.csrs.mie && (x.Addi? || x.Lui? || x.Lw?)
    ensures Isa.Step(p, s, e) == Isa.State(PcPlus4(s.pc), SetReg(s.regs, x.rd, RegisterValue(x, s)), s.mem, s.csrs)
  {
    hide Encode, ToWord, Upper, PcPlus4, GetReg, SetReg, Plus, Isa.Fetch, Isa.NextEffect, Isa.LoadValue,
      Isa.InterruptPending;
    NoInterruptWithoutMie(s.csrs, e);
    if x.Lui? {
      SetsAsCalled(p, s, e, x);
    } else {
      DoesAsCalled(p, s, e, x);
    }
  }

  lemma BootRegister(p: Isa.Program, s: Isa.State, e: Isa.Env, i: nat)
    requires Loaded(p) && Booting(s, i) && i < 18 && LoadsRegister(i)
    ensures Booting(Isa.Step(p, s, e), i + 1)
  {
    hide Loaded, Encode, ToWord, Upper, PcPlus4, GetReg, SetReg, Plus, Isa.Fetch, Isa.Step, Isa.LoadValue, StartPc,
      StartCalls, ReadWord, ClearLow2;
    var x := StartCalls()[i];
    StartFetch(p, i);
    StartIndex(i);
    RegisterCalls(i);
    PointerCallsAt();
    UpperConstant();
    SmallConstants();
    ZeroRegister(s.regs);
    RegisterStep(p, s, e, x);
    var v := RegisterValue(x, s);
    RegFacts(s.regs, x.rd, 5, v);
    RegFacts(s.regs, x.rd, 20, v);
    RegFacts(s.regs, x.rd, 24, v);
    RegFacts(s.regs, x.rd, 28, v);
  }

  lemma StoreCallsAt()
    ensures StartCalls()[8] == Sw(25, 24, 0) && StartCalls()[9] == Sw(0, 28, 0) && StartCalls()[12] == Sw(23, 24, 0)
  {
  }

  lemma OutsideKeepsWord(m: Memory, a: Word, v: Word)
    requires Elsewhere(a)
    ensures ReadWord(Isa.StoreValue(Isa.StoreWord, m, a, v), 0) == ReadWord(m, 0)
  {
    hide Elsewhere, Isa.StoreValue, ReadWord;
    ElsewhereOutside(a);
    StoreElsewhere(Owned(), Isa.StoreWord, a, v, m);
    BytesAgree(Isa.StoreValue(Isa.StoreWord, m, a, v), m);
  }

  lemma BootStore(p: Isa.Program, s: Isa.State, e: Isa.Env, i: nat)
    requires Loaded(p) && Booting(s, i) && (i == 8 || i == 9 || i == 12)
    ensures Booting(Isa.Step(p, s, e), i + 1)
  {
    hide Loaded, Encode, ToWord, PcPlus4, GetReg, Plus, Isa.Fetch, Isa.NextEffect, Isa.StoreValue, StartPc, StartCalls,
      ReadWord, ClearLow2, Isa.InterruptPending, Elsewhere;
    var x := StartCalls()[i];
    StartFetch(p, i);
    StartIndex(i);
    StoreCallsAt();
    SmallOffsets();
    ElsewhereValues();
    NoInterruptWithoutMie(s.csrs, e);
    DoesAsCalled(p, s, e, x);
    OutsideKeepsWord(s.mem, Plus(GetReg(s.regs, x.rs1), ToWord(x.imm)), GetReg(s.regs, x.rs2));
  }

  lemma CsrCallsAt()
    ensures StartCalls()[14] == CsrReg(Isa.CsrWrite, 0, 0x305, 5)
    ensures StartCalls()[16] == CsrReg(Isa.CsrWrite, 0, 0x304, 6)
    ensures StartCalls()[17] == CsrImm(Isa.CsrSet, 0, 0x300, 8)
  {
  }

  lemma CsrFields()
    ensures CsrField(0x305) == 0x305 && CsrField(0x304) == 0x304 && CsrField(0x300) == 0x300
  {
    assert Low(0x30) == 0x30;
    assert Low(0x305) == 0x305;
    assert Low(0x304) == 0x304;
    assert Low(0x300) == 0x300;
  }

  /** Only the first of the three writes `mtvec`, and only the last can set MIE. */
  lemma CsrEffects(c: Isa.Csrs, e: Isa.Env, v: Word)
    ensures Isa.UpdateCsr(c, e, Isa.CsrWrite, 0x305, v, false) == c.(mtvec := ClearLow2(v))
    ensures Isa.UpdateCsr(c, e, Isa.CsrWrite, 0x304, v, false) == c.(mieReg := v)
    ensures Isa.UpdateCsr(c, e, Isa.CsrSet, 0x300, 8, false).mtvec == c.mtvec
  {
    hide Bit, ClearLow2, Isa.ReadCsr;
  }

  lemma ZeroTarget(r: Regs, v: Word)
    ensures SetReg(r, 0, v) == r
  {
  }

  lemma BootCsr(p: Isa.Program, s: Isa.State, e: Isa.Env, i: nat)
    requires Loaded(p) && Booting(s, i) && (i == 14 || i == 16 || i == 17)
    ensures Booting(Isa.Step(p, s, e), i + 1)
  {
    hide Loaded, Encode, ToWord, PcPlus4, GetReg, SetReg, Plus, Isa.Fetch, Isa.NextEffect, StartPc, StartCalls,
      ReadWord, ClearLow2, Isa.InterruptPending, CsrField, Isa.UpdateCsr, Isa.ReadCsr;
    var x := StartCalls()[i];
    StartFetch(p, i);
    StartIndex(i);
    CsrCallsAt();
    CsrFields();
    SmallConstants();
    SetsAsCalled(p, s, e, x);
    ZeroTarget(s.regs, Isa.ReadCsr(s.csrs, e, CsrField(x.csr)));
    CsrEffects(s.csrs, e, GetReg(s.regs, if i == 14 then 5 else 6));
  }

  lemma BootStep(p: Isa.Program, s: Isa.State, e: Isa.Env, i: nat)
    requires Loaded(p) && Booting(s, i) && i < 18
    ensures Booting(Isa.Step(p, s, e), i + 1)
  {
    hide Loaded, Booting, Isa.Step;
    if LoadsRegister(i) {
      BootRegister(p, s, e, i);
    } else if i == 8 || i == 9 || i == 12 {
      BootStore(p, s, e, i);
    } else {
      BootCsr(p, s, e, i);
    }
  }

  // ---- From reset ---------------------------------------------------------------------------

  lemma EntryConstants()
    ensures Plus(0, ToWord(56)) == 0x38
  {
    assert Low(7) == 7;
    assert Low(56) == 56;
  }

  /** The first instruction branches over the handler. */
  lemma BootEntry(p: Isa.Program, s: Isa.State, e: Isa.Env)
    requires Loaded(p) && s.pc == 0 && !s.csrs.mie && ReadWord(s.mem, 0) == 0
    ensures Booting(Isa.Step(p, s, e), 0)
  {
    hide Loaded, Encode, ToWord, PcPlus4, GetReg, Plus, Isa.Decode, WordB, ReadWord, ClearLow2, Isa.InterruptPending,
      Isa.Rs1, Isa.Rs2;
    EntryWord(p);
    BranchDecodes(56, true, 0, 0);
    EntryConstants();
    NoInterruptWithoutMie(s.csrs, e);
    hide Isa.Fetch;
  }

  lemma EntryWord(p: Isa.Program)
    requires Loaded(p)
    ensures Isa.Fetch(p, 0) == WordB(ToWord(56), 0, 0, 0)
  {
    hide Loaded, WordB, ToWord;
    DemoWords(p, 0);
  }

  lemma {:induction false} BootRuns(p: Isa.Program, s: Isa.State, i: nat, es: seq<Isa.Env>)
    requires Loaded(p) && Booting(s, i) && i + |es| <= 18
    ensures Booting(IsaRun(p, s, es), i + |es|) && AlignedRun(p, s, es)
    decreases |es|
  {
    hide Loaded, Booting, Isa.Step, Aligned, ReadWord;
    BootingAligned(s, i);
    if es != [] {
      BootStep(p, s, es[0], i);
      BootRuns(p, Isa.Step(p, s, es[0]), i + 1, es[1..]);
    }
  }

  lemma BootingAligned(s: Isa.State, i: nat)
    requires Booting(s, i)
    ensures Aligned(s.pc) && ReadWord(s.mem, 0) == 0
  {
    hide GetReg, ReadWord, ClearLow2, StartPc, Aligned;
    StartIndex(i);
  }

  /** The start-up code ends where the counting theorem begins. */
  lemma BootedRuns(s: Isa.State)
    requires Booting(s, 18)
    ensures Running(Watched(s, false, 0)) && MainState(s, 0)
  {
    hide GetReg, ReadWord, ClearLow2, ToWord;
    ZeroWord();
    MainPcs();
    assert s.pc == MainPc(0);
  }

  lemma {:induction false} IsaRunSplit(p: Isa.Program, s: Isa.State, a: seq<Isa.Env>, b: seq<Isa.Env>)
    ensures IsaRun(p, s, a + b) == IsaRun(p, IsaRun(p, s, a), b)
    ensures AlignedRun(p, s, a) && AlignedRun(p, IsaRun(p, s, a), b) ==> AlignedRun(p, s, a + b)
    decreases |a|
  {
    hide Isa.Step, Aligned;
    if a == [] {
      assert a + b == b;
    } else {
      assert (a + b)[0] == a[0] && (a + b)[1..] == a[1..] + b;
      IsaRunSplit(p, Isa.Step(p, s, a[0]), a[1..], b);
    }
  }

  /** The reset state with an empty first word of RAM. */
  predicate AtReset(s: Isa.State) {
    s.pc == 0 && s.csrs == Isa.CSRS_AT_RESET && ReadWord(s.mem, 0) == 0
  }

  const BOOT := 19

  lemma BootPrefix(p: Isa.Program, s: Isa.State, es: seq<Isa.Env>)
    requires Loaded(p) && AtReset(s) && |es| <= BOOT
    ensures AlignedRun(p, s, es) && ReadWord(IsaRun(p, s, es).mem, 0) == 0
    ensures |es| == BOOT ==> Booting(IsaRun(p, s, es), 18)
  {
    hide Loaded, Booting, Isa.Step, ReadWord;
    if es != [] {
      BootEntry(p, s, es[0]);
      BootRuns(p, Isa.Step(p, s, es[0]), 0, es[1..]);
      BootingAligned(IsaRun(p, Isa.Step(p, s, es[0]), es[1..]), |es| - 1);
    }
  }

  /** From reset, under any interrupt schedule: the first word of RAM stays zero through
      the nineteen instructions of the start-up, and from then on it is the number of
      stores the loop has completed: 1, 2, 3, ... */
  lemma DemoFromReset(p: Isa.Program, s: Isa.State, es: seq<Isa.Env>)
    requires Loaded(p) && AtReset(s)
    ensures AlignedRun(p, s, es)
    ensures |es| <= BOOT ==> ReadWord(IsaRun(p, s, es).mem, 0) == 0
    ensures |es| > BOOT ==>
      var n := WatchRun(p, Watched(IsaRun(p, s, es[..BOOT]), false, 0), es[BOOT..]);
      n.s == IsaRun(p, s, es) && ReadWord(IsaRun(p, s, es).mem, 0) == ToWord(n.done / 3)
  {
    hide Loaded, Booting, Isa.Step, ReadWord, AtReset, IsaRun, AlignedRun, WatchRun, Running, MainState, ToWord;
    if |es| <= BOOT {
      BootPrefix(p, s, es);
    } else {
      var a, b := es[..BOOT], es[BOOT..];
      assert a + b == es;
      BootPrefix(p, s, a);
      var t := IsaRun(p, s, a);
      BootedRuns(t);
      DemoCounts(p, t, b);
      WatchRunIsIsaRun(p, Watched(t, false, 0), b);
      DemoAligned(p, Watched(t, false, 0), b);
      IsaRunSplit(p, s, a, b);
    }
  }

  /** The same on the five-stage pipeline: one reset clock out of any power-up state whose
      RAM starts at zero, then any number of clocks under any interrupt lines. */
  lemma DemoFromResetOnPipeline(p: Isa.Program, powerUp: RvRefinement.Tracked, reset: RvCore.Inputs,
                                xs: seq<RvCore.Inputs>)
    requires Loaded(p) && reset.rst && NoReset(xs)
    requires ReadWord(RvRefinement.Abs(powerUp).mem, 0) == 0
    ensures var t := RvRefinement.Tick(p, powerUp, reset);
      var es := Events(p, t, xs);
      var m := RvRefinement.Abs(Run(p, t, xs)).mem;
      && (|es| <= BOOT ==> ReadWord(m, 0) == 0)
      && (|es| > BOOT ==>
           ReadWord(m, 0) == ToWord(
             WatchRun(p, Watched(IsaRun(p, RvRefinement.Abs(t), es[..BOOT]), false, 0), es[BOOT..]).done / 3))
  {
    hide Loaded, ReadWord, IsaRun, AlignedRun, WatchRun, ToWord, RvRefinement.Tick, RvRefinement.Inv, Events, Run;
    var t := RvRefinement.Tick(p, powerUp, reset);
    ResetEstablishes(p, powerUp, reset);
    hide RvRefinement.Abs;
    DemoFromReset(p, RvRefinement.Abs(t), Events(p, t, xs));
    RunRefines(p, t, xs);
  }
}
