/**
 The demonstration from reset: the start-up code arms the timer, every timer interrupt is
 reported and resumed, and the ticks are counted, also on the pipeline.
 */
module SocArmed {
  import opened Rv32iPkg
  import Isa = RvIsa
  import opened SocWords
  import opened SocFields
  import opened SocAsm
  import opened SocProgram
  import opened SocFirmware
  import opened SocDemo
  import opened SocBoot
  import opened SocHandler
  import opened SocTicks
  import opened RvMemoryWords
  import opened RvTransparency
  import opened RvRuns
  import RvRefinement
  import RvCore

  // ---- The start-up code ------------------------------------------------------------------

  lemma StartCallsAt()
    ensures var h := StartCalls();
      && h[0] == Addi(20, 0, 0) && h[1] == Lui(22, 0x4000c) && h[2] == Addi(22, 22, -8) && h[3] == Lui(24, 0x40004)
      && h[4] == Lui(28, 0x40004) && h[5] == Addi(28, 28, 4) && h[6] == Addi(21, 0, 0)
      && h[7] == Addi(25, 0, -1) && h[8] == Sw(25, 24, 0) && h[9] == Sw(0, 28, 0)
      && h[10] == Lw(23, 22, 0) && h[11] == Addi(23, 23, 400) && h[12] == Sw(23, 24, 0)
      && h[13] == Addi(5, 0, 4) && h[14] == CsrReg(Isa.CsrWrite, 0, 0x305, 5)
      && h[15] == Addi(6, 0, 128) && h[16] == CsrReg(Isa.CsrWrite, 0, 0x304, 6)
      && h[17] == CsrImm(Isa.CsrSet, 0, 0x300, 8)
  {
  }

  /** The registers of the timer before start-up instruction `i`; `m` is the memory at the
      start. */
  predicate ArmingRegs(m: Memory, r: Regs, i: nat) {
    && (i == 2 ==> GetReg(r, 22) == 0x4000_c000) && (i >= 3 ==> GetReg(r, 22) == MTIME)
    && (i >= 7 ==> GetReg(r, 21) == 0)
    && (i == 8 ==> GetReg(r, 25) == 0xffff_ffff)
    && (i == 11 ==> GetReg(r, 23) == ReadWord(m, MTIME)) && (i == 12 ==> GetReg(r, 23) == Deadline(m))
    && (i == 16 ==> GetReg(r, 6) == 128)
  }

  predicate ArmingCsrs(c: Isa.Csrs, i: nat) {
    && (i >= 17 ==> c.mieReg == 0x80) && (i >= 18 ==> c.mie)
  }

  predicate ArmingMemory(m: Memory, n: Memory, i: nat) {
    && ReadWord(n, MTIME) == ReadWord(m, MTIME)
    && (i >= 10 ==> ReadWord(n, DEADLINE_HIGH) == 0)
    && (i >= 13 ==> ReadWord(n, DEADLINE_LOW) == Deadline(m))
  }

  ghost predicate Arming(m: Memory, s: Isa.State, i: nat) {
    Booting(s, i) && ArmingRegs(m, s.regs, i) && ArmingCsrs(s.csrs, i) && ArmingMemory(m, s.mem, i)
  }

  lemma ArmConstants()
    ensures Upper(ToWord(0x4000c)) == 0x4000_c000
    ensures Plus(0x4000_c000, ToWord(-8)) == MTIME
    ensures Plus(0, ToWord(128)) == 128 && Plus(0, ToWord(-1)) == 0xffff_ffff && Plus(0, ToWord(0)) == 0
  {
    Constants();
    assert Low(8) == 8;
    assert Low(128) == 128;
    assert Low(0x10) == 0x10;
    assert Low(0x100) == 0x100;
    assert Low(0x1000) == 0x1000;
    assert Low(0x10003) == 0x10003;
  }

  lemma ArmRegister(p: Isa.Program, m: Memory, s: Isa.State, e: Isa.Env, i: nat)
    requires Loaded(p) && Arming(m, s, i) && i < 18 && LoadsRegister(i)
    ensures Arming(m, Isa.Step(p, s, e), i + 1)
  {
    hide Loaded, Booting, Encode, ToWord, Upper, PcPlus4, GetReg, SetReg, Plus, Isa.Fetch, Isa.Step, StartPc,
      StartCalls, ReadWord, Deadline, RegisterValue;
    var x := StartCalls()[i];
    BootStep(p, s, e, i);
    StartFetch(p, i);
    BootingFacts(s, i);
    RegisterCalls(i);
    RegisterStep(p, s, e, x);
    ArmWritten(m, s, i);
    RegsAfter(s.regs, x.rd, RegisterValue(x, s));
  }

  lemma BootingFacts(s: Isa.State, i: nat)
    requires Booting(s, i)
    ensures s.pc == StartPc(i) && (i < 18 ==> !s.csrs.mie)
    ensures i >= 4 ==> GetReg(s.regs, 24) == DEADLINE_LOW
    ensures i >= 6 ==> GetReg(s.regs, 28) == DEADLINE_HIGH
  {
    hide GetReg, ReadWord, ClearLow2, StartPc;
  }

  /** What the register instructions compute, and into which register. */
  lemma ArmWritten(m: Memory, s: Isa.State, i: nat)
    requires Arming(m, s, i) && i < 18 && LoadsRegister(i)
    ensures var x := StartCalls()[i];
      && (x.Addi? || x.Lui? || x.Lw?) && x.rd != 0
      && (i == 1 ==> x.rd == 22 && RegisterValue(x, s) == 0x4000_c000)
      && (i == 2 ==> x.rd == 22 && RegisterValue(x, s) == MTIME)
      && (i == 6 ==> x.rd == 21 && RegisterValue(x, s) == 0)
      && (i == 7 ==> x.rd == 25 && RegisterValue(x, s) == 0xffff_ffff)
      && (i == 10 ==> x.rd == 23 && RegisterValue(x, s) == ReadWord(m, MTIME))
      && (i == 11 ==> x.rd == 23 && RegisterValue(x, s) == Deadline(m))
      && (i == 15 ==> x.rd == 6 && RegisterValue(x, s) == 128)
      && (i >= 3 ==> x.rd != 22) && (i >= 7 ==> x.rd != 21)
  {
    hide Booting, ToWord, Upper, GetReg, Plus, StartCalls, ReadWord;
    StartCallsAt();
    ArmConstants();
    Constants();
    Offsets(MTIME);
    ZeroRegister(s.regs);
  }

  lemma ArmStore(p: Isa.Program, m: Memory, s: Isa.State, e: Isa.Env, i: nat)
    requires Loaded(p) && Arming(m, s, i) && (i == 8 || i == 9 || i == 12)
    ensures Arming(m, Isa.Step(p, s, e), i + 1)
  {
    hide Loaded, Booting, Encode, ToWord, PcPlus4, GetReg, Plus, Isa.Fetch, Isa.NextEffect, Isa.StoreValue, StartPc,
      StartCalls, ReadWord, Isa.InterruptPending, Deadline, Aligned;
    BootStep(p, s, e, i);
    BootingFacts(s, i);
    StoredAligned();
    TimeAligned();
    ArmStoreEffect(p, m, s, e, i);
    var a, w := if i == 9 then DEADLINE_HIGH else DEADLINE_LOW, Isa.NextEffect(p, s, e).mem.value;
    StoreReads(s.mem, a, w, MTIME);
    StoreReads(s.mem, a, w, DEADLINE_HIGH);
    StoreReads(s.mem, a, w, DEADLINE_LOW);
  }

  lemma ArmStoreEffect(p: Isa.Program, m: Memory, s: Isa.State, e: Isa.Env, i: nat)
    requires Loaded(p) && Arming(m, s, i) && (i == 8 || i == 9 || i == 12)
    ensures var fx := Isa.NextEffect(p, s, e);
      && fx.reg == Isa.NoReg && fx.csrs == s.csrs
      && fx.mem == if i == 8 then WordStore(DEADLINE_LOW, 0xffff_ffff)
                   else if i == 9 then WordStore(DEADLINE_HIGH, 0)
                   else WordStore(DEADLINE_LOW, Deadline(m))
  {
    hide Loaded, Booting, Encode, ToWord, PcPlus4, GetReg, Plus, Isa.Fetch, Isa.NextEffect, StartPc, StartCalls,
      ReadWord, Isa.InterruptPending, Deadline, ArmingMemory, ArmingCsrs;
    StartFetch(p, i);
    BootingFacts(s, i);
    StartCallsAt();
    SmallOffsets();
    ZeroRegister(s.regs);
    NoInterruptWithoutMie(s.csrs, e);
    DoesAsCalled(p, s, e, StartCalls()[i]);
  }

  lemma TimeAligned()
    ensures Aligned(MTIME)
  {
  }

  lemma EnableEffects(c: Isa.Csrs, e: Isa.Env)
    ensures Isa.UpdateCsr(c, e, Isa.CsrWrite, 0x304, 128, false).mieReg == 0x80
    ensures Isa.UpdateCsr(c, e, Isa.CsrSet, 0x300, 8, false) == c.(mie := true)
  {
  }

  lemma ArmCsr(p: Isa.Program, m: Memory, s: Isa.State, e: Isa.Env, i: nat)
    requires Loaded(p) && Arming(m, s, i) && (i == 14 || i == 16 || i == 17)
    ensures Arming(m, Isa.Step(p, s, e), i + 1)
  {
    hide Loaded, Booting, Encode, ToWord, PcPlus4, GetReg, SetReg, Plus, Isa.Fetch, Isa.NextEffect, StartPc, StartCalls,
      ReadWord, Isa.InterruptPending, CsrField, Isa.UpdateCsr, Isa.ReadCsr, Deadline;
    BootStep(p, s, e, i);
    ArmCsrEffect(p, m, s, e, i);
    EnableEffects(s.csrs, e);
  }

  lemma ArmCsrEffect(p: Isa.Program, m: Memory, s: Isa.State, e: Isa.Env, i: nat)
    requires Loaded(p) && Arming(m, s, i) && (i == 14 || i == 16 || i == 17)
    ensures var n := Isa.Step(p, s, e);
      && n.regs == s.regs && n.mem == s.mem
      && (i == 16 ==> n.csrs == Isa.UpdateCsr(s.csrs, e, Isa.CsrWrite, 0x304, 128, false))
      && (i == 17 ==> n.csrs == Isa.UpdateCsr(s.csrs, e, Isa.CsrSet, 0x300, 8, false))
  {
    hide Loaded, Booting, Encode, ToWord, PcPlus4, GetReg, SetReg, Isa.Fetch, Isa.NextEffect, StartPc, StartCalls,
      ReadWord, CsrField, Isa.UpdateCsr, Isa.ReadCsr, ArmingMemory, ArmingCsrs;
    StartFetch(p, i);
    BootingFacts(s, i);
    StartCallsAt();
    CsrFields();
    var x := StartCalls()[i];
    SetsAsCalled(p, s, e, x);
    ZeroTarget(s.regs, Isa.ReadCsr(s.csrs, e, CsrField(x.csr)));
  }

  lemma {:induction false} ArmingRuns(p: Isa.Program, m: Memory, s: Isa.State, i: nat, es: seq<Isa.Env>)
    requires Loaded(p) && Arming(m, s, i) && i + |es| == 18
    ensures Arming(m, IsaRun(p, s, es), 18)
    decreases |es|
  {
    hide Loaded, Arming, Isa.Step;
    if es != [] {
      ArmingStep(p, m, s, es[0], i);
      ArmingRuns(p, m, Isa.Step(p, s, es[0]), i + 1, es[1..]);
    }
  }

  lemma ArmingStep(p: Isa.Program, m: Memory, s: Isa.State, e: Isa.Env, i: nat)
    requires Loaded(p) && Arming(m, s, i) && i < 18
    ensures Arming(m, Isa.Step(p, s, e), i + 1)
  {
    hide Loaded, Arming, Isa.Step;
    if LoadsRegister(i) {
      ArmRegister(p, m, s, e, i);
    } else if i == 8 || i == 9 || i == 12 {
      ArmStore(p, m, s, e, i);
    } else {
      ArmCsr(p, m, s, e, i);
    }
  }

  lemma EntryKeepsMemory(p: Isa.Program, s: Isa.State, e: Isa.Env)
    requires Loaded(p) && s.pc == 0 && !s.csrs.mie
    ensures Isa.Step(p, s, e).mem == s.mem
  {
    hide Loaded, ToWord, PcPlus4, GetReg, Plus, Isa.Decode, WordB, ClearLow2, Isa.InterruptPending, Isa.Rs1, Isa.Rs2;
    EntryWord(p);
    BranchDecodes(56, true, 0, 0);
    NoInterruptWithoutMie(s.csrs, e);
    hide Isa.Fetch;
  }

  /** From reset: after the start-up code only the timer is enabled, `mtvec` is the handler,
      the tick count is 0 and the deadline lies 400 after `mtime`. */
  lemma StartArms(p: Isa.Program, s: Isa.State, es: seq<Isa.Env>)
    requires Loaded(p) && AtReset(s) && |es| == BOOT
    ensures var n := IsaRun(p, s, es);
      && n.csrs.mie && n.csrs.mieReg == 0x80 && ClearLow2(n.csrs.mtvec) == 4
      && ReadWord(n.mem, 0x4000_4000) == Plus(ReadWord(s.mem, 0x4000_bff8), 400)
      && ReadWord(n.mem, 0x4000_4004) == 0
      && TimerReady(Watched(n, false, 0)) && Ticked(Watched(n, false, 0), 0)
  {
    hide Loaded, Booting, Isa.Step, GetReg, ReadWord, ClearLow2, ToWord, Running, IsaRun, Plus;
    BootEntry(p, s, es[0]);
    EntryKeepsMemory(p, s, es[0]);
    var t := Isa.Step(p, s, es[0]);
    ArmingRuns(p, s.mem, t, 0, es[1..]);
    RunFromFirst(p, s, es);
    var n := IsaRun(p, s, es);
    ArmedReady(s.mem, n);
  }

  lemma RunFromFirst(p: Isa.Program, s: Isa.State, es: seq<Isa.Env>)
    requires es != []
    ensures IsaRun(p, s, es) == IsaRun(p, Isa.Step(p, s, es[0]), es[1..])
  {
    hide Isa.Step;
  }

  lemma ArmedReady(m: Memory, n: Isa.State)
    requires Arming(m, n, 18)
    ensures n.csrs.mie && n.csrs.mieReg == 0x80 && ClearLow2(n.csrs.mtvec) == 4
    ensures ReadWord(n.mem, DEADLINE_LOW) == Deadline(m) && ReadWord(n.mem, DEADLINE_HIGH) == 0
    ensures TimerReady(Watched(n, false, 0)) && Ticked(Watched(n, false, 0), 0)
  {
    hide GetReg, ReadWord, ClearLow2, ToWord, Deadline, MainState, Running, StartPc;
    BootedRuns(n);
    Constants();
  }

  // ---- From reset -----------------------------------------------------------------------------

  /** From reset, under any interrupt lines: the second word of RAM counts the timer
      interrupts taken, those whose handler has not stored yet aside. */
  lemma TicksFromReset(p: Isa.Program, s: Isa.State, es: seq<Isa.Env>)
    requires Loaded(p) && AtReset(s) && |es| > BOOT
    ensures var t := Watched(IsaRun(p, s, es[..BOOT]), false, 0);
      var n := WatchRun(p, t, es[BOOT..]);
      var ticks := Interrupts(p, t, es[BOOT..]) - (if n.handler && (n.s.pc == 4 || n.s.pc == 8) then 1 else 0);
      && n.s == IsaRun(p, s, es)
      && (ticks > 0 ==> ReadWord(IsaRun(p, s, es).mem, 4) == ToWord(ticks))
  {
    hide Loaded, AtReset, IsaRun, AlignedRun, WatchRun, TimerReady, ReadWord, ToWord, GetReg;
    var a, b := es[..BOOT], es[BOOT..];
    assert a + b == es;
    StartArms(p, s, a);
    var t := Watched(IsaRun(p, s, a), false, 0);
    TicksCount(p, t, 0, b);
    WatchRunIsIsaRun(p, t, b);
    IsaRunSplit(p, s, a, b);
  }

  /** The same on the five-stage pipeline. */
  lemma TicksOnPipeline(p: Isa.Program, powerUp: RvRefinement.Tracked, reset: RvCore.Inputs, xs: seq<RvCore.Inputs>)
    requires Loaded(p) && reset.rst && NoReset(xs)
    requires ReadWord(RvRefinement.Abs(powerUp).mem, 0) == 0
    ensures var t := RvRefinement.Tick(p, powerUp, reset);
      var es := Events(p, t, xs);
      |es| > BOOT ==>
        var w := Watched(IsaRun(p, RvRefinement.Abs(t), es[..BOOT]), false, 0);
        var n := WatchRun(p, w, es[BOOT..]);
        var ticks := Interrupts(p, w, es[BOOT..]) - (if n.handler && (n.s.pc == 4 || n.s.pc == 8) then 1 else 0);
        ticks > 0 ==> ReadWord(RvRefinement.Abs(Run(p, t, xs)).mem, 4) == ToWord(ticks)
  {
    hide Loaded, ReadWord, IsaRun, AlignedRun, WatchRun, ToWord, RvRefinement.Tick, RvRefinement.Inv, Events, Run,
      Interrupts;
    var t := RvRefinement.Tick(p, powerUp, reset);
    ResetEstablishes(p, powerUp, reset);
    hide RvRefinement.Abs;
    var es := Events(p, t, xs);
    DemoFromReset(p, RvRefinement.Abs(t), es);
    RunRefines(p, t, xs);
    if |es| > BOOT {
      TicksFromReset(p, RvRefinement.Abs(t), es);
    }
  }

  /** One timer interrupt of the running demonstration, whatever the lines do meanwhile:
      fourteen steps later the cause 0x80000007 is in RAM word 2 and the interrupted PC in
      word 3, the deadline is moved, and the main program is back at that PC with its
      register, its word and its interrupt enable as they were. */
  lemma InterruptReported(p: Isa.Program, t: Watched, es: seq<Isa.Env>)
    requires Loaded(p) && TimerReady(t) && !t.handler && |es| == 14 && es[0].timer
    ensures var n := IsaRun(p, t.s, es);
      && n.pc == t.s.pc && n.csrs.mie && GetReg(n.regs, 1) == GetReg(t.s.regs, 1)
      && GetReg(n.regs, 21) == Plus(GetReg(t.s.regs, 21), 1)
      && ReadWord(n.mem, 0) == ReadWord(t.s.mem, 0)
      && ReadWord(n.mem, 4) == Plus(GetReg(t.s.regs, 21), 1)
      && ReadWord(n.mem, 8) == 0x8000_0007 && ReadWord(n.mem, 12) == t.s.pc
      && ReadWord(n.mem, 0x4000_4000) == Plus(ReadWord(t.s.mem, 0x4000_bff8), 400)
      && ReadWord(n.mem, 0x4000_4004) == 0
  {
    hide Loaded, Pointers, Isa.Step, GetReg, ReadWord, Plus, IsaRun, IsaStores, Aligned, ClearLow2;
    TrapTaken(p, t, es[0]);
    RunFromFirst(p, t.s, es);
    StoredAligned();
    FirstWords();
    var u, rest := Isa.Step(p, t.s, es[0]), es[1..];
    HandlerReports(p, u, rest, 0);
    HandlerReports(p, u, rest, 4);
    HandlerReports(p, u, rest, 8);
    HandlerReports(p, u, rest, 12);
    HandlerReports(p, u, rest, 0x4000_4000);
    HandlerReports(p, u, rest, 0x4000_4004);
  }

  lemma TrapTaken(p: Isa.Program, t: Watched, e: Isa.Env)
    requires Loaded(p) && TimerReady(t) && !t.handler && e.timer
    ensures var u := Isa.Step(p, t.s, e);
      && u.pc == 4 && !u.csrs.mie && u.csrs.mpie && u.csrs.mcause == 0x8000_0007 && ClearLow2(u.csrs.mepc) == t.s.pc
      && u.regs == t.s.regs && u.mem == t.s.mem && Pointers(u.regs)
  {
    hide Loaded, Pointers, Isa.Fetch, Isa.Decode, GetReg, Isa.Traps, Isa.Cause, ClearLow2, Isa.Execute, Isa.Rs1,
      Isa.Rs2, MainPc;
    TrapsOnTimer(p, t, e);
    Vectored(t);
    var j :| 0 <= j < 4 && t.s.pc == MainPc(j);
    MainIndex(j);
  }
}
