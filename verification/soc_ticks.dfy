/**
 The timer over whole runs of the demonstration: what the start-up code arms, which
 interrupts are taken, and the count of ticks in the second word of RAM.
 */
module SocTicks {
  import opened Rv32iPkg
  import Isa = RvIsa
  import opened SocWords
  import opened SocFields
  import opened SocAsm
  import opened SocFirmware
  import opened SocDemo
  import opened SocHandler
  import opened RvMemoryWords
  import opened RvTransparency
  import opened RvRuns

  // ---- Which interrupts are taken ---------------------------------------------------------

  /** The pointers are in place and the timer, alone, is enabled. */
  ghost predicate TimerReady(t: Watched) {
    && Running(t) && Pointers(t.s.regs) && t.s.csrs.mieReg == 0x80
    && (if t.handler then t.s.csrs.mpie else t.s.csrs.mie)
  }

  lemma TimerAlone(c: Isa.Csrs, e: Isa.Env)
    requires c.mie && c.mieReg == 0x80
    ensures Isa.InterruptPending(c, e) <==> e.timer
    ensures !Isa.ExtTaken(c, e) && !Isa.SoftTaken(c, e)
  {
  }

  lemma MainKnown(p: Isa.Program, t: Watched)
    requires Loaded(p) && Running(t) && !t.handler
    ensures var i := Isa.Decode(Isa.Fetch(p, t.s.pc)); !i.Undecoded? && !i.Ecall? && !i.Ebreak?
  {
    hide Loaded, Encode, ToWord, GetReg, Isa.Fetch, Isa.Decode, ClearLow2, MainPc, WordB, Isa.Rs1, Isa.Rs2;
    var j :| 0 <= j < 4 && t.s.pc == MainPc(j);
    MainFetch(p, j);
    MainPcs();
    if j < 3 {
      DecodesAsMeant(MainCalls()[j]);
    } else {
      LoopBranch(p, t.s, QUIET);
    }
  }

  /** The main program is interrupted exactly when the timer is high, and the cause is the
      timer's. */
  lemma TrapsOnTimer(p: Isa.Program, t: Watched, e: Isa.Env)
    requires Loaded(p) && TimerReady(t) && !t.handler
    ensures var i := Isa.Decode(Isa.Fetch(p, t.s.pc));
      && (Isa.Traps(i, t.s.csrs, e) <==> e.timer)
      && (e.timer ==> Isa.Cause(i, t.s.csrs, e) == 0x8000_0007)
  {
    hide Loaded, Running, Pointers, Isa.Fetch, Isa.Decode, Isa.InterruptPending, Isa.ExtTaken, Isa.SoftTaken;
    MainKnown(p, t);
    TimerAlone(t.s.csrs, e);
  }

  // ---- One step of the whole system ---------------------------------------------------------

  /** `k` interrupts taken: x21 has counted them, and the second word of RAM too, but for the
      first two instructions of the handler. */
  predicate Ticked(t: Watched, k: nat) {
    && (t.handler ==> k > 0)
    && GetReg(t.s.regs, 21) == ToWord(if t.handler && t.s.pc == 4 then k - 1 else k)
    && (TicksStored(t, k) > 0 ==> ReadWord(t.s.mem, 4) == ToWord(TicksStored(t, k)))
  }

  function TicksStored(t: Watched, k: nat): int {
    if t.handler && (t.s.pc == 4 || t.s.pc == 8) then k - 1 else k
  }

  lemma TrapStep(p: Isa.Program, t: Watched, e: Isa.Env, k: nat)
    requires Loaded(p) && TimerReady(t) && !t.handler && e.timer && Ticked(t, k)
    ensures TimerReady(Watch(p, t, e)) && Ticked(Watch(p, t, e), k + 1)
    ensures Watch(p, t, e).s.csrs.mcause == 0x8000_0007
    ensures Watch(p, t, e).s.pc == 4 && Watch(p, t, e).handler
  {
    hide Loaded, Running, Pointers, Isa.Fetch, Isa.Decode, GetReg, ReadWord, ToWord, Isa.Traps, Isa.Cause, ClearLow2,
      Isa.Execute, Isa.Rs1, Isa.Rs2;
    TrapsOnTimer(p, t, e);
    TrapRuns(p, t, e);
    Vectored(t);
  }

  lemma Vectored(t: Watched)
    requires Running(t)
    ensures ClearLow2(t.s.csrs.mtvec) == 4
    ensures t.handler ==> !t.s.csrs.mie && exists i :: 0 <= i < 13 && t.s.pc == HandlerPc(i)
  {
    hide GetReg, ClearLow2, MainPc, HandlerPc;
  }

  /** The register and the word a main instruction changes. */
  lemma MainStepEffect(p: Isa.Program, t: Watched, e: Isa.Env)
    requires Loaded(p) && TimerReady(t) && !t.handler && !e.timer
    ensures var fx := Isa.NextEffect(p, t.s, e);
      && fx.csrs == t.s.csrs && !fx.reg.LoadReg? && (fx.reg.WriteReg? ==> fx.reg.rd == 1)
      && (fx.mem.StoreMem? ==> fx.mem.width.StoreWord? && fx.mem.addr == 0)
  {
    hide Loaded, Encode, ToWord, Plus, GetReg, Isa.Fetch, Isa.Decode, Isa.NextEffect, PcPlus4, ClearLow2, MainPc, WordB,
      Isa.InterruptPending, Isa.Rs1, Isa.Rs2;
    TrapsOnTimer(p, t, e);
    TimerAlone(t.s.csrs, e);
    var j :| 0 <= j < 4 && t.s.pc == MainPc(j);
    MainFetch(p, j);
    MainPcs();
    ZeroWord();
    if j < 3 {
      DoesAsCalled(p, t.s, e, MainCalls()[j]);
    } else {
      LoopBranch(p, t.s, e);
    }
  }

  lemma MainStepTicks(p: Isa.Program, t: Watched, e: Isa.Env, k: nat)
    requires Loaded(p) && TimerReady(t) && !t.handler && !e.timer && Ticked(t, k)
    ensures TimerReady(Watch(p, t, e)) && Ticked(Watch(p, t, e), k)
  {
    hide Loaded, Running, GetReg, SetReg, ReadWord, ToWord, Isa.Traps, Isa.NextEffect, Isa.Decode, Isa.Fetch,
      Isa.StoreValue, Aligned;
    TrapsOnTimer(p, t, e);
    MainStepRuns(p, t, e);
    MainStepEffect(p, t, e);
    var fx := Isa.NextEffect(p, t.s, e);
    if fx.reg.WriteReg? {
      RegsAfter(t.s.regs, 1, fx.reg.value);
    }
    if fx.mem.StoreMem? {
      FirstWords();
      StoreReads(t.s.mem, 0, fx.mem.value, 4);
    }
  }

  lemma FirstWords()
    ensures Aligned(0) && Aligned(4)
  {
  }

  // ---- One step of the handler ------------------------------------------------------------------

  lemma HandlerRegisters(s: Isa.State, e: Isa.Env, i: nat)
    requires i < 13 && Pointers(s.regs)
    ensures var r := Isa.ApplyReg(s.regs, s.mem, Doing(HandlerCalls()[i], s, e).reg);
      && Pointers(r)
      && GetReg(r, 21) == if i == 0 then Plus(GetReg(s.regs, 21), ToWord(1)) else GetReg(s.regs, 21)
  {
    hide ToWord, Plus, GetReg, SetReg, PcPlus4, ClearLow2, HandlerCalls, CsrField, Isa.ReadCsr, Isa.LoadValue;
    HandlerCallsAt();
    var fx := Doing(HandlerCalls()[i], s, e).reg;
    if fx.WriteReg? {
      RegsAfter(s.regs, fx.rd, fx.value);
    } else if fx.LoadReg? {
      RegsAfter(s.regs, fx.rd, Isa.LoadValue(fx.kind, s.mem, fx.addr));
    }
  }

  lemma HandlerStores(s: Isa.State, e: Isa.Env, i: nat)
    requires i < 13 && Pointers(s.regs)
    ensures ReadWord(Isa.ApplyMem(s.mem, Doing(HandlerCalls()[i], s, e).mem), 4)
         == if i == 1 then GetReg(s.regs, 21) else ReadWord(s.mem, 4)
  {
    hide ToWord, Plus, GetReg, PcPlus4, ClearLow2, HandlerCalls, CsrField, Isa.ReadCsr, ReadWord, Isa.StoreValue,
      Aligned;
    HandlerCallsAt();
    SmallOffsets();
    StoredAligned();
    var fx := Doing(HandlerCalls()[i], s, e).mem;
    if fx.StoreMem? {
      StoreReads(s.mem, fx.addr, fx.value, 4);
    }
  }

  lemma StoredAligned()
    ensures Aligned(4) && Aligned(8) && Aligned(12) && Aligned(DEADLINE_LOW) && Aligned(DEADLINE_HIGH)
  {
  }

  lemma HandlerPcs(i: nat)
    requires i < 13
    ensures HandlerPc(i) == 4 <==> i == 0
    ensures HandlerPc(i) == 8 <==> i == 1
  {
  }

  lemma HandlerStepTicks(p: Isa.Program, t: Watched, e: Isa.Env, k: nat)
    requires Loaded(p) && TimerReady(t) && t.handler && Ticked(t, k)
    ensures TimerReady(Watch(p, t, e)) && Ticked(Watch(p, t, e), k)
  {
    hide Loaded, Running, GetReg, SetReg, Plus, ReadWord, ToWord, Isa.NextEffect, Isa.Decode, Isa.Fetch, Isa.ApplyMem,
      Isa.ApplyReg, HandlerPc, HandlerCalls, Doing, Pointers, PcPlus4, ClearLow2, HandlerOk;
    HandlerRuns(p, t, e);
    Vectored(t);
    var i :| 0 <= i < 13 && t.s.pc == HandlerPc(i);
    HandlerDoes(p, t.s, e, i);
    HandlerFlow(t.s, e, i);
    HandlerLeaves(p, t, i);
    HandlerRegisters(t.s, e, i);
    HandlerStores(t.s, e, i);
    HandlerPcs(i);
    if i < 12 {
      HandlerPcs(i + 1);
    }
    CountNext(k - 1);
  }

  lemma HandlerLeaves(p: Isa.Program, t: Watched, i: nat)
    requires Loaded(p) && Running(t) && i < 13 && t.s.pc == HandlerPc(i)
    ensures Isa.Decode(Isa.Fetch(p, t.s.pc)).Mret? <==> i == 12
  {
    hide Loaded, Encode, Isa.Fetch, Isa.Decode, HandlerPc, HandlerCalls, ToWord, GetReg;
    HandlerFetch(p, i);
    HandlerCallsAt();
    DecodesAsMeant(HandlerCalls()[i]);
  }

  // ---- Whole runs ---------------------------------------------------------------------------------

  /** The steps of the main program that found the timer high. */
  function Interrupts(p: Isa.Program, t: Watched, es: seq<Isa.Env>): nat
    decreases |es|
  {
    if es == [] then 0 else One(!t.handler && es[0].timer) + Interrupts(p, Watch(p, t, es[0]), es[1..])
  }

  /** Under any interrupt lines, the handler is entered once for every one of them, and the
      second word of RAM counts the entries whose store has completed. */
  lemma {:induction false} TicksCount(p: Isa.Program, t: Watched, k: nat, es: seq<Isa.Env>)
    requires Loaded(p) && TimerReady(t) && Ticked(t, k)
    ensures var n := WatchRun(p, t, es); TimerReady(n) && Ticked(n, k + Interrupts(p, t, es))
    decreases |es|
  {
    hide Loaded, TimerReady, Ticked, Watch;
    if es != [] {
      var e := es[0];
      if t.handler {
        HandlerStepTicks(p, t, e, k);
        TicksCount(p, Watch(p, t, e), k, es[1..]);
      } else if e.timer {
        TrapStep(p, t, e, k);
        TicksCount(p, Watch(p, t, e), k + 1, es[1..]);
      } else {
        MainStepTicks(p, t, e, k);
        TicksCount(p, Watch(p, t, e), k, es[1..]);
      }
    }
  }
}
