/**
 The pipeline against the standard machine: exact on conforming steps, exact but for
 `mcause` where only the cause differs, and so over whole runs from reset.
 */
module RvConformance {
  import opened Rv32iPkg
  import opened RvCore
  import opened RvRefinement
  import opened RvRuns
  import opened RvStandard
  import Isa = RvIsa

  /** A clock that commits a conforming instruction is one step of the standard machine;
      where only the cause of its trap is the core's own, it is that step in all but `mcause`. */
  lemma TickMatchesStandard(p: Isa.Program, t: Tracked, x: Inputs, n: bv64)
    requires Inv(p, t) && !x.rst && Aligned(Abs(t).pc) && t.exReal
    ensures Conforms(p, Abs(t), EnvOf(t.core, x), n) ==>
      Abs(Tick(p, t, x)) == RvStandard.Step(p, Abs(t), EnvOf(t.core, x), n)
    ensures ConformsButCause(p, Abs(t), EnvOf(t.core, x), n) ==>
      Abs(Tick(p, t, x)) == WithCause(RvStandard.Step(p, Abs(t), EnvOf(t.core, x), n), Abs(Tick(p, t, x)))
  {
    hide Inv, Abs, Tick, Isa.Step, RvStandard.Step, EnvOf, Aligned, ConformsButCause, CauseDiffers;
    TickRefines(p, t, x);
    if ConformsButCause(p, Abs(t), EnvOf(t.core, x), n) {
      ConformingStep(p, Abs(t), EnvOf(t.core, x), n);
    }
  }

  // ---- Runs ---------------------------------------------------------------------------

  /** The standard machine keeps its own count of retired instructions, `n` so far. */
  function StandardRun(p: Isa.Program, s: Isa.State, n: bv64, es: seq<Isa.Env>): Isa.State
    decreases |es|
  {
    if es == [] then s
    else StandardRun(p, RvStandard.Step(p, s, es[0], n), Retired(p, s, es[0], n), es[1..])
  }

  /** Every step of the standard machine's own run is one on which the core conforms. */
  predicate ConformingRun(p: Isa.Program, s: Isa.State, n: bv64, es: seq<Isa.Env>)
    decreases |es|
  {
    es != [] ==>
      && Conforms(p, s, es[0], n)
      && ConformingRun(p, RvStandard.Step(p, s, es[0], n), Retired(p, s, es[0], n), es[1..])
  }

  predicate TouchesCause(w: Word) {
    Isa.Decode(w).Csr? && Isa.Decode(w).addr == 0x342
  }

  /** Every step conforms but for the cause of its trap, and none looks at `mcause`. */
  predicate BlindRun(p: Isa.Program, s: Isa.State, n: bv64, es: seq<Isa.Env>)
    decreases |es|
  {
    es != [] ==>
      && ConformsButCause(p, s, es[0], n) && !TouchesCause(Isa.Fetch(p, s.pc))
      && BlindRun(p, Isa.Step(p, s, es[0]), Retired(p, s, es[0], n), es[1..])
  }

  /** Equal in all but `mcause`. */
  predicate Twins(s: Isa.State, t: Isa.State) {
    s == WithCause(t, s)
  }

  lemma ClearedAligned(w: Word)
    ensures Aligned(ClearLow2(w))
  {
  }

  lemma NextAligned(w: Word)
    requires Aligned(w)
    ensures Aligned(PcPlus4(w))
  {
  }

  lemma ExecutesAligned(w: Word, pc: Word, a: Word, b: Word, c: Isa.Csrs, e: Isa.Env)
    requires Aligned(pc)
    requires Exception(w, pc, a, b).None? || Isa.Decode(w).Ecall? || Isa.Decode(w).Ebreak?
    ensures Aligned(Isa.Execute(w, pc, a, b, c, e).next)
  {
    hide Isa.Decode, Isa.Rs1, ClearLow1, ClearLow2, Aligned, Plus, PcPlus4, Isa.Holds, Isa.Compute, Isa.UpdateCsr,
      Isa.ReadCsr, IllegalAccess, Isa.ReturnFromTrap;
    ClearedAligned(c.mepc);
    NextAligned(pc);
  }

  lemma NoException(w: Word, pc: Word, a: Word, b: Word, c: Isa.Csrs, e: Isa.Env)
    requires !TrapMissing(w, pc, a, b, c, e) && !Isa.Traps(Isa.Decode(w), c, e)
    ensures Exception(w, pc, a, b).None? || Isa.Decode(w).Ecall? || Isa.Decode(w).Ebreak?
  {
    hide Isa.Decode, Aligned, Pending, Exception, Isa.InterruptPending;
    InterruptsAgree(c, e);
  }

  /** Conforming steps never leave the word-aligned PCs, so runs of them need no further
      assumption about alignment. */
  lemma StaysAligned(p: Isa.Program, s: Isa.State, e: Isa.Env, n: bv64)
    requires Aligned(s.pc) && ConformsButCause(p, s, e, n)
    ensures Aligned(Isa.Step(p, s, e).pc)
  {
    var w := Isa.Fetch(p, s.pc);
    var a, b := GetReg(s.regs, Isa.Rs1(w)), GetReg(s.regs, Isa.Rs2(w));
    ClearedAligned(s.csrs.mtvec);
    if !StepTraps(p, s, e) {
      NoException(w, s.pc, a, b, s.csrs, e);
      ExecutesAligned(w, s.pc, a, b, s.csrs, e);
    }
    hide TrapMissing, CsrConforms, DataAligned;
    hide Isa.Fetch, Isa.Decode, GetReg, Isa.Rs1, Isa.Rs2, ClearLow2, Aligned, Isa.Execute, Isa.ApplyReg, Isa.ApplyMem,
      Isa.Cause, Isa.EnterTrap, Isa.Traps, ConformsButCause, Exception, InterruptCause;
  }

  lemma TwinTrap(c: Isa.Csrs, d: Isa.Csrs, e: Isa.Env)
    requires c == d.(mcause := c.mcause)
    ensures Pending(c, e) == Pending(d, e) && InterruptCause(c, e) == InterruptCause(d, e)
  {
    hide InterruptBits;
  }

  lemma TwinCsr(c: Isa.Csrs, d: Isa.Csrs, e: Isa.Env, n: bv64, op: Isa.CsrOp, addr: bv12, src: Word, rs1: RegIdx)
    requires c == d.(mcause := c.mcause) && addr != 0x342
    ensures RvStandard.ReadCsr(c, e, n, addr) == RvStandard.ReadCsr(d, e, n, addr)
    ensures Access(c, e, n, op, addr, src, rs1)
         == Access(d, e, n, op, addr, src, rs1).(mcause := Access(c, e, n, op, addr, src, rs1).mcause)
  {
    hide InterruptBits, ClearLow2, Bit, Masked, LowHalf, HighHalf;
  }

  predicate TwinCsrs(c: Isa.Csrs, d: Isa.Csrs) {
    c == d.(mcause := c.mcause)
  }

  lemma TwinExecute(w: Word, pc: Word, a: Word, b: Word, c: Isa.Csrs, d: Isa.Csrs, e: Isa.Env, n: bv64)
    requires TwinCsrs(c, d) && !TouchesCause(w)
    ensures var fx, gx := RvStandard.Execute(w, pc, a, b, c, e, n), RvStandard.Execute(w, pc, a, b, d, e, n);
      fx.next == gx.next && fx.reg == gx.reg && fx.mem == gx.mem && TwinCsrs(fx.csrs, gx.csrs)
  {
    var i := Isa.Decode(w);
    if i.Csr? {
      TwinCsr(c, d, e, n, i.op, i.addr, if i.immediate then Isa.Rs1(w) as Word else a, Isa.Rs1(w));
    }
    hide Isa.Decode, Isa.Rs1, ClearLow2, Plus, PcPlus4, Isa.Ordinary, Access, RvStandard.ReadCsr,
      Isa.ReadCsr, Isa.UpdateCsr;
  }

  lemma TwinEffect(p: Isa.Program, s: Isa.State, t: Isa.State, e: Isa.Env, n: bv64)
    requires Twins(s, t) && !TouchesCause(Isa.Fetch(p, s.pc))
    ensures var fx, gx := RvStandard.Effect(p, s, e, n), RvStandard.Effect(p, t, e, n);
      fx.next == gx.next && fx.reg == gx.reg && fx.mem == gx.mem && TwinCsrs(fx.csrs, gx.csrs)
    ensures Retired(p, s, e, n) == Retired(p, t, e, n)
  {
    hide Isa.Fetch, GetReg, Isa.Rs1, Isa.Rs2, ClearLow2, Pending, InterruptCause, Exception, RvStandard.Execute,
      TouchesCause;
    var w := Isa.Fetch(p, s.pc);
    TwinTrap(s.csrs, t.csrs, e);
    TwinExecute(w, s.pc, GetReg(s.regs, Isa.Rs1(w)), GetReg(s.regs, Isa.Rs2(w)), s.csrs, t.csrs, e, n);
  }

  /** The standard machine does not look at `mcause` unless a program does. */
  lemma TwinStep(p: Isa.Program, s: Isa.State, t: Isa.State, e: Isa.Env, n: bv64)
    requires Twins(s, t) && !TouchesCause(Isa.Fetch(p, s.pc))
    ensures Twins(RvStandard.Step(p, s, e, n), RvStandard.Step(p, t, e, n))
    ensures Retired(p, s, e, n) == Retired(p, t, e, n)
  {
    hide RvStandard.Effect, RvStandard.ApplyReg, RvStandard.ApplyMem, TouchesCause, Retired;
    TwinEffect(p, s, t, e, n);
  }

  lemma TwinsChain(s: Isa.State, t: Isa.State, u: Isa.State)
    requires Twins(s, t) && Twins(t, u)
    ensures Twins(s, u)
  {
  }

  lemma {:induction false} BlindRunsAligned(p: Isa.Program, s: Isa.State, n: bv64, es: seq<Isa.Env>)
    requires Aligned(s.pc) && BlindRun(p, s, n, es)
    ensures AlignedRun(p, s, es)
    decreases |es|
  {
    hide Isa.Step, Isa.Fetch, Aligned, ConformsButCause, TouchesCause, Retired;
    if es != [] {
      StaysAligned(p, s, es[0], n);
      BlindRunsAligned(p, Isa.Step(p, s, es[0]), Retired(p, s, es[0], n), es[1..]);
    }
  }

  lemma {:induction false} BlindRunsAlike(p: Isa.Program, s: Isa.State, t: Isa.State, n: bv64, es: seq<Isa.Env>)
    requires Aligned(s.pc) && Twins(s, t) && BlindRun(p, s, n, es)
    ensures Twins(IsaRun(p, s, es), StandardRun(p, t, n, es))
    decreases |es|
  {
    hide Isa.Step, RvStandard.Step, Isa.Fetch, Aligned, ConformsButCause, TouchesCause, CauseDiffers, Retired,
      CounterEffect;
    if es != [] {
      StaysAligned(p, s, es[0], n);
      ConformingStep(p, s, es[0], n);
      TwinStep(p, s, t, es[0], n);
      TwinsChain(Isa.Step(p, s, es[0]), RvStandard.Step(p, s, es[0], n), RvStandard.Step(p, t, es[0], n));
      BlindRunsAlike(p, Isa.Step(p, s, es[0]), RvStandard.Step(p, t, es[0], n), Retired(p, s, es[0], n), es[1..]);
    }
  }

  lemma {:induction false} ConformingRunsSame(p: Isa.Program, s: Isa.State, n: bv64, es: seq<Isa.Env>)
    requires Aligned(s.pc) && ConformingRun(p, s, n, es)
    ensures AlignedRun(p, s, es) && IsaRun(p, s, es) == StandardRun(p, s, n, es)
    decreases |es|
  {
    hide Isa.Step, RvStandard.Step, Isa.Fetch, Aligned, ConformsButCause, CauseDiffers, Retired, CounterEffect;
    if es != [] {
      StaysAligned(p, s, es[0], n);
      ConformingStep(p, s, es[0], n);
      ConformingRunsSame(p, RvStandard.Step(p, s, es[0], n), Retired(p, s, es[0], n), es[1..]);
    }
  }

  /** From reset out of any power-up contents, under any interrupts: a run of conforming
      instructions is the standard machine's, and a run that conforms but for trap causes
      it does not look at is the standard machine's in all but `mcause`. */
  lemma CoreRunsStandard(p: Isa.Program, powerUp: Tracked, reset: Inputs, xs: seq<Inputs>)
    requires reset.rst && NoReset(xs)
    ensures var t := Tick(p, powerUp, reset);
      var es := Events(p, t, xs);
      && (ConformingRun(p, Abs(t), 0, es) ==> Abs(Run(p, t, xs)) == StandardRun(p, Abs(t), 0, es))
      && (BlindRun(p, Abs(t), 0, es) ==> Twins(Abs(Run(p, t, xs)), StandardRun(p, Abs(t), 0, es)))
  {
    hide Tick, Inv, AlignedRun, Events, Run, IsaRun, StandardRun, ConformingRun, BlindRun, Abs;
    var t := Tick(p, powerUp, reset);
    var es := Events(p, t, xs);
    ResetEstablishes(p, powerUp, reset);
    if ConformingRun(p, Abs(t), 0, es) {
      ConformingRunsSame(p, Abs(t), 0, es);
      RunRefines(p, t, xs);
    }
    if BlindRun(p, Abs(t), 0, es) {
      BlindRunsAligned(p, Abs(t), 0, es);
      BlindRunsAlike(p, Abs(t), Abs(t), 0, es);
      RunRefines(p, t, xs);
    }
  }

  // ---- The instruction counter ------------------------------------------------------------

  /** The standard machine's count of retired instructions after a run. */
  function StandardCount(p: Isa.Program, s: Isa.State, n: bv64, es: seq<Isa.Env>): bv64
    decreases |es|
  {
    if es == [] then n
    else StandardCount(p, RvStandard.Step(p, s, es[0], n), Retired(p, s, es[0], n), es[1..])
  }

  /** Retires in the standard and is not counted by the core: MRET and WFI. */
  predicate Missed(p: Isa.Program, s: Isa.State, e: Isa.Env) {
    !StepTraps(p, s, e) && (Isa.Decode(Isa.Fetch(p, s.pc)).Mret? || Isa.Decode(Isa.Fetch(p, s.pc)).Undecoded?)
  }

  function MissedCount(p: Isa.Program, s: Isa.State, es: seq<Isa.Env>): nat
    decreases |es|
  {
    if es == [] then 0 else One(Missed(p, s, es[0])) + MissedCount(p, Isa.Step(p, s, es[0]), es[1..])
  }

  lemma CountedOrMissed(p: Isa.Program, s: Isa.State, e: Isa.Env, n: bv64)
    requires Aligned(s.pc) && Conforms(p, s, e, n)
    ensures Retired(p, s, e, n) == CountUp(n, One(Retires(p, s, e)) + One(Missed(p, s, e)))
  {
    hide Isa.Step, RvStandard.Step, Isa.Fetch, Isa.Decode, Aligned, ConformsButCause, CauseDiffers, CounterEffect,
      Retired;
    ConformingStep(p, s, e, n);
    CountUpNone(n);
  }

  lemma {:induction false} StandardCounts(p: Isa.Program, s: Isa.State, n: bv64, es: seq<Isa.Env>)
    requires Aligned(s.pc) && ConformingRun(p, s, n, es)
    ensures StandardCount(p, s, n, es) == CountUp(n, RetiredCount(p, s, es) + MissedCount(p, s, es))
    decreases |es|
  {
    hide Isa.Step, RvStandard.Step, Isa.Fetch, Aligned, ConformsButCause, CauseDiffers, Retired, CounterEffect, Retires,
      Missed, CountUp, StepTraps;
    if es == [] {
      CountUpNone(n);
    } else {
      var m := Retired(p, s, es[0], n);
      StaysAligned(p, s, es[0], n);
      ConformingStep(p, s, es[0], n);
      CountedOrMissed(p, s, es[0], n);
      StandardCounts(p, RvStandard.Step(p, s, es[0], n), m, es[1..]);
      CountUpSum(n, One(Retires(p, s, es[0])) + One(Missed(p, s, es[0])),
        RetiredCount(p, Isa.Step(p, s, es[0]), es[1..]) + MissedCount(p, Isa.Step(p, s, es[0]), es[1..]));
    }
  }

  lemma ResetCounts(p: Isa.Program, t: Tracked, x: Inputs)
    requires x.rst
    ensures OwedCount(Tick(p, t, x).core) == 0
  {
    hide ClockIf, ClockFetch, ClockIfId, ClockIdEx, ClockCsr, ClockRegs, ClockDmem, ReadWord, Stall, ResolveOf;
    hide Redirect, EnvOf, OperandA, OperandB, CsrWriteSource, ImemAddr, Isa.Fetch, Succ64;
  }

  /** `minstret` is short of the standard's count by the counted instructions still in MEM
      and WB, and by every MRET and WFI so far. */
  lemma MinstretFallsShort(p: Isa.Program, powerUp: Tracked, reset: Inputs, xs: seq<Inputs>)
    requires reset.rst && NoReset(xs)
    requires var t := Tick(p, powerUp, reset);
      ConformingRun(p, Abs(t), 0, Events(p, t, xs))
    ensures var t := Tick(p, powerUp, reset);
      var s, es := Run(p, t, xs).core, Events(p, t, xs);
      StandardCount(p, Abs(t), 0, es) == CountUp(s.instret, Owed(s) + MissedCount(p, Abs(t), es))
  {
    hide Tick, Inv, Events, Run, ConformingRun, Abs, CountUp, MissedCount, StandardCount, Owed, OwedCount;
    var t := Tick(p, powerUp, reset);
    ResetEstablishes(p, powerUp, reset);
    ResetCounts(p, powerUp, reset);
    ShortFrom(p, t, xs);
  }

  lemma ShortFrom(p: Isa.Program, t: Tracked, xs: seq<Inputs>)
    requires Inv(p, t) && NoReset(xs) && Aligned(Abs(t).pc) && OwedCount(t.core) == 0
    requires ConformingRun(p, Abs(t), 0, Events(p, t, xs))
    ensures var s, es := Run(p, t, xs).core, Events(p, t, xs);
      StandardCount(p, Abs(t), 0, es) == CountUp(s.instret, Owed(s) + MissedCount(p, Abs(t), es))
  {
    hide Inv, AlignedRun, Events, Run, IsaRun, ConformingRun, Abs, CountUp, RetiredCount, MissedCount, StandardCount,
      Aligned, Owed;
    var s, es := Run(p, t, xs).core, Events(p, t, xs);
    ConformingRunsSame(p, Abs(t), 0, es);
    StandardCounts(p, Abs(t), 0, es);
    RetiredExactly(p, t, xs);
    CountUpSum(0, RetiredCount(p, Abs(t), es), MissedCount(p, Abs(t), es));
    CountUpSum(s.instret, Owed(s), MissedCount(p, Abs(t), es));
  }
}
