/**
 Whole runs of the pipeline: the refinement from reset over any number of clocks,
 equality of the register-write and store sequences with the architecture's, the
 number of bubbles, and interrupt latency.
 */
module RvRuns {
  import opened Rv32iPkg
  import opened RvStages
  import opened RvCore
  import opened RvDatapath
  import opened RvMemoryPort
  import opened RvRefinement
  import Isa = RvIsa

  /** The pipeline over a sequence of clocks. */
  function Run(p: Isa.Program, t: Tracked, xs: seq<Inputs>): Tracked
    decreases |xs|
  {
    if xs == [] then t else Run(p, Tick(p, t, xs[0]), xs[1..])
  }

  /** The environments of the clocks in which an instruction or trap commits. */
  function Events(p: Isa.Program, t: Tracked, xs: seq<Inputs>): seq<Isa.Env>
    decreases |xs|
  {
    if xs == [] then []
    else (if t.exReal then [EnvOf(t.core, xs[0])] else []) + Events(p, Tick(p, t, xs[0]), xs[1..])
  }

  /** The architecture over a sequence of environments. */
  function IsaRun(p: Isa.Program, s: Isa.State, es: seq<Isa.Env>): Isa.State
    decreases |es|
  {
    if es == [] then s else IsaRun(p, Isa.Step(p, s, es[0]), es[1..])
  }

  /** The core has no misaligned-fetch trap, so the architecture's PCs must stay
      word aligned; speculative PCs need not. */
  predicate AlignedRun(p: Isa.Program, s: Isa.State, es: seq<Isa.Env>)
    decreases |es|
  {
    Aligned(s.pc) && (es != [] ==> AlignedRun(p, Isa.Step(p, s, es[0]), es[1..]))
  }

  predicate NoReset(xs: seq<Inputs>) {
    forall i :: 0 <= i < |xs| ==> !xs[i].rst
  }

  // ---- From reset ------------------------------------------------------------------

  lemma NothingPredictedAtReset(p: Isa.Program)
    ensures BtbExact(p, IfAtReset())
  {
    hide BhtIdx, TagOf, Aligned, IsBranch, BranchTarget;
  }

  /** One clock with `rst` high establishes the invariant from any state at all. */
  lemma ResetEstablishes(p: Isa.Program, t: Tracked, x: Inputs)
    requires x.rst
    ensures Inv(p, Tick(p, t, x))
    ensures Abs(Tick(p, t, x)) == Isa.State(0, AfterWb(t.core), AbsMem(t.core), Isa.CSRS_AT_RESET)
  {
    CoreAfterReset(p, t.core, x);
    NothingPredictedAtReset(p);
    hide BtbExact, IfAtReset, Clock, AfterWb, AbsMem, Redirect, ResolveOf, Stall, Isa.Fetch, Control, ImmediateOf;
  }

  lemma CoreAfterReset(p: Isa.Program, s: Core, x: Inputs)
    requires x.rst
    ensures var n := Clock(p, s, x);
      && n.ifs == IfAtReset() && n.fetch == NO_FETCH && n.ifid == BUBBLE_ID && n.idex == BUBBLE_EX
      && n.exmem == BUBBLE_MEM && n.memwb == BUBBLE_WB && n.csrs == Isa.CSRS_AT_RESET
      && n.regs == AfterWb(s) && n.dmem == AbsMem(s)
  {
    RegfilePort(s);
    LanesStore(s.dmem, s.exmem.ctrl.funct3, s.exmem.alu, s.exmem.rs2Data);
    hide WriteLanes, Lanes, Isa.StoreValue, Isa.StoreKindOf, AfterWb, ClockRegs, ReadWord, Isa.Fetch, Stall, ResolveOf;
    hide Redirect, EnvOf, OperandA, OperandB, CsrWriteSource, NextExMem, ImemAddr, IfAtReset;
  }

  // ---- Refinement over runs -----------------------------------------------------------

  lemma EventsUnfold(p: Isa.Program, t: Tracked, xs: seq<Inputs>)
    requires xs != []
    ensures var es := Events(p, t, xs); var rest := Events(p, Tick(p, t, xs[0]), xs[1..]);
      if t.exReal then es != [] && es[0] == EnvOf(t.core, xs[0]) && es[1..] == rest else es == rest
  {
    hide Tick, EnvOf;
  }

  lemma {:induction false} RunRefines(p: Isa.Program, t: Tracked, xs: seq<Inputs>)
    requires Inv(p, t) && NoReset(xs)
    requires AlignedRun(p, Abs(t), Events(p, t, xs))
    ensures Inv(p, Run(p, t, xs))
    ensures Abs(Run(p, t, xs)) == IsaRun(p, Abs(t), Events(p, t, xs))
    decreases |xs|
  {
    if xs != [] {
      hide Inv, Tick, Abs, Isa.Step, EnvOf, Aligned;
      var n := Tick(p, t, xs[0]);
      EventsUnfold(p, t, xs);
      hide Events;
      TickRefines(p, t, xs[0]);
      RunRefines(p, n, xs[1..]);
    }
  }

  /** The whole statement: reset from an arbitrary power-up state, then any number of
      clocks under any interrupt schedule. */
  lemma CoreRefinesIsa(p: Isa.Program, powerUp: Tracked, reset: Inputs, xs: seq<Inputs>)
    requires reset.rst && NoReset(xs)
    requires var t := Tick(p, powerUp, reset); AlignedRun(p, Abs(t), Events(p, t, xs))
    ensures var t := Tick(p, powerUp, reset);
      && Abs(t).pc == 0 && Abs(t).csrs == Isa.CSRS_AT_RESET
      && Abs(Run(p, t, xs)) == IsaRun(p, Abs(t), Events(p, t, xs))
  {
    ResetEstablishes(p, powerUp, reset);
    RunRefines(p, Tick(p, powerUp, reset), xs);
    hide Tick, Inv, AlignedRun, Events, Run, IsaRun, Abs;
  }

  // ---- The writes, in order -------------------------------------------------------------

  type RegLog = seq<(RegIdx, Word)>

  /** The visible register write of an effect; writes to x0 are not visible. */
  function Written(fx: Isa.RegEffect, m: Memory): RegLog {
    match fx
    case NoReg => []
    case WriteReg(rd, v) => if rd == 0 then [] else [(rd, v)]
    case LoadReg(rd, kind, a) => if rd == 0 then [] else [(rd, Isa.LoadValue(kind, m, a))]
  }

  function Stored(fx: Isa.MemEffect): seq<Isa.MemEffect> {
    if fx.NoMem? then [] else [fx]
  }

  function IsaWrites(p: Isa.Program, s: Isa.State, es: seq<Isa.Env>): RegLog
    decreases |es|
  {
    if es == [] then []
    else Written(Isa.NextEffect(p, s, es[0]).reg, s.mem) + IsaWrites(p, Isa.Step(p, s, es[0]), es[1..])
  }

  function IsaStores(p: Isa.Program, s: Isa.State, es: seq<Isa.Env>): seq<Isa.MemEffect>
    decreases |es|
  {
    if es == [] then []
    else Stored(Isa.NextEffect(p, s, es[0]).mem) + IsaStores(p, Isa.Step(p, s, es[0]), es[1..])
  }

  /** What the register-file write port carries this clock. */
  function WbWrite(s: Core): RegLog {
    if s.memwb.ctrl.regWrite && s.memwb.rd != 0 then [(s.memwb.rd, WbData(s))] else []
  }

  function MemWrite(s: Core): RegLog { Written(PendingReg(s.exmem), s.dmem) }

  /** The register writes the pipeline performs, clock by clock. */
  function CoreWrites(p: Isa.Program, t: Tracked, xs: seq<Inputs>): RegLog
    decreases |xs|
  {
    if xs == [] then [] else WbWrite(t.core) + CoreWrites(p, Tick(p, t, xs[0]), xs[1..])
  }

  /** The stores the data port carries, clock by clock. */
  function CoreStores(p: Isa.Program, t: Tracked, xs: seq<Inputs>): seq<Isa.MemEffect>
    decreases |xs|
  {
    if xs == [] then [] else Stored(PendingMem(t.core.exmem)) + CoreStores(p, Tick(p, t, xs[0]), xs[1..])
  }

  function OwedWrites(s: Core): RegLog { WbWrite(s) + MemWrite(s) }

  lemma WbInheritsMem(p: Isa.Program, s: Core, x: Inputs)
    requires !x.rst
    ensures WbWrite(Clock(p, s, x)) == MemWrite(s)
  {
    WordLoad(s.dmem, s.exmem.ctrl.funct3, s.exmem.alu);
    hide ClockIf, ClockFetch, ClockIfId, ClockIdEx, ClockCsr, NextExMem, ClockRegs, ReadWord, ClockDmem;
    hide LoadExtend, Offset, Isa.LoadValue, Isa.LoadKindOf, Stall, ResolveOf, Redirect, EnvOf, OperandA, OperandB;
    hide CsrWriteSource, ImemAddr, Isa.Fetch;
  }

  /** One clock: what leaves WB plus what is owed afterwards is what was owed before
      plus the committed instruction's own write. */
  lemma WriteStep(p: Isa.Program, t: Tracked, x: Inputs)
    requires Inv(p, t) && !x.rst
    ensures var fx := Isa.NextEffect(p, Abs(t), EnvOf(t.core, x)); var n := Tick(p, t, x);
      && OwedWrites(n.core) == MemWrite(t.core) + (if t.exReal then Written(fx.reg, Abs(t).mem) else [])
      && Stored(PendingMem(n.core.exmem)) == if t.exReal then Stored(fx.mem) else []
  {
    WbInheritsMem(p, t.core, x);
    CommitMoves(p, t.core, x);
    if t.exReal {
      ExAgrees(p, t, x);
    } else {
      BubbleWritesNothing(p, t, x);
      BubbleInert(p, t, x);
    }
    hide ExDecoded, FetchPaired, LoadSettled, PathFollowed, BtbExact, Clock, PendingReg, PendingMem, AbsMem, AbsRegs;
    hide Isa.NextEffect, EnvOf, AfterWb, WbWrite, Isa.LoadValue, AbsPc, ResolveOf, ResolvedNext, Stall, Redirect;
  }

  lemma BubbleWritesNothing(p: Isa.Program, t: Tracked, x: Inputs)
    requires ExDecoded(p, t) && !t.exReal && !x.rst
    ensures MemWrite(Clock(p, t.core, x)) == []
  {
    hide ClockIf, ClockFetch, ClockIfId, ClockIdEx, ClockRegs, ClockDmem, ReadWord, ExResult;
    hide OperandOf, Isa.Fetch, Stall, EnvOf, CsrWriteSource, ClockCsr, TakeTrap, TakeMret, ResolveOf, Redirect;
    hide Isa.LoadValue;
  }

  lemma Regroup<T>(done: seq<T>, later: seq<T>, final: seq<T>, owed: seq<T>, now: seq<T>, rest: seq<T>)
    requires later + final == (owed + now) + rest
    ensures (done + later) + final == (done + owed) + (now + rest)
  {
    assert (done + later) + final == done + (later + final);
    assert (done + owed) + (now + rest) == done + ((owed + now) + rest);
  }

  /** The registers are written in architectural order with architectural values; only
      the last two writes can still be on their way. */
  lemma {:induction false} WritesInOrder(p: Isa.Program, t: Tracked, xs: seq<Inputs>)
    requires Inv(p, t) && NoReset(xs)
    requires AlignedRun(p, Abs(t), Events(p, t, xs))
    ensures CoreWrites(p, t, xs) + OwedWrites(Run(p, t, xs).core)
         == OwedWrites(t.core) + IsaWrites(p, Abs(t), Events(p, t, xs))
    decreases |xs|
  {
    hide Inv, Tick, Abs, Isa.Step, EnvOf, Aligned, MemWrite, WbWrite, Written, Isa.NextEffect;
    if xs == [] {
      assert OwedWrites(t.core) + [] == [] + OwedWrites(t.core);
    } else {
      var n := Tick(p, t, xs[0]);
      EventsUnfold(p, t, xs);
      hide Events;
      TickRefines(p, t, xs[0]);
      WriteStep(p, t, xs[0]);
      WritesInOrder(p, n, xs[1..]);
      var now := if t.exReal then Written(Isa.NextEffect(p, Abs(t), EnvOf(t.core, xs[0])).reg, Abs(t).mem) else [];
      var rest := IsaWrites(p, Abs(n), Events(p, n, xs[1..]));
      assert IsaWrites(p, Abs(t), Events(p, t, xs)) == now + rest;
      hide IsaWrites;
      Regroup(WbWrite(t.core), CoreWrites(p, n, xs[1..]), OwedWrites(Run(p, n, xs[1..]).core),
              MemWrite(t.core), now, rest);
    }
  }

  /** Memory sees exactly the architecture's stores, in order: a store cancelled by a
      trap writes nothing, and no wrong-path store is ever issued. */
  lemma {:induction false} StoresInOrder(p: Isa.Program, t: Tracked, xs: seq<Inputs>)
    requires Inv(p, t) && NoReset(xs)
    requires AlignedRun(p, Abs(t), Events(p, t, xs))
    ensures CoreStores(p, t, xs) + Stored(PendingMem(Run(p, t, xs).core.exmem))
         == Stored(PendingMem(t.core.exmem)) + IsaStores(p, Abs(t), Events(p, t, xs))
    decreases |xs|
  {
    hide Inv, Tick, Abs, Isa.Step, EnvOf, Aligned, OwedWrites, PendingMem, Stored, Isa.NextEffect;
    if xs == [] {
      assert Stored(PendingMem(t.core.exmem)) + [] == [] + Stored(PendingMem(t.core.exmem));
    } else {
      var n := Tick(p, t, xs[0]);
      EventsUnfold(p, t, xs);
      hide Events;
      TickRefines(p, t, xs[0]);
      WriteStep(p, t, xs[0]);
      StoresInOrder(p, n, xs[1..]);
      var now := if t.exReal then Stored(Isa.NextEffect(p, Abs(t), EnvOf(t.core, xs[0])).mem) else [];
      var rest := IsaStores(p, Abs(n), Events(p, n, xs[1..]));
      assert IsaStores(p, Abs(t), Events(p, t, xs)) == now + rest;
      hide IsaStores;
      Regroup(Stored(PendingMem(t.core.exmem)), CoreStores(p, n, xs[1..]),
              Stored(PendingMem(Run(p, n, xs[1..]).core.exmem)), [], now, rest);
      assert Stored(PendingMem(t.core.exmem)) + [] == Stored(PendingMem(t.core.exmem));
    }
  }

  // ---- Instructions retired -----------------------------------------------------------------

  function CountUp(n: bv64, k: nat): bv64 {
    if k == 0 then n else Succ64(CountUp(n, k - 1))
  }

  function One(b: bool): nat {
    if b then 1 else 0
  }

  /** The instructions in WB and MEM that are still to be counted. */
  function Owed(s: Core): nat {
    One(s.memwb.ctrl.valid) + One(s.exmem.ctrl.valid)
  }

  /** `instret` once they have left the pipeline. */
  function OwedCount(s: Core): bv64 {
    CountUp(s.instret, Owed(s))
  }

  /** The next instruction counts: it is decoded, does not trap and is not MRET. */
  predicate Retires(p: Isa.Program, s: Isa.State, e: Isa.Env) {
    var i := Isa.Decode(Isa.Fetch(p, s.pc));
    !i.Undecoded? && !Isa.Traps(i, s.csrs, e) && !i.Mret?
  }

  function RetiredCount(p: Isa.Program, s: Isa.State, es: seq<Isa.Env>): nat
    decreases |es|
  {
    if es == [] then 0
    else One(Retires(p, s, es[0])) + RetiredCount(p, Isa.Step(p, s, es[0]), es[1..])
  }

  lemma {:induction false} CountUpSum(n: bv64, j: nat, k: nat)
    ensures CountUp(CountUp(n, j), k) == CountUp(n, j + k)
  {
    hide Succ64;
    if k > 0 {
      CountUpSum(n, j, k - 1);
    }
  }

  lemma CountersMove(p: Isa.Program, s: Core, x: Inputs)
    requires !x.rst
    ensures var n := Clock(p, s, x);
      n.instret == CountUp(s.instret, One(s.memwb.ctrl.valid)) && n.memwb.ctrl == s.exmem.ctrl
  {
    hide ClockIf, ClockFetch, ClockIfId, ClockIdEx, ClockCsr, ClockExMem, ClockRegs, ClockDmem, ReadWord, Stall,
      ResolveOf;
    hide Redirect, EnvOf, OperandA, OperandB, CsrWriteSource, ImemAddr, Isa.Fetch, Succ64;
  }

  /** MEM receives a valid slot exactly when EX held a real instruction that counts. */
  lemma ValidExactly(p: Isa.Program, t: Tracked, x: Inputs)
    requires Inv(p, t) && !x.rst
    ensures Clock(p, t.core, x).exmem.ctrl.valid
       <==> t.exReal && Retires(p, Abs(t), EnvOf(t.core, x))
  {
    var w := Isa.Fetch(p, t.core.idex.pc);
    TrapDecision(w, t.core.csrs, EnvOf(t.core, x));
    ValidDecoded(w);
    hide ClockIf, ClockFetch, ClockIfId, ClockIdEx, ClockCsr, ClockMemWb, ClockRegs, ClockDmem, ReadWord, Stall,
      ResolveOf;
    hide Redirect, EnvOf, OperandA, OperandB, CsrWriteSource, ImemAddr, Isa.Fetch, Succ64, Control, Isa.Decode,
      TakeTrap, TakeMret, Isa.Traps, ExResult, FetchPaired, LoadSettled, PathFollowed, BtbExact, GetReg, ImmediateOf;
  }

  lemma ValidDecoded(w: Word)
    ensures Control(w).valid <==> !Isa.Decode(w).Undecoded?
  {
    hide Isa.Opcode, Isa.Funct3, Isa.Rd, Isa.Rs1, Isa.ImmI, Isa.ImmB, Isa.ImmJ, Isa.ImmS, Isa.ImmU, Bit;
    hide Isa.CondOf, Isa.LoadKindOf, Isa.StoreKindOf, Isa.AluFnOf, Isa.CsrOpOf, ArithAluOp, BranchAluOp, Isa.Funct12;
  }

  lemma CountStep(p: Isa.Program, t: Tracked, x: Inputs)
    requires Inv(p, t) && !x.rst
    ensures OwedCount(Tick(p, t, x).core)
         == CountUp(OwedCount(t.core), One(t.exReal && Retires(p, Abs(t), EnvOf(t.core, x))))
  {
    hide Inv, Clock, Retires, EnvOf, Succ64, Abs, Redirect, Stall, ResolveOf;
    var s := t.core;
    CountersMove(p, s, x);
    ValidExactly(p, t, x);
    CountUpSum(s.instret, One(s.memwb.ctrl.valid), One(s.exmem.ctrl.valid) + One(Clock(p, s, x).exmem.ctrl.valid));
    CountUpSum(s.instret, One(s.memwb.ctrl.valid) + One(s.exmem.ctrl.valid), One(Clock(p, s, x).exmem.ctrl.valid));
  }

  /** `minstret` counts exactly the committed instructions that are decoded, do not trap
      and are not MRET; at most two of them are still on their way to WB. */
  lemma {:induction false} RetiredExactly(p: Isa.Program, t: Tracked, xs: seq<Inputs>)
    requires Inv(p, t) && NoReset(xs)
    requires AlignedRun(p, Abs(t), Events(p, t, xs))
    ensures OwedCount(Run(p, t, xs).core)
         == CountUp(OwedCount(t.core), RetiredCount(p, Abs(t), Events(p, t, xs)))
    decreases |xs|
  {
    hide Inv, Tick, Abs, Isa.Step, EnvOf, Aligned, Retires, OwedCount, CountUp;
    if xs == [] {
      CountUpNone(OwedCount(t.core));
    } else {
      var n := Tick(p, t, xs[0]);
      EventsUnfold(p, t, xs);
      hide Events;
      TickRefines(p, t, xs[0]);
      CountStep(p, t, xs[0]);
      RetiredExactly(p, n, xs[1..]);
      CountUpNone(OwedCount(t.core));
      CountUpSum(OwedCount(t.core), One(Retires(p, Abs(t), EnvOf(t.core, xs[0]))),
        RetiredCount(p, Abs(n), Events(p, n, xs[1..])));
    }
  }

  lemma CountUpNone(n: bv64)
    ensures CountUp(n, 0) == n
  {
  }

  /** `mcycle` is zero after reset and counts every clock from then on. */
  lemma {:induction false} CyclesCounted(p: Isa.Program, t: Tracked, xs: seq<Inputs>)
    requires NoReset(xs)
    ensures Run(p, t, xs).core.cycles == CountUp(t.core.cycles, |xs|)
    decreases |xs|
  {
    if xs == [] {
      CountUpNone(t.core.cycles);
    } else {
      ClockCounts(p, t.core, xs[0]);
      hide Clock, CountUp;
      CyclesCounted(p, Tick(p, t, xs[0]), xs[1..]);
      CountUpOnce(t.core.cycles);
      CountUpSum(t.core.cycles, 1, |xs| - 1);
    }
  }

  lemma ClockCounts(p: Isa.Program, s: Core, x: Inputs)
    ensures Clock(p, s, x).cycles == if x.rst then 0 else s.cycles + 1
  {
    hide ClockIf, ClockFetch, ClockIfId, ClockIdEx, ClockCsr, ClockExMem, ClockRegs, ClockDmem, ReadWord, Stall,
      ResolveOf, Redirect, EnvOf, OperandA, OperandB, CsrWriteSource, ImemAddr, Isa.Fetch;
  }

  lemma CountUpOnce(n: bv64)
    ensures CountUp(n, 1) == n + 1
  {
    assert CountUp(n, 0) == n;
  }

  // ---- Progress -----------------------------------------------------------------------------

  /** Clocks until a real instruction is in EX. */
  function Bubbles(t: Tracked): nat {
    if t.exReal then 0 else if t.core.ifid.valid then 1 else if t.core.fetch.valid then 2 else 3
  }

  lemma BubbleFalls(p: Isa.Program, t: Tracked, x: Inputs)
    requires FetchPaired(p, t) && ExDecoded(p, t) && !t.exReal && !x.rst
    ensures Bubbles(Tick(p, t, x)) == Bubbles(t) - 1
  {
    BubbleInert(p, t, x);
    hide ClockIf, ClockIdEx, ClockCsr, NextExMem, ClockRegs, ClockDmem, ReadWord;
    hide Redirect, ResolveOf, PredictTaken, Isa.Fetch, EnvOf, CsrWriteSource, OperandA, OperandB, Control, ImmediateOf;
  }

  /** From any reachable state, at most three clocks pass without an instruction in EX. */
  lemma {:induction false} RealSlotArrives(p: Isa.Program, t: Tracked, xs: seq<Inputs>)
    requires Inv(p, t) && NoReset(xs) && |xs| == Bubbles(t)
    ensures Bubbles(t) <= 3 && Run(p, t, xs).exReal
    decreases |xs|
  {
    if !t.exReal {
      BubbleFalls(p, t, xs[0]);
      InvKept(p, t, xs[0]);
      hide Inv, Tick, Bubbles;
      RealSlotArrives(p, Tick(p, t, xs[0]), xs[1..]);
    }
  }

  /** A redirect empties every slot behind EX: three bubbles follow, not two. */
  lemma RedirectCost(p: Isa.Program, t: Tracked, x: Inputs)
    requires Redirect(ResolveOf(t.core, x))
    ensures Bubbles(Tick(p, t, x)) == 3
  {
    hide ClockIf, ClockIdEx, ClockCsr, NextExMem, ClockRegs, ClockDmem, ReadWord;
    hide Redirect, ResolveOf, PredictTaken, Isa.Fetch, EnvOf, CsrWriteSource, OperandA, OperandB;
  }

  /** A stall inserts one bubble and is over. */
  lemma StallLastsOneClock(p: Isa.Program, t: Tracked, x: Inputs)
    requires Stall(t.core)
    ensures !Stall(Tick(p, t, x).core) && (Inv(p, t) && !x.rst && t.exReal && !Redirect(ResolveOf(t.core, x))
      ==> Bubbles(Tick(p, t, x)) == 1)
  {
    hide PathFollowed, BtbExact, LoadSettled, ClockIf, ClockCsr, NextExMem, ClockRegs, ClockDmem, ReadWord, DecodeSlot;
    hide Redirect, ResolveOf, PredictTaken, Isa.Fetch, EnvOf, CsrWriteSource, OperandA, OperandB;
  }

  // ---- Clocks per instruction ------------------------------------------------------------------

  predicate Redirects(t: Tracked, x: Inputs) { Redirect(ResolveOf(t.core, x)) }

  /** A stall that no redirect cuts short. */
  predicate Stalls(t: Tracked, x: Inputs) { Stall(t.core) && !Redirects(t, x) }

  /** One clock moves one slot: it is a real one, or fills one of the bubbles that redirects
      and stalls have left. */
  lemma BubblesPaid(p: Isa.Program, t: Tracked, x: Inputs)
    requires FetchPaired(p, t) && ExDecoded(p, t) && !x.rst
    ensures 1 + Bubbles(Tick(p, t, x)) == Bubbles(t) + One(t.exReal) + 3 * One(Redirects(t, x)) + One(Stalls(t, x))
    ensures Redirects(t, x) || Stalls(t, x) ==> t.exReal
  {
    if t.exReal {
      hide ExDecoded, ClockIf, ClockIdEx, ClockCsr, NextExMem, ClockRegs, ClockDmem, ReadWord, Redirect, ResolveOf,
        PredictTaken, Isa.Fetch, EnvOf, CsrWriteSource, OperandA, OperandB, Stall;
    } else {
      BubbleInert(p, t, x);
      BubbleFalls(p, t, x);
      hide Tick, Bubbles, FetchPaired, ResolveOf, Redirect;
    }
  }

  /** The instruction in EX, and the one behind it in ID. */
  function InEx(p: Isa.Program, t: Tracked): Isa.Instr { Isa.Decode(Isa.Fetch(p, t.core.idex.pc)) }
  function BehindIt(p: Isa.Program, t: Tracked): Word { Isa.Fetch(p, t.core.ifid.pc) }

  /** The core stalls exactly for a load in EX whose destination is a source field of the
      next instruction. */
  lemma StallsExactly(p: Isa.Program, t: Tracked)
    requires FetchPaired(p, t) && ExDecoded(p, t)
    ensures Stall(t.core) <==>
      && t.exReal && InEx(p, t).Load? && InEx(p, t).rd != 0
      && (InEx(p, t).rd == Isa.Rs1(BehindIt(p, t)) || InEx(p, t).rd == Isa.Rs2(BehindIt(p, t)))
  {
    if t.exReal {
      LoadFlags(Isa.Fetch(p, t.core.idex.pc));
    }
    hide Isa.Fetch, Isa.Decode, Isa.Rs1, Isa.Rs2, Isa.Rd, Control, ImmediateOf, GetReg;
  }

  lemma LoadFlags(w: Word)
    ensures Control(w).memRead <==> Isa.Decode(w).Load?
    ensures Isa.Decode(w).Load? ==> Isa.Decode(w).rd == Isa.Rd(w)
  {
    hide Isa.Opcode, Isa.Funct3, Isa.Rd, Isa.Rs1, Isa.ImmI, Isa.ImmB, Isa.ImmJ, Isa.ImmS, Isa.ImmU, Bit;
    hide Isa.CondOf, Isa.LoadKindOf, Isa.StoreKindOf, Isa.AluFnOf, Isa.CsrOpOf, ArithAluOp, BranchAluOp, Isa.Funct12;
  }

  /** What can send the fetch elsewhere: a trap, MRET, a jump, or a branch that does not go
      the way it was predicted. */
  predicate Diverts(i: Isa.Instr, a: Word, b: Word, predicted: bool, c: Isa.Csrs, e: Isa.Env) {
    Isa.Traps(i, c, e) || i.Mret? || i.Jal? || i.Jalr? || (i.Branch? && Isa.Holds(i.cond, a, b) != predicted)
  }

  lemma JumpFlags(w: Word)
    ensures var i := Isa.Decode(w);
      (Control(w).jal <==> i.Jal?) && (Control(w).jalr <==> i.Jalr?) && (Control(w).branch <==> i.Branch?)
  {
    hide Isa.Opcode, Isa.Funct3, Isa.Rd, Isa.Rs1, Isa.ImmI, Isa.ImmB, Isa.ImmJ, Isa.ImmS, Isa.ImmU, Bit;
    hide Isa.CondOf, Isa.LoadKindOf, Isa.StoreKindOf, Isa.AluFnOf, Isa.CsrOpOf, ArithAluOp, BranchAluOp, Isa.Funct12;
  }

  lemma BranchControl(w: Word)
    requires Isa.Decode(w).Branch?
    ensures Isa.Decode(w).cond == Isa.CondOf(Isa.Funct3(w)) && Control(w).funct3 == Isa.Funct3(w)
    ensures Control(w).aluOp == BranchAluOp(Isa.Funct3(w)) && !Control(w).auipc && !Control(w).aluSrc
  {
    hide Isa.Opcode, Isa.Funct3, Isa.Rd, Isa.Rs1, Isa.ImmI, Isa.ImmB, Isa.ImmJ, Isa.ImmS, Isa.ImmU, Bit;
    hide Isa.CondOf, Isa.LoadKindOf, Isa.StoreKindOf, Isa.AluFnOf, Isa.CsrOpOf, ArithAluOp, BranchAluOp, Isa.Funct12;
  }

  lemma BranchDirection(x: IdEx, w: Word, a: Word, b: Word, c: Isa.Csrs, e: Isa.Env)
    requires x.ctrl == Control(w) && Isa.Decode(w).Branch?
    ensures ResolveEx(x, a, b, c, e).branchTaken <==> Isa.Holds(Isa.Decode(w).cond, a, b)
  {
    BranchControl(w);
    BranchCondExact(Isa.Funct3(w), a, b);
    hide Control, Isa.Decode, Isa.Funct3, Alu, BranchAluOp, BranchCond, Isa.Holds, TakeTrap, TakeMret, JumpTarget, Plus;
  }

  /** The front end is redirected exactly for those, on the architecture's own operands. */
  lemma RedirectsExactly(p: Isa.Program, t: Tracked, x: Inputs)
    requires Inv(p, t) && (t.exReal ==> Aligned(t.core.idex.pc))
    ensures var w := Isa.Fetch(p, t.core.idex.pc);
      Redirects(t, x) <==>
        t.exReal && Diverts(InEx(p, t), GetReg(Abs(t).regs, Isa.Rs1(w)), GetReg(Abs(t).regs, Isa.Rs2(w)),
          t.core.idex.predicted, t.core.csrs, EnvOf(t.core, x))
  {
    if t.exReal {
      var w := Isa.Fetch(p, t.core.idex.pc);
      OperandsArchitectural(p, t);
      BogusRedirectUnreachable(p, t, x);
      TrapDecision(w, t.core.csrs, EnvOf(t.core, x));
      JumpFlags(w);
      if InEx(p, t).Branch? {
        BranchDirection(t.core.idex, w, OperandA(t.core), OperandB(t.core), t.core.csrs, EnvOf(t.core, x));
      }
    } else {
      BubbleDiverts(p, t, x);
    }
    hide BtbExact, PathFollowed, FetchPaired, LoadSettled, BogusRedirect, AbsRegs, AbsMem, OperandOf, Control,
      ImmediateOf, Isa.Decode, Isa.Rs1, Isa.Rs2, Isa.Rd, GetReg, Isa.Fetch, TakeTrap, TakeMret, Isa.Traps, Isa.Holds,
      BranchCond, AluOut, JumpTarget, EnvOf, Plus, ClearLow2, Aligned;
  }

  lemma BubbleDiverts(p: Isa.Program, t: Tracked, x: Inputs)
    requires ExDecoded(p, t) && !t.exReal
    ensures !Redirects(t, x)
  {
    hide EnvOf, Isa.InterruptPending, AluOut, BranchCond, JumpTarget, OperandOf, Plus, ClearLow2;
  }

  function RedirectCount(p: Isa.Program, t: Tracked, xs: seq<Inputs>): nat
    decreases |xs|
  {
    if xs == [] then 0 else One(Redirects(t, xs[0])) + RedirectCount(p, Tick(p, t, xs[0]), xs[1..])
  }

  function StallCount(p: Isa.Program, t: Tracked, xs: seq<Inputs>): nat
    decreases |xs|
  {
    if xs == [] then 0 else One(Stalls(t, xs[0])) + StallCount(p, Tick(p, t, xs[0]), xs[1..])
  }

  /** Over any run the clocks are the committed instructions, three for every redirect and
      one for every stall, up to the bubbles under way at its two ends; so at least one
      clock in four commits. Misaligned PCs make no difference. */
  lemma {:induction false} CyclesExactly(p: Isa.Program, t: Tracked, xs: seq<Inputs>)
    requires FetchPaired(p, t) && ExDecoded(p, t) && NoReset(xs)
    ensures |xs| + Bubbles(Run(p, t, xs))
         == Bubbles(t) + |Events(p, t, xs)| + 3 * RedirectCount(p, t, xs) + StallCount(p, t, xs)
    ensures RedirectCount(p, t, xs) + StallCount(p, t, xs) <= |Events(p, t, xs)|
    ensures |xs| <= 4 * |Events(p, t, xs)| + Bubbles(t)
    decreases |xs|
  {
    hide FetchPaired, ExDecoded, Tick, Bubbles, EnvOf, Redirects, Stalls;
    if xs != [] {
      BubblesPaid(p, t, xs[0]);
      FetchStaysPaired(p, t, xs[0]);
      ExStaysDecoded(p, t, xs[0]);
      NotBoth(t, xs[0]);
      CyclesExactly(p, Tick(p, t, xs[0]), xs[1..]);
    }
  }

  lemma NotBoth(t: Tracked, x: Inputs)
    ensures !(Redirects(t, x) && Stalls(t, x))
  {
  }

  // ---- Interrupt latency -----------------------------------------------------------------------

  predicate IrqSeen(t: Tracked, x: Inputs) { Isa.InterruptPending(t.core.csrs, EnvOf(t.core, x)) }

  /** The instruction in EX is one the core knows. */
  predicate KnownInEx(p: Isa.Program, t: Tracked) { !Isa.Decode(Isa.Fetch(p, t.core.idex.pc)).Undecoded? }

  lemma RealSlotTakesIrq(p: Isa.Program, t: Tracked, x: Inputs)
    requires ExDecoded(p, t) && t.exReal && IrqSeen(t, x)
    ensures TakeTrap(t.core.idex.ctrl, t.core.csrs, EnvOf(t.core, x)) <==> KnownInEx(p, t)
  {
    TrapDecision(Isa.Fetch(p, t.core.idex.pc), t.core.csrs, EnvOf(t.core, x));
    hide Control, Isa.Decode, TakeTrap, GetReg, Isa.InterruptPending, EnvOf, ImmediateOf, Isa.Rs1, Isa.Rs2, Isa.Rd;
  }

  lemma BubbleTakesNone(p: Isa.Program, t: Tracked, x: Inputs)
    requires ExDecoded(p, t) && !t.exReal
    ensures !TakeTrap(t.core.idex.ctrl, t.core.csrs, EnvOf(t.core, x))
  {
    hide EnvOf, Isa.InterruptPending;
  }

  lemma RunPrefix(p: Isa.Program, t: Tracked, xs: seq<Inputs>, k: nat)
    requires 0 < k <= |xs|
    ensures Run(p, t, xs[..k]) == Run(p, Tick(p, t, xs[0]), xs[1..][..k - 1])
  {
    hide Tick;
    assert xs[..k][1..] == xs[1..][..k - 1];
  }

  predicate TrapsOn(t: Tracked, x: Inputs) { TakeTrap(t.core.idex.ctrl, t.core.csrs, EnvOf(t.core, x)) }

  /** From any reachable state the first instruction reaches EX within four clocks, none
      before it traps, and an interrupt that is then pending and enabled is taken there if
      and only if the core knows the instruction: `xs[..k]` are the clocks before it. */
  lemma {:induction false} InterruptLatency(p: Isa.Program, t: Tracked, xs: seq<Inputs>)
    requires Inv(p, t) && NoReset(xs) && |xs| == Bubbles(t) + 1
    ensures Bubbles(t) <= 3
    ensures var k := Bubbles(t); var n := Run(p, t, xs[..k]);
      && n.exReal && (IrqSeen(n, xs[k]) ==> (TrapsOn(n, xs[k]) <==> KnownInEx(p, n)))
      && (k > 0 ==> !TrapsOn(t, xs[0]))
    decreases |xs|
  {
    hide FetchPaired, LoadSettled, PathFollowed, BtbExact, ExDecoded;
    hide Tick, EnvOf, TakeTrap, IrqSeen, Run, KnownInEx, TrapsOn;
    if t.exReal {
      FirstIsTaken(p, t, xs);
    } else {
      FirstIsQuiet(p, t, xs[0]);
      BubbleFalls(p, t, xs[0]);
      InvKept(p, t, xs[0]);
      RunPrefix(p, t, xs, Bubbles(t));
      assert xs[1..][Bubbles(t) - 1] == xs[Bubbles(t)];
      hide Bubbles, Inv;
      InterruptLatency(p, Tick(p, t, xs[0]), xs[1..]);
    }
  }

  lemma FirstIsQuiet(p: Isa.Program, t: Tracked, x: Inputs)
    requires Inv(p, t) && !t.exReal
    ensures !TrapsOn(t, x)
  {
    BubbleTakesNone(p, t, x);
    hide TakeTrap, EnvOf, ExDecoded, FetchPaired, LoadSettled, PathFollowed, BtbExact;
  }

  lemma FirstIsTaken(p: Isa.Program, t: Tracked, xs: seq<Inputs>)
    requires Inv(p, t) && t.exReal && xs != []
    ensures var n := Run(p, t, xs[..0]);
      n.exReal && (IrqSeen(n, xs[0]) ==> (TrapsOn(n, xs[0]) <==> KnownInEx(p, n)))
  {
    hide TakeTrap, EnvOf, Tick, ExDecoded, FetchPaired, LoadSettled, PathFollowed, BtbExact, KnownInEx, IrqSeen;
    if IrqSeen(t, xs[0]) {
      RealSlotTakesIrq(p, t, xs[0]);
    }
    assert xs[..0] == [];
  }
}
