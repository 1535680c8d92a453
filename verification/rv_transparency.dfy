/**
 Interrupt transparency over whole runs: a main program and a handler that share no
 registers and no memory, whatever the interrupt schedule.  What the main program
 sees is its own uninterrupted run.
 */
module RvTransparency {
  import opened Rv32iPkg
  import Isa = RvIsa
  import opened RvRefinement
  import opened RvRuns
  import opened RvCore

  /** The registers and memory bytes that belong to the main program. */
  datatype Partition = Partition(regs: RegIdx -> bool, bytes: Word -> bool)

  predicate OwnReg(o: Partition, r: RegIdx) { r == 0 || o.regs(r) }

  predicate ReadsRs1(i: Isa.Instr) {
    i.Jalr? || i.Branch? || i.Load? || i.Store? || i.OpImm? || i.OpReg?
  }

  predicate ReadsRs2(i: Isa.Instr) { i.Branch? || i.Store? || i.OpReg? }

  predicate IsSystem(i: Isa.Instr) { i.Csr? || i.Ecall? || i.Ebreak? || i.Mret? }

  predicate LoadWithin(o: Partition, kind: Isa.LoadKind, a: Word) {
    match kind
    case LoadByte => o.bytes(a)
    case LoadByteU => o.bytes(a)
    case LoadHalf => o.bytes(a | 1) && o.bytes(ClearLow1(a))
    case LoadHalfU => o.bytes(a | 1) && o.bytes(ClearLow1(a))
    case LoadWord => o.bytes(Lane(a, 0)) && o.bytes(Lane(a, 1)) && o.bytes(Lane(a, 2)) && o.bytes(Lane(a, 3))
  }

  predicate StoreOutside(o: Partition, width: Isa.StoreKind, a: Word) {
    match width
    case StoreByte => !o.bytes(a)
    case StoreHalf => !o.bytes(a | 1) && !o.bytes(ClearLow1(a))
    case StoreWord => !o.bytes(Lane(a, 0)) && !o.bytes(Lane(a, 1)) && !o.bytes(Lane(a, 2)) && !o.bytes(Lane(a, 3))
  }

  // ---- What each side promises ---------------------------------------------------

  const QUIET := Isa.Env(false, false, false, 0, 0)

  /** The instruction at `u.pc` is not a SYSTEM one, and reads and loads only what the
      main program owns.  (What it writes is its own business.) */
  predicate MainOk(p: Isa.Program, o: Partition, u: Isa.State) {
    var w := Isa.Fetch(p, u.pc);
    var i := Isa.Decode(w);
    && Aligned(u.pc) && !IsSystem(i)
    && (ReadsRs1(i) ==> OwnReg(o, Isa.Rs1(w))) && (ReadsRs2(i) ==> OwnReg(o, Isa.Rs2(w)))
    && (i.Load? ==> LoadWithin(o, i.kind, Plus(GetReg(u.regs, Isa.Rs1(w)), i.imm)))
  }

  /** A handler instruction does not call, writes neither `mepc` nor `mstatus` (MRET
      aside), and neither writes the main program's registers nor stores into its
      memory.  It may read anything. */
  predicate HandlerOk(p: Isa.Program, o: Partition, s: Isa.State, e: Isa.Env) {
    var i := Isa.Decode(Isa.Fetch(p, s.pc));
    var fx := Isa.NextEffect(p, s, e);
    && !i.Ecall? && !i.Ebreak?
    && (!i.Mret? ==> fx.csrs.mepc == s.csrs.mepc && fx.csrs.mie == s.csrs.mie)
    && (match fx.reg
        case NoReg => true
        case WriteReg(rd, _) => rd == 0 || !o.regs(rd)
        case LoadReg(rd, _, _) => rd == 0 || !o.regs(rd))
    && (match fx.mem
        case NoMem => true
        case StoreMem(width, a, _) => StoreOutside(o, width, a))
  }

  // ---- Runs -----------------------------------------------------------------------

  /** The main program alone, `k` steps, no interrupts. */
  function Uninterrupted(p: Isa.Program, u: Isa.State, k: nat): Isa.State {
    if k == 0 then u else Isa.Step(p, Uninterrupted(p, u, k - 1), QUIET)
  }

  /** The machine, whether it is between a trap entry and its MRET, and how many main
      instructions have completed. */
  datatype Watched = Watched(s: Isa.State, handler: bool, done: nat)

  function Watch(p: Isa.Program, t: Watched, e: Isa.Env): Watched {
    var i := Isa.Decode(Isa.Fetch(p, t.s.pc));
    var n := Isa.Step(p, t.s, e);
    if t.handler then Watched(n, !i.Mret?, t.done)
    else if Isa.Traps(i, t.s.csrs, e) then Watched(n, true, t.done)
    else Watched(n, false, t.done + 1)
  }

  function WatchRun(p: Isa.Program, t: Watched, es: seq<Isa.Env>): Watched
    decreases |es|
  {
    if es == [] then t else WatchRun(p, Watch(p, t, es[0]), es[1..])
  }

  predicate HandlerBehaves(p: Isa.Program, o: Partition, t: Watched, es: seq<Isa.Env>)
    decreases |es|
  {
    es != [] ==> (t.handler ==> HandlerOk(p, o, t.s, es[0])) && HandlerBehaves(p, o, Watch(p, t, es[0]), es[1..])
  }

  ghost predicate MainBehaves(p: Isa.Program, o: Partition, u: Isa.State) {
    forall k: nat :: MainOk(p, o, Uninterrupted(p, u, k))
  }

  // ---- The projection -----------------------------------------------------------------

  ghost predicate SameRegs(o: Partition, r: Regs, q: Regs) {
    forall i: RegIdx :: OwnReg(o, i) ==> GetReg(r, i) == GetReg(q, i)
  }

  ghost predicate SameBytes(o: Partition, m: Memory, n: Memory) {
    forall a: Word :: o.bytes(a) ==> ByteAt(m, a) == ByteAt(n, a)
  }

  /** The main program's registers, memory and resumption point are those of `u`. */
  ghost predicate Sees(o: Partition, t: Watched, u: Isa.State) {
    && SameRegs(o, t.s.regs, u.regs) && SameBytes(o, t.s.mem, u.mem)
    && (if t.handler then t.s.csrs.mepc == u.pc && !t.s.csrs.mie else t.s.pc == u.pc)
  }

  // ---- A main step -----------------------------------------------------------------------

  lemma OutcomeDependsOnReads(i: Isa.Instr, pc: Word, a: Word, b: Word, a': Word, b': Word)
    requires ReadsRs1(i) ==> a == a'
    requires ReadsRs2(i) ==> b == b'
    ensures Isa.Ordinary(i, pc, a, b) == Isa.Ordinary(i, pc, a', b')
  {
    hide Isa.Compute, Isa.Holds, Plus, PcPlus4, ClearLow1;
  }

  /** What a non-SYSTEM instruction does depends only on the operands it reads. */
  lemma EffectDependsOnReads(w: Word, pc: Word, a: Word, b: Word, c: Isa.Csrs, e: Isa.Env,
                             a': Word, b': Word, c': Isa.Csrs, e': Isa.Env)
    requires !IsSystem(Isa.Decode(w))
    requires ReadsRs1(Isa.Decode(w)) ==> a == a'
    requires ReadsRs2(Isa.Decode(w)) ==> b == b'
    ensures var fx := Isa.Execute(w, pc, a, b, c, e); var fx' := Isa.Execute(w, pc, a', b', c', e');
      fx.next == fx'.next && fx.reg == fx'.reg && fx.mem == fx'.mem
    ensures Isa.Execute(w, pc, a, b, c, e).csrs == c
  {
    hide Isa.Decode, Isa.Ordinary, Isa.Rs1, Isa.ReadCsr, Isa.UpdateCsr, ClearLow2, PcPlus4;
    OutcomeDependsOnReads(Isa.Decode(w), pc, a, b, a', b');
  }

  lemma LoadSame(o: Partition, kind: Isa.LoadKind, a: Word, m: Memory, n: Memory)
    requires SameBytes(o, m, n) && LoadWithin(o, kind, a)
    ensures Isa.LoadValue(kind, m, a) == Isa.LoadValue(kind, n, a)
  {
    hide ByteAt, Lane, ClearLow1, Cat, CatHalf, Sext8, Sext16;
  }

  lemma SetSame(o: Partition, r: Regs, q: Regs, rd: RegIdx, v: Word)
    requires SameRegs(o, r, q)
    ensures SameRegs(o, SetReg(r, rd, v), SetReg(q, rd, v))
  {
    forall i: RegIdx | OwnReg(o, i)
      ensures GetReg(SetReg(r, rd, v), i) == GetReg(SetReg(q, rd, v), i)
    {
      assert GetReg(r, i) == GetReg(q, i);
    }
  }

  lemma PutSame(o: Partition, m: Memory, n: Memory, k: Word, v: bv8)
    requires SameBytes(o, m, n)
    ensures SameBytes(o, Put(m, k, v), Put(n, k, v))
  {
    forall x: Word | o.bytes(x)
      ensures ByteAt(Put(m, k, v), x) == ByteAt(Put(n, k, v), x)
    {
      assert ByteAt(m, x) == ByteAt(n, x);
    }
  }

  lemma StoreSame(o: Partition, width: Isa.StoreKind, a: Word, v: Word, m: Memory, n: Memory)
    requires SameBytes(o, m, n)
    ensures SameBytes(o, Isa.StoreValue(width, m, a, v), Isa.StoreValue(width, n, a, v))
  {
    hide SameBytes, Lane, ClearLow1, ByteOf, Put;
    match width
    case StoreByte => PutSame(o, m, n, a, ByteOf(v, 0));
    case StoreHalf =>
      var k, b := ClearLow1(a), ByteOf(v, 0);
      PutSame(o, m, n, k, b);
      PutSame(o, Put(m, k, b), Put(n, k, b), a | 1, ByteOf(v, 1));
    case StoreWord =>
      var m0, n0 := Put(m, Lane(a, 0), ByteOf(v, 0)), Put(n, Lane(a, 0), ByteOf(v, 0));
      var m1, n1 := Put(m0, Lane(a, 1), ByteOf(v, 1)), Put(n0, Lane(a, 1), ByteOf(v, 1));
      var m2, n2 := Put(m1, Lane(a, 2), ByteOf(v, 2)), Put(n1, Lane(a, 2), ByteOf(v, 2));
      PutSame(o, m, n, Lane(a, 0), ByteOf(v, 0));
      PutSame(o, m0, n0, Lane(a, 1), ByteOf(v, 1));
      PutSame(o, m1, n1, Lane(a, 2), ByteOf(v, 2));
      PutSame(o, m2, n2, Lane(a, 3), ByteOf(v, 3));
  }

  lemma RegEffectSame(o: Partition, r: Regs, q: Regs, m: Memory, n: Memory, fx: Isa.RegEffect)
    requires SameRegs(o, r, q) && SameBytes(o, m, n)
    requires fx.LoadReg? ==> LoadWithin(o, fx.kind, fx.addr)
    ensures SameRegs(o, Isa.ApplyReg(r, m, fx), Isa.ApplyReg(q, n, fx))
  {
    match fx {
      case NoReg =>
      case WriteReg(rd, v) => SetSame(o, r, q, rd, v);
      case LoadReg(rd, kind, a) =>
        LoadSame(o, kind, a, m, n);
        SetSame(o, r, q, rd, Isa.LoadValue(kind, m, a));
    }
    hide Isa.LoadValue, SetReg, SameRegs, SameBytes, LoadWithin;
  }

  lemma MemEffectSame(o: Partition, m: Memory, n: Memory, fx: Isa.MemEffect)
    requires SameBytes(o, m, n)
    ensures SameBytes(o, Isa.ApplyMem(m, fx), Isa.ApplyMem(n, fx))
  {
    if fx.StoreMem? { StoreSame(o, fx.width, fx.addr, fx.value, m, n); }
    hide Isa.StoreValue, SameBytes;
  }

  lemma OutcomeLoads(i: Isa.Instr, pc: Word, a: Word, b: Word)
    ensures var o := Isa.Ordinary(i, pc, a, b);
      o.reg.LoadReg? ==> i.Load? && o.reg.kind == i.kind && o.reg.addr == Plus(a, i.imm)
  {
    hide Isa.Compute, Isa.Holds, Plus, PcPlus4, ClearLow1;
  }

  lemma LoadEffect(w: Word, pc: Word, a: Word, b: Word, c: Isa.Csrs, e: Isa.Env)
    requires !IsSystem(Isa.Decode(w))
    ensures var i := Isa.Decode(w); var fx := Isa.Execute(w, pc, a, b, c, e);
      fx.reg.LoadReg? ==> i.Load? && fx.reg.kind == i.kind && fx.reg.addr == Plus(a, i.imm)
  {
    hide Isa.Decode, Isa.Ordinary, Isa.Rs1, Isa.ReadCsr, Isa.UpdateCsr, ClearLow2, PcPlus4, Plus;
    OutcomeLoads(Isa.Decode(w), pc, a, b);
  }

  lemma MainStep(p: Isa.Program, o: Partition, t: Watched, u: Isa.State, e: Isa.Env)
    requires Sees(o, t, u) && !t.handler && MainOk(p, o, u)
    requires !Isa.Traps(Isa.Decode(Isa.Fetch(p, t.s.pc)), t.s.csrs, e)
    ensures Sees(o, Watch(p, t, e), Isa.Step(p, u, QUIET))
  {
    var w := Isa.Fetch(p, u.pc);
    var s := t.s;
    assert Isa.NextEffect(p, u, QUIET)
        == Isa.Execute(w, u.pc, GetReg(u.regs, Isa.Rs1(w)), GetReg(u.regs, Isa.Rs2(w)), u.csrs, QUIET)
    by { hide Isa.Execute, Isa.Fetch, Isa.Decode, Isa.EnterTrap, Isa.Cause, Isa.Rs1, Isa.Rs2, GetReg, Bit; }
    EffectDependsOnReads(w, s.pc, GetReg(s.regs, Isa.Rs1(w)), GetReg(s.regs, Isa.Rs2(w)), s.csrs, e,
                         GetReg(u.regs, Isa.Rs1(w)), GetReg(u.regs, Isa.Rs2(w)), u.csrs, QUIET);
    LoadEffect(w, u.pc, GetReg(u.regs, Isa.Rs1(w)), GetReg(u.regs, Isa.Rs2(w)), u.csrs, QUIET);
    var fx := Isa.NextEffect(p, u, QUIET);
    RegEffectSame(o, s.regs, u.regs, s.mem, u.mem, fx.reg);
    MemEffectSame(o, s.mem, u.mem, fx.mem);
    hide Isa.Execute, Isa.Fetch, Isa.Decode, Isa.EnterTrap, Isa.Cause, Isa.Traps, Isa.Rs1, Isa.Rs2, GetReg, Plus;
    hide SameRegs, SameBytes, Isa.ApplyReg, Isa.ApplyMem, LoadWithin, Aligned;
  }

  // ---- A handler step, a trap entry, a return -----------------------------------------------

  lemma SetElsewhere(o: Partition, r: Regs, rd: RegIdx, v: Word)
    requires rd == 0 || !o.regs(rd)
    ensures SameRegs(o, SetReg(r, rd, v), r)
  {
  }

  lemma PutElsewhere(o: Partition, m: Memory, n: Memory, k: Word, v: bv8)
    requires !o.bytes(k) && SameBytes(o, m, n)
    ensures SameBytes(o, Put(m, k, v), n)
  {
    forall x: Word | o.bytes(x)
      ensures ByteAt(Put(m, k, v), x) == ByteAt(n, x)
    {
      assert ByteAt(m, x) == ByteAt(n, x);
    }
  }

  lemma StoreElsewhere(o: Partition, width: Isa.StoreKind, a: Word, v: Word, m: Memory)
    requires StoreOutside(o, width, a)
    ensures SameBytes(o, Isa.StoreValue(width, m, a, v), m)
  {
    hide Lane, ClearLow1, ByteOf, Put;
    assert SameBytes(o, m, m);
    match width
    case StoreByte => PutElsewhere(o, m, m, a, ByteOf(v, 0));
    case StoreHalf =>
      PutElsewhere(o, m, m, ClearLow1(a), ByteOf(v, 0));
      PutElsewhere(o, Put(m, ClearLow1(a), ByteOf(v, 0)), m, a | 1, ByteOf(v, 1));
    case StoreWord =>
      var m0 := Put(m, Lane(a, 0), ByteOf(v, 0));
      var m1 := Put(m0, Lane(a, 1), ByteOf(v, 1));
      var m2 := Put(m1, Lane(a, 2), ByteOf(v, 2));
      PutElsewhere(o, m, m, Lane(a, 0), ByteOf(v, 0));
      PutElsewhere(o, m0, m, Lane(a, 1), ByteOf(v, 1));
      PutElsewhere(o, m1, m, Lane(a, 2), ByteOf(v, 2));
      PutElsewhere(o, m2, m, Lane(a, 3), ByteOf(v, 3));
  }

  lemma HandlerWrites(p: Isa.Program, o: Partition, s: Isa.State, e: Isa.Env)
    requires HandlerOk(p, o, s, e)
    ensures SameRegs(o, Isa.Step(p, s, e).regs, s.regs) && SameBytes(o, Isa.Step(p, s, e).mem, s.mem)
  {
    var fx := Isa.NextEffect(p, s, e);
    match fx.reg {
      case NoReg =>
      case WriteReg(rd, v) => SetElsewhere(o, s.regs, rd, v);
      case LoadReg(rd, kind, a) => SetElsewhere(o, s.regs, rd, Isa.LoadValue(kind, s.mem, a));
    }
    match fx.mem {
      case NoMem =>
      case StoreMem(width, a, v) => StoreElsewhere(o, width, a, v, s.mem);
    }
    hide Isa.NextEffect, Isa.LoadValue, Isa.StoreValue, SetReg, GetReg, ByteAt, Isa.Decode, Isa.Fetch, StoreOutside;
  }

  /** With MIE clear and no call, a handler instruction executes; MRET goes to `mepc`. */
  lemma HandlerExecutes(p: Isa.Program, s: Isa.State, e: Isa.Env)
    requires var i := Isa.Decode(Isa.Fetch(p, s.pc)); !i.Ecall? && !i.Ebreak?
    requires !s.csrs.mie
    ensures Isa.Decode(Isa.Fetch(p, s.pc)).Mret? ==> Isa.Step(p, s, e).pc == ClearLow2(s.csrs.mepc)
  {
    hide Isa.Decode, Isa.Fetch, ClearLow2, GetReg, Isa.Rs1, Isa.Rs2, Bit, Isa.ApplyReg, Isa.ApplyMem, Isa.EnterTrap;
  }

  lemma SeesTransitive(o: Partition, r: Regs, r': Regs, q: Regs, m: Memory, m': Memory, n: Memory)
    requires SameRegs(o, r', r) && SameRegs(o, r, q) && SameBytes(o, m', m) && SameBytes(o, m, n)
    ensures SameRegs(o, r', q) && SameBytes(o, m', n)
  {
    hide GetReg, ByteAt;
  }

  lemma AlignedCleared(pc: Word)
    requires Aligned(pc)
    ensures ClearLow2(pc) == pc
  {
  }

  lemma HandlerStep(p: Isa.Program, o: Partition, t: Watched, u: Isa.State, e: Isa.Env)
    requires Sees(o, t, u) && t.handler && HandlerOk(p, o, t.s, e) && Aligned(u.pc)
    ensures Sees(o, Watch(p, t, e), u)
  {
    HandlerWrites(p, o, t.s, e);
    HandlerExecutes(p, t.s, e);
    AlignedCleared(u.pc);
    var n := Isa.Step(p, t.s, e);
    SeesTransitive(o, t.s.regs, n.regs, u.regs, t.s.mem, n.mem, u.mem);
    hide SameRegs, SameBytes, Isa.NextEffect, Isa.Decode, Isa.Fetch, ClearLow2, Aligned, StoreOutside, Isa.ApplyReg,
      Isa.ApplyMem;
  }

  lemma TrapEntryStep(p: Isa.Program, o: Partition, t: Watched, u: Isa.State, e: Isa.Env)
    requires Sees(o, t, u) && !t.handler && Aligned(u.pc)
    requires Isa.Traps(Isa.Decode(Isa.Fetch(p, t.s.pc)), t.s.csrs, e)
    ensures Sees(o, Watch(p, t, e), u)
  {
    AlignedCleared(u.pc);
    hide SameRegs, SameBytes, Isa.Decode, Isa.Fetch, ClearLow2, Aligned, Isa.Execute, Isa.Traps, Isa.Cause, GetReg;
    hide Isa.Rs1, Isa.Rs2;
  }

  // ---- The theorem ------------------------------------------------------------------------

  /** Whatever the interrupt schedule, after any number of machine steps the main
      program's registers, memory and (resumption) PC are those of its own
      uninterrupted run after as many steps as it has completed. */
  lemma {:induction false} InterruptsTransparent(p: Isa.Program, o: Partition, t: Watched, u: Isa.State,
                                                 es: seq<Isa.Env>)
    requires MainBehaves(p, o, u) && HandlerBehaves(p, o, t, es)
    requires Sees(o, t, Uninterrupted(p, u, t.done))
    ensures var n := WatchRun(p, t, es); Sees(o, n, Uninterrupted(p, u, n.done))
    decreases |es|
  {
    if es != [] {
      var v := Uninterrupted(p, u, t.done);
      assert MainOk(p, o, v);
      if t.handler {
        HandlerStep(p, o, t, v, es[0]);
      } else if Isa.Traps(Isa.Decode(Isa.Fetch(p, t.s.pc)), t.s.csrs, es[0]) {
        TrapEntryStep(p, o, t, v, es[0]);
      } else {
        MainStep(p, o, t, v, es[0]);
        assert Uninterrupted(p, u, t.done + 1) == Isa.Step(p, v, QUIET);
      }
      hide Sees, Isa.Step, Isa.Traps, Isa.Decode, Isa.Fetch, HandlerOk, MainOk, MainBehaves;
      InterruptsTransparent(p, o, Watch(p, t, es[0]), u, es[1..]);
    }
  }

  // ---- On the pipeline ----------------------------------------------------------------------

  lemma {:induction false} WatchRunIsIsaRun(p: Isa.Program, t: Watched, es: seq<Isa.Env>)
    ensures WatchRun(p, t, es).s == IsaRun(p, t.s, es)
    decreases |es|
  {
    hide Isa.Step, Isa.Traps, Isa.Decode, Isa.Fetch;
    if es != [] {
      WatchRunIsIsaRun(p, Watch(p, t, es[0]), es[1..]);
    }
  }

  /** The same for the pipeline, clock by clock: whenever it is stopped, its abstract
      state is what the main program's own run gives after the instructions completed. */
  lemma PipelineTransparent(p: Isa.Program, o: Partition, t: Tracked, u: Isa.State, xs: seq<Inputs>)
    requires Inv(p, t) && NoReset(xs) && AlignedRun(p, Abs(t), Events(p, t, xs))
    requires MainBehaves(p, o, u) && Sees(o, Watched(Abs(t), false, 0), u)
    requires HandlerBehaves(p, o, Watched(Abs(t), false, 0), Events(p, t, xs))
    ensures var n := WatchRun(p, Watched(Abs(t), false, 0), Events(p, t, xs));
      n.s == Abs(Run(p, t, xs)) && Sees(o, n, Uninterrupted(p, u, n.done))
  {
    hide Inv, Abs, Events, Run, IsaRun, AlignedRun, MainBehaves, HandlerBehaves, Sees, Isa.Step, WatchRun;
    var w := Watched(Abs(t), false, 0);
    assert Uninterrupted(p, u, 0) == u;
    RunRefines(p, t, xs);
    WatchRunIsIsaRun(p, w, Events(p, t, xs));
    InterruptsTransparent(p, o, w, u, Events(p, t, xs));
  }
}
