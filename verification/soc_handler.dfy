/**
 What a round of the timer handler leaves behind: its report of the interrupt and the
 deadline it sets, in the order of its stores.
 */
module SocHandler {
  import opened Rv32iPkg
  import Isa = RvIsa
  import opened SocWords
  import opened SocAsm
  import opened SocFirmware
  import opened SocDemo
  import opened RvMemoryWords
  import opened RvRuns

  // ---- The handler, instruction by instruction --------------------------------------------

  lemma HandlerCallsAt()
    ensures var h := HandlerCalls();
      && h[0] == Addi(21, 21, 1) && h[1] == Sw(21, 20, 4)
      && h[2] == CsrReg(Isa.CsrSet, 26, 0x342, 0) && h[3] == Sw(26, 20, 8)
      && h[4] == CsrReg(Isa.CsrSet, 27, 0x341, 0) && h[5] == Sw(27, 20, 12)
      && h[6] == Addi(25, 0, -1) && h[7] == Sw(25, 24, 0) && h[8] == Sw(0, 28, 0)
      && h[9] == Lw(23, 22, 0) && h[10] == Addi(23, 23, 400) && h[11] == Sw(23, 24, 0) && h[12] == Mret
  {
  }

  lemma HandlerDoes(p: Isa.Program, s: Isa.State, e: Isa.Env, i: nat)
    requires Loaded(p) && i < 13 && s.pc == HandlerPc(i) && !s.csrs.mie
    ensures Isa.NextEffect(p, s, e) == Doing(HandlerCalls()[i], s, e)
    ensures i < 12 ==> PcPlus4(s.pc) == HandlerPc(i + 1)
  {
    HandlerCallsAt();
    HandlerFetch(p, i);
    HandlerIndex(i);
    NoInterruptWithoutMie(s.csrs, e);
    hide Loaded, Encode, Isa.Fetch, Isa.NextEffect, Doing, HandlerPc, PcPlus4, Isa.InterruptPending, HandlerCalls,
      Meant;
    DoesAsCalled(p, s, e, HandlerCalls()[i]);
  }

  lemma Constants()
    ensures ToWord(0) == 0 && ToWord(1) == 1 && ToWord(-1) == 0xffff_ffff && ToWord(400) == 400
  {
    assert Low(3) == 3;
    assert Low(25) == 25;
    assert Low(400) == 400;
  }

  lemma CsrNumbers()
    ensures CsrField(0x342) == 0x342 && CsrField(0x341) == 0x341
  {
    assert Low(0x34) == 0x34;
    assert Low(0x342) == 0x342;
    assert Low(0x341) == 0x341;
  }

  lemma Offsets(a: Word)
    ensures Plus(a, 0) == a
  {
  }

  lemma RegsAfter(r: Regs, rd: RegIdx, v: Word)
    requires rd != 0
    ensures forall j: RegIdx :: GetReg(SetReg(r, rd, v), j) == if j == rd then v else GetReg(r, j)
  {
    forall j: RegIdx
      ensures GetReg(SetReg(r, rd, v), j) == if j == rd then v else GetReg(r, j)
    {
      RegFacts(r, rd, j, v);
    }
  }

  const MTIME: Word := 0x4000_bff8
  const DEADLINE_LOW: Word := 0x4000_4000
  const DEADLINE_HIGH: Word := 0x4000_4004

  /** The pointers of the firmware. */
  predicate Pointers(r: Regs) {
    GetReg(r, 20) == 0 && GetReg(r, 22) == MTIME && GetReg(r, 24) == DEADLINE_LOW && GetReg(r, 28) == DEADLINE_HIGH
  }

  function Deadline(m: Memory): Word {
    Plus(ReadWord(m, MTIME), 400)
  }

  // ---- One round of the handler --------------------------------------------------------------

  /** The registers before instruction `i` of a handler entered in state `o`. */
  predicate HandlingRegs(o: Isa.State, r: Regs, i: nat) {
    && Pointers(r)
    && GetReg(r, 1) == GetReg(o.regs, 1)
    && GetReg(r, 21) == (if i == 0 then GetReg(o.regs, 21) else Plus(GetReg(o.regs, 21), 1))
    && (i == 3 ==> GetReg(r, 26) == o.csrs.mcause)
    && (i == 5 ==> GetReg(r, 27) == ClearLow2(o.csrs.mepc))
    && (i == 7 ==> GetReg(r, 25) == 0xffff_ffff)
    && (i == 10 ==> GetReg(r, 23) == ReadWord(o.mem, MTIME))
    && (i == 11 ==> GetReg(r, 23) == Deadline(o.mem))
  }

  ghost predicate Handling(o: Isa.State, s: Isa.State, i: nat) {
    && i <= 13 && HandlingRegs(o, s.regs, i)
    && ReadWord(s.mem, MTIME) == ReadWord(o.mem, MTIME)
    && !o.csrs.mie
    && (if i < 13 then s.pc == HandlerPc(i) && s.csrs == o.csrs
        else s.pc == ClearLow2(o.csrs.mepc) && s.csrs == o.csrs.(mie := o.csrs.mpie, mpie := true))
  }

  function WordStore(a: Word, w: Word): Isa.MemEffect {
    Isa.StoreMem(Isa.StoreWord, a, w)
  }

  /** What instruction `i` of the handler stores. */
  function Reported(o: Isa.State, i: nat): Isa.MemEffect {
    match i
    case 1 => WordStore(4, Plus(GetReg(o.regs, 21), 1))
    case 3 => WordStore(8, o.csrs.mcause)
    case 5 => WordStore(12, ClearLow2(o.csrs.mepc))
    case 7 => WordStore(DEADLINE_LOW, 0xffff_ffff)
    case 8 => WordStore(DEADLINE_HIGH, 0)
    case 11 => WordStore(DEADLINE_LOW, Deadline(o.mem))
    case _ => Isa.NoMem
  }

  /** The effect of instruction `i`: at most one register, the store above, and the CSRs
      only at the end. */
  lemma HandlerEffect(p: Isa.Program, o: Isa.State, s: Isa.State, e: Isa.Env, i: nat)
    requires Loaded(p) && Handling(o, s, i) && i < 13
    ensures Isa.NextEffect(p, s, e) == Doing(HandlerCalls()[i], s, e)
    ensures Isa.NextEffect(p, s, e).mem == Reported(o, i)
  {
    hide Loaded, Isa.NextEffect, HandlerCalls, Doing, Reported, HandlingRegs, HandlerPc, PcPlus4, ReadWord;
    HandlerDoes(p, s, e, i);
    HandlerStoreAt(o, s, e, i);
  }

  lemma HandlerStoreAt(o: Isa.State, s: Isa.State, e: Isa.Env, i: nat)
    requires HandlingRegs(o, s.regs, i) && i < 13
    ensures Doing(HandlerCalls()[i], s, e).mem == Reported(o, i)
  {
    hide ToWord, Plus, GetReg, PcPlus4, ClearLow2, ReadWord, HandlerCalls, CsrField, Isa.ReadCsr, Deadline;
    HandlerCallsAt();
    SmallOffsets();
    ZeroRegister(s.regs);
  }

  lemma HandlerWrites(o: Isa.State, s: Isa.State, e: Isa.Env, i: nat)
    requires Handling(o, s, i) && i < 13
    ensures var r := Isa.ApplyReg(s.regs, s.mem, Doing(HandlerCalls()[i], s, e).reg);
      HandlingRegs(o, r, i + 1)
  {
    hide Plus, GetReg, SetReg, ClearLow2, ReadWord, HandlerPc, HandlerCalls, Doing;
    HandlerValue(o, s, e, i);
    var fx := Doing(HandlerCalls()[i], s, e).reg;
    if fx.WriteReg? {
      RegsAfter(s.regs, fx.rd, fx.value);
    } else if fx.LoadReg? {
      RegsAfter(s.regs, fx.rd, Isa.LoadValue(fx.kind, s.mem, fx.addr));
    }
  }

  /** The register that instruction `i` writes, and what. */
  lemma HandlerValue(o: Isa.State, s: Isa.State, e: Isa.Env, i: nat)
    requires Pointers(s.regs) && s.csrs == o.csrs && i < 13
    ensures Doing(HandlerCalls()[i], s, e).reg ==
      match i
      case 0 => Isa.WriteReg(21, Plus(GetReg(s.regs, 21), 1))
      case 2 => Isa.WriteReg(26, o.csrs.mcause)
      case 4 => Isa.WriteReg(27, ClearLow2(o.csrs.mepc))
      case 6 => Isa.WriteReg(25, 0xffff_ffff)
      case 9 => Isa.LoadReg(23, Isa.LoadWord, MTIME)
      case 10 => Isa.WriteReg(23, Plus(GetReg(s.regs, 23), 400))
      case _ => Isa.NoReg
  {
    hide ToWord, Plus, GetReg, PcPlus4, ClearLow2, HandlerCalls, CsrField;
    HandlerCallsAt();
    Constants();
    CsrNumbers();
    Offsets(MTIME);
    ZeroPlus(0xffff_ffff);
    ZeroRegister(s.regs);
  }

  lemma ZeroPlus(a: Word)
    ensures Plus(0, a) == a
  {
  }

  lemma TimeKept(m: Memory, fx: Isa.MemEffect, o: Isa.State, i: nat)
    requires fx == Reported(o, i)
    ensures ReadWord(Isa.ApplyMem(m, fx), MTIME) == ReadWord(m, MTIME)
  {
    hide ReadWord, Plus, GetReg, ClearLow2, Deadline, Isa.StoreValue;
    if fx.StoreMem? {
      WordAligned(o, i);
      StoreReads(m, fx.addr, fx.value, MTIME);
    }
  }

  lemma WordAligned(o: Isa.State, i: nat)
    ensures Reported(o, i).StoreMem? ==> Aligned(Reported(o, i).addr) && Reported(o, i).addr != MTIME
    ensures Aligned(MTIME)
  {
    hide ReadWord, Plus, GetReg, ClearLow2, Deadline;
  }

  /** Where instruction `i` goes and what it does to the CSRs. */
  lemma HandlerFlow(s: Isa.State, e: Isa.Env, i: nat)
    requires i < 13
    ensures var fx := Doing(HandlerCalls()[i], s, e);
      if i < 12 then fx.next == PcPlus4(s.pc) && fx.csrs == s.csrs
      else fx.next == ClearLow2(s.csrs.mepc) && fx.csrs == s.csrs.(mie := s.csrs.mpie, mpie := true)
  {
    HandlerCallsAt();
    hide HandlerCalls, ToWord, Plus, GetReg, PcPlus4, ClearLow2, CsrField, Isa.ReadCsr;
  }

  lemma HandlerStep(p: Isa.Program, o: Isa.State, s: Isa.State, e: Isa.Env, i: nat)
    requires Loaded(p) && Handling(o, s, i) && i < 13
    ensures Handling(o, Isa.Step(p, s, e), i + 1)
    ensures Stored(Isa.NextEffect(p, s, e).mem) == Stored(Reported(o, i))
  {
    HandlerEffect(p, o, s, e, i);
    HandlerWrites(o, s, e, i);
    HandlerDoes(p, s, e, i);
    HandlerFlow(s, e, i);
    TimeKept(s.mem, Reported(o, i), o, i);
    hide Loaded, Isa.NextEffect, ToWord, Plus, GetReg, SetReg, PcPlus4, ClearLow2, ReadWord, HandlerPc, HandlerCalls,
      CsrField, Isa.ReadCsr, Deadline, Reported, Isa.ApplyMem, Isa.ApplyReg, HandlingRegs, Doing;
  }

  /** The stores of the handler from instruction `i` on. */
  function ReportsFrom(o: Isa.State, i: nat): seq<Isa.MemEffect>
    requires i <= 13
    decreases 13 - i
  {
    if i == 13 then [] else Stored(Reported(o, i)) + ReportsFrom(o, i + 1)
  }

  lemma {:induction false} HandlerRunsOn(p: Isa.Program, o: Isa.State, s: Isa.State, es: seq<Isa.Env>, i: nat)
    requires Loaded(p) && Handling(o, s, i) && i + |es| == 13
    ensures Handling(o, IsaRun(p, s, es), 13)
    ensures IsaStores(p, s, es) == ReportsFrom(o, i)
    decreases |es|
  {
    hide Loaded, Handling, Isa.NextEffect, Isa.Step, Reported, Stored;
    if es != [] {
      HandlerStep(p, o, s, es[0], i);
      HandlerRunsOn(p, o, Isa.Step(p, s, es[0]), es[1..], i + 1);
    }
  }

  /** The memory after a sequence of stores. */
  function AfterStores(m: Memory, fx: seq<Isa.MemEffect>): Memory
    decreases |fx|
  {
    if fx == [] then m else AfterStores(Isa.ApplyMem(m, fx[0]), fx[1..])
  }

  /** On any run the memory is what its stores make of it. */
  lemma {:induction false} MemoryIsStores(p: Isa.Program, s: Isa.State, es: seq<Isa.Env>)
    ensures IsaRun(p, s, es).mem == AfterStores(s.mem, IsaStores(p, s, es))
    decreases |es|
  {
    hide Isa.NextEffect, Isa.StoreValue, Isa.ApplyReg;
    if es != [] {
      var fx := Isa.NextEffect(p, s, es[0]).mem;
      var rest := IsaStores(p, Isa.Step(p, s, es[0]), es[1..]);
      MemoryIsStores(p, Isa.Step(p, s, es[0]), es[1..]);
      assert fx.StoreMem? ==> ([fx] + rest)[1..] == rest;
      assert [] + rest == rest;
    }
  }

  /** The six stores of a round, in order. */
  function Reports(o: Isa.State): seq<Isa.MemEffect> {
    [WordStore(4, Plus(GetReg(o.regs, 21), 1)), WordStore(8, o.csrs.mcause), WordStore(12, ClearLow2(o.csrs.mepc)),
     WordStore(DEADLINE_LOW, 0xffff_ffff), WordStore(DEADLINE_HIGH, 0), WordStore(DEADLINE_LOW, Deadline(o.mem))]
  }

  lemma AllReports(o: Isa.State)
    ensures ReportsFrom(o, 0) == Reports(o)
  {
    hide Plus, GetReg, ClearLow2, Deadline;
    assert ReportsFrom(o, 12) == [];
    assert ReportsFrom(o, 9) == [Reported(o, 11)];
    assert ReportsFrom(o, 6) == [Reported(o, 7), Reported(o, 8), Reported(o, 11)];
    assert ReportsFrom(o, 3) == [Reported(o, 3), Reported(o, 5), Reported(o, 7), Reported(o, 8), Reported(o, 11)];
  }

  lemma SixStores(m: Memory, fx: seq<Isa.MemEffect>)
    requires |fx| == 6
    ensures AfterStores(m, fx)
         == Isa.ApplyMem(Isa.ApplyMem(Isa.ApplyMem(Isa.ApplyMem(Isa.ApplyMem(Isa.ApplyMem(m,
              fx[0]), fx[1]), fx[2]), fx[3]), fx[4]), fx[5])
  {
    hide Isa.ApplyMem;
    var m1 := Isa.ApplyMem(m, fx[0]);
    var m2 := Isa.ApplyMem(m1, fx[1]);
    var m3 := Isa.ApplyMem(m2, fx[2]);
    var m4 := Isa.ApplyMem(m3, fx[3]);
    assert fx[1..][1..] == fx[2..] && fx[2..][1..] == fx[3..] && fx[3..][1..] == fx[4..];
    assert AfterStores(m, fx) == AfterStores(m2, fx[2..]);
    assert AfterStores(m2, fx[2..]) == AfterStores(m3, fx[3..]);
    assert AfterStores(m3, fx[3..]) == AfterStores(m4, fx[4..]);
    assert fx[4..] == [fx[4], fx[5]] && [fx[4], fx[5]][1..] == [fx[5]] && [fx[5]][1..] == [];
    LastStores(m4, fx[4], fx[5]);
  }

  lemma LastStores(m: Memory, x: Isa.MemEffect, y: Isa.MemEffect)
    ensures AfterStores(m, [x, y]) == Isa.ApplyMem(Isa.ApplyMem(m, x), y)
  {
    hide Isa.ApplyMem;
    assert [x, y][1..] == [y] && [y][1..] == [];
    assert AfterStores(Isa.ApplyMem(m, x), [y]) == Isa.ApplyMem(Isa.ApplyMem(m, x), y);
  }

  /** What the reports leave at any word. */
  lemma ReportsRead(o: Isa.State, a: Word)
    requires Aligned(a)
    ensures ReadWord(AfterStores(o.mem, Reports(o)), a)
         == if a == DEADLINE_LOW then Deadline(o.mem)
            else if a == DEADLINE_HIGH then 0
            else if a == 12 then ClearLow2(o.csrs.mepc)
            else if a == 8 then o.csrs.mcause
            else if a == 4 then Plus(GetReg(o.regs, 21), 1)
            else ReadWord(o.mem, a)
  {
    hide ReadWord, Plus, GetReg, ClearLow2, Deadline, Isa.StoreValue, AfterStores;
    var f := Reports(o);
    SixStores(o.mem, f);
    var m1 := Isa.ApplyMem(o.mem, f[0]);
    var m2 := Isa.ApplyMem(m1, f[1]);
    var m3 := Isa.ApplyMem(m2, f[2]);
    var m4 := Isa.ApplyMem(m3, f[3]);
    var m5 := Isa.ApplyMem(m4, f[4]);
    StoreReads(o.mem, 4, f[0].value, a);
    StoreReads(m1, 8, f[1].value, a);
    StoreReads(m2, 12, f[2].value, a);
    StoreReads(m3, DEADLINE_LOW, f[3].value, a);
    StoreReads(m4, DEADLINE_HIGH, f[4].value, a);
    StoreReads(m5, DEADLINE_LOW, f[5].value, a);
  }

  /** One round of the handler, whatever the interrupt lines do: the ticks go to RAM word 1,
      the cause to word 2, the resumption address to word 3; the deadline is parked at its
      maximum, its high half cleared and its low half set 400 after `mtime`, in that order;
      no other word changes; and MRET resumes with interrupts as they were. */
  lemma HandlerReports(p: Isa.Program, s: Isa.State, es: seq<Isa.Env>, a: Word)
    requires Loaded(p) && s.pc == 4 && !s.csrs.mie && Pointers(s.regs) && |es| == 13 && Aligned(a)
    ensures var n := IsaRun(p, s, es);
      && n.pc == ClearLow2(s.csrs.mepc) && n.csrs == s.csrs.(mie := s.csrs.mpie, mpie := true)
      && GetReg(n.regs, 21) == Plus(GetReg(s.regs, 21), 1) && GetReg(n.regs, 1) == GetReg(s.regs, 1)
      && Pointers(n.regs)
      && ReadWord(n.mem, a)
         == if a == 4 then Plus(GetReg(s.regs, 21), 1)
            else if a == 8 then s.csrs.mcause
            else if a == 12 then ClearLow2(s.csrs.mepc)
            else if a == 0x4000_4000 then Plus(ReadWord(s.mem, 0x4000_bff8), 400)
            else if a == 0x4000_4004 then 0
            else ReadWord(s.mem, a)
    ensures IsaStores(p, s, es) ==
      [WordStore(4, Plus(GetReg(s.regs, 21), 1)), WordStore(8, s.csrs.mcause), WordStore(12, ClearLow2(s.csrs.mepc)),
       WordStore(0x4000_4000, 0xffff_ffff), WordStore(0x4000_4004, 0),
       WordStore(0x4000_4000, Plus(ReadWord(s.mem, 0x4000_bff8), 400))]
  {
    hide Loaded, ReadWord, Plus, GetReg, ClearLow2, IsaRun, IsaStores, AfterStores, ReportsFrom, Pointers, HandlerPc,
      Aligned, Handling;
    HandlingEnds(s, IsaRun(p, s, es));
    HandlerRunsOn(p, s, s, es, 0);
    MemoryIsStores(p, s, es);
    AllReports(s);
    ReportsRead(s, a);
  }

  lemma HandlingEnds(o: Isa.State, n: Isa.State)
    ensures o.pc == 4 && !o.csrs.mie && Pointers(o.regs) ==> Handling(o, o, 0)
    ensures Handling(o, n, 13) ==>
      && n.pc == ClearLow2(o.csrs.mepc) && n.csrs == o.csrs.(mie := o.csrs.mpie, mpie := true)
      && GetReg(n.regs, 21) == Plus(GetReg(o.regs, 21), 1) && GetReg(n.regs, 1) == GetReg(o.regs, 1)
      && Pointers(n.regs)
  {
    hide ReadWord, Plus, GetReg, ClearLow2, HandlerPc, Pointers;
    FirstHandlerPc();
  }
}
