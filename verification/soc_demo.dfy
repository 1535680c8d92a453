/**
 The timer demonstration under any interrupt schedule: the word its loop stores counts
 1, 2, 3, ... exactly as if nothing had interrupted it.
 */
module SocDemo {
  import opened Basics
  import opened Rv32iPkg
  import Isa = RvIsa
  import opened SocWords
  import opened SocFields
  import opened SocAsm
  import opened SocProgram
  import opened SocFirmware
  import opened RvMemoryWords
  import opened RvTransparency
  import RvRuns
  import RvRefinement
  import RvCore

  /** The instruction memory starts with the assembled demonstration. */
  ghost predicate Loaded(p: Isa.Program) {
    var r := ResolveAll(DemoEntries(), DemoLabels());
    r.Some? && forall j :: 0 <= j < 36 ==> p[j] == r.value[j]
  }

  lemma DemoAssembles()
    ensures ResolveAll(DemoEntries(), DemoLabels()).Some?
  {
    hide Encode, HandlerCalls, StartCalls, WordB, ToWord;
  }

  function HandlerPc(i: nat): Word
    requires i < 13
  {
    match i
    case 0 => 0x04 case 1 => 0x08 case 2 => 0x0c case 3 => 0x10 case 4 => 0x14 case 5 => 0x18 case 6 => 0x1c
    case 7 => 0x20 case 8 => 0x24 case 9 => 0x28 case 10 => 0x2c case 11 => 0x30 case _ => 0x34
  }

  /** The instruction that clears x1, then the three of the loop. */
  function MainPc(i: nat): Word
    requires i < 4
  {
    match i case 0 => 0x80 case 1 => 0x84 case 2 => 0x88 case _ => 0x8c
  }

  lemma HandlerIndex(i: nat)
    requires i < 13
    ensures ((HandlerPc(i) >> 2) & 0x3ff) as nat == i + 1
    ensures i < 12 ==> PcPlus4(HandlerPc(i)) == HandlerPc(i + 1)
  {
  }

  lemma MainIndex(i: nat)
    requires i < 4
    ensures ((MainPc(i) >> 2) & 0x3ff) as nat == i + 32
    ensures i < 3 ==> PcPlus4(MainPc(i)) == MainPc(i + 1)
    ensures Aligned(MainPc(i)) && ClearLow2(MainPc(i)) == MainPc(i)
  {
  }

  function MainCalls(): (s: seq<Call>)
    ensures |s| == 3
  {
    [Addi(1, 0, 0), Addi(1, 1, 1), Sw(1, 20, 0)]
  }

  lemma DemoWords(p: Isa.Program, j: nat)
    requires Loaded(p) && j < 36
    ensures j == 0 ==> p[j] == WordB(ToWord(56), 0, 0, 0)
    ensures 1 <= j < 14 ==> p[j] == Encode(HandlerCalls()[j - 1])
    ensures 14 <= j < 33 ==> p[j] == Encode(StartCalls()[j - 14])
    ensures 33 <= j < 35 ==> p[j] == Encode(MainCalls()[j - 32])
    ensures j == 35 ==> p[j] == WordB(ToWord(-8), 0, 0, 0)
  {
    hide Encode, HandlerCalls, StartCalls, WordB, ToWord;
    assert ResolveEntry(DemoEntries()[j], DemoLabels()) == Some(p[j]);
  }

  lemma HandlerFetch(p: Isa.Program, i: nat)
    requires Loaded(p) && i < 13
    ensures Isa.Fetch(p, HandlerPc(i)) == Encode(HandlerCalls()[i])
  {
    hide Encode, HandlerCalls, Loaded, HandlerPc;
    HandlerIndex(i);
    DemoWords(p, i + 1);
  }

  lemma MainFetch(p: Isa.Program, i: nat)
    requires Loaded(p) && i < 4
    ensures i < 3 ==> Isa.Fetch(p, MainPc(i)) == Encode(MainCalls()[i])
    ensures i == 3 ==> Isa.Fetch(p, MainPc(i)) == WordB(ToWord(-8), 0, 0, 0)
  {
    LastStartCall();
    hide Encode, MainCalls, StartCalls, Loaded, MainPc, WordB, ToWord;
    MainIndex(i);
    DemoWords(p, i + 32);
  }

  lemma LastStartCall()
    ensures StartCalls()[18] == MainCalls()[0]
  {
  }

  // ---- What one instruction does ------------------------------------------------------------

  /** The effect of an assembled instruction that no interrupt replaces. */
  function Doing(x: Call, s: Isa.State, e: Isa.Env): Isa.Effect {
    var next := PcPlus4(s.pc);
    match x
    case Addi(rd, rs1, imm) =>
      Isa.Effect(next, Isa.WriteReg(rd, Plus(GetReg(s.regs, rs1), ToWord(imm))), Isa.NoMem, s.csrs)
    case Sw(rs2, rs1, imm) =>
      Isa.Effect(next, Isa.NoReg,
        Isa.StoreMem(Isa.StoreWord, Plus(GetReg(s.regs, rs1), ToWord(imm)), GetReg(s.regs, rs2)), s.csrs)
    case Lw(rd, rs1, imm) =>
      Isa.Effect(next, Isa.LoadReg(rd, Isa.LoadWord, Plus(GetReg(s.regs, rs1), ToWord(imm))), Isa.NoMem, s.csrs)
    case CsrReg(_, rd, csr, _) =>
      Isa.Effect(next, Isa.WriteReg(rd, Isa.ReadCsr(s.csrs, e, CsrField(csr))), Isa.NoMem, s.csrs)
    case _ => Isa.Effect(ClearLow2(s.csrs.mepc), Isa.NoReg, Isa.NoMem, Isa.ReturnFromTrap(s.csrs))
  }

  predicate Plain(x: Call) {
    x.Addi? || x.Sw? || x.Lw? || x.Mret? || (x.CsrReg? && x.op.CsrSet? && x.rs1 == 0)
  }

  lemma DoesAsCalled(p: Isa.Program, s: Isa.State, e: Isa.Env, x: Call)
    requires Isa.Fetch(p, s.pc) == Encode(x) && Accepts(x) && Plain(x)
    requires !Isa.InterruptPending(s.csrs, e)
    ensures Isa.NextEffect(p, s, e) == Doing(x, s, e)
    ensures Isa.Decode(Encode(x)) == Meant(x)
  {
    hide Encode, Isa.Fetch, Isa.Decode, ToWord, Upper, CsrField, PcPlus4, SetReg, GetReg, Isa.InterruptPending;
    hide Isa.Rs1, Isa.Rs2, Plus, ClearLow2, Isa.ReadCsr;
    DecodesAsMeant(x);
  }

  // ---- The main program alone -------------------------------------------------------------------------

  /** The main program owns x1, x20 and the first word of RAM. */
  function Owned(): Partition {
    Partition(r => r == 1 || r == 20, a => a < 4)
  }

  /** Where the main program is after `k` instructions. */
  function MainSlot(k: nat): (i: nat)
    ensures i < 4
  {
    if k == 0 then 0 else 1 + (k - 1) % 3
  }

  /** After `k` uninterrupted instructions from the one that clears x1. */
  ghost predicate MainState(u: Isa.State, k: nat) {
    && u.pc == MainPc(MainSlot(k))
    && GetReg(u.regs, 20) == 0
    && (k > 0 ==> GetReg(u.regs, 1) == ToWord((k + 1) / 3))
    && ReadWord(u.mem, 0) == ToWord(k / 3)
  }

  lemma RegFacts(r: Regs, i: RegIdx, j: RegIdx, v: Word)
    ensures GetReg(SetReg(r, i, v), j) == if i == j && i != 0 then v else GetReg(r, j)
  {
  }

  lemma BranchBack()
    ensures Plus(0x8c, ToWord(-8)) == 0x84
  {
    assert Low(8) == 8;
  }

  lemma LoopBranch(p: Isa.Program, s: Isa.State, e: Isa.Env)
    requires Isa.Fetch(p, s.pc) == WordB(ToWord(-8), 0, 0, 0) && s.pc == 0x8c
    ensures var w := Isa.Fetch(p, s.pc);
      && Isa.Decode(w) == Isa.Branch(Isa.Eq, ToWord(-8)) && Isa.Rs1(w) == 0 && Isa.Rs2(w) == 0
      && (!Isa.InterruptPending(s.csrs, e) ==>
           Isa.NextEffect(p, s, e) == Isa.Effect(0x84, Isa.NoReg, Isa.NoMem, s.csrs))
  {
    hide WordB, Isa.Fetch, Isa.Decode, ToWord, PcPlus4, GetReg, Isa.InterruptPending, Isa.Rs1, Isa.Rs2, Plus;
    BranchDecodes(-8, true, 0, 0);
    BranchBack();
  }

  lemma WordStored(m: Memory, w: Word)
    ensures ReadWord(Isa.StoreValue(Isa.StoreWord, m, 0, w), 0) == w
  {
    hide Isa.StoreValue, ReadWord;
    StoreReads(m, 0, w, 0);
  }

  lemma CountNext(c: nat)
    ensures Plus(ToWord(c), ToWord(1)) == ToWord(c + 1)
    ensures Plus(0, ToWord(0)) == 0
  {
    hide Plus, ToWord;
    ToWordSum(c, 1);
    ToWordSum(0, 0);
    LowZero();
    assert ToWord(0) == 0 && Plus(0, 0) == 0 by { ZeroWord(); }
  }

  lemma ZeroWord()
    ensures ToWord(0) == 0 && Plus(0, 0) == 0
  {
  }

  lemma MainStepCounts(p: Isa.Program, u: Isa.State, k: nat)
    requires Loaded(p) && MainState(u, k)
    ensures MainState(Isa.Step(p, u, QUIET), k + 1)
  {
    hide Loaded, Encode, WordB, ToWord, Plus, PcPlus4, SetReg, GetReg, ReadWord, Isa.Fetch, Isa.Decode, Isa.NextEffect,
      Isa.StoreValue, MainPc;
    var i := MainSlot(k);
    MainFetch(p, i);
    MainIndex(i);
    MainPcs();
    NothingPending(u.csrs);
    CountNext(0);
    if i == 0 {
      DoesAsCalled(p, u, QUIET, Addi(1, 0, 0));
      ZeroRegister(u.regs);
      ZeroWord();
      RegFacts(u.regs, 1, 1, 0);
      RegFacts(u.regs, 1, 20, 0);
    } else if i == 1 {
      DoesAsCalled(p, u, QUIET, Addi(1, 1, 1));
      CountNext((k + 1) / 3);
      RegFacts(u.regs, 1, 1, ToWord((k + 1) / 3 + 1));
      RegFacts(u.regs, 1, 20, ToWord((k + 1) / 3 + 1));
    } else if i == 2 {
      DoesAsCalled(p, u, QUIET, Sw(1, 20, 0));
      WordStored(u.mem, GetReg(u.regs, 1));
    } else {
      LoopBranch(p, u, QUIET);
    }
  }

  lemma ZeroRegister(r: Regs)
    ensures GetReg(r, 0) == 0
  {
  }

  lemma MainPcs()
    ensures MainPc(0) == 0x80 && MainPc(1) == 0x84 && MainPc(3) == 0x8c
  {
  }

  lemma NothingPending(c: Isa.Csrs)
    ensures !Isa.InterruptPending(c, QUIET)
  {
    hide Bit;
  }

  lemma MainStateOk(p: Isa.Program, u: Isa.State, k: nat)
    requires Loaded(p) && MainState(u, k)
    ensures MainOk(p, Owned(), u)
  {
    hide Loaded, Encode, WordB, ToWord, Plus, GetReg, ReadWord, Isa.Fetch, Isa.Decode, Aligned, Isa.Rs1, Isa.Rs2,
      MainPc;
    var i := MainSlot(k);
    MainFetch(p, i);
    MainIndex(i);
    MainPcs();
    if i < 3 {
      DecodesAsMeant(MainCalls()[i]);
    } else {
      LoopBranch(p, u, QUIET);
    }
  }

  lemma {:induction false} MainRuns(p: Isa.Program, u: Isa.State, k: nat)
    requires Loaded(p) && MainState(u, 0)
    ensures MainState(Uninterrupted(p, u, k), k)
    ensures MainOk(p, Owned(), Uninterrupted(p, u, k))
  {
    hide Loaded, MainState, MainOk, Isa.Step;
    if k > 0 {
      MainRuns(p, u, k - 1);
      MainStepCounts(p, Uninterrupted(p, u, k - 1), k - 1);
    }
    MainStateOk(p, Uninterrupted(p, u, k), k);
  }

  // ---- The handler ---------------------------------------------------------------------------

  /** The pointers the start-up code set, and where control can be. */
  ghost predicate Running(t: Watched) {
    var s := t.s;
    && GetReg(s.regs, 20) == 0 && GetReg(s.regs, 24) == 0x4000_4000 && GetReg(s.regs, 28) == 0x4000_4004
    && ClearLow2(s.csrs.mtvec) == 4
    && (if t.handler
        then !s.csrs.mie && (exists i :: 0 <= i < 13 && s.pc == HandlerPc(i))
             && (exists j :: 0 <= j < 4 && s.csrs.mepc == MainPc(j))
        else exists j :: 0 <= j < 4 && s.pc == MainPc(j))
  }

  /** Stores of the handler: three words of RAM above the loop's, and two outside RAM. */
  predicate Elsewhere(a: Word) {
    a == 4 || a == 8 || a == 12 || a == 0x4000_4000 || a == 0x4000_4004
  }

  lemma ElsewhereOutside(a: Word)
    requires Elsewhere(a)
    ensures StoreOutside(Owned(), Isa.StoreWord, a)
  {
  }

  lemma SmallOffsets()
    ensures Plus(0, ToWord(4)) == 4 && Plus(0, ToWord(8)) == 8 && Plus(0, ToWord(12)) == 12
    ensures Plus(0x4000_4000, ToWord(0)) == 0x4000_4000 && Plus(0x4000_4004, ToWord(0)) == 0x4000_4004
  {
    assert Low(4) == 4;
  }

  /** Each handler instruction keeps out of what the loop and the handler rely on. */
  predicate Polite(x: Call, s: Isa.State) {
    && Accepts(x) && Plain(x)
    && (x.Addi? || x.Lw? || x.CsrReg? ==> x.rd != 1 && x.rd != 20 && x.rd != 24 && x.rd != 28)
    && (x.Sw? ==> Elsewhere(Plus(GetReg(s.regs, x.rs1), ToWord(x.imm))))
  }

  lemma HandlerPolite(t: Watched, i: nat)
    requires Running(t) && i < 13
    ensures Polite(HandlerCalls()[i], t.s)
    ensures HandlerCalls()[i].Mret? <==> i == 12
  {
    hide Encode, ToWord, Plus, GetReg, MainPc, HandlerPc, Elsewhere, ClearLow2;
    SmallOffsets();
    ElsewhereValues();
  }

  lemma ElsewhereValues()
    ensures Elsewhere(4) && Elsewhere(8) && Elsewhere(12) && Elsewhere(0x4000_4000) && Elsewhere(0x4000_4004)
  {
  }

  lemma NoInterruptWithoutMie(c: Isa.Csrs, e: Isa.Env)
    requires !c.mie
    ensures !Isa.InterruptPending(c, e)
  {
  }

  lemma PoliteOk(p: Isa.Program, s: Isa.State, e: Isa.Env, x: Call)
    requires Isa.Fetch(p, s.pc) == Encode(x) && Polite(x, s) && !s.csrs.mie
    ensures HandlerOk(p, Owned(), s, e)
    ensures Isa.Decode(Isa.Fetch(p, s.pc)).Mret? <==> x.Mret?
    ensures Isa.NextEffect(p, s, e) == Doing(x, s, e)
  {
    hide Encode, ToWord, Plus, GetReg, Isa.Fetch, Isa.Decode, Isa.NextEffect, PcPlus4, ClearLow2, Elsewhere,
      StoreOutside, Isa.ReadCsr, CsrField, Isa.InterruptPending;
    NoInterruptWithoutMie(s.csrs, e);
    DoesAsCalled(p, s, e, x);
    if x.Sw? {
      ElsewhereOutside(Plus(GetReg(s.regs, x.rs1), ToWord(x.imm)));
    }
  }

  lemma PointersKept(r: Regs, rd: RegIdx, v: Word)
    requires rd != 20 && rd != 24 && rd != 28
    ensures GetReg(SetReg(r, rd, v), 20) == GetReg(r, 20)
    ensures GetReg(SetReg(r, rd, v), 24) == GetReg(r, 24)
    ensures GetReg(SetReg(r, rd, v), 28) == GetReg(r, 28)
  {
  }

  lemma PoliteKeepsPointers(s: Isa.State, e: Isa.Env, x: Call)
    requires Polite(x, s)
    ensures var r := Isa.ApplyReg(s.regs, s.mem, Doing(x, s, e).reg);
      GetReg(r, 20) == GetReg(s.regs, 20) && GetReg(r, 24) == GetReg(s.regs, 24) && GetReg(r, 28) == GetReg(s.regs, 28)
  {
    hide ToWord, Plus, GetReg, SetReg, PcPlus4, ClearLow2, Elsewhere, Isa.ReadCsr, CsrField, Isa.LoadValue;
    match x
    case Addi(rd, rs1, imm) => PointersKept(s.regs, rd, Plus(GetReg(s.regs, rs1), ToWord(imm)));
    case Lw(rd, rs1, imm) =>
      PointersKept(s.regs, rd, Isa.LoadValue(Isa.LoadWord, s.mem, Plus(GetReg(s.regs, rs1), ToWord(imm))));
    case CsrReg(_, rd, csr, _) => PointersKept(s.regs, rd, Isa.ReadCsr(s.csrs, e, CsrField(csr)));
    case _ =>
  }

  lemma HandlerRuns(p: Isa.Program, t: Watched, e: Isa.Env)
    requires Loaded(p) && Running(t) && t.handler
    ensures HandlerOk(p, Owned(), t.s, e)
    ensures Running(Watch(p, t, e))
  {
    hide Loaded, Encode, ToWord, Plus, GetReg, SetReg, Isa.Fetch, Isa.Decode, Isa.NextEffect, PcPlus4, ClearLow2,
      HandlerOk, Elsewhere, Isa.ReadCsr, CsrField, MainPc, HandlerPc, HandlerCalls, Isa.ApplyReg, Isa.ApplyMem;
    var i :| 0 <= i < 13 && t.s.pc == HandlerPc(i);
    var j :| 0 <= j < 4 && t.s.csrs.mepc == MainPc(j);
    HandlerFetch(p, i);
    HandlerPolite(t, i);
    var x := HandlerCalls()[i];
    PoliteOk(p, t.s, e, x);
    HandlerIndex(i);
    MainIndex(j);
    PoliteKeepsPointers(t.s, e, x);
    var n := Watch(p, t, e);
    if x.Mret? {
      assert n.s.pc == MainPc(j);
    } else {
      assert n.s.pc == HandlerPc(i + 1) && n.s.csrs == t.s.csrs;
    }
  }

  lemma TrapRuns(p: Isa.Program, t: Watched, e: Isa.Env)
    requires Running(t) && !t.handler
    requires Isa.Traps(Isa.Decode(Isa.Fetch(p, t.s.pc)), t.s.csrs, e)
    ensures Running(Watch(p, t, e))
  {
    hide GetReg, Isa.Fetch, Isa.Decode, ClearLow2, MainPc, HandlerPc, Isa.Traps, Isa.Cause, Isa.Execute, Isa.Rs1,
      Isa.Rs2;
    var j :| 0 <= j < 4 && t.s.pc == MainPc(j);
    MainIndex(j);
    assert HandlerPc(0) == 4 by { FirstHandlerPc(); }
  }

  lemma FirstHandlerPc()
    ensures HandlerPc(0) == 4
  {
  }

  lemma MainStepRuns(p: Isa.Program, t: Watched, e: Isa.Env)
    requires Loaded(p) && Running(t) && !t.handler
    requires !Isa.Traps(Isa.Decode(Isa.Fetch(p, t.s.pc)), t.s.csrs, e)
    ensures Running(Watch(p, t, e))
  {
    hide Loaded, Encode, ToWord, Plus, GetReg, SetReg, Isa.Fetch, Isa.Decode, Isa.NextEffect, PcPlus4, ClearLow2,
      MainPc, Isa.StoreValue, WordB, Isa.InterruptPending, Isa.Rs1, Isa.Rs2;
    var j :| 0 <= j < 4 && t.s.pc == MainPc(j);
    MainFetch(p, j);
    MainIndex(j);
    MainPcs();
    if j < 3 {
      var x := MainCalls()[j];
      DecodesAsMeant(x);
      DoesAsCalled(p, t.s, e, x);
      PointersKept(t.s.regs, 1, Plus(GetReg(t.s.regs, if j == 0 then 0 else 1), ToWord(if j == 0 then 0 else 1)));
    } else {
      LoopBranch(p, t.s, e);
    }
  }

  lemma {:induction false} DemoBehaves(p: Isa.Program, t: Watched, es: seq<Isa.Env>)
    requires Loaded(p) && Running(t)
    ensures HandlerBehaves(p, Owned(), t, es)
    decreases |es|
  {
    hide Loaded, Running, HandlerOk, Isa.Step, Watch, Isa.Traps, Isa.Decode, Isa.Fetch;
    if es != [] {
      if t.handler {
        HandlerRuns(p, t, es[0]);
      } else if Isa.Traps(Isa.Decode(Isa.Fetch(p, t.s.pc)), t.s.csrs, es[0]) {
        TrapRuns(p, t, es[0]);
      } else {
        MainStepRuns(p, t, es[0]);
      }
      DemoBehaves(p, Watch(p, t, es[0]), es[1..]);
    }
  }

  // ---- The count ---------------------------------------------------------------------------------

  lemma BytesAgree(m: Memory, n: Memory)
    requires SameBytes(Owned(), m, n)
    ensures ReadWord(m, 0) == ReadWord(n, 0)
  {
    hide Cat, ByteAt;
    assert Lane(0, 0) == 0 && Lane(0, 1) == 1 && Lane(0, 2) == 2 && Lane(0, 3) == 3;
  }

  lemma MainProgramBehaves(p: Isa.Program, u: Isa.State)
    requires Loaded(p) && MainState(u, 0)
    ensures MainBehaves(p, Owned(), u)
  {
    hide Loaded, MainState, MainOk;
    forall k: nat
      ensures MainOk(p, Owned(), Uninterrupted(p, u, k))
    {
      MainRuns(p, u, k);
    }
  }

  /** Under any interrupt schedule, the loop's word of RAM holds the number of its stores
      and x1 the number of its additions: 1, 2, 3, ... with none lost or repeated. */
  lemma DemoCounts(p: Isa.Program, s: Isa.State, es: seq<Isa.Env>)
    requires Loaded(p) && Running(Watched(s, false, 0)) && MainState(s, 0)
    ensures var n := WatchRun(p, Watched(s, false, 0), es);
      && ReadWord(n.s.mem, 0) == ToWord(n.done / 3)
      && (n.done > 0 ==> GetReg(n.s.regs, 1) == ToWord((n.done + 1) / 3))
  {
    hide Loaded, Running, MainBehaves, HandlerBehaves, WatchRun, ReadWord, GetReg, ToWord, MainState, Sees, Owned,
      Isa.Step, MainOk;
    var t := Watched(s, false, 0);
    MainProgramBehaves(p, s);
    DemoBehaves(p, t, es);
    SeesItself(s);
    assert Uninterrupted(p, s, 0) == s;
    InterruptsTransparent(p, Owned(), t, s, es);
    var n := WatchRun(p, t, es);
    MainRuns(p, s, n.done);
    SeesCounts(n, Uninterrupted(p, s, n.done), n.done);
  }

  lemma SeesItself(s: Isa.State)
    ensures Sees(Owned(), Watched(s, false, 0), s)
  {
    hide GetReg, ByteAt;
  }

  lemma SeesCounts(n: Watched, v: Isa.State, k: nat)
    requires Sees(Owned(), n, v) && MainState(v, k)
    ensures ReadWord(n.s.mem, 0) == ToWord(k / 3)
    ensures k > 0 ==> GetReg(n.s.regs, 1) == ToWord((k + 1) / 3)
  {
    hide ReadWord, GetReg, ByteAt, ToWord, MainPc;
    BytesAgree(n.s.mem, v.mem);
    assert OwnReg(Owned(), 1);
  }

  lemma RunningAligned(t: Watched)
    requires Running(t)
    ensures Aligned(t.s.pc)
  {
    hide GetReg, ClearLow2;
    if t.handler {
      var i :| 0 <= i < 13 && t.s.pc == HandlerPc(i);
      HandlerAligned(i);
    } else {
      var j :| 0 <= j < 4 && t.s.pc == MainPc(j);
      MainIndex(j);
    }
  }

  lemma HandlerAligned(i: nat)
    requires i < 13
    ensures Aligned(HandlerPc(i))
  {
  }

  lemma {:induction false} DemoAligned(p: Isa.Program, t: Watched, es: seq<Isa.Env>)
    requires Loaded(p) && Running(t)
    ensures RvRuns.AlignedRun(p, t.s, es)
    decreases |es|
  {
    hide Loaded, Running, HandlerOk, Isa.Step, Isa.Traps, Isa.Decode, Isa.Fetch, Aligned;
    RunningAligned(t);
    if es != [] {
      if t.handler {
        HandlerRuns(p, t, es[0]);
      } else if Isa.Traps(Isa.Decode(Isa.Fetch(p, t.s.pc)), t.s.csrs, es[0]) {
        TrapRuns(p, t, es[0]);
      } else {
        MainStepRuns(p, t, es[0]);
      }
      DemoAligned(p, Watch(p, t, es[0]), es[1..]);
    }
  }

  /** The same on the five-stage pipeline, for any number of clocks and any interrupt
      lines: the abstract memory word always equals the count of completed stores. */
  lemma DemoCountsOnPipeline(p: Isa.Program, t: RvRefinement.Tracked, xs: seq<RvCore.Inputs>)
    requires Loaded(p) && RvRefinement.Inv(p, t) && RvRuns.NoReset(xs)
    requires Running(Watched(RvRefinement.Abs(t), false, 0)) && MainState(RvRefinement.Abs(t), 0)
    ensures var n := WatchRun(p, Watched(RvRefinement.Abs(t), false, 0), RvRuns.Events(p, t, xs));
      && n.s == RvRefinement.Abs(RvRuns.Run(p, t, xs))
      && ReadWord(n.s.mem, 0) == ToWord(n.done / 3)
  {
    hide Loaded, Running, MainState, RvRefinement.Inv, RvRefinement.Abs, RvRuns.Events, RvRuns.Run, RvRuns.IsaRun,
      RvRuns.AlignedRun, WatchRun, ReadWord, ToWord;
    var w := Watched(RvRefinement.Abs(t), false, 0);
    var es := RvRuns.Events(p, t, xs);
    DemoAligned(p, w, es);
    RvRuns.RunRefines(p, t, xs);
    WatchRunIsIsaRun(p, w, es);
    DemoCounts(p, RvRefinement.Abs(t), es);
  }
}
