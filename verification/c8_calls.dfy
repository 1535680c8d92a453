/**
 Call discipline of the C8 over whole runs (`sim.py`): a ghost stack of return addresses
 beside the processor, and what may overwrite it.
 */
module C8Calls {
  import opened C8Sim

  datatype Kind = Calls | Returns | Stores | Other

  function KindOf(insn: Word): Kind {
    match insn / 4096
    case 13 => Calls
    case 14 => Returns
    case 10 => Stores
    case _ => Other
  }

  /** The processor and the return addresses of the calls in progress, outermost first. */
  datatype Traced = Traced(c: Cpu, stack: seq<Byte>)

  function TracedStep(rom: Rom, t: Traced): Traced {
    var k := KindOf(rom[t.c.pc]);
    Traced(StepRom(rom, t.c),
      if t.c.halted then t.stack
      else if k == Calls then t.stack + [Next(t.c)]
      else if k == Returns && t.stack != [] then t.stack[..|t.stack| - 1]
      else t.stack)
  }

  function TracedRun(rom: Rom, t: Traced, n: nat): Traced {
    if n == 0 then t else TracedStep(rom, TracedRun(rom, t, n - 1))
  }

  /** A call has room, a return has a caller, and a store stays below the live frames. */
  predicate Disciplined(rom: Rom, t: Traced) {
    var insn := rom[t.c.pc];
    t.c.halted ||
    match KindOf(insn)
    case Calls => |t.stack| < 256
    case Returns => t.stack != []
    case Stores => Address(t.c, insn / 64 % 8, Signed6(insn % 64)) < 256 - |t.stack|
    case Other => true
  }

  /** The stack pointer and the memory above it are the ghost stack. */
  ghost predicate Framed(t: Traced) {
    && |t.stack| <= 256
    && t.c.sp == (255 - |t.stack|) % 256
    && forall i :: 0 <= i < |t.stack| ==> t.c.dmem[255 - i] == t.stack[i]
  }

  lemma StoresOnlyWrite(c: Cpu, insn: Word)
    ensures KindOf(insn) == Other ==> Exec(c, insn).dmem == c.dmem && Exec(c, insn).sp == c.sp
    ensures KindOf(insn) == Stores ==>
      Exec(c, insn) == StoreAt(c, Address(c, insn / 64 % 8, Signed6(insn % 64)), ReadReg(c.regs, insn / 512 % 8))
    ensures KindOf(insn) == Calls ==> Exec(c, insn) == CallTo(c, insn % 256)
    ensures KindOf(insn) == Returns ==> Exec(c, insn) == Return(c)
  {
    hide And8, Or8, Xor8, AddOut, SubOut, ShfOut, Taken, Signed6, Signed9;
  }

  lemma CallFramed(t: Traced, target: Byte)
    requires Framed(t) && |t.stack| < 256
    ensures Framed(Traced(CallTo(t.c, target), t.stack + [Next(t.c)]))
  {
  }

  lemma ReturnFramed(t: Traced)
    requires Framed(t) && t.stack != []
    ensures Framed(Traced(Return(t.c), t.stack[..|t.stack| - 1]))
    ensures Return(t.c).pc == t.stack[|t.stack| - 1]
  {
  }

  lemma StoreFramed(t: Traced, a: Byte, v: Byte)
    requires Framed(t) && a < 256 - |t.stack|
    ensures Framed(Traced(StoreAt(t.c, a, v), t.stack))
  {
  }

  /** Every disciplined step keeps the frame, and a return lands on the top of the stack. */
  lemma StepFramed(rom: Rom, t: Traced)
    requires Framed(t) && Disciplined(rom, t)
    ensures Framed(TracedStep(rom, t))
    ensures !t.c.halted && KindOf(rom[t.c.pc]) == Returns ==>
      t.stack != [] && TracedStep(rom, t).c.pc == t.stack[|t.stack| - 1]
  {
    hide Exec, Signed6, CallTo, Return, StoreAt, Address, ReadReg;
    var insn := rom[t.c.pc];
    StoresOnlyWrite(t.c, insn);
    if !t.c.halted {
      match KindOf(insn)
      case Calls => CallFramed(t, insn % 256);
      case Returns => ReturnFramed(t);
      case Stores =>
        StoreFramed(t, Address(t.c, insn / 64 % 8, Signed6(insn % 64)), ReadReg(t.c.regs, insn / 512 % 8));
      case Other =>
    }
  }

  /** Discipline is also needed: a call at depth 256 destroys the outermost return
      address unless it pushes that very value. */
  lemma FullStackClobbered(rom: Rom, t: Traced)
    requires Framed(t) && !t.c.halted && |t.stack| == 256 && KindOf(rom[t.c.pc]) == Calls
    ensures TracedStep(rom, t).c.dmem[255] == t.stack[0] <==> Next(t.c) == t.stack[0]
  {
    hide Exec, Signed6;
    StoresOnlyWrite(t.c, rom[t.c.pc]);
  }

  lemma {:induction false} RunFramed(rom: Rom, t: Traced, n: nat)
    requires Framed(t) && forall k :: 0 <= k < n ==> Disciplined(rom, TracedRun(rom, t, k))
    ensures Framed(TracedRun(rom, t, n))
    ensures TracedRun(rom, t, n).c == RunRom(rom, t.c, n)
  {
    hide TracedStep, StepRom, Disciplined, Framed;
    if n > 0 {
      RunFramed(rom, t, n - 1);
      StepFramed(rom, TracedRun(rom, t, n - 1));
      TracedFollows(rom, TracedRun(rom, t, n - 1));
    }
  }

  lemma TracedFollows(rom: Rom, t: Traced)
    ensures TracedStep(rom, t).c == StepRom(rom, t.c)
  {
    hide StepRom;
  }

  /** While the depth stays above `d`, the lowest `d + 1` return addresses do not move. */
  lemma {:induction false} LowerFramesStay(rom: Rom, t: Traced, d: nat, n: nat)
    requires |t.stack| > d
    requires forall k :: 0 <= k <= n ==> |TracedRun(rom, t, k).stack| > d
    ensures TracedRun(rom, t, n).stack[..d + 1] == t.stack[..d + 1]
  {
    hide StepRom, KindOf;
    if n > 0 {
      LowerFramesStay(rom, t, d, n - 1);
    } else {
      assert TracedRun(rom, t, 0) == t;
    }
  }

  /** A return matches a call when it runs at the depth the call created and the depth
      never fell below that in between. It then lands just after that call. */
  lemma ReturnsAfterMatchingCall(rom: Rom, t: Traced, n: nat)
    requires Framed(t) && !t.c.halted && KindOf(rom[t.c.pc]) == Calls
    requires forall k :: 0 <= k <= n + 1 ==> Disciplined(rom, TracedRun(rom, t, k))
    requires forall k :: 1 <= k <= n + 1 ==> |TracedRun(rom, t, k).stack| > |t.stack|
    requires var r := TracedRun(rom, t, n + 1);
      !r.c.halted && KindOf(rom[r.c.pc]) == Returns && |r.stack| == |t.stack| + 1
    ensures TracedRun(rom, t, n + 2).c.pc == Next(t.c)
    ensures TracedRun(rom, t, n + 2).stack == t.stack
  {
    hide StepRom, KindOf, Disciplined, Framed;
    var called := TracedRun(rom, t, 1);
    assert called.stack == t.stack + [Next(t.c)] by {
      assert called == TracedStep(rom, TracedRun(rom, t, 0));
    }
    forall k | 0 <= k <= n
      ensures TracedRun(rom, called, k) == TracedRun(rom, t, k + 1)
    {
      Regroup(rom, t, k);
    }
    LowerFramesStay(rom, called, |t.stack|, n);
    var r := TracedRun(rom, t, n + 1);
    RunFramed(rom, t, n + 1);
    StepFramed(rom, r);
    assert r.stack == called.stack;
    assert TracedRun(rom, t, n + 2) == TracedStep(rom, r);
  }

  lemma {:induction false} Regroup(rom: Rom, t: Traced, k: nat)
    ensures TracedRun(rom, TracedRun(rom, t, 1), k) == TracedRun(rom, t, k + 1)
  {
    hide TracedStep;
    if k > 0 {
      Regroup(rom, t, k - 1);
    }
  }

  lemma PowerOnFramed()
    ensures Framed(Traced(PowerOn(), []))
  {
  }
}
