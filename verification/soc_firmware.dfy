/**
 The timer demonstration (`build_timer_demo` in `socgen/firmware.py`), built by calls on
 one assembler object: a handler at address 4, start-up code, and a loop that counts in
 the first word of RAM.
 */
module SocFirmware {
  import opened Rv32iPkg
  import Isa = RvIsa
  import opened SocAsm
  import opened SocProgram

  const MTIME_LO := 0x4000_bff8
  const MTIMECMP_LO := 0x4000_4000
  const MTIMECMP_HI := 0x4000_4004
  const TIMER_PERIOD := 400

  function Codes(calls: seq<Call>): (s: seq<Entry>)
    ensures |s| == |calls|
    ensures forall i :: 0 <= i < |s| ==> s[i] == Code(Encode(calls[i]))
  {
    seq(|calls|, i requires 0 <= i < |calls| => Code(Encode(calls[i])))
  }

  function ReadsCsr(rd: RegIdx, csr: int): Call {
    CsrReg(Isa.CsrSet, rd, csr, 0)
  }

  /** Ticks, cause and resumption address go to the second to fourth words of RAM. */
  function ReportCalls(): (s: seq<Call>)
    ensures |s| == 6
  {
    [Addi(21, 21, 1), Sw(21, 20, 4), ReadsCsr(26, 0x342), Sw(26, 20, 8), ReadsCsr(27, 0x341), Sw(27, 20, 12)]
  }

  function RearmCalls(): (s: seq<Call>)
    ensures |s| == 6
  {
    [Addi(25, 0, -1), Sw(25, 24, 0), Sw(0, 28, 0), Lw(23, 22, 0), Addi(23, 23, TIMER_PERIOD), Sw(23, 24, 0)]
  }

  function HandlerCalls(): (s: seq<Call>)
    ensures |s| == 13 && forall x :: x in s ==> Accepts(x)
  {
    ReportCalls() + (RearmCalls() + [Mret])
  }

  function PointerCalls(): (s: seq<Call>)
    ensures |s| == 7
  {
    [Addi(20, 0, 0), Lui(22, 0x4000c), Addi(22, 22, -8), Lui(24, 0x40004), Lui(28, 0x40004), Addi(28, 28, 4),
     Addi(21, 0, 0)]
  }

  function EnableCalls(): (s: seq<Call>)
    ensures |s| == 6
  {
    [Addi(5, 0, 4), CsrReg(Isa.CsrWrite, 0, 0x305, 5), Addi(6, 0, 128), CsrReg(Isa.CsrWrite, 0, 0x304, 6),
     CsrImm(Isa.CsrSet, 0, 0x300, 8), Addi(1, 0, 0)]
  }

  function StartCalls(): (s: seq<Call>)
    ensures |s| == 19
  {
    PointerCalls() + (RearmCalls() + EnableCalls())
  }

  function DemoEntries(): (s: seq<Entry>)
    ensures |s| == 36
  {
    [Pending(true, 0, 0, "start", 0)] + Codes(HandlerCalls()) + Codes(StartCalls()) +
    Codes([Addi(1, 1, 1), Sw(1, 20, 0)]) + [Pending(true, 0, 0, "loop", 140)]
  }

  function DemoLabels(): Labels {
    map["handler" := 4, "start" := 56, "loop" := 132]
  }

  // ---- The builder ----------------------------------------------------------------------------

  lemma LiConstants()
    ensures LoadConstant(25, -1) == [Addi(25, 0, -1)]
    ensures LoadConstant(20, 0) == [Addi(20, 0, 0)]
    ensures LoadConstant(22, MTIME_LO) == [Lui(22, 0x4000c), Addi(22, 22, -8)]
    ensures LoadConstant(24, MTIMECMP_LO) == [Lui(24, 0x40004)]
    ensures LoadConstant(28, MTIMECMP_HI) == [Lui(28, 0x40004), Addi(28, 28, 4)]
    ensures LoadConstant(21, 0) == [Addi(21, 0, 0)]
    ensures LoadConstant(5, 4) == [Addi(5, 0, 4)]
    ensures LoadConstant(6, 128) == [Addi(6, 0, 128)]
    ensures LoadConstant(1, 0) == [Addi(1, 0, 0)]
  {
  }

  /** Emits one instruction whose immediate is known to fit. */
  method Put(asm: Assembler, x: Call)
    requires asm.Valid() && Accepts(x)
    modifies asm`words
    ensures asm.Valid() && asm.words == old(asm.words) + [Code(Encode(x))]
  {
    var ok := asm.Emit(x);
  }

  method Load(asm: Assembler, rd: RegIdx, value: int)
    requires asm.Valid()
    modifies asm`words
    ensures asm.Valid() && asm.words == old(asm.words) + Codes(LoadConstant(rd, value))
  {
    hide Encode, LoadConstant;
    asm.Li(rd, value);
  }

  /** Sets the next timer deadline in the three writes that cannot fire early. */
  method Rearm(asm: Assembler)
    requires asm.Valid()
    modifies asm`words
    ensures asm.Valid()
    ensures asm.words == old(asm.words) + Codes(RearmCalls())
  {
    hide Encode, LoadConstant;
    LiConstants();
    Load(asm, 25, -1);
    Put(asm, Sw(25, 24, 0));
    Put(asm, Sw(0, 28, 0));
    Put(asm, Lw(23, 22, 0));
    Put(asm, Addi(23, 23, TIMER_PERIOD));
    Put(asm, Sw(23, 24, 0));
  }

  lemma CodesConcat(a: seq<Call>, b: seq<Call>)
    ensures Codes(a + b) == Codes(a) + Codes(b)
  {
    hide Encode;
  }

  method BuildReport(asm: Assembler)
    requires asm.Valid()
    modifies asm`words
    ensures asm.Valid() && asm.words == old(asm.words) + Codes(ReportCalls())
  {
    hide Encode;
    Put(asm, Addi(21, 21, 1));
    Put(asm, Sw(21, 20, 4));
    Put(asm, ReadsCsr(26, 0x342));
    Put(asm, Sw(26, 20, 8));
    Put(asm, ReadsCsr(27, 0x341));
    Put(asm, Sw(27, 20, 12));
  }

  method BuildHandler(asm: Assembler)
    requires asm.Valid()
    modifies asm`words
    ensures asm.Valid() && asm.words == old(asm.words) + Codes(HandlerCalls())
  {
    hide Encode, Codes, ReportCalls, RearmCalls;
    CodesConcat(ReportCalls(), RearmCalls() + [Mret]);
    CodesConcat(RearmCalls(), [Mret]);
    assert Codes([Mret]) == [Code(Encode(Mret))];
    BuildReport(asm);
    Rearm(asm);
    Put(asm, Mret);
  }

  method BuildPointers(asm: Assembler)
    requires asm.Valid()
    modifies asm`words
    ensures asm.Valid() && asm.words == old(asm.words) + Codes(PointerCalls())
  {
    hide Encode, LoadConstant;
    LiConstants();
    Load(asm, 20, 0);
    Load(asm, 22, MTIME_LO);
    Load(asm, 24, MTIMECMP_LO);
    Load(asm, 28, MTIMECMP_HI);
    Load(asm, 21, 0);
  }

  method BuildEnable(asm: Assembler)
    requires asm.Valid()
    modifies asm`words
    ensures asm.Valid() && asm.words == old(asm.words) + Codes(EnableCalls())
  {
    hide Encode, LoadConstant;
    LiConstants();
    Load(asm, 5, 4);
    Put(asm, CsrReg(Isa.CsrWrite, 0, 0x305, 5));
    Load(asm, 6, 128);
    Put(asm, CsrReg(Isa.CsrWrite, 0, 0x304, 6));
    Put(asm, CsrImm(Isa.CsrSet, 0, 0x300, 8));
    Load(asm, 1, 0);
  }

  method BuildStart(asm: Assembler)
    requires asm.Valid()
    modifies asm`words
    ensures asm.Valid() && asm.words == old(asm.words) + Codes(StartCalls())
  {
    hide Encode, Codes, PointerCalls, RearmCalls, EnableCalls;
    CodesConcat(PointerCalls(), RearmCalls() + EnableCalls());
    CodesConcat(RearmCalls(), EnableCalls());
    BuildPointers(asm);
    Rearm(asm);
    BuildEnable(asm);
  }

  method BuildLoop(asm: Assembler)
    requires asm.Valid()
    modifies asm`words
    ensures asm.Valid()
    ensures asm.words == old(asm.words) + Codes([Addi(1, 1, 1), Sw(1, 20, 0)])
      + [Pending(true, 0, 0, "loop", 4 * |old(asm.words)| + 8)]
  {
    hide Encode;
    Put(asm, Addi(1, 1, 1));
    Put(asm, Sw(1, 20, 0));
    asm.Branch(true, 0, 0, "loop");
    assert Codes([Addi(1, 1, 1), Sw(1, 20, 0)]) == [Code(Encode(Addi(1, 1, 1))), Code(Encode(Sw(1, 20, 0)))];
  }

  method BuildTimerDemo() returns (asm: Assembler)
    ensures fresh(asm) && asm.Valid()
    ensures asm.words == DemoEntries() && asm.labels == DemoLabels()
  {
    hide Encode, HandlerCalls, StartCalls, Codes;
    asm := new Assembler();
    asm.Branch(true, 0, 0, "start");
    var ok := asm.Define("handler");
    BuildHandler(asm);
    ok := asm.Define("start");
    BuildStart(asm);
    ok := asm.Define("loop");
    BuildLoop(asm);
  }
}
