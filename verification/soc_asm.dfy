/**
 The RV32I assembler of the system-on-chip generator (`socgen/asm.py`): every accepted
 instruction decodes to what was asked for, `li` loads any integer modulo 2^32, and a
 taken branch reaches its label.
 */
module SocAsm {
  import opened Rv32iPkg
  import Isa = RvIsa
  import Stages = RvStages
  import opened SocWords
  import opened SocFields

  // ---- Instructions --------------------------------------------------------------------

  /** The methods that emit one word, with the integers a caller passes. */
  datatype Call =
    | Lui(rd: RegIdx, imm20: int)
    | Addi(rd: RegIdx, rs1: RegIdx, imm: int)
    | Add(rd: RegIdx, rs1: RegIdx, rs2: RegIdx)
    | Andi(rd: RegIdx, rs1: RegIdx, imm: int)
    | Sw(rs2: RegIdx, rs1: RegIdx, imm: int)
    | Lw(rd: RegIdx, rs1: RegIdx, imm: int)
    | CsrReg(op: Isa.CsrOp, rd: RegIdx, csr: int, rs1: RegIdx)
    | CsrImm(op: Isa.CsrOp, rd: RegIdx, csr: int, uimm: RegIdx)
    | Ecall | Ebreak | Mret

  predicate Signed12(v: int) {
    -2048 <= v <= 2047
  }

  predicate Signed13(v: int) {
    -4096 <= v <= 4095
  }

  predicate CsrNumber(v: int) {
    0 <= v <= 0xfff
  }

  function CsrFunct3(op: Isa.CsrOp, immediate: bool): bv3 {
    match op
    case CsrWrite => if immediate then 5 else 1
    case CsrSet => if immediate then 6 else 2
    case CsrClear => if immediate then 7 else 3
    case CsrReadOnly => 0
  }

  function CsrField(csr: int): bv12 {
    (ToWord(csr) & 0xfff) as bv12
  }

  /** Immediates that do not fit are refused; the twenty bits of `lui` are cut off. */
  predicate Accepts(x: Call) {
    match x
    case Addi(_, _, imm) => Signed12(imm)
    case Andi(_, _, imm) => Signed12(imm)
    case Sw(_, _, imm) => Signed12(imm)
    case Lw(_, _, imm) => Signed12(imm)
    case CsrReg(op, _, csr, _) => CsrNumber(csr) && !op.CsrReadOnly?
    case CsrImm(op, _, csr, _) => CsrNumber(csr) && !op.CsrReadOnly?
    case _ => true
  }

  function Encode(x: Call): Word {
    match x
    case Lui(rd, imm20) => WordU(ToWord(imm20), rd, 0x37)
    case Addi(rd, rs1, imm) => WordI(ToWord(imm), rs1, 0, rd, 0x13)
    case Add(rd, rs1, rs2) => WordR(0, rs2, rs1, 0, rd, 0x33)
    case Andi(rd, rs1, imm) => WordI(ToWord(imm), rs1, 7, rd, 0x13)
    case Sw(rs2, rs1, imm) => WordS(ToWord(imm), rs2, rs1, 2, 0x23)
    case Lw(rd, rs1, imm) => WordI(ToWord(imm), rs1, 2, rd, 0x03)
    case CsrReg(op, rd, csr, rs1) => WordI(ToWord(csr), rs1, CsrFunct3(op, false), rd, 0x73)
    case CsrImm(op, rd, csr, uimm) => WordI(ToWord(csr), uimm, CsrFunct3(op, true), rd, 0x73)
    case Ecall => 0x0000_0073
    case Ebreak => 0x0010_0073
    case Mret => 0x3020_0073
  }

  /** The instruction a caller means, and the registers it reads. */
  function Meant(x: Call): Isa.Instr {
    match x
    case Lui(rd, imm20) => Isa.Lui(rd, Upper(ToWord(imm20)))
    case Addi(rd, _, imm) => Isa.OpImm(Isa.FnAdd, rd, ToWord(imm))
    case Add(rd, _, _) => Isa.OpReg(Isa.FnAdd, rd)
    case Andi(rd, _, imm) => Isa.OpImm(Isa.FnAnd, rd, ToWord(imm))
    case Sw(_, _, imm) => Isa.Store(Isa.StoreWord, ToWord(imm))
    case Lw(rd, _, imm) => Isa.Load(Isa.LoadWord, rd, ToWord(imm))
    case CsrReg(op, rd, csr, _) => Isa.Csr(op, rd, CsrField(csr), false)
    case CsrImm(op, rd, csr, _) => Isa.Csr(op, rd, CsrField(csr), true)
    case Ecall => Isa.Ecall
    case Ebreak => Isa.Ebreak
    case Mret => Isa.Mret
  }

  predicate ReadsAsked(x: Call, w: Word) {
    match x
    case Addi(_, rs1, _) => Isa.Rs1(w) == rs1
    case Add(_, rs1, rs2) => Isa.Rs1(w) == rs1 && Isa.Rs2(w) == rs2
    case Andi(_, rs1, _) => Isa.Rs1(w) == rs1
    case Sw(rs2, rs1, _) => Isa.Rs1(w) == rs1 && Isa.Rs2(w) == rs2
    case Lw(_, rs1, _) => Isa.Rs1(w) == rs1
    case CsrReg(_, _, _, rs1) => Isa.Rs1(w) == rs1
    case CsrImm(_, _, _, uimm) => Isa.Rs1(w) == uimm
    case _ => true
  }

  lemma LowPositive(n: nat)
    requires 1 <= n <= 4096
    ensures n <= 2048 ==> 1 <= Low(n) <= 0x800
    ensures 1 <= Low(n) <= 0x1000
  {
    hide Low;
    OnesValues();
    if n <= 2048 {
      LowBound(n - 1, 11);
    }
    LowBound(n - 1, 12);
    LowNext(n - 1);
  }

  lemma NegativeRange(w: Word)
    requires 1 <= w <= 0x1000
    ensures w <= 0x800 ==> Minus(w) >= 0xffff_f800
    ensures Minus(w) >= 0xffff_f000
  {
  }

  lemma SignedFits(v: int)
    ensures Signed12(v) ==> Fits12(ToWord(v))
    ensures Signed13(v) ==> ToWord(v) <= 0xfff || ToWord(v) >= 0xffff_f000
  {
    hide Low, Minus;
    OnesValues();
    if 0 <= v < 4096 {
      if v < 2048 {
        LowBound(v, 11);
      }
      LowBound(v, 12);
    } else if -4096 <= v < 0 {
      LowPositive(-v);
      NegativeRange(Low(-v));
    }
  }

  /** The decoder on the opcodes the assembler uses. */
  lemma DecodeArithmetic(w: Word)
    ensures (w & 0x7f) as bv7 == 0x13 && Isa.Funct3(w) == 0 ==>
      Isa.Decode(w) == Isa.OpImm(Isa.FnAdd, Isa.Rd(w), Isa.ImmI(w))
    ensures (w & 0x7f) as bv7 == 0x13 && Isa.Funct3(w) == 7 ==>
      Isa.Decode(w) == Isa.OpImm(Isa.FnAnd, Isa.Rd(w), Isa.ImmI(w))
    ensures (w & 0x7f) as bv7 == 0x33 && Isa.Funct3(w) == 0 && !Bit(w, 30) ==>
      Isa.Decode(w) == Isa.OpReg(Isa.FnAdd, Isa.Rd(w))
    ensures (w & 0x7f) as bv7 == 0x37 ==> Isa.Decode(w) == Isa.Lui(Isa.Rd(w), Isa.ImmU(w))
  {
    hide Bit, Isa.Funct3, Isa.Rd, Isa.ImmI, Isa.ImmU;
  }

  lemma DecodeMemory(w: Word)
    requires Isa.Funct3(w) == 2
    ensures (w & 0x7f) as bv7 == 0x23 ==> Isa.Decode(w) == Isa.Store(Isa.StoreWord, Isa.ImmS(w))
    ensures (w & 0x7f) as bv7 == 0x03 ==> Isa.Decode(w) == Isa.Load(Isa.LoadWord, Isa.Rd(w), Isa.ImmI(w))
  {
    hide Bit, Isa.Funct3, Isa.Rd, Isa.ImmI, Isa.ImmS;
  }

  lemma DecodeCsr(w: Word)
    requires (w & 0x7f) as bv7 == 0x73 && Isa.Funct3(w) != 0
    ensures Isa.Decode(w)
         == Isa.Csr(Isa.CsrOpOf(Isa.Funct3(w)), Isa.Rd(w), Isa.Funct12(w), Isa.Funct3(w) >= 4)
  {
    hide Bit, Isa.Funct3, Isa.Rd, Isa.Funct12;
  }

  lemma DecodePrivileged()
    ensures Isa.Decode(0x0000_0073) == Isa.Ecall
    ensures Isa.Decode(0x0010_0073) == Isa.Ebreak
    ensures Isa.Decode(0x3020_0073) == Isa.Mret
  {
    hide Bit;
  }

  lemma CsrDecodes(op: Isa.CsrOp, immediate: bool, rd: RegIdx, csr: int, rs1: RegIdx)
    requires !op.CsrReadOnly?
    ensures var w := WordI(ToWord(csr), rs1, CsrFunct3(op, immediate), rd, 0x73);
      Isa.Rs1(w) == rs1 && Isa.Decode(w) == Isa.Csr(op, rd, CsrField(csr), immediate)
  {
    hide WordI, ToWord, Isa.Decode, Isa.Funct3, Isa.Funct12, Isa.Rd;
    var funct3 := CsrFunct3(op, immediate);
    FieldsI(ToWord(csr), rs1, funct3, rd, 0x73);
    DecodeCsr(WordI(ToWord(csr), rs1, funct3, rd, 0x73));
  }

  lemma ImmediateDecodes(rd: RegIdx, rs1: RegIdx, imm: int)
    requires Signed12(imm)
    ensures Isa.Decode(WordI(ToWord(imm), rs1, 0, rd, 0x13)) == Isa.OpImm(Isa.FnAdd, rd, ToWord(imm))
    ensures Isa.Decode(WordI(ToWord(imm), rs1, 7, rd, 0x13)) == Isa.OpImm(Isa.FnAnd, rd, ToWord(imm))
  {
    hide WordI, ToWord, Bit, Isa.ImmI, Isa.Decode, Isa.Funct3, Isa.Rd, Isa.Rs1;
    DecodesI(imm, rs1, 0, rd, 0x13);
    DecodesI(imm, rs1, 7, rd, 0x13);
    DecodeArithmetic(WordI(ToWord(imm), rs1, 0, rd, 0x13));
    DecodeArithmetic(WordI(ToWord(imm), rs1, 7, rd, 0x13));
  }

  lemma LoadDecodes(rd: RegIdx, rs1: RegIdx, imm: int)
    requires Signed12(imm)
    ensures Isa.Decode(WordI(ToWord(imm), rs1, 2, rd, 0x03)) == Isa.Load(Isa.LoadWord, rd, ToWord(imm))
  {
    hide WordI, ToWord, Bit, Isa.ImmI, Isa.Decode, Isa.Funct3, Isa.Rd, Isa.Rs1;
    DecodesI(imm, rs1, 2, rd, 0x03);
    DecodeMemory(WordI(ToWord(imm), rs1, 2, rd, 0x03));
  }

  lemma StoreDecodes(rs2: RegIdx, rs1: RegIdx, imm: int)
    requires Signed12(imm)
    ensures Isa.Decode(WordS(ToWord(imm), rs2, rs1, 2, 0x23)) == Isa.Store(Isa.StoreWord, ToWord(imm))
  {
    hide WordS, ToWord, Bit, Fits12, Isa.ImmS, Isa.Decode, Isa.Funct3, Isa.Rd, Isa.Rs1;
    SignedFits(imm);
    FieldsS(ToWord(imm), rs2, rs1, 2, 0x23);
    ImmediateS(ToWord(imm), rs2, rs1, 2, 0x23);
    DecodeMemory(WordS(ToWord(imm), rs2, rs1, 2, 0x23));
  }

  lemma RegisterDecodes(rd: RegIdx, rs1: RegIdx, rs2: RegIdx)
    ensures Isa.Decode(WordR(0, rs2, rs1, 0, rd, 0x33)) == Isa.OpReg(Isa.FnAdd, rd)
  {
    hide WordR, Bit, Isa.Decode, Isa.Funct3, Isa.Rd, Isa.Rs1, Isa.Rs2;
    FieldsR(0, rs2, rs1, 0, rd, 0x33);
    AlternateR(rs2, rs1, 0, rd, 0x33);
    DecodeArithmetic(WordR(0, rs2, rs1, 0, rd, 0x33));
  }

  lemma UpperDecodes(rd: RegIdx, imm20: Word)
    ensures Isa.Decode(WordU(imm20, rd, 0x37)) == Isa.Lui(rd, Upper(imm20))
  {
    hide WordU, Isa.Decode, Isa.Rd, Isa.ImmU;
    FieldsU(imm20, rd, 0x37);
    DecodeArithmetic(WordU(imm20, rd, 0x37));
  }

  /** Every accepted instruction decodes to what was asked for, with its immediate
      sign-extended and the registers it reads in their fields. */
  lemma DecodesAsMeant(x: Call)
    requires Accepts(x)
    ensures Isa.Decode(Encode(x)) == Meant(x)
    ensures ReadsAsked(x, Encode(x))
  {
    hide WordI, WordR, WordS, WordU, ToWord, CsrFunct3, CsrField, Upper;
    hide Isa.Decode, Isa.Funct3, Isa.Rd, Isa.Rs1, Isa.Rs2;
    ReadsMeant(x);
    match x
    case Lui(rd, imm20) => UpperDecodes(rd, ToWord(imm20));
    case Addi(rd, rs1, imm) => ImmediateDecodes(rd, rs1, imm);
    case Add(rd, rs1, rs2) => RegisterDecodes(rd, rs1, rs2);
    case Andi(rd, rs1, imm) => ImmediateDecodes(rd, rs1, imm);
    case Sw(rs2, rs1, imm) => StoreDecodes(rs2, rs1, imm);
    case Lw(rd, rs1, imm) => LoadDecodes(rd, rs1, imm);
    case CsrReg(op, rd, csr, rs1) => CsrDecodes(op, false, rd, csr, rs1);
    case CsrImm(op, rd, csr, uimm) => CsrDecodes(op, true, rd, csr, uimm);
    case _ => DecodePrivileged();
  }

  lemma ReadsMeant(x: Call)
    ensures ReadsAsked(x, Encode(x))
  {
    hide WordI, WordR, WordS, WordU, ToWord, CsrFunct3, Isa.Funct3, Isa.Funct12, Isa.Rd, Isa.Rs1, Isa.Rs2;
    match x
    case Addi(rd, rs1, imm) => FieldsI(ToWord(imm), rs1, 0, rd, 0x13);
    case Add(rd, rs1, rs2) => FieldsR(0, rs2, rs1, 0, rd, 0x33);
    case Andi(rd, rs1, imm) => FieldsI(ToWord(imm), rs1, 7, rd, 0x13);
    case Sw(rs2, rs1, imm) => FieldsS(ToWord(imm), rs2, rs1, 2, 0x23);
    case Lw(rd, rs1, imm) => FieldsI(ToWord(imm), rs1, 2, rd, 0x03);
    case CsrReg(op, rd, csr, rs1) => FieldsI(ToWord(csr), rs1, CsrFunct3(op, false), rd, 0x73);
    case CsrImm(op, rd, csr, uimm) => FieldsI(ToWord(csr), uimm, CsrFunct3(op, true), rd, 0x73);
    case _ =>
  }

  /** What the immediate generator should give: the integer of the call, the upper part of
      `lui`, the number of a CSR or privileged operation, and nothing for `add`. */
  function ImmediateMeant(x: Call): Word {
    match x
    case Lui(_, imm20) => Upper(ToWord(imm20))
    case Addi(_, _, imm) => ToWord(imm)
    case Andi(_, _, imm) => ToWord(imm)
    case Sw(_, _, imm) => ToWord(imm)
    case Lw(_, _, imm) => ToWord(imm)
    case Add(_, _, _) => 0
    case CsrReg(_, _, csr, _) => CsrField(csr) as Word
    case CsrImm(_, _, csr, _) => CsrField(csr) as Word
    case Ecall => 0
    case Ebreak => 1
    case Mret => 0x302
  }

  lemma CsrAddressRead(w: Word)
    ensures Stages.CsrAddressField(w) == Isa.Funct12(w) as Word
  {
  }

  /** The immediate generator on the opcodes the assembler uses. */
  lemma ImmediateByOpcode(w: Word)
    ensures (w & 0x7f) as bv7 == 0x73 ==> Stages.ImmediateOf(w) == Stages.CsrAddressField(w)
    ensures (w & 0x7f) as bv7 == 0x33 ==> Stages.ImmediateOf(w) == 0
    ensures (w & 0x7f) as bv7 == 0x37 ==> Stages.ImmediateOf(w) == Isa.ImmU(w)
    ensures (w & 0x7f) as bv7 == 0x23 ==> Stages.ImmediateOf(w) == Isa.ImmS(w)
    ensures (w & 0x7f) as bv7 == 0x13 || (w & 0x7f) as bv7 == 0x03 ==> Stages.ImmediateOf(w) == Isa.ImmI(w)
  {
    hide Isa.ImmI, Isa.ImmS, Isa.ImmU, Isa.ImmB, Isa.ImmJ, Stages.CsrAddressField;
  }

  lemma SystemImmediate(csr: int, rs1: RegIdx, funct3: bv3, rd: RegIdx)
    ensures Stages.ImmediateOf(WordI(ToWord(csr), rs1, funct3, rd, 0x73)) == CsrField(csr) as Word
  {
    hide WordI, ToWord, Stages.CsrAddressField, Stages.ImmediateOf, Isa.Funct12, Isa.Funct3, Isa.Rd, Isa.Rs1;
    var w := WordI(ToWord(csr), rs1, funct3, rd, 0x73);
    FieldsI(ToWord(csr), rs1, funct3, rd, 0x73);
    CsrAddressRead(w);
    ImmediateByOpcode(w);
  }

  lemma PrivilegedImmediates()
    ensures Stages.ImmediateOf(0x0000_0073) == 0
    ensures Stages.ImmediateOf(0x0010_0073) == 1
    ensures Stages.ImmediateOf(0x3020_0073) == 0x302
  {
    assert Isa.Opcode(0x0000_0073) == Isa.SystemOp;
    assert Isa.Opcode(0x0010_0073) == Isa.SystemOp;
    assert Isa.Opcode(0x3020_0073) == Isa.SystemOp;
  }

  lemma PlainImmediate(x: Call)
    requires Accepts(x) && !x.CsrReg? && !x.CsrImm? && !x.Ecall? && !x.Ebreak? && !x.Mret?
    ensures Stages.ImmediateOf(Encode(x)) == ImmediateMeant(x)
  {
    hide WordI, WordS, WordU, WordR, ToWord, Fits12, Stages.ImmediateOf, Isa.ImmI, Isa.ImmS, Isa.ImmU;
    hide Isa.Funct3, Isa.Rd, Isa.Rs1, Isa.Rs2;
    ImmediateByOpcode(Encode(x));
    match x
    case Lui(rd, imm20) => FieldsU(ToWord(imm20), rd, 0x37);
    case Addi(rd, rs1, imm) => DecodesI(imm, rs1, 0, rd, 0x13);
    case Add(rd, rs1, rs2) => FieldsR(0, rs2, rs1, 0, rd, 0x33);
    case Andi(rd, rs1, imm) => DecodesI(imm, rs1, 7, rd, 0x13);
    case Sw(rs2, rs1, imm) =>
      SignedFits(imm);
      FieldsS(ToWord(imm), rs2, rs1, 2, 0x23);
      ImmediateS(ToWord(imm), rs2, rs1, 2, 0x23);
    case Lw(rd, rs1, imm) => DecodesI(imm, rs1, 2, rd, 0x03);
  }

  /** The hardware's immediate generator gives what each accepted call means. */
  lemma HardwareImmediate(x: Call)
    requires Accepts(x)
    ensures Stages.ImmediateOf(Encode(x)) == ImmediateMeant(x)
  {
    hide WordI, ToWord, Stages.ImmediateOf, CsrField;
    match x
    case CsrReg(op, rd, csr, rs1) => SystemImmediate(csr, rs1, CsrFunct3(op, false), rd);
    case CsrImm(op, rd, csr, uimm) => SystemImmediate(csr, uimm, CsrFunct3(op, true), rd);
    case Ecall => PrivilegedImmediates();
    case Ebreak => PrivilegedImmediates();
    case Mret => PrivilegedImmediates();
    case _ => PlainImmediate(x);
  }

  lemma DecodesI(imm: int, rs1: RegIdx, funct3: bv3, rd: RegIdx, opcode: bv7)
    requires Signed12(imm)
    ensures var w := WordI(ToWord(imm), rs1, funct3, rd, opcode);
      && (w & 0x7f) as bv7 == opcode && Isa.ImmI(w) == ToWord(imm)
      && Isa.Rs1(w) == rs1 && Isa.Rd(w) == rd && Isa.Funct3(w) == funct3
  {
    hide WordI, ToWord, Fits12, Isa.ImmI;
    SignedFits(imm);
    FieldsI(ToWord(imm), rs1, funct3, rd, opcode);
    ImmediateI(ToWord(imm), rs1, funct3, rd, opcode);
  }

  // ---- Loading a constant --------------------------------------------------------------------

  /** What `li` emits: `lui` for a non-zero upper part, corrected for the sign of the low
      twelve bits, and `addi` for a low part or for a constant without an upper one. */
  function LoadConstant(rd: RegIdx, value: int): (calls: seq<Call>)
    ensures 1 <= |calls| <= 2 && forall x :: x in calls ==> Accepts(x)
  {
    var v := value % TWO32;
    var low0, high0 := v % 4096, v / 4096 % 0x10_0000;
    var high := if low0 >= 2048 then (high0 + 1) % 0x10_0000 else high0;
    var low := if low0 >= 2048 then low0 - 4096 else low0;
    if high == 0 then [Addi(rd, 0, low)]
    else [Lui(rd, high)] + (if low == 0 then [] else [Addi(rd, rd, low)])
  }

  /** Control reaches the two words of `s.pc` and `s.pc + 4` with no interrupt to take. */
  predicate Ready(p: Isa.Program, s: Isa.State, e: Isa.Env, f: Isa.Env, calls: seq<Call>) {
    && 1 <= |calls| <= 2
    && Isa.Fetch(p, s.pc) == Encode(calls[0])
    && (|calls| == 2 ==> Isa.Fetch(p, PcPlus4(s.pc)) == Encode(calls[1]))
    && !Isa.InterruptPending(s.csrs, e) && !Isa.InterruptPending(s.csrs, f)
  }

  lemma StepLui(p: Isa.Program, s: Isa.State, e: Isa.Env, rd: RegIdx, imm20: int)
    requires Isa.Fetch(p, s.pc) == Encode(Lui(rd, imm20)) && !Isa.InterruptPending(s.csrs, e)
    ensures Isa.Step(p, s, e)
         == Isa.State(PcPlus4(s.pc), SetReg(s.regs, rd, Upper(ToWord(imm20))), s.mem, s.csrs)
  {
    hide Encode, Isa.Fetch, Isa.Decode, ToWord, Upper, PcPlus4, SetReg, GetReg, Isa.InterruptPending, Isa.Rs1, Isa.Rs2;
    DecodesAsMeant(Lui(rd, imm20));
  }

  lemma StepAddi(p: Isa.Program, s: Isa.State, e: Isa.Env, rd: RegIdx, rs1: RegIdx, imm: int)
    requires Isa.Fetch(p, s.pc) == Encode(Addi(rd, rs1, imm)) && Signed12(imm)
    requires !Isa.InterruptPending(s.csrs, e)
    ensures Isa.Step(p, s, e)
         == Isa.State(PcPlus4(s.pc), SetReg(s.regs, rd, Plus(GetReg(s.regs, rs1), ToWord(imm))), s.mem, s.csrs)
  {
    hide Encode, Isa.Fetch, Isa.Decode, ToWord, PcPlus4, SetReg, GetReg, Isa.InterruptPending, Isa.Rs1, Isa.Rs2, Plus;
    DecodesAsMeant(Addi(rd, rs1, imm));
  }

  lemma SetTwice(r: Regs, rd: RegIdx, v: Word, w: Word)
    ensures SetReg(SetReg(r, rd, v), rd, w) == SetReg(r, rd, w)
    ensures rd != 0 ==> GetReg(SetReg(r, rd, v), rd) == v
    ensures rd == 0 ==> SetReg(r, rd, v) == r
    ensures GetReg(r, 0) == 0
  {
  }

  lemma ZeroPlus(w: Word)
    ensures Plus(0, w) == w
  {
  }

  /** Executing the one or two words of `li` leaves the integer, modulo 2^32, in rd and
      changes nothing else. */
  lemma LoadConstantLoads(p: Isa.Program, s: Isa.State, e: Isa.Env, f: Isa.Env, rd: RegIdx, value: int)
    requires Ready(p, s, e, f, LoadConstant(rd, value))
    ensures var n := |LoadConstant(rd, value)|;
      var t := if n == 1 then Isa.Step(p, s, e) else Isa.Step(p, Isa.Step(p, s, e), f);
      && t.pc == (if n == 1 then PcPlus4(s.pc) else PcPlus4(PcPlus4(s.pc)))
      && t.regs == SetReg(s.regs, rd, ToWord(value)) && t.mem == s.mem && t.csrs == s.csrs
  {
    hide Encode, Isa.Fetch, Isa.Step, ToWord, Upper, PcPlus4, SetReg, GetReg, Isa.InterruptPending, Plus;
    var calls := LoadConstant(rd, value);
    var v := value % TWO32;
    var low0, high0 := v % 4096, v / 4096;
    assert high0 < 0x10_0000;
    var high := if low0 >= 2048 then (high0 + 1) % 0x10_0000 else high0;
    var low := if low0 >= 2048 then low0 - 4096 else low0;
    var q := value / TWO32 + (if low0 >= 2048 && high == 0 then 1 else 0);
    assert value == TWO32 * q + 4096 * high + low;
    SplitAdds(value, high, low, q);
    ZeroPlus(ToWord(low));
    SetTwice(s.regs, rd, Upper(ToWord(high)), ToWord(value));
    SetTwice(s.regs, rd, ToWord(value), ToWord(value));
    if high == 0 {
      StepAddi(p, s, e, rd, 0, low);
    } else {
      StepLui(p, s, e, rd, high);
      if low != 0 {
        var t := Isa.Step(p, s, e);
        StepAddi(p, t, f, rd, rd, low);
        SetTwice(s.regs, rd, Upper(ToWord(high)), Plus(GetReg(t.regs, rd), ToWord(low)));
        SetTwice(s.regs, rd, Plus(GetReg(t.regs, rd), ToWord(low)), ToWord(value));
      }
    }
  }
}
