/**
 Every RV32I and Zicsr instruction in the formats and with the opcodes of the instruction
 listings (RISC-V Unprivileged ISA, chapters 2, 6 and the listings of RV32/64G), and the
 proof that the decoder takes each word for the instruction it lists.
 */
module RvEncoding {
  import opened Rv32iPkg
  import opened SocFields
  import Isa = RvIsa

  /** The J format: bits 20, 10 to 1, 11 and 19 to 12 of the offset. */
  function WordJ(imm: Word, rd: RegIdx): Word {
    (((imm >> 20) & 1) << 31) | (((imm >> 1) & 0x3ff) << 21) | (((imm >> 11) & 1) << 20) |
    (((imm >> 12) & 0xff) << 12) | ((rd as Word) << 7) | 0x6f
  }

  function BranchCode(c: Isa.Cond): bv3 {
    match c case Eq => 0 case Ne => 1 case Lt => 4 case Ge => 5 case Ltu => 6 case Geu => 7 case Never => 2
  }

  function LoadCode(k: Isa.LoadKind): bv3 {
    match k case LoadByte => 0 case LoadHalf => 1 case LoadWord => 2 case LoadByteU => 4 case LoadHalfU => 5
  }

  function StoreCode(k: Isa.StoreKind): bv3 {
    match k case StoreByte => 0 case StoreHalf => 1 case StoreWord => 2
  }

  function ArithCode(fn: Isa.AluFn): bv3 {
    match fn
    case FnAdd => 0 case FnSub => 0 case FnSll => 1 case FnSlt => 2 case FnSltu => 3 case FnXor => 4
    case FnSrl => 5 case FnSra => 5 case FnOr => 6 case FnAnd => 7
  }

  function CsrCode(op: Isa.CsrOp, immediate: bool): bv3 {
    match op
    case CsrWrite => if immediate then 5 else 1
    case CsrSet => if immediate then 6 else 2
    case CsrClear => if immediate then 7 else 3
    case CsrReadOnly => 4
  }

  /** The word of an instruction, with its source registers. */
  function Listed(i: Isa.Instr, rs1: RegIdx, rs2: RegIdx): Word {
    match i
    case Lui(rd, imm) => WordU(Upper20(imm), rd, 0x37)
    case Auipc(rd, imm) => WordU(Upper20(imm), rd, 0x17)
    case Jal(rd, imm) => WordJ(imm, rd)
    case Jalr(rd, imm) => WordI(imm, rs1, 0, rd, 0x67)
    case Branch(c, imm) => WordB(imm, rs2, rs1, BranchCode(c))
    case Load(k, rd, imm) => WordI(imm, rs1, LoadCode(k), rd, 0x03)
    case Store(k, imm) => WordS(imm, rs2, rs1, StoreCode(k), 0x23)
    case OpImm(fn, rd, imm) => WordI(imm, rs1, ArithCode(fn), rd, 0x13)
    case OpReg(fn, rd) => WordR(if fn.FnSub? || fn.FnSra? then 0x20 else 0, rs2, rs1, ArithCode(fn), rd, 0x33)
    case Fence => 0x0ff0_000f
    case Csr(op, rd, addr, immediate) => WordI(addr as Word, rs1, CsrCode(op, immediate), rd, 0x73)
    case Ecall => 0x0000_0073
    case Ebreak => 0x0010_0073
    case Mret => 0x3020_0073
    case Undecoded => 0
  }

  /** Immediates that fit their format; a shift amount has five bits, and `srai` sets bit 10
      above it. */
  predicate Encodable(i: Isa.Instr) {
    match i
    case Lui(_, imm) => imm & 0xfff == 0
    case Auipc(_, imm) => imm & 0xfff == 0
    case Jal(_, imm) => Fits21(imm)
    case Jalr(_, imm) => Fits12(imm)
    case Branch(c, imm) => Fits13(imm) && !c.Never?
    case Load(_, _, imm) => Fits12(imm)
    case Store(_, imm) => Fits12(imm)
    case OpImm(fn, _, imm) =>
      Fits12(imm) && !fn.FnSub? && (fn.FnSll? || fn.FnSrl? ==> imm < 32) && (fn.FnSra? ==> 0x400 <= imm < 0x420)
    case Csr(op, _, _, _) => !op.CsrReadOnly?
    case Undecoded => false
    case _ => true
  }

  predicate Fits21(imm: Word) {
    (imm <= 0xf_ffff || imm >= 0xfff0_0000) && imm & 1 == 0
  }

  predicate UsesRs1(i: Isa.Instr) {
    i.Jalr? || i.Branch? || i.Load? || i.Store? || i.OpImm? || i.OpReg? || i.Csr?
  }

  predicate UsesRs2(i: Isa.Instr) {
    i.Branch? || i.Store? || i.OpReg?
  }

  // ---- Formats read back ------------------------------------------------------------------

  lemma FieldsJ(imm: Word, rd: RegIdx)
    ensures var w := WordJ(imm, rd); (w & 0x7f) as bv7 == 0x6f && Isa.Rd(w) == rd
  {
  }

  lemma ImmediateJ(imm: Word, rd: RegIdx)
    requires Fits21(imm)
    ensures Isa.ImmJ(WordJ(imm, rd)) == imm
  {
    if imm <= 0xf_ffff {
      ForwardJ(imm, rd);
    } else {
      BackwardJ(imm, rd);
    }
    hide WordJ, Isa.ImmJ;
  }

  lemma ForwardJ(imm: Word, rd: RegIdx)
    requires imm <= 0xf_ffff && imm & 1 == 0
    ensures Isa.ImmJ(WordJ(imm, rd)) == imm
  {
  }

  lemma BackwardJ(imm: Word, rd: RegIdx)
    requires imm >= 0xfff0_0000 && imm & 1 == 0
    ensures Isa.ImmJ(WordJ(imm, rd)) == imm
  {
  }

  /** The upper immediate field. */
  function Upper20(imm: Word): Word { imm >> 12 }

  lemma UpperReads(imm: Word, rd: RegIdx, opcode: bv7)
    requires imm & 0xfff == 0
    ensures var w := WordU(Upper20(imm), rd, opcode);
      (w & 0x7f) as bv7 == opcode && Isa.Rd(w) == rd && Isa.ImmU(w) == imm
  {
  }

  lemma AlternateBits(imm: Word, funct7: bv7, rs2: RegIdx, rs1: RegIdx, funct3: bv3, rd: RegIdx, opcode: bv7)
    ensures Bit(WordR(funct7, rs2, rs1, funct3, rd, opcode), 30) <==> funct7 & 0x20 != 0
    ensures Bit(WordI(imm, rs1, funct3, rd, opcode), 30) <==> imm & 0x400 != 0
  {
  }

  // ---- The decoder on each opcode ------------------------------------------------------------

  lemma DecodeUpper(w: Word)
    ensures (w & 0x7f) as bv7 == 0x37 ==> Isa.Decode(w) == Isa.Lui(Isa.Rd(w), Isa.ImmU(w))
    ensures (w & 0x7f) as bv7 == 0x17 ==> Isa.Decode(w) == Isa.Auipc(Isa.Rd(w), Isa.ImmU(w))
    ensures (w & 0x7f) as bv7 == 0x6f ==> Isa.Decode(w) == Isa.Jal(Isa.Rd(w), Isa.ImmJ(w))
    ensures (w & 0x7f) as bv7 == 0x67 ==> Isa.Decode(w) == Isa.Jalr(Isa.Rd(w), Isa.ImmI(w))
  {
    hide Bit, Isa.Funct3, Isa.Rd, Isa.ImmI, Isa.ImmU, Isa.ImmJ, Isa.ImmS, Isa.ImmB;
  }

  lemma DecodeBranch(w: Word, c: Isa.Cond)
    requires (w & 0x7f) as bv7 == 0x63 && Isa.Funct3(w) == BranchCode(c)
    ensures Isa.Decode(w) == Isa.Branch(c, Isa.ImmB(w))
  {
    hide Bit, Isa.Funct3, Isa.Rd, Isa.ImmI, Isa.ImmU, Isa.ImmJ, Isa.ImmS, Isa.ImmB;
  }

  lemma DecodeLoad(w: Word, k: Isa.LoadKind)
    requires (w & 0x7f) as bv7 == 0x03 && Isa.Funct3(w) == LoadCode(k)
    ensures Isa.Decode(w) == Isa.Load(k, Isa.Rd(w), Isa.ImmI(w))
  {
    hide Bit, Isa.Funct3, Isa.Rd, Isa.ImmI, Isa.ImmU, Isa.ImmJ, Isa.ImmS, Isa.ImmB;
  }

  lemma DecodeStore(w: Word, k: Isa.StoreKind)
    requires (w & 0x7f) as bv7 == 0x23 && Isa.Funct3(w) == StoreCode(k)
    ensures Isa.Decode(w) == Isa.Store(k, Isa.ImmS(w))
  {
    hide Bit, Isa.Funct3, Isa.Rd, Isa.ImmI, Isa.ImmU, Isa.ImmJ, Isa.ImmS, Isa.ImmB;
  }

  lemma DecodeImmediate(w: Word, fn: Isa.AluFn)
    requires (w & 0x7f) as bv7 == 0x13 && Isa.Funct3(w) == ArithCode(fn) && !fn.FnSub?
    requires fn.FnSrl? || fn.FnSra? ==> Bit(w, 30) == fn.FnSra?
    ensures Isa.Decode(w) == Isa.OpImm(fn, Isa.Rd(w), Isa.ImmI(w))
  {
    hide Bit, Isa.Funct3, Isa.Rd, Isa.ImmI, Isa.ImmU, Isa.ImmJ, Isa.ImmS, Isa.ImmB;
  }

  lemma DecodeRegister(w: Word, fn: Isa.AluFn)
    requires (w & 0x7f) as bv7 == 0x33 && Isa.Funct3(w) == ArithCode(fn)
    requires Bit(w, 30) == (fn.FnSub? || fn.FnSra?)
    ensures Isa.Decode(w) == Isa.OpReg(fn, Isa.Rd(w))
  {
    hide Bit, Isa.Funct3, Isa.Rd, Isa.ImmI, Isa.ImmU, Isa.ImmJ, Isa.ImmS, Isa.ImmB;
  }

  lemma DecodeCsrWord(w: Word, op: Isa.CsrOp, immediate: bool)
    requires (w & 0x7f) as bv7 == 0x73 && Isa.Funct3(w) == CsrCode(op, immediate) && !op.CsrReadOnly?
    ensures Isa.Decode(w) == Isa.Csr(op, Isa.Rd(w), Isa.Funct12(w), immediate)
  {
    hide Bit, Isa.Funct3, Isa.Rd, Isa.Funct12, Isa.ImmI, Isa.ImmU, Isa.ImmJ, Isa.ImmS, Isa.ImmB;
  }

  lemma DecodePlain()
    ensures Isa.Decode(0x0ff0_000f) == Isa.Fence
    ensures Isa.Decode(0x0000_0073) == Isa.Ecall
    ensures Isa.Decode(0x0010_0073) == Isa.Ebreak
    ensures Isa.Decode(0x3020_0073) == Isa.Mret
  {
    hide Bit;
  }

  lemma CsrAddressBack(addr: bv12)
    ensures ((addr as Word) & 0xfff) as bv12 == addr
  {
  }

  lemma UpperListed(rd: RegIdx, imm: Word)
    requires imm & 0xfff == 0
    ensures Isa.Decode(WordU(Upper20(imm), rd, 0x37)) == Isa.Lui(rd, imm)
    ensures Isa.Decode(WordU(Upper20(imm), rd, 0x17)) == Isa.Auipc(rd, imm)
  {
    hide Isa.Decode, WordU, Upper20, Isa.ImmU, Isa.ImmJ, Isa.ImmI, Isa.Rd;
    UpperReads(imm, rd, 0x37);
    UpperReads(imm, rd, 0x17);
    DecodeUpper(WordU(Upper20(imm), rd, 0x37));
    DecodeUpper(WordU(Upper20(imm), rd, 0x17));
  }

  lemma JumpListed(rd: RegIdx, imm: Word, rs1: RegIdx)
    ensures Fits21(imm) ==> Isa.Decode(WordJ(imm, rd)) == Isa.Jal(rd, imm)
    ensures var w := WordI(imm, rs1, 0, rd, 0x67);
      Fits12(imm) ==> Isa.Decode(w) == Isa.Jalr(rd, imm) && Isa.Rs1(w) == rs1
  {
    hide Isa.Decode, WordJ, WordI, Isa.ImmU, Isa.ImmJ, Isa.ImmI, Isa.Rd, Isa.Rs1, Isa.Funct3, Isa.Funct12, Fits12,
      Fits21;
    if Fits21(imm) {
      FieldsJ(imm, rd);
      ImmediateJ(imm, rd);
      DecodeUpper(WordJ(imm, rd));
    }
    if Fits12(imm) {
      FieldsI(imm, rs1, 0, rd, 0x67);
      ImmediateI(imm, rs1, 0, rd, 0x67);
      DecodeUpper(WordI(imm, rs1, 0, rd, 0x67));
    }
  }

  lemma LoadListed(k: Isa.LoadKind, rd: RegIdx, imm: Word, rs1: RegIdx)
    requires Fits12(imm)
    ensures var w := WordI(imm, rs1, LoadCode(k), rd, 0x03);
      Isa.Decode(w) == Isa.Load(k, rd, imm) && Isa.Rs1(w) == rs1
  {
    hide Isa.Decode, WordI, Isa.ImmI, Isa.Rd, Isa.Rs1, Isa.Funct3, Isa.Funct12, Fits12, LoadCode;
    FieldsI(imm, rs1, LoadCode(k), rd, 0x03);
    ImmediateI(imm, rs1, LoadCode(k), rd, 0x03);
    DecodeLoad(WordI(imm, rs1, LoadCode(k), rd, 0x03), k);
  }

  lemma StoreListed(k: Isa.StoreKind, imm: Word, rs1: RegIdx, rs2: RegIdx)
    requires Fits12(imm)
    ensures var w := WordS(imm, rs2, rs1, StoreCode(k), 0x23);
      Isa.Decode(w) == Isa.Store(k, imm) && Isa.Rs1(w) == rs1 && Isa.Rs2(w) == rs2
  {
    hide Isa.Decode, WordS, Isa.ImmS, Isa.Rs1, Isa.Rs2, Isa.Funct3, Fits12, StoreCode;
    FieldsS(imm, rs2, rs1, StoreCode(k), 0x23);
    ImmediateS(imm, rs2, rs1, StoreCode(k), 0x23);
    DecodeStore(WordS(imm, rs2, rs1, StoreCode(k), 0x23), k);
  }

  lemma CsrListed(op: Isa.CsrOp, rd: RegIdx, addr: bv12, immediate: bool, rs1: RegIdx)
    requires !op.CsrReadOnly?
    ensures var w := WordI(addr as Word, rs1, CsrCode(op, immediate), rd, 0x73);
      Isa.Decode(w) == Isa.Csr(op, rd, addr, immediate) && Isa.Rs1(w) == rs1
  {
    hide Isa.Decode, WordI, Isa.Rd, Isa.Rs1, Isa.Funct3, Isa.Funct12, CsrCode;
    CsrAddressBack(addr);
    FieldsI(addr as Word, rs1, CsrCode(op, immediate), rd, 0x73);
    DecodeCsrWord(WordI(addr as Word, rs1, CsrCode(op, immediate), rd, 0x73), op, immediate);
  }

  /** The decoder takes every listed word for its instruction, and finds the source
      registers where the formats put them. */
  lemma ListedDecodes(i: Isa.Instr, rs1: RegIdx, rs2: RegIdx)
    requires Encodable(i)
    ensures var w := Listed(i, rs1, rs2);
      && Isa.Decode(w) == i
      && (UsesRs1(i) ==> Isa.Rs1(w) == rs1) && (UsesRs2(i) ==> Isa.Rs2(w) == rs2)
  {
    hide Isa.Decode, WordU, WordI, WordS, WordR, WordB, WordJ, Upper20, Isa.Rs1, Isa.Rs2, Fits12, Fits13, Fits21,
      BranchCode, LoadCode, StoreCode, ArithCode, CsrCode;
    match i
    case Lui(rd, imm) => UpperListed(rd, imm);
    case Auipc(rd, imm) => UpperListed(rd, imm);
    case Jal(rd, imm) => JumpListed(rd, imm, rs1);
    case Jalr(rd, imm) => JumpListed(rd, imm, rs1);
    case Branch(c, imm) => BranchListed(c, imm, rs1, rs2);
    case Load(k, rd, imm) => LoadListed(k, rd, imm, rs1);
    case Store(k, imm) => StoreListed(k, imm, rs1, rs2);
    case OpImm(fn, rd, imm) => ImmediateListed(fn, rd, imm, rs1);
    case OpReg(fn, rd) => RegisterListed(fn, rd, rs1, rs2);
    case Csr(op, rd, addr, immediate) => CsrListed(op, rd, addr, immediate, rs1);
    case _ => DecodePlain();
  }

  lemma BranchListed(c: Isa.Cond, imm: Word, rs1: RegIdx, rs2: RegIdx)
    requires Fits13(imm)
    ensures var w := WordB(imm, rs2, rs1, BranchCode(c));
      Isa.Decode(w) == Isa.Branch(c, imm) && Isa.Rs1(w) == rs1 && Isa.Rs2(w) == rs2
  {
    hide Isa.Decode, WordR, BranchHigh, BranchLow, Isa.ImmB, Isa.Rd, Isa.Rs1, Isa.Rs2, Isa.Funct3, Fits13, BranchCode;
    FieldsR(BranchHigh(imm), rs2, rs1, BranchCode(c), BranchLow(imm), 0x63);
    ImmediateB(imm, rs2, rs1, BranchCode(c));
    DecodeBranch(WordB(imm, rs2, rs1, BranchCode(c)), c);
  }

  lemma ShiftBit(imm: Word)
    ensures imm < 32 ==> imm & 0x400 == 0
    ensures 0x400 <= imm < 0x420 ==> imm & 0x400 != 0
  {
  }

  lemma ImmediateListed(fn: Isa.AluFn, rd: RegIdx, imm: Word, rs1: RegIdx)
    requires Encodable(Isa.OpImm(fn, rd, imm))
    ensures var w := WordI(imm, rs1, ArithCode(fn), rd, 0x13);
      Isa.Decode(w) == Isa.OpImm(fn, rd, imm) && Isa.Rs1(w) == rs1
  {
    hide Isa.Decode, WordI, Isa.ImmI, Bit, Isa.Rd, Isa.Rs1, Isa.Rs2, Isa.Funct3, Isa.Funct12, Fits12, ArithCode;
    ShiftBit(imm);
    FieldsI(imm, rs1, ArithCode(fn), rd, 0x13);
    ImmediateI(imm, rs1, ArithCode(fn), rd, 0x13);
    AlternateBits(imm, 0, 0, rs1, ArithCode(fn), rd, 0x13);
    DecodeImmediate(WordI(imm, rs1, ArithCode(fn), rd, 0x13), fn);
  }

  lemma RegisterListed(fn: Isa.AluFn, rd: RegIdx, rs1: RegIdx, rs2: RegIdx)
    ensures var w := Listed(Isa.OpReg(fn, rd), rs1, rs2);
      Isa.Decode(w) == Isa.OpReg(fn, rd) && Isa.Rs1(w) == rs1 && Isa.Rs2(w) == rs2
  {
    hide Isa.Decode, WordR, Bit, Isa.Rd, Isa.Rs1, Isa.Rs2, Isa.Funct3, ArithCode;
    var funct7: bv7 := if fn.FnSub? || fn.FnSra? then 0x20 else 0;
    FieldsR(funct7, rs2, rs1, ArithCode(fn), rd, 0x33);
    AlternateBits(0, funct7, rs2, rs1, ArithCode(fn), rd, 0x33);
    DecodeRegister(Listed(Isa.OpReg(fn, rd), rs1, rs2), fn);
  }

  /** The opcodes of the base instructions; nothing else is decoded. */
  lemma OtherOpcodes(w: Word)
    requires (w & 0x7f) as bv7 !in {0x37, 0x17, 0x6f, 0x67, 0x63, 0x03, 0x23, 0x13, 0x33, 0x0f, 0x73}
    ensures Isa.Decode(w) == Isa.Undecoded
  {
  }
}
