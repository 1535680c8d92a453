/**
 The instruction formats of the Python assembler (`socgen/asm.py`) and what the hardware
 decoder reads back from them.
 */
module SocFields {
  import opened Rv32iPkg
  import Isa = RvIsa

  /** rs1, funct3, rd and the opcode, which most formats share. */
  function Middle(rs1: RegIdx, funct3: bv3, rd: RegIdx, opcode: bv7): Word {
    ((rs1 as Word) << 15) | ((funct3 as Word) << 12) | ((rd as Word) << 7) | (opcode as Word)
  }

  function WordR(funct7: bv7, rs2: RegIdx, rs1: RegIdx, funct3: bv3, rd: RegIdx, opcode: bv7): Word {
    ((funct7 as Word) << 25) | ((rs2 as Word) << 20) | Middle(rs1, funct3, rd, opcode)
  }

  function WordI(imm: Word, rs1: RegIdx, funct3: bv3, rd: RegIdx, opcode: bv7): Word {
    ((imm & 0xfff) << 20) | Middle(rs1, funct3, rd, opcode)
  }

  function WordS(imm: Word, rs2: RegIdx, rs1: RegIdx, funct3: bv3, opcode: bv7): Word {
    (((imm >> 5) & 0x7f) << 25) | ((rs2 as Word) << 20) | Middle(rs1, funct3, (imm & 0x1f) as RegIdx, opcode)
  }

  /** The bits of a branch offset are scattered over the funct7 and rd fields. */
  function BranchHigh(imm: Word): bv7 {
    ((((imm >> 12) & 1) << 6) | ((imm >> 5) & 0x3f)) as bv7
  }

  function BranchLow(imm: Word): RegIdx {
    ((((imm >> 1) & 0xf) << 1) | ((imm >> 11) & 1)) as RegIdx
  }

  function WordB(imm: Word, rs2: RegIdx, rs1: RegIdx, funct3: bv3): Word {
    WordR(BranchHigh(imm), rs2, rs1, funct3, BranchLow(imm), 0x63)
  }

  function WordU(imm20: Word, rd: RegIdx, opcode: bv7): Word {
    ((imm20 & 0xfffff) << 12) | ((rd as Word) << 7) | (opcode as Word)
  }

  // ---- What the decoder reads back ------------------------------------------------------

  lemma FieldsI(imm: Word, rs1: RegIdx, funct3: bv3, rd: RegIdx, opcode: bv7)
    ensures var w := WordI(imm, rs1, funct3, rd, opcode);
      && (w & 0x7f) as bv7 == opcode
      && Isa.Rs1(w) == rs1 && Isa.Rd(w) == rd && Isa.Funct3(w) == funct3
      && Isa.Funct12(w) == (imm & 0xfff) as bv12
  {
  }

  /** Twelve bits, sign-extended, give the word back. */
  predicate Fits12(imm: Word) {
    imm <= 0x7ff || imm >= 0xffff_f800
  }

  predicate Fits13(imm: Word) {
    (imm <= 0xfff || imm >= 0xffff_f000) && imm & 1 == 0
  }

  lemma ImmediateI(imm: Word, rs1: RegIdx, funct3: bv3, rd: RegIdx, opcode: bv7)
    requires Fits12(imm)
    ensures Isa.ImmI(WordI(imm, rs1, funct3, rd, opcode)) == imm
  {
  }

  lemma FieldsS(imm: Word, rs2: RegIdx, rs1: RegIdx, funct3: bv3, opcode: bv7)
    ensures var w := WordS(imm, rs2, rs1, funct3, opcode);
      (w & 0x7f) as bv7 == opcode && Isa.Rs1(w) == rs1 && Isa.Rs2(w) == rs2 && Isa.Funct3(w) == funct3
  {
  }

  lemma ImmediateS(imm: Word, rs2: RegIdx, rs1: RegIdx, funct3: bv3, opcode: bv7)
    requires Fits12(imm)
    ensures Isa.ImmS(WordS(imm, rs2, rs1, funct3, opcode)) == imm
  {
  }

  lemma FieldsR(funct7: bv7, rs2: RegIdx, rs1: RegIdx, funct3: bv3, rd: RegIdx, opcode: bv7)
    ensures var w := WordR(funct7, rs2, rs1, funct3, rd, opcode);
      && (w & 0x7f) as bv7 == opcode
      && Isa.Rs1(w) == rs1 && Isa.Rs2(w) == rs2 && Isa.Funct3(w) == funct3 && Isa.Rd(w) == rd
  {
  }

  lemma AlternateR(rs2: RegIdx, rs1: RegIdx, funct3: bv3, rd: RegIdx, opcode: bv7)
    ensures !Bit(WordR(0, rs2, rs1, funct3, rd, opcode), 30)
  {
  }

  lemma ImmediateB(imm: Word, rs2: RegIdx, rs1: RegIdx, funct3: bv3)
    requires Fits13(imm)
    ensures Isa.ImmB(WordB(imm, rs2, rs1, funct3)) == imm
  {
  }

  lemma FieldsU(imm20: Word, rd: RegIdx, opcode: bv7)
    ensures var w := WordU(imm20, rd, opcode);
      (w & 0x7f) as bv7 == opcode && Isa.Rd(w) == rd && Isa.ImmU(w) == imm20 << 12
  {
  }
}
