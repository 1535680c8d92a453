/**
 The shared vocabulary of the RV32I core: machine words, the control word that
 travels down the pipeline, the register file and the byte-addressed data memory.
 Field names follow modules/core/rtl/rv32i_pkg.sv.
 */
module Rv32iPkg {

  type Word = bv32
  type RegIdx = bv5

  /** Thirty-two slots; slot 0 is never read and never written, so x0 is zero by
      the two accessors below and not by what the slot holds. */
  type Regs = r: seq<Word> | |r| == 32 witness seq(32, i => 0)

  function GetReg(r: Regs, i: RegIdx): Word {
    if i == 0 then 0 else r[i as nat]
  }

  function SetReg(r: Regs, i: RegIdx, v: Word): Regs {
    if i == 0 then r else r[i as nat := v]
  }

  // ---- Data memory: total, byte addressed, zero where never written ---------

  datatype ByteAddr = At(a: Word)
  type Memory = map<ByteAddr, bv8>

  function ByteAt(m: Memory, a: Word): bv8 {
    if At(a) in m then m[At(a)] else 0
  }

  function Put(m: Memory, a: Word, v: bv8): Memory { m[At(a) := v] }

  /** Four bytes as a word, most significant first. */
  function Cat(b3: bv8, b2: bv8, b1: bv8, b0: bv8): Word {
    ((b3 as Word) << 24) | ((b2 as Word) << 16) | ((b1 as Word) << 8) | (b0 as Word)
  }

  function ByteOf(w: Word, k: bv2): bv8 {
    match k
    case 0 => (w & 0xFF) as bv8
    case 1 => ((w >> 8) & 0xFF) as bv8
    case 2 => ((w >> 16) & 0xFF) as bv8
    case 3 => ((w >> 24) & 0xFF) as bv8
  }

  /** The half-word selected by bit 1 of the offset. */
  function HalfOf(w: Word, offset: bv2): bv16 {
    if offset & 2 != 0 then ((w >> 16) & 0xFFFF) as bv16 else (w & 0xFFFF) as bv16
  }

  function CatHalf(b1: bv8, b0: bv8): bv16 { ((b1 as bv16) << 8) | (b0 as bv16) }

  /** Byte `k` of the aligned word that contains address `a`. */
  function Lane(a: Word, k: bv2): Word { (a & 0xFFFF_FFFC) | (k as Word) }

  /** The four bytes of the aligned word around `a`, little endian. */
  function ReadWord(m: Memory, a: Word): Word {
    Cat(ByteAt(m, Lane(a, 3)), ByteAt(m, Lane(a, 2)), ByteAt(m, Lane(a, 1)), ByteAt(m, Lane(a, 0)))
  }

  // ---- Control word -----------------------------------------------------------

  datatype AluOp =
    AluAdd | AluSub | AluSll | AluSlt | AluSltu | AluXor | AluSrl | AluSra | AluOr | AluAnd | AluLui

  datatype Ctrl = Ctrl(
    regWrite: bool, memRead: bool, memWrite: bool, memToReg: bool,
    branch: bool, jal: bool, jalr: bool, aluSrc: bool, lui: bool, auipc: bool,
    aluOp: AluOp, funct3: bv3,
    valid: bool, isCsr: bool, csrImm: bool, isEcall: bool, isEbreak: bool, isMret: bool)

  const NOP_CTRL := Ctrl(false, false, false, false, false, false, false, false, false, false,
                         AluAdd, 0, false, false, false, false, false, false)

  const NOP_INSTR: Word := 0x0000_0013

  // ---- Small bit-level helpers ------------------------------------------------

  function Sext8(b: bv8): Word { if b & 0x80 == 0 then b as Word else (b as Word) | 0xFFFF_FF00 }

  function Sext16(h: bv16): Word { if h & 0x8000 == 0 then h as Word else (h as Word) | 0xFFFF_0000 }

  predicate SignedLess(a: Word, b: Word) { (a ^ 0x8000_0000) < (b ^ 0x8000_0000) }

  predicate TopSet(a: Word) { a & 0x8000_0000 != 0 }

  function Not(a: Word): Word { !a }

  function Sll(a: Word, n: bv5): Word { a << n }

  function Srl(a: Word, n: bv5): Word { a >> n }

  /** The shift amount in a register operand. */
  function Shamt(b: Word): bv5 { (b & 0x1F) as bv5 }

  /** The sign is shifted in: a negative word is shifted as its complement. */
  function ShiftRightArith(a: Word, n: bv5): Word {
    if TopSet(a) then Not(Srl(Not(a), n)) else Srl(a, n)
  }

  /** The halves of a 64-bit counter. */
  function LowHalf(n: bv64): Word { (n & 0xFFFF_FFFF) as Word }

  function HighHalf(n: bv64): Word { (n >> 32) as Word }

  predicate Bit(w: Word, i: bv5) { (w >> i) & 1 == 1 }

  /** Addition modulo 2^32. */
  function Plus(a: Word, b: Word): Word { a + b }

  function PcPlus4(pc: Word): Word { pc + 4 }

  function ClearLow1(w: Word): Word { w & 0xFFFF_FFFE }

  function ClearLow2(w: Word): Word { w & 0xFFFF_FFFC }

  predicate Aligned(pc: Word) { pc & 3 == 0 }

  /** The loaded word formatted by width and low address bits (`load_extend`). */
  function LoadExtend(funct3: bv3, offset: bv2, word: Word): Word {
    match funct3
    case 0 => Sext8(ByteOf(word, offset))
    case 4 => ByteOf(word, offset) as Word
    case 1 => Sext16(HalfOf(word, offset))
    case 5 => HalfOf(word, offset) as Word
    case _ => word
  }
}
