/**
 Every operation of the architecture's ALU on the integers its operands stand for, and
 the logical ones bit by bit; the hardware's ALU with them.
 */
module RvArithmetic {
  import opened Basics
  import opened Rv32iPkg
  import opened SocWords
  import opened RvIntegers
  import Isa = RvIsa
  import Stages = RvStages
  import RvDatapath

  // ---- Shift amounts ------------------------------------------------------------------

  lemma AmountNext(w: Word)
    ensures Shamt(Plus(w, 1)) == Shamt(w) + 1
  {
  }

  lemma AmountWraps(k: bv5)
    ensures Amount(k + 1) == (Amount(k) + 1) % 32
  {
  }

  /** Only the remainder modulo 32 of a shift amount counts. */
  lemma {:induction false} AmountOf(k: nat)
    ensures Amount(Shamt(ToWord(k))) == k % 32
  {
    hide Amount, Shamt, Plus, Low;
    NaturalWord(k);
    if k == 0 {
      LowZero();
      ZeroAmount();
    } else {
      NaturalWord(k - 1);
      LowNext(k - 1);
      AmountOf(k - 1);
      AmountNext(Low(k - 1));
      AmountWraps(Shamt(Low(k - 1)));
    }
  }

  lemma ZeroAmount()
    ensures Amount(Shamt(0)) == 0
  {
  }

  // ---- Left shifts -----------------------------------------------------------------------

  lemma LeftNext(w: Word, k: bv5)
    ensures Sll(w, 0) == w && Amount(0) == 0
    ensures k != 0 ==> Amount(k) == Amount(k - 1) + 1
    ensures k != 0 ==> Sll(w, k) == Plus(Sll(w, k - 1), Sll(w, k - 1))
  {
    if k != 0 {
      LeftStep(w, k);
      LeftOne(Sll(w, k - 1));
      ShiftNext(w, k);
    }
    hide Plus;
  }

  lemma LeftStep(w: Word, k: bv5)
    requires k != 0
    ensures Sll(w, k) == Sll(Sll(w, k - 1), 1)
  {
  }

  lemma LeftOne(w: Word)
    ensures Sll(w, 1) == Plus(w, w)
  {
  }

  lemma {:induction false} LeftShift(n: int, k: bv5, j: nat)
    requires j == Amount(k)
    ensures Sll(ToWord(n), k) == ToWord(n * Pow2(j))
    decreases j
  {
    hide ToWord, Sll, Plus, Amount;
    LeftNext(ToWord(n), k);
    if k != 0 {
      LeftShift(n, k - 1, j - 1);
      var m := n * Pow2(j - 1);
      assert n * Pow2(j) == m + m;
      ToWordSum(m, m);
    }
  }

  // ---- The operations ----------------------------------------------------------------------

  lemma SubtractsMinus(a: Word, b: Word)
    ensures Isa.Compute(Isa.FnSub, a, b) == Plus(a, Minus(b))
  {
    AddNegative(a, b);
    hide Plus, Minus;
  }

  lemma AddNegative(a: Word, b: Word)
    ensures a - b == Plus(a, Minus(b))
  {
    assert a - b == a + (0 - b);
  }

  /** Addition and subtraction modulo 2^32. */
  lemma SumsExact(x: int, y: int)
    ensures Isa.Compute(Isa.FnAdd, ToWord(x), ToWord(y)) == ToWord(x + y)
    ensures Isa.Compute(Isa.FnSub, ToWord(x), ToWord(y)) == ToWord(x - y)
  {
    ToWordSum(x, y);
    hide ToWord, Plus, Minus;
    SubtractsMinus(ToWord(x), ToWord(y));
    Negated(y);
    ToWordSum(x, -y);
  }

  /** Left shifts multiply, right shifts divide and round down, by a power of two whose
      exponent is taken modulo 32. */
  lemma ShiftsExact(n: int, k: nat)
    ensures Isa.Compute(Isa.FnSll, ToWord(n), ToWord(k)) == ToWord(n * Pow2(k % 32))
    ensures 0 <= n < 0x1_0000_0000 ==> Isa.Compute(Isa.FnSrl, ToWord(n), ToWord(k)) == ToWord(n / Pow2(k % 32))
    ensures Signed32(n) ==> Isa.Compute(Isa.FnSra, ToWord(n), ToWord(k)) == ToWord(n / Pow2(k % 32))
  {
    hide ToWord, Low, Sll, Srl, ShiftRightArith, Shamt, Amount;
    AmountOf(k);
    var s := Shamt(ToWord(k));
    LeftShift(n, s, k % 32);
    if 0 <= n < 0x1_0000_0000 {
      NaturalWord(n);
      LogicalShift(n, s, k % 32);
    }
    if Signed32(n) {
      ArithmeticShift(n, s, k % 32);
    }
  }

  /** The comparisons give one or zero. */
  lemma ComparisonsExact(x: int, y: int)
    ensures Signed32(x) && Signed32(y) ==>
      Isa.Compute(Isa.FnSlt, ToWord(x), ToWord(y)) == ToWord(if x < y then 1 else 0)
    ensures 0 <= x < 0x1_0000_0000 && 0 <= y < 0x1_0000_0000 ==>
      Isa.Compute(Isa.FnSltu, ToWord(x), ToWord(y)) == ToWord(if x < y then 1 else 0)
  {
    hide Low, SignedLess;
    LowZero();
    if Signed32(x) && Signed32(y) {
      SignedOrder(x, y);
    }
    if 0 <= x < 0x1_0000_0000 && 0 <= y < 0x1_0000_0000 {
      UnsignedOrder(x, y);
    }
  }

  /** The conditions of the six branches, on the integers the operands stand for. */
  lemma ConditionsExact(x: int, y: int)
    requires Signed32(x) && Signed32(y)
    ensures Isa.Holds(Isa.Lt, ToWord(x), ToWord(y)) <==> x < y
    ensures Isa.Holds(Isa.Ge, ToWord(x), ToWord(y)) <==> x >= y
    ensures Isa.Holds(Isa.Eq, ToWord(x), ToWord(y)) <==> x == y
    ensures Isa.Holds(Isa.Ne, ToWord(x), ToWord(y)) <==> x != y
    ensures !Isa.Holds(Isa.Never, ToWord(x), ToWord(y))
  {
    hide ToWord, SignedLess;
    SignedOrder(x, y);
    SignedOrder(y, x);
    SignedIrreflexive(ToWord(x));
  }

  lemma SignedIrreflexive(w: Word)
    ensures !SignedLess(w, w)
  {
  }

  lemma UnsignedConditionsExact(m: nat, n: nat)
    requires m < 0x1_0000_0000 && n < 0x1_0000_0000
    ensures Isa.Holds(Isa.Ltu, ToWord(m), ToWord(n)) <==> m < n
    ensures Isa.Holds(Isa.Geu, ToWord(m), ToWord(n)) <==> m >= n
  {
    hide Low;
    UnsignedOrder(m, n);
    LessOrNot(ToWord(m), ToWord(n));
  }

  lemma LessOrNot(a: Word, b: Word)
    ensures a >= b <==> !(a < b)
  {
  }

  /** The logical operations, bit by bit. */
  lemma LogicExact(a: Word, b: Word, k: bv5)
    ensures Bit(Isa.Compute(Isa.FnAnd, a, b), k) <==> Bit(a, k) && Bit(b, k)
    ensures Bit(Isa.Compute(Isa.FnOr, a, b), k) <==> Bit(a, k) || Bit(b, k)
    ensures Bit(Isa.Compute(Isa.FnXor, a, b), k) <==> Bit(a, k) != Bit(b, k)
  {
    AndBits(a, b, k);
    OrBits(a, b, k);
    XorBits(a, b, k);
    hide Bit;
  }

  lemma AndBits(a: Word, b: Word, k: bv5)
    ensures Bit(a & b, k) <==> Bit(a, k) && Bit(b, k)
  {
  }

  lemma OrBits(a: Word, b: Word, k: bv5)
    ensures Bit(a | b, k) <==> Bit(a, k) || Bit(b, k)
  {
  }

  lemma XorBits(a: Word, b: Word, k: bv5)
    ensures Bit(a ^ b, k) <==> Bit(a, k) != Bit(b, k)
  {
  }

  lemma LowestBit(n: nat)
    ensures Low(n) & 1 == 1 <==> n % 2 == 1
  {
    LowUnfold(n);
    DoubledParity(Low(n / 2), n % 2);
    hide Doubled;
  }

  lemma DoubledParity(w: Word, bit: nat)
    requires bit < 2
    ensures Doubled(w, bit) & 1 == 1 <==> bit == 1
  {
    if bit == 0 {
      EvenParity(w);
    } else {
      OddParity(w);
    }
    hide Doubled;
  }

  lemma EvenParity(w: Word)
    ensures Doubled(w, 0) & 1 == 0
  {
  }

  lemma OddParity(w: Word)
    ensures Doubled(w, 1) & 1 == 1
  {
  }

  lemma BitIsShift(w: Word, k: bv5)
    ensures Bit(w, k) <==> Srl(w, k) & 1 == 1
  {
  }

  /** Bit `k` of a word is binary digit `k` of the natural it stands for. */
  lemma BitMeans(n: nat, k: bv5, j: nat)
    requires n < 0x1_0000_0000 && j == Amount(k)
    ensures Bit(ToWord(n), k) <==> n / Pow2(j) % 2 == 1
  {
    hide Low, Bit, Srl, Amount;
    NaturalWord(n);
    BitIsShift(Low(n), k);
    LogicalShift(n, k, j);
    ScaledNext(n, j);
    LowestBit(Scaled(n, j));
    hide ToWord;
    NaturalWord(Scaled(n, j));
  }

  // ---- Addresses -----------------------------------------------------------------------------

  /** Dropping low bits rounds down: jump targets to a multiple of two. */
  lemma RoundsToTwo(w: Word)
    ensures ClearLow1(w) & 1 == 0 && ClearLow1(w) | (w & 1) == w
  {
  }

  /** Trap vectors and return addresses to a multiple of four. */
  lemma RoundsToFour(w: Word)
    ensures ClearLow2(w) & 3 == 0 && ClearLow2(w) | (w & 3) == w
  {
  }

  lemma AlignedIsRounded(w: Word)
    ensures Aligned(w) <==> ClearLow2(w) == w
  {
  }

  lemma NextWord(pc: Word)
    ensures PcPlus4(pc) == Plus(pc, 4)
  {
  }

  /** Instruction `k` of the memory lies at address 4k. */
  lemma FetchesByWord(p: Isa.Program, k: bv10)
    ensures Isa.Fetch(p, (k as Word) << 2) == p[k as nat]
  {
    assert (((k as Word) << 2) >> 2) & 0x3ff == k as Word;
  }

  /** The halves make up the counter. */
  lemma HalvesJoin(n: bv64)
    ensures ((HighHalf(n) as bv64) << 32) | (Rv32iPkg.LowHalf(n) as bv64) == n
  {
  }

  /** After reset interrupts are off and every register reads zero, but for the machine mode
      in `mstatus` and what comes from outside. */
  lemma ResetReads(e: Isa.Env, addr: bv12)
    requires addr != 0x344 && addr != 0xb00 && addr != 0xb02
    ensures Isa.ReadCsr(Isa.CSRS_AT_RESET, e, addr) == if addr == 0x300 then 0x1800 else 0
    ensures !Isa.InterruptPending(Isa.CSRS_AT_RESET, e)
  {
  }

  // ---- The hardware ----------------------------------------------------------------------------

  /** The same of the ALU with the operation the decoder selects: `slli`, `sll` and the
      other shifts. */
  lemma AluShifts(n: int, k: nat, subtract: bool)
    ensures Stages.Alu(Stages.ArithAluOp(1, subtract, false), ToWord(n), ToWord(k)) == ToWord(n * Pow2(k % 32))
    ensures 0 <= n < 0x1_0000_0000 ==>
      Stages.Alu(Stages.ArithAluOp(5, subtract, false), ToWord(n), ToWord(k)) == ToWord(n / Pow2(k % 32))
    ensures Signed32(n) ==>
      Stages.Alu(Stages.ArithAluOp(5, subtract, true), ToWord(n), ToWord(k)) == ToWord(n / Pow2(k % 32))
  {
    hide ToWord, Isa.Compute, Stages.Alu, Stages.ArithAluOp;
    ShiftsExact(n, k);
    RvDatapath.AluExact(1, subtract, false, ToWord(n), ToWord(k));
    RvDatapath.AluExact(5, subtract, false, ToWord(n), ToWord(k));
    RvDatapath.AluExact(5, subtract, true, ToWord(n), ToWord(k));
  }

  lemma AluSums(x: int, y: int, arithShift: bool)
    ensures Stages.Alu(Stages.ArithAluOp(0, false, arithShift), ToWord(x), ToWord(y)) == ToWord(x + y)
    ensures Stages.Alu(Stages.ArithAluOp(0, true, arithShift), ToWord(x), ToWord(y)) == ToWord(x - y)
  {
    hide ToWord, Isa.Compute, Stages.Alu, Stages.ArithAluOp;
    SumsExact(x, y);
    RvDatapath.AluExact(0, false, arithShift, ToWord(x), ToWord(y));
    RvDatapath.AluExact(0, true, arithShift, ToWord(x), ToWord(y));
  }

  /** `slli x1, x1, 4`: 1 becomes 16. */
  lemma ShiftLeftWord()
    ensures Isa.Decode(0x0040_9093) == Isa.OpImm(Isa.FnSll, 1, 4) && Isa.Rs1(0x0040_9093) == 1
    ensures Isa.Compute(Isa.FnSll, 1, 4) == 16
  {
  }
}
