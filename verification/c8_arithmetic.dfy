/**
 What the C8's arithmetic and conditions mean, stated on instructions: results and flags on
 integers and bits, and compare-then-branch on the simulator and on the hardware.
 */
module C8Arithmetic {
  import opened Basics
  import opened C8Sim
  import opened C8Rtl

  // ---- Bits of a byte ------------------------------------------------------------------

  /** Binary digit `k`. */
  predicate Digit(n: nat, k: nat) {
    n / Pow2(k) % 2 == 1
  }

  lemma DigitNext(n: nat, k: nat)
    ensures Digit(n, 0) <==> n % 2 == 1
    ensures k > 0 ==> (Digit(n, k) <==> Digit(n / 2, k - 1))
  {
    if k > 0 {
      QuotientOfHalf(n, Pow2(k - 1));
    }
  }

  lemma QuotientOfHalf(n: nat, d: nat)
    requires d > 0
    ensures n / (2 * d) == n / 2 / d
  {
    var q, r := n / 2 / d, n / 2 % d;
    assert n == 2 * (d * q + r) + n % 2;
    assert (2 * d) * q == 2 * (d * q);
    QuotientUnique(n, 2 * d, q, 2 * r + n % 2);
  }

  function Half(x: bv8): bv8 { x >> 1 }
  function Lowest(x: bv8): bv8 { x & 1 }
  function AndOf(x: bv8, y: bv8): bv8 { x & y }
  function OrOf(x: bv8, y: bv8): bv8 { x | y }
  function XorOf(x: bv8, y: bv8): bv8 { x ^ y }

  function BitsOf(a: Byte): bv8 { a as bv8 }
  function NatOf(x: bv8): Byte { x as nat }
  function Next(x: bv8): bv8 { x + 1 }

  lemma HalfBits(x: bv8)
    ensures NatOf(x) / 2 == NatOf(Half(x)) && NatOf(x) % 2 == NatOf(Lowest(x))
  {
  }

  lemma NextBits(x: bv8)
    ensures x != 0xff ==> NatOf(Next(x)) == NatOf(x) + 1
    ensures NatOf(0) == 0 && NatOf(0xff) == 255 && BitsOf(0) == 0
  {
  }

  lemma BitsBack(x: bv8)
    ensures BitsOf(NatOf(x)) == x
  {
  }

  /** A byte and its bits determine each other. */
  lemma {:induction false} NatBack(a: Byte)
    ensures NatOf(BitsOf(a)) == a
  {
    hide BitsOf, NatOf, Next;
    if a == 0 {
      NextBits(0);
    } else {
      var x := BitsOf(a - 1);
      NatBack(a - 1);
      NextBits(x);
      BitsBack(Next(x));
    }
  }

  lemma HalfByte(a: Byte)
    ensures BitsOf(a / 2) == Half(BitsOf(a)) && BitsOf(a % 2) == Lowest(BitsOf(a))
  {
    hide Half, Lowest, BitsOf, NatOf;
    HalfBits(BitsOf(a));
    NatBack(a);
    BitsBack(Half(BitsOf(a)));
    BitsBack(Lowest(BitsOf(a)));
  }

  lemma OneBit(a: nat, b: nat)
    requires a < 2 && b < 2
    ensures And8(a, b) == a * b && Or8(a, b) == a + b - a * b && Xor8(a, b) == (a + b) % 2
  {
  }

  lemma AndBits(x: bv8, y: bv8)
    ensures Half(AndOf(x, y)) == AndOf(Half(x), Half(y))
    ensures Lowest(AndOf(x, y)) == AndOf(Lowest(x), Lowest(y))
  {
  }

  lemma AndWord(a: Byte, b: Byte)
    ensures And8(a, b) == NatOf(AndOf(BitsOf(a), BitsOf(b)))
  {
  }

  lemma AndHalves(a: Byte, b: Byte)
    ensures And8(a, b) / 2 == And8(a / 2, b / 2) && And8(a, b) % 2 == And8(a % 2, b % 2)
  {
    hide And8, AndOf, Half, Lowest, BitsOf, NatOf;
    HalfByte(a);
    HalfByte(b);
    AndWord(a, b);
    AndWord(a / 2, b / 2);
    AndWord(a % 2, b % 2);
    AndBits(BitsOf(a), BitsOf(b));
    HalfBits(AndOf(BitsOf(a), BitsOf(b)));
  }

  lemma OrBits(x: bv8, y: bv8)
    ensures Half(OrOf(x, y)) == OrOf(Half(x), Half(y))
    ensures Lowest(OrOf(x, y)) == OrOf(Lowest(x), Lowest(y))
  {
  }

  lemma OrWord(a: Byte, b: Byte)
    ensures Or8(a, b) == NatOf(OrOf(BitsOf(a), BitsOf(b)))
  {
  }

  lemma OrHalves(a: Byte, b: Byte)
    ensures Or8(a, b) / 2 == Or8(a / 2, b / 2) && Or8(a, b) % 2 == Or8(a % 2, b % 2)
  {
    hide Or8, OrOf, Half, Lowest, BitsOf, NatOf;
    HalfByte(a);
    HalfByte(b);
    OrWord(a, b);
    OrWord(a / 2, b / 2);
    OrWord(a % 2, b % 2);
    OrBits(BitsOf(a), BitsOf(b));
    HalfBits(OrOf(BitsOf(a), BitsOf(b)));
  }

  lemma XorBits(x: bv8, y: bv8)
    ensures Half(XorOf(x, y)) == XorOf(Half(x), Half(y))
    ensures Lowest(XorOf(x, y)) == XorOf(Lowest(x), Lowest(y))
  {
  }

  lemma XorWord(a: Byte, b: Byte)
    ensures Xor8(a, b) == NatOf(XorOf(BitsOf(a), BitsOf(b)))
  {
  }

  lemma XorHalves(a: Byte, b: Byte)
    ensures Xor8(a, b) / 2 == Xor8(a / 2, b / 2) && Xor8(a, b) % 2 == Xor8(a % 2, b % 2)
  {
    hide Xor8, XorOf, Half, Lowest, BitsOf, NatOf;
    HalfByte(a);
    HalfByte(b);
    XorWord(a, b);
    XorWord(a / 2, b / 2);
    XorWord(a % 2, b % 2);
    XorBits(BitsOf(a), BitsOf(b));
    HalfBits(XorOf(BitsOf(a), BitsOf(b)));
  }

  /** Bit by bit: and, or, exclusive or. */
  lemma {:induction false} LogicDigits(a: Byte, b: Byte, k: nat)
    ensures Digit(And8(a, b), k) <==> Digit(a, k) && Digit(b, k)
    ensures Digit(Or8(a, b), k) <==> Digit(a, k) || Digit(b, k)
    ensures Digit(Xor8(a, b), k) <==> Digit(a, k) != Digit(b, k)
    decreases k
  {
    hide Digit, And8, Or8, Xor8;
    AndHalves(a, b);
    OrHalves(a, b);
    XorHalves(a, b);
    DigitNext(a, k);
    DigitNext(b, k);
    DigitNext(And8(a, b), k);
    DigitNext(Or8(a, b), k);
    DigitNext(Xor8(a, b), k);
    if k == 0 {
      OneBit(a % 2, b % 2);
    } else {
      LogicDigits(a / 2, b / 2, k - 1);
    }
  }

  // ---- One arithmetic instruction -----------------------------------------------------------

  /** The integer a byte stands for in two's complement. */
  function Signed8(a: Byte): int {
    if a < 128 then a else a - 256
  }

  predicate Fits8(x: int) {
    -128 <= x < 128
  }

  /** Register 0 is zero. */
  function Value(c: Cpu, i: nat): Byte
    requires i < 8
  {
    if i == 0 then 0 else c.regs[i]
  }

  function Source1(c: Cpu, insn: Word): Byte { Value(c, insn / 64 % 8) }
  function Source2(c: Cpu, insn: Word): Byte { Value(c, insn / 8 % 8) }
  function Target(insn: Word): nat { insn / 512 % 8 }

  /** The registers, flags and PC after an instruction with result `r`. */
  predicate Yields(c: Cpu, insn: Word, r: Byte, carry: bool, overflow: bool) {
    var n := Exec(c, insn);
    && n.regs == (if Target(insn) == 0 then c.regs else c.regs[Target(insn) := r])
    && (n.flags.z <==> r == 0) && (n.flags.n <==> Signed8(r) < 0) && n.flags.c == carry && n.flags.v == overflow
    && n.pc == (c.pc + 1) % 256 && n.dmem == c.dmem && n.sp == c.sp && n.halted == c.halted
  }

  /** ADD and SUB: the result modulo 256, the carry or borrow, and signed overflow. */
  lemma SumsExact(c: Cpu, insn: Word)
    ensures var a, b := Source1(c, insn), Source2(c, insn);
      && (insn / 4096 % 16 == 1 ==>
           Yields(c, insn, (a + b) % 256, a + b >= 256, !Fits8(Signed8(a) + Signed8(b))))
      && (insn / 4096 % 16 == 2 ==>
           Yields(c, insn, (a - b) % 256, a < b, !Fits8(Signed8(a) - Signed8(b))))
  {
    AddFlags(Source1(c, insn), Source2(c, insn));
    SubFlags(Source1(c, insn), Source2(c, insn));
    hide AddOut, SubOut;
  }

  lemma AddFlags(a: Byte, b: Byte)
    ensures var o := AddOut(a, b);
      && o.r == (a + b) % 256 && (o.flags.z <==> o.r == 0) && (o.flags.n <==> Signed8(o.r) < 0)
      && (o.flags.c <==> a + b >= 256) && (o.flags.v <==> !Fits8(Signed8(a) + Signed8(b)))
  {
  }

  lemma SubFlags(a: Byte, b: Byte)
    ensures var o := SubOut(a, b);
      && o.r == (a - b) % 256 && (o.flags.z <==> a == b) && (o.flags.n <==> Signed8(o.r) < 0)
      && (o.flags.z <==> o.r == 0) && (o.flags.c <==> a < b) && (o.flags.v <==> !Fits8(Signed8(a) - Signed8(b)))
  {
  }

  /** AND, OR and XOR bit by bit; the shifts on digits. Carry is the digit shifted out. */
  lemma LogicExact(c: Cpu, insn: Word, k: nat)
    requires 3 <= insn / 4096 % 16 <= 5
    ensures var a, b, op := Source1(c, insn), Source2(c, insn), insn / 4096 % 16;
      exists r: Byte :: Yields(c, insn, r, false, false) &&
        (Digit(r, k) <==> if op == 3 then Digit(a, k) && Digit(b, k)
                          else if op == 4 then Digit(a, k) || Digit(b, k)
                          else Digit(a, k) != Digit(b, k))
  {
    var a, b, op := Source1(c, insn), Source2(c, insn), insn / 4096 % 16;
    LogicDigits(a, b, k);
    var r := if op == 3 then And8(a, b) else if op == 4 then Or8(a, b) else Xor8(a, b);
    LogicYields(c, insn, r);
    hide And8, Or8, Xor8, Digit, Yields;
  }

  lemma LogicYields(c: Cpu, insn: Word, r: Byte)
    requires var a, b, op := Source1(c, insn), Source2(c, insn), insn / 4096 % 16;
      (op == 3 && r == And8(a, b)) || (op == 4 && r == Or8(a, b)) || (op == 5 && r == Xor8(a, b))
    ensures Yields(c, insn, r, false, false)
  {
    hide And8, Or8, Xor8;
  }

  lemma ShiftsExact(c: Cpu, insn: Word)
    requires insn / 4096 % 16 == 6
    ensures var a, fn := Source1(c, insn), insn % 8;
      Yields(c, insn,
        if fn % 4 == 0 then a * 2 % 256 else if fn % 4 == 1 then a / 2 else (a + a % 2 * 256) / 2,
        if fn % 4 == 0 then a >= 128 else a % 2 == 1, false)
  {
  }

  /** What is loaded into a register is what the next instruction reads from it; r0 keeps
      nothing. */
  lemma LoadedIsRead(c: Cpu, load: Word, add: Word)
    requires load / 4096 % 16 == 8 && add / 4096 % 16 == 1
    requires add / 64 % 8 == Target(load) && add / 8 % 8 == 0 && Target(add) != 0
    ensures Exec(Exec(c, load), add).regs[Target(add)] == if Target(load) == 0 then 0 else load % 256
  {
  }

  // ---- Compare, then branch --------------------------------------------------------------------

  /** What the eight conditions say after a comparison of `a` with `b`. */
  predicate Condition(cc: nat, a: Byte, b: Byte) {
    match cc
    case 0 => a == b
    case 1 => a != b
    case 2 => (a - b) % 256 >= 128
    case 3 => (a - b) % 256 < 128
    case 4 => a < b
    case 5 => a >= b
    case 6 => true
    case _ => false
  }

  function BranchOffset(insn: Word): int {
    if insn % 512 < 256 then insn % 512 else insn % 512 - 512
  }

  lemma Compared(c: Cpu, cmp: Word)
    requires cmp / 4096 % 16 == 7
    ensures var n := Exec(c, cmp);
      && n == c.(pc := (c.pc + 1) % 256, flags := n.flags)
      && n.flags == SubOut(Source1(c, cmp), Source2(c, cmp)).flags
  {
    hide SubOut;
  }

  /** EQ and NE, LT and GE, CS and CC, ALW and NEV after CMP, on the simulator. */
  lemma CompareThenBranch(c: Cpu, cmp: Word, br: Word)
    requires cmp / 4096 % 16 == 7 && br / 4096 % 16 == 11
    ensures var n := Exec(Exec(c, cmp), br);
      n.pc == if Condition(Target(br), Source1(c, cmp), Source2(c, cmp))
              then (c.pc + 1 + BranchOffset(br)) % 256 else (c.pc + 2) % 256
  {
    Compared(c, cmp);
    SubFlags(Source1(c, cmp), Source2(c, cmp));
    hide SubOut, Source1, Source2;
    BranchesOn(Exec(c, cmp), br);
    hide Exec;
    NextTwice(c.pc, BranchOffset(br));
  }

  lemma BranchesOn(c: Cpu, br: Word)
    requires br / 4096 % 16 == 11
    ensures Exec(c, br).pc == if Taken(c.flags, Target(br)) then (c.pc + BranchOffset(br)) % 256 else (c.pc + 1) % 256
  {
    hide Taken;
  }

  lemma NextTwice(pc: Byte, off: int)
    ensures ((pc + 1) % 256 + 1) % 256 == (pc + 2) % 256
    ensures ((pc + 1) % 256 + off) % 256 == (pc + 1 + off) % 256
  {
  }

  /** The same on two clock edges of the hardware. */
  lemma CompareThenBranchInHardware(rom: Rom, c: Cpu)
    requires !c.halted && rom[c.pc] / 4096 % 16 == 7 && rom[(c.pc + 1) % 256] / 4096 % 16 == 11
    ensures var cmp, br := rom[c.pc], rom[(c.pc + 1) % 256];
      Edge(rom, Edge(rom, c)).pc
      == if Condition(Target(br), Source1(c, cmp), Source2(c, cmp))
         then (c.pc + 1 + BranchOffset(br)) % 256 else (c.pc + 2) % 256
  {
    hide Edge, Exec, Condition, Source1, Source2, Meets, BranchOffset;
    var cmp, br := rom[c.pc], rom[(c.pc + 1) % 256];
    LockstepExact(rom, c);
    MeetsTrivially(c, cmp);
    Compared(c, cmp);
    var d := Exec(c, cmp);
    LockstepExact(rom, d);
    MeetsTrivially(d, br);
    CompareThenBranch(c, cmp, br);
  }
}
