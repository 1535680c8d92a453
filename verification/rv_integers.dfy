/**
 The word comparisons and shifts that the ALU and the architecture share, tied to the
 integers they stand for.
 */
module RvIntegers {
  import opened Basics
  import opened Rv32iPkg
  import opened SocWords

  /** Ones from bit `k` up. */
  function From(k: nat): Word {
    if k == 0 then 0xffff_ffff else Shift1(From(k - 1))
  }

  lemma NoHighBits(w: Word, t: Word, bit: nat)
    requires bit < 2 && w & t == 0
    ensures Doubled(w, bit) & Shift1(t) == 0
  {
    if bit == 0 {
      NoHighBitsEven(w, t);
    } else {
      NoHighBitsOdd(w, t);
    }
  }

  lemma NoHighBitsEven(w: Word, t: Word)
    requires w & t == 0
    ensures Doubled(w, 0) & Shift1(t) == 0
  {
  }

  lemma NoHighBitsOdd(w: Word, t: Word)
    requires w & t == 0
    ensures Doubled(w, 1) & Shift1(t) == 0
  {
  }

  lemma {:induction false} LowFits(n: nat, k: nat)
    requires n < Pow2(k)
    ensures Low(n) & From(k) == 0
  {
    hide Doubled, Shift1;
    if k > 0 && n > 0 {
      LowFits(n / 2, k - 1);
      NoHighBits(Low(n / 2), From(k - 1), n % 2);
    }
  }

  lemma TopBit()
    ensures From(31) == 0x8000_0000
    ensures Pow2(31) == 0x8000_0000 && Pow2(32) == 0x1_0000_0000
  {
    assert From(8) == 0xffff_ff00;
    assert From(16) == 0xffff_0000;
    assert From(24) == 0xff00_0000;
    assert Pow2(8) == 0x100;
    assert Pow2(16) == 0x1_0000;
    assert Pow2(24) == 0x100_0000;
  }

  lemma LowHalf(n: nat)
    requires n < 0x8000_0000
    ensures Low(n) < 0x8000_0000
  {
    hide Low;
    TopBit();
    LowFits(n, 31);
  }

  // ---- Order ------------------------------------------------------------------------

  predicate Less(x: Word, y: Word) {
    x < y
  }

  lemma DoubledKeepsOrder(x: Word, y: Word, a: nat, b: nat)
    requires a < 2 && b < 2 && Less(x, y) && y < 0x8000_0000
    ensures Less(Doubled(x, a), Doubled(y, b))
  {
  }

  lemma DoubledBit(x: Word)
    requires x < 0x8000_0000
    ensures Less(Doubled(x, 0), Doubled(x, 1))
  {
  }

  lemma {:induction false} LowOrder(m: nat, n: nat)
    requires m < n < 0x1_0000_0000
    ensures Less(Low(m), Low(n))
    decreases n
  {
    hide Doubled, Less, Low;
    LowHalf(n / 2);
    LowUnfold(m);
    LowUnfold(n);
    if m / 2 < n / 2 {
      LowOrder(m / 2, n / 2);
      DoubledKeepsOrder(Low(m / 2), Low(n / 2), m % 2, n % 2);
    } else {
      DoubledBit(Low(n / 2));
    }
  }

  lemma LowUnfold(n: nat)
    ensures Low(n) == Doubled(Low(n / 2), n % 2)
  {
  }

  predicate Signed32(x: int) {
    -0x8000_0000 <= x < 0x8000_0000
  }

  lemma BiasConstant()
    ensures ToWord(0x8000_0000) == 0x8000_0000
  {
    hide ToWord;
    assert ToWord(8) == 8 by { Eight(); }
    Times16(0x8);
    Times16(0x80);
    Times16(0x800);
    Times16(0x8000);
    Times16(0x8_0000);
    Times16(0x80_0000);
    Times16(0x800_0000);
  }

  lemma Eight()
    ensures ToWord(8) == 8
  {
    assert Low(8) == 8;
  }

  lemma SignFlip(w: Word)
    ensures w ^ 0x8000_0000 == Plus(w, 0x8000_0000)
  {
  }

  lemma LessFlipped(v: Word, w: Word)
    ensures SignedLess(v, w) <==> Less(Plus(v, 0x8000_0000), Plus(w, 0x8000_0000))
  {
    SignFlip(v);
    SignFlip(w);
    hide Plus;
  }

  lemma LessExcludes(v: Word, w: Word)
    ensures Less(v, w) ==> !Less(w, v) && v != w
  {
  }

  lemma BiasedOrder(m: nat, n: nat)
    requires m < 0x1_0000_0000 && n < 0x1_0000_0000
    ensures Less(Low(m), Low(n)) <==> m < n
  {
    hide Low, Less;
    LessExcludes(Low(m), Low(n));
    LessExcludes(Low(n), Low(m));
    if m < n {
      LowOrder(m, n);
    } else if n < m {
      LowOrder(n, m);
    }
  }

  /** `slt` and the signed branches compare the integers the words stand for. */
  lemma SignedOrder(x: int, y: int)
    requires Signed32(x) && Signed32(y)
    ensures SignedLess(ToWord(x), ToWord(y)) <==> x < y
  {
    hide Plus, Low, Less, SignedLess;
    var bias := 0x8000_0000;
    BiasConstant();
    LessFlipped(ToWord(x), ToWord(y));
    ToWordSum(x, bias);
    ToWordSum(y, bias);
    BiasedOrder(x + bias, y + bias);
  }

  /** `sltu` and the unsigned branches compare naturals below 2^32. */
  lemma UnsignedOrder(m: nat, n: nat)
    requires m < 0x1_0000_0000 && n < 0x1_0000_0000
    ensures ToWord(m) < ToWord(n) <==> m < n
  {
    hide Low;
    BiasedOrder(m, n);
  }

  // ---- Shifts --------------------------------------------------------------------------

  lemma HalfOfQuotient(n: nat, a: nat)
    requires a > 0
    ensures n / a / 2 == n / (2 * a)
  {
    var q, r := n / a, n % a;
    var h, b := q / 2, q % 2;
    assert n == a * q + r;
    assert a * q == a * (2 * h + b) == (2 * a) * h + a * b;
    assert a * b + r < 2 * a;
    QuotientUnique(n, 2 * a, h, a * b + r);
  }

  lemma HalfWord(n: nat)
    requires n < 0x1_0000_0000
    ensures Srl(Low(n), 1) == Low(n / 2)
  {
    LowHalf(n / 2);
    LowUnfold(n);
    hide Low;
    DoubledHalved(Low(n / 2), n % 2);
  }

  lemma EvenHalved(w: Word)
    requires w < 0x8000_0000
    ensures Srl(Doubled(w, 0), 1) == w
  {
  }

  lemma OddHalved(w: Word)
    requires w < 0x8000_0000
    ensures Srl(Doubled(w, 1), 1) == w
  {
  }

  lemma DoubledHalved(w: Word, bit: nat)
    requires bit < 2 && w < 0x8000_0000
    ensures Srl(Doubled(w, bit), 1) == w
  {
    hide Srl, Doubled;
    if bit == 0 {
      EvenHalved(w);
    } else {
      OddHalved(w);
    }
  }

  function Amount(k: bv5): nat {
    k as nat
  }

  /** Shift amounts one by one. */
  lemma ShiftNext(w: Word, k: bv5)
    requires k != 0
    ensures Amount(k) == Amount(k - 1) + 1
    ensures Srl(w, k) == Srl(Srl(w, k - 1), 1)
  {
  }

  lemma ShiftNone(w: Word)
    ensures Srl(w, 0) == w && Amount(0) == 0
  {
  }

  lemma QuotientSmaller(n: nat, a: nat)
    requires a > 0
    ensures n / a <= n
  {
    var q := n / a;
    assert n == a * q + n % a;
    TimesGrows(q, 1, a);
  }

  /** Division by a power of two, rounding down. */
  function Scaled(n: int, j: nat): int {
    n / Pow2(j)
  }

  lemma ScaledNext(n: nat, j: nat)
    ensures Scaled(n, 0) == n
    ensures 0 <= Scaled(n, j) <= n
    ensures j > 0 ==> 0 <= Scaled(n, j - 1) <= n && Scaled(n, j) == Scaled(n, j - 1) / 2
  {
    QuotientSmaller(n, Pow2(j));
    if j > 0 {
      QuotientSmaller(n, Pow2(j - 1));
      HalfOfQuotient(n, Pow2(j - 1));
    }
  }

  /** A logical shift divides by a power of two. */
  lemma {:induction false} LogicalShift(n: nat, k: bv5, j: nat)
    requires n < 0x1_0000_0000 && j == Amount(k)
    ensures Srl(Low(n), k) == ToWord(Scaled(n, j))
    decreases j
  {
    hide Low, Srl, Amount, Scaled;
    ScaledNext(n, j);
    if k == 0 {
      ShiftNone(Low(n));
    } else {
      ShiftNext(Low(n), k);
      LogicalShift(n, k - 1, j - 1);
      HalfWord(Scaled(n, j - 1));
    }
  }

  lemma Complement(w: Word)
    ensures Not(w) == Plus(Minus(w), 0xffff_ffff)
  {
  }

  lemma MinusOne()
    ensures ToWord(-1) == 0xffff_ffff
  {
    assert Low(1) == 1;
  }

  lemma ComplementMeans(x: int)
    ensures Not(ToWord(x)) == ToWord(-1 - x)
  {
    hide Plus, Minus, ToWord, Not;
    MinusOne();
    Complement(ToWord(x));
    ToWordSum(-x, -1);
    Negated(x);
  }

  lemma Negated(x: int)
    ensures ToWord(-x) == Minus(ToWord(x))
  {
    hide Low;
    LowZero();
    if x < 0 {
      MinusTwice(Low(-x));
    } else {
      assert Minus(0) == 0;
    }
  }

  lemma MinusTwice(w: Word)
    ensures Minus(Minus(w)) == w
  {
  }

  lemma SignOfWord(x: int)
    requires Signed32(x)
    ensures TopSet(ToWord(x)) <==> x < 0
  {
    hide Low, TopSet, Not;
    ComplementedTop(ToWord(x));
    if x >= 0 {
      LowHalf(x);
    } else {
      ComplementMeans(x);
      LowHalf(-1 - x);
    }
  }

  lemma ComplementedTop(w: Word)
    ensures Not(w) < 0x8000_0000 ==> TopSet(w)
    ensures w < 0x8000_0000 ==> !TopSet(w)
  {
  }

  lemma FloorOfNegative(x: int, d: nat)
    requires x < 0 && d > 0
    ensures x / d == -1 - (-1 - x) / d
  {
    var m, e: int := -1 - x, d;
    var p := x / d;
    assert x == d * p + x % d;
    assert p < 0 by {
      if p >= 0 {
        TimesGrows(d, 0, p);
      }
    }
    assert d * (-1 - p) + (d - 1 - x % d) == m by {
      assert e * (-1 - p) == -e - e * p;
    }
    QuotientUnique(m, d, -1 - p, d - 1 - x % d);
  }

  lemma ScaledNegative(x: int, j: nat)
    requires x < 0
    ensures Scaled(x, j) == -1 - Scaled(-1 - x, j)
  {
    FloorOfNegative(x, Pow2(j));
  }

  /** `sra` divides the integer by a power of two, rounding down. */
  lemma ArithmeticShift(x: int, k: bv5, j: nat)
    requires Signed32(x) && j == Amount(k)
    ensures ShiftRightArith(ToWord(x), k) == ToWord(Scaled(x, j))
  {
    hide ToWord, Low, Srl, Amount, Scaled, Not, TopSet;
    SignOfWord(x);
    if x >= 0 {
      NaturalWord(x);
      LogicalShift(x, k, j);
    } else {
      ComplementMeans(x);
      NaturalWord(-1 - x);
      LogicalShift(-1 - x, k, j);
      ComplementMeans(Scaled(-1 - x, j));
      ScaledNegative(x, j);
    }
  }

  lemma NaturalWord(n: nat)
    ensures ToWord(n) == Low(n)
  {
  }
}
