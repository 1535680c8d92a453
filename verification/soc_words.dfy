/**
 Integers as machine words: the two's complement that masking an unbounded integer with
 32 ones gives, built bit by bit so that it can be reasoned about by induction.
 */
module SocWords {
  import opened Basics
  import opened Rv32iPkg

  function Doubled(w: Word, bit: nat): Word
    requires bit < 2
  {
    Plus(Plus(w, w), if bit == 1 then 1 else 0)
  }

  /** The low 32 bits of a natural number. */
  function Low(n: nat): Word {
    if n == 0 then 0 else Doubled(Low(n / 2), n % 2)
  }

  function Minus(w: Word): Word {
    0 - w
  }

  /** The low 32 bits of an integer. */
  function ToWord(v: int): Word {
    if v >= 0 then Low(v) else Minus(Low(-v))
  }

  // ---- Addition ------------------------------------------------------------------------

  lemma DoubledNext(x: Word)
    ensures Plus(Doubled(x, 0), 1) == Doubled(x, 1)
    ensures Plus(Doubled(x, 1), 1) == Doubled(Plus(x, 1), 0)
  {
  }

  lemma {:induction false} LowNext(n: nat)
    ensures Low(n + 1) == Plus(Low(n), 1)
    decreases n
  {
    hide Plus, Doubled;
    DoubledNext(Low(n / 2));
    if n == 0 {
      LowZero();
    } else if n % 2 == 1 {
      LowNext(n / 2);
      assert (n + 1) / 2 == n / 2 + 1;
    } else {
      assert (n + 1) / 2 == n / 2;
    }
  }

  lemma LowZero()
    ensures Low(0) == 0 && Low(1) == 1 && Plus(0, 1) == 1
  {
    assert Low(1) == Doubled(Low(0), 1);
  }

  lemma PlusFacts(a: Word, b: Word, c: Word)
    ensures Plus(Plus(a, b), c) == Plus(a, Plus(b, c))
    ensures Plus(a, b) == Plus(b, a)
    ensures Plus(a, 0) == a
  {
  }

  lemma {:induction false} LowSum(m: nat, n: nat)
    ensures Low(m + n) == Plus(Low(m), Low(n))
    decreases n
  {
    hide Plus, Low;
    if n == 0 {
      LowZero();
      PlusFacts(Low(m), 0, 0);
    } else {
      LowSum(m, n - 1);
      LowNext(m + n - 1);
      LowNext(n - 1);
      PlusFacts(Low(m), Low(n - 1), 1);
    }
  }

  lemma MinusPlus(a: Word)
    ensures Plus(Minus(a), a) == 0
  {
  }

  lemma MinusRight(a: Word, b: Word)
    ensures Plus(Plus(a, b), Minus(b)) == a
  {
    hide Plus, Minus;
    PlusFacts(a, b, Minus(b));
    PlusFacts(b, Minus(b), 0);
    MinusPlus(b);
    PlusFacts(a, 0, 0);
  }

  lemma MinusLeft(a: Word, b: Word)
    ensures Plus(b, Minus(Plus(a, b))) == Minus(a)
  {
    hide Plus, Minus;
    var m := Minus(Plus(a, b));
    MinusPlus(Plus(a, b));
    PlusFacts(m, b, a);
    PlusFacts(a, b, 0);
    PlusFacts(b, m, 0);
    MinusRight(Plus(b, m), a);
    PlusFacts(0, Minus(a), 0);
    PlusFacts(Minus(a), 0, 0);
  }

  lemma MinusBoth(a: Word, b: Word)
    ensures Plus(Minus(a), Minus(b)) == Minus(Plus(a, b))
  {
    hide Plus, Minus;
    var m := Minus(Plus(a, b));
    MinusLeft(a, b);
    PlusFacts(b, m, 0);
    MinusRight(m, b);
  }

  /** Conversion turns addition of integers into addition of words. */
  lemma ToWordSum(a: int, b: int)
    ensures ToWord(a + b) == Plus(ToWord(a), ToWord(b))
  {
    hide Plus, Minus, Low;
    LowZero();
    PlusFacts(ToWord(a), ToWord(b), 0);
    if a >= 0 && b >= 0 {
      LowSum(a, b);
    } else if a < 0 && b < 0 {
      LowSum(-a, -b);
      MinusBoth(Low(-a), Low(-b));
    } else {
      var p, n := if a >= 0 then a else b, if a >= 0 then -b else -a;
      MixedSum(p, n);
    }
  }

  lemma MixedSum(p: nat, n: nat)
    ensures ToWord(p - n) == Plus(Low(p), Minus(Low(n)))
  {
    hide Plus, Minus, Low;
    if p >= n {
      LowSum(p - n, n);
      MinusRight(Low(p - n), Low(n));
    } else {
      LowSum(n - p, p);
      MinusLeft(Low(n - p), Low(p));
    }
  }

  // ---- Ranges --------------------------------------------------------------------------

  function Ones(k: nat): Word {
    if k == 0 then 0 else Doubled(Ones(k - 1), 1)
  }

  lemma DoubledBound(w: Word, m: Word, bit: nat)
    requires bit < 2 && w <= m && m < 0x1000_0000
    ensures Doubled(w, bit) <= Doubled(m, 1)
  {
    DoubledEven(w);
    DoubledOdd(w, m);
  }

  lemma DoubledEven(w: Word)
    requires w < 0x1000_0000
    ensures Doubled(w, 0) <= Doubled(w, 1)
  {
  }

  lemma DoubledOdd(w: Word, m: Word)
    requires w <= m && m < 0x1000_0000
    ensures Doubled(w, 1) <= Doubled(m, 1)
  {
  }

  lemma {:induction false} LowBound(n: nat, k: nat)
    requires n < Pow2(k) && k <= 12
    ensures Low(n) <= Ones(k)
  {
    hide Doubled;
    if n > 0 {
      LowBound(n / 2, k - 1);
      OnesSmall(k - 1);
      DoubledBound(Low(n / 2), Ones(k - 1), n % 2);
    }
  }

  lemma {:induction false} OnesSmall(k: nat)
    requires k <= 12
    ensures Ones(k) < 0x1000_0000
  {
    OnesValues();
  }

  lemma OnesValues()
    ensures Ones(0) == 0 && Ones(1) == 1 && Ones(2) == 3 && Ones(3) == 7 && Ones(4) == 0xf
    ensures Ones(5) == 0x1f && Ones(6) == 0x3f && Ones(7) == 0x7f && Ones(8) == 0xff
    ensures Ones(9) == 0x1ff && Ones(10) == 0x3ff && Ones(11) == 0x7ff && Ones(12) == 0xfff
  {
    assert Ones(3) == 7;
    assert Ones(6) == 0x3f;
    assert Ones(9) == 0x1ff;
  }

  // ---- Multiples of powers of two ----------------------------------------------------------

  function Shift1(x: Word): Word {
    x << 1
  }

  function Shift4(x: Word): Word {
    x << 4
  }

  /** The upper immediate: twelve places up. */
  function Upper(x: Word): Word {
    x << 12
  }

  lemma ShiftFacts(x: Word)
    ensures Plus(x, x) == Shift1(x)
    ensures Shift1(Shift1(Shift1(Shift1(x)))) == Shift4(x)
  {
  }

  lemma ShiftUpper(x: Word)
    ensures Shift4(Shift4(Shift4(x))) == Upper(x)
  {
  }

  lemma ShiftedOut(x: Word)
    ensures Upper(Upper(Shift4(Shift4(x)))) == 0
  {
  }

  lemma Times16(h: int)
    ensures ToWord(16 * h) == Shift4(ToWord(h))
  {
    hide Plus, Shift1, Shift4, ToWord;
    ToWordSum(h, h);
    ToWordSum(2 * h, 2 * h);
    ToWordSum(4 * h, 4 * h);
    ToWordSum(8 * h, 8 * h);
    ShiftFacts(ToWord(h));
    ShiftFacts(ToWord(2 * h));
    ShiftFacts(ToWord(4 * h));
    ShiftFacts(ToWord(8 * h));
  }

  lemma Times4096(h: int)
    ensures ToWord(4096 * h) == Upper(ToWord(h))
  {
    hide Shift4, ToWord, Upper;
    Times16(h);
    Times16(16 * h);
    Times16(256 * h);
    ShiftUpper(ToWord(h));
  }

  const TWO32 := 0x1_0000_0000

  /** Whole multiples of 2^32 do not show. */
  lemma Wraps(v: int, q: int)
    ensures ToWord(v + TWO32 * q) == ToWord(v)
  {
    hide Plus, Shift4, ToWord, Upper;
    Times16(q);
    Times16(16 * q);
    Times4096(256 * q);
    Times4096(0x10_0000 * q);
    ShiftedOut(ToWord(q));
    ToWordSum(v, TWO32 * q);
    PlusFacts(ToWord(v), 0, 0);
  }

  /** The split `li` makes: an upper part and a signed low part. */
  lemma SplitAdds(value: int, high: int, low: int, q: int)
    requires value == TWO32 * q + 4096 * high + low
    ensures ToWord(value) == Plus(Upper(ToWord(high)), ToWord(low))
    ensures low == 0 ==> ToWord(value) == Upper(ToWord(high))
    ensures high == 0 ==> ToWord(value) == ToWord(low)
  {
    hide Plus, ToWord, Upper;
    Wraps(4096 * high + low, q);
    Times4096(high);
    ToWordSum(4096 * high, low);
  }
}
