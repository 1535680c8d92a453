/**
 AES-128 as FIPS 197 defines it: the cipher (section 5.1), the key schedule (5.2) and
 the inverse cipher (5.3), with the proof that each key gives a bijection on blocks.
 */
module AesCipher {
  import opened Basics
  import opened AesField

  /** One column of the state, or one word of the key schedule; `b0` is the first byte. */
  datatype Column = Column(b0: bv8, b1: bv8, b2: bv8, b3: bv8)

  /** Sixteen bytes, column by column. */
  datatype Block = Block(c0: Column, c1: Column, c2: Column, c3: Column)

  function ZeroBlock(): Block {
    var w := Column(0, 0, 0, 0);
    Block(w, w, w, w)
  }

  function MapColumns(f: Column -> Column, s: Block): Block {
    Block(f(s.c0), f(s.c1), f(s.c2), f(s.c3))
  }

  function SubWord(w: Column): Column {
    Column(SBox(w.b0), SBox(w.b1), SBox(w.b2), SBox(w.b3))
  }

  function InvSubWord(w: Column): Column {
    Column(InvSBox(w.b0), InvSBox(w.b1), InvSBox(w.b2), InvSBox(w.b3))
  }

  function SubBytes(s: Block): Block {
    MapColumns(SubWord, s)
  }

  function InvSubBytes(s: Block): Block {
    MapColumns(InvSubWord, s)
  }

  /** A column whose bytes come from four columns, one row each. */
  function Diagonal(p: Column, q: Column, r: Column, s: Column): Column {
    Column(p.b0, q.b1, r.b2, s.b3)
  }

  /** Row r moves left by r columns. */
  function ShiftRows(s: Block): Block {
    Block(Diagonal(s.c0, s.c1, s.c2, s.c3), Diagonal(s.c1, s.c2, s.c3, s.c0),
          Diagonal(s.c2, s.c3, s.c0, s.c1), Diagonal(s.c3, s.c0, s.c1, s.c2))
  }

  function InvShiftRows(s: Block): Block {
    Block(Diagonal(s.c0, s.c3, s.c2, s.c1), Diagonal(s.c1, s.c0, s.c3, s.c2),
          Diagonal(s.c2, s.c1, s.c0, s.c3), Diagonal(s.c3, s.c2, s.c1, s.c0))
  }

  /** Applies `f` to the column read downwards from each row. */
  function Circulant(f: (bv8, bv8, bv8, bv8) -> bv8, w: Column): Column {
    Column(f(w.b0, w.b1, w.b2, w.b3), f(w.b1, w.b2, w.b3, w.b0),
           f(w.b2, w.b3, w.b0, w.b1), f(w.b3, w.b0, w.b1, w.b2))
  }

  function MixByte(a: bv8, b: bv8, c: bv8, d: bv8): bv8 {
    Mul(2, a) ^ Mul(3, b) ^ c ^ d
  }

  function InvMixByte(a: bv8, b: bv8, c: bv8, d: bv8): bv8 {
    Mul(0xe, a) ^ Mul(0xb, b) ^ Mul(0xd, c) ^ Mul(9, d)
  }

  function MixColumn(w: Column): Column {
    Circulant(MixByte, w)
  }

  function InvMixColumn(w: Column): Column {
    Circulant(InvMixByte, w)
  }

  function MixColumns(s: Block): Block {
    MapColumns(MixColumn, s)
  }

  function InvMixColumns(s: Block): Block {
    MapColumns(InvMixColumn, s)
  }

  function XorWord(u: Column, v: Column): Column {
    Column(Add(u.b0, v.b0), Add(u.b1, v.b1), Add(u.b2, v.b2), Add(u.b3, v.b3))
  }

  function AddRoundKey(s: Block, k: Block): Block {
    Block(XorWord(s.c0, k.c0), XorWord(s.c1, k.c1), XorWord(s.c2, k.c2), XorWord(s.c3, k.c3))
  }

  // ---- Each step undone --------------------------------------------------------------

  lemma SubWordUndone(w: Column)
    ensures InvSubWord(SubWord(w)) == w
    ensures SubWord(InvSubWord(w)) == w
  {
    hide SBox, InvSBox;
    SBoxUndone(w.b0);
    SBoxUndone(w.b1);
    SBoxUndone(w.b2);
    SBoxUndone(w.b3);
    SBoxReached(w.b0);
    SBoxReached(w.b1);
    SBoxReached(w.b2);
    SBoxReached(w.b3);
  }

  lemma SubBytesUndone(s: Block)
    ensures InvSubBytes(SubBytes(s)) == s
    ensures SubBytes(InvSubBytes(s)) == s
  {
    hide SubWord, InvSubWord;
    SubWordUndone(s.c0);
    SubWordUndone(s.c1);
    SubWordUndone(s.c2);
    SubWordUndone(s.c3);
  }

  lemma ShiftRowsUndone(s: Block)
    ensures InvShiftRows(ShiftRows(s)) == s
    ensures ShiftRows(InvShiftRows(s)) == s
  {
  }

  lemma XorCancels(a: bv8, k: bv8)
    ensures Add(Add(a, k), k) == a
  {
  }

  lemma XorWordUndone(w: Column, k: Column)
    ensures XorWord(XorWord(w, k), k) == w
  {
    hide Add;
    XorCancels(w.b0, k.b0);
    XorCancels(w.b1, k.b1);
    XorCancels(w.b2, k.b2);
    XorCancels(w.b3, k.b3);
  }

  lemma AddRoundKeyUndone(s: Block, k: Block)
    ensures AddRoundKey(AddRoundKey(s, k), k) == s
  {
    hide XorWord;
    XorWordUndone(s.c0, k.c0);
    XorWordUndone(s.c1, k.c1);
    XorWordUndone(s.c2, k.c2);
    XorWordUndone(s.c3, k.c3);
  }

  // ---- MixColumns has order four -------------------------------------------------------

  lemma MulSmall(b: bv8)
    ensures Mul(2, b) == Xtime(b)
    ensures Mul(3, b) == Add(Xtime(b), b)
  {
    hide Xtime;
  }

  function Times4(b: bv8): bv8 {
    Xtime(Xtime(b))
  }

  lemma Mul9(b: bv8)
    ensures Mul(9, b) == Add(Xtime(Times4(b)), b)
  {
    hide Xtime;
  }

  lemma MulB(b: bv8)
    ensures Mul(0xb, b) == Sum3(Xtime(Times4(b)), Xtime(b), b)
  {
    hide Xtime;
  }

  lemma MulD(b: bv8)
    ensures Mul(0xd, b) == Sum3(Xtime(Times4(b)), Times4(b), b)
  {
    hide Xtime;
  }

  lemma MulE(b: bv8)
    ensures Mul(0xe, b) == Sum3(Xtime(Times4(b)), Times4(b), Xtime(b))
  {
    hide Xtime;
  }

  /** MixColumns twice, which touches only the bytes two rows apart. */
  function SquareByte(a: bv8, b: bv8, c: bv8, d: bv8): bv8 {
    Sum3(Times4(a), a, Times4(c))
  }

  function Square(w: Column): Column {
    Circulant(SquareByte, w)
  }

  lemma MixByteSum(a: bv8, b: bv8, c: bv8, d: bv8)
    ensures MixByte(a, b, c, d) == Sum5(Xtime(a), Xtime(b), b, c, d)
  {
    hide Xtime, Mul;
    MulSmall(a);
    MulSmall(b);
    MixByteRegrouped(Xtime(a), Xtime(b), b, c, d);
  }

  lemma MixByteRegrouped(xa: bv8, xb: bv8, b: bv8, c: bv8, d: bv8)
    ensures xa ^ Add(xb, b) ^ c ^ d == Sum5(xa, xb, b, c, d)
  {
  }

  function Total(a: bv8, b: bv8, c: bv8, d: bv8): bv8 {
    a ^ b ^ c ^ d
  }

  /** How the hardware and the software reference compute one byte: `t` is the sum of
      the whole column. */
  function MixStep(a: bv8, b: bv8, t: bv8): bv8 {
    a ^ t ^ Xtime(a ^ b)
  }

  lemma MixStepSum(a: bv8, b: bv8, t: bv8)
    ensures MixStep(a, b, t) == Sum3(a, t, Xtime(Add(a, b)))
  {
    hide Xtime;
  }

  lemma MixStepMeaning(a: bv8, b: bv8, c: bv8, d: bv8)
    ensures MixStep(a, b, Total(a, b, c, d)) == MixByte(a, b, c, d)
  {
    hide Xtime, MixByte, Sum5, Sum3, Add, Total, MixStep;
    MixStepSum(a, b, Total(a, b, c, d));
    MixByteSum(a, b, c, d);
    XtimeLinear(a, b);
    MixStepTerms(a, b, c, d, Xtime(a), Xtime(b));
  }

  lemma MixStepTerms(a: bv8, b: bv8, c: bv8, d: bv8, xa: bv8, xb: bv8)
    ensures Sum5(xa, xb, b, c, d) == Sum3(a, Total(a, b, c, d), Add(xa, xb))
  {
  }

  /** A column mixed by the shared-sum identity. */
  function MixColumnFast(w: Column): (v: Column)
    ensures v == MixColumn(w)
  {
    hide Xtime, MixByte, Total, MixStep;
    MixStepMeaning(w.b0, w.b1, w.b2, w.b3);
    MixStepMeaning(w.b1, w.b2, w.b3, w.b0);
    MixStepMeaning(w.b2, w.b3, w.b0, w.b1);
    MixStepMeaning(w.b3, w.b0, w.b1, w.b2);
    TotalRotates(w.b0, w.b1, w.b2, w.b3);
    TotalRotates(w.b1, w.b2, w.b3, w.b0);
    TotalRotates(w.b2, w.b3, w.b0, w.b1);
    var t := Total(w.b0, w.b1, w.b2, w.b3);
    Column(MixStep(w.b0, w.b1, t), MixStep(w.b1, w.b2, t), MixStep(w.b2, w.b3, t), MixStep(w.b3, w.b0, t))
  }

  lemma TotalRotates(a: bv8, b: bv8, c: bv8, d: bv8)
    ensures Total(b, c, d, a) == Total(a, b, c, d)
  {
  }

  lemma MixByteTwice(a: bv8, b: bv8, c: bv8, d: bv8)
    ensures MixByte(MixByte(a, b, c, d), MixByte(b, c, d, a), MixByte(c, d, a, b), MixByte(d, a, b, c))
         == SquareByte(a, b, c, d)
  {
    hide Xtime, MixByte, Add, Sum3, Sum5;
    MixByteSum(a, b, c, d);
    MixByteSum(b, c, d, a);
    MixByteSum(c, d, a, b);
    MixByteSum(d, a, b, c);
    MixByteSum(MixByte(a, b, c, d), MixByte(b, c, d, a), MixByte(c, d, a, b), MixByte(d, a, b, c));
    XtimeSums(Xtime(a), Xtime(b), b, c, d);
    XtimeSums(Xtime(b), Xtime(c), c, d, a);
    SquareTerms(a, b, c, d, Xtime(a), Xtime(b), Xtime(c), Xtime(d), Times4(a), Times4(b), Times4(c));
  }

  lemma Sum5Split(p: bv8, q: bv8, r: bv8, s: bv8, t: bv8)
    ensures Sum5(p, q, r, s, t) == Add(Add(p, q), Sum3(r, s, t))
  {
  }

  lemma SquareFirstPair(xa: bv8, xb: bv8, xc: bv8, xd: bv8, ya: bv8, yb: bv8, yc: bv8)
    ensures Add(Sum5(ya, yb, xb, xc, xd), Sum5(yb, yc, xc, xd, xa)) == Add(ya, Sum3(yc, xa, xb))
  {
  }

  lemma SquareOtherRows(a: bv8, b: bv8, c: bv8, d: bv8, xa: bv8, xb: bv8, xc: bv8, xd: bv8)
    ensures Sum3(Sum5(xb, xc, c, d, a), Sum5(xc, xd, d, a, b), Sum5(xd, xa, a, b, c)) == Sum3(xa, xb, a)
  {
  }

  lemma SquareRest(a: bv8, xa: bv8, xb: bv8, ya: bv8, yc: bv8)
    ensures Add(Add(ya, Sum3(yc, xa, xb)), Sum3(xa, xb, a)) == Sum3(ya, a, yc)
  {
  }

  lemma SquareTerms(a: bv8, b: bv8, c: bv8, d: bv8, xa: bv8, xb: bv8, xc: bv8, xd: bv8,
                    ya: bv8, yb: bv8, yc: bv8)
    ensures Sum5(Sum5(ya, yb, xb, xc, xd), Sum5(yb, yc, xc, xd, xa),
                 Sum5(xb, xc, c, d, a), Sum5(xc, xd, d, a, b), Sum5(xd, xa, a, b, c))
         == Sum3(ya, a, yc)
  {
    hide Add, Sum3, Sum5;
    Sum5Split(Sum5(ya, yb, xb, xc, xd), Sum5(yb, yc, xc, xd, xa),
      Sum5(xb, xc, c, d, a), Sum5(xc, xd, d, a, b), Sum5(xd, xa, a, b, c));
    SquareFirstPair(xa, xb, xc, xd, ya, yb, yc);
    SquareOtherRows(a, b, c, d, xa, xb, xc, xd);
    SquareRest(a, xa, xb, ya, yc);
  }

  lemma MixColumnTwice(w: Column)
    ensures MixColumn(MixColumn(w)) == Square(w)
  {
    hide MixByte, SquareByte;
    MixByteTwice(w.b0, w.b1, w.b2, w.b3);
    MixByteTwice(w.b1, w.b2, w.b3, w.b0);
    MixByteTwice(w.b2, w.b3, w.b0, w.b1);
    MixByteTwice(w.b3, w.b0, w.b1, w.b2);
  }

  lemma Times4Sum(a: bv8, b: bv8, c: bv8)
    ensures Times4(Sum3(a, b, c)) == Sum3(Times4(a), Times4(b), Times4(c))
  {
    hide Xtime, Add, Sum3;
    XtimeSums(a, b, c, a, b);
    XtimeSums(Xtime(a), Xtime(b), Xtime(c), a, b);
  }

  lemma SquareByteTwice(a: bv8, c: bv8, b: bv8, d: bv8)
    ensures SquareByte(SquareByte(a, b, c, d), b, SquareByte(c, d, a, b), d) == a
  {
    hide Times4, Sum3;
    Times4Sum(Times4(a), a, Times4(c));
    Times4Sum(Times4(c), c, Times4(a));
    SquareTwiceTerms(a, Times4(a), Times4(c), Times4(Times4(a)), Times4(Times4(c)));
  }

  lemma SquareTwiceTerms(a: bv8, ya: bv8, yc: bv8, za: bv8, zc: bv8)
    ensures Sum3(Sum3(za, ya, zc), Sum3(ya, a, yc), Sum3(zc, yc, za)) == a
  {
  }

  lemma SquareUndone(w: Column)
    ensures Square(Square(w)) == w
  {
    hide Times4, Sum3;
    SquareByteTwice(w.b0, w.b2, w.b1, w.b3);
    SquareByteTwice(w.b1, w.b3, w.b2, w.b0);
    SquareByteTwice(w.b2, w.b0, w.b3, w.b1);
    SquareByteTwice(w.b3, w.b1, w.b0, w.b2);
  }

  lemma InvMixByteIsMixOfSquare(a: bv8, b: bv8, c: bv8, d: bv8)
    ensures InvMixByte(a, b, c, d)
         == MixByte(SquareByte(a, b, c, d), SquareByte(b, c, d, a), SquareByte(c, d, a, b), SquareByte(d, a, b, c))
  {
    hide Xtime, Mul, Add, Sum3, Sum5, MixByte, Times4;
    MixByteSum(SquareByte(a, b, c, d), SquareByte(b, c, d, a), SquareByte(c, d, a, b), SquareByte(d, a, b, c));
    XtimeSums(Times4(a), a, Times4(c), a, b);
    XtimeSums(Times4(b), b, Times4(d), a, b);
    MulE(a);
    MulB(b);
    MulD(c);
    Mul9(d);
    InverseTerms(a, b, c, d, Xtime(a), Xtime(b), Times4(a), Times4(b), Times4(c), Times4(d),
      Xtime(Times4(a)), Xtime(Times4(b)), Xtime(Times4(c)), Xtime(Times4(d)));
  }

  lemma InverseOtherRows(b: bv8, c: bv8, d: bv8, ya: bv8, yb: bv8, yc: bv8, yd: bv8)
    ensures Sum3(Sum3(yb, b, yd), Sum3(yc, c, ya), Sum3(yd, d, yb)) == Sum5(b, c, d, ya, yc)
  {
  }

  lemma Sum3Pairs(x: bv8, y: bv8, z: bv8)
    ensures Sum3(x, y, z) == Add(Add(x, z), y)
    ensures Sum3(x, y, z) == Add(Add(x, y), z)
  {
  }

  lemma Sum3Tail(x: bv8, y: bv8, z: bv8)
    ensures Sum3(x, y, z) == Add(x, Add(z, y))
  {
  }

  lemma Sum5Tail(b: bv8, c: bv8, d: bv8, x: bv8, y: bv8)
    ensures Sum5(b, c, d, x, y) == Add(Sum3(b, d, x), Add(c, y))
  {
  }

  lemma AddCommutes(a: bv8, b: bv8)
    ensures Add(a, b) == Add(b, a)
  {
  }

  lemma AddAssociates(a: bv8, b: bv8, c: bv8)
    ensures Add(Add(a, b), c) == Add(a, Add(b, c))
  {
  }

  lemma MiddleFour(a: bv8, b: bv8, c: bv8, d: bv8)
    ensures Add(Add(a, b), Add(c, d)) == Add(Add(a, c), Add(b, d))
  {
    hide Add;
    AddAssociates(a, b, Add(c, d));
    AddAssociates(b, c, d);
    AddCommutes(b, c);
    AddAssociates(c, b, d);
    AddAssociates(a, c, Add(b, d));
  }

  lemma FourInARow(b: bv8, d: bv8, y: bv8, r: bv8)
    ensures Add(Add(y, b), Add(r, d)) == Add(Sum3(b, d, y), r)
  {
  }

  lemma InverseRegrouped(p: bv8, q: bv8, r: bv8, b: bv8, d: bv8, ya: bv8, zc: bv8, zd: bv8)
    ensures Add(Add(Add(Add(p, ya), Add(q, b)), Add(zc, r)), Add(zd, d))
         == Add(Add(Add(p, zc), Add(q, zd)), Add(Sum3(b, d, ya), r))
  {
    hide Add, Sum3;
    MiddleFour(p, ya, q, b);
    AddAssociates(Add(Add(p, q), Add(ya, b)), Add(zc, r), Add(zd, d));
    MiddleFour(zc, r, zd, d);
    MiddleFour(Add(p, q), Add(ya, b), Add(zc, zd), Add(r, d));
    MiddleFour(p, zc, q, zd);
    FourInARow(b, d, ya, r);
  }

  lemma XorIsAdd(a: bv8, b: bv8, c: bv8, d: bv8)
    ensures a ^ b ^ c ^ d == Add(Add(Add(a, b), c), d)
  {
  }

  lemma InverseRest(b: bv8, c: bv8, d: bv8, xa: bv8, xb: bv8, ya: bv8, yc: bv8, za: bv8, zb: bv8, zc: bv8, zd: bv8)
    ensures Sum3(za, ya, xa) ^ Sum3(zb, xb, b) ^ Sum3(zc, yc, c) ^ Add(zd, d)
         == Add(Add(Sum3(za, xa, zc), Sum3(zb, xb, zd)), Sum5(b, c, d, ya, yc))
  {
    hide Add, Sum3, Sum5;
    Sum3Pairs(za, ya, xa);
    Sum3Pairs(za, xa, zc);
    Sum3Pairs(zb, xb, b);
    Sum3Pairs(zb, xb, zd);
    Sum3Tail(zc, yc, c);
    Sum5Tail(b, c, d, ya, yc);
    XorIsAdd(Sum3(za, ya, xa), Sum3(zb, xb, b), Sum3(zc, yc, c), Add(zd, d));
    InverseRegrouped(Add(za, xa), Add(zb, xb), Add(c, yc), b, d, ya, zc, zd);
  }

  lemma InverseTerms(a: bv8, b: bv8, c: bv8, d: bv8, xa: bv8, xb: bv8,
                     ya: bv8, yb: bv8, yc: bv8, yd: bv8, za: bv8, zb: bv8, zc: bv8, zd: bv8)
    ensures Sum3(za, ya, xa) ^ Sum3(zb, xb, b) ^ Sum3(zc, yc, c) ^ Add(zd, d)
         == Sum5(Sum3(za, xa, zc), Sum3(zb, xb, zd), Sum3(yb, b, yd), Sum3(yc, c, ya), Sum3(yd, d, yb))
  {
    hide Add, Sum3, Sum5;
    Sum5Split(Sum3(za, xa, zc), Sum3(zb, xb, zd), Sum3(yb, b, yd), Sum3(yc, c, ya), Sum3(yd, d, yb));
    InverseOtherRows(b, c, d, ya, yb, yc, yd);
    InverseRest(b, c, d, xa, xb, ya, yc, za, zb, zc, zd);
  }

  lemma InvMixColumnIsMixOfSquare(w: Column)
    ensures InvMixColumn(w) == MixColumn(Square(w))
  {
    hide MixByte, InvMixByte, SquareByte;
    InvMixByteIsMixOfSquare(w.b0, w.b1, w.b2, w.b3);
    InvMixByteIsMixOfSquare(w.b1, w.b2, w.b3, w.b0);
    InvMixByteIsMixOfSquare(w.b2, w.b3, w.b0, w.b1);
    InvMixByteIsMixOfSquare(w.b3, w.b0, w.b1, w.b2);
  }

  lemma MixColumnUndone(w: Column)
    ensures InvMixColumn(MixColumn(w)) == w
    ensures MixColumn(InvMixColumn(w)) == w
  {
    hide MixColumn, InvMixColumn, Square;
    InvMixColumnIsMixOfSquare(w);
    InvMixColumnIsMixOfSquare(MixColumn(w));
    MixColumnTwice(w);
    MixColumnTwice(MixColumn(w));
    MixColumnTwice(Square(w));
    MixColumnTwice(MixColumn(MixColumn(w)));
    SquareUndone(w);
  }

  lemma MixColumnsUndone(s: Block)
    ensures InvMixColumns(MixColumns(s)) == s
    ensures MixColumns(InvMixColumns(s)) == s
  {
    hide MixColumn, InvMixColumn;
    MixColumnUndone(s.c0);
    MixColumnUndone(s.c1);
    MixColumnUndone(s.c2);
    MixColumnUndone(s.c3);
  }

  // ---- The cipher and its inverse ---------------------------------------------------------

  function Round(s: Block, k: Block): Block {
    AddRoundKey(MixColumns(ShiftRows(SubBytes(s))), k)
  }

  function FinalRound(s: Block, k: Block): Block {
    AddRoundKey(ShiftRows(SubBytes(s)), k)
  }

  function InvRound(s: Block, k: Block): Block {
    InvMixColumns(AddRoundKey(InvSubBytes(InvShiftRows(s)), k))
  }

  lemma InvRoundPeels(s: Block, k: Block)
    ensures InvRound(ShiftRows(SubBytes(Round(s, k))), k) == ShiftRows(SubBytes(s))
    ensures ShiftRows(SubBytes(Round(InvSubBytes(InvShiftRows(InvRound(s, k))), k))) == s
  {
    hide SubBytes, InvSubBytes, ShiftRows, InvShiftRows, MixColumns, InvMixColumns, AddRoundKey;
    var t := Round(s, k);
    ShiftRowsUndone(SubBytes(t));
    SubBytesUndone(t);
    var m := ShiftRows(SubBytes(s));
    AddRoundKeyUndone(MixColumns(m), k);
    MixColumnsUndone(m);
    var u := InvSubBytes(InvShiftRows(s));
    MixColumnsUndone(AddRoundKey(u, k));
    AddRoundKeyUndone(u, k);
    var v := InvMixColumns(AddRoundKey(u, k));
    SubBytesUndone(InvShiftRows(v));
    ShiftRowsUndone(v);
    SubBytesUndone(InvShiftRows(s));
    ShiftRowsUndone(s);
  }

  /** The eleven round keys; nothing below depends on how they were derived. */
  type RoundKeys = ks: seq<Block> | |ks| == 11 witness Repeat(11, ZeroBlock())

  /** The state after `n` full rounds. */
  function AfterRounds(ks: RoundKeys, x: Block, n: nat): Block
    requires n <= 9
  {
    if n == 0 then AddRoundKey(x, ks[0]) else Round(AfterRounds(ks, x, n - 1), ks[n])
  }

  function Cipher(ks: RoundKeys, x: Block): Block {
    FinalRound(AfterRounds(ks, x, 9), ks[10])
  }

  /** The state of the inverse cipher once rounds 9 down to `n` are undone. */
  function Undone(ks: RoundKeys, y: Block, n: nat): Block
    requires 1 <= n <= 10
    decreases 10 - n
  {
    if n == 10 then AddRoundKey(y, ks[10]) else InvRound(Undone(ks, y, n + 1), ks[n])
  }

  function InvCipher(ks: RoundKeys, y: Block): Block {
    AddRoundKey(InvSubBytes(InvShiftRows(Undone(ks, y, 1))), ks[0])
  }

  lemma {:induction false} UndoneMeetsRounds(ks: RoundKeys, x: Block, n: nat)
    requires 1 <= n <= 10
    ensures Undone(ks, Cipher(ks, x), n) == ShiftRows(SubBytes(AfterRounds(ks, x, n - 1)))
    decreases 10 - n
  {
    hide SubBytes, ShiftRows, AddRoundKey, Round, InvRound;
    if n == 10 {
      AddRoundKeyUndone(ShiftRows(SubBytes(AfterRounds(ks, x, 9))), ks[10]);
    } else {
      UndoneMeetsRounds(ks, x, n + 1);
      InvRoundPeels(AfterRounds(ks, x, n - 1), ks[n]);
    }
  }

  lemma {:induction false} RoundsMeetUndone(ks: RoundKeys, y: Block, n: nat)
    requires 1 <= n <= 10
    ensures ShiftRows(SubBytes(AfterRounds(ks, InvCipher(ks, y), n - 1))) == Undone(ks, y, n)
  {
    hide SubBytes, InvSubBytes, ShiftRows, InvShiftRows, AddRoundKey, Round, InvRound;
    if n == 1 {
      var u := Undone(ks, y, 1);
      AddRoundKeyUndone(InvSubBytes(InvShiftRows(u)), ks[0]);
      SubBytesUndone(InvShiftRows(u));
      ShiftRowsUndone(u);
    } else {
      RoundsMeetUndone(ks, y, n - 1);
      var r := AfterRounds(ks, InvCipher(ks, y), n - 2);
      ShiftRowsUndone(SubBytes(r));
      SubBytesUndone(r);
      InvRoundPeels(Undone(ks, y, n), ks[n - 1]);
    }
  }

  /** For every list of round keys the cipher and the inverse cipher undo each other. */
  lemma CipherBijective(ks: RoundKeys, x: Block)
    ensures InvCipher(ks, Cipher(ks, x)) == x
    ensures Cipher(ks, InvCipher(ks, x)) == x
  {
    hide SubBytes, InvSubBytes, ShiftRows, InvShiftRows, AddRoundKey, AfterRounds, Undone;
    UndoneMeetsRounds(ks, x, 1);
    var s := AfterRounds(ks, x, 0);
    ShiftRowsUndone(SubBytes(s));
    SubBytesUndone(s);
    RoundsStart(ks, x);
    AddRoundKeyUndone(x, ks[0]);
    RoundsMeetUndone(ks, x, 10);
    UndoneStart(ks, x);
    AddRoundKeyUndone(x, ks[10]);
  }

  lemma RoundsStart(ks: RoundKeys, x: Block)
    ensures AfterRounds(ks, x, 0) == AddRoundKey(x, ks[0])
  {
  }

  lemma UndoneStart(ks: RoundKeys, y: Block)
    ensures Undone(ks, y, 10) == AddRoundKey(y, ks[10])
  {
  }

  /** Different blocks never meet. */
  lemma CipherInjective(ks: RoundKeys, x: Block, y: Block)
    ensures Cipher(ks, x) == Cipher(ks, y) <==> x == y
  {
    hide Cipher, InvCipher;
    CipherBijective(ks, x);
    CipherBijective(ks, y);
  }

  // ---- The key schedule ------------------------------------------------------------------

  function RotWord(w: Column): Column {
    Column(w.b1, w.b2, w.b3, w.b0)
  }

  /** The round constant: {02} to the power i - 1 in the first byte. */
  function Rcon(i: nat): Column
    requires i >= 1
  {
    Column(XtimePow(i - 1), 0, 0, 0)
  }

  function ColumnAt(s: Block, c: nat): Column
    requires c < 4
  {
    if c == 0 then s.c0 else if c == 1 then s.c1 else if c == 2 then s.c2 else s.c3
  }

  /** Word `i` of the expanded key. */
  function ScheduleWord(key: Block, i: nat): Column {
    if i < 4 then ColumnAt(key, i)
    else
      var t := ScheduleWord(key, i - 1);
      XorWord(ScheduleWord(key, i - 4),
        if i % 4 == 0 then XorWord(SubWord(RotWord(t)), Rcon(i / 4)) else t)
  }

  function RoundKey(key: Block, r: nat): Block {
    Block(ScheduleWord(key, 4 * r), ScheduleWord(key, 4 * r + 1),
          ScheduleWord(key, 4 * r + 2), ScheduleWord(key, 4 * r + 3))
  }

  function Schedule(key: Block): (ks: RoundKeys)
    ensures forall r :: 0 <= r < 11 ==> ks[r] == RoundKey(key, r)
  {
    seq(11, r requires 0 <= r < 11 => RoundKey(key, r))
  }

  function Encrypt(key: Block, x: Block): Block {
    Cipher(Schedule(key), x)
  }

  function Decrypt(key: Block, y: Block): Block {
    InvCipher(Schedule(key), y)
  }

  /** Encryption under any key is a bijection with the inverse cipher as inverse. */
  lemma EncryptBijective(key: Block, x: Block)
    ensures Decrypt(key, Encrypt(key, x)) == x
    ensures Encrypt(key, Decrypt(key, x)) == x
  {
    hide Cipher, InvCipher, Schedule;
    CipherBijective(Schedule(key), x);
  }
}
