/**
 The data memory as words: a stored word is read back, other words stay, and narrower
 accesses take the bytes in little-endian order.
 */
module RvMemoryWords {
  import opened Rv32iPkg
  import Isa = RvIsa
  import Standard = RvStandard

  function Store(m: Memory, a: Word, w: Word): Memory {
    Isa.StoreValue(Isa.StoreWord, m, a, w)
  }

  lemma LanesApart(a: Word, b: Word, i: bv2, j: bv2)
    requires Aligned(a) && Aligned(b)
    ensures Lane(a, i) == Lane(b, j) <==> a == b && i == j
  {
  }

  lemma PutReads(m: Memory, k: Word, v: bv8, x: Word)
    ensures ByteAt(Put(m, k, v), x) == if x == k then v else ByteAt(m, x)
  {
  }

  lemma StoreByteReads(m: Memory, a: Word, w: Word, x: Word)
    requires Aligned(a)
    ensures ByteAt(Store(m, a, w), x)
         == if x == Lane(a, 3) then ByteOf(w, 3)
            else if x == Lane(a, 2) then ByteOf(w, 2)
            else if x == Lane(a, 1) then ByteOf(w, 1)
            else if x == Lane(a, 0) then ByteOf(w, 0) else ByteAt(m, x)
  {
    hide ByteOf, ByteAt, Put, Lane, Aligned;
    var m0 := Put(m, Lane(a, 0), ByteOf(w, 0));
    var m1 := Put(m0, Lane(a, 1), ByteOf(w, 1));
    var m2 := Put(m1, Lane(a, 2), ByteOf(w, 2));
    PutReads(m, Lane(a, 0), ByteOf(w, 0), x);
    PutReads(m0, Lane(a, 1), ByteOf(w, 1), x);
    PutReads(m1, Lane(a, 2), ByteOf(w, 2), x);
    PutReads(m2, Lane(a, 3), ByteOf(w, 3), x);
  }

  lemma StoreLaneReads(m: Memory, a: Word, w: Word, b: Word, k: bv2)
    requires Aligned(a) && Aligned(b)
    ensures ByteAt(Store(m, a, w), Lane(b, k)) == if a == b then ByteOf(w, k) else ByteAt(m, Lane(b, k))
  {
    hide ByteOf, ByteAt, Store, Lane, Aligned;
    StoreByteReads(m, a, w, Lane(b, k));
    LanesApart(b, a, k, 0);
    LanesApart(b, a, k, 1);
    LanesApart(b, a, k, 2);
    LanesApart(b, a, k, 3);
    assert k == 0 || k == 1 || k == 2 || k == 3;
  }

  /** A stored word is read back, and no other word changes. */
  lemma StoreReads(m: Memory, a: Word, w: Word, b: Word)
    requires Aligned(a) && Aligned(b)
    ensures ReadWord(Store(m, a, w), b) == if a == b then w else ReadWord(m, b)
  {
    hide ByteOf, ByteAt, Store, Lane, Aligned, Cat;
    StoreLaneReads(m, a, w, b, 0);
    StoreLaneReads(m, a, w, b, 1);
    StoreLaneReads(m, a, w, b, 2);
    StoreLaneReads(m, a, w, b, 3);
    CatBytes(w);
  }

  // ---- Byte order and extension ---------------------------------------------------------

  /** The lowest byte lies at the lowest address. */
  lemma LoadsLittleEndian(m: Memory, a: Word)
    requires Aligned(a)
    ensures var w := Isa.LoadValue(Isa.LoadWord, m, a);
      && ByteOf(w, 0) == ByteAt(m, a) && ByteOf(w, 1) == ByteAt(m, Plus(a, 1))
      && ByteOf(w, 2) == ByteAt(m, Plus(a, 2)) && ByteOf(w, 3) == ByteAt(m, Plus(a, 3))
    ensures var h := Isa.LoadValue(Isa.LoadHalfU, m, a);
      && ByteOf(h, 0) == ByteAt(m, a) && ByteOf(h, 1) == ByteAt(m, Plus(a, 1))
      && ByteOf(h, 2) == 0 && ByteOf(h, 3) == 0
  {
    hide ByteAt, Plus, Aligned, CatHalf, Cat, ByteOf, Isa.LoadValue;
    EvenToo(a);
    Standard.LoadSame(Isa.LoadWord, m, a);
    Standard.LoadSame(Isa.LoadHalfU, m, a);
    WordBytes(ByteAt(m, Plus(a, 3)), ByteAt(m, Plus(a, 2)), ByteAt(m, Plus(a, 1)), ByteAt(m, a));
    HalfBytes(ByteAt(m, Plus(a, 1)), ByteAt(m, a));
  }

  lemma WordBytes(b3: bv8, b2: bv8, b1: bv8, b0: bv8)
    ensures var w := Cat(b3, b2, b1, b0);
      ByteOf(w, 0) == b0 && ByteOf(w, 1) == b1 && ByteOf(w, 2) == b2 && ByteOf(w, 3) == b3
  {
  }

  lemma HalfBytes(b1: bv8, b0: bv8)
    ensures var h := CatHalf(b1, b0) as Word;
      ByteOf(h, 0) == b0 && ByteOf(h, 1) == b1 && ByteOf(h, 2) == 0 && ByteOf(h, 3) == 0
  {
  }

  lemma EvenToo(a: Word)
    requires Aligned(a)
    ensures a & 1 == 0
  {
  }

  /** What a store leaves at its address, the lowest byte first. */
  lemma StoresLittleEndian(m: Memory, a: Word, w: Word)
    requires Aligned(a)
    ensures ByteAt(Isa.StoreValue(Isa.StoreByte, m, a, w), a) == (w & 0xff) as bv8
    ensures ByteAt(Isa.StoreValue(Isa.StoreHalf, m, a, w), a) == (w & 0xff) as bv8
    ensures ByteAt(Isa.StoreValue(Isa.StoreHalf, m, a, w), Plus(a, 1)) == ((w >> 8) & 0xff) as bv8
    ensures ByteAt(Store(m, a, w), a) == (w & 0xff) as bv8
    ensures ByteAt(Store(m, a, w), Plus(a, 1)) == ((w >> 8) & 0xff) as bv8
    ensures ByteAt(Store(m, a, w), Plus(a, 2)) == ((w >> 16) & 0xff) as bv8
    ensures ByteAt(Store(m, a, w), Plus(a, 3)) == (w >> 24) as bv8
  {
    hide ByteAt, ByteOf, Put, Lane, Plus, ClearLow1, Aligned, Store;
    EvenToo(a);
    Standard.AlignedLane0(a);
    Standard.AlignedLane1(a);
    Standard.AlignedLane2(a);
    Standard.AlignedLane3(a);
    Standard.AlignedHalf(a);
    BytesOf(w);
    NextDiffers(a);
    StoreLaneReads(m, a, w, a, 0);
    StoreLaneReads(m, a, w, a, 1);
    StoreLaneReads(m, a, w, a, 2);
    StoreLaneReads(m, a, w, a, 3);
    PutReads(m, a, ByteOf(w, 0), a);
    PutReads(Put(m, a, ByteOf(w, 0)), Plus(a, 1), ByteOf(w, 1), a);
    PutReads(Put(m, a, ByteOf(w, 0)), Plus(a, 1), ByteOf(w, 1), Plus(a, 1));
  }

  lemma NextDiffers(a: Word)
    ensures Plus(a, 1) != a
  {
  }

  lemma BytesOf(w: Word)
    ensures ByteOf(w, 0) == (w & 0xff) as bv8 && ByteOf(w, 1) == ((w >> 8) & 0xff) as bv8
    ensures ByteOf(w, 2) == ((w >> 16) & 0xff) as bv8 && ByteOf(w, 3) == (w >> 24) as bv8
  {
  }

  /** Signed loads subtract 2^8 or 2^16 from what has its top bit set. */
  lemma LoadsSignExtend(m: Memory, a: Word)
    ensures Isa.LoadValue(Isa.LoadByte, m, a) == Lowered(Isa.LoadValue(Isa.LoadByteU, m, a), 0x80)
    ensures Isa.LoadValue(Isa.LoadHalf, m, a) == Lowered(Isa.LoadValue(Isa.LoadHalfU, m, a), 0x8000)
  {
    hide ByteAt, Isa.HalfAt, Sext8, Sext16, Lowered;
    ByteExtends(ByteAt(m, a));
    HalfExtends(Isa.HalfAt(m, a));
  }

  function Lowered(u: Word, top: Word): Word {
    if u < top then u else u - top - top
  }

  lemma ByteExtends(b: bv8)
    ensures Sext8(b) == Lowered(b as Word, 0x80)
  {
  }

  lemma HalfExtends(h: bv16)
    ensures Sext16(h) == Lowered(h as Word, 0x8000)
  {
  }

  lemma CatBytes(w: Word)
    ensures Cat(ByteOf(w, 3), ByteOf(w, 2), ByteOf(w, 1), ByteOf(w, 0)) == w
  {
  }
}
