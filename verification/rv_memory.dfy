/**
 The word-wide, byte-enabled, synchronous data port against the architecture's
 byte-addressed loads and stores.
 */
module RvMemoryPort {
  import opened Rv32iPkg
  import opened RvStages
  import Isa = RvIsa

  // ---- Single facts about bits, each on its own -----------------------------------

  lemma AddressIsLane(addr: Word)
    ensures addr == Lane(addr, Offset(addr))
  {
  }

  lemma HalfIsLane(addr: Word)
    ensures ClearLow1(addr) == Lane(addr, Offset(addr) & 2)
  {
  }

  lemma UpperHalfIsLane(addr: Word)
    ensures addr | 1 == Lane(addr, Offset(addr) | 1)
  {
  }

  lemma ByteEnabled(offset: bv2, k: bv2)
    ensures Enabled(ByteEnables(offset), k) <==> offset == k
  {
  }

  lemma HalfEnabled(offset: bv2, k: bv2)
    ensures Enabled(HalfEnables(offset), k) <==> offset & 2 == k & 2
  {
  }

  lemma WordEnabled(k: bv2)
    ensures Enabled(0xF, k)
  {
  }

  lemma RepeatedByte(data: Word, k: bv2)
    ensures ByteOf(RepeatByte(data), k) == ByteOf(data, 0)
  {
  }

  lemma RepeatedHalf(data: Word, k: bv2)
    ensures ByteOf(RepeatHalf(data), k) == ByteOf(data, k & 1)
  {
  }

  // ---- Stores -------------------------------------------------------------------

  lemma StoreByteExact(m: Memory, addr: Word, data: Word)
    ensures WriteLanes(m, addr, Lanes(0, addr, data)) == Isa.StoreValue(Isa.StoreByte, m, addr, data)
  {
    AddressIsLane(addr);
    var o := Offset(addr);
    ByteEnabled(o, 0); ByteEnabled(o, 1); ByteEnabled(o, 2); ByteEnabled(o, 3);
    RepeatedByte(data, o);
    hide Lane, Offset, ByteOf, Put, RepeatByte, ByteEnables, Enabled;
  }

  lemma StoreHalfExact(m: Memory, addr: Word, data: Word)
    ensures WriteLanes(m, addr, Lanes(1, addr, data)) == Isa.StoreValue(Isa.StoreHalf, m, addr, data)
  {
    HalfIsLane(addr);
    UpperHalfIsLane(addr);
    var o := Offset(addr);
    HalfEnabled(o, 0); HalfEnabled(o, 1); HalfEnabled(o, 2); HalfEnabled(o, 3);
    RepeatedHalf(data, o & 2);
    RepeatedHalf(data, o | 1);
    hide Lane, Offset, ByteOf, Put, RepeatHalf, HalfEnables, Enabled, ClearLow1;
  }

  lemma StoreWordExact(m: Memory, funct3: bv3, addr: Word, data: Word)
    requires funct3 >= 2
    ensures WriteLanes(m, addr, Lanes(funct3, addr, data)) == Isa.StoreValue(Isa.StoreWord, m, addr, data)
  {
    WordEnabled(0); WordEnabled(1); WordEnabled(2); WordEnabled(3);
    hide Lane, ByteOf, Enabled, Put;
  }

  /** A store's replicated data and byte enables write exactly the addressed bytes. */
  lemma LanesStore(m: Memory, funct3: bv3, addr: Word, data: Word)
    ensures WriteLanes(m, addr, Lanes(funct3, addr, data))
         == Isa.StoreValue(Isa.StoreKindOf(funct3), m, addr, data)
  {
    hide WriteLanes, Lanes, Isa.StoreValue;
    match funct3
    case 0 => StoreByteExact(m, addr, data);
    case 1 => StoreHalfExact(m, addr, data);
    case _ => StoreWordExact(m, funct3, addr, data);
  }

  // ---- Loads --------------------------------------------------------------------

  lemma CatByte(b3: bv8, b2: bv8, b1: bv8, b0: bv8, k: bv2)
    ensures ByteOf(Cat(b3, b2, b1, b0), k) == match k case 0 => b0 case 1 => b1 case 2 => b2 case _ => b3
  {
  }

  lemma CatHalves(b3: bv8, b2: bv8, b1: bv8, b0: bv8, k: bv2)
    ensures HalfOf(Cat(b3, b2, b1, b0), k) == if k & 2 != 0 then CatHalf(b3, b2) else CatHalf(b1, b0)
  {
  }

  lemma ByteLoad(m: Memory, addr: Word)
    ensures ByteOf(ReadWord(m, addr), Offset(addr)) == ByteAt(m, addr)
  {
    AddressIsLane(addr);
    CatByte(ByteAt(m, Lane(addr, 3)), ByteAt(m, Lane(addr, 2)), ByteAt(m, Lane(addr, 1)), ByteAt(m, Lane(addr, 0)),
            Offset(addr));
    hide Lane, Offset, ByteAt, Cat, ByteOf;
  }

  lemma HalfLoad(m: Memory, addr: Word)
    ensures HalfOf(ReadWord(m, addr), Offset(addr)) == Isa.HalfAt(m, addr)
  {
    HalfIsLane(addr);
    UpperHalfIsLane(addr);
    CatHalves(ByteAt(m, Lane(addr, 3)), ByteAt(m, Lane(addr, 2)), ByteAt(m, Lane(addr, 1)), ByteAt(m, Lane(addr, 0)),
              Offset(addr));
    hide Lane, Offset, ByteAt, Cat, ClearLow1, HalfOf, CatHalf;
    var o := Offset(addr);
    if o & 2 != 0 {
      assert o | 1 == 3 && o & 2 == 2;
    } else {
      assert o | 1 == 1 && o & 2 == 0;
    }
  }

  /** A load formatted from the aligned word is the load of its own bytes. */
  lemma WordLoad(m: Memory, funct3: bv3, addr: Word)
    ensures LoadExtend(funct3, Offset(addr), ReadWord(m, addr))
         == Isa.LoadValue(Isa.LoadKindOf(funct3), m, addr)
  {
    ByteLoad(m, addr);
    HalfLoad(m, addr);
    hide ReadWord, ByteAt, Isa.HalfAt, Sext8, Sext16, Offset, ByteOf, HalfOf;
  }
}
