/**
 The whitener (`aes_whitener.vhd`): a bit accumulator and a one-round-per-clock cipher
 under the zero key, whose round keys are constants.
 */
module AesWhitener {
  import opened Basics
  import opened AesField
  import opened AesCipher
  import opened AesCore

  // ---- Constants and the round ------------------------------------------------------------

  const RK: RoundKeys := [
    Block(Column(0x00, 0x00, 0x00, 0x00), Column(0x00, 0x00, 0x00, 0x00),
          Column(0x00, 0x00, 0x00, 0x00), Column(0x00, 0x00, 0x00, 0x00)),
    Block(Column(0x62, 0x63, 0x63, 0x63), Column(0x62, 0x63, 0x63, 0x63),
          Column(0x62, 0x63, 0x63, 0x63), Column(0x62, 0x63, 0x63, 0x63)),
    Block(Column(0x9b, 0x98, 0x98, 0xc9), Column(0xf9, 0xfb, 0xfb, 0xaa),
          Column(0x9b, 0x98, 0x98, 0xc9), Column(0xf9, 0xfb, 0xfb, 0xaa)),
    Block(Column(0x90, 0x97, 0x34, 0x50), Column(0x69, 0x6c, 0xcf, 0xfa),
          Column(0xf2, 0xf4, 0x57, 0x33), Column(0x0b, 0x0f, 0xac, 0x99)),
    Block(Column(0xee, 0x06, 0xda, 0x7b), Column(0x87, 0x6a, 0x15, 0x81),
          Column(0x75, 0x9e, 0x42, 0xb2), Column(0x7e, 0x91, 0xee, 0x2b)),
    Block(Column(0x7f, 0x2e, 0x2b, 0x88), Column(0xf8, 0x44, 0x3e, 0x09),
          Column(0x8d, 0xda, 0x7c, 0xbb), Column(0xf3, 0x4b, 0x92, 0x90)),
    Block(Column(0xec, 0x61, 0x4b, 0x85), Column(0x14, 0x25, 0x75, 0x8c),
          Column(0x99, 0xff, 0x09, 0x37), Column(0x6a, 0xb4, 0x9b, 0xa7)),
    Block(Column(0x21, 0x75, 0x17, 0x87), Column(0x35, 0x50, 0x62, 0x0b),
          Column(0xac, 0xaf, 0x6b, 0x3c), Column(0xc6, 0x1b, 0xf0, 0x9b)),
    Block(Column(0x0e, 0xf9, 0x03, 0x33), Column(0x3b, 0xa9, 0x61, 0x38),
          Column(0x97, 0x06, 0x0a, 0x04), Column(0x51, 0x1d, 0xfa, 0x9f)),
    Block(Column(0xb1, 0xd4, 0xd8, 0xe2), Column(0x8a, 0x7d, 0xb9, 0xda),
          Column(0x1d, 0x7b, 0xb3, 0xde), Column(0x4c, 0x66, 0x49, 0x41)),
    Block(Column(0xb4, 0xef, 0x5b, 0xcb), Column(0x3e, 0x92, 0xe2, 0x11),
          Column(0x23, 0xe9, 0x51, 0xcf), Column(0x6f, 0x8f, 0x18, 0x8e))
  ]

  /** The substituted words that the ten steps of the schedule use. */
  lemma SubstitutedWordsLow()
    ensures SubWord(Column(0x00, 0x00, 0x00, 0x00)) == Column(0x63, 0x63, 0x63, 0x63)
    ensures SubWord(Column(0x63, 0x63, 0x63, 0x62)) == Column(0xfb, 0xfb, 0xfb, 0xaa)
    ensures SubWord(Column(0xfb, 0xfb, 0xaa, 0xf9)) == Column(0x0f, 0x0f, 0xac, 0x99)
    ensures SubWord(Column(0x0f, 0xac, 0x99, 0x0b)) == Column(0x76, 0x91, 0xee, 0x2b)
    ensures SubWord(Column(0x91, 0xee, 0x2b, 0x7e)) == Column(0x81, 0x28, 0xf1, 0xf3)
  {
  }

  lemma SubstitutedWordsHigh()
    ensures SubWord(Column(0x4b, 0x92, 0x90, 0xf3)) == Column(0xb3, 0x4f, 0x60, 0x0d)
    ensures SubWord(Column(0xb4, 0x9b, 0xa7, 0x6a)) == Column(0x8d, 0x14, 0x5c, 0x02)
    ensures SubWord(Column(0x1b, 0xf0, 0x9b, 0xc6)) == Column(0xaf, 0x8c, 0x14, 0xb4)
    ensures SubWord(Column(0x1d, 0xfa, 0x9f, 0x51)) == Column(0xa4, 0x2d, 0xdb, 0xd1)
    ensures SubWord(Column(0x66, 0x49, 0x41, 0x4c)) == Column(0x33, 0x3b, 0x83, 0x29)
  {
  }

  lemma ConstantsLow()
    ensures NextKey(RK[0], 0x01) == RK[1]
    ensures NextKey(RK[1], 0x02) == RK[2]
    ensures NextKey(RK[2], 0x04) == RK[3]
    ensures NextKey(RK[3], 0x08) == RK[4]
    ensures NextKey(RK[4], 0x10) == RK[5]
  {
    hide SubWord;
    SubstitutedWordsLow();
  }

  lemma ConstantsHigh()
    ensures NextKey(RK[5], 0x20) == RK[6]
    ensures NextKey(RK[6], 0x40) == RK[7]
    ensures NextKey(RK[7], 0x80) == RK[8]
    ensures NextKey(RK[8], 0x1b) == RK[9]
    ensures NextKey(RK[9], 0x36) == RK[10]
  {
    hide SubWord;
    SubstitutedWordsHigh();
  }

  lemma ConstantsAreSchedule()
    ensures RK == Schedule(ZeroBlock())
  {
    hide NextKey, Schedule;
    ConstantsLow();
    ConstantsHigh();
    ExpandKeyMeaning(ZeroBlock());
  }

  function KeyOf(r: nat): (k: Block)
    requires r <= 10
    ensures k == ZeroKeys()[r]
  {
    hide RK, Schedule;
    ConstantsAreSchedule();
    RK[r]
  }

  function GfMul3(b: bv8): bv8 {
    Add(Xtime(b), b)
  }

  function MixColByte(a: bv8, b: bv8, c: bv8, d: bv8): bv8 {
    Xtime(a) ^ GfMul3(b) ^ c ^ d
  }

  lemma MixColMeaning(a: bv8, b: bv8, c: bv8, d: bv8)
    ensures MixColByte(a, b, c, d) == MixByte(a, b, c, d)
  {
    hide Xtime, Mul, Add;
    MulSmall(a);
    MulSmall(b);
  }

  function ZeroKeys(): RoundKeys {
    Schedule(ZeroBlock())
  }

  function MixedRound(s: Block, k: Block): Block {
    AddRoundKey(MapColumns(w => Circulant(MixColByte, w), ShiftRows(SubBytes(s))), k)
  }

  lemma MixedRoundMeaning(s: Block, k: Block)
    ensures MixedRound(s, k) == Round(s, k)
  {
    hide MixColByte, MixByte, SubBytes, ShiftRows, AddRoundKey;
    MixColumnsMeaning(ShiftRows(SubBytes(s)));
  }

  lemma MixColumnsMeaning(s: Block)
    ensures MapColumns(w => Circulant(MixColByte, w), s) == MixColumns(s)
  {
    hide MixColByte, MixByte;
    forall a, b, c, d
      ensures MixColByte(a, b, c, d) == MixByte(a, b, c, d)
    {
      MixColMeaning(a, b, c, d);
    }
  }

  // ---- Bits and blocks ---------------------------------------------------------------------

  function ByteOfBits(b: seq<bool>): bv8
    requires |b| == 8
  {
    ByteFrom(b[0], b[1], b[2], b[3], b[4], b[5], b[6], b[7])
  }

  function ColumnOfBits(b: seq<bool>): Column
    requires |b| == 32
  {
    Column(ByteOfBits(b[..8]), ByteOfBits(b[8..16]), ByteOfBits(b[16..24]), ByteOfBits(b[24..]))
  }

  /** A 128-bit vector, its most significant bit first. */
  function BlockOfBits(b: seq<bool>): Block
    requires |b| == 128
  {
    Block(ColumnOfBits(b[..32]), ColumnOfBits(b[32..64]), ColumnOfBits(b[64..96]), ColumnOfBits(b[96..]))
  }

  /** Byte `k` of a vector, the most significant first. */
  function BlockByte(x: Block, k: nat): bv8
    requires k < 16
  {
    var w := if k < 4 then x.c0 else if k < 8 then x.c1 else if k < 12 then x.c2 else x.c3;
    if k % 4 == 0 then w.b0 else if k % 4 == 1 then w.b1 else if k % 4 == 2 then w.b2 else w.b3
  }

  lemma SliceOfSlice(b: seq<bool>, c: nat, o: nat)
    requires c + 32 <= |b| && o + 8 <= 32
    ensures b[c..c + 32][o..o + 8] == b[c + o..c + o + 8]
  {
    var u, v := b[c..c + 32][o..o + 8], b[c + o..c + o + 8];
    forall i | 0 <= i < 8
      ensures u[i] == v[i]
    {
      assert b[c..c + 32][o + i] == b[c + o + i];
    }
  }

  lemma BytesInOrder(b: seq<bool>, k: nat)
    requires |b| == 128 && k < 16
    ensures BlockByte(BlockOfBits(b), k) == ByteOfBits(b[8 * k..8 * k + 8])
  {
    hide ByteOfBits;
    var c := 32 * (k / 4);
    SliceOfSlice(b, c, 8 * (k % 4));
    assert b[96..] == b[96..128];
  }

  function Place(k: nat): bv8
    requires k < 8
  {
    match k
    case 0 => 0x80 case 1 => 0x40 case 2 => 0x20 case 3 => 0x10 case 4 => 8 case 5 => 4 case 6 => 2 case _ => 1
  }

  lemma BitsInByte(b: seq<bool>, k: nat)
    requires |b| == 8 && k < 8
    ensures ByteOfBits(b) & Place(k) != 0 <==> b[k]
  {
  }

  /** The accumulated bits fill the block from its most significant bit. */
  lemma BitsInOrder(b: seq<bool>, i: nat)
    requires |b| == 128 && i < 128
    ensures BlockByte(BlockOfBits(b), i / 8) & Place(i % 8) != 0 <==> b[i]
  {
    hide ByteOfBits, BlockOfBits, BlockByte, Place;
    var k := i / 8;
    BytesInOrder(b, k);
    BitsInByte(b[8 * k..8 * k + 8], i % 8);
  }

  // ---- One clock ---------------------------------------------------------------------------

  /** The registers; `bits` is the accumulator, most significant bit first. */
  datatype Whitener = Whitener(bits: seq<bool>, count: nat, ready: bool,
                               state: Block, round: nat, active: bool, valid: bool)

  datatype Input = Input(rst: bool, valid: bool, bit: bool)

  function PowerOn(): Whitener {
    Whitener(Repeat(128, false), 0, false, ZeroBlock(), 0, false, false)
  }

  predicate Sized(w: Whitener) {
    |w.bits| == 128 && w.count < 128 && (w.active ==> 1 <= w.round <= 10)
  }

  function Step(w: Whitener, x: Input): Whitener
    requires Sized(w)
  {
    hide MixedRound, FinalRound, AddRoundKey, BlockOfBits, ZeroBlock;
    if x.rst then Whitener(Repeat(128, false), 0, false, ZeroBlock(), 0, false, false)
    else
      var taken := x.valid && !w.active;
      var v := w.(
        bits := if taken then w.bits[1..] + [x.bit] else w.bits,
        count := if !taken then w.count else if w.count == 127 then 0 else w.count + 1,
        ready := taken && w.count == 127,
        valid := w.active && !w.ready && w.round == 10);
      if w.ready then v.(state := AddRoundKey(BlockOfBits(w.bits), KeyOf(0)), round := 1, active := true)
      else if !w.active then v
      else if w.round == 10 then v.(state := FinalRound(w.state, KeyOf(10)), active := false)
      else v.(state := MixedRound(w.state, KeyOf(w.round)), round := w.round + 1)
  }

  // ---- Conservation ------------------------------------------------------------------------

  /** What has been taken in and given out since the last reset. */
  datatype Log = Log(accepted: seq<bool>, emitted: seq<Block>)

  function Note(w: Whitener, x: Input, log: Log): Log
    requires Sized(w)
  {
    if x.rst then Log([], [])
    else
      var v := Step(w, x);
      Log(if x.valid && !w.active then log.accepted + [x.bit] else log.accepted,
          if v.valid then log.emitted + [v.state] else log.emitted)
  }

  /** Bits 128k to 128k + 127 of a stream. */
  function Chunk(s: seq<bool>, k: nat): (c: seq<bool>)
    requires 128 * k + 128 <= |s|
    ensures |c| == 128
  {
    s[128 * k..128 * k + 128]
  }

  function ZeroEncrypt(x: Block): Block {
    Encrypt(ZeroBlock(), x)
  }

  /** Full blocks taken in: those given out and the one in the engine. */
  function Blocks(w: Whitener, log: Log): nat {
    |log.emitted| + (if w.ready || w.active then 1 else 0)
  }

  /** Each output is the cipher of its own 128 accepted bits. */
  ghost predicate Emits(log: Log) {
    && 128 * |log.emitted| <= |log.accepted|
    && forall k :: 0 <= k < |log.emitted| ==>
      log.emitted[k] == ZeroEncrypt(BlockOfBits(Chunk(log.accepted, k)))
  }

  /** The block in the engine after `n` rounds. */
  ghost function Progress(log: Log, n: nat): Block
    requires 128 * |log.emitted| + 128 <= |log.accepted| && n <= 9
  {
    AfterRounds(ZeroKeys(), BlockOfBits(Chunk(log.accepted, |log.emitted|)), n)
  }

  /** The last `count` bits of the accumulator are the last ones accepted. */
  ghost predicate Window(bits: seq<bool>, accepted: seq<bool>, count: nat) {
    && |bits| == 128 && count < 128 && count <= |accepted|
    && bits[128 - count..] == accepted[|accepted| - count..]
  }

  /** The accumulator ends with the bits of the block being collected, and with all of
      the last block while that one is handed over. */
  ghost predicate Conserved(w: Whitener, log: Log) {
    && Sized(w) && Emits(log)
    && |log.accepted| == 128 * Blocks(w, log) + w.count
    && Window(w.bits, log.accepted, w.count)
    && (w.ready ==> !w.active && w.count == 0 && w.bits == Chunk(log.accepted, |log.emitted|))
    && (w.active ==> w.state == Progress(log, w.round - 1))
  }

  lemma EmitsMore(log: Log, bit: bool)
    requires Emits(log)
    ensures Emits(log.(accepted := log.accepted + [bit]))
    ensures 128 * |log.emitted| + 128 <= |log.accepted| ==>
      Chunk(log.accepted + [bit], |log.emitted|) == Chunk(log.accepted, |log.emitted|)
  {
    hide ZeroEncrypt, BlockOfBits;
    forall k | 0 <= k < |log.emitted|
      ensures Chunk(log.accepted + [bit], k) == Chunk(log.accepted, k)
    {
    }
  }

  lemma EmitsNext(log: Log, y: Block)
    requires Emits(log) && 128 * |log.emitted| + 128 <= |log.accepted|
    requires y == ZeroEncrypt(BlockOfBits(Chunk(log.accepted, |log.emitted|)))
    ensures Emits(log.(emitted := log.emitted + [y]))
  {
    hide BlockOfBits, ZeroEncrypt;
  }

  lemma EngineFinish(log: Log, n: nat)
    requires 128 * |log.emitted| + 128 <= |log.accepted| && n == 9
    ensures FinalRound(Progress(log, n), KeyOf(n + 1))
         == ZeroEncrypt(BlockOfBits(Chunk(log.accepted, |log.emitted|)))
  {
    hide BlockOfBits, FinalRound, Schedule, AfterRounds, KeyOf, ZeroBlock;
  }

  lemma EngineRound(log: Log, n: nat)
    requires 128 * |log.emitted| + 128 <= |log.accepted| && 1 <= n <= 9
    ensures MixedRound(Progress(log, n - 1), KeyOf(n)) == Progress(log, n)
  {
    hide BlockOfBits, Round, Schedule, MixedRound, KeyOf;
    MixedRoundMeaning(Progress(log, n - 1), KeyOf(n));
  }

  lemma EngineStart(log: Log)
    requires 128 * |log.emitted| + 128 <= |log.accepted|
    ensures AddRoundKey(BlockOfBits(Chunk(log.accepted, |log.emitted|)), KeyOf(0)) == Progress(log, 0)
  {
    hide BlockOfBits, AddRoundKey, Schedule, KeyOf;
  }

  lemma WindowSlides(bits: seq<bool>, accepted: seq<bool>, count: nat, bit: bool)
    requires Window(bits, accepted, count)
    ensures count < 127 ==> Window(bits[1..] + [bit], accepted + [bit], count + 1)
    ensures count == 127 ==> Window(bits[1..] + [bit], accepted + [bit], 0)
    ensures count == 127 ==> bits[1..] + [bit] == (accepted + [bit])[|accepted| - 127..]
  {
    assert bits[1..][127 - count..] == bits[128 - count..];
    assert (bits[1..] + [bit])[127 - count..] == (accepted + [bit])[|accepted| - count..];
  }

  lemma LastChunk(accepted: seq<bool>, m: nat)
    requires |accepted| == 128 * m + 128
    ensures Chunk(accepted, m) == accepted[|accepted| - 128..]
  {
  }

  /** Without a bit to take; the engine may start. */
  lemma NoBitKeeps(w: Whitener, x: Input, log: Log)
    requires Conserved(w, log) && !x.rst && !w.active && !x.valid
    ensures Conserved(Step(w, x), Note(w, x, log))
  {
    hide AddRoundKey, BlockOfBits, Emits, MixedRound, FinalRound, Progress, KeyOf, ZeroKeys, Repeat, Window;
    if w.ready {
      EngineStart(log);
    }
  }

  lemma BitKeeps(w: Whitener, x: Input, log: Log)
    requires Conserved(w, log) && !x.rst && !w.active && x.valid && w.count < 127
    ensures Conserved(Step(w, x), Note(w, x, log))
  {
    hide AddRoundKey, BlockOfBits, Emits, MixedRound, FinalRound, Progress, KeyOf, ZeroKeys, Repeat, Window;
    WindowSlides(w.bits, log.accepted, w.count, x.bit);
    EmitsMore(log, x.bit);
    if w.ready {
      EngineStart(log);
      ProgressStable(log, x.bit, 0);
    }
  }

  lemma LastBitKeeps(w: Whitener, x: Input, log: Log)
    requires Conserved(w, log) && !x.rst && !w.active && x.valid && w.count == 127
    ensures Conserved(Step(w, x), Note(w, x, log))
  {
    hide AddRoundKey, BlockOfBits, Emits, MixedRound, FinalRound, Progress, KeyOf, ZeroKeys, Repeat, Window, Chunk;
    WindowSlides(w.bits, log.accepted, w.count, x.bit);
    EmitsMore(log, x.bit);
    LastChunk(log.accepted + [x.bit], |log.emitted|);
  }

  lemma ProgressStable(log: Log, bit: bool, n: nat)
    requires 128 * |log.emitted| + 128 <= |log.accepted| && n <= 9
    ensures Progress(log.(accepted := log.accepted + [bit]), n) == Progress(log, n)
  {
    hide AfterRounds, BlockOfBits, Schedule;
    assert Chunk(log.accepted + [bit], |log.emitted|) == Chunk(log.accepted, |log.emitted|);
  }

  lemma RoundKeeps(w: Whitener, x: Input, log: Log)
    requires Conserved(w, log) && !x.rst && w.active && w.round < 10
    ensures Conserved(Step(w, x), Note(w, x, log))
  {
    hide AddRoundKey, BlockOfBits, Emits, MixedRound, FinalRound, Progress, KeyOf, ZeroEncrypt, ZeroKeys;
    EngineRound(log, w.round);
  }

  lemma FinishKeeps(w: Whitener, x: Input, log: Log)
    requires Conserved(w, log) && !x.rst && w.active && w.round == 10
    ensures Conserved(Step(w, x), Note(w, x, log))
  {
    hide AddRoundKey, BlockOfBits, Emits, MixedRound, FinalRound, Progress, KeyOf, ZeroEncrypt, ZeroKeys;
    EngineFinish(log, w.round - 1);
    EmitsNext(log, FinalRound(w.state, KeyOf(w.round)));
  }

  lemma StepConserves(w: Whitener, x: Input, log: Log)
    requires Conserved(w, log)
    ensures Conserved(Step(w, x), Note(w, x, log))
  {
    hide Emits, Progress, Step, Note;
    if x.rst {
      ResetConserves(w, x, log);
    } else if w.active {
      if w.round == 10 {
        FinishKeeps(w, x, log);
      } else {
        RoundKeeps(w, x, log);
      }
    } else {
      if !x.valid {
        NoBitKeeps(w, x, log);
      } else if w.count < 127 {
        BitKeeps(w, x, log);
      } else {
        LastBitKeeps(w, x, log);
      }
    }
  }

  /** Reset leaves the power-on state, which announces nothing. */
  lemma ResetIsPowerOn(w: Whitener, x: Input)
    requires Sized(w) && x.rst
    ensures Step(w, x) == PowerOn() && !PowerOn().valid
  {
    hide ZeroBlock;
  }

  lemma ResetConserves(w: Whitener, x: Input, log: Log)
    requires Sized(w) && x.rst
    ensures Conserved(Step(w, x), Note(w, x, log))
  {
    hide AddRoundKey, BlockOfBits, MixedRound, FinalRound, Progress, KeyOf, ZeroEncrypt, ZeroBlock;
  }

  // ---- Whole runs -----------------------------------------------------------------------------

  datatype Watched = Watched(w: Whitener, log: Log)

  function Watch(m: Watched, xs: seq<Input>): (n: Watched)
    requires Conserved(m.w, m.log)
    ensures Conserved(n.w, n.log)
    decreases |xs|
  {
    hide Conserved, Step, Note;
    if xs == [] then m
    else
      var n := Watch(m, xs[..|xs| - 1]);
      var x := xs[|xs| - 1];
      StepConserves(n.w, x, n.log);
      assert Sized(n.w) by { ConservedSized(n.w, n.log); }
      Watched(Step(n.w, x), Note(n.w, x, n.log))
  }

  lemma ConservedSized(w: Whitener, log: Log)
    requires Conserved(w, log)
    ensures Sized(w)
  {
    hide Emits, Progress;
  }

  function Begin(): (m: Watched)
    ensures Conserved(m.w, m.log)
  {
    hide BlockOfBits, Progress, ZeroEncrypt, ZeroBlock;
    Watched(PowerOn(), Log([], []))
  }

  /** Over any run from power-on, resets included: output block k is the zero-key cipher
      of accepted bits 128k to 128k + 127, every accepted bit is in exactly one output,
      in the engine or still being collected, and no block is handed to a busy engine. */
  lemma RunConserves(m: Watched, xs: seq<Input>)
    requires m == Begin()
    ensures var n := Watch(m, xs);
      && |n.log.accepted| == 128 * Blocks(n.w, n.log) + n.w.count
      && n.w.count < 128
      && !(n.w.ready && n.w.active)
      && Emits(n.log)
  {
    hide BlockOfBits, Progress, ZeroEncrypt, ZeroKeys, ZeroBlock, Watch, Begin;
  }

  lemma WatchLast(m: Watched, xs: seq<Input>)
    requires Conserved(m.w, m.log) && xs != []
    ensures var n, x := Watch(m, xs[..|xs| - 1]), xs[|xs| - 1];
      Sized(n.w) && Watch(m, xs) == Watched(Step(n.w, x), Note(n.w, x, n.log))
  {
    hide Conserved, Step, Note;
    var n := Watch(m, xs[..|xs| - 1]);
    ConservedSized(n.w, n.log);
  }

  lemma WatchNone(m: Watched)
    requires Conserved(m.w, m.log)
    ensures Watch(m, []) == m
  {
    hide Conserved;
  }

  lemma ReadyIsIdle(w: Whitener, log: Log)
    requires Conserved(w, log) && w.ready
    ensures !w.active && w.count == 0
  {
    hide Emits, Progress;
  }

  /** A handed-over block keeps the engine busy for ten clocks, the only ones that drop
      bits, and leaves it on the eleventh. */
  lemma {:induction false} EngineBusy(m: Watched, xs: seq<Input>)
    requires Conserved(m.w, m.log) && m.w.ready && 1 <= |xs| <= 11
    requires forall x :: x in xs ==> !x.rst
    ensures var n := Watch(m, xs);
      && n.log.accepted == m.log.accepted + (if xs[0].valid then [xs[0].bit] else [])
      && n.w.active == (|xs| < 11) && !n.w.ready && (n.w.active ==> n.w.round == |xs|)
      && |n.log.emitted| == |m.log.emitted| + (if |xs| < 11 then 0 else 1)
    decreases |xs|
  {
    hide BlockOfBits, ZeroBlock, KeyOf, MixedRound, FinalRound, AddRoundKey, Conserved, Watch, Repeat;
    var init := xs[..|xs| - 1];
    WatchLast(m, xs);
    if init != [] {
      EngineBusy(m, init);
    } else {
      WatchNone(m);
      ReadyIsIdle(m.w, m.log);
    }
  }

  // ---- No entropy is lost ----------------------------------------------------------------------

  lemma ByteBits(b: seq<bool>, c: seq<bool>)
    requires |b| == 8 && |c| == 8 && ByteOfBits(b) == ByteOfBits(c)
    ensures b == c
  {
    ByteTop(b[0], b[1], b[2], b[3], b[4], b[5], b[6], b[7], c[0], c[1], c[2], c[3], c[4], c[5], c[6], c[7]);
  }

  function ByteFrom(b0: bool, b1: bool, b2: bool, b3: bool, b4: bool, b5: bool, b6: bool, b7: bool): bv8 {
    When(b0, 0x80) | When(b1, 0x40) | When(b2, 0x20) | When(b3, 0x10) |
    When(b4, 0x08) | When(b5, 0x04) | When(b6, 0x02) | When(b7, 0x01)
  }

  lemma ByteTop(b0: bool, b1: bool, b2: bool, b3: bool, b4: bool, b5: bool, b6: bool, b7: bool,
                c0: bool, c1: bool, c2: bool, c3: bool, c4: bool, c5: bool, c6: bool, c7: bool)
    requires ByteFrom(b0, b1, b2, b3, b4, b5, b6, b7) == ByteFrom(c0, c1, c2, c3, c4, c5, c6, c7)
    ensures b0 == c0 && b1 == c1 && b2 == c2 && b3 == c3 && b4 == c4 && b5 == c5 && b6 == c6 && b7 == c7
  {
  }

  lemma ColumnBits(b: seq<bool>, c: seq<bool>)
    requires |b| == 32 && |c| == 32 && ColumnOfBits(b) == ColumnOfBits(c)
    ensures b == c
  {
    hide ByteOfBits;
    ByteBits(b[..8], c[..8]);
    ByteBits(b[8..16], c[8..16]);
    ByteBits(b[16..24], c[16..24]);
    ByteBits(b[24..], c[24..]);
    assert b == b[..8] + b[8..16] + b[16..24] + b[24..];
    assert c == c[..8] + c[8..16] + c[16..24] + c[24..];
  }

  lemma BlockBits(b: seq<bool>, c: seq<bool>)
    requires |b| == 128 && |c| == 128 && BlockOfBits(b) == BlockOfBits(c)
    ensures b == c
  {
    hide ColumnOfBits;
    ColumnBits(b[..32], c[..32]);
    ColumnBits(b[32..64], c[32..64]);
    ColumnBits(b[64..96], c[64..96]);
    ColumnBits(b[96..], c[96..]);
    assert b == b[..32] + b[32..64] + b[64..96] + b[96..];
    assert c == c[..32] + c[32..64] + c[64..96] + c[96..];
  }

  /** Two histories with the same outputs took in the same bits for them. */
  lemma OutputsDetermineBits(a: Log, b: Log)
    requires Emits(a) && Emits(b) && a.emitted == b.emitted
    ensures a.accepted[..128 * |a.emitted|] == b.accepted[..128 * |a.emitted|]
  {
    hide BlockOfBits, ZeroEncrypt;
    forall k | 0 <= k < |a.emitted|
      ensures Chunk(a.accepted, k) == Chunk(b.accepted, k)
    {
      ZeroEncryptInjective(BlockOfBits(Chunk(a.accepted, k)), BlockOfBits(Chunk(b.accepted, k)));
      BlockBits(Chunk(a.accepted, k), Chunk(b.accepted, k));
    }
    forall i | 0 <= i < 128 * |a.emitted|
      ensures a.accepted[i] == b.accepted[i]
    {
      var k, j := i / 128, i % 128;
      assert Chunk(a.accepted, k)[j] == a.accepted[i];
      assert Chunk(b.accepted, k)[j] == b.accepted[i];
    }
  }

  lemma ZeroEncryptInjective(x: Block, y: Block)
    requires ZeroEncrypt(x) == ZeroEncrypt(y)
    ensures x == y
  {
    hide Cipher, Schedule, ZeroBlock;
    CipherInjective(ZeroKeys(), x, y);
  }

  // ---- The clocked form --------------------------------------------------------------------------

  class WhitenerUnit {
    var accum: seq<bool>
    var accumCount: nat
    var blockReady: bool
    var aesState: Block
    var aesRound: nat
    var aesActive: bool
    var outValid: bool

    ghost function State(): Whitener
      reads this
    {
      Whitener(accum, accumCount, blockReady, aesState, aesRound, aesActive, outValid)
    }

    constructor ()
      ensures State() == PowerOn()
    {
      hide ZeroBlock;
      accum, accumCount, blockReady := Repeat(128, false), 0, false;
      aesState, aesRound, aesActive, outValid := ZeroBlock(), 0, false, false;
    }

    /** The round engine, which sees the accumulator as it was before the edge. */
    method ClockEngine(x: Input)
      requires Sized(State())
      modifies this`aesState, this`aesRound, this`aesActive, this`outValid
      ensures var v := Step(old(State()), x);
        aesState == v.state && aesRound == v.round && aesActive == v.active && outValid == v.valid
    {
      hide MixedRound, FinalRound, AddRoundKey, BlockOfBits, ZeroBlock, KeyOf, ZeroKeys;
      outValid := false;
      if x.rst {
        aesActive, aesRound, aesState := false, 0, ZeroBlock();
      } else if blockReady {
        aesState := AddRoundKey(BlockOfBits(accum), KeyOf(0));
        aesRound, aesActive := 1, true;
      } else if aesActive {
        if aesRound == 10 {
          aesState := FinalRound(aesState, KeyOf(10));
          aesActive, outValid := false, true;
        } else {
          aesState := MixedRound(aesState, KeyOf(aesRound));
          aesRound := aesRound + 1;
        }
      }
    }

    method ClockAccumulator(x: Input, active: bool)
      requires Sized(State())
      modifies this`accum, this`accumCount, this`blockReady
      ensures var v := Step(old(State()).(active := active, round := 1), x);
        accum == v.bits && accumCount == v.count && blockReady == v.ready
    {
      hide MixedRound, FinalRound, AddRoundKey, BlockOfBits, ZeroBlock, KeyOf, ZeroKeys;
      blockReady := false;
      if x.rst {
        accum, accumCount := Repeat(128, false), 0;
      } else if x.valid && !active {
        accum := accum[1..] + [x.bit];
        if accumCount == 127 {
          accumCount, blockReady := 0, true;
        } else {
          accumCount := accumCount + 1;
        }
      }
    }

    method Clock(x: Input)
      requires Sized(State())
      modifies this
      ensures State() == Step(old(State()), x)
    {
      hide MixedRound, FinalRound, AddRoundKey, BlockOfBits, ZeroBlock, KeyOf, ZeroKeys;
      var active := aesActive;
      ghost var was := State();
      assert was.(active := active) == was;
      ClockEngine(x);
      ClockAccumulator(x, active);
    }
  }
}
