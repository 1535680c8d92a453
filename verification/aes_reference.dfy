/**
 The software reference (`aes_benchmark.py`): loops over byte lists and packed 32-bit
 words, proved equal to FIPS 197 encryption for every key and block.
 */
module AesReference {
  import opened Basics
  import opened AesField
  import opened AesCipher

  // ---- Byte lists and packed words --------------------------------------------------

  function ColumnOf(s: seq<bv8>, c: nat): Column
    requires 4 * c + 4 <= |s|
  {
    Column(s[4 * c], s[4 * c + 1], s[4 * c + 2], s[4 * c + 3])
  }

  function BlockOf(s: seq<bv8>): Block
    requires |s| == 16
  {
    Block(ColumnOf(s, 0), ColumnOf(s, 1), ColumnOf(s, 2), ColumnOf(s, 3))
  }

  /** Big-endian packing. */
  function Pack(b0: bv8, b1: bv8, b2: bv8, b3: bv8): bv32 {
    ((b0 as bv32) << 24) | ((b1 as bv32) << 16) | ((b2 as bv32) << 8) | (b3 as bv32)
  }

  /** Byte `j` of a word, the most significant first. */
  function ByteAt(w: bv32, j: nat): bv8
    requires j < 4
  {
    if j == 0 then ((w >> 24) & 0xff) as bv8
    else if j == 1 then ((w >> 16) & 0xff) as bv8
    else if j == 2 then ((w >> 8) & 0xff) as bv8
    else (w & 0xff) as bv8
  }

  function Unpack(w: bv32): Column {
    Column(ByteAt(w, 0), ByteAt(w, 1), ByteAt(w, 2), ByteAt(w, 3))
  }

  lemma UnpackPack(b0: bv8, b1: bv8, b2: bv8, b3: bv8)
    ensures Unpack(Pack(b0, b1, b2, b3)) == Column(b0, b1, b2, b3)
  {
  }

  function Xor32(u: bv32, v: bv32): bv32 {
    u ^ v
  }

  lemma ByteXor0(u: bv32, v: bv32)
    ensures ByteAt(Xor32(u, v), 0) == Add(ByteAt(u, 0), ByteAt(v, 0))
  {
  }

  lemma ByteXor1(u: bv32, v: bv32)
    ensures ByteAt(Xor32(u, v), 1) == Add(ByteAt(u, 1), ByteAt(v, 1))
  {
  }

  lemma ByteXor2(u: bv32, v: bv32)
    ensures ByteAt(Xor32(u, v), 2) == Add(ByteAt(u, 2), ByteAt(v, 2))
  {
  }

  lemma ByteXor3(u: bv32, v: bv32)
    ensures ByteAt(Xor32(u, v), 3) == Add(ByteAt(u, 3), ByteAt(v, 3))
  {
  }

  lemma UnpackXor(u: bv32, v: bv32)
    ensures Unpack(Xor32(u, v)) == XorWord(Unpack(u), Unpack(v))
  {
    hide ByteAt, Xor32, Add;
    ByteXor0(u, v);
    ByteXor1(u, v);
    ByteXor2(u, v);
    ByteXor3(u, v);
  }

  function UnpackAll(ws: seq<bv32>): Block
    requires |ws| == 4
  {
    Block(Unpack(ws[0]), Unpack(ws[1]), Unpack(ws[2]), Unpack(ws[3]))
  }

  // ---- Key expansion ------------------------------------------------------------------

  const RCON: seq<bv8> := [0x00, 0x01, 0x02, 0x04, 0x08, 0x10, 0x20, 0x40, 0x80, 0x1b, 0x36]

  lemma RconTable(i: nat)
    requires 1 <= i <= 10
    ensures |RCON| == 11 && RCON[i] == XtimePow(i - 1)
  {
    XtimePowers();
  }

  /** Rotation and substitution in one expression over shifted bytes. */
  function SubRot(t: bv32): bv32 {
    Pack(SBox(ByteAt(t, 1)), SBox(ByteAt(t, 2)), SBox(ByteAt(t, 3)), SBox(ByteAt(t, 0)))
  }

  lemma SubRotMeaning(t: bv32)
    ensures Unpack(SubRot(t)) == SubWord(RotWord(Unpack(t)))
  {
    hide SBox, Pack, ByteAt;
    UnpackPack(SBox(ByteAt(t, 1)), SBox(ByteAt(t, 2)), SBox(ByteAt(t, 3)), SBox(ByteAt(t, 0)));
  }

  lemma UnpackRcon(i: nat)
    requires 1 <= i <= 10
    ensures |RCON| == 11 && Unpack((RCON[i] as bv32) << 24) == Rcon(i)
  {
    hide XtimePow;
    RconTable(i);
    var r := RCON[i];
    assert Unpack((r as bv32) << 24) == Column(r, 0, 0, 0);
  }

  /** What the loop makes of the previous word at every fourth index. */
  function Turned(t: bv32, r: nat): bv32
    requires 1 <= r <= 10
  {
    var rcon := if |RCON| == 11 then RCON[r] else 0;
    Xor32(SubRot(t), (rcon as bv32) << 24)
  }

  lemma TurnedMeaning(t: bv32, r: nat)
    requires 1 <= r <= 10
    ensures Unpack(Turned(t, r)) == XorWord(SubWord(RotWord(Unpack(t))), Rcon(r))
  {
    hide SubRot, Unpack, SubWord, RotWord, Rcon, XorWord;
    SubRotMeaning(t);
    UnpackRcon(r);
    UnpackXor(SubRot(t), (RCON[r] as bv32) << 24);
  }

  /** One pass of the loop, given the meaning of the word it adds. */
  lemma ScheduleStep(key: Block, i: nat, u: bv32, t: bv32)
    requires 4 <= i < 44
    requires Unpack(u) == ScheduleWord(key, i - 4) && Unpack(t) == ScheduleWord(key, i - 1)
    ensures i % 4 == 0 ==> Unpack(Xor32(u, Turned(t, i / 4))) == ScheduleWord(key, i)
    ensures i % 4 != 0 ==> Unpack(Xor32(u, t)) == ScheduleWord(key, i)
  {
    hide Turned, Unpack, SubWord, RotWord, Rcon, XorWord, Xor32;
    if i % 4 == 0 {
      TurnedMeaning(t, i / 4);
      UnpackXor(u, Turned(t, i / 4));
    } else {
      UnpackXor(u, t);
    }
  }

  lemma FirstWords(key: seq<bv8>, c: nat)
    requires |key| == 16 && c < 4
    ensures Unpack(Pack(key[4 * c], key[4 * c + 1], key[4 * c + 2], key[4 * c + 3]))
         == ScheduleWord(BlockOf(key), c)
  {
    hide Pack, Unpack;
    UnpackPack(key[4 * c], key[4 * c + 1], key[4 * c + 2], key[4 * c + 3]);
  }

  lemma Grouped(key: Block, w: seq<bv32>, r: nat)
    requires |w| == 44 && r < 11
    requires forall j :: 0 <= j < 44 ==> Unpack(w[j]) == ScheduleWord(key, j)
    ensures UnpackAll(w[4 * r..4 * r + 4]) == RoundKey(key, r)
  {
    hide Unpack, ScheduleWord;
  }

  method KeyExpand(key: seq<bv8>) returns (rks: seq<seq<bv32>>)
    requires |key| == 16
    ensures |rks| == 11
    ensures forall r :: 0 <= r < 11 ==> |rks[r]| == 4 && UnpackAll(rks[r]) == RoundKey(BlockOf(key), r)
  {
    hide Turned, Unpack, Xor32, ScheduleWord, Pack, UnpackAll, RoundKey;
    var w := [Pack(key[0], key[1], key[2], key[3]), Pack(key[4], key[5], key[6], key[7]),
              Pack(key[8], key[9], key[10], key[11]), Pack(key[12], key[13], key[14], key[15])];
    FirstWords(key, 0);
    FirstWords(key, 1);
    FirstWords(key, 2);
    FirstWords(key, 3);
    for i := 4 to 44
      invariant |w| == i
      invariant forall j :: 0 <= j < i ==> Unpack(w[j]) == ScheduleWord(BlockOf(key), j)
    {
      var t := w[i - 1];
      ScheduleStep(BlockOf(key), i, w[i - 4], t);
      if i % 4 == 0 {
        t := Turned(t, i / 4);
      }
      w := w + [Xor32(w[i - 4], t)];
    }
    rks := seq(11, r requires 0 <= r < 11 && |w| == 44 => w[4 * r..4 * r + 4]);
    forall r | 0 <= r < 11
      ensures UnpackAll(rks[r]) == RoundKey(BlockOf(key), r)
    {
      Grouped(BlockOf(key), w, r);
    }
  }

  // ---- One round ------------------------------------------------------------------------

  function PyAddRoundKey(state: seq<bv8>, rk: seq<bv32>): (t: seq<bv8>)
    requires |state| == 16 && |rk| == 4
    ensures |t| == 16 && forall i :: 0 <= i < 16 ==> t[i] == Add(state[i], ByteAt(rk[i / 4], i % 4))
  {
    hide ByteAt, Add;
    seq(16, i requires 0 <= i < 16 && |state| == 16 && |rk| == 4 => Add(state[i], ByteAt(rk[i / 4], i % 4)))
  }

  lemma AddRoundKeyColumn(state: seq<bv8>, rk: seq<bv32>, c: nat)
    requires |state| == 16 && |rk| == 4 && c < 4
    ensures ColumnOf(PyAddRoundKey(state, rk), c) == XorWord(ColumnOf(state, c), Unpack(rk[c]))
  {
    hide ByteAt, Add, PyAddRoundKey;
    AddRoundKeyByte(state, rk, c, 0);
    AddRoundKeyByte(state, rk, c, 1);
    AddRoundKeyByte(state, rk, c, 2);
    AddRoundKeyByte(state, rk, c, 3);
  }

  lemma AddRoundKeyByte(state: seq<bv8>, rk: seq<bv32>, c: nat, k: nat)
    requires |state| == 16 && |rk| == 4 && c < 4 && k < 4
    ensures PyAddRoundKey(state, rk)[4 * c + k] == Add(state[4 * c + k], ByteAt(rk[c], k))
  {
    hide ByteAt, Add;
    assert (4 * c + k) / 4 == c && (4 * c + k) % 4 == k;
  }

  lemma PyAddRoundKeyMeaning(state: seq<bv8>, rk: seq<bv32>)
    requires |state| == 16 && |rk| == 4
    ensures BlockOf(PyAddRoundKey(state, rk)) == AddRoundKey(BlockOf(state), UnpackAll(rk))
  {
    hide ColumnOf, Unpack, XorWord, PyAddRoundKey;
    AddRoundKeyColumn(state, rk, 0);
    AddRoundKeyColumn(state, rk, 1);
    AddRoundKeyColumn(state, rk, 2);
    AddRoundKeyColumn(state, rk, 3);
  }

  function PySubBytes(state: seq<bv8>): (t: seq<bv8>)
    requires |state| == 16
    ensures |t| == 16
    ensures BlockOf(t) == SubBytes(BlockOf(state))
  {
    hide SBox;
    seq(16, i requires 0 <= i < 16 && |state| == 16 => SBox(state[i]))
  }

  method PyShiftRows(state: seq<bv8>) returns (s: seq<bv8>)
    requires |state| == 16
    ensures |s| == 16
    ensures BlockOf(s) == ShiftRows(BlockOf(state))
  {
    s := state;
    s := s[1 := state[5]][5 := state[9]][9 := state[13]][13 := state[1]];
    s := s[2 := state[10]][6 := state[14]][10 := state[2]][14 := state[6]];
    s := s[3 := state[15]][7 := state[3]][11 := state[7]][15 := state[11]];
  }

  method PyMixColumns(state: seq<bv8>) returns (out: seq<bv8>)
    requires |state| == 16
    ensures |out| == 16
    ensures BlockOf(out) == MixColumns(BlockOf(state))
  {
    hide MixStep, Total, MixColumn;
    out := Repeat(16, 0);
    for c := 0 to 4
      invariant |out| == 16
      invariant forall d :: 0 <= d < c ==> ColumnOf(out, d) == MixColumn(ColumnOf(state, d))
    {
      var b := state[4 * c..4 * c + 4];
      var t := Total(b[0], b[1], b[2], b[3]);
      out := out[4 * c := MixStep(b[0], b[1], t)];
      out := out[4 * c + 1 := MixStep(b[1], b[2], t)];
      out := out[4 * c + 2 := MixStep(b[2], b[3], t)];
      out := out[4 * c + 3 := MixStep(b[3], b[0], t)];
      assert ColumnOf(out, c) == MixColumnFast(ColumnOf(state, c));
    }
  }

  /** The whole reference; its final reordering of the bytes leaves each in place. */
  method Aes128Encrypt(plaintext: seq<bv8>, key: seq<bv8>) returns (rm: seq<bv8>)
    requires |plaintext| == 16 && |key| == 16
    ensures |rm| == 16
    ensures BlockOf(rm) == Encrypt(BlockOf(key), BlockOf(plaintext))
  {
    hide RoundKey, AddRoundKey, SubBytes, ShiftRows, MixColumns, UnpackAll, PyAddRoundKey, PySubBytes, BlockOf;
    var cm := plaintext;
    var roundKeys := KeyExpand(key);
    ghost var ks := Schedule(BlockOf(key));
    PyAddRoundKeyMeaning(cm, roundKeys[0]);
    cm := PyAddRoundKey(cm, roundKeys[0]);
    for rnd := 1 to 10
      invariant |cm| == 16
      invariant BlockOf(cm) == AfterRounds(ks, BlockOf(plaintext), rnd - 1)
    {
      cm := PySubBytes(cm);
      cm := PyShiftRows(cm);
      cm := PyMixColumns(cm);
      PyAddRoundKeyMeaning(cm, roundKeys[rnd]);
      cm := PyAddRoundKey(cm, roundKeys[rnd]);
    }
    cm := PySubBytes(cm);
    cm := PyShiftRows(cm);
    PyAddRoundKeyMeaning(cm, roundKeys[10]);
    cm := PyAddRoundKey(cm, roundKeys[10]);
    rm := [];
    for r := 0 to 4
      invariant rm == cm[..4 * r]
    {
      for c := 0 to 4
        invariant rm == cm[..4 * r + c]
      {
        rm := rm + [cm[r * 4 + c]];
      }
    }
    assert rm == cm;
  }
}
