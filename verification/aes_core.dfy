/**
 The pipelined core (`aes128_core.v` and the modules it instantiates): eleven round-key
 registers, ten state registers and a line of valid bits that all move on every edge.
 */
module AesCore {
  import opened Basics
  import opened AesField
  import opened AesCipher

  // ---- Combinational parts ---------------------------------------------------------------

  function RoundOut(s: Block, k: Block): Block {
    AddRoundKey(MapColumns(MixColumnFast, ShiftRows(SubBytes(s))), k)
  }

  lemma RoundOutMeaning(s: Block, k: Block)
    ensures RoundOut(s, k) == Round(s, k)
  {
    hide MixColumn, SubBytes, ShiftRows, AddRoundKey;
  }

  /** One group of four wires of the unrolled schedule. */
  function NextKey(w: Block, rc: bv8): Block {
    var c0 := XorWord(XorWord(w.c0, SubWord(RotWord(w.c3))), Column(rc, 0, 0, 0));
    var c1 := XorWord(w.c1, c0);
    var c2 := XorWord(w.c2, c1);
    Block(c0, c1, c2, XorWord(w.c3, c2))
  }

  /** The unrolled schedule, from the key to the tenth round key. */
  function ExpandKey(key: Block): (ks: RoundKeys) {
    hide NextKey;
    var k1 := NextKey(key, 0x01);
    var k2 := NextKey(k1, 0x02);
    var k3 := NextKey(k2, 0x04);
    var k4 := NextKey(k3, 0x08);
    var k5 := NextKey(k4, 0x10);
    var k6 := NextKey(k5, 0x20);
    var k7 := NextKey(k6, 0x40);
    var k8 := NextKey(k7, 0x80);
    var k9 := NextKey(k8, 0x1b);
    [key, k1, k2, k3, k4, k5, k6, k7, k8, k9, NextKey(k9, 0x36)]
  }

  lemma XorRegroups(a: bv8, b: bv8, c: bv8)
    ensures Add(Add(a, b), c) == Add(a, Add(b, c))
  {
  }

  lemma XorWordRegroups(u: Column, v: Column, w: Column)
    ensures XorWord(XorWord(u, v), w) == XorWord(u, XorWord(v, w))
  {
    hide Add;
    XorRegroups(u.b0, v.b0, w.b0);
    XorRegroups(u.b1, v.b1, w.b1);
    XorRegroups(u.b2, v.b2, w.b2);
    XorRegroups(u.b3, v.b3, w.b3);
  }

  lemma NextKeyMeaning(key: Block, r: nat)
    requires 1 <= r
    ensures NextKey(RoundKey(key, r - 1), XtimePow(r - 1)) == RoundKey(key, r)
  {
    hide XorWord, SubWord, RotWord, XtimePow;
    var i := 4 * r;
    var t := ScheduleWord(key, i - 1);
    XorWordRegroups(ScheduleWord(key, i - 4), SubWord(RotWord(t)), Rcon(r));
    assert i % 4 == 0 && i / 4 == r;
  }

  lemma ExpandKeyMeaning(key: Block)
    ensures ExpandKey(key) == Schedule(key)
  {
    hide NextKey, ScheduleWord, XtimePow;
    XtimePowers();
    ScheduleStart(key);
    NextKeyMeaning(key, 1);
    NextKeyMeaning(key, 2);
    NextKeyMeaning(key, 3);
    NextKeyMeaning(key, 4);
    NextKeyMeaning(key, 5);
    NextKeyMeaning(key, 6);
    NextKeyMeaning(key, 7);
    NextKeyMeaning(key, 8);
    NextKeyMeaning(key, 9);
    NextKeyMeaning(key, 10);
  }

  lemma ScheduleStart(key: Block)
    ensures RoundKey(key, 0) == key
  {
  }

  // ---- The registers -------------------------------------------------------------------

  /** `valid` is the shift register followed by `valid_o`: twelve bits, youngest first. */
  datatype Pipe = Pipe(rk: RoundKeys, stage: seq<Block>, valid: seq<bool>, cipherO: Block) {
    predicate Shaped() {
      |stage| == 10 && |valid| == 12
    }

    predicate ValidO()
      requires Shaped()
    {
      valid[11]
    }
  }

  datatype Inputs = Inputs(reset: bool, loadKey: bool, key: Block, valid: bool, plaintext: Block)

  function Edge(p: Pipe, x: Inputs): (q: Pipe)
    requires p.Shaped()
    ensures q.Shaped()
  {
    hide RoundOut, AddRoundKey, FinalRound, ExpandKey, ZeroBlock;
    var rk := if x.loadKey then ExpandKey(x.key) else p.rk;
    if x.reset then Pipe(rk, p.stage, Repeat(12, false), ZeroBlock())
    else
      var s := p.stage;
      var stage := [AddRoundKey(x.plaintext, p.rk[0]),
        RoundOut(s[0], p.rk[1]), RoundOut(s[1], p.rk[2]), RoundOut(s[2], p.rk[3]),
        RoundOut(s[3], p.rk[4]), RoundOut(s[4], p.rk[5]), RoundOut(s[5], p.rk[6]),
        RoundOut(s[6], p.rk[7]), RoundOut(s[7], p.rk[8]), RoundOut(s[8], p.rk[9])];
      Pipe(rk, stage, [x.valid] + p.valid[..11], FinalRound(s[9], p.rk[10]))
  }

  function Run(p: Pipe, xs: seq<Inputs>): (q: Pipe)
    requires p.Shaped()
    ensures q.Shaped()
    decreases |xs|
  {
    if xs == [] then p else Edge(Run(p, xs[..|xs| - 1]), xs[|xs| - 1])
  }

  predicate Steady(xs: seq<Inputs>) {
    forall x :: x in xs ==> !x.reset && !x.loadKey
  }

  /** Stage i holds round i of the plaintext offered i + 1 edges ago, and the last
      register the ciphertext of the one offered eleven edges ago. */
  ghost predicate StagesHold(ks: RoundKeys, xs: seq<Inputs>, q: Pipe) {
    && q.Shaped() && q.rk == ks
    && (forall i :: 0 <= i < 10 && i < |xs| ==> q.stage[i] == AfterRounds(ks, xs[|xs| - 1 - i].plaintext, i))
    && (|xs| >= 11 ==> q.cipherO == Cipher(ks, xs[|xs| - 11].plaintext))
  }

  lemma EdgeStages(p: Pipe, x: Inputs, i: nat)
    requires p.Shaped() && !x.reset && !x.loadKey && i < 10
    ensures Edge(p, x).stage[i]
         == if i == 0 then AddRoundKey(x.plaintext, p.rk[0]) else Round(p.stage[i - 1], p.rk[i])
  {
    hide AddRoundKey, Round, RoundOut, FinalRound, ExpandKey;
    if i > 0 {
      RoundOutMeaning(p.stage[i - 1], p.rk[i]);
    }
  }

  lemma EdgeControl(p: Pipe, x: Inputs)
    requires p.Shaped() && !x.reset
    ensures Edge(p, x).valid == [x.valid] + p.valid[..11]
    ensures Edge(p, x).rk == if x.loadKey then Schedule(x.key) else p.rk
    ensures Edge(p, x).cipherO == FinalRound(p.stage[9], p.rk[10])
  {
    hide AddRoundKey, RoundOut, FinalRound, ExpandKey, Schedule;
    ExpandKeyMeaning(x.key);
  }

  lemma {:induction false} StagesKept(p: Pipe, xs: seq<Inputs>)
    requires p.Shaped() && Steady(xs)
    ensures StagesHold(p.rk, xs, Run(p, xs))
    decreases |xs|
  {
    hide AddRoundKey, Round, FinalRound, Schedule, Edge;
    if xs != [] {
      var init, x := xs[..|xs| - 1], xs[|xs| - 1];
      var m := Run(p, init);
      StagesKept(p, init);
      EdgeControl(m, x);
      forall i | 0 <= i < 10 && i < |xs|
        ensures Run(p, xs).stage[i] == AfterRounds(p.rk, xs[|xs| - 1 - i].plaintext, i)
      {
        EdgeStages(m, x, i);
      }
    }
  }

  /** The valid bits are a delay line. */
  lemma {:induction false} ValidLine(p: Pipe, xs: seq<Inputs>, i: nat)
    requires p.Shaped() && Steady(xs) && i < 12
    ensures Run(p, xs).valid[i] == if i < |xs| then xs[|xs| - 1 - i].valid else p.valid[i - |xs|]
    decreases |xs|
  {
    hide Edge, FinalRound, Schedule;
    if xs != [] {
      var init := xs[..|xs| - 1];
      EdgeControl(Run(p, init), xs[|xs| - 1]);
      if i > 0 {
        ValidLine(p, init, i - 1);
      }
    }
  }

  /** `valid_o` lags its ciphertext by one edge: what it announces is the ciphertext of
      the block it was raised for exactly when the plaintext input was held for one
      more edge. Back-to-back blocks are therefore paired with their successors. */
  lemma ValidMatchesCiphertext(p: Pipe, xs: seq<Inputs>)
    requires p.Shaped() && Steady(xs) && |xs| >= 12
    ensures Run(p, xs).ValidO() == xs[|xs| - 12].valid
    ensures Run(p, xs).cipherO == Cipher(p.rk, xs[|xs| - 12].plaintext)
       <==> xs[|xs| - 11].plaintext == xs[|xs| - 12].plaintext
  {
    hide Run, Cipher;
    ValidLine(p, xs, 11);
    StagesKept(p, xs);
    CipherInjective(p.rk, xs[|xs| - 12].plaintext, xs[|xs| - 11].plaintext);
  }

  // ---- The clocked form ------------------------------------------------------------------

  class Aes128Core {
    const rk: array<Block>
    const pipeState: array<Block>
    const pipeValid: array<bool>
    var validO: bool
    var ciphertextO: Block

    ghost predicate Valid()
      reads this, rk, pipeState, pipeValid
    {
      && rk.Length == 11 && pipeState.Length == 10 && pipeValid.Length == 11
      && rk != pipeState
    }

    ghost function State(): (p: Pipe)
      requires Valid()
      reads this, rk, pipeState, pipeValid
      ensures p.Shaped()
    {
      Pipe(rk[..], pipeState[..], pipeValid[..] + [validO], ciphertextO)
    }

    constructor ()
      ensures Valid() && fresh(rk) && fresh(pipeState) && fresh(pipeValid)
    {
      rk := new Block[11];
      pipeState := new Block[10];
      pipeValid := new bool[11];
      validO, ciphertextO := false, ZeroBlock();
    }

    /** Every stage takes what its predecessor held, the oldest first. */
    method Advance(plaintext: Block)
      requires Valid()
      modifies pipeState
      ensures Valid() && rk[..] == old(rk[..])
      ensures pipeState[0] == AddRoundKey(plaintext, rk[0])
      ensures forall i :: 1 <= i < 10 ==> pipeState[i] == RoundOut(old(pipeState[i - 1]), rk[i])
    {
      hide AddRoundKey, RoundOut;
      var i := 9;
      while i > 0
        invariant 0 <= i <= 9
        invariant rk[..] == old(rk[..])
        invariant forall j :: 0 <= j <= i ==> pipeState[j] == old(pipeState[j])
        invariant forall j :: i < j < 10 ==> pipeState[j] == RoundOut(old(pipeState[j - 1]), rk[j])
      {
        pipeState[i] := RoundOut(pipeState[i - 1], rk[i]);
        i := i - 1;
      }
      pipeState[0] := AddRoundKey(plaintext, rk[0]);
    }

    method ShiftValid(valid: bool)
      requires Valid()
      modifies this`validO, pipeValid
      ensures Valid()
      ensures pipeValid[..] + [validO] == [valid] + old(pipeValid[..])
    {
      ghost var was := pipeValid[..];
      validO := pipeValid[10];
      var i := 10;
      while i > 0
        invariant 0 <= i <= 10
        invariant validO == was[10]
        invariant forall j :: 0 <= j <= i ==> pipeValid[j] == was[j]
        invariant forall j :: i < j < 11 ==> pipeValid[j] == was[j - 1]
      {
        pipeValid[i] := pipeValid[i - 1];
        i := i - 1;
      }
      pipeValid[0] := valid;
      assert pipeValid[..] == [valid] + was[..10];
    }

    method ClearValid()
      requires Valid()
      modifies this`validO, this`ciphertextO, pipeValid
      ensures Valid() && ciphertextO == ZeroBlock()
      ensures pipeValid[..] + [validO] == Repeat(12, false)
    {
      for i := 0 to 11
        invariant forall j :: 0 <= j < i ==> !pipeValid[j]
      {
        pipeValid[i] := false;
      }
      validO, ciphertextO := false, ZeroBlock();
    }

    method LoadKey(key: Block)
      requires Valid()
      modifies rk
      ensures Valid() && rk[..] == ExpandKey(key)
    {
      hide ExpandKey;
      var expanded := ExpandKey(key);
      for k := 0 to 11
        invariant forall j :: 0 <= j < k ==> rk[j] == expanded[j]
      {
        rk[k] := expanded[k];
      }
    }

    /** The asynchronous reset, at any time: valid bits and outputs, not keys or stages. */
    method AssertReset()
      requires Valid()
      modifies this`validO, this`ciphertextO, pipeValid
      ensures Valid() && State() == old(State()).(valid := Repeat(12, false), cipherO := ZeroBlock())
    {
      hide ZeroBlock;
      ClearValid();
    }

    /** One rising edge; both clocked blocks see the registers from before it. */
    method Clock(x: Inputs)
      requires Valid()
      modifies this`validO, this`ciphertextO, rk, pipeState, pipeValid
      ensures Valid() && State() == Edge(old(State()), x)
    {
      hide AddRoundKey, RoundOut, FinalRound, ExpandKey, ZeroBlock;
      if x.reset {
        ClearValid();
      } else {
        ciphertextO := FinalRound(pipeState[9], rk[10]);
        Advance(x.plaintext);
        ShiftValid(x.valid);
      }
      if x.loadKey {
        LoadKey(x.key);
      }
    }
  }
}
