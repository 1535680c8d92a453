/**
 The bus registers around the core (`aes_regs.sv`): what a program may conclude from
 polling STATUS, and exactly which data word the ciphertext it then reads belongs to.
 */
module AesRegs {
  import opened AesCipher
  import opened AesCore
  import opened AesReference

  datatype Bus = Bus(sel: bool, addr: bv8, wdata: bv32, we: bool) {
    predicate Writes() {
      sel && we
    }

    predicate WritesKey() {
      Writes() && (addr == 0x00 || addr == 0x04 || addr == 0x08 || addr == 0x0c)
    }

    predicate WritesData() {
      Writes() && (addr == 0x10 || addr == 0x14 || addr == 0x18 || addr == 0x1c)
    }

    predicate Starts() {
      Writes() && addr == 0x20 && wdata & 1 == 1
    }
  }

  datatype Regs = Regs(key: Block, data: Block, cipher: Block,
                       start: bool, loadKey: bool, busy: bool, done: bool,
                       rdata: bv32, core: Pipe)

  /** Bits 31:0 of a 128-bit register are its last column. */
  function WithWord(b: Block, offset: bv8, w: bv32): Block {
    var c := Unpack(w);
    if offset == 0 then b.(c3 := c)
    else if offset == 4 then b.(c2 := c)
    else if offset == 8 then b.(c1 := c)
    else b.(c0 := c)
  }

  function PackColumn(c: Column): bv32 {
    Pack(c.b0, c.b1, c.b2, c.b3)
  }

  function ReadData(busy: bool, done: bool, cipher: Block, addr: bv8): bv32 {
    if addr == 0x20 then (if busy then 1 else 0)
    else if addr == 0x24 then (if done then 1 else 0)
    else if addr == 0x30 then PackColumn(cipher.c3)
    else if addr == 0x34 then PackColumn(cipher.c2)
    else if addr == 0x38 then PackColumn(cipher.c1)
    else if addr == 0x3c then PackColumn(cipher.c0)
    else 0
  }

  function CoreInputs(s: Regs, rst: bool): Inputs {
    Inputs(rst, s.loadKey, s.key, s.start, s.data)
  }

  function KeyAfter(key: Block, b: Bus): Block {
    if b.WritesKey() then WithWord(key, b.addr, b.wdata) else key
  }

  function DataAfter(data: Block, b: Bus): Block {
    if b.WritesData() then WithWord(data, b.addr - 0x10, b.wdata) else data
  }

  /** The registers of the block itself; the core's are left as they are. */
  function NextOwn(s: Regs, rst: bool, b: Bus): Regs
    requires s.core.Shaped()
  {
    if rst then Regs(ZeroBlock(), ZeroBlock(), ZeroBlock(), false, false, false, false, 0, s.core)
    else
      var finished := s.core.ValidO();
      Regs(
        KeyAfter(s.key, b),
        DataAfter(s.data, b),
        if finished then s.core.cipherO else s.cipher,
        b.Starts(),
        b.WritesKey(),
        if finished then false else if b.Starts() then true else s.busy,
        if finished then true else if b.Starts() then false else s.done,
        ReadData(s.busy, s.done, s.cipher, b.addr),
        s.core)
  }

  function ClockRegs(s: Regs, rst: bool, b: Bus): (t: Regs)
    requires s.core.Shaped()
    ensures t.core.Shaped()
  {
    hide Edge, NextOwn;
    NextOwn(s, rst, b).(core := Edge(s.core, CoreInputs(s, rst)))
  }

  function RunBus(s: Regs, bs: seq<Bus>): (t: Regs)
    requires s.core.Shaped()
    ensures t.core.Shaped()
    decreases |bs|
  {
    if bs == [] then s else ClockRegs(RunBus(s, bs[..|bs| - 1]), false, bs[|bs| - 1])
  }

  // ---- The key registers --------------------------------------------------------------

  /** The core holds the schedule of the KEY registers, or takes it on the next edge. */
  predicate KeyReady(s: Regs) {
    s.loadKey || s.core.rk == Schedule(s.key)
  }

  lemma KeyReadyKept(s: Regs, b: Bus)
    requires s.core.Shaped()
    ensures b.WritesKey() || KeyReady(s) ==> KeyReady(ClockRegs(s, false, b))
  {
    hide Schedule, Edge, WithWord, ReadData;
    EdgeControl(s.core, CoreInputs(s, false));
  }

  /** The word at the lowest offset is the last column. */
  function BlockOfWords(ws: seq<bv32>): Block
    requires |ws| == 4
  {
    Block(Unpack(ws[3]), Unpack(ws[2]), Unpack(ws[1]), Unpack(ws[0]))
  }

  lemma PackUnpack(w: bv32)
    ensures PackColumn(Unpack(w)) == w
  {
  }

  lemma WordsReadBack(ws: seq<bv32>, j: nat)
    requires |ws| == 4 && j < 4
    ensures LowWord(BlockOfWords(ws), j) == ws[j]
  {
    hide PackColumn, Unpack;
    PackUnpack(ws[j]);
  }

  /** Four consecutive writes starting at `base`. */
  function FourWrites(base: bv8, ws: seq<bv32>): (bs: seq<Bus>)
    requires |ws| == 4
    ensures |bs| == 4
  {
    [Bus(true, base, ws[0], true), Bus(true, base + 4, ws[1], true),
     Bus(true, base + 8, ws[2], true), Bus(true, base + 12, ws[3], true)]
  }

  lemma WriteLands(s: Regs, b: Bus)
    requires s.core.Shaped()
    ensures ClockRegs(s, false, b).key == KeyAfter(s.key, b)
    ensures ClockRegs(s, false, b).data == DataAfter(s.data, b)
    ensures ClockRegs(s, false, b).loadKey == b.WritesKey()
  {
    hide Edge, KeyAfter, DataAfter, ReadData;
  }

  lemma FourLand(s: Regs, bs: seq<Bus>)
    requires s.core.Shaped() && |bs| == 4
    ensures var t := RunBus(s, bs);
      && t.key == KeyAfter(KeyAfter(KeyAfter(KeyAfter(s.key, bs[0]), bs[1]), bs[2]), bs[3])
      && t.data == DataAfter(DataAfter(DataAfter(DataAfter(s.data, bs[0]), bs[1]), bs[2]), bs[3])
      && t.loadKey == bs[3].WritesKey()
  {
    hide ClockRegs, KeyAfter, DataAfter, Bus.WritesKey;
    var one, two, three := bs[..1], bs[..2], bs[..3];
    assert one[..0] == [] && two[..1] == one && three[..2] == two;
    WriteLands(s, bs[0]);
    assert RunBus(s, one) == ClockRegs(s, false, bs[0]);
    WriteLands(RunBus(s, one), bs[1]);
    assert RunBus(s, two) == ClockRegs(RunBus(s, one), false, bs[1]);
    WriteLands(RunBus(s, two), bs[2]);
    assert RunBus(s, three) == ClockRegs(RunBus(s, two), false, bs[2]);
    WriteLands(RunBus(s, three), bs[3]);
  }

  lemma DataWords(d: Block, ws: seq<bv32>)
    requires |ws| == 4
    ensures var bs := FourWrites(0x10, ws);
      DataAfter(DataAfter(DataAfter(DataAfter(d, bs[0]), bs[1]), bs[2]), bs[3]) == BlockOfWords(ws)
  {
    hide Unpack;
  }

  lemma KeyWords(d: Block, ws: seq<bv32>)
    requires |ws| == 4
    ensures var bs := FourWrites(0x00, ws);
      KeyAfter(KeyAfter(KeyAfter(KeyAfter(d, bs[0]), bs[1]), bs[2]), bs[3]) == BlockOfWords(ws)
      && bs[3].WritesKey()
  {
    hide Unpack;
  }

  /** Four DATA writes make the block of their words, whatever was there; four KEY
      writes also leave the core with, or about to take, the schedule of that key. */
  lemma WordsLoaded(s: Regs, ws: seq<bv32>)
    requires s.core.Shaped() && |ws| == 4
    ensures RunBus(s, FourWrites(0x10, ws)).data == BlockOfWords(ws)
    ensures RunBus(s, FourWrites(0x00, ws)).key == BlockOfWords(ws)
    ensures KeyReady(RunBus(s, FourWrites(0x00, ws)))
  {
    hide RunBus, KeyAfter, DataAfter, BlockOfWords, Bus.WritesKey, FourWrites, Schedule;
    FourLand(s, FourWrites(0x10, ws));
    FourLand(s, FourWrites(0x00, ws));
    DataWords(s.data, ws);
    KeyWords(s.key, ws);
  }

  // ---- Start, poll, read ---------------------------------------------------------------

  predicate Idle(s: Regs) {
    s.core.Shaped() && !s.start && forall i :: 0 <= i < 12 ==> !s.core.valid[i]
  }

  /** A reset clock leaves the block idle. */
  lemma ResetIdle(s: Regs, b: Bus)
    requires s.core.Shaped()
    ensures Idle(ClockRegs(s, true, b))
  {
    hide ExpandKey, ZeroBlock;
  }

  /** Reset clears everything a program can see, and loads no key. */
  lemma ResetClears(s: Regs, b: Bus)
    requires s.core.Shaped()
    ensures var t := ClockRegs(s, true, b);
      && t.key == t.data == t.cipher == ZeroBlock()
      && !t.loadKey && !t.start && !t.busy && !t.done && t.rdata == 0
  {
    hide Edge, ZeroBlock;
  }

  /** Only a selected write of an odd word to 0x20 starts the core, and only selected writes
      to 0, 4, 8 and 12 load the key. */
  lemma StrobesExactly(s: Regs, b: Bus)
    requires s.core.Shaped()
    ensures var t := ClockRegs(s, false, b);
      && (t.start <==> b.sel && b.we && b.addr == 0x20 && b.wdata & 1 == 1)
      && (t.loadKey <==> b.sel && b.we && (b.addr == 0 || b.addr == 4 || b.addr == 8 || b.addr == 12))
  {
    hide Edge, KeyAfter, DataAfter, ReadData;
  }

  function WordAddr(base: bv8, j: nat): bv8
    requires j < 4
  {
    base + if j == 0 then 0 else if j == 1 then 4 else if j == 2 then 8 else 12
  }

  lemma WordsAt(b: Block, w: bv32, j: nat)
    requires j < 4
    ensures LowWord(WithWord(b, WordAddr(0x00, j), w), j) == w
  {
    hide PackColumn, Unpack;
    PackUnpack(w);
  }

  lemma DataAddr(j: nat)
    requires j < 4
    ensures WordAddr(0x10, j) - 0x10 == WordAddr(0x00, j)
  {
  }

  /** A selected write reaches word j of KEY at 4j and of DATA at 0x10 + 4j; without it both
      stay. */
  lemma WritesExactly(s: Regs, b: Bus, j: nat)
    requires s.core.Shaped() && j < 4
    ensures var t := ClockRegs(s, false, b);
      && (b.sel && b.we && b.addr == WordAddr(0x00, j) ==> LowWord(t.key, j) == b.wdata && t.data == s.data)
      && (b.sel && b.we && b.addr == WordAddr(0x10, j) ==> LowWord(t.data, j) == b.wdata && t.key == s.key)
      && (!(b.sel && b.we) ==> t.key == s.key && t.data == s.data)
  {
    hide ClockRegs, LowWord, WithWord;
    WriteLands(s, b);
    WordsAt(s.key, b.wdata, j);
    WordsAt(s.data, b.wdata, j);
    DataAddr(j);
  }

  /** A read of 0x20 is the busy flag and of 0x24 the done flag. */
  lemma StatusReads(s: Regs, b: Bus)
    requires s.core.Shaped()
    ensures var r := ClockRegs(s, false, b).rdata;
      && (b.addr == 0x20 ==> r == if s.busy then 1 else 0)
      && (b.addr == 0x24 ==> r == if s.done then 1 else 0)
  {
    ClockReads(s, b);
    hide ClockRegs, PackColumn;
  }

  /** No KEY write and no second start; DATA may be rewritten. */
  predicate Quiet(bs: seq<Bus>) {
    forall b :: b in bs ==> !b.WritesKey() && !b.Starts()
  }

  /** What the core is offered on each edge of a run. */
  function Offered(s: Regs, bs: seq<Bus>): (xs: seq<Inputs>)
    requires s.core.Shaped()
    ensures |xs| == |bs|
    decreases |bs|
  {
    if bs == [] then [] else
      Offered(s, bs[..|bs| - 1]) + [CoreInputs(RunBus(s, bs[..|bs| - 1]), false)]
  }

  lemma {:induction false} OfferedAt(s: Regs, bs: seq<Bus>, i: nat)
    requires s.core.Shaped() && i < |bs|
    ensures Offered(s, bs)[i] == CoreInputs(RunBus(s, bs[..i]), false)
    decreases |bs|
  {
    hide ClockRegs;
    if i < |bs| - 1 {
      OfferedAt(s, bs[..|bs| - 1], i);
      assert bs[..|bs| - 1][..i] == bs[..i];
    }
  }

  lemma {:induction false} CoreFollows(s: Regs, bs: seq<Bus>)
    requires s.core.Shaped()
    ensures RunBus(s, bs).core == Run(s.core, Offered(s, bs))
    decreases |bs|
  {
    hide Edge, WithWord, ReadData;
    if bs != [] {
      CoreFollows(s, bs[..|bs| - 1]);
      var xs := Offered(s, bs);
      assert xs[..|xs| - 1] == Offered(s, bs[..|bs| - 1]);
    }
  }

  /** The state left by a start strobe that met an idle core. */
  predicate Started(s: Regs) {
    && s.core.Shaped() && s.start && !s.loadKey && !s.done && s.busy
    && s.core.rk == Schedule(s.key)
    && forall i :: 0 <= i < 12 ==> !s.core.valid[i]
  }

  lemma StartStrobe(s: Regs, b: Bus)
    requires Idle(s) && KeyReady(s) && b.Starts()
    ensures Started(ClockRegs(s, false, b))
    ensures ClockRegs(s, false, b).key == s.key && ClockRegs(s, false, b).data == s.data
  {
    hide Schedule, Edge, WithWord, ReadData, FinalRound, Unpack;
    EdgeControl(s.core, CoreInputs(s, false));
  }

  lemma {:induction false} QuietRun(s: Regs, bs: seq<Bus>)
    requires Started(s) && Quiet(bs)
    ensures var t := RunBus(s, bs); t.key == s.key && !t.loadKey && t.start == (bs == [])
    decreases |bs|
  {
    hide Edge, Schedule, WithWord, ReadData;
    if bs != [] {
      QuietRun(s, bs[..|bs| - 1]);
    }
  }

  lemma QuietOffers(s: Regs, bs: seq<Bus>)
    requires Started(s) && Quiet(bs)
    ensures Steady(Offered(s, bs))
    ensures forall i :: 0 <= i < |bs| ==>
      Offered(s, bs)[i].valid == (i == 0) && Offered(s, bs)[i].plaintext == RunBus(s, bs[..i]).data
  {
    hide RunBus, Offered;
    forall i | 0 <= i < |bs|
      ensures Offered(s, bs)[i] == CoreInputs(RunBus(s, bs[..i]), false)
      ensures !RunBus(s, bs[..i]).loadKey && RunBus(s, bs[..i]).start == (i == 0)
    {
      OfferedAt(s, bs, i);
      QuietRun(s, bs[..i]);
    }
  }

  /** Completion is signalled on exactly one clock, the twelfth after the strobe; the
      ciphertext beside it is of the data register one clock after the block entered. */
  lemma CompletionClock(s: Regs, bs: seq<Bus>)
    requires Started(s) && Quiet(bs)
    ensures RunBus(s, bs).core.ValidO() <==> |bs| == 12
    ensures |bs| == 12 ==> RunBus(s, bs).core.cipherO == Encrypt(s.key, RunBus(s, bs[..1]).data)
  {
    hide RunBus, Offered, Run, Cipher, Schedule;
    CoreFollows(s, bs);
    QuietOffers(s, bs);
    ValidLine(s.core, Offered(s, bs), 11);
    if |bs| == 12 {
      StagesKept(s.core, Offered(s, bs));
    }
  }

  lemma {:induction false} DoneExactly(s: Regs, bs: seq<Bus>)
    requires Started(s) && Quiet(bs)
    ensures RunBus(s, bs).done == (|bs| >= 13) && RunBus(s, bs).busy == (|bs| < 13)
    ensures |bs| >= 13 ==> RunBus(s, bs).cipher == Encrypt(s.key, RunBus(s, bs[..1]).data)
    decreases |bs|
  {
    hide Edge, Schedule, WithWord, ReadData, Encrypt, Offered;
    if bs != [] {
      var init := bs[..|bs| - 1];
      DoneExactly(s, init);
      CompletionClock(s, init);
      QuietRun(s, init);
      if |bs| >= 13 {
        assert init[..1] == bs[..1];
      }
    }
  }

  // ---- As a program sees it ----------------------------------------------------------------

  lemma RunSplits(s: Regs, xs: seq<Bus>, b: Bus)
    requires s.core.Shaped()
    ensures RunBus(s, xs + [b]) == ClockRegs(RunBus(s, xs), false, b)
  {
    hide ClockRegs;
    assert (xs + [b])[..|xs|] == xs;
  }

  /** Word `j` of a 128-bit register, the lowest first. */
  function LowWord(b: Block, j: nat): bv32
    requires j < 4
  {
    PackColumn(if j == 0 then b.c3 else if j == 1 then b.c2 else if j == 2 then b.c1 else b.c0)
  }

  function OutAddr(j: nat): bv8
    requires j < 4
  {
    if j == 0 then 0x30 else if j == 1 then 0x34 else if j == 2 then 0x38 else 0x3c
  }

  /** Once a poll of STATUS has returned 1, reading OUT word `j` returns word `j` of the
      encryption of the DATA registers as they stood one clock after the start strobe. */
  lemma PollThenRead(s: Regs, strobe: Bus, before: seq<Bus>, poll: Bus, between: seq<Bus>, read: Bus, j: nat)
    requires Idle(s) && KeyReady(s) && strobe.Starts()
    requires Quiet(before + [poll] + between) && poll.addr == 0x24
    requires j < 4 && read.addr == OutAddr(j)
    requires RunBus(ClockRegs(s, false, strobe), before + [poll]).rdata == 1
    ensures before != []
    ensures var t := ClockRegs(s, false, strobe);
      RunBus(t, before + [poll] + between + [read]).rdata
      == LowWord(Encrypt(s.key, RunBus(t, before[..1]).data), j)
  {
    hide ClockRegs, RunBus, Encrypt, PackColumn;
    var t := ClockRegs(s, false, strobe);
    StartStrobe(s, strobe);
    DoneExactly(t, before);
    RunSplits(t, before, poll);
    ClockReads(RunBus(t, before), poll);
    var all := before + [poll] + between;
    DoneExactly(t, all);
    assert all[..1] == before[..1];
    RunSplits(t, all, read);
    ClockReads(RunBus(t, all), read);
  }

  lemma ClockReads(s: Regs, b: Bus)
    requires s.core.Shaped()
    ensures ClockRegs(s, false, b).rdata == ReadData(s.busy, s.done, s.cipher, b.addr)
  {
    hide ReadData, Edge, WithWord;
  }

  /** The captured block is the encryption of DATA as it was at the start strobe exactly
      when the clock right after the strobe left DATA as it was. */
  lemma StartDataExact(s: Regs, strobe: Bus, bs: seq<Bus>)
    requires Idle(s) && KeyReady(s) && strobe.Starts() && Quiet(bs) && |bs| >= 13
    ensures var t := ClockRegs(s, false, strobe);
      RunBus(t, bs).cipher == Encrypt(s.key, s.data) <==> RunBus(t, bs[..1]).data == s.data
  {
    hide ClockRegs, RunBus, Cipher, Schedule;
    StartStrobe(s, strobe);
    var t := ClockRegs(s, false, strobe);
    DoneExactly(t, bs);
    CipherInjective(Schedule(s.key), RunBus(t, bs[..1]).data, s.data);
  }

  /** Whatever does not start the core leaves an idle block idle. */
  lemma IdleKept(s: Regs, b: Bus)
    requires Idle(s) && !b.Starts()
    ensures Idle(ClockRegs(s, false, b))
  {
    hide Schedule, Edge, WithWord, ReadData, FinalRound, Unpack;
    EdgeControl(s.core, CoreInputs(s, false));
  }

  predicate NoStart(bs: seq<Bus>) {
    forall b :: b in bs ==> !b.Starts()
  }

  lemma {:induction false} IdleRuns(s: Regs, bs: seq<Bus>)
    requires Idle(s) && NoStart(bs)
    ensures Idle(RunBus(s, bs))
    ensures KeyReady(s) ==> KeyReady(RunBus(s, bs))
    decreases |bs|
  {
    hide ClockRegs, KeyReady, Bus.Starts;
    if bs != [] {
      var init := bs[..|bs| - 1];
      IdleRuns(s, init);
      IdleKept(RunBus(s, init), bs[|bs| - 1]);
      KeyReadyKept(RunBus(s, init), bs[|bs| - 1]);
    }
  }

  lemma WritesDoNotStart(base: bv8, ws: seq<bv32>)
    requires |ws| == 4 && (base == 0x00 || base == 0x10)
    ensures NoStart(FourWrites(base, ws))
  {
  }

  lemma DataWritesKeepKey(d: Block, ws: seq<bv32>)
    requires |ws| == 4
    ensures var bs := FourWrites(0x10, ws);
      KeyAfter(KeyAfter(KeyAfter(KeyAfter(d, bs[0]), bs[1]), bs[2]), bs[3]) == d
  {
    hide Unpack;
  }

  /** After reset, four KEY writes and four DATA writes. */
  function Loaded(s: Regs, quiet: Bus, key: seq<bv32>, data: seq<bv32>): (t: Regs)
    requires s.core.Shaped() && |key| == 4 && |data| == 4
    ensures t.core.Shaped()
  {
    hide RunBus, ClockRegs;
    RunBus(RunBus(ClockRegs(s, true, quiet), FourWrites(0x00, key)), FourWrites(0x10, data))
  }

  lemma LoadedReady(s: Regs, quiet: Bus, key: seq<bv32>, data: seq<bv32>)
    requires s.core.Shaped() && |key| == 4 && |data| == 4
    ensures var t := Loaded(s, quiet, key, data);
      Idle(t) && KeyReady(t) && t.key == BlockOfWords(key) && t.data == BlockOfWords(data)
  {
    hide RunBus, ClockRegs, Idle, KeyReady, BlockOfWords, FourWrites, KeyAfter, DataAfter, NoStart;
    var r := ClockRegs(s, true, quiet);
    var k := RunBus(r, FourWrites(0x00, key));
    ResetIdle(s, quiet);
    WritesDoNotStart(0x00, key);
    WritesDoNotStart(0x10, data);
    IdleRuns(r, FourWrites(0x00, key));
    IdleRuns(k, FourWrites(0x10, data));
    WordsLoaded(r, key);
    WordsLoaded(k, data);
    FourLand(k, FourWrites(0x10, data));
    DataWritesKeepKey(k.key, data);
  }

  /** The whole session: reset, four KEY writes, four DATA writes and a start; then bus
      traffic that writes no KEY, starts nothing and leaves DATA alone for one clock; a
      poll that returns 1; more such traffic; and a read of OUT word j, which is word j of
      the encryption. */
  lemma SessionEncrypts(s: Regs, quiet: Bus, key: seq<bv32>, data: seq<bv32>, t: Regs, strobe: Bus, u: Regs,
                        before: seq<Bus>, poll: Bus, between: seq<Bus>, read: Bus, j: nat)
    requires s.core.Shaped() && |key| == 4 && |data| == 4 && t == Loaded(s, quiet, key, data)
    requires strobe.Starts() && u == ClockRegs(t, false, strobe)
    requires Quiet(before + [poll] + between) && poll.addr == 0x24 && j < 4 && read.addr == OutAddr(j)
    requires before != [] ==> !before[0].WritesData()
    requires RunBus(u, before + [poll]).rdata == 1
    ensures RunBus(u, before + [poll] + between + [read]).rdata
         == LowWord(Encrypt(BlockOfWords(key), BlockOfWords(data)), j)
  {
    hide RunBus, ClockRegs, Loaded, Idle, KeyReady, Quiet, Encrypt, BlockOfWords, LowWord, OutAddr, Bus.Starts;
    LoadedReady(s, quiet, key, data);
    PollThenRead(t, strobe, before, poll, between, read, j);
    StartStrobe(t, strobe);
    FirstKeeps(u, before);
  }

  lemma FirstKeeps(s: Regs, bs: seq<Bus>)
    requires s.core.Shaped() && bs != [] && !bs[0].WritesData()
    ensures RunBus(s, bs[..1]).data == s.data
  {
    hide ClockRegs;
    WriteLands(s, bs[0]);
    assert bs[..1][..0] == [];
    assert RunBus(s, bs[..1]) == ClockRegs(s, false, bs[0]);
  }

  /** Finished runs leave the block idle, so the protocol can be repeated. */
  lemma IdleAgain(s: Regs, bs: seq<Bus>)
    requires Started(s) && Quiet(bs) && |bs| >= 13
    ensures Idle(RunBus(s, bs)) && KeyReady(RunBus(s, bs))
  {
    hide RunBus, Offered, Run, Schedule;
    QuietRun(s, bs);
    CoreFollows(s, bs);
    QuietOffers(s, bs);
    StagesKept(s.core, Offered(s, bs));
    forall i | 0 <= i < 12
      ensures !RunBus(s, bs).core.valid[i]
    {
      ValidLine(s.core, Offered(s, bs), i);
    }
  }

  // ---- The clocked form -------------------------------------------------------------------

  class AesRegisters {
    var key: Block
    var data: Block
    var cipher: Block
    var start: bool
    var loadKey: bool
    var busy: bool
    var done: bool
    var rdata: bv32
    const core: Aes128Core

    ghost predicate Valid()
      reads this, core, core.rk, core.pipeState, core.pipeValid
    {
      core.Valid()
    }

    ghost function State(): (s: Regs)
      requires Valid()
      reads this, core, core.rk, core.pipeState, core.pipeValid
      ensures s.core.Shaped()
    {
      Regs(key, data, cipher, start, loadKey, busy, done, rdata, core.State())
    }

    constructor ()
      ensures Valid()
    {
      key, data, cipher := ZeroBlock(), ZeroBlock(), ZeroBlock();
      start, loadKey, busy, done, rdata := false, false, false, false, 0;
      core := new Aes128Core();
    }

    /** The write decoder; a later assignment of the same clock overrides it. */
    method Write(b: Bus)
      modifies this
      ensures cipher == old(cipher) && rdata == old(rdata)
      ensures key == KeyAfter(old(key), b) && data == DataAfter(old(data), b)
      ensures start == b.Starts() && loadKey == b.WritesKey()
      ensures busy == (b.Starts() || old(busy)) && done == (!b.Starts() && old(done))
    {
      hide Unpack;
      start, loadKey := false, false;
      if b.sel && b.we {
        match b.addr
        case 0x00 => key, loadKey := key.(c3 := Unpack(b.wdata)), true;
        case 0x04 => key, loadKey := key.(c2 := Unpack(b.wdata)), true;
        case 0x08 => key, loadKey := key.(c1 := Unpack(b.wdata)), true;
        case 0x0c => key, loadKey := key.(c0 := Unpack(b.wdata)), true;
        case 0x10 => data := data.(c3 := Unpack(b.wdata));
        case 0x14 => data := data.(c2 := Unpack(b.wdata));
        case 0x18 => data := data.(c1 := Unpack(b.wdata));
        case 0x1c => data := data.(c0 := Unpack(b.wdata));
        case 0x20 =>
          if b.wdata & 1 == 1 {
            start, busy, done := true, true, false;
          }
        case _ =>
      }
    }

    ghost function OwnWith(pipe: Pipe): Regs
      reads this
    {
      Regs(key, data, cipher, start, loadKey, busy, done, rdata, pipe)
    }

    method ClockOwn(rst: bool, b: Bus, finished: bool, out: Block, ghost pipe: Pipe)
      requires pipe.Shaped() && finished == pipe.ValidO() && out == pipe.cipherO
      modifies this
      ensures OwnWith(pipe) == NextOwn(old(OwnWith(pipe)), rst, b)
    {
      hide WithWord, PackColumn, ZeroBlock, ReadData, KeyAfter, DataAfter, Bus.Starts, Bus.WritesKey;
      if rst {
        rdata := 0;
        key, data, cipher := ZeroBlock(), ZeroBlock(), ZeroBlock();
        start, loadKey, busy, done := false, false, false, false;
      } else {
        rdata := ReadData(busy, done, cipher, b.addr);
        Write(b);
        if finished {
          cipher, busy, done := out, false, true;
        }
      }
    }

    /** One rising edge of the block and of the core inside it. */
    method Clock(rst: bool, b: Bus)
      requires Valid()
      modifies this, core`validO, core`ciphertextO, core.rk, core.pipeState, core.pipeValid
      ensures Valid() && State() == ClockRegs(old(State()), rst, b)
    {
      hide NextOwn, Edge;
      ghost var was := State();
      var inputs := Inputs(rst, loadKey, key, start, data);
      ClockOwn(rst, b, core.validO, core.ciphertextO, core.State());
      core.Clock(inputs);
      assert State() == OwnWith(was.core).(core := core.State());
    }
  }
}
