/**
 Starts that meet a busy core: exactly when STATUS reports a completion that belongs to an
 earlier start, and which data the ciphertext beside it encrypts.
 */
module AesOverlap {
  import opened Basics
  import opened AesCipher
  import opened AesCore
  import opened AesRegs

  lemma StartFollows(s: Regs, bs: seq<Bus>)
    requires s.core.Shaped()
    ensures RunBus(s, bs).start == if bs == [] then s.start else bs[|bs| - 1].Starts()
  {
    hide Edge, KeyAfter, DataAfter, ReadData;
  }

  lemma LineMoves(s: Regs, b: Bus)
    requires s.core.Shaped()
    ensures ClockRegs(s, false, b).core.valid == [s.start] + s.core.valid[..11]
  {
    hide Edge, KeyAfter, DataAfter, ReadData, Bus.Starts, Bus.WritesKey, Schedule, FinalRound;
    EdgeControl(s.core, CoreInputs(s, false));
  }

  // ---- When done rises ------------------------------------------------------------------

  /** Without further starts the valid bits only move on. */
  lemma {:induction false} LineEmpties(s: Regs, bs: seq<Bus>, i: nat)
    requires s.core.Shaped() && NoStart(bs) && i < 12
    ensures RunBus(s, bs).core.valid[i]
         == if i < |bs| then i + 1 == |bs| && s.start else s.core.valid[i - |bs|]
    decreases |bs|
  {
    hide ClockRegs, Bus.Starts;
    if bs != [] {
      var init := bs[..|bs| - 1];
      LineMoves(RunBus(s, init), bs[|bs| - 1]);
      StartFollows(s, init);
      if i > 0 {
        LineEmpties(s, init, i - 1);
      }
    }
  }

  lemma Completes(s: Regs, b: Bus)
    requires s.core.Shaped()
    ensures var t := ClockRegs(s, false, b);
      && t.done == (s.core.ValidO() || (!b.Starts() && s.done))
      && t.busy == (!s.core.ValidO() && (b.Starts() || s.busy))
  {
    hide Edge, KeyAfter, DataAfter, ReadData, Bus.Starts, Bus.WritesKey;
  }

  /** Some valid bit of `s` has left the line `n` clocks later. */
  predicate Left(s: Regs, n: nat)
    requires s.core.Shaped()
  {
    (s.start && n >= 13) || exists i :: 0 <= i < 12 && i + n >= 12 && s.core.valid[i]
  }

  lemma NothingLeft(s: Regs)
    requires s.core.Shaped()
    ensures !Left(s, 0)
  {
  }

  lemma LeftNext(s: Regs, n: nat)
    requires s.core.Shaped()
    ensures Left(s, n + 1) <==> Left(s, n) || if n < 12 then s.core.valid[11 - n] else n == 12 && s.start
  {
  }

  lemma {:induction false} DoneWhenLeft(s: Regs, bs: seq<Bus>)
    requires s.core.Shaped() && NoStart(bs)
    ensures RunBus(s, bs).done <==> s.done || Left(s, |bs|)
    ensures RunBus(s, bs).busy <==> s.busy && !Left(s, |bs|)
    decreases |bs|
  {
    hide ClockRegs, Bus.Starts, Left;
    if bs == [] {
      NothingLeft(s);
    } else {
      var init := bs[..|bs| - 1];
      DoneWhenLeft(s, init);
      LineEmpties(s, init, 11);
      LeftNext(s, |init|);
      Completes(RunBus(s, init), bs[|bs| - 1]);
    }
  }

  lemma OneClock(s: Regs, b: Bus)
    requires s.core.Shaped()
    ensures RunBus(s, [b]) == ClockRegs(s, false, b)
  {
    hide ClockRegs;
    assert [b][..0] == [];
    assert RunBus(s, [b][..0]) == s;
  }

  /** What a start strobe in any state leads to: done is set `n` clocks later exactly when
      the strobe's own run has had its thirteen clocks, or a valid bit of an earlier run,
      or an earlier strobe, was near enough to the end to come out first. */
  lemma DoneAfterStart(s: Regs, strobe: Bus, bs: seq<Bus>)
    requires s.core.Shaped() && strobe.Starts() && NoStart(bs)
    ensures var t := RunBus(ClockRegs(s, false, strobe), bs);
      && (t.done <==> |bs| >= 13 || Earlier(s, |bs|))
      && t.busy == !t.done
  {
    hide ClockRegs, RunBus, Bus.Starts, Left, Earlier;
    var t := ClockRegs(s, false, strobe);
    LineMoves(s, strobe);
    StartFollows(s, [strobe]);
    OneClock(s, strobe);
    Completes(s, strobe);
    DoneWhenLeft(t, bs);
    EarlierLeaves(s, t, |bs|);
  }

  /** A completion of a run started before `s`. */
  predicate Earlier(s: Regs, n: nat)
    requires s.core.Shaped()
  {
    (s.start && n >= 12) || exists i :: 0 <= i < 12 && i + n >= 11 && s.core.valid[i]
  }

  lemma EarlierLeaves(s: Regs, t: Regs, n: nat)
    requires s.core.Shaped() && t.core.Shaped() && t.start && t.core.valid == [s.start] + s.core.valid[..11]
    ensures s.core.ValidO() || Left(t, n) <==> n >= 13 || Earlier(s, n)
  {
    if Earlier(s, n) && !(s.start && n >= 12) {
      var i :| 0 <= i < 12 && i + n >= 11 && s.core.valid[i];
      if i < 11 {
        assert t.core.valid[i + 1];
      }
    }
    if s.start && n >= 12 {
      assert t.core.valid[0];
    }
    if Left(t, n) && n < 13 {
      var i :| 0 <= i < 12 && i + n >= 12 && t.core.valid[i];
      if i > 0 {
        assert s.core.valid[i - 1] && (i - 1) + n >= 11;
      }
    }
    if s.core.ValidO() {
      assert s.core.valid[11] && 11 + n >= 11;
    }
  }

  const NO_ACCESS := Bus(false, 0, 0, false)

  /** Starting clears done until the run has finished exactly when the core was idle. */
  lemma StartClearsExactly(s: Regs, strobe: Bus)
    requires s.core.Shaped() && strobe.Starts()
    ensures Idle(s) <==>
      forall bs: seq<Bus> :: NoStart(bs) && |bs| < 13 ==> !RunBus(ClockRegs(s, false, strobe), bs).done
  {
    hide ClockRegs, RunBus;
    forall bs: seq<Bus> | NoStart(bs)
      ensures RunBus(ClockRegs(s, false, strobe), bs).done <==> |bs| >= 13 || Earlier(s, |bs|)
    {
      DoneAfterStart(s, strobe, bs);
    }
    var quiet := seq(12, i => NO_ACCESS);
    assert NoStart(quiet);
    if !Idle(s) && !s.start {
      var i :| 0 <= i < 12 && s.core.valid[i];
      assert Earlier(s, 12);
    }
  }

  // ---- Whose ciphertext ---------------------------------------------------------------------

  predicate NoKey(bs: seq<Bus>) {
    forall b :: b in bs ==> !b.WritesKey()
  }

  lemma {:induction false} KeyStays(s: Regs, bs: seq<Bus>)
    requires s.core.Shaped() && !s.loadKey && NoKey(bs)
    ensures RunBus(s, bs).key == s.key && !RunBus(s, bs).loadKey
    decreases |bs|
  {
    hide ClockRegs;
    if bs != [] {
      KeyStays(s, bs[..|bs| - 1]);
      WriteLands(RunBus(s, bs[..|bs| - 1]), bs[|bs| - 1]);
    }
  }

  lemma OffersSteady(s: Regs, bs: seq<Bus>)
    requires s.core.Shaped() && !s.loadKey && NoKey(bs)
    ensures Steady(Offered(s, bs))
    ensures forall i :: 0 <= i < |bs| ==> Offered(s, bs)[i] == CoreInputs(RunBus(s, bs[..i]), false)
  {
    hide RunBus, Offered;
    forall i | 0 <= i < |bs|
      ensures Offered(s, bs)[i] == CoreInputs(RunBus(s, bs[..i]), false) && !RunBus(s, bs[..i]).loadKey
    {
      OfferedAt(s, bs, i);
      KeyStays(s, bs[..i]);
    }
  }

  /** Clock `k` of the traffic carries a strobe; clock 0 is the one that opens it. */
  predicate StrobeAt(bs: seq<Bus>, k: nat)
    requires k <= |bs|
  {
    k == 0 || bs[k - 1].Starts()
  }

  /** The core completes exactly twelve clocks after every strobe. */
  lemma CompletionExactly(s: Regs, bs: seq<Bus>)
    requires Started(s) && NoKey(bs)
    ensures RunBus(s, bs).core.ValidO() <==> |bs| >= 12 && StrobeAt(bs, |bs| - 12)
    ensures |bs| >= 12 ==> RunBus(s, bs).core.cipherO == Encrypt(s.key, RunBus(s, bs[..|bs| - 11]).data)
  {
    hide RunBus, Offered, Run, Cipher, Schedule, Bus.Starts;
    CoreFollows(s, bs);
    OffersSteady(s, bs);
    ValidLine(s.core, Offered(s, bs), 11);
    StagesKept(s.core, Offered(s, bs));
    if |bs| >= 12 {
      StartFollows(s, bs[..|bs| - 12]);
    }
  }

  /** The latest strobe whose run has been captured. */
  function Captured(bs: seq<Bus>): (k: nat)
    requires |bs| >= 13
    ensures k + 13 <= |bs| && StrobeAt(bs, k)
    ensures forall j :: k < j <= |bs| - 13 ==> !StrobeAt(bs, j)
    decreases |bs|
  {
    if |bs| == 13 || bs[|bs| - 14].Starts() then |bs| - 13
    else
      var init := bs[..|bs| - 1];
      assert forall j :: 0 <= j <= |init| - 13 ==> StrobeAt(init, j) == StrobeAt(bs, j);
      Captured(init)
  }

  predicate NoStrobeAfter(bs: seq<Bus>, k: nat) {
    forall j :: k <= j < |bs| ==> !bs[j].Starts()
  }

  /** For any bus traffic after a start that writes no KEY: OUT holds the encryption of the
      DATA of the latest captured strobe, and done is set exactly when no strobe came after
      the clock of that capture. */
  lemma {:induction false} TrafficExactly(s: Regs, bs: seq<Bus>)
    requires Started(s) && NoKey(bs)
    ensures RunBus(s, bs).done <==> |bs| >= 13 && NoStrobeAfter(bs, Captured(bs) + 13)
    ensures |bs| >= 13 ==> RunBus(s, bs).cipher == Encrypt(s.key, RunBus(s, bs[..Captured(bs) + 1]).data)
    decreases |bs|
  {
    hide ClockRegs, Encrypt, Bus.Starts, Bus.WritesKey, Schedule;
    if bs != [] {
      var init := bs[..|bs| - 1];
      TrafficExactly(s, init);
      CompletionExactly(s, init);
      Completes(RunBus(s, init), bs[|bs| - 1]);
      Captures(RunBus(s, init), bs[|bs| - 1]);
      if |bs| >= 13 {
        assert init[..|init| - 11] == bs[..|bs| - 12];
        if |bs| > 13 && !bs[|bs| - 14].Starts() {
          assert init[..Captured(init) + 1] == bs[..Captured(bs) + 1];
        }
      }
    }
  }

  lemma Captures(s: Regs, b: Bus)
    requires s.core.Shaped()
    ensures ClockRegs(s, false, b).cipher == if s.core.ValidO() then s.core.cipherO else s.cipher
  {
    hide Edge, KeyAfter, DataAfter, ReadData, Bus.Starts, Bus.WritesKey;
  }

  /** A poll of 1 speaks for the newest strobe exactly when no strobe came within thirteen
      clocks after the one captured. */
  lemma HonestExactly(s: Regs, bs: seq<Bus>)
    requires Started(s) && NoKey(bs) && |bs| >= 13
    ensures RunBus(s, bs).done ==>
      (NoStrobeAfter(bs, Captured(bs)) <==>
       forall j :: Captured(bs) <= j < Captured(bs) + 13 ==> !bs[j].Starts())
  {
    hide RunBus, ClockRegs, Captured, Bus.Starts, Bus.WritesKey, Started, Encrypt, Schedule;
    TrafficExactly(s, bs);
  }

  /** The failing traffic: new DATA and a second strobe two clocks into a run. Ten clocks
      later done is set, and OUT is the encryption of the DATA before the write. */
  lemma SecondStartReadsFirst(s: Regs, write: Bus, again: Bus)
    requires Started(s) && write.WritesData() && again.Starts()
    ensures var bs := [NO_ACCESS, write, again] + Repeat(10, NO_ACCESS);
      RunBus(s, bs).done && RunBus(s, bs).cipher == Encrypt(s.key, s.data)
  {
    hide RunBus, Encrypt;
    var bs := [NO_ACCESS, write, again] + Repeat(10, NO_ACCESS);
    assert Captured(bs) == 0;
    TrafficExactly(s, bs);
    FirstKeeps(s, bs);
  }
}
