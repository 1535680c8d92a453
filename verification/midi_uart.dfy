/**
 The serial half of the MIDI receiver (`midi_rx.v`): a bit lasts `B` clocks on the line
 but the receiver samples every `B + 1`, so it drifts by one clock a bit.
 */
module MidiUart {

  /** Clocks per bit, as far as the sixteen-bit counter can hold them. */
  type Ticks = n: nat | n < 0x10000

  /** Eight bits, the least significant first, as they travel. */
  type Bits = s: seq<bool> | |s| == 8 witness Hold(false, 8)

  function Hold(b: bool, n: nat): (s: seq<bool>)
    ensures |s| == n && forall i :: 0 <= i < n ==> s[i] == b
  {
    seq(n, i => b)
  }

  datatype Phase = Idle | Start | Data | Stop

  datatype Uart = Uart(phase: Phase, count: nat, index: nat, shift: Bits, valid: bool, out: Bits)

  /** One clock; `level` is the output of the two-stage synchroniser. */
  function ClockUart(B: Ticks, u: Uart, level: bool): Uart {
    var v := u.(valid := false);
    match u.phase
    case Idle => if level then v else v.(phase := Start, count := B / 2)
    case Start =>
      if u.count > 0 then v.(count := u.count - 1)
      else if level then v.(phase := Idle)
      else v.(phase := Data, count := B, index := 0, shift := Hold(false, 8))
    case Data =>
      if u.count > 0 then v.(count := u.count - 1)
      else v.(shift := u.shift[1..] + [level], count := B, index := u.index + 1,
              phase := if u.index == 7 then Stop else Data)
    case Stop =>
      if u.count > 0 then v.(count := u.count - 1)
      else v.(out := u.shift, valid := level, phase := Idle)
  }

  /** The state after some levels, and the bytes announced on the way. */
  datatype Heard = Heard(u: Uart, bytes: seq<Bits>)

  function Hear(B: Ticks, h: Heard, level: bool): Heard {
    var v := ClockUart(B, h.u, level);
    Heard(v, if v.valid then h.bytes + [v.out] else h.bytes)
  }

  function Listen(B: Ticks, h: Heard, levels: seq<bool>): Heard
    decreases |levels|
  {
    if levels == [] then h
    else Hear(B, Listen(B, h, levels[..|levels| - 1]), levels[|levels| - 1])
  }

  lemma {:induction false} ListenConcat(B: Ticks, h: Heard, a: seq<bool>, b: seq<bool>)
    ensures Listen(B, h, a + b) == Listen(B, Listen(B, h, a), b)
    decreases |b|
  {
    hide Hear;
    if b == [] {
      assert a + b == a;
    } else {
      var c := b[..|b| - 1];
      assert (a + b)[..|a + b| - 1] == a + c;
      ListenConcat(B, h, a, c);
    }
  }

  lemma HoldSplit(B: Ticks, h: Heard, b: bool, m: nat, n: nat)
    ensures Listen(B, h, Hold(b, m + n)) == Listen(B, Listen(B, h, Hold(b, m)), Hold(b, n))
  {
    hide Listen;
    assert Hold(b, m + n) == Hold(b, m) + Hold(b, n);
    ListenConcat(B, h, Hold(b, m), Hold(b, n));
  }

  lemma HoldOne(B: Ticks, h: Heard, b: bool)
    ensures Listen(B, h, Hold(b, 1)) == Hear(B, h, b)
  {
    hide Hear;
    assert Hold(b, 1)[..0] == [];
  }

  /** Between samples the counter runs down. */
  lemma {:induction false} Waits(B: Ticks, h: Heard, b: bool, n: nat)
    requires h.u.phase != Idle && !h.u.valid && n <= h.u.count
    ensures Listen(B, h, Hold(b, n)) == h.(u := h.u.(count := h.u.count - n))
  {
    if n > 0 {
      Waits(B, h, b, n - 1);
      assert Hold(b, n)[..n - 1] == Hold(b, n - 1);
    }
  }

  lemma {:induction false} QuietLine(B: Ticks, h: Heard, n: nat)
    requires h.u.phase == Idle
    ensures Listen(B, h, Hold(true, n)) == if n == 0 then h else h.(u := h.u.(valid := false))
  {
    if n > 0 {
      QuietLine(B, h, n - 1);
      assert Hold(true, n)[..n - 1] == Hold(true, n - 1);
    }
  }

  /** A whole bit: wait, sample, and wait again, ending one clock later in the next bit. */
  lemma BitPasses(B: Ticks, h: Heard, b: bool)
    requires h.u.phase != Idle && !h.u.valid && h.u.count + 1 <= B
    requires Hear(B, h.(u := h.u.(count := 0)), b).u.phase != Idle
    ensures var s := Hear(B, h.(u := h.u.(count := 0)), b);
      s.u.count == B && !s.u.valid &&
      Listen(B, h, Hold(b, B)) == s.(u := s.u.(count := h.u.count + 1))
  {
    hide Listen;
    var c := h.u.count;
    HoldSplit(B, h, b, c, B - c);
    Waits(B, h, b, c);
    var at := Listen(B, h, Hold(b, c));
    HoldSplit(B, at, b, 1, B - c - 1);
    HoldOne(B, at, b);
    Waits(B, Hear(B, at, b), b, B - c - 1);
  }

  lemma StartBit(B: Ticks, h: Heard)
    requires h.u.phase == Idle && B / 2 + 2 <= B
    ensures Listen(B, h, Hold(false, B)) ==
      h.(u := h.u.(phase := Data, count := B / 2 + 2, index := 0, shift := Hold(false, 8), valid := false))
  {
    hide Listen;
    HoldSplit(B, h, false, 1, B - 1);
    HoldOne(B, h, false);
    var s := Hear(B, h, false);
    HoldSplit(B, s, false, B / 2, B - 1 - B / 2);
    Waits(B, s, false, B / 2);
    var t := s.(u := s.u.(count := 0));
    HoldSplit(B, t, false, 1, B - 2 - B / 2);
    HoldOne(B, t, false);
    Waits(B, Hear(B, t, false), false, B - 2 - B / 2);
  }

  // ---- Frames -------------------------------------------------------------------------

  function Levels(B: Ticks, bits: seq<bool>): seq<bool> {
    if bits == [] then [] else Levels(B, bits[..|bits| - 1]) + Hold(bits[|bits| - 1], B)
  }

  /** A start bit, eight data bits and a stop bit of `B` clocks each. */
  function Frame(B: Ticks, bits: Bits): seq<bool> {
    Hold(false, B) + Levels(B, bits) + Hold(true, B)
  }

  /** After `n` data bits. */
  function AfterBits(B: Ticks, h: Heard, bits: seq<bool>): Heard
    requires |bits| <= 8
  {
    var n := |bits|;
    h.(u := h.u.(phase := if n == 8 then Stop else Data, count := B / 2 + 2 + n, index := n,
                 shift := Hold(false, 8 - n) + bits, valid := false))
  }

  lemma BitSampled(B: Ticks, h: Heard, init: seq<bool>, b: bool)
    requires |init| <= 7
    ensures var at := AfterBits(B, h, init);
      var s := Hear(B, at.(u := at.u.(count := 0)), b);
      s.u.phase != Idle && s.(u := s.u.(count := at.u.count + 1)) == AfterBits(B, h, init + [b])
  {
    var n := |init|;
    assert (Hold(false, 8 - n) + init)[1..] + [b] == Hold(false, 7 - n) + (init + [b]);
  }

  lemma {:induction false} DataBits(B: Ticks, h: Heard, bits: seq<bool>)
    requires |bits| <= 8 && B / 2 + 10 <= B
    requires h == AfterBits(B, h, [])
    ensures Listen(B, h, Levels(B, bits)) == AfterBits(B, h, bits)
    decreases |bits|
  {
    hide Hear, Hold;
    if bits != [] {
      var n := |bits| - 1;
      var init, b := bits[..n], bits[n];
      DataBits(B, h, init);
      ListenConcat(B, h, Levels(B, init), Hold(b, B));
      BitSampled(B, h, init, b);
      BitPasses(B, AfterBits(B, h, init), b);
      assert init + [b] == bits;
    }
  }

  lemma StopBit(B: Ticks, h: Heard, bits: Bits)
    requires B / 2 + 11 <= B && h == AfterBits(B, h, bits)
    ensures var d := Listen(B, h, Hold(true, B));
      d.u.phase == Idle && d.bytes == h.bytes + [bits]
  {
    hide Listen;
    var c := B / 2 + 10;
    HoldSplit(B, h, true, c, B - c);
    Waits(B, h, true, c);
    var at := Listen(B, h, Hold(true, c));
    HoldSplit(B, at, true, 1, B - c - 1);
    HoldOne(B, at, true);
    assert Hold(false, 0) + bits == bits;
    QuietLine(B, Hear(B, at, true), B - c - 1);
  }

  /** A frame met in the idle state announces its byte once and ends in the idle state,
      in time for a frame that follows at once. */
  lemma FrameHeard(B: Ticks, h: Heard, bits: Bits)
    requires h.u.phase == Idle && B >= 21
    ensures var d := Listen(B, h, Frame(B, bits));
      d.u.phase == Idle && d.bytes == h.bytes + [bits]
  {
    hide Listen, Levels;
    ListenConcat(B, h, Hold(false, B) + Levels(B, bits), Hold(true, B));
    ListenConcat(B, h, Hold(false, B), Levels(B, bits));
    StartBit(B, h);
    var s := Listen(B, h, Hold(false, B));
    assert Hold(false, 8) + [] == Hold(false, 8);
    DataBits(B, s, bits);
    StopBit(B, AfterBits(B, s, bits), bits);
  }

  /** 21 is the least bit time: one clock less and the stop bit of a frame is sampled in
      the start bit of a frame that follows at once, so the byte is dropped. */
  lemma BackToBackDropped(B: Ticks, h: Heard, bits: Bits)
    requires h.u.phase == Idle && (B == 19 || B == 20)
    ensures var d := Listen(B, h, Frame(B, bits) + Hold(false, B));
      d.bytes == h.bytes && d.u.phase == Data && d.u.index == 0 && d.u.count == B / 2 + 3
  {
    hide Listen, Levels;
    ListenConcat(B, h, Frame(B, bits), Hold(false, B));
    ListenConcat(B, h, Hold(false, B) + Levels(B, bits), Hold(true, B));
    ListenConcat(B, h, Hold(false, B), Levels(B, bits));
    StartBit(B, h);
    var s := Listen(B, h, Hold(false, B));
    assert Hold(false, 8) + [] == Hold(false, 8);
    DataBits(B, s, bits);
    var e := AfterBits(B, s, bits);
    Waits(B, e, true, B);
    var f := Listen(B, e, Hold(true, B));
    MissedStop(B, f);
  }

  lemma MissedStop(B: Ticks, f: Heard)
    requires f.u.phase == Stop && !f.u.valid && f.u.count == B / 2 + 10 - B && (B == 19 || B == 20)
    ensures var d := Listen(B, f, Hold(false, B));
      d.bytes == f.bytes && d.u.phase == Data && d.u.index == 0 && d.u.count == B / 2 + 3
  {
    hide Listen;
    assert f.u.count == 0;
    HoldSplit(B, f, false, 1, B - 1);
    HoldOne(B, f, false);
    var g := Hear(B, f, false);
    HoldSplit(B, g, false, 1, B - 2);
    HoldOne(B, g, false);
    var k := Hear(B, g, false);
    HoldSplit(B, k, false, B / 2, B - 2 - B / 2);
    Waits(B, k, false, B / 2);
    var m := Listen(B, k, Hold(false, B / 2));
    HoldSplit(B, m, false, 1, B - 3 - B / 2);
    HoldOne(B, m, false);
    Waits(B, Hear(B, m, false), false, B - 3 - B / 2);
  }

  // ---- The bound is exact ----------------------------------------------------------------

  function Samples(k: nat, B: Ticks): nat {
    if k == 0 then 0 else Samples(k - 1, B) + B + 1
  }

  /** A lower bound on the clocks before a byte can be announced. */
  function Remaining(B: Ticks, u: Uart): nat
    requires u.phase == Data ==> u.index < 8
  {
    match u.phase
    case Idle => B / 2 + 2 + Samples(9, B)
    case Start => u.count + 1 + Samples(9, B)
    case Data => u.count + 1 + Samples(8 - u.index, B)
    case Stop => u.count + 1
  }

  lemma OneClockNearer(B: Ticks, h: Heard, level: bool)
    requires (h.u.phase == Data ==> h.u.index < 8) && Remaining(B, h.u) > 1
    ensures var d := Hear(B, h, level);
      (d.u.phase == Data ==> d.u.index < 8) && Remaining(B, d.u) >= Remaining(B, h.u) - 1 && d.bytes == h.bytes
  {
    SamplesNext(9, B);
    if h.u.phase == Data {
      SamplesNext(8 - h.u.index, B);
    }
    hide Samples;
  }

  lemma SamplesNext(k: nat, B: Ticks)
    requires k > 0
    ensures Samples(k, B) == Samples(k - 1, B) + B + 1 && Samples(0, B) == 0
  {
  }

  lemma {:induction false} NoByteSoon(B: Ticks, h: Heard, levels: seq<bool>)
    requires (h.u.phase == Data ==> h.u.index < 8) && |levels| < Remaining(B, h.u)
    ensures var d := Listen(B, h, levels);
      (d.u.phase == Data ==> d.u.index < 8) && Remaining(B, d.u) + |levels| >= Remaining(B, h.u) && d.bytes == h.bytes
    decreases |levels|
  {
    hide Hear, Remaining;
    if levels != [] {
      var init := levels[..|levels| - 1];
      NoByteSoon(B, h, init);
      OneClockNearer(B, Listen(B, h, init), levels[|levels| - 1]);
    }
  }

  lemma {:induction false} SamplesTotal(k: nat, B: Ticks)
    ensures Samples(k, B) == k * B + k
  {
    if k > 0 {
      SamplesTotal(k - 1, B);
      assert k * B == (k - 1) * B + B;
    }
  }

  lemma {:induction false} LevelsLength(B: Ticks, bits: seq<bool>)
    requires |bits| <= 8
    ensures |Levels(B, bits)| == |bits| * B
    decreases |bits|
  {
    if bits != [] {
      LevelsLength(B, bits[..|bits| - 1]);
      assert |bits| * B == (|bits| - 1) * B + B;
    }
  }

  /** 21 clocks a bit is exactly what it takes for every byte to be announced by the end
      of its own frame: below that no byte at all is, whatever it holds. */
  lemma BitTimeExact(B: Ticks, h: Heard, bits: Bits)
    requires h.u.phase == Idle
    ensures Listen(B, h, Frame(B, bits)).bytes == h.bytes + [bits] <==> B >= 21
    ensures B < 21 ==> Listen(B, h, Frame(B, bits)).bytes == h.bytes
  {
    hide Listen, Levels;
    if B >= 21 {
      FrameHeard(B, h, bits);
    } else {
      SamplesTotal(9, B);
      LevelsLength(B, bits);
      NoByteSoon(B, h, Frame(B, bits));
    }
  }

  // ---- A line ---------------------------------------------------------------------------

  /** A byte and the number of idle clocks before it. */
  datatype Timed = Timed(gap: nat, bits: Bits)

  function Line(B: Ticks, sent: seq<Timed>): seq<bool> {
    if sent == [] then []
    else
      var last := sent[|sent| - 1];
      Line(B, sent[..|sent| - 1]) + (Hold(true, last.gap) + Frame(B, last.bits))
  }

  function BytesOf(sent: seq<Timed>): (s: seq<Bits>)
    ensures |s| == |sent|
  {
    seq(|sent|, i requires 0 <= i < |sent| => sent[i].bits)
  }

  /** Any bytes with any gaps, none included, are heard as sent. */
  lemma {:induction false} LineHeard(B: Ticks, h: Heard, sent: seq<Timed>)
    requires h.u.phase == Idle && B >= 21
    ensures var d := Listen(B, h, Line(B, sent));
      d.u.phase == Idle && d.bytes == h.bytes + BytesOf(sent)
    decreases |sent|
  {
    hide Listen, Frame;
    if sent == [] {
      ListenNothing(B, h);
    } else {
      var init, last := sent[..|sent| - 1], sent[|sent| - 1];
      LineHeard(B, h, init);
      ListenConcat(B, h, Line(B, init), Hold(true, last.gap) + Frame(B, last.bits));
      var d := Listen(B, h, Line(B, init));
      ListenConcat(B, d, Hold(true, last.gap), Frame(B, last.bits));
      QuietLine(B, d, last.gap);
      FrameHeard(B, Listen(B, d, Hold(true, last.gap)), last.bits);
      assert BytesOf(sent) == BytesOf(init) + [last.bits];
    }
  }

  lemma ListenNothing(B: Ticks, h: Heard)
    ensures Listen(B, h, []) == h
  {
  }

  // ---- No line is safe below the bound -------------------------------------------------------

  /** A lower bound on the clocks before the eighth data bit is taken. */
  function ToStop(B: Ticks, u: Uart): nat
    requires u.phase != Stop && (u.phase == Data ==> u.index < 8)
  {
    match u.phase
    case Data => u.count + 1 + Samples(7 - u.index, B)
    case Start => u.count + 1 + Samples(8, B)
    case Idle => B / 2 + 2 + Samples(8, B)
  }

  predicate BeforeStop(u: Uart) {
    u.phase != Stop && (u.phase == Data ==> u.index < 8)
  }

  lemma OneClockNearerStop(B: Ticks, h: Heard, level: bool)
    requires BeforeStop(h.u) && ToStop(B, h.u) > 1
    ensures var d := Hear(B, h, level);
      BeforeStop(d.u) && ToStop(B, d.u) >= ToStop(B, h.u) - 1 && d.bytes == h.bytes
  {
    SamplesNext(8, B);
    if h.u.phase == Data && h.u.index < 7 {
      SamplesNext(7 - h.u.index, B);
    }
    SamplesNext(1, B);
    hide Samples;
  }

  lemma {:induction false} NoStopSoon(B: Ticks, h: Heard, levels: seq<bool>)
    requires BeforeStop(h.u) && |levels| < ToStop(B, h.u)
    ensures var d := Listen(B, h, levels);
      BeforeStop(d.u) && ToStop(B, d.u) + |levels| >= ToStop(B, h.u) && d.bytes == h.bytes
    decreases |levels|
  {
    hide Hear, ToStop, BeforeStop;
    if levels != [] {
      var init := levels[..|levels| - 1];
      NoStopSoon(B, h, init);
      OneClockNearerStop(B, Listen(B, h, init), levels[|levels| - 1]);
    }
  }

  /** Heard nothing since `base` that ends with a zero bit: with the line high, every byte
      still to come ends with a one, and there is at most one. */
  predicate AtMostOdd(d: Heard, base: seq<Bits>) {
    match d.u.phase
    case Idle => d.bytes == base || (|d.bytes| == |base| + 1 && d.bytes[..|base|] == base && d.bytes[|base|][7])
    case Start => d.bytes == base
    case Data => d.bytes == base && d.u.index < 8
    case Stop => d.bytes == base && d.u.shift[7]
  }

  lemma {:induction false} HighTail(B: Ticks, h: Heard, base: seq<Bits>, n: nat)
    requires AtMostOdd(h, base)
    ensures AtMostOdd(Listen(B, h, Hold(true, n)), base)
  {
    if n > 0 {
      HighTail(B, h, base, n - 1);
      assert Hold(true, n)[..n - 1] == Hold(true, n - 1);
    }
  }

  lemma {:induction false} ZeroLevels(B: Ticks, k: nat)
    ensures Levels(B, Hold(false, k)) == Hold(false, k * B)
  {
    if k > 0 {
      ZeroLevels(B, k - 1);
      assert Hold(false, k)[..k - 1] == Hold(false, k - 1);
      assert k * B == (k - 1) * B + B;
    }
  }

  lemma ZeroFrame(B: Ticks)
    ensures Frame(B, Hold(false, 8)) == Hold(false, B) + Hold(false, 8 * B) + Hold(true, B)
  {
    hide Levels;
    ZeroLevels(B, 8);
  }

  /** Below 19 clocks the last bits of a zero byte are taken from its stop bit. */
  lemma ZeroMisread(B: Ticks, h: Heard, tail: nat)
    requires h.u.phase == Idle && B <= 18
    ensures Listen(B, h, Frame(B, Hold(false, 8)) + Hold(true, tail)).bytes != h.bytes + [Hold(false, 8)]
  {
    hide Listen, Levels;
    var zeros := Hold(false, B) + Hold(false, 8 * B);
    ZeroFrame(B);
    assert Frame(B, Hold(false, 8)) + Hold(true, tail) == zeros + Hold(true, B + tail);
    ListenConcat(B, h, zeros, Hold(true, B + tail));
    SamplesTotal(8, B);
    NoStopSoon(B, h, zeros);
    HighTail(B, Listen(B, h, zeros), h.bytes, B + tail);
    AtMostOneMore(Listen(B, h, Frame(B, Hold(false, 8)) + Hold(true, tail)), h.bytes);
  }

  lemma AtMostOneMore(d: Heard, base: seq<Bits>)
    requires AtMostOdd(d, base)
    ensures d.bytes != base + [Hold(false, 8)]
    ensures forall x, y: Bits :: d.bytes != base + [x, y]
  {
    assert (base + [Hold(false, 8)])[|base|] == Hold(false, 8);
  }

  /** At 19 and 20 clocks the first of two such bytes is dropped for good. */
  lemma SecondMisread(B: Ticks, h: Heard, tail: nat)
    requires h.u.phase == Idle && (B == 19 || B == 20)
    ensures var zero := Hold(false, 8);
      Listen(B, h, Frame(B, zero) + Frame(B, zero) + Hold(true, tail)).bytes != h.bytes + [zero, zero]
  {
    hide Listen, Levels;
    var zero: Bits := Hold(false, 8);
    var first := Frame(B, zero) + Hold(false, B);
    ZeroFrame(B);
    assert Frame(B, zero) + Frame(B, zero) + Hold(true, tail) == first + Hold(false, 8 * B) + Hold(true, B + tail);
    ListenConcat(B, h, first + Hold(false, 8 * B), Hold(true, B + tail));
    ListenConcat(B, h, first, Hold(false, 8 * B));
    BackToBackDropped(B, h, zero);
    var d := Listen(B, h, first);
    SamplesTotal(7, B);
    NoStopSoon(B, d, Hold(false, 8 * B));
    HighTail(B, Listen(B, d, Hold(false, 8 * B)), h.bytes, B + tail);
    AtMostOneMore(Listen(B, h, Frame(B, zero) + Frame(B, zero) + Hold(true, tail)), h.bytes);
  }

  /** Back-to-back bytes, however long the line then stays idle, are all heard as sent if
      and only if a bit lasts at least 21 clocks. */
  lemma BackToBackExact(B: Ticks, h: Heard, tail: nat)
    requires h.u.phase == Idle
    ensures (forall sent: seq<Timed> | NoGaps(sent) ::
               Listen(B, h, Line(B, sent) + Hold(true, tail)).bytes == h.bytes + BytesOf(sent))
       <==> B >= 21
  {
    hide Listen, Frame;
    var zero: Bits := Hold(false, 8);
    if B >= 21 {
      forall sent: seq<Timed> | NoGaps(sent)
        ensures Listen(B, h, Line(B, sent) + Hold(true, tail)).bytes == h.bytes + BytesOf(sent)
      {
        LineHeard(B, h, sent);
        ListenConcat(B, h, Line(B, sent), Hold(true, tail));
        QuietLine(B, Listen(B, h, Line(B, sent)), tail);
      }
    } else if B <= 18 {
      var sent := [Timed(0, zero)];
      OneFrame(B, zero);
      ZeroMisread(B, h, tail);
      assert BytesOf(sent) == [zero] && NoGaps(sent);
    } else {
      var sent := [Timed(0, zero), Timed(0, zero)];
      TwoFrames(B, zero);
      SecondMisread(B, h, tail);
      assert BytesOf(sent) == [zero, zero] && NoGaps(sent);
    }
  }

  predicate NoGaps(sent: seq<Timed>) {
    forall i :: 0 <= i < |sent| ==> sent[i].gap == 0
  }

  lemma OneFrame(B: Ticks, bits: Bits)
    ensures Line(B, [Timed(0, bits)]) == Frame(B, bits)
  {
    hide Frame;
    assert [Timed(0, bits)][..0] == [];
    assert Hold(true, 0) + Frame(B, bits) == Frame(B, bits);
  }

  lemma TwoFrames(B: Ticks, bits: Bits)
    ensures Line(B, [Timed(0, bits), Timed(0, bits)]) == Frame(B, bits) + Frame(B, bits)
  {
    hide Frame;
    OneFrame(B, bits);
    assert [Timed(0, bits), Timed(0, bits)][..1] == [Timed(0, bits)];
    assert Hold(true, 0) + Frame(B, bits) == Frame(B, bits);
  }
}
