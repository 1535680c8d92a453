/**
 The whole receiver (`midi_rx.v`): synchroniser, serial half and message half clocked
 together, and the round trip from messages on the wire to reported messages.
 */
module MidiReceiver {
  import opened Basics
  import opened MidiUart
  import opened MidiParser

  function Value(s: seq<bool>): (v: nat)
    ensures v < Pow2(|s|)
  {
    if s == [] then 0 else (if s[0] then 1 else 0) + 2 * Value(s[1..])
  }

  function Digits(v: nat, n: nat): (s: seq<bool>)
    ensures |s| == n
  {
    if n == 0 then [] else [v % 2 == 1] + Digits(v / 2, n - 1)
  }

  lemma {:induction false} ValueOfDigits(v: nat, n: nat)
    requires v < Pow2(n)
    ensures Value(Digits(v, n)) == v
  {
    if n > 0 {
      ValueOfDigits(v / 2, n - 1);
      assert Digits(v, n)[1..] == Digits(v / 2, n - 1);
    }
  }

  function ByteOf(s: Bits): Byte {
    assert Pow2(4) == 16;
    Value(s)
  }

  function BitsOf(b: Byte): Bits {
    Digits(b, 8)
  }

  lemma ByteRoundTrip(b: Byte)
    ensures ByteOf(BitsOf(b)) == b
  {
    assert Pow2(4) == 16;
    ValueOfDigits(b, 8);
  }

  // ---- One clock of everything -------------------------------------------------------------

  /** The synchroniser, the two halves, and the messages reported so far. */
  datatype Receiver = Receiver(sync1: bool, sync2: bool, u: Uart, m: Parsed)

  /** All registers sample their neighbours from before the edge. */
  function ClockAll(B: Ticks, r: Receiver, rx: bool): Receiver {
    Receiver(rx, r.sync1, ClockUart(B, r.u, r.sync2),
      if r.u.valid
      then var b := ByteOf(r.u.out); Parsed(Take(r.m.p, b), r.m.messages + Report(r.m.p, b))
      else r.m)
  }

  /** A clock in reset: the synchroniser still samples the line. */
  function ResetAll(r: Receiver, rx: bool): Receiver {
    Receiver(rx, r.sync1, r.u.(phase := Idle, valid := false), Parsed(Reset(), r.m.messages))
  }

  /** Two clocks of reset on an idle line leave the receiver ready from any state. */
  lemma ResetMakesReady(r: Receiver)
    ensures var t := ResetAll(ResetAll(r, true), true);
      t.u.phase == Idle && !t.u.valid && t == Ready(t.u).(m := Parsed(Reset(), r.m.messages))
  {
  }

  function RunAll(B: Ticks, r: Receiver, line: seq<bool>): Receiver
    decreases |line|
  {
    if line == [] then r else ClockAll(B, RunAll(B, r, line[..|line| - 1]), line[|line| - 1])
  }

  /** After reset with the line idle. */
  function Ready(u: Uart): Receiver
    requires u.phase == Idle && !u.valid
  {
    Receiver(true, true, u, Parsed(Reset(), []))
  }

  function Values(bytes: seq<Bits>): (s: seq<Byte>)
    ensures |s| == |bytes| && forall i :: 0 <= i < |s| ==> s[i] == ByteOf(bytes[i])
  {
    seq(|bytes|, i requires 0 <= i < |bytes| => ByteOf(bytes[i]))
  }

  /** What the serial half sees of a line: two clocks late. */
  function Delayed(line: seq<bool>): (s: seq<bool>)
    ensures |s| == |line|
  {
    ([true, true] + line)[..|line|]
  }

  /** Bytes already passed on to the message half: all but one announced just now. */
  function Passed(h: Heard): seq<Bits> {
    if h.u.valid && h.bytes != [] then h.bytes[..|h.bytes| - 1] else h.bytes
  }

  lemma {:induction false} SerialHalfSees(B: Ticks, u: Uart, line: seq<bool>)
    requires u.phase == Idle && !u.valid
    ensures var r := RunAll(B, Ready(u), line);
      && r.u == Listen(B, Heard(u, []), Delayed(line)).u
      && r.sync2 == ([true, true] + line)[|line|] && r.sync1 == ([true, true] + line)[|line| + 1]
    decreases |line|
  {
    hide ClockUart, Take, Report, ByteOf;
    if line != [] {
      var n := |line| - 1;
      SerialHalfSees(B, u, line[..n]);
      assert Delayed(line)[..n] == Delayed(line[..n]);
      assert Delayed(line)[n] == ([true, true] + line[..n])[n];
    }
  }

  lemma {:induction false} LastAnnounced(B: Ticks, u: Uart, levels: seq<bool>)
    requires !u.valid
    ensures var h := Listen(B, Heard(u, []), levels);
      h.u.valid ==> h.bytes != [] && h.bytes[|h.bytes| - 1] == h.u.out
    decreases |levels|
  {
    hide ClockUart;
  }

  lemma HearPasses(B: Ticks, h: Heard, level: bool)
    requires h.u.valid ==> h.bytes != []
    ensures Passed(Hear(B, h, level)) == h.bytes
  {
    hide ClockUart;
  }

  lemma ParseAnnounced(m: Parsed, h: Heard)
    requires h.u.valid && h.bytes != [] && h.bytes[|h.bytes| - 1] == h.u.out
    ensures var p, b := Parse(m, Values(Passed(h))), ByteOf(h.u.out);
      Parse(m, Values(h.bytes)) == Parsed(Take(p.p, b), p.messages + Report(p.p, b))
  {
    hide Take, Report, ByteOf;
    assert Values(h.bytes)[..|h.bytes| - 1] == Values(Passed(h));
  }

  /** The message half has parsed every byte but one announced on the last clock. */
  lemma {:induction false} MessageHalfSees(B: Ticks, u: Uart, line: seq<bool>)
    requires u.phase == Idle && !u.valid
    ensures RunAll(B, Ready(u), line).m
      == Parse(Parsed(Reset(), []), Values(Passed(Listen(B, Heard(u, []), Delayed(line)))))
    decreases |line|
  {
    hide ClockUart, Take, Report, ByteOf, Parse, Hear;
    var start := Parsed(Reset(), []);
    if line == [] {
      ParseNothing(start);
      assert Values([]) == [];
    } else {
      var n := |line| - 1;
      var init := line[..n];
      var h := Listen(B, Heard(u, []), Delayed(init));
      assert Delayed(line)[..n] == Delayed(init);
      MessageHalfSees(B, u, init);
      SerialHalfSees(B, u, init);
      LastAnnounced(B, u, Delayed(init));
      HearPasses(B, h, Delayed(line)[n]);
      if h.u.valid {
        ParseAnnounced(start, h);
      }
    }
  }

  lemma ParseNothing(m: Parsed)
    ensures Parse(m, []) == m
  {
  }

  // ---- The round trip --------------------------------------------------------------------------

  /** Bytes as they are sent, each after some idle clocks. */
  function Wire(bs: seq<Byte>, gaps: seq<nat>): (s: seq<Timed>)
    requires |bs| == |gaps|
    ensures |s| == |bs|
    ensures forall i :: 0 <= i < |s| ==> s[i] == Timed(gaps[i], BitsOf(bs[i]))
  {
    seq(|bs|, i requires 0 <= i < |bs| == |gaps| => Timed(gaps[i], BitsOf(bs[i])))
  }

  lemma WireValues(bs: seq<Byte>, gaps: seq<nat>)
    requires |bs| == |gaps|
    ensures Values(BytesOf(Wire(bs, gaps))) == bs
  {
    hide ByteOf, BitsOf;
    forall i | 0 <= i < |bs|
      ensures ByteOf(BitsOf(bs[i])) == bs[i]
    {
      ByteRoundTrip(bs[i]);
    }
  }

  /** The receiver reports exactly the expected messages of any list of channel messages,
      sent with or without running status, with real-time bytes anywhere and any idle
      gaps, at any bit time of at least 21 clocks. */
  lemma MessagesReceived(B: Ticks, u: Uart, ms: seq<Sent>, bs: seq<Byte>, gaps: seq<nat>, tail: nat)
    requires B >= 21 && tail >= 3 && u.phase == Idle && !u.valid && |bs| == |gaps|
    requires AllPlayable(ms) && WithoutRealTime(bs) == Serialise(ms)
    ensures RunAll(B, Ready(u), Line(B, Wire(bs, gaps)) + Hold(true, tail)).m.messages == ExpectedAll(ms)
  {
    hide Line, Listen, Parse, ByteOf, BitsOf, ExpectedAll, Serialise, WithoutRealTime;
    var sent := Wire(bs, gaps);
    var line := Line(B, sent) + Hold(true, tail);
    var h := Heard(u, []);
    MessageHalfSees(B, u, line);
    assert Delayed(line) == Hold(true, 2) + Line(B, sent) + Hold(true, tail - 2);
    ListenConcat(B, h, Hold(true, 2) + Line(B, sent), Hold(true, tail - 2));
    ListenConcat(B, h, Hold(true, 2), Line(B, sent));
    QuietLine(B, h, 2);
    var ready := Listen(B, h, Hold(true, 2));
    LineHeard(B, ready, sent);
    QuietLine(B, Listen(B, ready, Line(B, sent)), tail - 2);
    assert [] + BytesOf(sent) == BytesOf(sent);
    WireValues(bs, gaps);
    StreamParses(ms, bs);
  }

  // ---- The clocked form ---------------------------------------------------------------------------

  class MidiRx {
    const ticks: Ticks
    var sync1: bool
    var sync2: bool
    var phase: Phase
    var baudCount: nat
    var bitIndex: nat
    var shift: Bits
    var byteValid: bool
    var byteOut: Bits
    var msgState: State
    var statusByte: Byte
    var data1: Byte
    var msgValid: bool
    var msg: Message
    ghost var reported: seq<Message>

    ghost function SerialState(): Uart
      reads this
    {
      Uart(phase, baudCount, bitIndex, shift, byteValid, byteOut)
    }

    ghost function ParserState(): Parser
      reads this
    {
      Parser(msgState, statusByte, data1)
    }

    ghost function State(): Receiver
      reads this
    {
      Receiver(sync1, sync2, SerialState(), Parsed(ParserState(), reported))
    }

    constructor (ticks: Ticks)
      ensures this.ticks == ticks && !msgValid && reported == []
      ensures SerialState().phase == Idle && !SerialState().valid && State() == Ready(SerialState())
    {
      this.ticks := ticks;
      sync1, sync2 := true, true;
      phase, baudCount, bitIndex, byteValid := Idle, 0, 0, false;
      shift, byteOut := Hold(false, 8), Hold(false, 8);
      msgState, statusByte, data1 := Status, 0, 0;
      msgValid, msg, reported := false, NoteOff(0, 0, 0), [];
    }

    method ClockSerial(level: bool)
      modifies this`phase, this`baudCount, this`bitIndex, this`shift, this`byteValid, this`byteOut
      ensures SerialState() == ClockUart(ticks, old(SerialState()), level)
    {
      byteValid := false;
      match phase {
        case Idle =>
          if !level {
            phase, baudCount := Start, ticks / 2;
          }
        case Start =>
          if baudCount == 0 {
            if !level {
              phase, baudCount, bitIndex, shift := Data, ticks, 0, Hold(false, 8);
            } else {
              phase := Idle;
            }
          } else {
            baudCount := baudCount - 1;
          }
        case Data =>
          if baudCount == 0 {
            shift, baudCount := shift[1..] + [level], ticks;
            if bitIndex == 7 {
              phase := Stop;
            }
            bitIndex := bitIndex + 1;
          } else {
            baudCount := baudCount - 1;
          }
        case Stop =>
          if baudCount == 0 {
            byteOut, byteValid, phase := shift, level, Idle;
          } else {
            baudCount := baudCount - 1;
          }
      }
    }

    /** Takes a byte; `msg` and `msgValid` announce a completed message for one clock. */
    method TakeByte(b: Byte)
      modifies this`msgState, this`statusByte, this`data1, this`msgValid, this`msg, this`reported
      ensures ParserState() == Take(old(ParserState()), b)
      ensures reported == old(reported) + Report(old(ParserState()), b)
      ensures msgValid == (reported != old(reported))
      ensures msgValid ==> reported == old(reported) + [msg]
    {
      msgValid := false;
      if b >= 0x80 {
        if b < 0xf0 {
          statusByte, msgState := b, Data1;
        }
      } else {
        match msgState
        case Status => data1, msgState := b, Data2;
        case Data1 => data1, msgState := b, Data2;
        case Data2 =>
          match statusByte / 16 {
            case 9 =>
              msgValid := true;
              msg := if b == 0 then NoteOff(statusByte % 16, data1, 0) else NoteOn(statusByte % 16, data1, b);
            case 8 => msgValid, msg := true, NoteOff(statusByte % 16, data1, b);
            case 11 => msgValid, msg := true, Control(statusByte % 16, data1, b);
            case _ =>
          }
          reported := if msgValid then reported + [msg] else reported;
          msgState := Status;
      }
    }

    method Clock(rst: bool, rx: bool)
      modifies this
      ensures State() == if rst then ResetAll(old(State()), rx) else ClockAll(ticks, old(State()), rx)
      ensures msgValid == (reported != old(reported))
      ensures msgValid ==> reported == old(reported) + [msg]
    {
      hide ClockUart, Take, Report, ByteOf;
      var valid, b, level := byteValid, ByteOf(byteOut), sync2;
      sync2, sync1 := sync1, rx;
      msgValid := false;
      if rst {
        phase, byteValid := Idle, false;
        msgState, statusByte, data1 := Status, 0, 0;
        return;
      }
      ClockSerial(level);
      if valid {
        TakeByte(b);
      }
    }
  }
}
