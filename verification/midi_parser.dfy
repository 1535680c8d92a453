/**
 The message half of the MIDI receiver (`midi_rx.v`): status bytes, running status and
 the three messages it reports.
 */
module MidiParser {

  type Byte = n: nat | n < 256

  datatype State = Status | Data1 | Data2

  datatype Message = NoteOn(ch: nat, note: Byte, velocity: Byte)
                   | NoteOff(ch: nat, note: Byte, velocity: Byte)
                   | Control(ch: nat, number: Byte, value: Byte)

  datatype Parser = Parser(state: State, status: Byte, data1: Byte)

  function Reset(): Parser {
    Parser(Status, 0, 0)
  }

  /** The message completed by its second data byte, if the status is one it reports. */
  function Complete(status: Byte, data1: Byte, data2: Byte): seq<Message> {
    var ch := status % 16;
    match status / 16
    case 9 => if data2 == 0 then [NoteOff(ch, data1, 0)] else [NoteOn(ch, data1, data2)]
    case 8 => [NoteOff(ch, data1, data2)]
    case 11 => [Control(ch, data1, data2)]
    case _ => []
  }

  function Take(p: Parser, b: Byte): Parser {
    if b >= 0x80 then (if b < 0xf0 then p.(status := b, state := Data1) else p)
    else if p.state == Data2 then p.(state := Status)
    else p.(data1 := b, state := Data2)
  }

  function Report(p: Parser, b: Byte): seq<Message> {
    if b < 0x80 && p.state == Data2 then Complete(p.status, p.data1, b) else []
  }

  datatype Parsed = Parsed(p: Parser, messages: seq<Message>)

  function Parse(m: Parsed, bs: seq<Byte>): Parsed
    decreases |bs|
  {
    if bs == [] then m
    else
      var before := Parse(m, bs[..|bs| - 1]);
      var b := bs[|bs| - 1];
      Parsed(Take(before.p, b), before.messages + Report(before.p, b))
  }

  lemma {:induction false} ParseConcat(m: Parsed, a: seq<Byte>, b: seq<Byte>)
    ensures Parse(m, a + b) == Parse(Parse(m, a), b)
    decreases |b|
  {
    hide Take, Report;
    if b == [] {
      assert a + b == a;
    } else {
      var c := b[..|b| - 1];
      assert (a + b)[..|a + b| - 1] == a + c;
      ParseConcat(m, a, c);
    }
  }

  // ---- Sending ---------------------------------------------------------------------------

  /** A channel message as a player means it. */
  datatype Event =
    | On(ch: nat, note: Byte, velocity: Byte)
    | Off(ch: nat, note: Byte, velocity: Byte)
    | Change(ch: nat, number: Byte, value: Byte)
    | KeyPressure(ch: nat, note: Byte, value: Byte)
    | PitchBend(ch: nat, low: Byte, high: Byte)
    | Program(ch: nat, number: Byte)
    | ChannelPressure(ch: nat, value: Byte)

  /** The data bytes; program change and channel pressure have one, the others two. */
  function DataOf(x: Event): (s: seq<Byte>)
    ensures 1 <= |s| <= 2
  {
    match x
    case On(_, note, velocity) => [note, velocity]
    case Off(_, note, velocity) => [note, velocity]
    case Change(_, number, value) => [number, value]
    case KeyPressure(_, note, value) => [note, value]
    case PitchBend(_, low, high) => [low, high]
    case Program(_, number) => [number]
    case ChannelPressure(_, value) => [value]
  }

  predicate Playable(x: Event) {
    x.ch < 16 && forall i :: 0 <= i < |DataOf(x)| ==> DataOf(x)[i] < 0x80
  }

  function StatusOf(x: Event): Byte
    requires Playable(x)
  {
    x.ch + match x
      case On(_, _, _) => 0x90
      case Off(_, _, _) => 0x80
      case Change(_, _, _) => 0xb0
      case KeyPressure(_, _, _) => 0xa0
      case PitchBend(_, _, _) => 0xe0
      case Program(_, _) => 0xc0
      case ChannelPressure(_, _) => 0xd0
  }

  /** What the receiver should report for it. */
  function Expected(x: Event): seq<Message> {
    match x
    case On(ch, note, velocity) => if velocity == 0 then [NoteOff(ch, note, 0)] else [NoteOn(ch, note, velocity)]
    case Off(ch, note, velocity) => [NoteOff(ch, note, velocity)]
    case Change(ch, number, value) => [Control(ch, number, value)]
    case _ => []
  }

  /** An event and whether its status byte is sent where it could be left out. */
  datatype Sent = Sent(event: Event, explicit: bool)

  ghost predicate AllPlayable(ms: seq<Sent>) {
    forall x :: x in ms ==> Playable(x.event)
  }

  function LastStatus(ms: seq<Sent>): Byte
    requires AllPlayable(ms)
  {
    if ms == [] then 0 else StatusOf(ms[|ms| - 1].event)
  }

  /** Running status: a status byte equal to the last one may be omitted. */
  function Serialise(ms: seq<Sent>): seq<Byte>
    requires AllPlayable(ms)
    decreases |ms|
  {
    if ms == [] then []
    else
      var init, m := ms[..|ms| - 1], ms[|ms| - 1];
      var status := StatusOf(m.event);
      Serialise(init) +
      (if m.explicit || LastStatus(init) != status then [status] + DataOf(m.event) else DataOf(m.event))
  }

  function ExpectedAll(ms: seq<Sent>): seq<Message>
    decreases |ms|
  {
    if ms == [] then [] else ExpectedAll(ms[..|ms| - 1]) + Expected(ms[|ms| - 1].event)
  }

  /** The bytes that are not real-time messages. */
  function WithoutRealTime(bs: seq<Byte>): seq<Byte>
    decreases |bs|
  {
    if bs == [] then []
    else
      var b := bs[|bs| - 1];
      WithoutRealTime(bs[..|bs| - 1]) + (if b >= 0xf8 then [] else [b])
  }

  lemma {:induction false} RealTimeIgnored(m: Parsed, bs: seq<Byte>)
    ensures Parse(m, bs) == Parse(m, WithoutRealTime(bs))
    decreases |bs|
  {
    if bs != [] {
      var init, b := bs[..|bs| - 1], bs[|bs| - 1];
      RealTimeIgnored(m, init);
      if b >= 0xf8 {
        assert WithoutRealTime(init) + [] == WithoutRealTime(init);
      } else {
        assert (WithoutRealTime(init) + [b])[..|WithoutRealTime(init)|] == WithoutRealTime(init);
      }
    }
  }

  predicate TwoBytes(status: Byte) {
    status / 16 != 12 && status / 16 != 13
  }

  /** Between messages the parser holds the last status, and for two-byte messages is
      ready for a first data byte. */
  predicate Between(p: Parser, last: Byte) {
    && p.status == last
    && (0x80 <= last && TwoBytes(last) ==> p.state == Status)
  }

  lemma ParseOne(m: Parsed, b: Byte)
    ensures Parse(m, [b]) == Parsed(Take(m.p, b), m.messages + Report(m.p, b))
  {
    hide Take, Report;
    assert [b][..0] == [];
  }

  lemma ParseData2(m: Parsed, a: Byte, b: Byte)
    requires a < 0x80 && b < 0x80 && m.p.state != Data2
    ensures var n := Parse(m, [a, b]);
      n.p == Parser(Status, m.p.status, a) && n.messages == m.messages + Complete(m.p.status, a, b)
  {
    hide Complete, Parse;
    assert [a, b] == [a] + [b];
    ParseConcat(m, [a], [b]);
    ParseOne(m, a);
    ParseOne(Parse(m, [a]), b);
  }

  lemma ParseData1(m: Parsed, a: Byte)
    requires a < 0x80 && m.p.status / 16 != 8 && m.p.status / 16 != 9 && m.p.status / 16 != 11
    ensures var n := Parse(m, [a]);
      n.p.status == m.p.status && n.messages == m.messages
  {
    hide Parse;
    ParseOne(m, a);
  }

  lemma ParseStatus(m: Parsed, s: Byte)
    requires 0x80 <= s < 0xf0
    ensures Parse(m, [s]) == Parsed(m.p.(status := s, state := Data1), m.messages)
  {
    hide Parse;
    ParseOne(m, s);
  }

  lemma StatusMeans(x: Event)
    requires Playable(x)
    ensures 0x80 <= StatusOf(x) < 0xf0
    ensures |DataOf(x)| == 2 <==> TwoBytes(StatusOf(x))
    ensures |DataOf(x)| == 2 ==> Complete(StatusOf(x), DataOf(x)[0], DataOf(x)[1]) == Expected(x)
    ensures |DataOf(x)| == 1 ==> Expected(x) == []
  {
  }

  lemma EventParsed(m: Parsed, x: Event)
    requires Playable(x) && m.p.status == StatusOf(x)
    requires |DataOf(x)| == 2 ==> m.p.state != Data2
    ensures var n := Parse(m, DataOf(x));
      Between(n.p, StatusOf(x)) && n.messages == m.messages + Expected(x)
  {
    hide Complete, Parse, StatusOf, DataOf, Expected;
    StatusMeans(x);
    var d := DataOf(x);
    if |d| == 2 {
      ParseData2(m, d[0], d[1]);
      assert d == [d[0], d[1]];
    } else {
      ParseData1(m, d[0]);
      assert d == [d[0]];
    }
  }

  lemma {:induction false} SerialisedParses(ms: seq<Sent>)
    requires AllPlayable(ms)
    ensures var n := Parse(Parsed(Reset(), []), Serialise(ms));
      Between(n.p, LastStatus(ms)) && n.messages == ExpectedAll(ms)
    decreases |ms|
  {
    hide StatusOf, DataOf, Expected, Take, Report;
    if ms != [] {
      var init, x := ms[..|ms| - 1], ms[|ms| - 1];
      var start := Parsed(Reset(), []);
      var status, data := StatusOf(x.event), DataOf(x.event);
      SerialisedParses(init);
      StatusMeans(x.event);
      var m := Parse(start, Serialise(init));
      if x.explicit || LastStatus(init) != status {
        ParseConcat(start, Serialise(init), [status] + data);
        ParseConcat(m, [status], data);
        ParseStatus(m, status);
        EventParsed(Parse(m, [status]), x.event);
      } else {
        ParseConcat(start, Serialise(init), data);
        EventParsed(m, x.event);
      }
    }
  }

  /** Any channel messages, with or without running status and with real-time bytes
      anywhere, even inside a message, are reported as exactly the Note On, Note Off and
      Control Change among them, a velocity of zero as Note Off. */
  lemma StreamParses(ms: seq<Sent>, bs: seq<Byte>)
    requires AllPlayable(ms) && WithoutRealTime(bs) == Serialise(ms)
    ensures Parse(Parsed(Reset(), []), bs).messages == ExpectedAll(ms)
  {
    RealTimeIgnored(Parsed(Reset(), []), bs);
    SerialisedParses(ms);
  }
}
