/**
 System messages and the MIDI receiver: their status bytes are discarded wherever they
 appear, but the data of a system-exclusive message is taken for running-status data.
 */
module MidiSystem {
  import opened MidiParser

  /** The bytes below 0xF0: data and channel status. */
  function WithoutSystem(bs: seq<Byte>): seq<Byte>
    decreases |bs|
  {
    if bs == [] then []
    else
      var b := bs[|bs| - 1];
      WithoutSystem(bs[..|bs| - 1]) + (if b >= 0xf0 then [] else [b])
  }

  /** System common and real-time status bytes change nothing wherever they appear. */
  lemma {:induction false} SystemStatusIgnored(m: Parsed, bs: seq<Byte>)
    ensures Parse(m, bs) == Parse(m, WithoutSystem(bs))
    decreases |bs|
  {
    if bs != [] {
      var init, b := bs[..|bs| - 1], bs[|bs| - 1];
      SystemStatusIgnored(m, init);
      if b >= 0xf0 {
        assert WithoutSystem(init) + [] == WithoutSystem(init);
      } else {
        assert (WithoutSystem(init) + [b])[..|WithoutSystem(init)|] == WithoutSystem(init);
      }
    }
  }

  predicate AllData(bs: seq<Byte>) {
    forall i :: 0 <= i < |bs| ==> bs[i] < 0x80
  }

  /** Note Off, Note On and Control Change. */
  predicate Reported(status: Byte) {
    status / 16 == 8 || status / 16 == 9 || status / 16 == 11
  }

  /** Data bytes are taken in pairs, whatever sent them. */
  lemma {:induction false} DataTakenInPairs(m: Parsed, bs: seq<Byte>)
    requires AllData(bs) && m.p.state != Data2
    ensures var n := Parse(m, bs);
      && n.p.status == m.p.status && (n.p.state == Data2 <==> |bs| % 2 == 1)
      && |n.messages| == |m.messages| + (if Reported(m.p.status) then |bs| / 2 else 0)
    decreases |bs|
  {
    if bs != [] {
      DataTakenInPairs(m, bs[..|bs| - 1]);
    }
  }

  /** A system-exclusive message between channel messages is discarded exactly when the
      running status is none the receiver reports, or fewer than two data bytes follow. */
  lemma ExclusiveDiscardedExactly(m: Parsed, data: seq<Byte>)
    requires AllData(data) && m.p.state != Data2
    ensures Parse(m, [0xf0] + data + [0xf7]).messages == m.messages <==> !Reported(m.p.status) || |data| < 2
  {
    SystemStatusIgnored(m, [0xf0] + data + [0xf7]);
    OnlyDataLeft(data);
    DataTakenInPairs(m, data);
    MessagesGrow(m, data);
    hide Parse;
  }

  lemma {:induction false} MessagesGrow(m: Parsed, bs: seq<Byte>)
    ensures var n := Parse(m, bs).messages; |n| >= |m.messages| && n[..|m.messages|] == m.messages
    decreases |bs|
  {
    hide Take, Report;
    if bs != [] {
      MessagesGrow(m, bs[..|bs| - 1]);
    }
  }

  lemma {:induction false} DataKept(bs: seq<Byte>)
    requires AllData(bs)
    ensures WithoutSystem(bs) == bs
    decreases |bs|
  {
    if bs != [] {
      DataKept(bs[..|bs| - 1]);
    }
  }

  lemma {:induction false} WithoutConcat(a: seq<Byte>, b: seq<Byte>)
    ensures WithoutSystem(a + b) == WithoutSystem(a) + WithoutSystem(b)
    decreases |b|
  {
    if b == [] {
      assert a + b == a;
    } else {
      assert (a + b)[..|a + b| - 1] == a + b[..|b| - 1];
      WithoutConcat(a, b[..|b| - 1]);
    }
  }

  lemma OnlyDataLeft(data: seq<Byte>)
    requires AllData(data)
    ensures WithoutSystem([0xf0] + data + [0xf7]) == data
  {
    WithoutConcat([0xf0] + data, [0xf7]);
    WithoutConcat([0xf0], data);
    DataKept(data);
    assert [0xf0][..0] == [] && [0xf7][..0] == [];
    hide AllData;
  }

  /** Before any status byte nothing is reported. */
  lemma NothingBeforeStatus(bs: seq<Byte>)
    requires AllData(WithoutSystem(bs))
    ensures Parse(Parsed(Reset(), []), bs).messages == []
  {
    SystemStatusIgnored(Parsed(Reset(), []), bs);
    DataTakenInPairs(Parsed(Reset(), []), WithoutSystem(bs));
  }

  /** A Note On, then F0 3C 40 F7: the data of the exclusive message is reported as a
      second Note On. */
  lemma ExclusiveMisread()
    ensures Parse(Parsed(Reset(), []), [0x90, 60, 64, 0xf0, 0x3c, 0x40, 0xf7]).messages
         == [NoteOn(0, 60, 64), NoteOn(0, 0x3c, 0x40)]
  {
    hide Parse, WithoutSystem, Complete;
    var m := Parsed(Reset(), []);
    var a, b, c := [0x90], [60, 64], [0x3c, 0x40];
    var bs := [0x90, 60, 64, 0xf0, 0x3c, 0x40, 0xf7];
    assert bs == (a + b) + ([0xf0] + c + [0xf7]);
    WithoutConcat(a + b, [0xf0] + c + [0xf7]);
    OnlyDataLeft(c);
    SystemStatusIgnored(m, bs);
    ChannelKept();
    ParseConcat(m, a + b, c);
    ParseConcat(m, a, b);
    ParseStatus(m, 0x90);
    ParseData2(Parse(m, a), 60, 64);
    ParseData2(Parse(Parse(m, a), b), 0x3c, 0x40);
    NotesComplete();
  }

  lemma NotesComplete()
    ensures Complete(0x90, 60, 64) == [NoteOn(0, 60, 64)] && Complete(0x90, 0x3c, 0x40) == [NoteOn(0, 0x3c, 0x40)]
  {
  }

  lemma ChannelKept()
    ensures WithoutSystem([0x90] + [60, 64]) == [0x90] + [60, 64]
  {
    WithoutConcat([0x90], [60, 64]);
    DataKept([60, 64]);
    assert [0x90][..0] == [];
  }
}
