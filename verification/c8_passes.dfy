/**
 The assembler's passes as the program runs them: loops that fill in the address and word
 of each line object and build the two dictionaries.
 */
module C8Passes {
  import opened Basics
  import opened C8Sim
  import opened C8Asm

  class Line {
    const src: Source
    var addr: int
    var word: Option<Word>

    constructor (src: Source)
      ensures this.src == src && addr == 0 && word == None
    {
      this.src, addr, word := src, 0, None;
    }
  }

  ghost predicate Distinct(lines: seq<Line>) {
    forall i, j :: 0 <= i < j < |lines| ==> lines[i] != lines[j]
  }

  ghost function Sources(lines: seq<Line>): (p: seq<Source>)
    ensures |p| == |lines|
    ensures forall i :: 0 <= i < |p| ==> p[i] == lines[i].src
  {
    seq(|lines|, i requires 0 <= i < |lines| => lines[i].src)
  }

  lemma {:induction false} LayOutFails(p: seq<Source>, n: nat)
    requires n <= |p| && LayOut(p[..n]).Err?
    ensures LayOut(p) == LayOut(p[..n])
    decreases |p|
  {
    hide LayLine;
    if n < |p| {
      assert p[..|p| - 1][..n] == p[..n];
      LayOutFails(p[..|p| - 1], n);
    } else {
      assert p[..n] == p;
    }
  }

  lemma LayOutNext(p: seq<Source>, i: nat)
    requires i < |p| && LayOut(p[..i]).Ok?
    ensures LayOut(p[..i + 1]) == LayLine(p[i], LayOut(p[..i]).value)
  {
    hide LayLine;
    assert p[..i + 1][..i] == p[..i];
  }

  lemma LayOutNone()
    ensures LayOut([]) == Ok(Layout(0, map[], []))
  {
  }

  /** One line of the first pass; `addrs` are the addresses given so far. */
  method LayOne(ln: Line, pc: int, labels: Labels, ghost addrs: seq<int>)
      returns (failure: Option<Error>, nextPc: int, nextLabels: Labels)
    modifies ln`addr
    ensures match LayLine(ln.src, Layout(pc, labels, addrs))
      case Err(e) => failure == Some(e)
      case Ok(y) => failure == None && y == Layout(nextPc, nextLabels, addrs + [ln.addr])
  {
    failure, nextPc, nextLabels := None, pc, labels;
    ln.addr := pc;
    if ln.src.name.Some? {
      if ln.src.name.value in labels {
        return Some(Duplicate(ln.src.no)), pc, labels;
      }
      nextLabels := labels[ln.src.name.value := pc];
    }
    if ln.src.stmt.Some? {
      if ln.src.stmt.value.Org? {
        if ln.src.stmt.value.at.None? {
          return Some(Invalid(ln.src.no)), pc, labels;
        }
        nextPc := ln.src.stmt.value.at.value;
        ln.addr := nextPc;
      } else {
        nextPc := pc + 1;
      }
    }
  }

  /** Gives every line its address and collects the labels. */
  method FirstPass(lines: seq<Line>) returns (r: Result<Labels>)
    requires Distinct(lines)
    modifies lines
    ensures forall l :: l in lines ==> l.word == old(l.word)
    ensures match LayOut(Sources(lines))
      case Err(e) => r == Err(e)
      case Ok(y) => r == Ok(y.labels) && forall i :: 0 <= i < |lines| ==> lines[i].addr == y.addrs[i]
  {
    hide LayLine, LayOut;
    ghost var p := Sources(lines);
    var pc, labels := 0, map[];
    ghost var addrs: seq<int> := [];
    LayOutNone();
    assert p[..0] == [];
    for i := 0 to |lines|
      invariant LayOut(p[..i]) == Ok(Layout(pc, labels, addrs))
      invariant |addrs| == i && forall j :: 0 <= j < i ==> lines[j].addr == addrs[j]
      invariant forall l :: l in lines ==> l.word == old(l.word)
    {
      LayOutNext(p, i);
      var failure, nextPc, nextLabels := LayOne(lines[i], pc, labels, addrs);
      if failure.Some? {
        LayOutFails(p, i + 1);
        return Err(failure.value);
      }
      addrs := addrs + [lines[i].addr];
      pc, labels := nextPc, nextLabels;
    }
    assert p[..|lines|] == p;
    r := Ok(labels);
  }

  // ---- Second pass -----------------------------------------------------------------------

  lemma {:induction false} EncodeFails(p: seq<Source>, addrs: seq<int>, labels: Labels, n: nat)
    requires n <= |p| == |addrs| && EncodeAll(p[..n], addrs[..n], labels).Err?
    ensures EncodeAll(p, addrs, labels) == EncodeAll(p[..n], addrs[..n], labels)
    decreases |p|
  {
    hide Encode;
    if n < |p| {
      var k := |p| - 1;
      assert p[..k][..n] == p[..n] && addrs[..k][..n] == addrs[..n];
      EncodeFails(p[..k], addrs[..k], labels, n);
    } else {
      assert p[..n] == p && addrs[..n] == addrs;
    }
  }

  lemma EncodeNext(p: seq<Source>, addrs: seq<int>, labels: Labels, i: nat)
    requires i < |p| == |addrs| && EncodeAll(p[..i], addrs[..i], labels).Ok?
    ensures var codes := EncodeAll(p[..i], addrs[..i], labels).value;
      EncodeAll(p[..i + 1], addrs[..i + 1], labels)
      == match Encode(p[i], addrs[i], labels) case Ok(w) => Ok(codes + [w]) case Err(e) => Err(e)
  {
    hide Encode;
    assert p[..i + 1][..i] == p[..i] && addrs[..i + 1][..i] == addrs[..i];
  }

  ghost function Addrs(lines: seq<Line>): (a: seq<int>)
    reads lines
    ensures |a| == |lines| && forall i :: 0 <= i < |a| ==> a[i] == lines[i].addr
  {
    seq(|lines|, i requires 0 <= i < |lines| reads lines => lines[i].addr)
  }

  lemma EncodeNone(labels: Labels)
    ensures EncodeAll([], [], labels) == Ok([])
  {
  }

  /** Fills in the words; a line without one keeps the `None` it was created with. */
  method SecondPass(lines: seq<Line>, labels: Labels) returns (failure: Option<Error>)
    requires Distinct(lines) && forall l :: l in lines ==> l.word == None
    modifies lines
    ensures Addrs(lines) == old(Addrs(lines))
    ensures match EncodeAll(Sources(lines), Addrs(lines), labels)
      case Err(e) => failure == Some(e)
      case Ok(codes) => failure == None && forall i :: 0 <= i < |lines| ==> lines[i].word == codes[i]
  {
    hide Encode, EncodeAll;
    ghost var p, addrs := Sources(lines), Addrs(lines);
    ghost var codes: seq<Option<Word>> := [];
    EncodeNone(labels);
    assert p[..0] == [] && addrs[..0] == [];
    for i := 0 to |lines|
      invariant forall j :: 0 <= j < |lines| ==> lines[j].addr == addrs[j]
      invariant EncodeAll(p[..i], addrs[..i], labels) == Ok(codes)
      invariant |codes| == i && forall j :: 0 <= j < i ==> lines[j].word == codes[j]
      invariant forall j :: i <= j < |lines| ==> lines[j].word == None
    {
      var ln := lines[i];
      EncodeNext(p, addrs, labels, i);
      match Encode(ln.src, ln.addr, labels) {
        case Err(e) =>
          EncodeFails(p, addrs, labels, i + 1);
          assert Addrs(lines) == addrs;
          return Some(e);
        case Ok(w) =>
          if w.Some? {
            ln.word := w;
          }
          codes := codes + [w];
      }
    }
    assert Addrs(lines) == addrs;
    assert p[..|lines|] == p && addrs[..|lines|] == addrs;
    failure := None;
  }

  // ---- Placement ----------------------------------------------------------------------------

  lemma {:induction false} PlaceFails(p: seq<Source>, addrs: seq<int>, codes: seq<Option<Word>>, n: nat)
    requires n <= |p| == |addrs| == |codes| && Place(p[..n], addrs[..n], codes[..n]).Err?
    ensures Place(p, addrs, codes) == Place(p[..n], addrs[..n], codes[..n])
    decreases |p|
  {
    if n < |p| {
      var k := |p| - 1;
      assert p[..k][..n] == p[..n] && addrs[..k][..n] == addrs[..n] && codes[..k][..n] == codes[..n];
      PlaceFails(p[..k], addrs[..k], codes[..k], n);
    } else {
      assert p[..n] == p && addrs[..n] == addrs && codes[..n] == codes;
    }
  }

  lemma PlaceNext(p: seq<Source>, addrs: seq<int>, codes: seq<Option<Word>>, i: nat)
    requires i < |p| == |addrs| == |codes| && Place(p[..i], addrs[..i], codes[..i]).Ok?
    ensures var next := Place(p[..i + 1], addrs[..i + 1], codes[..i + 1]);
      && (codes[i].None? ==> next == Place(p[..i], addrs[..i], codes[..i]))
      && (codes[i].Some? && addrs[i] > 255 ==> next == Err(BeyondRom(p[i].no)))
      && (codes[i].Some? && addrs[i] <= 255 ==>
           next == Ok(Place(p[..i], addrs[..i], codes[..i]).value[addrs[i] := codes[i].value]))
  {
    assert p[..i + 1][..i] == p[..i] && addrs[..i + 1][..i] == addrs[..i] && codes[..i + 1][..i] == codes[..i];
  }

  ghost function Codes(lines: seq<Line>): (c: seq<Option<Word>>)
    reads lines
    ensures |c| == |lines| && forall i :: 0 <= i < |c| ==> c[i] == lines[i].word
  {
    seq(|lines|, i requires 0 <= i < |lines| reads lines => lines[i].word)
  }

  /** Collects the words by address. */
  method PlaceWords(lines: seq<Line>) returns (r: Result<map<int, Word>>)
    ensures r == Place(Sources(lines), Addrs(lines), Codes(lines))
  {
    hide Place;
    ghost var p, addrs, codes := Sources(lines), Addrs(lines), Codes(lines);
    var words: map<int, Word> := map[];
    PlaceNone();
    assert p[..0] == [] && addrs[..0] == [] && codes[..0] == [];
    for i := 0 to |lines|
      invariant Place(p[..i], addrs[..i], codes[..i]) == Ok(words)
    {
      PlaceNext(p, addrs, codes, i);
      var ln := lines[i];
      if ln.word.Some? {
        if ln.addr > 255 {
          PlaceFails(p, addrs, codes, i + 1);
          return Err(BeyondRom(ln.src.no));
        }
        words := words[ln.addr := ln.word.value];
      }
    }
    assert p[..|p|] == p && addrs[..|p|] == addrs && codes[..|p|] == codes;
    r := Ok(words);
  }

  lemma PlaceNone()
    ensures Place([], [], []) == Ok(map[])
  {
  }

  /** The whole assembler on freshly tokenised lines. */
  method AssembleLines(lines: seq<Line>) returns (r: Result<Assembled>)
    requires Distinct(lines) && forall l :: l in lines ==> l.word == None
    modifies lines
    ensures r == Assemble(Sources(lines))
  {
    hide LayOut, EncodeAll, Place;
    ghost var p := Sources(lines);
    var first := FirstPass(lines);
    if first.Err? {
      return Err(first.error);
    }
    var labels := first.value;
    assert Addrs(lines) == LayOut(p).value.addrs;
    var failure := SecondPass(lines, labels);
    if failure.Some? {
      return Err(failure.value);
    }
    assert Codes(lines) == EncodeAll(p, Addrs(lines), labels).value;
    var placed := PlaceWords(lines);
    match placed {
      case Err(e) => return Err(e);
      case Ok(words) => return Ok(Assembled(words, labels));
    }
  }
}
