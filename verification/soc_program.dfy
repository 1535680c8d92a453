/**
 The assembler object (`socgen/asm.py`): calls append words or pending branches, labels
 name byte addresses, and `assemble` resolves every branch.
 */
module SocProgram {
  import opened Basics
  import opened Rv32iPkg
  import Isa = RvIsa
  import Stages = RvStages
  import opened SocWords
  import opened SocFields
  import opened SocAsm

  datatype Entry =
    | Code(word: Word)
    | Pending(equal: bool, rs1: RegIdx, rs2: RegIdx, target: string, at: int)

  type Labels = map<string, int>

  function BranchFunct3(equal: bool): bv3 {
    if equal then 0 else 1
  }

  /** Undefined labels and offsets beyond thirteen signed bits are refused. */
  function ResolveEntry(x: Entry, labels: Labels): Option<Word> {
    match x
    case Code(w) => Some(w)
    case Pending(equal, rs1, rs2, target, at) =>
      if target !in labels || !Signed13(labels[target] - at) then None
      else Some(WordB(ToWord(labels[target] - at), rs2, rs1, BranchFunct3(equal)))
  }

  function ResolveAll(xs: seq<Entry>, labels: Labels): (r: Option<seq<Word>>)
    ensures r.Some? ==> |r.value| == |xs|
    ensures r.Some? ==> forall i :: 0 <= i < |xs| ==> ResolveEntry(xs[i], labels) == Some(r.value[i])
    ensures r.None? ==> exists i :: 0 <= i < |xs| && ResolveEntry(xs[i], labels).None?
    decreases |xs|
  {
    hide ResolveEntry;
    if xs == [] then Some([])
    else
      var n := |xs| - 1;
      var before := ResolveAll(xs[..n], labels);
      var last := ResolveEntry(xs[n], labels);
      assert last.None? ==> ResolveEntry(xs[n], labels).None?;
      assert before.None? ==> exists i :: 0 <= i < n && ResolveEntry(xs[i], labels).None? by {
        if before.None? {
          var i :| 0 <= i < |xs[..n]| && ResolveEntry(xs[..n][i], labels).None?;
          assert ResolveEntry(xs[i], labels).None?;
        }
      }
      if before.None? || last.None? then None else Some(before.value + [last.value])
  }

  /** Branches know their own address; labels name instruction boundaries. */
  ghost predicate Placed(xs: seq<Entry>, labels: Labels) {
    && (forall i :: 0 <= i < |xs| && xs[i].Pending? ==> xs[i].at == 4 * i)
    && (forall l :: l in labels ==> labels[l] % 4 == 0 && 0 <= labels[l] <= 4 * |xs|)
  }

  // ---- Branches -------------------------------------------------------------------------

  lemma FourTimes(k: int)
    ensures ToWord(4 * k) & 1 == 0
  {
    hide ToWord, Plus;
    ToWordSum(2 * k, 2 * k);
    EvenSum(ToWord(2 * k));
  }

  lemma EvenSum(w: Word)
    ensures Plus(w, w) & 1 == 0
  {
  }

  lemma DecodeBranch(w: Word)
    requires (w & 0x7f) as bv7 == 0x63
    ensures Isa.Decode(w) == Isa.Branch(Isa.CondOf(Isa.Funct3(w)), Isa.ImmB(w))
  {
    hide Isa.Funct3, Isa.ImmB, Bit;
  }

  lemma BranchDecodes(offset: int, equal: bool, rs1: RegIdx, rs2: RegIdx)
    requires Signed13(offset) && offset % 4 == 0
    ensures var w := WordB(ToWord(offset), rs2, rs1, BranchFunct3(equal));
      && Isa.Decode(w) == Isa.Branch(if equal then Isa.Eq else Isa.Ne, ToWord(offset))
      && Isa.Rs1(w) == rs1 && Isa.Rs2(w) == rs2
  {
    hide ToWord, WordR, BranchHigh, BranchLow, Isa.Funct3, Isa.ImmB, Isa.Decode, Isa.Rs1, Isa.Rs2;
    var imm, funct3 := ToWord(offset), BranchFunct3(equal);
    SignedFits(offset);
    FourTimes(offset / 4);
    assert 4 * (offset / 4) == offset;
    ImmediateB(imm, rs2, rs1, funct3);
    FieldsR(BranchHigh(imm), rs2, rs1, funct3, BranchLow(imm), 0x63);
    DecodeBranch(WordB(imm, rs2, rs1, funct3));
  }

  /** The hardware reads the same offset from an assembled branch. */
  lemma BranchImmediate(offset: int, equal: bool, rs1: RegIdx, rs2: RegIdx)
    requires Signed13(offset) && offset % 4 == 0
    ensures Stages.ImmediateOf(WordB(ToWord(offset), rs2, rs1, BranchFunct3(equal))) == ToWord(offset)
  {
    hide ToWord, WordR, BranchHigh, BranchLow, Isa.Funct3, Isa.ImmB, Isa.Rs1, Isa.Rs2, Isa.Rd;
    var imm, funct3 := ToWord(offset), BranchFunct3(equal);
    SignedFits(offset);
    FourTimes(offset / 4);
    assert 4 * (offset / 4) == offset;
    ImmediateB(imm, rs2, rs1, funct3);
    FieldsR(BranchHigh(imm), rs2, rs1, funct3, BranchLow(imm), 0x63);
  }

  /** In an assembled program a branch compares the registers it was given and, when
      taken, continues at its label. */
  lemma BranchReaches(xs: seq<Entry>, labels: Labels, i: nat, a: Word, b: Word, c: Isa.Csrs, e: Isa.Env)
    requires Placed(xs, labels) && i < |xs| && xs[i].Pending?
    requires ResolveAll(xs, labels).Some?
    ensures xs[i].target in labels
    ensures var w := ResolveAll(xs, labels).value[i];
      var taken := if xs[i].equal then a == b else a != b;
      && Isa.Rs1(w) == xs[i].rs1 && Isa.Rs2(w) == xs[i].rs2
      && Isa.Execute(w, ToWord(4 * i), a, b, c, e).next
         == if taken then ToWord(labels[xs[i].target]) else PcPlus4(ToWord(4 * i))
  {
    hide ToWord, WordB, Isa.Decode, Isa.Rs1, Isa.Rs2, Plus, PcPlus4, BranchFunct3, Isa.ReadCsr, Isa.UpdateCsr,
      ClearLow2;
    var x := xs[i];
    assert ResolveEntry(x, labels) == Some(ResolveAll(xs, labels).value[i]);
    var offset := labels[x.target] - x.at;
    BranchDecodes(offset, x.equal, x.rs1, x.rs2);
    ToWordSum(4 * i, offset);
  }

  // ---- The object --------------------------------------------------------------------------

  class Assembler {
    var words: seq<Entry>
    var labels: Labels

    ghost predicate Valid()
      reads this
    {
      Placed(words, labels)
    }

    constructor ()
      ensures Valid() && words == [] && labels == map[]
    {
      words, labels := [], map[];
    }

    /** A label names the next instruction; defining it twice is refused. */
    method Define(name: string) returns (ok: bool)
      requires Valid()
      modifies this`labels
      ensures Valid()
      ensures ok == (name !in old(labels))
      ensures labels == if ok then old(labels)[name := 4 * |words|] else old(labels)
    {
      ok := name !in labels;
      if ok {
        labels := labels[name := 4 * |words|];
      }
    }

    method Emit(x: Call) returns (ok: bool)
      requires Valid()
      modifies this`words
      ensures Valid()
      ensures ok == Accepts(x)
      ensures words == if ok then old(words) + [Code(Encode(x))] else old(words)
    {
      hide Encode;
      ok := Accepts(x);
      if ok {
        words := words + [Code(Encode(x))];
      }
    }

    method Branch(equal: bool, rs1: RegIdx, rs2: RegIdx, target: string)
      requires Valid()
      modifies this`words
      ensures Valid()
      ensures words == old(words) + [Pending(equal, rs1, rs2, target, 4 * |old(words)|)]
    {
      words := words + [Pending(equal, rs1, rs2, target, 4 * |words|)];
    }

    method Li(rd: RegIdx, value: int)
      requires Valid()
      modifies this`words
      ensures Valid()
      ensures var calls := LoadConstant(rd, value);
        words == old(words) + seq(|calls|, i requires 0 <= i < |calls| => Code(Encode(calls[i])))
    {
      hide Encode;
      var v := value % TWO32;
      var low, high := v % 4096, v / 4096 % 0x10_0000;
      if low >= 2048 {
        high := (high + 1) % 0x10_0000;
        low := low - 4096;
      }
      var ok;
      if high != 0 {
        ok := Emit(Lui(rd, high));
        if low != 0 {
          ok := Emit(Addi(rd, rd, low));
        }
      } else {
        ok := Emit(Addi(rd, 0, low));
      }
    }

    method Assemble() returns (r: Option<seq<Word>>)
      requires Valid()
      ensures r == ResolveAll(words, labels)
    {
      hide ResolveEntry;
      var out: seq<Word> := [];
      for i := 0 to |words|
        invariant ResolveAll(words[..i], labels) == Some(out)
      {
        var w := ResolveEntry(words[i], labels);
        assert words[..i + 1][..i] == words[..i];
        if w.None? {
          ResolveFails(words, labels, i);
          return None;
        }
        out := out + [w.value];
      }
      assert words[..|words|] == words;
      r := Some(out);
    }
  }

  lemma ResolveFails(xs: seq<Entry>, labels: Labels, i: nat)
    requires i < |xs| && ResolveEntry(xs[i], labels).None?
    ensures ResolveAll(xs, labels).None?
  {
    hide ResolveEntry;
  }
}
