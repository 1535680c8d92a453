/**
 What the assembler refuses, exactly: immediates that no field can hold, and branches whose
 label is undefined or out of reach; and when a constant takes one word.
 */
module SocRanges {
  import opened Basics
  import opened SocAsm
  import opened SocProgram

  /** `v` is what `k` bits in two's complement can stand for. */
  ghost predicate HeldBy(v: int, k: nat)
    requires k >= 1
  {
    exists f: nat :: f < Pow2(k) && v == SignedField(f, k)
  }

  function SignedField(f: nat, k: nat): int
    requires k >= 1
  {
    if f < Pow2(k - 1) then f else f - Pow2(k)
  }

  lemma HeldExactly(v: int, k: nat)
    requires k >= 1
    ensures HeldBy(v, k) <==> 0 <= v + Pow2(k - 1) < Pow2(k)
  {
    if 0 <= v + Pow2(k - 1) < Pow2(k) {
      var f := if v >= 0 then v else v + Pow2(k);
      assert SignedField(f, k) == v;
    }
  }

  lemma Powers()
    ensures Pow2(11) == 2048 && Pow2(12) == 4096
  {
  }

  /** An instruction is accepted exactly when its field can hold the immediate or the CSR
      number; `lui` cuts its operand off instead. */
  lemma AcceptsExactly(x: Call)
    requires (x.CsrReg? || x.CsrImm?) ==> !x.op.CsrReadOnly?
    ensures Accepts(x) <==>
      match x
      case Addi(_, _, imm) => HeldBy(imm, 12)
      case Andi(_, _, imm) => HeldBy(imm, 12)
      case Sw(_, _, imm) => HeldBy(imm, 12)
      case Lw(_, _, imm) => HeldBy(imm, 12)
      case CsrReg(_, _, csr, _) => 0 <= csr < Pow2(12)
      case CsrImm(_, _, csr, _) => 0 <= csr < Pow2(12)
      case _ => true
  {
    hide HeldBy;
    Powers();
    match x
    case Addi(_, _, imm) => HeldExactly(imm, 12);
    case Andi(_, _, imm) => HeldExactly(imm, 12);
    case Sw(_, _, imm) => HeldExactly(imm, 12);
    case Lw(_, _, imm) => HeldExactly(imm, 12);
    case _ =>
  }

  /** A branch resolves exactly when its label is defined and thirteen bits hold the offset. */
  ghost predicate Resolvable(x: Entry, labels: Labels) {
    x.Pending? ==> x.target in labels && HeldBy(labels[x.target] - x.at, 13)
  }

  lemma ResolvesExactly(xs: seq<Entry>, labels: Labels)
    ensures ResolveAll(xs, labels).Some? <==> forall i :: 0 <= i < |xs| ==> Resolvable(xs[i], labels)
  {
    forall i | 0 <= i < |xs|
      ensures ResolveEntry(xs[i], labels).Some? <==> Resolvable(xs[i], labels)
    {
      EntryResolves(xs[i], labels);
    }
    hide ResolveEntry, Resolvable;
  }

  lemma EntryResolves(x: Entry, labels: Labels)
    ensures ResolveEntry(x, labels).Some? <==> Resolvable(x, labels)
  {
    hide HeldBy;
    Powers();
    if x.Pending? && x.target in labels {
      HeldExactly(labels[x.target] - x.at, 13);
    }
  }

  /** `li` takes one word exactly for what `addi` or `lui` alone can load. */
  lemma LoadsInOneWord(rd: bv5, value: int)
    ensures |LoadConstant(rd, value)| == 1
       <==> var v := value % 0x1_0000_0000; v < 2048 || v >= 0x1_0000_0000 - 2048 || v % 4096 == 0
  {
  }
}
