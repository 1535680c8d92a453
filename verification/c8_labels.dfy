/**
 What the first pass of the C8 assembler means: the address of every line, the value of
 every label, and where a jump to a label lands.
 */
module C8Labels {
  import opened Basics
  import opened C8Sim
  import opened C8Asm

  predicate Placing(l: Source) {
    l.stmt.Some? && l.stmt.value.Org?
  }

  /** The address counted before line `i`: a line that emits a word moves on by one. */
  function Before(p: seq<Source>, addrs: seq<int>, i: nat): int
    requires i <= |p| == |addrs|
  {
    if i == 0 then 0
    else if p[i - 1].stmt.None? || Placing(p[i - 1]) then addrs[i - 1]
    else addrs[i - 1] + 1
  }

  /** `.ORG` takes the address it names, every other line the one counted before it. */
  predicate Addressed(p: seq<Source>, addrs: seq<int>) {
    |p| == |addrs| &&
    forall i :: 0 <= i < |p| ==>
      if Placing(p[i]) then p[i].stmt.value.at == Some(addrs[i]) else addrs[i] == Before(p, addrs, i)
  }

  predicate Named(p: seq<Source>, i: nat, s: string)
    requires i < |p|
  {
    p[i].name == Some(s)
  }

  /** The keys are exactly the names, and each stands for the address counted before its
      line, which is the line's own unless it is a `.ORG`. */
  ghost predicate LabelsStand(p: seq<Source>, addrs: seq<int>, labels: Labels)
    requires |p| == |addrs|
  {
    && (forall s :: s in labels ==> exists i :: 0 <= i < |p| && Named(p, i, s))
    && (forall i, s :: 0 <= i < |p| && Named(p, i, s) ==> s in labels && labels[s] == Before(p, addrs, i))
  }

  ghost predicate NamesDiffer(p: seq<Source>) {
    forall i, j, s :: 0 <= i < j < |p| && Named(p, i, s) ==> !Named(p, j, s)
  }

  predicate PlacesSomewhere(p: seq<Source>) {
    forall i :: 0 <= i < |p| && Placing(p[i]) ==> p[i].stmt.value.at.Some?
  }

  lemma BeforePrefix(p: seq<Source>, addrs: seq<int>, n: nat, i: nat)
    requires i <= n <= |p| == |addrs|
    ensures Before(p[..n], addrs[..n], i) == Before(p, addrs, i)
  {
  }

  lemma LineAdds(p: seq<Source>, y: Layout, z: Layout)
    requires p != [] && |y.addrs| == |p| - 1 && LayLine(p[|p| - 1], y) == Ok(z)
    requires y.pc == Before(p[..|p| - 1], y.addrs, |p| - 1)
    ensures |z.addrs| == |p| && z.addrs[..|p| - 1] == y.addrs
    ensures Before(p, z.addrs, |p| - 1) == y.pc && z.pc == Before(p, z.addrs, |p|)
    ensures var l, a := p[|p| - 1], z.addrs[|p| - 1];
      if Placing(l) then l.stmt.value.at == Some(a) else a == y.pc
  {
    assert z.addrs[..|p| - 1] == y.addrs;
    BeforePrefix(p, z.addrs, |p| - 1, |p| - 1);
  }

  /** The addresses of every program that gets through the first pass. */
  lemma {:induction false} AddressesExact(p: seq<Source>)
    requires LayOut(p).Ok?
    ensures var y := LayOut(p).value; Addressed(p, y.addrs) && y.pc == Before(p, y.addrs, |p|)
    decreases |p|
  {
    hide LayLine, Before, Placing;
    if p == [] {
      FirstAddress();
    } else {
      var n := |p| - 1;
      var y, z := LayOut(p[..n]).value, LayOut(p).value;
      AddressesExact(p[..n]);
      LineAdds(p, y, z);
      forall i | 0 <= i < n
        ensures Before(p[..n], y.addrs, i) == Before(p, z.addrs, i)
        ensures p[..n][i] == p[i] && y.addrs[i] == z.addrs[i]
      {
        BeforePrefix(p, z.addrs, n, i);
        assert z.addrs[..n][i] == z.addrs[i];
      }
    }
  }

  lemma FirstAddress()
    ensures Before([], [], 0) == 0
  {
  }

  lemma LineNames(l: Source, y: Layout, z: Layout)
    requires LayLine(l, y) == Ok(z)
    ensures l.name.None? ==> z.labels == y.labels
    ensures l.name.Some? ==> l.name.value !in y.labels && z.labels == y.labels[l.name.value := y.pc]
  {
  }

  /** Every label stands for the address counted before the line that bears it. */
  lemma {:induction false} LabelsExact(p: seq<Source>)
    requires LayOut(p).Ok?
    ensures LabelsStand(p, LayOut(p).value.addrs, LayOut(p).value.labels)
    decreases |p|
  {
    hide LayLine, Before, Addressed;
    if p != [] {
      var n := |p| - 1;
      var y, z := LayOut(p[..n]).value, LayOut(p).value;
      LabelsExact(p[..n]);
      AddressesExact(p[..n]);
      LineAdds(p, y, z);
      LineNames(p[n], y, z);
      forall i, s | 0 <= i < |p| && Named(p, i, s)
        ensures s in z.labels && z.labels[s] == Before(p, z.addrs, i)
      {
        if i < n {
          assert Named(p[..n], i, s);
          BeforePrefix(p, z.addrs, n, i);
        }
      }
      forall s | s in z.labels
        ensures exists i :: 0 <= i < |p| && Named(p, i, s)
      {
        if s in y.labels {
          var i :| 0 <= i < n && Named(p[..n], i, s);
          assert Named(p, i, s);
        } else {
          assert Named(p, n, s);
        }
      }
    }
  }

  /** The first pass succeeds exactly on distinct names and `.ORG` lines that name an
      address. */
  lemma {:induction false} FirstPassSucceeds(p: seq<Source>)
    ensures LayOut(p).Ok? <==> NamesDiffer(p) && PlacesSomewhere(p)
    decreases |p|
  {
    hide Before;
    if p != [] {
      var n := |p| - 1;
      FirstPassSucceeds(p[..n]);
      if LayOut(p[..n]).Err? {
        PrefixFails(p);
      } else {
        LabelsExact(p[..n]);
        LastLineFits(p, LayOut(p[..n]).value);
      }
    }
  }

  /** A failure is that of the first bad line: a name already taken, or a `.ORG` without an
      address. */
  lemma {:induction false} FirstPassFails(p: seq<Source>)
    requires LayOut(p).Err?
    ensures exists i ::
      && 0 <= i < |p| && LayOut(p[..i]).Ok?
      && LayOut(p) == Err(if p[i].name.Some? && p[i].name.value in LayOut(p[..i]).value.labels
                          then Duplicate(p[i].no) else Invalid(p[i].no))
    decreases |p|
  {
    var n := |p| - 1;
    if LayOut(p[..n]).Err? {
      FirstPassFails(p[..n]);
      var i :| 0 <= i < n && LayOut(p[..n][..i]).Ok?
        && LayOut(p[..n]) == Err(if p[..n][i].name.Some? && p[..n][i].name.value in LayOut(p[..n][..i]).value.labels
                                 then Duplicate(p[..n][i].no) else Invalid(p[..n][i].no));
      assert p[..n][..i] == p[..i];
    } else {
      assert (p[n].name.Some? && p[n].name.value in LayOut(p[..n]).value.labels) || Placing(p[n]);
    }
  }

  lemma PrefixFails(p: seq<Source>)
    requires p != [] && !(NamesDiffer(p[..|p| - 1]) && PlacesSomewhere(p[..|p| - 1]))
    ensures !(NamesDiffer(p) && PlacesSomewhere(p))
  {
    var q := p[..|p| - 1];
    if !NamesDiffer(q) {
      var i, j, s :| 0 <= i < j < |q| && Named(q, i, s) && Named(q, j, s);
      assert Named(p, i, s) && Named(p, j, s);
    } else {
      var i :| 0 <= i < |q| && Placing(q[i]) && q[i].stmt.value.at.None?;
      assert p[i] == q[i];
    }
  }

  lemma LastLineFits(p: seq<Source>, y: Layout)
    requires p != [] && |y.addrs| == |p| - 1 && LabelsStand(p[..|p| - 1], y.addrs, y.labels)
    requires NamesDiffer(p[..|p| - 1]) && PlacesSomewhere(p[..|p| - 1])
    ensures LayLine(p[|p| - 1], y).Ok? <==> NamesDiffer(p) && PlacesSomewhere(p)
  {
    hide Before;
    var n, q := |p| - 1, p[..|p| - 1];
    var l := p[n];
    if l.name.Some? && l.name.value in y.labels {
      var i :| 0 <= i < n && Named(q, i, l.name.value);
      assert Named(p, i, l.name.value) && Named(p, n, l.name.value);
    } else {
      forall i, j, s | 0 <= i < j < |p| && Named(p, i, s)
        ensures !Named(p, j, s)
      {
        assert Named(q, i, s);
        if j < n {
          assert Named(q, j, s) == Named(p, j, s);
        }
      }
      if !Placing(l) || l.stmt.value.at.Some? {
        forall i | 0 <= i < |p| && Placing(p[i])
          ensures p[i].stmt.value.at.Some?
        {
          assert i < n ==> q[i] == p[i];
        }
      }
    }
  }

  // ---- Jumps to labels ---------------------------------------------------------------------

  /** Line `i` bears the label that the token names; the token may also read as a number. */
  predicate Refers(t: Token, p: seq<Source>, i: nat)
    requires i < |p|
  {
    Named(p, i, t.text)
  }

  /** The statement placed at the program counter. */
  predicate Executes(p: seq<Source>, c: Cpu, stmt: Stmt)
    requires LayOut(p).Ok?
  {
    var l := LineAt(p, LayOut(p).value.addrs, c.pc);
    !c.halted && l.Some? && l.value.stmt == Some(stmt)
  }

  function AddressOfLine(p: seq<Source>, i: nat): Byte
    requires LayOut(p).Ok? && i < |p|
  {
    LayOut(p).value.addrs[i] % 256
  }

  lemma LabelValue(p: seq<Source>, t: Token, i: nat)
    requires LayOut(p).Ok? && i < |p| && !Placing(p[i]) && Refers(t, p, i)
    ensures Operand(t, LayOut(p).value.labels) == AddressOfLine(p, i)
  {
    hide LayOut, Before;
    AddressesExact(p);
    LabelsExact(p);
  }

  /** In the assembled words a `JMP` or `CALL` to a label continues at the address of the
      labelled line, and so does a `BR` whose condition holds. */
  lemma JumpsToLine(p: seq<Source>, c: Cpu, t: Token, i: nat, cc: Reg)
    requires Assemble(p).Ok? && i < |p| && !Placing(p[i]) && Refers(t, p, i)
    ensures LayOut(p).Ok?
    ensures var n := StepRom(RomOf(Assemble(p).value.words), c);
      && (Executes(p, c, Jmp(t)) ==> n == c.(pc := AddressOfLine(p, i)))
      && (Executes(p, c, Call(t)) ==>
           n.pc == AddressOfLine(p, i) && n.sp == (c.sp - 1) % 256 && n.dmem == c.dmem[c.sp := (c.pc + 1) % 256])
      && (Executes(p, c, Br(cc, t)) ==>
           n == c.(pc := if Taken(c.flags, cc) then AddressOfLine(p, i) else (c.pc + 1) % 256))
  {
    hide Encode, LayOut, LineAt, RomOf, StepRom, Assemble, Taken, Operand, AddressOfLine, Refers, Meaning, Placing;
    AssembledStep(p, c);
    LabelValue(p, t, i);
    JumpsMean(t, LayOut(p).value.labels, c, cc);
  }

  lemma JumpsMean(t: Token, labels: Labels, c: Cpu, cc: Reg)
    ensures Meaning(Jmp(t), labels, c) == c.(pc := Operand(t, labels))
    ensures Meaning(Br(cc, t), labels, c)
         == c.(pc := if Taken(c.flags, cc) then Operand(t, labels) else (c.pc + 1) % 256)
    ensures var n := Meaning(Call(t), labels, c);
      n.pc == Operand(t, labels) && n.sp == (c.sp - 1) % 256 && n.dmem == c.dmem[c.sp := (c.pc + 1) % 256]
  {
    hide Operand, Taken;
  }

  /** `loop: JMP loop` stays where it is. */
  lemma LoopStays(no: nat, c: Cpu)
    requires !c.halted && c.pc == 0
    ensures var p := [Source(no, Some("loop"), Some(Jmp(Token("loop", None))))];
      Assemble(p).Ok? && StepRom(RomOf(Assemble(p).value.words), c).pc == 0
  {
    var l := Source(no, Some("loop"), Some(Jmp(Token("loop", None))));
    var p := [l];
    assert p[..0] == [];
    assert LayOut(p[..0]) == Ok(Layout(0, map[], []));
    var none: Labels := map[];
    assert none["loop" := 0] == map["loop" := 0];
    assert [] + [0] == [0];
    assert LayLine(l, Layout(0, map[], [])) == Ok(Layout(1, map["loop" := 0], [0]));
    assert LayOut(p) == Ok(Layout(1, map["loop" := 0], [0]));
    assert EncodeAll(p[..0], [0][..0], map["loop" := 0]) == Ok([]);
    assert Encode(l, 0, map["loop" := 0]) == Ok(Some(0xc000));
    assert [Some(0xc000)][..0] == [];
    assert Place(p[..0], [0][..0], []) == Ok(map[]);
  }
}
