/**
 Which C8 programs assemble, what their words look like, and that the hardware runs the
 source of every one that stores nothing and places no raw words.
 */
module C8Encoding {
  import opened Basics
  import opened C8Sim
  import opened C8Rtl
  import opened C8Asm
  import opened C8Labels

  // ---- Which statements have a word ------------------------------------------------------

  /** A token is a label before it is a number. */
  predicate Stands(t: Token, labels: Labels, low: int, high: int) {
    if t.text in labels then low <= labels[t.text] <= high
    else t.number.Some? && low <= t.number.value <= high
  }

  predicate Encodable(l: Source, addr: int, labels: Labels) {
    match l.stmt
    case None => true
    case Some(Raw(v)) => v.Some?
    case Some(Ldi(_, imm)) => Stands(imm, labels, 0, 255)
    case Some(Ld(_, _, off)) => -32 <= off <= 31
    case Some(St(_, off, _)) => -32 <= off <= 31
    case Some(Br(_, target)) => Stands(target, labels, addr - 256, addr + 255)
    case Some(Jmp(target)) => Stands(target, labels, 0, 255)
    case Some(Call(target)) => Stands(target, labels, 0, 255)
    case Some(Malformed) => false
    case _ => true
  }

  /** The operand has a value at all. */
  predicate Valued(l: Source, labels: Labels) {
    match l.stmt
    case Some(Raw(v)) => v.Some?
    case Some(Ldi(_, imm)) => imm.text in labels || imm.number.Some?
    case Some(Br(_, target)) => target.text in labels || target.number.Some?
    case Some(Jmp(target)) => target.text in labels || target.number.Some?
    case Some(Call(target)) => target.text in labels || target.number.Some?
    case Some(Malformed) => false
    case _ => true
  }

  /** A line is encoded exactly when its operand fits; an error names the line, and says
      whether the operand has no value or a value out of range. */
  lemma EncodesExactly(l: Source, addr: int, labels: Labels)
    ensures Encode(l, addr, labels).Ok? <==> Encodable(l, addr, labels)
    ensures Encode(l, addr, labels).Err? ==>
      Encode(l, addr, labels).error == if Valued(l, labels) then OutOfRange(l.no) else Invalid(l.no)
  {
    hide EncodeR, EncodeI, EncodeMem, EncodeJ;
  }

  /** Fields a format leaves out are zero; the three without operands are fixed words. */
  lemma UnusedFieldsZero(l: Source, addr: int, labels: Labels)
    requires Encode(l, addr, labels).Ok? && Emits(l)
    ensures var w := Encode(l, addr, labels).value.value;
      match l.stmt.value
      case Nop => w == 0x0000
      case Hlt => w == 0xf000
      case Ret => w == 0xe000
      case Arith(_, _, _, _) => w % 8 == 0
      case Cmp(_, _) => w / 512 % 8 == 0 && w % 8 == 0
      case Shf(_, _, _) => w / 8 % 8 == 0 && w % 8 < 3
      case Ldi(_, _) => w / 256 % 2 == 0
      case Jmp(_) => w / 256 % 16 == 0
      case Call(_) => w / 256 % 16 == 0
      case _ => true
  {
    hide Resolve, EncodeR, EncodeI, EncodeJ, EncodeMem;
    match l.stmt.value
    case Arith(op, rd, rs1, rs2) => FieldsR(ArithCode(op), rd, rs1, rs2, 0);
    case Cmp(rs1, rs2) => FieldsR(7, 0, rs1, rs2, 0);
    case Shf(rd, rs1, fn) => FieldsR(6, rd, rs1, 0, ShiftCode(fn));
    case Ldi(rd, imm) => SmallImmediate(rd, Resolve(imm, labels).value);
    case Jmp(t) => JumpField(12, Resolve(t, labels).value);
    case Call(t) => JumpField(13, Resolve(t, labels).value);
    case _ =>
  }

  lemma SmallImmediate(rd: Reg, imm: int)
    requires 0 <= imm < 256
    ensures EncodeI(8, rd, imm) / 256 % 2 == 0
  {
  }

  lemma JumpField(op: nat, addr: int)
    requires op < 16
    ensures EncodeJ(op, addr) / 256 % 16 == 0
  {
  }

  // ---- Which programs assemble -------------------------------------------------------------

  predicate AllEncodable(p: seq<Source>, addrs: seq<int>, labels: Labels)
    requires |p| == |addrs|
  {
    forall i :: 0 <= i < |p| ==> Encodable(p[i], addrs[i], labels)
  }

  predicate InRom(p: seq<Source>, addrs: seq<int>)
    requires |p| == |addrs|
  {
    forall i :: 0 <= i < |p| && Emits(p[i]) ==> addrs[i] <= 255
  }

  lemma {:induction false} EncodesAllExactly(p: seq<Source>, addrs: seq<int>, labels: Labels)
    requires |p| == |addrs|
    ensures EncodeAll(p, addrs, labels).Ok? <==> AllEncodable(p, addrs, labels)
    decreases |p|
  {
    hide Encode, Encodable;
    if p != [] {
      var n := |p| - 1;
      EncodesAllExactly(p[..n], addrs[..n], labels);
      EncodesExactly(p[n], addrs[n], labels);
      assert AllEncodable(p, addrs, labels)
        <==> AllEncodable(p[..n], addrs[..n], labels) && Encodable(p[n], addrs[n], labels);
    }
  }

  lemma {:induction false} PlacesExactly(p: seq<Source>, addrs: seq<int>, codes: seq<Option<Word>>)
    requires |p| == |addrs| == |codes|
    requires forall i :: 0 <= i < |p| ==> codes[i].Some? == Emits(p[i])
    ensures Place(p, addrs, codes).Ok? <==> InRom(p, addrs)
    decreases |p|
  {
    hide Emits;
    if p != [] {
      var n := |p| - 1;
      PlacesExactly(p[..n], addrs[..n], codes[..n]);
      assert InRom(p, addrs) <==> InRom(p[..n], addrs[..n]) && (Emits(p[n]) ==> addrs[n] <= 255);
    }
  }

  /** A program assembles exactly when its names differ, every `.ORG` names an address,
      every operand fits and no word lies beyond the ROM. */
  lemma AssemblesExactly(p: seq<Source>)
    ensures Assemble(p).Ok? <==>
      && NamesDiffer(p) && PlacesSomewhere(p)
      && LayOut(p).Ok? && AllEncodable(p, LayOut(p).value.addrs, LayOut(p).value.labels)
      && InRom(p, LayOut(p).value.addrs)
  {
    hide LayOut, EncodeAll, Place, Encode, Encodable, NamesDiffer, PlacesSomewhere, Emits, InRom, AllEncodable;
    FirstPassSucceeds(p);
    if LayOut(p).Ok? {
      var y := LayOut(p).value;
      EncodesAllExactly(p, y.addrs, y.labels);
      if EncodeAll(p, y.addrs, y.labels).Ok? {
        var codes := EncodeAll(p, y.addrs, y.labels).value;
        forall i | 0 <= i < |p|
          ensures codes[i].Some? == Emits(p[i])
        {
          EncodesIffEmits(p[i], y.addrs[i], y.labels);
        }
        PlacesExactly(p, y.addrs, codes);
      }
    }
  }

  // ---- On the hardware -----------------------------------------------------------------------

  /** Neither ST, whose data register the hardware finds elsewhere, nor a raw word. */
  predicate Portable(s: Stmt) {
    !s.St? && !s.Raw?
  }

  lemma EncodedMeets(l: Source, addr: int, labels: Labels, c: Cpu)
    requires Encode(l, addr, labels).Ok? && Emits(l) && Portable(l.stmt.value)
    ensures Meets(c, Encode(l, addr, labels).value.value)
  {
    var s, w := l.stmt.value, Encode(l, addr, labels).value.value;
    match s
    case Arith(op, rd, rs1, rs2) => FieldsR(ArithCode(op), rd, rs1, rs2, 0);
    case Cmp(rs1, rs2) => FieldsR(7, 0, rs1, rs2, 0);
    case Shf(rd, rs1, fn) => FieldsR(6, rd, rs1, 0, ShiftCode(fn));
    case _ =>
    hide Resolve;
  }

  predicate PortableProgram(p: seq<Source>) {
    forall l :: l in p && Emits(l) ==> Portable(l.stmt.value)
  }

  lemma {:induction false} LineFromProgram(p: seq<Source>, addrs: seq<int>, a: int)
    requires |p| == |addrs|
    ensures var l := LineAt(p, addrs, a); l.Some? ==> l.value in p && Emits(l.value)
    decreases |p|
  {
    hide Emits;
    if p != [] {
      LineFromProgram(p[..|p| - 1], addrs[..|p| - 1], a);
    }
  }

  lemma NopMeets(c: Cpu)
    ensures Meets(c, 0)
  {
  }

  lemma WordMeets(p: seq<Source>, c: Cpu)
    requires Assemble(p).Ok? && PortableProgram(p)
    ensures Meets(c, RomOf(Assemble(p).value.words)[c.pc])
  {
    hide Encode, LayOut, EncodeAll, Place, LineAt, Emits, Meets, Portable;
    var y := LayOut(p).value;
    var codes := EncodeAll(p, y.addrs, y.labels).value;
    PlacedWord(p, y.addrs, codes, y.labels, c.pc);
    LineFromProgram(p, y.addrs, c.pc);
    match LineAt(p, y.addrs, c.pc)
    case None => NopMeets(c);
    case Some(l) => EncodedMeets(l, c.pc, y.labels, c);
  }

  /** The hardware, clocked on the assembled words of such a program, runs its source
      statement by statement. */
  lemma HardwareRunsSource(p: seq<Source>, c: Cpu, n: nat)
    requires Assemble(p).Ok? && PortableProgram(p)
    ensures LayOut(p).Ok?
    ensures RunRtl(RomOf(Assemble(p).value.words), c, n) == SourceRun(p, LayOut(p).value, c, n)
  {
    hide LayOut, RunRtl, RunRom, SourceRun, Meets, PortableProgram, Assemble;
    var rom := RomOf(Assemble(p).value.words);
    forall k | 0 <= k < n
      ensures MeetsAt(rom, c, k)
    {
      WordMeets(p, RunRom(rom, c, k));
    }
    RunsInLockstep(rom, c, n);
    AssembledRuns(p, c, n);
  }
}
