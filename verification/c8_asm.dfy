/**
 The C8 assembler (`c8asm.py`) from tokenised lines to words: two passes over the lines,
 then placement by address. Running the words is proved to be running the source.
 */
module C8Asm {
  import opened Basics
  import opened C8Sim

  datatype Result<T> = Ok(value: T) | Err(error: Error)
  datatype Error = Duplicate(no: nat) | Invalid(no: nat) | OutOfRange(no: nat) | BeyondRom(no: nat)

  type Reg = n: nat | n < 8

  /** An operand that may be a label: its text, and its value if it reads as a number. */
  datatype Token = Token(text: string, number: Option<int>)

  datatype ArithOp = ADD | SUB | AND | OR | XOR
  datatype ShiftFn = SHL | SHR | ROR

  datatype Stmt =
    | Org(at: Option<int>)
    | Raw(value: Option<int>)
    | Nop
    | Hlt
    | Ret
    | Arith(op: ArithOp, rd: Reg, rs1: Reg, rs2: Reg)
    | Cmp(rs1: Reg, rs2: Reg)
    | Shf(rd: Reg, rs1: Reg, fn: ShiftFn)
    | Ldi(rd: Reg, imm: Token)
    | Ld(rd: Reg, rs1: Reg, off: int)
    | St(rs1: Reg, off: int, rs2: Reg)
    | Br(cc: Reg, target: Token)
    | Jmp(target: Token)
    | Call(target: Token)
    | Malformed

  /** A line without its two computed fields. */
  datatype Source = Source(no: nat, name: Option<string>, stmt: Option<Stmt>)

  type Labels = map<string, int>

  // ---- First pass ---------------------------------------------------------------------

  datatype Layout = Layout(pc: int, labels: Labels, addrs: seq<int>)

  function LayLine(l: Source, y: Layout): Result<Layout> {
    if l.name.Some? && l.name.value in y.labels then Err(Duplicate(l.no))
    else
      var labels := if l.name.Some? then y.labels[l.name.value := y.pc] else y.labels;
      match l.stmt
      case None => Ok(Layout(y.pc, labels, y.addrs + [y.pc]))
      case Some(Org(at)) =>
        if at.None? then Err(Invalid(l.no)) else Ok(Layout(at.value, labels, y.addrs + [at.value]))
      case Some(_) => Ok(Layout(y.pc + 1, labels, y.addrs + [y.pc]))
  }

  function LayOut(p: seq<Source>): (r: Result<Layout>)
    ensures r.Ok? ==> |r.value.addrs| == |p|
    decreases |p|
  {
    if p == [] then Ok(Layout(0, map[], []))
    else
      var before := LayOut(p[..|p| - 1]);
      if before.Err? then before else LayLine(p[|p| - 1], before.value)
  }

  // ---- Second pass ---------------------------------------------------------------------

  function Resolve(t: Token, labels: Labels): Option<int> {
    if t.text in labels then Some(labels[t.text]) else t.number
  }

  function EncodeR(op: nat, rd: Reg, rs1: Reg, rs2: Reg, fn: Reg): Word
    requires op < 16
  {
    op * 4096 + rd * 512 + rs1 * 64 + rs2 * 8 + fn
  }

  /** I and B formats: three bits and a nine-bit immediate. */
  function EncodeI(op: nat, rd: Reg, imm: int): Word
    requires op < 16
  {
    op * 4096 + rd * 512 + imm % 512
  }

  function EncodeMem(op: nat, rd: Reg, rs1: Reg, off: int): Word
    requires op < 16
  {
    op * 4096 + rd * 512 + rs1 * 64 + off % 64
  }

  function EncodeJ(op: nat, addr: int): Word
    requires op < 16
  {
    op * 4096 + addr % 256
  }

  function ArithCode(op: ArithOp): nat {
    match op case ADD => 1 case SUB => 2 case AND => 3 case OR => 4 case XOR => 5
  }

  function ShiftCode(fn: ShiftFn): Reg {
    match fn case SHL => 0 case SHR => 1 case ROR => 2
  }

  function Emit(w: Word): Result<Option<Word>> {
    Ok(Some(w))
  }

  /** The word of a line at address `addr`; no word for a line that only places. */
  function Encode(l: Source, addr: int, labels: Labels): Result<Option<Word>> {
    match l.stmt
    case None => Ok(None)
    case Some(Org(_)) => Ok(None)
    case Some(Raw(v)) => if v.None? then Err(Invalid(l.no)) else Emit(v.value % 0x10000)
    case Some(Nop) => Emit(0)
    case Some(Hlt) => Emit(0xf000)
    case Some(Ret) => Emit(0xe000)
    case Some(Arith(op, rd, rs1, rs2)) => Emit(EncodeR(ArithCode(op), rd, rs1, rs2, 0))
    case Some(Cmp(rs1, rs2)) => Emit(EncodeR(7, 0, rs1, rs2, 0))
    case Some(Shf(rd, rs1, fn)) => Emit(EncodeR(6, rd, rs1, 0, ShiftCode(fn)))
    case Some(Ldi(rd, imm)) =>
      var v := Resolve(imm, labels);
      if v.None? then Err(Invalid(l.no))
      else if v.value < 0 || v.value > 255 then Err(OutOfRange(l.no))
      else Emit(EncodeI(8, rd, v.value))
    case Some(Ld(rd, rs1, off)) =>
      if off < -32 || off > 31 then Err(OutOfRange(l.no)) else Emit(EncodeMem(9, rd, rs1, off))
    case Some(St(rs1, off, rs2)) =>
      if off < -32 || off > 31 then Err(OutOfRange(l.no)) else Emit(EncodeMem(10, rs2, rs1, off))
    case Some(Br(cc, target)) =>
      var v := Resolve(target, labels);
      if v.None? then Err(Invalid(l.no))
      else
        var off := v.value - addr;
        if off < -256 || off > 255 then Err(OutOfRange(l.no)) else Emit(EncodeI(11, cc, off))
    case Some(Jmp(target)) => EncodeJump(12, l.no, Resolve(target, labels))
    case Some(Call(target)) => EncodeJump(13, l.no, Resolve(target, labels))
    case Some(Malformed) => Err(Invalid(l.no))
  }

  function EncodeJump(op: nat, no: nat, v: Option<int>): Result<Option<Word>>
    requires op < 16
  {
    if v.None? then Err(Invalid(no))
    else if v.value < 0 || v.value > 255 then Err(OutOfRange(no))
    else Emit(EncodeJ(op, v.value))
  }

  function EncodeAll(p: seq<Source>, addrs: seq<int>, labels: Labels): (r: Result<seq<Option<Word>>>)
    requires |p| == |addrs|
    ensures r.Ok? ==> |r.value| == |p|
    ensures r.Ok? ==> forall i :: 0 <= i < |p| ==> Encode(p[i], addrs[i], labels) == Ok(r.value[i])
    decreases |p|
  {
    hide Encode;
    if p == [] then Ok([])
    else
      var n := |p| - 1;
      var before := EncodeAll(p[..n], addrs[..n], labels);
      if before.Err? then before
      else
        match Encode(p[n], addrs[n], labels)
        case Ok(w) => Ok(before.value + [w])
        case Err(e) => Err(e)
  }

  // ---- Placement -------------------------------------------------------------------------

  /** Words by address; a later line at the same address replaces an earlier one. */
  function Place(p: seq<Source>, addrs: seq<int>, codes: seq<Option<Word>>): Result<map<int, Word>>
    requires |p| == |addrs| == |codes|
    decreases |p|
  {
    if p == [] then Ok(map[])
    else
      var n := |p| - 1;
      var before := Place(p[..n], addrs[..n], codes[..n]);
      if before.Err? || codes[n].None? then before
      else if addrs[n] > 255 then Err(BeyondRom(p[n].no))
      else Ok(before.value[addrs[n] := codes[n].value])
  }

  datatype Assembled = Assembled(words: map<int, Word>, labels: Labels)

  function Assemble(p: seq<Source>): Result<Assembled> {
    match LayOut(p)
    case Err(e) => Err(e)
    case Ok(y) =>
      match EncodeAll(p, y.addrs, y.labels)
      case Err(e) => Err(e)
      case Ok(codes) =>
        match Place(p, y.addrs, codes)
        case Err(e) => Err(e)
        case Ok(words) => Ok(Assembled(words, y.labels))
  }

  /** What the simulator loads: unplaced addresses hold 0, which is NOP. */
  function RomOf(words: map<int, Word>): Rom {
    seq(256, i requires 0 <= i < 256 => if i in words then words[i] else 0)
  }

  // ---- The source, run symbolically ---------------------------------------------------------

  function ArithOut(op: ArithOp, a: Byte, b: Byte): Out {
    match op
    case ADD => AddOut(a, b)
    case SUB => SubOut(a, b)
    case AND => OutOf(And8(a, b), false, false)
    case OR => OutOf(Or8(a, b), false, false)
    case XOR => OutOf(Xor8(a, b), false, false)
  }

  function ShiftOut(fn: ShiftFn, a: Byte): Out {
    match fn case SHL => ShlOut(a) case SHR => ShrOut(a) case ROR => RorOut(a)
  }

  function Operand(t: Token, labels: Labels): Byte {
    var v := Resolve(t, labels);
    if v.Some? then v.value % 256 else 0
  }

  /** What a statement means: labels stand for addresses, offsets are signed. */
  function Meaning(s: Stmt, labels: Labels, c: Cpu): Cpu {
    match s
    case Raw(v) => if v.Some? then Exec(c, v.value % 0x10000) else c
    case Arith(op, rd, rs1, rs2) => Retire(c, rd, ArithOut(op, ReadReg(c.regs, rs1), ReadReg(c.regs, rs2)))
    case Cmp(rs1, rs2) => c.(flags := SubOut(ReadReg(c.regs, rs1), ReadReg(c.regs, rs2)).flags, pc := Next(c))
    case Shf(rd, rs1, fn) => Retire(c, rd, ShiftOut(fn, ReadReg(c.regs, rs1)))
    case Ldi(rd, imm) => LoadInto(c, rd, Operand(imm, labels))
    case Ld(rd, rs1, off) => LoadInto(c, rd, c.dmem[Address(c, rs1, off)])
    case St(rs1, off, rs2) => StoreAt(c, Address(c, rs1, off), ReadReg(c.regs, rs2))
    case Br(cc, target) => c.(pc := if Taken(c.flags, cc) then Operand(target, labels) else Next(c))
    case Jmp(target) => c.(pc := Operand(target, labels))
    case Call(target) => CallTo(c, Operand(target, labels))
    case Ret => Return(c)
    case Hlt => c.(halted := true)
    case _ => c.(pc := Next(c))
  }

  predicate Emits(l: Source) {
    l.stmt.Some? && !l.stmt.value.Org?
  }

  /** The line placed last at address `a`, if any. */
  function LineAt(p: seq<Source>, addrs: seq<int>, a: int): (l: Option<Source>)
    requires |p| == |addrs|
    ensures l.Some? ==> Emits(l.value)
    decreases |p|
  {
    if p == [] then None
    else
      var n := |p| - 1;
      if addrs[n] == a && Emits(p[n]) then Some(p[n]) else LineAt(p[..n], addrs[..n], a)
  }

  function SourceStep(p: seq<Source>, y: Layout, c: Cpu): Cpu
    requires |p| == |y.addrs|
  {
    if c.halted then c
    else
      match LineAt(p, y.addrs, c.pc)
      case None => c.(pc := Next(c))
      case Some(l) => Meaning(l.stmt.value, y.labels, c)
  }

  function SourceRun(p: seq<Source>, y: Layout, c: Cpu, n: nat): Cpu
    requires |p| == |y.addrs|
  {
    if n == 0 then c else SourceStep(p, y, SourceRun(p, y, c, n - 1))
  }

  // ---- Decoding what was encoded -----------------------------------------------------------

  lemma SplitAt8(q: nat, r: nat)
    requires r < 8
    ensures (q * 8 + r) / 8 == q && (q * 8 + r) % 8 == r
  {
  }

  lemma SplitAt64(q: nat, r: nat)
    requires r < 64
    ensures (q * 64 + r) / 64 == q && (q * 64 + r) % 64 == r
  {
  }

  lemma SplitAt512(q: nat, r: nat)
    requires r < 512
    ensures (q * 512 + r) / 512 == q
  {
  }

  lemma SplitAt4096(q: nat, r: nat)
    requires r < 4096
    ensures (q * 4096 + r) / 4096 == q
  {
  }

  lemma FieldsR(op: nat, rd: Reg, rs1: Reg, rs2: Reg, fn: Reg)
    requires op < 16
    ensures var w := EncodeR(op, rd, rs1, rs2, fn);
      w / 4096 % 16 == op && w / 512 % 8 == rd && w / 64 % 8 == rs1 && w / 8 % 8 == rs2 && w % 8 == fn
  {
    var t := op * 8 + rd;
    var u := t * 8 + rs1;
    var v := u * 8 + rs2;
    SplitAt8(v, fn);
    SplitAt8(u, rs2);
    SplitAt8(t, rs1);
    SplitAt8(op, rd);
    SplitAt64(u, rs2 * 8 + fn);
    SplitAt512(t, rs1 * 64 + rs2 * 8 + fn);
    SplitAt4096(op, rd * 512 + rs1 * 64 + rs2 * 8 + fn);
  }

  lemma FieldsI(op: nat, rd: Reg, imm: int)
    requires op < 16 && -256 <= imm < 256
    ensures var w := EncodeI(op, rd, imm);
      w / 4096 % 16 == op && w / 512 % 8 == rd && Signed9(w % 512) == imm && w % 256 == imm % 256
  {
  }

  lemma FieldsMem(op: nat, rd: Reg, rs1: Reg, off: int)
    requires op < 16 && -32 <= off < 32
    ensures var w := EncodeMem(op, rd, rs1, off);
      w / 4096 % 16 == op && w / 512 % 8 == rd && w / 64 % 8 == rs1 && Signed6(w % 64) == off
  {
    var imm := off % 64;
    assert Signed6(imm) == off;
    var t := op * 8 + rd;
    var u := t * 8 + rs1;
    SplitAt8(t, rs1);
    SplitAt8(op, rd);
    SplitAt64(u, imm);
    SplitAt512(t, rs1 * 64 + imm);
    SplitAt4096(op, rd * 512 + rs1 * 64 + imm);
  }

  lemma FieldsJ(op: nat, addr: int)
    requires op < 16
    ensures var w := EncodeJ(op, addr); w / 4096 % 16 == op && w % 256 == addr % 256
  {
  }

  lemma ArithMeans(op: ArithOp, rd: Reg, rs1: Reg, rs2: Reg, labels: Labels, c: Cpu)
    ensures Exec(c, EncodeR(ArithCode(op), rd, rs1, rs2, 0)) == Meaning(Arith(op, rd, rs1, rs2), labels, c)
  {
    hide EncodeR, AddOut, SubOut, OutOf, And8, Or8, Xor8;
    FieldsR(ArithCode(op), rd, rs1, rs2, 0);
  }

  lemma CompareMeans(rs1: Reg, rs2: Reg, labels: Labels, c: Cpu)
    ensures Exec(c, EncodeR(7, 0, rs1, rs2, 0)) == Meaning(Cmp(rs1, rs2), labels, c)
  {
    hide EncodeR, SubOut;
    FieldsR(7, 0, rs1, rs2, 0);
  }

  lemma ShiftMeans(rd: Reg, rs1: Reg, fn: ShiftFn, labels: Labels, c: Cpu)
    ensures Exec(c, EncodeR(6, rd, rs1, 0, ShiftCode(fn))) == Meaning(Shf(rd, rs1, fn), labels, c)
  {
    hide EncodeR, ShlOut, ShrOut, RorOut;
    FieldsR(6, rd, rs1, 0, ShiftCode(fn));
  }

  lemma MemoryMeans(rd: Reg, rs1: Reg, off: int, labels: Labels, c: Cpu)
    requires -32 <= off < 32
    ensures Exec(c, EncodeMem(9, rd, rs1, off)) == Meaning(Ld(rd, rs1, off), labels, c)
    ensures Exec(c, EncodeMem(10, rd, rs1, off)) == Meaning(St(rs1, off, rd), labels, c)
  {
    hide EncodeMem, Signed6;
    FieldsMem(9, rd, rs1, off);
    FieldsMem(10, rd, rs1, off);
  }

  lemma ImmediateMeans(rd: Reg, imm: Token, labels: Labels, c: Cpu)
    requires var v := Resolve(imm, labels); v.Some? && 0 <= v.value <= 255
    ensures Exec(c, EncodeI(8, rd, Resolve(imm, labels).value)) == Meaning(Ldi(rd, imm), labels, c)
  {
    hide EncodeI, Resolve, Signed9;
    FieldsI(8, rd, Resolve(imm, labels).value);
  }

  lemma BranchMeans(cc: Reg, target: Token, labels: Labels, c: Cpu)
    requires var v := Resolve(target, labels); v.Some? && -256 <= v.value - c.pc <= 255
    ensures Exec(c, EncodeI(11, cc, Resolve(target, labels).value - c.pc)) == Meaning(Br(cc, target), labels, c)
  {
    hide EncodeI, Resolve, Signed9, Taken;
    FieldsI(11, cc, Resolve(target, labels).value - c.pc);
  }

  lemma JumpMeans(target: Token, labels: Labels, c: Cpu)
    requires var v := Resolve(target, labels); v.Some? && 0 <= v.value <= 255
    ensures Exec(c, EncodeJ(12, Resolve(target, labels).value)) == Meaning(Jmp(target), labels, c)
    ensures Exec(c, EncodeJ(13, Resolve(target, labels).value)) == Meaning(Call(target), labels, c)
  {
    hide EncodeJ, Resolve;
    FieldsJ(12, Resolve(target, labels).value);
    FieldsJ(13, Resolve(target, labels).value);
  }

  /** The word of a statement, executed at the address it was encoded for, does what the
      statement means. */
  lemma EncodeMeans(l: Source, labels: Labels, c: Cpu)
    requires var w := Encode(l, c.pc, labels); w.Ok? && w.value.Some?
    ensures Exec(c, Encode(l, c.pc, labels).value.value) == Meaning(l.stmt.value, labels, c)
  {
    hide EncodeR, EncodeI, EncodeMem, EncodeJ, Resolve, Operand, AddOut, SubOut, OutOf, ShlOut, ShrOut, RorOut,
      Signed6, Signed9, Taken, ArithOut;
    match l.stmt.value
    case Arith(op, rd, rs1, rs2) => ArithMeans(op, rd, rs1, rs2, labels, c);
    case Cmp(rs1, rs2) => CompareMeans(rs1, rs2, labels, c);
    case Shf(rd, rs1, fn) => ShiftMeans(rd, rs1, fn, labels, c);
    case Ldi(rd, imm) => ImmediateMeans(rd, imm, labels, c);
    case Ld(rd, rs1, off) => MemoryMeans(rd, rs1, off, labels, c);
    case St(rs1, off, rs2) => MemoryMeans(rs2, rs1, off, labels, c);
    case Br(cc, target) => BranchMeans(cc, target, labels, c);
    case Jmp(target) => JumpMeans(target, labels, c);
    case Call(target) => JumpMeans(target, labels, c);
    case _ =>
  }

  // ---- Whole programs --------------------------------------------------------------------------

  lemma EncodesIffEmits(l: Source, addr: int, labels: Labels)
    requires Encode(l, addr, labels).Ok?
    ensures Encode(l, addr, labels).value.Some? <==> Emits(l)
  {
    hide EncodeR, EncodeI, EncodeMem, EncodeJ, Resolve;
  }

  /** The word at an address is that of the line placed there last. */
  lemma {:induction false} PlacedWord(p: seq<Source>, addrs: seq<int>, codes: seq<Option<Word>>, labels: Labels, a: int)
    requires |p| == |addrs| == |codes| && Place(p, addrs, codes).Ok?
    requires forall i :: 0 <= i < |p| ==> Encode(p[i], addrs[i], labels) == Ok(codes[i])
    ensures var words := Place(p, addrs, codes).value;
      match LineAt(p, addrs, a)
      case None => a !in words
      case Some(l) => a in words && Encode(l, a, labels) == Ok(Some(words[a]))
    decreases |p|
  {
    hide Encode, Emits;
    if p != [] {
      var n := |p| - 1;
      PlacedWord(p[..n], addrs[..n], codes[..n], labels, a);
      EncodesIffEmits(p[n], addrs[n], labels);
    }
  }

  lemma AssembledStep(p: seq<Source>, c: Cpu)
    requires Assemble(p).Ok?
    ensures LayOut(p).Ok?
    ensures StepRom(RomOf(Assemble(p).value.words), c) == SourceStep(p, LayOut(p).value, c)
  {
    hide Encode, Meaning, LayOut, EncodeAll, Place, LineAt, Emits;
    var y := LayOut(p).value;
    var codes := EncodeAll(p, y.addrs, y.labels).value;
    PlacedWord(p, y.addrs, codes, y.labels, c.pc);
    if !c.halted {
      match LineAt(p, y.addrs, c.pc)
      case None => NopSteps(c);
      case Some(l) => EncodeMeans(l, y.labels, c);
    }
  }

  lemma NopSteps(c: Cpu)
    ensures Exec(c, 0) == c.(pc := Next(c))
  {
  }

  /** Running the assembled words simulates the source step for step, for every program
      that assembles: lines sharing an address count as the last of them. */
  lemma {:induction false} AssembledRuns(p: seq<Source>, c: Cpu, n: nat)
    requires Assemble(p).Ok?
    ensures LayOut(p).Ok?
    ensures RunRom(RomOf(Assemble(p).value.words), c, n) == SourceRun(p, LayOut(p).value, c, n)
  {
    hide SourceStep, StepRom, RomOf;
    AssembledStep(p, c);
    if n > 0 {
      AssembledRuns(p, c, n - 1);
      AssembledStep(p, RunRom(RomOf(Assemble(p).value.words), c, n - 1));
    }
  }
}
