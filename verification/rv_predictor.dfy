/**
 What the branch predictor learns: over any run of the front end, how the last outcomes of
 a branch decide whether the next fetch at its PC goes to its target.
 */
module RvPredictor {
  import opened Rv32iPkg
  import opened RvCore

  /** One clock out of reset. */
  datatype Cycle = Cycle(stall: bool, r: Resolve)

  function Train(f: IfState, cs: seq<Cycle>): IfState
    decreases |cs|
  {
    if cs == [] then f
    else
      var c := cs[|cs| - 1];
      ClockIf(Train(f, cs[..|cs| - 1]), false, c.stall, c.r)
  }

  /** A branch is resolved in the entry of `pc`. */
  predicate Touches(pc: Word, r: Resolve) {
    r.branchValid && BhtIdx(r.pc) == BhtIdx(pc)
  }

  /** No other branch uses the entry. */
  predicate OnlyOwn(pc: Word, target: Word, cs: seq<Cycle>) {
    forall c :: c in cs && Touches(pc, c.r) ==> c.r.pc == pc && c.r.branchTarget == target
  }

  /** The outcomes resolved in the entry of `pc`, oldest first. */
  function Outcomes(pc: Word, cs: seq<Cycle>): seq<bool>
    decreases |cs|
  {
    if cs == [] then []
    else
      var c := cs[|cs| - 1];
      Outcomes(pc, cs[..|cs| - 1]) + (if Touches(pc, c.r) then [c.r.branchTaken] else [])
  }

  /** The front end about to fetch at `pc`. */
  function Fetching(f: IfState, pc: Word): IfState {
    f.(pc := pc)
  }

  predicate Predicted(f: IfState, pc: Word) {
    PredictTaken(Fetching(f, pc))
  }

  // ---- The entry as a function of the outcomes -------------------------------------------

  function Counted(counter: bv2, outcomes: seq<bool>): bv2
    decreases |outcomes|
  {
    if outcomes == [] then counter
    else Saturate(Counted(counter, outcomes[..|outcomes| - 1]), outcomes[|outcomes| - 1])
  }

  lemma EntryMoves(f: IfState, c: Cycle, pc: Word)
    ensures var n := ClockIf(f, false, c.stall, c.r); var i := BhtIdx(pc);
      if Touches(pc, c.r) then
        n.bht[i] == Saturate(f.bht[i], c.r.branchTaken) && n.tags[i] == TagOf(c.r.pc) && n.btb[i] == c.r.branchTarget
      else n.bht[i] == f.bht[i] && n.tags[i] == f.tags[i] && n.btb[i] == f.btb[i]
  {
    hide BhtIdx, TagOf, Saturate, PcNext, Redirect;
  }

  lemma {:induction false} EntryHolds(f: IfState, cs: seq<Cycle>, pc: Word, target: Word)
    requires OnlyOwn(pc, target, cs)
    ensures var n := Train(f, cs); var i := BhtIdx(pc);
      && n.bht[i] == Counted(f.bht[i], Outcomes(pc, cs))
      && (if Outcomes(pc, cs) == [] then n.tags[i] == f.tags[i] && n.btb[i] == f.btb[i]
          else n.tags[i] == TagOf(pc) && n.btb[i] == target)
    decreases |cs|
  {
    hide ClockIf, BhtIdx, TagOf, Saturate, Touches, OnlyOwn, Counted;
    if cs == [] {
      NothingCounted(f.bht[BhtIdx(pc)]);
    } else {
      var init, c := cs[..|cs| - 1], cs[|cs| - 1];
      OwnUntilLast(pc, target, cs);
      EntryHolds(f, init, pc, target);
      EntryMoves(Train(f, init), c, pc);
      CountedNext(f.bht[BhtIdx(pc)], Outcomes(pc, init), c.r.branchTaken);
    }
  }

  lemma OwnUntilLast(pc: Word, target: Word, cs: seq<Cycle>)
    requires OnlyOwn(pc, target, cs) && cs != []
    ensures OnlyOwn(pc, target, cs[..|cs| - 1])
    ensures var r := cs[|cs| - 1].r; Touches(pc, r) ==> r.pc == pc && r.branchTarget == target
  {
    hide Touches;
  }

  lemma NothingCounted(counter: bv2)
    ensures Counted(counter, []) == counter
  {
  }

  lemma CountedNext(counter: bv2, o: seq<bool>, taken: bool)
    ensures Counted(counter, o + [taken]) == Saturate(Counted(counter, o), taken)
    ensures Counted(counter, o + []) == Counted(counter, o)
  {
    hide Saturate;
    assert (o + [taken])[..|o|] == o && o + [] == o;
  }

  // ---- What the last outcomes decide --------------------------------------------------------

  predicate EndsWith(o: seq<bool>, last: seq<bool>) {
    |o| >= |last| && o[|o| - |last|..] == last
  }

  lemma LastCounted(counter: bv2, o: seq<bool>)
    ensures |o| >= 1 ==> Counted(counter, o) == Saturate(Counted(counter, o[..|o| - 1]), o[|o| - 1])
    ensures |o| >= 2 ==> Counted(counter, o[..|o| - 1]) == Saturate(Counted(counter, o[..|o| - 2]), o[|o| - 2])
    ensures |o| >= 3 ==> Counted(counter, o[..|o| - 2]) == Saturate(Counted(counter, o[..|o| - 3]), o[|o| - 3])
    ensures |o| >= 4 ==> Counted(counter, o[..|o| - 3]) == Saturate(Counted(counter, o[..|o| - 4]), o[|o| - 4])
  {
    hide Saturate;
    assert |o| >= 2 ==> o[..|o| - 1][..|o| - 2] == o[..|o| - 2];
    assert |o| >= 3 ==> o[..|o| - 2][..|o| - 3] == o[..|o| - 3];
    assert |o| >= 4 ==> o[..|o| - 3][..|o| - 4] == o[..|o| - 4];
  }

  lemma PredictedByCounter(f: IfState, cs: seq<Cycle>, pc: Word, target: Word)
    requires OnlyOwn(pc, target, cs) && Outcomes(pc, cs) != []
    ensures Predicted(Train(f, cs), pc) <==> Counted(f.bht[BhtIdx(pc)], Outcomes(pc, cs)) & 2 != 0
  {
    hide BhtIdx, TagOf, Counted, Train, Outcomes;
    EntryHolds(f, cs, pc, target);
  }

  lemma LastFour(o: seq<bool>, a: bool, b: bool, c: bool, d: bool)
    requires EndsWith(o, [a, b, c, d])
    ensures |o| >= 4 && o[|o| - 4] == a && o[|o| - 3] == b && o[|o| - 2] == c && o[|o| - 1] == d
  {
    var t := o[|o| - 4..];
    assert t[0] == a && t[1] == b && t[2] == c && t[3] == d;
  }

  lemma LastTwo(o: seq<bool>, a: bool, b: bool)
    requires EndsWith(o, [a, b])
    ensures |o| >= 2 && o[|o| - 2] == a && o[|o| - 1] == b
  {
    var t := o[|o| - 2..];
    assert t[0] == a && t[1] == b;
  }

  /** Two equal outcomes in a row decide the next prediction, whatever was there before. */
  lemma TwiceDecides(f: IfState, cs: seq<Cycle>, pc: Word, target: Word, taken: bool)
    requires OnlyOwn(pc, target, cs) && EndsWith(Outcomes(pc, cs), [taken, taken])
    ensures Predicted(Train(f, cs), pc) == taken
  {
    hide BhtIdx, Counted, Train, Outcomes, EndsWith, Predicted;
    var o := Outcomes(pc, cs);
    LastTwo(o, taken, taken);
    LastCounted(f.bht[BhtIdx(pc)], o);
    PredictedByCounter(f, cs, pc, target);
  }

  /** One contrary outcome after three equal ones does not change the prediction. */
  lemma OnceDoesNotDecide(f: IfState, cs: seq<Cycle>, pc: Word, target: Word, taken: bool)
    requires OnlyOwn(pc, target, cs) && EndsWith(Outcomes(pc, cs), [taken, taken, taken, !taken])
    ensures Predicted(Train(f, cs), pc) == taken
  {
    hide BhtIdx, Counted, Train, Outcomes, EndsWith, Predicted;
    var o := Outcomes(pc, cs);
    LastFour(o, taken, taken, taken, !taken);
    LastCounted(f.bht[BhtIdx(pc)], o);
    PredictedByCounter(f, cs, pc, target);
  }

  /** Where the fetch goes while nothing redirects it: to the target of a predicted branch,
      to the next word otherwise. */
  lemma FetchGoes(f: IfState, cs: seq<Cycle>, pc: Word, target: Word, r: Resolve)
    requires OnlyOwn(pc, target, cs) && Outcomes(pc, cs) != [] && !Redirect(r)
    ensures var n := Fetching(Train(f, cs), pc);
      ClockIf(n, false, false, r).pc == if Predicted(Train(f, cs), pc) then target else pc + 4
  {
    hide BhtIdx, TagOf, Counted, Train, Outcomes, Saturate;
    EntryHolds(f, cs, pc, target);
  }

  /** From reset nothing is predicted, and a first taken outcome is enough. */
  lemma FirstOutcomeDecides(cs: seq<Cycle>, pc: Word, target: Word, taken: bool)
    requires OnlyOwn(pc, target, cs) && Outcomes(pc, cs) == [taken]
    ensures Predicted(Train(IfAtReset(), cs), pc) == taken
  {
    hide BhtIdx, Train, Outcomes, Predicted;
    PredictedByCounter(IfAtReset(), cs, pc, target);
    LastCounted(1, [taken]);
  }

  lemma NothingAtReset(pc: Word)
    ensures !Predicted(IfAtReset(), pc)
  {
    hide BhtIdx, TagOf;
  }

  /** A branch lends its entry to no PC with another tag. */
  lemma TagsSeparate(f: IfState, cs: seq<Cycle>, pc: Word, target: Word, other: Word)
    requires OnlyOwn(pc, target, cs) && Outcomes(pc, cs) != []
    requires BhtIdx(other) == BhtIdx(pc) && Predicted(Train(f, cs), other)
    ensures other >> 8 == pc >> 8
  {
    hide BhtIdx, Counted, Train, Outcomes;
    EntryHolds(f, cs, pc, target);
    SameTag(other, pc);
    hide TagOf;
  }

  lemma SameTag(a: Word, b: Word)
    ensures TagOf(a) == TagOf(b) ==> a >> 8 == b >> 8
  {
  }

  /** PCs of one entry with one tag are the same word of memory. */
  lemma EntryAndTag(a: Word, b: Word)
    requires Aligned(a) && Aligned(b) && BhtIdx(a) == BhtIdx(b) && a >> 8 == b >> 8
    ensures a == b
  {
    assert ((a >> 2) & 0x3F) as bv6 == ((b >> 2) & 0x3F) as bv6;
  }
}
