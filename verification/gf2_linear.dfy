/**
 Linear algebra over GF(2): vectors are bit sequences, addition is XOR, and the rank
 of a list of rows is the base-two logarithm of the number of vectors they span.
 */
module Gf2Linear {
  import opened Basics

  type Vector = seq<bool>

  function Zero(n: nat): (v: Vector)
    ensures |v| == n && forall i :: 0 <= i < n ==> !v[i]
  {
    seq(n, i => false)
  }

  function Xor(u: Vector, v: Vector): (w: Vector)
    requires |u| == |v|
    ensures |w| == |u| && forall i :: 0 <= i < |w| ==> w[i] == (u[i] != v[i])
  {
    seq(|u|, i requires 0 <= i < |u| && |u| == |v| => u[i] != v[i])
  }

  /** Every row has `n` columns. */
  predicate Shaped(rows: seq<Vector>, n: nat) {
    forall i :: 0 <= i < |rows| ==> |rows[i]| == n
  }

  /** The sum of the rows whose coefficient is set. */
  function Comb(c: Vector, rows: seq<Vector>, n: nat): (v: Vector)
    requires |c| == |rows| && Shaped(rows, n)
    ensures |v| == n
  {
    if rows == [] then Zero(n)
    else
      var rest := Comb(c[1..], rows[1..], n);
      if c[0] then Xor(rows[0], rest) else rest
  }

  // ---- All bit sequences of one length -------------------------------------------

  function Prefixed(b: bool, s: set<Vector>): set<Vector> {
    set v | v in s :: [b] + v
  }

  function AllBits(k: nat): set<Vector> {
    if k == 0 then {[]} else Prefixed(false, AllBits(k - 1)) + Prefixed(true, AllBits(k - 1))
  }

  /** The row space. */
  ghost function Span(rows: seq<Vector>, n: nat): set<Vector>
    requires Shaped(rows, n)
  {
    set c | c in AllBits(|rows|) && |c| == |rows| :: Comb(c, rows, n)
  }

  ghost predicate Independent(rows: seq<Vector>, n: nat)
    requires Shaped(rows, n)
  {
    forall c: Vector | |c| == |rows| && Comb(c, rows, n) == Zero(n) :: c == Zero(|c|)
  }

  /** `k` is the rank: the rows span exactly 2^k vectors. */
  ghost predicate IsRank(rows: seq<Vector>, n: nat, k: nat)
    requires Shaped(rows, n)
  {
    |Span(rows, n)| == Pow2(k)
  }

  lemma PrefixedMember(b: bool, s: set<Vector>, v: Vector)
    ensures v in Prefixed(b, s) <==> v != [] && v[0] == b && v[1..] in s
  {
    if v != [] && v[0] == b && v[1..] in s {
      assert v == [b] + v[1..];
    }
  }

  lemma {:induction false} AllBitsExact(k: nat, v: Vector)
    ensures v in AllBits(k) <==> |v| == k
  {
    if k > 0 {
      PrefixedMember(false, AllBits(k - 1), v);
      PrefixedMember(true, AllBits(k - 1), v);
      if v != [] {
        AllBitsExact(k - 1, v[1..]);
      }
    }
  }

  lemma SpanMember(rows: seq<Vector>, n: nat, c: Vector)
    requires Shaped(rows, n) && |c| == |rows|
    ensures Comb(c, rows, n) in Span(rows, n)
  {
    AllBitsExact(|rows|, c);
  }

  // ---- The span is a subspace -------------------------------------------------------

  lemma {:induction false} CombXor(c: Vector, d: Vector, rows: seq<Vector>, n: nat)
    requires |c| == |d| == |rows| && Shaped(rows, n)
    ensures Comb(Xor(c, d), rows, n) == Xor(Comb(c, rows, n), Comb(d, rows, n))
  {
    if rows != [] {
      CombXor(c[1..], d[1..], rows[1..], n);
      assert Xor(c, d)[1..] == Xor(c[1..], d[1..]);
    }
  }

  function Unit(k: nat, i: nat): (v: Vector)
    requires i < k
    ensures |v| == k && forall j :: 0 <= j < k ==> v[j] == (j == i)
  {
    seq(k, j => j == i)
  }

  lemma {:induction false} CombZero(rows: seq<Vector>, n: nat)
    requires Shaped(rows, n)
    ensures Comb(Zero(|rows|), rows, n) == Zero(n)
  {
    if rows != [] {
      assert Zero(|rows|)[1..] == Zero(|rows| - 1);
      CombZero(rows[1..], n);
    }
  }

  lemma {:induction false} CombUnit(i: nat, rows: seq<Vector>, n: nat)
    requires Shaped(rows, n) && i < |rows|
    ensures Comb(Unit(|rows|, i), rows, n) == rows[i]
  {
    if i == 0 {
      assert Unit(|rows|, 0)[1..] == Zero(|rows| - 1);
      CombZero(rows[1..], n);
    } else {
      assert Unit(|rows|, i)[1..] == Unit(|rows| - 1, i - 1);
      CombUnit(i - 1, rows[1..], n);
    }
  }

  lemma RowInSpan(i: nat, rows: seq<Vector>, n: nat)
    requires Shaped(rows, n) && i < |rows|
    ensures rows[i] in Span(rows, n)
  {
    CombUnit(i, rows, n);
    SpanMember(rows, n, Unit(|rows|, i));
  }

  lemma SpanCoefficients(v: Vector, rows: seq<Vector>, n: nat) returns (c: Vector)
    requires Shaped(rows, n) && v in Span(rows, n)
    ensures |c| == |rows| && v == Comb(c, rows, n) && |v| == n
  {
    c :| c in AllBits(|rows|) && |c| == |rows| && Comb(c, rows, n) == v;
  }

  lemma SpanClosed(u: Vector, v: Vector, rows: seq<Vector>, n: nat)
    requires Shaped(rows, n) && u in Span(rows, n) && v in Span(rows, n)
    ensures |u| == |v| == n && Xor(u, v) in Span(rows, n)
  {
    var c := SpanCoefficients(u, rows, n);
    var d := SpanCoefficients(v, rows, n);
    CombXor(c, d, rows, n);
    SpanMember(rows, n, Xor(c, d));
  }

  lemma {:induction false} CombInSpan(c: Vector, some: seq<Vector>, rows: seq<Vector>, n: nat)
    requires Shaped(some, n) && Shaped(rows, n) && |c| == |some|
    requires forall i :: 0 <= i < |some| ==> some[i] in Span(rows, n)
    ensures Comb(c, some, n) in Span(rows, n)
  {
    if some == [] {
      CombZero(rows, n);
      SpanMember(rows, n, Zero(|rows|));
    } else {
      assert forall i :: 0 <= i < |some[1..]| ==> some[1..][i] == some[i + 1];
      CombInSpan(c[1..], some[1..], rows, n);
      if c[0] {
        SpanClosed(some[0], Comb(c[1..], some[1..], n), rows, n);
      }
    }
  }

  /** Rows inside another span only span vectors inside it. */
  lemma SpanWithin(some: seq<Vector>, rows: seq<Vector>, n: nat)
    requires Shaped(some, n) && Shaped(rows, n)
    requires forall i :: 0 <= i < |some| ==> some[i] in Span(rows, n)
    ensures Span(some, n) <= Span(rows, n)
  {
    forall v | v in Span(some, n)
      ensures v in Span(rows, n)
    {
      var c := SpanCoefficients(v, some, n);
      CombInSpan(c, some, rows, n);
    }
  }

  // ---- Row operations keep the span ---------------------------------------------------

  lemma SwapWithin(rows: seq<Vector>, i: nat, j: nat, n: nat)
    requires Shaped(rows, n) && i < |rows| && j < |rows|
    ensures Span(rows[i := rows[j]][j := rows[i]], n) <= Span(rows, n)
  {
    var after := rows[i := rows[j]][j := rows[i]];
    forall k | 0 <= k < |after|
      ensures after[k] in Span(rows, n)
    {
      RowInSpan(if k == j then i else if k == i then j else k, rows, n);
    }
    SpanWithin(after, rows, n);
  }

  lemma SwapKeepsSpan(rows: seq<Vector>, i: nat, j: nat, n: nat)
    requires Shaped(rows, n) && i < |rows| && j < |rows|
    ensures Span(rows[i := rows[j]][j := rows[i]], n) == Span(rows, n)
  {
    var after := rows[i := rows[j]][j := rows[i]];
    SwapWithin(rows, i, j, n);
    SwapWithin(after, i, j, n);
    assert after[i := after[j]][j := after[i]] == rows;
  }

  lemma AddWithin(rows: seq<Vector>, i: nat, j: nat, n: nat)
    requires Shaped(rows, n) && i < |rows| && j < |rows| && i != j
    ensures Span(rows[i := Xor(rows[i], rows[j])], n) <= Span(rows, n)
  {
    var after := rows[i := Xor(rows[i], rows[j])];
    forall k | 0 <= k < |after|
      ensures after[k] in Span(rows, n)
    {
      RowInSpan(k, rows, n);
      RowInSpan(j, rows, n);
      if k == i {
        SpanClosed(rows[i], rows[j], rows, n);
      }
    }
    SpanWithin(after, rows, n);
  }

  lemma AddKeepsSpan(rows: seq<Vector>, i: nat, j: nat, n: nat)
    requires Shaped(rows, n) && i < |rows| && j < |rows| && i != j
    ensures Span(rows[i := Xor(rows[i], rows[j])], n) == Span(rows, n)
  {
    var after := rows[i := Xor(rows[i], rows[j])];
    AddWithin(rows, i, j, n);
    AddWithin(after, i, j, n);
    assert Xor(after[i], after[j]) == rows[i];
    assert after[i := Xor(after[i], after[j])] == rows;
  }

  // ---- Independent rows span 2^k vectors --------------------------------------------------

  lemma {:induction false} AllBitsCount(k: nat)
    ensures |AllBits(k)| == Pow2(k)
  {
    if k > 0 {
      AllBitsCount(k - 1);
      PrefixedCount(false, AllBits(k - 1));
      PrefixedCount(true, AllBits(k - 1));
      PrefixesDisjoint(AllBits(k - 1));
    }
  }

  lemma PrefixesDisjoint(s: set<Vector>)
    ensures Prefixed(false, s) !! Prefixed(true, s)
  {
    forall v | v in Prefixed(false, s)
      ensures v !in Prefixed(true, s)
    {
      PrefixedMember(false, s, v);
      PrefixedMember(true, s, v);
    }
  }

  lemma {:induction false} PrefixedCount(b: bool, s: set<Vector>)
    ensures |Prefixed(b, s)| == |s|
  {
    if s != {} {
      var v :| v in s;
      PrefixedCount(b, s - {v});
      forall w | w in s - {v}
        ensures [b] + w != [b] + v
      {
        assert ([b] + w)[1..] == w && ([b] + v)[1..] == v;
      }
      assert Prefixed(b, s) == Prefixed(b, s - {v}) + {[b] + v};
    }
  }

  lemma IndependentInjective(c: Vector, d: Vector, rows: seq<Vector>, n: nat)
    requires Shaped(rows, n) && Independent(rows, n) && |c| == |d| == |rows|
    requires Comb(c, rows, n) == Comb(d, rows, n)
    ensures c == d
  {
    CombXor(c, d, rows, n);
    assert Comb(Xor(c, d), rows, n) == Zero(n);
    assert forall i :: 0 <= i < |c| ==> !Xor(c, d)[i];
  }

  ghost function Image(s: set<Vector>, rows: seq<Vector>, n: nat): set<Vector>
    requires Shaped(rows, n)
  {
    set c | c in s && |c| == |rows| :: Comb(c, rows, n)
  }

  lemma {:induction false} ImageCount(s: set<Vector>, rows: seq<Vector>, n: nat)
    requires Shaped(rows, n) && Independent(rows, n)
    requires forall c | c in s :: |c| == |rows|
    ensures |Image(s, rows, n)| == |s|
  {
    hide Comb, Independent;
    if s != {} {
      var c :| c in s;
      ImageCount(s - {c}, rows, n);
      if Comb(c, rows, n) in Image(s - {c}, rows, n) {
        var d :| d in s - {c} && |d| == |rows| && Comb(d, rows, n) == Comb(c, rows, n);
        IndependentInjective(c, d, rows, n);
      }
      assert Image(s, rows, n) == Image(s - {c}, rows, n) + {Comb(c, rows, n)};
    }
  }

  lemma IndependentRank(rows: seq<Vector>, n: nat)
    requires Shaped(rows, n) && Independent(rows, n)
    ensures IsRank(rows, n, |rows|)
  {
    var all := AllBits(|rows|);
    forall c | c in all
      ensures |c| == |rows|
    {
      AllBitsExact(|rows|, c);
    }
    ImageCount(all, rows, n);
    AllBitsCount(|rows|);
    assert Image(all, rows, n) == Span(rows, n);
  }

  lemma {:induction false} Pow2Increases(j: nat, k: nat)
    requires j < k
    ensures Pow2(j) < Pow2(k)
  {
    if j + 1 < k {
      Pow2Increases(j, k - 1);
    }
  }

  /** A list of rows has one rank. */
  lemma RankUnique(rows: seq<Vector>, n: nat, j: nat, k: nat)
    requires Shaped(rows, n) && IsRank(rows, n, j) && IsRank(rows, n, k)
    ensures j == k
  {
    if j < k { Pow2Increases(j, k); }
    if k < j { Pow2Increases(k, j); }
  }
}
