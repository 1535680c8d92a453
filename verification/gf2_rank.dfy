/**
 In-place Gauss-Jordan elimination over bits (`_matrix_rank` of the randomness
 tests): the count of pivots is the rank, for every matrix size.
 */
module Gf2Rank {
  import opened Gf2Linear

  /** There are at least `rows` rows and each of those has at least `cols` columns. */
  predicate Wide(a: seq<Vector>, rows: nat, cols: nat) {
    rows <= |a| && forall r :: 0 <= r < rows ==> cols <= |a[r]|
  }

  /** The `rows` by `cols` corner of the array that the algorithm works on. */
  ghost function View(a: seq<Vector>, rows: nat, cols: nat): (v: seq<Vector>)
    requires Wide(a, rows, cols)
    ensures |v| == rows && Shaped(v, cols)
    ensures forall r :: 0 <= r < rows ==> v[r] == a[r][..cols]
  {
    seq(rows, r requires 0 <= r < rows && rows <= |a| && cols <= |a[r]| => a[r][..cols])
  }

  /** Columns left of `col` are done: row i is the only one with a bit in pivot column
      `piv[i]`, and rows beyond the pivots have no bits there at all. */
  ghost predicate Reduced(v: seq<Vector>, cols: nat, col: nat, piv: seq<nat>) {
    && Shaped(v, cols) && |piv| <= |v| && |piv| <= col <= cols
    && (forall i :: 0 <= i < |piv| ==> piv[i] < col)
    && (forall i, r :: 0 <= i < |piv| && 0 <= r < |v| ==> v[r][piv[i]] == (r == i))
    && (forall r, c :: |piv| <= r < |v| && 0 <= c < col ==> !v[r][c])
  }

  lemma {:induction false} CombColumnEmpty(c: Vector, rows: seq<Vector>, n: nat, p: nat)
    requires |c| == |rows| && Shaped(rows, n) && p < n
    requires forall r :: 0 <= r < |rows| ==> !rows[r][p]
    ensures !Comb(c, rows, n)[p]
  {
    if rows != [] {
      CombColumnEmpty(c[1..], rows[1..], n, p);
    }
  }

  /** A column with a single bit, in row i, reads off coefficient i. */
  lemma {:induction false} CombPivot(c: Vector, rows: seq<Vector>, n: nat, p: nat, i: nat)
    requires |c| == |rows| && Shaped(rows, n) && p < n && i < |rows|
    requires forall r :: 0 <= r < |rows| ==> rows[r][p] == (r == i)
    ensures Comb(c, rows, n)[p] == c[i]
  {
    if i == 0 {
      CombColumnEmpty(c[1..], rows[1..], n, p);
    } else {
      CombPivot(c[1..], rows[1..], n, p, i - 1);
    }
  }

  lemma PivotsIndependent(v: seq<Vector>, cols: nat, piv: seq<nat>)
    requires Reduced(v, cols, cols, piv)
    ensures Independent(v[..|piv|], cols)
  {
    var b := v[..|piv|];
    forall c: Vector | |c| == |b| && Comb(c, b, cols) == Zero(cols)
      ensures c == Zero(|c|)
    {
      forall i | 0 <= i < |c|
        ensures !c[i]
      {
        CombPivot(c, b, cols, piv[i], i);
      }
    }
  }

  lemma ZeroRowsDropped(v: seq<Vector>, cols: nat, piv: seq<nat>)
    requires Reduced(v, cols, cols, piv)
    ensures Span(v[..|piv|], cols) == Span(v, cols)
    ensures forall r :: |piv| <= r < |v| ==> v[r] == Zero(cols)
  {
    var b := v[..|piv|];
    forall r | 0 <= r < |b|
      ensures b[r] in Span(v, cols)
    {
      RowInSpan(r, v, cols);
    }
    SpanWithin(b, v, cols);
    CombZero(b, cols);
    SpanMember(b, cols, Zero(|b|));
    forall r | 0 <= r < |v|
      ensures v[r] in Span(b, cols)
    {
      if r < |b| {
        RowInSpan(r, b, cols);
      } else {
        assert v[r] == Zero(cols);
      }
    }
    SpanWithin(v, b, cols);
  }

  lemma ReducedRank(v: seq<Vector>, cols: nat, piv: seq<nat>)
    requires Reduced(v, cols, cols, piv)
    ensures IsRank(v, cols, |piv|)
  {
    PivotsIndependent(v, cols, piv);
    ZeroRowsDropped(v, cols, piv);
    IndependentRank(v[..|piv|], cols);
  }

  /** Swapping the pivot row into place leaves the finished columns as they were. */
  lemma SwapKeepsReduced(v: seq<Vector>, cols: nat, col: nat, piv: seq<nat>, p: nat)
    requires Reduced(v, cols, col, piv) && |piv| <= p < |v|
    ensures Reduced(v[|piv| := v[p]][p := v[|piv|]], cols, col, piv)
  {
  }

  /** Clearing column `col` with the pivot row finishes that column. */
  lemma ColumnDone(before: seq<Vector>, after: seq<Vector>, cols: nat, col: nat, piv: seq<nat>)
    requires Reduced(before, cols, col, piv) && |piv| < |before| && col < cols
    requires |after| == |before| && Shaped(after, cols)
    requires forall r, c :: 0 <= r < |after| && 0 <= c < col ==> after[r][c] == before[r][c]
    requires forall r :: 0 <= r < |after| ==> after[r][col] == (r == |piv|)
    ensures Reduced(after, cols, col + 1, piv + [col])
  {
  }

  method MatrixRank(mat: array<Vector>, rows: nat, cols: nat) returns (rank: nat)
    requires Wide(mat[..], rows, cols)
    modifies mat
    ensures rank <= rows && rank <= cols
    ensures IsRank(old(View(mat[..], rows, cols)), cols, rank)
    ensures Wide(mat[..], rows, cols)
    ensures Span(View(mat[..], rows, cols), cols) == Span(old(View(mat[..], rows, cols)), cols)
    ensures Independent(View(mat[..], rows, cols)[..rank], cols)
    ensures forall r :: rank <= r < rows ==> mat[r][..cols] == Zero(cols)
    ensures forall r :: rows <= r < mat.Length ==> mat[r] == old(mat[r])
  {
    ghost var was := View(mat[..], rows, cols);
    ghost var piv: seq<nat> := [];
    rank := 0;
    for col := 0 to cols
      invariant Wide(mat[..], rows, cols)
      invariant rank == |piv| && Reduced(View(mat[..], rows, cols), cols, col, piv)
      invariant Span(View(mat[..], rows, cols), cols) == Span(was, cols)
      invariant forall r :: rows <= r < mat.Length ==> mat[r] == old(mat[r])
    {
      var pivot := rank;
      while pivot < rows && !mat[pivot][col]
        invariant rank <= pivot <= rows
        invariant forall r :: rank <= r < pivot ==> !mat[r][col]
      {
        pivot := pivot + 1;
      }
      if pivot < rows {
        ClearColumn(mat, rows, cols, col, rank, pivot, piv);
        piv := piv + [col];
        rank := rank + 1;
      }
    }
    ReducedRank(View(mat[..], rows, cols), cols, piv);
    PivotsIndependent(View(mat[..], rows, cols), cols, piv);
    ZeroRowsDropped(View(mat[..], rows, cols), cols, piv);
  }

  lemma ViewUpdate(a: seq<Vector>, rows: nat, cols: nat, r: nat, row: Vector)
    requires Wide(a, rows, cols)
    requires r < rows && cols <= |row|
    ensures Wide(a[r := row], rows, cols)
    ensures View(a[r := row], rows, cols) == View(a, rows, cols)[r := row[..cols]]
  {
  }

  method SwapRows(mat: array<Vector>, rows: nat, cols: nat, i: nat, j: nat)
    requires Wide(mat[..], rows, cols)
    requires i < rows && j < rows
    modifies mat
    ensures mat[..] == old(mat[..])[i := old(mat[j])][j := old(mat[i])]
    ensures Wide(mat[..], rows, cols)
    ensures View(mat[..], rows, cols)
         == var v := old(View(mat[..], rows, cols)); v[i := v[j]][j := v[i]]
  {
    ViewUpdate(mat[..], rows, cols, i, mat[j]);
    ViewUpdate(mat[..][i := mat[j]], rows, cols, j, mat[i]);
    mat[i], mat[j] := mat[j], mat[i];
    assert mat[..] == old(mat[..])[i := old(mat[j])][j := old(mat[i])];
  }

  /** Adds row `k` to row `r`, cutting the result to `cols` columns. */
  method AddRow(mat: array<Vector>, rows: nat, cols: nat, r: nat, k: nat)
    requires Wide(mat[..], rows, cols)
    requires r < rows && k < rows
    modifies mat
    ensures mat[..] == old(mat[..])[r := Xor(old(mat[r])[..cols], old(mat[k])[..cols])]
    ensures Wide(mat[..], rows, cols)
    ensures View(mat[..], rows, cols)
         == var v := old(View(mat[..], rows, cols)); v[r := Xor(v[r], v[k])]
  {
    var row := seq(cols, c requires 0 <= c < cols && cols <= |mat[r]| && cols <= |mat[k]| reads mat =>
      mat[r][c] != mat[k][c]);
    assert row == Xor(mat[r][..cols], mat[k][..cols]) && row[..cols] == row;
    ViewUpdate(mat[..], rows, cols, r, row);
    mat[r] := row;
    assert mat[..] == old(mat[..])[r := row];
  }

  /** Rows before `r` have been cleared in column `col`; the others are still those of `w`. */
  ghost predicate Cleared(w: seq<Vector>, u: seq<Vector>, cols: nat, col: nat, rank: nat, r: nat) {
    && |u| == |w| && Shaped(w, cols) && Shaped(u, cols) && col < cols && rank < |w| && r <= |w|
    && u[rank] == w[rank]
    && (forall x :: r <= x < |w| ==> u[x] == w[x])
    && (forall x :: 0 <= x < r ==> u[x][col] == (x == rank))
    && (forall x, c :: 0 <= x < r && 0 <= c < col ==> u[x][c] == w[x][c])
  }

  lemma ClearStep(w: seq<Vector>, u: seq<Vector>, cols: nat, col: nat, rank: nat, r: nat)
    requires Cleared(w, u, cols, col, rank, r) && r < |w| && w[rank][col]
    requires forall c :: 0 <= c < col ==> !w[rank][c]
    ensures r == rank || !u[r][col] ==> Cleared(w, u, cols, col, rank, r + 1)
    ensures r != rank && u[r][col] ==> Cleared(w, u[r := Xor(u[r], u[rank])], cols, col, rank, r + 1)
  {
  }

  /** The body of the column loop once a pivot is found: swap it up, then add it to
      every other row with a bit in this column. */
  method ClearColumn(mat: array<Vector>, rows: nat, cols: nat, col: nat, rank: nat, pivot: nat, ghost piv: seq<nat>)
    requires Wide(mat[..], rows, cols)
    requires col < cols && rank == |piv| && rank <= pivot < rows && mat[pivot][col]
    requires Reduced(View(mat[..], rows, cols), cols, col, piv)
    modifies mat
    ensures Wide(mat[..], rows, cols)
    ensures Reduced(View(mat[..], rows, cols), cols, col + 1, piv + [col])
    ensures Span(View(mat[..], rows, cols), cols) == Span(old(View(mat[..], rows, cols)), cols)
    ensures forall r :: rows <= r < mat.Length ==> mat[r] == old(mat[r])
  {
    hide Reduced, Span;
    ghost var v := View(mat[..], rows, cols);
    SwapRows(mat, rows, cols, rank, pivot);
    ghost var w := View(mat[..], rows, cols);
    SwapKeepsSpan(v, rank, pivot, cols);
    SwapKeepsReduced(v, cols, col, piv, pivot);
    PivotRowFresh(w, cols, col, piv);
    for r := 0 to rows
      invariant Wide(mat[..], rows, cols)
      invariant forall x :: rows <= x < mat.Length ==> mat[x] == old(mat[x])
      invariant Cleared(w, View(mat[..], rows, cols), cols, col, rank, r)
      invariant Span(View(mat[..], rows, cols), cols) == Span(v, cols)
    {
      ghost var u := View(mat[..], rows, cols);
      assert u[r] == mat[r][..cols] && u[r][col] == mat[r][col];
      ClearStep(w, u, cols, col, rank, r);
      if r != rank && mat[r][col] {
        AddKeepsSpan(u, r, rank, cols);
        AddRow(mat, rows, cols, r, rank);
      }
    }
    ColumnDone(w, View(mat[..], rows, cols), cols, col, piv);
  }

  lemma PivotRowFresh(w: seq<Vector>, cols: nat, col: nat, piv: seq<nat>)
    requires Reduced(w, cols, col, piv) && |piv| < |w|
    ensures forall c :: 0 <= c < col ==> !w[|piv|][c]
  {
  }
}
