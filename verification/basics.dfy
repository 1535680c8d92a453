/** Vocabulary shared by the modules: constant sequences, powers of two, options. */
module Basics {

  datatype Option<T> = None | Some(value: T)

  function Repeat<T>(n: nat, x: T): (s: seq<T>)
    ensures |s| == n && forall i :: 0 <= i < n ==> s[i] == x
  {
    seq(n, i => x)
  }

  function Pow2(k: nat): (r: nat)
    ensures r >= 1
  {
    if k == 0 then 1 else 2 * Pow2(k - 1)
  }

  // ---- Quotients -------------------------------------------------------------------

  lemma {:induction false} TimesGrows(d: nat, a: nat, b: nat)
    requires a <= b
    ensures d * a <= d * b
    decreases b - a
  {
    if a < b {
      TimesGrows(d, a + 1, b);
      assert d * (a + 1) == d * a + d;
    }
  }

  lemma TimesOrder(d: nat, a: nat, b: nat)
    ensures a < b ==> d * a + d <= d * b
  {
    if a < b {
      assert d * (a + 1) == d * a + d;
      TimesGrows(d, a + 1, b);
    }
  }

  lemma QuotientUnique(n: nat, d: nat, q: nat, r: nat)
    requires r < d && n == d * q + r
    ensures n / d == q
  {
    var p := n / d;
    assert n == d * p + n % d;
    TimesOrder(d, p, q);
    TimesOrder(d, q, p);
  }
}
