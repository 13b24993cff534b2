/** Index arithmetic shared by the site's three carousels: the Navbar's branch
    addresses, the testimonials slider and each product card's image strip.
    All of them step an index with JavaScript's `%`, so that operator is
    modelled here once, together with the wrap-around steps built on it. */
module Carousel {

  function Abs(n: int): (m: int)
    ensures m >= 0 && (m == n || m == -n)
  {
    if n < 0 then -n else n
  }

  /** JavaScript's remainder operator: the quotient is truncated toward zero,
      so the result takes the sign of the dividend (Dafny's own `%` is
      Euclidean and never negative). A divisor of 0 gives NaN in JavaScript;
      no caller in the model can reach it, so it is excluded here. */
  function JsRem(a: int, n: int): (r: int)
    requires n != 0
    ensures -Abs(n) < r < Abs(n)
    ensures a >= 0 ==> r >= 0
    ensures a <= 0 ==> r <= 0
    ensures (a - r) % Abs(n) == 0
  {
    var m := Abs(n);
    if a >= 0 then
      ModUnique(a - a % m, m, a / m, 0);
      a % m
    else
      ModUnique((-a) - (-a) % m, m, (-a) / m, 0);
      ModUnique(a + (-a) % m, m, -((-a) / m), 0);
      -((-a) % m)
  }

  /** `(prev + 1) % n`: the step to the following slide. */
  function Next(i: int, n: int): (j: int)
    requires 0 <= i < n
    ensures 0 <= j < n
    ensures j == if i == n - 1 then 0 else i + 1
  {
    JsRem(i + 1, n)
  }

  /** `(prev - 1 + n) % n`: the step to the preceding slide. */
  function Prev(i: int, n: int): (j: int)
    requires 0 <= i < n
    ensures 0 <= j < n
    ensures j == if i == 0 then n - 1 else i - 1
  {
    JsRem(i - 1 + n, n)
  }

  lemma NextUndoesPrev(i: int, n: int)
    requires 0 <= i < n
    ensures Next(Prev(i, n), n) == i
    ensures Prev(Next(i, n), n) == i
  {
  }

  /** The index reached after `k` steps forward, as produced by `k` ticks of an
      auto-advancing interval. */
  function Advance(i: int, n: int, k: nat): (j: int)
    requires 0 <= i < n
    ensures 0 <= j < n
  {
    if k == 0 then i else Next(Advance(i, n, k - 1), n)
  }

  /** `k` ticks move the index `k` places forward modulo the length. */
  lemma {:induction false} AdvanceIsModular(i: int, n: int, k: nat)
    requires 0 <= i < n
    ensures Advance(i, n, k) == (i + k) % n
  {
    if k > 0 {
      AdvanceIsModular(i, n, k - 1);
      var j := Advance(i, n, k - 1);
      assert j == (i + k - 1) % n;
      StepModular(i + k - 1, n);
    }
  }

  lemma StepModular(a: int, n: int)
    requires a >= 0 && n > 0
    ensures (if a % n == n - 1 then 0 else a % n + 1) == (a + 1) % n
  {
    var q, r := a / n, a % n;
    assert a == q * n + r;
    if r == n - 1 {
      assert a + 1 == (q + 1) * n + 0 by {
        assert (q + 1) * n == q * n + n;
      }
      ModUnique(a + 1, n, q + 1, 0);
    } else {
      ModUnique(a + 1, n, q, r + 1);
    }
  }

  /** The remainder is the unique `r` in `[0, n)` with `x == q * n + r`. */
  lemma ModUnique(x: int, n: int, q: int, r: int)
    requires n > 0 && 0 <= r < n && x == q * n + r
    ensures x % n == r
  {
    var d := q - x / n;
    assert d * n == x % n - r by {
      assert x == (x / n) * n + x % n;
      assert d * n == q * n - (x / n) * n;
    }
  }

  /** A full round of `n` ticks brings every carousel back to the slide it
      started from. */
  lemma FullRound(i: int, n: int)
    requires 0 <= i < n
    ensures Advance(i, n, n) == i
  {
    AdvanceIsModular(i, n, n);
    ModUnique(i + n, n, 1, i);
  }
}
