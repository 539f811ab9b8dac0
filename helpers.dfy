/**
 * The free helper functions at the bottom of index.js: `sum`, `aww`,
 * `through`, `sigma`, and the clamp used when tiles are built.
 */
module Helpers {

  function Min(a: int, b: int): int { if a < b then a else b }
  function Max(a: int, b: int): int { if a < b then b else a }

  /** A grid `g[x][y]` with at least one row, all rows equally long. */
  predicate Rectangular<T>(g: seq<seq<T>>)
  {
    |g| > 0 && forall x :: 0 <= x < |g| ==> |g[x]| == |g[0]|
  }

  /** `sum(start, n, f)`: f summed over start..n, both ends included; 0 when n < start. */
  function SumOver(start: int, n: int, f: int -> real): real
    decreases n - start
  {
    if n < start then 0.0 else SumOver(start, n - 1, f) + f(n)
  }

  /** The loop of `sum`: accumulates `s` while `x` runs from `start` up to `n` inclusive. */
  method Sum(start: int, n: int, f: int -> real) returns (s: real)
    ensures s == SumOver(start, n, f)
  {
    s := 0.0;
    var x := start;
    while x <= n
      invariant start <= x <= (if n < start then start else n + 1)
      invariant s == SumOver(start, x - 1, f)
    {
      s := s + f(x);
      x := x + 1;
    }
  }

  /** Sums only depend on the summands inside the range. */
  lemma {:induction false} SumOverExt(start: int, n: int, f: int -> real, g: int -> real)
    requires forall i :: start <= i <= n ==> f(i) == g(i)
    ensures SumOver(start, n, f) == SumOver(start, n, g)
    decreases n - start
  {
    if start <= n {
      SumOverExt(start, n - 1, f, g);
    }
  }

  /** A common factor comes out of a sum. */
  lemma {:induction false} SumOverScale(start: int, n: int, f: int -> real, g: int -> real, c: real)
    requires forall i :: start <= i <= n ==> f(i) == g(i) * c
    ensures SumOver(start, n, f) == SumOver(start, n, g) * c
    decreases n - start
  {
    if start <= n {
      SumOverScale(start, n - 1, f, g, c);
    }
  }

  /** Summing preserves a pointwise order. */
  lemma {:induction false} SumOverMono(start: int, n: int, f: int -> real, g: int -> real)
    requires forall i :: start <= i <= n ==> f(i) <= g(i)
    ensures SumOver(start, n, f) <= SumOver(start, n, g)
    decreases n - start
  {
    if start <= n {
      SumOverMono(start, n - 1, f, g);
    }
  }

  /** Terms scaled by the inverse `c` of their sum add up to 1. */
  lemma SumScaledToOne(start: int, n: int, f: int -> real, g: int -> real, c: real)
    requires SumOver(start, n, g) * c == 1.0
    requires forall i :: start <= i <= n ==> f(i) == g(i) * c
    ensures SumOver(start, n, f) == 1.0
  {
    SumOverScale(start, n, f, g, c);
  }

  lemma InverseProduct(t: real)
    requires t != 0.0
    ensures t * (1.0 / t) == 1.0
  {
  }

  /** Every term `f(i)` over start..n lies between `lo * wt(i)` and `hi * wt(i)`. */
  ghost predicate TermsBetween(start: int, n: int, f: int -> real, wt: int -> real, lo: real, hi: real)
  {
    forall i :: start <= i <= n ==> lo * wt(i) <= f(i) <= hi * wt(i)
  }

  /** Bounding each term by multiples of a weight bounds the sum by the same multiples of the summed weight. */
  lemma {:induction false} SumOverBetween(start: int, n: int, f: int -> real, wt: int -> real, lo: real, hi: real)
    requires TermsBetween(start, n, f, wt, lo, hi)
    ensures lo * SumOver(start, n, wt) <= SumOver(start, n, f) <= hi * SumOver(start, n, wt)
    decreases n - start
  {
    if start <= n {
      SumOverBetween(start, n - 1, f, wt, lo, hi);
      assert lo * SumOver(start, n, wt) == lo * SumOver(start, n - 1, wt) + lo * wt(n);
      assert hi * SumOver(start, n, wt) == hi * SumOver(start, n - 1, wt) + hi * wt(n);
    }
  }

  /** A non-empty sum of positive terms is positive. */
  lemma {:induction false} SumOverPositive(start: int, n: int, f: int -> real)
    requires start <= n
    requires forall i :: start <= i <= n ==> f(i) > 0.0
    ensures SumOver(start, n, f) > 0.0
    decreases n - start
  {
    if start < n {
      SumOverPositive(start, n - 1, f);
    } else {
      assert SumOver(start, n - 1, f) == 0.0;
    }
  }

  /** `aww(n, f)`: the array `[f(0), ..., f(n - 1)]`. */
  function Aww<T>(n: nat, f: nat --> T): (r: seq<T>)
    requires forall i: nat :: i < n ==> f.requires(i)
    ensures |r| == n
    ensures forall i: nat :: i < n ==> r[i] == f(i)
  {
    seq(n, (i: int) requires 0 <= i < n => f(i))
  }

  /** The order in which `through` visits a grid whose row `x` has `lens[x]` cells. */
  function Visits(lens: seq<nat>): seq<(nat, nat)>
  {
    if lens == [] then []
    else Visits(lens[..|lens| - 1]) + RowVisits(|lens| - 1, lens[|lens| - 1])
  }

  function RowVisits(x: nat, n: nat): seq<(nat, nat)>
  {
    if n == 0 then [] else RowVisits(x, n - 1) + [(x, n - 1)]
  }

  /** Strict x-major (row by row, then column) order on grid positions. */
  predicate Before(p: (nat, nat), q: (nat, nat))
  {
    p.0 < q.0 || (p.0 == q.0 && p.1 < q.1)
  }

  lemma {:induction false} RowVisitsShape(x: nat, n: nat)
    ensures |RowVisits(x, n)| == n
    ensures forall k :: 0 <= k < n ==> RowVisits(x, n)[k] == (x, k)
  {
    if n > 0 {
      RowVisitsShape(x, n - 1);
    }
  }

  /** `through` visits exactly the cells of the grid. */
  lemma {:induction false} VisitsCoverGrid(lens: seq<nat>, p: (nat, nat))
    ensures p in Visits(lens) <==> p.0 < |lens| && p.1 < lens[p.0]
  {
    if lens != [] {
      var last := |lens| - 1;
      VisitsCoverGrid(lens[..last], p);
      RowVisitsShape(last, lens[last]);
      if p.0 == last && p.1 < lens[last] {
        assert RowVisits(last, lens[last])[p.1] == p;
      }
    }
  }

  /** `through` goes x-major: every visit comes strictly after the previous ones, so no cell twice. */
  lemma {:induction false} VisitsXMajor(lens: seq<nat>)
    ensures forall i, j :: 0 <= i < j < |Visits(lens)| ==> Before(Visits(lens)[i], Visits(lens)[j])
  {
    if lens != [] {
      var last := |lens| - 1;
      var init := lens[..last];
      VisitsXMajor(init);
      RowVisitsShape(last, lens[last]);
      var v := Visits(lens);
      var a := Visits(init);
      forall i, j | 0 <= i < j < |v|
        ensures Before(v[i], v[j])
      {
        if j >= |a| {
          if i < |a| {
            VisitsCoverGrid(init, a[i]);
            assert a[i] in a;
          }
        }
      }
    }
  }

  /** `sigma(x) = x / (|x| + 1)`: a squash into (-1, 1) that keeps the sign. */
  function Sigma(x: real): (r: real)
    ensures -1.0 < r < 1.0
    ensures (r < 0.0) == (x < 0.0) && (r == 0.0) == (x == 0.0)
  {
    var a := if x < 0.0 then -x else x;
    assert a + 1.0 > 0.0;
    x / (a + 1.0)
  }

  /** `sigma` never reverses the order of its arguments. */
  lemma SigmaMonotone(x: real, y: real)
    requires x <= y
    ensures Sigma(x) <= Sigma(y)
  {
    var ax := if x < 0.0 then -x else x;
    var ay := if y < 0.0 then -y else y;
    var p, q := ax + 1.0, ay + 1.0;
    assert Sigma(x) == x / p && Sigma(y) == y / q;
    // cross-multiplied form, by the signs of x and y
    assert x * q <= y * p by {
      if 0.0 <= x {
        assert x * q == x * y + x && y * p == x * y + y;
      } else if y < 0.0 {
        assert x * q == -(x * y) + x && y * p == -(x * y) + y;
      } else {
        assert x * q < 0.0 <= y * p;
      }
    }
    DivCross(x, y, p, q);
  }

  /** Comparing two quotients by cross-multiplying. */
  lemma DivCross(a: real, b: real, p: real, q: real)
    requires p > 0.0 && q > 0.0 && a * q <= b * p
    ensures a / p <= b / q
  {
    var u, v := a / p, b / q;
    assert a == u * p && b == v * q;
    assert (u - v) * (p * q) == a * q - b * p;
    NonPositiveFactor(u - v, p * q);
  }

  lemma NonPositiveFactor(d: real, m: real)
    requires m > 0.0 && d * m <= 0.0
    ensures d <= 0.0
  {
  }

  lemma NegativeFactor(d: real, m: real)
    requires m > 0.0 && d * m < 0.0
    ensures d < 0.0
  {
  }

  lemma NonNegativeProduct(a: real, b: real)
    requires a >= 0.0 && b >= 0.0
    ensures a * b >= 0.0
  {
  }

  lemma PositiveProduct(a: real, b: real)
    requires a > 0.0 && b > 0.0
    ensures a * b > 0.0
  {
  }

  /** `Math.min(Math.max(h, 0), 1)`. */
  function Clamp01(h: real): (r: real)
    ensures 0.0 <= r <= 1.0
    ensures 0.0 <= h <= 1.0 ==> r == h
    ensures h < 0.0 ==> r == 0.0
    ensures h > 1.0 ==> r == 1.0
  {
    var lo := if h < 0.0 then 0.0 else h;
    if lo > 1.0 then 1.0 else lo
  }
}
