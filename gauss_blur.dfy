/**
 * `gblur` (index.js): one cell of a windowed Gaussian blur over a scalar grid,
 * and the whole-grid pass that `_blur` repeats (`aww(width, x => aww(height, y => gblur(...)))`).
 *
 * Two behaviours of the source are kept on purpose:
 *  - the window's upper bound `min(c + radius, n - 1)` is exclusive, so the
 *    last row and the last column are never sampled;
 *  - the accumulator reads `map[x][_y]`, not `map[_x][_y]`: the window's rows
 *    only change the weights, every sample comes from the centre's row `x`.
 * The weight `e^-(dx² + dy²)` of window offset (dx, dy) is a parameter
 * `gauss(dx, dy)`, of which only positivity is assumed.
 */
module GaussBlur {
  import opened Helpers

  /** First index of the window around `c` (inclusive). */
  function Lo(c: int, radius: int): int { Max(c - radius, 0) }

  /** Upper end of the window around `c` in a dimension of size `n` (exclusive). */
  function Hi(c: int, radius: int, n: int): int { Min(c + radius, n - 1) }

  predicate WindowNonEmpty(x: int, y: int, radius: int, w: int, h: int)
  {
    Lo(x, radius) < Hi(x, radius, w) && Lo(y, radius) < Hi(y, radius, h)
  }

  ghost predicate Positive(gauss: (int, int) -> real)
  {
    forall dx, dy :: gauss(dx, dy) > 0.0
  }

  function Weight(gauss: (int, int) -> real, x: int, y: int, i: int, j: int): real
  {
    gauss(x - i, y - j)
  }

  /** Weighted sample at window cell (i, j): the value read is `g[x][j]`. */
  function Sample(g: seq<seq<real>>, x: int, y: int, i: int, gauss: (int, int) -> real): int -> real
  {
    j => if 0 <= x < |g| && 0 <= j < |g[x]| then g[x][j] * Weight(gauss, x, y, i, j) else 0.0
  }

  function WeightAt(x: int, y: int, i: int, gauss: (int, int) -> real): int -> real
  {
    j => Weight(gauss, x, y, i, j)
  }

  /** Sum of the weighted samples of window row `i`. */
  function RowSum(g: seq<seq<real>>, x: int, y: int, radius: int, h: int, gauss: (int, int) -> real): int -> real
  {
    i => SumOver(Lo(y, radius), Hi(y, radius, h) - 1, Sample(g, x, y, i, gauss))
  }

  /** Sum of the weights of window row `i`. */
  function RowWeight(x: int, y: int, radius: int, h: int, gauss: (int, int) -> real): int -> real
  {
    i => SumOver(Lo(y, radius), Hi(y, radius, h) - 1, WeightAt(x, y, i, gauss))
  }

  /** `s` after both loops of `gblur`. */
  function WindowSum(g: seq<seq<real>>, x: int, y: int, radius: int, w: int, h: int, gauss: (int, int) -> real): real
  {
    SumOver(Lo(x, radius), Hi(x, radius, w) - 1, RowSum(g, x, y, radius, h, gauss))
  }

  /** `ws` after both loops of `gblur`. */
  function WindowWeight(x: int, y: int, radius: int, w: int, h: int, gauss: (int, int) -> real): real
  {
    SumOver(Lo(x, radius), Hi(x, radius, w) - 1, RowWeight(x, y, radius, h, gauss))
  }

  lemma WindowWeightPositive(x: int, y: int, radius: int, w: int, h: int, gauss: (int, int) -> real)
    requires WindowNonEmpty(x, y, radius, w, h) && Positive(gauss)
    ensures WindowWeight(x, y, radius, w, h, gauss) > 0.0
  {
    var loY, hiY := Lo(y, radius), Hi(y, radius, h) - 1;
    forall i | Lo(x, radius) <= i <= Hi(x, radius, w) - 1
      ensures RowWeight(x, y, radius, h, gauss)(i) > 0.0
    {
      SumOverPositive(loY, hiY, WeightAt(x, y, i, gauss));
    }
    SumOverPositive(Lo(x, radius), Hi(x, radius, w) - 1, RowWeight(x, y, radius, h, gauss));
  }

  /** What `gblur(map, x, y, amount, radius)` returns: the window average blended with the centre. */
  ghost function BlurValue(g: seq<seq<real>>, x: int, y: int, amount: real, radius: int, gauss: (int, int) -> real): real
    requires Rectangular(g) && 0 <= x < |g| && 0 <= y < |g[0]|
    requires WindowNonEmpty(x, y, radius, |g|, |g[0]|) && Positive(gauss)
  {
    var w, h := |g|, |g[0]|;
    WindowWeightPositive(x, y, radius, w, h, gauss);
    Blend(WindowSum(g, x, y, radius, w, h, gauss) / WindowWeight(x, y, radius, w, h, gauss), g[x][y], amount)
  }

  /** `m * amount + v * (1 - amount)`: `amount` of the window average `m` mixed into the centre value `v`. */
  function Blend(m: real, v: real, amount: real): (r: real)
    ensures amount == 0.0 ==> r == v
    ensures amount == 1.0 ==> r == m
  {
    m * amount + v * (1.0 - amount)
  }

  /** A blend amount in [0, 1] lands between the two blended values. */
  lemma BlendBetween(m: real, v: real, amount: real)
    requires 0.0 <= amount <= 1.0
    ensures m <= Blend(m, v, amount) <= v || v <= Blend(m, v, amount) <= m
  {
    var d := m - v;
    assert Blend(m, v, amount) == v + d * amount;
    assert d * amount - d == -(d * (1.0 - amount));
    if d >= 0.0 {
      assert 0.0 <= d * amount && 0.0 <= d * (1.0 - amount);
    } else {
      assert d * amount <= 0.0 && d * (1.0 - amount) <= 0.0;
    }
  }

  /**
   * `gblur`: the two nested window loops accumulating `s` and `ws`. Every index
   * it reads is in range; with `amount == 0` it returns the centre unchanged.
   */
  method GBlur(g: seq<seq<real>>, x: int, y: int, amount: real, radius: int, gauss: (int, int) -> real)
    returns (r: real)
    requires Rectangular(g) && 0 <= x < |g| && 0 <= y < |g[0]|
    requires WindowNonEmpty(x, y, radius, |g|, |g[0]|) && Positive(gauss)
    ensures r == BlurValue(g, x, y, amount, radius, gauss)
    ensures amount == 0.0 ==> r == g[x][y]
  {
    var w, h := |g|, |g[0]|;
    var s, ws := 0.0, 0.0;
    var i := Max(x - radius, 0);
    while i < Min(x + radius, w - 1)
      invariant Lo(x, radius) <= i <= Hi(x, radius, w)
      invariant s == SumOver(Lo(x, radius), i - 1, RowSum(g, x, y, radius, h, gauss))
      invariant ws == SumOver(Lo(x, radius), i - 1, RowWeight(x, y, radius, h, gauss))
    {
      var rs, rws := WindowRow(g, x, y, i, radius, gauss);
      s := s + rs;
      ws := ws + rws;
      i := i + 1;
    }
    WindowWeightPositive(x, y, radius, w, h, gauss);
    r := Blend(s / ws, g[x][y], amount);
  }

  /** The inner loop of `gblur`: one window row's weighted values and weights. */
  method WindowRow(g: seq<seq<real>>, x: int, y: int, i: int, radius: int, gauss: (int, int) -> real)
    returns (s: real, ws: real)
    requires Rectangular(g) && 0 <= x < |g|
    ensures s == RowSum(g, x, y, radius, |g[0]|, gauss)(i)
    ensures ws == RowWeight(x, y, radius, |g[0]|, gauss)(i)
  {
    var h := |g[0]|;
    s, ws := 0.0, 0.0;
    var j := Max(y - radius, 0);
    while j < Min(y + radius, h - 1)
      invariant Lo(y, radius) <= j <= Hi(y, radius, h) || (j == Lo(y, radius) && Hi(y, radius, h) < j)
      invariant s == SumOver(Lo(y, radius), j - 1, Sample(g, x, y, i, gauss))
      invariant ws == SumOver(Lo(y, radius), j - 1, WeightAt(x, y, i, gauss))
    {
      var dx := x - i;
      var dy := y - j;
      var wt := gauss(dx, dy);
      assert Sample(g, x, y, i, gauss)(j) == g[x][j] * wt;
      assert WeightAt(x, y, i, gauss)(j) == wt;
      s := s + g[x][j] * wt;
      ws := ws + wt;
      j := j + 1;
    }
  }

  /**
   * Only row `x` (without its last cell) and the centre are ever read: two grids
   * that agree there blur to the same value at (x, y), whatever their other rows.
   */
  lemma BlurValueReadsRowX(g1: seq<seq<real>>, g2: seq<seq<real>>, x: int, y: int, amount: real, radius: int, gauss: (int, int) -> real)
    requires Rectangular(g1) && Rectangular(g2) && |g1| == |g2| && |g1[0]| == |g2[0]|
    requires 0 <= x < |g1| && 0 <= y < |g1[0]|
    requires WindowNonEmpty(x, y, radius, |g1|, |g1[0]|) && Positive(gauss)
    requires forall j :: 0 <= j < |g1[0]| - 1 ==> g1[x][j] == g2[x][j]
    requires g1[x][y] == g2[x][y]
    ensures BlurValue(g1, x, y, amount, radius, gauss) == BlurValue(g2, x, y, amount, radius, gauss)
  {
    var w, h := |g1|, |g1[0]|;
    forall i | Lo(x, radius) <= i <= Hi(x, radius, w) - 1
      ensures RowSum(g1, x, y, radius, h, gauss)(i) == RowSum(g2, x, y, radius, h, gauss)(i)
    {
      SumOverExt(Lo(y, radius), Hi(y, radius, h) - 1, Sample(g1, x, y, i, gauss), Sample(g2, x, y, i, gauss));
    }
    SumOverExt(Lo(x, radius), Hi(x, radius, w) - 1, RowSum(g1, x, y, radius, h, gauss), RowSum(g2, x, y, radius, h, gauss));
  }

  lemma SampleWithin(g: seq<seq<real>>, x: int, y: int, i: int, j: int, gauss: (int, int) -> real)
    requires 0 <= x < |g| && 0 <= j < |g[x]| && Positive(gauss)
    requires 0.0 <= g[x][j] <= 1.0
    ensures 0.0 <= Sample(g, x, y, i, gauss)(j) <= WeightAt(x, y, i, gauss)(j)
  {
    var v, c := g[x][j], Weight(gauss, x, y, i, j);
    assert c > 0.0;
    assert (1.0 - v) * c >= 0.0;
  }

  lemma RowSumWithin(g: seq<seq<real>>, x: int, y: int, i: int, radius: int, h: int, gauss: (int, int) -> real)
    requires 0 <= x < |g| && h == |g[x]| && Positive(gauss)
    requires forall j :: 0 <= j < |g[x]| ==> 0.0 <= g[x][j] <= 1.0
    ensures 0.0 <= RowSum(g, x, y, radius, h, gauss)(i) <= RowWeight(x, y, radius, h, gauss)(i)
  {
    var wt, smp := WeightAt(x, y, i, gauss), Sample(g, x, y, i, gauss);
    var a, b := Lo(y, radius), Hi(y, radius, h) - 1;
    assert TermsBetween(a, b, smp, wt, 0.0, 1.0) by {
      forall j | a <= j <= b
        ensures 0.0 * wt(j) <= smp(j) <= 1.0 * wt(j)
      {
        SampleWithin(g, x, y, i, j, gauss);
      }
    }
    SumOverBetween(a, b, smp, wt, 0.0, 1.0);
  }

  lemma WindowSumWithin(g: seq<seq<real>>, x: int, y: int, radius: int, w: int, h: int, gauss: (int, int) -> real)
    requires 0 <= x < |g| && h == |g[x]| && Positive(gauss)
    requires forall j :: 0 <= j < |g[x]| ==> 0.0 <= g[x][j] <= 1.0
    ensures 0.0 <= WindowSum(g, x, y, radius, w, h, gauss) <= WindowWeight(x, y, radius, w, h, gauss)
  {
    var a, b := Lo(x, radius), Hi(x, radius, w) - 1;
    assert TermsBetween(a, b, RowSum(g, x, y, radius, h, gauss), RowWeight(x, y, radius, h, gauss), 0.0, 1.0) by {
      forall i | a <= i <= b
        ensures 0.0 * RowWeight(x, y, radius, h, gauss)(i) <= RowSum(g, x, y, radius, h, gauss)(i) <= 1.0 * RowWeight(x, y, radius, h, gauss)(i)
      {
        RowSumWithin(g, x, y, i, radius, h, gauss);
      }
    }
    SumOverBetween(a, b, RowSum(g, x, y, radius, h, gauss), RowWeight(x, y, radius, h, gauss), 0.0, 1.0);
  }

  lemma BlurValueWithin(g: seq<seq<real>>, x: int, y: int, amount: real, radius: int, gauss: (int, int) -> real)
    requires Rectangular(g) && 0 <= x < |g| && 0 <= y < |g[0]|
    requires WindowNonEmpty(x, y, radius, |g|, |g[0]|) && Positive(gauss)
    requires 0.0 <= amount <= 1.0
    requires forall j :: 0 <= j < |g[x]| ==> 0.0 <= g[x][j] <= 1.0
    ensures 0.0 <= BlurValue(g, x, y, amount, radius, gauss) <= 1.0
  {
    var w, h := |g|, |g[0]|;
    var s, ws := WindowSum(g, x, y, radius, w, h, gauss), WindowWeight(x, y, radius, w, h, gauss);
    WindowSumWithin(g, x, y, radius, w, h, gauss);
    WindowWeightPositive(x, y, radius, w, h, gauss);
    var m := s / ws;
    QuotientWithin(s, ws, 0.0, 1.0);
    BlendBetween(m, g[x][y], amount);
    assert BlurValue(g, x, y, amount, radius, gauss) == Blend(m, g[x][y], amount);
  }

  /** Dividing by a positive weight turns `lo * ws <= s <= hi * ws` into bounds on the average. */
  lemma QuotientWithin(s: real, ws: real, lo: real, hi: real)
    requires ws > 0.0 && lo * ws <= s <= hi * ws
    ensures lo <= s / ws <= hi
  {
  }

  /** Every cell of a grid has a non-empty window: at least 2×2 cells and a radius of at least 1. */
  predicate Blurrable(g: seq<seq<real>>, radius: int)
  {
    Rectangular(g) && |g| >= 2 && |g[0]| >= 2 && radius >= 1
  }

  /** The windows are non-empty everywhere exactly when the grid is at least 2×2 and the radius at least 1. */
  lemma BlurrableWindows(g: seq<seq<real>>, radius: int)
    requires Rectangular(g) && |g[0]| > 0
    ensures Blurrable(g, radius) <==>
      forall x, y :: 0 <= x < |g| && 0 <= y < |g[0]| ==> WindowNonEmpty(x, y, radius, |g|, |g[0]|)
  {
    if Blurrable(g, radius) {
      forall x, y | 0 <= x < |g| && 0 <= y < |g[0]|
        ensures WindowNonEmpty(x, y, radius, |g|, |g[0]|)
      {
      }
    } else {
      assert Lo(0, radius) >= 0;
      assert !WindowNonEmpty(0, 0, radius, |g|, |g[0]|);
    }
  }

  ghost predicate Within01(g: seq<seq<real>>)
  {
    forall x, y :: 0 <= x < |g| && 0 <= y < |g[x]| ==> 0.0 <= g[x][y] <= 1.0
  }

  /** One whole-grid pass: `aww(width, x => aww(height, y => gblur(emap, x, y, amount, radius)))`. */
  ghost function BlurGridSpec(g: seq<seq<real>>, amount: real, radius: int, gauss: (int, int) -> real): (r: seq<seq<real>>)
    requires Blurrable(g, radius) && Positive(gauss)
    ensures Blurrable(r, radius) && |r| == |g| && |r[0]| == |g[0]|
  {
    var w, h := |g|, |g[0]|;
    Aww(w, (x: nat) requires x < w =>
      Aww(h, (y: nat) requires y < h => BlurValue(g, x, y, amount, radius, gauss)))
  }

  /** `n` passes in a row, each reading the whole previous grid and writing a fresh one. */
  ghost function Smoothed(g: seq<seq<real>>, n: nat, amount: real, radius: int, gauss: (int, int) -> real): (r: seq<seq<real>>)
    requires Blurrable(g, radius) && Positive(gauss)
    ensures Blurrable(r, radius) && |r| == |g| && |r[0]| == |g[0]|
    decreases n
  {
    if n == 0 then g else BlurGridSpec(Smoothed(g, n - 1, amount, radius, gauss), amount, radius, gauss)
  }

  /** The pass as the source runs it: every cell of a fresh grid is one `gblur` of the old one. */
  method BlurGrid(g: seq<seq<real>>, amount: real, radius: int, gauss: (int, int) -> real) returns (r: seq<seq<real>>)
    requires Blurrable(g, radius) && Positive(gauss)
    ensures r == BlurGridSpec(g, amount, radius, gauss)
  {
    var w, h := |g|, |g[0]|;
    ghost var spec := BlurGridSpec(g, amount, radius, gauss);
    r := [];
    var x := 0;
    while x < w
      invariant 0 <= x <= w && |r| == x
      invariant forall i :: 0 <= i < x ==> r[i] == spec[i]
    {
      var row := [];
      var y := 0;
      while y < h
        invariant 0 <= y <= h && |row| == y
        invariant forall j :: 0 <= j < y ==> row[j] == spec[x][j]
      {
        var v := GBlur(g, x, y, amount, radius, gauss);
        row := row + [v];
        y := y + 1;
      }
      r := r + [row];
      x := x + 1;
    }
  }

  /** The smoothing loop of `_blur` for one map: `n` passes of `BlurGrid`. */
  method SmoothMap(g: seq<seq<real>>, n: nat, amount: real, radius: int, gauss: (int, int) -> real) returns (r: seq<seq<real>>)
    requires Blurrable(g, radius) && Positive(gauss)
    ensures r == Smoothed(g, n, amount, radius, gauss)
  {
    r := g;
    var k := 0;
    while k < n
      invariant 0 <= k <= n
      invariant r == Smoothed(g, k, amount, radius, gauss)
    {
      r := BlurGrid(r, amount, radius, gauss);
      k := k + 1;
    }
  }

  /** Smoothing with a blend amount in [0, 1] keeps a grid of values in [0, 1] within [0, 1]. */
  lemma {:induction false} SmoothedWithin01(g: seq<seq<real>>, n: nat, amount: real, radius: int, gauss: (int, int) -> real)
    requires Blurrable(g, radius) && Positive(gauss)
    requires 0.0 <= amount <= 1.0 && Within01(g)
    ensures Within01(Smoothed(g, n, amount, radius, gauss))
    decreases n
  {
    if n > 0 {
      var prev := Smoothed(g, n - 1, amount, radius, gauss);
      SmoothedWithin01(g, n - 1, amount, radius, gauss);
      var r := BlurGridSpec(prev, amount, radius, gauss);
      forall x, y | 0 <= x < |r| && 0 <= y < |r[x]|
        ensures 0.0 <= r[x][y] <= 1.0
      {
        BlurValueWithin(prev, x, y, amount, radius, gauss);
      }
    }
  }

  /** With a blend amount of 0 smoothing changes nothing, however many passes run. */
  lemma {:induction false} SmoothedAtZero(g: seq<seq<real>>, n: nat, radius: int, gauss: (int, int) -> real)
    requires Blurrable(g, radius) && Positive(gauss)
    ensures Smoothed(g, n, 0.0, radius, gauss) == g
    decreases n
  {
    if n > 0 {
      SmoothedAtZero(g, n - 1, radius, gauss);
      var r := BlurGridSpec(g, 0.0, radius, gauss);
      assert forall x :: 0 <= x < |g| ==> r[x] == g[x];
    }
  }
}
