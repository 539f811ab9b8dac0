/**
 * `_blur(map, thing)` of index.js: spreads a category (grounds or elements)
 * over neighbouring tiles. For every registered spec it takes the grid of
 * that spec's amounts (0 where a tile lacks it), blurs that grid
 * `<thing>_smoothen` times with `gblur`, and then rebuilds every tile's list
 * from the blurred grids in spec order, keeping the amounts above
 * `<thing>_threshold`, and normalises it again.
 */
module CategoryBlur {
  import opened Wrappers
  import opened Helpers
  import opened Config
  import opened Tiles
  import opened GaussBlur
  import opened Normaliser

  /** The settings `_blur` reads for one category. */
  datatype BlurSettings = BlurSettings(smoothen: nat, amount: real, radius: int, threshold: real)

  /** `s[thing + "_smoothen"]`, `s[thing + "_smoothen_amount"]`, `s[thing + "_smoothen_radius"]`, `s[thing + "_threshold"]`. */
  function SettingsFor(s: Settings, cat: Category): BlurSettings
  {
    match cat
    case Grounds => BlurSettings(s.groundsSmoothen, s.groundsSmoothenAmount, s.groundsSmoothenRadius, s.groundsThreshold)
    case Elements => BlurSettings(s.elementsSmoothen, s.elementsSmoothenAmount, s.elementsSmoothenRadius, s.elementsThreshold)
  }

  /**
   * With the constructor's defaults, both `_blur` calls of `generate` run
   * (`<thing>_smoothen` is truthy) and their settings meet `Blur`'s
   * requirements on the radius and the threshold.
   */
  lemma DefaultsBlurrable(cat: Category)
    ensures var bs := SettingsFor(Defaults, cat);
      bs.smoothen > 0 && bs.radius >= 1 && bs.threshold >= 0.0 && 0.0 <= bs.amount <= 1.0
  {
  }

  /** A rectangular grid of lists, at least 2×2. */
  predicate ListGrid(lists: seq<seq<seq<Entry>>>)
  {
    Rectangular(lists) && |lists| >= 2 && |lists[0]| >= 2
  }

  /** The category lists of all tiles, as values. */
  function Snapshot(world: seq<seq<Tile>>, cat: Category): (r: seq<seq<seq<Entry>>>)
    requires Rectangular(world)
    reads TilesOf(world)
    ensures |r| == |world| && forall x :: 0 <= x < |world| ==> |r[x]| == |world[x]|
    ensures forall x, y :: 0 <= x < |world| && 0 <= y < |world[x]| ==> r[x][y] == world[x][y].Items(cat)
  {
    seq(|world|, x requires 0 <= x < |world| reads TilesOf(world) =>
      seq(|world[x]|, y requires 0 <= y < |world[x]| reads TilesOf(world) => world[x][y].Items(cat)))
  }

  /** The amount of `name` in a list: its first entry's amount, 0 when absent. */
  function AmountIn(es: seq<Entry>, name: string): (a: real)
    ensures (forall k :: 0 <= k < |es| ==> es[k].name != name) ==> a == 0.0
    ensures (exists k :: 0 <= k < |es| && es[k].name == name) ==> a == FindEntry(es, name).value.amount
  {
    match FindEntry(es, name)
    case None => 0.0
    case Some(e) => e.amount
  }

  /** The grid of one spec's amounts (`map.map(row => row.map(tile => ...))`). */
  function EntryMap(lists: seq<seq<seq<Entry>>>, name: string): (r: seq<seq<real>>)
    requires ListGrid(lists)
    ensures |r| == |lists| && Rectangular(r) && |r[0]| == |lists[0]|
    ensures forall x, y :: 0 <= x < |lists| && 0 <= y < |lists[x]| ==> r[x][y] == AmountIn(lists[x][y], name)
  {
    seq(|lists|, x requires 0 <= x < |lists| =>
      seq(|lists[x]|, y requires 0 <= y < |lists[x]| => AmountIn(lists[x][y], name)))
  }

  /** `maps` after smoothing: one blurred grid per registered spec, in spec order. */
  ghost function SmoothedMaps(lists: seq<seq<seq<Entry>>>, specs: seq<Ranked>, bs: BlurSettings, gauss: (int, int) -> real): (r: seq<seq<seq<real>>>)
    requires ListGrid(lists) && bs.radius >= 1 && Positive(gauss)
    ensures |r| == |specs|
    ensures forall i :: 0 <= i < |specs| ==> |r[i]| == |lists| && Rectangular(r[i]) && |r[i][0]| == |lists[0]|
  {
    seq(|specs|, i requires 0 <= i < |specs| =>
      Smoothed(EntryMap(lists, specs[i].name), bs.smoothen, bs.amount, bs.radius, gauss))
  }

  predicate IsCell(g: seq<seq<real>>, x: int, y: int)
  {
    0 <= x < |g| && 0 <= y < |g[x]|
  }

  /** The blurred values at one cell, one per spec. */
  function Column(maps: seq<seq<seq<real>>>, x: int, y: int): (r: seq<real>)
    requires forall i :: 0 <= i < |maps| ==> IsCell(maps[i], x, y)
    ensures |r| == |maps| && forall i :: 0 <= i < |maps| ==> IsCell(maps[i], x, y) && r[i] == maps[i][x][y]
  {
    seq(|maps|, i requires 0 <= i < |maps| => assert IsCell(maps[i], x, y); maps[i][x][y])
  }

  /** The indices of the values above `threshold`, ascending. */
  function Kept(values: seq<real>, threshold: real): (ks: seq<int>)
    ensures forall k :: 0 <= k < |ks| ==> 0 <= ks[k] < |values| && values[ks[k]] > threshold
    ensures forall k, l :: 0 <= k < l < |ks| ==> ks[k] < ks[l]
  {
    if values == [] then []
    else
      var n := |values| - 1;
      var init := Kept(values[..n], threshold);
      init + (if values[n] > threshold then [n] else [])
  }

  /** No value above the threshold is missed. */
  lemma {:induction false} KeptComplete(values: seq<real>, threshold: real, i: int)
    requires 0 <= i < |values| && values[i] > threshold
    ensures i in Kept(values, threshold)
  {
    var n := |values| - 1;
    if i < n {
      KeptComplete(values[..n], threshold, i);
    }
  }

  /**
   * The new list of a tile: `{name: specs[i].name, amount: values[i]}` for
   * each spec, filtered by `amount > threshold`.
   */
  function Reassemble(specs: seq<Ranked>, values: seq<real>, threshold: real): (r: seq<Entry>)
    requires |values| == |specs|
    ensures var ks := Kept(values, threshold);
      |r| == |ks| && forall k :: 0 <= k < |ks| ==> r[k] == Entry(specs[ks[k]].name, values[ks[k]])
  {
    if specs == [] then []
    else
      var n := |specs| - 1;
      var init := Reassemble(specs[..n], values[..n], threshold);
      assert forall i :: 0 <= i < n ==> specs[..n][i] == specs[i] && values[..n][i] == values[i];
      assert Kept(values, threshold) == Kept(values[..n], threshold) + (if values[n] > threshold then [n] else []);
      init + (if values[n] > threshold then [Entry(specs[n].name, values[n])] else [])
  }

  /** Every spec has a positive weight in the normalising total: no priority, or a positive one. */
  predicate PositivePriorities(specs: seq<Ranked>)
  {
    forall i :: 0 <= i < |specs| ==> specs[i].priority.None? || specs[i].priority.value > 0.0
  }

  /** A rebuilt list can be normalised: its names are registered and its total is positive. */
  lemma ReassembleNormalisable(specs: seq<Ranked>, values: seq<real>, threshold: real)
    requires |values| == |specs| && threshold >= 0.0 && PositivePriorities(specs)
    ensures var r := Reassemble(specs, values, threshold);
      AllRegistered(r, specs) && NoZeroPriority(r, specs) && (r != [] ==> WeightedSum(r, specs) > 0.0)
  {
    var r := Reassemble(specs, values, threshold);
    forall k | 0 <= k < |r|
      ensures FindSpec(specs, r[k].name).Some?
      ensures PriorityOf(specs, r[k].name) != Some(0.0)
      ensures WeightTerm(r, specs)(k) > 0.0
    {
      ReassembledEntry(specs, values, threshold, k);
    }
    if r != [] {
      SumOverPositive(0, |r| - 1, WeightTerm(r, specs));
    }
  }

  lemma ReassembledEntry(specs: seq<Ranked>, values: seq<real>, threshold: real, k: int)
    requires |values| == |specs| && threshold >= 0.0 && PositivePriorities(specs)
    requires 0 <= k < |Reassemble(specs, values, threshold)|
    ensures var r := Reassemble(specs, values, threshold);
      FindSpec(specs, r[k].name).Some? && PriorityOf(specs, r[k].name) != Some(0.0) &&
      WeightTerm(r, specs)(k) > 0.0
  {
    var r := Reassemble(specs, values, threshold);
    var ks := Kept(values, threshold);
    var i := ks[k];
    assert 0 <= i < |specs| && specs[i].name == r[k].name && r[k].amount > 0.0;
    PositiveWeightTerm(r, specs, k);
  }

  /** A registered entry with a positive amount weighs positively in the total. */
  lemma {:induction false} PositiveWeightTerm(es: seq<Entry>, specs: seq<Ranked>, k: int)
    requires 0 <= k < |es| && es[k].amount > 0.0 && PositivePriorities(specs)
    requires exists i :: 0 <= i < |specs| && specs[i].name == es[k].name
    ensures FindSpec(specs, es[k].name).Some? && PriorityOf(specs, es[k].name) != Some(0.0)
    ensures WeightTerm(es, specs)(k) > 0.0
  {
    var spec := FindSpec(specs, es[k].name).value;
    assert spec.priority.None? || spec.priority.value > 0.0;
    if spec.priority.Some? {
      PositiveProduct(es[k].amount, spec.priority.value);
    }
  }

  /** A tile's rebuilt list after normalisation. */
  function Rebuilt(specs: seq<Ranked>, values: seq<real>, threshold: real): seq<Entry>
    requires |values| == |specs| && threshold >= 0.0 && PositivePriorities(specs)
  {
    ReassembleNormalisable(specs, values, threshold);
    Normalised(Reassemble(specs, values, threshold), specs)
  }

  /** What the `through` callback leaves on the tile at `(x, y)`. */
  ghost function BlurredList(lists: seq<seq<seq<Entry>>>, specs: seq<Ranked>, bs: BlurSettings,
                             gauss: (int, int) -> real, x: int, y: int): (r: seq<Entry>)
    requires ListGrid(lists) && bs.radius >= 1 && Positive(gauss)
    requires bs.threshold >= 0.0 && PositivePriorities(specs)
    requires 0 <= x < |lists| && 0 <= y < |lists[0]|
  {
    Rebuilt(specs, Column(SmoothedMaps(lists, specs, bs, gauss), x, y), bs.threshold)
  }

  /**
   * After `_blur` a tile holds, in spec order, exactly the specs whose
   * blurred amount at the tile is above the threshold, and their amounts sum
   * to 1 unless none is left.
   */
  lemma BlurredListLaw(lists: seq<seq<seq<Entry>>>, specs: seq<Ranked>, bs: BlurSettings,
                       gauss: (int, int) -> real, x: int, y: int)
    requires ListGrid(lists) && bs.radius >= 1 && Positive(gauss)
    requires bs.threshold >= 0.0 && PositivePriorities(specs)
    requires 0 <= x < |lists| && 0 <= y < |lists[0]|
    ensures var values := Column(SmoothedMaps(lists, specs, bs, gauss), x, y);
      var ks := Kept(values, bs.threshold);
      var r := BlurredList(lists, specs, bs, gauss, x, y);
      |r| == |ks| && (forall k :: 0 <= k < |ks| ==> r[k].name == specs[ks[k]].name) &&
      (r != [] ==> AmountSum(r) == 1.0)
  {
    var values := Column(SmoothedMaps(lists, specs, bs, gauss), x, y);
    var es := Reassemble(specs, values, bs.threshold);
    ReassembleNormalisable(specs, values, bs.threshold);
    if es != [] {
      NormalisedSumsToOne(es, specs);
    }
  }

  /** The `through` callback of `_blur`: rebuilds the tile's list from the blurred values, then normalises it. */
  method RebuildTile(tile: Tile, cat: Category, specs: seq<Ranked>, values: seq<real>, threshold: real)
    requires |values| == |specs| && threshold >= 0.0 && PositivePriorities(specs)
    modifies tile`grounds, tile`elements
    ensures tile.Items(cat) == Rebuilt(specs, values, threshold)
    ensures tile.Items(cat.Other()) == old(tile.Items(cat.Other()))
  {
    ReassembleNormalisable(specs, values, threshold);
    tile.SetItems(cat, Reassemble(specs, values, threshold));
    Normalise(tile, cat, specs);
  }

  /** The grids all have the world's shape. */
  predicate Shaped(maps: seq<seq<seq<real>>>, world: seq<seq<Tile>>)
  {
    forall i :: 0 <= i < |maps| ==> |maps[i]| == |world| && forall x :: 0 <= x < |world| ==> |maps[i][x]| == |world[x]|
  }

  /**
   * `_blur(map, thing)`: the per-spec amount grids, smoothed with `gblur`,
   * then a `through` pass rebuilding and normalising every tile's list.
   */
  method Blur(world: seq<seq<Tile>>, cat: Category, specs: seq<Ranked>, bs: BlurSettings, gauss: (int, int) -> real)
    requires Rectangular(world) && |world| >= 2 && |world[0]| >= 2 && bs.radius >= 1
    requires Distinct(world) && Positive(gauss)
    requires bs.threshold >= 0.0 && PositivePriorities(specs)
    modifies TilesOf(world)`grounds, TilesOf(world)`elements
    ensures forall x, y :: 0 <= x < |world| && 0 <= y < |world[x]| ==>
      world[x][y].Items(cat) == BlurredList(old(Snapshot(world, cat)), specs, bs, gauss, x, y)
    ensures forall x, y :: 0 <= x < |world| && 0 <= y < |world[x]| ==>
      world[x][y].Items(cat.Other()) == old(world[x][y].Items(cat.Other()))
  {
    var lists := Snapshot(world, cat);
    assert ListGrid(lists);
    var maps := SmoothAll(lists, specs, bs, gauss);
    assert Shaped(maps, world);
    Rebuild(world, cat, specs, bs.threshold, maps);
    forall x, y | 0 <= x < |world| && 0 <= y < |world[x]|
      ensures world[x][y].Items(cat) == BlurredList(lists, specs, bs, gauss, x, y)
    {
      BlurredListOf(lists, specs, bs, gauss, maps, x, y);
    }
  }

  /** `maps`, built and then smoothed grid by grid (`maps.map(emap => ...)`). */
  method SmoothAll(lists: seq<seq<seq<Entry>>>, specs: seq<Ranked>, bs: BlurSettings, gauss: (int, int) -> real)
    returns (maps: seq<seq<seq<real>>>)
    requires ListGrid(lists) && bs.radius >= 1 && Positive(gauss)
    ensures maps == SmoothedMaps(lists, specs, bs, gauss)
  {
    maps := [];
    var i := 0;
    while i < |specs|
      invariant 0 <= i <= |specs| && |maps| == i
      invariant forall j :: 0 <= j < i ==> maps[j] == SmoothedMaps(lists, specs, bs, gauss)[j]
    {
      var emap := EntryMap(lists, specs[i].name);
      emap := SmoothMap(emap, bs.smoothen, bs.amount, bs.radius, gauss);
      maps := maps + [emap];
      i := i + 1;
    }
  }

  lemma BlurredListOf(lists: seq<seq<seq<Entry>>>, specs: seq<Ranked>, bs: BlurSettings,
                      gauss: (int, int) -> real, maps: seq<seq<seq<real>>>, x: int, y: int)
    requires ListGrid(lists) && bs.radius >= 1 && Positive(gauss)
    requires bs.threshold >= 0.0 && PositivePriorities(specs)
    requires 0 <= x < |lists| && 0 <= y < |lists[0]|
    requires maps == SmoothedMaps(lists, specs, bs, gauss)
    ensures forall i :: 0 <= i < |maps| ==> IsCell(maps[i], x, y)
    ensures BlurredList(lists, specs, bs, gauss, x, y) == Rebuilt(specs, Column(maps, x, y), bs.threshold)
  {
  }

  /** The `through` pass of `_blur` over the smoothed grids `maps`. */
  method Rebuild(world: seq<seq<Tile>>, cat: Category, specs: seq<Ranked>, threshold: real, maps: seq<seq<seq<real>>>)
    requires Rectangular(world) && Distinct(world)
    requires |maps| == |specs| && Shaped(maps, world)
    requires threshold >= 0.0 && PositivePriorities(specs)
    modifies TilesOf(world)`grounds, TilesOf(world)`elements
    ensures forall x, y :: 0 <= x < |world| && 0 <= y < |world[x]| ==>
      world[x][y].Items(cat) == Rebuilt(specs, Column(maps, x, y), threshold)
    ensures forall x, y :: 0 <= x < |world| && 0 <= y < |world[x]| ==>
      world[x][y].Items(cat.Other()) == old(world[x][y].Items(cat.Other()))
  {
    var x := 0;
    while x < |world|
      invariant 0 <= x <= |world|
      invariant forall a, b :: 0 <= a < x && 0 <= b < |world[a]| ==>
        world[a][b].Items(cat) == Rebuilt(specs, Column(maps, a, b), threshold)
      invariant forall a, b :: 0 <= a < |world| && 0 <= b < |world[a]| ==>
        world[a][b].Items(cat.Other()) == old(world[a][b].Items(cat.Other()))
    {
      RebuildRow(world, x, cat, specs, threshold, maps);
      x := x + 1;
    }
  }

  /** The `through` pass along row `x`. */
  method RebuildRow(world: seq<seq<Tile>>, x: int, cat: Category, specs: seq<Ranked>, threshold: real, maps: seq<seq<seq<real>>>)
    requires Rectangular(world) && Distinct(world) && 0 <= x < |world|
    requires |maps| == |specs| && Shaped(maps, world)
    requires threshold >= 0.0 && PositivePriorities(specs)
    modifies TilesOf(world)`grounds, TilesOf(world)`elements
    ensures forall b :: 0 <= b < |world[x]| ==>
      world[x][b].Items(cat) == Rebuilt(specs, Column(maps, x, b), threshold)
    ensures forall a, b :: 0 <= a < |world| && a != x && 0 <= b < |world[a]| ==>
      world[a][b].Items(cat) == old(world[a][b].Items(cat))
    ensures forall t :: t in TilesOf(world) ==> t.Items(cat.Other()) == old(t.Items(cat.Other()))
  {
    var y := 0;
    while y < |world[x]|
      invariant 0 <= y <= |world[x]|
      invariant forall b :: 0 <= b < y ==>
        world[x][b].Items(cat) == Rebuilt(specs, Column(maps, x, b), threshold)
      invariant forall a, b :: 0 <= a < |world| && a != x && 0 <= b < |world[a]| ==>
        world[a][b].Items(cat) == old(world[a][b].Items(cat))
      invariant forall t :: t in TilesOf(world) ==> t.Items(cat.Other()) == old(t.Items(cat.Other()))
    {
      var tile := world[x][y];
      assert forall a, b :: 0 <= a < |world| && 0 <= b < |world[a]| && (a != x || b != y) ==> world[a][b] != tile;
      RebuildTile(tile, cat, specs, Column(maps, x, y), threshold);
      y := y + 1;
    }
  }
}
