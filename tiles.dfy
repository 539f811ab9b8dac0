/**
 * Tiles and the world grid `map[x][y]` of `generate` (index.js): the tile
 * record the rules update in place, its initialisation with a clamped
 * height, `get_slope`, and the per-tile humidity and temperature.
 */
module Tiles {
  import opened Wrappers
  import opened Helpers

  /** A `{name, amount}` entry of a tile's `grounds` or `elements` list. */
  datatype Entry = Entry(name: string, amount: real)

  /** The `thing` argument of `_normalise` and `_blur`. */
  datatype Category = Grounds | Elements
  {
    function Other(): Category
    {
      if Grounds? then Elements else Grounds
    }
  }

  class Tile {
    var height: real
    var humidity: real
    var temperature: real
    var slope: seq<real>
    var grounds: seq<Entry>
    var elements: seq<Entry>
    var others: seq<string>

    /** The tile initialisation of `generate`: the height clamped to [0, 1], everything else empty. */
    constructor (h: real)
      ensures height == Clamp01(h) && 0.0 <= height <= 1.0
      ensures humidity == 0.0 && temperature == 0.0 && slope == []
      ensures grounds == [] && elements == [] && others == []
    {
      height := Clamp01(h);
      humidity, temperature := 0.0, 0.0;
      slope := [];
      grounds, elements, others := [], [], [];
    }

    /** `tile[thing]`. */
    function Items(cat: Category): seq<Entry>
      reads this
    {
      match cat
      case Grounds => grounds
      case Elements => elements
    }

    /** `tile[thing] = es`. */
    method SetItems(cat: Category, es: seq<Entry>)
      modifies this`grounds, this`elements
      ensures Items(cat) == es
      ensures Items(cat.Other()) == old(Items(cat.Other()))
    {
      match cat
      case Grounds => grounds := es;
      case Elements => elements := es;
    }
  }

  /** The first entry named `name` (`list.find(e => e.name == name)`). */
  function FindEntry(es: seq<Entry>, name: string): (r: Option<Entry>)
    ensures r.Some? <==> exists k :: 0 <= k < |es| && es[k].name == name
    ensures r.Some? ==> r.value in es && r.value.name == name
  {
    if es == [] then None
    else if es[0].name == name then Some(es[0])
    else
      var r := FindEntry(es[1..], name);
      assert forall k :: 1 <= k < |es| ==> es[k] == es[1..][k - 1];
      r
  }

  /** `find` returns the first entry with the name. */
  lemma {:induction false} FindEntryFirst(es: seq<Entry>, name: string, k: int)
    requires 0 <= k < |es| && es[k].name == name
    requires forall j :: 0 <= j < k ==> es[j].name != name
    ensures FindEntry(es, name) == Some(es[k])
  {
    if k > 0 {
      FindEntryFirst(es[1..], name, k - 1);
    }
  }

  function TilesOf(world: seq<seq<Tile>>): set<Tile>
  {
    set x, y | 0 <= x < |world| && 0 <= y < |world[x]| :: world[x][y]
  }

  /** Every cell holds its own tile object. */
  predicate Distinct(world: seq<seq<Tile>>)
  {
    forall x1, y1, x2, y2 ::
      0 <= x1 < |world| && 0 <= y1 < |world[x1]| && 0 <= x2 < |world| && 0 <= y2 < |world[x2]| &&
        (x1 != x2 || y1 != y2) ==>
      world[x1][y1] != world[x2][y2]
  }

  /** The tiles of `generate`: `hm.map(row => row.map(h => new tile))`. */
  method InitTiles(hm: seq<seq<real>>) returns (world: seq<seq<Tile>>)
    ensures |world| == |hm| && forall x :: 0 <= x < |hm| ==> |world[x]| == |hm[x]|
    ensures forall x, y :: 0 <= x < |hm| && 0 <= y < |hm[x]| ==>
      fresh(world[x][y]) && world[x][y].height == Clamp01(hm[x][y]) &&
      world[x][y].grounds == [] && world[x][y].elements == [] && world[x][y].others == [] &&
      world[x][y].slope == [] && world[x][y].humidity == 0.0 && world[x][y].temperature == 0.0
    ensures Distinct(world)
  {
    world := [];
    var x := 0;
    while x < |hm|
      invariant 0 <= x <= |hm| && |world| == x
      invariant forall i :: 0 <= i < x ==> |world[i]| == |hm[i]|
      invariant forall i, j :: 0 <= i < x && 0 <= j < |hm[i]| ==>
        fresh(world[i][j]) && world[i][j].height == Clamp01(hm[i][j]) &&
        world[i][j].grounds == [] && world[i][j].elements == [] && world[i][j].others == [] &&
        world[i][j].slope == [] && world[i][j].humidity == 0.0 && world[i][j].temperature == 0.0
      invariant Distinct(world)
    {
      var row := InitRow(hm[x]);
      world := world + [row];
      x := x + 1;
    }
  }

  /** One row of `generate`'s tile initialisation: a new tile per height. */
  method InitRow(hs: seq<real>) returns (row: seq<Tile>)
    ensures |row| == |hs|
    ensures forall j :: 0 <= j < |hs| ==>
      fresh(row[j]) && row[j].height == Clamp01(hs[j]) &&
      row[j].grounds == [] && row[j].elements == [] && row[j].others == [] && row[j].slope == [] &&
      row[j].humidity == 0.0 && row[j].temperature == 0.0
    ensures forall j1, j2 :: 0 <= j1 < j2 < |hs| ==> row[j1] != row[j2]
  {
    row := [];
    var y := 0;
    while y < |hs|
      invariant 0 <= y <= |hs| && |row| == y
      invariant forall j :: 0 <= j < y ==>
        fresh(row[j]) && row[j].height == Clamp01(hs[j]) &&
        row[j].grounds == [] && row[j].elements == [] && row[j].others == [] && row[j].slope == [] &&
        row[j].humidity == 0.0 && row[j].temperature == 0.0
      invariant forall j1, j2 :: 0 <= j1 < j2 < y ==> row[j1] != row[j2]
    {
      var t := new Tile(hs[y]);
      row := row + [t];
      y := y + 1;
    }
  }

  /**
   * `get_slope`: height differences between the neighbours on each axis, the
   * tile itself standing in for a neighbour beyond the edge.
   */
  function GetSlope(world: seq<seq<Tile>>, x: int, y: int): (r: seq<real>)
    requires Rectangular(world) && 0 <= x < |world| && 0 <= y < |world[x]|
    reads TilesOf(world)
    ensures |r| == 2
    ensures r[0] == world[Min(x + 1, |world| - 1)][y].height - world[Max(x - 1, 0)][y].height
    ensures r[1] == world[x][Min(y + 1, |world[x]| - 1)].height - world[x][Max(y - 1, 0)].height
    ensures |world| == 1 ==> r[0] == 0.0
    ensures |world[x]| == 1 ==> r[1] == 0.0
  {
    var x1 := if x > 0 then world[x - 1][y] else world[x][y];
    var x2 := if x < |world| - 1 then world[x + 1][y] else world[x][y];
    var y1 := if y > 0 then world[x][y - 1] else world[x][y];
    var y2 := if y < |world[x]| - 1 then world[x][y + 1] else world[x][y];
    [x2.height - x1.height, y2.height - y1.height]
  }

  /**
   * Humidity: `0.5 + slope_y * sin(sun_angle) + 0.5 * (latitude - 0.5)` clamped to
   * [0, 1], where `latitude` is the `cos(...)` term of the tile's `y`, shared by
   * all tiles with that `y`.
   */
  function Humidity(slopeY: real, sunSine: real, latitude: real): (r: real)
    ensures 0.0 <= r <= 1.0
  {
    Clamp01(0.5 + slopeY * sunSine + 0.5 * (latitude - 0.5))
  }

  /** Temperature: `sigma(height²) + 0.5 * (latitude - 1)`. */
  function Temperature(height: real, latitude: real): (r: real)
    requires -1.0 <= latitude <= 1.0
    ensures -1.0 <= r < 1.0
  {
    assert height * height >= 0.0;
    Sigma(height * height) + 0.5 * (latitude - 1.0)
  }

  /** At the same `y` (one latitude term), a higher tile is never colder. */
  lemma TemperatureRisesWithHeight(h1: real, h2: real, latitude: real)
    requires 0.0 <= h1 <= h2 && -1.0 <= latitude <= 1.0
    ensures Temperature(h1, latitude) <= Temperature(h2, latitude)
  {
    assert h1 * h1 <= h2 * h2 by {
      NonNegativeProduct(h2 - h1, h2 + h1);
      assert h2 * h2 - h1 * h1 == (h2 - h1) * (h2 + h1);
    }
    SigmaMonotone(h1 * h1, h2 * h2);
  }

  /**
   * The first `through` pass of `generate` on one tile, before its grounds:
   * slope from the neighbours, then humidity and temperature from it.
   */
  method DeriveAttributes(world: seq<seq<Tile>>, x: int, y: int, tile: Tile, sunSine: real, latitude: real)
    requires Rectangular(world) && 0 <= x < |world| && 0 <= y < |world[x]| && tile == world[x][y]
    requires -1.0 <= latitude <= 1.0
    modifies tile`slope, tile`humidity, tile`temperature
    ensures tile.slope == old(GetSlope(world, x, y))
    ensures tile.humidity == Humidity(tile.slope[1], sunSine, latitude)
    ensures tile.temperature == Temperature(tile.height, latitude)
  {
    tile.slope := GetSlope(world, x, y);
    tile.humidity := Humidity(tile.slope[1], sunSine, latitude);
    tile.temperature := Temperature(tile.height, latitude);
  }
}
