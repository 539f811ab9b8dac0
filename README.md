# WorldGen tile classification and post-processing, in Dafny

WorldGen (`index.js`) generates a 2-D world. It builds a height map, turns each
cell into a tile, and gives each tile a slope, a humidity and a temperature.
It then classifies the tiles with three kinds of rule: grounds, others and
elements. Two post-processing steps follow. `_normalise` rescales a tile's
grounds or elements by their priority-weighted total. `_blur` spreads a
category over neighbouring tiles with a windowed Gaussian blur (`gblur`).

This project models that classification and post-processing core.

- `Tiles.Tile` is a class whose fields the rules update in place. The world is
  a grid `seq<seq<Tile>>` of distinct tile objects.
- The rule filters (`Rules`) are methods. Each pushes at most one entry onto
  one list of a tile. Each is proved equal to a function that says when it
  pushes and what amount it pushes.
- `_normalise` (`Normaliser`) and `_blur` (`CategoryBlur`) are methods over
  tiles and grids. They are proved against specification functions, and the
  source's promises are proved about those functions: names and order are
  kept, the amounts sum to 1, and only values strictly above the threshold
  survive, in spec order.
- `gblur`, `sum`, `aww`, `through`, `sigma` and `get_slope` are in `Helpers`,
  `GaussBlur` and `Tiles`.

Inputs the core cannot compute exactly are parameters:

- a simplex noise value in [-1, 1];
- the slope magnitude, constrained to be the Euclidean length of the slope vector;
- `sin(sun_angle)` and the latitude `cos` term;
- the Gaussian weight `e^-(dx²+dy²)`, as a positive function `gauss(dx, dy)`.

The model keeps these behaviours of the code as written.

- **The `_normalise` weights differ for priority 0.**
  - The total weighs an entry by its priority, or by 1 when the priority is
    undefined (index.js:180).
  - The rescaling multiplies by `priority || 1` (index.js:185).
  - For a priority of 0 the two disagree, so the amounts then need not sum
    to 1. `Normaliser.NormaliseZeroPriority` exhibits a list whose normalised
    amounts sum to 2.
- **The `gblur` window upper bounds are exclusive** (`min(c + radius, n - 1)`).
  The last row and the last column are never in the window.
- **The `gblur` accumulator reads `map[x][_y]`** (index.js:365-366). Every
  sample comes from the centre's row `x`. The window's other rows only repeat
  that row with different weights (`GaussBlur.BlurValueReadsRowX`).
- **The `_add_element` ground-rule loop keeps the key order of the
  `condition.grounds` object.** The model takes the rules as a sequence in
  that order.

## Model

| member | source | states |
|---|---|---|
| `Helpers.Sum` | index.js:348-354 | the `sum` loop returns the sum of `f` over `start..n`, both ends included, and 0 when `n < start` |
| `Helpers.SumOverExt` | index.js:348-354 | a sum depends only on the summands inside its range |
| `Helpers.SumOverScale` | index.js:348-354 | a common factor can be taken out of a `sum` |
| `Helpers.SumOverMono` | index.js:348-354 | summing preserves a pointwise order of the summands |
| `Helpers.SumOverBetween` | index.js:348-354 | summands between `lo·w(i)` and `hi·w(i)` give a sum between `lo` and `hi` times the summed weights |
| `Helpers.SumOverPositive` | index.js:348-354 | a non-empty sum of positive terms is positive |
| `Helpers.SumScaledToOne` | index.js:348-354 | terms scaled by the inverse of their total sum to 1 |
| `Helpers.Aww` | index.js:344-346 | `aww(n, f)` has length `n`, and element `i` is `f(i)` |
| `Helpers.RowVisitsShape` | index.js:375-377 | the inner `through` loop visits `(x, 0), …, (x, n-1)` in order |
| `Helpers.VisitsCoverGrid` | index.js:373-379 | `through` visits a position if and only if it is a cell of the grid |
| `Helpers.VisitsXMajor` | index.js:373-379 | `through` visits row by row, and left to right within a row, so it visits no cell twice |
| `Helpers.Sigma` | index.js:381-383 | `sigma` lies strictly between -1 and 1 and has the sign of its argument (zero exactly at zero) |
| `Helpers.SigmaMonotone` | index.js:381-383 | `sigma` is monotone |
| `Helpers.Clamp01` | index.js:54 | `Math.min(Math.max(h, 0), 1)` lies in [0, 1], is `h` inside it, 0 below it and 1 above it |
| `Tiles.Tile.constructor` | index.js:52-62 | a new tile's height is the clamped height in [0, 1]; its lists are empty and its climate values are 0 |
| `Tiles.Tile.SetItems` | index.js:226 | `tile[thing] = es` replaces the chosen category and leaves the other one unchanged |
| `Tiles.FindEntry` | index.js:305 | `find` on a tile's list succeeds if and only if some entry has the name, and then returns an entry of the list with that name |
| `Tiles.FindEntryFirst` | index.js:305 | `find` returns the first entry with the name |
| `Tiles.InitTiles` | index.js:52-62 | the tile grid has the height map's shape and holds one fresh, distinct tile per cell, with the clamped height, empty lists and empty slope, and humidity and temperature 0 |
| `Tiles.InitRow` | index.js:52 | one row of the initialisation: a fresh tile per height, pairwise distinct, with the clamped height, empty lists and slope, and humidity and temperature 0 |
| `Tiles.GetSlope` | index.js:385-413 | the slope is the height difference of the neighbours on each axis, with indices clamped to the grid; an axis of length 1 gives 0 |
| `Tiles.Humidity` | index.js:69-72 | humidity is clamped to [0, 1] |
| `Tiles.Temperature` | index.js:74-75 | for any height and a latitude term in [-1, 1], temperature lies in [-1, 1) |
| `Tiles.TemperatureRisesWithHeight` | index.js:74-75 | at the same `y` (one latitude term), a higher tile is never colder |
| `Tiles.DeriveAttributes` | index.js:66-75 | the first `through` pass sets a tile's slope from `get_slope`, then its humidity and temperature from that slope |
| `GaussBlur.WindowWeightPositive` | index.js:360-368 | a non-empty window has a positive total weight `ws` |
| `GaussBlur.GBlur` | index.js:356-371 | `gblur` reads only indices inside the grid, returns the window average blended with the centre, and returns `map[x][y]` when `amount` is 0 |
| `GaussBlur.WindowRow` | index.js:361-368 | the inner window loop accumulates the weighted row-`x` samples and the weights over `max(y-r,0) ≤ _y < min(y+r,h-1)` |
| `GaussBlur.Blend` | index.js:370 | a blend amount of 0 gives the centre value and 1 gives the window average |
| `GaussBlur.BlendBetween` | index.js:370 | a blend amount in [0, 1] lands between the average and the centre |
| `GaussBlur.BlurValueReadsRowX` | index.js:365-366 | the result depends only on row `x` without its last cell, plus the centre: grids that agree there blur alike at `(x, y)` |
| `GaussBlur.BlurValueWithin` | index.js:356-371 | values in [0, 1] blur to a value in [0, 1] |
| `GaussBlur.BlurrableWindows` | index.js:360-361 | every cell has a non-empty window if and only if the grid is at least 2×2 and the radius is at least 1 |
| `GaussBlur.BlurGridSpec` | index.js:218-220 | one whole-grid pass keeps the grid's shape |
| `GaussBlur.Smoothed` | index.js:217-221 | repeated passes keep the grid's shape |
| `GaussBlur.BlurGrid` | index.js:218-220 | the pass writes a fresh grid whose every cell is `gblur` of the previous grid |
| `GaussBlur.SmoothMap` | index.js:217-222 | the smoothing loop of `_blur` performs exactly `<thing>_smoothen` passes |
| `GaussBlur.SmoothedWithin01` | index.js:216-223 | with a blend amount in [0, 1], smoothing keeps a grid of values in [0, 1] inside [0, 1] |
| `GaussBlur.SmoothedAtZero` | index.js:216-223 | with a blend amount of 0, smoothing leaves the grid unchanged |
| `Rules.NoiseProb` | index.js:141-144 | `noise / 2 + .5` maps [-1, 1] onto [0, 1] |
| `Rules.CheckBounds` | index.js:167-171 | the bounds loop passes if and only if every defined `min_` is at most its value and every defined `max_` at least it |
| `Rules.GroundAmount` | index.js:138-173 | a ground applies if and only if its bounds hold and, with a truthy `frequence`, the draw does not exceed the linear threshold; the amount is then draw / `frequence`, or the draw in [0, 1] without a frequence |
| `Rules.AddGround` | index.js:130-174 | `_add_ground` appends exactly the entry `GroundAmount` gives (at most one, named after the ground) and changes nothing else on the tile |
| `Rules.UnconstrainedGroundEverywhere` | index.js:146-173 | a ground without `frequence` and without bounds is given to every tile, with the draw as its amount |
| `Rules.AddOther` | index.js:236-260 | `_add_other` appends the tag if and only if all of the other's bounds hold, and changes nothing else |
| `Rules.RuleTerm` | index.js:304-309 | a ground rule passes if and only if the ground is on the tile with an amount at least `t` (t > 0) or at most `-t` (t < 0) |
| `Rules.RulesGainSomeIff` | index.js:298-311 | a condition's ground rules yield a gain if and only if every one of them passes |
| `Rules.RulesGainFailsAt` | index.js:306-308 | one failing ground rule makes the condition fail |
| `Rules.EvalRules` | index.js:298-311 | the ground-rule loop returns `base` plus the summed `coef·amount` gains, or nothing as soon as a rule fails |
| `Rules.ConditionGain` | index.js:289-321 | a condition contributes if and only if its bounds, its ground rules and its required tags all hold; without ground rules it contributes `probability || 0` |
| `Rules.EvalCondition` | index.js:289-320 | the `forEach` callback on one condition computes `ConditionGain` |
| `Rules.EvalConditions` | index.js:287-321 | the accumulated `prob` is the sum of the contributions of the conditions that hold |
| `Rules.ConditionsProbAppend` | index.js:289-321 | a failing condition does not stop later ones: the probabilities of two condition lists add up |
| `Rules.ConditionsProbNoneMet` | index.js:289-321 | with no condition met, `prob` is 0 |
| `Rules.ElementAmount` | index.js:281-339 | an element is placed if and only if its bounds hold and `prob` exceeds the draw; the amount is draw / `prob` and lies in [0, 1) |
| `Rules.QuotientBelowOne` | index.js:337 | `_prob / prob` lies in [0, 1) when `0 ≤ _prob < prob` |
| `Rules.ElementNeedsAMetCondition` | index.js:289-339 | an element is only placed where at least one of its conditions holds |
| `Rules.AddElement` | index.js:262-340 | `_add_element` appends exactly the entry `ElementAmount` gives and changes nothing else on the tile |
| `Normaliser.FindSpec` | index.js:179 | `find` on the registered specs succeeds if and only if a spec has the name, and then returns a spec with that name |
| `Normaliser.FindSpecFirst` | index.js:184 | with duplicate names, the first registered spec is found |
| `Normaliser.ScaleWeight` | index.js:180-185 | the rescaling factor `priority || 1` equals the total's weight exactly when the priority is not 0 |
| `Normaliser.Normalised` | index.js:183-186 | normalising keeps the length, the names and their order; an empty list stays empty |
| `Normaliser.Normalise` | index.js:176-187 | `_normalise` replaces the tile's list by `Normalised` of its old list and leaves the other category unchanged |
| `Normaliser.NormalisedSumsToOne` | index.js:176-187 | with no priority 0 and a non-zero total, the normalised amounts sum to exactly 1 |
| `Normaliser.NormaliseZeroPriority` | index.js:180-185 | with a priority of 0, the normalised amounts can sum to 2 |
| `CategoryBlur.DefaultsBlurrable` | index.js:8-28 | with the constructor's default settings both `_blur` calls run, with a radius of at least 1, a threshold of at least 0 and a blend amount in [0, 1] |
| `CategoryBlur.Snapshot` | index.js:204-206 | the category lists of all tiles, cell by cell |
| `CategoryBlur.AmountIn` | index.js:206-212 | a spec's amount on a tile is its first entry's amount, or 0 when the tile lacks it |
| `CategoryBlur.EntryMap` | index.js:204-214 | one spec's amount grid has the world's shape and holds `AmountIn` at every cell |
| `CategoryBlur.SmoothedMaps` | index.js:216-223 | there is one smoothed grid per registered spec, each with the world's shape |
| `CategoryBlur.Column` | index.js:226-230 | the blurred values at one cell, one per spec, in spec order |
| `CategoryBlur.Kept` | index.js:231 | the indices kept by the threshold filter are in range, strictly above the threshold and ascending |
| `CategoryBlur.KeptComplete` | index.js:231 | no value strictly above the threshold is filtered out |
| `CategoryBlur.Reassemble` | index.js:226-231 | a tile's new list holds, in spec order, exactly the specs whose value passes the filter, with those values as amounts |
| `CategoryBlur.ReassembleNormalisable` | index.js:232 | with a threshold of at least 0 and positive priorities, the rebuilt list's names are registered, none has priority 0, and its total is positive |
| `CategoryBlur.PositiveWeightTerm` | index.js:177-182 | a registered entry with a positive amount and a positive or undefined priority weighs positively in the total |
| `CategoryBlur.BlurredListLaw` | index.js:225-233 | after `_blur` a tile holds, in spec order, exactly the specs whose blurred amount there is above the threshold, and their amounts sum to 1 unless none is left |
| `CategoryBlur.RebuildTile` | index.js:226-232 | the `through` callback sets the tile's list to the normalised reassembled list and leaves the other category unchanged |
| `CategoryBlur.SmoothAll` | index.js:204-223 | `maps` after smoothing equals the specification's smoothed grids |
| `CategoryBlur.Rebuild` | index.js:225-233 | the `through` pass rebuilds every tile from the smoothed grids and leaves the other category unchanged |
| `CategoryBlur.RebuildRow` | index.js:374-377 | one row of the pass rebuilds that row's tiles and leaves every other row unchanged |
| `CategoryBlur.Blur` | index.js:189-234 | `_blur` leaves on every tile the list `BlurredList` computes from the lists before the call, and leaves the other category untouched |

## Left out

- `_gen_hm`, the height-map synthesis, is not part of this model. It sums simplex octaves with `Math.pow` and then smooths, contrasts and shifts the map. The tile initialisation takes the resulting heights as input.
- Simplex noise is left out. Each noise draw is a parameter in [-1, 1], and `noise_scale` therefore has no effect in the model.
- `Math.sqrt`, `Math.sin`, `Math.cos` and `Math.E ** …` are left out. The slope magnitude, `sin(sun_angle)`, the latitude term and the Gaussian weight are parameters. Only the clamp is kept for humidity.
- `set_grounds`, `set_elements`, `set_others` and `set_settings` are left out. They only concatenate configuration lists and copy settings. The defaults of the constructor are `Config.Defaults`, read through `CategoryBlur.SettingsFor`.
- The order of `generate`'s phases is not modelled as one method: the two `through` passes, the `if (s.grounds_smoothen)` and `if (s.elements_smoothen)` guards, and the returned grid. Each per-tile step is modelled (`Tiles.DeriveAttributes`, `Rules.AddGround`, `Rules.AddOther`, `Rules.AddElement`, `Normaliser.Normalise`), and so is `CategoryBlur.Blur`.
- Floating point is not modelled, and neither are the NaN or Infinity values of its edge cases. Amounts and attributes are exact reals. The cases that would produce NaN are excluded by preconditions: a blur window with zero weight (a grid narrower than 2 cells, or radius 0) and a `_normalise` total of 0 on a non-empty list.
- Entries whose name matches no registered spec are excluded by a precondition, because `parent.priority` throws for them.
- `CategoryBlur.Blur`: it requires a threshold of at least 0 and priorities that are positive or undefined. Under those conditions, the rebuilt lists can always be normalised. Other settings can reach the NaN cases above.
- `CategoryBlur.Blur`: it does not model an undefined `<thing>_threshold`. The comparison `amount > undefined` is always false, so the filter would keep nothing. The model's settings always carry a threshold.
- `GaussBlur.BlurValueWithin` and `GaussBlur.SmoothedWithin01` are stated only for values and blend amounts in [0, 1]. The source has no such bound.
- test.js is not part of this model. It is a demonstration script that reads a JSON file and prints the result.
