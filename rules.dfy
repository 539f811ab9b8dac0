/**
 * The per-tile rule filters of index.js: `_add_ground`, `_add_other` and
 * `_add_element`. Each reads the tile's four scalar properties, applies a
 * spec's optional bounds and, for grounds and elements, a noise draw.
 *
 * The slope magnitude `Math.sqrt(slope_x ** 2 + slope_y ** 2)` is a parameter
 * constrained by `IsMagnitude`; the simplex value at the tile is the
 * parameter `noise` in [-1, 1].
 */
module Rules {
  import opened Wrappers
  import opened Helpers
  import opened Config
  import opened Tiles

  /** The `scalar_properties` object, in its key order. */
  datatype Scalars = Scalars(slope: real, height: real, humidity: real, temperature: real)

  /** `m` is the Euclidean length of the two-component slope vector `v`. */
  predicate IsMagnitude(m: real, v: seq<real>)
  {
    |v| == 2 && m >= 0.0 && m * m == v[0] * v[0] + v[1] * v[1]
  }

  function ScalarsOf(tile: Tile, slope: real): Scalars
    reads tile
  {
    Scalars(slope, tile.height, tile.humidity, tile.temperature)
  }

  /** `noise / 2 + .5`: a simplex value mapped to a probability. */
  function NoiseProb(noise: real): (p: real)
    requires -1.0 <= noise <= 1.0
    ensures 0.0 <= p <= 1.0
    ensures noise == -1.0 ==> p == 0.0
    ensures noise == 1.0 ==> p == 1.0
  {
    noise / 2.0 + 0.5
  }

  /** A value lies within a bound: no `min` above it, no `max` below it. */
  predicate Admits(b: Bound, v: real)
  {
    (b.min.Some? ==> b.min.value <= v) && (b.max.Some? ==> v <= b.max.value)
  }

  /** All four scalar properties lie within their bounds. */
  predicate AllAdmit(bs: Bounds, s: Scalars)
  {
    Admits(bs.slope, s.slope) && Admits(bs.height, s.height) &&
    Admits(bs.humidity, s.humidity) && Admits(bs.temperature, s.temperature)
  }

  /** The pairs `(bound, value)` visited by `for (let prop in scalar_properties)`. */
  function Checks(bs: Bounds, s: Scalars): (r: seq<(Bound, real)>)
    ensures |r| == 4
  {
    [(bs.slope, s.slope), (bs.height, s.height), (bs.humidity, s.humidity), (bs.temperature, s.temperature)]
  }

  /** The bounds loop shared by the three filters: leaves at the first violated bound. */
  method CheckBounds(bs: Bounds, s: Scalars) returns (ok: bool)
    ensures ok <==> AllAdmit(bs, s)
  {
    var checks := Checks(bs, s);
    var k := 0;
    while k < |checks|
      invariant 0 <= k <= |checks|
      invariant forall j :: 0 <= j < k ==> Admits(checks[j].0, checks[j].1)
    {
      var (b, value) := checks[k];
      if b.min.Some? && b.min.value > value {
        return false;
      }
      if b.max.Some? && b.max.value < value {
        return false;
      }
      k := k + 1;
    }
    assert Admits(checks[0].0, checks[0].1) && Admits(checks[1].0, checks[1].1);
    assert Admits(checks[2].0, checks[2].1) && Admits(checks[3].0, checks[3].1);
    return true;
  }

  /** The entry a filter pushes, if any. */
  function Appended(name: string, amount: Option<real>): (r: seq<Entry>)
    ensures amount.None? ==> r == []
    ensures amount.Some? ==> r == [Entry(name, amount.value)]
  {
    match amount
    case None => []
    case Some(a) => [Entry(name, a)]
  }

  // ----- grounds -----

  /** `ground.frequence + (height_frequence || 0) * height + ...`. */
  function FrequenceThreshold(g: GroundSpec, s: Scalars): real
  {
    OrElse(g.frequence, 0.0)
    + OrElse(g.heightFrequence, 0.0) * s.height
    + OrElse(g.slopeFrequence, 0.0) * s.slope
    + OrElse(g.humidityFrequence, 0.0) * s.humidity
    + OrElse(g.temperatureFrequence, 0.0) * s.temperature
  }

  /**
   * The amount `_add_ground` gives ground `g` on a tile, or `None` when it
   * adds nothing: a truthy `frequence` rejects draws above the threshold and
   * divides accepted ones by `frequence`; then the bounds must hold.
   */
  function GroundAmount(g: GroundSpec, s: Scalars, noise: real): (r: Option<real>)
    requires -1.0 <= noise <= 1.0
    ensures r.Some? <==>
      AllAdmit(g.bounds, s) && (Truthy(g.frequence) ==> NoiseProb(noise) <= FrequenceThreshold(g, s))
    ensures r.Some? && Truthy(g.frequence) ==> r.value * g.frequence.value == NoiseProb(noise)
    ensures r.Some? && !Truthy(g.frequence) ==> r.value == NoiseProb(noise) && 0.0 <= r.value <= 1.0
  {
    var prob := NoiseProb(noise);
    if Truthy(g.frequence) && prob > FrequenceThreshold(g, s) then None
    else
      var amount := if Truthy(g.frequence) then prob / g.frequence.value else prob;
      if AllAdmit(g.bounds, s) then Some(amount) else None
  }

  /** `_add_ground`: pushes `{name, amount}` onto the tile's grounds when the ground applies. */
  method AddGround(ground: GroundSpec, tile: Tile, slope: real, noise: real)
    requires IsMagnitude(slope, tile.slope)
    requires -1.0 <= noise <= 1.0
    modifies tile`grounds
    ensures tile.grounds == old(tile.grounds) + Appended(ground.name, GroundAmount(ground, old(ScalarsOf(tile, slope)), noise))
  {
    var s := Scalars(slope, tile.height, tile.humidity, tile.temperature);
    var prob := NoiseProb(noise);
    if Truthy(ground.frequence) {
      if prob > FrequenceThreshold(ground, s) {
        return;
      }
      prob := prob / ground.frequence.value;
    }
    var ok := CheckBounds(ground.bounds, s);
    if !ok {
      return;
    }
    tile.grounds := tile.grounds + [Entry(ground.name, prob)];
  }

  /** A ground without `frequence` and without bounds is given to every tile, with the draw as amount. */
  lemma UnconstrainedGroundEverywhere(g: GroundSpec, s: Scalars, noise: real)
    requires -1.0 <= noise <= 1.0
    requires g.frequence.None? && g.bounds == NoBounds
    ensures GroundAmount(g, s, noise) == Some(NoiseProb(noise))
  {
  }

  // ----- others -----

  /** `_add_other`: pushes the tag when the tile lies within all of the other's bounds. */
  method AddOther(other: OtherSpec, tile: Tile, slope: real)
    requires IsMagnitude(slope, tile.slope)
    modifies tile`others
    ensures tile.others == old(tile.others) + (if AllAdmit(other.bounds, old(ScalarsOf(tile, slope))) then [other.name] else [])
  {
    var s := Scalars(slope, tile.height, tile.humidity, tile.temperature);
    var ok := CheckBounds(other.bounds, s);
    if !ok {
      return;
    }
    tile.others := tile.others + [other.name];
  }

  // ----- elements -----

  /** A ground rule holds: the ground is on the tile with an amount on the required side of the threshold. */
  predicate RuleMet(rule: GroundRule, grounds: seq<Entry>)
  {
    var found := FindEntry(grounds, rule.ground);
    found.Some? &&
    (rule.threshold > 0.0 ==> found.value.amount >= rule.threshold) &&
    (rule.threshold < 0.0 ==> found.value.amount <= -rule.threshold)
  }

  /** One pass of the `for (let name in condition.grounds)` body: the gain it adds, or `None` when it returns. */
  function RuleTerm(rule: GroundRule, grounds: seq<Entry>): (r: Option<real>)
    ensures r.Some? <==> RuleMet(rule, grounds)
  {
    match FindEntry(grounds, rule.ground)
    case None => None
    case Some(found) =>
      if rule.threshold > 0.0 && found.amount < rule.threshold then None
      else if rule.threshold < 0.0 && found.amount > -rule.threshold then None
      else if Truthy(rule.coef) then Some(rule.coef.value * found.amount)
      else Some(0.0)
  }

  /** The ground rules in order: their summed gain, or `None` once one of them fails. */
  function RulesGain(rules: seq<GroundRule>, grounds: seq<Entry>): Option<real>
  {
    if rules == [] then Some(0.0)
    else
      match RulesGain(rules[..|rules| - 1], grounds)
      case None => None
      case Some(acc) =>
        match RuleTerm(rules[|rules| - 1], grounds)
        case None => None
        case Some(t) => Some(acc + t)
  }

  /** The ground rules yield a gain exactly when every one of them holds. */
  lemma {:induction false} RulesGainSomeIff(rules: seq<GroundRule>, grounds: seq<Entry>)
    ensures RulesGain(rules, grounds).Some? <==> forall k :: 0 <= k < |rules| ==> RuleMet(rules[k], grounds)
  {
    if rules != [] {
      var init := rules[..|rules| - 1];
      RulesGainSomeIff(init, grounds);
      assert forall k :: 0 <= k < |init| ==> init[k] == rules[k];
    }
  }

  /** A condition holds: its bounds, all its ground rules and all its required others. */
  predicate ConditionMet(c: Condition, s: Scalars, grounds: seq<Entry>, others: seq<string>)
  {
    AllAdmit(c.bounds, s) &&
    (forall k :: 0 <= k < |c.grounds| ==> RuleMet(c.grounds[k], grounds)) &&
    (forall k :: 0 <= k < |c.others| ==> c.others[k] in others)
  }

  /** What one condition adds to the element's probability, or `None` when it is violated. */
  function ConditionGain(c: Condition, s: Scalars, grounds: seq<Entry>, others: seq<string>): (r: Option<real>)
    ensures r.Some? <==> ConditionMet(c, s, grounds, others)
    ensures r.Some? && c.grounds == [] ==> r.value == OrElse(c.probability, 0.0)
  {
    RulesGainSomeIff(c.grounds, grounds);
    if !AllAdmit(c.bounds, s) then None
    else
      match RulesGain(c.grounds, grounds)
      case None => None
      case Some(gain) =>
        if forall k :: 0 <= k < |c.others| ==> c.others[k] in others
        then Some(OrElse(c.probability, 0.0) + gain)
        else None
  }

  function Contribution(c: Condition, s: Scalars, grounds: seq<Entry>, others: seq<string>): real
  {
    match ConditionGain(c, s, grounds, others)
    case None => 0.0
    case Some(g) => g
  }

  /** The element probability `prob`: the gains of the conditions that hold, summed. */
  function ConditionsProb(conds: seq<Condition>, s: Scalars, grounds: seq<Entry>, others: seq<string>): real
  {
    if conds == [] then 0.0
    else ConditionsProb(conds[..|conds| - 1], s, grounds, others) + Contribution(conds[|conds| - 1], s, grounds, others)
  }

  /** Conditions add up independently: a violated condition does not stop the ones after it. */
  lemma {:induction false} ConditionsProbAppend(a: seq<Condition>, b: seq<Condition>, s: Scalars, grounds: seq<Entry>, others: seq<string>)
    ensures ConditionsProb(a + b, s, grounds, others) == ConditionsProb(a, s, grounds, others) + ConditionsProb(b, s, grounds, others)
  {
    if b != [] {
      var init := b[..|b| - 1];
      ConditionsProbAppend(a, init, s, grounds, others);
      assert (a + b)[..|a + b| - 1] == a + init;
    } else {
      assert a + b == a;
    }
  }

  /** With no condition met, the probability is zero. */
  lemma {:induction false} ConditionsProbNoneMet(conds: seq<Condition>, s: Scalars, grounds: seq<Entry>, others: seq<string>)
    requires forall k :: 0 <= k < |conds| ==> !ConditionMet(conds[k], s, grounds, others)
    ensures ConditionsProb(conds, s, grounds, others) == 0.0
  {
    if conds != [] {
      var init := conds[..|conds| - 1];
      assert forall k :: 0 <= k < |init| ==> init[k] == conds[k];
      ConditionsProbNoneMet(init, s, grounds, others);
    }
  }

  /** The `for (let name in condition.grounds)` loop, adding each rule's gain onto `base`. */
  method EvalRules(rules: seq<GroundRule>, grounds: seq<Entry>, base: real) returns (p: Option<real>)
    ensures p.Some? <==> RulesGain(rules, grounds).Some?
    ensures p.Some? ==> p.value == base + RulesGain(rules, grounds).value
  {
    var acc := base;
    var k := 0;
    while k < |rules|
      invariant 0 <= k <= |rules|
      invariant RulesGain(rules[..k], grounds) == Some(acc - base)
    {
      var rule := rules[k];
      assert rules[..k + 1][..k] == rules[..k];
      var found := FindEntry(grounds, rule.ground);
      if found.None? {
        RulesGainFailsAt(rules, k, grounds);
        return None;
      }
      if rule.threshold > 0.0 && found.value.amount < rule.threshold {
        RulesGainFailsAt(rules, k, grounds);
        return None;
      }
      if rule.threshold < 0.0 && found.value.amount > -rule.threshold {
        RulesGainFailsAt(rules, k, grounds);
        return None;
      }
      ghost var prev := acc;
      if Truthy(rule.coef) {
        acc := acc + rule.coef.value * found.value.amount;
        assert RuleTerm(rule, grounds) == Some(rule.coef.value * found.value.amount);
      } else {
        assert RuleTerm(rule, grounds) == Some(0.0);
      }
      assert RuleTerm(rule, grounds) == Some(acc - prev);
      assert rules[..k + 1][k] == rule;
      k := k + 1;
    }
    assert rules[..k] == rules;
    return Some(acc);
  }

  /** One failing rule makes the whole list fail. */
  lemma RulesGainFailsAt(rules: seq<GroundRule>, k: int, grounds: seq<Entry>)
    requires 0 <= k < |rules| && !RuleMet(rules[k], grounds)
    ensures RulesGain(rules, grounds).None?
  {
    RulesGainSomeIff(rules, grounds);
  }

  /** The `element.conditions.forEach` callback on one condition. */
  method EvalCondition(c: Condition, s: Scalars, grounds: seq<Entry>, others: seq<string>) returns (gain: Option<real>)
    ensures gain == ConditionGain(c, s, grounds, others)
  {
    var ok := CheckBounds(c.bounds, s);
    if !ok {
      return None;
    }
    gain := EvalRules(c.grounds, grounds, OrElse(c.probability, 0.0));
    if gain.None? {
      return None;
    }
    if !(forall j :: 0 <= j < |c.others| ==> c.others[j] in others) {
      return None;
    }
  }

  /** The summing loop of `_add_element` over `element.conditions`. */
  method EvalConditions(conds: seq<Condition>, s: Scalars, grounds: seq<Entry>, others: seq<string>) returns (prob: real)
    ensures prob == ConditionsProb(conds, s, grounds, others)
  {
    prob := 0.0;
    var i := 0;
    while i < |conds|
      invariant 0 <= i <= |conds|
      invariant prob == ConditionsProb(conds[..i], s, grounds, others)
    {
      var gain := EvalCondition(conds[i], s, grounds, others);
      if gain.Some? {
        prob := prob + gain.value;
      }
      assert conds[..i + 1][..i] == conds[..i];
      i := i + 1;
    }
    assert conds[..i] == conds;
  }

  /**
   * The amount `_add_element` gives element `e`, or `None`: the element's
   * bounds must hold and the summed probability must exceed the draw, the
   * amount then being draw / probability.
   */
  function ElementAmount(e: ElementSpec, s: Scalars, grounds: seq<Entry>, others: seq<string>, noise: real): (r: Option<real>)
    requires -1.0 <= noise <= 1.0
    ensures r.Some? <==> AllAdmit(e.bounds, s) && ConditionsProb(e.conditions, s, grounds, others) > NoiseProb(noise)
    ensures r.Some? ==>
      0.0 <= r.value < 1.0 && r.value * ConditionsProb(e.conditions, s, grounds, others) == NoiseProb(noise)
  {
    if !AllAdmit(e.bounds, s) then None
    else
      var prob := ConditionsProb(e.conditions, s, grounds, others);
      if prob < 0.0 then None
      else
        var draw := NoiseProb(noise);
        if prob > draw then Some(QuotientBelowOne(draw, prob)) else None
  }

  /** `a / b` for `0 <= a < b`. */
  function QuotientBelowOne(a: real, b: real): (q: real)
    requires 0.0 <= a < b
    ensures 0.0 <= q < 1.0 && q * b == a
  {
    var q := a / b;
    assert q * b == a;
    assert (-q) * b == -a;
    NonPositiveFactor(-q, b);
    assert (q - 1.0) * b == a - b;
    NegativeFactor(q - 1.0, b);
    q
  }

  /** An element is only ever placed where at least one of its conditions holds. */
  lemma ElementNeedsAMetCondition(e: ElementSpec, s: Scalars, grounds: seq<Entry>, others: seq<string>, noise: real)
    requires -1.0 <= noise <= 1.0
    requires ElementAmount(e, s, grounds, others, noise).Some?
    ensures exists k :: 0 <= k < |e.conditions| && ConditionMet(e.conditions[k], s, grounds, others)
  {
    if forall k :: 0 <= k < |e.conditions| ==> !ConditionMet(e.conditions[k], s, grounds, others) {
      ConditionsProbNoneMet(e.conditions, s, grounds, others);
    }
  }

  /** `_add_element`: pushes `{name, amount}` onto the tile's elements when the element is placed. */
  method AddElement(element: ElementSpec, tile: Tile, slope: real, noise: real)
    requires IsMagnitude(slope, tile.slope)
    requires -1.0 <= noise <= 1.0
    modifies tile`elements
    ensures tile.elements == old(tile.elements) +
      Appended(element.name, ElementAmount(element, old(ScalarsOf(tile, slope)), tile.grounds, tile.others, noise))
  {
    var s := Scalars(slope, tile.height, tile.humidity, tile.temperature);
    var ok := CheckBounds(element.bounds, s);
    if !ok {
      return;
    }
    var prob := EvalConditions(element.conditions, s, tile.grounds, tile.others);
    if prob < 0.0 {
      return;
    }
    var draw := NoiseProb(noise);
    if prob > draw {
      tile.elements := tile.elements + [Entry(element.name, draw / prob)];
    }
  }
}
