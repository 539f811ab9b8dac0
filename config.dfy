/**
 * The generator's configuration: the settings record of the `WorldGen`
 * constructor and the rule specs registered for grounds, elements and others.
 * Optional JavaScript properties are `Option`s; the `noise_scale` of a spec is
 * not kept, since noise draws are parameters of the rule operations.
 */
module Config {
  import opened Wrappers

  /** The `settings` object; field names follow the source's keys. */
  datatype Settings = Settings(
    scale: real,
    octaves: nat,
    octaveScaleFactor: real,
    octaveIntensityFactor: real,
    seed: int,
    smoothen: nat,
    smoothenAmount: real,
    smoothenRadius: int,
    heightContrast: real,
    heightShift: real,
    yClimateInfluence: real,
    groundsSmoothen: nat,
    groundsSmoothenAmount: real,
    groundsSmoothenRadius: int,
    groundsThreshold: real,
    elementsSmoothen: nat,
    elementsSmoothenAmount: real,
    elementsSmoothenRadius: int,
    elementsThreshold: real)

  /** The defaults set by the constructor. */
  const Defaults := Settings(
    scale := 0.125,
    octaves := 16,
    octaveScaleFactor := 2.0,
    octaveIntensityFactor := 0.125,
    seed := 0,
    smoothen := 10,
    smoothenAmount := 0.01,
    smoothenRadius := 3,
    heightContrast := 1.25,
    heightShift := 0.0,
    yClimateInfluence := 0.75,
    groundsSmoothen := 2,
    groundsSmoothenAmount := 0.1,
    groundsSmoothenRadius := 3,
    groundsThreshold := 0.1,
    elementsSmoothen := 5,
    elementsSmoothenAmount := 0.1,
    elementsSmoothenRadius := 3,
    elementsThreshold := 0.1)

  /** Optional `min_<prop>` and `max_<prop>` of one scalar property. */
  datatype Bound = Bound(min: Option<real>, max: Option<real>)

  /** The bounds a spec may put on the four scalar properties of a tile. */
  datatype Bounds = Bounds(slope: Bound, height: Bound, humidity: Bound, temperature: Bound)

  const NoBound := Bound(None, None)
  const NoBounds := Bounds(NoBound, NoBound, NoBound, NoBound)

  /** A ground rule: acceptance by noise against a linear `frequence` threshold, then bounds. */
  datatype GroundSpec = GroundSpec(
    name: string,
    priority: Option<real>,
    frequence: Option<real>,
    heightFrequence: Option<real>,
    slopeFrequence: Option<real>,
    humidityFrequence: Option<real>,
    temperatureFrequence: Option<real>,
    bounds: Bounds)

  /**
   * One entry `name: [threshold, coef]` of a condition's `grounds` object:
   * a positive threshold asks for an amount of at least `threshold`, a negative
   * one for at most `-threshold`; `coef` scales the amount into the probability.
   */
  datatype GroundRule = GroundRule(ground: string, threshold: real, coef: Option<real>)

  /** One element condition; `grounds` keeps the key order of the source object. */
  datatype Condition = Condition(
    bounds: Bounds,
    probability: Option<real>,
    grounds: seq<GroundRule>,
    others: seq<string>)

  datatype ElementSpec = ElementSpec(
    name: string,
    priority: Option<real>,
    bounds: Bounds,
    conditions: seq<Condition>)

  /** An "other" rule: bounds only, and a tag name. */
  datatype OtherSpec = OtherSpec(name: string, bounds: Bounds)

  /** What `_normalise` and `_blur` read of `this[thing]`: each registered spec's name and priority, in registration order. */
  datatype Ranked = Ranked(name: string, priority: Option<real>)
}
