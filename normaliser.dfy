/**
 * `_normalise(tile, thing)` of index.js: rescales a tile's grounds or elements
 * by their priority-weighted total.
 *
 * The total weighs an entry by its spec's `priority`, or by 1 when the
 * priority is undefined; the rescaling multiplies by `priority || 1`. The two
 * weights differ for a priority of 0, which the total counts as 0 and the
 * rescaling as 1, so the amounts then need not sum to 1 (`NormaliseZeroPriority`).
 */
module Normaliser {
  import opened Wrappers
  import opened Helpers
  import opened Config
  import opened Tiles

  /** The first spec registered under `name` (`this[thing].find(_ => _.name == name)`). */
  function FindSpec(specs: seq<Ranked>, name: string): (r: Option<Ranked>)
    ensures r.Some? <==> exists i :: 0 <= i < |specs| && specs[i].name == name
    ensures r.Some? ==> r.value in specs && r.value.name == name
  {
    if specs == [] then None
    else if specs[0].name == name then Some(specs[0])
    else
      var r := FindSpec(specs[1..], name);
      assert forall i :: 1 <= i < |specs| ==> specs[i] == specs[1..][i - 1];
      r
  }

  /** `find` returns the first spec with the name: with duplicate names, the earliest priority wins. */
  lemma {:induction false} FindSpecFirst(specs: seq<Ranked>, name: string, i: int)
    requires 0 <= i < |specs| && specs[i].name == name
    requires forall j :: 0 <= j < i ==> specs[j].name != name
    ensures FindSpec(specs, name) == Some(specs[i])
  {
    if i > 0 {
      FindSpecFirst(specs[1..], name, i - 1);
    }
  }

  /** Every entry has a registered spec (otherwise `parent.priority` throws). */
  predicate AllRegistered(es: seq<Entry>, specs: seq<Ranked>)
  {
    forall k :: 0 <= k < |es| ==> FindSpec(specs, es[k].name).Some?
  }

  function PriorityOf(specs: seq<Ranked>, name: string): Option<real>
  {
    match FindSpec(specs, name)
    case None => None
    case Some(spec) => spec.priority
  }

  /** The weight the total uses: the priority, 1 when undefined. */
  function SumWeight(p: Option<real>): real
  {
    if p.None? then 1.0 else p.value
  }

  /** The factor the rescaling uses, `priority || 1`; it agrees with `SumWeight` except on a priority of 0. */
  function ScaleWeight(p: Option<real>): (w: real)
    ensures w == SumWeight(p) <==> p != Some(0.0)
  {
    OrElse(p, 1.0)
  }

  /** The summand of the total for entry `n`. */
  function WeightTerm(es: seq<Entry>, specs: seq<Ranked>): int -> real
  {
    n =>
      if 0 <= n < |es| then
        var p := PriorityOf(specs, es[n].name);
        if p.None? then es[n].amount else es[n].amount * p.value
      else 0.0
  }

  /** `es` in `_normalise`: the priority-weighted total of the amounts. */
  function WeightedSum(es: seq<Entry>, specs: seq<Ranked>): real
  {
    SumOver(0, |es| - 1, WeightTerm(es, specs))
  }

  function AmountTerm(es: seq<Entry>): int -> real
  {
    n => if 0 <= n < |es| then es[n].amount else 0.0
  }

  /** The plain sum of the amounts of a list. */
  function AmountSum(es: seq<Entry>): real
  {
    SumOver(0, |es| - 1, AmountTerm(es))
  }

  /** The list `_normalise` leaves: each amount divided by the total and multiplied by `priority || 1`. */
  function Normalised(es: seq<Entry>, specs: seq<Ranked>): (r: seq<Entry>)
    requires AllRegistered(es, specs)
    requires es != [] ==> WeightedSum(es, specs) != 0.0
    ensures |r| == |es| && forall k :: 0 <= k < |es| ==> r[k].name == es[k].name
  {
    var total := WeightedSum(es, specs);
    seq(|es|, k requires 0 <= k < |es| => Rescaled(es[k], total, ScaleWeight(PriorityOf(specs, es[k].name))))
  }

  /** `element.amount = element.amount / es * w`. */
  function Rescaled(e: Entry, total: real, w: real): Entry
    requires total != 0.0
  {
    Entry(e.name, e.amount / total * w)
  }

  lemma RescaledAmount(a: real, total: real, w: real)
    requires total != 0.0
    ensures a / total * w == (a * w) * (1.0 / total)
  {
  }

  /** `_normalise(tile, thing)`: computes the total with `sum`, then rescales the entries in order. */
  method Normalise(tile: Tile, cat: Category, specs: seq<Ranked>)
    requires AllRegistered(tile.Items(cat), specs)
    requires tile.Items(cat) != [] ==> WeightedSum(tile.Items(cat), specs) != 0.0
    modifies tile`grounds, tile`elements
    ensures tile.Items(cat) == Normalised(old(tile.Items(cat)), specs)
    ensures tile.Items(cat.Other()) == old(tile.Items(cat.Other()))
  {
    var es := tile.Items(cat);
    var total := Sum(0, |es| - 1, WeightTerm(es, specs));
    var k := 0;
    while k < |es|
      invariant 0 <= k <= |es|
      invariant |tile.Items(cat)| == |es|
      invariant forall j :: 0 <= j < k ==> tile.Items(cat)[j] == Normalised(es, specs)[j]
      invariant forall j :: k <= j < |es| ==> tile.Items(cat)[j] == es[j]
      invariant tile.Items(cat.Other()) == old(tile.Items(cat.Other()))
    {
      var items := tile.Items(cat);
      var parent := FindSpec(specs, items[k].name);
      assert parent.value.priority == PriorityOf(specs, es[k].name);
      tile.SetItems(cat, items[k := Rescaled(items[k], total, OrElse(parent.value.priority, 1.0))]);
      k := k + 1;
    }
  }

  /** No entry's spec has priority 0. */
  predicate NoZeroPriority(es: seq<Entry>, specs: seq<Ranked>)
  {
    forall k :: 0 <= k < |es| ==> PriorityOf(specs, es[k].name) != Some(0.0)
  }

  /** Without zero priorities, the normalised amounts sum to 1. */
  lemma NormalisedSumsToOne(es: seq<Entry>, specs: seq<Ranked>)
    requires AllRegistered(es, specs) && es != [] && WeightedSum(es, specs) != 0.0
    requires NoZeroPriority(es, specs)
    ensures AmountSum(Normalised(es, specs)) == 1.0
  {
    var total := WeightedSum(es, specs);
    var r := Normalised(es, specs);
    assert |r| == |es|;
    forall i | 0 <= i <= |es| - 1
      ensures AmountTerm(r)(i) == WeightTerm(es, specs)(i) * (1.0 / total)
    {
      NormalisedTerm(es, specs, i);
    }
    InverseProduct(total);
    SumScaledToOne(0, |es| - 1, AmountTerm(r), WeightTerm(es, specs), 1.0 / total);
  }


  lemma NormalisedTerm(es: seq<Entry>, specs: seq<Ranked>, i: int)
    requires AllRegistered(es, specs) && es != [] && WeightedSum(es, specs) != 0.0
    requires NoZeroPriority(es, specs) && 0 <= i < |es|
    ensures AmountTerm(Normalised(es, specs))(i) == WeightTerm(es, specs)(i) * (1.0 / WeightedSum(es, specs))
  {
    var total := WeightedSum(es, specs);
    var p := PriorityOf(specs, es[i].name);
    var w := SumWeight(p);
    assert ScaleWeight(p) == w;
    assert WeightTerm(es, specs)(i) == es[i].amount * w;
    assert Normalised(es, specs)[i] == Rescaled(es[i], total, w);
    RescaledAmount(es[i].amount, total, w);
  }

  /** Specs `a` (priority 0) and `b` (no priority) with amounts 0.5 and 0.5 normalise to a total of 2. */
  lemma NormaliseZeroPriority()
    ensures var specs := [Ranked("a", Some(0.0)), Ranked("b", None)];
            var es := [Entry("a", 0.5), Entry("b", 0.5)];
            AllRegistered(es, specs) && WeightedSum(es, specs) == 0.5 &&
            Normalised(es, specs) == [Entry("a", 1.0), Entry("b", 1.0)] &&
            AmountSum(Normalised(es, specs)) == 2.0
  {
    var specs := [Ranked("a", Some(0.0)), Ranked("b", None)];
    var es := [Entry("a", 0.5), Entry("b", 0.5)];
    assert FindSpec(specs, "a") == Some(specs[0]);
    assert FindSpec(specs, "b") == Some(specs[1]) by {
      assert "b" != "a" by { assert "b"[0] != "a"[0]; }
    }
    assert WeightTerm(es, specs)(0) == 0.0;
    assert WeightTerm(es, specs)(1) == 0.5;
    assert WeightedSum(es, specs) == 0.5;
    var r := Normalised(es, specs);
    assert r[0] == Entry("a", 1.0) && r[1] == Entry("b", 1.0);
    assert r == [Entry("a", 1.0), Entry("b", 1.0)];
    assert AmountTerm(r)(0) == 1.0 && AmountTerm(r)(1) == 1.0;
  }
}
