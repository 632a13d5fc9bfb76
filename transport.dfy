/**
 * `Conveyance.process` and `Storage.process`: passing ingredients along a belt or pipe at most at
 * its rate, and out of a storage at most at the rate of whatever each output feeds.
 */
module Transport {
  import opened Wrappers
  import opened Base
  import opened Graph

  // ---------------------------------------------------------------------------------------------
  // Conveyance.process

  /** The warning of an overloaded conveyance (the two rates of the message are not modelled). */
  const OverCapacity := ComponentError(Warning, "The conveyance receives more items/min than it can carry.")

  /** `ingredient.rate /= ratio` over a list. */
  function Rescaled(xs: seq<Ingredient>, ratio: real): (r: seq<Ingredient>)
    requires ratio != 0.0
    ensures |r| == |xs|
    ensures forall k :: 0 <= k < |xs| ==> r[k] == xs[k].(rate := xs[k].rate / ratio)
  {
    seq(|xs|, k requires 0 <= k < |xs| => xs[k].(rate := xs[k].rate / ratio))
  }

  lemma {:induction false} SumRescaled(xs: seq<Ingredient>, ratio: real)
    requires ratio != 0.0
    ensures SumRates(Rescaled(xs, ratio)) == SumRates(xs) / ratio
    decreases |xs|
  {
    if |xs| > 0 {
      var init := xs[..|xs| - 1];
      assert Rescaled(xs, ratio)[..|xs| - 1] == Rescaled(init, ratio);
      SumRescaled(init, ratio);
      DivideSum(SumRates(init), xs[|xs| - 1].rate, ratio);
    }
  }

  /** Rescaling a list whose rates sum to `total` by `total / rate` makes them sum to `rate`. */
  lemma RescaledToRate(xs: seq<Ingredient>, rate: real)
    requires rate != 0.0 && SumRates(xs) != 0.0
    ensures SumRates(Rescaled(xs, SumRates(xs) / rate)) == rate
  {
    var total := SumRates(xs);
    SumRescaled(xs, total / rate);
    DivideCancels(total, rate);
  }

  /** `self.recipe = ConveyanceRecipe(...)` with `self.ingredients` the same list. */
  function WithCarried(nodes: seq<Node>, c: Ref, carried: seq<Ingredient>): (result: seq<Node>)
    requires IsBuilding(nodes, c)
    ensures Preserves(nodes, result)
    ensures result == nodes[c := nodes[c].(ingredients := carried,
      kind := nodes[c].kind.(recipe := Some(Recipe(BuildingType.Conveyance, Some(carried), carried))))]
  {
    var result := nodes[c := nodes[c].(ingredients := carried,
      kind := nodes[c].kind.(recipe := Some(Recipe(BuildingType.Conveyance, Some(carried), carried))))];
    assert Frame(result[c]) == Frame(nodes[c]);
    result
  }

  predicate IsConveyance(nodes: seq<Node>, c: Ref)
  {
    IsBuilding(nodes, c) && nodes[c].kind.cls.ConveyanceClass?
  }

  /** Whether the rates arriving on the first input exceed what the capped ingredients add up to. */
  predicate Overloaded(nodes: seq<Node>, c: Ref)
    requires WF(nodes) && IsConveyance(nodes, c) && |nodes[c].kind.inputs| > 0
  {
    assert KindOk(nodes, nodes[c].kind);
    SumRates(nodes[nodes[c].kind.inputs[0]].ingredients) > SumRates(Capped(nodes[c].ingredients, nodes[c].kind.cls.rate))
  }

  /** The (possibly rescaled) list a conveyance that does not raise passes on. */
  function Carried(nodes: seq<Node>, c: Ref): (carried: seq<Ingredient>)
    requires WF(nodes) && IsConveyance(nodes, c) && |nodes[c].kind.inputs| > 0
  {
    var rate := nodes[c].kind.cls.rate;
    var capped := Capped(nodes[c].ingredients, rate);
    if Overloaded(nodes, c) && |capped| > 0 && rate != 0.0 && SumRates(capped) != 0.0
    then Rescaled(capped, SumRates(capped) / rate) else capped
  }

  /** The conveyance's ingredients capped in place, and the WARNING when it is overloaded. */
  function CapStage(nodes: seq<Node>, c: Ref): (result: seq<Node>)
    requires WF(nodes) && IsConveyance(nodes, c) && |nodes[c].kind.inputs| > 0
    ensures Preserves(nodes, result)
  {
    var n1 := WithIngredients(nodes, c, Capped(nodes[c].ingredients, nodes[c].kind.cls.rate));
    if Overloaded(nodes, c) then AddErrors(n1, c, [OverCapacity]) else n1
  }

  /**
   * `Conveyance.process`: cap each ingredient the conveyance holds at its rate (in place); when
   * the first input brings more than the capped ingredients add up to, add a WARNING and divide
   * every rate by (capped total / rate); make the result the conveyance's recipe (consumed and
   * produced alike) and its ingredients, and hand it to the first output. Errors are not cleared.
   * A missing first input or output raises IndexError, a zero rate or ratio ZeroDivisionError.
   */
  function ConveyanceProcess(nodes: seq<Node>, c: Ref): (s: Step)
    requires WF(nodes) && IsConveyance(nodes, c)
    ensures Preserves(nodes, s.nodes)
  {
    var k := nodes[c].kind;
    assert KindOk(nodes, k);
    var rate := k.cls.rate;
    if |k.inputs| == 0 then Step(nodes, Raised(IndexError))
    else
      var capped := Capped(nodes[c].ingredients, rate);
      var total := SumRates(capped);
      var over := Overloaded(nodes, c);
      var n2 := CapStage(nodes, c);
      if over && rate == 0.0 then Step(n2, Raised(ZeroDivisionError))
      else if over && total / rate == 0.0 && |capped| > 0 then Step(n2, Raised(ZeroDivisionError))
      else
        var carried := Carried(nodes, c);
        var n3 := WithCarried(n2, c, carried);
        if |k.outputs| == 0 then Step(n3, Raised(IndexError))
        else Step(WithIngredients(n3, k.outputs[0], carried), Returned(true))
  }

  /**
   * The list a conveyance passes on: the capped list when it is not overloaded, and otherwise
   * (when there is anything to scale) a list of the same items summing to the conveyance's rate.
   */
  lemma CarriedSpec(nodes: seq<Node>, c: Ref)
    requires WF(nodes) && IsConveyance(nodes, c) && |nodes[c].kind.inputs| > 0
    ensures var capped := Capped(nodes[c].ingredients, nodes[c].kind.cls.rate);
      |Carried(nodes, c)| == |capped| &&
      (forall j :: 0 <= j < |capped| ==> Carried(nodes, c)[j].item == capped[j].item) &&
      (!Overloaded(nodes, c) ==> Carried(nodes, c) == capped) &&
      (Overloaded(nodes, c) && |capped| > 0 && nodes[c].kind.cls.rate != 0.0 && SumRates(capped) != 0.0 ==>
        SumRates(Carried(nodes, c)) == nodes[c].kind.cls.rate)
  {
    var rate := nodes[c].kind.cls.rate;
    var capped := Capped(nodes[c].ingredients, rate);
    if Overloaded(nodes, c) && |capped| > 0 && rate != 0.0 && SumRates(capped) != 0.0 {
      RescaledToRate(capped, rate);
    }
  }

  /**
   * `Conveyance.process` adds its WARNING exactly when the first input's total exceeds the
   * capped total, and keeps every error it had; it raises IndexError at once without a first
   * input.
   */
  lemma ConveyanceWarning(nodes: seq<Node>, c: Ref)
    requires WF(nodes) && IsConveyance(nodes, c)
    ensures var s := ConveyanceProcess(nodes, c); var k := nodes[c].kind;
      (|k.inputs| == 0 ==> s == Step(nodes, Raised(IndexError))) &&
      (|k.inputs| > 0 ==>
        s.nodes[c].errors == nodes[c].errors + (if Overloaded(nodes, c) then [OverCapacity] else []))
  {
    assert KindOk(nodes, nodes[c].kind);
  }

  /**
   * With a first input, `Conveyance.process` raises ZeroDivisionError exactly when it is
   * overloaded and its rate is zero or it holds ingredients whose capped rates add up to zero,
   * and otherwise returns `True` exactly when it has a first output.
   */
  lemma ConveyanceOutcome(nodes: seq<Node>, c: Ref)
    requires WF(nodes) && IsConveyance(nodes, c) && |nodes[c].kind.inputs| > 0
    ensures var s := ConveyanceProcess(nodes, c); var k := nodes[c].kind;
      var capped := Capped(nodes[c].ingredients, k.cls.rate);
      (s.status == Raised(ZeroDivisionError) <==>
        Overloaded(nodes, c) && (k.cls.rate == 0.0 || (SumRates(capped) == 0.0 && |capped| > 0))) &&
      (s.status == Returned(true) <==> !s.status.Raised? && |k.outputs| > 0) &&
      (s.status.Returned? || s.status.Raised?)
  {
    var k := nodes[c].kind;
    assert KindOk(nodes, k);
    var capped := Capped(nodes[c].ingredients, k.cls.rate);
    if k.cls.rate != 0.0 {
      QuotientZero(SumRates(capped), k.cls.rate);
    }
  }

  /**
   * When `Conveyance.process` returns, the first output, the conveyance's ingredients and both
   * sides of its recipe are all the `Carried` list, and no other node changes.
   */
  lemma ConveyanceCarries(nodes: seq<Node>, c: Ref)
    requires WF(nodes) && IsConveyance(nodes, c)
    ensures var s := ConveyanceProcess(nodes, c); var k := nodes[c].kind;
      s.status == Returned(true) ==>
        assert KindOk(nodes, k);
        |k.inputs| > 0 && |k.outputs| > 0 &&
        s.nodes[c].ingredients == Carried(nodes, c) &&
        s.nodes[c].kind.recipe == Some(Recipe(BuildingType.Conveyance, Some(Carried(nodes, c)), Carried(nodes, c))) &&
        s.nodes[k.outputs[0]].ingredients == Carried(nodes, c) &&
        (forall q :: 0 <= q < |nodes| && q != c && q != k.outputs[0] ==> s.nodes[q] == nodes[q])
  {
    assert KindOk(nodes, nodes[c].kind);
  }

  /**
   * A single ingredient on a belt or pipe of positive rate, passed on unchanged from its one
   * input, leaves at the smaller of its own rate and the conveyance's.
   */
  lemma ConveyanceSingleIngredient(nodes: seq<Node>, c: Ref, x: Ingredient)
    requires WF(nodes) && IsConveyance(nodes, c) && nodes[c].kind.cls.rate > 0.0
    requires |nodes[c].kind.inputs| > 0 && |nodes[c].kind.outputs| > 0
    requires nodes[c].ingredients == [x] && nodes[nodes[c].kind.inputs[0]].ingredients == [x]
    ensures ConveyanceProcess(nodes, c).status == Returned(true)
    ensures ConveyanceProcess(nodes, c).nodes[nodes[c].kind.outputs[0]].ingredients ==
      [x.(rate := Min(x.rate, nodes[c].kind.cls.rate))]
  {
    var k := nodes[c].kind;
    assert KindOk(nodes, k);
    var capped := Capped([x], k.cls.rate);
    assert capped == [x.(rate := Min(x.rate, k.cls.rate))];
    assert SumRates([x]) == x.rate;
    assert SumRates(capped) == Min(x.rate, k.cls.rate) by {
      assert capped[..0] == [];
    }
    if Overloaded(nodes, c) {
      assert SumRates(capped) == k.cls.rate;
      assert SumRates(capped) / k.cls.rate == 1.0;
      assert Rescaled(capped, 1.0)[0] == capped[0];
      assert Rescaled(capped, 1.0) == capped;
    }
  }

  /** The imperative `Conveyance.process`, with the recipe built by `SetIngredients`. */
  method ProcessConveyance(h: Heap, c: Ref) returns (status: Status)
    requires WF(h.nodes) && IsConveyance(h.nodes, c)
    modifies h
    ensures Step(h.nodes, status) == ConveyanceProcess(old(h.nodes), c)
  {
    ghost var n0 := h.nodes;
    var k := h.nodes[c].kind;
    assert KindOk(h.nodes, k);
    if |k.inputs| == 0 {
      return Raised(IndexError);
    }
    var over, xs, totalRate := CapConveyance(h, c);
    if over {
      if k.cls.rate == 0.0 {
        return Raised(ZeroDivisionError);
      }
      var ratio := totalRate / k.cls.rate;
      QuotientZero(totalRate, k.cls.rate);
      if ratio == 0.0 && |xs| > 0 {
        return Raised(ZeroDivisionError);
      }
      if |xs| > 0 {
        xs := DivideRates(xs, ratio);
      }
    }
    assert xs == Carried(n0, c);
    h.nodes := WithCarried(h.nodes, c, xs);
    if |k.outputs| == 0 {
      return Raised(IndexError);
    }
    h.nodes := WithIngredients(h.nodes, k.outputs[0], xs);
    status := Returned(true);
  }

  /**
   * The first half of `Conveyance.process`: the ingredients capped in place, and the WARNING when
   * the first input brings more than they add up to.
   */
  method CapConveyance(h: Heap, c: Ref) returns (over: bool, xs: seq<Ingredient>, totalRate: real)
    requires WF(h.nodes) && IsConveyance(h.nodes, c) && |h.nodes[c].kind.inputs| > 0
    modifies h
    ensures h.nodes == CapStage(old(h.nodes), c)
    ensures over == Overloaded(old(h.nodes), c)
    ensures xs == Capped(old(h.nodes)[c].ingredients, old(h.nodes)[c].kind.cls.rate)
    ensures totalRate == SumRates(xs)
  {
    ghost var n0 := h.nodes;
    var k := h.nodes[c].kind;
    assert KindOk(h.nodes, k);
    var totalInput := SumRates(h.nodes[k.inputs[0]].ingredients);
    var recipe := SetIngredients(k.cls.rate, h.nodes[c].ingredients);
    totalRate := SumRates(recipe.produces);
    over := totalInput > totalRate;
    assert over == Overloaded(n0, c);
    h.nodes := WithIngredients(h.nodes, c, recipe.produces);
    xs := recipe.produces;
    if over {
      h.nodes := AddErrors(h.nodes, c, [OverCapacity]);
    }
  }

  /** `for ingredient in recipe.produces: ingredient.rate /= ratio`. */
  method DivideRates(xs0: seq<Ingredient>, ratio: real) returns (xs: seq<Ingredient>)
    requires ratio != 0.0
    ensures xs == Rescaled(xs0, ratio)
  {
    xs := xs0;
    var j := 0;
    while j < |xs|
      invariant 0 <= j <= |xs| == |xs0|
      invariant forall m :: 0 <= m < j ==> xs[m] == xs0[m].(rate := xs0[m].rate / ratio)
      invariant forall m :: j <= m < |xs| ==> xs[m] == xs0[m]
    {
      xs := xs[j := xs[j].(rate := xs[j].rate / ratio)];
      j := j + 1;
    }
  }

  /**
   * A worked example of `CarriedSpec`, not a rule of its own: capping is per ingredient, so two
   * ingredients of 50 per minute on a 60-per-minute belt pass without a warning and leave at 100
   * per minute in all.
   */
  lemma ConveyanceCapsEachIngredientOnly(nodes: seq<Node>, c: Ref, a: Ingredient, b: Ingredient)
    requires WF(nodes) && IsConveyance(nodes, c) && nodes[c].kind.cls.rate == 60.0
    requires |nodes[c].kind.inputs| > 0 && |nodes[c].kind.outputs| > 0
    requires a.rate == 50.0 && b.rate == 50.0
    requires nodes[c].ingredients == [a, b] && nodes[nodes[c].kind.inputs[0]].ingredients == [a, b]
    ensures ConveyanceProcess(nodes, c).status == Returned(true)
    ensures ConveyanceProcess(nodes, c).nodes[c].errors == nodes[c].errors
    ensures SumRates(ConveyanceProcess(nodes, c).nodes[nodes[c].kind.outputs[0]].ingredients) == 100.0
  {
    var k := nodes[c].kind;
    assert KindOk(nodes, k);
    var capped := Capped([a, b], 60.0);
    assert capped == [a, b];
    assert [a][..0] == [];
    assert SumRates([a]) == 50.0;
    assert [a, b][..1] == [a];
    assert SumRates([a, b]) == 100.0;
    assert !Overloaded(nodes, c);
  }

  // ---------------------------------------------------------------------------------------------
  // Storage.process

  /** The rate of the building an output feeds, as `output.target.attached_to.rate`. */
  function FedRate(nodes: seq<Node>, output: Ref): RateAttr
    requires WF(nodes) && IsOutput(nodes, output) && nodes[output].kind.target.Some?
  {
    assert KindOk(nodes, nodes[output].kind);
    TargetOwnerRate(nodes, nodes[output].kind.target.value)
  }

  /** The error `min(rate, x)` raises when `x` is not a number. */
  function RateError(a: RateAttr): PyError
  {
    if a.RateNone? then TypeError else AttributeError
  }

  /**
   * The scan of `Storage.process` over the outputs, for a list `xs` of ingredients: the
   * connected outputs handed the list, the rates of what they feed, and the error that stopped
   * the scan. Rates are read only when the list is not empty.
   */
  function StorageScan(nodes: seq<Node>, outs: seq<Ref>, xs: seq<Ingredient>): (r: (seq<Ref>, seq<real>, Option<PyError>))
    requires WF(nodes) && AllOutputs(nodes, outs)
    ensures |r.0| == |r.1| && AllOutputs(nodes, r.0) && forall m :: 0 <= m < |r.0| ==> HasTarget(nodes, r.0[m])
    decreases |outs|
  {
    if |outs| == 0 then ([], [], None)
    else if !HasTarget(nodes, outs[0]) then StorageScan(nodes, outs[1..], xs)
    else
      var a := FedRate(nodes, outs[0]);
      if |xs| > 0 && !a.RateValue? then ([], [], Some(RateError(a)))
      else
        var (p, rates, e) := StorageScan(nodes, outs[1..], xs);
        ([outs[0]] + p, [if a.RateValue? then a.value else 0.0] + rates, e)
  }

  /**
   * The scan stops exactly at a connected output whose fed building has no numeric rate, and only
   * when there is something to cap; otherwise every connected output is handed the list.
   */
  lemma StorageScanSpec(nodes: seq<Node>, outs: seq<Ref>, xs: seq<Ingredient>)
    requires WF(nodes) && AllOutputs(nodes, outs)
    ensures StorageScan(nodes, outs, xs).2.None? <==>
      |xs| == 0 || forall m :: 0 <= m < |outs| && HasTarget(nodes, outs[m]) ==> FedRate(nodes, outs[m]).RateValue?
    ensures StorageScan(nodes, outs, xs).2.None? ==>
      forall m :: 0 <= m < |outs| && HasTarget(nodes, outs[m]) ==> outs[m] in StorageScan(nodes, outs, xs).0
    ensures |xs| > 0 ==> RatesRead(nodes, StorageScan(nodes, outs, xs).0, StorageScan(nodes, outs, xs).1)
  {
    StorageScanStops(nodes, outs, xs);
    StorageScanHands(nodes, outs, xs);
    StorageScanRates(nodes, outs, xs);
  }

  /** The scan hands the list only to outputs in `outs`. */
  lemma {:induction false} StorageScanWithin(nodes: seq<Node>, outs: seq<Ref>, xs: seq<Ingredient>)
    requires WF(nodes) && AllOutputs(nodes, outs)
    ensures forall m :: 0 <= m < |StorageScan(nodes, outs, xs).0| ==> StorageScan(nodes, outs, xs).0[m] in outs
    decreases |outs|
  {
    if |outs| > 0 {
      StorageScanWithin(nodes, outs[1..], xs);
      var rest := StorageScan(nodes, outs[1..], xs);
      assert forall m :: 0 <= m < |rest.0| ==> rest.0[m] in outs;
    }
  }

  /** Whether the scan stops. */
  lemma {:induction false} StorageScanStops(nodes: seq<Node>, outs: seq<Ref>, xs: seq<Ingredient>)
    requires WF(nodes) && AllOutputs(nodes, outs)
    ensures StorageScan(nodes, outs, xs).2.None? <==>
      |xs| == 0 || forall m :: 0 <= m < |outs| && HasTarget(nodes, outs[m]) ==> FedRate(nodes, outs[m]).RateValue?
    decreases |outs|
  {
    if |outs| > 0 {
      StorageScanStops(nodes, outs[1..], xs);
      assert forall m :: 1 <= m < |outs| ==> outs[m] == outs[1..][m - 1];
    }
  }

  /** A scan that does not stop hands the list to every connected output. */
  lemma {:induction false} StorageScanHands(nodes: seq<Node>, outs: seq<Ref>, xs: seq<Ingredient>)
    requires WF(nodes) && AllOutputs(nodes, outs)
    ensures StorageScan(nodes, outs, xs).2.None? ==>
      forall m :: 0 <= m < |outs| && HasTarget(nodes, outs[m]) ==> outs[m] in StorageScan(nodes, outs, xs).0
    decreases |outs|
  {
    if |outs| > 0 {
      StorageScanHands(nodes, outs[1..], xs);
      assert forall m :: 1 <= m < |outs| ==> outs[m] == outs[1..][m - 1];
    }
  }

  /** Each rate in `rates` is the one the building fed by the matching output in `handed` has. */
  predicate RatesRead(nodes: seq<Node>, handed: seq<Ref>, rates: seq<real>)
    requires WF(nodes) && |handed| == |rates|
  {
    forall m :: 0 <= m < |handed| ==>
      IsOutput(nodes, handed[m]) && HasTarget(nodes, handed[m]) && FedRate(nodes, handed[m]) == RateValue(rates[m])
  }

  lemma RatesReadCons(nodes: seq<Node>, o: Ref, v: real, handed: seq<Ref>, rates: seq<real>)
    requires WF(nodes) && |handed| == |rates| && IsOutput(nodes, o) && HasTarget(nodes, o)
    requires FedRate(nodes, o) == RateValue(v) && RatesRead(nodes, handed, rates)
    ensures RatesRead(nodes, [o] + handed, [v] + rates)
  {
    var hs, vs := [o] + handed, [v] + rates;
    forall m | 0 <= m < |hs|
      ensures IsOutput(nodes, hs[m]) && HasTarget(nodes, hs[m]) && FedRate(nodes, hs[m]) == RateValue(vs[m])
    {
      if m > 0 {
        assert hs[m] == handed[m - 1] && vs[m] == rates[m - 1];
      }
    }
  }

  /** With a list to cap, the rates the scan records are those of the fed buildings. */
  lemma {:induction false} StorageScanRates(nodes: seq<Node>, outs: seq<Ref>, xs: seq<Ingredient>)
    requires WF(nodes) && AllOutputs(nodes, outs)
    ensures |xs| > 0 ==> RatesRead(nodes, StorageScan(nodes, outs, xs).0, StorageScan(nodes, outs, xs).1)
    decreases |outs|
  {
    if |outs| > 0 && |xs| > 0 {
      StorageScanRates(nodes, outs[1..], xs);
      if HasTarget(nodes, outs[0]) && FedRate(nodes, outs[0]).RateValue? {
        var rest := StorageScan(nodes, outs[1..], xs);
        RatesReadCons(nodes, outs[0], FedRate(nodes, outs[0]).value, rest.0, rest.1);
      }
    }
  }

  /** Capping at each rate in turn: every rate ends at the least of its own and all of `rates`. */
  function CapAll(xs: seq<Ingredient>, rates: seq<real>): (r: seq<Ingredient>)
    ensures |r| == |xs|
    ensures forall k :: 0 <= k < |xs| ==> r[k].item == xs[k].item && r[k].amount == xs[k].amount && r[k].rate <= xs[k].rate
    ensures forall k, m :: 0 <= k < |xs| && 0 <= m < |rates| ==> r[k].rate <= rates[m]
    ensures forall k :: 0 <= k < |xs| ==> r[k].rate == xs[k].rate || exists m :: 0 <= m < |rates| && r[k].rate == rates[m]
    decreases |rates|
  {
    if |rates| == 0 then xs
    else
      var r := CapAll(Capped(xs, rates[0]), rates[1..]);
      assert forall m :: 1 <= m < |rates| ==> rates[m] == rates[1..][m - 1];
      r
  }

  /** The node and the outputs in `holders` all hold the same list `xs`. */
  function Share(nodes: seq<Node>, holders: seq<Ref>, xs: seq<Ingredient>): (result: seq<Node>)
    ensures Preserves(nodes, result)
    ensures forall q :: 0 <= q < |nodes| ==> result[q] == if q in holders then nodes[q].(ingredients := xs) else nodes[q]
  {
    seq(|nodes|, q requires 0 <= q < |nodes| => if q in holders then nodes[q].(ingredients := xs) else nodes[q])
  }

  /**
   * `Storage.process`: for each connected output in turn, cap the storage's ingredients (in place)
   * at the rate of the building it feeds and hand the output the storage's list. The list is one
   * object, so at the end the storage and every output handed it hold the list capped at every
   * rate read. A fed building with no numeric rate stops the scan with a raise (only when there
   * is something to cap). Errors are not cleared.
   */
  function StorageProcess(nodes: seq<Node>, s: Ref): (step: Step)
    requires WF(nodes) && IsBuilding(nodes, s)
    ensures Preserves(nodes, step.nodes)
    ensures step.status.Done? || step.status.Raised?
  {
    var k := nodes[s].kind;
    assert KindOk(nodes, k);
    var xs := nodes[s].ingredients;
    var scan := StorageScan(nodes, k.outputs, xs);
    Step(Share(nodes, [s] + scan.0, CapAll(xs, scan.1)), if scan.2.Some? then Raised(scan.2.value) else Done)
  }

  /**
   * `Storage.process` on a storage with an ingredient list raises exactly when that list is not
   * empty and some connected output feeds a building with no numeric rate; the storage keeps as
   * many ingredients as it had.
   */
  lemma StorageRaises(nodes: seq<Node>, s: Ref)
    requires WF(nodes) && IsBuilding(nodes, s)
    ensures AllOutputs(nodes, nodes[s].kind.outputs)
    ensures |StorageProcess(nodes, s).nodes[s].ingredients| == |nodes[s].ingredients|
    ensures StorageProcess(nodes, s).status.Done? <==> (|nodes[s].ingredients| == 0 ||
      forall m :: 0 <= m < |nodes[s].kind.outputs| && HasTarget(nodes, nodes[s].kind.outputs[m]) ==>
        FedRate(nodes, nodes[s].kind.outputs[m]).RateValue?)
  {
    assert KindOk(nodes, nodes[s].kind);
    StorageScanStops(nodes, nodes[s].kind.outputs, nodes[s].ingredients);
  }

  /**
   * `Storage.process` leaves its unconnected outputs and every node other than the storage and
   * its outputs untouched.
   */
  lemma StorageLeaves(nodes: seq<Node>, s: Ref)
    requires WF(nodes) && IsBuilding(nodes, s)
    ensures AllOutputs(nodes, nodes[s].kind.outputs)
    ensures forall q :: 0 <= q < |nodes| && q != s && q !in nodes[s].kind.outputs ==> StorageProcess(nodes, s).nodes[q] == nodes[q]
    ensures forall m :: 0 <= m < |nodes[s].kind.outputs| && !HasTarget(nodes, nodes[s].kind.outputs[m]) ==>
      StorageProcess(nodes, s).nodes[nodes[s].kind.outputs[m]] == nodes[nodes[s].kind.outputs[m]]
  {
    var k := nodes[s].kind;
    assert KindOk(nodes, k);
    StorageScanWithin(nodes, k.outputs, nodes[s].ingredients);
    var scan := StorageScan(nodes, k.outputs, nodes[s].ingredients);
    forall m | 0 <= m < |k.outputs| && !HasTarget(nodes, k.outputs[m])
      ensures k.outputs[m] !in [s] + scan.0
    {
      assert k.outputs[m] != s;
    }
  }

  /**
   * When `Storage.process` completes, the storage and every connected output hold one list:
   * the storage's ingredients, each at no more than its own rate.
   */
  lemma StorageShares(nodes: seq<Node>, s: Ref)
    requires WF(nodes) && IsBuilding(nodes, s) && StorageProcess(nodes, s).status.Done?
    ensures AllOutputs(nodes, nodes[s].kind.outputs)
    ensures forall m :: 0 <= m < |nodes[s].kind.outputs| && HasTarget(nodes, nodes[s].kind.outputs[m]) ==>
      StorageProcess(nodes, s).nodes[nodes[s].kind.outputs[m]].ingredients == StorageProcess(nodes, s).nodes[s].ingredients
    ensures |StorageProcess(nodes, s).nodes[s].ingredients| == |nodes[s].ingredients|
    ensures forall j :: 0 <= j < |nodes[s].ingredients| ==>
      StorageProcess(nodes, s).nodes[s].ingredients[j].item == nodes[s].ingredients[j].item &&
      StorageProcess(nodes, s).nodes[s].ingredients[j].rate <= nodes[s].ingredients[j].rate
  {
    var k := nodes[s].kind;
    assert KindOk(nodes, k);
    StorageScanHands(nodes, k.outputs, nodes[s].ingredients);
  }

  /**
   * When `Storage.process` completes, every ingredient of the shared list is capped at the rate
   * of every building a connected output feeds.
   */
  lemma StorageCapsAtFed(nodes: seq<Node>, s: Ref)
    requires WF(nodes) && IsBuilding(nodes, s) && StorageProcess(nodes, s).status.Done?
    ensures AllOutputs(nodes, nodes[s].kind.outputs)
    ensures forall j, m ::
      0 <= j < |StorageProcess(nodes, s).nodes[s].ingredients| && 0 <= m < |nodes[s].kind.outputs| &&
      HasTarget(nodes, nodes[s].kind.outputs[m])
      ==>
        FedRate(nodes, nodes[s].kind.outputs[m]).RateValue? &&
        StorageProcess(nodes, s).nodes[s].ingredients[j].rate <= FedRate(nodes, nodes[s].kind.outputs[m]).value
  {
    var k := nodes[s].kind;
    assert KindOk(nodes, k);
    var xs := nodes[s].ingredients;
    StorageScanStops(nodes, k.outputs, xs);
    StorageScanHands(nodes, k.outputs, xs);
    StorageScanRates(nodes, k.outputs, xs);
    var scan := StorageScan(nodes, k.outputs, xs);
    var final := CapAll(xs, scan.1);
    assert StorageProcess(nodes, s).nodes[s].ingredients == final;
    if |xs| > 0 {
      forall j, m | 0 <= j < |final| && 0 <= m < |k.outputs| && HasTarget(nodes, k.outputs[m])
        ensures final[j].rate <= FedRate(nodes, k.outputs[m]).value
      {
        var i :| 0 <= i < |scan.0| && scan.0[i] == k.outputs[m];
        assert FedRate(nodes, scan.0[i]) == RateValue(scan.1[i]);
      }
    }
  }

  /** The holders and rates already collected, followed by those of the rest of the scan. */
  function Joined(holders: seq<Ref>, rates: seq<real>, rest: (seq<Ref>, seq<real>, Option<PyError>)): (seq<Ref>, seq<real>, Option<PyError>)
  {
    (holders + rest.0, rates + rest.1, rest.2)
  }

  /**
   * The loop of `Storage.process`. The storage's list is shared by every output it is handed
   * to, so the method keeps the one list and writes it to the storage and to those outputs.
   */
  method ProcessStorage(h: Heap, s: Ref) returns (status: Status)
    requires WF(h.nodes) && IsBuilding(h.nodes, s)
    modifies h
    ensures Step(h.nodes, status) == StorageProcess(old(h.nodes), s)
  {
    var nodes := h.nodes;
    assert KindOk(nodes, nodes[s].kind);
    var holders, xs, error := ScanOutputs(nodes, s, nodes[s].kind.outputs, nodes[s].ingredients);
    h.nodes := Share(nodes, holders, xs);
    status := if error.Some? then Raised(error.value) else Done;
  }

  /**
   * The scan itself: the holders of the list (the storage first), the list capped at every rate
   * read, and the error that stopped the scan, all as `StorageScan` describes them.
   */
  method ScanOutputs(nodes: seq<Node>, s: Ref, outs: seq<Ref>, xs0: seq<Ingredient>)
    returns (holders: seq<Ref>, xs: seq<Ingredient>, error: Option<PyError>)
    requires WF(nodes) && AllOutputs(nodes, outs)
    ensures holders == [s] + StorageScan(nodes, outs, xs0).0
    ensures xs == CapAll(xs0, StorageScan(nodes, outs, xs0).1)
    ensures error == StorageScan(nodes, outs, xs0).2
  {
    xs := xs0;
    holders := [s];
    ghost var handed: seq<Ref> := [];
    ghost var rates: seq<real> := [];
    var i := 0;
    ghost var scan := StorageScan(nodes, outs, xs0);
    assert outs[0..] == outs;
    JoinedNone(scan);
    while i < |outs|
      invariant 0 <= i <= |outs| && |xs| == |xs0|
      invariant holders == [s] + handed && xs == CapAll(xs0, rates)
      invariant scan == Joined(handed, rates, StorageScan(nodes, outs[i..], xs0))
    {
      ScanStep(nodes, outs, xs0, i);
      var output := outs[i];
      if nodes[output].kind.target.Some? {
        var rate := FedRate(nodes, output);
        if |xs| > 0 && !rate.RateValue? {
          assert handed + [] == handed && rates + [] == rates;
          return holders, xs, Some(RateError(rate));
        }
        var r := if rate.RateValue? then rate.value else 0.0;
        CapAllStep(xs0, rates, r);
        JoinedStep(handed, rates, output, r, StorageScan(nodes, outs[i + 1..], xs0));
        xs := Capped(xs, r);
        holders := holders + [output];
        handed := handed + [output];
        rates := rates + [r];
      }
      i := i + 1;
    }
    assert handed + [] == handed && rates + [] == rates;
    assert outs[i..] == [];
    error := None;
  }

  lemma JoinedNone(scan: (seq<Ref>, seq<real>, Option<PyError>))
    ensures scan == Joined([], [], scan)
  {
    assert [] + scan.0 == scan.0 && [] + scan.1 == scan.1;
  }

  lemma ScanStep(nodes: seq<Node>, outs: seq<Ref>, xs: seq<Ingredient>, i: nat)
    requires WF(nodes) && AllOutputs(nodes, outs) && i < |outs|
    ensures StorageScan(nodes, outs[i..], xs) ==
      if !HasTarget(nodes, outs[i]) then StorageScan(nodes, outs[i + 1..], xs)
      else if |xs| > 0 && !FedRate(nodes, outs[i]).RateValue? then ([], [], Some(RateError(FedRate(nodes, outs[i]))))
      else Joined([outs[i]], [if FedRate(nodes, outs[i]).RateValue? then FedRate(nodes, outs[i]).value else 0.0],
        StorageScan(nodes, outs[i + 1..], xs))
  {
    assert outs[i..][1..] == outs[i + 1..];
    assert outs[i..][0] == outs[i];
  }

  lemma JoinedStep(holders: seq<Ref>, rates: seq<real>, o: Ref, r: real, rest: (seq<Ref>, seq<real>, Option<PyError>))
    ensures Joined(holders, rates, Joined([o], [r], rest)) == Joined(holders + [o], rates + [r], rest)
  {
    assert holders + ([o] + rest.0) == (holders + [o]) + rest.0;
    assert rates + ([r] + rest.1) == (rates + [r]) + rest.1;
  }

  lemma {:induction false} CapAllStep(xs: seq<Ingredient>, rates: seq<real>, r: real)
    ensures CapAll(xs, rates + [r]) == Capped(CapAll(xs, rates), r)
    decreases |rates|
  {
    if |rates| > 0 {
      assert (rates + [r])[1..] == rates[1..] + [r];
      CapAllStep(Capped(xs, rates[0]), rates[1..], r);
    }
  }
}
