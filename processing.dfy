/**
 * What processing a resource node, an infinite supply node and a building does in the current
 * library: the checks a building makes before it runs its recipe, how it fills its outputs, and
 * the special processing of conveyances and storage.
 */
module Processing {
  import opened Wrappers
  import opened Base
  import opened Text
  import opened Graph
  import opened Connections

  // ---------------------------------------------------------------------------------------------
  // Resource nodes

  const NodeUnconnected := ComponentError(Warning, "This ResourceNode is not connected")
  const MinerWithoutRecipe := ComponentError(Warning, "The connected Miner has no recipe")

  function WrongProduct(item: Item): ComponentError
  {
    ComponentError(Impossible, "The connected Miner must produce " + item.name + ", but it does not.")
  }

  /** The programmatic names of what a recipe produces. */
  function ProducedNames(ps: seq<Ingredient>): (r: seq<string>)
    ensures |r| == |ps| && forall k :: 0 <= k < |ps| ==> r[k] == ps[k].item.ProgName()
  {
    seq(|ps|, k requires 0 <= k < |ps| => ps[k].item.ProgName())
  }

  /** The input a resource node's output feeds, if any. */
  function FedInput(nodes: seq<Node>, r: Ref): Option<Ref>
    requires WF(nodes) && IsResource(nodes, r)
  {
    assert KindOk(nodes, nodes[r].kind);
    nodes[nodes[r].kind.output].kind.target
  }

  /** The building an input belongs to, when it is a miner or a water extractor. */
  predicate IsExtractor(nodes: seq<Node>, b: Ref)
  {
    IsBuilding(nodes, b) &&
    (nodes[b].kind.buildingType == BuildingType.Miner || nodes[b].kind.buildingType == BuildingType.WaterExtractor)
  }

  /**
   * `ResourceNode.process`: a resource node is fine exactly when its output feeds an extractor
   * whose recipe produces the node's item (compared by programmatic name). Feeding anything else
   * raises while the message is formatted.
   */
  function ResourceProcess(nodes: seq<Node>, r: Ref): (s: Step)
    requires WF(nodes) && IsResource(nodes, r) && nodes[r].kind.supply.Ordinary?
    ensures Preserves(nodes, s.nodes)
    ensures forall q :: 0 <= q < |nodes| && q != r ==> s.nodes[q] == nodes[q]
    ensures s.status == Done || s.status == Raised(AttributeError)
    ensures s.status == Raised(AttributeError) <==>
      FedInput(nodes, r).Some? && !IsExtractor(nodes, nodes[FedInput(nodes, r).value].kind.owner)
    ensures s.status == Done ==> |s.nodes[r].errors| <= 1
    ensures s.status == Done ==>
      (s.nodes[r].errors == [] <==>
        FedInput(nodes, r).Some? &&
        var b := nodes[FedInput(nodes, r).value].kind.owner;
        nodes[b].kind.recipe.Some? &&
        nodes[r].kind.item.ProgName() in ProducedNames(nodes[b].kind.recipe.value.produces))
  {
    var n1 := ClearErrors(nodes, r);
    match FedInput(nodes, r)
    case None => Step(AddErrors(n1, r, [NodeUnconnected]), Done)
    case Some(t) =>
      assert KindOk(nodes, nodes[nodes[r].kind.output].kind);
      var b := nodes[t].kind.owner;
      if !IsExtractor(nodes, b) then Step(n1, Raised(AttributeError))
      else match nodes[b].kind.recipe
        case None => Step(AddErrors(n1, r, [MinerWithoutRecipe]), Done)
        case Some(recipe) =>
          if nodes[r].kind.item.ProgName() in ProducedNames(recipe.produces) then Step(n1, Done)
          else Step(AddErrors(n1, r, [WrongProduct(nodes[r].kind.item)]), Done)
  }

  const SupplyWithoutRate := ComponentError(Impossible, "Node has no rate set.")
  const SupplyUnconnected := ComponentError(Warning, "Node is not connected to a conveyance.")

  /** Python truthiness of an optional rate: `None` and zero are false. */
  predicate RateSet(rate: Option<real>)
  {
    rate.Some? && rate.value != 0.0
  }

  /** The errors `InfiniteSupplyNode.can_process` adds (the node always has an item here). */
  function SupplyCheckErrors(nodes: seq<Node>, r: Ref): seq<ComponentError>
    requires WF(nodes) && IsResource(nodes, r) && nodes[r].kind.supply.Infinite?
  {
    (if RateSet(nodes[r].kind.supply.rate) then [] else [SupplyWithoutRate]) +
    (if FedInput(nodes, r).Some? then [] else [SupplyUnconnected])
  }

  /**
   * `InfiniteSupplyNode.process`. Its `can_process` always answers True, but a failed check
   * assigns False to the instance's `can_process`, so the next processing of that node raises a
   * TypeError when it calls it. Otherwise the output carries the item, at the node's own rate
   * capped by the downstream conveyance's rate, or at that rate when the node has none. A `None`
   * rate found downstream, or kept when unconnected, is carried as 0.
   */
  function InfiniteProcess(nodes: seq<Node>, r: Ref): (s: Step)
    requires WF(nodes) && IsResource(nodes, r) && nodes[r].kind.supply.Infinite?
    ensures Preserves(nodes, s.nodes)
    ensures nodes[r].kind.supply.shadowed ==> s == Step(ClearErrors(nodes, r), Raised(TypeError))
    ensures !nodes[r].kind.supply.shadowed ==>
      s.nodes[r].errors == SupplyCheckErrors(nodes, r) &&
      s.nodes[r].kind.supply.shadowed == (SupplyCheckErrors(nodes, r) != [])
    ensures s.status.Returned? ==>
      (s.status.value &&
       var out := nodes[r].kind.output;
       |s.nodes[out].ingredients| == 1 &&
       s.nodes[out].ingredients[0].item == nodes[r].kind.item &&
       s.nodes[out].ingredients[0].amount == None &&
       (RateSet(nodes[r].kind.supply.rate) && FedInput(nodes, r).Some? &&
        TargetOwnerRate(nodes, FedInput(nodes, r).value).RateValue? ==>
          s.nodes[out].ingredients[0].rate ==
            Min(nodes[r].kind.supply.rate.value, TargetOwnerRate(nodes, FedInput(nodes, r).value).value)))
    ensures !nodes[r].kind.supply.shadowed && RateSet(nodes[r].kind.supply.rate) ==>
      (s.status.Raised? <==> FedInput(nodes, r).None? || !TargetOwnerRate(nodes, FedInput(nodes, r).value).RateValue?)
  {
    var n1 := ClearErrors(nodes, r);
    var supply := nodes[r].kind.supply;
    assert KindOk(nodes, nodes[r].kind);
    var out := nodes[r].kind.output;
    if supply.shadowed then Step(n1, Raised(TypeError))
    else
      var errs := SupplyCheckErrors(nodes, r);
      var n2 := WithErrors(n1, r, errs);
      var n3 := if errs == [] then n2 else n2[r := n2[r].(kind := n2[r].kind.(supply := supply.(shadowed := true)))];
      assert Preserves(n2, n3);
      var target := FedInput(nodes, r);
      var emitted: Result<real, PyError> :=
        if !RateSet(supply.rate) then
          (if target.None? then Success(supply.rate.GetOr(0.0))
           else match TargetOwnerRate(nodes, target.value)
             case RateValue(v) => Success(v)
             case RateNone => Success(0.0)
             case RateMissing => Failure(AttributeError))
        else if target.None? then Failure(AttributeError)
        else match TargetOwnerRate(nodes, target.value)
          case RateValue(v) => Success(Min(supply.rate.value, v))
          case RateNone => Failure(TypeError)
          case RateMissing => Failure(AttributeError);
      match emitted
      case Failure(e) => Step(n3, Raised(e))
      case Success(rate) => Step(WithIngredients(n3, out, [Ingredient(nodes[r].kind.item, None, rate)]), Returned(true))
  }

  // ---------------------------------------------------------------------------------------------
  // Building.can_process

  const NoRecipe := ComponentError(Warning, "Building has no recipe")
  const InStandby := ComponentError(Warning, "Building is in standby mode")
  const TooFewInputs := ComponentError(Impossible, "Building has fewer inputs than its recipe requires")

  function Unavailable(name: string): ComponentError
  {
    ComponentError(Warning, "Recipe ingredient " + name + " is not available")
  }

  function NotRequired(name: string): ComponentError
  {
    ComponentError(Warning, "Ingredient " + name + " is not required for the recipe")
  }

  /** The item names of a list of ingredients. */
  function Names(xs: seq<Ingredient>): (r: seq<string>)
    ensures |r| == |xs| && forall k :: 0 <= k < |xs| ==> r[k] == xs[k].item.name
  {
    seq(|xs|, k requires 0 <= k < |xs| => xs[k].item.name)
  }

  /** One warning per required ingredient whose name is not among `names`, in recipe order. */
  function MissingErrors(required: seq<string>, names: seq<string>): seq<ComponentError>
    decreases |required|
  {
    if |required| == 0 then []
    else (if required[0] in names then [] else [Unavailable(required[0])]) + MissingErrors(required[1..], names)
  }

  /** One warning per supplied ingredient name the recipe does not require, in supply order. */
  function ExtraErrors(names: seq<string>, required: seq<string>): seq<ComponentError>
    decreases |names|
  {
    if |names| == 0 then []
    else (if names[0] in required then [] else [NotRequired(names[0])]) + ExtraErrors(names[1..], required)
  }

  /** What a check adds to the component's errors, and what it answers. */
  datatype Check = Check(errors: seq<ComponentError>, ok: bool)

  /** Every required name is supplied. */
  predicate AllSupplied(required: seq<string>, names: seq<string>)
  {
    forall k :: 0 <= k < |required| ==> required[k] in names
  }

  /** `Building.can_process` on a building's state and its current ingredients. */
  function BuildingCheck(b: Kind, ingredients: seq<Ingredient>): Check
    requires b.Building?
  {
    var e1 := if b.recipe.None? then [NoRecipe] else [];
    var e2 := if b.standby then [InStandby] else [];
    var ok0 := b.recipe.Some? && !b.standby;
    if b.recipe.Some? && |b.recipe.value.Consumed()| > 0 then
      var consumed := b.recipe.value.Consumed();
      var required := Names(consumed);
      var names := Names(ingredients);
      var e3 := if |b.inputs| < |consumed| then [TooFewInputs] else [];
      Check(e1 + e2 + e3 + MissingErrors(required, names) + ExtraErrors(names, required),
            ok0 && |b.inputs| >= |consumed| && MissingErrors(required, names) == [])
    else
      Check(e1 + e2, ok0)
  }

  lemma {:induction false} MissingErrorsEmpty(required: seq<string>, names: seq<string>)
    ensures MissingErrors(required, names) == [] <==> AllSupplied(required, names)
    ensures forall e :: e in MissingErrors(required, names) ==> e.level == Warning
    decreases |required|
  {
    if |required| > 0 {
      MissingErrorsEmpty(required[1..], names);
      if AllSupplied(required[1..], names) && required[0] in names {
        forall k | 0 <= k < |required|
          ensures required[k] in names
        {
          if k > 0 {
            assert required[k] == required[1..][k - 1];
          }
        }
      }
      if AllSupplied(required, names) {
        forall k | 0 <= k < |required[1..]|
          ensures required[1..][k] in names
        {
          assert required[1..][k] == required[k + 1];
        }
      }
    }
  }

  lemma {:induction false} ExtraErrorsWarnings(names: seq<string>, required: seq<string>)
    ensures forall e :: e in ExtraErrors(names, required) ==> e.level == Warning
    decreases |names|
  {
    if |names| > 0 {
      ExtraErrorsWarnings(names[1..], required);
    }
  }

  lemma {:induction false} ExtraErrorsAppend(names: seq<string>, n: string, required: seq<string>)
    ensures ExtraErrors(names + [n], required) ==
      ExtraErrors(names, required) + (if n in required then [] else [NotRequired(n)])
    decreases |names|
  {
    if |names| == 0 {
      assert names + [n] == [n];
    } else {
      assert (names + [n])[1..] == names[1..] + [n];
      ExtraErrorsAppend(names[1..], n, required);
    }
  }

  lemma {:induction false} MissingErrorsIgnoresUnrequired(required: seq<string>, names: seq<string>, n: string)
    requires n !in required
    ensures MissingErrors(required, names + [n]) == MissingErrors(required, names)
    decreases |required|
  {
    if |required| > 0 {
      assert required[0] in names + [n] <==> required[0] in names;
      MissingErrorsIgnoresUnrequired(required[1..], names, n);
    }
  }

  /**
   * A building can process exactly when it has a recipe, is not in standby and, if the recipe
   * consumes anything, has at least as many inputs as consumed ingredients and is supplied with
   * every consumed item (by name). The only IMPOSSIBLE error is the one for too few inputs;
   * every other error is a WARNING.
   */
  lemma BuildingCheckSpec(b: Kind, ingredients: seq<Ingredient>)
    requires b.Building?
    ensures BuildingCheck(b, ingredients).ok <==>
      b.recipe.Some? && !b.standby &&
      (|b.recipe.value.Consumed()| == 0 ||
       (|b.inputs| >= |b.recipe.value.Consumed()| &&
        AllSupplied(Names(b.recipe.value.Consumed()), Names(ingredients))))
    ensures (exists e :: e in BuildingCheck(b, ingredients).errors && e.level == Impossible) <==>
      b.recipe.Some? && 0 < |b.recipe.value.Consumed()| && |b.inputs| < |b.recipe.value.Consumed()|
    ensures BuildingCheck(b, ingredients).ok ==> b.recipe.Some?
  {
    if b.recipe.Some? && |b.recipe.value.Consumed()| > 0 {
      var required := Names(b.recipe.value.Consumed());
      var names := Names(ingredients);
      MissingErrorsEmpty(required, names);
      ExtraErrorsWarnings(names, required);
      if |b.inputs| < |b.recipe.value.Consumed()| {
        assert TooFewInputs in BuildingCheck(b, ingredients).errors;
      }
    }
  }

  /**
   * An ingredient the recipe does not require never blocks processing: supplying it adds
   * exactly one WARNING at the end of the errors and leaves the verdict unchanged.
   */
  lemma UnrequiredIngredientOnlyWarns(b: Kind, ingredients: seq<Ingredient>, x: Ingredient)
    requires b.Building? && b.recipe.Some? && |b.recipe.value.Consumed()| > 0
    requires x.item.name !in Names(b.recipe.value.Consumed())
    ensures BuildingCheck(b, ingredients + [x]).ok == BuildingCheck(b, ingredients).ok
    ensures BuildingCheck(b, ingredients + [x]).errors ==
      BuildingCheck(b, ingredients).errors + [NotRequired(x.item.name)]
  {
    var required := Names(b.recipe.value.Consumed());
    assert Names(ingredients + [x]) == Names(ingredients) + [x.item.name];
    MissingErrorsIgnoresUnrequired(required, Names(ingredients), x.item.name);
    ExtraErrorsAppend(Names(ingredients), x.item.name, required);
  }

  /** The checks of `Building.can_process` as the loops that make them. */
  method CanProcess(b: Kind, ingredients: seq<Ingredient>) returns (errors: seq<ComponentError>, success: bool)
    requires b.Building?
    ensures Check(errors, success) == BuildingCheck(b, ingredients)
  {
    errors := [];
    success := true;
    if b.recipe.None? {
      errors := errors + [NoRecipe];
      success := false;
    }
    if b.standby {
      errors := errors + [InStandby];
      success := false;
    }
    if b.recipe.Some? && |b.recipe.value.Consumed()| > 0 {
      var consumed := b.recipe.value.Consumed();
      if |b.inputs| < |consumed| {
        errors := errors + [TooFewInputs];
        success := false;
      }
      var required := Names(consumed);
      var names := Names(ingredients);
      var missing := CollectMissing(required, names);
      errors := errors + missing;
      if missing != [] {
        success := false;
      }
      var extra := CollectExtra(names, required);
      errors := errors + extra;
    }
  }

  /** The first loop over the recipe: one warning per required name nobody supplies. */
  method CollectMissing(required: seq<string>, names: seq<string>) returns (errors: seq<ComponentError>)
    ensures errors == MissingErrors(required, names)
  {
    errors := [];
    var i := 0;
    while i < |required|
      invariant 0 <= i <= |required|
      invariant errors == MissingErrors(required[..i], names)
    {
      MissingErrorsSplit(required[..i], required[i], names);
      assert required[..i + 1] == required[..i] + [required[i]];
      if required[i] !in names {
        errors := errors + [Unavailable(required[i])];
      }
      i := i + 1;
    }
    assert required[..i] == required;
  }

  /** The loop over the supply: one warning per supplied name the recipe does not use. */
  method CollectExtra(names: seq<string>, required: seq<string>) returns (errors: seq<ComponentError>)
    ensures errors == ExtraErrors(names, required)
  {
    errors := [];
    var j := 0;
    while j < |names|
      invariant 0 <= j <= |names|
      invariant errors == ExtraErrors(names[..j], required)
    {
      ExtraErrorsAppend(names[..j], names[j], required);
      assert names[..j + 1] == names[..j] + [names[j]];
      if names[j] !in required {
        errors := errors + [NotRequired(names[j])];
      }
      j := j + 1;
    }
    assert names[..j] == names;
  }

  lemma {:induction false} MissingErrorsSplit(required: seq<string>, n: string, names: seq<string>)
    ensures MissingErrors(required + [n], names) ==
      MissingErrors(required, names) + (if n in names then [] else [Unavailable(n)])
    decreases |required|
  {
    if |required| == 0 {
      assert required + [n] == [n];
    } else {
      var first := if required[0] in names then [] else [Unavailable(required[0])];
      var last := if n in names then [] else [Unavailable(n)];
      assert (required + [n])[0] == required[0] && (required + [n])[1..] == required[1..] + [n];
      assert MissingErrors(required + [n], names) == first + MissingErrors(required[1..] + [n], names);
      MissingErrorsSplit(required[1..], n, names);
      AppendAssoc(first, MissingErrors(required[1..], names), last);
    }
  }

  // ---------------------------------------------------------------------------------------------
  // Building.process

  function SlowSupply(name: string): ComponentError
  {
    ComponentError(Warning, "Recipe consumes " + name + " faster than it is being supplied.")
  }

  function FastSupply(name: string): ComponentError
  {
    ComponentError(Warning, "Ingredient " + name + " is supplied faster than the recipe can consume it.")
  }

  const InsufficientOutputs := ComponentError(Impossible, "Building doesn't have sufficient outputs for what its recipe produces")

  /** The rate at which the building consumes a recipe ingredient. */
  function Demand(req: Ingredient, clock: real): real
  {
    req.rate * clock
  }

  /** The warnings one recipe ingredient and one supplied ingredient of the same name give. */
  function PairWarnings(req: Ingredient, ing: Ingredient, clock: real): seq<ComponentError>
  {
    if req.item.name != ing.item.name then []
    else (if ing.rate < Demand(req, clock) then [SlowSupply(req.item.name)] else []) +
         (if ing.rate > Demand(req, clock) then [FastSupply(req.item.name)] else [])
  }

  function RowWarnings(req: Ingredient, ings: seq<Ingredient>, clock: real): seq<ComponentError>
    decreases |ings|
  {
    if |ings| == 0 then [] else RowWarnings(req, ings[..|ings| - 1], clock) + PairWarnings(req, ings[|ings| - 1], clock)
  }

  /** The rate warnings of `Building.process`, recipe ingredient by recipe ingredient. */
  function RateWarnings(reqs: seq<Ingredient>, ings: seq<Ingredient>, clock: real): seq<ComponentError>
    decreases |reqs|
  {
    if |reqs| == 0 then [] else RateWarnings(reqs[..|reqs| - 1], ings, clock) + RowWarnings(reqs[|reqs| - 1], ings, clock)
  }

  /** The supplied ingredient runs at the demanded rate, or is not this recipe ingredient. */
  predicate PairMatches(req: Ingredient, ing: Ingredient, clock: real)
  {
    req.item.name == ing.item.name ==> ing.rate == Demand(req, clock)
  }

  /** Supply and demand agree on every pair of same-named ingredients. */
  predicate RatesMatch(reqs: seq<Ingredient>, ings: seq<Ingredient>, clock: real)
  {
    forall k, m :: 0 <= k < |reqs| && 0 <= m < |ings| ==> PairMatches(reqs[k], ings[m], clock)
  }

  lemma {:induction false} RowWarningsSpec(req: Ingredient, ings: seq<Ingredient>, clock: real)
    ensures RowWarnings(req, ings, clock) == [] <==> forall m :: 0 <= m < |ings| ==> PairMatches(req, ings[m], clock)
    ensures forall e :: e in RowWarnings(req, ings, clock) ==> e.level == Warning
    decreases |ings|
  {
    if |ings| > 0 {
      var init := ings[..|ings| - 1];
      var last := ings[|ings| - 1];
      RowWarningsSpec(req, init, clock);
      assert RowWarnings(req, ings, clock) == RowWarnings(req, init, clock) + PairWarnings(req, last, clock);
      assert PairWarnings(req, last, clock) == [] <==> PairMatches(req, last, clock);
      assert forall m :: 0 <= m < |init| ==> init[m] == ings[m];
    }
  }

  /**
   * `Building.process` adds no rate warning exactly when every supplied ingredient runs at the
   * recipe's rate times the clock rate for each recipe ingredient of the same name; each
   * mismatch is a WARNING.
   */
  lemma {:induction false} RateWarningsSpec(reqs: seq<Ingredient>, ings: seq<Ingredient>, clock: real)
    ensures RateWarnings(reqs, ings, clock) == [] <==> RatesMatch(reqs, ings, clock)
    ensures forall e :: e in RateWarnings(reqs, ings, clock) ==> e.level == Warning
    decreases |reqs|
  {
    if |reqs| > 0 {
      var init := reqs[..|reqs| - 1];
      var last := reqs[|reqs| - 1];
      RateWarningsSpec(init, ings, clock);
      RowWarningsSpec(last, ings, clock);
      assert RateWarnings(reqs, ings, clock) == RateWarnings(init, ings, clock) + RowWarnings(last, ings, clock);
      RatesMatchSnoc(reqs, ings, clock);
    }
  }

  lemma RatesMatchSnoc(reqs: seq<Ingredient>, ings: seq<Ingredient>, clock: real)
    requires |reqs| > 0
    ensures RatesMatch(reqs, ings, clock) <==>
      RatesMatch(reqs[..|reqs| - 1], ings, clock) && forall m :: 0 <= m < |ings| ==> PairMatches(reqs[|reqs| - 1], ings[m], clock)
  {
    var init := reqs[..|reqs| - 1];
    assert forall k :: 0 <= k < |init| ==> init[k] == reqs[k];
    if RatesMatch(init, ings, clock) && forall m :: 0 <= m < |ings| ==> PairMatches(reqs[|reqs| - 1], ings[m], clock) {
      forall k, m | 0 <= k < |reqs| && 0 <= m < |ings|
        ensures PairMatches(reqs[k], ings[m], clock)
      {
        if k < |init| {
          assert reqs[k] == init[k];
        }
      }
    }
  }

  lemma RowWarningsStep(req: Ingredient, ings: seq<Ingredient>, j: nat, clock: real)
    requires j < |ings|
    ensures RowWarnings(req, ings[..j + 1], clock) == RowWarnings(req, ings[..j], clock) + PairWarnings(req, ings[j], clock)
  {
    assert ings[..j + 1][..j] == ings[..j];
  }

  lemma RateWarningsStep(reqs: seq<Ingredient>, ings: seq<Ingredient>, i: nat, clock: real)
    requires i < |reqs|
    ensures RateWarnings(reqs[..i + 1], ings, clock) == RateWarnings(reqs[..i], ings, clock) + RowWarnings(reqs[i], ings, clock)
  {
    assert reqs[..i + 1][..i] == reqs[..i];
  }

  /** The nested loop of rate warnings. */
  method CollectRateWarnings(reqs: seq<Ingredient>, ings: seq<Ingredient>, clock: real) returns (errors: seq<ComponentError>)
    ensures errors == RateWarnings(reqs, ings, clock)
  {
    errors := [];
    var i := 0;
    while i < |reqs|
      invariant 0 <= i <= |reqs|
      invariant errors == RateWarnings(reqs[..i], ings, clock)
    {
      var row := CollectRowWarnings(reqs[i], ings, clock);
      RateWarningsStep(reqs, ings, i, clock);
      errors := errors + row;
      i := i + 1;
    }
    assert reqs[..i] == reqs;
  }

  /** The inner loop: the warnings of one recipe ingredient against every supplied one. */
  method CollectRowWarnings(req: Ingredient, ings: seq<Ingredient>, clock: real) returns (row: seq<ComponentError>)
    ensures row == RowWarnings(req, ings, clock)
  {
    row := [];
    var j := 0;
    while j < |ings|
      invariant 0 <= j <= |ings|
      invariant row == RowWarnings(req, ings[..j], clock)
    {
      var ing := ings[j];
      ghost var before := row;
      if req.item.name == ing.item.name {
        var demand := Demand(req, clock);
        if ing.rate < demand {
          row := row + [SlowSupply(req.item.name)];
        }
        if ing.rate > demand {
          row := row + [FastSupply(req.item.name)];
        }
      }
      assert row == before + PairWarnings(req, ing, clock);
      RowWarningsStep(req, ings, j, clock);
      j := j + 1;
    }
    assert ings[..j] == ings;
  }

  /** The ingredients each listed output now holds; positions are those of `outs`. */
  function IndexOf(outs: seq<Ref>, q: Ref): (m: nat)
    requires q in outs
    ensures m < |outs| && outs[m] == q
    ensures Distinct(outs) ==> forall k :: 0 <= k < |outs| && outs[k] == q ==> k == m
  {
    if outs[0] == q then 0 else 1 + IndexOf(outs[1..], q)
  }

  /** Each listed output `outs[m]` holds `contents[m]`; nothing else changes. */
  function WriteOutputs(nodes: seq<Node>, outs: seq<Ref>, contents: seq<seq<Ingredient>>): (result: seq<Node>)
    requires AllOutputs(nodes, outs) && Distinct(outs) && |contents| == |outs|
    ensures Preserves(nodes, result)
    ensures forall m :: 0 <= m < |outs| ==> result[outs[m]] == nodes[outs[m]].(ingredients := contents[m])
    ensures forall q :: 0 <= q < |nodes| && q !in outs ==> result[q] == nodes[q]
  {
    seq(|nodes|, q requires 0 <= q < |nodes| =>
      if q in outs then nodes[q].(ingredients := contents[IndexOf(outs, q)]) else nodes[q])
  }

  /** A product fits an output when the port's type is the item's conveyance type. */
  predicate Fits(p: Ingredient, t: ConveyanceType)
  {
    p.item.conveyance == Some(t)
  }

  /** The product's item at the recipe rate scaled by the clock rate. */
  function Scaled(p: Ingredient, clock: real): Ingredient
  {
    Ingredient(p.item, None, p.rate * clock)
  }

  /** The first of the first `lim` products that fits type `t`. */
  function FirstFit(ps: seq<Ingredient>, t: ConveyanceType, lim: nat): (r: Option<nat>)
    requires lim <= |ps|
    ensures r.Some? ==> r.value < lim && Fits(ps[r.value], t)
    decreases lim
  {
    if lim == 0 then None
    else match FirstFit(ps, t, lim - 1)
      case Some(k) => Some(k)
      case None => if Fits(ps[lim - 1], t) then Some(lim - 1) else None
  }

  lemma {:induction false} FirstFitSpec(ps: seq<Ingredient>, t: ConveyanceType, lim: nat)
    requires lim <= |ps|
    ensures FirstFit(ps, t, lim).Some? ==> forall k :: 0 <= k < FirstFit(ps, t, lim).value ==> !Fits(ps[k], t)
    ensures FirstFit(ps, t, lim).None? ==> forall k :: 0 <= k < lim ==> !Fits(ps[k], t)
    decreases lim
  {
    if lim > 0 {
      FirstFitSpec(ps, t, lim - 1);
    }
  }

  /** What an output of type `t` holds once the first `lim` products have been offered. */
  function Filled(ps: seq<Ingredient>, t: ConveyanceType, lim: nat, clock: real): seq<Ingredient>
    requires lim <= |ps|
  {
    match FirstFit(ps, t, lim)
    case None => []
    case Some(k) => [Scaled(ps[k], clock)]
  }

  /** The filling of outputs of the given types, one first-fitting product each. */
  function FillContents(types: seq<ConveyanceType>, ps: seq<Ingredient>, clock: real): (cs: seq<seq<Ingredient>>)
    ensures |cs| == |types|
  {
    seq(|types|, m requires 0 <= m < |types| => Filled(ps, types[m], |ps|, clock))
  }

  /** Every (product, output) pair succeeds: no output, no product, or one product all outputs fit. */
  predicate FillSucceeds(types: seq<ConveyanceType>, ps: seq<Ingredient>)
  {
    |types| == 0 || |ps| == 0 || (|ps| == 1 && forall m :: 0 <= m < |types| ==> Fits(ps[0], types[m]))
  }

  /** Pair (k, m) of the fill loop succeeds: product k is the first to fit output m. */
  predicate PairFits(types: seq<ConveyanceType>, ps: seq<Ingredient>, k: nat, m: nat)
    requires k < |ps| && m < |types|
  {
    FirstFit(ps, types[m], k + 1) == Some(k)
  }

  /** Every pair of the loop before position (i, j) succeeded. */
  predicate PairsFitBefore(types: seq<ConveyanceType>, ps: seq<Ingredient>, i: nat, j: nat)
  {
    forall k, m :: 0 <= k < |ps| && 0 <= m < |types| && (k < i || (k == i && m < j)) ==> PairFits(types, ps, k, m)
  }

  /** Offering product `i` to an output of type `t`: it is taken when the output is empty and fits. */
  lemma FilledStep(types: seq<ConveyanceType>, ps: seq<Ingredient>, i: nat, j: nat, clock: real)
    requires i < |ps| && j < |types|
    ensures PairFits(types, ps, i, j) <==> Filled(ps, types[j], i, clock) == [] && Fits(ps[i], types[j])
    ensures Filled(ps, types[j], i + 1, clock) ==
      if PairFits(types, ps, i, j) then [Scaled(ps[i], clock)] else Filled(ps, types[j], i, clock)
  {
  }

  lemma PairsFitBeforeRow(types: seq<ConveyanceType>, ps: seq<Ingredient>, i: nat)
    requires i < |ps|
    ensures PairsFitBefore(types, ps, i + 1, 0) ==
      (PairsFitBefore(types, ps, i, 0) && forall m :: 0 <= m < |types| ==> PairFits(types, ps, i, m))
  {
  }

  /** All pairs succeed exactly when `FillSucceeds`. */
  lemma PairsFitClosedForm(types: seq<ConveyanceType>, ps: seq<Ingredient>)
    ensures PairsFitBefore(types, ps, |ps|, 0) <==> FillSucceeds(types, ps)
  {
    if |types| > 0 && |ps| >= 2 {
      if PairFits(types, ps, 0, 0) {
        assert FirstFit(ps, types[0], 2) == Some(0);
        assert !PairFits(types, ps, 1, 0);
      }
      assert !PairsFitBefore(types, ps, |ps|, 0);
    }
    if |ps| == 1 && PairsFitBefore(types, ps, |ps|, 0) {
      forall m | 0 <= m < |types|
        ensures Fits(ps[0], types[m])
      {
        assert PairFits(types, ps, 0, m);
      }
    }
    if FillSucceeds(types, ps) && |types| > 0 && |ps| > 0 {
      forall k, m | 0 <= k < |ps| && 0 <= m < |types|
        ensures PairFits(types, ps, k, m)
      {
        assert k == 0;
        assert Fits(ps[0], types[m]);
      }
    }
  }

  /**
   * The fill loop of `Building.process` over the (emptied) outputs, by type: for each product
   * and each output, an empty output whose type fits takes the product at the recipe rate times
   * the clock rate, any other pair marks failure. Each output ends with the first product that
   * fits it, and the loop succeeds exactly as `FillSucceeds` says.
   */
  method FillOutputs(types: seq<ConveyanceType>, ps: seq<Ingredient>, clock: real) returns (cs: seq<seq<Ingredient>>, success: bool)
    ensures cs == FillContents(types, ps, clock)
    ensures success <==> FillSucceeds(types, ps)
  {
    cs := seq(|types|, m => []);
    success := true;
    var i := 0;
    while i < |ps|
      invariant 0 <= i <= |ps| && FilledUpTo(cs, types, ps, i, clock)
      invariant success == PairsFitBefore(types, ps, i, 0)
    {
      cs, success := OfferProduct(types, ps, clock, i, cs, success);
      PairsFitBeforeRow(types, ps, i);
      i := i + 1;
    }
    PairsFitClosedForm(types, ps);
    assert cs == FillContents(types, ps, clock);
  }

  /** Each output holds what the first `i` products would have given it. */
  predicate FilledUpTo(cs: seq<seq<Ingredient>>, types: seq<ConveyanceType>, ps: seq<Ingredient>, i: nat, clock: real)
    requires i <= |ps|
  {
    |cs| == |types| && forall m :: 0 <= m < |types| ==> cs[m] == Filled(ps, types[m], i, clock)
  }

  /** The inner loop of `FillOutputs`: offer product `i` to every output in turn. */
  method OfferProduct(types: seq<ConveyanceType>, ps: seq<Ingredient>, clock: real, i: nat, cs0: seq<seq<Ingredient>>, success0: bool)
    returns (cs: seq<seq<Ingredient>>, success: bool)
    requires i < |ps| && FilledUpTo(cs0, types, ps, i, clock)
    ensures FilledUpTo(cs, types, ps, i + 1, clock)
    ensures success == (success0 && forall m :: 0 <= m < |types| ==> PairFits(types, ps, i, m))
  {
    cs, success := cs0, success0;
    var j := 0;
    while j < |types|
      invariant 0 <= j <= |types| && |cs| == |types|
      invariant forall m :: 0 <= m < |types| ==> cs[m] == Filled(ps, types[m], if m < j then i + 1 else i, clock)
      invariant success == (success0 && forall m :: 0 <= m < j ==> PairFits(types, ps, i, m))
    {
      FilledStep(types, ps, i, j, clock);
      if |cs[j]| == 0 && Fits(ps[i], types[j]) {
        cs := cs[j := [Scaled(ps[i], clock)]];
      } else {
        success := false;
      }
      j := j + 1;
    }
  }

  function PortTypes(nodes: seq<Node>, outs: seq<Ref>): (ts: seq<ConveyanceType>)
    requires AllOutputs(nodes, outs)
    ensures |ts| == |outs| && forall m :: 0 <= m < |outs| ==> ts[m] == nodes[outs[m]].kind.conveyance
  {
    seq(|outs|, m requires 0 <= m < |outs| => nodes[outs[m]].kind.conveyance)
  }

  /**
   * The part of `Building.process` after a passing check: every output is emptied, the rate
   * warnings are added, each output is filled with the first product its type fits (at the
   * recipe rate times the clock rate), and an IMPOSSIBLE error is added when some pair of
   * product and output failed.
   */
  function BuildingProduce(nodes: seq<Node>, b: Ref): (s: Step)
    requires WF(nodes) && IsBuilding(nodes, b) && nodes[b].kind.recipe.Some?
    ensures Preserves(nodes, s.nodes) && s.status.Returned?
    ensures var k := nodes[b].kind;
      AllOutputs(nodes, k.outputs) && b !in k.outputs &&
      (s.status.value <==> FillSucceeds(PortTypes(nodes, k.outputs), k.recipe.value.produces)) &&
      (forall m :: 0 <= m < |k.outputs| ==>
        s.nodes[k.outputs[m]].ingredients == Filled(k.recipe.value.produces, nodes[k.outputs[m]].kind.conveyance, |k.recipe.value.produces|, k.clockRate)) &&
      s.nodes[b].errors == nodes[b].errors + RateWarnings(k.recipe.value.Consumed(), nodes[b].ingredients, k.clockRate) +
        (if s.status.value then [] else [InsufficientOutputs]) &&
      s.nodes[b].kind == k && s.nodes[b].ingredients == nodes[b].ingredients &&
      (forall q :: 0 <= q < |nodes| && q != b && q !in k.outputs ==> s.nodes[q] == nodes[q])
  {
    var k := nodes[b].kind;
    assert KindOk(nodes, k);
    var recipe := k.recipe.value;
    var types := PortTypes(nodes, k.outputs);
    var n1 := AddErrors(nodes, b, RateWarnings(recipe.Consumed(), nodes[b].ingredients, k.clockRate));
    var ok := FillSucceeds(types, recipe.produces);
    var n2 := WriteOutputs(n1, k.outputs, FillContents(types, recipe.produces, k.clockRate));
    var n3 := if ok then n2 else AddErrors(n2, b, [InsufficientOutputs]);
    Step(n3, Returned(ok))
  }

  /**
   * `Building.process`: clear the errors, run the checks (which add their errors), and when they
   * pass produce as `BuildingProduce` says; when they fail nothing else changes.
   */
  function BuildingProcess(nodes: seq<Node>, b: Ref): (s: Step)
    requires WF(nodes) && IsBuilding(nodes, b)
    ensures Preserves(nodes, s.nodes) && s.status.Returned?
    ensures !BuildingCheck(nodes[b].kind, nodes[b].ingredients).ok ==>
      s.nodes == nodes[b := nodes[b].(errors := BuildingCheck(nodes[b].kind, nodes[b].ingredients).errors)] &&
      !s.status.value
    ensures BuildingCheck(nodes[b].kind, nodes[b].ingredients).ok ==>
      nodes[b].kind.recipe.Some? &&
      s == BuildingProduce(WithErrors(nodes, b, BuildingCheck(nodes[b].kind, nodes[b].ingredients).errors), b)
  {
    BuildingCheckSpec(nodes[b].kind, nodes[b].ingredients);
    var c := BuildingCheck(nodes[b].kind, nodes[b].ingredients);
    var n1 := WithErrors(nodes, b, c.errors);
    if !c.ok then Step(n1, Returned(false)) else BuildingProduce(n1, b)
  }

  /** The loops of `BuildingProduce`: empty the outputs, collect warnings, fill. */
  method Produce(h: Heap, b: Ref) returns (success: bool)
    requires WF(h.nodes) && IsBuilding(h.nodes, b) && h.nodes[b].kind.recipe.Some?
    modifies h
    ensures Step(h.nodes, Returned(success)) == BuildingProduce(old(h.nodes), b)
  {
    var k := h.nodes[b].kind;
    assert KindOk(h.nodes, k);
    var recipe := k.recipe.value;
    var types := PortTypes(h.nodes, k.outputs);
    var warnings := CollectRateWarnings(recipe.Consumed(), h.nodes[b].ingredients, k.clockRate);
    h.nodes := AddErrors(h.nodes, b, warnings);
    var contents;
    contents, success := FillOutputs(types, recipe.produces, k.clockRate);
    h.nodes := WriteOutputs(h.nodes, k.outputs, contents);
    if !success {
      h.nodes := AddErrors(h.nodes, b, [InsufficientOutputs]);
    }
  }

  /** The imperative `Building.process`. */
  method ProcessBuilding(h: Heap, b: Ref) returns (success: bool)
    requires WF(h.nodes) && IsBuilding(h.nodes, b)
    modifies h
    ensures Step(h.nodes, Returned(success)) == BuildingProcess(old(h.nodes), b)
  {
    BuildingCheckSpec(h.nodes[b].kind, h.nodes[b].ingredients);
    var errors, ok := CanProcess(h.nodes[b].kind, h.nodes[b].ingredients);
    h.nodes := WithErrors(h.nodes, b, errors);
    if !ok {
      return false;
    }
    PreservesWF(old(h.nodes), h.nodes);
    success := Produce(h, b);
  }
}
