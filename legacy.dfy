/**
 * The older core in satisfactor_py: the processing of its plain buildings and conveyances, its
 * factory and its walker, over the same arena as the newer core. Its ports carry no errors and
 * no `traversed` flag of their own; in the arena those fields are simply never touched. The
 * special buildings of satisfactor_py/buildings.py keep the processing of the Buildings and
 * Junction modules.
 */
module Legacy {
  import opened Wrappers
  import opened Base
  import opened Graph
  import opened Processing
  import Junction
  import opened Simulation
  import opened Linking
  import opened Factories

  // ---------------------------------------------------------------------------------------------
  // Building.ingredients and Building.can_process

  /** Everything the ports `ins` carry, port by port, as `extend` gathers it. */
  function InputContents(nodes: seq<Node>, ins: seq<Ref>): seq<Ingredient>
    requires forall m :: 0 <= m < |ins| ==> ins[m] < |nodes|
    decreases |ins|
  {
    if |ins| == 0 then [] else InputContents(nodes, ins[..|ins| - 1]) + nodes[ins[|ins| - 1]].ingredients
  }

  /** An ingredient is gathered exactly when one of the ports carries it. */
  lemma {:induction false} InputContentsHas(nodes: seq<Node>, ins: seq<Ref>, x: Ingredient)
    requires forall m :: 0 <= m < |ins| ==> ins[m] < |nodes|
    ensures x in InputContents(nodes, ins) <==> exists m :: 0 <= m < |ins| && x in nodes[ins[m]].ingredients
    decreases |ins|
  {
    if |ins| > 0 {
      var n := |ins| - 1;
      var pre := ins[..n];
      InputContentsHas(nodes, pre, x);
      if exists m :: 0 <= m < |ins| && x in nodes[ins[m]].ingredients {
        var m :| 0 <= m < |ins| && x in nodes[ins[m]].ingredients;
        if m < n {
          assert pre[m] == ins[m];
        }
      }
      if exists m :: 0 <= m < |pre| && x in nodes[pre[m]].ingredients {
        var m :| 0 <= m < |pre| && x in nodes[pre[m]].ingredients;
        assert ins[m] == pre[m];
      }
    }
  }

  /** The item list of the `ingredients` property is the item of everything gathered, in order. */
  lemma {:induction false} InputItemsOfContents(nodes: seq<Node>, ins: seq<Ref>)
    requires forall m :: 0 <= m < |ins| ==> ins[m] < |nodes|
    ensures Junction.InputItems(nodes, ins) == Junction.ItemsOf(InputContents(nodes, ins))
    decreases |ins|
  {
    if |ins| > 0 {
      var n := |ins| - 1;
      InputItemsOfContents(nodes, ins[..n]);
      var a := InputContents(nodes, ins[..n]);
      var b := nodes[ins[n]].ingredients;
      assert Junction.ItemsOf(a + b) == Junction.ItemsOf(a) + Junction.ItemsOf(b);
    }
  }

  /** `Building.ingredients`: the items of all the inputs' ingredients, concatenated in input order. */
  function BuildingIngredients(nodes: seq<Node>, b: Ref): (r: seq<Item>)
    requires WF(nodes) && IsBuilding(nodes, b)
    ensures forall m :: 0 <= m < |nodes[b].kind.inputs| ==> nodes[b].kind.inputs[m] < |nodes|
    ensures |r| == |InputContents(nodes, nodes[b].kind.inputs)|
    ensures forall k :: 0 <= k < |r| ==> r[k] == InputContents(nodes, nodes[b].kind.inputs)[k].item
  {
    assert KindOk(nodes, nodes[b].kind);
    InputItemsOfContents(nodes, nodes[b].kind.inputs);
    Junction.InputItems(nodes, nodes[b].kind.inputs)
  }

  /** An item is among a building's ingredients exactly when some input carries an ingredient of it. */
  lemma BuildingIngredientsHas(nodes: seq<Node>, b: Ref, it: Item)
    requires WF(nodes) && IsBuilding(nodes, b)
    ensures it in BuildingIngredients(nodes, b) <==>
      exists m, x :: 0 <= m < |nodes[b].kind.inputs| && x in nodes[nodes[b].kind.inputs[m]].ingredients && x.item == it
  {
    var ins := nodes[b].kind.inputs;
    var r := BuildingIngredients(nodes, b);
    var cs := InputContents(nodes, ins);
    if it in r {
      var k :| 0 <= k < |r| && r[k] == it;
      InputContentsHas(nodes, ins, cs[k]);
    }
    if exists m, x :: 0 <= m < |ins| && x in nodes[ins[m]].ingredients && x.item == it {
      var m, x :| 0 <= m < |ins| && x in nodes[ins[m]].ingredients && x.item == it;
      InputContentsHas(nodes, ins, x);
      var k :| 0 <= k < |cs| && cs[k] == x;
      assert r[k] == it;
    }
  }

  /**
   * `Building.can_process`: a recipe, not in standby, at least as many inputs as consumed
   * ingredients, and every consumed item among the building's ingredients.
   */
  function CanProcess(nodes: seq<Node>, b: Ref): bool
    requires WF(nodes) && IsBuilding(nodes, b)
  {
    var k := nodes[b].kind;
    if k.recipe.None? then false
    else if k.standby then false
    else
      var required := k.recipe.value.Consumed();
      if |required| > 0 && |k.inputs| < |required| then false
      else forall i :: 0 <= i < |required| ==> required[i].item in BuildingIngredients(nodes, b)
  }

  /** `can_process` with the item list unfolded: each required item arrives on one of the inputs. */
  lemma CanProcessSpec(nodes: seq<Node>, b: Ref)
    requires WF(nodes) && IsBuilding(nodes, b)
    ensures CanProcess(nodes, b) <==>
      nodes[b].kind.recipe.Some? && !nodes[b].kind.standby &&
      |nodes[b].kind.inputs| >= |nodes[b].kind.recipe.value.Consumed()| &&
      forall i :: 0 <= i < |nodes[b].kind.recipe.value.Consumed()| ==> Supplied(nodes, b, nodes[b].kind.recipe.value.Consumed()[i].item)
  {
    var k := nodes[b].kind;
    if k.recipe.Some? {
      var required := k.recipe.value.Consumed();
      forall i | 0 <= i < |required|
        ensures required[i].item in BuildingIngredients(nodes, b) <==> Supplied(nodes, b, required[i].item)
      {
        BuildingIngredientsHas(nodes, b, required[i].item);
      }
    }
  }

  /** Some input of the building carries an ingredient of item `it`. */
  predicate Supplied(nodes: seq<Node>, b: Ref, it: Item)
    requires WF(nodes) && IsBuilding(nodes, b)
  {
    assert KindOk(nodes, nodes[b].kind);
    exists m, x :: 0 <= m < |nodes[b].kind.inputs| && x in nodes[nodes[b].kind.inputs[m]].ingredients && x.item == it
  }

  // ---------------------------------------------------------------------------------------------
  // Building.process

  /**
   * What an output of type `t` that held `held` holds once the first `lim` products have been
   * offered: an occupied output keeps what it had, an empty one the first product that fits.
   */
  function LegacyFilled(held: seq<Ingredient>, ps: seq<Ingredient>, t: ConveyanceType, lim: nat, clock: real): seq<Ingredient>
    requires lim <= |ps|
  {
    if |held| > 0 then held else Filled(ps, t, lim, clock)
  }

  /** Offering product `i` fills the output only when it is still empty and the product fits. */
  lemma LegacyFilledStep(held: seq<Ingredient>, ps: seq<Ingredient>, t: ConveyanceType, i: nat, clock: real)
    requires i < |ps|
    ensures LegacyFilled(held, ps, t, i + 1, clock) ==
      if |LegacyFilled(held, ps, t, i, clock)| == 0 && Fits(ps[i], t) then [Scaled(ps[i], clock)] else LegacyFilled(held, ps, t, i, clock)
  {
  }

  /** After all products: an occupied output is unchanged; an empty one holds the first fitting
    * product at the recipe rate times the clock rate, or stays empty when none fits. */
  lemma LegacyFilledClosedForm(held: seq<Ingredient>, ps: seq<Ingredient>, t: ConveyanceType, clock: real)
    ensures |held| > 0 ==> LegacyFilled(held, ps, t, |ps|, clock) == held
    ensures |held| == 0 ==> (LegacyFilled(held, ps, t, |ps|, clock) == [] <==> forall k :: 0 <= k < |ps| ==> !Fits(ps[k], t))
    ensures |held| == 0 && LegacyFilled(held, ps, t, |ps|, clock) != [] ==>
      exists k :: 0 <= k < |ps| && Fits(ps[k], t) && (forall j :: 0 <= j < k ==> !Fits(ps[j], t)) &&
        LegacyFilled(held, ps, t, |ps|, clock) == [Scaled(ps[k], clock)]
  {
    FirstFitSpec(ps, t, |ps|);
  }

  /** The filling of outputs of the given types and current contents. */
  function LegacyFillContents(held: seq<seq<Ingredient>>, types: seq<ConveyanceType>, ps: seq<Ingredient>, clock: real): (cs: seq<seq<Ingredient>>)
    requires |held| == |types|
    ensures |cs| == |types|
  {
    seq(|types|, m requires 0 <= m < |types| => LegacyFilled(held[m], ps, types[m], |ps|, clock))
  }

  /** Each output holds what the first `i` products would have given it. */
  predicate LegacyFilledUpTo(cs: seq<seq<Ingredient>>, held: seq<seq<Ingredient>>, types: seq<ConveyanceType>, ps: seq<Ingredient>, i: nat, clock: real)
    requires i <= |ps| && |held| == |types|
  {
    |cs| == |types| && forall m :: 0 <= m < |types| ==> cs[m] == LegacyFilled(held[m], ps, types[m], i, clock)
  }

  /** The nested loops of `Building.process`: for each product, each output in turn. */
  method LegacyFillOutputs(held: seq<seq<Ingredient>>, types: seq<ConveyanceType>, ps: seq<Ingredient>, clock: real) returns (cs: seq<seq<Ingredient>>)
    requires |held| == |types|
    ensures cs == LegacyFillContents(held, types, ps, clock)
  {
    cs := held;
    var i := 0;
    while i < |ps|
      invariant 0 <= i <= |ps| && LegacyFilledUpTo(cs, held, types, ps, i, clock)
    {
      cs := LegacyOfferProduct(held, types, ps, clock, i, cs);
      i := i + 1;
    }
  }

  /** The inner loop: an output that is still empty and fits takes product `i`. */
  method LegacyOfferProduct(held: seq<seq<Ingredient>>, types: seq<ConveyanceType>, ps: seq<Ingredient>, clock: real, i: nat, cs0: seq<seq<Ingredient>>)
    returns (cs: seq<seq<Ingredient>>)
    requires i < |ps| && |held| == |types| && LegacyFilledUpTo(cs0, held, types, ps, i, clock)
    ensures LegacyFilledUpTo(cs, held, types, ps, i + 1, clock)
  {
    cs := cs0;
    var j := 0;
    while j < |types|
      invariant 0 <= j <= |types| && |cs| == |types|
      invariant forall m :: 0 <= m < |types| ==> cs[m] == LegacyFilled(held[m], ps, types[m], if m < j then i + 1 else i, clock)
    {
      LegacyFilledStep(held[j], ps, types[j], i, clock);
      if |cs[j]| == 0 && Fits(ps[i], types[j]) {
        cs := cs[j := [Scaled(ps[i], clock)]];
      }
      j := j + 1;
    }
  }

  /** What the listed ports hold now. */
  function Held(nodes: seq<Node>, outs: seq<Ref>): (hs: seq<seq<Ingredient>>)
    requires forall m :: 0 <= m < |outs| ==> outs[m] < |nodes|
    ensures |hs| == |outs| && forall m :: 0 <= m < |outs| ==> hs[m] == nodes[outs[m]].ingredients
  {
    seq(|outs|, m requires 0 <= m < |outs| => nodes[outs[m]].ingredients)
  }

  /**
   * `Building.process`: when `can_process` fails, `False` and nothing changes; otherwise every
   * output that was empty takes the first product whose item fits its type, at the recipe rate
   * times the clock rate, occupied outputs keep what they hold, and the answer is `True`.
   */
  function BuildingProcess(nodes: seq<Node>, b: Ref): (s: Step)
    requires WF(nodes) && IsBuilding(nodes, b)
    ensures Preserves(nodes, s.nodes)
    ensures s.status == Returned(CanProcess(nodes, b))
    ensures !CanProcess(nodes, b) ==> s.nodes == nodes
    ensures CanProcess(nodes, b) ==>
      var k := nodes[b].kind;
      AllOutputs(nodes, k.outputs) && b !in k.outputs &&
      (forall m :: 0 <= m < |k.outputs| ==>
        s.nodes[k.outputs[m]] == nodes[k.outputs[m]].(ingredients :=
          LegacyFilled(nodes[k.outputs[m]].ingredients, k.recipe.value.produces, nodes[k.outputs[m]].kind.conveyance, |k.recipe.value.produces|, k.clockRate))) &&
      (forall q :: 0 <= q < |nodes| && q !in k.outputs ==> s.nodes[q] == nodes[q])
  {
    if !CanProcess(nodes, b) then Step(nodes, Returned(false))
    else
      var k := nodes[b].kind;
      assert KindOk(nodes, k);
      var ps := k.recipe.value.produces;
      var filled := LegacyFillContents(Held(nodes, k.outputs), PortTypes(nodes, k.outputs), ps, k.clockRate);
      Step(WriteOutputs(nodes, k.outputs, filled), Returned(true))
  }

  /** The imperative `Building.process`. */
  method ProcessBuilding(h: Heap, b: Ref) returns (ok: bool)
    requires WF(h.nodes) && IsBuilding(h.nodes, b)
    modifies h
    ensures Step(h.nodes, Returned(ok)) == BuildingProcess(old(h.nodes), b)
  {
    ok := CanProcess(h.nodes, b);
    if !ok {
      return;
    }
    var k := h.nodes[b].kind;
    assert KindOk(h.nodes, k);
    var contents := LegacyFillOutputs(Held(h.nodes, k.outputs), PortTypes(h.nodes, k.outputs), k.recipe.value.produces, k.clockRate);
    h.nodes := WriteOutputs(h.nodes, k.outputs, contents);
  }

  // ---------------------------------------------------------------------------------------------
  // Conveyance.process

  /**
   * `Conveyance.process`: the recipe becomes a conveyance recipe that consumes and produces all
   * the inputs' ingredients, concatenated in input order; nothing else changes and the answer is
   * `True`.
   */
  function ConveyanceProcess(nodes: seq<Node>, b: Ref): (s: Step)
    requires WF(nodes) && IsBuilding(nodes, b)
    ensures Preserves(nodes, s.nodes) && s.status == Returned(true)
    ensures forall m :: 0 <= m < |nodes[b].kind.inputs| ==> nodes[b].kind.inputs[m] < |nodes|
    ensures s.nodes[b].kind.recipe.Some? && s.nodes[b].kind.recipe.value.buildingType == BuildingType.Conveyance
    ensures s.nodes[b].kind.recipe.value.Consumed() == s.nodes[b].kind.recipe.value.produces == InputContents(nodes, nodes[b].kind.inputs)
    ensures s.nodes[b].errors == nodes[b].errors && s.nodes[b].ingredients == nodes[b].ingredients
    ensures forall q :: 0 <= q < |nodes| && q != b ==> s.nodes[q] == nodes[q]
  {
    var k := nodes[b].kind;
    assert KindOk(nodes, k);
    var r := LegacyConveyanceRecipe(InputContents(nodes, k.inputs));
    var result := nodes[b := nodes[b].(kind := k.(recipe := Some(r)))];
    assert Frame(result[b]) == Frame(nodes[b]);
    Step(result, Returned(true))
  }

  /** The imperative `Conveyance.process`: gather, then replace the recipe. */
  method ProcessConveyance(h: Heap, b: Ref) returns (ok: bool)
    requires WF(h.nodes) && IsBuilding(h.nodes, b)
    modifies h
    ensures Step(h.nodes, Returned(ok)) == ConveyanceProcess(old(h.nodes), b)
  {
    var k := h.nodes[b].kind;
    assert KindOk(h.nodes, k);
    var ingredients := [];
    var i := 0;
    while i < |k.inputs|
      invariant 0 <= i <= |k.inputs|
      invariant ingredients == InputContents(h.nodes, k.inputs[..i])
    {
      assert k.inputs[..i + 1][..i] == k.inputs[..i];
      ingredients := ingredients + h.nodes[k.inputs[i]].ingredients;
      i := i + 1;
    }
    assert k.inputs[..i] == k.inputs;
    h.nodes := h.nodes[b := h.nodes[b].(kind := k.(recipe := Some(LegacyConveyanceRecipe(ingredients))))];
    ok := true;
  }

  // ---------------------------------------------------------------------------------------------
  // The visitors

  /**
   * `simulate_component`: a building runs its class's `process` (the plain building and
   * conveyance ones of this core, those of the Buildings and Junction modules for the others);
   * any other component is left alone.
   */
  function SimulateComponent(nodes: seq<Node>, r: Ref): (s: Step)
    requires WF(nodes) && r < |nodes|
    ensures Preserves(nodes, s.nodes)
    ensures !IsBuilding(nodes, r) ==> s == Step(nodes, Done)
  {
    match nodes[r].kind
    case Building(cls, _, _, _, _, _, _, _) =>
      (match cls
       case GenericClass => BuildingProcess(nodes, r)
       case ConveyanceClass(_, _) => ConveyanceProcess(nodes, r)
       case StorageClass => ConveyanceProcess(nodes, r)
       case _ => Process(nodes, r))
    case _ => Step(nodes, Done)
  }

  /** The processing step the older factory walks with. */
  const LegacyStep: Processor := SimulateComponent

  /** The imperative `simulate_component`. */
  method SimulateComponentInPlace(h: Heap, r: Ref) returns (status: Status)
    requires WF(h.nodes) && r < |h.nodes|
    modifies h
    ensures Step(h.nodes, status) == SimulateComponent(old(h.nodes), r)
  {
    match h.nodes[r].kind
    case Building(cls, _, _, _, _, _, _, _) =>
      if cls.GenericClass? {
        var ok := ProcessBuilding(h, r);
        status := Returned(ok);
      } else if cls.ConveyanceClass? || cls.StorageClass? {
        var ok := ProcessConveyance(h, r);
        status := Returned(ok);
      } else {
        status := Simulation.SimulateComponent(h, r);
      }
    case _ =>
      status := Done;
  }

  // ---------------------------------------------------------------------------------------------
  // The walker

  /** `drain_component`: a port (a `Connection`) loses its ingredients; nothing else changes. */
  function DrainComponent(nodes: seq<Node>, r: Ref): (result: seq<Node>)
    requires r < |nodes|
    ensures Preserves(nodes, result)
    ensures forall q :: 0 <= q < |nodes| ==> result[q] == if q == r && IsPort(nodes, r) then nodes[q].(ingredients := []) else nodes[q]
  {
    if IsPort(nodes, r) then WithIngredients(nodes, r, []) else nodes
  }

  /** One application of the visitor given to `traverse`. */
  function Visit(nodes: seq<Node>, r: Ref, v: Visitor, sim: Processor): (s: Step)
    requires WF(nodes) && r < |nodes|
    ensures Preserves(nodes, s.nodes)
    ensures v == Drain ==> s == Step(DrainComponent(nodes, r), Done)
    ensures v == Simulate ==> s == sim(nodes, r)
  {
    match v
    case Drain => Step(DrainComponent(nodes, r), Done)
    case Simulate => sim(nodes, r)
  }

  /** A building with a single output and no recipe: `cursor.recipe.produces` raises. */
  predicate Stuck(k: Kind)
  {
    k.Building? && |k.outputs| == 1 && k.recipe.None?
  }

  /**
   * What the walker writes before it moves on from `c`: an output with a target hands its
   * ingredients to that target input, a building with a single output and a recipe sets that
   * output to the recipe's products; at any other component nothing is written.
   */
  function Handed(nodes: seq<Node>, c: Ref): (result: seq<Node>)
    requires WF(nodes) && c < |nodes|
    ensures Preserves(nodes, result)
    ensures forall q :: 0 <= q < |nodes| ==>
      result[q] == nodes[q] || (q in Next(nodes, c) && IsPort(nodes, q) && result[q] == nodes[q].(ingredients := result[q].ingredients))
    ensures IsOutput(nodes, c) && HasTarget(nodes, c) ==>
      result[nodes[c].kind.target.value].ingredients == nodes[c].ingredients
    ensures IsBuilding(nodes, c) && |nodes[c].kind.outputs| == 1 && nodes[c].kind.recipe.Some? ==>
      result[nodes[c].kind.outputs[0]].ingredients == nodes[c].kind.recipe.value.produces
  {
    assert KindOk(nodes, nodes[c].kind);
    match nodes[c].kind
    case OutputPort(_, _, target) =>
      if target.Some? then WithIngredients(nodes, target.value, nodes[c].ingredients) else nodes
    case Building(_, _, recipe, _, _, _, _, outputs) =>
      if |outputs| == 1 && recipe.Some? then WithIngredients(nodes, outputs[0], recipe.value.produces) else nodes
    case _ => nodes
  }

  /**
   * `traverse(cursor, func)`: apply the visitor, then move on: an input to its owner, an output
   * to its target (handing its ingredients on), a resource node to its output, a building with
   * one output to it (after setting it to the recipe's products), one with several outputs to
   * each in a thread of its own. An exception ends the walk up to the innermost thread.
   */
  function Traverse(nodes: seq<Node>, rank: seq<nat>, sim: Processor, v: Visitor, c: Ref): (t: Run)
    requires Ranked(nodes, rank) && c < |nodes|
    ensures Preserves(nodes, t.nodes)
    ensures |t.visited| >= 1 && t.visited[0] == c
    decreases rank[c], 1, 0
  {
    var s := Visit(nodes, c, v, sim);
    PreservesShape(nodes, s.nodes);
    SameShapeRanked(nodes, s.nodes, rank);
    var nx := Next(nodes, c);
    if s.status.Raised? then Run(s.nodes, [c], Some(s.status.error))
    else if |nx| == 0 then Run(s.nodes, [c], None)
    else if |nx| == 1 then
      if Stuck(s.nodes[c].kind) then Run(s.nodes, [c], Some(AttributeError))
      else
        var n2 := Handed(s.nodes, c);
        PreservesTrans(nodes, s.nodes, n2);
        PreservesShape(nodes, n2);
        SameShapeRanked(nodes, n2, rank);
        var u := Traverse(n2, rank, sim, v, nx[0]);
        PreservesTrans(nodes, n2, u.nodes);
        Run(u.nodes, [c] + u.visited, u.raised)
    else
      var u := Threads(s.nodes, rank, sim, v, nx, rank[c]);
      PreservesTrans(nodes, s.nodes, u.nodes);
      Run(u.nodes, [c] + u.visited, None)
  }

  /** The threads for the outputs of a building, started and joined one after the other. */
  function Threads(nodes: seq<Node>, rank: seq<nat>, sim: Processor, v: Visitor, cs: seq<Ref>, bound: nat): (t: Run)
    requires Ranked(nodes, rank) && AllBelow(nodes, rank, cs, bound)
    ensures Preserves(nodes, t.nodes) && t.raised.None?
    decreases bound, 0, |cs|
  {
    if |cs| == 0 then Run(nodes, [], None)
    else
      var t := Traverse(nodes, rank, sim, v, cs[0]);
      PreservesShape(nodes, t.nodes);
      SameShapeRanked(nodes, t.nodes, rank);
      var u := Threads(t.nodes, rank, sim, v, cs[1..], bound);
      PreservesTrans(nodes, t.nodes, u.nodes);
      Run(u.nodes, t.visited + u.visited, None)
  }

  /** `traverse_all`: a thread from every resource node in turn. */
  function TraverseAll(nodes: seq<Node>, rank: seq<nat>, sim: Processor, v: Visitor, roots: seq<Ref>): (t: Run)
    requires Ranked(nodes, rank) && forall i :: 0 <= i < |roots| ==> roots[i] < |nodes|
    ensures Preserves(nodes, t.nodes) && t.raised.None?
    decreases |roots|
  {
    if |roots| == 0 then Run(nodes, [], None)
    else
      var t := Traverse(nodes, rank, sim, v, roots[0]);
      PreservesShape(nodes, t.nodes);
      SameShapeRanked(nodes, t.nodes, rank);
      var u := TraverseAll(t.nodes, rank, sim, v, roots[1..]);
      PreservesTrans(nodes, t.nodes, u.nodes);
      Run(u.nodes, t.visited + u.visited, None)
  }

  // ---------------------------------------------------------------------------------------------
  // What draining does

  /** `after` is `before` with the ports among `visited` emptied, and nothing else changed. */
  predicate PortsDrained(before: seq<Node>, after: seq<Node>, visited: seq<Ref>)
  {
    |after| == |before| &&
    forall q :: 0 <= q < |before| ==> after[q] == if q in visited && IsPort(before, q) then before[q].(ingredients := []) else before[q]
  }

  lemma PortsDrainedTrans(a: seq<Node>, b: seq<Node>, c: seq<Node>, x: seq<Ref>, y: seq<Ref>)
    requires PortsDrained(a, b, x) && PortsDrained(b, c, y)
    ensures PortsDrained(a, c, x + y)
  {
    forall q | 0 <= q < |a|
      ensures c[q] == if q in x + y && IsPort(a, q) then a[q].(ingredients := []) else a[q]
    {
      assert IsPort(a, q) == IsPort(b, q);
    }
  }

  /** A write to a port the walk goes on to visit is wiped out by that visit. */
  lemma PortsDrainedAbsorbs(a: seq<Node>, b: seq<Node>, c: seq<Node>, nx: seq<Ref>, y: seq<Ref>)
    requires |a| == |b| && PortsDrained(b, c, y) && forall i :: 0 <= i < |nx| ==> nx[i] in y
    requires forall q :: 0 <= q < |a| ==> b[q] == a[q] || (q in nx && IsPort(a, q) && b[q] == a[q].(ingredients := b[q].ingredients))
    ensures PortsDrained(a, c, y)
  {
    forall q | 0 <= q < |a|
      ensures c[q] == if q in y && IsPort(a, q) then a[q].(ingredients := []) else a[q]
    {
      assert IsPort(a, q) == IsPort(b, q);
    }
  }

  /** What the walker hands to the one next component is wiped out when the walk drains it. */
  lemma HandedAbsorbed(b: seq<Node>, c: Ref, after: seq<Node>, y: seq<Ref>)
    requires WF(b) && c < |b| && |Next(b, c)| == 1 && |y| >= 1 && y[0] == Next(b, c)[0]
    requires PortsDrained(Handed(b, c), after, y)
    ensures PortsDrained(b, after, y)
  {
    PortsDrainedAbsorbs(b, Handed(b, c), after, Next(b, c), y);
  }

  /** Draining from `c` empties exactly the ports it visits; buildings and resource nodes, and
    * everything it does not reach, stay as they were. */
  lemma {:induction false} TraverseDrains(nodes: seq<Node>, rank: seq<nat>, sim: Processor, c: Ref)
    requires Ranked(nodes, rank) && c < |nodes|
    ensures PortsDrained(nodes, Traverse(nodes, rank, sim, Drain, c).nodes, Traverse(nodes, rank, sim, Drain, c).visited)
    decreases rank[c], 1
  {
    var s := Visit(nodes, c, Drain, sim);
    PreservesShape(nodes, s.nodes);
    SameShapeRanked(nodes, s.nodes, rank);
    assert PortsDrained(nodes, s.nodes, [c]);
    var nx := Next(nodes, c);
    if |nx| == 1 && !Stuck(s.nodes[c].kind) {
      var n2 := Handed(s.nodes, c);
      PreservesTrans(nodes, s.nodes, n2);
      PreservesShape(nodes, n2);
      SameShapeRanked(nodes, n2, rank);
      var u := Traverse(n2, rank, sim, Drain, nx[0]);
      TraverseDrains(n2, rank, sim, nx[0]);
      assert Next(s.nodes, c) == nx;
      HandedAbsorbed(s.nodes, c, u.nodes, u.visited);
      PortsDrainedTrans(nodes, s.nodes, u.nodes, [c], u.visited);
    } else if |nx| > 1 {
      ThreadsDrain(s.nodes, rank, sim, nx, rank[c]);
      var u := Threads(s.nodes, rank, sim, Drain, nx, rank[c]);
      PortsDrainedTrans(nodes, s.nodes, u.nodes, [c], u.visited);
    }
  }

  lemma {:induction false} ThreadsDrain(nodes: seq<Node>, rank: seq<nat>, sim: Processor, cs: seq<Ref>, bound: nat)
    requires Ranked(nodes, rank) && AllBelow(nodes, rank, cs, bound)
    ensures PortsDrained(nodes, Threads(nodes, rank, sim, Drain, cs, bound).nodes, Threads(nodes, rank, sim, Drain, cs, bound).visited)
    decreases bound, 0, |cs|
  {
    if |cs| == 0 {
    } else {
      var t := Traverse(nodes, rank, sim, Drain, cs[0]);
      PreservesShape(nodes, t.nodes);
      SameShapeRanked(nodes, t.nodes, rank);
      TraverseDrains(nodes, rank, sim, cs[0]);
      ThreadsDrain(t.nodes, rank, sim, cs[1..], bound);
      var u := Threads(t.nodes, rank, sim, Drain, cs[1..], bound);
      PortsDrainedTrans(nodes, t.nodes, u.nodes, t.visited, u.visited);
    }
  }

  /** Draining the whole factory empties the ports the threads visit and nothing else. */
  lemma {:induction false} TraverseAllDrains(nodes: seq<Node>, rank: seq<nat>, sim: Processor, roots: seq<Ref>)
    requires Ranked(nodes, rank) && forall i :: 0 <= i < |roots| ==> roots[i] < |nodes|
    ensures PortsDrained(nodes, TraverseAll(nodes, rank, sim, Drain, roots).nodes, TraverseAll(nodes, rank, sim, Drain, roots).visited)
    decreases |roots|
  {
    if |roots| == 0 {
    } else {
      var t := Traverse(nodes, rank, sim, Drain, roots[0]);
      PreservesShape(nodes, t.nodes);
      SameShapeRanked(nodes, t.nodes, rank);
      TraverseDrains(nodes, rank, sim, roots[0]);
      TraverseAllDrains(t.nodes, rank, sim, roots[1..]);
      var u := TraverseAll(t.nodes, rank, sim, Drain, roots[1..]);
      PortsDrainedTrans(nodes, t.nodes, u.nodes, t.visited, u.visited);
    }
  }

  // ---------------------------------------------------------------------------------------------
  // Where the walker goes

  /** Every component a walk visits lies on the walk order from its start. */
  lemma {:induction false} TraverseWithinWalk(nodes: seq<Node>, rank: seq<nat>, sim: Processor, v: Visitor, c: Ref)
    requires Ranked(nodes, rank) && c < |nodes|
    ensures forall q :: q in Traverse(nodes, rank, sim, v, c).visited ==> q in Walk(nodes, rank, c)
    decreases rank[c], 1
  {
    var s := Visit(nodes, c, v, sim);
    PreservesShape(nodes, s.nodes);
    SameShapeRanked(nodes, s.nodes, rank);
    var nx := Next(nodes, c);
    if !s.status.Raised? && |nx| == 1 && !Stuck(s.nodes[c].kind) {
      var n2 := Handed(s.nodes, c);
      PreservesTrans(nodes, s.nodes, n2);
      PreservesShape(nodes, n2);
      SameShapeRanked(nodes, n2, rank);
      TraverseWithinWalk(n2, rank, sim, v, nx[0]);
      WalkSameShape(nodes, n2, rank, nx[0]);
      var u := Traverse(n2, rank, sim, v, nx[0]);
      assert Traverse(nodes, rank, sim, v, c).visited == [c] + u.visited;
      assert WalkAll(nodes, rank, nx, rank[c]) == Walk(nodes, rank, nx[0]) + WalkAll(nodes, rank, nx[1..], rank[c]);
    } else if !s.status.Raised? && |nx| > 1 {
      ThreadsWithinWalk(s.nodes, rank, sim, v, nx, rank[c]);
      WalkAllSameShape(nodes, s.nodes, rank, nx, rank[c]);
    }
  }

  lemma {:induction false} ThreadsWithinWalk(nodes: seq<Node>, rank: seq<nat>, sim: Processor, v: Visitor, cs: seq<Ref>, bound: nat)
    requires Ranked(nodes, rank) && AllBelow(nodes, rank, cs, bound)
    ensures forall q :: q in Threads(nodes, rank, sim, v, cs, bound).visited ==> q in WalkAll(nodes, rank, cs, bound)
    decreases bound, 0, |cs|
  {
    if |cs| > 0 {
      var t := Traverse(nodes, rank, sim, v, cs[0]);
      PreservesShape(nodes, t.nodes);
      SameShapeRanked(nodes, t.nodes, rank);
      TraverseWithinWalk(nodes, rank, sim, v, cs[0]);
      ThreadsWithinWalk(t.nodes, rank, sim, v, cs[1..], bound);
      WalkAllSameShape(nodes, t.nodes, rank, cs[1..], bound);
    }
  }

  predicate StuckAt(nodes: seq<Node>, q: Ref)
  {
    q < |nodes| && Stuck(nodes[q].kind)
  }

  /** No arena changes the kind of any node. */
  predicate SameKinds(a: seq<Node>, b: seq<Node>)
  {
    |a| == |b| && forall q :: 0 <= q < |a| ==> a[q].kind == b[q].kind
  }

  /** No building on the walk from `c` is a single-output building without a recipe. */
  predicate NoneStuck(nodes: seq<Node>, rank: seq<nat>, c: Ref)
    requires Ranked(nodes, rank) && c < |nodes|
  {
    forall i :: 0 <= i < |Walk(nodes, rank, c)| ==> !StuckAt(nodes, Walk(nodes, rank, c)[i])
  }

  /** Same as `NoneStuck`, for the walks from each of `cs`. */
  predicate NoneStuckAll(nodes: seq<Node>, rank: seq<nat>, cs: seq<Ref>, bound: nat)
    requires Ranked(nodes, rank) && AllBelow(nodes, rank, cs, bound)
  {
    forall i :: 0 <= i < |WalkAll(nodes, rank, cs, bound)| ==> !StuckAt(nodes, WalkAll(nodes, rank, cs, bound)[i])
  }

  lemma DrainedKinds(a: seq<Node>, b: seq<Node>, y: seq<Ref>)
    requires PortsDrained(a, b, y)
    ensures SameKinds(a, b)
  {
    assert forall q :: 0 <= q < |a| ==> a[q].kind == b[q].kind;
  }

  lemma HandedKinds(nodes: seq<Node>, c: Ref)
    requires WF(nodes) && c < |nodes|
    ensures SameKinds(nodes, Handed(nodes, c))
  {
    var r := Handed(nodes, c);
    forall q | 0 <= q < |nodes|
      ensures nodes[q].kind == r[q].kind
    {
      assert r[q] == nodes[q] || r[q] == nodes[q].(ingredients := r[q].ingredients);
    }
  }

  /** Whether the walk meets a stuck building depends on kinds and links only. */
  lemma NoneStuckAllKinds(a: seq<Node>, b: seq<Node>, rank: seq<nat>, cs: seq<Ref>, bound: nat)
    requires Ranked(a, rank) && AllBelow(a, rank, cs, bound) && SameKinds(a, b) && NoneStuckAll(a, rank, cs, bound)
    ensures Ranked(b, rank) && AllBelow(b, rank, cs, bound) && NoneStuckAll(b, rank, cs, bound)
  {
    assert SameShape(a, b);
    WalkAllSameShape(a, b, rank, cs, bound);
  }

  lemma NoneStuckKinds(a: seq<Node>, b: seq<Node>, rank: seq<nat>, c: Ref)
    requires Ranked(a, rank) && c < |a| && SameKinds(a, b) && NoneStuck(a, rank, c)
    ensures Ranked(b, rank) && NoneStuck(b, rank, c)
  {
    assert SameShape(a, b);
    WalkSameShape(a, b, rank, c);
  }

  /** Nothing on the walks from the successors of a component is stuck when nothing on its own walk is. */
  lemma NoneStuckNext(nodes: seq<Node>, rank: seq<nat>, c: Ref)
    requires Ranked(nodes, rank) && c < |nodes| && NoneStuck(nodes, rank, c)
    ensures !Stuck(nodes[c].kind)
    ensures AllBelow(nodes, rank, Next(nodes, c), rank[c])
    ensures NoneStuckAll(nodes, rank, Next(nodes, c), rank[c])
    ensures |Next(nodes, c)| == 1 ==> NoneStuck(nodes, rank, Next(nodes, c)[0])
  {
    var w := Walk(nodes, rank, c);
    var rest := WalkAll(nodes, rank, Next(nodes, c), rank[c]);
    assert w == [c] + rest;
    assert !StuckAt(nodes, w[0]);
    forall i | 0 <= i < |rest|
      ensures !StuckAt(nodes, rest[i])
    {
      assert rest[i] == w[i + 1];
    }
    if |Next(nodes, c)| == 1 {
      SingleWalk(nodes, rank, Next(nodes, c), rank[c]);
    }
  }

  /** The walks from a single component are its walk. */
  lemma SingleWalk(nodes: seq<Node>, rank: seq<nat>, cs: seq<Ref>, bound: nat)
    requires Ranked(nodes, rank) && AllBelow(nodes, rank, cs, bound) && |cs| == 1
    ensures cs[0] < |nodes| && WalkAll(nodes, rank, cs, bound) == Walk(nodes, rank, cs[0])
  {
    assert WalkAll(nodes, rank, cs[1..], bound) == [];
  }

  /**
   * Draining never raises in a visitor; so, when no single-output building on the way lacks a
   * recipe, the drain from `c` ends without an exception and visits exactly the walk order.
   */
  lemma {:induction false} DrainFollowsWalk(nodes: seq<Node>, rank: seq<nat>, sim: Processor, c: Ref)
    requires Ranked(nodes, rank) && c < |nodes| && NoneStuck(nodes, rank, c)
    ensures Traverse(nodes, rank, sim, Drain, c).raised.None?
    ensures Traverse(nodes, rank, sim, Drain, c).visited == Walk(nodes, rank, c)
    decreases rank[c], 1
  {
    var s := Visit(nodes, c, Drain, sim);
    PreservesShape(nodes, s.nodes);
    SameShapeRanked(nodes, s.nodes, rank);
    var nx := Next(nodes, c);
    NoneStuckNext(nodes, rank, c);
    assert PortsDrained(nodes, s.nodes, [c]);
    DrainedKinds(nodes, s.nodes, [c]);
    if |nx| == 1 {
      var n2 := Handed(s.nodes, c);
      HandedKinds(s.nodes, c);
      PreservesTrans(nodes, s.nodes, n2);
      PreservesShape(nodes, n2);
      SameShapeRanked(nodes, n2, rank);
      NoneStuckKinds(nodes, n2, rank, nx[0]);
      WalkSameShape(nodes, n2, rank, nx[0]);
      SingleWalk(nodes, rank, nx, rank[c]);
      DrainFollowsWalk(n2, rank, sim, nx[0]);
    } else if |nx| > 1 {
      NoneStuckAllKinds(nodes, s.nodes, rank, nx, rank[c]);
      WalkAllSameShape(nodes, s.nodes, rank, nx, rank[c]);
      DrainThreadsFollowWalk(s.nodes, rank, sim, nx, rank[c]);
    }
  }

  lemma {:induction false} DrainThreadsFollowWalk(nodes: seq<Node>, rank: seq<nat>, sim: Processor, cs: seq<Ref>, bound: nat)
    requires Ranked(nodes, rank) && AllBelow(nodes, rank, cs, bound) && NoneStuckAll(nodes, rank, cs, bound)
    ensures Threads(nodes, rank, sim, Drain, cs, bound).visited == WalkAll(nodes, rank, cs, bound)
    decreases bound, 0, |cs|
  {
    if |cs| > 0 {
      var first := Walk(nodes, rank, cs[0]);
      var others := WalkAll(nodes, rank, cs[1..], bound);
      var all := WalkAll(nodes, rank, cs, bound);
      assert all == first + others;
      assert forall i :: 0 <= i < |first| ==> first[i] == all[i];
      assert NoneStuck(nodes, rank, cs[0]);
      DrainFollowsWalk(nodes, rank, sim, cs[0]);
      var t := Traverse(nodes, rank, sim, Drain, cs[0]);
      PreservesShape(nodes, t.nodes);
      SameShapeRanked(nodes, t.nodes, rank);
      TraverseDrains(nodes, rank, sim, cs[0]);
      DrainedKinds(nodes, t.nodes, t.visited);
      assert forall i :: 0 <= i < |others| ==> others[i] == all[|first| + i];
      assert NoneStuckAll(nodes, rank, cs[1..], bound);
      NoneStuckAllKinds(nodes, t.nodes, rank, cs[1..], bound);
      WalkAllSameShape(nodes, t.nodes, rank, cs[1..], bound);
      DrainThreadsFollowWalk(t.nodes, rank, sim, cs[1..], bound);
    }
  }

  /** Every component the threads from the roots visit lies on the walk order from one of them. */
  lemma {:induction false} TraverseAllWithinWalk(nodes: seq<Node>, rank: seq<nat>, sim: Processor, v: Visitor, roots: seq<Ref>)
    requires Ranked(nodes, rank) && forall i :: 0 <= i < |roots| ==> roots[i] < |nodes|
    ensures forall q :: q in TraverseAll(nodes, rank, sim, v, roots).visited ==> q in WalkMulti(nodes, rank, roots)
    decreases |roots|
  {
    if |roots| > 0 {
      var t := Traverse(nodes, rank, sim, v, roots[0]);
      PreservesShape(nodes, t.nodes);
      SameShapeRanked(nodes, t.nodes, rank);
      TraverseWithinWalk(nodes, rank, sim, v, roots[0]);
      TraverseAllWithinWalk(t.nodes, rank, sim, v, roots[1..]);
      WalkMultiSameShape(nodes, t.nodes, rank, roots[1..]);
    }
  }

  // ---------------------------------------------------------------------------------------------
  // The walker in place

  /** `drain_component` or `simulate_component`, in place. */
  method VisitInPlace(h: Heap, r: Ref, v: Visitor) returns (status: Status)
    requires WF(h.nodes) && r < |h.nodes|
    modifies h
    ensures Step(h.nodes, status) == Visit(old(h.nodes), r, v, LegacyStep)
  {
    if v == Drain {
      if h.nodes[r].kind.InputPort? || h.nodes[r].kind.OutputPort? {
        h.nodes := h.nodes[r := h.nodes[r].(ingredients := [])];
      }
      status := Done;
    } else {
      status := SimulateComponentInPlace(h, r);
    }
  }

  /** `traverse`, recursing on the arena in place. */
  method TraverseFrom(h: Heap, ghost rank: seq<nat>, v: Visitor, c: Ref) returns (raised: Option<PyError>)
    requires Ranked(h.nodes, rank) && c < |h.nodes|
    modifies h
    ensures h.nodes == Traverse(old(h.nodes), rank, LegacyStep, v, c).nodes
    ensures raised == Traverse(old(h.nodes), rank, LegacyStep, v, c).raised
    decreases rank[c], 1
  {
    ghost var n0 := h.nodes;
    var status := VisitInPlace(h, c, v);
    PreservesShape(n0, h.nodes);
    SameShapeRanked(n0, h.nodes, rank);
    ghost var n1 := h.nodes;
    var nx := Next(h.nodes, c);
    assert nx == Next(n0, c);
    if status.Raised? {
      raised := Some(status.error);
    } else if |nx| == 0 {
      raised := None;
    } else if |nx| == 1 {
      var k := h.nodes[c].kind;
      if k.Building? && |k.outputs| == 1 && k.recipe.None? {
        raised := Some(AttributeError);
      } else {
        HandOn(h, c);
        PreservesTrans(n0, n1, h.nodes);
        PreservesShape(n0, h.nodes);
        SameShapeRanked(n0, h.nodes, rank);
        raised := TraverseFrom(h, rank, v, nx[0]);
      }
    } else {
      ThreadsFrom(h, rank, v, nx, rank[c]);
      raised := None;
    }
  }

  /** The writes `traverse` makes before moving on from `c`. */
  method HandOn(h: Heap, c: Ref)
    requires WF(h.nodes) && c < |h.nodes|
    modifies h
    ensures h.nodes == Handed(old(h.nodes), c)
  {
    var k := h.nodes[c].kind;
    assert KindOk(h.nodes, k);
    if k.OutputPort? && k.target.Some? {
      h.nodes := h.nodes[k.target.value := h.nodes[k.target.value].(ingredients := h.nodes[c].ingredients)];
    } else if k.Building? && |k.outputs| == 1 && k.recipe.Some? {
      h.nodes := h.nodes[k.outputs[0] := h.nodes[k.outputs[0]].(ingredients := k.recipe.value.produces)];
    }
  }

  /** The threads `traverse` starts at a building with several outputs, one after the other;
    * what each raises is dropped. */
  method ThreadsFrom(h: Heap, ghost rank: seq<nat>, v: Visitor, cs: seq<Ref>, ghost bound: nat)
    requires Ranked(h.nodes, rank) && AllBelow(h.nodes, rank, cs, bound)
    modifies h
    ensures h.nodes == Threads(old(h.nodes), rank, LegacyStep, v, cs, bound).nodes
    decreases bound, 0, 1
  {
    ghost var goal := Threads(h.nodes, rank, LegacyStep, v, cs, bound).nodes;
    var i := 0;
    assert cs[i..] == cs;
    while i < |cs|
      invariant 0 <= i <= |cs|
      invariant Ranked(h.nodes, rank) && AllBelow(h.nodes, rank, cs[i..], bound)
      invariant Threads(h.nodes, rank, LegacyStep, v, cs[i..], bound).nodes == goal
      decreases |cs| - i
    {
      ThreadStep(h, rank, v, cs, i, bound);
      i := i + 1;
    }
  }

  /** One thread of `ThreadsFrom`: the walk from `cs[i]`, leaving the threads after it to run. */
  method ThreadStep(h: Heap, ghost rank: seq<nat>, v: Visitor, cs: seq<Ref>, i: nat, ghost bound: nat)
    requires i < |cs| && Ranked(h.nodes, rank) && AllBelow(h.nodes, rank, cs[i..], bound)
    modifies h
    ensures Ranked(h.nodes, rank) && AllBelow(h.nodes, rank, cs[i + 1..], bound)
    ensures Threads(h.nodes, rank, LegacyStep, v, cs[i + 1..], bound).nodes ==
      Threads(old(h.nodes), rank, LegacyStep, v, cs[i..], bound).nodes
    decreases bound, 0, 0
  {
    ghost var before := h.nodes;
    assert cs[i..][0] == cs[i] && cs[i..][1..] == cs[i + 1..];
    ThreadsCons(before, rank, LegacyStep, v, cs[i..], bound);
    var ignored := TraverseFrom(h, rank, v, cs[i]);
  }

  /** The first thread runs on the arena as given, the others on what it leaves. */
  lemma ThreadsCons(nodes: seq<Node>, rank: seq<nat>, sim: Processor, v: Visitor, cs: seq<Ref>, bound: nat)
    requires Ranked(nodes, rank) && AllBelow(nodes, rank, cs, bound) && |cs| > 0
    ensures cs[0] < |nodes| && rank[cs[0]] < bound
    ensures Ranked(Traverse(nodes, rank, sim, v, cs[0]).nodes, rank)
    ensures AllBelow(Traverse(nodes, rank, sim, v, cs[0]).nodes, rank, cs[1..], bound)
    ensures Threads(nodes, rank, sim, v, cs, bound).nodes ==
      Threads(Traverse(nodes, rank, sim, v, cs[0]).nodes, rank, sim, v, cs[1..], bound).nodes
  {
    PreservesShape(nodes, Traverse(nodes, rank, sim, v, cs[0]).nodes);
    SameShapeRanked(nodes, Traverse(nodes, rank, sim, v, cs[0]).nodes, rank);
  }

  /** The threads from `roots[i..]`: the one from `roots[i]` first, then the others. */
  lemma TraverseAllStep(nodes: seq<Node>, rank: seq<nat>, sim: Processor, v: Visitor, roots: seq<Ref>, i: nat)
    requires Ranked(nodes, rank) && (forall k :: 0 <= k < |roots| ==> roots[k] < |nodes|) && i < |roots|
    ensures Ranked(Traverse(nodes, rank, sim, v, roots[i]).nodes, rank)
    ensures |Traverse(nodes, rank, sim, v, roots[i]).nodes| == |nodes|
    ensures TraverseAll(nodes, rank, sim, v, roots[i..]).nodes ==
      TraverseAll(Traverse(nodes, rank, sim, v, roots[i]).nodes, rank, sim, v, roots[i + 1..]).nodes
  {
    PreservesShape(nodes, Traverse(nodes, rank, sim, v, roots[i]).nodes);
    SameShapeRanked(nodes, Traverse(nodes, rank, sim, v, roots[i]).nodes, rank);
    assert roots[i..][0] == roots[i] && roots[i..][1..] == roots[i + 1..];
  }

  /** `traverse_all`: the threads from the roots, one after the other. */
  method TraverseAllFrom(h: Heap, ghost rank: seq<nat>, v: Visitor, roots: seq<Ref>)
    requires Ranked(h.nodes, rank) && forall i :: 0 <= i < |roots| ==> roots[i] < |h.nodes|
    modifies h
    ensures h.nodes == TraverseAll(old(h.nodes), rank, LegacyStep, v, roots).nodes
  {
    ghost var n0 := h.nodes;
    var i := 0;
    assert roots[i..] == roots;
    while i < |roots|
      invariant 0 <= i <= |roots| && Ranked(h.nodes, rank) && |h.nodes| == |n0|
      invariant TraverseAll(h.nodes, rank, LegacyStep, v, roots[i..]).nodes == TraverseAll(n0, rank, LegacyStep, v, roots).nodes
    {
      RootStep(h, rank, v, roots, i);
      i := i + 1;
    }
  }

  /** One thread of `TraverseAllFrom`: the walk from `roots[i]`, leaving the roots after it. */
  method RootStep(h: Heap, ghost rank: seq<nat>, v: Visitor, roots: seq<Ref>, i: nat)
    requires Ranked(h.nodes, rank) && (forall k :: 0 <= k < |roots| ==> roots[k] < |h.nodes|) && i < |roots|
    modifies h
    ensures Ranked(h.nodes, rank) && |h.nodes| == |old(h.nodes)|
    ensures TraverseAll(h.nodes, rank, LegacyStep, v, roots[i + 1..]).nodes ==
      TraverseAll(old(h.nodes), rank, LegacyStep, v, roots[i..]).nodes
  {
    TraverseAllStep(h.nodes, rank, LegacyStep, v, roots, i);
    var ignored := TraverseFrom(h, rank, v, roots[i]);
  }

  // ---------------------------------------------------------------------------------------------
  // The factory object

  /** The older factory: a plain list of components, with the queries of the Factories module. */
  class Factory {
    var components: seq<Ref>

    constructor (components: seq<Ref>)
      ensures this.components == components
    {
      this.components := components;
    }

    /** `add`: the list is extended as given, no flattening and no duplicate check. */
    method Add(more: seq<Ref>)
      modifies this
      ensures components == old(components) + more
    {
      components := components + more;
    }

    /** `drain`: the threads from every resource node, with `drain_component`. */
    method Drain(h: Heap, ghost rank: seq<nat>)
      requires Ranked(h.nodes, rank) && InRange(h.nodes, components)
      modifies h
      ensures h.nodes == TraverseAll(old(h.nodes), rank, LegacyStep, Visitor.Drain, ResourceNodes(old(h.nodes), components)).nodes
    {
      var roots := ResourceNodes(h.nodes, components);
      assert forall i :: 0 <= i < |roots| ==> roots[i] in roots;
      TraverseAllFrom(h, rank, Visitor.Drain, roots);
    }

    /** `simulate`: the threads from every resource node, with `simulate_component`. */
    method Simulate(h: Heap, ghost rank: seq<nat>)
      requires Ranked(h.nodes, rank) && InRange(h.nodes, components)
      modifies h
      ensures h.nodes == TraverseAll(old(h.nodes), rank, LegacyStep, Visitor.Simulate, ResourceNodes(old(h.nodes), components)).nodes
    {
      var roots := ResourceNodes(h.nodes, components);
      assert forall i :: 0 <= i < |roots| ==> roots[i] in roots;
      TraverseAllFrom(h, rank, Visitor.Simulate, roots);
    }
  }
}
