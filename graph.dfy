/**
 * The object graph of a factory as an arena: every component (building, resource node, input
 * port, output port) is a node addressed by its index, which plays the part of object identity.
 * Links between ports and their owners are indices into the same arena.
 */
module Graph {
  import opened Wrappers
  import opened Base

  type Ref = nat

  /** What every component carries from its base class. */
  datatype Meta = Meta(id: string, name: string, tags: map<string, string>)

  /**
   * A plain resource node, or an infinite supply node with its optional rate; `shadowed` records
   * that a failed `can_process` replaced the instance's method by `False`.
   */
  datatype Supply = Ordinary | Infinite(rate: Option<real>, shadowed: bool)

  /** The Python class a building was made from, with the state only that class has. */
  datatype BuildingClass =
    | GenericClass
    | ConveyanceClass(conveyance: ConveyanceType, rate: real)
    | StorageClass
    | SinkClass
    | MergerClass
    | SplitterClass
    | MinerClass
    | JunctionClass

  datatype Kind =
    | InputPort(owner: Ref, conveyance: ConveyanceType, source: Option<Ref>)
    | OutputPort(owner: Ref, conveyance: ConveyanceType, target: Option<Ref>)
    | Resource(purity: Purity, item: Item, output: Ref, supply: Supply)
    | Building(
        cls: BuildingClass,
        buildingType: BuildingType,
        recipe: Option<Recipe>,
        clockRate: real,
        standby: bool,
        dimensions: Dimension,
        inputs: seq<Ref>,
        outputs: seq<Ref>)

  datatype Node = Node(
    meta: Meta,
    traversed: bool,
    factory: Option<nat>,
    errors: seq<ComponentError>,
    ingredients: seq<Ingredient>,
    kind: Kind)

  /** How a process step ended: no return value, a boolean, or a raised exception. */
  datatype Status = Done | Returned(value: bool) | Raised(error: PyError)

  /** The arena after a step, with how the step ended. */
  datatype Step = Step(nodes: seq<Node>, status: Status)

  /** The arena as a mutable object, for the operations that update it in place. */
  class Heap {
    var nodes: seq<Node>

    constructor (nodes: seq<Node>)
      ensures this.nodes == nodes
    {
      this.nodes := nodes;
    }
  }

  predicate IsInput(nodes: seq<Node>, r: Ref)
  {
    r < |nodes| && nodes[r].kind.InputPort?
  }

  predicate IsOutput(nodes: seq<Node>, r: Ref)
  {
    r < |nodes| && nodes[r].kind.OutputPort?
  }

  predicate IsBuilding(nodes: seq<Node>, r: Ref)
  {
    r < |nodes| && nodes[r].kind.Building?
  }

  predicate IsResource(nodes: seq<Node>, r: Ref)
  {
    r < |nodes| && nodes[r].kind.Resource?
  }

  predicate AllOutputs(nodes: seq<Node>, outs: seq<Ref>)
  {
    forall m :: 0 <= m < |outs| ==> IsOutput(nodes, outs[m])
  }

  predicate AllInputs(nodes: seq<Node>, ins: seq<Ref>)
  {
    forall m :: 0 <= m < |ins| ==> IsInput(nodes, ins[m])
  }

  /** An output that feeds something (`if output.target`). */
  predicate HasTarget(nodes: seq<Node>, output: Ref)
    requires IsOutput(nodes, output)
  {
    nodes[output].kind.target.Some?
  }

  /** An input that is fed (`if input.source`). */
  predicate HasSource(nodes: seq<Node>, input: Ref)
    requires IsInput(nodes, input)
  {
    nodes[input].kind.source.Some?
  }

  /** Outputs belong to buildings or resource nodes; inputs only to buildings (a resource node has none). */
  predicate IsOwner(nodes: seq<Node>, r: Ref)
  {
    IsBuilding(nodes, r) || IsResource(nodes, r)
  }

  /** Every reference a node holds points at a node of the right kind. */
  predicate KindOk(nodes: seq<Node>, k: Kind)
  {
    match k
    case InputPort(owner, _, source) => IsBuilding(nodes, owner) && (source.Some? ==> IsOutput(nodes, source.value))
    case OutputPort(owner, _, target) => IsOwner(nodes, owner) && (target.Some? ==> IsInput(nodes, target.value))
    case Resource(_, _, output, _) => IsOutput(nodes, output)
    case Building(_, _, _, _, _, _, inputs, outputs) =>
      (forall i :: 0 <= i < |inputs| ==> IsInput(nodes, inputs[i])) &&
      (forall i :: 0 <= i < |outputs| ==> IsOutput(nodes, outputs[i])) &&
      Distinct(inputs) && Distinct(outputs)
  }

  /** No port is listed twice. */
  predicate Distinct(rs: seq<Ref>)
  {
    forall j, k :: 0 <= j < k < |rs| ==> rs[j] != rs[k]
  }

  predicate WF(nodes: seq<Node>)
  {
    forall r :: 0 <= r < |nodes| ==> KindOk(nodes, nodes[r].kind)
  }

  /** Which of the four kinds a node is. */
  predicate SameTag(a: Kind, b: Kind)
  {
    a.InputPort? == b.InputPort? && a.OutputPort? == b.OutputPort? &&
    a.Resource? == b.Resource? && a.Building? == b.Building?
  }

  predicate SameTags(a: seq<Node>, b: seq<Node>)
  {
    |a| == |b| && forall r :: 0 <= r < |a| ==> SameTag(a[r].kind, b[r].kind)
  }

  /** A node's references stay well-typed when no node changes kind. */
  lemma KindOkTransfer(a: seq<Node>, b: seq<Node>, k: Kind)
    requires SameTags(a, b) && KindOk(a, k)
    ensures KindOk(b, k)
  {
  }

  /** The links of a node, and which of the four kinds it is. */
  datatype Shape =
    | InShape(owner: Ref, source: Option<Ref>)
    | OutShape(owner: Ref, target: Option<Ref>)
    | ResourceShape(output: Ref)
    | BuildingShape(inputs: seq<Ref>, outputs: seq<Ref>)

  function ShapeOf(k: Kind): Shape
  {
    match k
    case InputPort(owner, _, source) => InShape(owner, source)
    case OutputPort(owner, _, target) => OutShape(owner, target)
    case Resource(_, _, output, _) => ResourceShape(output)
    case Building(_, _, _, _, _, _, inputs, outputs) => BuildingShape(inputs, outputs)
  }

  predicate SameShape(a: seq<Node>, b: seq<Node>)
  {
    |a| == |b| && forall r :: 0 <= r < |a| ==> ShapeOf(a[r].kind) == ShapeOf(b[r].kind)
  }

  /** Well-formedness depends on the links only. */
  lemma SameShapeWF(a: seq<Node>, b: seq<Node>)
    requires WF(a) && SameShape(a, b)
    ensures WF(b)
  {
    forall r | 0 <= r < |b|
      ensures KindOk(b, b[r].kind)
    {
      assert KindOk(a, a[r].kind);
      assert ShapeOf(a[r].kind) == ShapeOf(b[r].kind);
    }
  }

  /** A node with its working state (errors, ingredients, recipe, shadowed method) erased. */
  function EraseKind(k: Kind): Kind
  {
    match k
    case Building(_, _, _, _, _, _, _, _) => k.(recipe := None)
    case Resource(_, _, _, supply) => if supply.Infinite? then k.(supply := supply.(shadowed := false)) else k
    case _ => k
  }

  function Frame(n: Node): Node
  {
    n.(errors := [], ingredients := [], kind := EraseKind(n.kind))
  }

  /** `b` differs from `a` in working state only: no node added, no link, name or flag changed. */
  predicate Preserves(a: seq<Node>, b: seq<Node>)
  {
    |a| == |b| && forall r :: 0 <= r < |a| ==> Frame(a[r]) == Frame(b[r])
  }

  lemma PreservesTrans(a: seq<Node>, b: seq<Node>, c: seq<Node>)
    requires Preserves(a, b) && Preserves(b, c)
    ensures Preserves(a, c)
  {
  }

  lemma PreservesShape(a: seq<Node>, b: seq<Node>)
    requires Preserves(a, b)
    ensures SameShape(a, b)
  {
    forall r | 0 <= r < |a|
      ensures ShapeOf(a[r].kind) == ShapeOf(b[r].kind)
    {
      assert Frame(a[r]) == Frame(b[r]);
    }
  }

  lemma PreservesWF(a: seq<Node>, b: seq<Node>)
    requires WF(a) && Preserves(a, b)
    ensures WF(b)
  {
    PreservesShape(a, b);
    SameShapeWF(a, b);
  }

  function WithErrors(nodes: seq<Node>, r: Ref, errors: seq<ComponentError>): (result: seq<Node>)
    requires r < |nodes|
    ensures Preserves(nodes, result) && (WF(nodes) ==> WF(result))
    ensures result == nodes[r := nodes[r].(errors := errors)]
  {
    var result := nodes[r := nodes[r].(errors := errors)];
    assert WF(nodes) ==> WF(result) by {
      if WF(nodes) {
        PreservesWF(nodes, result);
      }
    }
    result
  }

  /** `add_error`: appends to the node's errors. */
  function AddErrors(nodes: seq<Node>, r: Ref, errors: seq<ComponentError>): (result: seq<Node>)
    requires r < |nodes|
    ensures Preserves(nodes, result)
    ensures result == nodes[r := nodes[r].(errors := nodes[r].errors + errors)]
  {
    WithErrors(nodes, r, nodes[r].errors + errors)
  }

  /** `clear_errors`. */
  function ClearErrors(nodes: seq<Node>, r: Ref): (result: seq<Node>)
    requires r < |nodes|
    ensures Preserves(nodes, result)
    ensures result == nodes[r := nodes[r].(errors := [])]
  {
    WithErrors(nodes, r, [])
  }

  function WithIngredients(nodes: seq<Node>, r: Ref, xs: seq<Ingredient>): (result: seq<Node>)
    requires r < |nodes|
    ensures Preserves(nodes, result)
    ensures result == nodes[r := nodes[r].(ingredients := xs)]
  {
    nodes[r := nodes[r].(ingredients := xs)]
  }

  /** The `rate` attribute a node would answer with: a number, `None`, or no such attribute. */
  datatype RateAttr = RateValue(value: real) | RateNone | RateMissing

  function RateOf(n: Node): RateAttr
  {
    match n.kind
    case Building(cls, _, _, _, _, _, _, _) =>
      (match cls
       case ConveyanceClass(_, rate) => RateValue(rate)
       case StorageClass => RateNone
       case _ => RateMissing)
    case Resource(_, _, _, supply) =>
      if supply.Infinite? then (if supply.rate.Some? then RateValue(supply.rate.value) else RateNone) else RateMissing
    case _ => RateMissing
  }

  /** The building a target input belongs to answers `attached_to.rate`. */
  function TargetOwnerRate(nodes: seq<Node>, input: Ref): RateAttr
    requires WF(nodes) && IsInput(nodes, input)
  {
    RateOf(nodes[nodes[input].kind.owner])
  }

  /** Where the traversal goes from a node: owner of an input, target of an output, output of a
    * resource node, every output of a building in order. */
  function NextOf(s: Shape): seq<Ref>
  {
    match s
    case InShape(owner, _) => [owner]
    case OutShape(_, target) => if target.Some? then [target.value] else []
    case ResourceShape(output) => [output]
    case BuildingShape(_, outputs) => outputs
  }

  function Next(nodes: seq<Node>, r: Ref): (next: seq<Ref>)
    requires WF(nodes) && r < |nodes|
    ensures forall i :: 0 <= i < |next| ==> next[i] < |nodes|
  {
    assert KindOk(nodes, nodes[r].kind);
    NextOf(ShapeOf(nodes[r].kind))
  }

  /** `rank` strictly decreases along every traversal edge: the graph the traversal sees is acyclic. */
  predicate Ranked(nodes: seq<Node>, rank: seq<nat>)
  {
    WF(nodes) && |rank| == |nodes| &&
    forall r, i :: 0 <= r < |nodes| && 0 <= i < |Next(nodes, r)| ==> rank[Next(nodes, r)[i]] < rank[r]
  }

  lemma SameShapeRanked(a: seq<Node>, b: seq<Node>, rank: seq<nat>)
    requires Ranked(a, rank) && SameShape(a, b)
    ensures Ranked(b, rank)
    ensures forall r :: 0 <= r < |a| ==> Next(a, r) == Next(b, r)
  {
    SameShapeWF(a, b);
    assert forall r :: 0 <= r < |a| ==> Next(a, r) == Next(b, r);
  }

  predicate AllBelow(nodes: seq<Node>, rank: seq<nat>, cs: seq<Ref>, bound: nat)
    requires |rank| == |nodes|
  {
    forall i :: 0 <= i < |cs| ==> cs[i] < |nodes| && rank[cs[i]] < bound
  }

  /** The order in which the depth-first traversal visits nodes from `c`. */
  function Walk(nodes: seq<Node>, rank: seq<nat>, c: Ref): (w: seq<Ref>)
    requires Ranked(nodes, rank) && c < |nodes|
    decreases rank[c], 1, 0
  {
    [c] + WalkAll(nodes, rank, Next(nodes, c), rank[c])
  }

  function WalkAll(nodes: seq<Node>, rank: seq<nat>, cs: seq<Ref>, bound: nat): (w: seq<Ref>)
    requires Ranked(nodes, rank) && AllBelow(nodes, rank, cs, bound)
    decreases bound, 0, |cs|
  {
    if |cs| == 0 then [] else Walk(nodes, rank, cs[0]) + WalkAll(nodes, rank, cs[1..], bound)
  }
}
