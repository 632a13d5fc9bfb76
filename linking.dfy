/**
 * `Building.connect`: joining two buildings by a freshly built conveyance, from the first free
 * output of the upstream building whose type is the conveyance's to the first free input of the
 * downstream one.
 */
module Linking {
  import opened Wrappers
  import opened Base
  import opened Graph
  import opened Connections

  /** A conveyance class: its default name, what it carries, how fast, and how big it is. */
  datatype ConveyanceKind = ConveyanceKind(name: string, conveyance: ConveyanceType, rate: real, dimensions: Dimension)

  const BeltMk1 := ConveyanceKind("Conveyor Belt Mk.1", ConveyanceType.Belt, 60.0, Dimension(2.0, 1.0, 1.0))
  const BeltMk2 := ConveyanceKind("Conveyor Belt Mk.2", ConveyanceType.Belt, 120.0, Dimension(2.0, 1.0, 1.0))
  const PipelineMk1 := ConveyanceKind("Pipeline Mk. 1", ConveyanceType.Pipe, 300.0, Dimension(2.0, 1.0, 2.0))

  /** The fresh ids the new conveyance and its two ports draw. */
  datatype FreshIds = FreshIds(conveyance: string, input: string, output: string)

  /** How `connect` ended: it raised, found no free pair of ports (`False`), or built a conveyance. */
  datatype ConnectOutcome = ConnectRaised(error: PyError) | NoFreePorts | Connected(conveyance: Ref)

  /** A port with no partner whose type is `t`. */
  predicate Free(n: Node, t: ConveyanceType)
  {
    match n.kind
    case InputPort(_, c, source) => source.None? && c == t
    case OutputPort(_, c, target) => target.None? && c == t
    case _ => false
  }

  predicate InRange(nodes: seq<Node>, ports: seq<Ref>)
  {
    forall k :: 0 <= k < |ports| ==> ports[k] < |nodes|
  }

  /** The position of the first free port of type `t`, if any. */
  function FirstFree(nodes: seq<Node>, ports: seq<Ref>, t: ConveyanceType): (r: Option<nat>)
    requires InRange(nodes, ports)
    ensures r.Some? ==> r.value < |ports| && Free(nodes[ports[r.value]], t)
    ensures r.Some? ==> forall k :: 0 <= k < r.value ==> !Free(nodes[ports[k]], t)
    ensures r.None? <==> forall k :: 0 <= k < |ports| ==> !Free(nodes[ports[k]], t)
    decreases |ports|
  {
    if |ports| == 0 then None
    else if Free(nodes[ports[0]], t) then Some(0)
    else match FirstFree(nodes, ports[1..], t)
      case None => None
      case Some(k) => Some(k + 1)
  }

  /** The scan of `connect` over one port list, stopping at the first free compatible port. */
  method FindFree(nodes: seq<Node>, ports: seq<Ref>, t: ConveyanceType) returns (found: Option<nat>)
    requires InRange(nodes, ports)
    ensures found == FirstFree(nodes, ports, t)
  {
    found := None;
    var k := 0;
    while k < |ports|
      invariant 0 <= k <= |ports|
      invariant forall m :: 0 <= m < k ==> !Free(nodes[ports[m]], t)
    {
      if Free(nodes[ports[k]], t) {
        found := Some(k);
        return;
      }
      k := k + 1;
    }
  }

  /** The name `connect` gives when none (or an empty one) is passed. */
  function DefaultName(here: string, target: string, connectOutput: bool): string
  {
    if connectOutput then "\"" + here + "\" to \"" + target + "\"" else target + "_to_" + here
  }

  function ConveyanceName(given: Option<string>, here: string, target: string, connectOutput: bool): (name: string)
    ensures given.Some? && given.value != "" ==> name == given.value
    ensures given.None? || given.value == "" ==> name == DefaultName(here, target, connectOutput)
  {
    if given.Some? && given.value != "" then given.value else DefaultName(here, target, connectOutput)
  }

  /** The nodes of a new conveyance at index `c`: the conveyance, its input, its output. */
  function ConveyanceNodes(c: nat, kind: ConveyanceKind, ids: FreshIds): seq<Node>
  {
    [Node(Meta(ids.conveyance, kind.name, map[]), false, None, [], [],
       Building(ConveyanceClass(kind.conveyance, kind.rate), BuildingType.Conveyance, None, 1.0, false,
         kind.dimensions, [c + 1], [c + 2])),
     Node(Meta(ids.input, "", map[]), false, None, [], [], InputPort(c, kind.conveyance, None)),
     Node(Meta(ids.output, "", map[]), false, None, [], [], OutputPort(c, kind.conveyance, None))]
  }

  /** Building the conveyance keeps the arena well formed and changes no existing node. */
  function Allocate(nodes: seq<Node>, kind: ConveyanceKind, ids: FreshIds): (result: seq<Node>)
    requires WF(nodes)
    ensures WF(result) && |result| == |nodes| + 3 && result[..|nodes|] == nodes
    ensures IsBuilding(result, |nodes|) && IsInput(result, |nodes| + 1) && IsOutput(result, |nodes| + 2)
    ensures result[|nodes|..] == ConveyanceNodes(|nodes|, kind, ids)
  {
    var result := nodes + ConveyanceNodes(|nodes|, kind, ids);
    forall r | 0 <= r < |result|
      ensures KindOk(result, result[r].kind)
    {
      if r < |nodes| {
        assert KindOk(nodes, nodes[r].kind);
        assert result[r] == nodes[r];
      }
    }
    assert result[..|nodes|] == nodes;
    result
  }

  /** `connector.name = ...`: renaming a node keeps the arena well formed. */
  function Rename(nodes: seq<Node>, c: Ref, name: string): (result: seq<Node>)
    requires WF(nodes) && c < |nodes|
    ensures WF(result)
    ensures result == nodes[c := nodes[c].(meta := nodes[c].meta.(name := name))]
  {
    var result := nodes[c := nodes[c].(meta := nodes[c].meta.(name := name))];
    assert SameTags(nodes, result);
    assert forall q :: 0 <= q < |result| ==> KindOk(result, result[q].kind) by {
      forall q | 0 <= q < |result|
        ensures KindOk(result, result[q].kind)
      {
        KindOkTransfer(nodes, result, nodes[q].kind);
      }
    }
    result
  }

  /** The ports on the upstream and downstream side: which building gives the output depends on the direction. */
  function Sides(nodes: seq<Node>, here: Ref, target: Ref, connectOutput: bool): (sides: (seq<Ref>, seq<Ref>))
    requires IsBuilding(nodes, here) && IsBuilding(nodes, target)
    ensures WF(nodes) ==> AllOutputs(nodes, sides.0) && AllInputs(nodes, sides.1)
  {
    assert WF(nodes) ==> KindOk(nodes, nodes[here].kind) && KindOk(nodes, nodes[target].kind);
    if connectOutput then (nodes[here].kind.outputs, nodes[target].kind.inputs)
    else (nodes[target].kind.outputs, nodes[here].kind.inputs)
  }

  lemma SidesOk(nodes: seq<Node>, here: Ref, target: Ref, connectOutput: bool)
    requires WF(nodes) && IsBuilding(nodes, here) && IsBuilding(nodes, target)
    ensures var (ups, downs) := Sides(nodes, here, target, connectOutput);
      (forall k :: 0 <= k < |ups| ==> IsOutput(nodes, ups[k])) && (forall k :: 0 <= k < |downs| ==> IsInput(nodes, downs[k]))
  {
    assert KindOk(nodes, nodes[here].kind);
    assert KindOk(nodes, nodes[target].kind);
  }

  /**
   * The successful end of `connect`: the new conveyance is built, `up` feeds its input, its
   * output feeds `down`, it is named `title`, and no other node changes.
   */
  function Wire(nodes: seq<Node>, up: Ref, down: Ref, kind: ConveyanceKind, ids: FreshIds, title: string): (result: seq<Node>)
    requires WF(nodes) && IsOutput(nodes, up) && IsInput(nodes, down)
    ensures WF(result) && |result| == |nodes| + 3
    ensures result[up] == nodes[up].(kind := nodes[up].kind.(target := Some(|nodes| + 1)))
    ensures result[down] == nodes[down].(kind := nodes[down].kind.(source := Some(|nodes| + 2)))
    ensures result[|nodes|] == ConveyanceNodes(|nodes|, kind, ids)[0].(meta := Meta(ids.conveyance, title, map[]))
    ensures result[|nodes| + 1] == ConveyanceNodes(|nodes|, kind, ids)[1].(kind := InputPort(|nodes|, kind.conveyance, Some(up)))
    ensures result[|nodes| + 2] == ConveyanceNodes(|nodes|, kind, ids)[2].(kind := OutputPort(|nodes|, kind.conveyance, Some(down)))
    ensures forall q :: 0 <= q < |nodes| && q != up && q != down ==> result[q] == nodes[q]
  {
    var c := |nodes|;
    var n1 := Allocate(nodes, kind, ids);
    assert n1[c] == ConveyanceNodes(c, kind, ids)[0];
    assert n1[c + 1] == ConveyanceNodes(c, kind, ids)[1];
    assert n1[c + 2] == ConveyanceNodes(c, kind, ids)[2];
    assert forall q :: 0 <= q < c ==> n1[q] == nodes[q];
    var n2 := Link(n1, up, c + 1);
    assert n2[c + 2] == n1[c + 2] && n2[down] == n1[down];
    var n3 := Link(n2, c + 2, down);
    assert n3[c] == n1[c] && n3[up] == n2[up] && n3[c + 1] == n2[c + 1];
    assert n3[down] == nodes[down].(kind := nodes[down].kind.(source := Some(c + 2)));
    var result := Rename(n3, c, title);
    assert result[down] == n3[down] && result[up] == n3[up];
    forall q | 0 <= q < c && q != up && q != down
      ensures result[q] == nodes[q]
    {
      assert n2[q] == n1[q];
      assert n3[q] == n2[q];
    }
    result
  }

  /**
   * `Building.connect(target, conveyance, name, connect_output)` on the arena: the new
   * conveyance, when built, takes index `|nodes|` and its input and output the two after it.
   */
  function BuildingConnect(nodes: seq<Node>, here: Ref, target: Ref, kind: ConveyanceKind, name: Option<string>,
                           connectOutput: bool, ids: FreshIds): (r: (ConnectOutcome, seq<Node>))
    requires WF(nodes) && IsBuilding(nodes, here) && target < |nodes|
    ensures WF(r.1)
  {
    if !IsBuilding(nodes, target) then (ConnectRaised(TypeError), nodes)
    else
      SidesOk(nodes, here, target, connectOutput);
      var (ups, downs) := Sides(nodes, here, target, connectOutput);
      var o := FirstFree(nodes, ups, kind.conveyance);
      var i := FirstFree(nodes, downs, kind.conveyance);
      if o.None? || i.None? then (NoFreePorts, nodes)
      else
        var title := ConveyanceName(name, nodes[here].meta.name, nodes[target].meta.name, connectOutput);
        (Connected(|nodes|), Wire(nodes, ups[o.value], downs[i.value], kind, ids, title))
  }

  /**
   * What `connect` promises: a target that is not a building raises TypeError and changes
   * nothing; with no free compatible output upstream or no free compatible input downstream it
   * returns `False` and links nothing; otherwise the first free compatible upstream output and
   * the first free compatible downstream input are wired through the new conveyance (`Wire`),
   * which carries the given name or the default one.
   */
  lemma BuildingConnectSpec(nodes: seq<Node>, here: Ref, target: Ref, kind: ConveyanceKind, name: Option<string>,
                            connectOutput: bool, ids: FreshIds)
    requires WF(nodes) && IsBuilding(nodes, here) && target < |nodes|
    ensures BuildingConnect(nodes, here, target, kind, name, connectOutput, ids).0 == ConnectRaised(TypeError) <==>
      !IsBuilding(nodes, target)
    ensures BuildingConnect(nodes, here, target, kind, name, connectOutput, ids).0.ConnectRaised? ||
            BuildingConnect(nodes, here, target, kind, name, connectOutput, ids).0.NoFreePorts? ==>
      BuildingConnect(nodes, here, target, kind, name, connectOutput, ids).1 == nodes
  {
    if IsBuilding(nodes, target) {
      SidesOk(nodes, here, target, connectOutput);
    }
  }

  /** Between two buildings, `connect` returns `False` exactly when one side has no free compatible port. */
  lemma BuildingConnectRefuses(nodes: seq<Node>, here: Ref, target: Ref, kind: ConveyanceKind, name: Option<string>,
                               connectOutput: bool, ids: FreshIds)
    requires WF(nodes) && IsBuilding(nodes, here) && IsBuilding(nodes, target)
    ensures BuildingConnect(nodes, here, target, kind, name, connectOutput, ids).0.NoFreePorts? <==>
      (forall k :: 0 <= k < |Sides(nodes, here, target, connectOutput).0| ==>
        !Free(nodes[Sides(nodes, here, target, connectOutput).0[k]], kind.conveyance)) ||
      (forall k :: 0 <= k < |Sides(nodes, here, target, connectOutput).1| ==>
        !Free(nodes[Sides(nodes, here, target, connectOutput).1[k]], kind.conveyance))
  {
    SidesOk(nodes, here, target, connectOutput);
  }

  /** Otherwise the first free compatible ports on each side are wired through the new conveyance. */
  lemma BuildingConnectWires(nodes: seq<Node>, here: Ref, target: Ref, kind: ConveyanceKind, name: Option<string>,
                             connectOutput: bool, ids: FreshIds)
    requires WF(nodes) && IsBuilding(nodes, here) && IsBuilding(nodes, target)
    requires BuildingConnect(nodes, here, target, kind, name, connectOutput, ids).0.Connected?
    ensures InRange(nodes, Sides(nodes, here, target, connectOutput).0)
    ensures InRange(nodes, Sides(nodes, here, target, connectOutput).1)
    ensures FirstFree(nodes, Sides(nodes, here, target, connectOutput).0, kind.conveyance).Some?
    ensures FirstFree(nodes, Sides(nodes, here, target, connectOutput).1, kind.conveyance).Some?
    ensures BuildingConnect(nodes, here, target, kind, name, connectOutput, ids).0.conveyance == |nodes|
    ensures BuildingConnect(nodes, here, target, kind, name, connectOutput, ids).1 ==
      Wire(nodes,
        Sides(nodes, here, target, connectOutput).0[FirstFree(nodes, Sides(nodes, here, target, connectOutput).0, kind.conveyance).value],
        Sides(nodes, here, target, connectOutput).1[FirstFree(nodes, Sides(nodes, here, target, connectOutput).1, kind.conveyance).value],
        kind, ids, ConveyanceName(name, nodes[here].meta.name, nodes[target].meta.name, connectOutput))
  {
    SidesOk(nodes, here, target, connectOutput);
  }

  /** The end of the imperative `connect`: build the conveyance, connect both of its ports, name it. */
  method BuildConveyance(h: Heap, up: Ref, down: Ref, kind: ConveyanceKind, ids: FreshIds, title: string)
    requires WF(h.nodes) && IsOutput(h.nodes, up) && IsInput(h.nodes, down)
    requires h.nodes[up].kind.conveyance == kind.conveyance == h.nodes[down].kind.conveyance
    modifies h
    ensures h.nodes == Wire(old(h.nodes), up, down, kind, ids, title)
  {
    var c := |h.nodes|;
    h.nodes := Allocate(h.nodes, kind, ids);
    assert h.nodes[up] == old(h.nodes)[up] && h.nodes[down] == old(h.nodes)[down];
    var raised := ConnectOutput(h, up, c + 1);
    assert raised.None?;
    raised := ConnectOutput(h, c + 2, down);
    assert raised.None?;
    h.nodes := Rename(h.nodes, c, title);
  }

  /** The imperative `connect`: two scans, the new conveyance, two `connect` calls, the name. */
  method Connect(h: Heap, here: Ref, target: Ref, kind: ConveyanceKind, name: Option<string>, connectOutput: bool,
                 ids: FreshIds) returns (outcome: ConnectOutcome)
    requires WF(h.nodes) && IsBuilding(h.nodes, here) && target < |h.nodes|
    modifies h
    ensures (outcome, h.nodes) == BuildingConnect(old(h.nodes), here, target, kind, name, connectOutput, ids)
  {
    if !IsBuilding(h.nodes, target) {
      return ConnectRaised(TypeError);
    }
    SidesOk(h.nodes, here, target, connectOutput);
    var (ups, downs) := Sides(h.nodes, here, target, connectOutput);
    var o := FindFree(h.nodes, ups, kind.conveyance);
    var i := FindFree(h.nodes, downs, kind.conveyance);
    var title := ConveyanceName(name, h.nodes[here].meta.name, h.nodes[target].meta.name, connectOutput);
    if o.None? || i.None? {
      return NoFreePorts;
    }
    var up, down := ups[o.value], downs[i.value];
    assert IsOutput(h.nodes, up) && IsInput(h.nodes, down);
    var c := |h.nodes|;
    BuildConveyance(h, up, down, kind, ids, title);
    outcome := Connected(c);
  }
}
