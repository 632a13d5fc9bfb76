/**
 * The pipeline junction cross of the older library, written against the current component
 * model: a pipe splitter/merger with a configurable number of ports (at most four in all), a
 * check that only one fluid flows through it, and a process step that shares the incoming flow
 * among the connected outputs by repeated even passes, never giving an output more than the pipe
 * behind it carries.
 */
module Junction {
  import opened Wrappers
  import opened Base
  import opened Text
  import opened Graph
  import opened Processing
  import opened Transport
  import opened Buildings

  // ---------------------------------------------------------------------------------------------
  // set_connections

  /** The counts `set_connections` accepts: at most four ports, at least one input. */
  predicate Allowed(ins: int, outs: int)
  {
    ins + outs <= 4 && ins >= 1 && outs >= 0
  }

  /** An output port with its link to the input it fed removed. */
  function Untarget(x: Node): Node
  {
    if x.kind.OutputPort? then x.(kind := x.kind.(target := None)) else x
  }

  /** An input port with its link to the output feeding it removed. */
  function Unsource(x: Node): Node
  {
    if x.kind.InputPort? then x.(kind := x.kind.(source := None)) else x
  }

  /** The output feeding `p`, when `p` is an input port that is fed. */
  function SourceRef(nodes: seq<Node>, p: Ref): Option<Ref>
  {
    if p < |nodes| && nodes[p].kind.InputPort? then nodes[p].kind.source else None
  }

  /** The input `p` feeds, when `p` is an output port that feeds one. */
  function TargetRef(nodes: seq<Node>, p: Ref): Option<Ref>
  {
    if p < |nodes| && nodes[p].kind.OutputPort? then nodes[p].kind.target else None
  }

  /** `q` is the source of one of the input ports `ports`. */
  predicate Sends(nodes: seq<Node>, ports: seq<Ref>, q: Ref)
  {
    exists m :: 0 <= m < |ports| && SourceRef(nodes, ports[m]) == Some(q)
  }

  /** `q` is the target of one of the output ports `ports`. */
  predicate Receives(nodes: seq<Node>, ports: seq<Ref>, q: Ref)
  {
    exists m :: 0 <= m < |ports| && TargetRef(nodes, ports[m]) == Some(q)
  }

  /** `if i.source: i.source.target = None` for one input port `p`. */
  function CutSource(nodes: seq<Node>, p: Ref): (result: seq<Node>)
    requires WF(nodes) && IsInput(nodes, p)
    ensures WF(result) && SameTags(nodes, result)
  {
    var s := nodes[p].kind.source;
    if s.None? then nodes
    else
      assert KindOk(nodes, nodes[p].kind);
      var result := nodes[s.value := Untarget(nodes[s.value])];
      assert SameTags(nodes, result);
      assert forall q :: 0 <= q < |result| ==> KindOk(result, result[q].kind) by {
        forall q | 0 <= q < |result|
          ensures KindOk(result, result[q].kind)
        {
          KindOkTransfer(nodes, result, nodes[q].kind);
        }
      }
      result
  }

  /** What `CutSource` writes, for the loop that does it in place. */
  lemma CutSourceAt(nodes: seq<Node>, p: Ref)
    requires WF(nodes) && IsInput(nodes, p)
    ensures var s := nodes[p].kind.source;
      s.Some? ==> s.value < |nodes| && CutSource(nodes, p) == nodes[s.value := Untarget(nodes[s.value])]
    ensures nodes[p].kind.source.None? ==> CutSource(nodes, p) == nodes
  {
    assert KindOk(nodes, nodes[p].kind);
  }

  /** `if o.target: o.target.source = None` for one output port `p`. */
  function CutTarget(nodes: seq<Node>, p: Ref): (result: seq<Node>)
    requires WF(nodes) && IsOutput(nodes, p)
    ensures WF(result) && SameTags(nodes, result)
  {
    var t := nodes[p].kind.target;
    if t.None? then nodes
    else
      assert KindOk(nodes, nodes[p].kind);
      var result := nodes[t.value := Unsource(nodes[t.value])];
      assert SameTags(nodes, result);
      assert forall q :: 0 <= q < |result| ==> KindOk(result, result[q].kind) by {
        forall q | 0 <= q < |result|
          ensures KindOk(result, result[q].kind)
        {
          KindOkTransfer(nodes, result, nodes[q].kind);
        }
      }
      result
  }

  /** The first loop of `set_connections`, over the junction's inputs in order. */
  function CutSources(nodes: seq<Node>, ports: seq<Ref>): (result: seq<Node>)
    requires WF(nodes) && AllInputs(nodes, ports)
    ensures WF(result) && SameTags(nodes, result)
    decreases |ports|
  {
    if |ports| == 0 then nodes
    else
      var next := CutSource(nodes, ports[0]);
      assert AllInputs(next, ports[1..]) by {
        forall m | 0 <= m < |ports[1..]|
          ensures IsInput(next, ports[1..][m])
        {
          assert ports[1..][m] == ports[m + 1];
          assert SameTag(nodes[ports[m + 1]].kind, next[ports[m + 1]].kind);
        }
      }
      CutSources(next, ports[1..])
  }

  /** The second loop of `set_connections`, over the junction's outputs in order. */
  function CutTargets(nodes: seq<Node>, ports: seq<Ref>): (result: seq<Node>)
    requires WF(nodes) && AllOutputs(nodes, ports)
    ensures WF(result) && SameTags(nodes, result)
    decreases |ports|
  {
    if |ports| == 0 then nodes
    else
      var next := CutTarget(nodes, ports[0]);
      assert AllOutputs(next, ports[1..]) by {
        forall m | 0 <= m < |ports[1..]|
          ensures IsOutput(next, ports[1..][m])
        {
          assert ports[1..][m] == ports[m + 1];
          assert SameTag(nodes[ports[m + 1]].kind, next[ports[m + 1]].kind);
        }
      }
      CutTargets(next, ports[1..])
  }

  /** `Sends` over a list, split into its head and tail. */
  lemma SendsCons(a: seq<Node>, b: seq<Node>, ports: seq<Ref>, q: Ref)
    requires |ports| > 0 && forall p :: SourceRef(a, p) == SourceRef(b, p)
    ensures Sends(a, ports, q) <==> SourceRef(a, ports[0]) == Some(q) || Sends(b, ports[1..], q)
  {
    if Sends(b, ports[1..], q) {
      var m :| 0 <= m < |ports[1..]| && SourceRef(b, ports[1..][m]) == Some(q);
      assert SourceRef(a, ports[m + 1]) == Some(q);
    }
    if Sends(a, ports, q) && SourceRef(a, ports[0]) != Some(q) {
      var m :| 0 <= m < |ports| && SourceRef(a, ports[m]) == Some(q);
      assert ports[1..][m - 1] == ports[m];
    }
  }

  /** `Receives` over a list, split into its head and tail. */
  lemma ReceivesCons(a: seq<Node>, b: seq<Node>, ports: seq<Ref>, q: Ref)
    requires |ports| > 0 && forall p :: TargetRef(a, p) == TargetRef(b, p)
    ensures Receives(a, ports, q) <==> TargetRef(a, ports[0]) == Some(q) || Receives(b, ports[1..], q)
  {
    if Receives(b, ports[1..], q) {
      var m :| 0 <= m < |ports[1..]| && TargetRef(b, ports[1..][m]) == Some(q);
      assert TargetRef(a, ports[m + 1]) == Some(q);
    }
    if Receives(a, ports, q) && TargetRef(a, ports[0]) != Some(q) {
      var m :| 0 <= m < |ports| && TargetRef(a, ports[m]) == Some(q);
      assert ports[1..][m - 1] == ports[m];
    }
  }

  /**
   * After the first loop, every output that fed one of `ports` feeds nothing, and every other
   * node is as it was.
   */
  lemma {:induction false} CutSourcesSpec(nodes: seq<Node>, ports: seq<Ref>, q: Ref)
    requires WF(nodes) && AllInputs(nodes, ports) && q < |nodes|
    ensures CutSources(nodes, ports)[q] == if Sends(nodes, ports, q) then Untarget(nodes[q]) else nodes[q]
    decreases |ports|
  {
    if |ports| > 0 {
      var next := CutSource(nodes, ports[0]);
      assert CutSources(nodes, ports) == CutSources(next, ports[1..]);
      CutSourcesSpec(next, ports[1..], q);
      assert forall p :: SourceRef(nodes, p) == SourceRef(next, p);
      SendsCons(nodes, next, ports, q);
    }
  }

  /**
   * After the second loop, every input that one of `ports` fed has no source, and every other
   * node is as it was.
   */
  lemma {:induction false} CutTargetsSpec(nodes: seq<Node>, ports: seq<Ref>, q: Ref)
    requires WF(nodes) && AllOutputs(nodes, ports) && q < |nodes|
    ensures CutTargets(nodes, ports)[q] == if Receives(nodes, ports, q) then Unsource(nodes[q]) else nodes[q]
    decreases |ports|
  {
    if |ports| > 0 {
      var next := CutTarget(nodes, ports[0]);
      assert CutTargets(nodes, ports) == CutTargets(next, ports[1..]);
      CutTargetsSpec(next, ports[1..], q);
      assert forall p :: TargetRef(nodes, p) == TargetRef(next, p);
      ReceivesCons(nodes, next, ports, q);
    }
  }

  /** `[a, a + 1, ..., a + n - 1]`. */
  function Range(a: nat, n: nat): (r: seq<Ref>)
    ensures |r| == n && forall m :: 0 <= m < n ==> r[m] == a + m
  {
    seq(n, m => a + m)
  }

  /** The fresh pipe ports `set_connections` makes, `ins` inputs then `outs` outputs, owned by `j`. */
  function NewPorts(j: Ref, ids: seq<string>, ins: nat, outs: nat): (r: seq<Node>)
    requires |ids| == ins + outs
    ensures |r| == ins + outs
    ensures forall m :: 0 <= m < ins ==>
      r[m] == Node(Meta(ids[m], "", map[]), false, None, [], [], InputPort(j, ConveyanceType.Pipe, None))
    ensures forall m :: ins <= m < ins + outs ==>
      r[m] == Node(Meta(ids[m], "", map[]), false, None, [], [], OutputPort(j, ConveyanceType.Pipe, None))
  {
    seq(ins + outs, m requires 0 <= m < ins + outs =>
      if m < ins then Node(Meta(ids[m], "", map[]), false, None, [], [], InputPort(j, ConveyanceType.Pipe, None))
      else Node(Meta(ids[m], "", map[]), false, None, [], [], OutputPort(j, ConveyanceType.Pipe, None)))
  }

  /** The junction `j` with fresh ports appended to the arena and listed as its only ports. */
  function Refit(nodes: seq<Node>, j: Ref, ids: seq<string>, ins: nat, outs: nat): (result: seq<Node>)
    requires WF(nodes) && IsBuilding(nodes, j) && |ids| == ins + outs
    ensures WF(result) && |result| == |nodes| + ins + outs
    ensures result[j] == nodes[j].(kind := nodes[j].kind.(inputs := Range(|nodes|, ins), outputs := Range(|nodes| + ins, outs)))
    ensures forall q :: 0 <= q < |nodes| && q != j ==> result[q] == nodes[q]
    ensures forall m :: 0 <= m < ins + outs ==> result[|nodes| + m] == NewPorts(j, ids, ins, outs)[m]
  {
    var grown := nodes + NewPorts(j, ids, ins, outs);
    var k := nodes[j].kind.(inputs := Range(|nodes|, ins), outputs := Range(|nodes| + ins, outs));
    var result := grown[j := nodes[j].(kind := k)];
    forall r | 0 <= r < |result|
      ensures KindOk(result, result[r].kind)
    {
      if r < |nodes| && r != j {
        assert KindOk(nodes, nodes[r].kind);
        assert result[r] == nodes[r];
      }
    }
    result
  }

  /** Both loops of `set_connections`: the old ports of junction `j` lose their links. */
  function Unlinked(nodes: seq<Node>, j: Ref): (result: seq<Node>)
    requires WF(nodes) && IsBuilding(nodes, j)
    ensures WF(result) && SameTags(nodes, result) && result[j] == nodes[j]
  {
    var k := nodes[j].kind;
    assert KindOk(nodes, k);
    var cut1 := CutSources(nodes, k.inputs);
    PortsKept(nodes, cut1, k.outputs);
    CutSourcesKeepsBuilding(nodes, k.inputs, j);
    CutTargetsKeepsBuilding(cut1, k.outputs, j);
    var result := CutTargets(cut1, k.outputs);
    SameTagsTrans(nodes, cut1, result);
    result
  }

  /** The first loop leaves every building as it was: only outputs are sources. */
  lemma CutSourcesKeepsBuilding(nodes: seq<Node>, ports: seq<Ref>, b: Ref)
    requires WF(nodes) && AllInputs(nodes, ports) && IsBuilding(nodes, b)
    ensures CutSources(nodes, ports)[b] == nodes[b]
  {
    CutSourcesSpec(nodes, ports, b);
  }

  /** The second loop leaves every building as it was: only inputs are targets. */
  lemma CutTargetsKeepsBuilding(nodes: seq<Node>, ports: seq<Ref>, b: Ref)
    requires WF(nodes) && AllOutputs(nodes, ports) && IsBuilding(nodes, b)
    ensures CutTargets(nodes, ports)[b] == nodes[b]
  {
    CutTargetsSpec(nodes, ports, b);
  }

  /**
   * `PipelineJunctionCross.set_connections(inputs, outputs)`: the counts are checked, every link
   * of the old ports is cut, and fresh pipe ports named by `ids` replace them.
   */
  function SetConnections(nodes: seq<Node>, j: Ref, ins: int, outs: int, ids: seq<string>): (r: Result<seq<Node>, PyError>)
    requires WF(nodes) && IsBuilding(nodes, j)
    requires Allowed(ins, outs) ==> |ids| == ins + outs
    ensures r.Failure? <==> !Allowed(ins, outs)
    ensures r.Failure? ==> r.error == ValueError
    ensures r.Success? ==> WF(r.value) && |r.value| == |nodes| + ins + outs
  {
    if ins + outs > 4 || ins < 1 || outs < 0 then Failure(ValueError)
    else
      var cut := Unlinked(nodes, j);
      assert SameTag(nodes[j].kind, cut[j].kind);
      Success(Refit(cut, j, ids, ins, outs))
  }

  /** An old output of the junction still fed `q` after the first loop cut the outputs feeding its inputs. */
  predicate Detached(nodes: seq<Node>, ins: seq<Ref>, outs: seq<Ref>, q: Ref)
  {
    exists m :: 0 <= m < |outs| && TargetRef(nodes, outs[m]) == Some(q) && !Sends(nodes, ins, outs[m])
  }

  /** The second loop sees the targets the first loop left. */
  lemma DetachedAfterCut(nodes: seq<Node>, ins: seq<Ref>, outs: seq<Ref>, q: Ref)
    requires WF(nodes) && AllInputs(nodes, ins)
    ensures Receives(CutSources(nodes, ins), outs, q) <==> Detached(nodes, ins, outs, q)
  {
    var cut := CutSources(nodes, ins);
    forall p: Ref
      ensures TargetRef(cut, p) == if Sends(nodes, ins, p) then None else TargetRef(nodes, p)
    {
      if p < |nodes| {
        CutSourcesSpec(nodes, ins, p);
      }
    }
    if Receives(cut, outs, q) {
      var m :| 0 <= m < |outs| && TargetRef(cut, outs[m]) == Some(q);
      assert TargetRef(nodes, outs[m]) == Some(q) && !Sends(nodes, ins, outs[m]);
    }
    if Detached(nodes, ins, outs, q) {
      var m :| 0 <= m < |outs| && TargetRef(nodes, outs[m]) == Some(q) && !Sends(nodes, ins, outs[m]);
      assert TargetRef(cut, outs[m]) == Some(q);
    }
  }

  /**
   * After `set_connections` the junction lists exactly the fresh ports: `ins` pipe inputs and
   * `outs` pipe outputs, all unlinked, owned by the junction and named by `ids`; nothing else
   * about the junction changes.
   */
  lemma SetConnectionsPorts(nodes: seq<Node>, j: Ref, ins: int, outs: int, ids: seq<string>)
    requires WF(nodes) && IsBuilding(nodes, j) && Allowed(ins, outs) && |ids| == ins + outs
    ensures SetConnections(nodes, j, ins, outs, ids).Success?
    ensures var r := SetConnections(nodes, j, ins, outs, ids).value;
      r[j] == nodes[j].(kind := nodes[j].kind.(inputs := Range(|nodes|, ins), outputs := Range(|nodes| + ins, outs))) &&
      (forall m :: 0 <= m < ins ==>
        r[|nodes| + m] == Node(Meta(ids[m], "", map[]), false, None, [], [], InputPort(j, ConveyanceType.Pipe, None))) &&
      (forall m :: ins <= m < ins + outs ==>
        r[|nodes| + m] == Node(Meta(ids[m], "", map[]), false, None, [], [], OutputPort(j, ConveyanceType.Pipe, None)))
  {
    var cut := Unlinked(nodes, j);
    var r := Refit(cut, j, ids, ins, outs);
    assert SetConnections(nodes, j, ins, outs, ids) == Success(r);
    var made := NewPorts(j, ids, ins, outs);
    forall m | 0 <= m < ins + outs
      ensures r[|nodes| + m] == made[m]
    {
      assert r[|cut| + m] == made[m];
    }
  }

  /**
   * Outside the junction, `set_connections` changes only remote ends: an output that fed one of
   * the junction's old inputs now feeds nothing, and an input that one of its old outputs still
   * fed after that now has no source.
   */
  lemma SetConnectionsUnlinks(nodes: seq<Node>, j: Ref, ins: int, outs: int, ids: seq<string>, q: Ref)
    requires WF(nodes) && IsBuilding(nodes, j) && Allowed(ins, outs) && |ids| == ins + outs
    requires q < |nodes| && q != j
    ensures SetConnections(nodes, j, ins, outs, ids).Success?
    ensures var k := nodes[j].kind;
      SetConnections(nodes, j, ins, outs, ids).value[q] ==
        if Sends(nodes, k.inputs, q) then Untarget(nodes[q])
        else if Detached(nodes, k.inputs, k.outputs, q) then Unsource(nodes[q])
        else nodes[q]
  {
    UnlinkedAt(nodes, j, q);
  }

  /** What both loops of `set_connections` leave at a node other than the junction. */
  lemma UnlinkedAt(nodes: seq<Node>, j: Ref, q: Ref)
    requires WF(nodes) && IsBuilding(nodes, j) && q < |nodes|
    ensures Unlinked(nodes, j)[q] ==
      if Sends(nodes, nodes[j].kind.inputs, q) then Untarget(nodes[q])
      else if Detached(nodes, nodes[j].kind.inputs, nodes[j].kind.outputs, q) then Unsource(nodes[q])
      else nodes[q]
  {
    var k := nodes[j].kind;
    assert KindOk(nodes, k);
    var cut1 := CutSources(nodes, k.inputs);
    CutSourcesSpec(nodes, k.inputs, q);
    PortsKept(nodes, cut1, k.outputs);
    CutTargetsSpec(cut1, k.outputs, q);
    DetachedAfterCut(nodes, k.inputs, k.outputs, q);
    SourcesAreOutputs(nodes);
    TargetsAreInputs(nodes);
  }

  lemma SourcesAreOutputs(nodes: seq<Node>)
    requires WF(nodes)
    ensures forall p: Ref :: SourceRef(nodes, p).Some? ==> IsOutput(nodes, SourceRef(nodes, p).value)
  {
    forall p: Ref | SourceRef(nodes, p).Some?
      ensures IsOutput(nodes, SourceRef(nodes, p).value)
    {
      assert KindOk(nodes, nodes[p].kind);
    }
  }

  lemma TargetsAreInputs(nodes: seq<Node>)
    requires WF(nodes)
    ensures forall p: Ref :: TargetRef(nodes, p).Some? ==> IsInput(nodes, TargetRef(nodes, p).value)
  {
    forall p: Ref | TargetRef(nodes, p).Some?
      ensures IsInput(nodes, TargetRef(nodes, p).value)
    {
      assert KindOk(nodes, nodes[p].kind);
    }
  }

  /** Ports keep their direction when no node changes kind. */
  lemma PortsKept(a: seq<Node>, b: seq<Node>, ports: seq<Ref>)
    requires SameTags(a, b)
    ensures AllInputs(a, ports) ==> AllInputs(b, ports)
    ensures AllOutputs(a, ports) ==> AllOutputs(b, ports)
  {
    forall m | 0 <= m < |ports| && ports[m] < |a|
      ensures SameTag(a[ports[m]].kind, b[ports[m]].kind)
    {
    }
  }

  lemma SameTagsTrans(a: seq<Node>, b: seq<Node>, c: seq<Node>)
    requires SameTags(a, b) && SameTags(b, c)
    ensures SameTags(a, c)
  {
    forall r | 0 <= r < |a|
      ensures SameTag(a[r].kind, c[r].kind)
    {
      assert SameTag(a[r].kind, b[r].kind) && SameTag(b[r].kind, c[r].kind);
    }
  }

  /** What `CutTarget` writes, for the loop that does it in place. */
  lemma CutTargetAt(nodes: seq<Node>, p: Ref)
    requires WF(nodes) && IsOutput(nodes, p)
    ensures var t := nodes[p].kind.target;
      t.Some? ==> t.value < |nodes| && CutTarget(nodes, p) == nodes[t.value := Unsource(nodes[t.value])]
    ensures nodes[p].kind.target.None? ==> CutTarget(nodes, p) == nodes
  {
    assert KindOk(nodes, nodes[p].kind);
  }

  /** One step of the first loop: cutting at `ports[i]` keeps the loop's invariant. */
  lemma CutSourcesStep(nodes0: seq<Node>, nodes: seq<Node>, ports: seq<Ref>, i: nat)
    requires WF(nodes0) && AllInputs(nodes0, ports)
    requires WF(nodes) && SameTags(nodes0, nodes) && AllInputs(nodes, ports) && i < |ports|
    requires CutSources(nodes, ports[i..]) == CutSources(nodes0, ports)
    ensures var next := CutSource(nodes, ports[i]);
      WF(next) && SameTags(nodes0, next) && AllInputs(next, ports) &&
      CutSources(next, ports[i + 1..]) == CutSources(nodes0, ports)
  {
    var next := CutSource(nodes, ports[i]);
    SameTagsTrans(nodes0, nodes, next);
    PortsKept(nodes, next, ports);
    assert ports[i..][0] == ports[i] && ports[i..][1..] == ports[i + 1..];
  }

  /** One step of the second loop: cutting at `ports[i]` keeps the loop's invariant. */
  lemma CutTargetsStep(nodes0: seq<Node>, nodes: seq<Node>, ports: seq<Ref>, i: nat)
    requires WF(nodes0) && AllOutputs(nodes0, ports)
    requires WF(nodes) && SameTags(nodes0, nodes) && AllOutputs(nodes, ports) && i < |ports|
    requires CutTargets(nodes, ports[i..]) == CutTargets(nodes0, ports)
    ensures var next := CutTarget(nodes, ports[i]);
      WF(next) && SameTags(nodes0, next) && AllOutputs(next, ports) &&
      CutTargets(next, ports[i + 1..]) == CutTargets(nodes0, ports)
  {
    var next := CutTarget(nodes, ports[i]);
    SameTagsTrans(nodes0, nodes, next);
    PortsKept(nodes, next, ports);
    assert ports[i..][0] == ports[i] && ports[i..][1..] == ports[i + 1..];
  }

  /** The first loop of `set_connections`: `for i in self.inputs: if i.source: i.source.target = None`. */
  method CutSourcesLoop(nodes0: seq<Node>, ports: seq<Ref>) returns (nodes: seq<Node>)
    requires WF(nodes0) && AllInputs(nodes0, ports)
    ensures nodes == CutSources(nodes0, ports)
  {
    nodes := nodes0;
    var i := 0;
    assert ports[i..] == ports;
    while i < |ports|
      invariant 0 <= i <= |ports|
      invariant WF(nodes) && SameTags(nodes0, nodes) && AllInputs(nodes, ports)
      invariant CutSources(nodes, ports[i..]) == CutSources(nodes0, ports)
    {
      var p := ports[i];
      var next := nodes;
      CutSourceAt(nodes, p);
      CutSourcesStep(nodes0, nodes, ports, i);
      if nodes[p].kind.source.Some? {
        var o := nodes[p].kind.source.value;
        next := nodes[o := Untarget(nodes[o])];
      }
      nodes := next;
      i := i + 1;
    }
    assert ports[i..] == [];
  }

  /** The second loop of `set_connections`: `for o in self.outputs: if o.target: o.target.source = None`. */
  method CutTargetsLoop(nodes0: seq<Node>, ports: seq<Ref>) returns (nodes: seq<Node>)
    requires WF(nodes0) && AllOutputs(nodes0, ports)
    ensures nodes == CutTargets(nodes0, ports)
  {
    nodes := nodes0;
    var i := 0;
    assert ports[i..] == ports;
    while i < |ports|
      invariant 0 <= i <= |ports|
      invariant WF(nodes) && SameTags(nodes0, nodes) && AllOutputs(nodes, ports)
      invariant CutTargets(nodes, ports[i..]) == CutTargets(nodes0, ports)
    {
      var p := ports[i];
      var next := nodes;
      CutTargetAt(nodes, p);
      CutTargetsStep(nodes0, nodes, ports, i);
      if nodes[p].kind.target.Some? {
        var t := nodes[p].kind.target.value;
        next := nodes[t := Unsource(nodes[t])];
      }
      nodes := next;
      i := i + 1;
    }
    assert ports[i..] == [];
  }

  /**
   * `set_connections` on the arena: the loops cut the old links in order, then the fresh ports
   * are made. A refused count changes nothing.
   */
  method SetJunctionConnections(h: Heap, j: Ref, ins: int, outs: int, ids: seq<string>) returns (raised: Option<PyError>)
    requires WF(h.nodes) && IsBuilding(h.nodes, j)
    requires Allowed(ins, outs) ==> |ids| == ins + outs
    modifies h
    ensures raised.Some? ==> h.nodes == old(h.nodes)
    ensures var r := SetConnections(old(h.nodes), j, ins, outs, ids);
      if r.Success? then raised.None? && h.nodes == r.value else raised == Some(r.error)
  {
    if ins + outs > 4 {
      return Some(ValueError);
    }
    if ins < 1 {
      return Some(ValueError);
    }
    if outs < 0 {
      return Some(ValueError);
    }
    var k := h.nodes[j].kind;
    assert KindOk(h.nodes, k);
    var nodes := CutSourcesLoop(h.nodes, k.inputs);
    assert AllOutputs(nodes, k.outputs) by {
      forall m | 0 <= m < |k.outputs|
        ensures IsOutput(nodes, k.outputs[m])
      {
        assert SameTag(h.nodes[k.outputs[m]].kind, nodes[k.outputs[m]].kind);
      }
    }
    nodes := CutTargetsLoop(nodes, k.outputs);
    assert nodes == Unlinked(h.nodes, j);
    h.nodes := Refit(nodes, j, ids, ins, outs);
    raised := None;
  }

  // ---------------------------------------------------------------------------------------------
  // can_process

  function ItemsOf(xs: seq<Ingredient>): (r: seq<Item>)
    ensures |r| == |xs| && forall k :: 0 <= k < |xs| ==> r[k] == xs[k].item
  {
    seq(|xs|, k requires 0 <= k < |xs| => xs[k].item)
  }

  /** The items of every ingredient at the ports `ins`, port by port, repeats included. */
  function InputItems(nodes: seq<Node>, ins: seq<Ref>): seq<Item>
    requires forall m :: 0 <= m < |ins| ==> ins[m] < |nodes|
    decreases |ins|
  {
    if |ins| == 0 then []
    else InputItems(nodes, ins[..|ins| - 1]) + ItemsOf(nodes[ins[|ins| - 1]].ingredients)
  }

  /** The distinct items of `xs`, in order of first appearance. */
  function Dedup(xs: seq<Item>): (r: seq<Item>)
    ensures forall x :: x in r <==> x in xs
    ensures forall a, b :: 0 <= a < b < |r| ==> r[a] != r[b]
    decreases |xs|
  {
    if |xs| == 0 then []
    else
      var d := Dedup(xs[..|xs| - 1]);
      assert xs == xs[..|xs| - 1] + [xs[|xs| - 1]];
      if xs[|xs| - 1] in d then d else d + [xs[|xs| - 1]]
  }

  lemma DedupSnoc(xs: seq<Item>, x: Item)
    ensures Dedup(xs + [x]) == if x in Dedup(xs) then Dedup(xs) else Dedup(xs) + [x]
  {
    assert (xs + [x])[..|xs|] == xs;
  }

  predicate AllSame(xs: seq<Item>)
  {
    forall a, b :: 0 <= a < |xs| && 0 <= b < |xs| ==> xs[a] == xs[b]
  }

  /** At most one distinct item exactly when all the items are the same. */
  lemma SingleFluid(xs: seq<Item>)
    ensures |Dedup(xs)| <= 1 <==> AllSame(xs)
  {
    var d := Dedup(xs);
    if |d| <= 1 {
      forall a, b | 0 <= a < |xs| && 0 <= b < |xs|
        ensures xs[a] == xs[b]
      {
        assert xs[a] in d && xs[b] in d;
      }
    }
    if |d| > 1 {
      assert d[0] != d[1];
      assert d[0] in xs && d[1] in xs;
    }
  }

  /** The warning for a junction that carries more than one fluid; `ct` is how many. */
  function TooManyFluids(ct: nat): ComponentError
  {
    ComponentError(Warning, "There are " + NatToString(ct) +
      " ingredients in this pipeline, but there can be no more than 1.")
  }

  function FluidCount(nodes: seq<Node>, j: Ref): nat
    requires WF(nodes) && IsBuilding(nodes, j)
  {
    assert KindOk(nodes, nodes[j].kind);
    |Dedup(InputItems(nodes, nodes[j].kind.inputs))|
  }

  /** `PipelineJunctionCross.can_process`: the junction refuses more than one distinct fluid. */
  function JunctionCheck(nodes: seq<Node>, j: Ref): (c: Check)
    requires WF(nodes) && IsBuilding(nodes, j)
  {
    var ct := FluidCount(nodes, j);
    if ct > 1 then Check([TooManyFluids(ct)], false) else Check([], true)
  }

  /**
   * The junction can process exactly when every ingredient at its inputs is of the same item;
   * otherwise its one error names how many items there are.
   */
  lemma JunctionCheckSpec(nodes: seq<Node>, j: Ref)
    requires WF(nodes) && IsBuilding(nodes, j)
    ensures KindOk(nodes, nodes[j].kind)
    ensures JunctionCheck(nodes, j).ok <==> AllSame(InputItems(nodes, nodes[j].kind.inputs))
    ensures JunctionCheck(nodes, j).ok <==> JunctionCheck(nodes, j).errors == []
    ensures !JunctionCheck(nodes, j).ok ==>
      JunctionCheck(nodes, j).errors == [TooManyFluids(|Dedup(InputItems(nodes, nodes[j].kind.inputs))|)]
  {
    assert KindOk(nodes, nodes[j].kind);
    var items := InputItems(nodes, nodes[j].kind.inputs);
    assert FluidCount(nodes, j) == |Dedup(items)|;
    SingleFluid(items);
  }

  /** The inner loop of `can_process`: the new items of one port's ingredients are appended. */
  method AddItems(items0: seq<Item>, ghost before: seq<Item>, xs: seq<Ingredient>) returns (items: seq<Item>)
    requires items0 == Dedup(before)
    ensures items == Dedup(before + ItemsOf(xs))
  {
    items := items0;
    assert before + ItemsOf(xs[..0]) == before;
    var k := 0;
    while k < |xs|
      invariant 0 <= k <= |xs|
      invariant items == Dedup(before + ItemsOf(xs[..k]))
    {
      var it := xs[k].item;
      assert ItemsOf(xs[..k + 1]) == ItemsOf(xs[..k]) + [it];
      assert before + ItemsOf(xs[..k + 1]) == (before + ItemsOf(xs[..k])) + [it];
      DedupSnoc(before + ItemsOf(xs[..k]), it);
      if it !in items {
        items := items + [it];
      }
      k := k + 1;
    }
    assert xs[..|xs|] == xs;
  }

  /** The outer loop of `can_process`, over the inputs. */
  method CollectItems(nodes: seq<Node>, ins: seq<Ref>) returns (items: seq<Item>)
    requires forall m :: 0 <= m < |ins| ==> ins[m] < |nodes|
    ensures items == Dedup(InputItems(nodes, ins))
  {
    items := [];
    var i := 0;
    while i < |ins|
      invariant 0 <= i <= |ins|
      invariant items == Dedup(InputItems(nodes, ins[..i]))
    {
      var xs := nodes[ins[i]].ingredients;
      items := AddItems(items, InputItems(nodes, ins[..i]), xs);
      assert ins[..i + 1][..i] == ins[..i];
      assert InputItems(nodes, ins[..i + 1]) == InputItems(nodes, ins[..i]) + ItemsOf(xs);
      i := i + 1;
    }
    assert ins[..|ins|] == ins;
  }

  /** `can_process` on the arena: a refusal is recorded on the junction. */
  method JunctionCanProcess(h: Heap, j: Ref) returns (ok: bool)
    requires WF(h.nodes) && IsBuilding(h.nodes, j)
    modifies h
    ensures var c := JunctionCheck(old(h.nodes), j);
      ok == c.ok && h.nodes == if c.ok then old(h.nodes) else AddErrors(old(h.nodes), j, c.errors)
  {
    assert KindOk(h.nodes, h.nodes[j].kind);
    var items := CollectItems(h.nodes, h.nodes[j].kind.inputs);
    var ct := |items|;
    if ct > 1 {
      h.nodes := AddErrors(h.nodes, j, [TooManyFluids(ct)]);
      return false;
    }
    return true;
  }

  // ---------------------------------------------------------------------------------------------
  // Sharing the flow among the outputs

  function Total(rs: seq<real>): real
    decreases |rs|
  {
    if |rs| == 0 then 0.0 else Total(rs[..|rs| - 1]) + rs[|rs| - 1]
  }

  lemma {:induction false} TotalUpdate(rs: seq<real>, i: nat, v: real)
    requires i < |rs|
    ensures Total(rs[i := v]) == Total(rs) - rs[i] + v
    decreases |rs|
  {
    var n := |rs| - 1;
    if i == n {
      assert rs[i := v][..n] == rs[..n];
    } else {
      assert rs[i := v][..n] == rs[..n][i := v];
      TotalUpdate(rs[..n], i, v);
    }
  }

  function Zeros(n: nat): (r: seq<real>)
    ensures |r| == n && forall i :: 0 <= i < n ==> r[i] == 0.0
  {
    seq(n, _ => 0.0)
  }

  lemma {:induction false} TotalZeros(n: nat)
    ensures Total(Zeros(n)) == 0.0
  {
    if n > 0 {
      assert Zeros(n)[..n - 1] == Zeros(n - 1);
      TotalZeros(n - 1);
    }
  }

  /** The state of the distribution: a rate per connected output, the rate still to give, an error. */
  datatype Pass = Pass(rates: seq<real>, remaining: real, error: Option<PyError>)

  /** `remaining_rate / num_unprocessed`. */
  function Ideal(remaining: real, left: nat): real
    requires left > 0
  {
    remaining / left as real
  }

  lemma IdealBounds(remaining: real, left: nat)
    requires left > 0
    ensures remaining >= 0.0 ==> 0.0 <= Ideal(remaining, left) <= remaining
    ensures left == 1 ==> Ideal(remaining, left) == remaining
  {
  }

  predicate InRange(u: seq<nat>, n: nat)
  {
    forall k :: 0 <= k < |u| ==> u[k] < n
  }

  /** Position `i` is among `u[j..]`. */
  predicate Visits(u: seq<nat>, j: nat, i: nat)
  {
    exists k :: j <= k < |u| && u[k] == i
  }

  predicate AllRated(caps: seq<RateAttr>)
  {
    forall m :: 0 <= m < |caps| ==> caps[m].RateValue?
  }

  /**
   * One pass of the `while` loop of `process`, from position `j` of the list `u` of outputs
   * still being filled: each output gets an even share of what remains, or is filled to the
   * capacity `caps` of the pipe it feeds. Reading a capacity that is not a number raises.
   */
  function PassFrom(rates: seq<real>, caps: seq<RateAttr>, u: seq<nat>, j: nat, remaining: real): (p: Pass)
    requires |rates| == |caps| && j <= |u| && InRange(u, |rates|)
    ensures |p.rates| == |rates|
    ensures p.error.None? <==> forall k :: j <= k < |u| ==> caps[u[k]].RateValue?
    decreases |u| - j
  {
    if j == |u| then Pass(rates, remaining, None)
    else
      var o := u[j];
      if !caps[o].RateValue? then Pass(rates, remaining, Some(RateError(caps[o])))
      else
        var ideal := Ideal(remaining, |u| - j);
        var capacity := caps[o].value - rates[o];
        if capacity >= ideal then PassFrom(rates[o := rates[o] + ideal], caps, u, j + 1, remaining - ideal)
        else PassFrom(rates[o := caps[o].value], caps, u, j + 1, remaining - capacity)
  }

  /** A pass raises the error of the first output it meets without a numeric rate. */
  lemma {:induction false} PassFromRaises(rates: seq<real>, caps: seq<RateAttr>, u: seq<nat>, j: nat, remaining: real)
    requires |rates| == |caps| && j <= |u| && InRange(u, |rates|)
    ensures var p := PassFrom(rates, caps, u, j, remaining);
      p.error.Some? ==>
        exists k :: j <= k < |u| && !caps[u[k]].RateValue? &&
          p.error.value == RateError(caps[u[k]]) && forall k' :: j <= k' < k ==> caps[u[k']].RateValue?
    decreases |u| - j
  {
    if j < |u| && caps[u[j]].RateValue? {
      var o := u[j];
      var ideal := Ideal(remaining, |u| - j);
      var capacity := caps[o].value - rates[o];
      var next := if capacity >= ideal then rates[o := rates[o] + ideal] else rates[o := caps[o].value];
      var rest := if capacity >= ideal then remaining - ideal else remaining - capacity;
      assert PassFrom(rates, caps, u, j, remaining) == PassFrom(next, caps, u, j + 1, rest);
      PassFromRaises(next, caps, u, j + 1, rest);
    }
  }

  /** A pass changes only the outputs it visits. */
  lemma {:induction false} PassFromFrame(rates: seq<real>, caps: seq<RateAttr>, u: seq<nat>, j: nat, remaining: real)
    requires |rates| == |caps| && j <= |u| && InRange(u, |rates|)
    ensures var p := PassFrom(rates, caps, u, j, remaining);
      forall i :: 0 <= i < |rates| && !Visits(u, j, i) ==> p.rates[i] == rates[i]
    decreases |u| - j
  {
    if j < |u| && caps[u[j]].RateValue? {
      var o := u[j];
      var ideal := Ideal(remaining, |u| - j);
      var capacity := caps[o].value - rates[o];
      var next := if capacity >= ideal then rates[o := rates[o] + ideal] else rates[o := caps[o].value];
      var rest := if capacity >= ideal then remaining - ideal else remaining - capacity;
      assert PassFrom(rates, caps, u, j, remaining) == PassFrom(next, caps, u, j + 1, rest);
      PassFromFrame(next, caps, u, j + 1, rest);
      forall i | 0 <= i < |rates| && !Visits(u, j, i)
        ensures PassFrom(next, caps, u, j + 1, rest).rates[i] == rates[i]
      {
        assert !Visits(u, j + 1, i) && i != o;
      }
    }
  }

  /** One output of a pass, for the loop that makes it in place. */
  lemma PassFromAt(rates: seq<real>, caps: seq<RateAttr>, u: seq<nat>, j: nat, remaining: real, ideal: real)
    requires |rates| == |caps| && j < |u| && InRange(u, |rates|)
    requires ideal == Ideal(remaining, |u| - j)
    ensures !caps[u[j]].RateValue? ==>
      PassFrom(rates, caps, u, j, remaining) == Pass(rates, remaining, Some(RateError(caps[u[j]])))
    ensures caps[u[j]].RateValue? && caps[u[j]].value - rates[u[j]] >= ideal ==>
      PassFrom(rates, caps, u, j, remaining) ==
      PassFrom(rates[u[j] := rates[u[j]] + ideal], caps, u, j + 1, remaining - ideal)
    ensures caps[u[j]].RateValue? && caps[u[j]].value - rates[u[j]] < ideal ==>
      PassFrom(rates, caps, u, j, remaining) ==
      PassFrom(rates[u[j] := caps[u[j]].value], caps, u, j + 1, remaining - (caps[u[j]].value - rates[u[j]]))
  {
  }

  /** A pass moves rate from what remains to the outputs and loses none. */
  lemma {:induction false} PassConserves(rates: seq<real>, caps: seq<RateAttr>, u: seq<nat>, j: nat, remaining: real)
    requires |rates| == |caps| && j <= |u| && InRange(u, |rates|)
    ensures var p := PassFrom(rates, caps, u, j, remaining);
      Total(p.rates) + p.remaining == Total(rates) + remaining
    decreases |u| - j
  {
    if j < |u| && caps[u[j]].RateValue? {
      var o := u[j];
      var ideal := Ideal(remaining, |u| - j);
      var capacity := caps[o].value - rates[o];
      var v := if capacity >= ideal then rates[o] + ideal else caps[o].value;
      var rest := if capacity >= ideal then remaining - ideal else remaining - capacity;
      assert v + rest == rates[o] + remaining;
      assert PassFrom(rates, caps, u, j, remaining) == PassFrom(rates[o := v], caps, u, j + 1, rest);
      TotalUpdate(rates, o, v);
      PassConserves(rates[o := v], caps, u, j + 1, rest);
    }
  }

  /** A pass never gives away more than remains. */
  lemma {:induction false} PassKeepsNonnegative(rates: seq<real>, caps: seq<RateAttr>, u: seq<nat>, j: nat, remaining: real)
    requires |rates| == |caps| && j <= |u| && InRange(u, |rates|) && remaining >= 0.0
    ensures PassFrom(rates, caps, u, j, remaining).remaining >= 0.0
    decreases |u| - j
  {
    if j < |u| && caps[u[j]].RateValue? {
      var o := u[j];
      var ideal := Ideal(remaining, |u| - j);
      var capacity := caps[o].value - rates[o];
      IdealBounds(remaining, |u| - j);
      if capacity >= ideal {
        PassKeepsNonnegative(rates[o := rates[o] + ideal], caps, u, j + 1, remaining - ideal);
      } else {
        PassKeepsNonnegative(rates[o := caps[o].value], caps, u, j + 1, remaining - capacity);
      }
    }
  }

  /** After a complete pass, every output it visited, and every output already within capacity, is within capacity. */
  lemma {:induction false} PassBounds(rates: seq<real>, caps: seq<RateAttr>, u: seq<nat>, j: nat, remaining: real)
    requires |rates| == |caps| && j <= |u| && InRange(u, |rates|)
    requires PassFrom(rates, caps, u, j, remaining).error.None?
    ensures var p := PassFrom(rates, caps, u, j, remaining);
      forall i :: 0 <= i < |rates| && caps[i].RateValue? && (rates[i] <= caps[i].value || Visits(u, j, i)) ==>
        p.rates[i] <= caps[i].value
    decreases |u| - j
  {
    if j < |u| {
      var o := u[j];
      var ideal := Ideal(remaining, |u| - j);
      var capacity := caps[o].value - rates[o];
      var next := if capacity >= ideal then rates[o := rates[o] + ideal] else rates[o := caps[o].value];
      var rest := if capacity >= ideal then remaining - ideal else remaining - capacity;
      assert PassFrom(rates, caps, u, j, remaining) == PassFrom(next, caps, u, j + 1, rest);
      PassBounds(next, caps, u, j + 1, rest);
      forall i | 0 <= i < |rates| && caps[i].RateValue? && (rates[i] <= caps[i].value || Visits(u, j, i))
        ensures next[i] <= caps[i].value || Visits(u, j + 1, i)
      {
        if i != o && Visits(u, j, i) {
          var k :| j <= k < |u| && u[k] == i;
          assert k != j;
        }
      }
    }
  }

  /** What a complete pass leaves over is zero unless the last output it visited is full. */
  lemma {:induction false} PassLast(rates: seq<real>, caps: seq<RateAttr>, u: seq<nat>, j: nat, remaining: real)
    requires |rates| == |caps| && j < |u| && InRange(u, |rates|)
    requires PassFrom(rates, caps, u, j, remaining).error.None?
    ensures var p := PassFrom(rates, caps, u, j, remaining);
      caps[u[|u| - 1]].RateValue? && (p.remaining == 0.0 || p.rates[u[|u| - 1]] == caps[u[|u| - 1]].value)
    decreases |u| - j
  {
    var o := u[j];
    var ideal := Ideal(remaining, |u| - j);
    var capacity := caps[o].value - rates[o];
    var next := if capacity >= ideal then rates[o := rates[o] + ideal] else rates[o := caps[o].value];
    var rest := if capacity >= ideal then remaining - ideal else remaining - capacity;
    assert PassFrom(rates, caps, u, j, remaining) == PassFrom(next, caps, u, j + 1, rest);
    if j + 1 < |u| {
      PassLast(next, caps, u, j + 1, rest);
    } else {
      IdealBounds(remaining, |u| - j);
    }
  }

  /** The positions `i..` whose rate is still below capacity: the list of unfilled outputs. */
  function UnfilledFrom(rates: seq<real>, caps: seq<RateAttr>, i: nat): (r: seq<nat>)
    requires |rates| == |caps| && i <= |rates| && AllRated(caps)
    ensures InRange(r, |rates|)
    ensures forall x: nat :: x in r <==> i <= x < |rates| && rates[x] < caps[x].value
    decreases |rates| - i
  {
    if i == |rates| then []
    else (if rates[i] < caps[i].value then [i] else []) + UnfilledFrom(rates, caps, i + 1)
  }

  function Unfilled(rates: seq<real>, caps: seq<RateAttr>): seq<nat>
    requires |rates| == |caps| && AllRated(caps)
  {
    UnfilledFrom(rates, caps, 0)
  }

  /** Fewer positions below capacity give a shorter list; strictly fewer, a strictly shorter one. */
  lemma {:induction false} UnfilledMono(a: seq<real>, b: seq<real>, caps: seq<RateAttr>, i: nat)
    requires |a| == |b| == |caps| && i <= |a| && AllRated(caps)
    requires forall x :: i <= x < |a| && b[x] < caps[x].value ==> a[x] < caps[x].value
    ensures |UnfilledFrom(b, caps, i)| <= |UnfilledFrom(a, caps, i)|
    ensures (exists x :: i <= x < |a| && a[x] < caps[x].value && !(b[x] < caps[x].value)) ==>
      |UnfilledFrom(b, caps, i)| < |UnfilledFrom(a, caps, i)|
    decreases |a| - i
  {
    if i < |a| {
      UnfilledMono(a, b, caps, i + 1);
      var na := |UnfilledFrom(a, caps, i + 1)|;
      var nb := |UnfilledFrom(b, caps, i + 1)|;
      assert |UnfilledFrom(a, caps, i)| == (if a[i] < caps[i].value then 1 else 0) + na;
      assert |UnfilledFrom(b, caps, i)| == (if b[i] < caps[i].value then 1 else 0) + nb;
      if exists x :: i <= x < |a| && a[x] < caps[x].value && !(b[x] < caps[x].value) {
        var x :| i <= x < |a| && a[x] < caps[x].value && !(b[x] < caps[x].value);
        if x != i {
          assert i + 1 <= x;
          assert nb < na;
        }
      }
    }
  }

  /** A pass over the unfilled outputs that leaves rate over fills at least one of them. */
  lemma PassShrinks(rates: seq<real>, caps: seq<RateAttr>, remaining: real)
    requires |rates| == |caps| && AllRated(caps) && |Unfilled(rates, caps)| > 0
    ensures var u := Unfilled(rates, caps);
      var p := PassFrom(rates, caps, u, 0, remaining);
      |Unfilled(p.rates, caps)| <= |u| && (p.remaining > 0.0 ==> |Unfilled(p.rates, caps)| < |u|)
  {
    var u := Unfilled(rates, caps);
    var p := PassFrom(rates, caps, u, 0, remaining);
    PassLast(rates, caps, u, 0, remaining);
    PassFromFrame(rates, caps, u, 0, remaining);
    forall x | 0 <= x < |rates| && p.rates[x] < caps[x].value
      ensures rates[x] < caps[x].value
    {
      if Visits(u, 0, x) {
        var k :| 0 <= k < |u| && u[k] == x;
        assert x in u;
      }
    }
    if p.remaining > 0.0 {
      var last := u[|u| - 1];
      assert last in u;
    }
    UnfilledMono(rates, p.rates, caps, 0);
  }

  /** The later passes of the `while` loop, each over the outputs still below capacity. */
  function Fill(rates: seq<real>, caps: seq<RateAttr>, remaining: real): (p: Pass)
    requires |rates| == |caps| && AllRated(caps)
    ensures |p.rates| == |rates| && p.error.None?
    decreases |Unfilled(rates, caps)| + (if remaining > 0.0 then 1 else 0)
  {
    var u := Unfilled(rates, caps);
    if |u| == 0 || remaining <= 0.0 then Pass(rates, remaining, None)
    else
      PassShrinks(rates, caps, remaining);
      var p := PassFrom(rates, caps, u, 0, remaining);
      Fill(p.rates, caps, p.remaining)
  }

  function Indices(n: nat): (r: seq<nat>)
    ensures |r| == n && forall k :: 0 <= k < n ==> r[k] == k
  {
    seq(n, k => k)
  }

  /**
   * The whole distribution for outputs feeding pipes of capacities `caps` and an incoming rate
   * `total`: the first pass visits every connected output, the later ones the unfilled ones.
   */
  function Distribute(caps: seq<RateAttr>, total: real): (d: Pass)
    ensures |d.rates| == |caps|
  {
    var n := |caps|;
    if n == 0 || total <= 0.0 then Pass(Zeros(n), total, None)
    else
      var first := PassFrom(Zeros(n), caps, Indices(n), 0, total);
      if first.error.Some? then first
      else
        assert AllRated(caps) by {
          forall m | 0 <= m < n
            ensures caps[m].RateValue?
          {
            assert Indices(n)[m] == m;
          }
        }
        Fill(first.rates, caps, first.remaining)
  }

  /** The later passes move rate and lose none. */
  lemma {:induction false} FillConserves(rates: seq<real>, caps: seq<RateAttr>, remaining: real)
    requires |rates| == |caps| && AllRated(caps)
    ensures Total(Fill(rates, caps, remaining).rates) + Fill(rates, caps, remaining).remaining == Total(rates) + remaining
    decreases |Unfilled(rates, caps)| + (if remaining > 0.0 then 1 else 0)
  {
    var u := Unfilled(rates, caps);
    if |u| > 0 && remaining > 0.0 {
      PassShrinks(rates, caps, remaining);
      var p := PassFrom(rates, caps, u, 0, remaining);
      PassConserves(rates, caps, u, 0, remaining);
      FillConserves(p.rates, caps, p.remaining);
    }
  }

  /** The later passes keep every output within capacity. */
  lemma {:induction false} FillBounds(rates: seq<real>, caps: seq<RateAttr>, remaining: real)
    requires |rates| == |caps| && AllRated(caps)
    requires forall i :: 0 <= i < |rates| ==> rates[i] <= caps[i].value
    ensures forall i :: 0 <= i < |rates| ==> Fill(rates, caps, remaining).rates[i] <= caps[i].value
    decreases |Unfilled(rates, caps)| + (if remaining > 0.0 then 1 else 0)
  {
    var u := Unfilled(rates, caps);
    if |u| > 0 && remaining > 0.0 {
      PassShrinks(rates, caps, remaining);
      var p := PassFrom(rates, caps, u, 0, remaining);
      PassBounds(rates, caps, u, 0, remaining);
      FillBounds(p.rates, caps, p.remaining);
    }
  }

  /** The later passes never give away more than remains. */
  lemma {:induction false} FillKeepsNonnegative(rates: seq<real>, caps: seq<RateAttr>, remaining: real)
    requires |rates| == |caps| && AllRated(caps) && remaining >= 0.0
    ensures Fill(rates, caps, remaining).remaining >= 0.0
    decreases |Unfilled(rates, caps)| + (if remaining > 0.0 then 1 else 0)
  {
    var u := Unfilled(rates, caps);
    if |u| > 0 && remaining > 0.0 {
      PassShrinks(rates, caps, remaining);
      var p := PassFrom(rates, caps, u, 0, remaining);
      PassKeepsNonnegative(rates, caps, u, 0, remaining);
      FillKeepsNonnegative(p.rates, caps, p.remaining);
    }
  }

  /** Rate is left over only once no output is below capacity. */
  lemma {:induction false} FillStops(rates: seq<real>, caps: seq<RateAttr>, remaining: real)
    requires |rates| == |caps| && AllRated(caps)
    ensures Fill(rates, caps, remaining).remaining > 0.0 ==>
      forall i :: 0 <= i < |rates| ==> Fill(rates, caps, remaining).rates[i] >= caps[i].value
    decreases |Unfilled(rates, caps)| + (if remaining > 0.0 then 1 else 0)
  {
    var u := Unfilled(rates, caps);
    if |u| > 0 && remaining > 0.0 {
      PassShrinks(rates, caps, remaining);
      var p := PassFrom(rates, caps, u, 0, remaining);
      FillStops(p.rates, caps, p.remaining);
    } else if remaining > 0.0 {
      forall i | 0 <= i < |rates|
        ensures rates[i] >= caps[i].value
      {
        assert i !in u;
      }
    }
  }

  /** The first pass visits every output. */
  lemma FirstPassVisits(n: nat, i: nat)
    requires i < n
    ensures Visits(Indices(n), 0, i)
  {
    assert Indices(n)[i] == i;
  }

  /**
   * The distribution hands out exactly the incoming rate: what the outputs get plus what is left
   * over is the total, and a non-negative total leaves a non-negative excess.
   */
  lemma DistributeConserves(caps: seq<RateAttr>, total: real)
    ensures Total(Distribute(caps, total).rates) + Distribute(caps, total).remaining == total
    ensures total >= 0.0 ==> Distribute(caps, total).remaining >= 0.0
  {
    var n := |caps|;
    if n == 0 || total <= 0.0 {
      TotalZeros(n);
    } else {
      var first := PassFrom(Zeros(n), caps, Indices(n), 0, total);
      TotalZeros(n);
      PassConserves(Zeros(n), caps, Indices(n), 0, total);
      PassKeepsNonnegative(Zeros(n), caps, Indices(n), 0, total);
      if first.error.None? {
        assert AllRated(caps) by {
          forall m | 0 <= m < n
            ensures caps[m].RateValue?
          {
            assert Indices(n)[m] == m;
          }
        }
        FillConserves(first.rates, caps, first.remaining);
        FillKeepsNonnegative(first.rates, caps, first.remaining);
      }
    }
  }

  /**
   * The distribution raises exactly when there is rate to share and some connected output feeds
   * a pipe whose rate is not a number; the error is the one the first such output gives.
   */
  lemma DistributeRaises(caps: seq<RateAttr>, total: real)
    ensures Distribute(caps, total).error.None? <==> |caps| == 0 || total <= 0.0 || AllRated(caps)
    ensures Distribute(caps, total).error.Some? ==>
      (exists k :: 0 <= k < |caps| && !caps[k].RateValue? && Distribute(caps, total).error.value == RateError(caps[k]) &&
        forall k' :: 0 <= k' < k ==> caps[k'].RateValue?)
  {
    var n := |caps|;
    if n > 0 && total > 0.0 {
      var first := PassFrom(Zeros(n), caps, Indices(n), 0, total);
      if first.error.None? {
        forall m | 0 <= m < n
          ensures caps[m].RateValue?
        {
          assert Indices(n)[m] == m;
        }
      } else {
        PassFromRaises(Zeros(n), caps, Indices(n), 0, total);
        var k :| 0 <= k < n && !caps[Indices(n)[k]].RateValue? && first.error.value == RateError(caps[Indices(n)[k]]) &&
          forall k' :: 0 <= k' < k ==> caps[Indices(n)[k']].RateValue?;
        assert Indices(n)[k] == k;
        assert forall k' :: 0 <= k' < k ==> caps[k'].RateValue? by {
          forall k' | 0 <= k' < k
            ensures caps[k'].RateValue?
          {
            assert Indices(n)[k'] == k';
          }
        }
      }
    }
  }

  /** When it does not raise, the distribution gives no output more than its pipe carries. */
  lemma DistributeBounds(caps: seq<RateAttr>, total: real)
    requires Distribute(caps, total).error.None? && total > 0.0
    ensures forall i :: 0 <= i < |caps| ==>
      caps[i].RateValue? && Distribute(caps, total).rates[i] <= caps[i].value
  {
    var n := |caps|;
    if n > 0 {
      var first := PassFrom(Zeros(n), caps, Indices(n), 0, total);
      assert AllRated(caps) by {
        forall m | 0 <= m < n
          ensures caps[m].RateValue?
        {
          assert Indices(n)[m] == m;
        }
      }
      PassBounds(Zeros(n), caps, Indices(n), 0, total);
      forall i | 0 <= i < n
        ensures first.rates[i] <= caps[i].value
      {
        FirstPassVisits(n, i);
      }
      FillBounds(first.rates, caps, first.remaining);
    }
  }

  /** Rate is left over only when every connected output is at the capacity of its pipe. */
  lemma DistributeExcess(caps: seq<RateAttr>, total: real)
    requires Distribute(caps, total).error.None? && Distribute(caps, total).remaining > 0.0
    ensures forall i :: 0 <= i < |caps| ==>
      caps[i].RateValue? && Distribute(caps, total).rates[i] == caps[i].value
  {
    var n := |caps|;
    if n > 0 {
      DistributeBounds(caps, total);
      var first := PassFrom(Zeros(n), caps, Indices(n), 0, total);
      FillStops(first.rates, caps, first.remaining);
    }
  }

  /** One pass of the `while` loop: the inner `for output in unfilled_outputs`. */
  method RunPass(rates0: seq<real>, caps: seq<RateAttr>, u: seq<nat>, remaining0: real)
    returns (rates: seq<real>, remaining: real, error: Option<PyError>)
    requires |rates0| == |caps| && InRange(u, |rates0|)
    ensures Pass(rates, remaining, error) == PassFrom(rates0, caps, u, 0, remaining0)
  {
    rates, remaining := rates0, remaining0;
    var unprocessed := |u|;
    var t := 0;
    while t < |u|
      invariant 0 <= t <= |u| && unprocessed == |u| - t && |rates| == |rates0|
      invariant PassFrom(rates, caps, u, t, remaining) == PassFrom(rates0, caps, u, 0, remaining0)
    {
      var o := u[t];
      var ideal := Ideal(remaining, unprocessed);
      PassFromAt(rates, caps, u, t, remaining, ideal);
      if !caps[o].RateValue? {
        return rates, remaining, Some(RateError(caps[o]));
      }
      var capacity := caps[o].value - rates[o];
      ghost var whole := PassFrom(rates0, caps, u, 0, remaining0);
      if capacity >= ideal {
        assert PassFrom(rates[o := rates[o] + ideal], caps, u, t + 1, remaining - ideal) == whole;
        rates := rates[o := rates[o] + ideal];
        remaining := remaining - ideal;
      } else {
        // The source also lowers `num_unfilled` here; it is recounted after the pass.
        assert PassFrom(rates[o := caps[o].value], caps, u, t + 1, remaining - capacity) == whole;
        rates := rates[o := caps[o].value];
        remaining := remaining - capacity;
      }
      unprocessed := unprocessed - 1;
      t := t + 1;
    }
    error := None;
  }

  /**
   * The `while` loop of `process`: a first pass over every connected output, then passes over
   * the unfilled ones while any remain and rate is left.
   */
  method Share(caps: seq<RateAttr>, total: real) returns (rates: seq<real>, remaining: real, error: Option<PyError>)
    ensures Pass(rates, remaining, error) == Distribute(caps, total)
  {
    var n := |caps|;
    rates, remaining, error := Zeros(n), total, None;
    if n > 0 && remaining > 0.0 {
      rates, remaining, error := RunPass(rates, caps, Indices(n), remaining);
      if error.None? {
        assert AllRated(caps) by {
          forall m | 0 <= m < n
            ensures caps[m].RateValue?
          {
            assert Indices(n)[m] == m;
          }
        }
        ghost var goal := Fill(rates, caps, remaining);
        var u := Unfilled(rates, caps);
        while |u| > 0 && remaining > 0.0
          invariant |rates| == n && error.None?
          invariant u == Unfilled(rates, caps)
          invariant Fill(rates, caps, remaining) == goal
          decreases |u| + (if remaining > 0.0 then 1 else 0)
        {
          PassShrinks(rates, caps, remaining);
          rates, remaining, error := RunPass(rates, caps, u, remaining);
          u := Unfilled(rates, caps);
        }
      }
    }
  }

  // ---------------------------------------------------------------------------------------------
  // process

  /** The warning for rate that no connected output can take (the amount is not rendered). */
  const Excess := ComponentError(Warning, "Input rate exceeds output rate per minute")

  /** `total_input_rate`: the summed rates of every ingredient at the ports `ins`. */
  function Inflow(nodes: seq<Node>, ins: seq<Ref>): real
    requires forall m :: 0 <= m < |ins| ==> ins[m] < |nodes|
    decreases |ins|
  {
    if |ins| == 0 then 0.0 else Inflow(nodes, ins[..|ins| - 1]) + SumRates(nodes[ins[|ins| - 1]].ingredients)
  }

  /** The loop summing the incoming rate. */
  method SumInflow(nodes: seq<Node>, ins: seq<Ref>) returns (total: real)
    requires forall m :: 0 <= m < |ins| ==> ins[m] < |nodes|
    ensures total == Inflow(nodes, ins)
  {
    total := 0.0;
    var i := 0;
    while i < |ins|
      invariant 0 <= i <= |ins|
      invariant total == Inflow(nodes, ins[..i])
    {
      assert ins[..i + 1][..i] == ins[..i];
      total := total + SumRates(nodes[ins[i]].ingredients);
      i := i + 1;
    }
    assert ins[..|ins|] == ins;
  }

  /** The capacity behind each connected output: the rate of the pipe its target belongs to. */
  function Capacities(nodes: seq<Node>, conn: seq<Ref>): (caps: seq<RateAttr>)
    requires WF(nodes) && AllOutputs(nodes, conn) && forall m :: 0 <= m < |conn| ==> HasTarget(nodes, conn[m])
    ensures |caps| == |conn| && forall m :: 0 <= m < |conn| ==> HasTarget(nodes, conn[m]) && caps[m] == FedRate(nodes, conn[m])
  {
    seq(|conn|, m requires 0 <= m < |conn| => assert HasTarget(nodes, conn[m]); FedRate(nodes, conn[m]))
  }

  /** Each connected output carries the one fluid at its share of the rate. */
  function Deliveries(item: Item, rates: seq<real>): (r: seq<seq<Ingredient>>)
    ensures |r| == |rates| && forall m :: 0 <= m < |rates| ==> r[m] == [Ingredient(item, None, rates[m])]
  {
    seq(|rates|, m requires 0 <= m < |rates| => [Ingredient(item, None, rates[m])])
  }

  /** The outputs of junction `j` that feed something, in port order. */
  function Connected(nodes: seq<Node>, j: Ref): (conn: seq<Ref>)
    requires WF(nodes) && IsBuilding(nodes, j)
    ensures AllOutputs(nodes, conn) && Distinct(conn) && forall m :: 0 <= m < |conn| ==> HasTarget(nodes, conn[m])
  {
    assert KindOk(nodes, nodes[j].kind);
    FeedingOutputs(nodes, nodes[j].kind.outputs)
  }

  /** How the loop shares the rate at the junction's inputs among its connected outputs. */
  function Shares(nodes: seq<Node>, j: Ref): (d: Pass)
    requires WF(nodes) && IsBuilding(nodes, j)
    ensures |d.rates| == |Connected(nodes, j)|
  {
    assert KindOk(nodes, nodes[j].kind);
    Distribute(Capacities(nodes, Connected(nodes, j)), Inflow(nodes, nodes[j].kind.inputs))
  }

  /** `PipelineJunctionCross.process`. */
  function JunctionProcess(nodes: seq<Node>, j: Ref): (s: Step)
    requires WF(nodes) && IsBuilding(nodes, j)
    ensures Preserves(nodes, s.nodes)
  {
    var c := JunctionCheck(nodes, j);
    if !c.ok then Step(AddErrors(ClearErrors(nodes, j), j, c.errors), Returned(false))
    else JunctionFeed(nodes, j)
  }

  /** What `process` does once `can_process` has passed: it never returns early. */
  function JunctionFeed(nodes: seq<Node>, j: Ref): (s: Step)
    requires WF(nodes) && IsBuilding(nodes, j)
    ensures Preserves(nodes, s.nodes) && !s.status.Returned?
  {
    var k := nodes[j].kind;
    assert KindOk(nodes, k);
    var n1 := ClearErrors(nodes, j);
    if |k.inputs| == 0 || |nodes[k.inputs[0]].ingredients| == 0 then Step(n1, Raised(IndexError))
    else
      var item := nodes[k.inputs[0]].ingredients[0].item;
      var conn := Connected(nodes, j);
      var d := Shares(nodes, j);
      assert AllOutputs(n1, conn);
      var n2 := WriteOutputs(n1, conn, Deliveries(item, d.rates));
      PreservesTrans(nodes, n1, n2);
      if d.error.Some? then Step(n2, Raised(d.error.value))
      else if d.remaining > 0.0 then Step(AddErrors(n2, j, [Excess]), Done)
      else Step(n2, Done)
  }

  lemma {:induction false} InputItemsSame(a: seq<Node>, b: seq<Node>, ins: seq<Ref>)
    requires |a| == |b| && forall q :: 0 <= q < |a| ==> a[q].ingredients == b[q].ingredients
    requires forall m :: 0 <= m < |ins| ==> ins[m] < |a|
    ensures InputItems(a, ins) == InputItems(b, ins)
    decreases |ins|
  {
    if |ins| > 0 {
      InputItemsSame(a, b, ins[..|ins| - 1]);
    }
  }

  /** Clearing the junction's errors does not change what `can_process` decides. */
  lemma CheckIgnoresErrors(nodes: seq<Node>, j: Ref)
    requires WF(nodes) && IsBuilding(nodes, j)
    ensures WF(ClearErrors(nodes, j)) && IsBuilding(ClearErrors(nodes, j), j)
    ensures JunctionCheck(ClearErrors(nodes, j), j) == JunctionCheck(nodes, j)
  {
    var n1 := ClearErrors(nodes, j);
    PreservesWF(nodes, n1);
    assert KindOk(nodes, nodes[j].kind);
    InputItemsSame(n1, nodes, nodes[j].kind.inputs);
  }

  /**
   * `process` returns `False` exactly when the inputs carry more than one item, and then the
   * junction holds the one error saying how many; it never returns `True`.
   */
  lemma JunctionRefuses(nodes: seq<Node>, j: Ref)
    requires WF(nodes) && IsBuilding(nodes, j)
    ensures KindOk(nodes, nodes[j].kind)
    ensures JunctionProcess(nodes, j).status.Returned? <==> !AllSame(InputItems(nodes, nodes[j].kind.inputs))
    ensures JunctionProcess(nodes, j).status.Returned? ==>
      JunctionProcess(nodes, j).status == Returned(false) &&
      JunctionProcess(nodes, j).nodes == nodes[j := nodes[j].(errors := [TooManyFluids(FluidCount(nodes, j))])]
  {
    JunctionCheckSpec(nodes, j);
    var c := JunctionCheck(nodes, j);
    var s := JunctionProcess(nodes, j);
    if !c.ok {
      var n1 := ClearErrors(nodes, j);
      assert s == Step(AddErrors(n1, j, c.errors), Returned(false));
      assert n1[j].errors + c.errors == c.errors;
      assert n1[j].(errors := c.errors) == nodes[j].(errors := c.errors);
      var r := AddErrors(n1, j, c.errors);
      assert r == n1[j := nodes[j].(errors := c.errors)];
      assert forall q :: 0 <= q < |nodes| ==> r[q] == nodes[j := nodes[j].(errors := c.errors)][q];
      assert r == nodes[j := nodes[j].(errors := c.errors)];
    }
  }

  /**
   * A junction with one fluid raises `IndexError` exactly when it has no input or its first
   * input carries no ingredient; nothing but its errors (now cleared) has changed.
   */
  lemma JunctionNeedsInput(nodes: seq<Node>, j: Ref)
    requires WF(nodes) && IsBuilding(nodes, j) && AllSame(InputItems(nodes, nodes[j].kind.inputs))
    ensures KindOk(nodes, nodes[j].kind)
    ensures var ins := nodes[j].kind.inputs;
      JunctionProcess(nodes, j).status == Raised(IndexError) <==> |ins| == 0 || |nodes[ins[0]].ingredients| == 0
    ensures var ins := nodes[j].kind.inputs;
      |ins| == 0 || |nodes[ins[0]].ingredients| == 0 ==> JunctionProcess(nodes, j).nodes == ClearErrors(nodes, j)
  {
    JunctionCheckSpec(nodes, j);
    var ins := nodes[j].kind.inputs;
    if |ins| > 0 && |nodes[ins[0]].ingredients| > 0 {
      var d := Shares(nodes, j);
      if d.error.Some? {
        DistributeRaises(Capacities(nodes, Connected(nodes, j)), Inflow(nodes, ins));
      }
    }
  }

  /**
   * Once it has one fluid and an ingredient to read it from, `process` gives each connected
   * output the single ingredient of that fluid at its share of the rate.
   */
  lemma JunctionDelivers(nodes: seq<Node>, j: Ref)
    requires WF(nodes) && IsBuilding(nodes, j) && AllSame(InputItems(nodes, nodes[j].kind.inputs))
    requires |nodes[j].kind.inputs| > 0 && nodes[j].kind.inputs[0] < |nodes|
    requires |nodes[nodes[j].kind.inputs[0]].ingredients| > 0
    ensures forall m :: 0 <= m < |Connected(nodes, j)| ==>
      JunctionProcess(nodes, j).nodes[Connected(nodes, j)[m]].ingredients ==
        [Ingredient(nodes[nodes[j].kind.inputs[0]].ingredients[0].item, None, Shares(nodes, j).rates[m])]
  {
    JunctionCheckSpec(nodes, j);
    var conn := Connected(nodes, j);
    var d := Shares(nodes, j);
    var item := nodes[nodes[j].kind.inputs[0]].ingredients[0].item;
    var n1 := ClearErrors(nodes, j);
    assert AllOutputs(n1, conn);
    var n2 := WriteOutputs(n1, conn, Deliveries(item, d.rates));
    var fin := JunctionProcess(nodes, j).nodes;
    assert fin == JunctionFeed(nodes, j).nodes;
    assert fin == if d.error.None? && d.remaining > 0.0 then AddErrors(n2, j, [Excess]) else n2;
    forall m | 0 <= m < |conn|
      ensures fin[conn[m]].ingredients == [Ingredient(item, None, d.rates[m])]
    {
      assert conn[m] != j;
      assert fin[conn[m]].ingredients == n2[conn[m]].ingredients;
      assert n2[conn[m]].ingredients == Deliveries(item, d.rates)[m];
    }
  }

  /** ... and changes no other port or building. */
  lemma JunctionLeaves(nodes: seq<Node>, j: Ref)
    requires WF(nodes) && IsBuilding(nodes, j) && AllSame(InputItems(nodes, nodes[j].kind.inputs))
    requires |nodes[j].kind.inputs| > 0 && nodes[j].kind.inputs[0] < |nodes|
    requires |nodes[nodes[j].kind.inputs[0]].ingredients| > 0
    ensures forall q :: 0 <= q < |nodes| && q != j && q !in Connected(nodes, j) ==>
      JunctionProcess(nodes, j).nodes[q] == nodes[q]
  {
    JunctionCheckSpec(nodes, j);
  }

  /** ... raises only when the distribution does, and warns only about rate left over. */
  lemma JunctionReports(nodes: seq<Node>, j: Ref)
    requires WF(nodes) && IsBuilding(nodes, j) && AllSame(InputItems(nodes, nodes[j].kind.inputs))
    requires |nodes[j].kind.inputs| > 0 && nodes[j].kind.inputs[0] < |nodes|
    requires |nodes[nodes[j].kind.inputs[0]].ingredients| > 0
    ensures JunctionProcess(nodes, j).status ==
      if Shares(nodes, j).error.Some? then Raised(Shares(nodes, j).error.value) else Done
    ensures JunctionProcess(nodes, j).nodes[j].errors ==
      if Shares(nodes, j).error.None? && Shares(nodes, j).remaining > 0.0 then [Excess] else []
  {
    JunctionCheckSpec(nodes, j);
    assert j !in Connected(nodes, j);
  }

  /**
   * After a finished `process`, the excess warning is there exactly when the outputs got less
   * than came in, and it is the only error the junction can carry.
   */
  lemma JunctionWarns(nodes: seq<Node>, j: Ref)
    requires WF(nodes) && IsBuilding(nodes, j) && JunctionProcess(nodes, j).status == Done
    ensures KindOk(nodes, nodes[j].kind)
    ensures var errors := JunctionProcess(nodes, j).nodes[j].errors;
      (errors == [Excess] <==> Total(Shares(nodes, j).rates) < Inflow(nodes, nodes[j].kind.inputs)) &&
      (errors == [] || errors == [Excess])
  {
    assert KindOk(nodes, nodes[j].kind);
    var caps := Capacities(nodes, Connected(nodes, j));
    var total := Inflow(nodes, nodes[j].kind.inputs);
    JunctionCheckSpec(nodes, j);
    JunctionNeedsInput(nodes, j);
    JunctionReports(nodes, j);
    DistributeConserves(caps, total);
  }

  /**
   * After a finished `process`, no output gets more than its pipe carries, and an excess
   * warning means every connected output is at that capacity.
   */
  lemma JunctionCapped(nodes: seq<Node>, j: Ref)
    requires WF(nodes) && IsBuilding(nodes, j) && JunctionProcess(nodes, j).status == Done
    ensures KindOk(nodes, nodes[j].kind)
    ensures var caps := Capacities(nodes, Connected(nodes, j));
      Inflow(nodes, nodes[j].kind.inputs) > 0.0 ==>
        forall m :: 0 <= m < |caps| ==> caps[m].RateValue? && Shares(nodes, j).rates[m] <= caps[m].value
  {
    assert KindOk(nodes, nodes[j].kind);
    JunctionShared(nodes, j);
    if Inflow(nodes, nodes[j].kind.inputs) > 0.0 {
      DistributeBounds(Capacities(nodes, Connected(nodes, j)), Inflow(nodes, nodes[j].kind.inputs));
    }
  }

  /** A junction that reports `Excess` has filled every connected building to its rate. */
  lemma JunctionFills(nodes: seq<Node>, j: Ref)
    requires WF(nodes) && IsBuilding(nodes, j) && JunctionProcess(nodes, j).status == Done
    ensures KindOk(nodes, nodes[j].kind)
    ensures var caps := Capacities(nodes, Connected(nodes, j));
      JunctionProcess(nodes, j).nodes[j].errors == [Excess] ==>
        forall m :: 0 <= m < |caps| ==> caps[m].RateValue? && Shares(nodes, j).rates[m] == caps[m].value
  {
    assert KindOk(nodes, nodes[j].kind);
    JunctionShared(nodes, j);
    if JunctionProcess(nodes, j).nodes[j].errors == [Excess] {
      DistributeExcess(Capacities(nodes, Connected(nodes, j)), Inflow(nodes, nodes[j].kind.inputs));
    }
  }

  /** A junction that finishes shared out its inflow without error, and reports `Excess` exactly when some was left. */
  lemma JunctionShared(nodes: seq<Node>, j: Ref)
    requires WF(nodes) && IsBuilding(nodes, j) && JunctionProcess(nodes, j).status == Done
    ensures Shares(nodes, j).error.None?
    ensures JunctionProcess(nodes, j).nodes[j].errors == [Excess] <==> Shares(nodes, j).remaining > 0.0
  {
    JunctionCheckSpec(nodes, j);
    JunctionNeedsInput(nodes, j);
    JunctionReports(nodes, j);
  }

  /** `process` on the arena, proved against `JunctionProcess`. */
  method ProcessJunction(h: Heap, j: Ref) returns (status: Status)
    requires WF(h.nodes) && IsBuilding(h.nodes, j)
    modifies h
    ensures Step(h.nodes, status) == JunctionProcess(old(h.nodes), j)
  {
    var nodes := h.nodes;
    var k := nodes[j].kind;
    assert KindOk(nodes, k);
    CheckIgnoresErrors(nodes, j);
    h.nodes := ClearErrors(h.nodes, j);
    var ok := JunctionCanProcess(h, j);
    if !ok {
      return Returned(false);
    }
    if |k.inputs| == 0 || |nodes[k.inputs[0]].ingredients| == 0 {
      return Raised(IndexError);
    }
    var item := nodes[k.inputs[0]].ingredients[0].item;
    var total := SumInflow(nodes, k.inputs);
    var conn := Connected(nodes, j);
    var rates, remaining, error := Share(Capacities(nodes, conn), total);
    assert AllOutputs(h.nodes, conn);
    h.nodes := WriteOutputs(h.nodes, conn, Deliveries(item, rates));
    if error.Some? {
      return Raised(error.value);
    }
    if remaining > 0.0 {
      h.nodes := AddErrors(h.nodes, j, [Excess]);
    }
    return Done;
  }
}
