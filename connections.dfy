/**
 * Input and output ports: linking, unlinking and what processing a port passes on. An input
 * feeding a building with several inputs merges its ingredients into the building's list.
 */
module Connections {
  import opened Wrappers
  import opened Base
  import opened Graph

  predicate HasItem(xs: seq<Ingredient>, it: Item)
  {
    exists k :: 0 <= k < |xs| && xs[k].item == it
  }

  predicate DistinctItems(xs: seq<Ingredient>)
  {
    forall j, k :: 0 <= j < k < |xs| ==> xs[j].item != xs[k].item
  }

  /** Combined rate of the ingredients carrying `it`. */
  function ItemTotal(xs: seq<Ingredient>, it: Item): real
    decreases |xs|
  {
    if |xs| == 0 then 0.0 else (if xs[0].item == it then xs[0].rate else 0.0) + ItemTotal(xs[1..], it)
  }

  /** Number of ingredients carrying `it`. */
  function ItemCount(xs: seq<Ingredient>, it: Item): nat
    decreases |xs|
  {
    if |xs| == 0 then 0 else (if xs[0].item == it then 1 else 0) + ItemCount(xs[1..], it)
  }

  /** Every ingredient of `xs` with the item of `x` gets the rate of `x` added. */
  function Bump(xs: seq<Ingredient>, x: Ingredient): (r: seq<Ingredient>)
    ensures |r| == |xs|
    ensures forall k :: 0 <= k < |xs| ==>
      r[k] == (if xs[k].item == x.item then xs[k].(rate := xs[k].rate + x.rate) else xs[k])
  {
    seq(|xs|, k requires 0 <= k < |xs| => if xs[k].item == x.item then xs[k].(rate := xs[k].rate + x.rate) else xs[k])
  }

  /** One incoming ingredient: bump the matching ones, or append it when none matches. */
  function MergeOne(acc: seq<Ingredient>, x: Ingredient): seq<Ingredient>
  {
    if HasItem(acc, x.item) then Bump(acc, x) else acc + [x]
  }

  /** The incoming ingredients merged one after another into the owner's list. */
  function Merge(acc: seq<Ingredient>, xs: seq<Ingredient>): seq<Ingredient>
    decreases |xs|
  {
    if |xs| == 0 then acc else Merge(MergeOne(acc, xs[0]), xs[1..])
  }

  lemma {:induction false} ItemTotalAppend(a: seq<Ingredient>, x: Ingredient, it: Item)
    ensures ItemTotal(a + [x], it) == ItemTotal(a, it) + (if x.item == it then x.rate else 0.0)
    ensures ItemCount(a + [x], it) == ItemCount(a, it) + (if x.item == it then 1 else 0)
    decreases |a|
  {
    if |a| > 0 {
      assert (a + [x])[1..] == a[1..] + [x];
      ItemTotalAppend(a[1..], x, it);
    }
  }

  /** `n` copies of `r` added up. */
  function Repeated(n: nat, r: real): real
  {
    if n == 0 then 0.0 else r + Repeated(n - 1, r)
  }

  lemma {:induction false} ItemTotalBump(xs: seq<Ingredient>, x: Ingredient, it: Item)
    ensures ItemTotal(Bump(xs, x), it) ==
      ItemTotal(xs, it) + (if x.item == it then Repeated(ItemCount(xs, it), x.rate) else 0.0)
    ensures ItemCount(Bump(xs, x), it) == ItemCount(xs, it)
    decreases |xs|
  {
    if |xs| > 0 {
      var b := Bump(xs, x);
      var b1 := Bump(xs[1..], x);
      assert b[1..] == b1;
      ItemTotalBump(xs[1..], x, it);
      assert ItemTotal(b, it) == (if b[0].item == it then b[0].rate else 0.0) + ItemTotal(b1, it);
      assert ItemCount(b, it) == (if b[0].item == it then 1 else 0) + ItemCount(b1, it);
      if x.item == it && xs[0].item == it {
        assert b[0].rate == xs[0].rate + x.rate;
        assert ItemCount(xs, it) == 1 + ItemCount(xs[1..], it);
      } else if xs[0].item == it {
        assert b[0] == xs[0];
      }
    }
  }

  lemma {:induction false} DistinctCount(xs: seq<Ingredient>, it: Item)
    requires DistinctItems(xs)
    ensures ItemCount(xs, it) == (if HasItem(xs, it) then 1 else 0)
    decreases |xs|
  {
    if |xs| > 0 {
      assert DistinctItems(xs[1..]) by {
        forall j, k | 0 <= j < k < |xs[1..]|
          ensures xs[1..][j].item != xs[1..][k].item
        {
          assert xs[1..][j] == xs[j + 1] && xs[1..][k] == xs[k + 1];
        }
      }
      DistinctCount(xs[1..], it);
      if xs[0].item != it {
        if HasItem(xs, it) {
          var k :| 0 <= k < |xs| && xs[k].item == it;
          assert xs[1..][k - 1].item == it;
        }
        if HasItem(xs[1..], it) {
          var k :| 0 <= k < |xs[1..]| && xs[1..][k].item == it;
          assert xs[k + 1].item == it;
        }
      }
    }
  }

  /**
   * Merging conserves, item by item, the combined rate of the owner's and the incoming
   * ingredients, provided the owner's list does not already carry an item twice (a duplicated
   * item would be bumped once per copy); and merging keeps the item list free of duplicates.
   */
  lemma {:induction false} MergeConserves(acc: seq<Ingredient>, xs: seq<Ingredient>, it: Item)
    requires DistinctItems(acc)
    ensures DistinctItems(Merge(acc, xs))
    ensures ItemTotal(Merge(acc, xs), it) == ItemTotal(acc, it) + ItemTotal(xs, it)
    decreases |xs|
  {
    if |xs| > 0 {
      var x := xs[0];
      var m := MergeOne(acc, x);
      if HasItem(acc, x.item) {
        assert DistinctItems(m);
        ItemTotalBump(acc, x, it);
        if x.item == it {
          DistinctCount(acc, it);
        }
      } else {
        assert DistinctItems(m) by {
          forall j, k | 0 <= j < k < |m|
            ensures m[j].item != m[k].item
          {
            if k == |acc| {
              assert m[k] == x;
              assert m[j] == acc[j];
            }
          }
        }
        ItemTotalAppend(acc, x, it);
      }
      MergeConserves(m, xs[1..], it);
    }
  }

  /** Merging keeps every item already present at its place and adds the new items after them. */
  lemma {:induction false} MergeKeepsItems(acc: seq<Ingredient>, xs: seq<Ingredient>)
    ensures |Merge(acc, xs)| >= |acc|
    ensures forall k :: 0 <= k < |acc| ==> Merge(acc, xs)[k].item == acc[k].item
    ensures forall k :: 0 <= k < |xs| ==> HasItem(Merge(acc, xs), xs[k].item)
    decreases |xs|
  {
    if |xs| > 0 {
      var m := MergeOne(acc, xs[0]);
      MergeKeepsItems(m, xs[1..]);
      assert HasItem(m, xs[0].item) by {
        if HasItem(acc, xs[0].item) {
          var k :| 0 <= k < |acc| && acc[k].item == xs[0].item;
          assert m[k].item == xs[0].item;
        } else {
          assert m[|acc|] == xs[0];
        }
      }
      var r := Merge(acc, xs);
      assert HasItem(r, xs[0].item) by {
        var k :| 0 <= k < |m| && m[k].item == xs[0].item;
        assert r[k].item == xs[0].item;
      }
      forall k | 0 <= k < |xs|
        ensures HasItem(r, xs[k].item)
      {
        if k > 0 {
          assert xs[k] == xs[1..][k - 1];
        }
      }
    }
  }

  /**
   * The nested loop of input processing: for each incoming ingredient, add its rate to every
   * owner ingredient of the same item, and append it when there was none.
   */
  method MergeInto(owner: seq<Ingredient>, incoming: seq<Ingredient>) returns (merged: seq<Ingredient>)
    ensures merged == Merge(owner, incoming)
  {
    merged := owner;
    var i := 0;
    while i < |incoming|
      invariant 0 <= i <= |incoming|
      invariant Merge(merged, incoming[i..]) == Merge(owner, incoming)
    {
      assert incoming[i..][1..] == incoming[i + 1..];
      merged := MergeOneInto(merged, incoming[i]);
      i := i + 1;
    }
  }

  /** The inner loop: one incoming ingredient merged into the owner's list. */
  method MergeOneInto(acc: seq<Ingredient>, x: Ingredient) returns (merged: seq<Ingredient>)
    ensures merged == MergeOne(acc, x)
  {
    var alreadyHere := false;
    var bumped: seq<Ingredient> := [];
    var j := 0;
    while j < |acc|
      invariant 0 <= j <= |acc|
      invariant bumped == Bump(acc[..j], x)
      invariant alreadyHere <==> HasItem(acc[..j], x.item)
    {
      if x.item == acc[j].item {
        alreadyHere := true;
        bumped := bumped + [acc[j].(rate := acc[j].rate + x.rate)];
      } else {
        bumped := bumped + [acc[j]];
      }
      assert acc[..j + 1] == acc[..j] + [acc[j]];
      j := j + 1;
    }
    assert acc[..|acc|] == acc;
    merged := if alreadyHere then bumped else acc + [x];
  }

  /** Linking an output and an input: each now names the other. */
  function Link(nodes: seq<Node>, output: Ref, input: Ref): (result: seq<Node>)
    requires WF(nodes) && IsOutput(nodes, output) && IsInput(nodes, input)
    ensures WF(result) && SameTags(nodes, result)
    ensures |result| == |nodes|
    ensures result[output].kind.target == Some(input) && result[input].kind.source == Some(output)
    ensures forall r :: 0 <= r < |nodes| && r != output && r != input ==> result[r] == nodes[r]
    ensures result[output] == nodes[output].(kind := nodes[output].kind.(target := Some(input)))
    ensures result[input] == nodes[input].(kind := nodes[input].kind.(source := Some(output)))
  {
    var n1 := nodes[output := nodes[output].(kind := nodes[output].kind.(target := Some(input)))];
    var n2 := n1[input := n1[input].(kind := n1[input].kind.(source := Some(output)))];
    assert SameTags(nodes, n2);
    forall r | 0 <= r < |n2|
      ensures KindOk(n2, n2[r].kind)
    {
      if r != output && r != input {
        KindOkTransfer(nodes, n2, nodes[r].kind);
      } else if r == output {
        KindOkTransfer(nodes, n2, nodes[output].kind.(target := Some(input)));
      } else {
        KindOkTransfer(nodes, n2, nodes[input].kind.(source := Some(output)));
      }
    }
    n2
  }

  /**
   * The `conveyance_type` attribute `connect` reads first from the other end: ports and
   * conveyance buildings have one, every other component lacks it.
   */
  function ConveyanceAttribute(k: Kind): Option<ConveyanceType>
  {
    if k.InputPort? || k.OutputPort? then Some(k.conveyance)
    else if k.Building? && k.cls.ConveyanceClass? then Some(k.cls.conveyance)
    else None
  }

  /**
   * The outcome of `connect` on one port: a link is made, or a Python exception is raised. The
   * conveyance types are compared first (AttributeError when the other end has none, TypeError
   * when they differ); then the direction is asked for, which only ports can answer
   * (AttributeError for a conveyance building, TypeError for a port of the same direction).
   */
  function ConnectCheck(nodes: seq<Node>, port: Ref, other: Ref): (r: Option<PyError>)
    requires WF(nodes) && port < |nodes| && other < |nodes|
    requires nodes[port].kind.InputPort? || nodes[port].kind.OutputPort?
    ensures r == None <==>
      ((nodes[port].kind.InputPort? && nodes[other].kind.OutputPort?) ||
       (nodes[port].kind.OutputPort? && nodes[other].kind.InputPort?)) &&
      nodes[other].kind.conveyance == nodes[port].kind.conveyance
    ensures r == Some(AttributeError) <==>
      ConveyanceAttribute(nodes[other].kind).None? ||
      (nodes[other].kind.Building? && ConveyanceAttribute(nodes[other].kind) == Some(nodes[port].kind.conveyance))
    ensures r == Some(TypeError) <==>
      (ConveyanceAttribute(nodes[other].kind).Some? &&
       ConveyanceAttribute(nodes[other].kind).value != nodes[port].kind.conveyance) ||
      ((nodes[other].kind.InputPort? || nodes[other].kind.OutputPort?) &&
       nodes[other].kind.conveyance == nodes[port].kind.conveyance &&
       nodes[other].kind.InputPort? == nodes[port].kind.InputPort?)
    ensures r.Some? ==> r.value == AttributeError || r.value == TypeError
  {
    var k := nodes[other].kind;
    match ConveyanceAttribute(k)
    case None => Some(AttributeError)
    case Some(c) =>
      if c != nodes[port].kind.conveyance then Some(TypeError)
      else if !(k.InputPort? || k.OutputPort?) then Some(AttributeError)
      else if k.InputPort? == nodes[port].kind.InputPort? then Some(TypeError)
      else None
  }

  /**
   * `Input.connect`: an incompatible conveyance type or a second input raises TypeError;
   * otherwise this input takes the output as its source and the output takes this input as its
   * target. Neither end's previous partner is unlinked.
   */
  method ConnectInput(h: Heap, input: Ref, other: Ref) returns (raised: Option<PyError>)
    requires WF(h.nodes) && IsInput(h.nodes, input) && other < |h.nodes|
    modifies h
    ensures raised == ConnectCheck(old(h.nodes), input, other)
    ensures raised.Some? ==> h.nodes == old(h.nodes)
    ensures raised.None? ==> h.nodes == Link(old(h.nodes), other, input)
  {
    raised := ConnectCheck(h.nodes, input, other);
    if raised.None? {
      h.nodes := Link(h.nodes, other, input);
    }
  }

  /** `Output.connect`, the mirror image: a second output or another conveyance type raises. */
  method ConnectOutput(h: Heap, output: Ref, other: Ref) returns (raised: Option<PyError>)
    requires WF(h.nodes) && IsOutput(h.nodes, output) && other < |h.nodes|
    modifies h
    ensures raised == ConnectCheck(old(h.nodes), output, other)
    ensures raised.Some? ==> h.nodes == old(h.nodes)
    ensures raised.None? ==> h.nodes == Link(old(h.nodes), output, other)
  {
    raised := ConnectCheck(h.nodes, output, other);
    if raised.None? {
      h.nodes := Link(h.nodes, output, other);
    }
  }

  /** `disconnect`: the port forgets its partner; the partner still names the port. */
  method Disconnect(h: Heap, port: Ref)
    requires WF(h.nodes) && (IsInput(h.nodes, port) || IsOutput(h.nodes, port))
    modifies h
    ensures WF(h.nodes)
    ensures old(h.nodes)[port].kind.InputPort? ==>
      h.nodes == old(h.nodes)[port := old(h.nodes)[port].(kind := old(h.nodes)[port].kind.(source := None))]
    ensures old(h.nodes)[port].kind.OutputPort? ==>
      h.nodes == old(h.nodes)[port := old(h.nodes)[port].(kind := old(h.nodes)[port].kind.(target := None))]
  {
    var n := h.nodes[port];
    var k := if n.kind.InputPort? then n.kind.(source := None) else n.kind.(target := None);
    var nodes := h.nodes[port := n.(kind := k)];
    assert SameTags(h.nodes, nodes);
    forall r | 0 <= r < |nodes|
      ensures KindOk(nodes, nodes[r].kind)
    {
      KindOkTransfer(h.nodes, nodes, h.nodes[r].kind);
    }
    h.nodes := nodes;
  }

  /** The inputs the owner of a port has: a resource node has none. */
  function InputsOf(k: Kind): seq<Ref>
  {
    if k.Building? then k.inputs else []
  }

  /**
   * `Input.process`: clears the port's errors; an owner with exactly one input takes the port's
   * ingredients as its own, any other owner merges them into what it already has.
   */
  function InputProcess(nodes: seq<Node>, input: Ref): (s: Step)
    requires WF(nodes) && IsInput(nodes, input)
    ensures Preserves(nodes, s.nodes) && s.status == Done
    ensures s.nodes[input] == nodes[input].(errors := [])
    ensures var owner := nodes[input].kind.owner;
      s.nodes[owner] == nodes[owner].(ingredients :=
        if |InputsOf(nodes[owner].kind)| == 1 then nodes[input].ingredients
        else Merge(nodes[owner].ingredients, nodes[input].ingredients))
    ensures forall r :: 0 <= r < |nodes| && r != input && r != nodes[input].kind.owner ==> s.nodes[r] == nodes[r]
  {
    var n1 := ClearErrors(nodes, input);
    var owner := nodes[input].kind.owner;
    var xs := nodes[input].ingredients;
    var ys := if |InputsOf(n1[owner].kind)| == 1 then xs else Merge(n1[owner].ingredients, xs);
    Step(WithIngredients(n1, owner, ys), Done)
  }

  /** The imperative form of `InputProcess`. */
  method ProcessInput(h: Heap, input: Ref)
    requires WF(h.nodes) && IsInput(h.nodes, input)
    modifies h
    ensures h.nodes == InputProcess(old(h.nodes), input).nodes
  {
    h.nodes := ClearErrors(h.nodes, input);
    var owner := h.nodes[input].kind.owner;
    var xs := h.nodes[input].ingredients;
    if |InputsOf(h.nodes[owner].kind)| == 1 {
      h.nodes := WithIngredients(h.nodes, owner, xs);
    } else {
      var merged := MergeInto(h.nodes[owner].ingredients, xs);
      h.nodes := WithIngredients(h.nodes, owner, merged);
    }
  }

  const OutputUnconnected := ComponentError(Warning, "Output is not connected to a target")

  /**
   * `Output.process`: clears the port's errors, then warns when there is no target, and
   * otherwise hands the port's ingredients to the target input.
   */
  function OutputProcess(nodes: seq<Node>, output: Ref): (s: Step)
    requires WF(nodes) && IsOutput(nodes, output)
    ensures Preserves(nodes, s.nodes) && s.status == Done
    ensures nodes[output].kind.target.None? ==> s.nodes == nodes[output := nodes[output].(errors := [OutputUnconnected])]
    ensures nodes[output].kind.target.Some? ==>
      var t := nodes[output].kind.target.value;
      s.nodes[output] == nodes[output].(errors := []) &&
      s.nodes[t] == nodes[t].(ingredients := nodes[output].ingredients) &&
      forall r :: 0 <= r < |nodes| && r != output && r != t ==> s.nodes[r] == nodes[r]
  {
    var n1 := ClearErrors(nodes, output);
    match nodes[output].kind.target
    case None => Step(WithErrors(nodes, output, [OutputUnconnected]), Done)
    case Some(t) => Step(WithIngredients(n1, t, nodes[output].ingredients), Done)
  }
}
