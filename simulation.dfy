/**
 * The factory walker of satisfactory/factories.py: `traverse` marks a component as traversed,
 * applies a visitor to it and moves downstream; a building with several outputs walks each of
 * them in a thread of its own, and a thread that raises ends quietly without stopping the others.
 */
module Simulation {
  import opened Wrappers
  import opened Base
  import opened Graph
  import opened Connections
  import opened Processing
  import opened Transport
  import opened Buildings
  import opened Junction

  /** `component.process()`, resolved by the component's class. */
  function Process(nodes: seq<Node>, r: Ref): (s: Step)
    requires WF(nodes) && r < |nodes|
    ensures Preserves(nodes, s.nodes)
  {
    match nodes[r].kind
    case InputPort(_, _, _) => InputProcess(nodes, r)
    case OutputPort(_, _, _) => OutputProcess(nodes, r)
    case Resource(_, _, _, supply) => if supply.Ordinary? then ResourceProcess(nodes, r) else InfiniteProcess(nodes, r)
    case Building(cls, _, _, _, _, _, _, _) =>
      match cls
      case GenericClass => BuildingProcess(nodes, r)
      case ConveyanceClass(_, _) => ConveyanceProcess(nodes, r)
      case StorageClass => StorageProcess(nodes, r)
      case SinkClass => SinkProcess(nodes, r)
      case MergerClass => MergerProcess(nodes, r)
      case SplitterClass => SplitterProcess(nodes, r)
      case MinerClass => MinerProcess(nodes, r)
      case JunctionClass => JunctionProcess(nodes, r)
  }

  /** A processing step as the walk sees it: defined on every well-formed arena and position, and
    * changing nothing but working state. `Process` is the one the factory uses. */
  ghost predicate Processes(proc: (seq<Node>, Ref) --> Step)
  {
    forall nodes: seq<Node>, r: Ref :: WF(nodes) && r < |nodes| ==> proc.requires(nodes, r) && Preserves(nodes, proc(nodes, r).nodes)
  }

  type Processor = proc: (seq<Node>, Ref) --> Step | Processes(proc)
    ghost witness (nodes: seq<Node>, r: Ref) => Step(nodes, Done)

  /** The processing step the factory walks with. */
  const FactoryStep: Processor := Process

  /** The two visitors the factory walks with: `drain_component` and `simulate_component`. */
  datatype Visitor = Drain | Simulate

  /**
   * `drain_component`: clears the errors, resets `traversed` and empties the ingredients of every
   * component that has an `ingredients` attribute, which a resource node does not.
   */
  function Drained(n: Node): (d: Node)
    ensures d.errors == [] && !d.traversed && d.kind == n.kind && d.meta == n.meta && d.factory == n.factory
    ensures d.ingredients == (if n.kind.Resource? then n.ingredients else [])
  {
    n.(errors := [], traversed := false, ingredients := if n.kind.Resource? then n.ingredients else [])
  }

  /** One application of the visitor. */
  function Visit(nodes: seq<Node>, r: Ref, v: Visitor, proc: Processor): (s: Step)
    requires WF(nodes) && r < |nodes|
    ensures SameShape(nodes, s.nodes)
    ensures v == Drain ==> s == Step(nodes[r := Drained(nodes[r])], Done)
    ensures v == Simulate ==> Preserves(nodes, s.nodes)
  {
    match v
    case Drain =>
      var d := Drained(nodes[r]);
      assert ShapeOf(d.kind) == ShapeOf(nodes[r].kind);
      Step(nodes[r := d], Done)
    case Simulate =>
      var s := proc(nodes, r);
      PreservesShape(nodes, s.nodes);
      s
  }

  /** `cursor.traversed = True`. */
  function Mark(nodes: seq<Node>, c: Ref): (result: seq<Node>)
    requires c < |nodes|
    ensures SameShape(nodes, result)
    ensures result == nodes[c := nodes[c].(traversed := true)]
  {
    nodes[c := nodes[c].(traversed := true)]
  }

  lemma SameShapeTrans(a: seq<Node>, b: seq<Node>, c: seq<Node>)
    requires SameShape(a, b) && SameShape(b, c)
    ensures SameShape(a, c)
  {
  }

  /** The arena after a walk, the components visited in order, and the exception that ended it. */
  datatype Run = Run(nodes: seq<Node>, visited: seq<Ref>, raised: Option<PyError>)

  /**
   * `traverse(cursor, func)`. An exception propagates to the innermost thread: through a chain of
   * single successors it ends the walk, while the threads of a multi-output building catch it.
   */
  function Traverse(nodes: seq<Node>, rank: seq<nat>, proc: Processor, v: Visitor, c: Ref): (t: Run)
    requires Ranked(nodes, rank) && c < |nodes|
    ensures SameShape(nodes, t.nodes)
    ensures |t.visited| >= 1 && t.visited[0] == c
    decreases rank[c], 1, 0
  {
    var s := Visit(Mark(nodes, c), c, v, proc);
    SameShapeTrans(nodes, Mark(nodes, c), s.nodes);
    SameShapeRanked(nodes, s.nodes, rank);
    var nx := Next(nodes, c);
    if s.status.Raised? then Run(s.nodes, [c], Some(s.status.error))
    else if |nx| == 0 then Run(s.nodes, [c], None)
    else if |nx| == 1 then
      var t := Traverse(s.nodes, rank, proc, v, nx[0]);
      SameShapeTrans(nodes, s.nodes, t.nodes);
      Run(t.nodes, [c] + t.visited, t.raised)
    else
      var t := Threads(s.nodes, rank, proc, v, nx, rank[c]);
      SameShapeTrans(nodes, s.nodes, t.nodes);
      Run(t.nodes, [c] + t.visited, None)
  }

  /** The threads started and joined one after the other for the outputs of a building. */
  function Threads(nodes: seq<Node>, rank: seq<nat>, proc: Processor, v: Visitor, cs: seq<Ref>, bound: nat): (t: Run)
    requires Ranked(nodes, rank) && AllBelow(nodes, rank, cs, bound)
    ensures SameShape(nodes, t.nodes) && t.raised.None?
    decreases bound, 0, |cs|
  {
    if |cs| == 0 then Run(nodes, [], None)
    else
      var t := Traverse(nodes, rank, proc, v, cs[0]);
      SameShapeRanked(nodes, t.nodes, rank);
      var u := Threads(t.nodes, rank, proc, v, cs[1..], bound);
      SameShapeTrans(nodes, t.nodes, u.nodes);
      Run(u.nodes, t.visited + u.visited, None)
  }

  /** The first thread runs on the arena as given, the others on what it leaves. */
  lemma ThreadsCons(nodes: seq<Node>, rank: seq<nat>, proc: Processor, v: Visitor, cs: seq<Ref>, bound: nat)
    requires Ranked(nodes, rank) && AllBelow(nodes, rank, cs, bound) && |cs| > 0
    ensures cs[0] < |nodes| && rank[cs[0]] < bound
    ensures Ranked(Traverse(nodes, rank, proc, v, cs[0]).nodes, rank)
    ensures AllBelow(Traverse(nodes, rank, proc, v, cs[0]).nodes, rank, cs[1..], bound)
    ensures Threads(nodes, rank, proc, v, cs, bound).nodes ==
      Threads(Traverse(nodes, rank, proc, v, cs[0]).nodes, rank, proc, v, cs[1..], bound).nodes
  {
    SameShapeRanked(nodes, Traverse(nodes, rank, proc, v, cs[0]).nodes, rank);
  }

  /** `traverse_multi`: one thread per starting component, each catching its own exception. */
  function TraverseMulti(nodes: seq<Node>, rank: seq<nat>, proc: Processor, v: Visitor, roots: seq<Ref>): (t: Run)
    requires Ranked(nodes, rank) && forall i :: 0 <= i < |roots| ==> roots[i] < |nodes|
    ensures SameShape(nodes, t.nodes) && t.raised.None?
    decreases |roots|
  {
    if |roots| == 0 then Run(nodes, [], None)
    else
      var t := Traverse(nodes, rank, proc, v, roots[0]);
      SameShapeRanked(nodes, t.nodes, rank);
      var u := TraverseMulti(t.nodes, rank, proc, v, roots[1..]);
      SameShapeTrans(nodes, t.nodes, u.nodes);
      Run(u.nodes, t.visited + u.visited, None)
  }

  /** The threads from `roots[i..]`: the one from `roots[i]` first, then the others. */
  lemma TraverseMultiStep(nodes: seq<Node>, rank: seq<nat>, proc: Processor, v: Visitor, roots: seq<Ref>, i: nat)
    requires Ranked(nodes, rank) && (forall k :: 0 <= k < |roots| ==> roots[k] < |nodes|) && i < |roots|
    ensures Ranked(Traverse(nodes, rank, proc, v, roots[i]).nodes, rank)
    ensures |Traverse(nodes, rank, proc, v, roots[i]).nodes| == |nodes|
    ensures TraverseMulti(nodes, rank, proc, v, roots[i..]).nodes ==
      TraverseMulti(Traverse(nodes, rank, proc, v, roots[i]).nodes, rank, proc, v, roots[i + 1..]).nodes
  {
    SameShapeRanked(nodes, Traverse(nodes, rank, proc, v, roots[i]).nodes, rank);
    assert roots[i..][0] == roots[i] && roots[i..][1..] == roots[i + 1..];
  }

  /** The same walk order on two arenas with the same links. */
  lemma {:induction false} WalkSameShape(a: seq<Node>, b: seq<Node>, rank: seq<nat>, c: Ref)
    requires Ranked(a, rank) && SameShape(a, b) && c < |a|
    ensures Ranked(b, rank) && Walk(a, rank, c) == Walk(b, rank, c)
    decreases rank[c], 1
  {
    SameShapeRanked(a, b, rank);
    WalkAllSameShape(a, b, rank, Next(a, c), rank[c]);
  }

  lemma {:induction false} WalkAllSameShape(a: seq<Node>, b: seq<Node>, rank: seq<nat>, cs: seq<Ref>, bound: nat)
    requires Ranked(a, rank) && SameShape(a, b) && AllBelow(a, rank, cs, bound)
    ensures Ranked(b, rank) && AllBelow(b, rank, cs, bound) && WalkAll(a, rank, cs, bound) == WalkAll(b, rank, cs, bound)
    decreases bound, 0, |cs|
  {
    SameShapeRanked(a, b, rank);
    if |cs| > 0 {
      WalkSameShape(a, b, rank, cs[0]);
      WalkAllSameShape(a, b, rank, cs[1..], bound);
    }
  }

  /** Every component a walk visits lies on the walk order from its start. */
  lemma {:induction false} TraverseWithinWalk(nodes: seq<Node>, rank: seq<nat>, proc: Processor, v: Visitor, c: Ref)
    requires Ranked(nodes, rank) && c < |nodes|
    ensures forall q :: q in Traverse(nodes, rank, proc, v, c).visited ==> q in Walk(nodes, rank, c)
    decreases rank[c], 1
  {
    var s := Visit(Mark(nodes, c), c, v, proc);
    SameShapeTrans(nodes, Mark(nodes, c), s.nodes);
    SameShapeRanked(nodes, s.nodes, rank);
    var nx := Next(nodes, c);
    if !s.status.Raised? && |nx| > 0 {
      WalkAllSameShape(nodes, s.nodes, rank, nx, rank[c]);
      if |nx| == 1 {
        TraverseWithinWalk(s.nodes, rank, proc, v, nx[0]);
        WalkSameShape(nodes, s.nodes, rank, nx[0]);
        assert WalkAll(nodes, rank, nx, rank[c]) == Walk(nodes, rank, nx[0]) + WalkAll(nodes, rank, nx[1..], rank[c]);
      } else {
        ThreadsWithinWalk(s.nodes, rank, proc, v, nx, rank[c]);
      }
    }
  }

  lemma {:induction false} ThreadsWithinWalk(nodes: seq<Node>, rank: seq<nat>, proc: Processor, v: Visitor, cs: seq<Ref>, bound: nat)
    requires Ranked(nodes, rank) && AllBelow(nodes, rank, cs, bound)
    ensures forall q :: q in Threads(nodes, rank, proc, v, cs, bound).visited ==> q in WalkAll(nodes, rank, cs, bound)
    decreases bound, 0, |cs|
  {
    if |cs| > 0 {
      var t := Traverse(nodes, rank, proc, v, cs[0]);
      SameShapeRanked(nodes, t.nodes, rank);
      TraverseWithinWalk(nodes, rank, proc, v, cs[0]);
      ThreadsWithinWalk(t.nodes, rank, proc, v, cs[1..], bound);
      WalkAllSameShape(nodes, t.nodes, rank, cs[1..], bound);
    }
  }

  /**
   * Every component of the model holds an ingredient list (none is `None`), so draining one never
   * raises, and a drain visits exactly the walk order, repeats included.
   */
  lemma {:induction false} DrainFollowsWalk(nodes: seq<Node>, rank: seq<nat>, proc: Processor, c: Ref)
    requires Ranked(nodes, rank) && c < |nodes|
    ensures Traverse(nodes, rank, proc, Drain, c).raised.None?
    ensures Traverse(nodes, rank, proc, Drain, c).visited == Walk(nodes, rank, c)
    decreases rank[c], 1
  {
    var s := Visit(Mark(nodes, c), c, Drain, proc);
    SameShapeTrans(nodes, Mark(nodes, c), s.nodes);
    SameShapeRanked(nodes, s.nodes, rank);
    var nx := Next(nodes, c);
    if |nx| > 0 {
      WalkAllSameShape(nodes, s.nodes, rank, nx, rank[c]);
      if |nx| == 1 {
        DrainFollowsWalk(s.nodes, rank, proc, nx[0]);
        WalkSameShape(nodes, s.nodes, rank, nx[0]);
        assert WalkAll(nodes, rank, nx, rank[c]) == Walk(nodes, rank, nx[0]) + WalkAll(nodes, rank, nx[1..], rank[c]);
        assert WalkAll(nodes, rank, nx[1..], rank[c]) == [];
      } else {
        DrainThreadsFollowWalk(s.nodes, rank, proc, nx, rank[c]);
      }
    }
  }

  lemma {:induction false} DrainThreadsFollowWalk(nodes: seq<Node>, rank: seq<nat>, proc: Processor, cs: seq<Ref>, bound: nat)
    requires Ranked(nodes, rank) && AllBelow(nodes, rank, cs, bound)
    ensures Threads(nodes, rank, proc, Drain, cs, bound).visited == WalkAll(nodes, rank, cs, bound)
    decreases bound, 0, |cs|
  {
    if |cs| > 0 {
      var t := Traverse(nodes, rank, proc, Drain, cs[0]);
      SameShapeRanked(nodes, t.nodes, rank);
      DrainFollowsWalk(nodes, rank, proc, cs[0]);
      DrainThreadsFollowWalk(t.nodes, rank, proc, cs[1..], bound);
      WalkAllSameShape(nodes, t.nodes, rank, cs[1..], bound);
    }
  }

  /** How a walk leaves the `traversed` flags: set on every visited component when simulating,
    * cleared on every visited component when draining, untouched elsewhere. */
  predicate FlagsAfter(before: seq<Node>, after: seq<Node>, visited: seq<Ref>, v: Visitor)
    requires |before| == |after|
  {
    forall q :: 0 <= q < |before| ==>
      after[q].traversed == (if q in visited then v == Simulate else before[q].traversed)
  }

  lemma FlagsAfterTrans(a: seq<Node>, b: seq<Node>, c: seq<Node>, x: seq<Ref>, y: seq<Ref>, v: Visitor)
    requires |a| == |b| == |c| && FlagsAfter(a, b, x, v) && FlagsAfter(b, c, y, v)
    ensures FlagsAfter(a, c, x + y, v)
  {
    forall q | 0 <= q < |a|
      ensures c[q].traversed == (if q in x + y then v == Simulate else a[q].traversed)
    {
      assert q in x + y <==> q in x || q in y;
    }
  }

  lemma {:induction false} TraverseFlags(nodes: seq<Node>, rank: seq<nat>, proc: Processor, v: Visitor, c: Ref)
    requires Ranked(nodes, rank) && c < |nodes|
    ensures |Traverse(nodes, rank, proc, v, c).nodes| == |nodes|
    ensures FlagsAfter(nodes, Traverse(nodes, rank, proc, v, c).nodes, Traverse(nodes, rank, proc, v, c).visited, v)
    decreases rank[c], 1
  {
    var m := Mark(nodes, c);
    var s := Visit(m, c, v, proc);
    SameShapeTrans(nodes, m, s.nodes);
    SameShapeRanked(nodes, s.nodes, rank);
    assert FlagsAfter(nodes, s.nodes, [c], v) by {
      forall q | 0 <= q < |nodes|
        ensures s.nodes[q].traversed == (if q in [c] then v == Simulate else nodes[q].traversed)
      {
        if v == Simulate {
          assert Frame(m[q]) == Frame(s.nodes[q]);
        }
      }
    }
    var nx := Next(nodes, c);
    if !s.status.Raised? && |nx| > 0 {
      if |nx| == 1 {
        TraverseFlags(s.nodes, rank, proc, v, nx[0]);
        FlagsAfterTrans(nodes, s.nodes, Traverse(s.nodes, rank, proc, v, nx[0]).nodes, [c], Traverse(s.nodes, rank, proc, v, nx[0]).visited, v);
      } else {
        ThreadsFlags(s.nodes, rank, proc, v, nx, rank[c]);
        FlagsAfterTrans(nodes, s.nodes, Threads(s.nodes, rank, proc, v, nx, rank[c]).nodes, [c], Threads(s.nodes, rank, proc, v, nx, rank[c]).visited, v);
      }
    }
  }

  lemma {:induction false} ThreadsFlags(nodes: seq<Node>, rank: seq<nat>, proc: Processor, v: Visitor, cs: seq<Ref>, bound: nat)
    requires Ranked(nodes, rank) && AllBelow(nodes, rank, cs, bound)
    ensures |Threads(nodes, rank, proc, v, cs, bound).nodes| == |nodes|
    ensures FlagsAfter(nodes, Threads(nodes, rank, proc, v, cs, bound).nodes, Threads(nodes, rank, proc, v, cs, bound).visited, v)
    decreases bound, 0, |cs|
  {
    if |cs| > 0 {
      var t := Traverse(nodes, rank, proc, v, cs[0]);
      SameShapeRanked(nodes, t.nodes, rank);
      TraverseFlags(nodes, rank, proc, v, cs[0]);
      ThreadsFlags(t.nodes, rank, proc, v, cs[1..], bound);
      var u := Threads(t.nodes, rank, proc, v, cs[1..], bound);
      FlagsAfterTrans(nodes, t.nodes, u.nodes, t.visited, u.visited, v);
    }
  }

  /** How a drain leaves the arena: every visited component drained, every other one untouched. */
  predicate DrainedAfter(before: seq<Node>, after: seq<Node>, visited: seq<Ref>)
  {
    |before| == |after| &&
    forall q :: 0 <= q < |before| ==> after[q] == (if q in visited then Drained(before[q]) else before[q])
  }

  lemma DrainedAfterTrans(a: seq<Node>, b: seq<Node>, c: seq<Node>, x: seq<Ref>, y: seq<Ref>)
    requires DrainedAfter(a, b, x) && DrainedAfter(b, c, y)
    ensures DrainedAfter(a, c, x + y)
  {
    forall q | 0 <= q < |a|
      ensures c[q] == (if q in x + y then Drained(a[q]) else a[q])
    {
      assert q in x + y <==> q in x || q in y;
      assert Drained(Drained(a[q])) == Drained(a[q]);
    }
  }

  lemma {:induction false} TraverseDrains(nodes: seq<Node>, rank: seq<nat>, proc: Processor, c: Ref)
    requires Ranked(nodes, rank) && c < |nodes|
    ensures DrainedAfter(nodes, Traverse(nodes, rank, proc, Drain, c).nodes, Traverse(nodes, rank, proc, Drain, c).visited)
    decreases rank[c], 1
  {
    var m := Mark(nodes, c);
    var s := Visit(m, c, Drain, proc);
    SameShapeTrans(nodes, m, s.nodes);
    SameShapeRanked(nodes, s.nodes, rank);
    assert DrainedAfter(nodes, s.nodes, [c]) by {
      assert Drained(m[c]) == Drained(nodes[c]);
    }
    var nx := Next(nodes, c);
    if |nx| == 1 {
      TraverseDrains(s.nodes, rank, proc, nx[0]);
      var t := Traverse(s.nodes, rank, proc, Drain, nx[0]);
      DrainedAfterTrans(nodes, s.nodes, t.nodes, [c], t.visited);
    } else if |nx| > 1 {
      ThreadsDrain(s.nodes, rank, proc, nx, rank[c]);
      var t := Threads(s.nodes, rank, proc, Drain, nx, rank[c]);
      DrainedAfterTrans(nodes, s.nodes, t.nodes, [c], t.visited);
    }
  }

  lemma {:induction false} ThreadsDrain(nodes: seq<Node>, rank: seq<nat>, proc: Processor, cs: seq<Ref>, bound: nat)
    requires Ranked(nodes, rank) && AllBelow(nodes, rank, cs, bound)
    ensures DrainedAfter(nodes, Threads(nodes, rank, proc, Drain, cs, bound).nodes, Threads(nodes, rank, proc, Drain, cs, bound).visited)
    decreases bound, 0, |cs|
  {
    if |cs| > 0 {
      var t := Traverse(nodes, rank, proc, Drain, cs[0]);
      SameShapeRanked(nodes, t.nodes, rank);
      TraverseDrains(nodes, rank, proc, cs[0]);
      ThreadsDrain(t.nodes, rank, proc, cs[1..], bound);
      var u := Threads(t.nodes, rank, proc, Drain, cs[1..], bound);
      DrainedAfterTrans(nodes, t.nodes, u.nodes, t.visited, u.visited);
    }
  }

  /**
   * Draining from `c` drains exactly the components downstream of `c` and nothing else (each of
   * them holding an ingredient list, as every component of the model does).
   */
  lemma DrainFromSpec(nodes: seq<Node>, rank: seq<nat>, proc: Processor, c: Ref)
    requires Ranked(nodes, rank) && c < |nodes|
    ensures var t := Traverse(nodes, rank, proc, Drain, c);
      t.raised.None? && |t.nodes| == |nodes| &&
      forall q :: 0 <= q < |nodes| ==>
        t.nodes[q] == (if q in Walk(nodes, rank, c) then Drained(nodes[q]) else nodes[q])
  {
    DrainFollowsWalk(nodes, rank, proc, c);
    TraverseDrains(nodes, rank, proc, c);
  }

  /** How often `x` occurs in a walk order. */
  function Occurrences(w: seq<Ref>, x: Ref): nat
  {
    if |w| == 0 then 0 else (if w[0] == x then 1 else 0) + Occurrences(w[1..], x)
  }

  lemma {:induction false} OccurrencesIn(w: seq<Ref>, x: Ref)
    ensures x in w <==> Occurrences(w, x) > 0
  {
    if |w| > 0 {
      assert w == [w[0]] + w[1..];
      OccurrencesIn(w[1..], x);
    }
  }

  lemma {:induction false} OccurrencesAppend(a: seq<Ref>, b: seq<Ref>, x: Ref)
    ensures Occurrences(a + b, x) == Occurrences(a, x) + Occurrences(b, x)
  {
    if |a| == 0 {
      assert a + b == b;
    } else {
      assert (a + b)[0] == a[0] && (a + b)[1..] == a[1..] + b;
      OccurrencesAppend(a[1..], b, x);
    }
  }

  /** The occurrences in a walk over several starts add up over the starts. */
  lemma WalkAllCons(nodes: seq<Node>, rank: seq<nat>, cs: seq<Ref>, bound: nat, x: Ref)
    requires Ranked(nodes, rank) && AllBelow(nodes, rank, cs, bound) && |cs| > 0
    ensures AllBelow(nodes, rank, cs[1..], bound)
    ensures Occurrences(WalkAll(nodes, rank, cs, bound), x) ==
      Occurrences(Walk(nodes, rank, cs[0]), x) + Occurrences(WalkAll(nodes, rank, cs[1..], bound), x)
  {
    assert AllBelow(nodes, rank, cs[1..], bound);
    assert WalkAll(nodes, rank, cs, bound) == Walk(nodes, rank, cs[0]) + WalkAll(nodes, rank, cs[1..], bound);
    OccurrencesAppend(Walk(nodes, rank, cs[0]), WalkAll(nodes, rank, cs[1..], bound), x);
  }

  lemma {:induction false} WalkInWalkAll(nodes: seq<Node>, rank: seq<nat>, cs: seq<Ref>, bound: nat, i: nat, x: Ref)
    requires Ranked(nodes, rank) && AllBelow(nodes, rank, cs, bound) && i < |cs|
    ensures Occurrences(Walk(nodes, rank, cs[i]), x) <= Occurrences(WalkAll(nodes, rank, cs, bound), x)
    decreases |cs|
  {
    WalkAllCons(nodes, rank, cs, bound, x);
    if i > 0 {
      assert cs[1..][i - 1] == cs[i];
      WalkInWalkAll(nodes, rank, cs[1..], bound, i - 1, x);
    }
  }

  lemma {:induction false} TwoWalksInWalkAll(nodes: seq<Node>, rank: seq<nat>, cs: seq<Ref>, bound: nat, i: nat, j: nat, x: Ref)
    requires Ranked(nodes, rank) && AllBelow(nodes, rank, cs, bound) && i < j < |cs|
    ensures Occurrences(Walk(nodes, rank, cs[i]), x) + Occurrences(Walk(nodes, rank, cs[j]), x) <= Occurrences(WalkAll(nodes, rank, cs, bound), x)
    decreases |cs|
  {
    WalkAllCons(nodes, rank, cs, bound, x);
    var tail := cs[1..];
    var all := Occurrences(WalkAll(nodes, rank, cs, bound), x);
    var rest := Occurrences(WalkAll(nodes, rank, tail, bound), x);
    var first := Occurrences(Walk(nodes, rank, cs[0]), x);
    var atJ := Occurrences(Walk(nodes, rank, cs[j]), x);
    assert all == first + rest;
    assert tail[j - 1] == cs[j];
    if i == 0 {
      WalkInWalkAll(nodes, rank, tail, bound, j - 1, x);
      assert atJ <= rest;
    } else {
      assert tail[i - 1] == cs[i];
      TwoWalksInWalkAll(nodes, rank, tail, bound, i - 1, j - 1, x);
      assert Occurrences(Walk(nodes, rank, cs[i]), x) + atJ <= rest;
    }
  }

  /**
   * There is no visited check: a component downstream of two outputs of the same building is
   * visited once along each of them.
   */
  lemma VisitedTwice(nodes: seq<Node>, rank: seq<nat>, proc: Processor, c: Ref, i: nat, j: nat, x: Ref)
    requires Ranked(nodes, rank) && c < |nodes| && i < j < |Next(nodes, c)|
    requires x in Walk(nodes, rank, Next(nodes, c)[i]) && x in Walk(nodes, rank, Next(nodes, c)[j])
    ensures Occurrences(Walk(nodes, rank, c), x) >= 2
    ensures Occurrences(Traverse(nodes, rank, proc, Drain, c).visited, x) >= 2
  {
    var nx := Next(nodes, c);
    TwoWalksInWalkAll(nodes, rank, nx, rank[c], i, j, x);
    OccurrencesIn(Walk(nodes, rank, nx[i]), x);
    OccurrencesIn(Walk(nodes, rank, nx[j]), x);
    OccurrencesAppend([c], WalkAll(nodes, rank, nx, rank[c]), x);
    DrainFollowsWalk(nodes, rank, proc, c);
  }

  /** `drain_component`, in place. */
  method DrainComponent(h: Heap, r: Ref)
    requires r < |h.nodes|
    modifies h
    ensures h.nodes == old(h.nodes)[r := Drained(old(h.nodes)[r])]
  {
    var n := h.nodes[r].(errors := [], traversed := false);
    if !n.kind.Resource? {
      n := n.(ingredients := []);
    }
    h.nodes := h.nodes[r := n];
  }

  /** `simulate_component`: runs the component's own `process`. */
  method SimulateComponent(h: Heap, r: Ref) returns (status: Status)
    requires WF(h.nodes) && r < |h.nodes|
    modifies h
    ensures Step(h.nodes, status) == Process(old(h.nodes), r)
  {
    match h.nodes[r].kind
    case InputPort(_, _, _) =>
      ProcessInput(h, r);
      status := Done;
    case OutputPort(_, _, _) =>
      var s := OutputProcess(h.nodes, r);
      h.nodes, status := s.nodes, s.status;
    case Resource(_, _, _, supply) =>
      var s := if supply.Ordinary? then ResourceProcess(h.nodes, r) else InfiniteProcess(h.nodes, r);
      h.nodes, status := s.nodes, s.status;
    case Building(cls, _, _, _, _, _, _, _) =>
      match cls
      case GenericClass =>
        var ok := ProcessBuilding(h, r);
        status := Returned(ok);
      case ConveyanceClass(_, _) =>
        status := ProcessConveyance(h, r);
      case StorageClass =>
        status := ProcessStorage(h, r);
      case SinkClass =>
        var s := SinkProcess(h.nodes, r);
        h.nodes, status := s.nodes, s.status;
      case MergerClass =>
        status := ProcessMerger(h, r);
      case SplitterClass =>
        var s := SplitterProcess(h.nodes, r);
        h.nodes, status := s.nodes, s.status;
      case MinerClass =>
        var s := MinerProcess(h.nodes, r);
        h.nodes, status := s.nodes, s.status;
      case JunctionClass =>
        status := ProcessJunction(h, r);
  }

  method VisitComponent(h: Heap, r: Ref, v: Visitor) returns (status: Status)
    requires WF(h.nodes) && r < |h.nodes|
    modifies h
    ensures Step(h.nodes, status) == Visit(old(h.nodes), r, v, FactoryStep)
  {
    if v == Drain {
      DrainComponent(h, r);
      status := Done;
    } else {
      status := SimulateComponent(h, r);
    }
  }

  /** `traverse`, recursing on the arena in place. */
  method TraverseFrom(h: Heap, ghost rank: seq<nat>, v: Visitor, c: Ref) returns (raised: Option<PyError>)
    requires Ranked(h.nodes, rank) && c < |h.nodes|
    modifies h
    ensures h.nodes == Traverse(old(h.nodes), rank, FactoryStep, v, c).nodes
    ensures raised == Traverse(old(h.nodes), rank, FactoryStep, v, c).raised
    decreases rank[c], 1
  {
    ghost var n0 := h.nodes;
    h.nodes := h.nodes[c := h.nodes[c].(traversed := true)];
    assert h.nodes == Mark(n0, c);
    SameShapeWF(n0, h.nodes);
    var status := VisitComponent(h, c, v);
    SameShapeTrans(n0, Mark(n0, c), h.nodes);
    SameShapeRanked(n0, h.nodes, rank);
    var nx := Next(h.nodes, c);
    assert nx == Next(n0, c);
    if status.Raised? {
      raised := Some(status.error);
    } else if |nx| == 0 {
      raised := None;
    } else if |nx| == 1 {
      raised := TraverseFrom(h, rank, v, nx[0]);
    } else {
      TraverseThreadsFrom(h, rank, v, nx, rank[c]);
      raised := None;
    }
  }

  /** The threads `traverse` starts at a component with several outputs, one after the other;
    * what each raises is dropped. */
  method TraverseThreadsFrom(h: Heap, ghost rank: seq<nat>, v: Visitor, cs: seq<Ref>, ghost bound: nat)
    requires Ranked(h.nodes, rank) && AllBelow(h.nodes, rank, cs, bound)
    modifies h
    ensures h.nodes == Threads(old(h.nodes), rank, FactoryStep, v, cs, bound).nodes
    decreases bound, 0
  {
    ghost var goal := Threads(h.nodes, rank, FactoryStep, v, cs, bound).nodes;
    var i := 0;
    assert cs[i..] == cs;
    while i < |cs|
      invariant 0 <= i <= |cs|
      invariant Ranked(h.nodes, rank) && AllBelow(h.nodes, rank, cs[i..], bound)
      invariant Threads(h.nodes, rank, FactoryStep, v, cs[i..], bound).nodes == goal
      decreases |cs| - i
    {
      ghost var before := h.nodes;
      assert cs[i..][0] == cs[i] && cs[i..][1..] == cs[i + 1..];
      ThreadsCons(before, rank, FactoryStep, v, cs[i..], bound);
      var ignored := TraverseFrom(h, rank, v, cs[i]);
      SameShapeRanked(before, h.nodes, rank);
      i := i + 1;
    }
  }

  /** `traverse_multi`: the threads for the starting components, one after the other. */
  method TraverseMultiFrom(h: Heap, ghost rank: seq<nat>, v: Visitor, roots: seq<Ref>)
    requires Ranked(h.nodes, rank) && forall i :: 0 <= i < |roots| ==> roots[i] < |h.nodes|
    modifies h
    ensures h.nodes == TraverseMulti(old(h.nodes), rank, FactoryStep, v, roots).nodes
  {
    ghost var n0 := h.nodes;
    var i := 0;
    assert roots[i..] == roots;
    while i < |roots|
      invariant 0 <= i <= |roots| && Ranked(h.nodes, rank) && |h.nodes| == |n0|
      invariant TraverseMulti(h.nodes, rank, FactoryStep, v, roots[i..]).nodes == TraverseMulti(n0, rank, FactoryStep, v, roots).nodes
    {
      TraverseMultiStep(h.nodes, rank, FactoryStep, v, roots, i);
      var ignored := TraverseFrom(h, rank, v, roots[i]);
      i := i + 1;
    }
  }

}
