/**
 * The factory aggregate of satisfactory/factories.py: an ordered list of components (references
 * into the arena, duplicates allowed), the lookups over it, the two reset operations and the
 * simulation that walks downstream from every resource node.
 */
module Factories {
  import opened Wrappers
  import opened Base
  import opened Text
  import opened Graph
  import opened Transport
  import opened Linking
  import opened Simulation

  // ---------------------------------------------------------------------------------------------
  // Queries

  /** An order-preserving selection, the shape of every list comprehension over the components. */
  function Filter(cs: seq<Ref>, p: Ref -> bool): (r: seq<Ref>)
    ensures |r| <= |cs|
    ensures forall x :: x in r <==> x in cs && p(x)
  {
    if |cs| == 0 then [] else (if p(cs[0]) then [cs[0]] else []) + Filter(cs[1..], p)
  }

  /** Filtering keeps the relative order: it distributes over concatenation. */
  lemma {:induction false} FilterAppend(a: seq<Ref>, b: seq<Ref>, p: Ref -> bool)
    ensures Filter(a + b, p) == Filter(a, p) + Filter(b, p)
  {
    if |a| > 0 {
      assert (a + b)[0] == a[0] && (a + b)[1..] == a[1..] + b;
      FilterAppend(a[1..], b, p);
      var head := if p(a[0]) then [a[0]] else [];
      calc {
        Filter(a + b, p);
        head + Filter(a[1..] + b, p);
        head + (Filter(a[1..], p) + Filter(b, p));
        (head + Filter(a[1..], p)) + Filter(b, p);
        Filter(a, p) + Filter(b, p);
      }
    } else {
      assert a + b == b;
    }
  }

  /** `resource_nodes`: plain and infinite supply nodes, in list order. */
  function ResourceNodes(nodes: seq<Node>, cs: seq<Ref>): (r: seq<Ref>)
    ensures forall x :: x in r <==> x in cs && IsResource(nodes, x)
    ensures forall i :: 0 <= i < |r| ==> IsResource(nodes, r[i])
  {
    Filter(cs, (q: Ref) => IsResource(nodes, q))
  }

  /** `get_buildings_by_type`. */
  function BuildingsByType(nodes: seq<Node>, cs: seq<Ref>, t: BuildingType): (r: seq<Ref>)
    ensures forall x :: x in r <==> x in cs && IsBuilding(nodes, x) && nodes[x].kind.buildingType == t
  {
    Filter(cs, (q: Ref) => IsBuilding(nodes, q) && nodes[q].kind.buildingType == t)
  }

  /** `name in component.name` when fuzzy, `component.name == name` otherwise. */
  predicate NameMatches(name: string, sought: string, fuzzy: bool)
  {
    if fuzzy then Contains(name, sought) else name == sought
  }

  /** `get_components_by_name`. */
  function ComponentsByName(nodes: seq<Node>, cs: seq<Ref>, name: string, fuzzy: bool): (r: seq<Ref>)
    requires InRange(nodes, cs)
    ensures forall x :: x in r <==> x in cs && NameMatches(nodes[x].meta.name, name, fuzzy)
  {
    Filter(cs, (q: Ref) => q < |nodes| && NameMatches(nodes[q].meta.name, name, fuzzy))
  }

  /**
   * The tag test of `get_components_by_tag`: the key must be present; with no value that is
   * enough, otherwise the value is a substring of the tag's (fuzzy) or equal to it.
   */
  predicate TagMatches(tags: map<string, string>, key: string, value: Option<string>, fuzzy: bool)
  {
    key in tags &&
    (value.None? || (if fuzzy then Contains(tags[key], value.value) else tags[key] == value.value))
  }

  /** `get_components_by_tag`; a dictionary holds a key once, so a component is listed at most once. */
  function ComponentsByTag(nodes: seq<Node>, cs: seq<Ref>, key: string, value: Option<string>, fuzzy: bool): (r: seq<Ref>)
    requires InRange(nodes, cs)
    ensures forall x :: x in r <==> x in cs && TagMatches(nodes[x].meta.tags, key, value, fuzzy)
  {
    Filter(cs, (q: Ref) => q < |nodes| && TagMatches(nodes[q].meta.tags, key, value, fuzzy))
  }

  /** A key that is present matches any tag value fuzzily when the value sought is empty. */
  lemma EmptyTagValueMatches(tags: map<string, string>, key: string)
    requires key in tags
    ensures TagMatches(tags, key, Some(""), true)
  {
    ContainsTrivial(tags[key]);
  }

  predicate HasId(nodes: seq<Node>, c: Ref, id: string)
    requires c < |nodes|
  {
    nodes[c].meta.id == id
  }

  /** The position of the first component with the given id. */
  function FirstWithId(nodes: seq<Node>, cs: seq<Ref>, id: string): (k: Option<nat>)
    requires InRange(nodes, cs)
    ensures k.Some? ==> k.value < |cs| && HasId(nodes, cs[k.value], id)
    ensures k.Some? ==> forall i :: 0 <= i < k.value ==> !HasId(nodes, cs[i], id)
    ensures k.None? <==> forall i :: 0 <= i < |cs| ==> !HasId(nodes, cs[i], id)
    decreases |cs|
  {
    if |cs| == 0 then None
    else if HasId(nodes, cs[0], id) then Some(0)
    else match FirstWithId(nodes, cs[1..], id)
      case None => None
      case Some(k) => Some(k + 1)
  }

  /** `get_component_by_id`: the first component with that id, or `None`. */
  function ComponentById(nodes: seq<Node>, cs: seq<Ref>, id: string): (r: Option<Ref>)
    requires InRange(nodes, cs)
    ensures r.None? <==> forall i :: 0 <= i < |cs| ==> !HasId(nodes, cs[i], id)
    ensures r.Some? ==>
      exists k :: 0 <= k < |cs| && cs[k] == r.value && HasId(nodes, cs[k], id) &&
        forall i :: 0 <= i < k ==> !HasId(nodes, cs[i], id)
  {
    match FirstWithId(nodes, cs, id)
    case None => None
    case Some(k) => Some(cs[k])
  }

  /** `remove`: drops the first component with the id, keeps the others in order. */
  function WithoutId(nodes: seq<Node>, cs: seq<Ref>, id: string): (r: seq<Ref>)
    requires InRange(nodes, cs)
    ensures (forall i :: 0 <= i < |cs| ==> !HasId(nodes, cs[i], id)) ==> r == cs
    ensures (exists i :: 0 <= i < |cs| && HasId(nodes, cs[i], id)) ==>
      exists k :: 0 <= k < |cs| && HasId(nodes, cs[k], id) &&
        (forall i :: 0 <= i < k ==> !HasId(nodes, cs[i], id)) &&
        r == cs[..k] + cs[k + 1..]
  {
    match FirstWithId(nodes, cs, id)
    case None => cs
    case Some(k) => cs[..k] + cs[k + 1..]
  }

  /** Removing takes out one occurrence and nothing else: the ids left over are the ones before. */
  lemma WithoutIdCounts(nodes: seq<Node>, cs: seq<Ref>, id: string)
    requires InRange(nodes, cs) && FirstWithId(nodes, cs, id).Some?
    ensures |WithoutId(nodes, cs, id)| == |cs| - 1
    ensures multiset(WithoutId(nodes, cs, id)) + multiset{cs[FirstWithId(nodes, cs, id).value]} == multiset(cs)
  {
    var f := FirstWithId(nodes, cs, id).value;
    assert WithoutId(nodes, cs, id) == cs[..f] + cs[f + 1..];
    RemoveAtCounts(cs, f);
  }

  /** An entry of the list given to `add`: a component, a list of components, or anything else. */
  datatype Entry = Single(component: Ref) | Group(members: seq<Ref>) | Ignored

  function Members(e: Entry): seq<Ref>
  {
    match e
    case Single(c) => [c]
    case Group(cs) => cs
    case Ignored => []
  }

  /** The components `add` appends, flattened one level, in order. */
  function Flatten(entries: seq<Entry>): (r: seq<Ref>)
    ensures forall x :: x in r <==> exists i :: 0 <= i < |entries| && x in Members(entries[i])
  {
    if |entries| == 0 then []
    else
      var n := |entries| - 1;
      var r := Flatten(entries[..n]) + Members(entries[n]);
      assert forall i :: 0 <= i < n ==> entries[..n][i] == entries[i];
      r
  }

  lemma FlattenStep(entries: seq<Entry>, i: nat)
    requires i < |entries|
    ensures Flatten(entries[..i + 1]) == Flatten(entries[..i]) + Members(entries[i])
  {
    assert entries[..i + 1][..i] == entries[..i];
  }

  predicate EntriesIn(nodes: seq<Node>, entries: seq<Entry>)
  {
    forall i :: 0 <= i < |entries| ==> InRange(nodes, Members(entries[i]))
  }

  /** The arena after the given components have had their `factory` set, one after another. */
  function Claim(nodes: seq<Node>, cs: seq<Ref>, f: nat): (result: seq<Node>)
    requires InRange(nodes, cs)
    ensures |result| == |nodes|
  {
    if |cs| == 0 then nodes
    else
      var n := |cs| - 1;
      assert InRange(nodes, cs[..n]);
      var m := Claim(nodes, cs[..n], f);
      m[cs[n] := m[cs[n]].(factory := Some(f))]
  }

  /** Claiming one more component. */
  lemma ClaimSnoc(nodes: seq<Node>, cs: seq<Ref>, x: Ref, f: nat)
    requires InRange(nodes, cs) && x < |nodes|
    ensures InRange(nodes, cs + [x])
    ensures Claim(nodes, cs + [x], f) == Claim(nodes, cs, f)[x := Claim(nodes, cs, f)[x].(factory := Some(f))]
  {
    assert (cs + [x])[..|cs|] == cs;
  }

  /** Exactly the listed components belong to the factory afterwards; nothing else changes. */
  lemma {:induction false} ClaimAt(nodes: seq<Node>, cs: seq<Ref>, f: nat)
    requires InRange(nodes, cs)
    ensures forall q :: 0 <= q < |nodes| ==>
      Claim(nodes, cs, f)[q] == if q in cs then nodes[q].(factory := Some(f)) else nodes[q]
  {
    if |cs| > 0 {
      var n := |cs| - 1;
      assert InRange(nodes, cs[..n]);
      ClaimAt(nodes, cs[..n], f);
      assert forall q :: q in cs <==> q in cs[..n] || q == cs[n] by {
        assert cs == cs[..n] + [cs[n]];
      }
    }
  }

  /** Links, names and working state are not part of what `add` changes. */
  lemma ClaimShape(nodes: seq<Node>, cs: seq<Ref>, f: nat)
    requires InRange(nodes, cs)
    ensures SameShape(nodes, Claim(nodes, cs, f)) && Preserves(nodes, Claim(nodes, cs, f)) == (forall q :: q in cs ==> nodes[q].factory == Some(f))
  {
    var m := Claim(nodes, cs, f);
    ClaimAt(nodes, cs, f);
    if forall q :: q in cs ==> nodes[q].factory == Some(f) {
      assert forall q :: 0 <= q < |nodes| ==> Frame(m[q]) == Frame(nodes[q]);
    } else {
      var q :| q in cs && nodes[q].factory != Some(f);
      assert Frame(m[q]) != Frame(nodes[q]);
    }
  }

  // ---------------------------------------------------------------------------------------------
  // Errors

  predicate HasErrorsAs(nodes: seq<Node>, c: Ref, k: string)
    requires c < |nodes|
  {
    |nodes[c].errors| > 0 && nodes[c].meta.id == k
  }

  /**
   * `get_errors`: the ids of the components with at least one error, each mapped to the errors
   * of the last such component with that id (later dictionary entries overwrite earlier ones).
   */
  function ErrorsById(nodes: seq<Node>, cs: seq<Ref>): map<string, seq<ComponentError>>
    requires InRange(nodes, cs)
  {
    if |cs| == 0 then map[]
    else
      var n := |cs| - 1;
      assert InRange(nodes, cs[..n]);
      var m := ErrorsById(nodes, cs[..n]);
      var c := cs[n];
      if |nodes[c].errors| > 0 then m[nodes[c].meta.id := nodes[c].errors] else m
  }

  /** The component whose errors `get_errors` reports under `k`: the last one with that id and errors. */
  predicate ReportedAt(nodes: seq<Node>, cs: seq<Ref>, k: string, i: int)
    requires InRange(nodes, cs)
  {
    0 <= i < |cs| && HasErrorsAs(nodes, cs[i], k) && forall j :: i < j < |cs| ==> !HasErrorsAs(nodes, cs[j], k)
  }

  /** The report under `k` stays where it was when the next component has no errors under `k`. */
  lemma ReportedStays(nodes: seq<Node>, cs: seq<Ref>, k: string, i: int)
    requires InRange(nodes, cs) && |cs| > 0 && InRange(nodes, cs[..|cs| - 1])
    requires ReportedAt(nodes, cs[..|cs| - 1], k, i) && !HasErrorsAs(nodes, cs[|cs| - 1], k)
    ensures ReportedAt(nodes, cs, k, i)
  {
    var n := |cs| - 1;
    assert cs[..n][i] == cs[i];
    forall j | i < j < |cs|
      ensures !HasErrorsAs(nodes, cs[j], k)
    {
      if j < n {
        assert cs[..n][j] == cs[j];
      }
    }
  }

  lemma {:induction false} ErrorsByIdSpec(nodes: seq<Node>, cs: seq<Ref>)
    requires InRange(nodes, cs)
    ensures forall k :: k in ErrorsById(nodes, cs) <==> exists i :: 0 <= i < |cs| && HasErrorsAs(nodes, cs[i], k)
    ensures forall k :: k in ErrorsById(nodes, cs) ==>
      exists i :: ReportedAt(nodes, cs, k, i) && ErrorsById(nodes, cs)[k] == nodes[cs[i]].errors
  {
    if |cs| > 0 {
      var n := |cs| - 1;
      var pre := cs[..n];
      assert InRange(nodes, pre);
      assert forall i :: 0 <= i < n ==> pre[i] == cs[i];
      ErrorsByIdSpec(nodes, pre);
      var m := ErrorsById(nodes, pre);
      var c := cs[n];
      var r := ErrorsById(nodes, cs);
      forall k | k in r
        ensures exists i :: ReportedAt(nodes, cs, k, i) && r[k] == nodes[cs[i]].errors
      {
        if HasErrorsAs(nodes, c, k) {
          assert ReportedAt(nodes, cs, k, n);
        } else {
          assert k in m && r[k] == m[k];
          var i :| ReportedAt(nodes, pre, k, i) && m[k] == nodes[pre[i]].errors;
          ReportedStays(nodes, cs, k, i);
          assert pre[i] == cs[i];
        }
      }
      forall k | exists i :: 0 <= i < |cs| && HasErrorsAs(nodes, cs[i], k)
        ensures k in r
      {
        var i :| 0 <= i < |cs| && HasErrorsAs(nodes, cs[i], k);
        if i < n {
          assert HasErrorsAs(nodes, pre[i], k);
          assert k in m;
        } else {
          assert cs[i] == c;
        }
      }
    }
  }

  /** One value of `get_errors_as_dict`: the component's name, its building type (shown as
    * `TypeLabel(buildingType)`) and its errors. */
  datatype ErrorReport = ErrorReport(component: string, buildingType: BuildingType, errors: seq<ComponentError>)

  /** The title-cased name of a building type, as the report shows it. */
  function TypeLabel(t: BuildingType): string
  {
    Title(BuildingTypeName(t))
  }

  /** What the report says about one component. */
  function ReportOf(n: Node): ErrorReport
    requires n.kind.Building?
  {
    ErrorReport(n.meta.name, n.kind.buildingType, n.errors)
  }

  /**
   * `get_errors_as_dict`: as `get_errors`, with the component's name and title-cased building
   * type; a component with errors that is not a building has no `building_type`, which raises.
   */
  function ErrorReports(nodes: seq<Node>, cs: seq<Ref>): Result<map<string, ErrorReport>, PyError>
    requires InRange(nodes, cs)
  {
    if |cs| == 0 then Success(map[])
    else
      var n := |cs| - 1;
      assert InRange(nodes, cs[..n]);
      var c := cs[n];
      var prev := ErrorReports(nodes, cs[..n]);
      if prev.Failure? || |nodes[c].errors| == 0 then prev
      else if !nodes[c].kind.Building? then Failure(AttributeError)
      else Success(prev.value[nodes[c].meta.id := ReportOf(nodes[c])])
  }

  /** A component with errors but no `building_type`. */
  predicate Unreportable(nodes: seq<Node>, c: Ref)
  {
    c < |nodes| && |nodes[c].errors| > 0 && !nodes[c].kind.Building?
  }

  /** The report raises exactly when a component with errors is not a building. */
  lemma {:induction false} ErrorReportsRaises(nodes: seq<Node>, cs: seq<Ref>)
    requires InRange(nodes, cs)
    ensures ErrorReports(nodes, cs).Failure? <==> exists i :: 0 <= i < |cs| && Unreportable(nodes, cs[i])
    ensures ErrorReports(nodes, cs).Failure? ==> ErrorReports(nodes, cs).error == AttributeError
  {
    if |cs| > 0 {
      var n := |cs| - 1;
      var pre := cs[..n];
      assert InRange(nodes, pre);
      ErrorReportsRaises(nodes, pre);
      var prev := ErrorReports(nodes, pre);
      if exists i :: 0 <= i < |cs| && Unreportable(nodes, cs[i]) {
        var i :| 0 <= i < |cs| && Unreportable(nodes, cs[i]);
        if i < n {
          assert pre[i] == cs[i];
          assert prev.Failure?;
        } else {
          assert Unreportable(nodes, cs[n]);
        }
      }
      if ErrorReports(nodes, cs).Failure? {
        if prev.Failure? {
          var i :| 0 <= i < |pre| && Unreportable(nodes, pre[i]);
          assert cs[i] == pre[i];
        } else {
          assert Unreportable(nodes, cs[n]);
        }
      }
    }
  }

  /** Otherwise it has the keys of `get_errors`. */
  lemma {:induction false} ErrorReportsKeys(nodes: seq<Node>, cs: seq<Ref>)
    requires InRange(nodes, cs) && ErrorReports(nodes, cs).Success?
    ensures ErrorReports(nodes, cs).value.Keys == ErrorsById(nodes, cs).Keys
  {
    if |cs| > 0 {
      var n := |cs| - 1;
      assert InRange(nodes, cs[..n]);
      assert ErrorReports(nodes, cs[..n]).Success?;
      ErrorReportsKeys(nodes, cs[..n]);
    }
  }

  /** Under each key it has the report of the component whose errors `get_errors` gives. */
  lemma {:induction false} ErrorReportsAgree(nodes: seq<Node>, cs: seq<Ref>)
    requires InRange(nodes, cs) && ErrorReports(nodes, cs).Success?
    ensures forall k :: k in ErrorReports(nodes, cs).value ==>
      exists i :: ReportedAt(nodes, cs, k, i) && nodes[cs[i]].kind.Building? &&
        ErrorReports(nodes, cs).value[k] == ReportOf(nodes[cs[i]])
  {
    ErrorReportsKeys(nodes, cs);
    if |cs| > 0 {
      var n := |cs| - 1;
      var pre := cs[..n];
      assert InRange(nodes, pre);
      var prev := ErrorReports(nodes, pre);
      assert prev.Success?;
      ErrorReportsAgree(nodes, pre);
      ErrorReportsKeys(nodes, pre);
      var c := cs[n];
      var r := ErrorReports(nodes, cs).value;
      forall k | k in r
        ensures exists i :: ReportedAt(nodes, cs, k, i) && nodes[cs[i]].kind.Building? && r[k] == ReportOf(nodes[cs[i]])
      {
        if HasErrorsAs(nodes, c, k) {
          assert nodes[c].kind.Building?;
          assert r[k] == ReportOf(nodes[c]);
          assert ReportedAt(nodes, cs, k, n);
        } else {
          assert k in prev.value && r[k] == prev.value[k];
          var i :| ReportedAt(nodes, pre, k, i) && nodes[pre[i]].kind.Building? && prev.value[k] == ReportOf(nodes[pre[i]]);
          assert pre[i] == cs[i];
          ReportedStays(nodes, cs, k, i);
        }
      }
    }
  }

  /** A resource node or port with an error is enough to make the report raise. */
  lemma ErrorReportsRaise(nodes: seq<Node>, cs: seq<Ref>, c: Ref)
    requires InRange(nodes, cs) && c in cs && Unreportable(nodes, c)
    ensures ErrorReports(nodes, cs) == Failure(AttributeError)
  {
    var i :| 0 <= i < |cs| && cs[i] == c;
    ErrorReportsRaises(nodes, cs);
  }

  // ---------------------------------------------------------------------------------------------
  // Available connections

  /** An open port of another component: the component, the port and its index in its list. */
  datatype Opening = Opening(component: Ref, connection: Ref, index: nat)

  /** The free ports of type `t` in a port list, with their indices, in list order. */
  function Openings(nodes: seq<Node>, c: Ref, ports: seq<Ref>, t: ConveyanceType): (r: seq<Opening>)
    requires InRange(nodes, ports)
    ensures forall o :: o in r ==> o.component == c && o.index < |ports| && o.connection == ports[o.index] && Free(nodes[o.connection], t)
    ensures forall i :: 0 <= i < |ports| && Free(nodes[ports[i]], t) ==> Opening(c, ports[i], i) in r
  {
    if |ports| == 0 then []
    else
      var n := |ports| - 1;
      assert InRange(nodes, ports[..n]);
      assert forall i :: 0 <= i < n ==> ports[..n][i] == ports[i];
      Openings(nodes, c, ports[..n], t) + (if Free(nodes[ports[n]], t) then [Opening(c, ports[n], n)] else [])
  }

  /** The list `get_available_connections` reads: inputs when matching an output, outputs otherwise;
    * a port in the component list has neither attribute. */
  function Facing(nodes: seq<Node>, c: Ref, wantInputs: bool): (r: Result<seq<Ref>, PyError>)
    requires WF(nodes) && c < |nodes|
    ensures r.Success? ==> InRange(nodes, r.value)
    ensures r.Failure? <==> !IsOwner(nodes, c)
    ensures r.Failure? ==> r.error == AttributeError
    ensures r.Success? && wantInputs ==> AllInputs(nodes, r.value)
    ensures r.Success? && !wantInputs ==> AllOutputs(nodes, r.value)
  {
    assert KindOk(nodes, nodes[c].kind);
    match nodes[c].kind
    case Building(_, _, _, _, _, _, inputs, outputs) => Success(if wantInputs then inputs else outputs)
    case Resource(_, _, output, _) => Success(if wantInputs then [] else [output])
    case _ => Failure(AttributeError)
  }

  /** Components that are looked at: not the port's own component, not a conveyance. */
  predicate Considered(nodes: seq<Node>, c: Ref, owner: Ref)
  {
    c != owner && !IsConveyance(nodes, c)
  }

  predicate IsPort(nodes: seq<Node>, p: Ref)
  {
    IsInput(nodes, p) || IsOutput(nodes, p)
  }

  /** The open ports of one component that would pair with `port`. */
  function Candidates(nodes: seq<Node>, c: Ref, port: Ref): (r: Result<seq<Opening>, PyError>)
    requires WF(nodes) && c < |nodes| && IsPort(nodes, port)
  {
    var p := nodes[port].kind;
    match Facing(nodes, c, p.OutputPort?)
    case Failure(e) => Failure(e)
    case Success(ports) => Success(Openings(nodes, c, ports, p.conveyance))
  }

  /** Component `c` is offered for `port`: it is looked at and has at least one open port that pairs. */
  predicate Offered(nodes: seq<Node>, c: Ref, port: Ref)
    requires WF(nodes) && c < |nodes| && IsPort(nodes, port)
  {
    Considered(nodes, c, nodes[port].kind.owner) && Candidates(nodes, c, port).Success? &&
    |Candidates(nodes, c, port).value| > 0
  }

  /** `m` is keyed by the ids of the offered components, each with the open ports of one of them. */
  ghost predicate Offers(nodes: seq<Node>, cs: seq<Ref>, port: Ref, m: map<string, seq<Opening>>)
    requires WF(nodes) && InRange(nodes, cs) && IsPort(nodes, port)
  {
    Covers(nodes, cs, port, m) && Describes(nodes, cs, port, m)
  }

  /** Every offered component's id is a key of `m`. */
  ghost predicate Covers(nodes: seq<Node>, cs: seq<Ref>, port: Ref, m: map<string, seq<Opening>>)
    requires WF(nodes) && InRange(nodes, cs) && IsPort(nodes, port)
  {
    forall i :: 0 <= i < |cs| && Offered(nodes, cs[i], port) ==> nodes[cs[i]].meta.id in m
  }

  /** Every key of `m` is the id of an offered component, and maps to that component's open ports. */
  ghost predicate Describes(nodes: seq<Node>, cs: seq<Ref>, port: Ref, m: map<string, seq<Opening>>)
    requires WF(nodes) && InRange(nodes, cs) && IsPort(nodes, port)
  {
    forall k :: k in m ==>
      exists i :: 0 <= i < |cs| && Offered(nodes, cs[i], port) && nodes[cs[i]].meta.id == k &&
        m[k] == Candidates(nodes, cs[i], port).value
  }

  /**
   * `get_available_connections(port)`: the components other than the port's own and other than
   * conveyances, keyed by id, each with its open ports of the opposite direction and the same
   * type; a component without any is left out, and a later component with the same id wins.
   */
  function AvailableConnections(nodes: seq<Node>, cs: seq<Ref>, port: Ref): (r: Result<map<string, seq<Opening>>, PyError>)
    requires WF(nodes) && InRange(nodes, cs) && IsPort(nodes, port)
    ensures r.Failure? <==>
      exists i :: 0 <= i < |cs| && Considered(nodes, cs[i], nodes[port].kind.owner) && !IsOwner(nodes, cs[i])
    ensures r.Failure? ==> r.error == AttributeError
    ensures r.Success? ==> Offers(nodes, cs, port, r.value)
  {
    if |cs| == 0 then Success(map[])
    else
      var n := |cs| - 1;
      assert InRange(nodes, cs[..n]);
      assert forall i :: 0 <= i < n ==> cs[..n][i] == cs[i];
      var c := cs[n];
      match AvailableConnections(nodes, cs[..n], port)
      case Failure(e) => Failure(e)
      case Success(m) =>
        if !Considered(nodes, c, nodes[port].kind.owner) then
          CoversSkip(nodes, cs, port, m);
          DescribesSkip(nodes, cs, port, m);
          Success(m)
        else match Candidates(nodes, c, port)
          case Failure(e) => Failure(e)
          case Success(found) =>
            if |found| > 0 then
              CoversSnoc(nodes, cs, port, m, found);
              DescribesSnoc(nodes, cs, port, m, found);
              Success(m[nodes[c].meta.id := found])
            else
              CoversSkip(nodes, cs, port, m);
              DescribesSkip(nodes, cs, port, m);
              Success(m)
  }

  /** One more component in the list that is offered: it takes its id's entry. */
  lemma CoversSnoc(nodes: seq<Node>, cs: seq<Ref>, port: Ref, m: map<string, seq<Opening>>, found: seq<Opening>)
    requires WF(nodes) && InRange(nodes, cs) && IsPort(nodes, port) && |cs| > 0
    requires InRange(nodes, cs[..|cs| - 1]) && Covers(nodes, cs[..|cs| - 1], port, m)
    ensures Covers(nodes, cs, port, m[nodes[cs[|cs| - 1]].meta.id := found])
  {
    var n := |cs| - 1;
    var pre := cs[..n];
    forall i | 0 <= i < |cs| && Offered(nodes, cs[i], port)
      ensures nodes[cs[i]].meta.id in m[nodes[cs[n]].meta.id := found]
    {
      if i < n {
        assert pre[i] == cs[i];
        assert Offered(nodes, pre[i], port);
        assert nodes[pre[i]].meta.id in m;
      }
    }
  }

  lemma DescribesSnoc(nodes: seq<Node>, cs: seq<Ref>, port: Ref, m: map<string, seq<Opening>>, found: seq<Opening>)
    requires WF(nodes) && InRange(nodes, cs) && IsPort(nodes, port) && |cs| > 0
    requires InRange(nodes, cs[..|cs| - 1]) && Describes(nodes, cs[..|cs| - 1], port, m)
    requires Offered(nodes, cs[|cs| - 1], port) && Candidates(nodes, cs[|cs| - 1], port) == Success(found)
    ensures Describes(nodes, cs, port, m[nodes[cs[|cs| - 1]].meta.id := found])
  {
    var n := |cs| - 1;
    var pre := cs[..n];
    var id := nodes[cs[n]].meta.id;
    var r := m[id := found];
    forall k | k in r
      ensures exists i :: 0 <= i < |cs| && Offered(nodes, cs[i], port) && nodes[cs[i]].meta.id == k && r[k] == Candidates(nodes, cs[i], port).value
    {
      if k == id {
        assert Offered(nodes, cs[n], port) && r[k] == found;
      } else {
        assert k in m && r[k] == m[k];
        var i :| 0 <= i < n && Offered(nodes, pre[i], port) && nodes[pre[i]].meta.id == k &&
          m[k] == Candidates(nodes, pre[i], port).value;
        assert cs[i] == pre[i];
      }
    }
  }

  /** One more component in the list that is not offered: the map stays. */
  lemma CoversSkip(nodes: seq<Node>, cs: seq<Ref>, port: Ref, m: map<string, seq<Opening>>)
    requires WF(nodes) && InRange(nodes, cs) && IsPort(nodes, port) && |cs| > 0
    requires InRange(nodes, cs[..|cs| - 1]) && Covers(nodes, cs[..|cs| - 1], port, m)
    requires !Offered(nodes, cs[|cs| - 1], port)
    ensures Covers(nodes, cs, port, m)
  {
    var n := |cs| - 1;
    var pre := cs[..n];
    forall i | 0 <= i < |cs| && Offered(nodes, cs[i], port)
      ensures nodes[cs[i]].meta.id in m
    {
      assert i < n;
      assert pre[i] == cs[i];
      assert Offered(nodes, pre[i], port);
    }
  }

  lemma DescribesSkip(nodes: seq<Node>, cs: seq<Ref>, port: Ref, m: map<string, seq<Opening>>)
    requires WF(nodes) && InRange(nodes, cs) && IsPort(nodes, port) && |cs| > 0
    requires InRange(nodes, cs[..|cs| - 1]) && Describes(nodes, cs[..|cs| - 1], port, m)
    ensures Describes(nodes, cs, port, m)
  {
    var n := |cs| - 1;
    var pre := cs[..n];
    forall k | k in m
      ensures exists i :: 0 <= i < |cs| && Offered(nodes, cs[i], port) && nodes[cs[i]].meta.id == k && m[k] == Candidates(nodes, cs[i], port).value
    {
      var i :| 0 <= i < n && Offered(nodes, pre[i], port) && nodes[pre[i]].meta.id == k &&
        m[k] == Candidates(nodes, pre[i], port).value;
      assert cs[i] == pre[i];
    }
  }

  /** Every port offered is compatible with `port`: the opposite direction, the same type, unlinked. */
  lemma AvailableAreCompatible(nodes: seq<Node>, cs: seq<Ref>, port: Ref, k: string, o: Opening)
    requires WF(nodes) && InRange(nodes, cs) && IsPort(nodes, port)
    requires AvailableConnections(nodes, cs, port).Success? && k in AvailableConnections(nodes, cs, port).value
    requires o in AvailableConnections(nodes, cs, port).value[k]
    ensures o.component in cs && o.component != nodes[port].kind.owner && !IsConveyance(nodes, o.component)
    ensures o.connection < |nodes| && Free(nodes[o.connection], nodes[port].kind.conveyance)
    ensures nodes[port].kind.OutputPort? ==> IsInput(nodes, o.connection)
    ensures nodes[port].kind.InputPort? ==> IsOutput(nodes, o.connection)
  {
    var m := AvailableConnections(nodes, cs, port).value;
    var i :| 0 <= i < |cs| && Offered(nodes, cs[i], port) &&
      nodes[cs[i]].meta.id == k && m[k] == Candidates(nodes, cs[i], port).value;
    var c := cs[i];
    var ports := Facing(nodes, c, nodes[port].kind.OutputPort?).value;
    assert o.component == c && o.index < |ports| && o.connection == ports[o.index];
  }

  // ---------------------------------------------------------------------------------------------
  // Purge

  /** The ports a component owns, as `purge` reaches them: a building's inputs and outputs. */
  function PortsOf(s: Shape): seq<Ref>
  {
    if s.BuildingShape? then s.inputs + s.outputs else []
  }

  predicate IsConveyanceKind(k: Kind)
  {
    k.Building? && k.cls.ConveyanceClass?
  }

  /** The component itself after `purge`: no errors, no ingredients, a conveyance without recipe. */
  function Scrubbed(n: Node): (s: Node)
    ensures s.errors == [] && s.ingredients == [] && ShapeOf(s.kind) == ShapeOf(n.kind)
    ensures s.traversed == n.traversed && s.meta == n.meta && s.factory == n.factory
    ensures s.kind == if IsConveyanceKind(n.kind) then n.kind.(recipe := None) else n.kind
  {
    n.(errors := [], ingredients := [], kind := if IsConveyanceKind(n.kind) then n.kind.(recipe := None) else n.kind)
  }

  /** The arena after the given ports have been given empty ingredient lists, one after another. */
  function EmptyPorts(nodes: seq<Node>, ps: seq<Ref>): (result: seq<Node>)
    requires InRange(nodes, ps)
    ensures |result| == |nodes|
  {
    if |ps| == 0 then nodes
    else
      var n := |ps| - 1;
      assert InRange(nodes, ps[..n]);
      var m := EmptyPorts(nodes, ps[..n]);
      m[ps[n] := m[ps[n]].(ingredients := [])]
  }

  /** Exactly the listed ports lose their ingredients; nothing else changes. */
  lemma {:induction false} EmptyPortsAt(nodes: seq<Node>, ps: seq<Ref>)
    requires InRange(nodes, ps)
    ensures forall q :: 0 <= q < |nodes| ==>
      EmptyPorts(nodes, ps)[q] == if q in ps then nodes[q].(ingredients := []) else nodes[q]
  {
    if |ps| > 0 {
      var n := |ps| - 1;
      assert InRange(nodes, ps[..n]);
      EmptyPortsAt(nodes, ps[..n]);
      assert forall q :: q in ps <==> q in ps[..n] || q == ps[n] by {
        assert ps == ps[..n] + [ps[n]];
      }
    }
  }

  /** `purge` on one component. */
  function PurgeOne(nodes: seq<Node>, c: Ref): (result: seq<Node>)
    requires WF(nodes) && c < |nodes|
    ensures SameShape(nodes, result)
  {
    assert KindOk(nodes, nodes[c].kind);
    var ports := PortsOf(ShapeOf(nodes[c].kind));
    assert InRange(nodes, ports);
    assert c !in ports;
    EmptyPortsAt(nodes[c := Scrubbed(nodes[c])], ports);
    EmptyPorts(nodes[c := Scrubbed(nodes[c])], ports)
  }

  /** What `purge` changes on one component: its own errors, ingredients and conveyance recipe,
    * and the ingredients of its ports. */
  lemma PurgeOneAt(nodes: seq<Node>, c: Ref)
    requires WF(nodes) && c < |nodes|
    ensures forall q :: 0 <= q < |nodes| ==>
      PurgeOne(nodes, c)[q].traversed == nodes[q].traversed && PurgeOne(nodes, c)[q].meta == nodes[q].meta &&
      PurgeOne(nodes, c)[q].factory == nodes[q].factory &&
      PurgeOne(nodes, c)[q].errors == (if q == c then [] else nodes[q].errors) &&
      PurgeOne(nodes, c)[q].ingredients == (if q == c || q in PortsOf(ShapeOf(nodes[c].kind)) then [] else nodes[q].ingredients) &&
      PurgeOne(nodes, c)[q].kind == (if q == c then Scrubbed(nodes[c]).kind else nodes[q].kind)
  {
    assert KindOk(nodes, nodes[c].kind);
    var ports := PortsOf(ShapeOf(nodes[c].kind));
    assert InRange(nodes, ports);
    EmptyPortsAt(nodes[c := Scrubbed(nodes[c])], ports);
  }

  /** `purge`: every listed component in turn. */
  function Purged(nodes: seq<Node>, cs: seq<Ref>): (result: seq<Node>)
    requires WF(nodes) && InRange(nodes, cs)
    ensures SameShape(nodes, result)
    decreases |cs|
  {
    if |cs| == 0 then nodes
    else
      var n := |cs| - 1;
      assert InRange(nodes, cs[..n]);
      var m := Purged(nodes, cs[..n]);
      SameShapeWF(nodes, m);
      var result := PurgeOne(m, cs[n]);
      SameShapeTrans(nodes, m, result);
      result
  }

  /** What `purge` leaves on a listed component and on the ports of a listed building. */
  predicate Clean(nodes: seq<Node>, c: Ref)
    requires c < |nodes|
  {
    nodes[c].errors == [] && nodes[c].ingredients == [] &&
    (IsConveyanceKind(nodes[c].kind) ==> nodes[c].kind.recipe.None?) &&
    forall p :: p in PortsOf(ShapeOf(nodes[c].kind)) ==> p < |nodes| && nodes[p].ingredients == []
  }

  /** `b` is `a` with, at most, errors and ingredients emptied and a conveyance's recipe dropped. */
  predicate OnlyCleared(a: seq<Node>, b: seq<Node>)
  {
    |a| == |b| &&
    forall q :: 0 <= q < |a| ==>
      b[q].traversed == a[q].traversed && b[q].meta == a[q].meta && b[q].factory == a[q].factory &&
      (b[q].errors == a[q].errors || b[q].errors == []) &&
      (b[q].ingredients == a[q].ingredients || b[q].ingredients == []) &&
      (b[q].kind == a[q].kind || (IsConveyanceKind(a[q].kind) && b[q].kind == a[q].kind.(recipe := None)))
  }

  lemma OnlyClearedTrans(a: seq<Node>, b: seq<Node>, c: seq<Node>)
    requires OnlyCleared(a, b) && OnlyCleared(b, c)
    ensures OnlyCleared(a, c)
  {
  }

  /** Clearing more never makes a clean component dirty again. */
  lemma CleanStaysClean(a: seq<Node>, b: seq<Node>, c: Ref)
    requires c < |a| && Clean(a, c) && OnlyCleared(a, b) && SameShape(a, b)
    ensures Clean(b, c)
  {
    assert ShapeOf(a[c].kind) == ShapeOf(b[c].kind);
    forall p | p in PortsOf(ShapeOf(b[c].kind))
      ensures p < |b| && b[p].ingredients == []
    {
      assert p < |a| && a[p].ingredients == [];
    }
  }

  lemma PurgeOneCleans(nodes: seq<Node>, c: Ref)
    requires WF(nodes) && c < |nodes|
    ensures OnlyCleared(nodes, PurgeOne(nodes, c)) && Clean(PurgeOne(nodes, c), c)
  {
    var r := PurgeOne(nodes, c);
    PurgeOneAt(nodes, c);
    assert ShapeOf(r[c].kind) == ShapeOf(nodes[c].kind);
    assert KindOk(nodes, nodes[c].kind);
    assert forall p :: p in PortsOf(ShapeOf(nodes[c].kind)) ==> p < |nodes|;
  }

  /** `purge` only clears: no `traversed` flag, name, factory or link changes. */
  lemma {:induction false} PurgeOnlyClears(nodes: seq<Node>, cs: seq<Ref>)
    requires WF(nodes) && InRange(nodes, cs)
    ensures SameShape(nodes, Purged(nodes, cs)) && OnlyCleared(nodes, Purged(nodes, cs))
    decreases |cs|
  {
    if |cs| > 0 {
      var n := |cs| - 1;
      assert InRange(nodes, cs[..n]);
      PurgeOnlyClears(nodes, cs[..n]);
      var m := Purged(nodes, cs[..n]);
      SameShapeWF(nodes, m);
      PurgeOneCleans(m, cs[n]);
      OnlyClearedTrans(nodes, m, PurgeOne(m, cs[n]));
    }
  }

  /** After `purge` every listed component is clean, whether reachable or not, and so are the
    * ports of every listed building. */
  lemma {:induction false} PurgeCleans(nodes: seq<Node>, cs: seq<Ref>)
    requires WF(nodes) && InRange(nodes, cs)
    ensures forall i :: 0 <= i < |cs| ==> Clean(Purged(nodes, cs), cs[i])
    decreases |cs|
  {
    if |cs| > 0 {
      var n := |cs| - 1;
      var pre := cs[..n];
      assert InRange(nodes, pre);
      PurgeCleans(nodes, pre);
      var m := Purged(nodes, pre);
      SameShapeWF(nodes, m);
      var r := PurgeOne(m, cs[n]);
      PurgeOneCleans(m, cs[n]);
      forall i | 0 <= i < |cs|
        ensures Clean(r, cs[i])
      {
        if i < n {
          assert pre[i] == cs[i];
          CleanStaysClean(m, r, cs[i]);
        }
      }
    }
  }

  /** A component that is neither listed nor a port of a listed building keeps everything. */
  lemma {:induction false} PurgeLeavesOthers(nodes: seq<Node>, cs: seq<Ref>, q: Ref)
    requires WF(nodes) && InRange(nodes, cs) && q < |nodes| && q !in cs
    requires forall i :: 0 <= i < |cs| ==> q !in PortsOf(ShapeOf(nodes[cs[i]].kind))
    ensures Purged(nodes, cs)[q] == nodes[q]
    decreases |cs|
  {
    if |cs| > 0 {
      var n := |cs| - 1;
      var pre := cs[..n];
      assert InRange(nodes, pre);
      assert cs == pre + [cs[n]];
      assert forall i :: 0 <= i < n ==> pre[i] == cs[i];
      PurgeLeavesOthers(nodes, pre, q);
      var m := Purged(nodes, pre);
      SameShapeWF(nodes, m);
      assert ShapeOf(m[cs[n]].kind) == ShapeOf(nodes[cs[n]].kind);
      PurgeOneLeaves(m, cs[n], q);
      assert Purged(nodes, cs) == PurgeOne(m, cs[n]);
    }
  }

  lemma PurgeOneLeaves(nodes: seq<Node>, c: Ref, q: Ref)
    requires WF(nodes) && c < |nodes| && q < |nodes| && q != c && q !in PortsOf(ShapeOf(nodes[c].kind))
    ensures PurgeOne(nodes, c)[q] == nodes[q]
  {
    PurgeOneAt(nodes, c);
  }

  /** Emptying ports commutes with replacing a node that is not one of them. */
  lemma EmptyPortsUpdate(nodes: seq<Node>, ps: seq<Ref>, c: Ref, x: Node)
    requires InRange(nodes, ps) && c < |nodes| && c !in ps
    ensures EmptyPorts(nodes[c := x], ps) == EmptyPorts(nodes, ps)[c := x]
  {
    var a := EmptyPorts(nodes[c := x], ps);
    var b := EmptyPorts(nodes, ps)[c := x];
    EmptyPortsAt(nodes[c := x], ps);
    EmptyPortsAt(nodes, ps);
    assert forall q :: 0 <= q < |nodes| ==> a[q] == b[q];
  }

  // ---------------------------------------------------------------------------------------------
  // Walks over the whole factory

  /** The walk order from each starting component in turn. */
  function WalkMulti(nodes: seq<Node>, rank: seq<nat>, roots: seq<Ref>): seq<Ref>
    requires Ranked(nodes, rank) && forall i :: 0 <= i < |roots| ==> roots[i] < |nodes|
    decreases |roots|
  {
    if |roots| == 0 then [] else Walk(nodes, rank, roots[0]) + WalkMulti(nodes, rank, roots[1..])
  }

  lemma {:induction false} WalkMultiSameShape(a: seq<Node>, b: seq<Node>, rank: seq<nat>, roots: seq<Ref>)
    requires Ranked(a, rank) && SameShape(a, b) && forall i :: 0 <= i < |roots| ==> roots[i] < |a|
    ensures Ranked(b, rank) && WalkMulti(a, rank, roots) == WalkMulti(b, rank, roots)
    decreases |roots|
  {
    SameShapeRanked(a, b, rank);
    if |roots| > 0 {
      WalkSameShape(a, b, rank, roots[0]);
      WalkMultiSameShape(a, b, rank, roots[1..]);
    }
  }

  /**
   * Draining from several starts drains exactly what lies downstream of any of them, every
   * component holding an ingredient list.
   */
  lemma {:induction false} DrainMultiSpec(nodes: seq<Node>, rank: seq<nat>, proc: Processor, roots: seq<Ref>)
    requires Ranked(nodes, rank) && forall i :: 0 <= i < |roots| ==> roots[i] < |nodes|
    ensures var t := TraverseMulti(nodes, rank, proc, Drain, roots);
      t.visited == WalkMulti(nodes, rank, roots) && DrainedAfter(nodes, t.nodes, t.visited)
    decreases |roots|
  {
    if |roots| > 0 {
      var t := Traverse(nodes, rank, proc, Drain, roots[0]);
      SameShapeRanked(nodes, t.nodes, rank);
      DrainFollowsWalk(nodes, rank, proc, roots[0]);
      TraverseDrains(nodes, rank, proc, roots[0]);
      DrainMultiSpec(t.nodes, rank, proc, roots[1..]);
      WalkMultiSameShape(nodes, t.nodes, rank, roots[1..]);
      var u := TraverseMulti(t.nodes, rank, proc, Drain, roots[1..]);
      DrainedAfterTrans(nodes, t.nodes, u.nodes, t.visited, u.visited);
    }
  }

  lemma {:induction false} MultiFlags(nodes: seq<Node>, rank: seq<nat>, proc: Processor, v: Visitor, roots: seq<Ref>)
    requires Ranked(nodes, rank) && forall i :: 0 <= i < |roots| ==> roots[i] < |nodes|
    ensures |TraverseMulti(nodes, rank, proc, v, roots).nodes| == |nodes|
    ensures FlagsAfter(nodes, TraverseMulti(nodes, rank, proc, v, roots).nodes, TraverseMulti(nodes, rank, proc, v, roots).visited, v)
    decreases |roots|
  {
    if |roots| > 0 {
      var t := Traverse(nodes, rank, proc, v, roots[0]);
      SameShapeRanked(nodes, t.nodes, rank);
      TraverseFlags(nodes, rank, proc, v, roots[0]);
      MultiFlags(t.nodes, rank, proc, v, roots[1..]);
      var u := TraverseMulti(t.nodes, rank, proc, v, roots[1..]);
      FlagsAfterTrans(nodes, t.nodes, u.nodes, t.visited, u.visited, v);
    }
  }

  /** The factory-level warning of `simulate`; the list of components it renders is not modelled. */
  const NotTraversed := ComponentError(Warning, "Some components were not traversed: ")

  /** The components still not traversed. */
  function Untraversed(nodes: seq<Node>, cs: seq<Ref>): (r: seq<Ref>)
    requires InRange(nodes, cs)
    ensures forall x :: x in r <==> x in cs && !nodes[x].traversed
  {
    Filter(cs, (q: Ref) => q < |nodes| && !nodes[q].traversed)
  }

  /** The factory's components after a simulation: traversed before, or visited by some walk. */
  lemma SimulateLeavesUntraversed(nodes: seq<Node>, rank: seq<nat>, proc: Processor, cs: seq<Ref>)
    requires Ranked(nodes, rank) && InRange(nodes, cs)
    ensures |TraverseMulti(nodes, rank, proc, Visitor.Simulate, ResourceNodes(nodes, cs)).nodes| == |nodes|
    ensures forall x :: x in Untraversed(TraverseMulti(nodes, rank, proc, Visitor.Simulate, ResourceNodes(nodes, cs)).nodes, cs) <==>
      x in cs && !nodes[x].traversed && x !in TraverseMulti(nodes, rank, proc, Visitor.Simulate, ResourceNodes(nodes, cs)).visited
  {
    var roots := ResourceNodes(nodes, cs);
    assert forall i :: 0 <= i < |roots| ==> roots[i] < |nodes| by {
      assert forall i :: 0 <= i < |roots| ==> roots[i] in roots;
    }
    MultiFlags(nodes, rank, proc, Visitor.Simulate, roots);
    var t := TraverseMulti(nodes, rank, proc, Visitor.Simulate, roots);
    forall x | x in cs
      ensures !t.nodes[x].traversed <==> !nodes[x].traversed && x !in t.visited
    {
    }
  }

  // ---------------------------------------------------------------------------------------------
  // The factory object

  class Factory {
    /** The identity components record in their `factory` field. */
    const key: nat
    var components: seq<Ref>
    var errors: seq<ComponentError>

    constructor (key: nat, components: seq<Ref>)
      ensures this.key == key && this.components == components && this.errors == []
    {
      this.key := key;
      this.components := components;
      this.errors := [];
    }

    /** `add`: one level of lists is flattened, nothing is checked for duplicates. */
    method Add(h: Heap, entries: seq<Entry>)
      requires EntriesIn(h.nodes, entries)
      modifies this, h
      ensures InRange(old(h.nodes), Flatten(entries))
      ensures components == old(components) + Flatten(entries)
      ensures h.nodes == Claim(old(h.nodes), Flatten(entries), key)
      ensures errors == old(errors)
    {
      ghost var n0 := h.nodes;
      ghost var c0 := components;
      ghost var done: seq<Ref> := [];
      var i := 0;
      while i < |entries|
        invariant 0 <= i <= |entries|
        invariant done == Flatten(entries[..i]) && InRange(n0, done)
        invariant components == c0 + done
        invariant h.nodes == Claim(n0, done, key)
        invariant errors == old(errors)
      {
        var ms := Members(entries[i]);
        assert InRange(n0, ms);
        AddMembers(h, n0, done, ms);
        FlattenStep(entries, i);
        AppendAssoc(c0, done, ms);
        done := done + ms;
        i := i + 1;
      }
      assert entries[..i] == entries;
    }

    /** The inner loop of `add`: each member gets its `factory` and is appended. */
    method AddMembers(h: Heap, ghost n0: seq<Node>, ghost done: seq<Ref>, ms: seq<Ref>)
      requires InRange(n0, done) && InRange(n0, ms) && h.nodes == Claim(n0, done, key)
      modifies this, h
      ensures InRange(n0, done + ms)
      ensures components == old(components) + ms
      ensures h.nodes == Claim(n0, done + ms, key)
      ensures errors == old(errors)
    {
      ghost var c0 := components;
      ghost var sofar := done;
      var j := 0;
      assert done + ms[..0] == done;
      while j < |ms|
        invariant 0 <= j <= |ms|
        invariant sofar == done + ms[..j] && InRange(n0, sofar)
        invariant components == c0 + ms[..j]
        invariant h.nodes == Claim(n0, sofar, key)
        invariant errors == old(errors)
      {
        assert ms[..j + 1] == ms[..j] + [ms[j]];
        ClaimSnoc(n0, sofar, ms[j], key);
        h.nodes := h.nodes[ms[j] := h.nodes[ms[j]].(factory := Some(key))];
        AppendAssoc(c0, ms[..j], [ms[j]]);
        AppendAssoc(done, ms[..j], [ms[j]]);
        components := components + [ms[j]];
        sofar := sofar + [ms[j]];
        j := j + 1;
      }
      assert ms[..j] == ms;
    }

    /** `remove`: the first component with the id goes, the rest keep their order. */
    method Remove(h: Heap, id: string)
      requires InRange(h.nodes, components)
      modifies this
      ensures components == WithoutId(h.nodes, old(components), id)
      ensures errors == old(errors)
    {
      var i := 0;
      while i < |components|
        invariant 0 <= i <= |components|
        invariant components == old(components)
        invariant forall k :: 0 <= k < i ==> !HasId(h.nodes, components[k], id)
      {
        if h.nodes[components[i]].meta.id == id {
          assert FirstWithId(h.nodes, components, id) == Some(i);
          components := components[..i] + components[i + 1..];
          return;
        }
        i := i + 1;
      }
    }

    /** `add_error`. */
    method AddError(e: ComponentError)
      modifies this
      ensures errors == old(errors) + [e] && components == old(components)
    {
      errors := errors + [e];
    }

    /** `purge`. */
    method Purge(h: Heap)
      requires WF(h.nodes) && InRange(h.nodes, components)
      modifies h
      ensures h.nodes == Purged(old(h.nodes), components)
    {
      ghost var n0 := h.nodes;
      var i := 0;
      while i < |components|
        invariant 0 <= i <= |components|
        invariant InRange(n0, components[..i])
        invariant h.nodes == Purged(n0, components[..i])
      {
        assert components[..i + 1][..i] == components[..i];
        SameShapeWF(n0, h.nodes);
        PurgeComponent(h, components[i]);
        i := i + 1;
      }
      assert components[..i] == components;
    }

    /** `drain`: drain every component downstream of a resource node; the factory's own errors stay. */
    method Drain(h: Heap, ghost rank: seq<nat>)
      requires Ranked(h.nodes, rank) && InRange(h.nodes, components)
      modifies h
      ensures h.nodes == TraverseMulti(old(h.nodes), rank, FactoryStep, Visitor.Drain, ResourceNodes(old(h.nodes), components)).nodes
    {
      var roots := ResourceNodes(h.nodes, components);
      assert forall i :: 0 <= i < |roots| ==> roots[i] in roots;
      TraverseMultiFrom(h, rank, Visitor.Drain, roots);
    }

    /** `simulate`: process everything downstream of a resource node, then warn once if any
      * component was not reached. */
    method Simulate(h: Heap, ghost rank: seq<nat>)
      requires Ranked(h.nodes, rank) && InRange(h.nodes, components)
      modifies h, this
      ensures components == old(components)
      ensures h.nodes == TraverseMulti(old(h.nodes), rank, FactoryStep, Visitor.Simulate, ResourceNodes(old(h.nodes), components)).nodes
      ensures InRange(h.nodes, components)
      ensures errors == old(errors) + (if |Untraversed(h.nodes, components)| > 0 then [NotTraversed] else [])
    {
      var roots := ResourceNodes(h.nodes, components);
      assert forall i :: 0 <= i < |roots| ==> roots[i] in roots;
      TraverseMultiFrom(h, rank, Visitor.Simulate, roots);
      var excluded := Untraversed(h.nodes, components);
      if |excluded| > 0 {
        AddError(NotTraversed);
      }
    }
  }

  /** The body of `purge` for one component, clearing its ports one by one. */
  method PurgeComponent(h: Heap, c: Ref)
    requires WF(h.nodes) && c < |h.nodes|
    modifies h
    ensures h.nodes == PurgeOne(old(h.nodes), c)
  {
    ghost var n0 := h.nodes;
    assert KindOk(n0, n0[c].kind);
    var ports := PortsOf(ShapeOf(h.nodes[c].kind));
    assert InRange(n0, ports) && c !in ports;
    h.nodes := h.nodes[c := h.nodes[c].(errors := [], ingredients := [])];
    ghost var n1 := h.nodes;
    var i := 0;
    while i < |ports|
      invariant 0 <= i <= |ports|
      invariant InRange(n1, ports[..i])
      invariant h.nodes == EmptyPorts(n1, ports[..i])
    {
      assert ports[..i + 1][..i] == ports[..i];
      h.nodes := h.nodes[ports[i] := h.nodes[ports[i]].(ingredients := [])];
      i := i + 1;
    }
    assert ports[..i] == ports;
    EmptyPortsAt(n1, ports);
    ghost var cleared := h.nodes;
    assert cleared[c] == n1[c];
    EmptyPortsUpdate(n1, ports, c, Scrubbed(n0[c]));
    assert n1[c := Scrubbed(n0[c])] == n0[c := Scrubbed(n0[c])];
    if IsConveyanceKind(h.nodes[c].kind) {
      h.nodes := h.nodes[c := h.nodes[c].(kind := h.nodes[c].kind.(recipe := None))];
    }
    assert h.nodes == cleared[c := Scrubbed(n0[c])];
  }
}
