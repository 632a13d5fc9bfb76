/**
 * The special buildings of the older library, written against the current component model: the
 * AWESOME Sink, which turns items into points; the conveyor merger and splitter; and the miner,
 * whose output depends on the purity of the resource node it sits on. The pipeline junction is
 * in module `Junction`.
 */
module Buildings {
  import opened Wrappers
  import opened Base
  import opened Text
  import opened Graph
  import opened Processing
  import opened Transport

  // ---------------------------------------------------------------------------------------------
  // Shared helpers

  /** The rates of `ys` are those of `xs`, each multiplied by `f`. */
  predicate RatesScaled(xs: seq<Ingredient>, ys: seq<Ingredient>, f: real)
  {
    |ys| == |xs| && forall k :: 0 <= k < |xs| ==> ys[k].rate == xs[k].rate * f
  }

  /** Multiplying every rate by `f` multiplies their sum by `f`. */
  lemma {:induction false} SumRatesScaled(xs: seq<Ingredient>, ys: seq<Ingredient>, f: real)
    requires RatesScaled(xs, ys, f)
    ensures SumRates(ys) == SumRates(xs) * f
    decreases |xs|
  {
    if |xs| > 0 {
      var n := |xs| - 1;
      assert RatesScaled(xs[..n], ys[..n], f);
      SumRatesScaled(xs[..n], ys[..n], f);
      MultiplySum(SumRates(xs[..n]), xs[n].rate, f);
    }
  }

  /** The inputs that are fed, in order (`[input for input in inputs if input.source]`). */
  function FedInputs(nodes: seq<Node>, ins: seq<Ref>): (r: seq<Ref>)
    requires AllInputs(nodes, ins)
    ensures |r| <= |ins|
    ensures forall m :: 0 <= m < |r| ==> r[m] in ins && HasSource(nodes, r[m])
    ensures forall m :: 0 <= m < |ins| && HasSource(nodes, ins[m]) ==> ins[m] in r
    decreases |ins|
  {
    if |ins| == 0 then []
    else
      var rest := FedInputs(nodes, ins[1..]);
      assert forall m :: 1 <= m < |ins| ==> ins[m] == ins[1..][m - 1];
      if HasSource(nodes, ins[0]) then [ins[0]] + rest else rest
  }

  /** The outputs that feed something, in order (`[output for output in outputs if output.target]`). */
  function FeedingOutputs(nodes: seq<Node>, outs: seq<Ref>): (r: seq<Ref>)
    requires AllOutputs(nodes, outs)
    ensures |r| <= |outs|
    ensures AllOutputs(nodes, r)
    ensures forall m :: 0 <= m < |r| ==> r[m] in outs && HasTarget(nodes, r[m])
    ensures forall m :: 0 <= m < |outs| && HasTarget(nodes, outs[m]) ==> outs[m] in r
    ensures Distinct(outs) ==> Distinct(r)
    decreases |outs|
  {
    if |outs| == 0 then []
    else
      var rest := FeedingOutputs(nodes, outs[1..]);
      assert forall m :: 1 <= m < |outs| ==> outs[m] == outs[1..][m - 1];
      assert Distinct(outs) ==> outs[0] !in outs[1..];
      if HasTarget(nodes, outs[0]) then [outs[0]] + rest else rest
  }

  /**
   * The `can_process` the merger and the splitter share: nothing connected is a WARNING, more than three
   * connected is IMPOSSIBLE, and it passes exactly when one to three are connected.
   */
  function CountCheck(n: nat, none: ComponentError, tooMany: ComponentError): (c: Check)
    requires none.level == Warning && tooMany.level == Impossible
    ensures c.ok <==> 1 <= n <= 3
    ensures c.ok <==> c.errors == []
    ensures n == 0 ==> c.errors == [none]
    ensures n > 3 ==> c.errors == [tooMany]
  {
    Check((if n == 0 then [none] else []) + (if n > 3 then [tooMany] else []), 1 <= n <= 3)
  }

  /**
   * `outputs[0].target.attached_to.rate`, as a comparison with a number reads it: IndexError
   * without outputs, AttributeError without a target or a `rate`, TypeError for a rate of None.
   */
  function DownstreamRate(nodes: seq<Node>, b: Ref): (r: Result<real, PyError>)
    requires WF(nodes) && IsBuilding(nodes, b)
    ensures |nodes[b].kind.outputs| == 0 ==> r == Failure(IndexError)
    ensures r.Success? ==>
      assert KindOk(nodes, nodes[b].kind);
      |nodes[b].kind.outputs| > 0 && HasTarget(nodes, nodes[b].kind.outputs[0]) &&
      FedRate(nodes, nodes[b].kind.outputs[0]) == RateValue(r.value)
    ensures assert KindOk(nodes, nodes[b].kind);
      |nodes[b].kind.outputs| > 0 ==>
        (!HasTarget(nodes, nodes[b].kind.outputs[0]) ==> r == Failure(AttributeError)) &&
        (HasTarget(nodes, nodes[b].kind.outputs[0]) ==>
          var a := FedRate(nodes, nodes[b].kind.outputs[0]);
          (a.RateValue? ==> r == Success(a.value)) &&
          (a.RateNone? ==> r == Failure(TypeError)) &&
          (a.RateMissing? ==> r == Failure(AttributeError)))
  {
    var k := nodes[b].kind;
    assert KindOk(nodes, k);
    if |k.outputs| == 0 then Failure(IndexError)
    else if !HasTarget(nodes, k.outputs[0]) then Failure(AttributeError)
    else
      var a := FedRate(nodes, k.outputs[0]);
      if a.RateValue? then Success(a.value) else Failure(RateError(a))
  }

  // ---------------------------------------------------------------------------------------------
  // AWESOME Sink

  /** The item a sink produces (its generated id is a fixed string here). */
  const SinkPoint := Item("AwesomeSinkPoint", "AWESOME Sink Point", Some(ConveyanceType.AwesomeSink), None, None)

  /** The WARNING of a sink fed something it cannot take (the item list of the message is left out). */
  const NonDisposableItems := ComponentError(Warning, "Non-disposable items are being sent to an AWESOME Sink.")

  predicate Disposable(x: Ingredient)
  {
    x.item.sinkValue.Some?
  }

  /** The ingredients without a sink value, in order. */
  function NonDisposables(xs: seq<Ingredient>): (r: seq<Ingredient>)
    ensures forall k :: 0 <= k < |r| ==> r[k] in xs && !Disposable(r[k])
    decreases |xs|
  {
    if |xs| == 0 then []
    else if Disposable(xs[|xs| - 1]) then NonDisposables(xs[..|xs| - 1])
    else NonDisposables(xs[..|xs| - 1]) + [xs[|xs| - 1]]
  }

  /** Nothing is left out of the sink exactly when every ingredient has a sink value. */
  lemma {:induction false} NonDisposablesEmpty(xs: seq<Ingredient>)
    ensures NonDisposables(xs) == [] <==> forall k :: 0 <= k < |xs| ==> Disposable(xs[k])
    decreases |xs|
  {
    if |xs| > 0 {
      var n := |xs| - 1;
      NonDisposablesEmpty(xs[..n]);
      assert forall k :: 0 <= k < n ==> xs[..n][k] == xs[k];
    }
  }

  /** `AwesomeSink.can_process`: one WARNING and False when something cannot be sunk. */
  function SinkCheck(xs: seq<Ingredient>): (c: Check)
    ensures c.ok <==> forall k :: 0 <= k < |xs| ==> Disposable(xs[k])
    ensures c.ok ==> c.errors == []
    ensures !c.ok ==> c.errors == [NonDisposableItems]
  {
    NonDisposablesEmpty(xs);
    if |NonDisposables(xs)| > 0 then Check([NonDisposableItems], false) else Check([], true)
  }

  /** Points per minute: the sum of sink value times rate. */
  function SinkPoints(xs: seq<Ingredient>): real
    decreases |xs|
  {
    if |xs| == 0 then 0.0
    else SinkPoints(xs[..|xs| - 1]) + (xs[|xs| - 1].item.sinkValue.GetOr(0) as real) * xs[|xs| - 1].rate
  }

  /** Points add up over the ingredients: the sink's output splits along any split of its input. */
  lemma {:induction false} SinkPointsAppend(a: seq<Ingredient>, b: seq<Ingredient>)
    ensures SinkPoints(a + b) == SinkPoints(a) + SinkPoints(b)
    decreases |b|
  {
    if |b| > 0 {
      assert (a + b)[..|a + b| - 1] == a + b[..|b| - 1];
      SinkPointsAppend(a, b[..|b| - 1]);
    } else {
      assert a + b == a;
    }
  }

  /** One ingredient is worth its sink value per item. */
  lemma SinkPointsSingle(x: Ingredient)
    requires Disposable(x)
    ensures SinkPoints([x]) == (x.item.sinkValue.value as real) * x.rate
  {
    assert [x][..0] == [];
  }

  /**
   * `AwesomeSink.process`: when `can_process` fails its WARNING is added and the answer is False;
   * otherwise the first output carries a single AWESOME Sink Point ingredient whose rate is the
   * points per minute of the sink's ingredients. Errors are never cleared.
   */
  function SinkProcess(nodes: seq<Node>, s: Ref): (step: Step)
    requires WF(nodes) && IsBuilding(nodes, s)
    ensures Preserves(nodes, step.nodes)
    ensures var k := nodes[s].kind; var xs := nodes[s].ingredients;
      ((exists m :: 0 <= m < |xs| && !Disposable(xs[m])) ==>
        step == Step(AddErrors(nodes, s, [NonDisposableItems]), Returned(false))) &&
      ((forall m :: 0 <= m < |xs| ==> Disposable(xs[m])) && |k.outputs| == 0 ==>
        step == Step(nodes, Raised(IndexError))) &&
      ((forall m :: 0 <= m < |xs| ==> Disposable(xs[m])) && |k.outputs| > 0 ==>
        step == Step(WithIngredients(nodes, k.outputs[0], [Ingredient(SinkPoint, None, SinkPoints(xs))]), Returned(true)))
  {
    var k := nodes[s].kind;
    assert KindOk(nodes, k);
    var c := SinkCheck(nodes[s].ingredients);
    if !c.ok then Step(AddErrors(nodes, s, c.errors), Returned(false))
    else if |k.outputs| == 0 then Step(nodes, Raised(IndexError))
    else Step(WithIngredients(nodes, k.outputs[0], [Ingredient(SinkPoint, None, SinkPoints(nodes[s].ingredients))]), Returned(true))
  }

  // ---------------------------------------------------------------------------------------------
  // Conveyor merger

  const MergerUnfed := ComponentError(Warning, "Conveyor merge has no connected inputs")
  const MergerOverfed := ComponentError(Impossible, "Conveyor merger has more than three connected inputs")
  const MergerSlowed := ComponentError(Debug, "The merger's combined input rate is greater than its output")

  /** `ingredient.rate *= f` over a list. */
  function ScaledBy(xs: seq<Ingredient>, f: real): (r: seq<Ingredient>)
    ensures RatesScaled(xs, r, f)
    ensures forall k :: 0 <= k < |xs| ==> r[k].item == xs[k].item && r[k].amount == xs[k].amount
  {
    seq(|xs|, k requires 0 <= k < |xs| => xs[k].(rate := xs[k].rate * f))
  }

  /** The in-place loop that scales a list of ingredients. */
  method ScaleRates(xs0: seq<Ingredient>, f: real) returns (xs: seq<Ingredient>)
    ensures xs == ScaledBy(xs0, f)
  {
    xs := xs0;
    var k := 0;
    while k < |xs|
      invariant 0 <= k <= |xs| == |xs0|
      invariant forall j :: 0 <= j < k ==> xs[j] == xs0[j].(rate := xs0[j].rate * f)
      invariant forall j :: k <= j < |xs| ==> xs[j] == xs0[j]
    {
      xs := xs[k := xs[k].(rate := xs[k].rate * f)];
      k := k + 1;
    }
  }

  /**
   * `ConveyorMerger.process`. A failed check adds its error and answers False. Otherwise the
   * errors are reset, and the first output is handed the merger's own ingredient list; when the
   * building it feeds is slower than their combined rate, a DEBUG message is added and the list is
   * first scaled (in place, so the merger's own ingredients change too) by the ratio of the two
   * rates. A downstream rate that is not a number, and a zero combined rate that still exceeds
   * it, raise.
   */
  function MergerProcess(nodes: seq<Node>, m: Ref): (step: Step)
    requires WF(nodes) && IsBuilding(nodes, m)
    ensures Preserves(nodes, step.nodes)
  {
    var k := nodes[m].kind;
    assert KindOk(nodes, k);
    var c := CountCheck(|FedInputs(nodes, k.inputs)|, MergerUnfed, MergerOverfed);
    if !c.ok then Step(AddErrors(nodes, m, c.errors), Returned(false))
    else
      var n1 := WithErrors(nodes, m, []);
      var xs := nodes[m].ingredients;
      var total := SumRates(xs);
      match DownstreamRate(nodes, m)
      case Failure(e) => Step(n1, Raised(e))
      case Success(rate) =>
        if rate < total then
          var n2 := WithErrors(n1, m, [MergerSlowed]);
          if total == 0.0 then Step(n2, Raised(ZeroDivisionError))
          else
            var scaled := ScaledBy(xs, rate / total);
            Step(WithIngredients(WithIngredients(n2, m, scaled), k.outputs[0], scaled), Returned(true))
        else Step(WithIngredients(n1, k.outputs[0], xs), Returned(true))
  }

  /** The merger's check, on the inputs that are fed. */
  function MergerCheck(nodes: seq<Node>, m: Ref): Check
    requires WF(nodes) && IsBuilding(nodes, m)
  {
    assert KindOk(nodes, nodes[m].kind);
    CountCheck(|FedInputs(nodes, nodes[m].kind.inputs)|, MergerUnfed, MergerOverfed)
  }

  /** A merger answers False exactly when its `can_process` fails, and then only adds `can_process`'s error. */
  lemma MergerRefuses(nodes: seq<Node>, m: Ref)
    requires WF(nodes) && IsBuilding(nodes, m)
    ensures !MergerCheck(nodes, m).ok <==> MergerProcess(nodes, m).status == Returned(false)
    ensures !MergerCheck(nodes, m).ok ==> MergerProcess(nodes, m).nodes == AddErrors(nodes, m, MergerCheck(nodes, m).errors)
  {
  }

  /**
   * A merger that passes its check raises exactly when the downstream rate is no number, or when
   * it is below a combined rate of zero.
   */
  lemma MergerRaises(nodes: seq<Node>, m: Ref)
    requires WF(nodes) && IsBuilding(nodes, m) && MergerCheck(nodes, m).ok
    ensures MergerProcess(nodes, m).status.Raised? <==>
      DownstreamRate(nodes, m).Failure? ||
      (DownstreamRate(nodes, m).value < SumRates(nodes[m].ingredients) && SumRates(nodes[m].ingredients) == 0.0)
  {
  }

  /**
   * A merger that completes hands its first output its ingredients, scaled so that they add up to
   * exactly the downstream rate when that rate is below their sum (with a DEBUG message), and
   * unchanged otherwise. Nothing but the merger and its first output changes.
   */
  lemma MergerScales(nodes: seq<Node>, m: Ref)
    requires WF(nodes) && IsBuilding(nodes, m) && MergerProcess(nodes, m).status == Returned(true)
    ensures var k := nodes[m].kind; var xs := nodes[m].ingredients;
      var step := MergerProcess(nodes, m);
      DownstreamRate(nodes, m).Success? && |k.outputs| > 0 &&
      var rate := DownstreamRate(nodes, m).value;
      var out := step.nodes[k.outputs[0]].ingredients;
      (rate < SumRates(xs) ==>
        step.nodes[m].errors == [MergerSlowed] && SumRates(out) == rate &&
        out == step.nodes[m].ingredients && RatesScaled(xs, out, rate / SumRates(xs))) &&
      (rate >= SumRates(xs) ==> step.nodes[m].errors == [] && out == xs) &&
      forall q :: 0 <= q < |nodes| && q != m && q != k.outputs[0] ==> step.nodes[q] == nodes[q]
  {
    var k := nodes[m].kind;
    assert KindOk(nodes, k);
    var xs := nodes[m].ingredients;
    var total := SumRates(xs);
    var rate := DownstreamRate(nodes, m).value;
    if rate < total {
      var scaled := ScaledBy(xs, rate / total);
      var n2 := WithErrors(WithErrors(nodes, m, []), m, [MergerSlowed]);
      assert MergerProcess(nodes, m) == Step(WithIngredients(WithIngredients(n2, m, scaled), k.outputs[0], scaled), Returned(true));
      ScaledToRate(xs, rate);
    }
  }

  /** Scaling by `rate / total` brings a list whose rates sum to `total` to `rate`. */
  lemma ScaledToRate(xs: seq<Ingredient>, rate: real)
    requires SumRates(xs) != 0.0
    ensures SumRates(ScaledBy(xs, rate / SumRates(xs))) == rate
  {
    var total := SumRates(xs);
    SumRatesScaled(xs, ScaledBy(xs, rate / total), rate / total);
    DivideCancels(rate, total);
  }

  /** The imperative `ConveyorMerger.process`, with its scaling loop. */
  method ProcessMerger(h: Heap, m: Ref) returns (status: Status)
    requires WF(h.nodes) && IsBuilding(h.nodes, m)
    modifies h
    ensures Step(h.nodes, status) == MergerProcess(old(h.nodes), m)
  {
    var k := h.nodes[m].kind;
    assert KindOk(h.nodes, k);
    var c := CountCheck(|FedInputs(h.nodes, k.inputs)|, MergerUnfed, MergerOverfed);
    if !c.ok {
      h.nodes := AddErrors(h.nodes, m, c.errors);
      return Returned(false);
    }
    var nodes0 := h.nodes;
    h.nodes := WithErrors(h.nodes, m, []);
    var xs := h.nodes[m].ingredients;
    var total := SumRates(xs);
    var rate := DownstreamRate(nodes0, m);
    if rate.Failure? {
      return Raised(rate.error);
    }
    if rate.value < total {
      h.nodes := WithErrors(h.nodes, m, [MergerSlowed]);
      if total == 0.0 {
        return Raised(ZeroDivisionError);
      }
      xs := ScaleRates(xs, rate.value / total);
      h.nodes := WithIngredients(h.nodes, m, xs);
    }
    h.nodes := WithIngredients(h.nodes, k.outputs[0], xs);
    status := Returned(true);
  }

  // ---------------------------------------------------------------------------------------------
  // Conveyor splitter

  const SplitterUnfed := ComponentError(Warning, "Conveyor splitter has no connected outputs.")
  const SplitterOverfed := ComponentError(Impossible, "Conveyor splitter has more than three connected outputs.")

  /** Each ingredient at `ratio` of its rate, with no amount. */
  function Portions(xs: seq<Ingredient>, ratio: real): (r: seq<Ingredient>)
    ensures RatesScaled(xs, r, ratio)
    ensures forall k :: 0 <= k < |xs| ==> r[k] == Ingredient(xs[k].item, None, xs[k].rate * ratio)
  {
    seq(|xs|, k requires 0 <= k < |xs| => Ingredient(xs[k].item, None, xs[k].rate * ratio))
  }

  /** `1 / n`, the part of each of `n` outputs. */
  function Fraction(n: nat): real
    requires n > 0
  {
    1.0 / n as real
  }

  /** Each of `n` outputs' equal share of `total`, as `total * (1 / n)`. */
  function EqualShare(total: real, n: nat): real
    requires n > 0
  {
    total * Fraction(n)
  }

  /** What `n` outputs carrying `rate` each carry together. */
  function Together(n: nat, rate: real): real
  {
    (n as real) * rate
  }

  /** `n` outputs each handed `Portions(xs, 1 / n)` carry exactly the rate of `xs` between them. */
  lemma EvenSplit(xs: seq<Ingredient>, n: nat)
    requires n > 0
    ensures Together(n, SumRates(Portions(xs, Fraction(n)))) == SumRates(xs)
  {
    var ratio := Fraction(n);
    SumRatesScaled(xs, Portions(xs, ratio), ratio);
    var s := SumRates(xs);
    assert (n as real) * ratio == 1.0;
    assert (n as real) * (s * ratio) == s * ((n as real) * ratio);
  }

  /** The rates of what each listed output feeds, read in order; the first that is no number raises. */
  function FedRates(nodes: seq<Node>, outs: seq<Ref>): (r: Result<seq<real>, PyError>)
    requires WF(nodes) && AllOutputs(nodes, outs) && forall m :: 0 <= m < |outs| ==> HasTarget(nodes, outs[m])
    ensures r.Success? <==> forall m :: 0 <= m < |outs| ==> HasTarget(nodes, outs[m]) && FedRate(nodes, outs[m]).RateValue?
    ensures r.Success? ==>
      |r.value| == |outs| &&
      (forall m :: 0 <= m < |outs| ==> HasTarget(nodes, outs[m]) && FedRate(nodes, outs[m]) == RateValue(r.value[m]))
    decreases |outs|
  {
    if |outs| == 0 then Success([])
    else
      assert HasTarget(nodes, outs[0]);
      var a := FedRate(nodes, outs[0]);
      var tail := outs[1..];
      assert forall m :: 1 <= m < |outs| ==> outs[m] == tail[m - 1];
      assert AllOutputs(nodes, tail) && forall m :: 0 <= m < |tail| ==> HasTarget(nodes, tail[m]);
      var rest := FedRates(nodes, tail);
      if !a.RateValue? then Failure(RateError(a))
      else if rest.Failure? then rest
      else
        ConsIndex(a.value, rest.value);
        Success([a.value] + rest.value)
  }

  /** The first position whose rate is below `share`. */
  function FirstSlow(rates: seq<real>, share: real): (r: Option<nat>)
    ensures r.None? <==> forall j :: 0 <= j < |rates| ==> rates[j] >= share
    ensures r.Some? ==>
      r.value < |rates| && rates[r.value] < share &&
      (forall j :: 0 <= j < r.value ==> rates[j] >= share)
    decreases |rates|
  {
    if |rates| == 0 then None
    else if rates[0] < share then Some(0)
    else
      var rest := FirstSlow(rates[1..], share);
      assert forall j :: 1 <= j < |rates| ==> rates[j] == rates[1..][j - 1];
      if rest.Some? then Some(rest.value + 1) else None
  }

  /**
   * `ConveyorSplitter.process`. A failed check adds its error and answers False. Otherwise the
   * errors are reset and each ingredient is divided by the number of connected outputs. When no
   * connected output feeds a building slower than its share of the total rate, each of them is
   * handed the divided list. Otherwise the outputs before the first slow one are handed it and
   * the slow one raises: with nothing to divide the ratio is a division by zero, and with
   * something to divide an undefined name is read.
   */
  function SplitterProcess(nodes: seq<Node>, sp: Ref): (step: Step)
    requires WF(nodes) && IsBuilding(nodes, sp)
    ensures Preserves(nodes, step.nodes)
  {
    var k := nodes[sp].kind;
    assert KindOk(nodes, k);
    var conn := FeedingOutputs(nodes, k.outputs);
    var c := CountCheck(|conn|, SplitterUnfed, SplitterOverfed);
    if !c.ok then Step(AddErrors(nodes, sp, c.errors), Returned(false))
    else
      var n1 := WithErrors(nodes, sp, []);
      var xs := nodes[sp].ingredients;
      var ratio := Fraction(|conn|);
      var share := EqualShare(SumRates(xs), |conn|);
      var produced := Portions(xs, ratio);
      match FedRates(nodes, conn)
      case Failure(e) => Step(n1, Raised(e))
      case Success(rates) =>
        match FirstSlow(rates, share)
        case None => Step(Share(n1, conn, produced), Returned(true))
        case Some(f) =>
          Step(Share(n1, conn[..f], produced), Raised(if SumRates(produced) == 0.0 then ZeroDivisionError else NameError))
  }

  /** The splitter's connected outputs. */
  function SplitterOutputs(nodes: seq<Node>, sp: Ref): (conn: seq<Ref>)
    requires WF(nodes) && IsBuilding(nodes, sp)
    ensures AllOutputs(nodes, conn)
  {
    assert KindOk(nodes, nodes[sp].kind);
    FeedingOutputs(nodes, nodes[sp].kind.outputs)
  }

  /** A splitter answers False exactly when its `can_process` fails, and then only adds `can_process`'s error. */
  lemma SplitterRefuses(nodes: seq<Node>, sp: Ref)
    requires WF(nodes) && IsBuilding(nodes, sp)
    ensures var c := CountCheck(|SplitterOutputs(nodes, sp)|, SplitterUnfed, SplitterOverfed);
      (!c.ok <==> SplitterProcess(nodes, sp).status == Returned(false)) &&
      (!c.ok ==> SplitterProcess(nodes, sp).nodes == AddErrors(nodes, sp, c.errors))
  {
  }

  /**
   * A splitter answers True exactly when it passes its check and every connected output feeds a
   * building with a numeric rate no lower than an equal share of the total; then each connected
   * output holds the ingredients divided by their number, and nothing else outside the splitter
   * changes.
   */
  lemma SplitterSplits(nodes: seq<Node>, sp: Ref)
    requires WF(nodes) && IsBuilding(nodes, sp)
    ensures var conn := SplitterOutputs(nodes, sp);
      var xs := nodes[sp].ingredients;
      var step := SplitterProcess(nodes, sp);
      (step.status == Returned(true) <==>
        1 <= |conn| <= 3 &&
        (forall m :: 0 <= m < |conn| ==>
          HasTarget(nodes, conn[m]) && FedRate(nodes, conn[m]).RateValue? &&
          FedRate(nodes, conn[m]).value >= EqualShare(SumRates(xs), |conn|))) &&
      (step.status == Returned(true) ==>
        step.nodes[sp].errors == [] &&
        (forall m :: 0 <= m < |conn| ==> step.nodes[conn[m]].ingredients == Portions(xs, Fraction(|conn|))) &&
        (forall q :: 0 <= q < |nodes| && q != sp && q !in conn ==> step.nodes[q] == nodes[q]))
  {
    var k := nodes[sp].kind;
    assert KindOk(nodes, k);
    var conn := SplitterOutputs(nodes, sp);
    var c := CountCheck(|conn|, SplitterUnfed, SplitterOverfed);
    if c.ok {
      var xs := nodes[sp].ingredients;
      var n1 := WithErrors(nodes, sp, []);
      var ratio := Fraction(|conn|);
      var share := EqualShare(SumRates(xs), |conn|);
      var produced := Portions(xs, ratio);
      var r := FedRates(nodes, conn);
      if r.Failure? {
        assert SplitterProcess(nodes, sp) == Step(n1, Raised(r.error));
      } else {
        var f := FirstSlow(r.value, share);
        if f.None? {
          assert SplitterProcess(nodes, sp) == Step(Share(n1, conn, produced), Returned(true));
        } else {
          assert SplitterProcess(nodes, sp).status.Raised?;
          assert FedRate(nodes, conn[f.value]) == RateValue(r.value[f.value]);
        }
      }
    }
  }

  /** When the splitter succeeds its connected outputs together carry exactly what it was fed. */
  lemma SplitterConserves(nodes: seq<Node>, sp: Ref)
    requires WF(nodes) && IsBuilding(nodes, sp)
    requires SplitterProcess(nodes, sp).status == Returned(true)
    ensures var conn := SplitterOutputs(nodes, sp);
      |conn| > 0 &&
      Together(|conn|, SumRates(SplitterProcess(nodes, sp).nodes[conn[0]].ingredients)) == SumRates(nodes[sp].ingredients)
  {
    SplitterSplits(nodes, sp);
    var conn := SplitterOutputs(nodes, sp);
    var portion := Portions(nodes[sp].ingredients, Fraction(|conn|));
    assert SplitterProcess(nodes, sp).nodes[conn[0]].ingredients == portion;
    EvenSplit(nodes[sp].ingredients, |conn|);
  }

  // ---------------------------------------------------------------------------------------------
  // Miner

  /**
   * What `Miner.can_process` adds to the building check: an input fed by a plain resource node
   * (not an infinite supply), a recipe that consumes nothing and makes exactly one product, and
   * a node of that product's item. A miner without inputs, and one on a resource node without a
   * recipe, raise.
   */
  function MinerCheck(nodes: seq<Node>, b: Ref): (r: Result<bool, PyError>)
    requires WF(nodes) && IsBuilding(nodes, b)
    ensures r == Success(true) <==>
      var k := nodes[b].kind;
      |k.inputs| > 0 && IsInput(nodes, k.inputs[0]) && nodes[k.inputs[0]].kind.source.Some? &&
      var o := nodes[k.inputs[0]].kind.source.value;
      IsOutput(nodes, o) && IsResource(nodes, nodes[o].kind.owner) &&
      nodes[nodes[o].kind.owner].kind.supply.Ordinary? &&
      k.recipe.Some? && k.recipe.value.consumes.None? && |k.recipe.value.produces| == 1 &&
      nodes[nodes[o].kind.owner].kind.item == k.recipe.value.produces[0].item
    ensures r.Failure? <==>
      var k := nodes[b].kind;
      |k.inputs| == 0 ||
      (IsInput(nodes, k.inputs[0]) && nodes[k.inputs[0]].kind.source.Some? &&
       IsOutput(nodes, nodes[k.inputs[0]].kind.source.value) &&
       var owner := nodes[nodes[k.inputs[0]].kind.source.value].kind.owner;
       IsResource(nodes, owner) && nodes[owner].kind.supply.Ordinary? && k.recipe.None?)
  {
    var k := nodes[b].kind;
    assert KindOk(nodes, k);
    if |k.inputs| == 0 then Failure(IndexError)
    else
      assert KindOk(nodes, nodes[k.inputs[0]].kind);
      match nodes[k.inputs[0]].kind.source
      case None => Success(false)
      case Some(o) =>
        assert KindOk(nodes, nodes[o].kind);
        var owner := nodes[o].kind.owner;
        if !(nodes[owner].kind.Resource? && nodes[owner].kind.supply.Ordinary?) then Success(false)
        else if k.recipe.None? then Failure(AttributeError)
        else if k.recipe.value.consumes.Some? || |k.recipe.value.produces| != 1 then Success(false)
        else Success(nodes[owner].kind.item == k.recipe.value.produces[0].item)
  }

  /** The purity factor of what feeds the miner's first input, as `source.attached_to.purity.value` reads it. */
  function SourcePurity(nodes: seq<Node>, b: Ref): (r: Result<real, PyError>)
    requires WF(nodes) && IsBuilding(nodes, b) && |nodes[b].kind.inputs| > 0
  {
    var k := nodes[b].kind;
    assert KindOk(nodes, k);
    assert KindOk(nodes, nodes[k.inputs[0]].kind);
    match nodes[k.inputs[0]].kind.source
    case None => Failure(AttributeError)
    case Some(o) =>
      assert KindOk(nodes, nodes[o].kind);
      var owner := nodes[o].kind.owner;
      if nodes[owner].kind.Resource? then Success(PurityValue(nodes[owner].kind.purity)) else Failure(AttributeError)
  }

  /** A recipe rate adjusted for the node's purity and the miner's clock rate. */
  function Mined(rate: real, purity: real, clockRate: real): real
  {
    rate * purity * clockRate
  }

  /** The miner's recipe with its product's rate replaced (the product object is shared). */
  function WithProductRate(nodes: seq<Node>, b: Ref, rate: real): (result: seq<Node>)
    requires IsBuilding(nodes, b) && nodes[b].kind.recipe.Some? && |nodes[b].kind.recipe.value.produces| > 0
    ensures Preserves(nodes, result)
    ensures var recipe := nodes[b].kind.recipe.value;
      result == nodes[b := nodes[b].(kind := nodes[b].kind.(recipe :=
        Some(recipe.(produces := recipe.produces[0 := recipe.produces[0].(rate := rate)]))))]
  {
    var recipe := nodes[b].kind.recipe.value;
    var result := nodes[b := nodes[b].(kind := nodes[b].kind.(recipe :=
      Some(recipe.(produces := recipe.produces[0 := recipe.produces[0].(rate := rate)]))))];
    assert Frame(result[b]) == Frame(nodes[b]);
    result
  }

  /**
   * What `Miner.process` does after the building processing: the first output is handed the
   * recipe's product object itself, whose rate is then multiplied by the purity and the clock
   * rate. This runs whether or not `can_process` passed.
   */
  function MinerTail(nodes: seq<Node>, b: Ref): (step: Step)
    requires WF(nodes) && IsBuilding(nodes, b) && |nodes[b].kind.inputs| > 0
    ensures Preserves(nodes, step.nodes)
  {
    var k := nodes[b].kind;
    assert KindOk(nodes, k);
    if k.recipe.None? then Step(nodes, Raised(AttributeError))
    else if |k.recipe.value.produces| == 0 || |k.outputs| == 0 then Step(nodes, Raised(IndexError))
    else
      var p := k.recipe.value.produces[0];
      var n1 := WithIngredients(nodes, k.outputs[0], [p]);
      match SourcePurity(nodes, b)
      case Failure(e) => Step(n1, Raised(e))
      case Success(purity) =>
        var rate := Mined(p.rate, purity, k.clockRate);
        Step(WithProductRate(WithIngredients(nodes, k.outputs[0], [p.(rate := rate)]), b, rate), Done)
  }

  /**
   * `Miner.process`: its own check (whose answer is ignored, and whose building-check errors
   * are added), then `Building.process` with the miner's check in place of the building's (so
   * the errors are reset to the building-check errors, and a failed `can_process` leaves the outputs
   * alone), then the miner's own output.
   */
  function MinerProcess(nodes: seq<Node>, b: Ref): (step: Step)
    requires WF(nodes) && IsBuilding(nodes, b)
    ensures Preserves(nodes, step.nodes)
    ensures MinerCheck(nodes, b).Failure? ==>
      step == Step(AddErrors(nodes, b, BuildingCheck(nodes[b].kind, nodes[b].ingredients).errors), Raised(MinerCheck(nodes, b).error))
  {
    var c := BuildingCheck(nodes[b].kind, nodes[b].ingredients);
    match MinerCheck(nodes, b)
    case Failure(e) => Step(AddErrors(nodes, b, c.errors), Raised(e))
    case Success(ok) =>
      var n2 := MinerStaged(nodes, b, ok);
      PreservesWF(nodes, n2);
      MinerTail(n2, b)
  }

  /**
   * The state `Building.process` leaves a miner in: errors reset to the building-check errors,
   * and the building's production when the miner's check passed. The miner itself keeps its
   * recipe and settings.
   */
  function MinerStaged(nodes: seq<Node>, b: Ref, ok: bool): (staged: seq<Node>)
    requires WF(nodes) && IsBuilding(nodes, b) && (ok ==> nodes[b].kind.recipe.Some?)
    ensures Preserves(nodes, staged) && staged[b].kind == nodes[b].kind
  {
    var c := BuildingCheck(nodes[b].kind, nodes[b].ingredients);
    var n1 := WithErrors(nodes, b, c.errors);
    PreservesWF(nodes, n1);
    if ok then BuildingProduce(n1, b).nodes else n1
  }

  /**
   * A miner that completes carries its product at the recipe's rate times the purity of the
   * node it sits on times its clock rate, and the recipe's product now has that rate.
   */
  lemma MinerOutput(nodes: seq<Node>, b: Ref)
    requires WF(nodes) && IsBuilding(nodes, b)
    requires MinerProcess(nodes, b).status == Done
    ensures var k := nodes[b].kind;
      assert KindOk(nodes, k);
      |k.inputs| > 0 && SourcePurity(nodes, b).Success? &&
      k.recipe.Some? && |k.recipe.value.produces| > 0 && |k.outputs| > 0 &&
      var p := k.recipe.value.produces[0];
      var rate := Mined(p.rate, SourcePurity(nodes, b).value, k.clockRate);
      var after := MinerProcess(nodes, b).nodes;
      after[k.outputs[0]].ingredients == [p.(rate := rate)] &&
      after[b].kind.recipe == Some(k.recipe.value.(produces := k.recipe.value.produces[0 := p.(rate := rate)]))
  {
    var k := nodes[b].kind;
    assert KindOk(nodes, k);
    var n2 := MinerStaged(nodes, b, MinerCheck(nodes, b).value);
    MinerReadsSame(nodes, n2, b);
    assert MinerProcess(nodes, b) == MinerTail(n2, b);
    var p := k.recipe.value.produces[0];
    var rate := Mined(p.rate, SourcePurity(nodes, b).value, k.clockRate);
    assert k.outputs[0] != b;
    assert MinerTail(n2, b) == Step(WithProductRate(WithIngredients(n2, k.outputs[0], [p.(rate := rate)]), b, rate), Done);
  }

  /**
   * A miner completes exactly when its check does not raise, it has a recipe with a product and
   * an output, and what feeds it is a resource node (of any kind: the purity is read whether or
   * not `can_process` passed).
   */
  lemma MinerDone(nodes: seq<Node>, b: Ref)
    requires WF(nodes) && IsBuilding(nodes, b)
    ensures MinerProcess(nodes, b).status == Done <==>
      var k := nodes[b].kind;
      MinerCheck(nodes, b).Success? && |k.inputs| > 0 && k.recipe.Some? && |k.recipe.value.produces| > 0 &&
      |k.outputs| > 0 && SourcePurity(nodes, b).Success?
  {
    var k := nodes[b].kind;
    assert KindOk(nodes, k);
    var c := BuildingCheck(k, nodes[b].ingredients);
    if MinerCheck(nodes, b).Success? {
      var n2 := MinerStaged(nodes, b, MinerCheck(nodes, b).value);
      MinerReadsSame(nodes, n2, b);
      assert MinerProcess(nodes, b) == MinerTail(n2, b);
    }
  }

  /** The miner's check and purity read only links, node kinds, and the recipe's shape and item. */
  lemma MinerReadsSame(a: seq<Node>, c: seq<Node>, b: Ref)
    requires WF(a) && Preserves(a, c) && IsBuilding(a, b)
    requires a[b].kind.recipe.Some? <==> c[b].kind.recipe.Some?
    requires a[b].kind.recipe.Some? ==>
      var x, y := a[b].kind.recipe.value, c[b].kind.recipe.value;
      x.consumes == y.consumes && |x.produces| == |y.produces| && (|x.produces| > 0 ==> x.produces[0].item == y.produces[0].item)
    ensures WF(c) && IsBuilding(c, b)
    ensures MinerCheck(a, b) == MinerCheck(c, b)
    ensures |a[b].kind.inputs| > 0 ==> SourcePurity(a, b) == SourcePurity(c, b)
  {
    PreservesWF(a, c);
    var k := a[b].kind;
    assert KindOk(a, k);
    assert Frame(a[b]) == Frame(c[b]);
    if |k.inputs| > 0 {
      var i := k.inputs[0];
      assert KindOk(a, a[i].kind);
      assert Frame(a[i]) == Frame(c[i]);
      if a[i].kind.source.Some? {
        var o := a[i].kind.source.value;
        assert KindOk(a, a[o].kind);
        assert Frame(a[o]) == Frame(c[o]);
        var owner := a[o].kind.owner;
        assert Frame(a[owner]) == Frame(c[owner]);
      }
    }
  }

  /**
   * Running a miner changes nothing its check or its purity reads, so a miner that completed
   * once completes again.
   */
  lemma MinerRepeats(nodes: seq<Node>, b: Ref)
    requires WF(nodes) && IsBuilding(nodes, b) && MinerProcess(nodes, b).status == Done
    ensures var after := MinerProcess(nodes, b).nodes;
      WF(after) && IsBuilding(after, b) &&
      MinerCheck(after, b) == MinerCheck(nodes, b) && SourcePurity(after, b) == SourcePurity(nodes, b) &&
      MinerProcess(after, b).status == Done
  {
    var after := MinerProcess(nodes, b).nodes;
    MinerDone(nodes, b);
    MinerOutput(nodes, b);
    MinerReadsSame(nodes, after, b);
    PreservesShape(nodes, after);
    MinerDone(after, b);
  }

  /**
   * The product's rate is rewritten in place, so each run multiplies it by the purity and the
   * clock rate again: two runs leave the output at the recipe's rate times that factor twice.
   */
  lemma MinerCompounds(nodes: seq<Node>, b: Ref)
    requires WF(nodes) && IsBuilding(nodes, b) && MinerProcess(nodes, b).status == Done
    ensures var k := nodes[b].kind;
      assert KindOk(nodes, k);
      |k.inputs| > 0 && k.recipe.Some? && |k.recipe.value.produces| > 0 && |k.outputs| > 0 &&
      SourcePurity(nodes, b).Success? &&
      WF(MinerProcess(nodes, b).nodes) && IsBuilding(MinerProcess(nodes, b).nodes, b) &&
      var p := k.recipe.value.produces[0];
      var f := SourcePurity(nodes, b).value;
      var twice := MinerProcess(MinerProcess(nodes, b).nodes, b).nodes;
      twice[k.outputs[0]].ingredients == [p.(rate := Mined(Mined(p.rate, f, k.clockRate), f, k.clockRate))]
  {
    var k := nodes[b].kind;
    assert KindOk(nodes, k);
    var after := MinerProcess(nodes, b).nodes;
    MinerDone(nodes, b);
    MinerOutput(nodes, b);
    MinerRepeats(nodes, b);
    MinerOutput(after, b);
    PreservesShape(nodes, after);
    assert Frame(after[b]) == Frame(nodes[b]);
  }
}
