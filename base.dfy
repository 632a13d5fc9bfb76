/**
 * The value-level vocabulary of the production graph: building and conveyance kinds, purity,
 * error levels, items, ingredients, recipes, dimensions, tier tables and the conveyance recipe
 * whose products are its consumed ingredients capped at the conveyance's rate.
 */
module Base {
  import opened Wrappers
  import opened Text

  /** Number of hub upgrade levels in each tier; the index is the (zero-based) tier. */
  const Tiers: seq<nat> := [6, 3, 5, 4, 5, 4, 4, 5, 4]

  /** The tier numbers as strings, "0" upwards, one per tier. */
  function TierStrings(): (r: seq<string>)
    ensures |r| == |Tiers|
    ensures forall i :: 0 <= i < |r| ==> AllDigits(r[i]) && ParseNat(r[i]) == i
  {
    var r := seq(|Tiers|, i requires 0 <= i < |Tiers| => NatToString(i));
    assert forall i :: 0 <= i < |r| ==> ParseNat(r[i]) == i by {
      forall i | 0 <= i < |r| {
        ParseNatToString(i);
      }
    }
    r
  }

  /** Python indexing of the tier table: negative positions count from the end. */
  function TierIndex(tier: int): (k: nat)
    requires -|Tiers| <= tier < |Tiers|
    ensures k < |Tiers|
    ensures k == tier || k == tier + |Tiers|
  {
    if tier < 0 then tier + |Tiers| else tier
  }

  /** The strings "1" .. "n". */
  function CountingStrings(n: nat): (r: seq<string>)
    ensures |r| == n
    ensures forall i :: 0 <= i < n ==> AllDigits(r[i]) && ParseNat(r[i]) == i + 1
  {
    var r := seq(n, i requires 0 <= i < n => NatToString(i + 1));
    assert forall i :: 0 <= i < n ==> ParseNat(r[i]) == i + 1 by {
      forall i | 0 <= i < n {
        ParseNatToString(i + 1);
      }
    }
    r
  }

  /** The upgrade numbers "1" .. "n" of a tier; an index outside the table raises. */
  function UpgradeStrings(tier: int): (r: Result<seq<string>, PyError>)
    ensures r.Success? <==> -|Tiers| <= tier < |Tiers|
    ensures r.Failure? ==> r.error == IndexError
    ensures r.Success? ==> |r.value| == Tiers[TierIndex(tier)]
    ensures r.Success? ==> forall i :: 0 <= i < |r.value| ==> AllDigits(r.value[i]) && ParseNat(r.value[i]) == i + 1
  {
    if -|Tiers| <= tier < |Tiers| then Success(CountingStrings(Tiers[TierIndex(tier)])) else Failure(IndexError)
  }

  datatype BuildingType =
    | Assembler | AwesomeSink | BiomassGenerator | Blender | BuildGun | CoalGenerator
    | Constructor | Conveyance | Foundry | Manufacturer | Miner | OilExtractor | Packager
    | ParticleAccelerator | PowerPole | Refinery | ResourceWellPressurizer | Smelter
    | SpaceElevator | Storage | WaterExtractor | Workshop | Other

  /** The enum member's name, as `BuildingType.X.name` gives it. */
  function BuildingTypeName(t: BuildingType): string
  {
    match t
    case Assembler => "ASSEMBLER"
    case AwesomeSink => "AWESOME_SINK"
    case BiomassGenerator => "BIOMASS_GENERATOR"
    case Blender => "BLENDER"
    case BuildGun => "BUILD_GUN"
    case CoalGenerator => "COAL_GENERATOR"
    case Constructor => "CONSTRUCTOR"
    case Conveyance => "CONVEYANCE"
    case Foundry => "FOUNDRY"
    case Manufacturer => "MANUFACTURER"
    case Miner => "MINER"
    case OilExtractor => "OIL_EXTRACTOR"
    case Packager => "PACKAGER"
    case ParticleAccelerator => "PARTICLE_ACCELERATOR"
    case PowerPole => "POWER_POLE"
    case Refinery => "REFINERY"
    case ResourceWellPressurizer => "RESOURCE_WELL_PRESSURIZER"
    case Smelter => "SMELTER"
    case SpaceElevator => "SPACE_ELEVATOR"
    case Storage => "STORAGE"
    case WaterExtractor => "WATER_EXTRACTOR"
    case Workshop => "WORKSHOP"
    case Other => "OTHER"
  }

  datatype ConveyanceType = Belt | Vehicle | Pipe | PowerLine | ResourceNode | AwesomeSink

  datatype Purity = Impure | Normal | Pure

  /** The production multiplier each purity stands for. */
  function PurityValue(p: Purity): real
  {
    match p
    case Impure => 0.5
    case Normal => 1.0
    case Pure => 2.0
  }

  datatype ErrorLevel = Debug | Warning | Impossible

  function ErrorLevelName(l: ErrorLevel): string
  {
    match l
    case Debug => "DEBUG"
    case Warning => "WARNING"
    case Impossible => "IMPOSSIBLE"
  }

  /** A diagnostic attached to a component. */
  datatype ComponentError = ComponentError(level: ErrorLevel, message: string)

  /** The Python exceptions the core can raise. */
  datatype PyError = TypeError | ValueError | AttributeError | IndexError | ZeroDivisionError | NameError

  /** Physical footprint of a building. */
  datatype Dimension = Dimension(width: real, length: real, height: real)
  {
    function Area(): real
    {
      width * length
    }

    function Volume(): real
    {
      Area() * height
    }
  }

  /** The volume is the product of the three extents; non-negative extents give non-negative measures. */
  lemma DimensionMeasures(d: Dimension)
    ensures d.Volume() == d.width * d.length * d.height
    ensures d.width >= 0.0 && d.length >= 0.0 ==> d.Area() >= 0.0
    ensures d.width >= 0.0 && d.length >= 0.0 && d.height >= 0.0 ==> d.Volume() >= 0.0
  {
  }

  /** Smallest integer not below `x`. */
  function Ceiling(x: real): (c: int)
    ensures c as real >= x && (c - 1) as real < x
  {
    -((-x).Floor)
  }

  datatype Item = Item(
    id: string,
    name: string,
    conveyance: Option<ConveyanceType>,
    stackSize: Option<int>,
    sinkValue: Option<int>)
  {
    function ProgName(): string
    {
      ProgrammaticName(name)
    }

    /**
     * Inventory stacks needed for `count` items: the ceiling of `count / stack_size`. A missing
     * stack size raises a TypeError, a zero one a ZeroDivisionError.
     */
    function Stacks(count: int): (r: Result<int, PyError>)
      ensures stackSize.None? ==> r == Failure(TypeError)
      ensures stackSize == Some(0) ==> r == Failure(ZeroDivisionError)
      ensures stackSize.Some? && stackSize.value != 0 ==>
        (r.Success? &&
         r.value as real >= count as real / stackSize.value as real &&
         (r.value - 1) as real < count as real / stackSize.value as real)
    {
      match stackSize
      case None => Failure(TypeError)
      case Some(s) => if s == 0 then Failure(ZeroDivisionError) else Success(Ceiling(count as real / s as real))
    }
  }

  /** A measure of an item: an optional amount and a rate per minute. */
  datatype Ingredient = Ingredient(item: Item, amount: Option<int>, rate: real)

  /** A recipe; `consumes` is `None` for extraction recipes that take nothing in. */
  datatype Recipe = Recipe(buildingType: BuildingType, consumes: Option<seq<Ingredient>>, produces: seq<Ingredient>)
  {
    /** The consumed ingredients, empty when the recipe has none. */
    function Consumed(): seq<Ingredient>
    {
      if consumes.Some? then consumes.value else []
    }
  }

  function Min(a: real, b: real): real
  {
    if a <= b then a else b
  }

  /** The ingredient with its rate limited to `maxRate`. */
  function Cap(x: Ingredient, maxRate: real): Ingredient
  {
    x.(rate := Min(x.rate, maxRate))
  }

  /** Each ingredient capped at `maxRate`, otherwise unchanged. */
  function Capped(xs: seq<Ingredient>, maxRate: real): (r: seq<Ingredient>)
    ensures |r| == |xs|
    ensures forall k :: 0 <= k < |r| ==> r[k].item == xs[k].item && r[k].amount == xs[k].amount
    ensures forall k :: 0 <= k < |r| ==> r[k].rate <= maxRate && r[k].rate <= xs[k].rate
    ensures forall k :: 0 <= k < |r| ==> r[k].rate == xs[k].rate || r[k].rate == maxRate
  {
    seq(|xs|, k requires 0 <= k < |xs| => Cap(xs[k], maxRate))
  }

  /** Capping twice is capping once, and nothing already within the rate is touched. */
  lemma CappedIdempotent(xs: seq<Ingredient>, maxRate: real)
    ensures Capped(Capped(xs, maxRate), maxRate) == Capped(xs, maxRate)
    ensures (forall k :: 0 <= k < |xs| ==> xs[k].rate <= maxRate) ==> Capped(xs, maxRate) == xs
  {
  }

  /**
   * A conveyance recipe over `ingredients`: it consumes and produces the same list, each rate
   * lowered to `maxRate` where it exceeded it (the list is rewritten in place; the assignment to
   * a misspelt `amout` attribute leaves every amount as it was).
   */
  method SetIngredients(maxRate: real, ingredients: seq<Ingredient>) returns (recipe: Recipe)
    ensures recipe.buildingType == BuildingType.Conveyance
    ensures recipe.consumes == Some(recipe.produces)
    ensures recipe.produces == Capped(ingredients, maxRate)
  {
    var xs := ingredients;
    var k := 0;
    while k < |xs|
      invariant 0 <= k <= |xs| == |ingredients|
      invariant xs[..k] == Capped(ingredients[..k], maxRate)
      invariant xs[k..] == ingredients[k..]
    {
      xs := xs[k := xs[k].(rate := Min(xs[k].rate, maxRate))];
      k := k + 1;
    }
    recipe := Recipe(BuildingType.Conveyance, Some(xs), xs);
  }

  /** The first-generation conveyance recipe: consumes and produces its ingredients unchanged. */
  function LegacyConveyanceRecipe(ingredients: seq<Ingredient>): (r: Recipe)
    ensures r.buildingType == BuildingType.Conveyance
    ensures r.Consumed() == r.produces == ingredients
  {
    Recipe(BuildingType.Conveyance, Some(ingredients), ingredients)
  }

  /** Sum of the rates. */
  function SumRates(xs: seq<Ingredient>): real
    decreases |xs|
  {
    if |xs| == 0 then 0.0 else SumRates(xs[..|xs| - 1]) + xs[|xs| - 1].rate
  }

  lemma {:induction false} SumRatesAppend(a: seq<Ingredient>, b: seq<Ingredient>)
    ensures SumRates(a + b) == SumRates(a) + SumRates(b)
    decreases |b|
  {
    if |b| > 0 {
      assert (a + b)[..|a + b| - 1] == a + b[..|b| - 1];
      SumRatesAppend(a, b[..|b| - 1]);
    } else {
      assert a + b == a;
    }
  }

  /** Taking out the element at `f` leaves one fewer, and exactly that one is missing. */
  lemma RemoveAtCounts<T>(s: seq<T>, f: nat)
    requires f < |s|
    ensures |s[..f] + s[f + 1..]| == |s| - 1
    ensures multiset(s[..f] + s[f + 1..]) + multiset{s[f]} == multiset(s)
  {
    assert s[f..] == [s[f]] + s[f + 1..];
    assert s == s[..f] + s[f..];
    assert multiset(s) == multiset(s[..f]) + multiset{s[f]} + multiset(s[f + 1..]);
  }

  /** Real-number facts the rate computations use, stated once in a context of their own. */
  lemma DivideSum(a: real, b: real, d: real)
    requires d != 0.0
    ensures (a + b) / d == a / d + b / d
  {
  }

  lemma MultiplySum(a: real, b: real, f: real)
    ensures (a + b) * f == a * f + b * f
  {
  }

  lemma DivideCancels(a: real, d: real)
    requires d != 0.0
    ensures (a / d) * d == a && d * (a / d) == a
  {
  }

  /** A quotient by a non-zero rate is zero exactly when the dividend is. */
  lemma QuotientZero(a: real, b: real)
    requires b != 0.0
    ensures a / b == 0.0 <==> a == 0.0
  {
    if a / b == 0.0 {
      assert a == (a / b) * b;
    }
  }
}
