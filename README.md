# Production-graph model

This project models the factory library behind a Satisfactory production planner, in both of its
generations: the current `satisfactory` package and the older `satisfactor_py` package.

A factory is a graph of components:

- resource nodes, including infinite supply nodes;
- buildings of several classes: plain buildings, conveyances, storages, the Awesome Sink,
  conveyor mergers and splitters, miners and the pipeline junction cross;
- input and output ports, which join buildings and carry ingredients (an item with a rate).

Ports are checked for direction and conveyance type when they are connected. Each building class
has its own `can_process`/`process` pair. It compares what reaches its inputs with its recipe,
writes what it produces onto its outputs and attaches levelled component errors (warning,
impossible, …).

The factory keeps a list of components. It answers queries by id, name, tag and building type,
and reports errors. It has two reset operations, `purge` and `drain`. A walker starts at every
resource node and applies a visitor (drain or simulate) downstream, one component at a time.

## How the model is built

The whole object graph is an arena, `Graph.Node`s in a sequence. A `Ref` (an index) plays the
part of object identity, and every link between ports and owners is a `Ref`. A node carries:

- what every component has: id, name, tags, `traversed`, the owning factory, errors and
  ingredients;
- a `Kind`: an input or output port with its owner and remote end, a resource node, or a
  building with its class, recipe, clock rate, standby flag, dimensions and port lists.

`Graph.WF` says every reference points at a node of the right kind; the owner of an input port
is a building, since a resource node has no inputs.

Each processing operation is a function from an arena to a `Graph.Step`: the new arena, plus how
the Python method ended (no value, a boolean, or a raised exception). An imperative method on a
`Graph.Heap` does the same work in place, with loops where the source loops, and is proved equal
to the function. Every step keeps the `Frame` of every node. The frame is everything except
working state (errors, ingredients, recipe and the infinite-supply shadow flag). Keeping it keeps
well-formedness, the graph's shape and the traversed flags.

The walkers are recursive, as in the source. Termination comes from a ghost rank that decreases
along every edge, i.e. an acyclicity assumption. Both walkers take the per-component processing
step as a parameter (`Simulation.Processor`). The current factory uses `Simulation.FactoryStep`.
The older one uses `Legacy.LegacyStep`. The older `satisfactor_py/buildings.py` is written against
the current component API, so its classes are modelled on the current base.

Modules, in dependency order:

- `Wrappers`: Option and Result.
- `Base`: tiers, dimensions, items, ingredients, recipes, error values.
- `Text`: number strings, `str.title`, `programmatic_name`, ids.
- `Graph`: the arena.
- `Connections`: port connect, disconnect and process.
- `Processing`: resource nodes and plain buildings.
- `Transport`: conveyances and storage.
- `Linking`: `Building.connect`.
- `Buildings`: sink, merger, splitter, miner.
- `Junction`: the pipeline junction cross.
- `Simulation`: the current walker.
- `Factories`: the current factory.
- `Legacy`: the older base classes and factory.

## Model

| member | source | states |
|---|---|---|
| Base.TierStrings | satisfactory/base.py:63-70 | one entry per tier (nine), the i-th spelling the number i |
| Base.TierIndex | satisfactory/base.py:72-79 | Python's negative list indexing: a tier index in range names one of the nine tiers, counting from the end when negative |
| Base.CountingStrings | satisfactory/base.py:72-79 | n strings, the i-th spelling i + 1 |
| Base.UpgradeStrings | satisfactory/base.py:72-79 | succeeds exactly for a tier Python can index (negative ones included), otherwise IndexError; the list has TIERS[tier] entries spelling 1, 2, … |
| Base.DimensionMeasures | satisfactory/base.py:167-171 | volume is width × length × height; area and volume are non-negative for non-negative sides (the older Dimension, satisfactor_py/base.py:80-84, measures the same) |
| Base.Ceiling | satisfactory/base.py:428-436 | `math.ceil`: the least integer not below x |
| Base.Stacks | satisfactory/base.py:428-436 | the least integer at or above count / stack_size; TypeError without a stack size, ZeroDivisionError for a zero one (the older Item, satisfactor_py/base.py:254-261, is the same) |
| Base.Capped | satisfactory/base.py:539-548 | same items and amounts in the same order; every rate is at most the cap and at most the old rate, and is either the old rate or the cap |
| Base.CappedIdempotent | satisfactory/base.py:539-548 | capping twice is capping once; rates already within the cap are left as they are |
| Base.SetIngredients | satisfactory/base.py:522-548 | the conveyance recipe consumes and produces the same list, which is the given ingredients capped at the maximum rate |
| Base.LegacyConveyanceRecipe | satisfactor_py/base.py:311-331 | a conveyance recipe whose consumed and produced lists are both exactly the given ingredients |
| Base.SumRatesAppend | satisfactory/base.py:1155-1174 | the total rate of a concatenation is the sum of the totals |
| Base.RemoveAtCounts | satisfactory/factories.py:89-100 | removing one position loses exactly that element and keeps the rest |
| Text.NatToString | satisfactory/base.py:63-79 | `str(i)`: a non-empty string of digits, starting with 0 only for zero |
| Text.ParseNatToString | satisfactory/base.py:63-79 | reading back the digits gives the number |
| Text.NatToStringInjective | satisfactory/base.py:63-79 | distinct numbers have distinct spellings |
| Text.TitleFromChars | satisfactory/base.py:224-233 | `str.title` on ASCII text: a letter at the start of a word is upper-cased, any other letter lower-cased, every other character kept |
| Text.TitleIdempotent | satisfactory/base.py:224-233 | title-casing a title-cased string changes nothing |
| Text.StripSeparators | satisfactory/base.py:224-233 | no space or dot is left, the string does not grow, and a string without either is unchanged |
| Text.StripSeparatorsAppend | satisfactory/base.py:224-233 | stripping a concatenation strips each part, so the kept characters stay in their order |
| Text.StripSeparatorsChar | satisfactory/base.py:224-233 | a space or dot is dropped and any other character is kept |
| Text.TitleFromAppend | satisfactory/base.py:224-233 | title-casing a concatenation cases the second part as if it followed the last character of the first |
| Text.TitleJoin | satisfactory/base.py:224-233 | a space or dot ends a word: the text after it is title-cased on its own |
| Text.ProgrammaticName | satisfactory/base.py:224-233 | the title-cased name without spaces or dots, no longer than the name |
| Text.ProgrammaticNameJoin | satisfactory/base.py:224-233 | the programmatic name of two parts joined by a space or dot is the name of the first followed by the name of the second |
| Text.ProgrammaticNameWord | satisfactory/base.py:224-233 | a word of letters becomes its first letter upper-cased and the rest lower-cased |
| Text.ContainsIff | satisfactory/factories.py:219-265 | Python's `in` on strings holds exactly when the substring occurs at some position |
| Text.ContainsTrivial | satisfactory/factories.py:219-265 | the empty string, and a string itself, are substrings of it |
| Text.AsciiLetter | satisfactor_py/base.py:23 | each of the 52 alphabet positions is an ASCII letter |
| Text.GenerateId | satisfactor_py/base.py:18-25 | the id has between 12 and 40 characters, all ASCII letters |
| Graph.WithErrors | satisfactory/base.py:348-363 | the errors setter: replaces one component's errors and keeps every frame and well-formedness |
| Graph.AddErrors | satisfactory/base.py:338-346 | `add_error`: appends to one component's errors only |
| Graph.ClearErrors | satisfactory/base.py:365-370 | `clear_errors`: empties one component's errors only |
| Graph.WithIngredients | satisfactory/base.py:801-815 | replaces one component's ingredients only, keeping every frame |
| Graph.Next | satisfactory/factories.py:367-395 | the walker's successors of a component are all components of the arena |
| Graph.SameShapeRanked | satisfactory/factories.py:367-395 | working-state changes keep the acyclicity rank and the successors of every component |
| Graph.PreservesWF | satisfactory/base.py:372-387 | processing, which keeps frames, keeps the arena well formed |
| Connections.Bump | satisfactory/base.py:744-757 | the loop that raises the rate of an ingredient already present: every entry of that item gains the incoming rate, the others are unchanged |
| Connections.ItemTotalBump | satisfactory/base.py:744-757 | bumping adds the incoming rate once per entry of the item and keeps each item's count |
| Connections.DistinctCount | satisfactory/base.py:744-757 | in a list with distinct items an item occurs once or not at all |
| Connections.MergeConserves | satisfactory/base.py:744-757 | merging an input's ingredients into a multi-input owner keeps items distinct, and each item's total rate is the old total plus the incoming total |
| Connections.MergeKeepsItems | satisfactory/base.py:744-757 | merging keeps the owner's items in place, and every incoming item ends up present |
| Connections.MergeInto | satisfactory/base.py:744-757 | the merge loop computes the merge |
| Connections.Link | satisfactory/base.py:714-731 | the two ports point at each other, everything else is unchanged and the arena stays well formed |
| Connections.ConnectCheck | satisfactory/base.py:714-731 | no error exactly when the other end is a port of the opposite direction and the same conveyance type; AttributeError exactly when the other end has no conveyance type, or is a conveyance building (lines 1313-1323) of the same type, which cannot say its direction (lines 657-668); TypeError exactly when the types differ, or the other port has the same direction |
| Connections.ConnectInput | satisfactory/base.py:714-731 | `Input.connect`: on the error `ConnectCheck` gives, nothing changes; otherwise both ports are linked (the older `Input.connect`, satisfactor_py/base.py:395-412, has the same checks and effect) |
| Connections.ConnectOutput | satisfactory/base.py:779-796 | `Output.connect`, the mirror image: on the error `ConnectCheck` gives, nothing changes; otherwise both ports are linked (the older one, satisfactor_py/base.py:426-443, has the same checks and effect) |
| Connections.Disconnect | satisfactory/base.py:601-606 | clears only this port's own end and leaves the remote port untouched: the source for `Input.disconnect` (lines 733-734), the target for `Output.disconnect` (lines 798-799) |
| Connections.InputProcess | satisfactory/base.py:736-758 | the port changes only by losing its errors; the owner changes only in its ingredients, which become the port's for a single-input owner and the merge of both otherwise; no other component changes |
| Connections.ProcessInput | satisfactory/base.py:736-758 | the in-place `Input.process` has exactly that effect |
| Connections.OutputProcess | satisfactory/base.py:801-815 | an unconnected output records one error and nothing else changes; a connected one only loses its errors, its target only takes its ingredients, and no other component changes |
| Processing.ProducedNames | satisfactory/base.py:863-914 | the programmatic names of the produced items, in order |
| Processing.ResourceProcess | satisfactory/base.py:863-914 | raises AttributeError exactly when the fed input's owner is not an extractor; otherwise at most one error, and none exactly when that owner's recipe produces the node's item; only the node changes |
| Processing.InfiniteProcess | satisfactory/base.py:960-1016 | a shadowed node raises TypeError; otherwise its errors are `can_process`'s, a failed `can_process` shadows it, and a success emits the item at the smaller of the supply rate and the downstream rate |
| Processing.MissingErrorsEmpty | satisfactory/base.py:1120-1126 | no missing-ingredient warning exactly when every required name is supplied; all are warnings |
| Processing.ExtraErrorsWarnings | satisfactory/base.py:1128-1133 | every unneeded-ingredient error is a warning |
| Processing.ExtraErrorsAppend | satisfactory/base.py:1128-1133 | one more ingredient adds a warning exactly when it is not required |
| Processing.MissingErrorsIgnoresUnrequired | satisfactory/base.py:1120-1126 | supplying an unrequired ingredient does not change the missing list |
| Processing.MissingErrorsSplit | satisfactory/base.py:1120-1126 | one more required name adds an error exactly when it is not supplied |
| Processing.BuildingCheckSpec | satisfactory/base.py:1081-1136 | `can_process` succeeds exactly when there is a recipe, no standby, and either nothing is consumed or there are enough inputs and every consumed item is supplied; an impossible error exactly when there are too few inputs |
| Processing.UnrequiredIngredientOnlyWarns | satisfactory/base.py:1081-1136 | an extra, unneeded ingredient adds one warning and does not change the verdict |
| Processing.CanProcess | satisfactory/base.py:1081-1136 | the loop-based `can_process` returns the errors and verdict of `can_process` |
| Processing.CollectMissing | satisfactory/base.py:1120-1126 | the missing-ingredient loop computes the missing list |
| Processing.CollectExtra | satisfactory/base.py:1128-1133 | the extra-ingredient loop computes the extra list |
| Processing.RowWarningsSpec | satisfactory/base.py:1155-1174 | no rate warning for one required ingredient exactly when every supplied entry of that item has rate × clock rate; all are warnings |
| Processing.RateWarningsSpec | satisfactory/base.py:1155-1174 | no rate warning at all exactly when every required ingredient is supplied at its scaled rate |
| Processing.CollectRateWarnings | satisfactory/base.py:1155-1174 | the nested rate loop computes those warnings |
| Processing.CollectRowWarnings | satisfactory/base.py:1155-1174 | the inner rate loop computes one row |
| Processing.IndexOf | satisfactory/base.py:1176-1195 | the position of a port in a port list, unique when the list has no repeats |
| Processing.WriteOutputs | satisfactory/base.py:1176-1195 | writes the given contents to the listed outputs and changes nothing else |
| Processing.FirstFit | satisfactory/base.py:1176-1195 | a product that fits the conveyance type |
| Processing.FirstFitSpec | satisfactory/base.py:1176-1195 | the product chosen is the first that fits; no result means none fits |
| Processing.FilledStep | satisfactory/base.py:1176-1195 | one product step fills an output exactly when it is still empty and the type matches, with the rate scaled by the clock rate |
| Processing.PairsFitClosedForm | satisfactory/base.py:1176-1195 | the loop's flag, which every product-output pair that does not take the product clears, holds exactly when there are no outputs, no products, or a single product that fits every output (so two or more products always fail) |
| Processing.FillOutputs | satisfactory/base.py:1176-1195 | the fill loop computes each output's contents and succeeds exactly under that closed-form condition |
| Processing.OfferProduct | satisfactory/base.py:1176-1195 | offering one product to every output advances the fill by one product |
| Processing.PortTypes | satisfactory/base.py:1176-1195 | the conveyance types of the outputs, in order |
| Processing.BuildingProduce | satisfactory/base.py:1138-1197 | after a passed check, every output holds what the fill gives it, the building gains the rate warnings, plus an impossible error when the fill fails, and nothing else changes |
| Processing.BuildingProcess | satisfactory/base.py:1138-1197 | `Building.process`: errors are replaced by `can_process`'s; a failed `can_process` returns False and touches no output; a passed one produces |
| Processing.Produce | satisfactory/base.py:1155-1197 | the in-place output filling has exactly that effect |
| Processing.ProcessBuilding | satisfactory/base.py:1138-1197 | the in-place `Building.process` has exactly that effect |
| Transport.Rescaled | satisfactory/base.py:1339-1362 | every rate divided by the ratio, items kept |
| Transport.SumRescaled | satisfactory/base.py:1339-1362 | dividing every rate divides the total |
| Transport.RescaledToRate | satisfactory/base.py:1339-1362 | rescaling by total / capacity brings the total to exactly the capacity |
| Transport.WithCarried | satisfactory/base.py:1339-1362 | the conveyance carries the given ingredients as both its ingredients and its recipe, and nothing else changes |
| Transport.ConveyanceProcess | satisfactory/base.py:1339-1362 | `Conveyance.process` keeps every frame; the lemmas below state its outcome |
| Transport.CarriedSpec | satisfactory/base.py:1339-1362 | what a conveyance carries has the capped items in order; it is the capped list when not overloaded and totals exactly the capacity when overloaded |
| Transport.ConveyanceWarning | satisfactory/base.py:1339-1362 | no input raises IndexError and changes nothing; otherwise one over-capacity warning is added exactly when overloaded |
| Transport.ConveyanceOutcome | satisfactory/base.py:1339-1362 | ZeroDivisionError exactly when overloaded with a zero capacity or a zero total; True exactly when nothing raised and there is an output |
| Transport.ConveyanceCarries | satisfactory/base.py:1339-1362 | on success the conveyance and its first output hold what it carries, and nothing else changes |
| Transport.ConveyanceSingleIngredient | satisfactory/base.py:1339-1362 | a single ingredient of rate r comes out at min(r, capacity) |
| Transport.ConveyanceCapsEachIngredientOnly | satisfactory/base.py:1339-1362 | a worked example of `CarriedSpec`: two 50-per-minute ingredients on a 60-per-minute belt pass at 100 in total with no warning, because the cap applies per ingredient |
| Transport.ProcessConveyance | satisfactory/base.py:1339-1362 | the in-place `Conveyance.process` has exactly the effect of the function |
| Transport.CapConveyance | satisfactory/base.py:1339-1362 | the capping stage reports overload, the capped list and its total |
| Transport.DivideRates | satisfactory/base.py:1339-1362 | the division loop rescales every rate |
| Transport.StorageScan | satisfactory/base.py:1402-1417 | collects the connected outputs together with their downstream rates |
| Transport.StorageScanSpec | satisfactory/base.py:1402-1417 | no error exactly when the storage is empty or every connected output has a numeric downstream rate; then every connected output is collected, with that rate |
| Transport.CapAll | satisfactory/base.py:1402-1417 | same items; every rate is at most the old one and at most every collected rate, and is the old rate or one of them |
| Transport.Share | satisfactory/base.py:1402-1417 | the listed holders all get the same list; nothing else changes |
| Transport.StorageProcess | satisfactory/base.py:1402-1417 | `Storage.process` keeps every frame and ends normally or raises; the lemmas below state its outcome |
| Transport.StorageRaises | satisfactory/base.py:1402-1417 | for a storage holding an ingredient list, `Storage.process` ends normally exactly when the list is empty or every connected output's downstream rate is numeric |
| Transport.StorageLeaves | satisfactory/base.py:1402-1417 | only the storage and its connected outputs change |
| Transport.StorageShares | satisfactory/base.py:1402-1417 | every connected output holds the storage's own, capped list, with the same items at no higher rates |
| Transport.StorageCapsAtFed | satisfactory/base.py:1402-1417 | no rate the storage hands on exceeds any connected output's downstream rate |
| Transport.ProcessStorage | satisfactory/base.py:1402-1417 | the in-place `Storage.process` has exactly the effect of the function |
| Transport.ScanOutputs | satisfactory/base.py:1402-1417 | the output loop computes the holders, the capped list and the error |
| Linking.FirstFree | satisfactory/base.py:1199-1269 | the first port of the list that is free and of the type; none exactly when no port qualifies |
| Linking.FindFree | satisfactory/base.py:1199-1269 | the port-scanning loop finds that port |
| Linking.ConveyanceName | satisfactory/base.py:1199-1269 | a non-empty given name wins, otherwise the default name built from both buildings |
| Linking.Allocate | satisfactory/base.py:1199-1269 | adds a new conveyance and its two ports at the end of the arena, keeping what was there |
| Linking.Rename | satisfactory/base.py:1199-1269 | renames one component only |
| Linking.Wire | satisfactory/base.py:1199-1269 | the upstream output feeds the new conveyance's input, and its output feeds the downstream input; nothing else changes |
| Linking.BuildingConnect | satisfactory/base.py:1199-1269 | `Building.connect` keeps the arena well formed; the lemmas below state its outcome |
| Linking.BuildingConnectSpec | satisfactory/base.py:1199-1269 | TypeError exactly when the target is not a building; on an error or a refusal the arena is unchanged |
| Linking.BuildingConnectRefuses | satisfactory/base.py:1199-1269 | refused exactly when one side has no free port of the conveyance's type |
| Linking.BuildingConnectWires | satisfactory/base.py:1199-1269 | on success the first free ports of both sides are wired through a new named conveyance |
| Linking.BuildConveyance | satisfactory/base.py:1199-1269 | the in-place wiring has exactly that effect |
| Linking.Connect | satisfactory/base.py:1199-1269 | the in-place `Building.connect` has exactly the effect of the function |
| Buildings.SumRatesScaled | satisfactor_py/buildings.py:317-350 | scaling every rate by f scales the total by f |
| Buildings.FedInputs | satisfactor_py/buildings.py:299-315 | exactly the inputs that have a source |
| Buildings.FeedingOutputs | satisfactor_py/buildings.py:384-404 | exactly the outputs that have a target, without repeats |
| Buildings.CountCheck | satisfactor_py/buildings.py:299-315 | passes exactly for one to three ports; none is a warning and more than three is impossible (the same bound serves splitter outputs, satisfactor_py/buildings.py:384-404) |
| Buildings.DownstreamRate | satisfactor_py/buildings.py:317-350 | the numeric rate of whatever the first output feeds, whenever it has one; IndexError without outputs, AttributeError without a target or a `rate` attribute, TypeError for a rate of None |
| Buildings.NonDisposables | satisfactor_py/buildings.py:134-147 | the incoming ingredients that have no sink value |
| Buildings.NonDisposablesEmpty | satisfactor_py/buildings.py:134-147 | there are none exactly when every ingredient can be sunk |
| Buildings.SinkCheck | satisfactor_py/buildings.py:134-147 | `AwesomeSink.can_process` passes exactly when every incoming item has a sink value, otherwise one warning |
| Buildings.SinkPointsAppend | satisfactor_py/buildings.py:149-165 | the points of a concatenation are the sum of the points |
| Buildings.SinkPointsSingle | satisfactor_py/buildings.py:149-165 | one ingredient is worth sink value × rate |
| Buildings.SinkProcess | satisfactor_py/buildings.py:134-165 | an unsinkable item gives False and a warning; otherwise the first output gets exactly one sink-point ingredient of the summed points, or IndexError without outputs |
| Buildings.ScaledBy | satisfactor_py/buildings.py:317-350 | every rate multiplied by f, items and amounts kept |
| Buildings.ScaleRates | satisfactor_py/buildings.py:317-350 | the merger's in-place scaling loop computes that |
| Buildings.MergerProcess | satisfactor_py/buildings.py:317-350 | `ConveyorMerger.process` keeps every frame |
| Buildings.MergerRefuses | satisfactor_py/buildings.py:299-350 | a failed input count gives False and adds the count error, and gives False only then |
| Buildings.MergerRaises | satisfactor_py/buildings.py:317-350 | raises exactly when there is no numeric downstream rate, or when scaling would divide by a zero total |
| Buildings.MergerScales | satisfactor_py/buildings.py:317-350 | a slower downstream scales every ingredient by rate / total, so the output totals exactly that rate, with a slowdown notice; otherwise the ingredients pass unchanged |
| Buildings.ScaledToRate | satisfactor_py/buildings.py:317-350 | scaling by rate / total gives total rate |
| Buildings.ProcessMerger | satisfactor_py/buildings.py:317-350 | the in-place `ConveyorMerger.process` has exactly the effect of the function |
| Buildings.Portions | satisfactor_py/buildings.py:406-477 | each ingredient at rate × ratio, without amount |
| Buildings.EvenSplit | satisfactor_py/buildings.py:406-477 | n equal portions add up to the whole |
| Buildings.FedRates | satisfactor_py/buildings.py:406-477 | the downstream rates of the outputs, present exactly when all are numeric |
| Buildings.FirstSlow | satisfactor_py/buildings.py:406-477 | the first output slower than its share; none exactly when none is |
| Buildings.SplitterProcess | satisfactor_py/buildings.py:406-477 | `ConveyorSplitter.process` keeps every frame |
| Buildings.SplitterRefuses | satisfactor_py/buildings.py:384-404 | `ConveyorSplitter.can_process`: zero or more than three connected outputs give False with the count error, and only they do |
| Buildings.SplitterSplits | satisfactor_py/buildings.py:406-477 | True exactly when one to three outputs are connected and none is slower than its share; then each connected output gets every ingredient at rate / n, and only those change |
| Buildings.SplitterConserves | satisfactor_py/buildings.py:406-477 | the outputs together carry exactly the input rate |
| Buildings.MinerCheck | satisfactor_py/buildings.py:654-679 | `Miner.can_process` passes exactly when the input is fed by a plain resource node whose item is the recipe's single product and nothing is consumed; the raising cases are a missing input, or a resource-node source with no recipe |
| Buildings.WithProductRate | satisfactor_py/buildings.py:681-693 | rewrites only the rate of the recipe's first product |
| Buildings.MinerProcess | satisfactor_py/buildings.py:681-693 | a raising check adds `can_process`'s errors and raises the same exception |
| Buildings.MinerStaged | satisfactor_py/buildings.py:681-693 | the miner's staging keeps its kind and every frame |
| Buildings.MinerOutput | satisfactor_py/buildings.py:681-693 | the output rate is recipe rate × purity × clock rate, written back into the recipe as well |
| Buildings.MinerDone | satisfactor_py/buildings.py:654-693 | `process` completes exactly when `can_process` does not raise, there is a single product, an output and a known purity |
| Buildings.MinerReadsSame | satisfactor_py/buildings.py:654-679 | `can_process` and the purity look only at the frame and the recipe's shape |
| Buildings.MinerRepeats | satisfactor_py/buildings.py:681-693 | a miner that processed once passes again |
| Buildings.MinerCompounds | satisfactor_py/buildings.py:688-693 | because the recipe is changed in place, processing twice applies purity × clock rate twice |
| Junction.CutSourcesSpec | satisfactor_py/buildings.py:764-767 | unlinking the junction's inputs clears the target of exactly the outputs that fed them |
| Junction.CutTargetsSpec | satisfactor_py/buildings.py:769-772 | unlinking the junction's outputs clears the source of exactly the inputs they fed |
| Junction.CutSourcesLoop | satisfactor_py/buildings.py:764-767 | the input-unlinking loop computes that |
| Junction.CutTargetsLoop | satisfactor_py/buildings.py:769-772 | the output-unlinking loop computes that |
| Junction.NewPorts | satisfactor_py/buildings.py:774-782 | exactly `inputs` unconnected pipe inputs then `outputs` unconnected pipe outputs, owned by the junction |
| Junction.Refit | satisfactor_py/buildings.py:774-782 | the junction's port lists become the new ports, appended to the arena; nothing else changes |
| Junction.Unlinked | satisfactor_py/buildings.py:764-772 | unlinking keeps the junction and the arena's well-formedness |
| Junction.UnlinkedAt | satisfactor_py/buildings.py:764-772 | each component after unlinking: an old input's source loses its target, an old output's target (still linked after the first loop) loses its source, everything else is kept |
| Junction.SetConnections | satisfactor_py/buildings.py:746-782 | ValueError exactly when more than four ports, fewer than one input or negative outputs are asked for |
| Junction.SetConnectionsPorts | satisfactor_py/buildings.py:746-782 | on success the junction has exactly the requested numbers of fresh pipe ports |
| Junction.SetConnectionsUnlinks | satisfactor_py/buildings.py:746-782 | on success the previous remote ends are unlinked and nothing else outside the junction changes |
| Junction.DetachedAfterCut | satisfactor_py/buildings.py:764-772 | which inputs the second loop unlinks, as seen after the first loop |
| Junction.SetJunctionConnections | satisfactor_py/buildings.py:746-782 | the in-place `set_connections` raises without change, or has exactly the effect of the function |
| Junction.ItemsOf | satisfactor_py/buildings.py:784-804 | the items of the ingredients, in order |
| Junction.Dedup | satisfactor_py/buildings.py:784-804 | the distinct items, each once, the same set |
| Junction.DedupSnoc | satisfactor_py/buildings.py:784-804 | one more item is appended exactly when new |
| Junction.SingleFluid | satisfactor_py/buildings.py:784-804 | at most one distinct item exactly when all items are the same |
| Junction.JunctionCheckSpec | satisfactor_py/buildings.py:784-804 | `can_process` passes exactly when the inputs carry a single fluid, and otherwise reports the number of fluids |
| Junction.AddItems | satisfactor_py/buildings.py:784-804 | the item-collecting inner loop extends the distinct list |
| Junction.CollectItems | satisfactor_py/buildings.py:784-804 | the item-collecting loop computes the distinct items of all inputs |
| Junction.JunctionCanProcess | satisfactor_py/buildings.py:784-804 | the in-place check returns the verdict and adds its error only on failure |
| Junction.TotalUpdate | satisfactor_py/buildings.py:806-856 | overwriting one rate changes the total by the difference |
| Junction.IdealBounds | satisfactor_py/buildings.py:806-856 | an output's even share of what remains is between zero and what remains, and is all of it for the last output |
| Junction.PassFrom | satisfactor_py/buildings.py:806-856 | one pass of the fill loop completes exactly when every output it visits has a numeric downstream rate |
| Junction.PassFromRaises | satisfactor_py/buildings.py:806-856 | when a pass raises, it raises the error of the first visited output without a numeric downstream rate |
| Junction.PassFromFrame | satisfactor_py/buildings.py:806-856 | a pass changes only the outputs it visits |
| Junction.PassConserves | satisfactor_py/buildings.py:806-856 | during a pass, distributed rate plus remaining rate stays equal to the total |
| Junction.PassKeepsNonnegative | satisfactor_py/buildings.py:806-856 | the remaining rate never goes negative |
| Junction.PassBounds | satisfactor_py/buildings.py:806-856 | no visited output is pushed above its downstream rate |
| Junction.PassLast | satisfactor_py/buildings.py:806-856 | after a pass either nothing remains or the last visited output is full |
| Junction.UnfilledFrom | satisfactor_py/buildings.py:806-856 | exactly the outputs still below their downstream rate |
| Junction.UnfilledMono | satisfactor_py/buildings.py:806-856 | filling never re-opens an output, and filling one more strictly shrinks the unfilled set |
| Junction.PassShrinks | satisfactor_py/buildings.py:806-856 | a pass that leaves rate over fills at least one more output, which is why the while loop ends |
| Junction.Fill | satisfactor_py/buildings.py:806-856 | the later passes of the while loop, which always end and never raise |
| Junction.FillConserves | satisfactor_py/buildings.py:806-856 | distributed plus remaining equals the total at the end of the loop |
| Junction.FillBounds | satisfactor_py/buildings.py:806-856 | every output stays at or below its downstream rate |
| Junction.FillKeepsNonnegative | satisfactor_py/buildings.py:806-856 | the remaining rate stays non-negative |
| Junction.FillStops | satisfactor_py/buildings.py:806-856 | rate is left over only when every output is full |
| Junction.DistributeConserves | satisfactor_py/buildings.py:806-856 | the whole distribution conserves the input rate |
| Junction.DistributeRaises | satisfactor_py/buildings.py:806-856 | it raises exactly when there is rate to share and some output lacks a numeric downstream rate, naming the first such output |
| Junction.DistributeBounds | satisfactor_py/buildings.py:806-856 | no output exceeds its downstream rate |
| Junction.DistributeExcess | satisfactor_py/buildings.py:806-856 | with rate left over, every output is at its downstream rate |
| Junction.RunPass | satisfactor_py/buildings.py:806-856 | the imperative pass computes one pass |
| Junction.Share | satisfactor_py/buildings.py:806-856 | the imperative while loop computes the distribution |
| Junction.SumInflow | satisfactor_py/buildings.py:806-856 | the summing loop computes the total input rate |
| Junction.Capacities | satisfactor_py/buildings.py:806-856 | the downstream rates of the connected outputs, in order |
| Junction.Deliveries | satisfactor_py/buildings.py:806-856 | each connected output gets one ingredient of the junction's fluid at its share |
| Junction.Connected | satisfactor_py/buildings.py:806-856 | the junction's outputs that have a target, without repeats |
| Junction.JunctionProcess | satisfactor_py/buildings.py:806-856 | `PipelineJunctionCross.process` keeps every frame |
| Junction.JunctionRefuses | satisfactor_py/buildings.py:806-856 | `process` returns (False) exactly when the inputs carry more than one fluid, leaving only the fluid-count error |
| Junction.JunctionNeedsInput | satisfactor_py/buildings.py:806-856 | with one fluid, IndexError exactly when there is no input or the first input is empty; errors are then cleared |
| Junction.JunctionDelivers | satisfactor_py/buildings.py:806-856 | every connected output gets the fluid at its computed share |
| Junction.JunctionLeaves | satisfactor_py/buildings.py:806-856 | only the junction and its connected outputs change |
| Junction.JunctionReports | satisfactor_py/buildings.py:806-856 | raises exactly when sharing does; otherwise one excess warning exactly when rate is left over |
| Junction.JunctionWarns | satisfactor_py/buildings.py:806-856 | the excess warning appears exactly when less is delivered than flows in |
| Junction.JunctionCapped | satisfactor_py/buildings.py:806-856 | with some inflow, no connected output gets more than its downstream rate |
| Junction.JunctionFills | satisfactor_py/buildings.py:806-856 | with an excess warning, every connected output is full |
| Junction.JunctionShared | satisfactor_py/buildings.py:806-856 | when `process` completes, sharing did not raise; the warning matches rate left over |
| Junction.CheckIgnoresErrors | satisfactor_py/buildings.py:806-816 | clearing errors first does not change `can_process` |
| Junction.ProcessJunction | satisfactor_py/buildings.py:806-856 | the in-place `PipelineJunctionCross.process` has exactly the effect of the function |
| Simulation.Process | satisfactory/factories.py:440-446 | `component.process()` for every class keeps every frame |
| Simulation.Drained | satisfactory/factories.py:430-438 | `drain_component`: errors cleared, `traversed` reset, ingredients emptied except on a resource node, nothing else changed |
| Simulation.Visit | satisfactory/factories.py:355-371 | the drain visitor drains exactly the visited component; the simulate visitor keeps frames |
| Simulation.Mark | satisfactory/factories.py:367 | `traversed` is set on the cursor only |
| Simulation.Traverse | satisfactory/factories.py:355-395 | the walk starts at the cursor and keeps the graph's shape |
| Simulation.Threads | satisfactory/factories.py:388-395 | the per-output threads keep the shape and never let an exception out |
| Simulation.ThreadsCons | satisfactory/factories.py:388-395 | the threads run one after another, in output order |
| Simulation.TraverseMulti | satisfactory/factories.py:409-427 | the per-root threads keep the shape and never let an exception out |
| Simulation.TraverseMultiStep | satisfactory/factories.py:409-427 | the roots are walked one after another, in order |
| Simulation.WalkSameShape | satisfactory/factories.py:355-395 | the route of a walk depends only on the graph's shape |
| Simulation.TraverseWithinWalk | satisfactory/factories.py:355-395 | a walk visits only components on the route (it may stop early when a visitor raises) |
| Simulation.ThreadsWithinWalk | satisfactory/factories.py:388-395 | the threads likewise |
| Simulation.DrainFollowsWalk | satisfactory/factories.py:355-395 | with every ingredient list present, draining never raises and visits exactly the route: the input's owner, the output's target, the node's first output, every output in order |
| Simulation.DrainThreadsFollowWalk | satisfactory/factories.py:388-395 | with every ingredient list present, the threads of a drain visit exactly their routes |
| Simulation.TraverseFlags | satisfactory/factories.py:355-371 | after a walk, the visited components' flags are set (simulate) or reset (drain), and no other flag changes |
| Simulation.ThreadsFlags | satisfactory/factories.py:388-395 | the same for the threads |
| Simulation.TraverseDrains | satisfactory/factories.py:355-395 | a drain walk drains exactly the visited components |
| Simulation.ThreadsDrain | satisfactory/factories.py:388-395 | the same for threads |
| Simulation.DrainFromSpec | satisfactory/factories.py:355-395 | with every ingredient list present, after a drain walk every component on the route is drained and every other one is unchanged |
| Simulation.VisitedTwice | satisfactory/factories.py:355-395 | with no visited check, a component reachable along two outputs is visited at least twice |
| Simulation.DrainComponent | satisfactory/factories.py:430-438 | the in-place `drain_component` drains one component |
| Simulation.SimulateComponent | satisfactory/factories.py:440-446 | the in-place `simulate_component` has exactly the effect of `process` |
| Simulation.VisitComponent | satisfactory/factories.py:430-446 | the in-place visitor has exactly the effect of the visit |
| Simulation.TraverseFrom | satisfactory/factories.py:355-395 | the recursive `traverse` method has exactly the effect and the exception of the walk |
| Simulation.TraverseThreadsFrom | satisfactory/factories.py:388-395 | the per-output thread loop has exactly the effect of the threads |
| Simulation.TraverseMultiFrom | satisfactory/factories.py:409-427 | `traverse_multi` has exactly the effect of the multi-root walk; `simulate_multi` (lines 346-353) is that walk with the simulate visitor |
| Factories.Filter | satisfactory/factories.py:62-68 | an order-keeping filter: exactly the members that satisfy the test |
| Factories.FilterAppend | satisfactory/factories.py:62-68 | filtering distributes over concatenation, so the order is kept |
| Factories.ResourceNodes | satisfactory/factories.py:62-68 | exactly the resource nodes among the components (the older list, satisfactor_py/factories.py:34-37, is the same filter) |
| Factories.BuildingsByType | satisfactory/factories.py:196-205 | exactly the buildings of the given type (the older query, satisfactor_py/factories.py:44-49, is the same filter) |
| Factories.ComponentsByName | satisfactory/factories.py:219-236 | exactly the components whose name contains the given one (fuzzy) or equals it (the older query, satisfactor_py/factories.py:59-66, is the exact-equality case) |
| Factories.ComponentsByTag | satisfactory/factories.py:240-265 | exactly the components having the key, with any value when none is given, and otherwise a value containing (fuzzy) or equal to the given one |
| Factories.EmptyTagValueMatches | satisfactory/factories.py:240-265 | an empty fuzzy value matches every component having the key |
| Factories.FirstWithId | satisfactory/factories.py:207-216 | the position of the first component with the id; none exactly when there is none |
| Factories.ComponentById | satisfactory/factories.py:207-216 | the first component with the id, or nothing exactly when none has it (the older query, satisfactor_py/factories.py:51-57, takes the same first match) |
| Factories.WithoutId | satisfactory/factories.py:89-100 | removes exactly the first component with the id, keeping the order; unchanged when the id is absent |
| Factories.WithoutIdCounts | satisfactory/factories.py:89-100 | exactly one component is removed and the rest are kept |
| Factories.Flatten | satisfactory/factories.py:70-87 | `add` flattens one level: exactly the components of all entries |
| Factories.FlattenStep | satisfactory/factories.py:70-87 | entries are flattened in order |
| Factories.ClaimAt | satisfactory/factories.py:70-87 | exactly the added components get this factory as their owner |
| Factories.ClaimShape | satisfactory/factories.py:70-87 | claiming keeps the shape, and keeps every frame exactly when the components already belonged to this factory |
| Factories.ErrorsByIdSpec | satisfactory/factories.py:267-279 | the keys of `get_errors` are exactly the ids of components with errors, each mapped to the errors of the last such component |
| Factories.ErrorReportsRaises | satisfactory/factories.py:280-293 | `get_errors_as_dict` raises AttributeError exactly when a component with errors is not a building |
| Factories.ErrorReportsKeys | satisfactory/factories.py:280-293 | otherwise its keys are exactly those of `get_errors` |
| Factories.ErrorReportsAgree | satisfactory/factories.py:280-293 | and each value describes the last building with that id and errors |
| Factories.ErrorReportsRaise | satisfactory/factories.py:280-293 | any such non-building makes it raise |
| Factories.Openings | satisfactory/factories.py:127-193 | exactly the free ports of the type, with their positions |
| Factories.Facing | satisfactory/factories.py:127-193 | the ports of the opposite direction; AttributeError exactly for a component without port lists |
| Factories.AvailableConnections | satisfactory/factories.py:127-193 | raises exactly when a considered component has no port lists; otherwise keyed by the ids of the other, non-conveyance components that have a pairing free port, each with such ports |
| Factories.AvailableAreCompatible | satisfactory/factories.py:127-193 | every port offered belongs to another, non-conveyance component, is free, has the same type and the opposite direction |
| Factories.Scrubbed | satisfactory/factories.py:308-322 | one component after `purge`: no errors, no ingredients, no conveyance recipe; identity, owner and `traversed` kept |
| Factories.EmptyPortsAt | satisfactory/factories.py:308-322 | exactly the listed ports lose their ingredients |
| Factories.PurgeOneAt | satisfactory/factories.py:308-322 | purging one component scrubs it and empties its ports, and nothing else changes |
| Factories.OnlyClearedTrans | satisfactory/factories.py:308-322 | clearing steps compose |
| Factories.CleanStaysClean | satisfactory/factories.py:308-322 | later clearing keeps an already clean component clean |
| Factories.PurgeOneCleans | satisfactory/factories.py:308-322 | purging one component only clears things and leaves it clean |
| Factories.PurgeOnlyClears | satisfactory/factories.py:308-322 | `purge` only clears working state |
| Factories.PurgeCleans | satisfactory/factories.py:308-322 | after `purge` every member is clean, reachable or not |
| Factories.PurgeLeavesOthers | satisfactory/factories.py:308-322 | a component that is neither a member nor a member's port is untouched |
| Factories.WalkMultiSameShape | satisfactory/factories.py:397-427 | the multi-root route depends only on the shape |
| Factories.DrainMultiSpec | satisfactory/factories.py:118-125 | with every ingredient list present, `drain` visits exactly the routes from the resource nodes and drains exactly what it visits |
| Factories.MultiFlags | satisfactory/factories.py:397-427 | after a factory walk, exactly the visited components' flags are set or reset |
| Factories.Untraversed | satisfactory/factories.py:338-339 | exactly the components not traversed |
| Factories.SimulateLeavesUntraversed | satisfactory/factories.py:332-344 | after simulating, a component is untraversed exactly when it was before and the walk did not reach it |
| Factories.Factory.constructor | satisfactory/factories.py:31-39 | a factory with the given components and no errors |
| Factories.Factory.Add | satisfactory/factories.py:70-87 | appends the flattened components in order and claims them; errors unchanged |
| Factories.Factory.AddMembers | satisfactory/factories.py:80-87 | the inner loop appends and claims one entry's components |
| Factories.Factory.Remove | satisfactory/factories.py:89-100 | the components become the list without the first match of the id |
| Factories.Factory.AddError | satisfactory/factories.py:102-109 | appends one factory error |
| Factories.Factory.Purge | satisfactory/factories.py:308-322 | the arena after `purge` is the purge of all members |
| Factories.PurgeComponent | satisfactory/factories.py:308-322 | the in-place purge of one component |
| Factories.Factory.Drain | satisfactory/factories.py:118-125 | `drain` is the drain walk from the resource nodes |
| Factories.Factory.Simulate | satisfactory/factories.py:332-344 | `simulate` is the simulate walk from the resource nodes, plus exactly one warning when some component is left untraversed |
| Legacy.InputContentsHas | satisfactor_py/base.py:571-580 | the concatenated input contents hold exactly the ingredients of the inputs |
| Legacy.InputItemsOfContents | satisfactor_py/base.py:571-580 | their items are the items of the inputs, in order |
| Legacy.BuildingIngredients | satisfactor_py/base.py:571-580 | `Building.ingredients`: the items of all inputs' ingredients, in input order |
| Legacy.BuildingIngredientsHas | satisfactor_py/base.py:571-580 | an item is among them exactly when some input holds an ingredient of it |
| Legacy.CanProcessSpec | satisfactor_py/base.py:582-608 | the older `can_process` holds exactly when there is a recipe, no standby, enough inputs and every consumed item is supplied |
| Legacy.LegacyFilledStep | satisfactor_py/base.py:618-628 | an output takes a product exactly when it is still empty and the type matches |
| Legacy.LegacyFilledClosedForm | satisfactor_py/base.py:618-628 | an occupied output keeps what it held; an empty one takes the first product that fits, scaled by the clock rate, or stays empty when none fits |
| Legacy.LegacyFillOutputs | satisfactor_py/base.py:618-628 | the nested fill loop computes each output's contents |
| Legacy.LegacyOfferProduct | satisfactor_py/base.py:619-628 | offering one product to every output advances the fill by one product |
| Legacy.Held | satisfactor_py/base.py:618-628 | what the outputs hold before filling |
| Legacy.BuildingProcess | satisfactor_py/base.py:610-629 | returns `can_process`; when it fails nothing changes, otherwise only outputs change, each to its fill |
| Legacy.ProcessBuilding | satisfactor_py/base.py:610-629 | the in-place older `Building.process` has exactly that effect |
| Legacy.ConveyanceProcess | satisfactor_py/base.py:659-677 | returns True; the recipe becomes a conveyance recipe of all input ingredients concatenated; nothing else changes |
| Legacy.ProcessConveyance | satisfactor_py/base.py:668-677 | the in-place older `Conveyance.process` has exactly that effect |
| Legacy.SimulateComponent | satisfactor_py/factories.py:146-153 | only buildings are processed; every other component is untouched |
| Legacy.SimulateComponentInPlace | satisfactor_py/factories.py:146-153 | the in-place visitor has exactly that effect |
| Legacy.DrainComponent | satisfactor_py/factories.py:137-144 | only a port's ingredients are emptied; everything else is untouched |
| Legacy.Visit | satisfactor_py/factories.py:103-104 | the visitor runs first: drain or simulate |
| Legacy.Handed | satisfactor_py/factories.py:109-126 | only successor ports' ingredients change: an output's target receives its ingredients, and a single-output building's output receives the recipe's products |
| Legacy.Traverse | satisfactor_py/factories.py:94-134 | the older walk starts at the cursor and keeps every frame |
| Legacy.Threads | satisfactor_py/factories.py:128-134 | the per-output threads keep frames and never let an exception out |
| Legacy.TraverseAll | satisfactor_py/factories.py:81-92 | the per-root threads likewise |
| Legacy.TraverseDrains | satisfactor_py/factories.py:94-144 | a drain walk empties every visited port; nothing else changes |
| Legacy.ThreadsDrain | satisfactor_py/factories.py:128-144 | the same for the threads |
| Legacy.TraverseAllDrains | satisfactor_py/factories.py:68-92 | the same for the whole drain |
| Legacy.TraverseWithinWalk | satisfactor_py/factories.py:94-134 | the older walk visits only components on the route |
| Legacy.ThreadsWithinWalk | satisfactor_py/factories.py:128-134 | the threads likewise |
| Legacy.TraverseAllWithinWalk | satisfactor_py/factories.py:81-92 | the whole walk likewise |
| Legacy.DrainFollowsWalk | satisfactor_py/factories.py:94-134 | when no single-output building without a recipe is on the way, a drain never raises and visits exactly the route |
| Legacy.DrainThreadsFollowWalk | satisfactor_py/factories.py:128-134 | the same for the threads |
| Legacy.VisitInPlace | satisfactor_py/factories.py:103-104 | the in-place visitor has exactly the effect of the visit |
| Legacy.HandOn | satisfactor_py/factories.py:109-126 | the in-place hand-on has exactly the effect of `Handed` |
| Legacy.TraverseFrom | satisfactor_py/factories.py:94-134 | the recursive older `traverse` has exactly the effect and the exception of the walk |
| Legacy.ThreadsFrom | satisfactor_py/factories.py:128-134 | the thread loop has exactly the effect of the threads |
| Legacy.TraverseAllFrom | satisfactor_py/factories.py:81-92 | `traverse_all` has exactly the effect of the multi-root walk |
| Legacy.Factory.constructor | satisfactor_py/factories.py:21-26 | a factory with the given components |
| Legacy.Factory.Add | satisfactor_py/factories.py:39-42 | extends the components in order, without flattening or duplicate check |
| Legacy.Factory.Drain | satisfactor_py/factories.py:68-73 | `drain` is the drain walk from the resource nodes |
| Legacy.Factory.Simulate | satisfactor_py/factories.py:75-79 | `simulate` is the simulate walk from the resource nodes |

## Left out

- Floating point: rates, clock rates and dimensions are exact reals. Float rounding is not modelled.
- Threads: they are started and joined one at a time, so they are modelled as serial calls. A
  thread that raises ends quietly, as a Python thread does, and the threads after it still run. The
  exception is not reported anywhere.
- Aliasing of ingredient lists between ports is not modelled; ports get value copies. Aliasing inside
  one node is modelled where it changes that node: conveyance capping, merger scaling, storage
  capping and the miner's recipe.
- A missing ingredient list (None) is not representable: every component holds a list. A
  `Storage` built without one (satisfactory/base.py:1379, 1389) behaves differently in the source:
  `drain_component` raises AttributeError at its `clear()` (satisfactory/factories.py:437-438),
  which ends the drain walk there; `Storage.process` raises TypeError once an output is connected
  (satisfactory/base.py:1414-1415); and an `Input.process` merging into it raises TypeError
  (satisfactory/base.py:752). The model does none of this.
- Simulation.DrainFollowsWalk: "draining never raises" holds because no ingredient list is None;
  on a default-constructed Storage the source's drain raises and stops.
- Simulation.DrainThreadsFollowWalk: the same; a thread whose drain reaches a default-constructed
  Storage stops there in the source.
- Simulation.DrainFromSpec: the components past a default-constructed Storage are not drained in
  the source, where the lemma says every component on the route is.
- Factories.DrainMultiSpec: the same as `DrainFromSpec`, for the walks from every resource node.
- Transport.StorageRaises: a default-constructed Storage raises TypeError as soon as an output is
  connected, which the model cannot express.
- Processing.InfiniteProcess: a supply node without an item is not representable, so neither the
  IMPOSSIBLE error "Node doesn't supply an item." with its shadowing (satisfactory/base.py:966-971)
  nor the item-less ingredient such a node then emits is modelled.
- Processing.InfiniteProcess: where the source emits an ingredient whose rate is None (no rate set
  and no target, or a target whose building's rate is None, such as a Storage's;
  satisfactory/base.py:999-1013), the model emits rate 0. The TypeErrors that None later causes
  downstream (`min` in `Storage.process`, satisfactory/base.py:1416; `+=` in `Input.process`,
  line 755; `sum` in `Conveyance.process`, line 1346) do not happen in the model, which goes on
  computing with 0.
- Processing.InfiniteProcess: a supply node's output without a conveyance type (the default,
  satisfactory/base.py:931, 943-946) is not representable; every port has a conveyance type.
- Processing.ResourceProcess: a resource node without an item (the default,
  satisfactory/base.py:832) is not representable, so the AttributeError at
  `self.item.programmatic_name()` (satisfactory/base.py:909) is not modelled.
- Every port has an owner (`Graph.WF`). A port whose `attached_to` is None (the default,
  satisfactory/base.py:570-580) is outside the model: its IMPOSSIBLE error "Connection is not
  attached to anything" (satisfactory/base.py:687-692) and the AttributeError `traverse` raises at
  `cursor.attached_to` (satisfactory/factories.py:373-374) are not modelled.
- Every input port is owned by a building (`Graph.WF`). No constructor attaches an `Input` to a
  resource node, which has no inputs (satisfactory/base.py:828-848); such a port would make
  `Input.process` raise AttributeError at `self.attached_to.ingredients`
  (satisfactory/base.py:752) until a purge gives the node an ingredient list.
- Items are compared by value. The source defines no `__eq__`, so it compares Items by identity:
  in `Input.process` (satisfactory/base.py:753), the junction's fluid count
  (satisfactor_py/buildings.py:784-804) and `Miner.can_process` (satisfactor_py/buildings.py:676).
  The model treats two distinct but equal Item objects as one item.
- Text.TitleFromChars: names are taken to be ASCII, here and in `Text.TitleFrom`. Python's
  `str.title` also cases non-ASCII letters and can change the length (`'ß'` becomes `'Ss'`); the
  model keeps every non-ASCII character as it is and treats it as a non-letter.
- The older `Storage` (satisfactor_py/base.py:680-700) derives from the older Conveyance, so it has
  a conveyance type; it is not a class of its own in the model, and its stack count is left out.
- Error messages: each error is a value naming its reason. The text is simplified where it
  embeds rates, the sink's item list, the junction's excess amount or the list of untraversed
  components.
- `generate_id` in satisfactory/base.py is a uuid4 string. Fresh ids are parameters of the
  operations that create components (`Linking.FreshIds`, the ids given to `Junction.SetConnections`).
  `Text.GenerateId` takes the random draws as its parameter.
- Persistence (pickle save and load), `to_dict`, the debugger hooks, the print in
  `simulate_component`, the GTK front-ends and the static item, recipe and building catalogs are not
  part of this model.
- `NonProcessingBuilding` (satisfactory/base.py:1271-1298) is not modelled as a class of its own.
- `add` accepts only components and lists of components; other values are not modelled.
- A factory's `availability` is not modelled; no modelled operation reads it. Both constructors
  default to one list object shared by every factory built without components. The model gives
  each factory its own list, so it does not capture that sharing.
- The splitter's slow-output branch refers to an undefined name. It is modelled as raising
  (NameError, or ZeroDivisionError when there is nothing to divide), after the connected outputs
  before the first slow one were handed their share.
- `InfiniteSupplyNode.can_process` assigns the method attribute instead of a local. The model
  reproduces this literally: a failed `can_process` shadows the method, and the next `process` raises
  TypeError.
- `ConveyanceRecipe.set_ingredients` writes a misspelt attribute, so the ingredients' amounts stay
  as they were. The model follows this.
- Factories.ErrorReport keeps the building type itself, not its rendered label.
- Factories.AvailableConnections: when two offered components share an id, the contract says the
  entry holds the open ports of one of them; it does not say that the later one wins, although the
  function computes exactly that.
- The walkers are proved for any processing step that keeps frames (`Simulation.Processor`); the
  factories instantiate them with the real dispatch.
- The older walker's write of a recipe onto an Input port (satisfactor_py/factories.py:113) is
  left out; nothing reads that attribute.
- The older ports carry errors and a traversed flag although the older code never touches them.
- At a single-output building the older walker overwrites the output with the recipe's unscaled
  products, after `process` filled it scaled by the clock rate. The model does the same. A
  single-output building without a recipe raises AttributeError there, which ends that walk.
- `drain` in satisfactory/factories.py assigns a `self.errors` attribute that nothing reads; the
  factory's own errors are not changed by it.
- `Building.connect` builds its conveyance before it finds out there is no free port. The model
  allocates nothing then: the object is never reachable.
- `set_connections` leaves the junction's old ports in the arena, unreachable from the junction.
- The termination measure is a ghost rank decreasing along every edge. A cyclic factory, on which
  the source recurses without end, is outside the model.
