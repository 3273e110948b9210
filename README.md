# MolStat simulator framework, modelled in Dafny

MolStat simulates and fits histograms of single-molecule measurements,
such as conductance histograms of molecular junctions. This project models
the framework that the physics plugs into.

- **Simulator models** (`SimulateModels`). A model declares the names of
  its parameters, a type tag and a registry of observables. A composite
  model, such as the transport junction (`Junctions`), holds submodels.
  It lays their parameters out in one vector: its own parameters first,
  then each submodel's block in list order.
- **Parameter generation.** One vector is drawn from the model's
  distributions. The engine state is threaded through every draw.
- **Routing** each submodel its share of that vector.
- **Observables.** A composite observable is a left fold of a binary
  operation over the submodels' values.
- **The model factory** (`SimulateModelFactories`). It binds distributions
  to parameter names, without regard to case. It accepts submodels of the
  declared type, and it only hands out a model whose names are all bound.
- **The simulator** (`Simulators`). It keeps an index-addressed list of
  observable columns and evaluates every column on one generated vector.
- **Histogram accumulation** (`Histograms`). It keeps running per-axis
  extremes, validates the binning styles, computes bin centres in masked
  coordinates, and counts every point in one cell.
- **The mixed-radix counter** (`CounterIndices`) that walks the bins and
  flattens them, dimension 0 fastest.
- **The textual front end:**
  - the tokenizer, `to_lower`, `find_replace` and whole-string `size_t`
    parsing (`StringTools`);
  - the validating factories for random distributions
    (`RandomDistributions`) and for binning styles (`BinStyles`);
  - the recursive `model … endmodel` reader of the simulator's input deck
    (`SimulatorInputParse`).
- **Fit-model helpers** for the symmetric nonresonant model
  (`SymmetricNonresonantFits`) and the interference model
  (`InterferenceFits`): initial guesses with defaults, default-guess grids,
  and in-place sign clean-up.

There are three kinds of entity:

- Values are datatypes: models, distributions, binning styles, the input
  deck's model information.
- Objects the source updates in place are classes: the factory, the
  simulator, the histogram, the counter and the input parser.
- Loops in the source are methods, each proved against a specification
  function. The lemmas then state the properties of that function.

Exceptions are `Result`/`Outcome` values that carry an `Error`, with the
source's message text. `std::size_t` values are `nat`.

Where the source and its documentation disagree, the model follows the
source:

- `junction.h` declares two composite observables, but `junction.cc`
  registers four plus the applied bias. The model follows `junction.cc`.
- `main-simulator.h` declares a model's distributions as a map, while
  `main-simulator-inputparse.cc` appends token lists. The model keeps
  token lists.
- `composite_simulate_model.cc:20-24` lacks a closing brace, and
  `observable.h:179,188` calls an undeclared `getSubmodelInfo()`. The model
  keeps submodels as a sequence and computes the routing
  (`RouteIndices`) that `getSubmodelInfo()` evidently stood for.
- The degenerate-axis test (`src/general/tests/histogram1d_linear.cc:198-211`)
  expects a thrown `size_t`. `histogram.cc:70-72` throws `runtime_error`,
  and the model follows the code.

In three places the source is evidently wrong. The model keeps each as
written and also gives a corrected definition, which the rest of the model
uses (see "## Findings").

## Model

| member | source | states |
|---|---|---|
| BinStyles.MaskRoundTrip | src/general/histogram_tools/bin_log.h:45-58 | `invmask` undoes `mask`: always for linear binning; for log binning with a positive base, on positive data, given the law that `b^(log_b x) = x` |
| BinStyles.BinStyleFactory | src/general/histogram_tools/bin_style.cc:29-92 | an empty line and an unparsable bin count are `invalid_argument`; a style it returns had at least two tokens, its count parsed from the first, is linear exactly when the name lower-cases to "linear", and a log style has a positive base |
| BinStyles.MissingStyleName | src/general/histogram_tools/bin_style.cc:49-50 | a bin count with no style name is refused with its message |
| BinStyles.LogDefaultsToBaseTen | src/general/histogram_tools/bin_style.cc:52-82 | names are case-insensitive, and "log" without a base is base 10 |
| BinStyles.ZeroBinsAccepted | src/general/histogram_tools/bin_style.cc:37-58 | a count of 0 is accepted at this stage |
| BinStyles.BadBase | src/general/histogram_tools/bin_style.cc:64-78 | a base that does not parse, and a base that is not positive, are each refused with their own message |
| BinStyles.UnknownStyle | src/general/histogram_tools/bin_style.cc:84-89 | any other name is refused, naming the lower-cased style |
| CounterIndices.AtEndIffValue | src/general/histogram_tools/counterindex.cc:88-92 | the counter's value never exceeds the grid size, and the end bit is set exactly when the value equals the grid size |
| CounterIndices.ValueDeterminesIndex | src/general/histogram_tools/counterindex.cc:94-109 | two in-range indices with the same flattened value are equal: the offset is a bijection onto the cells |
| CounterIndices.CarryKeepsValue | src/general/histogram_tools/counterindex.cc:36-43 | one carry (a digit at its extent reset to 0, the next digit increased) leaves the value unchanged |
| CounterIndices.CounterIndex.constructor | src/general/histogram_tools/counterindex.cc:18-26 | with no zero extent: the counter holds its own copy of the extents, all digits and the end bit 0 |
| CounterIndices.CounterIndex.New | src/general/histogram_tools/counterindex.cc:18-26 | refused with `invalid_argument` exactly when some extent is 0; otherwise value 0 and not at the end |
| CounterIndices.CounterIndex.Increment | src/general/histogram_tools/counterindex.cc:28-47 | at the end nothing changes; otherwise the value grows by exactly 1, every digit stays below its extent |
| CounterIndices.CounterIndex.SetIndex | src/general/histogram_tools/counterindex.cc:49-69 | at the end, and for a dimension or value out of range, `out_of_range` with its message and nothing changed; otherwise only that digit changes |
| CounterIndices.CounterIndex.Get | src/general/histogram_tools/counterindex.cc:71-79 | `out_of_range` at the end and past the end bit; otherwise the digit, below its extent, and 0 for the end bit |
| CounterIndices.CounterIndex.Reset | src/general/histogram_tools/counterindex.cc:81-86 | every digit and the end bit are 0: value 0, not at the end |
| CounterIndices.CounterIndex.ArrayOffset | src/general/histogram_tools/counterindex.cc:94-109 | `out_of_range` at the end; otherwise the mixed-radix value, below the product of the extents |
| CounterIndices.CarryReadsPastEnd | src/general/histogram_tools/counterindex.cc:36-43 | the carry loop as written reaches `max_index[n]`, one past the end, on every increment |
| CounterIndices.LastCellOffset | src/general/tests/counter_index_functionality.cc:82-130 | extents 3, 1, 2, 4 give 24 cells, and the last cell (2, 0, 1, 3) has offset 23 |
| CounterIndices.CarryExample | src/general/tests/counter_index_functionality.cc:171-186 | the only in-range index with offset 3 is (0, 0, 1, 0), the index `setIndex(2, 1)` gives after a reset |
| Histograms.ColumnExtremes | src/general/histogram_tools/histogram.cc:34-41 | the running extremes bound every stored coordinate, and when there is data each is attained by some point |
| Histograms.AxisOf | src/general/histogram_tools/histogram.cc:83-85 | an axis spans the masked minimum to the masked maximum in `nbins` equal widths |
| Histograms.BinOf | src/general/tests/histogram1d_linear.cc:39-51 | every value is assigned a bin below the bin count, on the axis whose bounds `histogram.cc:79-85` computes; the top value goes in the last bin, as the tests annotate |
| Histograms.BinHolds | src/general/tests/histogram1d_linear.cc:39-51 | on the axis `histogram.cc:79-85` builds, a value in the axis's range lies at or above its bin's lower edge and below the next edge, except in the last bin |
| Histograms.TopValueInLastBin | src/general/tests/histogram1d_linear.cc:39-51 | the value equal to the axis maximum is counted in the last bin |
| Histograms.Axes | src/general/histogram_tools/histogram.cc:79-90 | one axis per dimension, each with that dimension's style and bin count |
| Histograms.CellOffset | src/general/histogram_tools/histogram.cc:92-98 | a point's flattened cell lies inside the grid of `binned_data` |
| Histograms.TallyCounts | src/general/tests/histogram1d_linear.cc:146-176 | the count of every cell is the number of points whose offset is that cell |
| Histograms.TallySum | src/general/tests/histogram1d_linear.cc:146-176 | the counts add up to the number of points: each point is in exactly one bin |
| Histograms.AxesCheckPasses | src/general/histogram_tools/histogram.cc:58-75 | the axis checks pass exactly when every axis has a style with at least one bin, and a single bin where the range is one value |
| Histograms.FirstProblemReported | src/general/histogram_tools/histogram.cc:58-75 | the axes are checked in order, and the first axis with a problem decides the error |
| Histograms.PassIsReady | src/general/histogram_tools/histogram.cc:58-75 | after the checks pass, every style is present with at least one bin |
| Histograms.Histogram.constructor | src/general/histogram_tools/histogram.cc:18-24 | a new histogram is unbinned and empty, its extremes (max double, lowest double) per axis |
| Histograms.Histogram.AddData | src/general/histogram_tools/histogram.cc:26-45 | `runtime_error` once binned, checked first; `invalid_argument` on a dimension mismatch; otherwise the point joins the stored multiset and each axis's extremes take it in |
| Histograms.Histogram.BinData | src/general/histogram_tools/histogram.cc:47-99 | refused once binned, then on a style count other than the dimension, then per axis in order; on success the histogram is binned, each axis holds its bin centres, and every point is counted in its cell, the counts adding up to the number of points |
| Histograms.Histogram.CheckAxes | src/general/histogram_tools/histogram.cc:58-75 | the loop's outcome is the ordered axis check, and the grid size is the product of the bin counts |
| Histograms.Histogram.AxisCentres | src/general/histogram_tools/histogram.cc:80-90 | `bin_value` holds every axis's bin centres |
| Histograms.Histogram.CountCells | src/general/tests/histogram1d_linear.cc:146-176 | the counting loop yields the tally of the offsets |
| Histograms.Histogram.BinValues | src/general/histogram_tools/histogram.cc:101-117 | centre `i` is the mean of the unmasked lower and upper edges of bin `i` |
| Histograms.LinearCentre | src/general/histogram_tools/histogram.cc:109-113 | with linear binning, centre `i` is `dmin + (i + 1/2) w` |
| Histograms.SingleBinCentre | src/general/tests/histogram1d_linear.cc:213-218 | a single bin over a one-value range has its centre at that value |
| Histograms.FiveLinearCentres | src/general/tests/histogram1d_linear.cc:146-176 | five linear bins on [0, 1] have centres 0.1, 0.3, 0.5, 0.7, 0.9 |
| Histograms.FiveBinAssignment | src/general/tests/histogram1d_linear.cc:39-51 | each of the tests' points lands in the bin the tests annotate |
| Histograms.OneAxisOffset | src/general/histogram_tools/histogram.cc:92-98 | on a one-axis grid a point's offset is its bin |
| Histograms.TwoByTwoCells | src/general/tests/histogram2d_linear.cc:43-89 | on the 2 by 2 grid, (0.3, 0.7), (1.0, 0.3) and (0.7, 1.0) land in cells 2, 1 and 3 |
| Histograms.BinDataAsWrittenRebins | src/general/histogram_tools/histogram.cc:47-99 | as written, binning the tests' histogram counts nothing and leaves it unbinned, so a second `bin_data` is accepted |
| RandomDistributions.RandomDistributionFactory | src/general/random_distributions/rng.cc:25-137 | an empty line and an unknown kind are `invalid_argument`; every distribution returned is well formed (uniform bounds ordered strictly, positive standard deviations, positive gamma factors); every other error is an `invalid_argument` or comes from parsing one of the tokens |
| RandomDistributions.GaussianIsNormal | src/general/random_distributions/rng.cc:70 | "gaussian" is an alias of "normal" |
| RandomDistributions.KindIgnoresCase | src/general/random_distributions/rng.cc:35 | the kind is matched without regard to case |
| RandomDistributions.ConstantIgnoresExtra | src/general/random_distributions/rng.cc:38-49 | "constant" takes its first parameter and ignores the rest; a parse error propagates |
| RandomDistributions.UniformNeedsStrictBounds | src/general/random_distributions/rng.cc:50-69 | "uniform" succeeds exactly when lower < upper |
| RandomDistributions.GammaNeedsPositiveFactors | src/general/random_distributions/rng.cc:108-125 | "gamma" succeeds exactly when both factors are positive |
| RandomDistributions.TooFewParameters | src/general/random_distributions/rng.cc:38-125 | each known kind with too few parameters is an `invalid_argument` |
| SimulateModels.PlainModel | src/general/simulator_tools/simulate_model.cc:20-23 | a plain model reports the `SimulateModel` tag and is not composite |
| SimulateModels.SubmodelModel | src/general/simulator_tools/simulate_model.h:208-211 | a `SimulateSubmodel<T>` reports `T` as its type |
| SimulateModels.CompositeModel | src/general/simulator_tools/simulate_model.h:331-334 | a `UseSubmodelType<T>` composite takes submodels of type `T` and starts with none |
| SimulateModels.NumCompositeParameters | src/general/simulator_tools/composite_simulate_model.cc:61-76 | a composite's count is its own names plus every submodel's count |
| SimulateModels.AddSubmodelCount | src/general/simulator_tools/composite_simulate_model.cc:66-76 | adding a submodel adds its count to the composite's |
| SimulateModels.CountIgnoresDists | src/general/simulator_tools/simulate_model.cc:25-28 | the parameter count depends on the names, not on the distributions bound |
| SimulateModels.RoutesInBounds | src/general/simulator_tools/composite_simulate_model.cc:42-52 | each submodel gets its own count plus the composite's count of indices, all inside the composite vector |
| SimulateModels.RouteShape | src/general/simulator_tools/composite_simulate_model.cc:42-48 | a routing is the composite's indices `[0, cn)` followed by the submodel's slice `[Offset(i), Offset(i+1))` |
| SimulateModels.SlicesDisjoint | src/general/simulator_tools/composite_simulate_model.cc:47-55 | an earlier submodel's slice ends before a later one starts |
| SimulateModels.SlicesCover | src/general/simulator_tools/composite_simulate_model.cc:47-55 | every position after the composite's own lies in some submodel's slice |
| SimulateModels.SliceUnique | src/general/simulator_tools/composite_simulate_model.cc:47-55 | that slice is unique |
| SimulateModels.JunctionRouting | src/electron_transport/tests/simulate-CompositeJunction.cc:87-89 | two names and channels of 3 and 4 parameters route indices 0-4 and 0, 1, 5-8 |
| SimulateModels.RouteSubmodelParameters | src/general/simulator_tools/composite_simulate_model.cc:24-59 | each submodel, in list order, is paired with the parameters routed to it |
| SimulateModels.SampleAllEntry | src/general/simulator_tools/simulate_model.cc:53-56 | entry `j` is a sample of distribution `j`, drawn from the engine state the first `j` draws left |
| SimulateModels.GeneratedLength | src/general/simulator_tools/composite_simulate_model.cc:78-103 | a generated vector has exactly the model's parameter count |
| SimulateModels.CompositeLayout | src/general/simulator_tools/composite_simulate_model.cc:81-100 | a composite's vector is its own samples, then submodel `i`'s generated block in slice `i`, drawn from the engine state the earlier blocks left |
| SimulateModels.GenerateParameters | src/general/simulator_tools/simulate_model.h:183 | the model's kind decides which `generateParameters` runs; the result is the generated vector and the engine state after it |
| SimulateModels.GenerateOwn | src/general/simulator_tools/simulate_model.cc:48-59 | a plain model samples its distributions in order, threading the engine |
| SimulateModels.FillSamples | src/general/simulator_tools/simulate_model.cc:53-56 | slot `j` of the buffer gets a sample of distribution `j` |
| SimulateModels.GenerateComposite | src/general/simulator_tools/composite_simulate_model.cc:78-103 | the composite's own samples, then each submodel's block at its offset |
| SimulateModels.CopyBlock | src/general/simulator_tools/composite_simulate_model.cc:95-96 | a block written at `tally` extends the buffer's prefix by that block |
| SimulateModels.PlaceBlock | src/general/simulator_tools/composite_simulate_model.cc:91-100 | one pass of the submodel loop appends submodel `i`'s block and moves `tally` to the next offset |
| SimulateModels.Register | src/general/simulator_tools/observable.h:82-105 | registering an observable maps its key to the registration and keeps every other key |
| SimulateModels.FirstError | src/general/simulator_tools/observable.h:188-196 | the composite observable fails exactly when some submodel's lookup fails, and the first such error in list order is reported |
| SimulateModels.FoldPlusIsSum | src/general/simulator_tools/observable.h:202-223 | the fold seeded with the first value, with `+`, is the sum |
| SimulateModels.GetObservableFunction | src/general/simulator_tools/simulate_model.cc:30-46 | an unregistered key is `IncompatibleObservable`; a direct one is the model's own function; a composite observable needs a composite model (`NotCompositeSimulateModel`), at least one submodel (`NoSubmodels`), and succeeds exactly when every submodel provides the key |
| SimulateModels.CompositeValue | src/general/simulator_tools/observable.h:199-226 | a composite observable's value is the left fold of its operation over each submodel's value on its routed parameters; with one submodel it is that submodel's value |
| SimulateModelFactories.LastWriteWins | src/general/simulator_tools/simulate_model_factory.cc:31-44 | binding a name twice keeps the later distribution |
| SimulateModelFactories.UnmatchedKeepsDists | src/general/simulator_tools/simulate_model_factory.cc:31-44 | a name no parameter carries changes no distribution |
| SimulateModelFactories.SimulateModelFactory.MakeFactory | src/general/simulator_tools/simulate_model.h:459-483 | the factory is composite exactly when the model is; the remaining names are exactly the lower-cased declared names; the model gets one unbound slot per parameter; no position has been written yet |
| SimulateModelFactories.SimulateModelFactory.SetDistribution | src/general/simulator_tools/simulate_model_factory.cc:19-48 | `dist` is bound to every parameter whose name matches without regard to case, the name leaves the remaining set, the flag says whether any parameter matched, and exactly the matching positions count as written from now on |
| SimulateModelFactories.SimulateModelFactory.AddSubmodel | src/general/simulator_tools/simulate_model_factory.cc:50-65 | a non-composite is `NotCompositeSimulateModel`, a submodel of the wrong type `IncompatibleSubmodel`, each leaving the model as it was; otherwise the submodel goes at the end |
| SimulateModelFactories.SimulateModelFactory.GetModel | src/general/simulator_tools/simulate_model_factory.cc:67-79 | with a name unbound, `MissingDistribution` naming the least such name; a composite without submodels is `NoSubmodels`; otherwise the model, and a model is handed out only once every declared position has been written by `setDistribution` (a name is still to be bound exactly when none of its positions has been) |
| SimulateModelFactories.LeastName | src/general/simulator_tools/simulate_model_factory.cc:71 | the first element of an ordered set of names is its least element |
| SimulateModelFactories.LeastUnique | src/general/simulator_tools/simulate_model_factory.cc:71 | that least name is unique, so the error message is determined |
| SimulateModelFactories.DuplicatesCollapse | src/general/simulator_tools/simulate_model.h:473-477 | names differing only in case leave a single name to bind |
| SimulateModelFactories.BindingAllNames | src/general/simulator_tools/simulate_model_factory.cc:40-43 | once the first `k` names are bound, only names among the rest remain |
| SimulateModelFactories.SetDistributionReadsPastEnd | src/general/simulator_tools/simulate_model_factory.cc:24-33 | the loop as written reads past `model_names` whenever the count exceeds the names |
| SimulateModelFactories.JunctionSetDistributionAsWritten | src/general/simulator_tools/simulate_model_factory.cc:24-33 | a junction with one three-parameter channel has count 5, and binding "ef" as written reads past its two names |
| Simulators.EvaluateAppend | src/general/simulator_tools/simulator.cc:52-53 | appending a column appends its value |
| Simulators.EvaluateReplace | src/general/simulator_tools/simulator.cc:50-51 | replacing a column replaces its value and no other |
| Simulators.Simulator.constructor | src/general/simulator_tools/simulator.cc:18-20 | a simulator starts with the model and no columns |
| Simulators.Simulator.Simulate | src/general/simulator_tools/simulator.cc:22-38 | without a column, `NoObservables` and no draw, whatever distributions the model holds, unbound ones included; otherwise every column evaluated on one generated vector, and the engine state after it |
| Simulators.Simulator.SetObservable | src/general/simulator_tools/simulator.cc:40-54 | an index past the next is `out_of_range`, a missing observable its lookup error, each leaving the columns as they were; otherwise column `j` is replaced, or appended when `j` is the next index |
| Junctions.GetNames | src/electron_transport/simulator_models/junction.cc:26-37 | a junction declares "ef" at index 0 and "v" at index 1 |
| Junctions.TransportJunction | src/electron_transport/simulator_models/junction.cc:40-54 | a new junction is a composite of channels with those names and no submodels |
| Junctions.JunctionRegistry | src/electron_transport/simulator_models/junction.cc:40-54 | its registry is the applied bias plus the four observables combined with `+` |
| Junctions.JunctionAppBias | src/electron_transport/simulator_models/junction.cc:57-60 | the applied bias is the "v" parameter |
| Junctions.JunctionWithoutChannels | src/general/simulator_tools/observable.h:179-180 | a summed observable of a junction without channels is `NoSubmodels` |
| Junctions.JunctionSum | src/electron_transport/tests/simulate-CompositeJunction.cc:101-108 | each summed observable is the sum of the channels' values, each on the junction's parameters and its own block |
| Junctions.JunctionSingleChannel | src/electron_transport/tests/simulate-AsymTwoSite.cc:88-90 | with one channel, the junction's observable is the channel's on its routed parameters |
| Junctions.JunctionTwoChannels | src/electron_transport/tests/simulate-CompositeJunction.cc:87-108 | with channels of 3 and 4 parameters, the value is the first on parameters 0-4 plus the second on 0, 1, 5-8 |
| StringTools.ToLower | src/general/string_tools.cc:89-97 | the same length; every upper-case letter moved down by 32 and every other character kept; nothing upper-case is left |
| StringTools.LowerIdempotent | src/general/string_tools.cc:89-97 | lower-casing twice is lower-casing once |
| StringTools.LowerExamples | src/general/tests/string_tools.cc:60-64 | the tests' five `to_lower` cases |
| StringTools.Find | src/general/string_tools.cc:109 | a found position lies at or after the start, with the pattern ending inside the string |
| StringTools.FindSpec | src/general/string_tools.cc:109 | `find` returns the first match at or after the start, and none exactly when there is no match |
| StringTools.ReplacedNoMatch | src/general/string_tools.cc:99-120 | a string without the pattern is returned unchanged |
| StringTools.ReplacedBySelf | src/general/string_tools.cc:99-120 | replacing the pattern by itself changes nothing |
| StringTools.FindReplace | src/general/string_tools.cc:99-120 | the result replaces every non-overlapping match, left to right, and an empty pattern returns the string |
| StringTools.CastSize | src/general/string_tools.cc:145-171 | an accepted value is a non-negative `int`; a refusal is `bad_cast` or `out_of_range` |
| StringTools.CastSizeShape | src/general/string_tools.cc:145-171 | an accepted string is leading spaces, an optional sign and digits, with nothing after them |
| StringTools.CastSizeAccepts | src/general/string_tools.cc:145-171 | spaces, an optional sign and digits whose value fits an `int` are accepted with that value, a negative sign only for 0 |
| StringTools.StoiAccepts | src/general/string_tools.cc:153-157 | `stoi` reads spaces, a sign and digits with their signed value and consumes the whole string |
| StringTools.NatToStringValue | src/general/string_tools.cc:145-171 | the decimal rendering of `n` has value `n` |
| StringTools.CastSizeRoundTrip | src/general/string_tools.cc:145-171 | parsing the rendering of `n` gives `n` back |
| StringTools.CastSizeAcceptedExamples | src/general/tests/string_tools.cc:85-86 | "4" and "0" parse |
| StringTools.CastSizeRejectsNegative | src/general/tests/string_tools.cc:89-98 | "-1" is `bad_cast` |
| StringTools.CastSizeRejectsGarbage | src/general/tests/string_tools.cc:100-118 | "a" and "5-1" are `bad_cast` |
| StringTools.SkipSpaceSpec | src/general/string_tools.cc:36-37 | leading whitespace is skipped up to the first other character |
| StringTools.ClosingQuoteSpec | src/general/string_tools.cc:41-51 | the closing quote is the first quote not preceded by a backslash |
| StringTools.TokenAt | src/general/string_tools.cc:31-75 | a token that is found ends beyond the start, inside the string |
| StringTools.NextToken | src/general/string_tools.cc:31-75 | the scan finds a token exactly when the specification does, with the same token and resume position |
| StringTools.Tokenize | src/general/string_tools.cc:77-87 | the tokens are the successive tokens of the string, up to the first that cannot be formed |
| StringTools.PlainTokens | src/general/string_tools.cc:66-72 | on text without quotes or brackets every token is a non-empty word without whitespace, and the tokens concatenated are the text with its whitespace removed |
| StringTools.UnterminatedQuote | src/general/string_tools.cc:49-50 | an unterminated quote ends tokenizing |
| StringTools.UnterminatedBracket | src/general/string_tools.cc:61-62 | an unterminated angle bracket ends tokenizing |
| StringTools.TokenizeWords | src/general/tests/string_tools.cc:67-69 | "Hello, world!" has the tokens "Hello," and "world!" |
| StringTools.TokenizeQuoted | src/general/tests/string_tools.cc:71-73 | a quoted phrase is one token, without its quotes |
| StringTools.BracketToken | src/general/string_tools.cc:57-65 | a token opened by `<` runs to the first `>` and keeps both brackets, spaces inside included |
| StringTools.TokenizeBracketed | src/general/string_tools.cc:57-65 | "<a b> c" has the tokens "<a b>" and "c" |
| StringTools.TokenizeEscapedQuote | src/general/string_tools.cc:45-53 | an escaped quote inside quotes does not end the token |
| SimulatorInputParse.ParseLine | src/main-simulator-inputparse.cc:38-45 | a line is blank, or its lower-cased first token and the rest |
| SimulatorInputParse.ReadModelFrom | src/main-simulator-inputparse.cc:140-213 | the reader never moves past the deck, and a block it closes consumed at least one line |
| SimulatorInputParse.ReadModelStored | src/main-simulator-inputparse.cc:189-200 | every stored distribution line has at least one token, at every depth |
| SimulatorInputParse.NoEndmodelThrows | src/main-simulator-inputparse.cc:211-212 | a block without `endmodel` is a `runtime_error` |
| SimulatorInputParse.BlankLinesNotCounted | src/main-simulator-inputparse.cc:152-153 | blank lines change neither the result nor the line number |
| SimulatorInputParse.ReadModelParsed | src/main-simulator-inputparse.cc:150-158 | the reader sees each line only through its tokens |
| SimulatorInputParse.SmallModelBlock | src/main-simulator-inputparse.cc:160-208 | a block with a distribution, a blank line, a nested model and an unknown command: the distribution and the lower-cased submodel are stored, the unknown command is reported on its line, and parsing continues to `endmodel` |
| SimulatorInputParse.ReadModel | src/main-simulator-inputparse.cc:140-213 | the reading loop yields the block the specification reads |
| SimulatorInputParse.AddNested | src/main-simulator-inputparse.cc:166-188 | a nested block without a type is reported; otherwise it is appended under its lower-cased type |
| SimulatorInputParse.ApplyModelCommand | src/main-simulator-inputparse.cc:189-205 | a `distribution` line or an unknown command inside a model, as the specification treats it |
| SimulatorInputParse.ObservableFirstWins | src/main-simulator-inputparse.cc:75-90 | `observable_y` names axis 1 and `observable`/`observable_x` axis 0, and the first name given for an axis stays |
| SimulatorInputParse.OutputSetsFileName | src/main-simulator-inputparse.cc:91-101 | `output` sets the histogram file name, and without a name keeps it |
| SimulatorInputParse.UnclosedTopModel | src/main-simulator-inputparse.cc:52-74 | a top-level model without `endmodel` is a `runtime_error`, and the top model is not replaced |
| SimulatorInputParse.SimulatorInput.constructor | src/main-simulator.h:102 | a new parser has no model, no observables and the file name "histogram.dat" |
| SimulatorInputParse.SimulatorInput.ReadInput | src/main-simulator-inputparse.cc:26-138 | the parser's new state and outcome are those of reading the whole deck from line 1 |
| SimulatorInputParse.SimulatorInput.ReadLine | src/main-simulator-inputparse.cc:32-112 | one pass of the loop consumes at least one line, and reading on from where it stops gives the same result |
| SimulatorInputParse.SimulatorInput.SetTopModel | src/main-simulator-inputparse.cc:59-73 | a model without a type is reported; otherwise it becomes the top model under its lower-cased type |
| SimulatorInputParse.SimulatorInput.Apply | src/main-simulator-inputparse.cc:48-109 | a top-level command other than `model` updates the state as the specification says |
| SimulatorInputParse.StoredRenderable | src/main-simulator-inputparse.cc:391-394 | every block the reader stores can be rendered: each distribution line has the kind that `to_string` prints |
| SimulatorInputParse.ToString | src/main-simulator-inputparse.cc:384-417 | the rendering is the name, the distributions header, each distribution's kind and each submodel's rendering, indented |
| SimulatorInputParse.AppendSubmodel | src/main-simulator-inputparse.cc:397-414 | one submodel's header and its indented rendering are appended |
| SimulatorInputParse.IndentLines | src/main-simulator-inputparse.cc:403-413 | the loop adds three spaces after every newline and copies the last segment |
| SimulatorInputParse.IndentSplit | src/main-simulator-inputparse.cc:403-410 | indenting a line and a rest indents the rest after the line's newline |
| SimulatorInputParse.LeafIndented | src/main-simulator-inputparse.cc:397-414 | a submodel without distributions or submodels renders as its name and its header, three spaces further in |
| SimulatorInputParse.RenderedOneSubmodel | src/main-simulator-inputparse.cc:384-417 | the rendering of a model with one distribution and one leaf submodel, written out |
| SymmetricNonresonantFits.CreateInitialGuess | src/electron_transport/fitter_models/symmetric_nonresonant.cc:21-48 | succeeds exactly when "c" and "d" are both given, else `invalid_argument` with its message; a guess has three entries |
| SymmetricNonresonantFits.GuessRoundTrip | src/electron_transport/fitter_models/symmetric_nonresonant.cc:21-48 | naming every parameter and reading the guess back gives the vector |
| SymmetricNonresonantFits.GuessEntries | src/electron_transport/fitter_models/symmetric_nonresonant.cc:37-46 | each entry comes from its own name, and "norm" is 1 when absent |
| SymmetricNonresonantFits.GridAt | src/electron_transport/fitter_models/symmetric_nonresonant.cc:103-116 | guess `6 i + j` pairs the `i`-th `c` with the `j`-th `d`, `norm` 1 |
| SymmetricNonresonantFits.DefaultGuessesShape | src/electron_transport/fitter_models/symmetric_nonresonant.cc:97-117 | there are 36 default guesses, each with three entries, `norm` 1 and positive `c`, `d` |
| SymmetricNonresonantFits.AppendDefaultGuesses | src/electron_transport/fitter_models/symmetric_nonresonant.cc:97-117 | the list held before is kept in front, followed by the c-major grid of defaults |
| SymmetricNonresonantFits.ProcessedSpec | src/electron_transport/fitter_models/symmetric_nonresonant.cc:127-136 | `c` and `d` are negated exactly when both are negative, everything else is kept, and afterwards they are never both negative |
| SymmetricNonresonantFits.ProcessedIdempotent | src/electron_transport/fitter_models/symmetric_nonresonant.cc:130-135 | processing twice is processing once |
| SymmetricNonresonantFits.DefaultGuessesProcessed | src/electron_transport/fitter_models/symmetric_nonresonant.cc:97-136 | processing leaves every default guess as it is |
| SymmetricNonresonantFits.ProcessFitParameters | src/electron_transport/fitter_models/symmetric_nonresonant.cc:127-136 | the fitted vector becomes its processed form, in place |
| InterferenceFits.CreateInitialGuess | src/electron_transport/fitter_models/interference.cc:23-49 | succeeds exactly when "f" is given, else `invalid_argument` with its message; a guess has two entries |
| InterferenceFits.GuessRoundTrip | src/electron_transport/fitter_models/interference.cc:23-49 | naming every parameter and reading the guess back gives the vector |
| InterferenceFits.GuessEntries | src/electron_transport/fitter_models/interference.cc:38-46 | `f` comes from its name, and "norm" is 1 when absent |
| InterferenceFits.DefaultsAt | src/electron_transport/fitter_models/interference.cc:99-108 | default `k` is the `k`-th `f` with `norm` 1 |
| InterferenceFits.DefaultGuessesValues | src/electron_transport/fitter_models/interference.cc:94-109 | the defaults are `f` = 1, 10 and 100 in that order, each with `norm` 1 |
| InterferenceFits.AppendDefaultGuesses | src/electron_transport/fitter_models/interference.cc:94-109 | the list held before is kept in front, followed by the defaults |
| InterferenceFits.ProcessedSpec | src/electron_transport/fitter_models/interference.cc:118-124 | `f` becomes its absolute value, everything else is kept, and the vector changes exactly when `f` is negative |
| InterferenceFits.ProcessedIdempotent | src/electron_transport/fitter_models/interference.cc:118-124 | processing twice is processing once |
| InterferenceFits.DefaultGuessesProcessed | src/electron_transport/fitter_models/interference.cc:94-124 | processing leaves every default guess as it is |
| InterferenceFits.ProcessFitParameters | src/electron_transport/fitter_models/interference.cc:118-124 | the fitted vector becomes its processed form, in place |

## Left out

- `cast_string<double>` (`stod`) is a parameter `parseReal` of both factories. Floating-point parsing is not modelled; a `bad_cast` it reports propagates as the source lets it.
- Floating point is modelled as exact `real`. `DoubleMax` and `DoubleLowest` are the exact values of the largest finite `double` and its negation. NaN and infinities are not modelled.
- `BinStyles.MaskRoundTrip`: `log_b`, `b^u` and the log style's `dmaskdx` are the parameters of a `LogMath` record. `invmask(mask(x)) == x` for log binning is the hypothesis `InverseLaw`, not a proved fact about floating point.
- `RandomDistributions.Sample`: uniform, normal, lognormal and gamma draws come from the random-number library. They are the abstract `Draw` over an explicit engine state, each advancing the engine by one draw. Only the constant distribution is concrete.
- The C++11 random-number engine itself is the abstract `Engine`.
- `shared_ptr` aliasing is not modelled. Models are values, so a model handed out by a factory cannot later change through that factory.
- The `dynamic_pointer_cast` inside an `Observable<T>` binding is not modelled (`observable.h:92-96`). A registered key always binds to the model it was registered on.
- `Gather`: reading `cparams[indices]` past the end, and `Junctions.AppBias` on a vector without a bias entry, are undefined behaviour in the source. The model reads 0. `SimulateModels.RoutesInBounds` shows that the routing never reads past a vector of the model's full length.
- A null distribution handle sampled by `generateParameters` is undefined behaviour. The generating members require every sampled handle to be bound (`SimulateModels.Ready`).
- The input deck is a sequence of lines; `getline`, end of file and the stream state are not modelled. `printError` output goes to an ordered log of line numbers and messages.
- `createSimulator`, `printState` and the `#if 0` blocks of `main-simulator-inputparse.cc` are not modelled. Of the parser, only reading the deck and `ModelInformation::to_string` are.
- `SeebeckS`, every physics formula of the channels and models, and the module loaders are not modelled.
- `print_fit`, `resid` and `jacobian` of the fit models are floating-point closed forms and are not modelled.
- The header that defines the interference model's indices is not part of this model. `F = 0` and `NORM = 1` are read off `ret(2)` and their use in `interference.cc`.
- The electron-transport `symmetric_nonresonant.h` is not part of this model. `C = 0`, `D = 1` and `NORM = 2` come from `src/conductance_histogram/fitter_models/symmetric_nonresonant.h:37-47`.
- `Histogram::begin`, `getCoordinates` and `getBinCount` are used by the tests but are not defined in `histogram.cc`. They are not modelled. The tests' counts are stated as `binnedData`, without the `dmaskdx` density factor.
- The GSL-backed histogram classes (`histogram1d.h`, `histogram2d.h`, `histogram_interface.h` and their `aux_binner` counterparts) are outside the core and are not modelled.
- `StringTools.CastSize`: `stoi` is modelled for `int` of 32 bits; its `out_of_range` for values beyond that is kept as an error. The locale-dependent `isspace` is the six ASCII whitespace characters.
- `StringTools` character handling is ASCII: `tolower` moves only `A`-`Z`.
- `RandomDistributions.RandomDistributionFactory`: the precise messages of the normal and lognormal positivity errors are stated only as `invalid_argument`, through the factory's error clause.

## Findings

| source | as written | input that shows it | evidently intended | confidence | as-written member | corrected member |
|---|---|---|---|---|---|---|
| src/general/histogram_tools/counterindex.cc:36-43 | the carry loop runs `j` over every entry of `index`, end bit included, and reads `max_index[j]` and `index[j + 1]` | any increment of any counter, e.g. extents (3, 1, 2, 4) from (0, 0, 0, 0): at `j = 4` it reads `max_index[4]` | carry over `j < max_index.size()` only, then set the end bit | not executed | CounterIndices.CarryReadsPastEnd | CounterIndices.CounterIndex.Increment |
| src/general/simulator_tools/simulate_model_factory.cc:24-33 | the loop runs to `get_num_parameters()`, which for a composite includes its submodels' parameters, and reads `model_names[pos]` | a junction (names "ef", "v") with one three-parameter channel, then `setDistribution("ef", …)`: `length` is 5 and `model_names[2]` is read | loop over `model_names.size()` | not executed | SimulateModelFactories.JunctionSetDistributionAsWritten | SimulateModelFactories.SimulateModelFactory.SetDistribution |
| src/general/histogram_tools/histogram.cc:47-99 | `bin_data` never sets `haveBinned` and never counts any point; `binned_data` stays all 0 | the tests' histogram (13 points, five linear bins on [0, 1]) binned twice: the second `bin_data` succeeds and every count is 0, where `src/general/tests/histogram1d_linear.cc:136-176` expects a `runtime_error` and the counts 4, 1, 2, 2, 4 | set `haveBinned` and count every point in its cell | not executed | Histograms.BinDataAsWrittenRebins | Histograms.Histogram.BinData |
