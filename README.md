# Insights core of the brain service, in Dafny

This project models the insight engine of the brain service: a column-wise
dataset of typed metrics (`Dataset`, `AddMetric`, `Correlation`), the
correlation insight that screens a pair of metrics (`FSFA`), computes it
(`Generate`) and proposes candidate pairs (`Propose`), the pipeline that
proposes, screens, computes and keeps the relevant insights
(`GenerateInsights`), the typed error values with their `C-<code> <message>`
string form, and the scatter-plot visualisation a relevant correlation
carries.

Layout, one module per file:

- `wrappers.dfy` (`Wrappers`): `Option`.
- `datatypes.dfy` (`DataTypes`): the `float64` and `string` type tags and
  the `Metric` record.
- `errors.dfy` (`Errors`): error codes, messages, `Error` and its string
  form, with a parser proving the string form loses nothing.
- `visualizations.dfy` (`Visualizations`): the visualisation metric and the
  scatter plot with its accessors.
- `dataset.dfy` (`Datasets`): the dataset as a value (`DatasetValue`, with
  `AddMetric` and `Correlation` as functions) and as the object Go code
  mutates through a pointer (`Dataset`, whose `AddMetric` method is proved
  against the function).
- `correlation.dfy` (`Correlations`): the `Correlation` insight as a class
  whose `FSFA` and `Generate` methods update its `relevant` and `visual`
  fields, proved against `Screened` and `GenerateOutcome`; `Propose` as a
  loop proved against `Pairs(FloatMetrics(..))`; the pair-enumeration
  lemmas.
- `insights.dfy` (`Insights`): the registry of insight types, the
  pipeline's `Propose` and `GenerateInsights` methods, and the Age/Height
  run of the pipeline's test table.

The numeric body of the weighted Pearson correlation (an external
statistics routine) and the float-to-text formatting are parameters: a
`Primitive` returns either `Coefficient(c)` or `Fault` (a panic inside
it), and `Numerics` bundles it with a `formatFloat` function. Go visits map
keys in an unspecified order; `Propose` and `GenerateInsights` take that
order as a parameter `order` listing each key once (`Enumerates`).

## Model

| member | source | states |
|---|---|---|
| Errors.CodesDistinct | insights/error.go:9-22 | the four error codes are 0, 1, 2, 3 and pairwise distinct |
| Errors.Error.String | insights/error.go:64-66 | the string form is `C-<code> <message>` and parsing it gives back the same error (code and message) |
| Errors.Error.Error | insights/error.go:70-72 | `Error()` is the string form |
| Errors.DecimalRoundTrip | insights/error.go:64-66 | the decimal rendering of any code, negative ones included, parses back to that code |
| Errors.ErrorStringParses | insights/error.go:64-66 | the first space of `C-<code> <message>` ends the code, so the message is everything after it |
| Errors.StringInjective | insights/error.go:64-66 | two errors with the same string form are the same error |
| Errors.TestErrorString | insights/error_test.go:9-21 | `Error{"TestError", 0}` prints as `C-0 TestError` through both String and Error |
| Visualizations.AccessorsReturnFields | visualizations/scatterplot.go:22-45 | Type is `SCATTERPLOT` and Metrics, Title, Description, Data return the plot's fields |
| Datasets.NewDataset | insights/dataset.go:45-48 | a new dataset has no columns and no metrics, and is valid |
| Datasets.Dataset.constructor | insights/dataset.go:45-48 | the object starts as NewDataset |
| Datasets.DatasetValue.AddMetric | insights/dataset.go:58-124 | a metric is added iff its tag is float64 or string, the data has that dynamic type, and (once a metric exists) its length is the record count; every refusal has code 1, 2 or 3 |
| Datasets.Dataset.AddMetric | insights/dataset.go:58-124 | on a refusal the error is returned and the dataset is unchanged; otherwise no error and the dataset becomes DatasetValue.AddMetric's result |
| Datasets.AddMetricRejectsWrongKind | insights/dataset.go:70-76 | data of the wrong dynamic type is refused with code 1 and the message for the tag |
| Datasets.AddMetricRejectsUnsupported | insights/dataset.go:117-119 | any tag but float64 and string is refused with code 2 and a message naming the tag |
| Datasets.AddMetricRejectsSize | insights/dataset.go:78-82 | with a metric present, data of another length is refused with code 3 |
| Datasets.AddMetricStores | insights/dataset.go:84-92 | success appends the column to its type's array only, stores the metric under its name with the new column's index, and sets the record count exactly when the map holds one entry |
| Datasets.AddMetricPreservesValid | insights/dataset.go:58-124 | AddMetric keeps the dataset invariant: every column has the record count, every map entry is named by its key and indexes an existing column of its type |
| Datasets.AddMetricKeepsLength | insights/dataset.go:89-92 | once a metric exists the record count never changes |
| Datasets.DatasetValue.Correlation | insights/dataset.go:130-167 | no error iff both names are registered as float64; code 0 iff a name is missing, code 1 iff the types differ, code 2 iff both share a non-float type; any error comes with coefficient 0 |
| Datasets.CorrelationMessages | insights/dataset.go:140-157 | the exact messages of the three refusals, naming the metrics and types |
| Datasets.CorrelationDelegates | insights/dataset.go:159-166 | past the checks the result is the primitive's coefficient on the two indexed columns; a fault reading a column or inside the primitive gives 0 and no error |
| Datasets.ValidCorrelationInputs | insights/dataset.go:159-166 | on a valid dataset both columns exist and hold the record count, so a fault cannot come from reading a column |
| Datasets.AddMetricTestCases | insights/dataset_test.go:33-58 | the seven AddMetric cases of the test table: two accepted, then codes 1, 1, 2, 3, 3 with their messages |
| Datasets.AgeFloat | insights/dataset_test.go:88-128 | adding the float column `age` to a new dataset gives a one-column dataset of three records |
| Datasets.CorrelationTableDataset | insights/dataset_test.go:88-128 | adding `height` after `age` registers both, with the float column indices the test expects |
| Datasets.CorrelationTestFloat | insights/dataset_test.go:88-128 | two float columns: the primitive's coefficient comes back with no error |
| Datasets.CorrelationTestMissing | insights/dataset_test.go:88-128 | a missing variable gives code 0 and its message |
| Datasets.CorrelationTestMismatch | insights/dataset_test.go:88-128 | a float and a string variable give code 1, `Datatype mismatch Got age(float64) and height(string)` |
| Datasets.CorrelationTestStrings | insights/dataset_test.go:88-128 | two string variables give code 2, `Only float64 datatype supported. Gotstring` |
| Datasets.CorrelationTestCorrupt | insights/dataset_test.go:120-128 | the corrupt dataset whose map points past the columns gives 0 and no error, whatever the primitive |
| Correlations.Ones | insights/correlation.go:109-112 | the weights are `n` ones |
| Correlations.Correlation.Visual | insights/correlation.go:36-40 | returns the insight's visual field |
| Correlations.Correlation.Type | insights/correlation.go:42-45 | the type string is `CORRELATION` |
| Correlations.Correlation.Relevant | insights/correlation.go:47-50 | returns the insight's relevance field |
| Correlations.Correlation.New | insights/correlation.go:30-34 | a proposed insight holds the dataset and its metrics, is not relevant and has no visual |
| Correlations.Correlation.FSFA | insights/correlation.go:57-78 | relevant becomes true iff there are exactly two metrics and both are float64; the visual is untouched |
| Correlations.Correlation.Generate | insights/correlation.go:84-165 | the new relevance and visual are GenerateOutcome of the old ones |
| Correlations.GenerateSkipsIrrelevant | insights/correlation.go:97-99 | an irrelevant insight is left as it is |
| Correlations.GenerateRejectsOnGuard | insights/correlation.go:102-106 | fewer than two metrics, or an index past the column count, makes the insight irrelevant and keeps the visual |
| Correlations.GenerateVerdict | insights/correlation.go:109-126 | past the guard, the insight stays relevant iff the dataset's correlation of the two names with equal weights has no error and a coefficient of at least 0.7 |
| Correlations.GenerateAcceptedVisual | insights/correlation.go:128-164 | an accepted insight carries a SCATTERPLOT titled `<display 1> and <display 2>`, described by the formatted coefficient, first metric on dimension 0 and second on 1, with one row per value of the first column holding the two columns' values |
| Correlations.RowsPairColumns | insights/correlation.go:150-164 | with equal columns and distinct names every row holds exactly the two names and the two values at that position |
| Correlations.NegativeCorrelationRejected | insights/correlation.go:122-126 | a strong negative correlation (at most -0.7) is rejected, because the threshold compares the signed coefficient |
| Correlations.GenerateIdempotent | insights/correlation.go:84-165 | running Generate twice gives what running it once gives |
| Correlations.GuardAdmitsOutOfRange | insights/correlation.go:102-103 | the bounds check lets through an index equal to the column count and negative indices |
| Correlations.IndexSourcesDisagree | insights/correlation.go:109-161 | an insight whose metric indices differ from the dataset's map correlates one pair of columns and plots another |
| Correlations.Correlation.Propose | insights/correlation.go:169-208 | the proposals' metric lists are all pairs i < j of the float metrics in visiting order; each proposal is a fresh, unstarted insight and no two share an object |
| Correlations.PairsCount | insights/correlation.go:193-205 | k metrics give k(k-1)/2 pairs |
| Correlations.PairsAreAllPairs | insights/correlation.go:193-205 | a list is a pair iff it is `[s[a], s[b]]` for some positions a < b |
| Correlations.FloatMetricsSound | insights/correlation.go:183-189 | the filtered list holds only float64 metrics of the map |
| Correlations.FloatMetricsCount | insights/correlation.go:183-189 | the filtered list has one entry per float64 metric of the map |
| Correlations.FloatMetricsNames | insights/correlation.go:183-189 | on a map keyed by metric name, the filtered metrics have distinct names |
| Correlations.ProposalCount | insights/correlation.go:169-208 | a dataset with k float metrics yields k(k-1)/2 proposals |
| Correlations.TwoFloatMetricsOneProposal | insights/correlation_test.go:216-257 | two float metrics yield exactly one proposal |
| Correlations.ProposalsScreened | insights/correlation.go:169-208 | every proposal passes FSFA and pairs two metrics of the dataset |
| Correlations.ProposalsSafe | insights/correlation.go:84-208 | on a valid dataset each proposal names two distinct metrics as the map stores them, so Generate cannot panic on it |
| Insights.RegistryIsCorrelation | insights/insights.go:110-114 | the registry holds exactly the correlation insight |
| Insights.ProposeFor | insights/insights.go:102-104 | each type's proposals are that type's Propose |
| Insights.Propose | insights/insights.go:89-107 | the proposals are those of every registered type, concatenated in registry order, each fresh and unstarted |
| Insights.ProposalsAreCorrelationPairs | insights/insights.go:89-114 | the pipeline's proposals are the correlation's pairs of float metrics |
| Insights.ProposalsAreGeneratable | insights/insights.go:63-80 | every proposal passes FSFA and none makes Generate panic on a valid dataset |
| Insights.Screen | insights/insights.go:63-79 | after FSFA and, when it accepted, Generate, the insight's relevance and visual are Evaluate of its dataset and metrics, and the step keeps it iff it ends relevant |
| Insights.ProposalsDefined | insights/insights.go:60-80 | every proposal of a valid dataset can be screened and generated without a panic |
| Insights.GenerateInsights | insights/insights.go:45-84 | every proposal is screened and, if still relevant, generated; the result is the insights relevant at the end, in proposal order, all relevant |
| Insights.KeptIsSubsequence | insights/insights.go:63-80 | the kept insights are a subsequence of the proposals, and a proposal is kept iff its evaluation leaves it relevant |
| Insights.AgeHeightInsights | insights/insights_test.go:91-155 | the test's Age/Height run yields one insight, titled by the two display names with three rows, iff the primitive's coefficient on the two columns reaches 0.7, and none otherwise |
| Insights.AgeHeightBuilt | insights/insights_test.go:91-155 | adding Age and Height to a new dataset succeeds twice |
| Insights.AgeHeightProposals | insights/insights_test.go:91-155 | the test's dataset yields one proposal, its two metrics in visiting order |
| Insights.AgeHeightEvaluate | insights/insights_test.go:91-155 | that proposal stays relevant iff the coefficient reaches 0.7, and then has the expected title and three rows |

### Source quirks the model keeps

- Generate's bounds check (insights/correlation.go:102-103) compares with
  `len(DataF) < Index`, so an index equal to the column count, or a
  negative one, passes the check; reading that column then panics. The
  model keeps the check as written (`GuardPasses`, `GuardAdmitsOutOfRange`)
  and gives Generate the precondition `GenerateDefined`: the inputs on which
  the Go code runs to completion. Proposals built from a valid dataset
  always satisfy it (`ProposalsSafe`).
- Generate takes the weight count and the plotted columns from the
  insight's own metric indices (insights/correlation.go:109, 150-161), but
  the correlation itself looks the names up in the dataset's map
  (insights/dataset.go:140-141). When the two disagree, one pair of columns
  is correlated and another plotted (`IndexSourcesDisagree`).
- The threshold compares the signed coefficient with 0.7
  (insights/correlation.go:122), so strong negative correlations are
  dropped (`NegativeCorrelationRejected`).
- A panic inside the correlation is recovered and, the results being
  unnamed, yields (0, nil) (insights/dataset.go:159-166): an index out of
  range gives coefficient 0 and no error (`CorrelationTestCorrupt`).

## Left out

- The weighted Pearson correlation (`stat.Correlation`) is not modelled: it is the `Primitive` parameter, and its faults are its `Fault` result.
- `strconv.FormatFloat` is the `formatFloat` parameter; `log.Println` of errors is not modelled (output only).
- Go's map iteration order is the `order` parameter (each key once); the model does not say which order Go picks.
- `float64` values are `real`: no rounding, NaN or infinity; 0.7 is exact.
- The `int64` record count and `int` indices are unbounded integers; no overflow is possible at the sizes involved.
- Row values are `real`; Go stores them as `interface{}` holding `float64`.
- The `Insight` interface is an open set of types in Go; the model has the one registered type, `CorrelationType`, with dispatch by `match`.
- Go's `Dataset` is copied by value while its map is shared; the model's `DatasetValue` is a value, so changes made to one copy's map through another copy are not modelled.
- Insights.GenerateInsights: requires a valid dataset (every registered metric indexes an existing column of the record count), which every dataset built with NewDataset and AddMetric is; on datasets assembled by hand Go may panic in Generate.
- Correlations.Correlation.Generate: requires `GenerateDefined`; the inputs on which Go panics are not modelled.
- `visualizations/visualizations.go` declares the `SCATTERPLOT` type string, the `Visual` interface and the visualisation metric record; the constant and the record are modelled (`Visualizations.SCATTERPLOT`, `Visualizations.Metric`), while the `Visual` interface is not modelled beyond `ScatterPlot`'s accessors, the only implementation. `visualizations/doc.go` holds only package documentation.
- Datasets.DatasetValue.AddMetric: the model's metric map is never nil. In Go a `Dataset` not built by `NewDataset` (the zero value, or a literal without `Metrics`) has a nil map, and its first accepted insert panics on the map write after the column was already appended; the model reports success there instead. The same holds for Datasets.Dataset.AddMetric.
- The Go tests themselves are not modelled beyond the cases named in the table above.
