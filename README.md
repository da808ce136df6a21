# Moving-window COVID model: bookkeeping, in Dafny

This project models the discrete bookkeeping of the moving-window fitter of
the `covid_model` repository (`MovingWindowModel`) and the reporting helpers
around it (`sub_units/utils.py`), and proves properties of that bookkeeping.
The fitter treats each series (new positive tests, new deaths) as a
log-linear trend over the last `moving_window_size` days of data, with one
multiplier per day of the week. The model covers:

- the trailing index windows the constructor sets;
- the simulation: a clamped exponential curve anchored at the window start,
  scaled in place by the day-of-week multipliers;
- the likelihood precursor, which pairs observation `i` with simulated day
  `i + burn_in`;
- the regression design rows and the PyMC3 one-hot table;
- renaming the regression output into canonical parameter names;
- the covariance reordering by a mapping list and its inverse;
- exponentiating the logarithmic parameters once;
- the two samplers;
- on the reporting side:
  - the `ApproxType` table;
  - the renaming of report columns;
  - the whisker plot's column names and box positions;
  - the index and cumulative-sum arithmetic of the state prediction;
  - the order and slugs of the plot browser's pages.

Real arithmetic is Dafny's `real`. `np.exp` is a function value that is
known only to be positive (`Simulation.Exp`). `np.log` is an arbitrary
function value (`Simulation.Log`). Python's exceptions (KeyError,
IndexError, ValueError, AttributeError, UnboundLocalError) are the `None`
of an `Option`.

The fields the base class `BayesModel` sets are inputs, collected in
`MovingWindow.BayesFields`. So are the foreign computations: the
statsmodels regression (`MovingWindow.Ols`), the PyMC3 sampler
(`MovingWindow.Sampler`), the draws of the normals, the indices
`np.random.choice` returns, and the likelihood.

Modules, one file each:

| module | file | models |
|---|---|---|
| `Wrappers` | wrappers.dfy | `Option` |
| `PyLists` | py_lists.dfy | `range`, negative indexing, `xs[-k:]`, `np.cumsum` |
| `PyText` | py_text.dfy | `str.replace`, `str.lower`, `in` on strings, `sorted` on strings |
| `ApproxTypes` | approx_types.dfy | the `ApproxType` enumeration |
| `ParamNames` | param_names.dfy | parameter names; dictionary and vector forms of a parameter set |
| `Simulation` | simulation.dfy | `run_simulation` |
| `Windows` | windows.dfy | index windows and `_get_log_likelihood_precursor` |
| `Regression` | regression.dfy | design rows and the PyMC3 table |
| `Covariance` | covariance.dfy | name remapping and covariance reordering of `render_statsmodels_fit` |
| `Samples` | samples.dfy | exponentiation loops, statsmodels samples, PyMC3 resampling and trace assembly |
| `MovingWindow` | moving_window_model.dfy | the `MovingWindowModel` class |
| `Reporting` | reporting.dfy | column renaming, whisker columns, box positions |
| `Prediction` | prediction.dfy | `generate_state_prediction` |
| `PlotBrowser` | plot_browser.dfy | `generate_plot_browser` |

## Model

| member | source | states |
|---|---|---|
| ApproxTypes.Index | sub_units/utils.py:21-28 | every tag has a position in the declared iteration order and is found there |
| ApproxTypes.ApproxTypeTable | sub_units/utils.py:21-28 | the iteration order lists six tags, every tag occurs, and none repeats |
| ApproxTypes.ApproxNamesDistinct | sub_units/utils.py:21-28 | two tags share an abbreviation iff they are equal, and likewise long names |
| PyLists.Range | sub_units/bayes_model_implementations/moving_window_model.py:44-47 | `range(lo, hi)` has `max(hi - lo, 0)` entries, entry k being `lo + k` |
| PyLists.RangeStep | sub_units/utils.py:117-119 | every entry of `range(start, stop, step)` is `start + j*step` and below `stop`; the next one would reach `stop` |
| PyLists.PyIndex | sub_units/utils.py:207-208 | indexing succeeds iff `-len <= i < len`; non-negative indices count from the front, negative ones from the back |
| PyLists.LastN | sub_units/bayes_model_implementations/moving_window_model.py:151-154 | `xs[-k:]` is the whole list for `k == 0` or `k >= len`, otherwise the last k entries |
| PyText.ReplaceHead | sub_units/utils.py:490-491 | `replace` rewrites a leading occurrence and resumes after it |
| PyText.ReplaceSkip | sub_units/utils.py:490-491 | a prefix with no position that could start an occurrence passes through `replace` unchanged |
| PyText.ReplaceAbsent | sub_units/utils.py:490-491 | `replace` is the identity on a string with no possible occurrence |
| PyText.ReplaceCharAt | sub_units/utils.py:590 | replacing one character by another keeps the length and maps character by character |
| PyText.LowerChar | sub_units/utils.py:590 | upper-case ASCII letters are shifted to lower case, every other character is kept, and no result is upper case |
| PyText.LexLeTotal | sub_units/utils.py:583 | Python's string order is total |
| PyText.LexLeTrans | sub_units/utils.py:583 | Python's string order is transitive |
| PyText.SortStrings | sub_units/utils.py:583 | `sorted` returns a sorted permutation of its input |
| Windows.TrailingWindow | sub_units/bayes_model_implementations/moving_window_model.py:44-47 | the window is the contiguous run from `max(threshold, n - w)`, with `max(n - start, 0)` entries |
| Windows.TrailingWindowContents | sub_units/bayes_model_implementations/moving_window_model.py:44-47 | i is in the window iff `threshold <= i < n` and `n - w <= i`; it has at most w entries, is increasing, and is empty once `threshold >= n` |
| Windows.DefaultIndicesAreWindow | sub_units/bayes_model_implementations/moving_window_model.py:151-154 | the default likelihood indices `window[-w:]` are the whole window |
| Windows.TrailingWindowInRange | sub_units/bayes_model_implementations/moving_window_model.py:44-47 | with a non-negative threshold every window index is a valid observation day |
| Windows.Gather | sub_units/bayes_model_implementations/moving_window_model.py:163-166 | the comprehension succeeds iff every shifted index is a valid Python index; entry k is the element at `idx[k] + shift` |
| Windows.PrecursorAligned | sub_units/bayes_model_implementations/moving_window_model.py:163-176 | for valid observation indices the precursor exists iff the solution reaches every compared day; residual k is `log(sim[idx[k] + burn_in] + off) - log(data[idx[k]] + off)`, value k is `data[idx[k]]`, lengths equal the index lists, other errors are empty |
| Simulation.Curve | sub_units/bayes_model_implementations/moving_window_model.py:66-72 | the clamped curve is never negative, and positive iff the intercept exceeds the log offset |
| Simulation.CurveAtAnchor | sub_units/bayes_model_implementations/moving_window_model.py:66-70 | at the anchor day the curve equals `intercept - log_offset` |
| Simulation.Multipliers | sub_units/bayes_model_implementations/moving_window_model.py:100-121 | the multipliers read are one per residue that occurs on the grid, residue k reading `day{k}_<series>_multiplier` |
| Simulation.ReadSeries | sub_units/bayes_model_implementations/moving_window_model.py:66-121 | reading a series succeeds iff its slope, intercept and occurring multipliers are present, and then returns exactly those values |
| Simulation.SeriesCurve | sub_units/bayes_model_implementations/moving_window_model.py:69-72 | the curve has one entry per grid day, all non-negative, each positive iff the intercept exceeds the offset |
| Simulation.Residue | sub_units/bayes_model_implementations/moving_window_model.py:100-121 | day i selects residue `i % 7`, which is below `min(7, n)` |
| Simulation.MultiplierNames | sub_units/bayes_model_implementations/moving_window_model.py:102-121 | the seven multiplier names of a series, indexed by residue |
| Simulation.MultiplyByDay | sub_units/bayes_model_implementations/moving_window_model.py:100-121 | the in-place loop succeeds iff every occurring multiplier of both series is present; then each array equals its old contents times the multiplier of residue `i % 7` of its own series |
| Simulation.MultipliersOr1Agree | sub_units/bayes_model_implementations/moving_window_model.py:100-121 | the loop's key check agrees with the series' keys being present, and then the multipliers it applies are the series' multipliers |
| Simulation.SimulateShape | sub_units/bayes_model_implementations/moving_window_model.py:53-123 | the solution exists iff both series' keys are present; its three rows are as long as `t_vals`; each series' row comes from that series' parameters alone |
| Simulation.SimulateInPlace | sub_units/bayes_model_implementations/moving_window_model.py:66-121 | building both clamped curves into arrays and running the in-place multiplier loop gives exactly the specified solution, including its failure on a missing key |
| Simulation.MultiplierAt | sub_units/bayes_model_implementations/moving_window_model.py:100-121 | after the loop day i is its curve value times the multiplier of residue `i % 7` |
| Simulation.DayMultiplierApplied | sub_units/bayes_model_implementations/moving_window_model.py:100-121 | exactly one multiplier acts on day i: changing another residue's multiplier leaves it alone, changing its own rescales it |
| Simulation.MultipliersKeepNonNegative | sub_units/bayes_model_implementations/moving_window_model.py:100-121 | non-negative multipliers keep a non-negative curve non-negative |
| Simulation.MultipliersKeepZero | sub_units/bayes_model_implementations/moving_window_model.py:100-121 | a day whose curve value is zero stays zero after the loop |
| Simulation.SimulateNonNegative | sub_units/bayes_model_implementations/moving_window_model.py:69-121 | with non-negative multipliers every simulated count is non-negative |
| Simulation.SimulateZeroAtOffset | sub_units/bayes_model_implementations/moving_window_model.py:69-121 | an intercept at or below the log offset makes the whole series zero, before and after the multipliers |
| ParamNames.SigmaNameParts | sub_units/bayes_model_implementations/moving_window_model.py:369-370 | the scale parameter's name is `sigma_` followed by the series name |
| ParamNames.MultiplierNamesDistinct | sub_units/bayes_model_implementations/moving_window_model.py:102-121 | two multiplier names are equal iff day and series are equal |
| ParamNames.MultiplierNotCurveName | sub_units/bayes_model_implementations/moving_window_model.py:187-194 | no multiplier name is a slope or intercept name |
| ParamNames.FittedNames | sub_units/bayes_model_implementations/moving_window_model.py:207-208 | a name is fitted iff it is a sorted name that contains the series name and not `sigma` |
| ParamNames.FittedNamesDistinct | sub_units/bayes_model_implementations/moving_window_model.py:207-208 | filtering repeat-free names gives repeat-free names |
| ParamNames.FittedNamesOrder | sub_units/bayes_model_implementations/moving_window_model.py:207-208 | for repeat-free sorted names, the fitted names keep the order of their positions in `sorted_names` |
| ParamNames.IndexMap | sub_units/bayes_model_implementations/moving_window_model.py:209-210 | the map's keys are the list's names, each mapped to a position holding it, the last such position |
| ParamNames.IndexMapInverts | sub_units/bayes_model_implementations/moving_window_model.py:209-210 | for repeat-free names the map sends `names[i]` back to i |
| ParamNames.DictToVector | sub_units/bayes_model_implementations/moving_window_model.py:249-250 | the list exists iff every name is a key, and entry i is the value of name i |
| ParamNames.VectorToDict | sub_units/bayes_model_implementations/moving_window_model.py:363-366 | the dictionary exists iff every index is inside the vector; it has the map's keys, each reading its own slot |
| ParamNames.VectorRoundTrip | sub_units/bayes_model_implementations/moving_window_model.py:363-373 | vector to dictionary to vector is the identity for repeat-free names |
| ParamNames.DictRoundTrip | sub_units/bayes_model_implementations/moving_window_model.py:363-373 | dictionary to vector to dictionary is the identity when the keys are the names |
| Regression.DayOfWeek | sub_units/bayes_model_implementations/moving_window_model.py:228 | the label is below 7 |
| Regression.RowsOver | sub_units/bayes_model_implementations/moving_window_model.py:218-224 | there is one design row per listed day |
| Regression.DesignRowsAsWritten | sub_units/bayes_model_implementations/moving_window_model.py:218-224 | when the series is at least as long as the window, the rows as written are the aligned rows |
| Regression.ShortSeriesMislabelled | sub_units/bayes_model_implementations/moving_window_model.py:218-228 | with 10 observations and a 14-day window, rows 0 and 10 both hold observation 6, labelled 3 and 6 |
| Regression.AlignedRowsExist | sub_units/bayes_model_implementations/moving_window_model.py:218-224 | the aligned rows exist, one per day of the clamped window |
| Regression.AlignedRowAt | sub_units/bayes_model_implementations/moving_window_model.py:218-228 | row k has `x = k`, `orig_ind = i + burn_in`, observation i of both series, and label `(i + burn_in) % 7`, with `i = max(0, n - w) + k` |
| Regression.RowLabelMatchesSimulation | sub_units/bayes_model_implementations/moving_window_model.py:218-228 | a row's label is the residue whose multiplier the simulation applies to simulated day `orig_ind`, the day the likelihood compares that observation against |
| Regression.DayIndicators | sub_units/bayes_model_implementations/moving_window_model.py:427-432 | there are six indicator columns |
| Regression.DayIndicatorsOneHot | sub_units/bayes_model_implementations/moving_window_model.py:427-432 | each indicator is 0 or 1; column `d - 1` is 1 iff the label is d; at most one is set; all are 0 iff the label is 0 |
| Regression.DayEffectSelects | sub_units/bayes_model_implementations/moving_window_model.py:450-456 | the day term of the mean is the multiplier of the row's label, and 0 on day 0 |
| Regression.PyMC3Rows | sub_units/bayes_model_implementations/moving_window_model.py:414-432 | one table row per design row, carrying that design row and six indicators |
| Regression.PyMC3MeanByDay | sub_units/bayes_model_implementations/moving_window_model.py:450-456 | on every row the mean is `intercept + slope * x` plus the multiplier of the row's day |
| Covariance.NameMapping | sub_units/bayes_model_implementations/moving_window_model.py:187-205 | the eight pairs map `DOW[T.k]`, `x` and `Intercept` to the series' multiplier, slope and intercept names |
| Covariance.NameMappingRenames | sub_units/bayes_model_implementations/moving_window_model.py:187-205 | both tables are renamings: no old name repeats, no new name repeats, no new name is an old one |
| Covariance.RenameKeys | sub_units/bayes_model_implementations/moving_window_model.py:240-245 | the pop loop computes the renaming, failing at the first missing key |
| Covariance.RenameAllMoves | sub_units/bayes_model_implementations/moving_window_model.py:240-245 | renaming fails iff an old key is missing; otherwise each new key holds its old key's value, old keys are gone, other keys are kept |
| Covariance.Lookup | sub_units/bayes_model_implementations/moving_window_model.py:261 | the lookup succeeds iff the key is an old name, and returns a pair's new name |
| Covariance.MappingList | sub_units/bayes_model_implementations/moving_window_model.py:261 | the mapping list exists iff every column maps to a fitted name; entry j is that name's position |
| Covariance.IndexOf | sub_units/bayes_model_implementations/moving_window_model.py:262 | `index` succeeds iff the value occurs, and returns its first position |
| Covariance.InverseUpTo | sub_units/bayes_model_implementations/moving_window_model.py:262 | `[m.index(i) for i in range(n)]` exists iff every `i < n` occurs, entry i being `m.index(i)` |
| Covariance.InverseListInverts | sub_units/bayes_model_implementations/moving_window_model.py:262 | the inverse list exists iff every position occurs in the mapping list; then it is a repeat-free right inverse |
| Covariance.Reorder | sub_units/bayes_model_implementations/moving_window_model.py:263-265 | the reordering exists iff every index is inside the matrix, and is square of the list's size |
| Covariance.ReorderMovesEntries | sub_units/bayes_model_implementations/moving_window_model.py:263-265 | entry (i, j) of the result is entry `(inv[i], inv[j])`; symmetry is preserved |
| Covariance.MakeMvn | sub_units/bayes_model_implementations/moving_window_model.py:274 | the normal exists iff mean and covariance have equal dimension, and holds them |
| Covariance.MappingOntoInverts | sub_units/bayes_model_implementations/moving_window_model.py:261-262 | a name mapping that is a bijection from the columns onto the fitted names has an inverse list |
| Covariance.ReorderedCovAligned | sub_units/bayes_model_implementations/moving_window_model.py:249-265 | entry (i, k) of the reordered covariance belongs to the columns whose canonical names are fitted names i and k, so the diagonal follows the order of the mean vector |
| Covariance.SeriesFitMeans | sub_units/bayes_model_implementations/moving_window_model.py:239-274 | a fit has one mean per fitted name, mean i being the coefficient of name i, and the reordered covariance |
| Samples.ExponentiateListed | sub_units/bayes_model_implementations/moving_window_model.py:322-325 | the loop over the logarithmic parameters computes the step-by-step reference |
| Samples.ExpListedOnce | sub_units/bayes_model_implementations/moving_window_model.py:322-325 | the loop fails iff a listed name is missing; otherwise every listed name is exponentiated exactly once and every other key is kept |
| Samples.ExponentiateKeys | sub_units/bayes_model_implementations/moving_window_model.py:524-527 | the loop over a trace dictionary's keys exponentiates exactly the logarithmic keys, in any order |
| Samples.ExpKeysOnce | sub_units/bayes_model_implementations/moving_window_model.py:524-527 | no key is added or removed; a logarithmic key becomes `exp` of its value, any other key is kept |
| Samples.MergedDrawKeys | sub_units/bayes_model_implementations/moving_window_model.py:363-370 | a merged draw's keys are both series' fitted names and the two scale parameters, which are 1 |
| Samples.MergedDrawAt | sub_units/bayes_model_implementations/moving_window_model.py:363-368 | draw i of a fitted name lands under that name, the deceased draw winning a shared name |
| Samples.SigmaNotFitted | sub_units/bayes_model_implementations/moving_window_model.py:356-358 | neither scale parameter is a fitted name of either series |
| Samples.SampleVectorAt | sub_units/bayes_model_implementations/moving_window_model.py:371-373 | the sample exists iff every logarithmic and every sorted name is a key; entry j is the value of sorted name j, exponentiated iff it is logarithmic |
| Samples.CollectedAll | sub_units/bayes_model_implementations/moving_window_model.py:361-373 | the samples exist iff every draw pair is there and gives a sample; then there are n, sample i being that of pair i |
| Samples.StatsmodelsSamples | sub_units/bayes_model_implementations/moving_window_model.py:361-373 | the statsmodels samples exist iff every draw pair exists and converts; there are n, sample i converted from pair i |
| Samples.SampleDraw | sub_units/bayes_model_implementations/moving_window_model.py:363-373 | merging, exponentiating in place and reading off the vector gives the sample of the draw pair |
| Samples.DrawSamples | sub_units/bayes_model_implementations/moving_window_model.py:361-373 | the append loop yields the collected samples of pairs `0 .. n - 1`, n of them |
| Samples.ResampleAligned | sub_units/bayes_model_implementations/moving_window_model.py:340-344 | resampling yields one sample and one log-probability per index, `samples[ind[k]]`, each log-probability still that of its sample |
| Samples.AssembleTrace | sub_units/bayes_model_implementations/moving_window_model.py:517-527 | zip stops at the shorter trace; dictionary i is the merge of draw i, deceased last, with the logarithmic keys exponentiated |
| Samples.DictsToVectors | sub_units/bayes_model_implementations/moving_window_model.py:529-530 | the vectors exist iff every dictionary converts, vector i converted from dictionary i |
| MovingWindow.ApproxTypesFor | sub_units/bayes_model_implementations/moving_window_model.py:26-30 | the statsmodels strategy is always run, and PyMC3 iff the model is not simplified |
| MovingWindow.MovingWindowModel.constructor | sub_units/bayes_model_implementations/moving_window_model.py:15-47 | the index fields are the trailing windows of both series, the strategies follow the flag, no fit is stored |
| MovingWindow.MovingWindowModel.RunSimulation | sub_units/bayes_model_implementations/moving_window_model.py:53-123 | reading the vector by the sorted names, merging the static parameters and simulating in place gives the solution of the merged parameters, and `None` when the vector is too short or a key is missing |
| MovingWindow.MovingWindowModel.DefaultPrecursorAligned | sub_units/bayes_model_implementations/moving_window_model.py:125-176 | with default arguments the precursor exists for every vector that simulates, and pairs each window day i with simulated day `i + burn_in` |
| MovingWindow.MovingWindowModel.RenderStatsmodelsFit | sub_units/bayes_model_implementations/moving_window_model.py:178-327 | each attribute is set when its stage is reached, else keeps its value; success iff the deceased normal is built; the PyMC3 attributes are untouched |
| MovingWindow.MovingWindowModel.StatsmodelsParamsOnce | sub_units/bayes_model_implementations/moving_window_model.py:320-326 | the stored parameters are both fits' coefficients with each non-sigma logarithmic parameter exponentiated exactly once; stored iff both fits succeed and those parameters are coefficients |
| MovingWindow.MovingWindowModel.GetWeightedSamplesViaStatsmodels | sub_units/bayes_model_implementations/moving_window_model.py:346-377 | fails without both normals; else succeeds iff the samples exist; returns them twice, n weights of 1, and the likelihood of each sample |
| MovingWindow.MovingWindowModel.WeightedSamplesViaPyMC3 | sub_units/bayes_model_implementations/moving_window_model.py:334-344 | succeeds iff the lists are stored and every drawn index is inside them; entry k is the stored sample and log-probability at `ind[k]`, weight 1 |
| MovingWindow.MovingWindowModel.TraceDicts | sub_units/bayes_model_implementations/moving_window_model.py:517-527 | there is one dictionary per pair of draws, up to the shorter trace |
| MovingWindow.MovingWindowModel.PyMC3OutcomeComputed | sub_units/bayes_model_implementations/moving_window_model.py:409-531 | a computed fit has one sample per pair of draws; sample i, entry j is draw i's value of sorted name j, exponentiated iff logarithmic; log-probability i is the likelihood of that dictionary |
| MovingWindow.MovingWindowModel.ComputePyMC3Fit | sub_units/bayes_model_implementations/moving_window_model.py:409-531 | building the table, merging both traces draw by draw with the logarithmic keys exponentiated, and converting the draws gives the recomputed lists whose contents `PyMC3OutcomeComputed` states |
| MovingWindow.MovingWindowModel.RenderPyMC3Fit | sub_units/bayes_model_implementations/moving_window_model.py:394-541 | records whether the load succeeded, and stores the lists iff it returns normally; the statsmodels attributes are untouched |
| Reporting.ReportStats | sub_units/utils.py:384-471 | every statistic a strategy reports is one of the seven known ones |
| Reporting.ReportColumns | sub_units/utils.py:384-471 | a strategy's columns are `<long>_<stat>_with_priors`, one per reported statistic |
| Reporting.RenameColumns | sub_units/utils.py:487-493 | the loop keeps the number of columns and renames column i by the renaming rule |
| Reporting.RenameAlong | sub_units/utils.py:489-490 | replacing along a repeat-free list abbreviates a column's strategy iff the strategy is listed, and leaves the rest alone |
| Reporting.RenameTail | sub_units/utils.py:491 | after abbreviation `__` does not occur, and the final `_with_priors` is dropped |
| Reporting.RenameReportColumn | sub_units/utils.py:487-493 | every report column `<long>_<stat>_with_priors` becomes `<abbr>_<stat>`, e.g. `statsmodels_p50_with_priors` becomes `SM_p50` |
| Reporting.RenameKeyColumns | sub_units/utils.py:487-493 | the `state` and `param` columns keep their names |
| Reporting.WhiskerColumns | sub_units/utils.py:90-94 | the whisker plot reads `<abbr>_p5`, `_p25`, `_p50`, `_p75`, `_p95` |
| Reporting.WhiskerStatsReported | sub_units/utils.py:384-471 | every strategy reports all five percentiles |
| Reporting.WhiskerReadsRenamedColumns | sub_units/utils.py:90-94 | every column the whisker plot reads is the renamed report column of the same strategy and percentile |
| Reporting.BoxPositionsAt | sub_units/utils.py:116-119 | group `ind` gets exactly one box per state, state k at `1 + ind + k * (n_groups + 1)` |
| Reporting.BoxGroupsDisjoint | sub_units/utils.py:116-119 | boxes of two different groups never share a position |
| PlotBrowser.SlugChars | sub_units/utils.py:590 | the slug is as long as the name; spaces become `_`, other characters are lowered; no space and no upper case remains |
| PlotBrowser.SlugIdempotent | sub_units/utils.py:617 | the slug of a slug is itself |
| PlotBrowser.StatePageBySlug | sub_units/utils.py:670-671 | two states link to the same page iff they have the same slug |
| PlotBrowser.RemoveFirstAt | sub_units/utils.py:584 | `remove` cuts out the first occurrence, and fails iff there is none |
| PlotBrowser.LandingStatesOrder | sub_units/utils.py:583-585 | for distinct keys the list exists iff `total` is a key; it starts with `total`, the rest is sorted without `total`, and each key occurs exactly once |
| PlotBrowser.LandingOrder | sub_units/utils.py:583-585 | sorting, searching for `total`, cutting it out and putting it in front gives the landing list |
| Prediction.DataAtStartIsTotal | sub_units/utils.py:187-208 | `start_ind_data` is `len(data) - 1`; the cumulative value there exists iff there is data, and is the total of the series |
| Prediction.CumulativeForecastShape | sub_units/utils.py:197-211 | the forecast is `max(start, len)` long; zero before the start; from there on the total at the start plus the new values since the start |
| Prediction.ForecastMonotone | sub_units/utils.py:199-211 | with non-negative new values the forecast never falls below the total at the start and never decreases after it |
| Prediction.AssembleForecasts | sub_units/utils.py:197-214 | the loop appends each solution's new values and cumulative forecasts, in order |
| Prediction.Column | sub_units/utils.py:218-221 | the day's column exists iff every list reaches that day, entry i being list i's value there |
| Prediction.PredictionRows | sub_units/utils.py:216-256 | the loop over the days appends the row of each day, failing at the first day a list does not reach |
| Prediction.RowsCover | sub_units/utils.py:217-221 | with consistent lengths there is one row per day from the start to n, row j holding day `start + j` of every draw |
| Prediction.SimulatedDrawsAll | sub_units/utils.py:184-185 | the simulations exist iff every chosen sample simulates; simulation k is that of `params[chosen[k]]` |
| Prediction.SimulateDraws | sub_units/utils.py:184-185 | the loop calling `run_simulation` per chosen index yields the simulations of the chosen samples |
| Prediction.RowsFromDraws | sub_units/utils.py:187-256 | from the simulations, the cumulative totals at the start, the forecast loop and the day loop give the forecast rows |
| Prediction.PredictStrategy | sub_units/utils.py:181-256 | one strategy's rows are the forecast rows of the simulated chosen samples |
| Prediction.ForecastRowsCover | sub_units/utils.py:187-221 | one row per simulated day after the data; row j of draw i is the observed total plus the simulated new values from the start to `start + j`, for both series |
| Prediction.DrawnRowsCover | sub_units/utils.py:181-221 | as `ForecastRowsCover`, stated over the chosen samples and their simulations |
| Prediction.SimulationLength | sub_units/bayes_model_implementations/moving_window_model.py:63-123 | every simulation the model accepts is as long as its time grid |
| Prediction.PredictionLoopAsWritten | sub_units/utils.py:174-179 | with all strategies the loop as written fails at its first strategy (Hess); a strategy after SM reuses the SM samples |
| Prediction.PredictedStrategies | sub_units/utils.py:174-179 | a strategy is predicted iff it is run and has a sampler of its own (SM or PyMC3) |
| Prediction.PredictedStrategiesOwnSamples | sub_units/utils.py:174-179 | over those strategies the loop never fails, and each is predicted from its own samples |
| Prediction.PredictState | sub_units/utils.py:174-256 | the corrected loop over one model's strategies concatenates each strategy's rows, failing with the first that fails |

## Left out

- The statsmodels OLS fit and the PyMC3 MAP and NUTS sampling (moving_window_model.py:235-237, 281-283, 435-506) are foreign library calls. Their outputs are inputs of the model: `MovingWindow.Ols` and `MovingWindow.Sampler`.
- Random sampling is not modelled: `multivariate_normal.rvs` and both `np.random.choice` calls. The draws and chosen indices are parameters. `Prediction.IsDraw` states what `choice(..., replace=False)` may return.
- MovingWindow.MovingWindowModel.GetWeightedSamplesViaStatsmodels: the draws are one list per sample. For `n_samples == 1`, `rvs` returns a 1-D array, so the source indexes single numbers; this is not modelled.
- Floating point is not modelled. `exp` and `log` are function values, with `exp` known only to be positive.
- Statistics are not modelled: `np.average`, `np.std` and `np.percentile` in the state report and in the prediction rows. A prediction row keeps the per-draw values of its day instead of their statistics.
- Dates are not modelled: `min_sol_date`, `sol_date_range` and the `model_type_name` string.
- Caching and file output are not modelled: joblib load and dump, CSV output, and the plot-browser files. A PyMC3 cache load is the `loaded` parameter of `RenderPyMC3Fit`.
- MovingWindow.MovingWindowModel.RenderPyMC3Fit: a cache that holds the samples but not the log-probabilities is not modelled. `loaded` holds both lists or neither. In the source such a cache, when nothing is recomputed, sets `all_PyMC3_samples_as_list` (moving_window_model.py:540) before the UnboundLocalError at :541; the model leaves that field unchanged.
- Plotting, HTML building and `print` are output only: matplotlib, yattag, the `render_and_plot_cred_int` / `plot_all_solutions` calls, and the LaTeX table of the whisker plot.
- `run_everything` and `run_fits_simplified` are not modelled. They orchestrate model construction and fits over module-level state.
- The base class `BayesModel` is not part of this model. Only the interfaces of its methods are modelled: `convert_params_as_list_to_dict` is `ParamNames.VectorToDict` over `IndexMap(sorted_names)`, `convert_params_as_dict_to_list` is `ParamNames.DictToVector`, and `get_log_likelihood` is a parameter. Its other strategies (bootstrap, Hessian, random walk, likelihood samples) are also left out.
- MovingWindow.MovingWindowModel.LogLikelihoodPrecursor: the source converts the parameter vector to a dictionary (moving_window_model.py:144) and `run_simulation` converts the result again (moving_window_model.py:60). The model converts once. This agrees with the source only if the base class's `convert_params_as_list_to_dict` returns a dictionary unchanged.
- The positive-definiteness that `multivariate_normal` checks is not modelled. `Covariance.MakeMvn` checks dimensions only.
- In `generate_state_report`, `extra_params` callables are opaque. For PyMC3 one is applied twice (utils.py:366); this is not modelled.
- The trace-to-dictionary loops of `render_PyMC3_fit` (moving_window_model.py:467-474, 508-515) are part of the sampler input. The sampler yields one dictionary per draw.
- `get_weighted_samples_via_PyMC3` converts the stored samples with `convert_params_as_dict_to_list` again (moving_window_model.py:338), though they are already lists. The model keeps the stored lists as they are.
- PyText.LowerChar: `str.lower` is modelled for ASCII letters only. Python also lowers other letters (`'É'.lower()` is `'é'`), which the model keeps unchanged; `PlotBrowser.Slug` inherits this.
- MovingWindow.MovingWindowModel: the fitted names and the two name-mapping tables are computed once, as constants that `Valid()` ties to their definitions. The source rebuilds them in each method from the same inputs.
- Samples.DrawSamples: the loop applies the per-draw conversion as a function value. `Samples.SampleDraw` states the per-draw steps, with in-place exponentiation; the loop does not call it.
- MovingWindow.MovingWindowModel.Rows: both fits use the design rows clamped at day 0 (see Findings). For a series at least as long as the window these are the rows as written (`Regression.DesignRowsAsWritten`).
- Prediction.PredictState: modelled as corrected (see Findings), over the strategies that have a sampler. The loop as written is `Prediction.SamplesAsWritten`.
- Prediction.PredictState: the samples each strategy fetches are inputs (`sm`, `pymc3`). They are not tied to `GetWeightedSamplesViaStatsmodels` or `WeightedSamplesViaPyMC3`, so the AttributeError those raise for a model with no stored fit (utils.py:177, 179) does not end the modelled loop.

## Findings

| source | as written | input that shows it | evidently intended | confidence | as-written member | corrected member |
|---|---|---|---|---|---|---|
| sub_units/bayes_model_implementations/moving_window_model.py:218-224 | the design rows run over `range(len(data) - w, len(data))` and read the data with Python indexing, so a series shorter than the window wraps around to its end | 10 observations and `w = 14`: rows 0 and 10 both hold observation 6, labelled day 3 and day 6 | rows over the window clamped at day 0, each observation once, labelled with the residue of the simulated day it is compared against | not executed | Regression.ShortSeriesMislabelled | Regression.RowLabelMatchesSimulation |
| sub_units/utils.py:174-179 | the strategy loop assigns `params` only for SM and PyMC3; any other strategy uses whatever `params` holds | an unsimplified model runs `[Hess, BS, LS, MCMC, SM, PyMC3]`, so the first iteration reads an unbound `params`; the one caller in utils.py (line 553) builds its models with `[SM]` only, so the failure needs an unsimplified model passed in by some other caller | predict only the strategies that have a sampler, each from its own samples | not executed | Prediction.PredictionLoopAsWritten | Prediction.PredictedStrategiesOwnSamples |
