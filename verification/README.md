# KAN experiment bookkeeping and dashboard views, in Dafny

This project models two parts of the KAN experiment repository.

**Training bookkeeping.** `train_model` trains a model for a number of
epochs and keeps a rolling loss and an iteration counter. Every
`logging_freq` batches it records the rolling loss under `"train"` and
the mean evaluation loss of every other dataset.

**Dashboard views.** The dashboard reads stored results whose keys follow
the protocol `{model}_{metric}_{kind}`.

- Loss view: it groups the loss results by metric and draws one figure per
  metric, with one line per model.
- Prediction view: it groups the prediction results by model. From the
  "base" model it derives the number of tasks, the number of points and the
  y range. It then lays out a grid with one row per model and one column per
  task. Every per-task prediction goes in its cell, placed across the whole
  domain or across its own task.
- Colours cycle red, blue, green.

Modules:

- `Training` (`training.dfy`): the imperative run.
  - Class `TrainingRun` holds the rolling loss, the iteration counter and
    the result series. Its methods are proved against the specification
    functions `Rolling`, `TrainSeries`, `EvalSeries`, `Results` and `Run`.
  - Lemmas then state what those functions promise.
- `ResultKeys` (`result_keys.dfy`): the key protocol.
  - `EndsWith` is `str.endswith`.
  - `RSplit2` is the three-way unpacking of `rsplit("_", 2)`.
  - `JoinKey` writes a key from its parts.
- `Dicts` (`dicts.dfy`): Python dictionaries as insertion-ordered
  association lists. Insertion order decides the figure order, the row order
  and the colours.
- `ResultGroups` (`result_groups.dfy`): the two grouping loops, shared
  through `GroupWith`.
  - `GroupWith` takes a filing rule: skip the entry, raise, or store it
    under two keys.
  - `GroupEntries` is the loop itself.
- `LossGraphs` (`loss_graphs.dfy`): `create_loss_graphs`.
- `BaselineScan` (`baseline_scan.dfy`): the walk over the "base"
  predictions.
- `PredictionGraph` (`prediction_graph.dfy`): `create_1d_prediction_graph`,
  as its nested loops, and the `create_prediction_graph` dispatch.
- `PredictionFacts` (`prediction_facts.dfy`): what the prediction figure
  contains.
- `Colors` (`colors.dfy`): the `plotly_colors` cycle.
- `Arith` (`arith.dfy`) and `Wrappers` (`wrappers.dfy`): helpers.

Exceptions the code raises are modelled as `Err` values:

- `TrainError`: the missing `"train"` dataset, a zero logging frequency,
  and an evaluation dataset without batches.
- `ViewError`: a malformed key, a non-tensor loss, a missing "base" model,
  an empty baseline tensor, an incomplete baseline, and a prediction list
  shorter than the number of tasks.

The rolling loss is not a plain running mean. The update at iteration 1
uses the window `min(1, logging_freq) == 1`, so the first batch's loss is
discarded. Evaluation losses 4, 2, 3 therefore give the rolling losses
4, 2 and 2.5, where a plain running mean would give 4, 3 and 3
(`Training.WorkedExample`).

## Model

| member | source | states |
|---|---|---|
| Training.TrainingRun.constructor | utils/training.py:32-35 | every dataset name maps to an empty series; rolling loss and iteration start at 0 |
| Training.TrainingRun.EvaluateAll | utils/training.py:58-66 | succeeds iff every non-"train" dataset yields a batch, and then appends to each of those series the mean of its losses, leaving "train" alone |
| Training.TrainingRun.UpdateRollingLoss | utils/training.py:44-48 | the rolling loss becomes the first loss at iteration 0, else the mean weighted by the window `min(iteration, logging_freq)` |
| Training.TrainingRun.LogPoint | utils/training.py:55-66 | a logging point appends the rolling loss to "train" and then one mean to every evaluation series |
| Training.TrainingRun.TrainBatch | utils/training.py:43-66 | one batch: the rolling-loss update, the post-increment of the counter, and the logging only when the new count is a multiple of the frequency; it keeps the run invariant (rolling loss = `Rolling` of the losses seen, "train" = `TrainSeries`, every series holds `iteration / logging_freq` entries) |
| Training.TrainingRun.TrainStep | utils/training.py:38-66 | one batch against the whole run's evaluation passes: the result map equals `Results` of the losses seen so far, or some pass met an empty dataset |
| Training.TrainingRun.TrainEpoch | utils/training.py:38-66 | an epoch consumes its batches in order and keeps the result map equal to `Results`, or fails exactly when some pass in it meets an empty dataset |
| Training.TrainModel | utils/training.py:13-68 | the result is `Run`: KeyError without "train", division by zero when a batch meets `logging_freq == 0`, division by zero on an empty evaluation dataset, otherwise the full series map |
| Training.RunResult | utils/training.py:27-32 | a successful run has exactly the given dataset names as keys; with no batch consumed and zero frequency all series are empty; otherwise it is `Results` |
| Training.RollingFirstBatch | utils/training.py:44-45 | after the first batch the rolling loss is that batch's loss |
| Training.RollingSecondBatch | utils/training.py:46-48 | after the second batch the rolling loss is the second loss alone: the first is discarded |
| Training.RollingIsMeanAfterFirst | utils/training.py:44-53 | up to `logging_freq + 1` batches the rolling loss is the plain mean of every loss but the first |
| Training.MeanSnocStep | utils/training.py:46-48 | within the first window one update extends the plain mean by one value |
| Training.RollingBounds | utils/training.py:44-48 | the rolling loss stays between the least and the greatest loss seen |
| Training.StepBounds | utils/training.py:46-48 | one update is a weighted mean of the old value and the new loss |
| Training.RollingFreqOne | utils/training.py:47-48 | with `logging_freq == 1` the rolling loss is the latest loss |
| Training.TrainSeriesFreqOne | utils/training.py:44-56 | with `logging_freq == 1` the "train" series is exactly the per-batch evaluation losses |
| Training.TrainSeriesLength | utils/training.py:53-56 | "train" holds `batches / logging_freq` entries |
| Training.TrainSeriesPrefix | utils/training.py:55-56 | the "train" series only grows: the series of a prefix of the batches is a prefix of it |
| Training.TrainSeriesAt | utils/training.py:53-56 | the k-th "train" entry is the rolling loss after `(k + 1) * logging_freq` batches |
| Training.EvalSeriesLength | utils/training.py:55-66 | an evaluation series holds `batches / logging_freq` entries |
| Training.EvalSeriesPrefix | utils/training.py:55-66 | an evaluation series only grows with the number of batches |
| Training.EvalSeriesAt | utils/training.py:59-66 | the k-th evaluation entry is the mean loss of the pass made after `(k + 1) * logging_freq` batches, and that pass saw a batch |
| Training.ResultsLengths | utils/training.py:53-66 | every series of the result map has the same length, `batches / logging_freq` |
| Training.ResultsTrainEntry | utils/training.py:53-56 | the k-th "train" value of the map is the rolling loss at the k-th logging point |
| Training.ResultsEvalEntry | utils/training.py:58-66 | the k-th value of an evaluation dataset is the mean of the pass at the k-th logging point |
| Training.FlattenUniform | utils/training.py:37-38 | over equal epochs the iteration counter ends at `epochs * batches_per_epoch` |
| Training.SeriesLengthUniformEpochs | utils/training.py:37-66 | every series of a successful run over equal epochs has `epochs * batches / logging_freq` entries |
| Training.WorkedExample | utils/training.py:44-48 | losses 4, 2, 3 give rolling losses 4, 2, 2.5 |
| Training.WorkedExampleSeries | utils/training.py:44-56 | with `logging_freq == 3` those batches log the single "train" value 2.5 |
| Colors.Cycle | utils/dashboard.py:11-21 | the first `n` colours of the cycle, `n` of them |
| Colors.CycleAt | utils/dashboard.py:21 | the k-th value of a cycle is the palette entry at `k mod` its length |
| Colors.ColorAt | utils/dashboard.py:21 | the k-th colour is red, blue or green by `k mod 3` |
| Colors.ColorsAlternate | utils/dashboard.py:21 | neighbouring colours differ, and colours repeat every three |
| ResultKeys.RFind | utils/dashboard.py:45 | `rfind("_")` reports an underscore position before the bound |
| ResultKeys.RFindIsLast | utils/dashboard.py:45 | `rfind` finds nothing iff there is no underscore, and no underscore follows the one it finds |
| ResultKeys.RSplit2 | utils/dashboard.py:45 | the three parts, when the unpacking succeeds, join back into the key |
| ResultKeys.RSplit2Parts | utils/dashboard.py:45 | the metric and the kind read back hold no underscore |
| ResultKeys.RSplit2FailsIff | utils/dashboard.py:94 | the unpacking fails exactly for keys with fewer than two underscores |
| ResultKeys.JoinThenSplit | utils/dashboard.py:45 | a key written from parts whose metric and kind hold no underscore parses back to those parts |
| ResultKeys.LossKeyExample | utils/dashboard.py:45 | "mlp_train_loss" parses to model "mlp", metric "train", kind "loss" |
| ResultKeys.ShortKeyExample | utils/dashboard.py:45 | "fooloss" cannot be unpacked |
| ResultKeys.MetricWithUnderscoreMisparses | utils/dashboard.py:45 | a metric holding an underscore is split into the model name |
| Dicts.Find | utils/dashboard.py:47 | the first position of a key, absent iff the key is not in the dictionary |
| Dicts.Get | utils/dashboard.py:109 | a lookup succeeds iff the key is present |
| Dicts.Put | utils/dashboard.py:51 | storing under an existing key keeps the key order; a new key goes last; distinct keys stay distinct |
| Dicts.GetPut | utils/dashboard.py:51 | after storing, the stored key reads the new value and every other key its old one |
| Dicts.Put2 | utils/dashboard.py:47-51 | storing in a nested dictionary adds the first-level key last only when it is new |
| Dicts.GetPut2 | utils/dashboard.py:47-51 | after a nested store, `g[a][b]` reads the new value and every other pair its old one |
| Dicts.Distinct2Put2 | utils/dashboard.py:47-51 | a nested store keeps both levels free of repeated keys |
| ResultGroups.ClassifyFile | utils/dashboard.py:41-51 | an entry is stored under two keys iff it ends with the suffix, its key unpacks to them and, for losses, it is a tensor |
| ResultGroups.ClassifyRaise | utils/dashboard.py:41-50 | an entry raises iff it is selected and its key holds fewer than two underscores or, for losses, its value is not a tensor; the error names the key |
| ResultGroups.GroupEntries | utils/dashboard.py:37-51 | the grouping loop (also the one at utils/dashboard.py:88-99) computes `Group` |
| ResultGroups.GroupOkIff | utils/dashboard.py:39-51 | the loop completes iff no entry raises |
| ResultGroups.GroupErrorFirst | utils/dashboard.py:39-51 | the exception raised is that of the first entry that raises |
| ResultGroups.AddEntryGet2 | utils/dashboard.py:47-51 | one pass changes `g[a][b]` only for an entry stored under `a` and `b` |
| ResultGroups.GroupLookupNone | utils/dashboard.py:47-51 | `g[a][b]` is absent iff no entry is stored under `a` and `b` |
| ResultGroups.GroupLookup | utils/dashboard.py:51 | `g[a][b]` holds the value of the last entry stored under `a` and `b` |
| ResultGroups.AddEntryKeys | utils/dashboard.py:47-48 | one pass adds at most its own first-level key, without repeats |
| ResultGroups.GroupOuterKeys | utils/dashboard.py:47-48 | first-level keys never repeat, and a key is present iff some entry is stored under it |
| ResultGroups.GroupReachable | utils/dashboard.py:96-99 | every selected entry of a completed loop is found under its parsed keys |
| ResultGroups.LossGroupsHoldTensors | utils/dashboard.py:50-51 | the loss grouping holds tensors only |
| LossGraphs.BuildFigure | utils/dashboard.py:58-73 | the figure of one metric zips its models with the colour cycle |
| LossGraphs.DrawFigures | utils/dashboard.py:57-73 | one figure per metric, in grouping order |
| LossGraphs.CreateLossGraphs | utils/dashboard.py:25-75 | `create_loss_graphs` computes `LossGraphs`: the figures, or the exception of the grouping loop |
| LossGraphs.LossGraphsOkIff | utils/dashboard.py:39-51 | the loss view is built iff every key ending in "loss" holds two underscores and a tensor |
| LossGraphs.LossFigureMetricsDistinct | utils/dashboard.py:57-73 | no two figures share a metric |
| LossGraphs.LossFigureMetrics | utils/dashboard.py:39-73 | a metric gets a figure iff some loss key names it |
| LossGraphs.LossTraceColor | utils/dashboard.py:60 | the j-th line of every figure is red, blue, green by `j mod 3`, and neighbouring lines differ |
| LossGraphs.LossTraceValues | utils/dashboard.py:60-62 | every line draws a tensor: the value of the last loss entry for its model and metric |
| LossGraphs.LossEntryDrawn | utils/dashboard.py:39-73 | every loss entry of a built view is drawn, in its metric's figure, as its model's line |
| BaselineScan.Min | utils/dashboard.py:117 | `T.min` is an element no greater than any other |
| BaselineScan.Max | utils/dashboard.py:117 | `T.max` is an element no smaller than any other |
| BaselineScan.DeriveBaseline | utils/dashboard.py:105-120 | the walk over the baseline computes `BaselineOf` |
| BaselineScan.ScanErrorStays | utils/dashboard.py:109-117 | after an empty tensor raises, later entries change nothing |
| BaselineScan.ScanOkIff | utils/dashboard.py:109-117 | the walk completes iff no baseline tensor is empty |
| BaselineScan.ScanErrorFirst | utils/dashboard.py:109-117 | the walk raises on the first empty tensor, naming its metric |
| BaselineScan.ScanTasks | utils/dashboard.py:110-112 | the number of tasks is found iff some entry is a list, and is the length of the last list |
| BaselineScan.ScanPointsFound | utils/dashboard.py:113-117 | the point count and the range are found together, iff some entry is a tensor |
| BaselineScan.ScanPoints | utils/dashboard.py:113-117 | both come from the last tensor: its length and its min/max widened by 0.25 |
| BaselineScan.BaselineOkIff | utils/dashboard.py:109-120 | the baseline is derived iff the "base" results hold a list, a tensor and no empty tensor; otherwise the error is an empty tensor's or the incomplete-baseline assertion |
| BaselineScan.BaselineFromLast | utils/dashboard.py:109-120 | number of tasks = last list's length, point count = last tensor's length, range = its min - 0.25 and max + 0.25 |
| BaselineScan.BaselineRange | utils/dashboard.py:117 | the y range is at least 0.5 wide and holds the last tensor's values strictly inside |
| PredictionGraph.TaskSpanInDomain | utils/dashboard.py:156-159 | a prediction's x interval lies within `[0, num_tasks]` and covers its own task `[col, col + 1]`; a short prediction spans exactly its task |
| PredictionGraph.DrawBackgroundGrid | utils/dashboard.py:131-145 | one baseline tensor is drawn in every cell, row by row |
| PredictionGraph.DrawBackgrounds | utils/dashboard.py:128-145 | every baseline tensor, in insertion order, is drawn in every cell |
| PredictionGraph.DrawCell | utils/dashboard.py:151-173 | one cell's loop computes `CellTraces`, raising when a list is shorter than the column |
| PredictionGraph.DrawRow | utils/dashboard.py:150-173 | one row's loop computes `RowTraces` |
| PredictionGraph.DrawGrid | utils/dashboard.py:147-173 | the row loop computes `GridTraces`, each row in the colour the generator yields for it |
| PredictionGraph.Create1DPredictionGraph | utils/dashboard.py:78-175 | `create_1d_prediction_graph` computes `Prediction1D`: grouping, the "base" assertion, the baseline, then the grid |
| PredictionGraph.CreatePredictionGraph | utils/dashboard.py:195-199 | a 1-D experiment gets the 1-D figure or its exception; a 2-D experiment gets nothing |
| PredictionFacts.CellOkIff | utils/dashboard.py:151-161 | a cell is drawn iff every list-valued result reaches its column |
| PredictionFacts.CellSound | utils/dashboard.py:151-173 | every line of a cell is a list-valued result's tensor for that column, placed by the axis rule |
| PredictionFacts.CellComplete | utils/dashboard.py:151-173 | every list-valued result is drawn in the cell |
| PredictionFacts.RowOkIff | utils/dashboard.py:150-161 | a row is drawn iff every list-valued result has a tensor for every column |
| PredictionFacts.RowSound | utils/dashboard.py:150-173 | every line of a row sits in one of its columns and comes from a list-valued result |
| PredictionFacts.RowComplete | utils/dashboard.py:150-173 | every list-valued result is drawn in every column of the row |
| PredictionFacts.GridOkIff | utils/dashboard.py:147-161 | the grid is drawn iff every model's list-valued results cover every task |
| PredictionFacts.GridSound | utils/dashboard.py:147-173 | every prediction line sits in a cell, comes from the row's model and has the row's colour `red, blue, green` by row |
| PredictionFacts.GridComplete | utils/dashboard.py:147-173 | every list-valued result of every model is drawn in every column of its row, in its row's colour |
| PredictionFacts.BackgroundGridCells | utils/dashboard.py:131-145 | a baseline tensor is drawn in every cell of the grid |
| PredictionFacts.BackgroundGridOnly | utils/dashboard.py:131-145 | and nowhere else, always light blue across the whole domain |
| PredictionFacts.BackgroundsSound | utils/dashboard.py:128-145 | every faint line lies in the grid, is light blue across the whole domain and is one of the baseline tensors |
| PredictionFacts.BackgroundsComplete | utils/dashboard.py:128-145 | every baseline tensor is drawn in every cell |
| PredictionFacts.BackgroundsExact | utils/dashboard.py:128-145 | the faint lines are exactly the baseline tensors, each in every cell |
| PredictionFacts.Prediction1DOkIff | utils/dashboard.py:90-161 | the figure is built iff grouping completes, "base" exists, its baseline is complete, and every model's lists cover every task |
| PredictionFacts.Prediction1DInGrid | utils/dashboard.py:123-173 | the grid has at least one row; every line lies in a cell, its x interval stays within the domain and covers its own task, and its colour is light blue or a palette colour |

## Left out

- Torch is abstracted. This covers the network's forward pass, `loss.backward`, the optimiser step, `RMSE_loss` and `MSELoss`, and `DataLoader` batching. A training batch is represented only by its evaluation loss, a `real`. An evaluation pass is the list of its per-batch losses, given as a function of the iteration count and the dataset name.
- Floating point: every loss, mean and range is a `real`, with no IEEE rounding. The rolling loss starts at the integer 0 in the code; the model starts it at `0.0`.
- Training.TrainModel: `logging_freq` is a natural number, so negative frequencies are not modelled. Such a frequency would log at the same iterations as its absolute value. But `n = min(iteration, logging_freq)` at utils/training.py:47 would then be negative at every iteration from 1 on, so the update would divide by a negative window.
- Training.Run: the result is a Dafny `map`, which has no key order. The returned dict's keys follow the order of `datasets.keys()` (utils/training.py:32). Nothing in the training loop depends on that order.
- Training.TrainModel: the evaluation data loaders are a set of names. Their insertion order does not change any series, because each dataset appends only to its own list.
- Training.TrainModel: when an evaluation dataset is empty, the run ends with an error. The series appended before the division raises are not kept, because the caller never sees them.
- Tensors are one-dimensional sequences of reals. `squeeze`, shapes and 0-d tensors are not modelled. A stored value is either a tensor or a list of tensors.
- `T.linspace` coordinates are not modelled. A line keeps only the x interval its points are spread over, as chosen at utils/dashboard.py:156-159.
- Rendering is left out: plotly figures, titles, `capitalize`, legend names and groups, opacity, and axis tick settings.
- PredictionGraph.Create1DPredictionGraph and PredictionFacts.Prediction1DOkIff: `make_subplots` with zero columns is not rejected, because plotly's own validation is not part of this model. When the "base" lists are empty, the model builds a figure with no columns, where plotly would raise.
- `plot_2d_prediction_graph` is an empty stub, so the `function_2d` branch returns nothing (`Ok(None)`).
- The Streamlit layer is UI and I/O and is left out: `@st.cache_data` caching, `fetch_experiment_reader`, `write_data`, `write_config`, `page_function` and `main`. `ExperimentReader` is not part of this model; its `data` is given as an insertion-ordered list of key–value pairs.
- The experiment scripts, `experiments/02_non_uniform_function.py` and `experiments/05_multi_layer_multivariable.py`, are not part of this model. They cover dataset generation, `T.chunk` partitioning, `partition_2d_graph` and `run_experiment`.
- ResultKeys.MetricWithUnderscoreMisparses describes the behaviour of `rsplit`. Producers are expected not to put underscores in metric names; nothing here enforces that.
