# EF_LSTM trainer bookkeeping, modelled in Dafny

This project models the control logic of the `EF_LSTM` trainer of a multimodal (text, audio,
vision) sentiment classifier. It does not model the network itself. It covers two parts.

- **`do_train`**: the unbounded epoch loop. Each epoch runs a training pass, then a
  validation pass and a test pass, and appends one result to each of the three histories.
  It then reads the key metric (`KeyEval`) from the validation result. It minimises that
  metric when it is `"Loss"` and maximises it otherwise, starting from the sentinel 1e8
  (minimise) or 0 (maximise). The comparison is non-strict, so a tie moves the best epoch
  forward. On improvement it records the best value, the best epoch and a parameter
  snapshot. It returns as soon as `epochs - best_epoch >= early_stop`.
- **`do_test`**: one pass over a split. It sums the per-batch losses and divides by the
  number of batches. It concatenates the outputs and labels in batch order and scores them
  with the metrics provider. The mean loss is written under `"Loss"`. In detail mode it
  also collects the sample ids, the per-sample argmax class, the labels and the four
  feature outputs, and merges each feature list into one array.

Files:

- `aggregation.dfy` (module `Aggregation`): concatenation along the leading axis, the loss
  sum, and `np.argmax`.
- `evaluation.dfy` (module `Evaluation`): batches, one pass (`PassScores`, `TrainPass`,
  `DoTest`) and the detail-mode lists.
- `early_stopping.dfy` (module `EarlyStopping`): the best-value / best-epoch fold `Track`
  over the validation key values, and the stop test.
- `training.dfy` (module `Training`): the run state `TrainingRun` with its per-epoch
  `Step`, and the loop `DoTrain`.

Three consequences of the code are worth stating outright; each is proved in the model.

- A minimised metric starts from the finite sentinel 1e8 (`EF_LSTM.py:31`), not from
  infinity. A loss above 1e8 therefore never counts as an improvement (`InitialBest`).
- The run lasts at least `early_stop + 1` epochs unless none of the first `early_stop`
  epochs beats the sentinel (`EF_LSTM.py:31-34`, `:75-84`). If none does and
  `early_stop >= 1`, the loop returns at epoch `early_stop` (`FirstStopLength`,
  `NeverImprovingStopsAtPatience`). With `early_stop <= 0`, the test at `EF_LSTM.py:83`
  holds at every epoch, so the loop returns after the first one (`ShouldStop`).
- The comparison at `EF_LSTM.py:75` is non-strict, so a tie counts as an improvement. A
  metric that is constant from the first epoch, at a value that beats the sentinel,
  therefore never triggers the stop, and the loop at `EF_LSTM.py:33-84` never returns (`ConstantMetricNeverStops`).

## Model

| member | source | states |
|---|---|---|
| `EarlyStopping.DirectionOf` | MM-Codes/trains/EF_LSTM.py:30 | the direction is Min exactly when the key metric is `"Loss"`, otherwise Max |
| `EarlyStopping.IsBetter` | MM-Codes/trains/EF_LSTM.py:75 | a tie, a strictly lower value (Min) or a strictly higher value (Max) counts as an improvement, and nothing else does |
| `EarlyStopping.InitialBest` | MM-Codes/trains/EF_LSTM.py:31 | the starting best value is 1e8 (Min) or 0 (Max), so the first epoch improves exactly when its loss is at most 1e8, or its metric is not negative |
| `EarlyStopping.Improve` | MM-Codes/trains/EF_LSTM.py:75-78 | on improvement the best value and the best epoch become the current ones, otherwise both are kept; either way the kept value is at least as good as both the old best and the current value |
| `EarlyStopping.Track` | MM-Codes/trains/EF_LSTM.py:24-78 | the best epoch never exceeds the number of epochs run (`0 <= best_epoch <= epochs`) |
| `EarlyStopping.Gap` | MM-Codes/trains/EF_LSTM.py:83 | `epochs - best_epoch` is at most the number of epochs run, and it is 0 exactly when the last epoch improved on the best value before it |
| `EarlyStopping.ShouldStop` | MM-Codes/trains/EF_LSTM.py:83 | the stop test cannot hold before `early_stop` epochs have run, and with `early_stop <= 0` it holds at every epoch |
| `EarlyStopping.TrackAppend` | MM-Codes/trains/EF_LSTM.py:75-78 | one more epoch is one more non-strict comparison: on improvement the best value and epoch become the current ones, otherwise both are unchanged |
| `EarlyStopping.TrackIsExtreme` | MM-Codes/trains/EF_LSTM.py:31-78 | Min: the best value is at most 1e8 and at most every value seen; Max: at least 0 and at least every value seen; it is the sentinel when the best epoch is 0, and otherwise the value of the best epoch |
| `EarlyStopping.TrackIsLastImprovement` | MM-Codes/trains/EF_LSTM.py:75-78 | every epoch after the best epoch is strictly worse than the best value, so the best epoch is the latest one that reached it |
| `EarlyStopping.TieMovesBestEpoch` | MM-Codes/trains/EF_LSTM.py:75-78 | a value equal to the current best moves the best epoch to the current (later) epoch |
| `EarlyStopping.TrackEpochMonotone` | MM-Codes/trains/EF_LSTM.py:77-78 | the best epoch never moves backwards |
| `EarlyStopping.GapStep` | MM-Codes/trains/EF_LSTM.py:83 | each epoch either resets `epochs - best_epoch` to 0 or grows it by exactly one |
| `EarlyStopping.NoStopExtends` | MM-Codes/trains/EF_LSTM.py:83-84 | a run in which no earlier epoch stopped, extended by an epoch that did not stop, still has no stop before its last epoch |
| `EarlyStopping.StopGapIsExact` | MM-Codes/trains/EF_LSTM.py:83-84 | with `early_stop >= 1`, at the first epoch that meets the stop test the gap is exactly `early_stop` |
| `EarlyStopping.BeatenSentinelMovesBestEpoch` | MM-Codes/trains/EF_LSTM.py:31-78 | once any epoch beats the sentinel, the best epoch is at least 1 from then on |
| `EarlyStopping.ImprovementDelaysStop` | MM-Codes/trains/EF_LSTM.py:31-84 | if any epoch run so far beats the sentinel, the stop test cannot hold before `early_stop + 1` epochs |
| `EarlyStopping.FirstStopLength` | MM-Codes/trains/EF_LSTM.py:31-84 | with `early_stop >= 1`, the loop returns after at least `early_stop` epochs, and after exactly `early_stop` epochs if and only if none of the first `early_stop` epochs beats the sentinel |
| `EarlyStopping.NoImprovementKeepsInitial` | MM-Codes/trains/EF_LSTM.py:31-78 | values that never beat the sentinel leave the best value at the sentinel and the best epoch at 0 |
| `EarlyStopping.NeverImprovingStopsAtPatience` | MM-Codes/trains/EF_LSTM.py:31-84 | if no epoch beats the sentinel, the loop returns after exactly `early_stop` epochs, with best epoch 0 |
| `EarlyStopping.ConstantMetricNeverStops` | MM-Codes/trains/EF_LSTM.py:33-84 | a constant metric that beats the sentinel improves by a tie at every epoch, so the stop test never holds |
| `EarlyStopping.ScenarioMinimiseLoss` | MM-Codes/trains/EF_LSTM.py:75-84 | minimising over [0.5, 0.6] with patience 1: best epoch 1, return after epoch 2 |
| `EarlyStopping.ScenarioMaximiseTie` | MM-Codes/trains/EF_LSTM.py:75-84 | maximising over [0.70, 0.70, 0.65] with patience 2: the tie moves the best epoch to 2, and the loop has not stopped after epoch 3 |
| `Aggregation.Flatten` | MM-Codes/trains/EF_LSTM.py:61 | the parts are joined in list order, as `torch.cat` does along the first axis (no contract of its own: `FlattenAppend` and `FlattenAt` state its properties) |
| `Aggregation.FlattenAppend` | MM-Codes/trains/EF_LSTM.py:109-115 | extending a list by a batch's part extends the concatenation by exactly that part |
| `Aggregation.FlattenAt` | MM-Codes/trains/EF_LSTM.py:123 | concatenation keeps batch order: element `j` of part `b` lands at the combined length of the parts before `b`, plus `j` |
| `Aggregation.Sum` | MM-Codes/trains/EF_LSTM.py:57 | the running `+=` over the batch losses, left to right (no contract of its own: `MeanLoss` and `LossKeyOverwrites` state what the sum becomes, and `TrainPass`/`DoTest` keep the running loss equal to the sum of the batches seen) |
| `Aggregation.ArgMax` | MM-Codes/trains/EF_LSTM.py:114 | the argmax is a valid column index, its entry is maximal in the row, and every earlier entry is strictly smaller (the first maximum) |
| `Aggregation.RowArgMax` | MM-Codes/trains/EF_LSTM.py:113-114 | one predicted class per row, each a valid column index of that row |
| `Evaluation.MeanLoss` | MM-Codes/trains/EF_LSTM.py:117-121 | the mean loss times the number of batches is the sum of the batch losses |
| `Evaluation.PassScores` | MM-Codes/trains/EF_LSTM.py:117-127 | a pass fails exactly when the split has no batches, and then with a division by zero |
| `Evaluation.Collect` | MM-Codes/trains/EF_LSTM.py:108-115 | one detail-mode batch extends the ids, the predicted classes and the labels, keeping what was there, by one entry per sample of the batch, and adds exactly one array to each feature list |
| `Evaluation.ListsOf` | MM-Codes/trains/EF_LSTM.py:90-115 | after a detail-mode pass over `bs`, each feature list holds exactly one array per batch |
| `Evaluation.Merge` | MM-Codes/trains/EF_LSTM.py:129-135 | the ids, predicted classes and labels are returned as collected; the merged feature arrays are stated by `DetailsShape` (N rows each) and `FeaturesInBatchOrder` (rows in batch order) |
| `Evaluation.PartsAppend` | MM-Codes/trains/EF_LSTM.py:117-120 | taking one more batch appends its loss, its outputs and its labels to the accumulated lists |
| `Evaluation.CollectNext` | MM-Codes/trains/EF_LSTM.py:108-115 | taking one more batch in detail mode extends the ids, the argmax classes and the labels by that batch's ones, and each feature list by its array |
| `Evaluation.TrainPass` | MM-Codes/trains/EF_LSTM.py:36-63 | the training pass yields the metrics of the concatenated outputs and labels, with `"Loss"` set to the mean batch loss; a split with no batches fails with a division by zero |
| `Evaluation.DoTest` | MM-Codes/trains/EF_LSTM.py:86-137 | the pass fails exactly when the split has no batches (division by zero); otherwise its scores are those of the same aggregation, and it returns details exactly in detail mode, each list concatenated in batch order |
| `Evaluation.LossKeyOverwrites` | MM-Codes/trains/EF_LSTM.py:121-127 | `"Loss"` times the batch count is the sum of the batch losses; it is added to, or overwrites, the provider's metrics; every other metric is kept |
| `Evaluation.SingleBatchMeanLoss` | MM-Codes/trains/EF_LSTM.py:117-121 | a one-batch split has exactly that batch's loss as its `"Loss"` |
| `Evaluation.LabelCount` | MM-Codes/trains/EF_LSTM.py:112 | the collected labels number the split's samples |
| `Evaluation.OffsetIsSampleCount` | MM-Codes/trains/EF_LSTM.py:108-115 | in any list collected one part per batch, batch `b`'s part starts after the samples of the batches before it |
| `Evaluation.PartAt` | MM-Codes/trains/EF_LSTM.py:108-115 | in any list collected one part per batch, element `j` of batch `b`'s part sits at the number of earlier samples plus `j` |
| `Evaluation.DetailsShape` | MM-Codes/trains/EF_LSTM.py:129-135 | for a split of N samples, `Ids`, `SResults` and `Labels` each have length N, and each merged feature array has N rows |
| `Evaluation.DetailsInBatchOrder` | MM-Codes/trains/EF_LSTM.py:108-115 | sample `j` of batch `b` is at position (samples before batch `b`) + `j` in `Ids`, `SResults` (as the argmax of its row) and `Labels` |
| `Evaluation.FeaturesInBatchOrder` | MM-Codes/trains/EF_LSTM.py:110-133 | feature row `j` of batch `b` is row (samples before batch `b`) + `j` of each merged feature array |
| `Evaluation.PredictionsAreClasses` | MM-Codes/trains/EF_LSTM.py:113-115 | every predicted class is in `[0, numClasses)` |
| `Training.KeyValues` | MM-Codes/trains/EF_LSTM.py:73 | one key-metric value per validation result, in epoch order |
| `Training.KeyValuesAppend` | MM-Codes/trains/EF_LSTM.py:70-73 | appending a validation result that holds the key appends its key value |
| `Training.AgreesAppend` | MM-Codes/trains/EF_LSTM.py:64-71 | appending one epoch's scores to the three histories keeps them in step with the epoch data |
| `Training.EpochPasses` | MM-Codes/trains/EF_LSTM.py:36-71 | an epoch's three passes succeed exactly when none of its three splits is empty; otherwise the first failure is a division by zero |
| `Training.EpochOutcome` | MM-Codes/trains/EF_LSTM.py:36-73 | an epoch succeeds exactly when its passes succeed and the validation result holds the key metric, and then its scores are those of the passes; any failure is a division by zero or the missing key metric |
| `Training.TrainingRun.constructor` | MM-Codes/trains/EF_LSTM.py:24-31 | the run starts with zero epochs, best epoch 0, empty histories, direction from the key metric, and best value 1e8 (Min) or 0 (Max) |
| `Training.TrainingRun.Step` | MM-Codes/trains/EF_LSTM.py:34-84 | one epoch: the counter increases by one; each history gets exactly one entry; on improvement the best value, best epoch and snapshot epoch become the current ones, otherwise all three are unchanged; `best_epoch <= epochs`; it answers Stop exactly when `epochs - best_epoch >= early_stop`; a validation result without the key metric is reported as a failure |
| `Training.RunEpoch` | MM-Codes/trains/EF_LSTM.py:36-71 | the training, validation and test passes of one epoch, or the error of the first empty split |
| `Training.DoTrain` | MM-Codes/trains/EF_LSTM.py:21-84 | the three histories have one entry per epoch run, each equal to that epoch's pass scores in epoch order; no earlier epoch met the stop test; the run returns at the first epoch that meets it, or fails with the first epoch error; the saved snapshot is that of the best epoch of the whole run, the last epoch whose key metric reached the best value |
| `Training.StoppedRunShape` | MM-Codes/trains/EF_LSTM.py:83-84 | on the early-stop return with `early_stop >= 1`, every history has length `epochs`, and `epochs == best_epoch + early_stop` |

## Left out

- The network, the optimizer (`optim.Adam`, `zero_grad`, `backward`, `step`), `nn.CrossEntropyLoss` and device placement are not modelled. Each batch carries the outputs and the loss they produced, so weights changing across epochs show up only as different per-epoch batch data.
- Floating point is not modelled: losses, logits and metrics are `real`. There is no rounding, no NaN, and no NaN handling in `np.argmax` or in the comparisons.
- The metrics provider is not modelled. `MetricsTop().getMetics` is a function parameter from (outputs, labels) to a name-to-value map.
- Checkpoint writing (`torch.save`, and moving the model to the host and back) is modelled only as the epoch whose parameters the snapshot holds: the ghost field `snapshotEpoch` of the run state, set on every improvement, and the `snapshotEpoch` of a run's outcome.
- Progress bars, `print` and `dict_to_str` are not modelled; they are console output only.
- `torch.no_grad()` and the `model.train()` / `model.eval()` switches are not modelled; they have no behaviour visible here.
- The `while True` loop has no epoch cap. `DoTrain` runs over a finite sequence of per-epoch data, and a run that uses up the sequence without stopping ends as `Exhausted`.
- Training.TrainingRun.Step: a missing `KeyEval` leaves the state unchanged. The source had already counted the epoch and appended its results when the `KeyError` was raised. The run aborts either way, and its partial history is lost.
- Training.DoTrain: a failed run also returns the history of the epochs completed before the failure. The source discards it, since the exception propagates.
- The detail entries (`Ids`, `SResults`, `Features`, `Labels`) are kept in a separate `Details` record, not in the result map. A provider metric with one of those names, which the source would overwrite, is not modelled.
- The two labels casts (`.view(-1).long()`) are not modelled: labels are given as integer sequences.
- Shape errors are not modelled: `torch.cat` or `np.concatenate` failing on mismatched column widths, and `np.argmax` on an output with zero columns. Evaluation.DoTest requires non-empty output rows in detail mode, and the detail lemmas assume every batch's tensors have one row per sample.
