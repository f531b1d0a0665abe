# Evaluation bookkeeping of a DenseNet image classifier, in Dafny

This project models the bookkeeping the classifier's utility module
(`densenet-img-cls/densenetimgcls/utils.py`) does around a network it does
not look inside:

- `Meter` (meter.dfy): the `AverageMeter` running-statistics accumulator.
  It is a class whose fields `val`, `avg`, `sum` and `count` are updated in
  place by `Reset` and `Update`. Values are exact `real`s. A ghost `history`
  records the `(value, weight)` pairs passed to `Update` since the last
  reset. The invariant `Valid()` ties `sum` and `count` to that history and
  keeps `avg == sum / count` once anything was recorded.
- `Evaluation` (evaluation.dfy): the `evaluate` pass with the network, the
  loss function and the device dispatch abstracted away. Each batch arrives
  as its top-1 predicted labels, its target labels and its loss value. The
  method `Evaluate` runs the source's loop over three fresh meters and the
  two growing label lists. It is proved to return exactly `Outcome`, a
  loop-free definition of the pass's result: an error, or a summary whose
  time average is the mean batch time and whose loss average is the summed
  batch losses over the number of inputs.
  Lemmas about `Outcome` state what the pass promises:
  - the error average is the fraction of mismatching positions between the
    returned lists, and lies in [0, 1];
  - the lists stay the same length;
  - the two ways the loop can raise are characterised exactly.
- `Checkpoint` (checkpoint.dfy): the early-stop value returned by
  `save_checkpoint`.

Inputs the source reads from its environment become parameters:
- the per-batch predictions, targets and loss that the network and
  `cross_entropy` produce (fields of `Evaluation.Batch`);
- the elapsed wall-clock time of each batch (`durations`).

The source raises an exception in two places. These are modelled as
`Err` results:
- An empty batch: the per-batch error divides by the batch size
  (utils.py:123). This gives `EmptyBatch(i)`.
- `print_freq == 0`: the logging test takes `batch_idx % print_freq`
  (utils.py:129). This gives `ZeroPrintFrequency`. It is raised on the first
  batch (index 0) when that batch is not empty; an empty first batch raises
  `EmptyBatch(0)` first.

`update` with `count + n == 0` also divides by zero (utils.py:34). Every
caller in the source passes a positive `n`, so this is a precondition of
`Update` rather than an error result. A prediction list of the same length
as the target list is also a precondition (`WellShaped`). The network emits
one top-1 prediction per input, so every real batch meets it.

## Model

| member | source | states |
|---|---|---|
| `Meter.AverageMeter.constructor` | densenet-img-cls/densenetimgcls/utils.py:21-22 | a new meter satisfies the invariant and has `val`, `avg`, `sum` and `count` all zero, with no recorded updates |
| `Meter.AverageMeter.Reset` | densenet-img-cls/densenetimgcls/utils.py:24-28 | after a reset all four fields are zero, the history is empty and the invariant holds |
| `Meter.AverageMeter.Update` | densenet-img-cls/densenetimgcls/utils.py:30-34 | requires the new count to be non-zero; afterwards `val == v`, `sum == old(sum) + v*n`, `count == old(count) + n`, `avg == sum / count`, the history has grown by `(v, n)` and the invariant is preserved |
| `Meter.AverageTimesCount` | densenet-img-cls/densenetimgcls/utils.py:34 | under the invariant, `avg * count == sum` whenever `count != 0`, and a zero count means a meter fresh from a reset |
| `Meter.UnitEntriesTotals` | densenet-img-cls/densenetimgcls/utils.py:30-33 | updates with the default weight `n = 1` make the weighted sum the plain sum of the values and the count the number of updates |
| `Meter.UnitUpdatesAverage` | densenet-img-cls/densenetimgcls/utils.py:24-34 | a meter whose history since the reset is `k` unit-weight updates has `count == k` and `avg` equal to the arithmetic mean of the values (zero when `k == 0`) |
| `Evaluation.Mismatches` | densenet-img-cls/densenetimgcls/utils.py:123 | the number of positions where prediction and target differ is at most the batch size |
| `Evaluation.MismatchesCountsIndices` | densenet-img-cls/densenetimgcls/utils.py:123 | the mismatch count equals the number of indices `i` with `pred[i] != target[i]` (reference definition as a set) |
| `Evaluation.MismatchesExtremes` | densenet-img-cls/densenetimgcls/utils.py:123 | zero mismatches exactly when predictions equal targets; as many mismatches as positions exactly when every prediction is wrong |
| `Evaluation.MismatchesConcat` | densenet-img-cls/densenetimgcls/utils.py:121-123 | mismatches of concatenated label lists are the sum of the mismatches of the parts |
| `Evaluation.Fraction` | densenet-img-cls/densenetimgcls/utils.py:123 | `m` out of `n` (with `m <= n`) is a real in [0, 1] that times `n` gives back `m` |
| `Evaluation.BatchError` | densenet-img-cls/densenetimgcls/utils.py:119-123 | the per-batch top-1 error lies in [0, 1], and times the batch size it gives the mismatch count |
| `Evaluation.BatchErrorZero` | densenet-img-cls/densenetimgcls/utils.py:123 | a batch has zero error exactly when every prediction is right |
| `Evaluation.TotalMismatchesBound` | densenet-img-cls/densenetimgcls/utils.py:119-123 | over any sequence of batches the misclassified inputs never outnumber the inputs |
| `Evaluation.ErrorRate` | densenet-img-cls/densenetimgcls/utils.py:123 | the fraction of all inputs misclassified lies in [0, 1] |
| `Evaluation.CollectedListsAgree` | densenet-img-cls/densenetimgcls/utils.py:121-123 | the concatenated target and prediction lists both have one entry per input, and their mismatch count is the sum of the per-batch mismatch counts |
| `Evaluation.ErrorEntriesTotals` | densenet-img-cls/densenetimgcls/utils.py:123 | feeding each batch's error weighted by its size makes the error meter's sum the total mismatch count and its count the total number of inputs |
| `Evaluation.LossEntriesTotals` | densenet-img-cls/densenetimgcls/utils.py:124 | feeding `loss / batch_size` weighted by `batch_size` makes the loss meter's sum the total loss and its count the total number of inputs |
| `Evaluation.ErrorMeterAverage` | densenet-img-cls/densenetimgcls/utils.py:101-123 | an error meter holding the pass's error history has the overall error rate as its average |
| `Evaluation.LossMeterAverage` | densenet-img-cls/densenetimgcls/utils.py:101-124 | a loss meter holding the pass's loss history has the total loss over the number of inputs as its average |
| `Evaluation.FirstEmpty` | densenet-img-cls/densenetimgcls/utils.py:110-123 | the index returned is that of the first empty batch: every earlier batch is non-empty, and the batch at the index is empty unless it is the end |
| `Evaluation.OutcomeEmptyBatch` | densenet-img-cls/densenetimgcls/utils.py:119-123 | a pass whose first empty batch is `i` fails with `EmptyBatch(i)`, as long as the print frequency was usable for the earlier batches |
| `Evaluation.OutcomeZeroPrintFrequency` | densenet-img-cls/densenetimgcls/utils.py:129 | with print frequency zero and a non-empty first batch, the pass fails on the logging test |
| `Evaluation.OutcomeSummary` | densenet-img-cls/densenetimgcls/utils.py:139 | a pass over non-empty batches with a usable print frequency returns the time mean, the summed batch losses over the number of inputs, the error rate and the concatenated lists |
| `Evaluation.OutcomeFailures` | densenet-img-cls/densenetimgcls/utils.py:110-129 | the pass succeeds exactly when no batch is empty and the print frequency is non-zero for a non-empty loader; an `EmptyBatch(i)` failure names the first empty batch; `ZeroPrintFrequency` arises exactly when the print frequency is zero and the first batch is not empty |
| `Evaluation.OutcomeErrorAverage` | densenet-img-cls/densenetimgcls/utils.py:119-139 | on success the returned target and prediction lists have equal length (the number of inputs); the error average is the fraction of positions where they differ, lies in [0, 1], and is zero exactly when the lists are equal |
| `Evaluation.RecordBatch` | densenet-img-cls/densenetimgcls/utils.py:123-126 | one batch updates the error meter with `(error, batch_size)`, the loss meter with `(loss / batch_size, batch_size)` and the time meter with `(duration, 1)`, keeping all three invariants |
| `Evaluation.Evaluate` | densenet-img-cls/densenetimgcls/utils.py:100-139 | the loop over the batches, with its three meters and its two growing lists, returns exactly `Outcome`: the summary, or the exception raised by an empty batch or a zero print frequency |
| `Checkpoint.EarlyStopIgnoresOtherInputs` | densenet-img-cls/densenetimgcls/utils.py:37-63 | the early-stop value `save_checkpoint` returns is the same for any two states with equal counters, whatever `is_best`, the save path and the other state entries |
| `Checkpoint.EarlyStopMonotone` | densenet-img-cls/densenetimgcls/utils.py:58-63 | once `save_checkpoint` returns true, a larger counter or a smaller patience never turns a stop into a continue |

## Left out

- The network forward pass, `model.eval()`, `torch.no_grad()`, `cross_entropy`, `topk` and CUDA dispatch (utils.py:105, 109-117, 120). They are framework calls. Their results enter the model as the predictions and loss carried by each `Batch`.
- `load_model` (utils.py:90-97). It reconstructs the network, reads a weights file and moves the network to a device. These are foreign library calls and file I/O, with no logic of their own.
- `get_transform` (utils.py:66-87). It is a fixed composition of library image transforms with no logic of its own.
- The logging set-up and every log line (utils.py:9-13, 43-49, 53-54, 60, 130-137), including which batches are logged. Only the failure of the `% print_freq` test is modelled. `is_test` only changes a log label, so it is left out.
- The file writes of `save_checkpoint`: the appends to `log.txt` and `torch.save` of the best weights (utils.py:41-57, 61-62). `SaveCheckpoint` models only its return value.
- Wall-clock time is not read. The time of each batch is a parameter (`durations`).
- Floating point. Meter values, errors and losses are exact `real`s. So the model does not capture IEEE rounding in `sum / count`, in the error division or in `loss / batch_size`.
- Evaluation.Evaluate: the loss value of each batch is an opaque input; what `cross_entropy` computes, and so what the extra division at utils.py:124 means, is not modelled.
- Meter.AverageMeter.Update: a zero new count is excluded by a precondition. Python would instead raise after `val`, `sum` and `count` were already changed (utils.py:31-34). That partial update is not modelled.
- Tensor shapes. A batch whose prediction and target lists differ in length is excluded by a precondition. At that point the source would broadcast or raise inside the framework.
