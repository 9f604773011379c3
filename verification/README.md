# Capsule network trainer, modelled in Dafny

This project models the core of `pytorch-capsule-networks`:

- **`CapsNetTrainer.train`** (trainer/trainer.py). The model covers:
  - the epoch loop with its training and test phases;
  - the batch loop, with its one-hot label encoding through `eye[labels]` and Python's negative indexing;
  - the running `correct`/`total`/`running_loss` counters and the accuracy;
  - the per-phase log records;
  - the ICLR2018 ramp of `lambda_` and `m`, which persists across epochs;
  - the exponential learning-rate decay and the count of optimiser steps;
  - the final per-class tally of the test loader and its percentage report.
- **`CapsuleNetwork`** (model/model.py):
  - the constructor's shape arithmetic: the primary-capsule count and the decoder's layer widths;
  - the winner-take-all masking of `forward`: select the class with the longest pose vector, zero the others, flatten, decode and reshape.

The network, the loss, autograd and Adam are one function parameter, `net: Call -> Output`. Given the stage, the batch index and the `lambda_`/`m` of a forward pass, it returns the score rows and the batch loss. An optimiser step is counted, not performed. A batch is its labels. Python's exceptions are values: `IndexError` for an out-of-range label, `UnboundLocalError` for the loop variable `i` or `accuracy` used before any batch bound it, and `ZeroDivisionError`.

Files (each is one module):

- `errors.dfy` (`Errors`): Option, Result and the Python errors.
- `tensor.dfy` (`Tensor`): argmax over rows, rows of `eye`, Python indexing, flatten and reshape.
- `model.dfy` (`CapsuleModel`): model/model.py.
- `schedule.dfy` (`Schedule`): the ramp and the learning-rate decay.
- `metrics.dfy` (`Metrics`): match counts, the per-class tally tables and the percentage report.
- `trainer.dfy` (`Trainer`): the `CapsNetTrainer` class. Its methods update its fields in place, as the Python object and the locals of `train` do.

Two behaviours of the code that a reader might not expect:

- The ramp is not clamped at 1.0 and 0.9. The code only stops adding once a value has reached its threshold, so a value can overshoot it by less than one increment. `Schedule.RampBounded` states that bound.
- The constructor's own code (model/model.py:8-29) checks none of its sizes. The only error it raises itself is the ZeroDivisionError of a zero `primary_dim`, at model/model.py:19. A negative grid size goes through `int()` unchecked. The layer constructors it calls are not part of this model (see "Left out").

## Model

| member | source | states |
|---|---|---|
| Tensor.ArgMax | trainer/trainer.py:96 | the index is in the row and no entry of the row exceeds the entry there |
| Tensor.ArgMaxRows | trainer/trainer.py:96 | one index per row; each is in its row and points at a largest score of that row |
| Tensor.ArgMaxOfStrictMax | trainer/trainer.py:97 | an entry strictly larger than all others is the argmax, whatever the tie-breaking |
| Tensor.WrapIndex | trainer/trainer.py:77 | Python indexing of an axis of length n: defined exactly for i in [-n, n); the slot is i, or i + n for negative i |
| Tensor.Wrapped | trainer/trainer.py:77 | for in-range labels: one slot per label, each a valid row index of `eye(n)` (below n) |
| Tensor.OneHot | trainer/trainer.py:77 | `eye[labels]` succeeds exactly when every label is in [-n, n); otherwise IndexError. Row b has width n, with 1 at the label's slot and 0 elsewhere |
| Tensor.OneHotRoundTrip | trainer/trainer.py:97 | argmax of the one-hot rows gives back each label's slot, hence each non-negative label unchanged |
| Tensor.FlattenLength | model/model.py:46 | flattening k rows of width w gives k * w values |
| Tensor.FlattenAt | model/model.py:46 | value d of row k lands at offset k * w + d |
| Tensor.Chunks | model/model.py:47 | splitting k * w values gives k rows of width w |
| Tensor.FlattenChunks | model/model.py:47 | flattening the chunks gives back the values |
| CapsuleModel.Trunc | model/model.py:19 | `int()` truncates toward zero, for both signs |
| CapsuleModel.PrimaryCapsCount | model/model.py:19 | the count fails exactly when `primary_dim` is 0, with ZeroDivisionError |
| CapsuleModel.PrimaryCapsIsQuotient | model/model.py:19 | for a non-negative grid, the truncated real expression equals the integer quotient of channels * H' * W' by 4 * primary_dim |
| CapsuleModel.Decoder | model/model.py:22-29 | three layers. The first takes out_dim * num_classes values, each layer's output width is the next one's input width, and the last gives one value per pixel, prod(img_shape) |
| CapsuleModel.Build | model/model.py:8-29 | construction fails exactly when `primary_dim` is 0. Otherwise it keeps every size it was given, and its capsule count is PrimaryCapsCount. The decoder's layers are out_dim * classes to out1, out1 to out2, and out2 to prod(img_shape) |
| CapsuleModel.NipsNetwork | trainer/trainer.py:28-32 | the NIPS2017 network always builds, whatever the images. It has 256 channels, primary_dim 8, out_dim 16 and kernel 9, with the given image shape, classes and routing iterations, and a decoder of widths 16·classes to 512, 512 to 1024, and 1024 to prod(img_shape) |
| CapsuleModel.MnistShapes | model/model.py:19-29 | the NIPS2017 network (256 channels, primary_dim 8, out_dim 16, kernel 9) on 1x28x28 images with 10 classes has 1152 primary capsules and decoder layers 160-512, 512-1024, 1024-784 |
| CapsuleModel.MaskRows | model/model.py:40-44 | `eye(n).index_select(0, idx)` for indices that are classes (each idx[b] < n): one row per index, of width n, with 1 at column idx[b] and 0 in every other column |
| CapsuleModel.ApplyMask | model/model.py:46 | `out * y` keeps the shape of `out`: as many samples, classes per sample and values per pose vector |
| CapsuleModel.Reshape | model/model.py:47 | `view(-1, *img_shape)` of prod(img_shape) values is a channels x height x width image |
| CapsuleModel.ReshapeRoundTrip | model/model.py:47 | the reshaped image, read channel by channel and row by row, gives back exactly the values it was made from |
| CapsuleModel.MaskedSample | model/model.py:44-46 | `out * y` keeps the selected class's pose vector and zeroes every other |
| CapsuleModel.Forward | model/model.py:31-49 | `forward` returns the norms it was given as `preds`, with one selected class, one decoder input and one reconstruction per sample. Each selected index is a class |
| CapsuleModel.ForwardSample | model/model.py:31-49 | for one sample: the decoder input is exactly the winning pose vector in its class's place with zeros elsewhere, and has the width of the decoder's first layer. The reconstruction is channels x height x width and holds the decoder output in order |
| CapsuleModel.ForwardContract | model/model.py:31-49 | `forward` returns the given norms as `preds`. The selected class is a maximiser of them. Every sample is decoded from its winning pose vector alone |
| Schedule.Delta | trainer/trainer.py:54-69 | the increment `2e-1 / steps` lies in (0, 0.2] when there are training batches. The value for no training batches is 0, and no batch ever uses it |
| Schedule.Advance | trainer/trainer.py:67-71 | a value that has reached its threshold (1 for `lambda_`, 0.9 for `m`) is left unchanged by a training batch |
| Schedule.RampAfter | trainer/trainer.py:54-71 | with a non-negative increment, neither value falls below its starting value (0.001 and 0.2) |
| Schedule.RampMonotone | trainer/trainer.py:67-71 | `lambda_` and `m` never decrease over the run |
| Schedule.RampBounded | trainer/trainer.py:67-71 | `lambda_` stays in [0.001, 1 + delta) and `m` in [0.2, 0.9 + delta) |
| Schedule.LambdaProgress | trainer/trainer.py:68-69 | after n training batches, `lambda_` lies between min(1, 0.001 + n·delta) and 0.001 + n·delta |
| Schedule.LineIsLinear | trainer/trainer.py:69 | adding delta n times to a base gives base + n·delta |
| Schedule.EpochIncrement | trainer/trainer.py:54-71 | the increments of one epoch's training batches add up to exactly 0.2: each value's unstopped line rises by 0.2 per epoch |
| Schedule.RampAlongLines | trainer/trainer.py:67-71 | each value lies between the smaller of its threshold and its unstopped line, and that line |
| Schedule.MarginProgress | trainer/trainer.py:70-71 | after n training batches, `m` lies between min(0.9, 0.2 + n·delta) and 0.2 + n·delta |
| Schedule.Pow | trainer/trainer.py:124 | the rate factor after e scheduler steps is positive whenever gamma is |
| Schedule.DecayShrinks | trainer/trainer.py:124 | with gamma in (0, 1), each scheduler step strictly shrinks the rate factor, which stays positive and at most 1 |
| Metrics.Matches | trainer/trainer.py:99 | `(predicted == labels).sum()` is at most the batch size |
| Metrics.AllMatch | trainer/trainer.py:99 | the count equals the batch size exactly when every prediction equals its label |
| Metrics.TotalsAfter | trainer/trainer.py:144-147 | `class_total` keeps one entry per class; each entry's growth is stated by TotalsAfterEntry |
| Metrics.CorrectAfter | trainer/trainer.py:143-146 | `class_correct` keeps one entry per class; each entry's growth is stated by CorrectAfterEntry |
| Metrics.TotalsAfterEntry | trainer/trainer.py:144-147 | each `class_total` entry grows by exactly the number of samples whose label reaches it; an entry no label reaches is unchanged |
| Metrics.CorrectAfterEntry | trainer/trainer.py:143-146 | each `class_correct` entry grows by exactly the number of its samples whose prediction equals the label |
| Metrics.TotalsAfterSum | trainer/trainer.py:147 | the class totals grow by one per sample |
| Metrics.TallyKeepsCorrectBelowTotal | trainer/trainer.py:143-147 | if no class has more correct samples than samples before a batch, none does after it |
| Metrics.Percent | trainer/trainer.py:150-151 | the printed percentage is 100 * correct / total truncated: p * total <= 100 * correct < (p + 1) * total, and at most 100 when correct <= total |
| Metrics.ClassPercentagesAsWritten | trainer/trainer.py:149-151 | the report as written fails with ZeroDivisionError exactly when some class has no test sample. Otherwise every class has its truncated percentage |
| Metrics.ClassPercentages | trainer/trainer.py:149-151 | the guarded report: a class has no percentage exactly when it has no test sample; every other class has its truncated percentage, at most 100 when correct <= total |
| Metrics.AsWrittenAgrees | trainer/trainer.py:149-151 | the report as written succeeds exactly when every class has a guarded percentage, and then prints exactly the guarded percentages |
| Metrics.AbsentClassDividesByZero | trainer/trainer.py:149-151 | two class-0 samples tally to totals [2, 0]: the report as written raises ZeroDivisionError, while the guarded one gives [50%, none] |
| Trainer.Ratio.Value | trainer/trainer.py:100 | `float(correct) / float(total)` lies in [0, 1] when correct <= total; it is 1 exactly when all matched and 0 exactly when none did |
| Trainer.ErrorRate | trainer/trainer.py:128 | `(1 - accuracy) * 100` lies in [0, 100]; it is 0 exactly when every sample matched and 100 exactly when none did |
| Trainer.DecodeLabels | trainer/trainer.py:77 | `eye[labels]` then `torch.max(labels, 1)` (line 97): succeeds exactly when every label is in [-n, n); otherwise IndexError. On success it yields each label's slot |
| Trainer.Predictions | trainer/trainer.py:96 | `torch.max(outputs, 1)`: one predicted class per sample (each a largest score, by Tensor.ArgMaxRows) |
| Trainer.LambdaArg | trainer/trainer.py:83-86 | the network receives a `lambda_` exactly when it is ICLR2018, and then it is the ramp's current `lambda_` |
| Trainer.PhaseCallLambda | trainer/trainer.py:67-84 | the `lambda_` a batch hands an ICLR2018 network is the ramp after every training batch of the run so far, this one included, and lies in [0.001, 1 + delta). A NIPS2017 network receives none |
| Trainer.Hits | trainer/trainer.py:96-99 | the hits among the first i samples are at most i |
| Trainer.BatchMatches | trainer/trainer.py:96-99 | a batch has at most as many hits as samples |
| Trainer.HitsAreMatches | trainer/trainer.py:96-99 | counting sample by sample the hits of a largest score on the label's slot equals `(predicted == labels).sum()` of the predictions against the decoded labels |
| Trainer.CountMatches | trainer/trainer.py:96-99 | computing predictions and then comparing them yields exactly BatchMatches of the batch |
| Trainer.Step | trainer/trainer.py:94-99 | one batch adds its size to `total`, between 0 and its size to `correct`, and its loss to `running_loss` |
| Trainer.PhaseCounters | trainer/trainer.py:64-99 | after k batches of a phase, no more samples are correct than were counted |
| Trainer.PhaseTotal | trainer/trainer.py:98 | after k batches of a phase, `total` is the number of samples in those batches |
| Trainer.PhaseRecord | trainer/trainer.py:106-122 | the record a phase logs carries that phase and epoch. Its loss and accuracy are those of the phase's counters; an empty loader logs a zero loss and the earlier accuracy |
| Trainer.EpochLog | trainer/trainer.py:56-122 | an epoch logs exactly two records |
| Trainer.EpochRecords | trainer/trainer.py:56-122 | in a run with training batches, the two records an epoch logs are EpochLog of that epoch, whatever `i` and the accuracy were before it |
| Trainer.RunLog | trainer/trainer.py:55-122 | a run of `epochs` epochs logs exactly 2 * epochs records |
| Trainer.RunLogOrder | trainer/trainer.py:55-122 | the run's log alternates a training and a test record, epoch by epoch from epoch 1: record k belongs to epoch k / 2 + 1 and is a training record exactly when k is even |
| Trainer.CapsNetTrainer.constructor | trainer/trainer.py:16-40 | a NIPS2017 trainer holds the network NipsNetwork builds. The learning rate is `learning_rate`, no step or log record yet |
| Trainer.CapsNetTrainer.AdvanceSchedule | trainer/trainer.py:67-71 | the ramp after one training batch is Advance of the ramp before |
| Trainer.CapsNetTrainer.CountBatch | trainer/trainer.py:94-100 | the counters grow by the batch's hits, size and loss. The accuracy becomes correct/total, and `i` becomes the batch index |
| Trainer.CapsNetTrainer.RunBatch | trainer/trainer.py:67-100 | the ramp advances on an ICLR2018 training batch, before the labels are encoded. The batch succeeds exactly when its labels are in range, and only then takes an optimiser step (training) and moves the counters by exactly one Step with the network's answer to this call |
| Trainer.CapsNetTrainer.RunBatches | trainer/trainer.py:66-100 | the loop succeeds exactly when every label of the loader is in range. The counters are then PhaseCounters of the whole loader, the ramp has seen every training batch, there is one optimiser step per training batch, and `i` is the last index |
| Trainer.CapsNetTrainer.RunPhase | trainer/trainer.py:58-122 | see below the table |
| Trainer.CapsNetTrainer.RunEpoch | trainer/trainer.py:56-124 | an epoch passes exactly when both loaders are in range and a batch index is bound. It then appends exactly two records: PhaseRecord of the training loader, then PhaseRecord of the test loader, which starts from the training phase's `i` and accuracy. It multiplies the rate by `lr_decay`, takes one optimiser step per training batch, and leaves the ramp after that epoch's training batches |
| Trainer.CapsNetTrainer.RunEpochOfRun | trainer/trainer.py:55-124 | epoch e of the loop, entered as the first e - 1 epochs left the trainer. It passes exactly as RunEpoch does. On a pass the log grows from RunLog of e - 1 epochs to RunLog of e epochs, the rate factor becomes lr_decay^e, and the ramp is ScheduleAt(e * steps) |
| Trainer.CapsNetTrainer.RunEpochs | trainer/trainer.py:55-124 | the loop passes exactly when there are no epochs, or the training loader is non-empty and both loaders are in range. The rate is then scaled by lr_decay^epochs, the ramp is ScheduleAt(epochs * steps), and the records the log gains are exactly RunLog(epochs). The accuracy is bound exactly when there was an epoch, and is the last record's |
| Trainer.CapsNetTrainer.Train | trainer/trainer.py:48-151 | see below the table |
| Trainer.CapsNetTrainer.FinalReport | trainer/trainer.py:127-151 | the end of the run succeeds exactly when every class has a test sample; otherwise ZeroDivisionError. On success it reports the accuracy the epochs left, the tables TallyTotals and TallyCorrect with the final `lambda_`, and the percentages that ClassPercentagesAsWritten prints |
| Trainer.Zeros | trainer/trainer.py:131-132 | `list(0. for _ in classes)`: one entry per class, each 0 |
| Trainer.TallyTotals | trainer/trainer.py:131-147 | `class_total` after k test batches has one entry per class; its sum is stated by TallyTotalsSum |
| Trainer.TallyCorrect | trainer/trainer.py:131-146 | `class_correct` after k test batches has one entry per class; its bound is stated by TallyCorrectBelowTotal |
| Trainer.TallyTotalsSum | trainer/trainer.py:131-147 | the final class totals add up to the number of test samples |
| Trainer.TallyCorrectBelowTotal | trainer/trainer.py:131-147 | no class ends the tally with more correct samples than samples |
| Trainer.TallyBatch | trainer/trainer.py:144-147 | the per-sample loop leaves the two tables at TotalsAfter and CorrectAfter of the whole batch |
| Trainer.TallyNext | trainer/trainer.py:133-147 | one test batch of the final tally takes the tables from TallyTotals and TallyCorrect of the batches before it to those of the batches up to it |
| Trainer.TallyTest | trainer/trainer.py:131-147 | two zeroed tables filled batch by batch from the test loader equal TallyTotals and TallyCorrect of the whole loader |

The two longest rows in full:

- **Trainer.CapsNetTrainer.RunPhase** (trainer/trainer.py:58-122). The phase passes exactly when every label is in range and some batch index is bound. An out-of-range label gives IndexError. An empty loader before any batch ran gives UnboundLocalError. A failed phase logs nothing. On a pass:
  - the counters are PhaseCounters of the loader;
  - exactly one record is appended, and it is PhaseRecord of the loader: mean loss `running_loss / (i + 1)` and accuracy correct/total;
  - with an empty loader, the record has the reset loss 0 over the previous `i + 1`, and carries the previous phase's accuracy;
  - `accuracy` is the appended record's.
- **Trainer.CapsNetTrainer.Train** (trainer/trainer.py:48-151). The run succeeds exactly when all of these hold:
  - there is at least one epoch;
  - the training loader is non-empty;
  - every label of both loaders is in range;
  - every class has a test sample (EveryClassTested).

  Otherwise it fails with UnboundLocalError (no epoch or an empty training loader), IndexError (a label out of range), or ZeroDivisionError (a class without test samples, at the report of lines 149-151). On success, and equally on the ZeroDivisionError, which comes only after every epoch has run:
  - the rate is scaled by lr_decay^epochs, with epochs * steps optimiser steps;
  - the ramp is where epochs * steps training batches left it;
  - the records the log gains are exactly RunLog(epochs);
  - `accuracy` is the accuracy of the last epoch's test record.

  On success only:
  - the reported accuracy is that accuracy, a ratio in [0, 1];
  - the class tables are TallyTotals and TallyCorrect of the test loader, with the final `lambda_`;
  - the percentages are those that ClassPercentagesAsWritten prints.

## Left out

- Floating point: losses, rates, `lambda_`/`m` and the ramp increment are exact reals. The accuracy and the mean loss are kept as their two operands, `Ratio` and `Mean`. `round(…, 2)` of the error rate is not modelled.
- The arithmetic of the convolutions, the routing layers, the decoder, the margin and reconstruction losses, and ReLU/Sigmoid. They sit behind the `net` parameter and the `decode` parameter of `CapsuleModel.Forward`. `torch.norm` is given as a relation (`IsNorm`) on the norms passed in.
- The ICLR2018 network (`CapsNet`): only its `lambda_` argument is modelled. Its structure is not part of this model.
- Autograd, `zero_grad`, `backward` and Adam's update. An optimiser step is counted in `optimizerSteps`. `ExponentialLR` is modelled as the rate multiplied by `lr_decay` once per epoch.
- These are left out as I/O or environment:
  - GPU placement and `DataParallel`;
  - `time()` and `datetime.now()`;
  - every `print`, including the per-batch progress line;
  - the loggers' transport, which is modelled as the list of records they receive;
  - `torch.save` and the checkpoint file name.
- Which maximiser `torch.max` returns among equal scores. `Tensor.ArgMaxRows` and `CapsuleModel.ForwardContract` state only that the index is a maximiser. The trainer's counts, however, are pinned to the first maximiser (`Tensor.ArgMax` keeps the earlier index on a tie). These are `Trainer.Hits`, `Trainer.PhaseCounters`, `Trainer.PhaseRecord`, `Trainer.RunLog` and `Trainer.TallyCorrect`, and through them Train's log, accuracy and `class_correct`. When scores tie, the program may count a hit the model does not: one sample with scores [1, 1] and label 1 scores no hit in the model.
- `.squeeze()` in the final tally (trainer/trainer.py:143). The model reads `c[i]` for every sample of every batch, a one-sample batch included. With the PyTorch versions whose `loss.data[0]` (trainer/trainer.py:94) the code is written for, indexing the squeezed result of a one-sample batch still gives its one element.
- The final tally on a test loader with out-of-range labels. Train only reaches the tally after the test phases have decoded every test label, so `TallyTest` requires the labels to be in range.
- NaN and infinite scores and losses.
- Trainer.Predictions: states only one prediction per sample. That each prediction is a largest score is stated by Tensor.ArgMaxRows, which it returns.
- CapsuleModel.PrimaryCapsCount: computes with exact reals, while Python divides floats. The two can truncate differently: for channels 29, primary_dim 100 and a 100 x 4 grid, Python's `int()` sees 28.999999999999996 and gives 28, where the model gives 29.
- CapsuleModel.Build: the layer constructors (`nn.Conv2d`, `PrimaryCapsules`, `RoutingCapsules` and `nn.Linear`, model/model.py:14-27) are not part of this model. Build therefore succeeds on sizes they would reject, such as a negative layer width or a kernel larger than the image. With a zero `primary_dim` it reports the ZeroDivisionError of model/model.py:19. `PrimaryCapsules`, constructed first at model/model.py:17, is not part of this model and may fail earlier with an error of its own.
- Trainer.BatchMatches: takes 0 for a batch whose score rows do not match its labels. No run reaches that case, because `NetFits` requires every answer of the network to have one row of `n` scores per sample.
- Trainer.CapsNetTrainer.Train: each loader is one fixed sequence of batches, replayed in the same order in every epoch (trainer/trainer.py:66) and in the final tally (trainer/trainer.py:133). A data loader that reshuffles yields a different order each time; that is not modelled.
- Trainer.CapsNetTrainer.Train: the score width `n` is `len(classes)` (trainer/trainer.py:50), a parameter here. It is not tied to the constructor's `num_classes` (trainer/trainer.py:16); the network must answer with rows of `n` scores.
- Trainer.CapsNetTrainer.Train: requires at least one class, a network answer of the right shape for every pass, and non-empty batches, since a data loader never yields an empty batch.

## Findings

| source | as written | input that shows it | evidently intended | confidence | as-written member | corrected member |
|---|---|---|---|---|---|---|
| trainer/trainer.py:149-151 | `100 * class_correct[i] / class_total[i]` for every class, unguarded | a test loader whose labels never name some class, e.g. two samples of class 0 with two classes: totals [2, 0] | a class without test samples is reported without a percentage instead of aborting the run with ZeroDivisionError after training and saving | high (not executed) | Metrics.ClassPercentagesAsWritten, Metrics.AbsentClassDividesByZero, Trainer.CapsNetTrainer.Train | Metrics.ClassPercentages, Metrics.AsWrittenAgrees |
