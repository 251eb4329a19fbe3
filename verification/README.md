# U-Net segmentation training script: verified model of its sequential core

The repository is a TensorFlow script (`main.py`) that trains a U-Net for
semantic segmentation of images. Almost all of it hands work to external
libraries: the dataset loader, the network, the reporter that plots figures
and saves images, and a TensorFlow session. This project models the two
parts that are self-contained and can be stated exactly:

- **`compute_class_accuracies`** (module `ClassAccuracy`, `class_accuracy.dfy`).
  It walks parallel prediction and label sequences and counts, per class,
  the positions where the two agree. The counts go into a list of
  `num_classes` floats that is updated index by index; the model uses a
  local array for it. The routine then turns the counts and a list `total`
  of per-class ground-truth counts into ratios, with 1.0 where a total is
  zero. As written, `total` is never filled in: the loop meant to fill it
  only prints. So the routine always returns the empty list (see Findings).
  The model keeps Python's list indexing exactly. A negative class value
  `v` at an agreeing position increments slot `v + num_classes`. The
  precondition `CountsSafely` holds exactly when no `IndexError` can occur.
  It requires the prediction to be at least as long as the label, and every
  agreeing class value to lie in `[-num_classes, num_classes)`.
- **The epoch schedule of `train`** (module `Training`, `training.dfy`). The
  loop runs `epochs` iterations. It evaluates every epoch, because
  `epoch % 1 == 0` always holds, and each evaluation adds one point to the
  accuracy figure and one to the loss figure. Sample images are saved on
  epochs with `epoch % 3 == 0`, with random sample indices drawn from
  `[0, 10)` and `[0, 100)`. Session results are a parameter `session`
  (epoch to the four evaluated values). A random draw is an arbitrary value
  in its range. The reporter and its figures are classes whose sequence
  fields the loop appends to.

The unfilled `total` does not make every per-class accuracy 1.0, as one
might expect from all-zero denominators. The ratio loop runs over `total`
itself, which is empty, so the result is the empty list. This model follows
the code, and `ComputeClassAccuracies` states that.

## Model

| member | source | states |
|---|---|---|
| `ClassAccuracy.CountAgreements` | main.py:23-26 | the count list has `num_classes` entries (none when it is not positive); entry c is the number of positions below `len(label)` where prediction and label agree on c, plus, through negative indexing, those agreeing on c - num_classes (just those agreeing on c when class values are indices); every entry is non-negative; the entries sum to the number of agreeing positions, at most `len(label)` |
| `ClassAccuracy.Tally` | main.py:23-26 | the count list after any number of loop iterations keeps its `num_classes` length |
| `ClassAccuracy.Agreements` | main.py:24-25 | the number of agreeing positions among the first k is at most k |
| `ClassAccuracy.Matches` | main.py:24-26 | the positions agreeing on one class are among all agreeing positions |
| `ClassAccuracy.TallyAt` | main.py:23-26 | after k iterations, slot c holds the agreements on class c and on class c - num_classes among the first k positions |
| `ClassAccuracy.TallySum` | main.py:23-26 | after k iterations the slots sum to the number of agreeing positions among the first k |
| `ClassAccuracy.NoNegativeMatches` | main.py:24-26 | when agreeing class values are indices, no agreement is counted for a negative class |
| `ClassAccuracy.Ratios` | main.py:28-36 | for any `total` (reading `count[i]` only where `total[i]` is non-zero): one entry per element of `total`, 1.0 where the total is zero, otherwise `count[i] / total[i]` |
| `ClassAccuracy.ComputeClassAccuracies` | main.py:16-38 | under the no-IndexError precondition, the routine as written returns the empty list for every input |
| `ClassAccuracy.CountOccurrences` | main.py:18-21 | the per-class ground-truth count that the class loop at lines 18-21 was meant to append to `total` (the intended half of the finding): the number of labels equal to the class, at most `len(label)` |
| `ClassAccuracy.ComputeClassAccuraciesCorrected` | main.py:16-38 | with `total` tallied: `num_classes` entries, entry c is correct-c over occurrences-of-c (1.0 for an absent class), each in [0, 1], and 1.0 exactly when every instance of c was predicted correctly |
| `ClassAccuracy.MatchesWithinOccurrences` | main.py:24-33 | a class is never predicted correctly more often than it occurs in the labels, so the intended ratios cannot exceed 1 |
| `ClassAccuracy.ClassRatioBounds` | main.py:28-36 | a ratio of hits to total with hits between 0 and total lies in [0, 1] and is 1.0 exactly when hits equal total, the zero-total case included |
| `ClassAccuracy.IntendedExample` | main.py:16-38 | for predictions [0, 1, 1], labels [0, 1, 0] and two classes the intended result is [0.5, 1.0] |
| `Training.Train` | main.py:48-128 | creates the "Accuracy" and "Loss" figures; after the loop each figure holds one point per epoch, taken from that epoch's evaluation; images are saved exactly on the epochs below `epochs` that are multiples of 3, in order, with training index below 10 and test index below 100, both within the data (which needs at least 10 training samples and 100 kept test samples once an epoch runs); each figure holds `epochs` points and there are (epochs + 2) / 3 saves (0 points and saves when `epochs` is not positive) |
| `Training.Figure.Add` | main.py:113-114 | adding a point appends it to the figure's series and changes nothing else |
| `Training.Reporter.constructor` | main.py:48 | a new reporter has recorded no image saves |
| `Training.Reporter.CreateFigure` | main.py:49-50 | a new figure has the given title and an empty series |
| `Training.Reporter.SaveImages` | main.py:128 | each save appends one record of the epoch and the two sample indices |
| `Training.CadenceMembers` | main.py:105-115 | an epoch is in a cadence exactly when it is in [0, epochs) and a multiple of the period |
| `Training.CadenceIncreasing` | main.py:95 | the epochs of a cadence come in strictly increasing order, so none repeats |
| `Training.EveryEpochEvaluated` | main.py:95-105 | with period 1, the evaluated epochs are exactly 0, 1, ..., epochs - 1 |
| `Training.SampleSaveCount` | main.py:115 | with period 3 there are (epochs + 2) / 3 save epochs |
| `Training.SeriesLength` | main.py:113-114 | a figure receives one point per evaluated epoch |
| `Training.SeriesAt` | main.py:113-114 | the k-th point of a figure comes from the evaluation of the k-th evaluated epoch |
| `Training.EpochsOfLength` | main.py:115-128 | each image save contributes exactly one epoch to the save schedule |
| `Training.ScheduleCounts` | main.py:95-128 | after n epochs each figure holds exactly n points, the k-th from epoch k, and a record of saves whose epochs follow the every-third-epoch schedule holds exactly (n + 2) / 3 saves |

## Left out

- Graph construction, the softmax cross-entropy loss, the Adam optimizer, `UPDATE_OPS` and the session and GPU configuration (main.py:56-84). These are floating-point tensor computations in a foreign library.
- The `accuracy` and `mean_accuracy` reductions (main.py:75-78). The model sees only the values the session returns for them, through the `session` parameter.
- The batches and optimizer steps of each epoch (main.py:96-102). The batch iterator lives in `util/loader`, which is not part of this model, and a step changes nothing the model observes.
- Dataset loading and `perm` (main.py:11-14, 43-45). `Train` takes the sizes of the full training set and of the kept test subset as parameters.
- The final evaluation after the loop (main.py:131-134). Its results are only printed.
- Figure plotting and image files (`util/repoter` is not part of this model). `Training.Figure.Add` records the point but not whatever `is_update=True` makes the reporter do. `Training.Reporter.SaveImages` records the epoch and the sample indices, not the images or the network outputs.
- Argument parsing (main.py:139-155), `print` calls and session shutdown.
- Training.Reporter.constructor: drops the `parser` argument of `rp.Reporter(parser=parser)` (main.py:48). What the reporter does with it lies in `util/repoter`, which is not part of this model.
- ClassAccuracy.CountAgreements: counts in exact `real` arithmetic. Python's float counts, incremented by 1.0, are exact only below 2^53, and that limit is not modelled.
- ClassAccuracy.Ratios: divides in exact `real` arithmetic. The rounding of Python's float division `count[i] / total[i]` is not modelled, so the stated ratios are the exact quotients.
- Training.Train: models a random draw as an arbitrary value in range, with no distribution. It assumes the loader's datasets hold at least 10 training samples and 100 kept test samples whenever an epoch runs, because below that a draw can raise an `IndexError`.
- ClassAccuracy.CountAgreements: class values are integers. Non-integer values, which `int()` would truncate when indexing, are not modelled.

## Findings

| source | as written | input that shows it | evidently intended | confidence | as-written member | corrected member |
|---|---|---|---|---|---|---|
| main.py:17-21 | `total` starts empty and the loop over the classes only prints, so the ratio loop at line 32 never runs and the routine returns `[]` | predictions [0, 1, 1], labels [0, 1, 0], 2 classes: returns [] | `total[c]` is the number of labels of class c, giving [0.5, 1.0], each entry in [0, 1] and 1.0 for a class absent from the labels | high; not executed | `ClassAccuracy.ComputeClassAccuracies` | `ClassAccuracy.ComputeClassAccuraciesCorrected` |
