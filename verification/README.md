# Mini-batch logistic regression, modelled in Dafny

This project models the training and inference core of a small C++ program. The
program fits a binary logistic-regression classifier that maps student features
to pass/fail with mini-batch gradient descent. The modelled functions are these
five from `cpp/aphw1.cpp`:

- `h`: the sigmoid of the dot product of features and weights.
- `J`: the mean cross-entropy over a list of record positions.
- `fitOneEpoch`: one pass of mini-batch gradient steps over the table.
- `fit`: the epoch driver.
- `predict`: one probability per record.

Each record is a sequence of reals that ends in the 0/1 label. Every C++ function
takes the table by value, so its `pop_back` calls strip labels only from the
callee's own copy. The model is therefore pure. Where a loop pops labels, the
methods keep that local copy explicitly as `d`.

Doubles are modelled as `real`. `exp` and `log` are function-valued parameters.
All that is assumed of `exp` is that it is positive everywhere (`ExpPositive`),
and for the one-half facts also that `exp(0) == 1` (`ExpAxioms`). Nothing at all
is assumed of `log`.

Modules, in dependency order:

- `Records`: records, tables and weights, and the split of a record into features and label.
- `Hypothesis`: `Dot`, `H` and `Evaluate`. `Evaluate` is the source's counting loop.
- `Cost`: `Loss`, and `J` as written. The sum as written (`PoppingSum`) is set against a reference sum (`LossSum`).
- `Batching`: the batches one epoch visits, and the proof that they partition the table.
- `Training`: the functional epoch (`Gradient`, `BatchStep`, `ApplyBatches`, `Epoch`), and `FitOneEpoch`, the source's nested loops proved equal to it.
- `Driver`: `Iterate` (k epochs), `Fit` as written, and `FitCorrected`.
- `Prediction`: `Predict`.

Three behaviours of the code shape the contracts below:

- `fit` with `epochs == 1` runs two epochs, not one (see Findings).
- `J` applies `log` to the unclamped value of `h`: `Loss` is `-log(h)` or `-log(1 - h)` with nothing in between.
- `h` reads only `features.size()` weights, so it accepts a weight vector longer than the features (`Dot` and `H` require `|f| <= |w|`). `fitOneEpoch` reads feature `j` for every weight `j`, so it needs exactly one feature per weight whenever there are weights (`Training.Shaped`).

The code's `J` pops the record at each listed position on its local copy. If a
position is listed twice, the second visit therefore sees the record without
its label. It reads the former last feature as the label and scores a shorter
feature vector. `Cost.PoppingSum` models this. Its precondition `PopsFit` asks
each record to hold at least one element per listing, which is what `back()`
needs.

## Model

| member | source | states |
|---|---|---|
| Records.Split | cpp/aphw1.cpp:107-108 | the label is the record's last element and the features are all the others; putting the label back after the features restores the record |
| Hypothesis.H | cpp/aphw1.cpp:85-93 | h is a probability strictly between 0 and 1, and exactly one half when the dot product is 0 and exp(0) == 1 |
| Hypothesis.Evaluate | cpp/aphw1.cpp:85-93 | the source's accumulation loop over the features computes the hypothesis of the recursive dot product |
| Hypothesis.DotAgree | cpp/aphw1.cpp:89-90 | only the first features.size() weights are read: weight vectors that agree there give the same dot product |
| Hypothesis.HalfAtZeroWeights | cpp/aphw1.cpp:87-92 | zero weights predict one half for every feature vector |
| Cost.Loss | cpp/aphw1.cpp:111 | the loss is -log(h) for a passing record and -log(1 - h) for a failing one |
| Cost.PopsFitAfterVisit | cpp/aphw1.cpp:105-108 | after one visit pops a record on the local copy, the remaining positions still find a label to read |
| Cost.PoppingSumDistinct | cpp/aphw1.cpp:105-112 | with no position repeated, the source's popping sum equals the sum of the losses of the intact records |
| Cost.PoppingSumMeansLossSum | cpp/aphw1.cpp:102-112 | started on the table itself, the source's sum over distinct positions is the reference sum |
| Cost.LossSumPermutation | cpp/aphw1.cpp:105-112 | the reference loss sum depends only on the multiset of positions, not their order |
| Cost.J | cpp/aphw1.cpp:102-114 | J needs a non-empty list; over distinct positions it is the mean of the per-record losses |
| Cost.JOrderIndependent | cpp/aphw1.cpp:102-114 | any reordering of a list of distinct positions is again distinct and fits the table, and gives the same J |
| Batching.BatchesFrom | cpp/aphw1.cpp:129-140 | every batch visited is non-empty, at most batch_size long, starts no earlier than the loop's start and lies inside the table |
| Batching.BatchesShape | cpp/aphw1.cpp:129-140 | batches start at 0, b, 2b, ..., are consecutive, are full except the last, which holds min(b, n - start) records and ends at n; there are ceil(n / b) of them |
| Batching.FlattenBatchesFrom | cpp/aphw1.cpp:129-140 | read batch after batch, the batches from any start position list start .. n-1 each once and in order; from 0 (`BatchesPartition`) they partition the whole table |
| Batching.BatchOfRecord | cpp/aphw1.cpp:129-134 | record r lies in batch r / b and in no other batch |
| Training.Epoch | cpp/aphw1.cpp:123-155 | an epoch keeps the number of weights and returns the weights unchanged on an empty table |
| Training.ApplyBatchesAppend | cpp/aphw1.cpp:129-151 | batches are applied sequentially: the result of the earlier batches is the snapshot of the later ones |
| Training.EpochFullBatch | cpp/aphw1.cpp:129-150 | with batch_size >= n >= 1 the epoch is one full-batch step whose divisor is n |
| Training.PopLabels | cpp/aphw1.cpp:131-140 | the first inner loop collects the batch's labels in order and strips exactly the batch's records in the local copy |
| Training.BatchGradient | cpp/aphw1.cpp:144-149 | last_number + 1 equals the true batch length min(batch_size, n - StCount), also for the shorter final batch, and the sum is the gradient at the snapshot |
| Training.UpdateWeights | cpp/aphw1.cpp:141-151 | updating weight by weight, with every gradient taken against the snapshot w and not against the partly updated w0, gives the batch step |
| Training.RunBatch | cpp/aphw1.cpp:130-151 | one pass of the outer loop pops exactly the batch's labels, so the local copy holds the batch's features at the batch's positions, the records before the batch as they were and the records after it intact; it takes the batch step of min(batch_size, n - StCount) records |
| Training.FitOneEpoch | cpp/aphw1.cpp:123-155 | the source's nested loops compute the epoch: the batches of the partition applied in order |
| Driver.Iterate | cpp/aphw1.cpp:170-185 | threading the weights through k epochs keeps the number of weights and changes nothing on an empty table |
| Driver.IterateCompose | cpp/aphw1.cpp:170-185 | k1 epochs followed by k2 epochs are k1 + k2 epochs |
| Driver.Fit | cpp/aphw1.cpp:164-191 | fit runs exactly epochs epochs for epochs >= 2 and two for epochs == 1; reports the first epoch and the last, and when verbose each middle epoch under a label one lower than its count |
| Driver.FitCorrected | cpp/aphw1.cpp:164-191 | the intended driver runs exactly epochs epochs, epochs == 1 included, and labels every report with the epoch it shows |
| Driver.OneEpochRunsTwice | cpp/aphw1.cpp:170-185 | on a one-record table, two epochs do not give the one-epoch weights for any exponential with exp(0) == 1 |
| Prediction.Predict | cpp/aphw1.cpp:198-223 | one prediction per record, in table order, the i-th being h of record i without its label, each strictly between 0 and 1 |

## Findings

| source | as written | input that shows it | evidently intended | confidence | as-written member | corrected member |
|---|---|---|---|---|---|---|
| cpp/aphw1.cpp:170-185 | the first and last epochs always run and the middle loop runs while i < epochs - 1, so epochs == 1 runs two epochs | epochs = 1 on the table [[1, 1]] with w0 = [0], lr = 1, batch_size = 1: the result is the two-epoch weights, not [0.5] | exactly one epoch, reported both as first and as last | not executed; high | Driver.OneEpochRunsTwice | Driver.FitCorrected |
| cpp/aphw1.cpp:175-182 | the middle loop prints epoch i after the (i + 1)-th epoch | epochs = 3 with verbose: the first two cost lines both say epoch 1 | a line printed as epoch k shows the weights after epoch k | not executed; medium | Driver.Fit | Driver.FitCorrected |

## Left out

- `getData` (reading the table from a file) and `displayDataset` are I/O and are not modelled. All printing inside `fit` and `predict` is left out as well.
- Driver.Fit: its trace records each printed epoch number and the weights at which the cost is printed, but not the cost itself. With an empty table the source's J divides 0.0 by 0. In this model `Cost.J` requires a non-empty list.
- IEEE double rounding is not modelled. Neither is `h` saturating to exactly 0 or 1, nor `log(0)` or NaN. Doubles are reals, and `exp`/`log` are parameters constrained only by the facts listed above.
- A batch_size of 0 on a non-empty table never terminates (`StCount += 0`), so the epoch requires `batchSize >= 1` or an empty table. An `epochs` of 0 makes `epochs - 1` wrap around. `Fit` requires `epochs >= 1`.
- `size_t` counters are unbounded naturals. In `fitOneEpoch` no counter wraps. When `batch_size >= n`, the outer body runs once with `StCount == 0`, so `i + StCount == i < batch_size`, and `StCount` then becomes `batch_size` without wrapping. Otherwise `batch_size < n`, and both `i + StCount` and `StCount + batch_size` stay below `2n`.
- The default arguments (lr = 0.01, batch_size = 8, epochs = 10, verbose = false) are not modelled; every argument is passed explicitly.
- There is no claim that the cost decreases or that training converges. The code does not promise it, and it depends on floating-point numerics.
- Cost.JOrderIndependent: order-independence is proved only for lists without repeated positions. Repeated positions are modelled but not covered by the lemma.
