/** One epoch of mini-batch gradient steps (`fitOneEpoch`). */
module Training {
  import opened Records
  import opened Hypothesis
  import opened Batching

  /** Every record carries a label and, when there are weights at all, exactly one
      feature per weight: the update reads feature j of each record for every
      weight j, and the hypothesis reads one weight per feature. With no weights the
      update loop never runs and only the labels are taken off. */
  ghost predicate Shaped(data: Dataset, w: Weights)
  {
    forall i :: 0 <= i < |data| ==> |data[i]| >= 1 && (|w| > 0 ==> |data[i]| == |w| + 1)
  }

  /** Gradient component j over the `count` records from `start`:
      the sum of (y - h(x, w)) * x[j], accumulated in record order, every term
      evaluated at the same weights w. */
  function Gradient(data: Dataset, start: nat, count: nat, w: Weights, j: nat, exp: real -> real): real
    requires start + count <= |data|
    requires Shaped(data, w) && j < |w|
    requires ExpPositive(exp)
    decreases count
  {
    if count == 0 then 0.0
    else
      var e := Split(data[start + count - 1]);
      Gradient(data, start, count - 1, w, j, exp) + (e.passed - H(e.features, w, exp)) * e.features[j]
  }

  /** The step of one batch, taken from the snapshot w: every weight moves by the
      learning rate over the batch's record count times its gradient component. */
  function BatchStep(data: Dataset, bt: Batch, w: Weights, lr: real, exp: real -> real): (w': Weights)
    requires 1 <= bt.len && bt.start + bt.len <= |data|
    requires Shaped(data, w)
    requires ExpPositive(exp)
    ensures |w'| == |w|
  {
    seq(|w|, j requires 0 <= j < |w| => w[j] + (lr / (bt.len as real)) * Gradient(data, bt.start, bt.len, w, j, exp))
  }

  /** Component j of a batch step. */
  lemma BatchStepAt(data: Dataset, bt: Batch, w: Weights, lr: real, exp: real -> real, j: nat)
    requires 1 <= bt.len && bt.start + bt.len <= |data|
    requires Shaped(data, w) && j < |w|
    requires ExpPositive(exp)
    ensures BatchStep(data, bt, w, lr, exp)[j]
            == w[j] + (lr / (bt.len as real)) * Gradient(data, bt.start, bt.len, w, j, exp)
  {
  }

  /** The batches applied in order, each one's result the next one's snapshot. */
  function ApplyBatches(data: Dataset, bs: seq<Batch>, w: Weights, lr: real, exp: real -> real): (w': Weights)
    requires WithinTable(bs, |data|)
    requires Shaped(data, w)
    requires ExpPositive(exp)
    ensures |w'| == |w|
    decreases |bs|
  {
    if |bs| == 0 then w else ApplyBatches(data, bs[1..], BatchStep(data, bs[0], w, lr, exp), lr, exp)
  }

  /** One epoch: the batches of the table applied in order. It keeps the number of
      weights, and an empty table leaves the weights as they were. */
  function Epoch(data: Dataset, w: Weights, lr: real, b: nat, exp: real -> real): (w': Weights)
    requires Shaped(data, w)
    requires b >= 1 || |data| == 0
    requires ExpPositive(exp)
    ensures |w'| == |w|
    ensures |data| == 0 ==> w' == w
  {
    ApplyBatches(data, Batches(|data|, b), w, lr, exp)
  }

  /** Applying two runs of batches one after the other is applying their
      concatenation: the weights after the first run are the snapshot of the second. */
  lemma {:induction false} ApplyBatchesAppend(data: Dataset, bs1: seq<Batch>, bs2: seq<Batch>, w: Weights,
                                              lr: real, exp: real -> real)
    requires WithinTable(bs1, |data|) && WithinTable(bs2, |data|)
    requires Shaped(data, w)
    requires ExpPositive(exp)
    ensures WithinTable(bs1 + bs2, |data|)
    ensures ApplyBatches(data, bs1 + bs2, w, lr, exp)
            == ApplyBatches(data, bs2, ApplyBatches(data, bs1, w, lr, exp), lr, exp)
    decreases |bs1|
  {
    if |bs1| == 0 {
      assert bs1 + bs2 == bs2;
    } else {
      assert (bs1 + bs2)[1..] == bs1[1..] + bs2;
      ApplyBatchesAppend(data, bs1[1..], bs2, BatchStep(data, bs1[0], w, lr, exp), lr, exp);
    }
  }

  /** Applying the batches from `start` on is taking the batch at `start` and
      applying the batches after it to the result. */
  lemma ApplyBatchesFrom(data: Dataset, b: nat, start: nat, w: Weights, lr: real, exp: real -> real)
    requires b >= 1 && start < |data|
    requires Shaped(data, w)
    requires ExpPositive(exp)
    ensures ApplyBatches(data, BatchesFrom(|data|, b, start), w, lr, exp)
            == ApplyBatches(data, BatchesFrom(|data|, b, start + b),
                            BatchStep(data, Batch(start, Min(b, |data| - start)), w, lr, exp), lr, exp)
  {
    var bs := BatchesFrom(|data|, b, start);
    assert bs[0] == Batch(start, Min(b, |data| - start));
    assert bs[1..] == BatchesFrom(|data|, b, start + b);
  }

  /** When the batch size reaches the table size, the epoch is a single full-batch
      step whose divisor is the number of records. */
  lemma EpochFullBatch(data: Dataset, w: Weights, lr: real, b: nat, exp: real -> real)
    requires 1 <= |data| <= b
    requires Shaped(data, w)
    requires ExpPositive(exp)
    ensures Epoch(data, w, lr, b, exp) == BatchStep(data, Batch(0, |data|), w, lr, exp)
  {
    var bs := Batches(|data|, b);
    assert bs == [Batch(0, |data|)] + BatchesFrom(|data|, b, b);
    assert bs[1..] == [];
    var w' := BatchStep(data, Batch(0, |data|), w, lr, exp);
    assert ApplyBatches(data, bs, w, lr, exp) == ApplyBatches(data, [], w', lr, exp) == w';
  }

  /** Takes the label off every record of the batch at `start` in the local copy,
      as the first inner loop does: the labels, in order, and the copy with just
      those records shortened. */
  method PopLabels(d: Dataset, start: nat, batchSize: nat) returns (d': Dataset, y: seq<real>)
    requires start < |d|
    requires forall i :: start <= i < start + Min(batchSize, |d| - start) ==> |d[i]| >= 1
    ensures |d'| == |d| && |y| == Min(batchSize, |d| - start)
    ensures forall i :: 0 <= i < |y| ==>
              y[i] == Split(d[start + i]).passed && d'[start + i] == Split(d[start + i]).features
    ensures forall k :: 0 <= k < |d| && !(start <= k < start + |y|) ==> d'[k] == d[k]
  {
    d' := d;
    y := [];
    var i := 0;
    while i < batchSize
      invariant 0 <= i <= batchSize
      invariant |d'| == |d| && |y| == Min(i, |d| - start)
      invariant forall k :: 0 <= k < |y| ==>
                  y[k] == Split(d[start + k]).passed && d'[start + k] == Split(d[start + k]).features
      invariant forall k :: 0 <= k < |d| && !(start <= k < start + |y|) ==> d'[k] == d[k]
    {
      if i + start < |d| {
        assert |y| == i && d'[i + start] == d[i + start];
        var e := Split(d'[i + start]);
        y := y + [e.passed];
        d' := d'[i + start := e.features];
      }
      i := i + 1;
    }
  }

  /** After the labels of the batch at `start` are popped: y holds the batch's
      labels in order, and the local copy d holds the batch's features. */
  ghost predicate BatchView(data: Dataset, d: Dataset, y: seq<real>, start: nat)
  {
    && start + |y| <= |data| == |d|
    && forall i :: 0 <= i < |y| ==>
         |data[start + i]| >= 1
         && y[i] == Split(data[start + i]).passed && d[start + i] == Split(data[start + i]).features
  }

  /** The innermost loop for weight j: sums (y[i] - h(x_i, w)) * x_i[j] over the
      batch at `start` against the snapshot w, and leaves in `last` the position of
      the batch's last record, so that last + 1 is the batch's true length even for
      the shorter final batch. */
  method BatchGradient(ghost data: Dataset, d: Dataset, y: seq<real>, start: nat, batchSize: nat,
                       w: Weights, j: nat, exp: real -> real, lastIn: nat)
    returns (acc: real, last: nat)
    requires start < |data| == |d| && batchSize >= 1
    requires Shaped(data, w) && j < |w|
    requires ExpPositive(exp)
    requires |y| == Min(batchSize, |data| - start)
    requires BatchView(data, d, y, start)
    ensures last + 1 == Min(batchSize, |data| - start)
    ensures acc == Gradient(data, start, |y|, w, j, exp)
  {
    last := lastIn;
    acc := 0.0;
    var i := 0;
    while i < batchSize && i + start < |d|
      invariant 0 <= i <= |y|
      invariant acc == Gradient(data, start, i, w, j, exp)
      invariant i > 0 ==> last + 1 == i
    {
      assert i < |y|;
      assert y[i] == Split(data[start + i]).passed && d[start + i] == Split(data[start + i]).features;
      assert |data[start + i]| == |w| + 1;
      last := i;
      acc := acc + (y[i] - H(d[i + start], w, exp)) * d[i + start][j];
      i := i + 1;
    }
  }

  /** The loop over weight indices for one batch: the snapshot w is taken before
      it, and weight j moves by lr / (last + 1) times its gradient against that
      snapshot, never against the weights already moved. The result is the batch
      step of the batch's true length. */
  method UpdateWeights(ghost data: Dataset, d: Dataset, y: seq<real>, start: nat, batchSize: nat,
                       w0: Weights, lr: real, exp: real -> real, lastIn: nat)
    returns (w1: Weights, last: nat)
    requires start < |data| == |d| && batchSize >= 1
    requires Shaped(data, w0)
    requires ExpPositive(exp)
    requires |y| == Min(batchSize, |data| - start)
    requires BatchView(data, d, y, start)
    ensures w1 == BatchStep(data, Batch(start, |y|), w0, lr, exp)
  {
    var bt := Batch(start, |y|);
    ghost var target := BatchStep(data, bt, w0, lr, exp);
    last := lastIn;
    w1 := w0;
    var j := 0;
    while j < |w1|
      invariant 0 <= j <= |w1| == |w0| == |target|
      invariant forall k :: 0 <= k < j ==> w1[k] == target[k]
      invariant forall k :: j <= k < |w1| ==> w1[k] == w0[k]
    {
      var acc;
      acc, last := BatchGradient(data, d, y, start, batchSize, w0, j, exp, last);
      BatchStepAt(data, bt, w0, lr, exp, j);
      assert w0[j] + (lr / ((last + 1) as real)) * acc == target[j];
      w1 := w1[j := w1[j] + (lr / ((last + 1) as real)) * acc];
      j := j + 1;
    }
  }

  /** The body of the outer loop for the batch at `start`: the labels of the batch
      are popped off the local copy d, whose records from `start` on are still the
      table's, and the weights take the batch step of the batch's true length.
      Records past the batch stay untouched in d. */
  method RunBatch(data: Dataset, d: Dataset, start: nat, batchSize: nat, w0: Weights, lr: real,
                  exp: real -> real, lastIn: nat)
    returns (d': Dataset, w1: Weights, last: nat)
    requires start < |data| == |d| && batchSize >= 1
    requires Shaped(data, w0)
    requires ExpPositive(exp)
    requires forall k :: start <= k < |data| ==> d[k] == data[k]
    ensures |d'| == |data|
    ensures forall k :: start <= k < start + Min(batchSize, |data| - start) ==>
              d'[k] == Split(data[k]).features
    ensures forall k :: 0 <= k < start ==> d'[k] == d[k]
    ensures forall k :: start + batchSize <= k < |data| ==> d'[k] == data[k]
    ensures w1 == BatchStep(data, Batch(start, Min(batchSize, |data| - start)), w0, lr, exp)
  {
    var y;
    d', y := PopLabels(d, start, batchSize);
    forall i | 0 <= i < |y|
      ensures |data[start + i]| >= 1
      ensures y[i] == Split(data[start + i]).passed && d'[start + i] == Split(data[start + i]).features
    {
      assert y[i] == Split(d[start + i]).passed && d'[start + i] == Split(d[start + i]).features;
      assert d[start + i] == data[start + i];
    }
    assert BatchView(data, d', y, start);
    forall k | start <= k < start + Min(batchSize, |data| - start)
      ensures d'[k] == Split(data[k]).features
    {
      var i := k - start;
      assert 0 <= i < |y| && start + i == k;
      assert y[i] == Split(data[start + i]).passed;
    }
    w1, last := UpdateWeights(data, d', y, start, batchSize, w0, lr, exp, lastIn);
  }

  /** `fitOneEpoch` as written: the outer loop over batch starts 0, b, 2b, ...
      below n, each batch popping its labels off the local copy of the table and
      updating the weights from the batch-start snapshot. Its result is the epoch. */
  method FitOneEpoch(data: Dataset, w0: Weights, lr: real, batchSize: nat, exp: real -> real)
    returns (w1: Weights)
    requires Shaped(data, w0)
    requires batchSize >= 1 || |data| == 0
    requires ExpPositive(exp)
    ensures w1 == Epoch(data, w0, lr, batchSize, exp)
  {
    var d := data;
    var lastNumber: nat := 0;
    w1 := w0;
    var stCount: nat := 0;
    while stCount < |data|
      invariant batchSize >= 1 || stCount >= |data|
      invariant |d| == |data| && |w1| == |w0|
      invariant forall k :: stCount <= k < |data| ==> d[k] == data[k]
      invariant ApplyBatches(data, BatchesFrom(|data|, batchSize, stCount), w1, lr, exp)
                == Epoch(data, w0, lr, batchSize, exp)
      decreases |data| - stCount
    {
      ghost var w := w1;
      d, w1, lastNumber := RunBatch(data, d, stCount, batchSize, w1, lr, exp, lastNumber);
      ApplyBatchesFrom(data, batchSize, stCount, w, lr, exp);
      stCount := stCount + batchSize;
    }
  }
}
