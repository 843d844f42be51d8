/** The epoch driver `fit`: repeated epochs, threading the weights through, with a
    trace of the cost reports. */
module Driver {
  import opened Records
  import opened Hypothesis
  import opened Batching
  import opened Training

  /** The weights after k epochs from w0, each epoch starting from the previous
      epoch's result. */
  function Iterate(data: Dataset, w0: Weights, lr: real, b: nat, exp: real -> real, k: nat): (w: Weights)
    requires Shaped(data, w0)
    requires b >= 1 || |data| == 0
    requires ExpPositive(exp)
    ensures |w| == |w0|
    ensures |data| == 0 ==> w == w0
    decreases k
  {
    if k == 0 then w0 else Epoch(data, Iterate(data, w0, lr, b, exp, k - 1), lr, b, exp)
  }

  /** Running k1 epochs and then k2 more from the result is running k1 + k2. */
  lemma {:induction false} IterateCompose(data: Dataset, w0: Weights, lr: real, b: nat, exp: real -> real,
                                          k1: nat, k2: nat)
    requires Shaped(data, w0)
    requires b >= 1 || |data| == 0
    requires ExpPositive(exp)
    ensures Iterate(data, Iterate(data, w0, lr, b, exp, k1), lr, b, exp, k2) == Iterate(data, w0, lr, b, exp, k1 + k2)
    decreases k2
  {
    if k2 > 0 {
      IterateCompose(data, w0, lr, b, exp, k1, k2 - 1);
    }
  }

  /** One cost line: the epoch number printed and the weights at which the cost
      J over every record is evaluated for it. */
  datatype Report = Report(epoch: nat, weights: Weights)

  /** `fit` as written. The first and the last epoch are always run and reported;
      the middle loop runs for i = 1 while i < epochs - 1, reporting only when
      verbose. So every epochs >= 2 runs exactly `epochs` epochs, but epochs == 1 runs
      two, and a middle report printed as epoch i shows the weights after epoch
      i + 1. An epochs of 0 would wrap `epochs - 1` around and is not allowed. */
  method Fit(data: Dataset, w0: Weights, lr: real, epochs: nat, batchSize: nat, verbose: bool, exp: real -> real)
    returns (w: Weights, reports: seq<Report>)
    requires Shaped(data, w0)
    requires batchSize >= 1 || |data| == 0
    requires ExpPositive(exp)
    requires epochs >= 1
    ensures epochs >= 2 ==> w == Iterate(data, w0, lr, batchSize, exp, epochs)
    ensures epochs == 1 ==> w == Iterate(data, w0, lr, batchSize, exp, 2)
    ensures |reports| == if verbose && epochs > 2 then epochs else 2
    ensures reports[0] == Report(1, Iterate(data, w0, lr, batchSize, exp, 1))
    ensures reports[|reports| - 1] == Report(epochs, w)
    ensures forall k :: 1 <= k < |reports| - 1 ==>
              reports[k] == Report(k, Iterate(data, w0, lr, batchSize, exp, k + 1))
  {
    w := FitOneEpoch(data, w0, lr, batchSize, exp);
    reports := [Report(1, w)];
    var i := 1;
    while i < epochs - 1
      invariant 1 <= i && (epochs >= 2 ==> i <= epochs - 1) && (epochs < 2 ==> i == 1)
      invariant w == Iterate(data, w0, lr, batchSize, exp, i)
      invariant |reports| == if verbose then i else 1
      invariant reports[0] == Report(1, Iterate(data, w0, lr, batchSize, exp, 1))
      invariant forall k :: 1 <= k < |reports| ==> reports[k] == Report(k, Iterate(data, w0, lr, batchSize, exp, k + 1))
    {
      w := FitOneEpoch(data, w, lr, batchSize, exp);
      if verbose {
        reports := reports + [Report(i, w)];
      }
      i := i + 1;
    }
    w := FitOneEpoch(data, w, lr, batchSize, exp);
    reports := reports + [Report(epochs, w)];
  }

  /** `fit` as its reports say it behaves: exactly `epochs` epochs, epochs == 1
      included, with every report printed as epoch k showing the weights after
      epoch k; one epoch is still reported as both the first and the last. */
  method FitCorrected(data: Dataset, w0: Weights, lr: real, epochs: nat, batchSize: nat, verbose: bool,
                      exp: real -> real)
    returns (w: Weights, reports: seq<Report>)
    requires Shaped(data, w0)
    requires batchSize >= 1 || |data| == 0
    requires ExpPositive(exp)
    requires epochs >= 1
    ensures w == Iterate(data, w0, lr, batchSize, exp, epochs)
    ensures |reports| == if verbose && epochs > 2 then epochs else 2
    ensures reports[0] == Report(1, Iterate(data, w0, lr, batchSize, exp, 1))
    ensures reports[|reports| - 1] == Report(epochs, w)
    ensures forall k :: 1 <= k < |reports| - 1 ==>
              reports[k] == Report(k + 1, Iterate(data, w0, lr, batchSize, exp, k + 1))
  {
    w := FitOneEpoch(data, w0, lr, batchSize, exp);
    reports := [Report(1, w)];
    var e := 2;
    while e < epochs
      invariant 2 <= e && (epochs >= 2 ==> e <= epochs) && (epochs < 2 ==> e == 2)
      invariant w == Iterate(data, w0, lr, batchSize, exp, e - 1)
      invariant |reports| == if verbose then e - 1 else 1
      invariant reports[0] == Report(1, Iterate(data, w0, lr, batchSize, exp, 1))
      invariant forall k :: 1 <= k < |reports| ==> reports[k] == Report(k + 1, Iterate(data, w0, lr, batchSize, exp, k + 1))
    {
      w := FitOneEpoch(data, w, lr, batchSize, exp);
      if verbose {
        reports := reports + [Report(e, w)];
      }
      e := e + 1;
    }
    if epochs >= 2 {
      w := FitOneEpoch(data, w, lr, batchSize, exp);
    }
    reports := reports + [Report(epochs, w)];
  }

  /** A one-record table on which `fit` with epochs == 1 does not return the
      one-epoch weights: from zero weights one epoch gives [0.5] (the hypothesis is
      one half), and the second epoch the source also runs moves the weight further
      up, for every exponential with exp(0) == 1. */
  lemma OneEpochRunsTwice(exp: real -> real)
    requires ExpAxioms(exp)
    ensures Iterate([[1.0, 1.0]], [0.0], 1.0, 1, exp, 2) != Iterate([[1.0, 1.0]], [0.0], 1.0, 1, exp, 1)
  {
    var data: Dataset := [[1.0, 1.0]];
    var x := Split(data[0]);
    assert x.features == [1.0] && x.passed == 1.0;
    var w1 := Iterate(data, [0.0], 1.0, 1, exp, 1);
    EpochFullBatch(data, [0.0], 1.0, 1, exp);
    HalfAtZeroWeights(x.features, [0.0], exp);
    assert Gradient(data, 0, 1, [0.0], 0, exp) == 0.5;
    assert w1 == BatchStep(data, Batch(0, 1), [0.0], 1.0, exp);
    assert w1[0] == 0.5;
    var w2 := Iterate(data, [0.0], 1.0, 1, exp, 2);
    EpochFullBatch(data, w1, 1.0, 1, exp);
    var p := H(x.features, w1, exp);
    assert Gradient(data, 0, 1, w1, 0, exp) == 1.0 - p;
    assert w2 == BatchStep(data, Batch(0, 1), w1, 1.0, exp);
    assert w2[0] == 0.5 + (1.0 - p);
  }
}
