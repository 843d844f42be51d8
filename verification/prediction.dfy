/** `predict`: the hypothesis applied to every record of the table. */
module Prediction {
  import opened Records
  import opened Hypothesis

  /** Every record has a label to drop, and its features fit the weights. */
  ghost predicate Predictable(data: Dataset, w: Weights)
  {
    forall i :: 0 <= i < |data| ==> 1 <= |data[i]| <= |w| + 1
  }

  /** `predict` as written: for each record in order, the label is popped off the
      local copy and the hypothesis is evaluated on the features that remain. One
      probability per record, in table order, each strictly between 0 and 1. */
  method Predict(data: Dataset, w: Weights, exp: real -> real) returns (predictions: seq<real>)
    requires Predictable(data, w)
    requires ExpPositive(exp)
    ensures |predictions| == |data|
    ensures forall i :: 0 <= i < |data| ==> predictions[i] == H(Split(data[i]).features, w, exp)
    ensures forall i :: 0 <= i < |predictions| ==> 0.0 < predictions[i] < 1.0
  {
    var d := data;
    predictions := [];
    var i := 0;
    while i < |d|
      invariant |d| == |data| && 0 <= i <= |data| && |predictions| == i
      invariant forall k :: i <= k < |data| ==> d[k] == data[k]
      invariant forall k :: 0 <= k < i ==> predictions[k] == H(Split(data[k]).features, w, exp)
    {
      var e := Split(d[i]);
      d := d[i := e.features];
      var p := Evaluate(d[i], w, exp);
      predictions := predictions + [p];
      i := i + 1;
    }
  }
}
