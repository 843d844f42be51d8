/** The logistic hypothesis `h`: the sigmoid of a dot product. The exponential is a
    parameter of which only the facts below are known. */
module Hypothesis {
  import opened Records

  /** The one fact every use of the exponential needs: it is positive everywhere. */
  ghost predicate ExpPositive(exp: real -> real)
  {
    forall x :: exp(x) > 0.0
  }

  /** Positivity together with exp(0) == 1. */
  ghost predicate ExpAxioms(exp: real -> real)
  {
    ExpPositive(exp) && exp(0.0) == 1.0
  }

  /** The sum of f[k] * w[k] over k < |f|, accumulated left to right. Only as many
      weights as features are read, so the weights may be longer. */
  function Dot(f: seq<real>, w: Weights): real
    requires |f| <= |w|
    decreases |f|
  {
    if |f| == 0 then 0.0 else Dot(f[..|f| - 1], w) + f[|f| - 1] * w[|f| - 1]
  }

  /** 1 / (1 + exp(-z)) for z the dot product of features and weights: a
      probability strictly between 0 and 1, and exactly one half at z == 0. */
  function H(f: seq<real>, w: Weights, exp: real -> real): (p: real)
    requires |f| <= |w|
    requires ExpPositive(exp)
    ensures 0.0 < p < 1.0
    ensures exp(0.0) == 1.0 && Dot(f, w) == 0.0 ==> p == 0.5
  {
    var e := exp((-1.0) * Dot(f, w));
    assert e > 0.0;
    1.0 / (1.0 + e)
  }

  /** The hypothesis as the source computes it: a counting loop that accumulates the
      dot product, then the sigmoid. */
  method Evaluate(features: seq<real>, w: Weights, exp: real -> real) returns (p: real)
    requires |features| <= |w|
    requires ExpPositive(exp)
    ensures p == H(features, w, exp)
  {
    var z := 0.0;
    var counter := 0;
    while counter < |features|
      invariant 0 <= counter <= |features|
      invariant z == Dot(features[..counter], w)
    {
      assert features[..counter + 1][..counter] == features[..counter];
      z := z + features[counter] * w[counter];
      counter := counter + 1;
    }
    assert features[..|features|] == features;
    p := 1.0 / (1.0 + exp((-1.0) * z));
  }

  /** The dot product reads only the first |f| weights: weight vectors that agree
      there give the same value. */
  lemma {:induction false} DotAgree(f: seq<real>, w1: Weights, w2: Weights)
    requires |f| <= |w1| && |f| <= |w2|
    requires forall k :: 0 <= k < |f| ==> w1[k] == w2[k]
    ensures Dot(f, w1) == Dot(f, w2)
    decreases |f|
  {
    if |f| > 0 {
      DotAgree(f[..|f| - 1], w1, w2);
    }
  }

  /** With all weights zero the dot product vanishes, whatever the features. */
  lemma {:induction false} DotZeroWeights(f: seq<real>, w: Weights)
    requires |f| <= |w|
    requires forall k :: 0 <= k < |w| ==> w[k] == 0.0
    ensures Dot(f, w) == 0.0
    decreases |f|
  {
    if |f| > 0 {
      DotZeroWeights(f[..|f| - 1], w);
    }
  }

  /** Zero-initialised weights predict one half for every record. */
  lemma HalfAtZeroWeights(f: seq<real>, w: Weights, exp: real -> real)
    requires |f| <= |w|
    requires forall k :: 0 <= k < |w| ==> w[k] == 0.0
    requires ExpAxioms(exp)
    ensures H(f, w, exp) == 0.5
  {
    DotZeroWeights(f, w);
  }
}
