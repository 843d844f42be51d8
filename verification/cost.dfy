/** The cost `J`: mean cross-entropy over a list of record positions. */
module Cost {
  import opened Records
  import opened Hypothesis

  /** The cross-entropy of one example, -y*log(h) - (1-y)*log(1-h): the negative
      log of the probability the hypothesis gives the true outcome. */
  function Loss(e: Example, w: Weights, exp: real -> real, log: real -> real): (l: real)
    requires |e.features| <= |w|
    requires ExpPositive(exp)
    ensures e.passed == 1.0 ==> l == -log(H(e.features, w, exp))
    ensures e.passed == 0.0 ==> l == -log(1.0 - H(e.features, w, exp))
  {
    var p := H(e.features, w, exp);
    (-1.0) * e.passed * log(p) + (-1.0) * (1.0 - e.passed) * log(1.0 - p)
  }

  /** Every listed position is in the table, its record has one element for each
      time the position is listed (each visit pops one), and what is left after the
      first pop fits the weights. */
  ghost predicate PopsFit(data: Dataset, indices: seq<nat>, w: Weights)
  {
    forall i | i in indices :: i < |data| && multiset(indices)[i] <= |data[i]| <= |w| + 1
  }

  /** Every listed position is in the table and names a labelled record whose
      features fit the weights. */
  ghost predicate IndicesFit(data: Dataset, indices: seq<nat>, w: Weights)
  {
    forall i | i in indices :: i < |data| && 1 <= |data[i]| <= |w| + 1
  }

  /** No position is listed twice. */
  ghost predicate Distinct(indices: seq<nat>)
  {
    forall a, b :: 0 <= a < b < |indices| ==> indices[a] != indices[b]
  }

  /** Visiting the first position pops its record in the local copy; the rest of
      the list still fits that copy. */
  lemma PopsFitAfterVisit(data: Dataset, indices: seq<nat>, w: Weights)
    requires |indices| > 0
    requires PopsFit(data, indices, w)
    ensures indices[0] < |data| && |data[indices[0]]| >= 1
    ensures PopsFit(data[indices[0] := Split(data[indices[0]]).features], indices[1..], w)
  {
    var i := indices[0];
    assert indices == [i] + indices[1..];
    assert multiset(indices) == multiset{i} + multiset(indices[1..]);
    assert i in indices;
    var d := data[i := Split(data[i]).features];
    forall x | x in indices[1..]
      ensures x < |d| && multiset(indices[1..])[x] <= |d[x]| <= |w| + 1
    {
      assert x in indices;
    }
  }

  /** The running sum of the source loop over the positions, in list order. Each
      visit reads the label off the local copy of the record and pops it there, so a
      position listed again sees its record already shortened. */
  function PoppingSum(data: Dataset, indices: seq<nat>, w: Weights, exp: real -> real, log: real -> real): real
    requires PopsFit(data, indices, w)
    requires ExpPositive(exp)
    decreases |indices|
  {
    if |indices| == 0 then 0.0
    else
      PopsFitAfterVisit(data, indices, w);
      var i := indices[0];
      var e := Split(data[i]);
      Loss(e, w, exp, log) + PoppingSum(data[i := e.features], indices[1..], w, exp, log)
  }

  /** The reference sum: the loss of every listed record, each read intact. */
  function LossSum(data: Dataset, indices: seq<nat>, w: Weights, exp: real -> real, log: real -> real): real
    requires IndicesFit(data, indices, w)
    requires ExpPositive(exp)
    decreases |indices|
  {
    if |indices| == 0 then 0.0
    else
      assert indices[0] in indices;
      Loss(Split(data[indices[0]]), w, exp, log) + LossSum(data, indices[1..], w, exp, log)
  }

  /** With no position repeated, popping never touches a record that is read again:
      the source's sum is the reference sum. */
  lemma {:induction false} PoppingSumDistinct(local: Dataset, data: Dataset, indices: seq<nat>, w: Weights,
                                              exp: real -> real, log: real -> real)
    requires PopsFit(local, indices, w) && IndicesFit(data, indices, w)
    requires Distinct(indices)
    requires ExpPositive(exp)
    requires forall i | i in indices :: i < |local| && i < |data| && local[i] == data[i]
    ensures PoppingSum(local, indices, w, exp, log) == LossSum(data, indices, w, exp, log)
    decreases |indices|
  {
    if |indices| > 0 {
      PopsFitAfterVisit(local, indices, w);
      var i := indices[0];
      var local' := local[i := Split(local[i]).features];
      assert i in indices;
      forall x | x in indices[1..]
        ensures x < |local'| && x < |data| && local'[x] == data[x]
      {
        var k :| 0 <= k < |indices[1..]| && indices[1..][k] == x;
        assert indices[k + 1] == x;
        assert x in indices;
      }
      PoppingSumDistinct(local', data, indices[1..], w, exp, log);
    }
  }

  /** The reference sum over a concatenation is the sum of the parts. */
  lemma {:induction false} LossSumAppend(data: Dataset, s: seq<nat>, t: seq<nat>, w: Weights,
                                         exp: real -> real, log: real -> real)
    requires IndicesFit(data, s + t, w)
    requires ExpPositive(exp)
    ensures IndicesFit(data, s, w) && IndicesFit(data, t, w)
    ensures LossSum(data, s + t, w, exp, log) == LossSum(data, s, w, exp, log) + LossSum(data, t, w, exp, log)
    decreases |s|
  {
    forall i | i in s ensures i in s + t { }
    forall i | i in t ensures i in s + t { }
    if |s| > 0 {
      assert (s + t)[1..] == s[1..] + t;
      LossSumAppend(data, s[1..], t, w, exp, log);
    } else {
      assert s + t == t;
    }
  }

  /** Taking out the element at position p removes one copy of it from the multiset. */
  lemma RemoveAt(b: seq<nat>, p: nat)
    requires p < |b|
    ensures multiset(b) == multiset{b[p]} + multiset(b[..p] + b[p + 1..])
  {
    assert b == b[..p] + ([b[p]] + b[p + 1..]);
    assert multiset(b) == multiset(b[..p]) + multiset([b[p]] + b[p + 1..]);
  }

  /** Positions drawn from a list that fits still fit. */
  lemma IndicesFitSub(data: Dataset, a: seq<nat>, b: seq<nat>, w: Weights)
    requires IndicesFit(data, a, w)
    requires multiset(b) <= multiset(a)
    ensures IndicesFit(data, b, w)
  {
    forall i | i in b ensures i in a {
      assert i in multiset(b);
    }
  }

  /** Removing one copy of the same value from two equal multisets of positions
      leaves equal multisets. */
  lemma RemoveMatching(a: seq<nat>, b: seq<nat>, p: nat)
    requires |a| > 0 && p < |b| && b[p] == a[0]
    requires multiset(a) == multiset(b)
    ensures multiset(a[1..]) == multiset(b[..p] + b[p + 1..])
  {
    var rest := b[..p] + b[p + 1..];
    RemoveAt(b, p);
    RemoveAt(a, 0);
    assert a[..0] + a[1..] == a[1..];
    forall y ensures multiset(a[1..])[y] == multiset(rest)[y] {
      assert (multiset{a[0]} + multiset(a[1..]))[y] == (multiset{a[0]} + multiset(rest))[y];
    }
  }

  /** The reference sum with one position taken out of the middle. */
  lemma LossSumRemoveAt(data: Dataset, b: seq<nat>, p: nat, w: Weights, exp: real -> real, log: real -> real)
    requires p < |b|
    requires IndicesFit(data, b, w)
    requires ExpPositive(exp)
    ensures b[p] < |data| && |data[b[p]]| >= 1
    ensures IndicesFit(data, b[..p] + b[p + 1..], w)
    ensures LossSum(data, b, w, exp, log)
            == Loss(Split(data[b[p]]), w, exp, log) + LossSum(data, b[..p] + b[p + 1..], w, exp, log)
  {
    assert b[p] in b;
    assert b == b[..p] + ([b[p]] + b[p + 1..]);
    LossSumAppend(data, b[..p], [b[p]] + b[p + 1..], w, exp, log);
    assert ([b[p]] + b[p + 1..])[1..] == b[p + 1..];
    RemoveAt(b, p);
    IndicesFitSub(data, b, b[..p] + b[p + 1..], w);
    LossSumAppend(data, b[..p], b[p + 1..], w, exp, log);
  }

  /** The reference sum does not depend on the order of the positions. */
  lemma {:induction false} LossSumPermutation(data: Dataset, a: seq<nat>, b: seq<nat>, w: Weights,
                                              exp: real -> real, log: real -> real)
    requires IndicesFit(data, a, w)
    requires multiset(a) == multiset(b)
    requires ExpPositive(exp)
    ensures IndicesFit(data, b, w)
    ensures LossSum(data, a, w, exp, log) == LossSum(data, b, w, exp, log)
    decreases |a|
  {
    IndicesFitSub(data, a, b, w);
    if |a| == 0 {
      assert |b| == |multiset(b)| == 0;
    } else {
      assert a[0] in multiset(b);
      var p :| 0 <= p < |b| && b[p] == a[0];
      RemoveMatching(a, b, p);
      LossSumRemoveAt(data, b, p, w, exp, log);
      LossSumRemoveAt(data, a, 0, w, exp, log);
      assert a[..0] + a[1..] == a[1..];
      LossSumPermutation(data, a[1..], b[..p] + b[p + 1..], w, exp, log);
    }
  }

  /** The mean cross-entropy the source reports: the popping sum divided by the
      number of listed positions, which must be non-zero. Over distinct positions it
      is the mean of the reference losses. */
  function J(data: Dataset, indices: seq<nat>, w: Weights, exp: real -> real, log: real -> real): (j: real)
    requires |indices| > 0
    requires PopsFit(data, indices, w)
    requires ExpPositive(exp)
    ensures Distinct(indices) ==>
              IndicesFit(data, indices, w) && j == LossSum(data, indices, w, exp, log) / (|indices| as real)
  {
    PoppingSumMeansLossSum(data, indices, w, exp, log);
    PoppingSum(data, indices, w, exp, log) / (|indices| as real)
  }

  /** Over distinct positions the source's sum, started on the table itself, is the
      reference sum. */
  lemma PoppingSumMeansLossSum(data: Dataset, indices: seq<nat>, w: Weights, exp: real -> real, log: real -> real)
    requires PopsFit(data, indices, w)
    requires ExpPositive(exp)
    ensures Distinct(indices) ==>
              IndicesFit(data, indices, w) && PoppingSum(data, indices, w, exp, log) == LossSum(data, indices, w, exp, log)
  {
    if Distinct(indices) {
      forall i | i in indices ensures 1 <= |data[i]| {
        assert i in multiset(indices);
      }
      PoppingSumDistinct(data, data, indices, w, exp, log);
    }
  }

  /** A list has no repeated position exactly when no position occurs in it more
      than once as a multiset. */
  lemma {:induction false} DistinctCount(s: seq<nat>)
    ensures Distinct(s) <==> forall x :: multiset(s)[x] <= 1
    decreases |s|
  {
    if |s| > 0 {
      DistinctCount(s[1..]);
      assert s == [s[0]] + s[1..];
      assert multiset(s) == multiset{s[0]} + multiset(s[1..]);
      if Distinct(s) {
        forall a, b | 0 <= a < b < |s[1..]| ensures s[1..][a] != s[1..][b] {
          assert s[a + 1] != s[b + 1];
        }
        forall k | 0 <= k < |s[1..]| ensures s[1..][k] != s[0] {
          assert s[k + 1] != s[0];
        }
      }
      if forall x :: multiset(s)[x] <= 1 {
        assert multiset(s)[s[0]] == 1 + multiset(s[1..])[s[0]];
        forall x ensures multiset(s[1..])[x] <= 1 {
          assert multiset(s)[x] >= multiset(s[1..])[x];
        }
        forall a, b | 0 <= a < b < |s| ensures s[a] != s[b] {
          if a == 0 {
            assert s[b] == s[1..][b - 1];
            assert s[b] in s[1..];
          } else {
            assert s[a] == s[1..][a - 1] && s[b] == s[1..][b - 1];
          }
        }
      }
    }
  }

  /** Reordering a list of distinct positions leaves the cost unchanged. */
  lemma JOrderIndependent(data: Dataset, a: seq<nat>, b: seq<nat>, w: Weights,
                          exp: real -> real, log: real -> real)
    requires |a| > 0
    requires PopsFit(data, a, w) && Distinct(a)
    requires multiset(a) == multiset(b)
    requires ExpPositive(exp)
    ensures |b| > 0 && PopsFit(data, b, w) && Distinct(b)
    ensures J(data, a, w, exp, log) == J(data, b, w, exp, log)
  {
    DistinctCount(a);
    DistinctCount(b);
    assert |a| == |multiset(a)| == |multiset(b)| == |b|;
    forall i | i in b ensures i in a { assert i in multiset(b); }
    LossSumPermutation(data, a, b, w, exp, log);
  }
}
