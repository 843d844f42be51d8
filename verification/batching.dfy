/** How one epoch cuts the table into mini-batches: consecutive slices starting at
    0, b, 2b, ... below n, the last one possibly shorter. */
module Batching {

  /** The records at positions start, start + 1, ..., start + len - 1. */
  datatype Batch = Batch(start: nat, len: nat)

  function Min(a: nat, b: nat): nat
  {
    if a <= b then a else b
  }

  /** Every batch is non-empty and lies inside a table of n records. */
  ghost predicate WithinTable(bs: seq<Batch>, n: nat)
  {
    forall k :: 0 <= k < |bs| ==> 1 <= bs[k].len && bs[k].start + bs[k].len <= n
  }

  /** Every batch starts at or after `start` and holds at most b records. */
  ghost predicate BoundedBy(bs: seq<Batch>, start: nat, b: nat)
  {
    forall k :: 0 <= k < |bs| ==> start <= bs[k].start && bs[k].len <= b
  }

  /** The batches the outer loop visits from position `start` on, with batch size
      b: one batch per start position below n, each min(b, n - start) long. A batch
      size of 0 never advances, so it is only allowed when there is nothing left. */
  function BatchesFrom(n: nat, b: nat, start: nat): (bs: seq<Batch>)
    requires b >= 1 || start >= n
    ensures WithinTable(bs, n)
    ensures BoundedBy(bs, start, b)
    decreases n - start
  {
    if start >= n then [] else [Batch(start, Min(b, n - start))] + BatchesFrom(n, b, start + b)
  }

  /** The first batch from `start` is the one at `start`; the rest start b later. */
  lemma BatchesFromUnfold(n: nat, b: nat, start: nat)
    requires b >= 1 && start < n
    ensures |BatchesFrom(n, b, start)| >= 1
    ensures BatchesFrom(n, b, start)[0] == Batch(start, Min(b, n - start))
    ensures BatchesFrom(n, b, start)[1..] == BatchesFrom(n, b, start + b)
  {
  }

  /** The batches of one epoch over n records. */
  function Batches(n: nat, b: nat): (bs: seq<Batch>)
    requires b >= 1 || n == 0
    ensures WithinTable(bs, n)
  {
    BatchesFrom(n, b, 0)
  }

  /** lo, lo + 1, ..., hi - 1. */
  function Range(lo: nat, hi: nat): (r: seq<nat>)
    requires lo <= hi
    ensures |r| == hi - lo
    ensures forall k :: 0 <= k < |r| ==> r[k] == lo + k
    decreases hi - lo
  {
    if lo == hi then [] else [lo] + Range(lo + 1, hi)
  }

  /** The record positions the batches cover, batch after batch. */
  function Flatten(bs: seq<Batch>): seq<nat>
    decreases |bs|
  {
    if |bs| == 0 then [] else Range(bs[0].start, bs[0].start + bs[0].len) + Flatten(bs[1..])
  }

  /** k * b, built by repeated addition so that the batch proofs stay linear. */
  function Times(k: nat, b: nat): nat
  {
    if k == 0 then 0 else Times(k - 1, b) + b
  }

  lemma {:induction false} TimesIsProduct(k: nat, b: nat)
    ensures Times(k, b) == k * b
  {
    if k > 0 {
      TimesIsProduct(k - 1, b);
      assert (k - 1) * b + b == k * b;
    }
  }

  /** From `start` on, batch k begins at start + k*b, below n, and holds
      min(b, n - its start) records. */
  lemma {:induction false} BatchAt(n: nat, b: nat, start: nat, k: nat)
    requires b >= 1
    requires k < |BatchesFrom(n, b, start)|
    ensures start + Times(k, b) < n
    ensures BatchesFrom(n, b, start)[k] == Batch(start + Times(k, b), Min(b, n - (start + Times(k, b))))
    decreases k
  {
    var bs := BatchesFrom(n, b, start);
    assert start < n;
    if k > 0 {
      var tail := BatchesFrom(n, b, start + b);
      assert bs == [Batch(start, Min(b, n - start))] + tail;
      assert bs[k] == tail[k - 1];
      BatchAt(n, b, start + b, k - 1);
      assert start + b + Times(k - 1, b) == start + Times(k, b);
    }
  }

  /** From `start` on, there are batches exactly when start < n, and the last one
      ends at n. */
  lemma {:induction false} BatchesFromEnd(n: nat, b: nat, start: nat)
    requires b >= 1
    ensures var bs := BatchesFrom(n, b, start);
      && (|bs| == 0 <==> start >= n)
      && (|bs| > 0 ==> bs[|bs| - 1].start + bs[|bs| - 1].len == n)
    decreases n - start
  {
    var bs := BatchesFrom(n, b, start);
    if start < n {
      BatchesFromEnd(n, b, start + b);
      var tail := BatchesFrom(n, b, start + b);
      assert bs == [Batch(start, Min(b, n - start))] + tail;
      if |tail| > 0 {
        assert bs[|bs| - 1] == tail[|tail| - 1];
      }
    }
  }

  /** From `start` on, batch k begins at start + k*b and holds min(b, n - its
      start) records (so every batch but the last is full), begins where the
      previous one ends, and the last one ends at n. */
  lemma BatchesFromShape(n: nat, b: nat, start: nat)
    requires b >= 1
    ensures var bs := BatchesFrom(n, b, start);
      && (|bs| == 0 <==> start >= n)
      && (forall k :: 0 <= k < |bs| ==>
            bs[k].start == start + Times(k, b) && bs[k].start < n && bs[k].len == Min(b, n - bs[k].start))
      && (forall k :: 0 <= k < |bs| - 1 ==> bs[k].len == b && bs[k + 1].start == bs[k].start + bs[k].len)
      && (|bs| > 0 ==> bs[|bs| - 1].start + bs[|bs| - 1].len == n)
  {
    BatchesFromEnd(n, b, start);
    var bs := BatchesFrom(n, b, start);
    forall k | 0 <= k < |bs|
      ensures bs[k].start == start + Times(k, b) && bs[k].start < n && bs[k].len == Min(b, n - bs[k].start)
    {
      BatchAt(n, b, start, k);
    }
    forall k | 0 <= k < |bs| - 1
      ensures bs[k].len == b && bs[k + 1].start == bs[k].start + bs[k].len
    {
      BatchAt(n, b, start, k);
      BatchAt(n, b, start, k + 1);
      assert Times(k + 1, b) == Times(k, b) + b;
    }
  }

  /** The batches of an epoch start at 0, b, 2b, ..., are consecutive, all but the
      last hold exactly b records, the last holds min(b, n - its start) and ends at
      n; there are ceil(n / b) of them. */
  lemma BatchesShape(n: nat, b: nat)
    requires b >= 1
    ensures var bs := Batches(n, b);
      && (|bs| == 0 <==> n == 0)
      && (forall k :: 0 <= k < |bs| ==> bs[k].start == k * b && bs[k].len == Min(b, n - bs[k].start))
      && (forall k :: 0 <= k < |bs| - 1 ==> bs[k].len == b && bs[k + 1].start == bs[k].start + bs[k].len)
      && (|bs| > 0 ==> bs[|bs| - 1].start + bs[|bs| - 1].len == n)
      && (|bs| - 1) * b < n <= |bs| * b
  {
    BatchesFromShape(n, b, 0);
    var bs := Batches(n, b);
    forall k | 0 <= k < |bs| ensures bs[k].start == k * b {
      TimesIsProduct(k, b);
    }
    if |bs| > 0 {
      var m := |bs| - 1;
      TimesIsProduct(m, b);
      TimesIsProduct(|bs|, b);
      assert Times(|bs|, b) == Times(m, b) + b;
    }
  }

  /** Concatenating two adjacent ranges gives the combined range. */
  lemma RangeAppend(lo: nat, mid: nat, hi: nat)
    requires lo <= mid <= hi
    ensures Range(lo, mid) + Range(mid, hi) == Range(lo, hi)
  {
  }

  /** From `start` on, the batches cover start, start + 1, ..., n - 1 exactly once
      each and in order. */
  lemma {:induction false} FlattenBatchesFrom(n: nat, b: nat, start: nat)
    requires b >= 1 && start <= n
    ensures Flatten(BatchesFrom(n, b, start)) == Range(start, n)
    decreases n - start
  {
    if start < n {
      BatchesFromUnfold(n, b, start);
      var bs := BatchesFrom(n, b, start);
      var len := Min(b, n - start);
      assert Flatten(bs) == Range(start, start + len) + Flatten(BatchesFrom(n, b, start + b));
      if start + b < n {
        FlattenBatchesFrom(n, b, start + b);
        RangeAppend(start, start + b, n);
      } else {
        assert Range(start, start + len) + [] == Range(start, n);
      }
    }
  }

  /** The batches of an epoch partition the positions 0 .. n - 1 into consecutive
      slices: reading them batch after batch lists every record exactly once, in
      table order. */
  lemma BatchesPartition(n: nat, b: nat)
    requires b >= 1
    ensures Flatten(Batches(n, b)) == Range(0, n)
  {
    FlattenBatchesFrom(n, b, 0);
  }

  /** k is the quotient r / b exactly when r lies in [k*b, k*b + b). */
  lemma QuotientRange(r: nat, b: nat, k: nat)
    requires b >= 1
    ensures k == r / b <==> k * b <= r < k * b + b
  {
    var q := r / b;
    assert r == q * b + r % b;
    if k < q {
      assert (k + 1) * b <= q * b by { MulMonotone(k + 1, q, b); }
    } else if k > q {
      assert (q + 1) * b <= k * b by { MulMonotone(q + 1, k, b); }
    }
  }

  lemma MulMonotone(x: nat, y: nat, b: nat)
    requires x <= y
    ensures x * b <= y * b
  {
  }

  /** Record r of the table belongs to batch r / b and to no other. */
  lemma BatchOfRecord(n: nat, b: nat, r: nat)
    requires b >= 1 && r < n
    ensures var bs := Batches(n, b);
      && r / b < |bs|
      && (forall k :: 0 <= k < |bs| ==> (bs[k].start <= r < bs[k].start + bs[k].len <==> k == r / b))
  {
    BatchesShape(n, b);
    var bs := Batches(n, b);
    var q := r / b;
    QuotientRange(r, b, q);
    if q >= |bs| {
      MulMonotone(|bs|, q, b);
    }
    forall k | 0 <= k < |bs|
      ensures bs[k].start <= r < bs[k].start + bs[k].len <==> k == q
    {
      QuotientRange(r, b, k);
    }
  }
}
