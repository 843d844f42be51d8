/** The training table: each record is a row of feature values (optionally led by
    a bias of 1) that ends in the pass/fail label. */
module Records {

  /** One student's row: features first, the 0/1 label last. */
  type Record = seq<real>

  /** The table, in file order. */
  type Dataset = seq<Record>

  /** One coefficient per feature (the bias included when the table has one). */
  type Weights = seq<real>

  /** A record taken apart into the part the hypothesis reads and the label. */
  datatype Example = Example(features: seq<real>, passed: real)

  /** Reads the label off the end of a record and drops it, as `back()` followed by
      `pop_back()` do on the callee's own copy; `back()` needs a non-empty record. */
  function Split(r: Record): (e: Example)
    requires |r| >= 1
    ensures |e.features| == |r| - 1
    ensures e.features + [e.passed] == r
  {
    Example(r[..|r| - 1], r[|r| - 1])
  }
}
