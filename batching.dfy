/**
 * The grouping of records into transactions that the batch loader follows:
 * a commit after every `size`-th record, and one final commit of whatever
 * remains (possibly nothing).
 */
module Batching {

  /** The batch size used when the caller passes a non-positive one. */
  const DefaultBatchSize: nat := 50

  /** The batch size the loader actually uses. */
  function EffectiveBatchSize(batchSize: int): (size: nat)
    ensures size > 0
    ensures batchSize > 0 ==> size == batchSize
    ensures batchSize <= 0 ==> size == DefaultBatchSize
  {
    if batchSize <= 0 then DefaultBatchSize else batchSize
  }

  /** The last batch boundary at or before `n`: the records before it fill whole batches of `size`. */
  function Boundary(n: nat, size: nat): (b: nat)
    requires size > 0
    ensures b <= n < b + size
    decreases n
  {
    if n < size then 0 else size + Boundary(n - size, size)
  }

  /** The consecutive groups of exactly `size` elements at the front of `xs`; a shorter tail is left out. */
  function FullBatches<T>(xs: seq<T>, size: nat): seq<seq<T>>
    requires size > 0
    decreases |xs|
  {
    if |xs| < size then [] else [xs[..size]] + FullBatches(xs[size..], size)
  }

  /** What the loader commits on a run that succeeds: every full batch, then the remainder in a last commit. */
  function CommitPlan<T>(xs: seq<T>, size: nat): seq<seq<T>>
    requires size > 0
  {
    FullBatches(xs, size) + [xs[Boundary(|xs|, size)..]]
  }

  /** The concatenation of a sequence of batches. */
  function Flatten<T>(xss: seq<seq<T>>): seq<T> {
    if xss == [] then [] else xss[0] + Flatten(xss[1..])
  }

  /** Euclidean division and remainder are determined by `n == q * size + r` with `0 <= r < size`. */
  lemma DivModUnique(n: nat, size: nat, q: int, r: int)
    requires size > 0 && 0 <= r < size && n == q * size + r
    ensures n / size == q && n % size == r
  {
    var k := q - n / size;
    assert k * size == n % size - r;
    MulWithinOneBatch(k, size);
  }

  /** The only multiple of `size` strictly between `-size` and `size` is zero. */
  lemma MulWithinOneBatch(k: int, size: nat)
    requires size > 0 && -(size as int) < k * size < size
    ensures k == 0
  {
  }

  /** Taking one batch off the front lowers the quotient by one and keeps the remainder. */
  lemma DivModStep(n: nat, size: nat)
    requires 0 < size <= n
    ensures n / size == (n - size) / size + 1
    ensures n % size == (n - size) % size
  {
    DivModUnique(n, size, (n - size) / size + 1, (n - size) % size);
  }

  /** The boundary below `n` is the multiple `(n / size) * size`, within one batch of `n`. */
  lemma {:induction false} BoundaryBounds(n: nat, size: nat)
    requires size > 0
    ensures Boundary(n, size) <= n < Boundary(n, size) + size
    ensures Boundary(n, size) == (n / size) * size == n - n % size
    ensures Boundary(Boundary(n, size), size) == Boundary(n, size)
    decreases n
  {
    if n < size {
      DivModUnique(n, size, 0, n);
    } else {
      BoundaryBounds(n - size, size);
      DivModStep(n, size);
      DivModStep(Boundary(n, size), size);
    }
  }

  /** A boundary plus less than a batch has that boundary as its own. */
  lemma {:induction false} BoundaryOf(b: nat, d: nat, size: nat)
    requires size > 0 && Boundary(b, size) == b && d < size
    ensures Boundary(b + d, size) == b
    decreases b
  {
    if b >= size {
      BoundaryOf(b - size, d, size);
    }
  }

  /**
   * After a batch that started on a boundary, the record count is a multiple
   * of `size` exactly when the batch is full, and then it is itself a boundary.
   */
  lemma BatchEnds(b: nat, d: nat, size: nat)
    requires size > 0 && Boundary(b, size) == b && 0 < d <= size
    ensures (b + d) % size == 0 <==> d == size
    ensures d == size ==> Boundary(b + d, size) == b + d
  {
    BoundaryBounds(b, size);
    if d < size {
      BoundaryOf(b, d, size);
      BoundaryBounds(b + d, size);
    } else {
      assert Boundary(b + d, size) == size + Boundary(b, size);
      BoundaryBounds(b + d, size);
    }
  }

  /** Every full batch has exactly `size` elements; they cover `xs` up to its last boundary, in order. */
  lemma {:induction false} FullBatchesShape<T>(xs: seq<T>, size: nat)
    requires size > 0
    ensures |FullBatches(xs, size)| == |xs| / size
    ensures forall i :: 0 <= i < |FullBatches(xs, size)| ==> |FullBatches(xs, size)[i]| == size
    ensures Flatten(FullBatches(xs, size)) == xs[..Boundary(|xs|, size)]
    decreases |xs|
  {
    if |xs| < size {
      DivModUnique(|xs|, size, 0, |xs|);
    } else {
      var rest := xs[size..];
      FullBatchesShape(rest, size);
      DivModStep(|xs|, size);
      assert FullBatches(xs, size)[1..] == FullBatches(rest, size);
      calc {
        Flatten(FullBatches(xs, size));
        xs[..size] + Flatten(FullBatches(rest, size));
        xs[..size] + rest[..Boundary(|rest|, size)];
        { BoundaryBounds(|rest|, size); }
        xs[..Boundary(|xs|, size)];
      }
    }
  }

  /** Appending one full batch to a sequence made of full batches appends it to the batches. */
  lemma {:induction false} FullBatchesSnoc<T>(xs: seq<T>, batch: seq<T>, size: nat)
    requires size > 0 && Boundary(|xs|, size) == |xs| && |batch| == size
    ensures FullBatches(xs + batch, size) == FullBatches(xs, size) + [batch]
    decreases |xs|
  {
    if |xs| < size {
      assert xs + batch == batch;
      assert batch[..size] == batch;
      assert batch[size..] == [];
    } else {
      FullBatchesSnoc(xs[size..], batch, size);
      assert (xs + batch)[..size] == xs[..size];
      assert (xs + batch)[size..] == xs[size..] + batch;
    }
  }

  /** The commit plan is the full batches of the prefix up to the boundary, then the remainder. */
  lemma CommitPlanSplit<T>(xs: seq<T>, size: nat)
    requires size > 0
    ensures CommitPlan(xs, size) == FullBatches(xs[..Boundary(|xs|, size)], size) + [xs[Boundary(|xs|, size)..]]
  {
    FullBatchesIgnoreRemainder(xs, size);
  }

  /** A tail shorter than a batch adds no full batch. */
  lemma {:induction false} FullBatchesIgnoreRemainder<T>(xs: seq<T>, size: nat)
    requires size > 0
    ensures FullBatches(xs, size) == FullBatches(xs[..Boundary(|xs|, size)], size)
    decreases |xs|
  {
    var ys := xs[..Boundary(|xs|, size)];
    BoundaryBounds(|xs|, size);
    if |xs| < size {
      DivModUnique(|xs|, size, 0, |xs|);
    } else {
      DivModStep(|xs|, size);
      FullBatchesIgnoreRemainder(xs[size..], size);
      BoundaryBounds(|xs| - size, size);
      assert ys[..size] == xs[..size];
      assert ys[size..] == xs[size..][..Boundary(|xs| - size, size)];
    }
  }

  /**
   * A successful run commits `|xs| / size + 1` times: every commit but the
   * last holds exactly `size` records, the last holds the `|xs| % size` left
   * over (none when `size` divides `|xs|`, including `xs == []`), and
   * together they hold all of `xs`, in order.
   */
  lemma CommitPlanShape<T>(xs: seq<T>, size: nat)
    requires size > 0
    ensures |CommitPlan(xs, size)| == |xs| / size + 1
    ensures forall i :: 0 <= i < |CommitPlan(xs, size)| - 1 ==> |CommitPlan(xs, size)[i]| == size
    ensures |CommitPlan(xs, size)[|xs| / size]| == |xs| % size
    ensures Flatten(CommitPlan(xs, size)) == xs
  {
    FullBatchesShape(xs, size);
    BoundaryBounds(|xs|, size);
    var full := FullBatches(xs, size);
    var last := xs[Boundary(|xs|, size)..];
    FlattenAppend(full, [last]);
    assert Flatten([last]) == last + Flatten([last][1..]);
  }

  /**
   * 120 records at the default size are committed as 50, 50 and 20; 100
   * records as 50, 50 and a last, empty commit.
   */
  lemma CommitPlanExamples<T>(xs: seq<T>, ys: seq<T>)
    requires |xs| == 120 && |ys| == 100
    ensures |CommitPlan(xs, DefaultBatchSize)| == 3
    ensures |CommitPlan(xs, DefaultBatchSize)[0]| == 50 && |CommitPlan(xs, DefaultBatchSize)[1]| == 50
    ensures |CommitPlan(xs, DefaultBatchSize)[2]| == 20
    ensures |CommitPlan(ys, DefaultBatchSize)| == 3 && CommitPlan(ys, DefaultBatchSize)[2] == []
  {
    CommitPlanShape(xs, DefaultBatchSize);
    CommitPlanShape(ys, DefaultBatchSize);
    DivModUnique(120, 50, 2, 20);
    DivModUnique(100, 50, 2, 0);
  }

  lemma {:induction false} FlattenAppend<T>(xss: seq<seq<T>>, yss: seq<seq<T>>)
    ensures Flatten(xss + yss) == Flatten(xss) + Flatten(yss)
    decreases |xss|
  {
    if xss == [] {
      assert xss + yss == yss;
    } else {
      FlattenAppend(xss[1..], yss);
      assert (xss + yss)[1..] == xss[1..] + yss;
    }
  }
}
