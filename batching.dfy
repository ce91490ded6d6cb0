/** Fixed-size batching of a frame's rows, as both scripts do it:
    `num_batches = math.ceil(total_rows / batch_size)` and batch i is the slice
    `[i * batch_size, min(i * batch_size + batch_size, total_rows))`. */
module Batching {

  /** math.ceil(total / size), on exact integers. */
  function NumBatches(total: nat, size: nat): (n: nat)
    requires size > 0
    ensures n * size >= total
    ensures n > 0 ==> (n - 1) * size < total
    ensures total == 0 <==> n == 0
  {
    var n := (total + size - 1) / size;
    DivBounds(total + size - 1, size);
    n
  }

  /** q = a / b satisfies q * b <= a < q * b + b. */
  lemma DivBounds(a: nat, b: nat)
    requires b > 0
    ensures (a / b) * b <= a < (a / b) * b + b
  {
    var q, r := a / b, a % b;
    assert a == q * b + r;
  }

  /** start_idx of batch i. */
  function Start(i: nat, size: nat): nat {
    i * size
  }

  /** end_idx of batch i: min(start_idx + batch_size, total_rows). */
  function End(i: nat, total: nat, size: nat): nat {
    if i * size + size < total then i * size + size else total
  }

  /** The rows of batch i: iloc[start_idx:end_idx]. */
  function Batch<T>(s: seq<T>, i: nat, size: nat): (b: seq<T>)
    requires size > 0 && i < NumBatches(|s|, size)
    ensures 0 < |b| <= size
    ensures |b| == End(i, |s|, size) - Start(i, size)
    ensures i + 1 < NumBatches(|s|, size) ==> |b| == size
  {
    BatchBounds(i, |s|, size);
    s[Start(i, size)..End(i, |s|, size)]
  }

  /** Every batch is a non-empty slice of at most `size` rows, only the last one may be
      shorter, consecutive batches meet, the first starts at 0 and the last ends at total. */
  lemma BatchBounds(i: nat, total: nat, size: nat)
    requires size > 0 && i < NumBatches(total, size)
    ensures Start(i, size) < End(i, total, size) <= total
    ensures End(i, total, size) - Start(i, size) <= size
    ensures i + 1 < NumBatches(total, size) ==>
              End(i, total, size) == Start(i + 1, size) && End(i, total, size) - Start(i, size) == size
    ensures i + 1 == NumBatches(total, size) ==> End(i, total, size) == total
  {
    var n := NumBatches(total, size);
    assert i <= n - 1;
    assert i * size <= (n - 1) * size by { MulMono(i, n - 1, size); }
    if i + 1 < n {
      assert (i + 1) * size <= (n - 1) * size by { MulMono(i + 1, n - 1, size); }
      assert (i + 1) * size == i * size + size;
    } else {
      assert n * size == i * size + size;
    }
  }

  lemma MulMono(a: nat, b: nat, c: nat)
    requires a <= b
    ensures a * c <= b * c
  {
  }

  /** The concatenation of a sequence of sequences, in order. */
  function Flatten<T>(bs: seq<seq<T>>): (r: seq<T>)
    decreases |bs|
  {
    if bs == [] then [] else Flatten(bs[..|bs| - 1]) + bs[|bs| - 1]
  }

  /** All batches of s, in batch order. */
  function Batches<T>(s: seq<T>, size: nat): (bs: seq<seq<T>>)
    requires size > 0
    ensures |bs| == NumBatches(|s|, size)
    ensures forall i :: 0 <= i < |bs| ==> bs[i] == Batch(s, i, size)
  {
    seq(NumBatches(|s|, size), i requires 0 <= i < NumBatches(|s|, size) => Batch(s, i, size))
  }

  /** The first k batches, concatenated, are the rows before End(k - 1). */
  lemma {:induction false} FlattenPrefix<T>(s: seq<T>, size: nat, k: nat)
    requires size > 0 && 0 < k <= NumBatches(|s|, size)
    ensures Flatten(Batches(s, size)[..k]) == s[..End(k - 1, |s|, size)]
  {
    var bs := Batches(s, size);
    assert bs[..k][..k - 1] == bs[..k - 1];
    BatchBounds(k - 1, |s|, size);
    if k == 1 {
      assert bs[..k][..0] == [];
      assert Start(0, size) == 0;
    } else {
      FlattenPrefix(s, size, k - 1);
      BatchBounds(k - 2, |s|, size);
      assert s[..End(k - 2, |s|, size)] + s[Start(k - 1, size)..End(k - 1, |s|, size)] == s[..End(k - 1, |s|, size)];
    }
  }

  /** Batching is exhaustive and order-preserving: the batches, concatenated in
      order, are exactly the original rows, each once. */
  lemma BatchesCover<T>(s: seq<T>, size: nat)
    requires size > 0
    ensures Flatten(Batches(s, size)) == s
  {
    var n := NumBatches(|s|, size);
    var bs := Batches(s, size);
    if n == 0 {
      assert bs == [];
    } else {
      FlattenPrefix(s, size, n);
      BatchBounds(n - 1, |s|, size);
      assert bs[..n] == bs;
    }
  }

  /** Where the first k batches end: 0 for none, else the end of batch k - 1. */
  function EndUpTo(total: nat, k: nat, size: nat): (e: nat)
    requires size > 0 && k <= NumBatches(total, size)
    ensures e <= total
    ensures k == NumBatches(total, size) ==> e == total
  {
    if k == 0 then 0 else BatchBounds(k - 1, total, size); End(k - 1, total, size)
  }

  /** Batch k - 1 starts where the first k - 1 batches end and ends where the first k do. */
  lemma BatchEdges(total: nat, k: nat, size: nat)
    requires size > 0 && 0 < k <= NumBatches(total, size)
    ensures EndUpTo(total, k - 1, size) == Start(k - 1, size) <= EndUpTo(total, k, size) == End(k - 1, total, size)
  {
    BatchBounds(k - 1, total, size);
    if k > 1 { BatchBounds(k - 2, total, size); }
  }

  /** The sum of a sequence of counts. */
  function Sum(xs: seq<nat>): nat
    decreases |xs|
  {
    if xs == [] then 0 else Sum(xs[..|xs| - 1]) + xs[|xs| - 1]
  }

  /** The rows before the end of the first k batches are those before the end
      of the first k - 1, followed by batch k - 1. */
  lemma PrefixSplit<T>(s: seq<T>, k: nat, size: nat)
    requires size > 0 && 0 < k <= NumBatches(|s|, size)
    ensures s[..EndUpTo(|s|, k, size)] == s[..EndUpTo(|s|, k - 1, size)] + Batch(s, k - 1, size)
  {
    BatchEdges(|s|, k, size);
    var mid, end := EndUpTo(|s|, k - 1, size), EndUpTo(|s|, k, size);
    assert Batch(s, k - 1, size) == s[mid..end];
    assert s[..end] == s[..mid] + s[mid..end];
  }

  /** Counts reported for the first |reported| batches add up to where those
      batches end. */
  lemma {:induction false} ReportedPrefixSum(total: nat, size: nat, reported: seq<nat>)
    requires size > 0 && |reported| <= NumBatches(total, size)
    requires forall i :: 0 <= i < |reported| ==> reported[i] == End(i, total, size) - Start(i, size)
    ensures Sum(reported) == EndUpTo(total, |reported|, size)
    decreases |reported|
  {
    var k := |reported|;
    if k > 0 {
      ReportedPrefixSum(total, size, reported[..k - 1]);
      BatchEdges(total, k, size);
    }
  }

  /** Over all batches, the counts add up to the number of rows. */
  lemma ReportedCountsAddUp(total: nat, size: nat, counts: seq<nat>)
    requires size > 0 && |counts| == NumBatches(total, size)
    requires forall i :: 0 <= i < |counts| ==> counts[i] == End(i, total, size) - Start(i, size)
    ensures Sum(counts) == total
  {
    ReportedPrefixSum(total, size, counts);
  }

  /** The length of a concatenation is the sum of the lengths. */
  function SumLengths<T>(bs: seq<seq<T>>): nat
    decreases |bs|
  {
    if bs == [] then 0 else SumLengths(bs[..|bs| - 1]) + |bs[|bs| - 1]|
  }

  lemma {:induction false} FlattenLength<T>(bs: seq<seq<T>>)
    ensures |Flatten(bs)| == SumLengths(bs)
  {
    if bs != [] {
      FlattenLength(bs[..|bs| - 1]);
    }
  }

  /** The row counts of all batches add up to the number of rows. */
  lemma BatchSizesAddUp<T>(s: seq<T>, size: nat)
    requires size > 0
    ensures SumLengths(Batches(s, size)) == |s|
  {
    BatchesCover(s, size);
    FlattenLength(Batches(s, size));
  }

  /** 25,000 flat records with batch size 20,000 give exactly two batches, of
      20,000 and 5,000 rows. */
  lemma TwentyFiveThousandRows<T>(s: seq<T>)
    requires |s| == 25000
    ensures NumBatches(|s|, 20000) == 2
    ensures |Batch(s, 0, 20000)| == 20000 && |Batch(s, 1, 20000)| == 5000
  {
    assert (25000 + 20000 - 1) / 20000 == 2;
  }
}
