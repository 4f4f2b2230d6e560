/** Bookkeeping of the sampling operator: the segment index and offset arrays that a segmented
    sort over `batch_size` rows of `vocab_size` logits would use, the sizing of those arrays,
    and the forward kernel, which returns before doing anything. */
module Sampling {
  import IndexArith

  /** The index array after the first `n` threads of `init_idxs` ran: position `i < n` holds
      its token id `i % vocabSize`, the rest keep their previous contents. */
  function IdxAfter(prev: seq<int>, n: nat, vocabSize: nat): (r: seq<int>)
    requires n <= |prev| && (n > 0 ==> vocabSize > 0)
    ensures |r| == |prev|
  {
    seq(|prev|, i requires 0 <= i < |prev| => if i < n then i % vocabSize else prev[i])
  }

  /** An offset array after the first `n` threads ran: segment `k` whose first element
      `k * vocabSize` is below `n` starts there, the rest keep their previous contents. */
  function OffsetsAfter(prev: seq<int>, n: nat, vocabSize: nat): (r: seq<int>)
    ensures |r| == |prev|
  {
    seq(|prev|, k requires 0 <= k < |prev| => if k * vocabSize < n then k * vocabSize else prev[k])
  }

  /** Element `i` starts a segment exactly when it is a multiple of the segment length, and
      then it starts segment `i / vocabSize`. */
  lemma SegmentStart(k: nat, vocabSize: nat, i: nat)
    requires vocabSize > 0
    ensures k * vocabSize == i <==> i % vocabSize == 0 && k == i / vocabSize
  {
    if k * vocabSize == i {
      IndexArith.DivModOf(k, 0, vocabSize);
    }
  }

  /** One more thread changes the offsets only at the segment that element starts, if any. */
  lemma OffsetsStep(prev: seq<int>, i: nat, vocabSize: nat)
    requires vocabSize > 0 && i / vocabSize < |prev|
    ensures i % vocabSize == 0 ==> OffsetsAfter(prev, i + 1, vocabSize) == OffsetsAfter(prev, i, vocabSize)[i / vocabSize := i]
    ensures i % vocabSize != 0 ==> OffsetsAfter(prev, i + 1, vocabSize) == OffsetsAfter(prev, i, vocabSize)
  {
    forall k | 0 <= k < |prev|
      ensures OffsetsAfter(prev, i + 1, vocabSize)[k]
           == (if i % vocabSize == 0 && k == i / vocabSize then i else OffsetsAfter(prev, i, vocabSize)[k])
    {
      SegmentStart(k, vocabSize, i);
    }
    if i % vocabSize == 0 {
      assert OffsetsAfter(prev, i + 1, vocabSize) == OffsetsAfter(prev, i, vocabSize)[i / vocabSize := i];
    } else {
      assert OffsetsAfter(prev, i + 1, vocabSize) == OffsetsAfter(prev, i, vocabSize);
    }
  }

  /** `init_idxs`, its threads run one after another: every element below `totalEles` gets
      its token id and every segment starting below `totalEles` gets its begin and end
      offset.  The offset arrays must have room for the segment of the last element. */
  method InitIdxs(vocabSize: nat, totalEles: nat, idx: array<int>, beginOffset: array<int>, endOffset: array<int>)
    requires totalEles > 0 ==> vocabSize > 0
    requires totalEles <= idx.Length
    requires totalEles <= beginOffset.Length * vocabSize && totalEles <= endOffset.Length * vocabSize
    requires idx != beginOffset && idx != endOffset && beginOffset != endOffset
    modifies idx, beginOffset, endOffset
    ensures idx[..] == IdxAfter(old(idx[..]), totalEles, vocabSize)
    ensures beginOffset[..] == OffsetsAfter(old(beginOffset[..]), totalEles, vocabSize)
    ensures endOffset[..] == OffsetsAfter(old(endOffset[..]), totalEles, vocabSize)
  {
    var i := 0;
    while i < totalEles
      invariant 0 <= i <= totalEles
      invariant idx[..] == IdxAfter(old(idx[..]), i, vocabSize)
      invariant beginOffset[..] == OffsetsAfter(old(beginOffset[..]), i, vocabSize)
      invariant endOffset[..] == OffsetsAfter(old(endOffset[..]), i, vocabSize)
    {
      IndexArith.RowBound(i, beginOffset.Length, vocabSize);
      IndexArith.RowBound(i, endOffset.Length, vocabSize);
      OffsetsStep(old(beginOffset[..]), i, vocabSize);
      OffsetsStep(old(endOffset[..]), i, vocabSize);
      idx[i] := i % vocabSize;
      if i % vocabSize == 0 {
        beginOffset[i / vocabSize] := i;
        endOffset[i / vocabSize] := i;
      }
      assert idx[..] == IdxAfter(old(idx[..]), i + 1, vocabSize);
      i := i + 1;
    }
  }

  /** The row length `SamplingMeta` hands to `init_idxs`. */
  function VocabSize(batchSize: nat, totalEle: nat): (r: nat)
    requires batchSize > 0
    ensures r * batchSize <= totalEle < (r + 1) * batchSize
  {
    totalEle / batchSize
  }

  /** When the logits leave at most one row over, the offset arrays of `batchSize + 1`
      entries have room for every segment `init_idxs` starts; exactly `batchSize` rows fill
      the logits when nothing is left over. */
  lemma OffsetArraysLargeEnough(batchSize: nat, totalEle: nat)
    requires batchSize > 0 && totalEle % batchSize <= VocabSize(batchSize, totalEle)
    ensures totalEle <= (batchSize + 1) * VocabSize(batchSize, totalEle)
    ensures totalEle % batchSize == 0 ==> totalEle == batchSize * VocabSize(batchSize, totalEle)
  {
    var v := VocabSize(batchSize, totalEle);
    assert totalEle == batchSize * v + totalEle % batchSize;
    IndexArith.MulDistrib(batchSize, 1, v);
  }

  /** When the logits are not a whole number of rows and the leftover exceeds one row, thread
      `(batchSize + 1) * vocabSize` still lies inside the input and starts segment
      `batchSize + 1`, one past the `batchSize + 1` entries of the offset arrays (11 elements
      in 4 rows, for one: rows of 2, leftover 3). */
  lemma OffsetArraysTooSmallForRaggedInput(batchSize: nat, totalEle: nat)
    requires batchSize > 0 && totalEle % batchSize > VocabSize(batchSize, totalEle) > 0
    ensures (batchSize + 1) * VocabSize(batchSize, totalEle) < totalEle
    ensures ((batchSize + 1) * VocabSize(batchSize, totalEle)) % VocabSize(batchSize, totalEle) == 0
    ensures ((batchSize + 1) * VocabSize(batchSize, totalEle)) / VocabSize(batchSize, totalEle) == batchSize + 1
  {
    var v := VocabSize(batchSize, totalEle);
    assert totalEle == batchSize * v + totalEle % batchSize;
    IndexArith.MulDistrib(batchSize, 1, v);
    IndexArith.DivModOf(batchSize + 1, 0, v);
  }

  /** Otherwise every segment start fits: when the leftover is at most one row, no element
      starts a segment past entry `batchSize`. */
  lemma OffsetArraysFitSmallLeftover(batchSize: nat, totalEle: nat, i: nat)
    requires batchSize > 0 && VocabSize(batchSize, totalEle) > 0
    requires totalEle % batchSize <= VocabSize(batchSize, totalEle) && i < totalEle
    ensures i / VocabSize(batchSize, totalEle) <= batchSize
  {
    var v := VocabSize(batchSize, totalEle);
    assert totalEle == batchSize * v + totalEle % batchSize;
    IndexArith.MulDistrib(batchSize, 1, v);
    IndexArith.RowBound(i, batchSize + 1, v);
  }

  /** The token ids `0 .. n - 1` in order. */
  function TokenIds(n: nat): (r: seq<int>)
    ensures |r| == n && forall j :: 0 <= j < n ==> r[j] == j
  {
    seq(n, j => j)
  }

  /** Row `k` of a buffer of rows of length `vocabSize`. */
  function Row(s: seq<int>, k: nat, vocabSize: nat): seq<int>
    requires (k + 1) * vocabSize <= |s|
  {
    s[k * vocabSize..(k + 1) * vocabSize]
  }

  /** Row `k` of whole rows lies inside the buffer. */
  lemma RowInside(k: nat, batchSize: nat, vocabSize: nat)
    requires k < batchSize
    ensures (k + 1) * vocabSize <= batchSize * vocabSize
  {
    IndexArith.MulLe(k + 1, batchSize, vocabSize);
  }

  /** After `init_idxs` on whole rows, row `k` of the index array lists the token ids in
      order. */
  lemma IdxRowIsTokenIds(prevIdx: seq<int>, batchSize: nat, vocabSize: nat, k: nat)
    requires vocabSize > 0 && |prevIdx| == batchSize * vocabSize && k < batchSize
    ensures (k + 1) * vocabSize <= |prevIdx|
    ensures Row(IdxAfter(prevIdx, |prevIdx|, vocabSize), k, vocabSize) == TokenIds(vocabSize)
  {
    RowInside(k, batchSize, vocabSize);
    var after := IdxAfter(prevIdx, |prevIdx|, vocabSize);
    forall j | 0 <= j < vocabSize
      ensures Row(after, k, vocabSize)[j] == j
    {
      IndexArith.DivModOf(k, j, vocabSize);
      IndexArith.RowEnd(k, j, batchSize, vocabSize);
    }
  }

  /** After `init_idxs` on whole rows, row `k`'s offset is `k * vocab_size`, and the entry
      past the last row keeps what it held. */
  lemma OffsetOfRow(prev: seq<int>, batchSize: nat, vocabSize: nat, k: nat)
    requires vocabSize > 0 && |prev| == batchSize + 1 && k <= batchSize
    ensures k < batchSize ==> OffsetsAfter(prev, batchSize * vocabSize, vocabSize)[k] == k * vocabSize
    ensures k == batchSize ==> OffsetsAfter(prev, batchSize * vocabSize, vocabSize)[k] == prev[k]
  {
    if k < batchSize {
      IndexArith.RowEnd(k, 0, batchSize, vocabSize);
    }
  }

  /** The device buffers of the sampling operator. */
  class SamplingMeta {
    const batchSize: nat
    const totalEle: nat
    var beginOffset: array<int>
    var endOffset: array<int>
    var idx: array<int>
    var sortedIdx: array<int>

    /** The buffer sizes: `batch_size + 1` offsets, `total_ele` indices, and distinct
        allocations. */
    predicate Valid()
      reads this
    {
      beginOffset.Length == batchSize + 1 && endOffset.Length == batchSize + 1
      && idx.Length == totalEle && sortedIdx.Length == totalEle
      && idx != beginOffset && idx != endOffset && beginOffset != endOffset
    }

    /** Allocates the buffers and runs `init_idxs` with `vocab_size = total_ele /
        batch_size`.  Fresh device memory is left unconstrained, so entries nothing writes
        (the last offset entries, `sortedIdx`) are unknown.  The division needs a batch, and
        the kernel stays inside the offset arrays exactly when at most one row is left over
        (which also rules out `vocab_size == 0` for non-empty logits). */
    constructor(batchSize: nat, totalEle: nat)
      requires batchSize > 0 && totalEle % batchSize <= totalEle / batchSize
      ensures this.batchSize == batchSize && this.totalEle == totalEle && Valid()
      ensures fresh(beginOffset) && fresh(endOffset) && fresh(idx) && fresh(sortedIdx)
      ensures exists prevIdx: seq<int>, prevBegin: seq<int>, prevEnd: seq<int> ::
                && |prevIdx| == totalEle
                && idx[..] == IdxAfter(prevIdx, totalEle, VocabSize(batchSize, totalEle))
                && beginOffset[..] == OffsetsAfter(prevBegin, totalEle, VocabSize(batchSize, totalEle))
                && endOffset[..] == OffsetsAfter(prevEnd, totalEle, VocabSize(batchSize, totalEle))
    {
      this.batchSize := batchSize;
      this.totalEle := totalEle;
      var b := new int[batchSize + 1];
      var e := new int[batchSize + 1];
      var ix := new int[totalEle];
      sortedIdx := new int[totalEle];
      OffsetArraysLargeEnough(batchSize, totalEle);
      ghost var prevIdx, prevBegin, prevEnd := ix[..], b[..], e[..];
      InitIdxs(totalEle / batchSize, totalEle, ix, b, e);
      beginOffset := b;
      endOffset := e;
      idx := ix;
    }

    /** `forward_kernel` returns before launching its kernels: the output indices and every
        buffer are left as they were. */
    method ForwardKernel(input: array<int>, indices: array<int>, topP: int, length: int, batch: int)
      requires Valid()
      ensures indices[..] == old(indices[..]) && idx[..] == old(idx[..])
      ensures Valid()
    {
    }
  }
}
