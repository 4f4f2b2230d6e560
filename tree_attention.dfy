/** The paged key/value-cache bookkeeping of the tree-verify attention operator.

    Every GPU kernel of the operator is modelled as the sequential loop over its flat
    thread index `i`: `token = i / hidden`, `offset = i % hidden`.  The cache is one flat
    plane per kind (key, value); request `r`, position `depth`, element `offset` lives at
    `r * (hidden * stride) + depth * hidden + offset`, where the stride is
    `max_sequence_length + max_spec_tree_token_num`.  The projection buffer
    `devQKVProjArray` holds, per token, `[query | key | value]` slices of `hidden` elements. */
module TreeAttention {
  import opened Wrappers
  import opened FFConst
  import IndexArith

  /** Bit width of one word of the speculation-tree mask. */
  const MASK_WORD_BITS: nat := 64

  // ---------------------------------------------------------------------------
  // Batch records (only the fields the kernels read)
  // ---------------------------------------------------------------------------

  datatype PerRequestInfo = PerRequestInfo(
    firstTokenDepthInRequest: nat,
    firstTokenOffsetInBatch: nat,
    numTokensInBatch: nat,
    promptPhase: bool)

  datatype PerTokenInfo = PerTokenInfo(requestIndex: nat, absDepthInRequest: nat)

  /** An accepted speculative token: row `tokenIndex` of the previous batch's projections
      becomes position `tokenDepth` of request `requestIndex`. */
  datatype CommittedTokenInfo = CommittedTokenInfo(tokenIndex: nat, requestIndex: nat, tokenDepth: nat)

  /** Per-request tree mask: word `k` tells which queries may see key `nonTreeCacheSize + k`. */
  datatype BitMask = BitMask(mask: seq<bv64>, nonTreeCacheSize: nat)

  datatype TreeVerifyBatchConfig = TreeVerifyBatchConfig(
    numTokensToCommit: nat,
    committedTokens: seq<CommittedTokenInfo>,
    tokensInfo: seq<PerTokenInfo>,
    requestsInfo: seq<PerRequestInfo>,
    numActiveTokens: nat,
    numActiveInfrTokens: nat)

  // ---------------------------------------------------------------------------
  // Addressing
  // ---------------------------------------------------------------------------

  datatype Plane = KeyPlane | ValuePlane

  /** Where element `offset` of a token's key (or value) slice sits in the projection buffer. */
  function QKVSource(token: nat, offset: nat, hidden: nat, plane: Plane): nat
  {
    var keyIdx := token * QKV_WEIGHT_NUM * hidden + hidden + offset;
    if plane == KeyPlane then keyIdx else keyIdx + hidden
  }

  /** Where element `offset` of position `depth` of request `request` sits in a cache plane. */
  function CacheSlot(request: nat, depth: int, offset: nat, hidden: nat, stride: nat): int
  {
    request * (hidden * stride) + depth * hidden + offset
  }

  /** One token slice that a kernel copies from the projection buffer into the cache. */
  datatype Slice = Slice(token: nat, request: nat, depth: int)

  /** Every slice lands inside the cache and reads inside the projection buffer. */
  ghost predicate SlicesFit(slices: seq<Slice>, hidden: nat, stride: nat, cacheLen: nat, qkvLen: nat)
  {
    forall k :: 0 <= k < |slices| ==>
      0 <= slices[k].depth < stride &&
      (slices[k].request + 1) * (hidden * stride) <= cacheLen &&
      (slices[k].token + 1) * (QKV_WEIGHT_NUM * hidden) <= qkvLen
  }

  /** No two slices target the same cache position. */
  ghost predicate DistinctDestinations(slices: seq<Slice>)
  {
    forall k1, k2 :: 0 <= k1 < k2 < |slices| ==>
      slices[k1].request != slices[k2].request || slices[k1].depth != slices[k2].depth
  }

  lemma SliceInBounds(s: Slice, offset: nat, hidden: nat, stride: nat, cacheLen: nat, qkvLen: nat, plane: Plane)
    requires offset < hidden && 0 <= s.depth < stride
    requires (s.request + 1) * (hidden * stride) <= cacheLen
    requires (s.token + 1) * (QKV_WEIGHT_NUM * hidden) <= qkvLen
    ensures 0 <= CacheSlot(s.request, s.depth, offset, hidden, stride) < cacheLen
    ensures QKVSource(s.token, offset, hidden, plane) < qkvLen
  {
    IndexArith.RowEnd(s.depth, offset, stride, hidden);
    assert stride * hidden == hidden * stride;
    assert (s.request + 1) * (hidden * stride) == s.request * (hidden * stride) + hidden * stride;
    IndexArith.MulLe(0, s.request, hidden * stride);
    assert (s.token + 1) * (QKV_WEIGHT_NUM * hidden) == s.token * QKV_WEIGHT_NUM * hidden + 3 * hidden;
  }

  /** Distinct (request, depth, offset) triples inside the layout occupy distinct slots. */
  lemma CacheSlotInjective(r1: nat, d1: int, o1: nat, r2: nat, d2: int, o2: nat, hidden: nat, stride: nat)
    requires 0 <= d1 < stride && 0 <= d2 < stride && o1 < hidden && o2 < hidden
    requires CacheSlot(r1, d1, o1, hidden, stride) == CacheSlot(r2, d2, o2, hidden, stride)
    ensures r1 == r2 && d1 == d2 && o1 == o2
  {
    IndexArith.MulSwapInner(r1, hidden, stride);
    IndexArith.MulDistrib(r1 * stride, d1, hidden);
    IndexArith.MulSwapInner(r2, hidden, stride);
    IndexArith.MulDistrib(r2 * stride, d2, hidden);
    IndexArith.DivModUnique(r1 * stride + d1, o1, r2 * stride + d2, o2, hidden);
    IndexArith.DivModUnique(r1, d1, r2, d2, stride);
  }

  /** The cache plane after the first `steps` iterations of a scatter loop: iteration `i`
      copies element `i % hidden` of slice `i / hidden`. */
  ghost function Scattered<T>(cache: seq<T>, qkv: seq<T>, slices: seq<Slice>, hidden: nat, stride: nat,
                              plane: Plane, steps: nat): (r: seq<T>)
    requires hidden > 0 && steps <= |slices| * hidden
    requires SlicesFit(slices, hidden, stride, |cache|, |qkv|)
    ensures |r| == |cache|
    decreases steps
  {
    if steps == 0 then cache
    else
      var prev := Scattered(cache, qkv, slices, hidden, stride, plane, steps - 1);
      IndexArith.RowBound(steps - 1, |slices|, hidden);
      var s := slices[(steps - 1) / hidden];
      var offset := (steps - 1) % hidden;
      SliceInBounds(s, offset, hidden, stride, |cache|, |qkv|, plane);
      prev[CacheSlot(s.request, s.depth, offset, hidden, stride) := qkv[QKVSource(s.token, offset, hidden, plane)]]
  }

  /** A scatter writes nothing but the slots of its slices: every other cache slot keeps its value. */
  lemma {:induction false} ScatteredFrame<T>(cache: seq<T>, qkv: seq<T>, slices: seq<Slice>, hidden: nat, stride: nat,
                                            plane: Plane, steps: nat, p: int)
    requires hidden > 0 && steps <= |slices| * hidden
    requires SlicesFit(slices, hidden, stride, |cache|, |qkv|)
    requires 0 <= p < |cache|
    requires forall k, offset :: 0 <= k < |slices| && 0 <= offset < hidden ==>
               CacheSlot(slices[k].request, slices[k].depth, offset, hidden, stride) != p
    ensures Scattered(cache, qkv, slices, hidden, stride, plane, steps)[p] == cache[p]
    decreases steps
  {
    if steps > 0 {
      IndexArith.RowBound(steps - 1, |slices|, hidden);
      ScatteredFrame(cache, qkv, slices, hidden, stride, plane, steps - 1, p);
    }
  }

  /** Two different iterations of a scatter over distinct destinations write different slots. */
  lemma StepSlotsDiffer(slices: seq<Slice>, hidden: nat, stride: nat, i: nat, k: nat, offset: nat)
    requires hidden > 0 && i < |slices| * hidden && k < |slices| && offset < hidden
    requires i != k * hidden + offset
    requires DistinctDestinations(slices)
    requires forall j :: 0 <= j < |slices| ==> 0 <= slices[j].depth < stride
    ensures 0 <= i / hidden < |slices|
    ensures CacheSlot(slices[i / hidden].request, slices[i / hidden].depth, i % hidden, hidden, stride)
         != CacheSlot(slices[k].request, slices[k].depth, offset, hidden, stride)
  {
    IndexArith.RowBound(i, |slices|, hidden);
    var s := slices[i / hidden];
    if CacheSlot(s.request, s.depth, i % hidden, hidden, stride)
       == CacheSlot(slices[k].request, slices[k].depth, offset, hidden, stride) {
      CacheSlotInjective(s.request, s.depth, i % hidden, slices[k].request, slices[k].depth, offset, hidden, stride);
      assert false;
    }
  }

  /** Once iteration `k * hidden + offset` has run, the slot of slice `k` holds the slice's
      element `offset` from the projection buffer, provided the slices target distinct positions. */
  lemma {:induction false} ScatteredHolds<T>(cache: seq<T>, qkv: seq<T>, slices: seq<Slice>, hidden: nat, stride: nat,
                                            plane: Plane, steps: nat, k: nat, offset: nat)
    requires hidden > 0 && steps <= |slices| * hidden
    requires SlicesFit(slices, hidden, stride, |cache|, |qkv|)
    requires DistinctDestinations(slices)
    requires k < |slices| && offset < hidden && k * hidden + offset < steps
    ensures 0 <= CacheSlot(slices[k].request, slices[k].depth, offset, hidden, stride) < |cache|
    ensures QKVSource(slices[k].token, offset, hidden, plane) < |qkv|
    ensures Scattered(cache, qkv, slices, hidden, stride, plane, steps)[CacheSlot(slices[k].request, slices[k].depth, offset, hidden, stride)]
         == qkv[QKVSource(slices[k].token, offset, hidden, plane)]
    decreases steps
  {
    SliceInBounds(slices[k], offset, hidden, stride, |cache|, |qkv|, plane);
    var i := steps - 1;
    if i != k * hidden + offset {
      ScatteredHolds(cache, qkv, slices, hidden, stride, plane, steps - 1, k, offset);
      StepSlotsDiffer(slices, hidden, stride, i, k, offset);
    } else {
      IndexArith.DivModOf(k, offset, hidden);
    }
  }

  /** After a complete scatter over distinct destinations, every slice can be read back at
      its documented cache address. */
  lemma ScatterReadBack<T>(cache: seq<T>, qkv: seq<T>, slices: seq<Slice>, hidden: nat, stride: nat,
                           plane: Plane, k: nat, offset: nat)
    requires hidden > 0
    requires SlicesFit(slices, hidden, stride, |cache|, |qkv|)
    requires DistinctDestinations(slices)
    requires k < |slices| && offset < hidden
    ensures 0 <= CacheSlot(slices[k].request, slices[k].depth, offset, hidden, stride) < |cache|
    ensures QKVSource(slices[k].token, offset, hidden, plane) < |qkv|
    ensures Scattered(cache, qkv, slices, hidden, stride, plane, |slices| * hidden)[CacheSlot(slices[k].request, slices[k].depth, offset, hidden, stride)]
         == qkv[QKVSource(slices[k].token, offset, hidden, plane)]
  {
    IndexArith.RowEnd(k, offset, |slices|, hidden);
    ScatteredHolds(cache, qkv, slices, hidden, stride, plane, |slices| * hidden, k, offset);
  }

  // ---------------------------------------------------------------------------
  // Which slices each kernel copies
  // ---------------------------------------------------------------------------

  /** `commit_tokens_kernel`: record `p` copies row `tokenIndex` of the previous batch's
      projections to position `tokenDepth` of its request. */
  function CommitSlices(committed: seq<CommittedTokenInfo>): seq<Slice>
  {
    seq(|committed|, p requires 0 <= p < |committed| =>
      Slice(committed[p].tokenIndex, committed[p].requestIndex, committed[p].tokenDepth))
  }

  /** `update_tree_branch_kv_cache`: token `k` of the branch is row `k + processedTokensInBatch`
      of the batch and goes to its absolute depth in its request. */
  function BranchSlices(tokenInfos: seq<PerTokenInfo>, numTokensInBranch: nat, processedTokensInBatch: nat): seq<Slice>
    requires processedTokensInBatch + numTokensInBranch <= |tokenInfos|
  {
    seq(numTokensInBranch, k requires 0 <= k < numTokensInBranch =>
      Slice(k + processedTokensInBatch,
            tokenInfos[k + processedTokensInBatch].requestIndex,
            tokenInfos[k + processedTokensInBatch].absDepthInRequest))
  }

  /** `update_tree_branch_kv_cache_fused`: token `t` of request `r` goes to depth
      `t + first_token_depth_in_request - first_token_offset_in_batch`. */
  function FusedSlices(tokenInfos: seq<PerTokenInfo>, requestInfos: seq<PerRequestInfo>, numNewTokens: nat): seq<Slice>
    requires numNewTokens <= |tokenInfos|
    requires forall t :: 0 <= t < numNewTokens ==> tokenInfos[t].requestIndex < |requestInfos|
  {
    seq(numNewTokens, t requires 0 <= t < numNewTokens =>
      var info := requestInfos[tokenInfos[t].requestIndex];
      Slice(t, tokenInfos[t].requestIndex, t + info.firstTokenDepthInRequest - info.firstTokenOffsetInBatch))
  }

  /** The assertion of the commit kernel: every committed record names a row of the previous batch. */
  predicate CommitAllowed(committed: seq<CommittedTokenInfo>, numTokensToCommit: nat, numActiveTokensInLastBatch: nat)
  {
    numTokensToCommit <= |committed| &&
    forall p :: 0 <= p < numTokensToCommit ==> committed[p].tokenIndex < numActiveTokensInLastBatch
  }

  /** The per-token and per-request records of a batch agree: the tokens of request `r` are
      the rows `[first_token_offset_in_batch, first_token_offset_in_batch + num_tokens_in_batch)`
      and the token `first_token_offset_in_batch + j` sits at depth `first_token_depth_in_request + j`. */
  ghost predicate ConsistentBatch(tokenInfos: seq<PerTokenInfo>, requestInfos: seq<PerRequestInfo>, numTokens: nat)
  {
    numTokens <= |tokenInfos| &&
    forall t :: 0 <= t < numTokens ==>
      tokenInfos[t].requestIndex < |requestInfos| &&
      var info := requestInfos[tokenInfos[t].requestIndex];
      info.firstTokenOffsetInBatch <= t < info.firstTokenOffsetInBatch + info.numTokensInBatch &&
      tokenInfos[t].absDepthInRequest == info.firstTokenDepthInRequest + (t - info.firstTokenOffsetInBatch)
  }

  /** On a consistent batch the fused writer and the branch writer (started at row 0) place
      every token at the same position. */
  lemma FusedAgreesWithBranch(tokenInfos: seq<PerTokenInfo>, requestInfos: seq<PerRequestInfo>, numTokens: nat)
    requires ConsistentBatch(tokenInfos, requestInfos, numTokens)
    ensures FusedSlices(tokenInfos, requestInfos, numTokens) == BranchSlices(tokenInfos, numTokens, 0)
  {
  }

  /** On a consistent batch the fused writer never places two tokens at the same position. */
  lemma FusedDestinationsDistinct(tokenInfos: seq<PerTokenInfo>, requestInfos: seq<PerRequestInfo>, numTokens: nat)
    requires ConsistentBatch(tokenInfos, requestInfos, numTokens)
    ensures DistinctDestinations(FusedSlices(tokenInfos, requestInfos, numTokens))
  {
  }

  /** The first batch after construction (previous-token counter 0) cannot commit anything. */
  lemma FirstBatchCommitsNothing(committed: seq<CommittedTokenInfo>, numTokensToCommit: nat)
    requires CommitAllowed(committed, numTokensToCommit, 0)
    ensures numTokensToCommit == 0
  {
    if numTokensToCommit > 0 {
      assert committed[0].tokenIndex < 0 by { assert 0 < numTokensToCommit; }
    }
  }

  // ---------------------------------------------------------------------------
  // The operator's device state
  // ---------------------------------------------------------------------------

  /** `TreeIncMultiHeadSelfAttentionMeta`: the key and value cache planes, the projection
      buffer and the number of tokens that were active in the previous batch. */
  class TreeVerifyMeta<T(0)> {
    const hiddenSize: nat
    const maxSequenceLength: nat
    const maxSpecTreeTokenNum: nat
    const keyCache: array<T>
    const valueCache: array<T>
    const devQKVProjArray: array<T>
    var numActiveInfrTokens: nat

    /** Positions reserved per request: committed history plus one speculation tree. */
    function CacheStride(): nat
    {
      maxSequenceLength + maxSpecTreeTokenNum
    }

    /** The fused attention launch hands the reader `max_sequence_length +
        max_spec_tree_token_num` as its stride, the stride the cache writers use, so every key
        position a request reserves is read from the slot the writers stored it in. */
    lemma FusedReaderMatchesWriters(bcId: nat, ti: nat, offset: nat)
      requires ti < maxSequenceLength + maxSpecTreeTokenNum
      ensures ReadSlot(bcId, ti, offset, hiddenSize, maxSequenceLength + maxSpecTreeTokenNum)
              == CacheSlot(bcId, ti, offset, hiddenSize, CacheStride())
    {
      ReadSlotMatchesCacheSlot(bcId, ti, offset, hiddenSize, CacheStride());
    }

    ghost predicate Valid()
    {
      hiddenSize > 0 &&
      keyCache != valueCache && keyCache != devQKVProjArray && valueCache != devQKVProjArray &&
      keyCache.Length == valueCache.Length
    }

    ghost predicate Fits(slices: seq<Slice>)
    {
      SlicesFit(slices, hiddenSize, CacheStride(), keyCache.Length, devQKVProjArray.Length)
    }

    constructor (numRequests: nat, hidden: nat, maxSeqLen: nat, maxSpecTokens: nat, maxTokensPerBatch: nat)
      requires hidden > 0
      ensures Valid()
      ensures hiddenSize == hidden && maxSequenceLength == maxSeqLen && maxSpecTreeTokenNum == maxSpecTokens
      ensures keyCache.Length == numRequests * (hidden * (maxSeqLen + maxSpecTokens))
      ensures devQKVProjArray.Length == maxTokensPerBatch * (QKV_WEIGHT_NUM * hidden)
      ensures fresh(keyCache) && fresh(valueCache) && fresh(devQKVProjArray)
      ensures numActiveInfrTokens == 0
    {
      hiddenSize := hidden;
      maxSequenceLength := maxSeqLen;
      maxSpecTreeTokenNum := maxSpecTokens;
      keyCache := new T[numRequests * (hidden * (maxSeqLen + maxSpecTokens))];
      valueCache := new T[numRequests * (hidden * (maxSeqLen + maxSpecTokens))];
      devQKVProjArray := new T[maxTokensPerBatch * (QKV_WEIGHT_NUM * hidden)];
      numActiveInfrTokens := 0;
    }

    /** The loop shared by the three cache writers: iteration `i` copies element `i % hidden`
        of the key and value slices of slice `i / hidden` into both cache planes. */
    method Scatter(slices: seq<Slice>)
      requires Valid() && Fits(slices)
      modifies keyCache, valueCache
      ensures keyCache[..] == Scattered(old(keyCache[..]), devQKVProjArray[..], slices, hiddenSize, CacheStride(), KeyPlane, |slices| * hiddenSize)
      ensures valueCache[..] == Scattered(old(valueCache[..]), devQKVProjArray[..], slices, hiddenSize, CacheStride(), ValuePlane, |slices| * hiddenSize)
    {
      var n := |slices| * hiddenSize;
      var i := 0;
      while i < n
        invariant 0 <= i <= n
        invariant keyCache[..] == Scattered(old(keyCache[..]), devQKVProjArray[..], slices, hiddenSize, CacheStride(), KeyPlane, i)
        invariant valueCache[..] == Scattered(old(valueCache[..]), devQKVProjArray[..], slices, hiddenSize, CacheStride(), ValuePlane, i)
      {
        IndexArith.RowBound(i, |slices|, hiddenSize);
        var s := slices[i / hiddenSize];
        var offset := i % hiddenSize;
        SliceInBounds(s, offset, hiddenSize, CacheStride(), keyCache.Length, devQKVProjArray.Length, ValuePlane);
        SliceInBounds(s, offset, hiddenSize, CacheStride(), keyCache.Length, devQKVProjArray.Length, KeyPlane);
        var kVal := devQKVProjArray[QKVSource(s.token, offset, hiddenSize, KeyPlane)];
        var vVal := devQKVProjArray[QKVSource(s.token, offset, hiddenSize, ValuePlane)];
        var slot := CacheSlot(s.request, s.depth, offset, hiddenSize, CacheStride());
        ghost var keys := keyCache[..];
        ghost var values := valueCache[..];
        keyCache[slot] := kVal;
        valueCache[slot] := vVal;
        assert keyCache[..] == keys[slot := kVal];
        assert valueCache[..] == values[slot := vVal];
        i := i + 1;
      }
    }

    /** `commit_tokens`: copies the key and value of every accepted token from the previous
        batch's projections into its request's cache; nothing happens when there is nothing to commit. */
    method CommitTokens(committed: seq<CommittedTokenInfo>, numTokensToCommit: nat)
      requires Valid()
      requires CommitAllowed(committed, numTokensToCommit, numActiveInfrTokens)
      requires Fits(CommitSlices(committed[..numTokensToCommit]))
      modifies keyCache, valueCache
      ensures keyCache[..] == Scattered(old(keyCache[..]), devQKVProjArray[..], CommitSlices(committed[..numTokensToCommit]),
                                        hiddenSize, CacheStride(), KeyPlane, numTokensToCommit * hiddenSize)
      ensures valueCache[..] == Scattered(old(valueCache[..]), devQKVProjArray[..], CommitSlices(committed[..numTokensToCommit]),
                                          hiddenSize, CacheStride(), ValuePlane, numTokensToCommit * hiddenSize)
    {
      if numTokensToCommit > 0 {
        Scatter(CommitSlices(committed[..numTokensToCommit]));
      }
    }

    /** `update_tree_branch_kv_cache`: writes the branch's tokens at their absolute depths. */
    method UpdateTreeBranchKVCache(tokenInfos: seq<PerTokenInfo>, numTokensInBranch: nat, processedTokensInBatch: nat)
      requires Valid()
      requires processedTokensInBatch + numTokensInBranch <= |tokenInfos|
      requires Fits(BranchSlices(tokenInfos, numTokensInBranch, processedTokensInBatch))
      modifies keyCache, valueCache
      ensures keyCache[..] == Scattered(old(keyCache[..]), devQKVProjArray[..], BranchSlices(tokenInfos, numTokensInBranch, processedTokensInBatch),
                                        hiddenSize, CacheStride(), KeyPlane, numTokensInBranch * hiddenSize)
      ensures valueCache[..] == Scattered(old(valueCache[..]), devQKVProjArray[..], BranchSlices(tokenInfos, numTokensInBranch, processedTokensInBatch),
                                          hiddenSize, CacheStride(), ValuePlane, numTokensInBranch * hiddenSize)
    {
      Scatter(BranchSlices(tokenInfos, numTokensInBranch, processedTokensInBatch));
    }

    /** `update_tree_branch_kv_cache_fused`: writes every new token of the batch at the depth
        derived from its request's first depth and first row. */
    method UpdateTreeBranchKVCacheFused(tokenInfos: seq<PerTokenInfo>, requestInfos: seq<PerRequestInfo>, numNewTokens: nat)
      requires Valid()
      requires numNewTokens <= |tokenInfos|
      requires forall t :: 0 <= t < numNewTokens ==> tokenInfos[t].requestIndex < |requestInfos|
      requires Fits(FusedSlices(tokenInfos, requestInfos, numNewTokens))
      modifies keyCache, valueCache
      ensures keyCache[..] == Scattered(old(keyCache[..]), devQKVProjArray[..], FusedSlices(tokenInfos, requestInfos, numNewTokens),
                                        hiddenSize, CacheStride(), KeyPlane, numNewTokens * hiddenSize)
      ensures valueCache[..] == Scattered(old(valueCache[..]), devQKVProjArray[..], FusedSlices(tokenInfos, requestInfos, numNewTokens),
                                          hiddenSize, CacheStride(), ValuePlane, numNewTokens * hiddenSize)
    {
      Scatter(FusedSlices(tokenInfos, requestInfos, numNewTokens));
    }

    /** The copy of this batch's projections into the front of the projection buffer. */
    method LoadProjections(projected: seq<T>)
      requires |projected| <= devQKVProjArray.Length
      modifies devQKVProjArray
      ensures devQKVProjArray[..] == projected + old(devQKVProjArray[..])[|projected|..]
    {
      forall i | 0 <= i < |projected| {
        devQKVProjArray[i] := projected[i];
      }
      assert devQKVProjArray[..] == projected + old(devQKVProjArray[..])[|projected|..];
    }

    /** `inference_kernel`: commit the accepted tokens of the previous round (reading the
        previous round's projections), then record this batch's token count, then load this
        batch's projections and write its new tokens into the cache.  `projected` stands for the
        projection buffer once the copy and `compute_qkv_kernel` have run. */
    method InferenceKernel(bc: TreeVerifyBatchConfig, projected: seq<T>)
      requires Valid()
      requires CommitAllowed(bc.committedTokens, bc.numTokensToCommit, numActiveInfrTokens)
      requires Fits(CommitSlices(bc.committedTokens[..bc.numTokensToCommit]))
      requires |projected| == bc.numActiveTokens * (QKV_WEIGHT_NUM * hiddenSize) <= devQKVProjArray.Length
      requires bc.numActiveTokens <= |bc.tokensInfo|
      requires forall t :: 0 <= t < bc.numActiveTokens ==> bc.tokensInfo[t].requestIndex < |bc.requestsInfo|
      requires Fits(FusedSlices(bc.tokensInfo, bc.requestsInfo, bc.numActiveTokens))
      modifies this, keyCache, valueCache, devQKVProjArray
      ensures numActiveInfrTokens == bc.numActiveInfrTokens
      ensures devQKVProjArray[..] == projected + old(devQKVProjArray[..])[|projected|..]
      ensures keyCache[..] ==
        Scattered(Scattered(old(keyCache[..]), old(devQKVProjArray[..]), CommitSlices(bc.committedTokens[..bc.numTokensToCommit]),
                            hiddenSize, CacheStride(), KeyPlane, bc.numTokensToCommit * hiddenSize),
                  devQKVProjArray[..], FusedSlices(bc.tokensInfo, bc.requestsInfo, bc.numActiveTokens),
                  hiddenSize, CacheStride(), KeyPlane, bc.numActiveTokens * hiddenSize)
      ensures valueCache[..] ==
        Scattered(Scattered(old(valueCache[..]), old(devQKVProjArray[..]), CommitSlices(bc.committedTokens[..bc.numTokensToCommit]),
                            hiddenSize, CacheStride(), ValuePlane, bc.numTokensToCommit * hiddenSize),
                  devQKVProjArray[..], FusedSlices(bc.tokensInfo, bc.requestsInfo, bc.numActiveTokens),
                  hiddenSize, CacheStride(), ValuePlane, bc.numActiveTokens * hiddenSize)
    {
      CommitTokens(bc.committedTokens, bc.numTokensToCommit);
      numActiveInfrTokens := bc.numActiveInfrTokens;
      LoadProjections(projected);
      UpdateTreeBranchKVCacheFused(bc.tokensInfo, bc.requestsInfo, bc.numActiveTokens);
    }
  }

  // ---------------------------------------------------------------------------
  // Which keys a query may see
  // ---------------------------------------------------------------------------

  /** Bit `qi` of a mask word: query `qi` of the tree may see the key this word describes. */
  predicate BitSet(word: bv64, qi: nat)
    requires qi < MASK_WORD_BITS
  {
    word & ((1 as bv64) << qi) != 0
  }

  /** The mask operand as the kernel computes it, `1 << qi` with a 32-bit `int` `1`, widened to the
      64-bit mask word: `None` where the shift is undefined (`qi >= 32`); at `qi == 31` the result
      is `INT_MIN`, whose sign extension sets bits 31 to 63 of the operand. */
  function QueryBitAsWritten(qi: nat): (r: Option<bv64>)
    ensures r.Some? <==> qi < 32
    ensures qi < 31 ==> r == Some((1 as bv64) << qi)
    ensures qi == 31 ==> r == Some(!(((1 as bv64) << 31) - 1))
  {
    if qi < 31 then Some((1 as bv64) << qi)
    else if qi == 31 then Some(0xFFFF_FFFF_8000_0000)
    else None
  }

  /** The bit test as written: defined only below 32. */
  predicate BitSetAsWritten(word: bv64, qi: nat)
    requires qi < 32
  {
    word & QueryBitAsWritten(qi).value != 0
  }

  /** Below 31 the test as written is the intended bit test. */
  lemma BitSetAsWrittenAgreesBelow31(word: bv64, qi: nat)
    requires qi < 31
    ensures BitSetAsWritten(word, qi) == BitSet(word, qi)
  {
    assert QueryBitAsWritten(qi).value == (1 as bv64) << qi;
  }

  /** At query 31 the test as written admits a key whenever any of bits 31 to 63 of its word is
      set: a word admitting only query 40 admits query 31 as well, which the intended test
      rejects.  From query 32 on the shift is undefined. */
  lemma BitSetAsWrittenLeaksAtQuery31(word: bv64)
    ensures BitSetAsWritten(word, 31) <==> word >> 31 != 0
    ensures BitSetAsWritten((1 as bv64) << 40, 31) && !BitSet((1 as bv64) << 40, 31)
    ensures forall qi: nat :: 32 <= qi ==> QueryBitAsWritten(qi).None?
  {
    assert BitSetAsWritten(word, 31) <==> word & 0xFFFF_FFFF_8000_0000 != 0;
  }

  /** The mask decision of the fused attention kernel for query `qi` and key position `ti`.
      In the prompt phase attention is causal in absolute positions; otherwise the committed
      history below `nonTreeCacheSize` is always visible and a tree key is visible only when
      its word has bit `qi` set. */
  predicate KeyMasked(promptPhase: bool, qStart: nat, qi: nat, ti: nat, bitmask: BitMask)
    requires promptPhase || qi < MASK_WORD_BITS
    requires promptPhase || ti < bitmask.nonTreeCacheSize + |bitmask.mask|
  {
    if promptPhase then qStart + qi < ti
    else ti >= bitmask.nonTreeCacheSize && !BitSet(bitmask.mask[ti - bitmask.nonTreeCacheSize], qi)
  }

  /** The number of keys among the first `tlength` that query `qi` attends to. */
  function VisibleKeyCount(promptPhase: bool, qStart: nat, qi: nat, tlength: nat, bitmask: BitMask): (r: nat)
    requires promptPhase || qi < MASK_WORD_BITS
    requires promptPhase || tlength <= bitmask.nonTreeCacheSize + |bitmask.mask|
    ensures r <= tlength
  {
    if tlength == 0 then 0
    else VisibleKeyCount(promptPhase, qStart, qi, tlength - 1, bitmask) +
         (if KeyMasked(promptPhase, qStart, qi, tlength - 1, bitmask) then 0 else 1)
  }

  /** The number of the first `n` tree words that have bit `qi` set. */
  function TreeBitsSet(words: seq<bv64>, qi: nat, n: nat): nat
    requires qi < MASK_WORD_BITS && n <= |words|
  {
    if n == 0 then 0 else TreeBitsSet(words, qi, n - 1) + (if BitSet(words[n - 1], qi) then 1 else 0)
  }

  /** Prompt phase: query `qi` of a prompt starting at depth `qStart` sees exactly the keys up to
      and including its own position, so never a later one. */
  lemma {:induction false} PromptVisibleCount(qStart: nat, qi: nat, tlength: nat, bitmask: BitMask)
    ensures VisibleKeyCount(true, qStart, qi, tlength, bitmask) ==
            if tlength <= qStart + qi + 1 then tlength else qStart + qi + 1
  {
    if tlength > 0 {
      PromptVisibleCount(qStart, qi, tlength - 1, bitmask);
    }
  }

  /** Tree phase: a query sees all of the committed history that lies within `tlength`, plus
      one key for each tree word below `tlength` that has its bit set. */
  lemma {:induction false} TreeVisibleCount(qi: nat, tlength: nat, bitmask: BitMask)
    requires qi < MASK_WORD_BITS
    requires tlength <= bitmask.nonTreeCacheSize + |bitmask.mask|
    ensures VisibleKeyCount(false, 0, qi, tlength, bitmask) ==
            if tlength <= bitmask.nonTreeCacheSize then tlength
            else bitmask.nonTreeCacheSize + TreeBitsSet(bitmask.mask, qi, tlength - bitmask.nonTreeCacheSize)
  {
    if tlength > 0 {
      TreeVisibleCount(qi, tlength - 1, bitmask);
    }
  }

  /** The visibility decision in the tree phase does not depend on the prompt start. */
  lemma TreeMaskIgnoresStart(qStart1: nat, qStart2: nat, qi: nat, ti: nat, bitmask: BitMask)
    requires qi < MASK_WORD_BITS
    requires ti < bitmask.nonTreeCacheSize + |bitmask.mask|
    ensures KeyMasked(false, qStart1, qi, ti, bitmask) == KeyMasked(false, qStart2, qi, ti, bitmask)
  {
  }

  /** A request that has `history` committed keys and one new token (whose word sets only its own
      bit) lets that token see all `history + 1` keys. */
  lemma OneTokenSeesWholeHistory(history: nat)
    ensures VisibleKeyCount(false, 0, 0, history + 1, BitMask([1], history)) == history + 1
  {
    TreeVisibleCount(0, history + 1, BitMask([1], history));
    assert BitSet(1, 0);
  }

  /** The score pass of the fused kernel: every masked key among the first `tlength` gets score
      `zero` and therefore contributes nothing; every visible key keeps its score. */
  method MaskScores<T>(scores: array<T>, zero: T, promptPhase: bool, qStart: nat, qi: nat,
                       tlength: nat, bitmask: BitMask)
    requires tlength <= scores.Length
    requires promptPhase || (qi < MASK_WORD_BITS && tlength <= bitmask.nonTreeCacheSize + |bitmask.mask|)
    modifies scores
    ensures forall ti :: 0 <= ti < tlength ==>
      scores[ti] == if KeyMasked(promptPhase, qStart, qi, ti, bitmask) then zero else old(scores[ti])
    ensures scores[tlength..] == old(scores[tlength..])
  {
    var ti := 0;
    while ti < tlength
      invariant 0 <= ti <= tlength
      invariant forall j :: 0 <= j < ti ==>
        scores[j] == if KeyMasked(promptPhase, qStart, qi, j, bitmask) then zero else old(scores[j])
      invariant scores[ti..] == old(scores[ti..])
    {
      if KeyMasked(promptPhase, qStart, qi, ti, bitmask) {
        scores[ti] := zero;
      }
      ti := ti + 1;
    }
  }

  /** The cache element the fused kernel reads for key position `ti` of request `bcId`: it
      wraps the position modulo the stride it is given. */
  function ReadSlot(bcId: nat, ti: nat, offset: nat, hidden: nat, stride: nat): nat
    requires stride > 0
  {
    bcId * stride * hidden + (ti % stride) * hidden + offset
  }

  /** For every key position below the stride the reader and the writers agree on the slot, so a
      query reads back exactly what the cache writers stored. */
  lemma ReadSlotMatchesCacheSlot(bcId: nat, ti: nat, offset: nat, hidden: nat, stride: nat)
    requires stride > 0 && ti < stride
    ensures ReadSlot(bcId, ti, offset, hidden, stride) == CacheSlot(bcId, ti, offset, hidden, stride)
  {
    IndexArith.DivModOf(0, ti, stride);
    assert bcId * stride * hidden == bcId * (hidden * stride);
  }

  // ---------------------------------------------------------------------------
  // Where a request's rows are in the batch
  // ---------------------------------------------------------------------------

  /** The first row of request `bcId` in the compact query/output buffers: the tokens of every
      earlier request that is not completed. */
  function FirstTokenIdx(requestInfos: seq<PerRequestInfo>, requestCompleted: seq<bool>, bcId: nat): nat
    requires bcId <= |requestInfos| && bcId <= |requestCompleted|
  {
    if bcId == 0 then 0
    else FirstTokenIdx(requestInfos, requestCompleted, bcId - 1) +
         (if requestCompleted[bcId - 1] then 0 else requestInfos[bcId - 1].numTokensInBatch)
  }

  /** The prefix scan of the fused kernel that computes a request's first row. */
  method ComputeFirstTokenIdx(requestInfos: seq<PerRequestInfo>, requestCompleted: seq<bool>, bcId: nat)
    returns (firstTokenIdx: nat)
    requires bcId <= |requestInfos| && bcId <= |requestCompleted|
    ensures firstTokenIdx == FirstTokenIdx(requestInfos, requestCompleted, bcId)
  {
    firstTokenIdx := 0;
    var r := 0;
    while r < bcId
      invariant 0 <= r <= bcId
      invariant firstTokenIdx == FirstTokenIdx(requestInfos, requestCompleted, r)
    {
      firstTokenIdx := firstTokenIdx + (if requestCompleted[r] then 0 else requestInfos[r].numTokensInBatch);
      r := r + 1;
    }
  }

  /** Rows of a later request start after all rows of an earlier active one. */
  lemma {:induction false} FirstTokenIdxAfter(requestInfos: seq<PerRequestInfo>, requestCompleted: seq<bool>, a: nat, b: nat)
    requires a < b <= |requestInfos| && b <= |requestCompleted|
    ensures FirstTokenIdx(requestInfos, requestCompleted, a) +
            (if requestCompleted[a] then 0 else requestInfos[a].numTokensInBatch)
            <= FirstTokenIdx(requestInfos, requestCompleted, b)
  {
    if b > a + 1 {
      FirstTokenIdxAfter(requestInfos, requestCompleted, a, b - 1);
    }
  }

  /** The output row of query `qi` of request `bcId`. */
  function OutputRow(requestInfos: seq<PerRequestInfo>, requestCompleted: seq<bool>, bcId: nat, qi: nat): nat
    requires bcId <= |requestInfos| && bcId <= |requestCompleted|
  {
    FirstTokenIdx(requestInfos, requestCompleted, bcId) + qi
  }

  /** Two different active requests never write the same output row. */
  lemma OutputRowsDisjoint(requestInfos: seq<PerRequestInfo>, requestCompleted: seq<bool>,
                           a: nat, qa: nat, b: nat, qb: nat)
    requires a < |requestInfos| && a < |requestCompleted| && b < |requestInfos| && b < |requestCompleted|
    requires a != b && !requestCompleted[a] && !requestCompleted[b]
    requires qa < requestInfos[a].numTokensInBatch && qb < requestInfos[b].numTokensInBatch
    ensures OutputRow(requestInfos, requestCompleted, a, qa) != OutputRow(requestInfos, requestCompleted, b, qb)
  {
    if a < b {
      FirstTokenIdxAfter(requestInfos, requestCompleted, a, b);
    } else {
      FirstTokenIdxAfter(requestInfos, requestCompleted, b, a);
    }
  }

  /** All output rows of the active requests before `n` lie below `FirstTokenIdx(n)`. */
  lemma OutputRowBelowTotal(requestInfos: seq<PerRequestInfo>, requestCompleted: seq<bool>, a: nat, qa: nat, n: nat)
    requires a < n <= |requestInfos| && n <= |requestCompleted|
    requires !requestCompleted[a] && qa < requestInfos[a].numTokensInBatch
    ensures OutputRow(requestInfos, requestCompleted, a, qa) < FirstTokenIdx(requestInfos, requestCompleted, n)
  {
    FirstTokenIdxAfter(requestInfos, requestCompleted, a, n);
  }

  /** Key length and query length the fused kernel uses for a request. */
  function KeyLength(info: PerRequestInfo): nat { info.firstTokenDepthInRequest + info.numTokensInBatch }

  function QueryLength(info: PerRequestInfo): nat { info.numTokensInBatch }

  /** In the prompt phase the last query of a request sees every key, and the first query sees
      only the history and itself. */
  lemma PromptQueriesSpanKeys(info: PerRequestInfo, bitmask: BitMask)
    requires 0 < info.numTokensInBatch
    ensures VisibleKeyCount(true, info.firstTokenDepthInRequest, QueryLength(info) - 1, KeyLength(info), bitmask) == KeyLength(info)
    ensures VisibleKeyCount(true, info.firstTokenDepthInRequest, 0, KeyLength(info), bitmask) == info.firstTokenDepthInRequest + 1
  {
    PromptVisibleCount(info.firstTokenDepthInRequest, QueryLength(info) - 1, KeyLength(info), bitmask);
    PromptVisibleCount(info.firstTokenDepthInRequest, 0, KeyLength(info), bitmask);
  }

  // ---------------------------------------------------------------------------
  // Causal fill of a score matrix
  // ---------------------------------------------------------------------------

  /** `size_t` arithmetic wraps modulo 2^64. */
  const SIZE_T_MOD: int := 0x1_0000_0000_0000_0000

  /** The fill test for flat index `i`: the key coordinate exceeds the diagonal position of the
      query coordinate (the latter computed with `size_t` wrap-around). */
  predicate FillsEntry(i: nat, newTokens: nat, totalTokensInRequest: nat)
  {
    newTokens > 0 && totalTokensInRequest > 0 &&
    var srcIdx := (i / newTokens) % totalTokensInRequest;
    var dstIdx := (i % newTokens + totalTokensInRequest - newTokens) % SIZE_T_MOD;
    srcIdx > dstIdx
  }

  /** `tree_fill_entries_above_diagonal`: every entry of the `heads x total x new` block that lies
      above the shifted diagonal becomes `value`; all other entries keep their value. */
  method TreeFillEntriesAboveDiagonal<T>(matrix: array<T>, newTokens: nat, totalTokensInRequest: nat,
                                         numQHeads: nat, value: T)
    requires newTokens * totalTokensInRequest * numQHeads <= matrix.Length
    modifies matrix
    ensures forall i :: 0 <= i < matrix.Length ==>
      matrix[i] == if i < newTokens * totalTokensInRequest * numQHeads && FillsEntry(i, newTokens, totalTokensInRequest)
                   then value else old(matrix[i])
  {
    var n := newTokens * totalTokensInRequest * numQHeads;
    var i := 0;
    while i < n
      invariant 0 <= i <= n
      invariant forall j :: 0 <= j < matrix.Length ==>
        matrix[j] == if j < i && FillsEntry(j, newTokens, totalTokensInRequest) then value else old(matrix[j])
    {
      IndexArith.MulPos(newTokens * totalTokensInRequest, numQHeads);
      IndexArith.MulPos(newTokens, totalTokensInRequest);
      var srcIdx := (i / newTokens) % totalTokensInRequest;
      var dstIdx := (i % newTokens + totalTokensInRequest - newTokens) % SIZE_T_MOD;
      if srcIdx > dstIdx {
        matrix[i] := value;
      }
      i := i + 1;
    }
  }

  /** In coordinates: entry `(head h, key k, query q)` is filled exactly when the query's own
      absolute position `q + total - new` lies before the key. */
  lemma FillsEntryCoordinates(h: nat, k: nat, q: nat, newTokens: nat, totalTokensInRequest: nat)
    requires q < newTokens < SIZE_T_MOD && k < totalTokensInRequest < SIZE_T_MOD
    ensures FillsEntry((h * totalTokensInRequest + k) * newTokens + q, newTokens, totalTokensInRequest)
            <==> q + totalTokensInRequest >= newTokens && k > q + totalTokensInRequest - newTokens
  {
    var i := (h * totalTokensInRequest + k) * newTokens + q;
    IndexArith.DivModOf(h * totalTokensInRequest + k, q, newTokens);
    IndexArith.DivModOf(h, k, totalTokensInRequest);
    if q + totalTokensInRequest < newTokens {
      IndexArith.DivModOf(-1, q + totalTokensInRequest - newTokens + SIZE_T_MOD, SIZE_T_MOD);
    } else {
      IndexArith.DivModOf(0, q + totalTokensInRequest - newTokens, SIZE_T_MOD);
    }
  }

  /** When the request's history is `total - new` tokens, the causal fill marks exactly the
      entries the fused kernel masks in the prompt phase. */
  lemma FillAgreesWithPromptMask(h: nat, k: nat, q: nat, newTokens: nat, totalTokensInRequest: nat, bitmask: BitMask)
    requires q < newTokens <= totalTokensInRequest < SIZE_T_MOD && k < totalTokensInRequest
    ensures FillsEntry((h * totalTokensInRequest + k) * newTokens + q, newTokens, totalTokensInRequest)
            == KeyMasked(true, totalTokensInRequest - newTokens, q, k, bitmask)
  {
    FillsEntryCoordinates(h, k, q, newTokens, totalTokensInRequest);
  }

  // ---------------------------------------------------------------------------
  // Dispatch
  // ---------------------------------------------------------------------------

  /** The attention-kernel instantiations that exist. */
  datatype HeadKernel = Head64 | Head128

  /** `compute_attention_kernel_fused` picks the instantiation by per-head size; any other size is fatal. */
  function HeadSizeDispatch(perHeadSize: nat): (r: Result<HeadKernel, string>)
    ensures r.Ok? <==> perHeadSize == 64 || perHeadSize == 128
    ensures r.Ok? ==> (r.value == Head64 <==> perHeadSize == 64)
  {
    if perHeadSize == 64 then Ok(Head64)
    else if perHeadSize == 128 then Ok(Head128)
    else Err("a unsupported head size")
  }

  /** `inference_kernel_wrapper`: input and output types must agree, and only half and float run. */
  function DataTypeDispatch(input: DataType, output: DataType): (r: Result<DataType, string>)
    ensures r.Ok? <==> input == output && (input == DT_HALF || input == DT_FLOAT)
    ensures r.Ok? ==> r.value == input
  {
    if input != output then Err("input.data_type == output.data_type")
    else if input == DT_HALF then Ok(DT_HALF)
    else if input == DT_FLOAT then Ok(DT_FLOAT)
    else Err("Unspported data type")
  }
}
