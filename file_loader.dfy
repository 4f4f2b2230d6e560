/** The weight-layout arithmetic of the file data loader: operator-name rewriting, the
    tensor-parallel rearrangement of Q/K/V biases and weights (with key/value-head
    replication), position fill, INT4/INT8 packing of quantized weights, weight-file name
    derivation and the replica copy.  File reads are left out: the contents of a file are
    a parameter. */
module FileLoader {
  import opened Wrappers
  import opened FFConst
  import IndexArith

  // ---------------------------------------------------------------------------
  // Strings
  // ---------------------------------------------------------------------------

  /** Index of the last occurrence of `c` in `s`, if any. */
  function LastIndexOf(s: string, c: char): (r: Option<nat>)
    ensures r.None? <==> c !in s
    ensures r.Some? ==> r.value < |s| && s[r.value] == c && c !in s[r.value + 1..]
  {
    if |s| == 0 then None
    else if s[|s| - 1] == c then Some(|s| - 1)
    else
      var r := LastIndexOf(s[..|s| - 1], c);
      assert s == s[..|s| - 1] + [s[|s| - 1]];
      assert r.Some? ==> s[r.value + 1..] == s[..|s| - 1][r.value + 1..] + [s[|s| - 1]];
      r
  }

  /** `removeGuidOperatorName`: drops the last `'_'` and everything after it; a name with no
      `'_'` is returned unchanged. */
  function RemoveGuidOperatorName(input: string): (r: string)
    ensures '_' !in input ==> r == input
    ensures '_' in input ==>
      |r| < |input| && r == input[..|r|] && input[|r|] == '_' && '_' !in input[|r| + 1..]
  {
    match LastIndexOf(input, '_')
    case None => input
    case Some(p) => input[..p]
  }

  /** `pat` occurs in `s` at position `p`. */
  predicate OccursAt(s: string, pat: string, p: nat)
  {
    p + |pat| <= |s| && s[p..p + |pat|] == pat
  }

  /** `std::string::find`: the first position at or after `from` where `pat` occurs. */
  function Find(s: string, pat: string, from: nat): (r: Option<nat>)
    decreases |s| - from
    ensures r.Some? ==> from <= r.value && OccursAt(s, pat, r.value) &&
                        forall q :: from <= q < r.value ==> !OccursAt(s, pat, q)
    ensures r.None? ==> forall q :: from <= q ==> !OccursAt(s, pat, q)
  {
    if from + |pat| > |s| then None
    else if s[from..from + |pat|] == pat then Some(from)
    else Find(s, pat, from + 1)
  }

  /** Deletes the first occurrence of `pat` (the in-place `replace(pos, len, "")`). */
  function RemoveFirst(s: string, pat: string): (r: string)
    ensures Find(s, pat, 0).None? ==> r == s
    ensures Find(s, pat, 0).Some? ==>
      |r| + |pat| == |s| &&
      r == s[..Find(s, pat, 0).value] + s[Find(s, pat, 0).value + |pat|..]
  {
    match Find(s, pat, 0)
    case None => s
    case Some(p) => s[..p] + s[p + |pat|..]
  }

  /** Putting the removed pattern back at the position it was found restores the name. */
  lemma RemoveFirstInverse(s: string, pat: string)
    requires Find(s, pat, 0).Some?
    ensures var p := Find(s, pat, 0).value;
            RemoveFirst(s, pat)[..p] + pat + RemoveFirst(s, pat)[p..] == s
  {
    var p := Find(s, pat, 0).value;
    ReinsertCut(s, p, |pat|, RemoveFirst(s, pat));
  }

  /** Cutting `n` characters at `p` and putting them back restores the string. */
  lemma ReinsertCut(s: string, p: nat, n: nat, r: string)
    requires p + n <= |s| && r == s[..p] + s[p + n..]
    ensures r[..p] + s[p..p + n] + r[p..] == s
  {
    assert r[..p] == s[..p];
    assert r[p..] == s[p + n..];
    assert s == s[..p] + s[p..p + n] + s[p + n..];
  }

  // ---------------------------------------------------------------------------
  // Per-head destination layout shared by the bias and weight loaders
  // ---------------------------------------------------------------------------

  /** Where the heads of one projection file go: `headsPerShard` consecutive heads form one of
      `numShards` tensor-parallel shards; shard `s` starts at `s * shardStride`, and inside a shard
      this file's heads occupy consecutive `unit`-sized slots from `base`. */
  datatype HeadLayout = HeadLayout(base: nat, shardStride: nat, headsPerShard: nat, unit: nat, numShards: nat)

  ghost predicate LayoutOk(l: HeadLayout)
  {
    l.headsPerShard > 0 && l.unit > 0 && l.base + l.headsPerShard * l.unit <= l.shardStride
  }

  /** The positions of a shard that a layout's heads occupy. */
  predicate InBand(l: HeadLayout, k: nat)
  {
    l.shardStride > 0 && l.base <= k % l.shardStride < l.base + l.headsPerShard * l.unit
  }

  lemma SlotInShard(l: HeadLayout, slot: nat, j: nat)
    requires LayoutOk(l) && slot < l.headsPerShard && j < l.unit
    ensures slot * l.unit + j < l.headsPerShard * l.unit
    ensures l.base + slot * l.unit + j < l.shardStride
  {
    IndexArith.MulLe(slot + 1, l.headsPerShard, l.unit);
    assert (slot + 1) * l.unit == slot * l.unit + l.unit;
  }

  /** Destination of element `j` of head `h`; it lies in shard `h / headsPerShard`, at the
      slot `h % headsPerShard` of the file's band. */
  function HeadDst(l: HeadLayout, h: nat, j: nat): (r: nat)
    requires LayoutOk(l) && h < l.numShards * l.headsPerShard && j < l.unit
    ensures r < l.numShards * l.shardStride
    ensures r / l.shardStride == h / l.headsPerShard
    ensures r % l.shardStride == l.base + (h % l.headsPerShard) * l.unit + j
    ensures InBand(l, r)
  {
    var shard := h / l.headsPerShard;
    var slot := h % l.headsPerShard;
    var offset := l.base + slot * l.unit + j;
    IndexArith.RowBound(h, l.numShards, l.headsPerShard);
    SlotInShard(l, slot, j);
    IndexArith.MulLe(0, slot, l.unit);
    IndexArith.DivModOf(shard, offset, l.shardStride);
    IndexArith.RowEnd(shard, offset, l.numShards, l.shardStride);
    shard * l.shardStride + offset
  }

  /** Different elements of a file never share a destination. */
  lemma HeadDstInjective(l: HeadLayout, h1: nat, j1: nat, h2: nat, j2: nat)
    requires LayoutOk(l)
    requires h1 < l.numShards * l.headsPerShard && j1 < l.unit
    requires h2 < l.numShards * l.headsPerShard && j2 < l.unit
    requires HeadDst(l, h1, j1) == HeadDst(l, h2, j2)
    ensures h1 == h2 && j1 == j2
  {
    var hps := l.headsPerShard;
    IndexArith.DivModUnique(h1 % hps, j1, h2 % hps, j2, l.unit);
    assert h1 == (h1 / hps) * hps + h1 % hps;
    assert h2 == (h2 / hps) * hps + h2 % hps;
  }

  /** The source row a destination head reads: head `h` of `replicateNum`-fold replicated heads
      reads source head `h / replicateNum`. */
  function SrcIndex(h: nat, j: nat, replicateNum: nat, unit: nat, srcHeads: nat): (r: nat)
    requires replicateNum > 0 && h < srcHeads * replicateNum && j < unit
    ensures r < srcHeads * unit
    ensures r / unit == h / replicateNum && r % unit == j
    ensures replicateNum == 1 ==> r == h * unit + j
  {
    IndexArith.RowBound(h, srcHeads, replicateNum);
    IndexArith.RowEnd(h / replicateNum, j, srcHeads, unit);
    IndexArith.DivModOf(h / replicateNum, j, unit);
    (h / replicateNum) * unit + j
  }

  /** The head loop of the bias loader and of the key/value weight loader: element `j` of
      destination head `h` is copied from element `j` of source head `h / replicateNum`. */
  method CopyHeads<T>(ptr: array<T>, host: seq<T>, l: HeadLayout, replicateNum: nat, srcHeads: nat)
    requires LayoutOk(l) && replicateNum > 0
    requires |host| == srcHeads * l.unit && l.numShards * l.headsPerShard <= srcHeads * replicateNum
    requires l.numShards * l.shardStride <= ptr.Length
    modifies ptr
    ensures forall h, j :: 0 <= h < l.numShards * l.headsPerShard && 0 <= j < l.unit ==>
      ptr[HeadDst(l, h, j)] == host[SrcIndex(h, j, replicateNum, l.unit, srcHeads)]
    ensures forall k :: 0 <= k < ptr.Length && !InBand(l, k) ==> ptr[k] == old(ptr[k])
    ensures forall k :: l.numShards * l.shardStride <= k < ptr.Length ==> ptr[k] == old(ptr[k])
  {
    var nHeads := l.numShards * l.headsPerShard;
    var i := 0;
    while i < nHeads
      invariant 0 <= i <= nHeads
      invariant forall h, j :: 0 <= h < i && 0 <= j < l.unit ==>
        ptr[HeadDst(l, h, j)] == host[SrcIndex(h, j, replicateNum, l.unit, srcHeads)]
      invariant forall k :: 0 <= k < ptr.Length && !InBand(l, k) ==> ptr[k] == old(ptr[k])
      invariant forall k :: l.numShards * l.shardStride <= k < ptr.Length ==> ptr[k] == old(ptr[k])
    {
      HeadRow(l, i);
      SrcRow(i, replicateNum, l.unit, srcHeads);
      var dst := HeadDst(l, i, 0);
      var src := SrcIndex(i, 0, replicateNum, l.unit, srcHeads);
      CopyAt(ptr, host[src..src + l.unit], dst);
      i := i + 1;
    }
  }

  /** The elements of one head lie next to each other, inside the file's band, and apart from
      every other head's elements. */
  lemma HeadRow(l: HeadLayout, h: nat)
    requires LayoutOk(l) && h < l.numShards * l.headsPerShard
    ensures HeadDst(l, h, 0) + l.unit <= l.numShards * l.shardStride
    ensures forall j :: 0 <= j < l.unit ==> HeadDst(l, h, j) == HeadDst(l, h, 0) + j
    ensures forall k :: HeadDst(l, h, 0) <= k < HeadDst(l, h, 0) + l.unit ==> InBand(l, k)
    ensures forall h', j :: 0 <= h' < l.numShards * l.headsPerShard && 0 <= j < l.unit && h' != h ==>
              !(HeadDst(l, h, 0) <= HeadDst(l, h', j) < HeadDst(l, h, 0) + l.unit)
  {
    var dst := HeadDst(l, h, 0);
    assert HeadDst(l, h, l.unit - 1) == dst + l.unit - 1;
    forall k | dst <= k < dst + l.unit
      ensures InBand(l, k)
    {
      assert HeadDst(l, h, k - dst) == k;
    }
    forall h', j | 0 <= h' < l.numShards * l.headsPerShard && 0 <= j < l.unit && h' != h
      ensures !(dst <= HeadDst(l, h', j) < dst + l.unit)
    {
      var k := HeadDst(l, h', j);
      if dst <= k < dst + l.unit {
        assert HeadDst(l, h, k - dst) == k;
        HeadDstInjective(l, h', j, h, k - dst);
      }
    }
  }

  /** The elements a head reads lie next to each other in the source. */
  lemma SrcRow(h: nat, replicateNum: nat, unit: nat, srcHeads: nat)
    requires replicateNum > 0 && h < srcHeads * replicateNum && unit > 0
    ensures SrcIndex(h, 0, replicateNum, unit, srcHeads) + unit <= srcHeads * unit
    ensures forall j :: 0 <= j < unit ==>
              SrcIndex(h, j, replicateNum, unit, srcHeads) == SrcIndex(h, 0, replicateNum, unit, srcHeads) + j
  {
    assert SrcIndex(h, unit - 1, replicateNum, unit, srcHeads) == SrcIndex(h, 0, replicateNum, unit, srcHeads) + unit - 1;
  }

  // ---------------------------------------------------------------------------
  // Q/K/V bias rearrangement
  // ---------------------------------------------------------------------------

  /** The attention dimensions the loaders receive. */
  datatype AttnDims = AttnDims(numHeads: nat, numKVHeads: nat, hiddenDim: nat, qkvInnerDim: nat, tpDegree: nat)

  /** The checks `load_attention_bias_v2` asserts before it rearranges (with the non-zero
      divisors its arithmetic needs). */
  predicate BiasDimsOk(d: AttnDims)
  {
    d.tpDegree > 0 && d.numHeads > 0 &&
    d.numHeads % d.tpDegree == 0 && d.numKVHeads % d.tpDegree == 0 &&
    d.hiddenDim % d.numHeads == 0 && d.qkvInnerDim == d.hiddenDim / d.numHeads
  }

  /** Heads in file `f` (0 = q, 1 = k, 2 = v). */
  function HeadsOf(d: AttnDims, f: nat): nat
  {
    if f == 0 then d.numHeads else d.numKVHeads
  }

  /** One shard's chunk: its query heads, then its key heads, then its value heads. */
  function ChunkSize(d: AttnDims): nat
    requires d.tpDegree > 0
  {
    (d.numHeads / d.tpDegree + 2 * (d.numKVHeads / d.tpDegree)) * d.qkvInnerDim
  }

  /** Heads of earlier files that precede file `f` inside one shard. */
  function PrevHeadsInShard(d: AttnDims, f: nat): nat
    requires d.tpDegree > 0
  {
    (if f == 2 then d.numHeads + d.numKVHeads else f * d.numHeads) / d.tpDegree
  }

  function BiasLayout(d: AttnDims, f: nat): HeadLayout
    requires d.tpDegree > 0
  {
    HeadLayout(PrevHeadsInShard(d, f) * d.qkvInnerDim, ChunkSize(d), HeadsOf(d, f) / d.tpDegree,
               d.qkvInnerDim, d.tpDegree)
  }

  lemma SplitEvenly(n: nat, t: nat)
    requires t > 0 && n % t == 0
    ensures t * (n / t) == n
  {
    assert n == (n / t) * t + n % t;
  }

  lemma SumDiv(a: nat, b: nat, t: nat)
    requires t > 0 && a % t == 0 && b % t == 0
    ensures (a + b) / t == a / t + b / t
  {
    SplitEvenly(a, t);
    SplitEvenly(b, t);
    IndexArith.DivModOf(a / t + b / t, 0, t);
    assert (a / t + b / t) * t == a + b;
  }

  /** Every file's layout is well formed and covers exactly its own heads: q heads come first in
      a shard, then k heads, then v heads, and the three bands fill the chunk. */
  lemma BiasLayoutOk(d: AttnDims, f: nat)
    requires BiasDimsOk(d) && d.qkvInnerDim > 0 && f < 3 && HeadsOf(d, f) > 0
    ensures LayoutOk(BiasLayout(d, f))
    ensures BiasLayout(d, f).numShards * BiasLayout(d, f).headsPerShard == HeadsOf(d, f)
    ensures PrevHeadsInShard(d, f) ==
            if f == 0 then 0 else if f == 1 then d.numHeads / d.tpDegree
            else d.numHeads / d.tpDegree + d.numKVHeads / d.tpDegree
  {
    SplitEvenly(HeadsOf(d, f), d.tpDegree);
    var inner := d.qkvInnerDim;
    var qps := d.numHeads / d.tpDegree;
    var kvps := d.numKVHeads / d.tpDegree;
    var hps := HeadsOf(d, f) / d.tpDegree;
    var prev: nat := if f == 0 then 0 else if f == 1 then qps else qps + kvps;
    if f == 2 {
      SumDiv(d.numHeads, d.numKVHeads, d.tpDegree);
    }
    assert PrevHeadsInShard(d, f) == prev;
    assert prev + hps <= qps + 2 * kvps;
    IndexArith.MulLe(prev + hps, qps + 2 * kvps, inner);
    assert (prev + hps) * inner == prev * inner + hps * inner;
  }

  /** Destination of element `j` of head `h` of bias file `f`:
      `shard * chunk + prev_heads * inner + (h % heads_per_shard) * inner + j`. */
  function BiasDst(d: AttnDims, f: nat, h: nat, j: nat): (r: nat)
    requires BiasDimsOk(d) && f < 3 && h < HeadsOf(d, f) && j < d.qkvInnerDim
    ensures r < d.tpDegree * ChunkSize(d)
    ensures InBand(BiasLayout(d, f), r)
  {
    BiasLayoutOk(d, f);
    HeadDst(BiasLayout(d, f), h, j)
  }

  /** The bands of two different files inside a shard do not overlap. */
  lemma BiasBandsDisjoint(d: AttnDims, f1: nat, f2: nat, k: nat)
    requires BiasDimsOk(d) && d.qkvInnerDim > 0 && f1 < 3 && f2 < 3 && f1 != f2
    requires HeadsOf(d, f1) > 0 && HeadsOf(d, f2) > 0
    requires InBand(BiasLayout(d, f1), k)
    ensures !InBand(BiasLayout(d, f2), k)
  {
    BiasBand(d, f1);
    BiasBand(d, f2);
  }

  /** Inside a shard, the band of file `f` runs from the end of the previous file's band to the
      start of the next one's: `[0, q)`, `[q, q + kv)`, `[q + kv, q + 2 kv)` with `q` and `kv`
      the per-shard query and key/value widths. */
  lemma BiasBand(d: AttnDims, f: nat)
    requires BiasDimsOk(d) && f < 3
    ensures var q := (d.numHeads / d.tpDegree) * d.qkvInnerDim;
      var kv := (d.numKVHeads / d.tpDegree) * d.qkvInnerDim;
      var l := BiasLayout(d, f);
      l.base == (if f == 0 then 0 else if f == 1 then q else q + kv) &&
      l.base + l.headsPerShard * l.unit == (if f == 0 then q else if f == 1 then q + kv else q + kv + kv)
  {
    var inner := d.qkvInnerDim;
    var qps := d.numHeads / d.tpDegree;
    var kvps := d.numKVHeads / d.tpDegree;
    if f == 0 {
      assert PrevHeadsInShard(d, f) == 0;
    } else if f == 1 {
      assert PrevHeadsInShard(d, f) == qps;
    } else {
      SumDiv(d.numHeads, d.numKVHeads, d.tpDegree);
      assert PrevHeadsInShard(d, f) == qps + kvps;
      IndexArith.MulDistrib(qps, kvps, inner);
    }
  }

  /** No two bias elements share a destination. */
  lemma BiasDstInjective(d: AttnDims, f1: nat, h1: nat, j1: nat, f2: nat, h2: nat, j2: nat)
    requires BiasDimsOk(d) && f1 < 3 && h1 < HeadsOf(d, f1) && j1 < d.qkvInnerDim
    requires f2 < 3 && h2 < HeadsOf(d, f2) && j2 < d.qkvInnerDim
    requires BiasDst(d, f1, h1, j1) == BiasDst(d, f2, h2, j2)
    ensures f1 == f2 && h1 == h2 && j1 == j2
  {
    if f1 != f2 {
      BiasBandsDisjoint(d, f1, f2, BiasDst(d, f1, h1, j1));
    } else {
      BiasLayoutOk(d, f1);
      HeadDstInjective(BiasLayout(d, f1), h1, j1, h2, j2);
    }
  }

  /** Splits an index below `n * size` into a block below `n` and an offset below `size`. */
  lemma ShardOf(k: nat, n: nat, size: nat) returns (block: nat, offset: nat)
    requires k < n * size
    ensures size > 0 && block < n && offset < size && k == block * size + offset
  {
    block, offset := k / size, k % size;
    IndexArith.RowBound(k, n, size);
  }

  /** Head `s * headsPerShard + slot` is the one placed at slot `slot` of shard `s`. */
  lemma HeadDstAt(l: HeadLayout, s: nat, slot: nat, j: nat)
    requires LayoutOk(l) && s < l.numShards && slot < l.headsPerShard && j < l.unit
    ensures s * l.headsPerShard + slot < l.numShards * l.headsPerShard
    ensures HeadDst(l, s * l.headsPerShard + slot, j) == s * l.shardStride + l.base + slot * l.unit + j
  {
    IndexArith.RowEnd(s, slot, l.numShards, l.headsPerShard);
    IndexArith.DivModOf(s, slot, l.headsPerShard);
  }

  /** The file, and the slot inside that file's band, that chunk offset slot `slot` belongs to. */
  lemma BiasSlotOwner(d: AttnDims, slot: nat) returns (f: nat, prev: nat)
    requires BiasDimsOk(d) && d.qkvInnerDim > 0
    requires slot < d.numHeads / d.tpDegree + 2 * (d.numKVHeads / d.tpDegree)
    ensures f < 3 && HeadsOf(d, f) > 0 && prev == PrevHeadsInShard(d, f)
    ensures prev <= slot < prev + HeadsOf(d, f) / d.tpDegree
  {
    var qps := d.numHeads / d.tpDegree;
    var kvps := d.numKVHeads / d.tpDegree;
    if slot < qps {
      f := 0;
    } else if slot < qps + kvps {
      f := 1;
    } else {
      f := 2;
    }
    SplitEvenly(HeadsOf(d, f), d.tpDegree);
    BiasLayoutOk(d, f);
    prev := PrevHeadsInShard(d, f);
  }

  /** Every position of the rearranged bias receives some element: the q, k and v bands
      tile each chunk, so together with `BiasDstInjective` the rearrangement is a bijection. */
  lemma BiasDstCovers(d: AttnDims, k: nat) returns (f: nat, h: nat, j: nat)
    requires BiasDimsOk(d) && d.qkvInnerDim > 0 && k < d.tpDegree * ChunkSize(d)
    ensures f < 3 && h < HeadsOf(d, f) && j < d.qkvInnerDim && BiasDst(d, f, h, j) == k
  {
    var inner := d.qkvInnerDim;
    var chunk := ChunkSize(d);
    var slots := d.numHeads / d.tpDegree + 2 * (d.numKVHeads / d.tpDegree);
    var s, o := ShardOf(k, d.tpDegree, chunk);
    var slot;
    slot, j := ShardOf(o, slots, inner);
    var prev;
    f, prev := BiasSlotOwner(d, slot);
    BiasLayoutOk(d, f);
    var l := BiasLayout(d, f);
    HeadDstAt(l, s, slot - prev, j);
    h := s * l.headsPerShard + (slot - prev);
    calc {
      BiasDst(d, f, h, j);
      HeadDst(l, h, j);
      s * chunk + prev * inner + (slot - prev) * inner + j;
      { IndexArith.MulSub(slot, prev, inner); }
      s * chunk + slot * inner + j;
      k;
    }
  }

  /** `load_attention_bias_v2`: the q, k and v bias files are rearranged into per-shard
      `[q heads][k heads][v heads]` chunks; element `j` of head `h` of file `f` lands at
      `BiasDst(d, f, h, j)`, and nothing past the last chunk is touched. */
  method LoadAttentionBias<T>(ptr: array<T>, d: AttnDims, files: seq<seq<T>>)
    requires BiasDimsOk(d) && d.qkvInnerDim > 0
    requires |files| == 3 && forall f :: 0 <= f < 3 ==> |files[f]| == HeadsOf(d, f) * d.qkvInnerDim
    requires d.tpDegree * ChunkSize(d) <= ptr.Length
    modifies ptr
    ensures forall f, h, j :: 0 <= f < 3 && 0 <= h < HeadsOf(d, f) && 0 <= j < d.qkvInnerDim ==>
      ptr[BiasDst(d, f, h, j)] == files[f][SrcIndex(h, j, 1, d.qkvInnerDim, HeadsOf(d, f))]
    ensures forall k :: d.tpDegree * ChunkSize(d) <= k < ptr.Length ==> ptr[k] == old(ptr[k])
  {
    var fileIndex := 0;
    while fileIndex < 3
      invariant 0 <= fileIndex <= 3
      invariant forall f, h, j :: 0 <= f < fileIndex && 0 <= h < HeadsOf(d, f) && 0 <= j < d.qkvInnerDim ==>
        ptr[BiasDst(d, f, h, j)] == files[f][SrcIndex(h, j, 1, d.qkvInnerDim, HeadsOf(d, f))]
      invariant forall k :: d.tpDegree * ChunkSize(d) <= k < ptr.Length ==> ptr[k] == old(ptr[k])
    {
      if HeadsOf(d, fileIndex) > 0 {
        BiasLayoutOk(d, fileIndex);
        var before := ptr[..];
        CopyHeads(ptr, files[fileIndex], BiasLayout(d, fileIndex), 1, HeadsOf(d, fileIndex));
        forall f, h, j | 0 <= f < fileIndex && 0 <= h < HeadsOf(d, f) && 0 <= j < d.qkvInnerDim
          ensures ptr[BiasDst(d, f, h, j)] == before[BiasDst(d, f, h, j)]
        {
          BiasBandsDisjoint(d, f, fileIndex, BiasDst(d, f, h, j));
        }
      }
      fileIndex := fileIndex + 1;
    }
  }

  // ---------------------------------------------------------------------------
  // Q/K/V weight rearrangement with key/value-head replication
  // ---------------------------------------------------------------------------

  /** What `load_attention_weights_to_dense_v2` needs of its dimensions: non-zero sizes, query
      heads split evenly over the shards, and query heads a multiple of key/value heads (otherwise
      the replicated head index runs past the key/value file and `host_array.at` throws). */
  predicate WeightDimsOk(d: AttnDims)
  {
    d.tpDegree > 0 && d.numHeads > 0 && d.numKVHeads > 0 && d.hiddenDim > 0 && d.qkvInnerDim > 0 &&
    d.numHeads % d.tpDegree == 0 && d.numHeads % d.numKVHeads == 0
  }

  /** Elements of one head's projection, and of a whole q (or replicated k/v) file. */
  function SingleProjSize(d: AttnDims): nat { d.hiddenDim * d.qkvInnerDim }

  function OneWeightFileSize(d: AttnDims): nat { d.numHeads * SingleProjSize(d) }

  function OnePartitionSize(d: AttnDims): nat
    requires d.tpDegree > 0
  {
    OneWeightFileSize(d) / d.tpDegree
  }

  /** Distance between consecutive shards: one shard's q, k and v partitions. */
  function StrideSize(d: AttnDims): nat
    requires d.tpDegree > 0
  {
    (OneWeightFileSize(d) + OneWeightFileSize(d) + OneWeightFileSize(d)) / d.tpDegree
  }

  /** The query file is striped by partitions: partition `i` of `tp` goes to shard `i`. */
  function QueryStripe(d: AttnDims): HeadLayout
    requires d.tpDegree > 0
  {
    HeadLayout(0, StrideSize(d), 1, OnePartitionSize(d), d.tpDegree)
  }

  /** Key (`f == 1`) and value (`f == 2`) heads: destination head `h` sits in shard
      `h / (num_heads / tp)`, at slot `h % (num_heads / tp)` after the shard's earlier partitions. */
  function KVLayout(d: AttnDims, f: nat): HeadLayout
    requires d.tpDegree > 0
  {
    HeadLayout(f * OnePartitionSize(d), StrideSize(d), d.numHeads / d.tpDegree, SingleProjSize(d), d.tpDegree)
  }

  /** Exact division distributes over a product. */
  lemma DivMulExact(n: nat, c: nat, t: nat)
    requires t > 0 && n % t == 0
    ensures (n * c) / t == (n / t) * c
  {
    SplitEvenly(n, t);
    assert n * c == ((n / t) * c) * t;
    IndexArith.DivModOf((n / t) * c, 0, t);
  }

  /** The sizes the loader computes: a partition is one shard's heads, a stride is three partitions,
      and all layouts are well formed. */
  lemma WeightSizes(d: AttnDims)
    requires WeightDimsOk(d)
    ensures OnePartitionSize(d) == (d.numHeads / d.tpDegree) * SingleProjSize(d)
    ensures StrideSize(d) == 3 * OnePartitionSize(d)
    ensures SingleProjSize(d) > 0 && OnePartitionSize(d) > 0
    ensures LayoutOk(QueryStripe(d)) && LayoutOk(KVLayout(d, 1)) && LayoutOk(KVLayout(d, 2))
    ensures d.tpDegree * (d.numHeads / d.tpDegree) == d.numHeads
    ensures d.numHeads <= d.numKVHeads * (d.numHeads / d.numKVHeads)
  {
    var sp := SingleProjSize(d);
    var hps := d.numHeads / d.tpDegree;
    SplitEvenly(d.numHeads, d.tpDegree);
    SplitEvenly(d.numHeads, d.numKVHeads);
    DivMulExact(d.numHeads, sp, d.tpDegree);
    DivMulExact(d.numHeads, 3 * sp, d.tpDegree);
    assert OneWeightFileSize(d) + OneWeightFileSize(d) + OneWeightFileSize(d) == d.numHeads * (3 * sp);
    assert hps * (3 * sp) == 3 * (hps * sp);
    assert sp > 0 by { IndexArith.MulLe(1, d.hiddenDim, d.qkvInnerDim); }
    assert hps > 0;
    IndexArith.MulLe(1, hps, sp);
  }

  /** Destination of element `j` of query partition `i`: `i * stride_size + j`. */
  function QueryDst(d: AttnDims, i: nat, j: nat): (r: nat)
    requires WeightDimsOk(d) && i < d.tpDegree && j < OnePartitionSize(d)
    ensures r < d.tpDegree * StrideSize(d) && InBand(QueryStripe(d), r)
  {
    WeightSizes(d);
    HeadDst(QueryStripe(d), i, j)
  }

  /** Destination of element `j` of replicated key (`f == 1`) or value (`f == 2`) head `h`. */
  function KVDst(d: AttnDims, f: nat, h: nat, j: nat): (r: nat)
    requires WeightDimsOk(d) && 1 <= f <= 2 && h < d.numHeads && j < SingleProjSize(d)
    ensures r < d.tpDegree * StrideSize(d) && InBand(KVLayout(d, f), r)
  {
    WeightSizes(d);
    HeadDst(KVLayout(d, f), h, j)
  }

  /** The query loop: row `j` of partition `i` is read from the running position `data_index`,
      which is always `i * one_partition_size + j`, and written at `base + i * stride + j`; the
      inner loop over `j` is one contiguous copy of the partition. */
  method StripePartitions<T>(ptr: array<T>, host: seq<T>, l: HeadLayout)
    requires LayoutOk(l) && l.headsPerShard == 1
    requires |host| == l.numShards * l.unit && l.numShards * l.shardStride <= ptr.Length
    modifies ptr
    ensures forall i, j :: 0 <= i < l.numShards && 0 <= j < l.unit ==>
      ptr[HeadDst(l, i, j)] == host[SrcIndex(i, j, 1, l.unit, l.numShards)]
    ensures forall k :: 0 <= k < ptr.Length && !InBand(l, k) ==> ptr[k] == old(ptr[k])
    ensures forall k :: l.numShards * l.shardStride <= k < ptr.Length ==> ptr[k] == old(ptr[k])
  {
    var dataIndex := 0;
    var i := 0;
    while i < l.numShards
      invariant 0 <= i <= l.numShards && dataIndex == i * l.unit
      invariant forall i', j :: 0 <= i' < i && 0 <= j < l.unit ==>
        ptr[HeadDst(l, i', j)] == host[SrcIndex(i', j, 1, l.unit, l.numShards)]
      invariant forall k :: 0 <= k < ptr.Length && !InBand(l, k) ==> ptr[k] == old(ptr[k])
      invariant forall k :: l.numShards * l.shardStride <= k < ptr.Length ==> ptr[k] == old(ptr[k])
    {
      PartitionBounds(l, i);
      var offset := l.base + i * l.shardStride;
      CopyAt(ptr, host[dataIndex..dataIndex + l.unit], offset);
      forall j | 0 <= j < l.unit
        ensures ptr[HeadDst(l, i, j)] == host[SrcIndex(i, j, 1, l.unit, l.numShards)]
      {
        HeadDstAt(l, i, 0, j);
      }
      forall k | offset <= k < offset + l.unit
        ensures k / l.shardStride == i && InBand(l, k)
      {
        IndexArith.DivModOf(i, k - i * l.shardStride, l.shardStride);
      }
      dataIndex := dataIndex + l.unit;
      i := i + 1;
    }
  }

  /** Partition `i` of a striped layout: its rows come right after the previous partitions in
      the source and its slot lies inside shard `i`. */
  lemma PartitionBounds(l: HeadLayout, i: nat)
    requires LayoutOk(l) && l.headsPerShard == 1 && i < l.numShards
    ensures i * l.unit + l.unit == (i + 1) * l.unit <= l.numShards * l.unit
    ensures l.base + i * l.shardStride + l.unit <= (i + 1) * l.shardStride <= l.numShards * l.shardStride
  {
    IndexArith.MulLe(i + 1, l.numShards, l.unit);
    IndexArith.MulLe(i + 1, l.numShards, l.shardStride);
    IndexArith.MulDistrib(i, 1, l.unit);
    IndexArith.MulDistrib(i, 1, l.shardStride);
  }

  /** `load_attention_weights_to_dense_v2` without the output projection: the query file is
      striped by partitions, then every destination head of the key and of the value block copies
      its replicated source head; `base_index` ends at one stride, as the loader asserts. */
  method LoadAttentionWeights<T>(ptr: array<T>, d: AttnDims, q: seq<T>, k: seq<T>, v: seq<T>)
    returns (baseIndex: nat)
    requires WeightDimsOk(d)
    requires |q| == OneWeightFileSize(d)
    requires |k| == d.numKVHeads * SingleProjSize(d) && |v| == d.numKVHeads * SingleProjSize(d)
    requires d.tpDegree * StrideSize(d) <= ptr.Length
    modifies ptr
    ensures baseIndex == (OneWeightFileSize(d) + OneWeightFileSize(d) + OneWeightFileSize(d)) / d.tpDegree
    ensures forall i, j :: 0 <= i < d.tpDegree && 0 <= j < OnePartitionSize(d) ==>
      ptr[QueryDst(d, i, j)] == q[QuerySrc(d, i, j)]
    ensures forall h, j :: 0 <= h < d.numHeads && 0 <= j < SingleProjSize(d) ==>
      ptr[KVDst(d, 1, h, j)] == k[KVSrc(d, h, j)]
    ensures forall h, j :: 0 <= h < d.numHeads && 0 <= j < SingleProjSize(d) ==>
      ptr[KVDst(d, 2, h, j)] == v[KVSrc(d, h, j)]
    ensures forall x :: d.tpDegree * StrideSize(d) <= x < ptr.Length ==> ptr[x] == old(ptr[x])
  {
    WeightSizes(d);
    LoadQueryAndKey(ptr, d, q, k);
    label AfterKey:
    CopyHeads(ptr, v, KVLayout(d, 2), d.numHeads / d.numKVHeads, d.numKVHeads);
    ValueBandDisjoint(d);
    forall i, j | 0 <= i < d.tpDegree && 0 <= j < OnePartitionSize(d)
      ensures ptr[QueryDst(d, i, j)] == old@AfterKey(ptr[QueryDst(d, i, j)])
    {
    }
    forall h, j | 0 <= h < d.numHeads && 0 <= j < SingleProjSize(d)
      ensures ptr[KVDst(d, 1, h, j)] == old@AfterKey(ptr[KVDst(d, 1, h, j)])
    {
    }
    baseIndex := 3 * OnePartitionSize(d);
  }

  /** The value block shares no position with the query and key blocks. */
  lemma ValueBandDisjoint(d: AttnDims)
    requires WeightDimsOk(d)
    ensures forall i, j :: 0 <= i < d.tpDegree && 0 <= j < OnePartitionSize(d) ==>
              !InBand(KVLayout(d, 2), QueryDst(d, i, j))
    ensures forall h, j :: 0 <= h < d.numHeads && 0 <= j < SingleProjSize(d) ==>
              !InBand(KVLayout(d, 2), KVDst(d, 1, h, j))
  {
    WeightSizes(d);
  }

  /** The query file holds one partition per shard. */
  lemma QueryFileSize(d: AttnDims)
    requires WeightDimsOk(d)
    ensures OneWeightFileSize(d) == d.tpDegree * OnePartitionSize(d)
  {
    WeightSizes(d);
    assert d.tpDegree * ((d.numHeads / d.tpDegree) * SingleProjSize(d)) == (d.tpDegree * (d.numHeads / d.tpDegree)) * SingleProjSize(d);
  }

  /** Source of element `j` of query partition `i`: the partitions lie one after another. */
  function QuerySrc(d: AttnDims, i: nat, j: nat): (r: nat)
    requires WeightDimsOk(d) && i < d.tpDegree && j < OnePartitionSize(d)
    ensures r < OneWeightFileSize(d)
  {
    QueryFileSize(d);
    SrcIndex(i, j, 1, OnePartitionSize(d), d.tpDegree)
  }

  /** Source of element `j` of key or value head `h`: the source head it replicates. */
  function KVSrc(d: AttnDims, h: nat, j: nat): (r: nat)
    requires WeightDimsOk(d) && h < d.numHeads && j < SingleProjSize(d)
    ensures r < d.numKVHeads * SingleProjSize(d)
  {
    WeightSizes(d);
    SrcIndex(h, j, d.numHeads / d.numKVHeads, SingleProjSize(d), d.numKVHeads)
  }

  /** The query and key loops of `load_attention_weights_to_dense_v2`. */
  method LoadQueryAndKey<T>(ptr: array<T>, d: AttnDims, q: seq<T>, k: seq<T>)
    requires WeightDimsOk(d)
    requires |q| == OneWeightFileSize(d)
    requires |k| == d.numKVHeads * SingleProjSize(d)
    requires d.tpDegree * StrideSize(d) <= ptr.Length
    modifies ptr
    ensures forall i, j :: 0 <= i < d.tpDegree && 0 <= j < OnePartitionSize(d) ==>
      ptr[QueryDst(d, i, j)] == q[QuerySrc(d, i, j)]
    ensures forall h, j :: 0 <= h < d.numHeads && 0 <= j < SingleProjSize(d) ==>
      ptr[KVDst(d, 1, h, j)] == k[KVSrc(d, h, j)]
    ensures forall x :: d.tpDegree * StrideSize(d) <= x < ptr.Length ==> ptr[x] == old(ptr[x])
  {
    WeightSizes(d);
    QueryFileSize(d);
    StripePartitions(ptr, q, QueryStripe(d));
    var afterQ := ptr[..];
    CopyHeads(ptr, k, KVLayout(d, 1), d.numHeads / d.numKVHeads, d.numKVHeads);
    forall i, j | 0 <= i < d.tpDegree && 0 <= j < OnePartitionSize(d)
      ensures ptr[QueryDst(d, i, j)] == afterQ[QueryDst(d, i, j)]
    {
      assert !InBand(KVLayout(d, 1), QueryDst(d, i, j));
    }
  }

  /** Query head `h` also follows the per-head layout: the partition striping puts element `j` of
      head `h` in shard `h / (num_heads / tp)` at slot `h % (num_heads / tp)`, exactly where the
      key and value loops put their heads (one partition earlier). */
  lemma QueryStripeIsPerHead(d: AttnDims, h: nat, j: nat)
    requires WeightDimsOk(d) && h < d.numHeads && j < SingleProjSize(d)
    ensures d.numHeads / d.tpDegree > 0
    ensures var hps := d.numHeads / d.tpDegree;
      var row := (h % hps) * SingleProjSize(d) + j;
      h / hps < d.tpDegree && row < OnePartitionSize(d) &&
      QueryDst(d, h / hps, row) + OnePartitionSize(d) == KVDst(d, 1, h, j) &&
      SrcIndex(h / hps, row, 1, OnePartitionSize(d), d.tpDegree) == h * SingleProjSize(d) + j
  {
    PartitionHeads(d);
    var hps := d.numHeads / d.tpDegree;
    var sp := SingleProjSize(d);
    var shard := h / hps;
    var slot := h % hps;
    var row := slot * sp + j;
    IndexArith.RowBound(h, d.tpDegree, hps);
    IndexArith.MulLe(slot + 1, hps, sp);
    IndexArith.MulDistrib(slot, 1, sp);
    assert row < OnePartitionSize(d);
    QueryDstIs(d, shard, row);
    assert shard * hps + slot == h;
    KeyDstIs(d, shard, slot, j);
    RowOfHead(shard, hps, slot, sp, j);
  }

  /** The heads of one shard's query partition. */
  lemma PartitionHeads(d: AttnDims)
    requires WeightDimsOk(d)
    ensures d.numHeads / d.tpDegree > 0 && d.tpDegree * (d.numHeads / d.tpDegree) == d.numHeads
    ensures OnePartitionSize(d) == (d.numHeads / d.tpDegree) * SingleProjSize(d)
  {
    WeightSizes(d);
  }

  lemma QueryDstIs(d: AttnDims, i: nat, row: nat)
    requires WeightDimsOk(d) && i < d.tpDegree && row < OnePartitionSize(d)
    ensures QueryDst(d, i, row) == i * StrideSize(d) + row
  {
    WeightSizes(d);
    HeadDstAt(QueryStripe(d), i, 0, row);
  }

  lemma KeyDstIs(d: AttnDims, shard: nat, slot: nat, j: nat)
    requires WeightDimsOk(d) && shard < d.tpDegree && d.numHeads / d.tpDegree > 0
    requires slot < d.numHeads / d.tpDegree && j < SingleProjSize(d)
    ensures shard * (d.numHeads / d.tpDegree) + slot < d.numHeads
    ensures KVDst(d, 1, shard * (d.numHeads / d.tpDegree) + slot, j)
         == shard * StrideSize(d) + OnePartitionSize(d) + slot * SingleProjSize(d) + j
  {
    WeightSizes(d);
    HeadDstAt(KVLayout(d, 1), shard, slot, j);
  }

  lemma RowOfHead(shard: nat, hps: nat, slot: nat, sp: nat, j: nat)
    ensures shard * (hps * sp) + (slot * sp + j) == (shard * hps + slot) * sp + j
  {
    assert shard * (hps * sp) == (shard * hps) * sp;
    assert (shard * hps) * sp + slot * sp == (shard * hps + slot) * sp;
  }

  // ---------------------------------------------------------------------------
  // Verbatim copies and position fill
  // ---------------------------------------------------------------------------

  /** The second pass of the output-projection branch of `load_attention_weights_to_dense_v2`
      copies the file element by element into the front of the buffer. */
  method CopyVerbatim<T>(ptr: array<T>, host: seq<T>)
    requires |host| <= ptr.Length
    modifies ptr
    ensures ptr[..|host|] == host
    ensures ptr[|host|..] == old(ptr[|host|..])
  {
    var dataIndex := 0;
    while dataIndex < |host|
      invariant 0 <= dataIndex <= |host|
      invariant ptr[..dataIndex] == host[..dataIndex]
      invariant ptr[dataIndex..] == old(ptr[dataIndex..])
    {
      ptr[dataIndex] := host[dataIndex];
      dataIndex := dataIndex + 1;
    }
  }

  /** Product of a tensor's dimensions. */
  function Volume(dims: seq<nat>): nat
  {
    if |dims| == 0 then 1 else Volume(dims[..|dims| - 1]) * dims[|dims| - 1]
  }

  /** Position id of flat element `i`: its place inside a sequence of `maxSeqLength`, shifted by `offset`. */
  function PositionOf(i: nat, maxSeqLength: nat, offset: int): (r: int)
    requires maxSeqLength > 0
    ensures offset <= r < offset + maxSeqLength
  {
    i % maxSeqLength + offset
  }

  /** `load_positions`: the volume is the product of the dimensions, and element `i` gets
      `i % max_seq_length + offset`. */
  method LoadPositions(dims: seq<nat>, maxSeqLength: nat, offset: int) returns (data: array<int>)
    requires maxSeqLength > 0
    ensures fresh(data) && data.Length == Volume(dims)
    ensures forall i :: 0 <= i < data.Length ==> data[i] == PositionOf(i, maxSeqLength, offset)
  {
    var volume := 1;
    var k := 0;
    while k < |dims|
      invariant 0 <= k <= |dims| && volume == Volume(dims[..k])
    {
      assert dims[..k + 1][..k] == dims[..k];
      volume := volume * dims[k];
      k := k + 1;
    }
    assert dims[..|dims|] == dims;
    data := new int[volume];
    var i := 0;
    while i < volume
      invariant 0 <= i <= volume
      invariant forall j :: 0 <= j < i ==> data[j] == PositionOf(j, maxSeqLength, offset)
    {
      data[i] := i % maxSeqLength + offset;
      i := i + 1;
    }
  }

  /** Position `p` of the `s`-th sequence gets position id `p + offset`: ids restart at every
      multiple of `maxSeqLength`. */
  lemma PositionsRestartPerSequence(s: nat, p: nat, maxSeqLength: nat, offset: int)
    requires p < maxSeqLength
    ensures PositionOf(s * maxSeqLength + p, maxSeqLength, offset) == p + offset
  {
    IndexArith.DivModOf(s, p, maxSeqLength);
  }

  // ---------------------------------------------------------------------------
  // Quantized weights
  // ---------------------------------------------------------------------------

  /** One INT4 output byte: the first value in the high nibble, the second in the low one. */
  function PackNibbles(v1: bv8, v2: bv8): bv8
  {
    (v2 & 0xF) | (v1 << 4)
  }

  function HighNibble(b: bv8): bv8 { b >> 4 }

  function LowNibble(b: bv8): bv8 { b & 0xF }

  /** Packing keeps the low four bits of both values, each in its own nibble. */
  lemma PackNibblesRoundTrip(v1: bv8, v2: bv8)
    ensures HighNibble(PackNibbles(v1, v2)) == v1 & 0xF
    ensures LowNibble(PackNibbles(v1, v2)) == v2 & 0xF
  {
  }

  /** The packed value bytes of a quantized file. */
  function Packed(host: seq<bv8>, dataType: DataType): (r: seq<bv8>)
    requires dataType == DT_INT4 ==> |host| % 2 == 0
    ensures |r| == if dataType == DT_INT4 then |host| / 2 else |host|
  {
    if dataType == DT_INT4 then seq(|host| / 2, k requires 0 <= k < |host| / 2 => PackNibbles(host[2 * k], host[2 * k + 1]))
    else host
  }

  /** Reading the nibbles back from INT4-packed bytes gives the 4-bit values that were packed. */
  function Unpacked(packed: seq<bv8>): (r: seq<bv8>)
    ensures |r| == 2 * |packed|
  {
    if |packed| == 0 then []
    else Unpacked(packed[..|packed| - 1]) + [HighNibble(packed[|packed| - 1]), LowNibble(packed[|packed| - 1])]
  }

  predicate AllNibbles(s: seq<bv8>)
  {
    forall k :: 0 <= k < |s| ==> s[k] < 16
  }

  /** For 4-bit values, unpacking undoes packing. */
  lemma {:induction false} UnpackPacked(host: seq<bv8>)
    requires |host| % 2 == 0 && AllNibbles(host)
    ensures Unpacked(Packed(host, DT_INT4)) == host
  {
    if |host| > 0 {
      var n := |host|;
      var prefix := host[..n - 2];
      PackedLastPair(host);
      UnpackPacked(prefix);
      NibblePairRoundTrip(host[n - 2], host[n - 1]);
      assert host == prefix + [host[n - 2], host[n - 1]];
    }
  }

  /** Packing the last pair of inputs adds one byte to the packing of the others. */
  lemma PackedLastPair(host: seq<bv8>)
    requires |host| % 2 == 0 && |host| > 0
    ensures Packed(host, DT_INT4)
         == Packed(host[..|host| - 2], DT_INT4) + [PackNibbles(host[|host| - 2], host[|host| - 1])]
  {
    var n := |host|;
    assert Packed(host, DT_INT4)[..n / 2 - 1] == Packed(host[..n - 2], DT_INT4);
  }

  /** Unpacking a byte of two 4-bit values gives the two values back. */
  lemma NibblePairRoundTrip(v1: bv8, v2: bv8)
    requires v1 < 16 && v2 < 16
    ensures [HighNibble(PackNibbles(v1, v2)), LowNibble(PackNibbles(v1, v2))] == [v1, v2]
  {
    PackNibblesRoundTrip(v1, v2);
    assert v1 & 0xF == v1 && v2 & 0xF == v2;
  }

  /** The value loop of `load_from_quantized_file`: two INT4 inputs per output byte, or one INT8
      input per byte; returns how many bytes were written. */
  method PackValues(ptr: array<bv8>, host: seq<bv8>, dataType: DataType) returns (dataIndex: nat)
    requires dataType == DT_INT4 || dataType == DT_INT8
    requires dataType == DT_INT4 ==> |host| % 2 == 0
    requires |Packed(host, dataType)| <= ptr.Length
    modifies ptr
    ensures dataIndex == |Packed(host, dataType)|
    ensures ptr[..dataIndex] == Packed(host, dataType)
    ensures ptr[dataIndex..] == old(ptr[dataIndex..])
  {
    if dataType == DT_INT4 {
      dataIndex := PackInt4(ptr, host);
    } else {
      dataIndex := CopyInt8(ptr, host);
    }
  }

  /** The INT4 branch: the byte `k` holds inputs `2k` (high nibble) and `2k + 1` (low nibble). */
  method PackInt4(ptr: array<bv8>, host: seq<bv8>) returns (dataIndex: nat)
    requires |host| % 2 == 0 && |host| / 2 <= ptr.Length
    modifies ptr
    ensures dataIndex == |host| / 2
    ensures ptr[..dataIndex] == Packed(host, DT_INT4)
    ensures ptr[dataIndex..] == old(ptr[dataIndex..])
  {
    ghost var packed := Packed(host, DT_INT4);
    var idx := 0;
    dataIndex := 0;
    while idx < |host|
      invariant idx == 2 * dataIndex && idx <= |host|
      invariant forall k :: 0 <= k < dataIndex ==> ptr[k] == packed[k]
      invariant forall k :: dataIndex <= k < ptr.Length ==> ptr[k] == old(ptr[k])
    {
      var v1 := host[idx];
      var v2 := host[idx + 1];
      ptr[dataIndex] := PackNibbles(v1, v2);
      dataIndex := dataIndex + 1;
      idx := idx + 2;
    }
    assert ptr[..dataIndex] == packed;
    assert ptr[dataIndex..] == old(ptr[dataIndex..]);
  }

  /** The INT8 branch: one input per byte. */
  method CopyInt8(ptr: array<bv8>, host: seq<bv8>) returns (dataIndex: nat)
    requires |host| <= ptr.Length
    modifies ptr
    ensures dataIndex == |host|
    ensures ptr[..dataIndex] == host
    ensures ptr[dataIndex..] == old(ptr[dataIndex..])
  {
    dataIndex := 0;
    while dataIndex < |host|
      invariant dataIndex <= |host|
      invariant forall k :: 0 <= k < dataIndex ==> ptr[k] == host[k]
      invariant forall k :: dataIndex <= k < ptr.Length ==> ptr[k] == old(ptr[k])
    {
      ptr[dataIndex] := host[dataIndex];
      dataIndex := dataIndex + 1;
    }
    assert ptr[..dataIndex] == host;
    assert ptr[dataIndex..] == old(ptr[dataIndex..]);
  }

  /** Byte sizes of the value, offset and scale files of a quantized weight of `size` bytes. */
  datatype QuantizedSizes = QuantizedSizes(valueSize: nat, offsetSize: nat, scalingSize: nat)

  /** `load_from_quantized_file` accepts INT4 and INT8 only; the split depends on the type and on
      whether offsets and scales are stored as floats or halves. */
  function QuantizedSplit(size: nat, dataType: DataType, useFullPrecision: bool): (r: Result<QuantizedSizes, string>)
    ensures r.Ok? <==> dataType == DT_INT4 || dataType == DT_INT8
    ensures r.Ok? ==> r.value.offsetSize == r.value.scalingSize
    ensures r.Ok? && dataType == DT_INT4 ==> r.value.valueSize % 2 == 0
  {
    if dataType == DT_INT4 then
      Ok(QuantizedSizes(2 * (if useFullPrecision then size * 2 / 3 else size * 4 / 5),
                        if useFullPrecision then size / 6 else size / 10,
                        if useFullPrecision then size / 6 else size / 10))
    else if dataType == DT_INT8 then
      Ok(QuantizedSizes(if useFullPrecision then size * 4 / 5 else size * 8 / 9,
                        if useFullPrecision then size / 10 else size / 18,
                        if useFullPrecision then size / 10 else size / 18))
    else Err("data_type == DT_INT4 || data_type == DT_INT8")
  }

  /** Bytes one offset or scale element takes: a float, or a half. */
  function MetaElemBytes(useFullPrecision: bool): nat { if useFullPrecision then 4 else 2 }

  /** Bytes the loader writes: the packed values, then every whole offset element, then every
      whole scale element. */
  function QuantizedBytesWritten(q: QuantizedSizes, dataType: DataType, useFullPrecision: bool): nat
  {
    var e := MetaElemBytes(useFullPrecision);
    (if dataType == DT_INT4 then q.valueSize / 2 else q.valueSize) +
    (q.offsetSize / e) * e + (q.scalingSize / e) * e
  }

  /** The granularity at which a quantized weight's parts come out whole. */
  function QuantizedGranule(dataType: DataType, useFullPrecision: bool): nat
  {
    if dataType == DT_INT4 then (if useFullPrecision then 24 else 20)
    else (if useFullPrecision then 40 else 36)
  }

  /** For a weight whose size is a multiple of the granule, the three parts fill the buffer exactly:
      the packed values, the offsets and the scales add up to `size` bytes. */
  lemma QuantizedFillsBuffer(size: nat, dataType: DataType, useFullPrecision: bool)
    requires dataType == DT_INT4 || dataType == DT_INT8
    requires size % QuantizedGranule(dataType, useFullPrecision) == 0
    ensures QuantizedBytesWritten(QuantizedSplit(size, dataType, useFullPrecision).value, dataType, useFullPrecision) == size
  {
    var g := QuantizedGranule(dataType, useFullPrecision);
    var n := size / g;
    assert size == n * g;
    var q := QuantizedSplit(size, dataType, useFullPrecision).value;
    var e := MetaElemBytes(useFullPrecision);
    if dataType == DT_INT4 && useFullPrecision {
      IndexArith.DivModOf(16 * n, 0, 3);
      IndexArith.DivModOf(4 * n, 0, 6);
      IndexArith.DivModOf(n, 0, 4);
      assert q.valueSize / 2 == 16 * n by { IndexArith.DivModOf(16 * n, 0, 2); }
    } else if dataType == DT_INT4 {
      IndexArith.DivModOf(16 * n, 0, 5);
      IndexArith.DivModOf(2 * n, 0, 10);
      IndexArith.DivModOf(n, 0, 2);
      assert q.valueSize / 2 == 16 * n by { IndexArith.DivModOf(16 * n, 0, 2); }
    } else if useFullPrecision {
      IndexArith.DivModOf(32 * n, 0, 5);
      IndexArith.DivModOf(4 * n, 0, 10);
      IndexArith.DivModOf(n, 0, 4);
    } else {
      IndexArith.DivModOf(32 * n, 0, 9);
      IndexArith.DivModOf(2 * n, 0, 18);
      IndexArith.DivModOf(n, 0, 2);
    }
  }

  /** `load_attention_weights_quantized` interleaves the four projections head by head: byte `j`
      of head `i` of file `f` (q, k, v, o) lands at `i * one_head_size * 4 + f * one_head_size + j`. */
  function QuantizedHeadDst(i: nat, f: nat, j: nat, oneHeadSize: nat): nat
  {
    i * oneHeadSize * 4 + f * oneHeadSize + j
  }

  /** Bytes per head and projection: half the elements for INT4, all of them for INT8. */
  function QuantizedOneHeadSize(hiddenDim: nat, numHeads: nat, dataType: DataType): nat
    requires numHeads > 0
  {
    if dataType == DT_INT8 then hiddenDim * (hiddenDim / numHeads)
    else hiddenDim * (hiddenDim / numHeads) / 2
  }

  /** The interleaved head blocks never overlap and all lie in the first `num_heads * 4` blocks. */
  lemma QuantizedHeadDstTiles(i1: nat, f1: nat, j1: nat, i2: nat, f2: nat, j2: nat, oneHeadSize: nat, numHeads: nat)
    requires i1 < numHeads && i2 < numHeads && f1 < 4 && f2 < 4 && j1 < oneHeadSize && j2 < oneHeadSize
    ensures QuantizedHeadDst(i1, f1, j1, oneHeadSize) < numHeads * 4 * oneHeadSize
    ensures QuantizedHeadDst(i1, f1, j1, oneHeadSize) == QuantizedHeadDst(i2, f2, j2, oneHeadSize)
            ==> i1 == i2 && f1 == f2 && j1 == j2
  {
    Interleave(i1, f1, oneHeadSize);
    Interleave(i2, f2, oneHeadSize);
    IndexArith.RowEnd(i1, f1, numHeads, 4);
    IndexArith.RowEnd(i1 * 4 + f1, j1, numHeads * 4, oneHeadSize);
    if QuantizedHeadDst(i1, f1, j1, oneHeadSize) == QuantizedHeadDst(i2, f2, j2, oneHeadSize) {
      IndexArith.DivModUnique(i1 * 4 + f1, j1, i2 * 4 + f2, j2, oneHeadSize);
      IndexArith.DivModUnique(i1, f1, i2, f2, 4);
    }
  }

  lemma Interleave(i: nat, f: nat, h: nat)
    ensures i * h * 4 + f * h == (i * 4 + f) * h
  {
    assert i * h * 4 == (i * 4) * h;
  }

  /** The offsets and scales are appended right after the last head block: for INT8 at
      `one_weight_file_size * 4`, for INT4 (with an even head) at half of that. */
  lemma QuantizedMetaFollowsHeads(hiddenDim: nat, numHeads: nat, dataType: DataType)
    requires numHeads > 0 && (dataType == DT_INT4 || dataType == DT_INT8)
    requires dataType == DT_INT4 ==> (hiddenDim * (hiddenDim / numHeads)) % 2 == 0
    ensures var oneWeightFileSize := numHeads * (hiddenDim * (hiddenDim / numHeads));
            var offset := if dataType == DT_INT8 then oneWeightFileSize * 4 else (oneWeightFileSize * 4) / 2;
            offset == numHeads * 4 * QuantizedOneHeadSize(hiddenDim, numHeads, dataType)
  {
    var single := hiddenDim * (hiddenDim / numHeads);
    assert QuantizedOneHeadSize(hiddenDim, numHeads, dataType) ==
           if dataType == DT_INT8 then single else single / 2;
    Regroup(numHeads, single);
    if dataType != DT_INT8 {
      HalfOfEven(numHeads, single);
    }
  }

  lemma Regroup(n: nat, single: nat)
    ensures n * single * 4 == n * 4 * single
  {
  }

  lemma HalfOfEven(n: nat, single: nat)
    requires single % 2 == 0
    ensures (n * single * 4) / 2 == n * 4 * (single / 2)
  {
    var half := single / 2;
    assert single == half * 2;
    assert n * single * 4 == (n * 4 * half) * 2;
    IndexArith.DivModOf(n * 4 * half, 0, 2);
  }

  // ---------------------------------------------------------------------------
  // Weight-file names and the replica copy
  // ---------------------------------------------------------------------------

  /** Operator kinds the weight loader distinguishes. */
  datatype OpType =
    | OP_INC_MULTIHEAD_SELF_ATTENTION
    | OP_SPEC_INC_MULTIHEAD_SELF_ATTENTION
    | OP_TREE_INC_MULTIHEAD_SELF_ATTENTION
    | OP_ADD_BIAS_RESIDUAL_LAYERNORM
    | OP_OTHER

  /** What `load_single_weight_tensor` reads for a weight. */
  datatype WeightSource =
    | NotLoaded                                      // attention operators, or benchmarking mode
    | AttentionProjection(layer: string, outputProjection: bool, isBias: bool)
    | WeightFile(name: string)

  const LM_HEAD_NAME: string := "embed_tokens_weight_lm_head"

  /** Attention projections are recognised by `attn.` or `self_attention.` in the name. */
  predicate IsAttentionProjection(name: string)
  {
    Find(name, "attn.", 0).Some? || Find(name, "self_attention.", 0).Some?
  }

  /** The file suffix of weight `weightIdx` of an add-bias-residual-layernorm operator, behind the
      guard as written in the source: `weight_idx >= 0 || weight_idx <= 2`. */
  function LayerNormSuffixAsWritten(weightIdx: int): Result<string, string>
  {
    if weightIdx >= 0 || weightIdx <= 2 then
      Ok(if weightIdx == 0 then ".attn_bias" else if weightIdx == 1 then ".weight" else ".bias")
    else Err("weight_idx >= 0 || weight_idx <= 2")
  }

  /** The guard as written holds for every index, so an out-of-range index such as 3 is accepted
      and silently mapped to the bias file. */
  lemma LayerNormGuardAsWrittenAcceptsAll(weightIdx: int)
    ensures LayerNormSuffixAsWritten(weightIdx).Ok?
    ensures weightIdx > 2 ==> LayerNormSuffixAsWritten(weightIdx) == Ok(".bias")
  {
  }

  /** The guard as evidently intended, `0 <= weight_idx <= 2`: each of the three weights gets its
      own file and any other index is rejected. */
  function LayerNormSuffix(weightIdx: int): (r: Result<string, string>)
    ensures r.Ok? <==> 0 <= weightIdx <= 2
    ensures r.Ok? ==> r.value in {".attn_bias", ".weight", ".bias"}
  {
    if 0 <= weightIdx <= 2 then
      Ok(if weightIdx == 0 then ".attn_bias" else if weightIdx == 1 then ".weight" else ".bias")
    else Err("weight_idx >= 0 && weight_idx <= 2")
  }

  /** Different layernorm weights read different files. */
  lemma LayerNormSuffixInjective(i1: int, i2: int)
    requires LayerNormSuffix(i1).Ok? && LayerNormSuffix(i2).Ok? && i1 != i2
    ensures LayerNormSuffix(i1).value != LayerNormSuffix(i2).value
  {
    assert ".attn_bias"[1] != ".weight"[1] && ".attn_bias"[1] != ".bias"[1] && ".weight"[1] != ".bias"[1];
  }

  /** Suffix of weight `weightIdx` (0 or 1) of any other operator; the language-model head is
      stored under its bare name. */
  function DefaultWeightFile(name: string, weightIdx: int): (r: Result<string, string>)
    ensures r.Ok? <==> weightIdx == 0 || weightIdx == 1
    ensures r.Ok? && name == LM_HEAD_NAME ==> r.value == name
    ensures r.Ok? && name != LM_HEAD_NAME ==>
      r.value == name + (if weightIdx == 0 then ".weight" else ".bias")
  {
    if weightIdx != 0 && weightIdx != 1 then Err("weight_idx == 0 || weight_idx == 1")
    else if name != LM_HEAD_NAME then Ok(name + (if weightIdx == 0 then ".weight" else ".bias"))
    else Ok(name)
  }

  /** The name rewrite for attention projections: drop `.o_proj` (output projection) or else the
      required `.qkv_proj`. */
  function AttentionLayerName(name: string): (r: Result<(string, bool), string>)
    ensures r.Err? <==> Find(name, ".o_proj", 0).None? && Find(name, ".qkv_proj", 0).None?
    ensures r.Ok? && r.value.1 ==> Find(name, ".o_proj", 0).Some? && r.value.0 == RemoveFirst(name, ".o_proj")
    ensures r.Ok? && !r.value.1 ==> Find(name, ".o_proj", 0).None? && r.value.0 == RemoveFirst(name, ".qkv_proj")
  {
    if Find(name, ".o_proj", 0).Some? then Ok((RemoveFirst(name, ".o_proj"), true))
    else if Find(name, ".qkv_proj", 0).Some? then Ok((RemoveFirst(name, ".qkv_proj"), false))
    else Err("pos != std::string::npos")
  }

  /** The fused attention operators, whose weights `load_single_weight_tensor` leaves alone. */
  predicate IsAttentionOp(opType: OpType)
  {
    opType.OP_INC_MULTIHEAD_SELF_ATTENTION? || opType.OP_SPEC_INC_MULTIHEAD_SELF_ATTENTION? ||
    opType.OP_TREE_INC_MULTIHEAD_SELF_ATTENTION?
  }

  /** An attention projection whose name carries neither `.o_proj` nor `.qkv_proj`: the assert
      that fires before any other branch is taken. */
  predicate ProjectionNameMissing(name: string)
  {
    IsAttentionProjection(name) && AttentionLayerName(name).Err?
  }

  /** `load_single_weight_tensor`: which file a weight of an operator named `layerName` comes from,
      with the layernorm guard as written. */
  function WeightSourceFor(layerName: string, opType: OpType, weightIdx: int, benchmarking: bool): (r: Result<WeightSource, string>)
    ensures var name := RemoveGuidOperatorName(layerName);
      r.Err? <==> ProjectionNameMissing(name) ||
                  (!benchmarking && opType == OP_OTHER && !IsAttentionProjection(name) &&
                   weightIdx != 0 && weightIdx != 1)
    ensures var name := RemoveGuidOperatorName(layerName);
      !ProjectionNameMissing(name) && (benchmarking || IsAttentionOp(opType)) ==> r == Ok(NotLoaded)
    ensures var name := RemoveGuidOperatorName(layerName);
      !benchmarking && !IsAttentionOp(opType) && IsAttentionProjection(name) && AttentionLayerName(name).Ok? ==>
        r == Ok(AttentionProjection(AttentionLayerName(name).value.0, AttentionLayerName(name).value.1, weightIdx != 0))
    ensures var name := RemoveGuidOperatorName(layerName);
      !benchmarking && opType == OP_ADD_BIAS_RESIDUAL_LAYERNORM && !IsAttentionProjection(name) ==>
        LayerNormSuffixAsWritten(weightIdx).Ok? &&
        r == Ok(WeightFile(name + LayerNormSuffixAsWritten(weightIdx).value))
    ensures var name := RemoveGuidOperatorName(layerName);
      !benchmarking && opType == OP_OTHER && !IsAttentionProjection(name) && DefaultWeightFile(name, weightIdx).Ok? ==>
        r == Ok(WeightFile(DefaultWeightFile(name, weightIdx).value))
  {
    var name := RemoveGuidOperatorName(layerName);
    var attn := IsAttentionProjection(name);
    var renamed := if attn then AttentionLayerName(name) else Ok((name, false));
    if renamed.Err? then Err(renamed.error)
    else if benchmarking then Ok(NotLoaded)
    else if IsAttentionOp(opType) then Ok(NotLoaded)
    else if attn then Ok(AttentionProjection(renamed.value.0, renamed.value.1, weightIdx != 0))
    else if opType == OP_ADD_BIAS_RESIDUAL_LAYERNORM then
      match LayerNormSuffixAsWritten(weightIdx)
      case Ok(suffix) => Ok(WeightFile(name + suffix))
      case Err(e) => Err(e)
    else
      match DefaultWeightFile(name, weightIdx)
      case Ok(file) => Ok(WeightFile(file))
      case Err(e) => Err(e)
  }

  /** On the indices the intended guard admits, the loader reads the file the corrected suffix
      names; index 3 is loaded from the bias file, although the intended guard rejects it. */
  lemma {:induction false} LayerNormFileUnderIntendedGuard(layerName: string, weightIdx: int)
    requires !IsAttentionProjection(RemoveGuidOperatorName(layerName))
    ensures LayerNormSuffix(weightIdx).Ok? ==>
      WeightSourceFor(layerName, OP_ADD_BIAS_RESIDUAL_LAYERNORM, weightIdx, false)
        == Ok(WeightFile(RemoveGuidOperatorName(layerName) + LayerNormSuffix(weightIdx).value))
    ensures WeightSourceFor(layerName, OP_ADD_BIAS_RESIDUAL_LAYERNORM, 3, false)
              == Ok(WeightFile(RemoveGuidOperatorName(layerName) + ".bias"))
    ensures LayerNormSuffix(3).Err?
  {
    LayerNormGuardAsWrittenAcceptsAll(3);
  }

  /** Two weights of one plain operator read two different files, except for the language-model
      head, whose weight and bias share its bare name. */
  lemma DefaultWeightFileInjective(name: string, i1: int, i2: int)
    requires DefaultWeightFile(name, i1).Ok? && DefaultWeightFile(name, i2).Ok? && i1 != i2
    ensures DefaultWeightFile(name, i1).value != DefaultWeightFile(name, i2).value <==> name != LM_HEAD_NAME
  {
    if name != LM_HEAD_NAME {
      var f1 := DefaultWeightFile(name, i1).value;
      var f2 := DefaultWeightFile(name, i2).value;
      assert f1[|name| + 1] != f2[|name| + 1];
    }
  }

  /** The projection layer name the attention loaders receive, with the cut-out pattern put back
      at its place, is the weight's operator name again. */
  lemma ProjectionLayerRestores(layerName: string, opType: OpType, weightIdx: int)
    requires WeightSourceFor(layerName, opType, weightIdx, false).Ok?
    requires WeightSourceFor(layerName, opType, weightIdx, false).value.AttentionProjection?
    ensures var name := RemoveGuidOperatorName(layerName);
      var src := WeightSourceFor(layerName, opType, weightIdx, false).value;
      var pat := if src.outputProjection then ".o_proj" else ".qkv_proj";
      var pos := Find(name, pat, 0).value;
      src.layer[..pos] + pat + src.layer[pos..] == name
  {
    var name := RemoveGuidOperatorName(layerName);
    var src := WeightSourceFor(layerName, opType, weightIdx, false).value;
    var pat := if src.outputProjection then ".o_proj" else ".qkv_proj";
    RemoveFirstInverse(name, pat);
  }

  /** The replica copy: the loaded buffer is written `numReplicas` times back to back, so element
      `k` of the weight is element `k % volume` of the buffer. */
  method CopyReplicas<T>(weight: array<T>, data: seq<T>, numReplicas: nat)
    requires numReplicas * |data| <= weight.Length
    modifies weight
    ensures forall k :: 0 <= k < numReplicas * |data| ==> weight[k] == data[k % |data|]
    ensures weight[numReplicas * |data|..] == old(weight[numReplicas * |data|..])
  {
    var volume := |data|;
    var i := 0;
    var base := 0;
    while i < numReplicas
      invariant 0 <= i <= numReplicas && base == i * volume && base <= numReplicas * volume
      invariant forall k :: 0 <= k < base ==> weight[k] == data[k % volume]
      invariant forall k :: base <= k < weight.Length ==> weight[k] == old(weight[k])
    {
      IndexArith.MulLe(i + 1, numReplicas, volume);
      IndexArith.MulDistrib(i, 1, volume);
      CopyAt(weight, data, base);
      forall k | base <= k < base + volume
        ensures k % volume == k - base
      {
        IndexArith.DivModOf(i, k - base, volume);
      }
      base := base + volume;
      i := i + 1;
    }
    assert weight[base..] == old(weight[base..]);
  }

  /** One replica: the buffer is written at `offset`, nothing else changes. */
  method CopyAt<T>(weight: array<T>, data: seq<T>, offset: nat)
    requires offset + |data| <= weight.Length
    modifies weight
    ensures forall k :: offset <= k < offset + |data| ==> weight[k] == data[k - offset]
    ensures forall k :: 0 <= k < weight.Length && !(offset <= k < offset + |data|) ==> weight[k] == old(weight[k])
  {
    forall k | 0 <= k < |data| {
      weight[offset + k] := data[k];
    }
  }

  /** Every replica is a full copy of the loaded buffer. */
  lemma ReplicaIsCopy<T>(weight: seq<T>, data: seq<T>, numReplicas: nat, r: nat)
    requires r < numReplicas && numReplicas * |data| <= |weight|
    requires forall k :: 0 <= k < numReplicas * |data| ==> weight[k] == data[k % |data|]
    ensures (r + 1) * |data| <= |weight| && weight[r * |data|..(r + 1) * |data|] == data
  {
    IndexArith.MulLe(r + 1, numReplicas, |data|);
    forall k | 0 <= k < |data|
      ensures weight[r * |data| + k] == data[k]
    {
      IndexArith.DivModOf(r, k, |data|);
      IndexArith.RowEnd(r, k, numReplicas, |data|);
    }
  }
}
