# FlexFlow serving core in Dafny

This project is a verified Dafny model of the bookkeeping that surrounds FlexFlow's LLM serving
path. The model covers these parts:

- **Tree-verify attention operator** (`TreeAttention`). The operator's device state is the
  class `TreeVerifyMeta`, which holds the key/value cache planes and the QKV projection buffer
  as arrays. The model includes:
  - the commit of accepted speculative tokens;
  - the two new-token scatters (per branch and fused), written as sequential loops over the
    GPU kernels' flat index;
  - the sequencing of `inference_kernel`;
  - the key-visibility rule (causal in the prompt phase, bitmask-gated otherwise);
  - the compact first-row offset of each request;
  - the causal fill of the score matrix;
  - the head-size and data-type dispatch.
- **Weight loader** (`FileLoader`). It covers:
  - the string rewriting of operator and file names;
  - the tensor-parallel shard layouts of the Q/K/V bias and weight files, including KV-head
    replication;
  - the position fill;
  - the INT4 nibble packing and INT8 copy;
  - the quantized size split;
  - the replica copy.
- **`ArrayShape`** (`ArrayShapes`): constructors, volume, reversal and bounds-checked lookup.
- **CPU fill kernels** (`InitializerKernels`) and **initializer plumbing** (`Initializers`):
  invocation types, task bindings, Glorot fans, and the zero and constant tasks.
- **The `IsGrad` serialiser** (`IsGradSerial`).
- **Python serving front end** (`Serve`):
  - model-type lookup;
  - resource paths;
  - mode selection;
  - request-limit normalisation;
  - prompt stripping of chat responses.
- **Falcon model wrapper** (`Falcon`): config fallbacks, sanity checks, token budget, operator
  choice and weight-name rewriting.
- **PEFT forward benchmark driver** (`PeftBenchmark`):
  - the command-line parser, including `std::stoi`;
  - the architecture lookup;
  - bos/eos extraction;
  - the PEFT flag check;
  - request construction.
- **Sampling operator** (`Sampling`): the segment index/offset initialisation, the buffer
  sizing, and the forward kernel that returns immediately.

Each operation is modelled in the form its source takes:

- A kernel or loop that writes an array in place is a `method` over an `array` with
  `modifies`. Its `ensures` ties the new contents to a specification function of the old
  contents.
- An object whose fields change is a `class`.
- Code that only computes a value is a `function`.
- Properties that relate several calls are `lemma`s.

The GPU kernels' thread decomposition is flattened into one sequential loop per
`CUDA_KERNEL_LOOP`.

## Model

| member | source | states |
|---|---|---|
| ArrayShapes.Reverse | lib/kernels/src/array_shape.cc:6-11 | `reverse_copy`: same length, element `i` is element `n-1-i` of the input |
| ArrayShapes.ReverseReverse | lib/kernels/src/array_shape.cc:6-11 | reversing twice gives back the dims |
| ArrayShapes.FromPointer | lib/kernels/src/array_shape.cc:13-15 | the pointer constructor keeps exactly the first `num_dims` entries of the buffer |
| ArrayShapes.CreateReversedDims | lib/kernels/src/array_shape.cc:6-11 | the ff-ordered sizes back to front; `FromTensorShapeReversed` proves it recovers them and keeps the product |
| ArrayShapes.FromTensorShape | lib/kernels/src/array_shape.cc:17-20 | the `TensorShape` constructor stores the ff-ordered dims in reverse order |
| ArrayShapes.FromVector | lib/kernels/src/array_shape.cc:22-23 | the vector constructor stores the dims verbatim |
| ArrayShapes.ProductZero | lib/kernels/src/array_shape.cc:37-43 | a product of dims is zero exactly when some dim is zero |
| ArrayShapes.ProductAppend | lib/kernels/src/array_shape.cc:37-43 | the product of a concatenation is the product of the products |
| ArrayShapes.ProductReverse | lib/kernels/src/array_shape.cc:37-43 | reversing the dims keeps their product |
| ArrayShapes.NumElements | lib/kernels/src/array_shape.cc:37-43 | `num_elements` is 0 for no dims and otherwise the exact product of the dims |
| ArrayShapes.NumElementsZero | lib/kernels/src/array_shape.cc:37-43 | the element count is 0 exactly when there are no dims or some dim is 0 |
| ArrayShapes.AccumulateInt | lib/kernels/src/array_shape.cc:41-42 | the `int` accumulator of `std::accumulate` always holds a 32-bit value; `AccumulateIntExact` proves it exact below 2^31 |
| ArrayShapes.ToInt32 | lib/kernels/src/array_shape.cc:41-42 | conversion to `int` lands in the 32-bit range and agrees with its input modulo 2^32 |
| ArrayShapes.NumElementsAsWritten | lib/kernels/src/array_shape.cc:37-43 | the count as the `int`-accumulating code computes it stays below 2^64 |
| ArrayShapes.AccumulateIntExact | lib/kernels/src/array_shape.cc:41-42 | when the product fits in `int` the accumulation is exact, zero sizes included |
| ArrayShapes.NumElementsAsWrittenWraps | lib/kernels/src/array_shape.cc:41-42 | for dims [65536, 65536] the true count is 2^32 but the `int` accumulator yields 0 |
| ArrayShapes.GetVolume | lib/kernels/src/array_shape.cc:25-27 | `get_volume` equals `num_elements` |
| ArrayShapes.NumDims | lib/kernels/src/array_shape.cc:29-31 | `num_dims` is the number of dims |
| ArrayShapes.GetDim | lib/kernels/src/array_shape.cc:33-35 | `get_dim` equals `num_dims` |
| ArrayShapes.At | lib/kernels/src/array_shape.cc:45-47 | `operator[]`: the unchecked lookup of dim `idx`; `AtMaybe` states it is the value the checked lookup returns in range |
| ArrayShapes.AtMaybe | lib/kernels/src/array_shape.cc:55-61 | some value exactly when the index is in range, and then it is that dim |
| ArrayShapes.ReversedDimOrder | lib/kernels/src/array_shape.cc:63-67 | the new shape holds the dims in reverse order |
| ArrayShapes.ReversedDimOrderInvolution | lib/kernels/src/array_shape.cc:63-67 | reversing the dim order twice gives the original shape |
| ArrayShapes.ReversedDimOrderKeepsVolume | lib/kernels/src/array_shape.cc:63-71 | reversal keeps the volume and the number of dims |
| ArrayShapes.FromTensorShapeReversed | lib/kernels/src/array_shape.cc:17-20 | reversing a shape built from a `TensorShape` recovers the ff-ordered dims, and its volume is their product |
| IsGradSerial.FormatAs | lib/local-execution/src/local-execution/is_grad.dtg.cc:21-32 | `YES` formats as "YES" and `NO` as "NO"; any other value throws |
| IsGradSerial.ToJson | lib/local-execution/src/local-execution/is_grad.dtg.cc:38-51 | the two named values serialise to JSON strings; any other value throws |
| IsGradSerial.FromJson | lib/local-execution/src/local-execution/is_grad.dtg.cc:52-63 | accepts exactly the JSON strings "YES" and "NO" and throws on anything else |
| IsGradSerial.FromJsonToJson | lib/local-execution/src/local-execution/is_grad.dtg.cc:38-63 | round trip: parsing the serialised value gives the value back |
| IsGradSerial.ToJsonFromJson | lib/local-execution/src/local-execution/is_grad.dtg.cc:38-63 | round trip: serialising a parsed value gives the JSON back |
| IsGradSerial.ToJsonIsFormatted | lib/local-execution/src/local-execution/is_grad.dtg.cc:21-51 | `to_json` succeeds exactly when `format_as` does, and writes the same text as a JSON string |
| IsGradSerial.ToJsonInjective | lib/local-execution/src/local-execution/is_grad.dtg.cc:38-51 | distinct values serialise differently |
| InitializerKernels.ZeroOf | lib/kernels/src/cpu/initializer_kernels.cc:12 | `0.0f` converted to each element type: false, integer 0 or real 0 |
| InitializerKernels.Unwrap | lib/kernels/src/cpu/initializer_kernels.cc:25 | `get<real_type<DT>>` succeeds exactly when the value holds the tensor's element type (no half alternative) |
| InitializerKernels.ConstantZeroIsZero | lib/kernels/src/cpu/initializer_kernels.cc:12-25 | a constant fill with the type's zero value is the zero fill; a half tensor can never be filled with a constant |
| InitializerKernels.Filled | lib/kernels/src/cpu/initializer_kernels.cc:11-13 | entries below `n` hold the value; the others are unchanged |
| InitializerKernels.FilledTwice | lib/kernels/src/cpu/initializer_kernels.cc:10-28 | a fill overwrites an earlier one over the same extent, so each fill is idempotent |
| InitializerKernels.FillPrefix | lib/kernels/src/cpu/initializer_kernels.cc:26-28 | the loop writes the value to exactly the first `volume` entries |
| InitializerKernels.ZeroInitKernel | lib/kernels/src/cpu/initializer_kernels.cc:7-19 | every element below `get_volume()` becomes zero of the dispatched type; the rest are untouched |
| InitializerKernels.ConstantInitKernel | lib/kernels/src/cpu/initializer_kernels.cc:21-34 | the tensor is filled up to its volume with the unwrapped value, or it fails untouched when the value has the wrong type |
| Initializers.GetInvocationType | lib/runtime/src/initializer.cc:48-56 | `PS` maps to `STANDARD` and `NCCL` to `INDEX`; any other sync type is an error |
| Initializers.ApplyInitializer | lib/runtime/src/initializer.cc:58-130 | each overload's task id, its `TENSOR` binding to the guid, its invocation type from the sync type, and which arguments it binds; Glorot needs at least 2 dims |
| Initializers.TaskIdIdentifiesKind | lib/runtime/src/initializer.cc:58-130 | the task id determines which initializer produced the invocation |
| Initializers.GlorotFans | lib/runtime/src/initializer.cc:142-149 | `c_out` is the last dim and `c_in` the one before; the receptive field is the product of the rest; `fan_in`/`fan_out` scale it |
| Initializers.GlorotFansCoverVolume | lib/runtime/src/initializer.cc:145-149 | `fan_in * c_out` and `fan_out * c_in` both equal the tensor volume |
| Initializers.VolumeOfFans | lib/runtime/src/initializer.cc:145-149 | the volume is the receptive field times `c_in * c_out` |
| Initializers.ProductSplitLastTwo | lib/runtime/src/initializer.cc:145-147 | the volume splits into the leading dims' product times the last two dims |
| Initializers.GlorotDenominatorPositive | lib/runtime/src/initializer.cc:148-150 | `fan_in + fan_out` is positive exactly when no leading dim is 0 and one of the last two is positive |
| Initializers.GetArgument | lib/runtime/src/initializer.cc:137-140 | an argument is found exactly when its slot is bound |
| Initializers.GlorotTaskFans | lib/runtime/src/initializer.cc:140-149 | the Glorot task obtains fans exactly when `TENSOR_DIMS` holds at least two dims |
| Initializers.GlorotInvocationReachesTask | lib/runtime/src/initializer.cc:70-75 | the Glorot task reads back the fans of the dims that `apply_initializer` bound |
| Initializers.ZeroInitTask | lib/runtime/src/initializer.cc:186-194 | the zero task zero-fills the tensor up to its volume |
| Initializers.ConstantArgument | lib/runtime/src/initializer.cc:255-264 | the constant task finds a value exactly when `INITIALIZER` holds a constant initializer |
| Initializers.ConstantInitTask | lib/runtime/src/initializer.cc:255-264 | it fills with the bound constant, or fails with the tensor untouched |
| Initializers.ApplyThenRunConstant | lib/runtime/src/initializer.cc:118-130 | the invocation built for a constant initializer, when run, fills the tensor with that constant |
| TreeAttention.QKVSource | src/ops/tree_inc_multihead_self_attention.cpp:379-386 | a token's key (or value) element in the projection buffer; `SliceInBounds` proves it inside the buffer |
| TreeAttention.CacheSlot | src/ops/tree_inc_multihead_self_attention.cpp:388-391 | the cache slot of (request, depth, offset); `CacheSlotInjective` and `SliceInBounds` prove distinct and in-bounds slots |
| TreeAttention.SliceInBounds | src/ops/tree_inc_multihead_self_attention.cpp:379-391 | a token's source in the projection buffer and its cache slot are in bounds |
| TreeAttention.CacheSlotInjective | src/ops/tree_inc_multihead_self_attention.cpp:388-391 | distinct (request, depth, offset) triples within the stride land in distinct cache slots |
| TreeAttention.Scattered | src/ops/tree_inc_multihead_self_attention.cpp:372-392 | the cache after the first `steps` iterations of a writer loop, of the same length as before |
| TreeAttention.ScatteredFrame | src/ops/tree_inc_multihead_self_attention.cpp:372-392 | no cache slot outside the written slices changes |
| TreeAttention.StepSlotsDiffer | src/ops/tree_inc_multihead_self_attention.cpp:437-455 | with distinct destinations, two iterations on different elements write different slots |
| TreeAttention.ScatteredHolds | src/ops/tree_inc_multihead_self_attention.cpp:471-502 | after an iteration has run, its slot holds its source element, and later iterations keep it |
| TreeAttention.ScatterReadBack | src/ops/tree_inc_multihead_self_attention.cpp:372-392 | after the whole loop every written slot holds the key or value of its token |
| TreeAttention.FusedAgreesWithBranch | src/ops/tree_inc_multihead_self_attention.cpp:449-501 | for a consistent batch, the fused writer's depths equal the per-branch writer's `abs_depth_in_request` |
| TreeAttention.FusedDestinationsDistinct | src/ops/tree_inc_multihead_self_attention.cpp:484-501 | for a consistent batch, no two new tokens share a cache row |
| TreeAttention.FirstBatchCommitsNothing | src/ops/tree_inc_multihead_self_attention.cpp:377 | with no tokens active in the previous batch, the commit assertion allows no commits |
| TreeAttention.TreeVerifyMeta.constructor | src/ops/tree_inc_multihead_self_attention.cpp:696-726 | the previous-batch counter starts at 0; the cache planes hold `max_sequence_length + max_spec_tree_token_num` positions per request, a size inferred from the strides the kernels use (lines 543-544 and 578-579), since the allocation is in the base class |
| TreeAttention.TreeVerifyMeta.Scatter | src/ops/tree_inc_multihead_self_attention.cpp:372-392 | the kernel loop leaves the key and value planes as `Scattered` of their old contents |
| TreeAttention.TreeVerifyMeta.CommitTokens | src/ops/tree_inc_multihead_self_attention.cpp:395-421 | each committed token's key and value, read from the projection buffer, land at its `token_depth`; the assertion is required |
| TreeAttention.TreeVerifyMeta.UpdateTreeBranchKVCache | src/ops/tree_inc_multihead_self_attention.cpp:423-456 | token `t + processed_tokens_in_batch` is written at its `abs_depth_in_request` |
| TreeAttention.TreeVerifyMeta.UpdateTreeBranchKVCacheFused | src/ops/tree_inc_multihead_self_attention.cpp:458-503 | new token `t` is written at depth `t + first_token_depth_in_request - first_token_offset_in_batch`, with stride from 561-580 |
| TreeAttention.TreeVerifyMeta.LoadProjections | src/ops/tree_inc_multihead_self_attention.cpp:621-631 | the projection buffer's prefix is replaced by this batch's projections |
| TreeAttention.TreeVerifyMeta.InferenceKernel | src/ops/tree_inc_multihead_self_attention.cpp:600-651 | commit first (from the previous projections), then the counter update, the buffer refill and the fused scatter |
| TreeAttention.BitSet | src/ops/tree_inc_multihead_self_attention.cpp:190-192 | the intended test of bit `qi` of a mask word; `BitSetAsWrittenAgreesBelow31` relates it to the code as written |
| TreeAttention.KeyMasked | src/ops/tree_inc_multihead_self_attention.cpp:187-192 | the masking rule of one key; `PromptVisibleCount` and `TreeVisibleCount` state which keys it leaves visible |
| TreeAttention.VisibleKeyCount | src/ops/tree_inc_multihead_self_attention.cpp:246-250 | the number of unmasked keys among the first `tlength` is at most `tlength` |
| TreeAttention.PromptVisibleCount | src/ops/tree_inc_multihead_self_attention.cpp:187-192 | in the prompt phase query `qi` sees the first `q_start + qi + 1` keys (causal) |
| TreeAttention.TreeVisibleCount | src/ops/tree_inc_multihead_self_attention.cpp:187-192 | in the tree phase all `non_tree_cache_size` keys are visible, plus the tree keys whose mask bit `qi` is set |
| TreeAttention.TreeMaskIgnoresStart | src/ops/tree_inc_multihead_self_attention.cpp:246-250 | outside the prompt phase visibility does not depend on `q_start` |
| TreeAttention.OneTokenSeesWholeHistory | src/ops/tree_inc_multihead_self_attention.cpp:295-301 | a single tree token with its own bit set sees the whole history and itself |
| TreeAttention.MaskScores | src/ops/tree_inc_multihead_self_attention.cpp:245-254 | masked keys' scores become 0 and the others are kept, below `tlength` only |
| TreeAttention.ReadSlotMatchesCacheSlot | src/ops/tree_inc_multihead_self_attention.cpp:152-153 | for positions below the stride, the reader's slot (`ti_circ`) is the writers' cache slot |
| TreeAttention.TreeVerifyMeta.FusedReaderMatchesWriters | src/ops/tree_inc_multihead_self_attention.cpp:543-544 | the fused kernel is launched with `max_sequence_length + max_spec_tree_token_num` as its `max_seq_length`, so every key it reads is the slot the writers filled for that position |
| TreeAttention.QueryBitAsWritten | src/ops/tree_inc_multihead_self_attention.cpp:192 | `1 << qi` on a 32-bit `int`: bit `qi` below 31, bits 31 to 63 after sign extension at 31, undefined from 32 |
| TreeAttention.BitSetAsWrittenAgreesBelow31 | src/ops/tree_inc_multihead_self_attention.cpp:190-192 | below query 31 the as-written test reads exactly bit `qi` of the mask word |
| TreeAttention.BitSetAsWrittenLeaksAtQuery31 | src/ops/tree_inc_multihead_self_attention.cpp:190-192 | at query 31 the as-written test accepts any set bit from 31 up (bit 40 alone passes), and no query from 32 has a defined test |
| TreeAttention.FirstTokenIdx | src/ops/tree_inc_multihead_self_attention.cpp:114-118 | the compact first row of a request; `FirstTokenIdxAfter` proves later requests start after earlier rows |
| TreeAttention.ComputeFirstTokenIdx | src/ops/tree_inc_multihead_self_attention.cpp:114-118 | the loop sums `num_tokens_in_batch` over earlier requests that are not completed |
| TreeAttention.FirstTokenIdxAfter | src/ops/tree_inc_multihead_self_attention.cpp:114-118 | a later request starts after an earlier one's rows |
| TreeAttention.OutputRow | src/ops/tree_inc_multihead_self_attention.cpp:338-341 | the output row of query `qi`; `OutputRowsDisjoint` and `OutputRowBelowTotal` prove the rows distinct and in range |
| TreeAttention.OutputRowsDisjoint | src/ops/tree_inc_multihead_self_attention.cpp:338-341 | queries of distinct active requests write distinct output rows |
| TreeAttention.OutputRowBelowTotal | src/ops/tree_inc_multihead_self_attention.cpp:338-341 | every output row is below the total of active tokens |
| TreeAttention.PromptQueriesSpanKeys | src/ops/tree_inc_multihead_self_attention.cpp:106-110 | for any non-empty request, with key length `first_token_depth + num_tokens` and query length `num_tokens`, the last prompt query sees every key and the first sees the history plus itself |
| TreeAttention.TreeFillEntriesAboveDiagonal | src/ops/tree_inc_multihead_self_attention.cpp:505-520 | `matrix[i]` becomes the value exactly when `(i/new) % total > i % new + total - new`, with `size_t` wrap; all else unchanged |
| TreeAttention.FillsEntryCoordinates | src/ops/tree_inc_multihead_self_attention.cpp:511-517 | by (head, key, query) coordinates, the fill hits key `k` of query `q` exactly when `k > q + total - new` |
| TreeAttention.FillAgreesWithPromptMask | src/ops/tree_inc_multihead_self_attention.cpp:511-517 | the filled entries are exactly the keys the prompt-phase rule masks |
| TreeAttention.HeadSizeDispatch | src/ops/tree_inc_multihead_self_attention.cpp:586-597 | only head sizes 64 and 128 are dispatched; any other size fails |
| TreeAttention.DataTypeDispatch | src/ops/tree_inc_multihead_self_attention.cpp:673-683 | input and output types must match and be `DT_HALF` or `DT_FLOAT` |
| FileLoader.LastIndexOf | src/runtime/file_loader.cc:72 | `find_last_of`: the last position of the character, or none when absent |
| FileLoader.RemoveGuidOperatorName | src/runtime/file_loader.cc:70-81 | the prefix before the last `'_'`, or the input unchanged when it has none |
| FileLoader.Find | src/runtime/file_loader.cc:764-776 | `std::string::find`: the first occurrence at or after `from`, or none |
| FileLoader.RemoveFirst | src/runtime/file_loader.cc:768-776 | `replace(pos, len, "")`: the first occurrence is cut out, or the string is unchanged |
| FileLoader.RemoveFirstInverse | src/runtime/file_loader.cc:768-776 | putting the pattern back at its position restores the name |
| FileLoader.ReinsertCut | src/runtime/file_loader.cc:768-776 | a cut-out range reinserted at its position restores the string |
| FileLoader.HeadDst | src/runtime/file_loader.cc:201-209 | a head's element lands in shard `h / heads_per_shard` at slot `h % heads_per_shard` inside that shard's band |
| FileLoader.HeadDstInjective | src/runtime/file_loader.cc:201-209 | distinct (head, element) pairs land in distinct destinations |
| FileLoader.SrcIndex | src/runtime/file_loader.cc:294-300 | the source element of a destination head: source head `h / replicate_num`, same element |
| FileLoader.CopyHeads | src/runtime/file_loader.cc:201-210 | the nested copy loop writes each head's elements at `HeadDst` from `SrcIndex`, and nothing outside the band |
| FileLoader.HeadRow | src/runtime/file_loader.cc:205-207 | a head's elements form one contiguous row that no other head's elements enter |
| FileLoader.SrcRow | src/runtime/file_loader.cc:204 | a head's source elements form one contiguous row |
| FileLoader.SplitEvenly | src/runtime/file_loader.cc:160-161 | heads divisible by the tensor-parallel degree split evenly across shards |
| FileLoader.BiasLayoutOk | src/runtime/file_loader.cc:164-180 | each bias file's layout is well formed, covers its heads, and its previous-heads offset is 0, `q/tp` or `(q+kv)/tp` |
| FileLoader.BiasDst | src/runtime/file_loader.cc:201-209 | a bias destination lies in the buffer and in its file's band |
| FileLoader.BiasBandsDisjoint | src/runtime/file_loader.cc:157-180 | the Q, K and V bands of a shard do not overlap |
| FileLoader.BiasBand | src/runtime/file_loader.cc:157-180 | within a shard the bands are `[q][k][v]` in that order, back to back |
| FileLoader.BiasDstInjective | src/runtime/file_loader.cc:201-209 | no two bias elements of any of the three files share a destination |
| FileLoader.BiasSlotOwner | src/runtime/file_loader.cc:166-180 | every head slot of a shard belongs to exactly one of the three files |
| FileLoader.BiasDstCovers | src/runtime/file_loader.cc:166-209 | every element of the `tp * shard_chunk_size` buffer is written by some bias element |
| FileLoader.LoadAttentionBias | src/runtime/file_loader.cc:137-214 | each file's element `j` of head `i` lands at its shard-layout destination, and nothing past the buffer changes; requires the asserts of 160-163 |
| FileLoader.WeightSizes | src/runtime/file_loader.cc:237-265 | the partition, stride and per-head sizes and the replicate ratio, from the loader's formulas |
| FileLoader.QueryDst | src/runtime/file_loader.cc:286-291 | a Q stripe destination lies in the buffer, in the Q band |
| FileLoader.KVDst | src/runtime/file_loader.cc:292-302 | a K/V destination lies in the buffer, in its file's band |
| FileLoader.StripePartitions | src/runtime/file_loader.cc:286-291 | the Q loop writes `ptr[base + i*stride + j]` from element `i*one_partition_size + j`, nothing else |
| FileLoader.PartitionBounds | src/runtime/file_loader.cc:286-291 | each partition's source and destination ranges are in bounds |
| FileLoader.LoadAttentionWeights | src/runtime/file_loader.cc:255-309 | Q striped, K and V replicated into place, and `base_index == (q + k_rep + v_rep)/tp` at the end |
| FileLoader.ValueBandDisjoint | src/runtime/file_loader.cc:286-302 | the V writes do not touch what the Q and K writes placed |
| FileLoader.QueryFileSize | src/runtime/file_loader.cc:240-265 | the Q file is exactly `tp` partitions |
| FileLoader.QuerySrc | src/runtime/file_loader.cc:289 | the Q source element is inside the Q file |
| FileLoader.KVSrc | src/runtime/file_loader.cc:300 | the K/V source element is inside a file of `num_kv_heads` heads |
| FileLoader.LoadQueryAndKey | src/runtime/file_loader.cc:286-302 | the first two files placed as above, the rest of the buffer unchanged |
| FileLoader.QueryStripeIsPerHead | src/runtime/file_loader.cc:286-302 | the Q stripe puts head `h` in shard `h / (heads/tp)`, at the slot where K puts that head, one partition earlier |
| FileLoader.PartitionHeads | src/runtime/file_loader.cc:264-265 | a partition holds `heads/tp` whole heads |
| FileLoader.QueryDstIs | src/runtime/file_loader.cc:289 | the Q destination formula `i*stride + j` |
| FileLoader.KeyDstIs | src/runtime/file_loader.cc:298-299 | the K destination formula for shard and slot |
| FileLoader.CopyVerbatim | src/runtime/file_loader.cc:310-358 | the `o_proj` branch copies the file to the buffer's prefix verbatim |
| FileLoader.PositionOf | src/runtime/file_loader.cc:406-408 | every position lies in `[offset, offset + max_seq_length)` |
| FileLoader.LoadPositions | src/runtime/file_loader.cc:392-415 | `data[i] = i % max_seq_length + offset` for every `i` below the volume |
| FileLoader.PositionsRestartPerSequence | src/runtime/file_loader.cc:406-408 | position `p` of every sequence is `p + offset` |
| FileLoader.PackNibbles | src/runtime/file_loader.cc:616 | the packed byte of two INT4 values; `PackNibblesRoundTrip` and `NibblePairRoundTrip` state which nibble holds which |
| FileLoader.PackNibblesRoundTrip | src/runtime/file_loader.cc:616 | the high nibble holds `v1` and the low nibble holds `v2 & 0xF` |
| FileLoader.NibblePairRoundTrip | src/runtime/file_loader.cc:616 | two 4-bit values are recovered from their packed byte |
| FileLoader.Packed | src/runtime/file_loader.cc:609-621 | INT4 halves the length, INT8 keeps it |
| FileLoader.Unpacked | src/runtime/file_loader.cc:616 | splitting each byte into nibbles doubles the length |
| FileLoader.UnpackPacked | src/runtime/file_loader.cc:609-621 | unpacking INT4-packed 4-bit values gives the values back |
| FileLoader.PackedLastPair | src/runtime/file_loader.cc:610-617 | the packed sequence grows by one byte per input pair |
| FileLoader.PackValues | src/runtime/file_loader.cc:609-621 | the value loop writes `Packed(host)` to the prefix, returns the running `data_index`, and leaves the rest |
| FileLoader.PackInt4 | src/runtime/file_loader.cc:611-617 | the INT4 loop consumes two bytes per output byte |
| FileLoader.CopyInt8 | src/runtime/file_loader.cc:618-620 | the INT8 loop copies byte for byte |
| FileLoader.QuantizedSplit | src/runtime/file_loader.cc:557-576 | only INT4 and INT8 are accepted; offsets and scales get equal sizes; the INT4 value size is even |
| FileLoader.QuantizedFillsBuffer | src/runtime/file_loader.cc:557-665 | for sizes that are a multiple of the format's granule, values, offsets and scales fill exactly `size` bytes |
| FileLoader.QuantizedHeadDst | src/runtime/file_loader.cc:473-486 | the destination of element `j` of head `i` of file `f`; `QuantizedHeadDstTiles` proves the tiles disjoint and in bounds |
| FileLoader.QuantizedHeadDstTiles | src/runtime/file_loader.cc:473-486 | per-head tiles `i*one_head_size*4 + file*one_head_size + j` are disjoint and in bounds |
| FileLoader.QuantizedMetaFollowsHeads | src/runtime/file_loader.cc:468-494 | offsets and scales start right after the last head tile |
| FileLoader.LayerNormSuffixAsWritten | src/runtime/file_loader.cc:836-840 | the suffix choice as written, behind its assert |
| FileLoader.LayerNormGuardAsWrittenAcceptsAll | src/runtime/file_loader.cc:837 | the `>= 0 \|\| <= 2` assert accepts every index; indices above 2 get ".bias" |
| FileLoader.LayerNormSuffix | src/runtime/file_loader.cc:836-844 | indices 0, 1, 2 give ".attn_bias", ".weight", ".bias"; others are rejected |
| FileLoader.LayerNormSuffixInjective | src/runtime/file_loader.cc:838-840 | the three accepted indices get three distinct suffixes |
| FileLoader.DefaultWeightFile | src/runtime/file_loader.cc:845-851 | indices 0 and 1 append ".weight"/".bias" except for `embed_tokens_weight_lm_head`; others fail |
| FileLoader.AttentionLayerName | src/runtime/file_loader.cc:764-779 | ".o_proj" is cut first; otherwise ".qkv_proj" is cut and must be present |
| FileLoader.WeightSourceFor | src/runtime/file_loader.cc:757-857 | fails exactly when an attention-projection name lacks both `.o_proj` and `.qkv_proj`, or a default op gets an index other than 0 or 1; benchmarking and attention ops load nothing here; projections go to the attention loader under the stripped name; the layer-norm branch uses the as-written guard; default ops get `.weight`/`.bias` except for the shared LM head |
| FileLoader.LayerNormFileUnderIntendedGuard | src/runtime/file_loader.cc:836-843 | under the intended guard the layer-norm files are the operator name plus `.attn_bias`, `.weight` or `.bias`, and index 3 is refused, where the as-written branch loads `.bias` |
| FileLoader.DefaultWeightFileInjective | src/runtime/file_loader.cc:845-851 | the two default-op indices name different files exactly when the name is not the shared LM head |
| FileLoader.ProjectionLayerRestores | src/runtime/file_loader.cc:764-779 | the stripped projection name with `.o_proj` or `.qkv_proj` put back at the found position is the original name |
| FileLoader.CopyReplicas | src/runtime/file_loader.cc:859-864 | the weight holds `num_replicas` back-to-back copies of the data; the rest is unchanged |
| FileLoader.CopyAt | src/runtime/file_loader.cc:862 | `memcpy` of one replica at an offset, nothing else changed |
| FileLoader.ReplicaIsCopy | src/runtime/file_loader.cc:860-864 | every replica slice equals the data |
| Serve.GetFFModelType | python/flexflow/serve/serve.py:64-73 | the table entry of the first architecture; an empty list or unknown name raises |
| Serve.SupportedModelsAreKnown | python/flexflow/serve/serve.py:50-62 | every table entry has a known model type and the matching model family |
| Serve.GetFFModelTypeFirstOnly | python/flexflow/serve/serve.py:67-68 | only the first architecture string matters |
| Serve.CachePath | python/flexflow/serve/serve.py:110 | an empty cache path becomes `~/.cache/flexflow` |
| Serve.LowerChar | python/flexflow/serve/serve.py:246 | upper-case ASCII letters map to lower case; everything else is kept |
| Serve.Lower | python/flexflow/serve/serve.py:246 | `lower()` maps each character, keeping the length |
| Serve.LowerIdempotent | python/flexflow/serve/serve.py:246 | lower-casing twice is lower-casing once |
| Serve.RStripSlash | python/flexflow/serve/serve.py:244 | strips trailing slashes of the home directory, as `expanduser` does |
| Serve.ExpandUser | python/flexflow/serve/serve.py:244 | `~` and `~/...` are replaced by the home directory; other paths are unchanged |
| Serve.PathJoin | python/flexflow/serve/serve.py:243-255 | `os.path.join` of two parts: an absolute part restarts, otherwise one separator is inserted where needed |
| Serve.JoinRelative | python/flexflow/serve/serve.py:243-255 | joining relative parts inserts exactly one `/` |
| Serve.ResourcePath | python/flexflow/serve/serve.py:242-256 | the weights or tokenizer folder; `ResourcePathLayout` and `ResourcePathIgnoresCase` state its layout |
| Serve.ResourcePathLayout | python/flexflow/serve/serve.py:242-256 | weights live at `cache/weights/<lower(name)>/{full,half}-precision` and tokenizers at `cache/tokenizers/<lower(name)>` |
| Serve.LowerKeepsEnds | python/flexflow/serve/serve.py:246 | lower-casing does not create or remove leading or trailing slashes |
| Serve.JoinThrice | python/flexflow/serve/serve.py:243-252 | the four-part weights join is the slash-separated concatenation |
| Serve.JoinTwice | python/flexflow/serve/serve.py:254-256 | the three-part tokenizer join is the slash-separated concatenation |
| Serve.ResourcePathIgnoresCase | python/flexflow/serve/serve.py:242-256 | the model name's case does not change the path |
| Serve.SelectMode | python/flexflow/serve/serve.py:454-464 | SSMs give `TREE_VERIFY_MODE` (LLM only); an SSM gives `BEAM_SEARCH_MODE` with all degrees 1; otherwise `INC_DECODING_MODE` with the configured degrees |
| Serve.StartsBackgroundServer | python/flexflow/serve/serve.py:543-549 | the background server starts in tree-verify and incremental-decoding mode only |
| Serve.ServerFollowsKind | python/flexflow/serve/serve.py:454-549 | a compiled LLM starts the background server and a compiled SSM does not |
| Serve.NormalizeLimits | python/flexflow/serve/serve.py:555-581 | the per-request rules: defaults to `max_seq_length - 1`, `max_new_tokens` wins over `max_length`, bounds raise, finetuning forbids `max_new_tokens` |
| Serve.NormalizeLimitsIdempotent | python/flexflow/serve/serve.py:555-581 | normalising an accepted request again changes nothing |
| Serve.NormalizedHasOneLimit | python/flexflow/serve/serve.py:557-577 | after normalisation at most one of the two limits is set |
| Serve.NormalizeRequests | python/flexflow/serve/serve.py:554-581 | each request in turn is normalised in place; the first bad one raises, with the requests before it already rewritten and the rest untouched |
| Serve.Generate | python/flexflow/serve/serve.py:551-582 | an empty list returns at once; otherwise it succeeds exactly when every request is acceptable, and on success every request holds its normalised limits; on failure the requests up to the first bad one are normalised and the rest untouched |
| Serve.Drop | python/flexflow/serve/serve.py:617 | the slice `text[n:]`, empty when `n` is past the end |
| Serve.DropDrop | python/flexflow/serve/serve.py:617 | slicing twice is slicing by the sum |
| Serve.CutLengthUnlisted | python/flexflow/serve/serve.py:616-617 | a result not yet reached has had nothing cut |
| Serve.CutLengthDistinct | python/flexflow/serve/serve.py:616-617 | with distinct result objects, each loses exactly its own prompt's length |
| Serve.CutLengthFrom | python/flexflow/serve/serve.py:616-617 | after the loop passes a result, its cut length is final |
| Serve.Texts | python/flexflow/serve/serve.py:617 | the output texts, one per result |
| Serve.CutPromptAt | python/flexflow/serve/serve.py:617 | one loop step cuts `len(prompt)` characters from result `i` |
| Serve.Output2ChatResponse | python/flexflow/serve/serve.py:612-618 | unequal lengths fail without change; otherwise each text loses the total prompt length cut from its object, so aliased results are cut repeatedly |
| Serve.Prompts | python/flexflow/serve/serve.py:617 | the requests' prompts, in order |
| Serve.Output2ChatDistinct | python/flexflow/serve/serve.py:612-618 | with distinct result objects each output drops exactly its own prompt's characters |
| Falcon.OrElse | python/flexflow/serve/models/falcon.py:31-41 | an attribute present in the config wins over the fallback |
| Falcon.MakeFalconConfig | python/flexflow/serve/models/falcon.py:20-57 | `n_head`/`n_layer` fall back to `num_attention_heads`/`num_hidden_layers`; `n_head_kv` defaults to 1; the standard head fields copy them; the tree budget is 20 |
| Falcon.OwnNamesWin | python/flexflow/serve/models/falcon.py:31-41 | with `n_head` and `n_layer` present the fallback attributes are irrelevant |
| Falcon.SanityCheck | python/flexflow/serve/models/falcon.py:84-95 | passes exactly when `n_head` divides `hidden_size` and the tensor-parallel degree divides `n_head` without exceeding it |
| Falcon.FloorDiv | python/flexflow/serve/models/falcon.py:161 | Python `//`: floor division for either sign of the divisor |
| Falcon.SaneConfigTiles | python/flexflow/serve/models/falcon.py:84-95 | a sane config splits `hidden_size` into `n_head` whole heads and the heads into whole shards |
| Falcon.ExactFloorDiv | python/flexflow/serve/models/falcon.py:85 | floor division is exact when the remainder is 0 |
| Falcon.BuildTokens | python/flexflow/serve/models/falcon.py:80-101 | `max_tokens_per_batch` in incremental decoding; otherwise plus `max_spec_tree_token_num` |
| Falcon.NewFlexFlowFalcon | python/flexflow/serve/models/falcon.py:60-101 | construction succeeds exactly when the config is complete and sane, and builds with the mode's token budget |
| Falcon.VerifyBudgetCoversTree | python/flexflow/serve/models/falcon.py:80-101 | the verify budget is the decoding budget plus 20, the same in beam search |
| Falcon.AttentionFor | python/flexflow/serve/models/falcon.py:155-201 | tree verify uses the verify operator and beam search the speculative one |
| Falcon.OutputFor | python/flexflow/serve/models/falcon.py:245-259 | beam search ends in beam argmax; otherwise sampling exactly when `do_sample` |
| Falcon.LayerWidthsOf | python/flexflow/serve/models/falcon.py:147-225 | the QKV projection is 3x hidden, the MLP up-projection 4x, and the outputs hidden |
| Falcon.ReplaceAll | python/flexflow/serve/models/falcon.py:269-271 | Python `str.replace` of every non-overlapping match, left to right; the `ReplaceAll*` lemmas below state its behaviour |
| Falcon.ReplaceAllNoMatchAtFront | python/flexflow/serve/models/falcon.py:269-271 | `str.replace` keeps a first character that starts no match |
| Falcon.ReplaceAllAbsent | python/flexflow/serve/models/falcon.py:269-271 | `str.replace` of an absent pattern is the identity |
| Falcon.ReplaceAllSkips | python/flexflow/serve/models/falcon.py:269-271 | a prefix with no match is kept |
| Falcon.ReplaceAllAtStart | python/flexflow/serve/models/falcon.py:269-271 | a match at the start is replaced and scanning resumes after it |
| Falcon.ReplaceAllSingle | python/flexflow/serve/models/falcon.py:285-287 | a single occurrence is replaced in place |
| Falcon.ConvertKeepsOtherNames | python/flexflow/serve/models/falcon.py:268-272 | the three chained replaces leave a name with neither `transformer.` nor `self_attention.dense` unchanged |
| Falcon.ConvertHfWeightName | python/flexflow/serve/models/falcon.py:268-272 | a name with neither `transformer.` nor `self_attention.dense` is its own conversion |
| Falcon.ConvertLayerName | python/flexflow/serve/models/falcon.py:268-272 | `transformer.h.` + rest becomes `layers.` + rest when rest holds neither pattern |
| Falcon.ConvertAttentionDense | python/flexflow/serve/models/falcon.py:268-272 | `transformer.h.<n>.self_attention.dense<rest>` becomes `layers.<n>.self_attention.o_proj<rest>` |
| Falcon.SplitQkv | python/flexflow/serve/models/falcon.py:284-296 | the rows split into `[hidden, hidden//n_head, hidden//n_head]` when they add up, with the q/k/v names substituted |
| Falcon.SplitQkvNames | python/flexflow/serve/models/falcon.py:285-287 | a name with one `query_key_value` gets `q_proj`, `k_proj` and `v_proj` in its place |
| Falcon.SplitQkvMultiQuery | python/flexflow/serve/models/falcon.py:288-296 | a fused QKV of `n_head_kv` KV heads splits only when `n_head_kv == 1` (or heads are empty) |
| PeftBenchmark.StoI | inference/peft/peft_fwd_benchmark.cc:111-123 | `std::stoi`: a result always fits an `int`, and a blank string is `invalid_argument`; `StoIToString` proves it reads back every `to_string` |
| PeftBenchmark.ReadDigits | inference/peft/peft_fwd_benchmark.cc:111-123 | `invalid_argument` exactly when no digit follows the sign; otherwise an `int`-range value of the sign read |
| PeftBenchmark.SkipSpace | inference/peft/peft_fwd_benchmark.cc:111-123 | `stoi` skips a leading white-space run and stops at the first other character |
| PeftBenchmark.DigitRun | inference/peft/peft_fwd_benchmark.cc:111-123 | the longest leading run of decimal digits |
| PeftBenchmark.InIntRange | inference/peft/peft_fwd_benchmark.cc:111-123 | a value outside `int` is an out-of-range error |
| PeftBenchmark.DigitChar | inference/peft/peft_fwd_benchmark.cc:111-123 | the digit character of a value below 10 |
| PeftBenchmark.Decimal | inference/peft/peft_fwd_benchmark.cc:111-123 | the decimal numeral of a natural number is a non-empty run of digits |
| PeftBenchmark.DecimalValue | inference/peft/peft_fwd_benchmark.cc:111-123 | reading a numeral gives back its number |
| PeftBenchmark.DigitRunAll | inference/peft/peft_fwd_benchmark.cc:111-123 | an all-digit string is one digit run |
| PeftBenchmark.ReadAllDigits | inference/peft/peft_fwd_benchmark.cc:111-123 | an in-range digit string reads to its signed value |
| PeftBenchmark.StoIUnspaced | inference/peft/peft_fwd_benchmark.cc:111-123 | without leading space, `stoi` takes an optional sign and then the digits |
| PeftBenchmark.StoISignedDigits | inference/peft/peft_fwd_benchmark.cc:111-123 | an optional minus and digits read to their value |
| PeftBenchmark.StoIDecimal | inference/peft/peft_fwd_benchmark.cc:111-123 | `stoi` reads a non-negative numeral back |
| PeftBenchmark.StoINegatedDecimal | inference/peft/peft_fwd_benchmark.cc:111-123 | `stoi` reads a negated numeral back |
| PeftBenchmark.StoIToString | inference/peft/peft_fwd_benchmark.cc:111-123 | every `int` survives printing and `stoi` |
| PeftBenchmark.FlagOf | inference/peft/peft_fwd_benchmark.cc:56-125 | the `strcmp` chain: the option an argument spells; `LastModelNameWins` and `TrailingSwitch` use it |
| PeftBenchmark.ApplySwitch | inference/peft/peft_fwd_benchmark.cc:63-101 | a stand-alone option sets its own switch and changes nothing else |
| PeftBenchmark.ParseFrom | inference/peft/peft_fwd_benchmark.cc:54-125 | arguments that spell no option leave the parse unchanged; `ParseStep` and `ParseFromConcat` state the rest |
| PeftBenchmark.ParsedArgs | inference/peft/peft_fwd_benchmark.cc:54-131 | the parse succeeds exactly when the loop does, and only the cache folder is then replaced by its fallback |
| PeftBenchmark.ApplyValued | inference/peft/peft_fwd_benchmark.cc:56-124 | a valued option stores its argument (model names lower-cased); it fails only when a count does not parse |
| PeftBenchmark.DefaultCacheFolder | inference/peft/peft_fwd_benchmark.cc:127-131 | an empty cache folder becomes `FF_CACHE_PATH` if set, otherwise `~/.cache/flexflow` |
| PeftBenchmark.ParseInputArgs | inference/peft/peft_fwd_benchmark.cc:54-131 | the `++i` loop computes the parse of `argv[1..]` followed by the cache fallback |
| PeftBenchmark.ParseStep | inference/peft/peft_fwd_benchmark.cc:54-126 | unknown arguments are skipped, switches advance by one, valued options by two |
| PeftBenchmark.ParseFromConcat | inference/peft/peft_fwd_benchmark.cc:54-126 | parsing continues left to right: a parsed prefix is a prefix state |
| PeftBenchmark.LastModelNameWins | inference/peft/peft_fwd_benchmark.cc:56-61 | a later `-llm-model` overrides earlier ones, lower-cased |
| PeftBenchmark.TrailingSwitch | inference/peft/peft_fwd_benchmark.cc:63-101 | a trailing switch sets its flag, and a trailing unknown argument changes nothing |
| PeftBenchmark.TrailingValuedFlagFails | inference/peft/peft_fwd_benchmark.cc:76-124 | a valued option in last position has no argument to read |
| PeftBenchmark.CheckPeftFlags | inference/peft/peft_fwd_benchmark.cc:198-204 | accepted exactly when PEFT is enabled if and only if a PEFT model name is given |
| PeftBenchmark.ArchitectureType | inference/peft/peft_fwd_benchmark.cc:213-228 | the model type of one architecture name; `ArchitectureTypeAgreesWithServe` proves it is the serving table |
| PeftBenchmark.ArchitectureTypeAgreesWithServe | inference/peft/peft_fwd_benchmark.cc:213-228 | the benchmark's name-to-type mapping is the serving table's |
| PeftBenchmark.FirstRecognized | inference/peft/peft_fwd_benchmark.cc:211-229 | the type of the first recognised architecture, or `UNKNOWN` when none is recognised |
| PeftBenchmark.ModelTypeOf | inference/peft/peft_fwd_benchmark.cc:211-249 | the loop with `break` finds that type; `UNKNOWN` is fatal |
| PeftBenchmark.FirstRecognizedMatchesServe | inference/peft/peft_fwd_benchmark.cc:211-229 | when the serving lookup accepts a list, the benchmark picks the same type |
| PeftBenchmark.BosTokenId | inference/peft/peft_fwd_benchmark.cc:230-232 | bos is -1 when absent |
| PeftBenchmark.EosTokenIds | inference/peft/peft_fwd_benchmark.cc:233-246 | an eos array gives all its elements, a scalar a singleton, and absence `[-1]` |
| PeftBenchmark.TakenCount | inference/peft/peft_fwd_benchmark.cc:329-333 | at most `max_requests_to_run` prompts are taken, and none when it is not positive |
| PeftBenchmark.BuildRequests | inference/peft/peft_fwd_benchmark.cc:328-351 | fails exactly when a taken prompt has `human + gpt > max_sequence_length`; otherwise one request per taken prompt with `max_length = human + gpt` |
| Sampling.IdxAfter | src/ops/sampling.cpp:47-48 | the index array after the first `n` threads, of unchanged length |
| Sampling.OffsetsAfter | src/ops/sampling.cpp:49-52 | an offset array after the first `n` threads, of unchanged length |
| Sampling.SegmentStart | src/ops/sampling.cpp:49-50 | `i` is the start of segment `k` exactly when `i % vocab_size == 0` and `k == i / vocab_size` |
| Sampling.OffsetsStep | src/ops/sampling.cpp:49-52 | thread `i` writes entry `i / vocab_size` exactly when `i` is a segment start |
| Sampling.InitIdxs | src/ops/sampling.cpp:41-54 | the kernel loop leaves `idx` and both offset arrays as `IdxAfter`/`OffsetsAfter` of `total_eles` threads |
| Sampling.VocabSize | src/ops/sampling.cpp:225 | `total_ele / batch_size`: the largest row length with `batch_size` rows inside the logits |
| Sampling.OffsetArraysLargeEnough | src/ops/sampling.cpp:197-229 | with `vocab_size = total_ele / batch_size` and at most one row left over, the `batch_size + 1` offset entries cover every segment start; with none left over the rows fill the logits exactly |
| Sampling.OffsetArraysTooSmallForRaggedInput | src/ops/sampling.cpp:197-225 | whenever the leftover `total_ele % batch_size` exceeds `vocab_size`, element `(batch_size + 1) * vocab_size` is inside the input and starts segment `batch_size + 1`, past the offset arrays |
| Sampling.OffsetArraysFitSmallLeftover | src/ops/sampling.cpp:197-225 | when the leftover is at most `vocab_size`, every element's segment is at most `batch_size`, inside the offset arrays |
| Sampling.TokenIds | src/ops/sampling.cpp:48 | `0, 1, ..., n-1` |
| Sampling.RowInside | src/ops/sampling.cpp:47-48 | row `k < batch_size` lies inside the index array |
| Sampling.IdxRowIsTokenIds | src/ops/sampling.cpp:47-48 | after the kernel every row of `idx` is `0..vocab_size-1` |
| Sampling.OffsetOfRow | src/ops/sampling.cpp:49-52 | offset entry `k < batch_size` is `k * vocab_size`; entry `batch_size` is never written |
| Sampling.SamplingMeta.constructor | src/ops/sampling.cpp:197-229 | `batch_size + 1` offsets and `total_ele` indices, initialised by `init_idxs` with `vocab_size = total_ele / batch_size`, for any sizes whose leftover is at most one row |
| Sampling.SamplingMeta.ForwardKernel | src/ops/sampling.cpp:135 | `forward_kernel` returns first, so the indices and the buffers are unchanged |

## Left out

- Floating point is not modelled:
  - the attention dot products, the max reduction, `__expf`, the softmax and the value
    accumulation;
  - the `1/sqrt` scale;
  - the Glorot scale `sqrt(6/(fan_in+fan_out))` and the uniform and normal initializer tasks;
  - top-p sampling with `hiprand`.

  The model keeps only which key positions are visible and where results go. `MaskScores`
  writes a generic zero element.
- GPU parallelism is not modelled: blocks, warps, `__syncthreads`, shuffles, streams and
  asynchronous copies. Each `CUDA_KERNEL_LOOP` is one sequential loop. The cache writers are
  proved correct for batches whose destinations are distinct, so that the order of the loop
  does not matter.
- `compute_qkv_kernel` and the `hipMemcpyAsync` of `qkv_ptr` are not modelled. The projections
  they produce are the `projected` parameter of `TreeAttention.TreeVerifyMeta.InferenceKernel`.
  The attention output copy back to `output_ptr` is not modelled.
- The commit reads its key and value from `devQKVProjArray`, the previous batch's projections.
  It does not read from another cache slot. The model follows the code here.
- The mask bit test `1 << qi` shifts a 32-bit `int`. `TreeAttention.QueryBitAsWritten` models
  it as written (see "## Findings"); the visibility rule uses the intended 64-bit bit test. `BatchConfig::PerRequestInfo`, `BitMask` and
  `CommittedTokensInfo` are records that carry only the fields these kernels read.
- TreeAttention.TreeVisibleCount: it states the intended test on bit `qi` of a 64-bit mask
  word, for `qi` below 64. The as-written 32-bit shift differs from query 31 on (see
  "## Findings").
- TreeAttention.MaskScores: tree-phase masking uses the same intended 64-bit test.
- TreeAttention.ReadSlotMatchesCacheSlot: it compares the reader and the writers for one given
  stride. `TreeAttention.TreeVerifyMeta.FusedReaderMatchesWriters` instantiates it with the
  stride the launch at lines 543-544 passes.
- TreeAttention.TreeVerifyMeta.CommitTokens: `token_index`, `request_index` and `token_depth`
  are signed 32-bit `int` in the source, and the model types them as `nat`.
  - A negative `token_index` passes the assert at line 377, which bounds it only from above.
  - The source does not skip such a record (a `-1` entry included). `val_idx` is negative
    before its conversion to `size_t`, so the kernel reads out of bounds.
  - The model does not capture that read.
  - The slot `req_id * (hidden_size * max_seq_len) + tok_id * hidden_size + offset` is
    computed in 32-bit `int`. It can pass 2^31: request 63, hidden size 8192 and stride 4160
    give 2,181,169,151 at the last slot. Slots are unbounded here, so that overflow is not
    modelled either.
- TreeAttention.TreeVerifyMeta.UpdateTreeBranchKVCache: `request_index` and
  `abs_depth_in_request` are typed `nat`, so negative values are not modelled. The 32-bit `int`
  slot computation is unbounded here, so its overflow past 2^31 is not modelled.
- TreeAttention.TreeVerifyMeta.UpdateTreeBranchKVCacheFused: the same holds for
  `request_index`, for the `first_token_*` fields and for the slot. The depth
  `token_idx + first_token_depth - first_token_offset` is an `int` here. Its requires asks
  every slot to lie inside the cache, so a write outside the cache is not modelled.
- File and network I/O are not modelled: `ifstream` reads, `gcount` checks, Legion load tasks,
  JSON file parsing, HuggingFace downloads and `tofile`. File contents are parameters; a JSON
  config is an abstract record.
- `wordexp` on the cache folder is not modelled. `PeftBenchmark.ParseInputArgs` returns the
  path before expansion. `Serve.ExpandUser` handles only `~` and `~/`; `~user` forms stay
  unexpanded.
- `std::stof` for `--temperature` and `--topp` is not modelled. Their argument text is kept.
- PeftBenchmark.ParseInputArgs: a valued option in last position reads `argv[++i]` past
  `argc`, which is undefined in C++. The model reports it as an error.
- PeftBenchmark.BuildRequests: `human + gpt` is unbounded here. 32-bit overflow of that sum is
  not modelled.
- PeftBenchmark.BuildRequests: the rest of `top_level_task` is not modelled (the `join_path`
  file names, LoRA config loading, model construction, generation).
- `Serve.Lower` and the benchmark's `tolower` are ASCII-only. Python's Unicode case mapping is
  not modelled.
- Serve.SelectMode: the `assert type(self) == LLM` failures are returned as errors. The rest of
  `compile` (request manager set-up, model construction) is not modelled.
- Serve: Hugging Face config and tokenizer downloading, refresh and conversion are not
  modelled.
- Falcon.SplitQkvMultiQuery: with `n_head_kv > 1` the split sizes do not add up and
  `torch.split` raises. The model returns an error there.
- Falcon.MakeFalconConfig: rope parameters (`rope_theta`, `rope_scaling`) and the other
  float-valued fields are not modelled.
- Falcon: the layer graph built by `build_model` is reduced to the operator choices and layer
  widths above.
- `TaskSignature` is not modelled: `apply_initializer` builds it and never uses it. Task
  dispatch through the Legion runtime is not modelled.
- Initializers.GlorotFans: `coord_t` is 64 bits; the model's fans are unbounded, so overflow
  of the fan products is not modelled.
- `DataTypeDispatch1` in the CPU fill kernels is modelled by a tagged element type; there are
  no separate template instances.
- `IsGrad`'s `std::hash`, `operator<<` and the RapidCheck generator are not modelled.
- Fresh device memory in `SamplingMeta` is unconstrained. The last offset entries and
  `sorted_idx` are never written, so their contents are unknown.
- Sampling.SamplingMeta.constructor: it requires `batch_size > 0` and a leftover
  `total_ele % batch_size` of at most `vocab_size`. For other sizes the source divides by zero
  or, as `Sampling.OffsetArraysTooSmallForRaggedInput` shows, `init_idxs` writes past the offset
  arrays; those undefined writes are not modelled.
- Sampling: the CUB segmented sort and the sampling kernels, which `forward_kernel` skips, are
  not modelled.
- FileLoader: `load_attention_o_proj_bias_to_dense_v2`, `load_from_file`,
  `load_quantization_weight`, `generate_requests` and the Legion weight tasks are not
  modelled.
  - The per-head copy loop of `load_attention_weights_quantized` is modelled only through its
    index map (`FileLoader.QuantizedHeadDst`).
  - Its offset/scale writes are modelled only through their sizes.
- FileLoader.WeightSourceFor: it names which loader runs and which file name it uses. It does
  not say what that loader writes.
- FileLoader.LoadPositions: in the source the loop counter `i` and each stored
  `i % max_seq_length + offset` are 32-bit `int`, and `volume` is a `size_t` product. All three
  are unbounded here, so neither a sum past 2^31 nor a counter that wraps before reaching a
  volume of 2^31 or more is modelled.
- FileLoader.LoadAttentionWeights: it requires `num_heads % num_kv_heads == 0`. For other
  head counts the source's `host_array.at` bounds throw and its division by zero are not
  modelled.
- FileLoader.LoadQueryAndKey: the same `num_heads % num_kv_heads == 0` requirement applies.
- InitializerKernels.ZeroInitKernel: it fills up to the exact element count. The source's
  `get_volume()` equals it only below 2^31 (`ArrayShapes.AccumulateIntExact`, and the first
  row of "## Findings").
- InitializerKernels.ConstantInitKernel: the same exact element count is used.
- Initializers.ZeroInitTask: the same exact element count is used.
- Initializers.ConstantInitTask: the same exact element count is used.
- Initializers.ApplyThenRunConstant: the same exact element count is used.
- FileLoader.CopyVerbatim: the dead first pass of the `o_proj` branch (the `temp` fill) is not
  modelled, because the second pass overwrites it.

## Findings

| source | as written | input that shows it | evidently intended | confidence | as-written member | corrected member |
|---|---|---|---|---|---|---|
| lib/kernels/src/array_shape.cc:41-42 | `std::accumulate` with the literal `1` accumulates in `int`, so the product of the dims is truncated to 32 bits before it is returned as `size_t` | dims [65536, 65536]: the volume is 2^32 but `num_elements` returns 0 | the exact product of the dims, as a `size_t` | not executed | ArrayShapes.NumElementsAsWritten, ArrayShapes.NumElementsAsWrittenWraps | ArrayShapes.NumElements, ArrayShapes.NumElementsZero |
| src/runtime/file_loader.cc:837 | `assert(weight_idx >= 0 \|\| weight_idx <= 2)` holds for every integer, so an out-of-range index passes the check | `weight_idx = 3` passes the assert and loads the file with suffix ".bias" | `weight_idx >= 0 && weight_idx <= 2` | not executed | FileLoader.LayerNormSuffixAsWritten, FileLoader.LayerNormGuardAsWrittenAcceptsAll | FileLoader.LayerNormSuffix, FileLoader.LayerNormSuffixInjective |
| src/ops/tree_inc_multihead_self_attention.cpp:187-192 | `1 << qi` shifts a 32-bit `int`: at `qi = 31` the negative result sign-extends over bits 31 to 63 of the mask word, and from `qi = 32` the shift is undefined | query 31 against a mask word whose only set bit is 40 counts the key as visible; any query from 32 | bit `qi` of the 64-bit word, `(uint64_t)1 << qi` | not executed; the mask word is taken to be 64-bit unsigned (its header is not part of this model) | TreeAttention.QueryBitAsWritten, TreeAttention.BitSetAsWrittenLeaksAtQuery31 | TreeAttention.TreeVisibleCount, TreeAttention.BitSetAsWrittenAgreesBelow31 |
