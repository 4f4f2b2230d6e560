/** The Falcon model front end: configuration fallbacks, the sanity checks and token budget of
    model construction, the per-layer operator choices, and the renaming and splitting of
    HuggingFace weight names. */
module Falcon {
  import opened Wrappers
  import opened FFConst
  import IndexArith

  // --- `FalconConfig.__init__`

  /** The HuggingFace configuration fields the Falcon front end reads; optional ones are those
      looked up with a presence test, and `num_attention_heads`/`num_hidden_layers` may be
      missing as well (reading them then raises). */
  datatype HfConfig = HfConfig(
    bias: bool,
    hiddenSize: int,
    multiQuery: bool,
    nHead: Option<int>,
    numAttentionHeads: Option<int>,
    nHeadKv: Option<int>,
    nLayer: Option<int>,
    numHiddenLayers: Option<int>,
    parallelAttn: bool,
    vocabSize: int,
    ropeTheta: Option<real>)

  datatype FalconConfig = FalconConfig(
    maxBeamWidth: int,
    maxBeamDepth: int,
    maxSpecTreeTokenNum: int,
    bias: bool,
    hiddenSize: int,
    multiQuery: bool,
    nHead: int,
    nHeadKv: int,
    nLayer: int,
    parallelAttn: bool,
    vocabSize: int,
    ropeTheta: real,
    numAttentionHeads: int,
    numKeyValueHeads: int)

  const MAX_BEAM_WIDTH: int := 1
  const MAX_BEAM_DEPTH: int := 8
  const MAX_SPEC_TREE_TOKEN_NUM: int := 20
  const DEFAULT_ROPE_THETA: real := 10000.0

  /** The value when present, the fallback otherwise. */
  function OrElse<T>(o: Option<T>, fallback: T): (r: T)
    ensures o.Some? ==> r == o.value
    ensures o.None? ==> r == fallback
  {
    if o.Some? then o.value else fallback
  }

  /** `n_head` falls back to `num_attention_heads`, `n_head_kv` defaults to 1, `n_layer` falls
      back to `num_hidden_layers`, `rope_theta` defaults to 10000; the standardised head counts
      copy `n_head` and `n_head_kv`.  A fallback that is itself missing is an error. */
  function MakeFalconConfig(hf: HfConfig): (r: Result<FalconConfig, string>)
    ensures r.Ok? <==> (hf.nHead.Some? || hf.numAttentionHeads.Some?) && (hf.nLayer.Some? || hf.numHiddenLayers.Some?)
    ensures r.Ok? ==> r.value.nHead == (if hf.nHead.Some? then hf.nHead.value else hf.numAttentionHeads.value)
    ensures r.Ok? ==> r.value.nHeadKv == (if hf.nHeadKv.Some? then hf.nHeadKv.value else 1)
    ensures r.Ok? ==> r.value.nLayer == (if hf.nLayer.Some? then hf.nLayer.value else hf.numHiddenLayers.value)
    ensures r.Ok? ==> r.value.numAttentionHeads == r.value.nHead && r.value.numKeyValueHeads == r.value.nHeadKv
    ensures r.Ok? ==> r.value.hiddenSize == hf.hiddenSize && r.value.vocabSize == hf.vocabSize
    ensures r.Ok? ==> r.value.maxSpecTreeTokenNum == MAX_SPEC_TREE_TOKEN_NUM
  {
    if hf.nHead.None? && hf.numAttentionHeads.None? then Err("AttributeError: num_attention_heads")
    else if hf.nLayer.None? && hf.numHiddenLayers.None? then Err("AttributeError: num_hidden_layers")
    else
      var nHead := if hf.nHead.Some? then hf.nHead.value else hf.numAttentionHeads.value;
      var nHeadKv := OrElse(hf.nHeadKv, 1);
      var nLayer := if hf.nLayer.Some? then hf.nLayer.value else hf.numHiddenLayers.value;
      Ok(FalconConfig(MAX_BEAM_WIDTH, MAX_BEAM_DEPTH, MAX_SPEC_TREE_TOKEN_NUM, hf.bias, hf.hiddenSize,
                      hf.multiQuery, nHead, nHeadKv, nLayer, hf.parallelAttn, hf.vocabSize,
                      OrElse(hf.ropeTheta, DEFAULT_ROPE_THETA), nHead, nHeadKv))
  }

  /** A configuration that already uses Falcon's own field names is read as is: the generic
      names are never consulted. */
  lemma OwnNamesWin(hf: HfConfig, heads: Option<int>, layers: Option<int>)
    requires hf.nHead.Some? && hf.nLayer.Some?
    ensures MakeFalconConfig(hf) == MakeFalconConfig(hf.(numAttentionHeads := heads, numHiddenLayers := layers))
  {
  }

  // --- `FlexFlowFalcon.__init__`

  /** Python's `a % b == 0` for `b != 0`: floored and Euclidean remainders are zero together. */
  predicate Divides(b: int, a: int)
    requires b != 0
  {
    a % b == 0
  }

  /** The sanity checks: `hidden_size` must be divisible by `n_head`, and `n_head` must be at
      least, and divisible by, the tensor parallelism degree.  A zero divisor raises as well. */
  function SanityCheck(cfg: FalconConfig, tensorParallelismDegree: int): (r: Outcome<string>)
    ensures r.Pass? <==>
              && cfg.nHead != 0 && Divides(cfg.nHead, cfg.hiddenSize)
              && tensorParallelismDegree != 0 && cfg.nHead >= tensorParallelismDegree
              && Divides(tensorParallelismDegree, cfg.nHead)
  {
    if cfg.nHead == 0 then Fail("ZeroDivisionError")
    else if !Divides(cfg.nHead, cfg.hiddenSize) then Fail("Hidden size is not divisible by n_head")
    else if cfg.nHead < tensorParallelismDegree then Fail("Number of q attention heads is smaller than the tensor parallelism degree")
    else if tensorParallelismDegree == 0 then Fail("ZeroDivisionError")
    else if !Divides(tensorParallelismDegree, cfg.nHead) then Fail("Number of q attention heads is not divisible by the tensor parallelism degree")
    else Pass
  }

  /** Python's floor division `a // b` (Dafny's `/` rounds towards minus infinity only for a
      positive divisor). */
  function FloorDiv(a: int, b: int): (q: int)
    requires b != 0
    ensures b > 0 ==> b * q <= a < b * q + b
    ensures b < 0 ==> b * q >= a > b * q + b
  {
    if b > 0 then a / b else (-a) / (-b)
  }

  /** The head size handed to the attention operators (`hidden_size // n_head`). */
  function HeadDim(cfg: FalconConfig): int
    requires cfg.nHead != 0
  {
    FloorDiv(cfg.hiddenSize, cfg.nHead)
  }

  /** After the checks, the heads tile the hidden dimension exactly and split evenly over the
      tensor-parallel shards. */
  lemma SaneConfigTiles(cfg: FalconConfig, tp: int)
    requires SanityCheck(cfg, tp).Pass?
    ensures HeadDim(cfg) * cfg.nHead == cfg.hiddenSize
    ensures FloorDiv(cfg.nHead, tp) * tp == cfg.nHead
    ensures cfg.nHead > 0 && tp > 0 ==> FloorDiv(cfg.nHead, tp) >= 1
  {
    ExactFloorDiv(cfg.hiddenSize, cfg.nHead);
    ExactFloorDiv(cfg.nHead, tp);
  }

  /** A division with zero remainder is exact, whatever the signs. */
  lemma ExactFloorDiv(a: int, b: int)
    requires b != 0 && a % b == 0
    ensures FloorDiv(a, b) * b == a
  {
    var q := a / b;
    assert a == q * b;
    if b < 0 {
      var nb := -b;
      assert -a == q * nb;
      IndexArith.DivModOf(q, 0, nb);
    }
  }

  /** The per-batch token budget the graph is built for: the decoding budget in incremental
      decoding, and room for a full speculation tree on top of it otherwise. */
  function BuildTokens(mode: InferenceMode, maxTokensPerBatch: int, cfg: FalconConfig): (r: int)
    ensures mode == INC_DECODING_MODE ==> r == maxTokensPerBatch
    ensures mode != INC_DECODING_MODE ==> r == maxTokensPerBatch + cfg.maxSpecTreeTokenNum
  {
    var maxVerifyTokensPerBatch := maxTokensPerBatch + cfg.maxSpecTreeTokenNum;
    if mode == INC_DECODING_MODE then maxTokensPerBatch else maxVerifyTokensPerBatch
  }

  /** Construction: configuration, checks, then the model built for the token budget. */
  function NewFlexFlowFalcon(mode: InferenceMode, hf: HfConfig, tensorParallelismDegree: int, maxTokensPerBatch: int)
    : (r: Result<int, string>)
    ensures r.Ok? <==> MakeFalconConfig(hf).Ok? && SanityCheck(MakeFalconConfig(hf).value, tensorParallelismDegree).Pass?
    ensures r.Ok? && mode == INC_DECODING_MODE ==> r.value == maxTokensPerBatch
    ensures r.Ok? && mode != INC_DECODING_MODE ==> r.value == maxTokensPerBatch + MAX_SPEC_TREE_TOKEN_NUM
  {
    var cfg := MakeFalconConfig(hf);
    if cfg.Err? then Err(cfg.error)
    else match SanityCheck(cfg.value, tensorParallelismDegree)
      case Fail(e) => Err(e)
      case Pass => Ok(BuildTokens(mode, maxTokensPerBatch, cfg.value))
  }

  /** Speculative modes build for more tokens than incremental decoding, by exactly the tree
      size the tree-verify kernel reserves per request. */
  lemma VerifyBudgetCoversTree(hf: HfConfig, tp: int, maxTokensPerBatch: int)
    requires NewFlexFlowFalcon(TREE_VERIFY_MODE, hf, tp, maxTokensPerBatch).Ok?
    ensures NewFlexFlowFalcon(TREE_VERIFY_MODE, hf, tp, maxTokensPerBatch).value
         == NewFlexFlowFalcon(INC_DECODING_MODE, hf, tp, maxTokensPerBatch).value + MAX_SPEC_TREE_TOKEN_NUM
    ensures NewFlexFlowFalcon(BEAM_SEARCH_MODE, hf, tp, maxTokensPerBatch)
         == NewFlexFlowFalcon(TREE_VERIFY_MODE, hf, tp, maxTokensPerBatch)
  {
  }

  // --- per-layer operator choices in `build_model`

  datatype AttentionOp =
    | SpecIncMultiquerySelfAttention | IncMultiquerySelfAttentionVerify | IncMultiquerySelfAttention

  /** Which attention operator a layer uses in each mode. */
  function AttentionFor(mode: InferenceMode): (op: AttentionOp)
    ensures op == IncMultiquerySelfAttentionVerify <==> mode == TREE_VERIFY_MODE
    ensures op == SpecIncMultiquerySelfAttention <==> mode == BEAM_SEARCH_MODE
  {
    match mode
    case BEAM_SEARCH_MODE => SpecIncMultiquerySelfAttention
    case TREE_VERIFY_MODE => IncMultiquerySelfAttentionVerify
    case INC_DECODING_MODE => IncMultiquerySelfAttention
  }

  datatype OutputOp = BeamArgmax | Sampling | GreedyArgmax

  /** The output head: beam search takes a beam argmax; otherwise sampling when configured,
      greedy argmax when not. */
  function OutputFor(mode: InferenceMode, doSample: bool): (op: OutputOp)
    ensures op == BeamArgmax <==> mode == BEAM_SEARCH_MODE
    ensures op == Sampling <==> mode != BEAM_SEARCH_MODE && doSample
  {
    if mode == BEAM_SEARCH_MODE then BeamArgmax
    else if doSample then Sampling
    else GreedyArgmax
  }

  /** Output widths of a layer's dense operators. */
  datatype LayerWidths = LayerWidths(qkvProj: int, oProj: int, mlpUp: int, mlpDown: int)

  function LayerWidthsOf(cfg: FalconConfig): (w: LayerWidths)
    ensures w.qkvProj == QKV_WEIGHT_NUM * cfg.hiddenSize
    ensures w.oProj == cfg.hiddenSize && w.mlpDown == cfg.hiddenSize
    ensures w.mlpUp == 4 * cfg.hiddenSize
  {
    LayerWidths(3 * cfg.hiddenSize, cfg.hiddenSize, cfg.hiddenSize * 4, cfg.hiddenSize)
  }

  // --- weight names

  /** Python's `str.replace(pat, rep)`: scans left to right and replaces every non-overlapping
      occurrence. */
  function ReplaceAll(s: string, pat: string, rep: string): string
    requires |pat| > 0
    decreases |s|
  {
    if |s| < |pat| then s
    else if s[..|pat|] == pat then rep + ReplaceAll(s[|pat|..], pat, rep)
    else [s[0]] + ReplaceAll(s[1..], pat, rep)
  }

  /** `pat` occurs in `s` starting at `i`. */
  predicate OccursAt(s: string, pat: string, i: int)
  {
    0 <= i && i + |pat| <= |s| && s[i..i + |pat|] == pat
  }

  predicate Occurs(s: string, pat: string)
  {
    exists i :: 0 <= i <= |s| - |pat| && OccursAt(s, pat, i)
  }

  /** Where no occurrence starts at the front, the first character passes through. */
  lemma ReplaceAllNoMatchAtFront(s: string, pat: string, rep: string)
    requires |pat| > 0 && |s| > 0 && !OccursAt(s, pat, 0)
    ensures ReplaceAll(s, pat, rep) == [s[0]] + ReplaceAll(s[1..], pat, rep)
  {
    if |s| >= |pat| {
      assert s[0..|pat|] == s[..|pat|];
    }
  }

  /** Occurrences in the tail are occurrences in the whole, one position later. */
  lemma OccursInTail(s: string, pat: string, i: int)
    requires |s| > 0 && OccursAt(s[1..], pat, i)
    ensures OccursAt(s, pat, i + 1)
  {
    assert s[1..][i..i + |pat|] == s[i + 1..i + 1 + |pat|];
  }

  /** Without an occurrence there is nothing to replace. */
  lemma {:induction false} ReplaceAllAbsent(s: string, pat: string, rep: string)
    requires |pat| > 0 && !Occurs(s, pat)
    ensures ReplaceAll(s, pat, rep) == s
    decreases |s|
  {
    if |s| >= |pat| {
      assert !OccursAt(s, pat, 0);
      ReplaceAllNoMatchAtFront(s, pat, rep);
      assert !Occurs(s[1..], pat) by {
        forall i | 0 <= i <= |s[1..]| - |pat| && OccursAt(s[1..], pat, i) ensures false {
          OccursInTail(s, pat, i);
        }
      }
      ReplaceAllAbsent(s[1..], pat, rep);
    }
  }

  /** A prefix in which no occurrence starts passes through unchanged. */
  lemma {:induction false} ReplaceAllSkips(a: string, b: string, pat: string, rep: string)
    requires |pat| > 0
    requires forall i :: 0 <= i < |a| ==> !OccursAt(a + b, pat, i)
    ensures ReplaceAll(a + b, pat, rep) == a + ReplaceAll(b, pat, rep)
    decreases |a|
  {
    if |a| > 0 {
      var s := a + b;
      var t := a[1..];
      assert s[1..] == t + b;
      assert !OccursAt(s, pat, 0);
      ReplaceAllNoMatchAtFront(s, pat, rep);
      assert ReplaceAll(s, pat, rep) == [a[0]] + ReplaceAll(t + b, pat, rep);
      forall i | 0 <= i < |t| ensures !OccursAt(t + b, pat, i) {
        assert !OccursAt(s, pat, i + 1);
        if OccursAt(s[1..], pat, i) {
          OccursInTail(s, pat, i);
        }
      }
      ReplaceAllSkips(t, b, pat, rep);
      assert [a[0]] + (t + ReplaceAll(b, pat, rep)) == a + ReplaceAll(b, pat, rep) by {
        assert a == [a[0]] + t;
      }
    } else {
      assert a + b == b;
    }
  }

  /** An occurrence at the start is replaced and the scan resumes after it. */
  lemma ReplaceAllAtStart(pat: string, b: string, rep: string)
    requires |pat| > 0
    ensures ReplaceAll(pat + b, pat, rep) == rep + ReplaceAll(b, pat, rep)
  {
    var t := pat + b;
    assert t[..|pat|] == pat;
    assert t[|pat|..] == b;
  }

  /** A single occurrence, with none starting before it and none after it, is replaced. */
  lemma ReplaceAllSingle(a: string, b: string, pat: string, rep: string)
    requires |pat| > 0
    requires forall i :: 0 <= i < |a| ==> !OccursAt(a + pat + b, pat, i)
    requires !Occurs(b, pat)
    ensures ReplaceAll(a + pat + b, pat, rep) == a + rep + b
  {
    var t := pat + b;
    assert a + pat + b == a + t;
    ReplaceAllSkips(a, t, pat, rep);
    ReplaceAllAtStart(pat, b, rep);
    ReplaceAllAbsent(b, pat, rep);
    assert a + (rep + b) == a + rep + b;
  }

  /** `convert_hf_weight_name`: the three renames, in order. */
  function ConvertHfWeightName(name: string): (r: string)
    ensures !Occurs(name, "transformer.") && !Occurs(name, DENSE) ==> r == name
  {
    ConvertKeepsOtherNames(name);
    ReplaceAll(ReplaceAll(ReplaceAll(name, LAYER_PREFIX, "layers."), "transformer.", ""), DENSE, O_PROJ)
  }

  /** Names that mention neither `transformer.` nor `self_attention.dense` keep their name (the
      language-model head, for one); `transformer.h.` cannot occur without `transformer.`. */
  lemma ConvertKeepsOtherNames(name: string)
    ensures !Occurs(name, "transformer.") && !Occurs(name, DENSE) ==>
      ReplaceAll(ReplaceAll(ReplaceAll(name, LAYER_PREFIX, "layers."), "transformer.", ""), DENSE, O_PROJ) == name
  {
    if !Occurs(name, "transformer.") && !Occurs(name, DENSE) {
      FixedPartsStartNoMatch();
      NoLongerOccurrence(name, "transformer.", "h.");
      ReplaceAllAbsent(name, LAYER_PREFIX, "layers.");
      ReplaceAllAbsent(name, "transformer.", "");
      ReplaceAllAbsent(name, DENSE, O_PROJ);
    }
  }

  /** An occurrence of a longer pattern is an occurrence of its prefix. */
  lemma NoLongerOccurrence(s: string, pat: string, tail: string)
    requires !Occurs(s, pat)
    ensures !Occurs(s, pat + tail)
  {
    forall i | 0 <= i <= |s| - |pat + tail| && OccursAt(s, pat + tail, i) ensures false {
      assert s[i..i + |pat|] == (pat + tail)[..|pat|];
      assert OccursAt(s, pat, i);
    }
  }

  /** No position of `x` starts a match of a pattern beginning with `c0 c1`: each character is
      not `c0`, or is followed inside `x` by a character other than `c1`. */
  predicate NoStartIn(x: string, c0: char, c1: char)
  {
    forall i :: 0 <= i < |x| ==> x[i] != c0 || (i + 1 < |x| && x[i + 1] != c1)
  }

  /** Such a prefix passes through a replacement unchanged. */
  lemma NoMatchStartsIn(x: string, b: string, pat: string, rep: string)
    requires |pat| >= 2 && NoStartIn(x, pat[0], pat[1])
    ensures ReplaceAll(x + b, pat, rep) == x + ReplaceAll(b, pat, rep)
  {
    forall i | 0 <= i < |x| ensures !OccursAt(x + b, pat, i) {
      if i + |pat| <= |x + b| {
        var w := (x + b)[i..i + |pat|];
        assert x[i] != pat[0] || (i + 1 < |x| && x[i + 1] != pat[1]);
        assert w[0] == x[i];
        if i + 1 < |x| {
          assert w[1] == x[i + 1];
        }
        assert w[0] != pat[0] || w[1] != pat[1];
      }
    }
    ReplaceAllSkips(x, b, pat, rep);
  }

  /** Gluing two such strings keeps the property when the first does not end in `c0`. */
  lemma NoStartConcat(a: string, d: string, c0: char, c1: char)
    requires NoStartIn(a, c0, c1) && NoStartIn(d, c0, c1) && (|a| > 0 ==> a[|a| - 1] != c0)
    ensures NoStartIn(a + d, c0, c1)
  {
    var s := a + d;
    forall i | 0 <= i < |s| ensures s[i] != c0 || (i + 1 < |s| && s[i + 1] != c1) {
      if i >= |a| {
        assert d[i - |a|] != c0 || (i - |a| + 1 < |d| && d[i - |a| + 1] != c1);
        assert s[i] == d[i - |a|];
        if i + 1 < |s| {
          assert s[i + 1] == d[i + 1 - |a|];
        }
      } else {
        assert a[i] != c0 || (i + 1 < |a| && a[i + 1] != c1);
        assert s[i] == a[i];
        if i + 1 < |a| {
          assert s[i + 1] == a[i + 1];
        }
      }
    }
  }

  /** A layer number such as `3.` contains neither `s` nor `t`, the first letters of the patterns
      it must not start. */
  predicate PlainLayerTag(a: string)
  {
    forall i :: 0 <= i < |a| ==> a[i] != 's' && a[i] != 't'
  }

  const LAYER_PREFIX: string := "transformer.h."
  const DENSE: string := "self_attention.dense"
  const O_PROJ: string := "self_attention.o_proj"

  /** The fixed name parts start no match of the patterns that follow them. */
  lemma FixedPartsStartNoMatch()
    ensures NoStartIn(DENSE, 't', 'r') && NoStartIn("layers.", 't', 'r') && NoStartIn("layers.", 's', 'e')
    ensures "transformer." + "h." == LAYER_PREFIX
  {
  }

  /** `transformer.h.` becomes `layers.`; the rest of the name is kept. */
  lemma ConvertLayerName(rest: string)
    requires !Occurs(rest, "transformer.") && !Occurs(rest, DENSE)
    ensures ConvertHfWeightName(LAYER_PREFIX + rest) == "layers." + rest
  {
    FixedPartsStartNoMatch();
    NoLongerOccurrence(rest, "transformer.", "h.");
    ReplaceAllAtStart(LAYER_PREFIX, rest, "layers.");
    ReplaceAllAbsent(rest, LAYER_PREFIX, "layers.");
    NoMatchStartsIn("layers.", rest, "transformer.", "");
    ReplaceAllAbsent(rest, "transformer.", "");
    NoMatchStartsIn("layers.", rest, DENSE, O_PROJ);
    ReplaceAllAbsent(rest, DENSE, O_PROJ);
  }

  /** First rename of a dense-projection name: only the leading `transformer.h.` changes. */
  lemma DenseFirstRename(tag: string, rest: string)
    requires PlainLayerTag(tag) && !Occurs(rest, "transformer.")
    ensures ReplaceAll(LAYER_PREFIX + (tag + DENSE + rest), LAYER_PREFIX, "layers.") == "layers." + (tag + DENSE) + rest
  {
    var m := tag + DENSE;
    TagDenseKeptByLayerRename(tag, rest);
    assert tag + DENSE + rest == m + rest;
    ReplaceAllAtStart(LAYER_PREFIX, m + rest, "layers.");
    NoMatchStartsIn(m, rest, LAYER_PREFIX, "layers.");
  }

  /** The facts the first rename needs: the tagged dense name starts no `transformer.h.`, and
      the rest holds none. */
  lemma TagDenseKeptByLayerRename(tag: string, rest: string)
    requires PlainLayerTag(tag) && !Occurs(rest, "transformer.")
    ensures |LAYER_PREFIX| >= 2 && NoStartIn(tag + DENSE, LAYER_PREFIX[0], LAYER_PREFIX[1])
    ensures ReplaceAll(rest, LAYER_PREFIX, "layers.") == rest
  {
    FixedPartsStartNoMatch();
    NoLongerOccurrence(rest, "transformer.", "h.");
    NoStartConcat(tag, DENSE, 't', 'r');
    ReplaceAllAbsent(rest, LAYER_PREFIX, "layers.");
  }

  /** Second rename: no `transformer.` is left to drop. */
  lemma DenseSecondRename(tag: string, rest: string)
    requires PlainLayerTag(tag) && !Occurs(rest, "transformer.")
    ensures ReplaceAll("layers." + (tag + DENSE) + rest, "transformer.", "") == "layers." + (tag + DENSE) + rest
  {
    FixedPartsStartNoMatch();
    NoStartConcat(tag, DENSE, 't', 'r');
    NoStartConcat("layers.", tag + DENSE, 't', 'r');
    NoMatchStartsIn("layers." + (tag + DENSE), rest, "transformer.", "");
    ReplaceAllAbsent(rest, "transformer.", "");
  }

  /** Third rename: the one `self_attention.dense` becomes `self_attention.o_proj`. */
  lemma DenseThirdRename(tag: string, rest: string)
    requires PlainLayerTag(tag) && !Occurs(rest, DENSE)
    ensures ReplaceAll("layers." + (tag + DENSE) + rest, DENSE, O_PROJ) == "layers." + tag + O_PROJ + rest
  {
    FixedPartsStartNoMatch();
    NoStartConcat("layers.", tag, 's', 'e');
    var pre := "layers." + tag;
    assert "layers." + (tag + DENSE) + rest == pre + (DENSE + rest);
    NoMatchStartsIn(pre, DENSE + rest, DENSE, O_PROJ);
    ReplaceAllAtStart(DENSE, rest, O_PROJ);
    ReplaceAllAbsent(rest, DENSE, O_PROJ);
    assert pre + (O_PROJ + rest) == "layers." + tag + O_PROJ + rest;
  }

  /** The attention output projection of a decoder layer is renamed to `o_proj`:
      `transformer.h.<tag>self_attention.dense<rest>` becomes `layers.<tag>self_attention.o_proj<rest>`;
      for one, `transformer.h.3.self_attention.dense.weight` becomes
      `layers.3.self_attention.o_proj.weight` (tag `3.`, rest `.weight`). */
  lemma ConvertAttentionDense(tag: string, rest: string)
    requires PlainLayerTag(tag)
    requires !Occurs(rest, "transformer.") && !Occurs(rest, DENSE)
    ensures ConvertHfWeightName(LAYER_PREFIX + tag + DENSE + rest) == "layers." + tag + O_PROJ + rest
  {
    assert LAYER_PREFIX + tag + DENSE + rest == LAYER_PREFIX + (tag + DENSE + rest);
    DenseFirstRename(tag, rest);
    DenseSecondRename(tag, rest);
    DenseThirdRename(tag, rest);
  }

  const QKV_NAME: string := "self_attention.query_key_value"

  /** The three file names and the row counts that the fused query/key/value tensor of a
      layer is split into. */
  datatype QkvSplit<T> = QkvSplit(qName: string, kName: string, vName: string, q: seq<T>, k: seq<T>, v: seq<T>)

  /** Splits the fused rows as `[hidden, hidden // n_head, hidden // n_head]`; a zero `n_head`
      divides by zero, and a negative size or sizes that do not add up to the rows make
      `torch.split` fail. */
  function SplitQkv<T>(name: string, rows: seq<T>, hiddenSize: nat, nHead: int): (r: Result<QkvSplit<T>, string>)
    ensures r.Ok? <==> nHead != 0 && FloorDiv(hiddenSize, nHead) >= 0 && hiddenSize + 2 * FloorDiv(hiddenSize, nHead) == |rows|
    ensures r.Ok? ==> r.value.q + r.value.k + r.value.v == rows
    ensures r.Ok? ==> |r.value.q| == hiddenSize && |r.value.k| == |r.value.v| == FloorDiv(hiddenSize, nHead)
    ensures r.Ok? ==> r.value.qName == ReplaceAll(name, QKV_NAME, "self_attention.q_proj")
    ensures r.Ok? ==> r.value.kName == ReplaceAll(name, QKV_NAME, "self_attention.k_proj")
    ensures r.Ok? ==> r.value.vName == ReplaceAll(name, QKV_NAME, "self_attention.v_proj")
  {
    if nHead == 0 then Err("ZeroDivisionError")
    else
      var kv := FloorDiv(hiddenSize, nHead);
      if kv < 0 || hiddenSize + 2 * kv != |rows| then Err("split sizes do not match the tensor")
      else
        var q := rows[..hiddenSize];
        var k := rows[hiddenSize..hiddenSize + kv];
        var v := rows[hiddenSize + kv..];
        assert q + k + v == rows;
        Ok(QkvSplit(ReplaceAll(name, QKV_NAME, "self_attention.q_proj"),
                    ReplaceAll(name, QKV_NAME, "self_attention.k_proj"),
                    ReplaceAll(name, QKV_NAME, "self_attention.v_proj"), q, k, v))
  }

  /** A name holding the fused marker once yields the three projection names in its place. */
  lemma SplitQkvNames(prefix: string, suffix: string)
    requires forall i :: 0 <= i < |prefix| ==> !OccursAt(prefix + QKV_NAME + suffix, QKV_NAME, i)
    requires !Occurs(suffix, QKV_NAME)
    ensures ReplaceAll(prefix + QKV_NAME + suffix, QKV_NAME, "self_attention.q_proj") == prefix + "self_attention.q_proj" + suffix
    ensures ReplaceAll(prefix + QKV_NAME + suffix, QKV_NAME, "self_attention.k_proj") == prefix + "self_attention.k_proj" + suffix
    ensures ReplaceAll(prefix + QKV_NAME + suffix, QKV_NAME, "self_attention.v_proj") == prefix + "self_attention.v_proj" + suffix
  {
    ReplaceAllSingle(prefix, suffix, QKV_NAME, "self_attention.q_proj");
    ReplaceAllSingle(prefix, suffix, QKV_NAME, "self_attention.k_proj");
    ReplaceAllSingle(prefix, suffix, QKV_NAME, "self_attention.v_proj");
  }

  /** For a multi-query model (one key/value head) the split accepts exactly the fused layout
      `hidden + 2 * head_dim` rows; with more key/value heads the fused tensor is larger and the
      split fails. */
  lemma SplitQkvMultiQuery<T>(name: string, rows: seq<T>, cfg: FalconConfig)
    requires cfg.nHead > 0 && cfg.hiddenSize >= 0 && cfg.nHeadKv >= 1
    requires |rows| == cfg.hiddenSize + 2 * cfg.nHeadKv * HeadDim(cfg)
    ensures SplitQkv(name, rows, cfg.hiddenSize, cfg.nHead).Ok? <==> cfg.nHeadKv == 1 || HeadDim(cfg) == 0
  {
  }
}
