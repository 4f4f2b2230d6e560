/** The serving front end: model-type lookup from a HuggingFace configuration, cache paths,
    inference-mode selection, and the normalisation of per-request length limits before a
    batch of requests is handed to the runtime. */
module Serve {
  import opened Wrappers
  import opened FFConst

  // --- `_SupportedModels.get_ff_model_type`

  /** The FlexFlow model class (each comes with its own configuration class). */
  datatype ModelFamily = FlexFlowLLAMA | FlexFlowOPT | FlexFlowFalcon | FlexFlowSTARCODER | FlexFlowMPT

  datatype SupportedModel = SupportedModel(modelType: ModelType, family: ModelFamily)

  /** HuggingFace architecture names and what they map to. */
  const SUPPORTED_MODELS: map<string, SupportedModel> := map[
    "LlamaForCausalLM" := SupportedModel(LLAMA, FlexFlowLLAMA),
    "LLaMAForCausalLM" := SupportedModel(LLAMA, FlexFlowLLAMA),
    "OPTForCausalLM" := SupportedModel(OPT, FlexFlowOPT),
    "RWForCausalLM" := SupportedModel(FALCON, FlexFlowFalcon),
    "FalconForCausalLM" := SupportedModel(FALCON, FlexFlowFalcon),
    "GPTBigCodeForCausalLM" := SupportedModel(STARCODER, FlexFlowSTARCODER),
    "MPTForCausalLM" := SupportedModel(MPT, FlexFlowMPT)
  ]

  /** Only the first listed architecture is consulted; an empty list or an unknown name is a
      `ValueError`. */
  function GetFFModelType(architectures: seq<string>): (r: Result<SupportedModel, string>)
    ensures r.Ok? <==> |architectures| > 0 && architectures[0] in SUPPORTED_MODELS
    ensures r.Ok? ==> r.value.modelType != UNKNOWN
    ensures r.Ok? ==> r.value == SUPPORTED_MODELS[architectures[0]]
  {
    if |architectures| > 0 && architectures[0] in SUPPORTED_MODELS then
      SupportedModelsAreKnown(architectures[0]);
      Ok(SUPPORTED_MODELS[architectures[0]])
    else Err("Huggingface model is not yet supported by FlexFlow")
  }

  /** Every supported architecture maps to a known model type, and the model type decides the
      model class. */
  lemma SupportedModelsAreKnown(name: string)
    requires name in SUPPORTED_MODELS
    ensures SUPPORTED_MODELS[name].modelType != UNKNOWN
    ensures SUPPORTED_MODELS[name].family == FamilyOf(SUPPORTED_MODELS[name].modelType)
  {
  }

  function FamilyOf(t: ModelType): ModelFamily
    requires t != UNKNOWN
  {
    match t
    case LLAMA => FlexFlowLLAMA
    case OPT => FlexFlowOPT
    case FALCON => FlexFlowFalcon
    case STARCODER => FlexFlowSTARCODER
    case MPT => FlexFlowMPT
  }

  /** Architectures after the first never matter. */
  lemma GetFFModelTypeFirstOnly(a: seq<string>, b: seq<string>)
    requires |a| > 0 && |b| > 0 && a[0] == b[0]
    ensures GetFFModelType(a) == GetFFModelType(b)
  {
  }

  // --- `__get_resource_path`

  datatype CachedResourceType = TOKENIZER | WEIGHTS

  /** The cache folder: the one given, or `~/.cache/flexflow` when none is. */
  function CachePath(given: string): (r: string)
    ensures |given| > 0 ==> r == given
    ensures |given| == 0 ==> r == "~/.cache/flexflow"
  {
    if |given| > 0 then given else "~/.cache/flexflow"
  }

  function LowerChar(c: char): (d: char)
    ensures 'A' <= c <= 'Z' ==> 'a' <= d <= 'z' && d as int == c as int + 32
    ensures !('A' <= c <= 'Z') ==> d == c
  {
    if 'A' <= c <= 'Z' then (c as int + 32) as char else c
  }

  /** `str.lower` on ASCII letters. */
  function Lower(s: string): (r: string)
    ensures |r| == |s|
    ensures forall i :: 0 <= i < |s| ==> r[i] == LowerChar(s[i])
  {
    if |s| == 0 then "" else [LowerChar(s[0])] + Lower(s[1..])
  }

  /** Lowering twice is lowering once. */
  lemma {:induction false} LowerIdempotent(s: string)
    ensures Lower(Lower(s)) == Lower(s)
  {
    if |s| > 0 {
      LowerIdempotent(s[1..]);
      assert Lower(s)[1..] == Lower(s[1..]);
    }
  }

  /** `home` without its trailing separators. */
  function RStripSlash(home: string): (r: string)
    ensures |r| <= |home| && r == home[..|r|]
    ensures |r| == 0 || r[|r| - 1] != '/'
    ensures forall i :: |r| <= i < |home| ==> home[i] == '/'
  {
    if |home| > 0 && home[|home| - 1] == '/' then RStripSlash(home[..|home| - 1]) else home
  }

  /** `os.path.expanduser` for the current user's `~` (the `~user` form is not modelled):
      a leading `~` followed by nothing or `/` becomes the home folder. */
  function ExpandUser(path: string, home: string): (r: string)
    ensures |path| == 0 || path[0] != '~' ==> r == path
    ensures path == "~" || (|path| >= 2 && path[..2] == "~/") ==>
              (r == RStripSlash(home) + path[1..] || (RStripSlash(home) + path[1..] == "" && r == "/"))
  {
    if |path| > 0 && path[0] == '~' && (|path| == 1 || path[1] == '/') then
      var expanded := RStripSlash(home) + path[1..];
      if expanded == "" then "/" else expanded
    else path
  }

  /** `os.path.join` of two components on POSIX: an absolute second component replaces the
      first; otherwise a separator is inserted unless the first is empty or ends in one. */
  function PathJoin(a: string, b: string): (r: string)
    ensures |b| > 0 && b[0] == '/' ==> r == b
    ensures !(|b| > 0 && b[0] == '/') && |a| > 0 && a[|a| - 1] != '/' ==> r == a + "/" + b
    ensures !(|b| > 0 && b[0] == '/') && (|a| == 0 || a[|a| - 1] == '/') ==> r == a + b
  {
    if |b| > 0 && b[0] == '/' then b
    else if |a| == 0 || a[|a| - 1] == '/' then a + b
    else a + "/" + b
  }

  /** The resource folder: weights live under `weights/<model>/<precision>`, tokenizers under
      `tokenizers/<model>`, both below the expanded cache folder; full precision is chosen
      exactly for `DT_FLOAT`. */
  function ResourcePath(cachePath: string, home: string, modelName: string, dataType: DataType,
                        resource: CachedResourceType): (r: string)
  {
    var root := ExpandUser(cachePath, home);
    match resource
    case WEIGHTS =>
      PathJoin(PathJoin(PathJoin(root, "weights"), Lower(modelName)),
               if dataType == DT_FLOAT then "full-precision" else "half-precision")
    case TOKENIZER =>
      PathJoin(PathJoin(root, "tokenizers"), Lower(modelName))
  }

  /** Joining a relative component onto a folder that does not end in a separator. */
  lemma JoinRelative(a: string, b: string)
    requires |a| > 0 && a[|a| - 1] != '/' && |b| > 0 && b[0] != '/'
    ensures PathJoin(a, b) == a + "/" + b
    ensures PathJoin(a, b)[|PathJoin(a, b)| - 1] == b[|b| - 1]
  {
  }

  /** For a model name that neither starts nor ends with a separator and an expanded cache
      folder that does not end in one, the paths are the folder followed by the listed components. */
  lemma ResourcePathLayout(cachePath: string, home: string, modelName: string, dataType: DataType)
    requires |modelName| > 0 && modelName[0] != '/' && modelName[|modelName| - 1] != '/'
    requires var root := ExpandUser(cachePath, home); |root| > 0 && root[|root| - 1] != '/'
    ensures ResourcePath(cachePath, home, modelName, dataType, TOKENIZER)
         == ExpandUser(cachePath, home) + "/" + "tokenizers" + "/" + Lower(modelName)
    ensures ResourcePath(cachePath, home, modelName, dataType, WEIGHTS)
         == ExpandUser(cachePath, home) + "/" + "weights" + "/" + Lower(modelName) + "/"
            + (if dataType == DT_FLOAT then "full-precision" else "half-precision")
  {
    var root := ExpandUser(cachePath, home);
    var lower := Lower(modelName);
    LowerKeepsEnds(modelName);
    var precision := if dataType == DT_FLOAT then "full-precision" else "half-precision";
    assert ResourcePath(cachePath, home, modelName, dataType, WEIGHTS)
        == PathJoin(PathJoin(PathJoin(root, "weights"), lower), precision);
    assert ResourcePath(cachePath, home, modelName, dataType, TOKENIZER)
        == PathJoin(PathJoin(root, "tokenizers"), lower);
    if dataType == DT_FLOAT {
      JoinThrice(root, "weights", lower, "full-precision");
    } else {
      JoinThrice(root, "weights", lower, "half-precision");
    }
    JoinTwice(root, "tokenizers", lower);
  }

  /** Lowering keeps a leading or trailing separator and its absence. */
  lemma LowerKeepsEnds(s: string)
    requires |s| > 0
    ensures |Lower(s)| > 0 && (Lower(s)[0] == '/' <==> s[0] == '/')
    ensures Lower(s)[|s| - 1] == '/' <==> s[|s| - 1] == '/'
  {
  }

  lemma JoinThrice(root: string, dir: string, name: string, leaf: string)
    requires |root| > 0 && root[|root| - 1] != '/'
    requires |dir| > 0 && dir[0] != '/' && dir[|dir| - 1] != '/'
    requires |name| > 0 && name[0] != '/' && name[|name| - 1] != '/'
    requires |leaf| > 0 && leaf[0] != '/'
    ensures PathJoin(PathJoin(PathJoin(root, dir), name), leaf) == root + "/" + dir + "/" + name + "/" + leaf
  {
    JoinTwice(root, dir, name);
    JoinRelative(PathJoin(PathJoin(root, dir), name), leaf);
  }

  lemma JoinTwice(root: string, dir: string, name: string)
    requires |root| > 0 && root[|root| - 1] != '/'
    requires |dir| > 0 && dir[0] != '/' && dir[|dir| - 1] != '/'
    requires |name| > 0 && name[0] != '/'
    ensures PathJoin(PathJoin(root, dir), name) == root + "/" + dir + "/" + name
    ensures name[|name| - 1] != '/' ==> PathJoin(PathJoin(root, dir), name)[|PathJoin(PathJoin(root, dir), name)| - 1] != '/'
  {
    JoinRelative(root, dir);
    JoinRelative(root + "/" + dir, name);
  }

  /** The model name's case never matters. */
  lemma ResourcePathIgnoresCase(cachePath: string, home: string, modelName: string, dataType: DataType,
                                resource: CachedResourceType)
    ensures ResourcePath(cachePath, home, Lower(modelName), dataType, resource)
         == ResourcePath(cachePath, home, modelName, dataType, resource)
  {
    LowerIdempotent(modelName);
  }

  // --- mode selection in `compile`

  /** Whether the object being compiled is a plain LLM or a small speculative model. */
  datatype ServeKind = LLMKind | SSMKind

  datatype Parallelism = Parallelism(data: nat, tensor: nat, pipeline: nat)

  datatype Compiled = Compiled(mode: InferenceMode, degrees: Parallelism)

  /** With speculative models attached the LLM verifies token trees; a small model runs beam
      search with every parallelism degree forced to 1; a plain LLM decodes incrementally.
      Compiling a small model with speculative models attached fails the type assertion. */
  function SelectMode(kind: ServeKind, numSsms: nat, config: Parallelism): (r: Result<Compiled, string>)
    ensures r.Ok? <==> numSsms == 0 || kind == LLMKind
    ensures r.Ok? ==> (r.value.mode == TREE_VERIFY_MODE <==> numSsms > 0)
    ensures r.Ok? ==> (r.value.mode == BEAM_SEARCH_MODE <==> kind == SSMKind)
    ensures r.Ok? && r.value.mode == BEAM_SEARCH_MODE ==> r.value.degrees == Parallelism(1, 1, 1)
    ensures r.Ok? && r.value.mode != BEAM_SEARCH_MODE ==> r.value.degrees == config
  {
    if numSsms > 0 then
      if kind == LLMKind then Ok(Compiled(TREE_VERIFY_MODE, config)) else Err("assert type(self) == LLM")
    else if kind == SSMKind then Ok(Compiled(BEAM_SEARCH_MODE, Parallelism(1, 1, 1)))
    else Ok(Compiled(INC_DECODING_MODE, config))
  }

  /** The background server (and its shutdown hook) is started for the LLM modes only. */
  function StartsBackgroundServer(mode: InferenceMode): (r: bool)
    ensures r <==> mode != BEAM_SEARCH_MODE
  {
    mode == TREE_VERIFY_MODE || mode == INC_DECODING_MODE
  }

  /** A compiled LLM always runs the background server; a compiled small model never does. */
  lemma ServerFollowsKind(kind: ServeKind, numSsms: nat, config: Parallelism)
    requires SelectMode(kind, numSsms, config).Ok?
    ensures StartsBackgroundServer(SelectMode(kind, numSsms, config).value.mode) <==> kind == LLMKind
  {
  }

  // --- request normalisation in `_generate`

  datatype RequestType = REQ_INFERENCE | REQ_FINETUNING

  /** A request object; `_generate` rewrites its limits in place. */
  class Request {
    const reqType: RequestType
    const prompt: string
    var maxLength: int
    var maxNewTokens: int

    constructor (reqType: RequestType, prompt: string, maxLength: int, maxNewTokens: int)
      ensures this.reqType == reqType && this.prompt == prompt
      ensures this.maxLength == maxLength && this.maxNewTokens == maxNewTokens
    {
      this.reqType := reqType;
      this.prompt := prompt;
      this.maxLength := maxLength;
      this.maxNewTokens := maxNewTokens;
    }
  }

  /** The two limits of a request; -1 means "not set". */
  datatype Limits = Limits(maxLength: int, maxNewTokens: int)

  /** The limits after one request's normalisation, and whether its checks passed (an
      assignment made before a failing check stays in place). */
  datatype Normalized = Normalized(limits: Limits, ok: bool)

  /** Inference: with neither limit set, `max_length` becomes `max_seq_length - 1`; with both
      set, `max_length` is dropped so `max_new_tokens` wins; then both must be below
      `max_seq_length`.  Finetuning: `max_new_tokens` must be unset, an unset `max_length`
      becomes `max_seq_length - 1`, and it must be below `max_seq_length`. */
  function NormalizeLimits(t: RequestType, l: Limits, maxSeqLength: int): (n: Normalized)
    ensures n.ok ==> n.limits.maxLength < maxSeqLength
    ensures n.ok && t == REQ_INFERENCE ==> n.limits.maxNewTokens < maxSeqLength
    ensures n.limits.maxNewTokens == l.maxNewTokens
    ensures t == REQ_INFERENCE && l.maxLength == -1 && l.maxNewTokens == -1 ==> n.limits.maxLength == maxSeqLength - 1
    ensures t == REQ_INFERENCE && l.maxLength != -1 && l.maxNewTokens != -1 ==> n.limits.maxLength == -1
    ensures t == REQ_INFERENCE ==> (n.ok <==> n.limits.maxLength < maxSeqLength && l.maxNewTokens < maxSeqLength)
    ensures t == REQ_FINETUNING && l.maxNewTokens != -1 ==> !n.ok && n.limits == l
    ensures t == REQ_FINETUNING && l.maxNewTokens == -1 ==>
              n.limits.maxLength == (if l.maxLength == -1 then maxSeqLength - 1 else l.maxLength)
              && (n.ok <==> n.limits.maxLength < maxSeqLength)
  {
    match t
    case REQ_INFERENCE =>
      var maxLength :=
        if l.maxLength == -1 && l.maxNewTokens == -1 then maxSeqLength - 1
        else if l.maxLength != -1 && l.maxNewTokens != -1 then -1
        else l.maxLength;
      Normalized(Limits(maxLength, l.maxNewTokens), !(maxLength >= maxSeqLength || l.maxNewTokens >= maxSeqLength))
    case REQ_FINETUNING =>
      if l.maxNewTokens != -1 then Normalized(l, false)
      else
        var maxLength := if l.maxLength == -1 then maxSeqLength - 1 else l.maxLength;
        Normalized(Limits(maxLength, l.maxNewTokens), maxLength < maxSeqLength)
  }

  /** A normalised request that passed is left alone by a second normalisation: a request
      listed twice is normalised once. */
  lemma NormalizeLimitsIdempotent(t: RequestType, l: Limits, maxSeqLength: int)
    requires NormalizeLimits(t, l, maxSeqLength).ok
    ensures NormalizeLimits(t, NormalizeLimits(t, l, maxSeqLength).limits, maxSeqLength)
         == NormalizeLimits(t, l, maxSeqLength)
  {
  }

  /** After a passing normalisation at most one limit is in force: inference requests keep an
      unset `max_length` or an unset `max_new_tokens`, finetuning requests never carry
      `max_new_tokens`. */
  lemma NormalizedHasOneLimit(t: RequestType, l: Limits, maxSeqLength: int)
    requires NormalizeLimits(t, l, maxSeqLength).ok
    ensures NormalizeLimits(t, l, maxSeqLength).limits.maxLength == -1
         || NormalizeLimits(t, l, maxSeqLength).limits.maxNewTokens == -1
    ensures t == REQ_FINETUNING ==> NormalizeLimits(t, l, maxSeqLength).limits.maxNewTokens == -1
  {
  }

  function LimitsOf(r: Request): Limits
    reads r
  {
    Limits(r.maxLength, r.maxNewTokens)
  }

  /** The per-request checks of `_generate`, in list order; requests are objects and the same
      one may be listed more than once.  On success every listed request holds its normalised
      limits; on failure the requests before the failing one are normalised, the failing one
      keeps any assignment made before its check, and the rest are untouched. */
  method NormalizeRequests(requests: seq<Request>, maxSeqLength: int) returns (r: Outcome<string>)
    modifies set q | q in requests
    ensures r.Pass? <==> forall i :: 0 <= i < |requests| ==>
              NormalizeLimits(requests[i].reqType, old(LimitsOf(requests[i])), maxSeqLength).ok
    ensures r.Pass? ==> forall i :: 0 <= i < |requests| ==>
              LimitsOf(requests[i]) == NormalizeLimits(requests[i].reqType, old(LimitsOf(requests[i])), maxSeqLength).limits
    ensures r.Fail? ==>
              exists k :: 0 <= k < |requests|
                && !NormalizeLimits(requests[k].reqType, old(LimitsOf(requests[k])), maxSeqLength).ok
                && (forall i :: 0 <= i < |requests| && requests[i] in requests[..k + 1] ==>
                      LimitsOf(requests[i]) == NormalizeLimits(requests[i].reqType, old(LimitsOf(requests[i])), maxSeqLength).limits)
                && (forall i :: 0 <= i < |requests| && requests[i] !in requests[..k + 1] ==>
                      LimitsOf(requests[i]) == old(LimitsOf(requests[i])))
  {
    var i := 0;
    while i < |requests|
      invariant 0 <= i <= |requests|
      invariant forall j :: 0 <= j < i ==>
                  NormalizeLimits(requests[j].reqType, old(LimitsOf(requests[j])), maxSeqLength).ok
      invariant forall j :: 0 <= j < |requests| && requests[j] in requests[..i] ==>
                  LimitsOf(requests[j]) == NormalizeLimits(requests[j].reqType, old(LimitsOf(requests[j])), maxSeqLength).limits
      invariant forall j :: 0 <= j < |requests| && requests[j] !in requests[..i] ==>
                  LimitsOf(requests[j]) == old(LimitsOf(requests[j]))
    {
      var req := requests[i];
      ghost var seen := req in requests[..i];
      if seen {
        NormalizeLimitsIdempotent(req.reqType, old(LimitsOf(req)), maxSeqLength);
      }
      var n := NormalizeLimits(req.reqType, LimitsOf(req), maxSeqLength);
      req.maxLength := n.limits.maxLength;
      assert requests[..i + 1] == requests[..i] + [req];
      forall j | 0 <= j < |requests|
        ensures requests[j] in requests[..i + 1] ==>
                  LimitsOf(requests[j]) == NormalizeLimits(requests[j].reqType, old(LimitsOf(requests[j])), maxSeqLength).limits
        ensures requests[j] !in requests[..i + 1] ==> LimitsOf(requests[j]) == old(LimitsOf(requests[j]))
      {
        if requests[j] != req {
          assert requests[j] in requests[..i + 1] <==> requests[j] in requests[..i];
        }
      }
      if !n.ok {
        return Fail("limit exceeds the maximum sequence length");
      }
      i := i + 1;
    }
    return Pass;
  }

  /** `_generate`: an empty list yields no results; otherwise the requests are normalised and,
      when every check passes, handed to the model (not modelled).  The new limits of every
      request are those `NormalizeRequests` leaves. */
  method Generate(requests: seq<Request>, maxSeqLength: int) returns (r: Outcome<string>)
    modifies set q | q in requests
    ensures |requests| == 0 ==> r.Pass?
    ensures r.Pass? <==> forall i :: 0 <= i < |requests| ==>
              NormalizeLimits(requests[i].reqType, old(LimitsOf(requests[i])), maxSeqLength).ok
    ensures r.Pass? ==> forall i :: 0 <= i < |requests| ==>
              LimitsOf(requests[i]) == NormalizeLimits(requests[i].reqType, old(LimitsOf(requests[i])), maxSeqLength).limits
    ensures r.Fail? ==>
              exists k :: 0 <= k < |requests|
                && !NormalizeLimits(requests[k].reqType, old(LimitsOf(requests[k])), maxSeqLength).ok
                && (forall i :: 0 <= i < |requests| && requests[i] in requests[..k + 1] ==>
                      LimitsOf(requests[i]) == NormalizeLimits(requests[i].reqType, old(LimitsOf(requests[i])), maxSeqLength).limits)
                && (forall i :: 0 <= i < |requests| && requests[i] !in requests[..k + 1] ==>
                      LimitsOf(requests[i]) == old(LimitsOf(requests[i])))
  {
    if |requests| == 0 {
      return Pass;
    }
    r := NormalizeRequests(requests, maxSeqLength);
  }

  // --- `__output2chat_response`

  /** A generation result; the chat path rewrites its text in place. */
  class GenerationResult {
    var outputText: string

    constructor (outputText: string)
      ensures this.outputText == outputText
    {
      this.outputText := outputText;
    }
  }

  /** Python's `text[n:]`: empty once `n` reaches the length. */
  function Drop(text: string, n: nat): (r: string)
    ensures n >= |text| ==> r == ""
    ensures n < |text| ==> r == text[n..]
  {
    if n >= |text| then "" else text[n..]
  }

  /** Dropping twice drops the sum. */
  lemma DropDrop(text: string, a: nat, b: nat)
    ensures Drop(Drop(text, a), b) == Drop(text, a + b)
  {
    if a < |text| && b < |text| - a {
      assert text[a..][b..] == text[a + b..];
    }
  }

  /** How many prompt characters the first `k` steps cut from `o`: the prompt lengths at the
      positions where `o` is listed. */
  ghost function CutLength(outputs: seq<GenerationResult>, prompts: seq<string>, o: GenerationResult, k: nat): nat
    requires k <= |outputs| == |prompts|
  {
    if k == 0 then 0
    else CutLength(outputs, prompts, o, k - 1) + (if outputs[k - 1] == o then |prompts[k - 1]| else 0)
  }

  /** Steps that do not list `o` cut nothing from it. */
  lemma {:induction false} CutLengthUnlisted(outputs: seq<GenerationResult>, prompts: seq<string>, o: GenerationResult, k: nat)
    requires k <= |outputs| == |prompts|
    requires o !in outputs[..k]
    ensures CutLength(outputs, prompts, o, k) == 0
  {
    if k > 0 {
      assert outputs[..k - 1] == outputs[..k][..k - 1];
      CutLengthUnlisted(outputs, prompts, o, k - 1);
      assert outputs[k - 1] in outputs[..k];
    }
  }

  /** With each result listed once, exactly its own request's prompt is cut. */
  lemma {:induction false} CutLengthDistinct(outputs: seq<GenerationResult>, prompts: seq<string>, i: nat)
    requires |outputs| == |prompts| && i < |outputs|
    requires forall a, b :: 0 <= a < b < |outputs| ==> outputs[a] != outputs[b]
    ensures CutLength(outputs, prompts, outputs[i], |outputs|) == |prompts[i]|
  {
    CutLengthFrom(outputs, prompts, i, |outputs|);
  }

  lemma {:induction false} CutLengthFrom(outputs: seq<GenerationResult>, prompts: seq<string>, i: nat, k: nat)
    requires |outputs| == |prompts| && i < k <= |outputs|
    requires forall a, b :: 0 <= a < b < |outputs| ==> outputs[a] != outputs[b]
    ensures CutLength(outputs, prompts, outputs[i], k) == |prompts[i]|
  {
    if k == i + 1 {
      assert outputs[i] !in outputs[..i];
      CutLengthUnlisted(outputs, prompts, outputs[i], i);
    } else {
      CutLengthFrom(outputs, prompts, i, k - 1);
    }
  }

  /** Every listed result holds its original text, `before`, less what the first `k` steps cut. */
  ghost predicate Cut(outputs: seq<GenerationResult>, prompts: seq<string>, before: seq<string>, k: nat)
    requires k <= |outputs| == |prompts| == |before|
    reads set o | o in outputs
  {
    forall j :: 0 <= j < |outputs| ==> outputs[j].outputText == Drop(before[j], CutLength(outputs, prompts, outputs[j], k))
  }

  /** The texts of the listed results, in list order. */
  function Texts(outputs: seq<GenerationResult>): (t: seq<string>)
    reads set o | o in outputs
    ensures |t| == |outputs|
    ensures forall j :: 0 <= j < |outputs| ==> t[j] == outputs[j].outputText
  {
    seq(|outputs|, j requires 0 <= j < |outputs| reads outputs => outputs[j].outputText)
  }

  /** One step of the cut: the `i`-th result loses the `i`-th prompt's length, and every result
      has then lost what the first `i + 1` steps cut from it. */
  method CutPromptAt(outputs: seq<GenerationResult>, ghost prompts: seq<string>,
                     ghost before: seq<string>, i: nat, n: nat)
    requires i < |outputs| == |prompts| == |before| && n == |prompts[i]|
    requires Cut(outputs, prompts, before, i)
    modifies outputs[i]
    ensures Cut(outputs, prompts, before, i + 1)
  {
    var o := outputs[i];
    ghost var cut := CutLength(outputs, prompts, o, i);
    o.outputText := Drop(o.outputText, n);
    forall j | 0 <= j < |outputs|
      ensures outputs[j].outputText == Drop(before[j], CutLength(outputs, prompts, outputs[j], i + 1))
    {
      if outputs[j] == o {
        DropDrop(before[j], cut, n);
      } else {
        assert CutLength(outputs, prompts, outputs[j], i + 1) == CutLength(outputs, prompts, outputs[j], i);
      }
    }
  }

  /** Cuts the prompt off the front of each generated text; the lists must have equal length. */
  method Output2ChatResponse(requests: seq<Request>, outputs: seq<GenerationResult>) returns (r: Outcome<string>)
    modifies set o | o in outputs
    ensures r.Fail? <==> |requests| != |outputs|
    ensures r.Fail? ==> forall o :: o in outputs ==> o.outputText == old(o.outputText)
    ensures r.Pass? ==> forall j :: 0 <= j < |outputs| ==>
              outputs[j].outputText == Drop(old(outputs[j].outputText), CutLength(outputs, Prompts(requests), outputs[j], |outputs|))
  {
    if |requests| != |outputs| {
      return Fail("assert len(requests) == len(outputs)");
    }
    ghost var prompts := Prompts(requests);
    ghost var before := Texts(outputs);
    var i := 0;
    while i < |outputs|
      invariant 0 <= i <= |outputs|
      invariant Cut(outputs, prompts, before, i)
    {
      CutPromptAt(outputs, prompts, before, i, |requests[i].prompt|);
      assert Cut(outputs, prompts, before, i + 1);
      i := i + 1;
    }
    return Pass;
  }

  function Prompts(requests: seq<Request>): (p: seq<string>)
    ensures |p| == |requests|
    ensures forall i :: 0 <= i < |requests| ==> p[i] == requests[i].prompt
  {
    seq(|requests|, i requires 0 <= i < |requests| => requests[i].prompt)
  }

  /** With distinct result objects, each text loses exactly its own request's prompt. */
  lemma Output2ChatDistinct(requests: seq<Request>, outputs: seq<GenerationResult>, texts: seq<string>, i: nat)
    requires |requests| == |outputs| == |texts| && i < |outputs|
    requires forall a, b :: 0 <= a < b < |outputs| ==> outputs[a] != outputs[b]
    ensures Drop(texts[i], CutLength(outputs, Prompts(requests), outputs[i], |outputs|)) == Drop(texts[i], |requests[i].prompt|)
  {
    CutLengthDistinct(outputs, Prompts(requests), i);
  }
}
