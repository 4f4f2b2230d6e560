/** The PEFT forward benchmark driver: command-line parsing, the interpretation of the model's
    configuration (architecture, special tokens), the PEFT flag consistency check, and the
    construction of benchmark requests from a prompt list. */
module PeftBenchmark {
  import opened Wrappers
  import opened FFConst
  import Serve

  // --- `std::stoi` and `std::to_string` on `int`

  const INT_MIN: int := -0x8000_0000
  const INT_MAX: int := 0x7FFF_FFFF

  predicate IsSpace(c: char)
  {
    c == ' ' || '\t' <= c <= '\r'
  }

  predicate IsDigit(c: char)
  {
    '0' <= c <= '9'
  }

  /** `s` without its leading white space. */
  function SkipSpace(s: string): (r: string)
    ensures |r| <= |s| && r == s[|s| - |r|..]
    ensures |r| == 0 || !IsSpace(r[0])
  {
    if |s| > 0 && IsSpace(s[0]) then SkipSpace(s[1..]) else s
  }

  /** Length of the run of digits that starts `s`. */
  function DigitRun(s: string): (n: nat)
    ensures n <= |s|
    ensures forall i :: 0 <= i < n ==> IsDigit(s[i])
    ensures n < |s| ==> !IsDigit(s[n])
  {
    if |s| > 0 && IsDigit(s[0]) then 1 + DigitRun(s[1..]) else 0
  }

  /** The number a string of decimal digits spells. */
  function DigitsValue(d: string): nat
    requires forall i :: 0 <= i < |d| ==> IsDigit(d[i])
  {
    if |d| == 0 then 0
    else
      assert IsDigit(d[|d| - 1]);
      DigitsValue(d[..|d| - 1]) * 10 + (d[|d| - 1] as int - '0' as int)
  }

  /** `std::stoi`: white space, an optional sign, then the longest run of digits; no digits is
      `invalid_argument` and a value outside `int` is `out_of_range`.  Whatever follows the
      digits is ignored. */
  function StoI(s: string): (r: Result<int, string>)
    ensures r.Ok? ==> INT_MIN <= r.value <= INT_MAX
    ensures |SkipSpace(s)| == 0 ==> r == Err("invalid_argument")
  {
    var t := SkipSpace(s);
    if |t| > 0 && (t[0] == '-' || t[0] == '+') then ReadDigits(t[0] == '-', t[1..]) else ReadDigits(false, t)
  }

  /** The signed value of the digits that start `rest`, checked against the range of `int`. */
  function ReadDigits(negative: bool, rest: string): (r: Result<int, string>)
    ensures r == Err("invalid_argument") <==> DigitRun(rest) == 0
    ensures r.Ok? ==> INT_MIN <= r.value <= INT_MAX && (negative ==> r.value <= 0) && (!negative ==> r.value >= 0)
  {
    var n := DigitRun(rest);
    if n == 0 then Err("invalid_argument") else InIntRange(Signed(negative, DigitsValue(rest[..n])))
  }

  function Signed(negative: bool, magnitude: nat): int
  {
    if negative then -(magnitude as int) else magnitude
  }

  /** `out_of_range` unless `v` fits an `int`. */
  function InIntRange(v: int): (r: Result<int, string>)
    ensures r.Ok? <==> INT_MIN <= v <= INT_MAX
    ensures r.Ok? ==> r.value == v
  {
    if v < INT_MIN || v > INT_MAX then Err("out_of_range") else Ok(v)
  }

  function DigitChar(d: nat): (c: char)
    requires d < 10
    ensures IsDigit(c) && c as int - '0' as int == d
  {
    ('0' as int + d) as char
  }

  /** Decimal digits of `n`, most significant first, without leading zeros. */
  function Decimal(n: nat): (s: string)
    ensures |s| > 0 && forall i :: 0 <= i < |s| ==> IsDigit(s[i])
  {
    if n < 10 then [DigitChar(n)] else Decimal(n / 10) + [DigitChar(n % 10)]
  }

  /** `std::to_string` of an `int`. */
  function IntToString(v: int): string
  {
    if v < 0 then "-" + Decimal(-v) else Decimal(v)
  }

  lemma {:induction false} DecimalValue(n: nat)
    ensures DigitsValue(Decimal(n)) == n
  {
    if n >= 10 {
      DecimalValue(n / 10);
      var s := Decimal(n);
      assert s[..|s| - 1] == Decimal(n / 10);
    }
  }

  lemma DigitRunAll(s: string)
    requires forall i :: 0 <= i < |s| ==> IsDigit(s[i])
    ensures DigitRun(s) == |s|
  {
  }

  lemma ReadAllDigits(negative: bool, d: string)
    requires |d| > 0 && forall i :: 0 <= i < |d| ==> IsDigit(d[i])
    requires INT_MIN <= Signed(negative, DigitsValue(d)) <= INT_MAX
    ensures ReadDigits(negative, d) == Ok(Signed(negative, DigitsValue(d)))
  {
    DigitRunAll(d);
    assert d[..DigitRun(d)] == d;
  }

  /** Without leading white space, `stoi` reads the sign, if any, then the digits. */
  lemma StoIUnspaced(s: string)
    requires |s| > 0 && !IsSpace(s[0])
    ensures s[0] == '-' || s[0] == '+' ==> StoI(s) == ReadDigits(s[0] == '-', s[1..])
    ensures s[0] != '-' && s[0] != '+' ==> StoI(s) == ReadDigits(false, s)
  {
    assert SkipSpace(s) == s;
  }

  /** `stoi` of an optional minus sign followed by digits reads those digits. */
  lemma StoISignedDigits(negative: bool, d: string)
    requires |d| > 0 && forall i :: 0 <= i < |d| ==> IsDigit(d[i])
    requires INT_MIN <= Signed(negative, DigitsValue(d)) <= INT_MAX
    ensures negative ==> StoI("-" + d) == Ok(Signed(negative, DigitsValue(d)))
    ensures !negative ==> StoI(d) == Ok(Signed(negative, DigitsValue(d)))
  {
    ReadAllDigits(negative, d);
    if negative {
      var s := "-" + d;
      assert s[0] == '-' && s[1..] == d;
      StoIUnspaced(s);
    } else {
      assert IsDigit(d[0]);
      StoIUnspaced(d);
    }
  }

  /** `stoi` reads a non-negative numeral back. */
  lemma StoIDecimal(v: int)
    requires 0 <= v <= INT_MAX
    ensures StoI(Decimal(v)) == Ok(v)
  {
    var d := Decimal(v);
    DecimalValue(v);
    assert Signed(false, DigitsValue(d)) == v;
    StoISignedDigits(false, d);
  }

  /** `stoi` reads a negated numeral back. */
  lemma StoINegatedDecimal(v: int)
    requires INT_MIN <= v < 0
    ensures StoI("-" + Decimal(-v)) == Ok(v)
  {
    var d := Decimal(-v);
    DecimalValue(-v);
    assert Signed(true, DigitsValue(d)) == v;
    StoISignedDigits(true, d);
  }

  /** Reading back the decimal form of an `int` gives the `int`. */
  lemma StoIToString(v: int)
    requires INT_MIN <= v <= INT_MAX
    ensures StoI(IntToString(v)) == Ok(v)
  {
    if v < 0 {
      StoINegatedDecimal(v);
    } else {
      StoIDecimal(v);
    }
  }

  // --- `parse_input_args`

  datatype FilePaths = FilePaths(cacheFolderPath: string, promptFilePath: string, outputFilePath: string)

  /** Everything the parser writes through its reference parameters.  The two sampling
      parameters keep their argument text: float parsing is not modelled. */
  datatype Args = Args(
    paths: FilePaths,
    llmModelName: string,
    peftModelName: string,
    useFullPrecision: bool,
    verbose: bool,
    doSample: bool,
    enablePeft: bool,
    temperature: Option<string>,
    topp: Option<string>,
    maxRequestsPerBatch: int,
    maxTokensPerBatch: int,
    maxSequenceLength: int,
    maxRequestsToRun: int)

  /** The values `top_level_task` initialises before parsing. */
  const DEFAULT_ARGS: Args := Args(FilePaths("", "", ""), "", "", false, false, false, false, None, None,
                                   8, 128, 256, 1000000000)

  /** The options `parse_input_args` recognises. */
  datatype Flag =
    | LlmModel | EnablePeft | PeftModel | CacheFolder | PromptFile | OutputFile
    | UseFullPrecision | Verbose | DoSample | Temperature | TopP
    | MaxRequestsPerBatch | MaxTokensPerBatch | MaxSequenceLength | MaxRequestsToRun

  /** The option an argument spells, tested in the source's order; anything else is ignored. */
  function FlagOf(arg: string): Option<Flag>
  {
    if arg == "-llm-model" then Some(LlmModel)
    else if arg == "-enable-peft" then Some(EnablePeft)
    else if arg == "-peft-model" then Some(PeftModel)
    else if arg == "-cache-folder" then Some(CacheFolder)
    else if arg == "-prompt" then Some(PromptFile)
    else if arg == "-output-file" then Some(OutputFile)
    else if arg == "--use-full-precision" then Some(UseFullPrecision)
    else if arg == "--verbose" then Some(Verbose)
    else if arg == "--do-sample" then Some(DoSample)
    else if arg == "--temperature" then Some(Temperature)
    else if arg == "--topp" then Some(TopP)
    else if arg == "--max-requests-per-batch" then Some(MaxRequestsPerBatch)
    else if arg == "--max-tokens-per-batch" then Some(MaxTokensPerBatch)
    else if arg == "--max-sequence-length" then Some(MaxSequenceLength)
    else if arg == "--max-requests-to-run" then Some(MaxRequestsToRun)
    else None
  }

  /** Options that consume the argument after them. */
  predicate TakesValue(f: Flag)
  {
    !(f == EnablePeft || f == UseFullPrecision || f == Verbose || f == DoSample)
  }

  /** Options whose value goes through `stoi`. */
  predicate IsCount(f: Flag)
  {
    f == MaxRequestsPerBatch || f == MaxTokensPerBatch || f == MaxSequenceLength || f == MaxRequestsToRun
  }

  /** A stand-alone option sets its switch. */
  function ApplySwitch(a: Args, f: Flag): (r: Args)
    requires !TakesValue(f)
    ensures r == a.(enablePeft := r.enablePeft, useFullPrecision := r.useFullPrecision, verbose := r.verbose, doSample := r.doSample)
    ensures (f == EnablePeft ==> r.enablePeft) && (f == UseFullPrecision ==> r.useFullPrecision)
    ensures (f == Verbose ==> r.verbose) && (f == DoSample ==> r.doSample)
  {
    match f
    case EnablePeft => a.(enablePeft := true)
    case UseFullPrecision => a.(useFullPrecision := true)
    case Verbose => a.(verbose := true)
    case DoSample => a.(doSample := true)
  }

  /** An option with a value stores it: model names lower-cased, paths verbatim, counts through
      `stoi`, whose failure aborts parsing and is the only way this step fails. */
  function ApplyValued(a: Args, f: Flag, value: string): (r: Result<Args, string>)
    requires TakesValue(f)
    ensures r.Err? <==> IsCount(f) && StoI(value).Err?
  {
    match f
    case LlmModel => Ok(a.(llmModelName := Serve.Lower(value)))
    case PeftModel => Ok(a.(peftModelName := Serve.Lower(value)))
    case CacheFolder => Ok(a.(paths := a.paths.(cacheFolderPath := value)))
    case PromptFile => Ok(a.(paths := a.paths.(promptFilePath := value)))
    case OutputFile => Ok(a.(paths := a.paths.(outputFilePath := value)))
    case Temperature => Ok(a.(temperature := Some(value)))
    case TopP => Ok(a.(topp := Some(value)))
    case _ =>
      match StoI(value)
      case Err(e) => Err(e)
      case Ok(n) =>
        Ok(match f
           case MaxRequestsPerBatch => a.(maxRequestsPerBatch := n)
           case MaxTokensPerBatch => a.(maxTokensPerBatch := n)
           case MaxSequenceLength => a.(maxSequenceLength := n)
           case _ => a.(maxRequestsToRun := n))
  }

  /** The parse of `argv` from position `i` on, starting from `a`.  An option that takes a value
      in the last position has no argument to read (the source reads past `argc` there); the
      model reports it as an error. */
  function ParseFrom(argv: seq<string>, i: nat, a: Args): (r: Result<Args, string>)
    ensures (forall j :: i <= j < |argv| ==> FlagOf(argv[j]).None?) ==> r == Ok(a)
    decreases |argv| - i
  {
    if i >= |argv| then Ok(a)
    else match FlagOf(argv[i])
      case None => ParseFrom(argv, i + 1, a)
      case Some(f) =>
        if !TakesValue(f) then ParseFrom(argv, i + 1, ApplySwitch(a, f))
        else if i + 1 >= |argv| then Err("missing value after " + argv[i])
        else match ApplyValued(a, f, argv[i + 1])
          case Err(e) => Err(e)
          case Ok(b) => ParseFrom(argv, i + 2, b)
  }

  /** An empty cache folder falls back to `FF_CACHE_PATH` when that is set, and to
      `~/.cache/flexflow` otherwise. */
  function DefaultCacheFolder(given: string, ffCachePath: Option<string>): (r: string)
    ensures |given| > 0 ==> r == given
    ensures |given| == 0 && ffCachePath.Some? ==> r == ffCachePath.value
    ensures |given| == 0 && ffCachePath.None? ==> r == "~/.cache/flexflow"
  {
    if |given| > 0 then given else if ffCachePath.Some? then ffCachePath.value else "~/.cache/flexflow"
  }

  /** What `parse_input_args` computes: argument 0 (the program) is skipped. */
  function ParsedArgs(argv: seq<string>, init: Args, ffCachePath: Option<string>): (r: Result<Args, string>)
    ensures r.Ok? <==> ParseFrom(argv, 1, init).Ok?
    ensures r.Ok? ==> var parsed := ParseFrom(argv, 1, init).value;
              r.value == parsed.(paths := parsed.paths.(cacheFolderPath := r.value.paths.cacheFolderPath))
              && r.value.paths.cacheFolderPath == DefaultCacheFolder(parsed.paths.cacheFolderPath, ffCachePath)
  {
    match ParseFrom(argv, 1, init)
    case Err(e) => Err(e)
    case Ok(a) => Ok(a.(paths := a.paths.(cacheFolderPath := DefaultCacheFolder(a.paths.cacheFolderPath, ffCachePath))))
  }

  /** The parsing loop, advancing past an option's value as the source's `++i` does. */
  method ParseInputArgs(argv: seq<string>, init: Args, ffCachePath: Option<string>) returns (r: Result<Args, string>)
    ensures r == ParsedArgs(argv, init, ffCachePath)
  {
    var a := init;
    var i := 1;
    while i < |argv|
      invariant 1 <= i
      invariant ParseFrom(argv, 1, init) == ParseFrom(argv, i, a)
      decreases |argv| - i
    {
      var flag := FlagOf(argv[i]);
      ParseStep(argv, i, a);
      if flag.Some? {
        if TakesValue(flag.value) {
          if i + 1 >= |argv| {
            return Err("missing value after " + argv[i]);
          }
          var applied := ApplyValued(a, flag.value, argv[i + 1]);
          if applied.Err? {
            return Err(applied.error);
          }
          a := applied.value;
          i := i + 1;
        } else {
          a := ApplySwitch(a, flag.value);
        }
      }
      i := i + 1;
    }
    r := Ok(a.(paths := a.paths.(cacheFolderPath := DefaultCacheFolder(a.paths.cacheFolderPath, ffCachePath))));
  }

  /** One step of the parse: what the argument at `i` does and where parsing resumes. */
  lemma ParseStep(argv: seq<string>, i: nat, a: Args)
    requires i < |argv|
    ensures FlagOf(argv[i]).None? ==> ParseFrom(argv, i, a) == ParseFrom(argv, i + 1, a)
    ensures FlagOf(argv[i]).Some? && !TakesValue(FlagOf(argv[i]).value) ==>
              ParseFrom(argv, i, a) == ParseFrom(argv, i + 1, ApplySwitch(a, FlagOf(argv[i]).value))
    ensures FlagOf(argv[i]).Some? && TakesValue(FlagOf(argv[i]).value) && i + 1 >= |argv| ==>
              ParseFrom(argv, i, a) == Err("missing value after " + argv[i])
    ensures FlagOf(argv[i]).Some? && TakesValue(FlagOf(argv[i]).value) && i + 1 < |argv| ==>
              match ApplyValued(a, FlagOf(argv[i]).value, argv[i + 1])
              case Err(e) => ParseFrom(argv, i, a) == Err(e)
              case Ok(b) => ParseFrom(argv, i, a) == ParseFrom(argv, i + 2, b)
  {
  }

  /** Parsing is compositional: a prefix that parses completely hands its result to whatever
      follows it. */
  lemma {:induction false} ParseFromConcat(argv: seq<string>, rest: seq<string>, i: nat, a: Args)
    requires i <= |argv| && ParseFrom(argv, i, a).Ok?
    ensures ParseFrom(argv + rest, i, a) == ParseFrom(argv + rest, |argv|, ParseFrom(argv, i, a).value)
    decreases |argv| - i
  {
    var s := argv + rest;
    if i < |argv| {
      assert s[i] == argv[i];
      match FlagOf(argv[i])
      case None =>
        ParseFromConcat(argv, rest, i + 1, a);
      case Some(f) =>
        if TakesValue(f) {
          assert s[i + 1] == argv[i + 1];
          ParseFromConcat(argv, rest, i + 2, ApplyValued(a, f, argv[i + 1]).value);
        } else {
          ParseFromConcat(argv, rest, i + 1, ApplySwitch(a, f));
        }
    }
  }

  /** A later `-llm-model` overrides anything before it. */
  lemma LastModelNameWins(argv: seq<string>, name: string, init: Args)
    requires |argv| >= 1 && ParseFrom(argv, 1, init).Ok?
    ensures ParseFrom(argv + ["-llm-model", name], 1, init)
         == Ok(ParseFrom(argv, 1, init).value.(llmModelName := Serve.Lower(name)))
  {
    ParseFromConcat(argv, ["-llm-model", name], 1, init);
    var s := argv + ["-llm-model", name];
    assert s[|argv|] == "-llm-model" && s[|argv| + 1] == name;
    assert FlagOf("-llm-model") == Some(LlmModel);
  }

  /** A trailing argument that is not an option changes nothing; a trailing switch sets its option. */
  lemma TrailingSwitch(argv: seq<string>, arg: string, init: Args)
    requires |argv| >= 1 && ParseFrom(argv, 1, init).Ok?
    requires FlagOf(arg).None? || !TakesValue(FlagOf(arg).value)
    ensures FlagOf(arg).None? ==> ParseFrom(argv + [arg], 1, init) == ParseFrom(argv, 1, init)
    ensures FlagOf(arg).Some? ==>
              ParseFrom(argv + [arg], 1, init) == Ok(ApplySwitch(ParseFrom(argv, 1, init).value, FlagOf(arg).value))
  {
    ParseFromConcat(argv, [arg], 1, init);
    assert (argv + [arg])[|argv|] == arg;
  }

  /** An option that takes a value, with nothing after it, is an error whatever came before. */
  lemma TrailingValuedFlagFails(argv: seq<string>, flag: string, init: Args)
    requires |argv| >= 1 && ParseFrom(argv, 1, init).Ok?
    requires FlagOf(flag).Some? && TakesValue(FlagOf(flag).value)
    ensures ParseFrom(argv + [flag], 1, init).Err?
  {
    ParseFromConcat(argv, [flag], 1, init);
    assert (argv + [flag])[|argv|] == flag;
  }

  // --- checks and configuration interpretation in `top_level_task`

  /** PEFT must be enabled exactly when a PEFT model is named. */
  function CheckPeftFlags(enablePeft: bool, peftModelName: string): (r: Outcome<string>)
    ensures r.Pass? <==> (enablePeft <==> |peftModelName| > 0)
  {
    if enablePeft && |peftModelName| == 0 then Fail("PEFT enabled, but no PEFT model id passed")
    else if !enablePeft && |peftModelName| > 0 then Fail("PEFT model id passed, but PEFT is not enabled")
    else Pass
  }

  /** The model type one architecture name stands for, `UNKNOWN` if none. */
  function ArchitectureType(s: string): ModelType
  {
    if s == "LlamaForCausalLM" || s == "LLaMAForCausalLM" then LLAMA
    else if s == "OPTForCausalLM" then OPT
    else if s == "RWForCausalLM" || s == "FalconForCausalLM" then FALCON
    else if s == "GPTBigCodeForCausalLM" then STARCODER
    else if s == "MPTForCausalLM" then MPT
    else UNKNOWN
  }

  /** The benchmark recognises exactly the architectures the serving front end supports, with
      the same model types. */
  lemma ArchitectureTypeAgreesWithServe(s: string)
    ensures ArchitectureType(s) != UNKNOWN <==> s in Serve.SUPPORTED_MODELS
    ensures ArchitectureType(s) != UNKNOWN ==> ArchitectureType(s) == Serve.SUPPORTED_MODELS[s].modelType
  {
  }

  /** The first recognised architecture in the list, `UNKNOWN` if there is none. */
  function FirstRecognized(architectures: seq<string>): (t: ModelType)
    ensures t != UNKNOWN <==> exists i :: 0 <= i < |architectures| && ArchitectureType(architectures[i]) != UNKNOWN
    ensures t != UNKNOWN ==> exists i :: 0 <= i < |architectures| && ArchitectureType(architectures[i]) == t
                                   && forall j :: 0 <= j < i ==> ArchitectureType(architectures[j]) == UNKNOWN
  {
    if |architectures| == 0 then UNKNOWN
    else if ArchitectureType(architectures[0]) != UNKNOWN then ArchitectureType(architectures[0])
    else
      var t := FirstRecognized(architectures[1..]);
      assert forall i :: 1 <= i < |architectures| ==> architectures[1..][i - 1] == architectures[i];
      t
  }

  /** The loop over the architectures that stops at the first recognised name; an unknown
      result is fatal. */
  method ModelTypeOf(architectures: seq<string>) returns (r: Result<ModelType, string>)
    ensures r.Ok? <==> FirstRecognized(architectures) != UNKNOWN
    ensures r.Ok? ==> r.value == FirstRecognized(architectures)
  {
    var modelType := UNKNOWN;
    var i := 0;
    while i < |architectures|
      invariant 0 <= i <= |architectures|
      invariant FirstRecognized(architectures) == FirstRecognized(architectures[i..])
      invariant modelType == UNKNOWN
    {
      assert architectures[i..][1..] == architectures[i + 1..];
      var t := ArchitectureType(architectures[i]);
      if t != UNKNOWN {
        modelType := t;
        break;
      }
      i := i + 1;
    }
    if modelType == UNKNOWN {
      return Err("Invalid LLM model type passed (or no type was passed).");
    }
    return Ok(modelType);
  }

  /** Where the two front ends agree: when the first listed architecture is recognised, the
      benchmark and the serving front end pick the same model type. */
  lemma FirstRecognizedMatchesServe(architectures: seq<string>)
    requires Serve.GetFFModelType(architectures).Ok?
    ensures FirstRecognized(architectures) == Serve.GetFFModelType(architectures).value.modelType
  {
    ArchitectureTypeAgreesWithServe(architectures[0]);
  }

  /** The `eos_token_id` entry of a model configuration. */
  datatype EosEntry = EosAbsent | EosScalar(id: int) | EosArray(ids: seq<int>)

  /** `bos_token_id`, or -1 when absent. */
  function BosTokenId(bos: Option<int>): (r: int)
    ensures bos.None? ==> r == -1
    ensures bos.Some? ==> r == bos.value
  {
    if bos.None? then -1 else bos.value
  }

  /** The end-of-sequence ids: every element of an array, a scalar on its own, and -1 when the
      entry is absent. */
  method EosTokenIds(eos: EosEntry) returns (ids: seq<int>)
    ensures eos.EosAbsent? ==> ids == [-1]
    ensures eos.EosScalar? ==> ids == [eos.id]
    ensures eos.EosArray? ==> ids == eos.ids
  {
    ids := [];
    match eos
    case EosArray(xs) =>
      var i := 0;
      while i < |xs|
        invariant 0 <= i <= |xs|
        invariant ids == xs[..i]
      {
        ids := ids + [xs[i]];
        i := i + 1;
      }
    case EosScalar(x) =>
      ids := ids + [x];
    case EosAbsent =>
      ids := ids + [-1];
  }

  // --- prompts to requests

  /** One prompt-list entry: prompt length (`human`) and generation length (`gpt`). */
  datatype PromptEntry = PromptEntry(human: int, gpt: int)

  datatype BenchRequest = BenchRequest(benchmarkingTokens: int, maxLength: int, peftModelId: Option<nat>)

  /** How many entries the benchmark reads: at most `max_requests_to_run`. */
  function TakenCount(n: nat, maxRequestsToRun: int): (k: nat)
    ensures k <= n
    ensures maxRequestsToRun <= 0 ==> k == 0
    ensures 0 <= maxRequestsToRun ==> k == if maxRequestsToRun < n then maxRequestsToRun else n
  {
    if maxRequestsToRun <= 0 then 0 else if maxRequestsToRun < n then maxRequestsToRun else n
  }

  /** Reads entries until `max_requests_to_run` of them are taken, requiring each to fit in the
      maximum sequence length, then turns each into a request that benchmarks the prompt
      length and may run to prompt plus generation length. */
  method BuildRequests(entries: seq<PromptEntry>, maxRequestsToRun: int, maxSequenceLength: int, peftModelId: Option<nat>)
    returns (r: Result<seq<BenchRequest>, string>)
    ensures r.Ok? <==> forall i :: 0 <= i < TakenCount(|entries|, maxRequestsToRun) ==>
                          entries[i].human + entries[i].gpt <= maxSequenceLength
    ensures r.Ok? ==> |r.value| == TakenCount(|entries|, maxRequestsToRun)
    ensures r.Ok? ==> forall i :: 0 <= i < |r.value| ==>
              r.value[i] == BenchRequest(entries[i].human, entries[i].gpt + entries[i].human, peftModelId)
  {
    var prompts: seq<PromptEntry> := [];
    var index := 0;
    while index < |entries|
      invariant 0 <= index <= |entries|
      invariant index <= TakenCount(|entries|, maxRequestsToRun)
      invariant prompts == entries[..index]
      invariant forall i :: 0 <= i < index ==> entries[i].human + entries[i].gpt <= maxSequenceLength
    {
      if index >= maxRequestsToRun {
        break;
      }
      var entry := entries[index];
      if entry.human + entry.gpt > maxSequenceLength {
        return Err("Prompt + sequence length exceeds max sequence length");
      }
      prompts := prompts + [entry];
      index := index + 1;
    }
    assert index == TakenCount(|entries|, maxRequestsToRun);
    var requests: seq<BenchRequest> := [];
    var k := 0;
    while k < |prompts|
      invariant 0 <= k <= |prompts|
      invariant |requests| == k
      invariant forall i :: 0 <= i < k ==>
                  requests[i] == BenchRequest(prompts[i].human, prompts[i].gpt + prompts[i].human, peftModelId)
    {
      requests := requests + [BenchRequest(prompts[k].human, prompts[k].gpt + prompts[k].human, peftModelId)];
      k := k + 1;
    }
    return Ok(requests);
  }
}
