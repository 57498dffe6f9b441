/** The backend dispatcher of app/engine.py: how the one quantization setting is read by
    each backend, which backend `load` builds, and how `generate` dispatches to it. The
    vLLM and transformers libraries are not modelled: `load` records the arguments it
    would construct them with, and the text a library call returns is a parameter. */
module Engine {
  import opened Base
  import opened Text
  import opened Config

  datatype GenerationOptions = GenerationOptions(maxNewTokens: int, temperature: real, topP: real)

  // ---------------------------------------------------------------- quantization

  /** Spellings that mean "no quantization" to the vLLM path. */
  const NoQuantization: set<string> := {"", "none", "no", "false"}
  /** Spellings the vLLM path hands to its bitsandbytes quantization. */
  const BitsAndBytesAliases: set<string> := {"int8", "int4", "4", "8"}
  const BitsAndBytes := "bitsandbytes"
  /** Spellings the transformers path reads as 4-bit and as 8-bit. */
  const FourBitAliases: set<string> := {"int4", "4", "4bit", "4-bit"}
  const EightBitAliases: set<string> := {"int8", "8", "8bit", "8-bit"}

  /** `(quantization or "none").strip().lower()`: an empty setting reads as "none". */
  function NormalizeQuantization(quantization: string): (n: string)
    ensures IsLower(n) && IsStripped(n)
  {
    var t := Strip(if quantization == "" then "none" else quantization);
    LowerKeepsSpace(t);
    Lower(t)
  }

  lemma BitsAndBytesIsNormal()
    ensures IsLower(BitsAndBytes) && IsStripped(BitsAndBytes) && BitsAndBytes != []
  {
  }

  /** `_resolve_vllm_quantization`: `None` for the no-quantization spellings, bitsandbytes
      for the 4/8-bit spellings, and any other value normalised and passed through, so a
      name it returns is never blank, padded or upper-case. */
  function ResolveVllmQuantization(quantization: string): (r: Option<string>)
    ensures r.Some? ==> IsLower(r.value) && IsStripped(r.value) && r.value != []
  {
    var value := NormalizeQuantization(quantization);
    VllmTableRows(value);
    BitsAndBytesIsNormal();
    VllmTable(value)
  }

  function VllmTable(value: string): Option<string>
  {
    if value in NoQuantization then None
    else if value in BitsAndBytesAliases then Some(BitsAndBytes)
    else Some(value)
  }

  lemma VllmTableRows(value: string)
    ensures VllmTable(value).None? <==> value in NoQuantization
    ensures value in BitsAndBytesAliases ==> VllmTable(value) == Some(BitsAndBytes)
    ensures value !in NoQuantization && value !in BitsAndBytesAliases ==> VllmTable(value) == Some(value)
    ensures VllmTable(value).Some? ==> VllmTable(value).value == BitsAndBytes || VllmTable(value).value == value
    ensures VllmTable(value).Some? ==> value != []
  {
  }

  /** The no-quantization row of the vLLM table, in both directions. */
  lemma VllmNoQuantization(quantization: string)
    ensures ResolveVllmQuantization(quantization).None? <==>
      NormalizeQuantization(quantization) in NoQuantization
  {
    VllmTableRows(NormalizeQuantization(quantization));
  }

  /** The bitsandbytes row of the vLLM table. */
  lemma VllmBitsAndBytes(quantization: string)
    requires NormalizeQuantization(quantization) in BitsAndBytesAliases
    ensures ResolveVllmQuantization(quantization) == Some(BitsAndBytes)
  {
    VllmTableRows(NormalizeQuantization(quantization));
  }

  /** Every other value is passed through in its normalised form. */
  lemma VllmPassThrough(quantization: string)
    requires NormalizeQuantization(quantization) !in NoQuantization
    requires NormalizeQuantization(quantization) !in BitsAndBytesAliases
    ensures ResolveVllmQuantization(quantization) == Some(NormalizeQuantization(quantization))
  {
    VllmTableRows(NormalizeQuantization(quantization));
  }

  /** `_resolve_transformers_quant_bits`: 0, 4 or 8. An explicit 4 or 8 in
      `quantization_bits` wins; any other number is ignored in favour of the string. */
  function ResolveTransformersQuantBits(quantization: string, quantizationBits: int): (bits: int)
    ensures bits == 0 || bits == 4 || bits == 8
    ensures quantizationBits == 4 || quantizationBits == 8 ==> bits == quantizationBits
    ensures quantizationBits != 4 && quantizationBits != 8 ==>
      && (bits == 4 <==> NormalizeQuantization(quantization) in FourBitAliases)
      && (bits == 8 <==> NormalizeQuantization(quantization) in EightBitAliases)
  {
    if quantizationBits in {4, 8} then quantizationBits
    else
      var value := NormalizeQuantization(quantization);
      BitsTableRows(value);
      BitsTable(value)
  }

  function BitsTable(value: string): int
  {
    if value in FourBitAliases then 4
    else if value in EightBitAliases then 8
    else 0
  }

  lemma BitsTableRows(value: string)
    ensures BitsTable(value) == 0 || BitsTable(value) == 4 || BitsTable(value) == 8
    ensures BitsTable(value) == 4 <==> value in FourBitAliases
    ensures BitsTable(value) == 8 <==> value in EightBitAliases
  {
  }


  /** "none" is already in normal form.
      The strings arrive as parameters fixed by `requires`, which keeps the solver from
      unfolding `Strip` and `Lower` on literals. */
  lemma NoneIsNormal(none: string)
    requires none == "none"
    ensures Lower(Strip(none)) == none
  {
    assert IsLower(none) && IsStripped(none);
    StripLowerFixed(none);
  }

  /** The normal form of a non-empty setting is its lower-cased, stripped self. */
  lemma NormalizeQuantizationForm(quantization: string)
    ensures NormalizeQuantization(quantization) ==
      if quantization == "" then "none" else Strip(Lower(quantization))
  {
    StripLowerCommute(quantization);
    if quantization == "" {
      NoneIsNormal("none");
    }
  }

  /** Settings with the same stripped, lower-cased form have the same normal form, except
      that the empty setting reads as "none" where a blank one reads as "". */
  lemma NormalFormCases(q1: string, q2: string)
    requires Strip(Lower(q1)) == Strip(Lower(q2))
    ensures var n1, n2 := NormalizeQuantization(q1), NormalizeQuantization(q2);
      n1 == n2 || (n1 == [] && n2 == "none") || (n1 == "none" && n2 == [])
  {
    NormalizeQuantizationForm(q1);
    NormalizeQuantizationForm(q2);
    StripUnique([], [], []);
    assert Lower([]) == [];
  }

  /** An empty normal form and "none" mean the same to both tables. */
  lemma TablesAgree(n1: string, n2: string)
    requires n1 == n2 || (n1 == [] && n2 == "none") || (n1 == "none" && n2 == [])
    ensures VllmTable(n1) == VllmTable(n2)
    ensures BitsTable(n1) == BitsTable(n2)
  {
  }

  /** Two settings that agree once lower-cased and stripped resolve alike on both paths. */
  lemma SameNormalFormSameResolution(q1: string, q2: string, quantizationBits: int)
    requires Strip(Lower(q1)) == Strip(Lower(q2))
    ensures ResolveVllmQuantization(q1) == ResolveVllmQuantization(q2)
    ensures ResolveTransformersQuantBits(q1, quantizationBits) == ResolveTransformersQuantBits(q2, quantizationBits)
  {
    NormalFormCases(q1, q2);
    TablesAgree(NormalizeQuantization(q1), NormalizeQuantization(q2));
  }

  /** Letter case and surrounding whitespace do not matter: " INT8 " reads as "int8". */
  lemma ResolutionIgnoresPaddingAndCase(q: string, w: string, pre: string, post: string, quantizationBits: int)
    requires AllSpace(pre) && AllSpace(post) && Lower(q) == Lower(w)
    ensures ResolveVllmQuantization(pre + q + post) == ResolveVllmQuantization(w)
    ensures ResolveTransformersQuantBits(pre + q + post, quantizationBits) == ResolveTransformersQuantBits(w, quantizationBits)
  {
    LowerConcat(pre, q);
    LowerConcat(pre + q, post);
    LowerKeepsSpace(pre);
    LowerKeepsSpace(post);
    StripIgnoresPadding(Lower(pre), Lower(q), Lower(post));
    SameNormalFormSameResolution(pre + q + post, w, quantizationBits);
  }

  /** A setting already in normal form is its own normal form. */
  lemma NormalSettingIsItsOwnForm(w: string)
    requires w != [] && IsLower(w) && IsStripped(w)
    ensures NormalizeQuantization(w) == w
  {
    NormalizeQuantizationForm(w);
    StripLowerFixed(w);
    StripLowerCommute(w);
  }

  /** " INT8 " resolves to bitsandbytes for vLLM and to 8 bits for transformers.
      The strings arrive as parameters fixed by `requires`, which keeps the solver from
      unfolding `Strip` and `Lower` on literals. */
  lemma PaddedUpperCaseExample(padded: string, space: string, q: string, w: string)
    requires space == " " && q == "INT8" && w == "int8" && padded == space + q + space
    ensures ResolveVllmQuantization(padded) == Some(BitsAndBytes)
    ensures ResolveTransformersQuantBits(padded, 0) == 8
  {
    Int8Spellings(q, w);
    assert AllSpace(space);
    ResolutionIgnoresPaddingAndCase(q, w, space, space, 0);
    NormalSettingIsItsOwnForm(w);
    VllmTableRows(w);
    BitsTableRows(w);
  }

  /** "INT8" and "int8" differ only in case, and "int8" is a normal-form alias of 8 bits.
      The strings arrive as parameters fixed by `requires`, which keeps the solver from
      unfolding `Strip` and `Lower` on literals. */
  lemma Int8Spellings(q: string, w: string)
    requires q == "INT8" && w == "int8"
    ensures Lower(q) == Lower(w)
    ensures w != [] && IsLower(w) && IsStripped(w)
    ensures w in BitsAndBytesAliases && w in EightBitAliases
  {
  }

  // ---------------------------------------------------------------- echoed prompt

  /** The tail of `_generate_transformers`: a pipeline that echoes the prompt has exactly
      that prefix removed; any other text is returned as it is. */
  function StripEchoedPrompt(prompt: string, text: string): (r: string)
    ensures IsPrefix(prompt, text) ==> prompt + r == text
    ensures !IsPrefix(prompt, text) ==> r == text
  {
    if IsPrefix(prompt, text) then text[|prompt|..] else text
  }

  /** Whatever follows an echoed prompt is what the caller gets back. */
  lemma StripEchoedPromptInverse(prompt: string, rest: string)
    ensures StripEchoedPrompt(prompt, prompt + rest) == rest
  {
    assert (prompt + rest)[..|prompt|] == prompt;
    assert (prompt + rest)[|prompt|..] == rest;
  }

  // ---------------------------------------------------------------- engine

  /** The arguments `_load_vllm` constructs `LLM` with. */
  datatype LlmConfig = LlmConfig(
    model: string,
    trustRemoteCode: bool,
    tensorParallelSize: int,
    gpuMemoryUtilization: real,
    quantization: Option<string>)

  /** `BitsAndBytesConfig(load_in_4bit=...)` or `(load_in_8bit=...)`. */
  datatype QuantizationConfig = BitsAndBytesConfig(loadIn4bit: bool, loadIn8bit: bool)

  /** The arguments `_load_transformers` constructs the pipeline with. */
  datatype PipelineConfig = PipelineConfig(
    task: string,
    model: string,
    deviceMap: string,
    trustRemoteCode: bool,
    modelKwargs: map<string, QuantizationConfig>)

  /** The `SamplingParams` `_generate_vllm` builds. */
  datatype SamplingParams = SamplingParams(maxTokens: int, temperature: real, topP: real)

  /** The arguments `_generate_transformers` calls the pipeline with. */
  datatype PipelineCall = PipelineCall(
    prompt: string,
    maxNewTokens: int,
    temperature: real,
    topP: real,
    doSample: bool)

  /** `ValueError` raised by `load` or `generate`, or the failure of calling into a
      backend handle that `load` never set. */
  datatype EngineError = ValueError(message: string) | BackendNotLoaded

  const LoadErrorMessage := "INFERENCE_BACKEND must be either 'vllm' or 'transformers'"
  const GenerateErrorMessage := "Unsupported backend"
  const QuantizationConfigKey := "quantization_config"

  predicate SupportedBackend(backend: string)
  {
    backend == "vllm" || backend == "transformers"
  }

  /** The `LLM` that `_load_vllm` builds from the settings. */
  function VllmEngine(s: Settings): (e: LlmConfig)
    ensures e.quantization.None? <==> NormalizeQuantization(s.quantization) in NoQuantization
    ensures e.quantization.Some? ==> e.quantization.value != [] && IsLower(e.quantization.value)
  {
    VllmNoQuantization(s.quantization);
    LlmConfig(s.modelId, s.trustRemoteCode, s.tensorParallelSize, s.gpuMemoryUtilization,
      ResolveVllmQuantization(s.quantization))
  }

  /** The pipeline that `_load_transformers` builds from the settings. */
  function TransformersPipeline(s: Settings): (p: PipelineConfig)
    ensures p.modelKwargs.Keys <= {QuantizationConfigKey}
    ensures QuantizationConfigKey in p.modelKwargs ==>
      p.modelKwargs[QuantizationConfigKey].loadIn4bit != p.modelKwargs[QuantizationConfigKey].loadIn8bit
  {
    var bits := ResolveTransformersQuantBits(s.quantization, s.quantizationBits);
    PipelineConfig("text-generation", s.modelId, "auto", s.trustRemoteCode,
      if bits == 4 then map[QuantizationConfigKey := BitsAndBytesConfig(true, false)]
      else if bits == 8 then map[QuantizationConfigKey := BitsAndBytesConfig(false, true)]
      else map[])
  }

  /** The transformers pipeline carries a quantization config exactly when the resolved
      bit-width is 4 or 8, and that config loads in that width. */
  lemma TransformersQuantizationConfig(s: Settings)
    ensures var kwargs := TransformersPipeline(s).modelKwargs;
      var bits := ResolveTransformersQuantBits(s.quantization, s.quantizationBits);
      && (QuantizationConfigKey in kwargs <==> bits != 0)
      && (QuantizationConfigKey in kwargs ==>
            kwargs[QuantizationConfigKey].loadIn4bit == (bits == 4)
            && kwargs[QuantizationConfigKey].loadIn8bit == (bits == 8))
      && kwargs.Keys <= {QuantizationConfigKey}
  {
  }

  /** `ModelEngine`: the settings, the backend tag and the two handles, of which `load`
      sets the one the tag selects. */
  class ModelEngine {
    const settings: Settings
    const backend: string
    var llm: Option<LlmConfig>
    var pipeline: Option<PipelineConfig>

    constructor (settings: Settings)
      ensures this.settings == settings && backend == settings.backend
      ensures llm == None && pipeline == None
      ensures OnlySelectedHandle()
    {
      this.settings := settings;
      backend := settings.backend;
      llm := None;
      pipeline := None;
    }

    /** The handle the backend tag selects is set. */
    predicate Loaded()
      reads this
    {
      (backend == "vllm" && llm.Some?) || (backend == "transformers" && pipeline.Some?)
    }

    /** Over the engine's lifetime only the handle its tag selects is ever set. */
    predicate OnlySelectedHandle()
      reads this
    {
      (backend != "vllm" ==> llm.None?) && (backend != "transformers" ==> pipeline.None?)
    }

    /** `load`: the vLLM tag sets only the `LLM` handle, the transformers tag only the
        pipeline, and any other tag raises and sets neither. */
    method Load() returns (r: Outcome<EngineError>)
      modifies this
      ensures r == Pass <==> SupportedBackend(backend)
      ensures r == Pass ==> Loaded()
      ensures old(OnlySelectedHandle()) ==> OnlySelectedHandle()
      ensures backend == "vllm" ==> llm == Some(VllmEngine(settings)) && pipeline == old(pipeline)
      ensures backend == "transformers" ==>
        pipeline == Some(TransformersPipeline(settings)) && llm == old(llm)
      ensures !SupportedBackend(backend) ==>
        r == Fail(ValueError(LoadErrorMessage)) && llm == old(llm) && pipeline == old(pipeline)
    {
      if backend == "vllm" {
        LoadVllm();
        return Pass;
      }
      if backend == "transformers" {
        LoadTransformers();
        return Pass;
      }
      return Fail(ValueError(LoadErrorMessage));
    }

    /** `_load_vllm`. */
    method LoadVllm()
      modifies this`llm
      ensures llm == Some(VllmEngine(settings))
      ensures llm.value.quantization == ResolveVllmQuantization(settings.quantization)
    {
      var quantization := ResolveVllmQuantization(settings.quantization);
      llm := Some(LlmConfig(
        model := settings.modelId,
        trustRemoteCode := settings.trustRemoteCode,
        tensorParallelSize := settings.tensorParallelSize,
        gpuMemoryUtilization := settings.gpuMemoryUtilization,
        quantization := quantization));
    }

    /** `_load_transformers`: `model_kwargs` is filled in place before the pipeline is
        built. */
    method LoadTransformers()
      modifies this`pipeline
      ensures pipeline == Some(TransformersPipeline(settings))
    {
      var modelKwargs: map<string, QuantizationConfig> := map[];
      var quantBits := ResolveTransformersQuantBits(settings.quantization, settings.quantizationBits);
      if quantBits == 4 {
        modelKwargs := modelKwargs[QuantizationConfigKey := BitsAndBytesConfig(loadIn4bit := true, loadIn8bit := false)];
      } else if quantBits == 8 {
        modelKwargs := modelKwargs[QuantizationConfigKey := BitsAndBytesConfig(loadIn4bit := false, loadIn8bit := true)];
      }
      pipeline := Some(PipelineConfig(
        task := "text-generation",
        model := settings.modelId,
        deviceMap := "auto",
        trustRemoteCode := settings.trustRemoteCode,
        modelKwargs := modelKwargs));
    }

    /** `generate`: the settings defaults stand in for absent options, the backend tag
        picks the path, and an unsupported tag raises. Once loaded it always returns. */
    method Generate(prompt: string, options: Option<GenerationOptions>,
                    runVllm: (LlmConfig, seq<string>, SamplingParams) -> string,
                    runPipeline: (PipelineConfig, PipelineCall) -> string)
      returns (r: Result<string, EngineError>)
      ensures r == Err(ValueError(GenerateErrorMessage)) <==> !SupportedBackend(backend)
      ensures SupportedBackend(backend) && !Loaded() ==> r == Err(BackendNotLoaded)
      ensures Loaded() ==> r.Ok?
      ensures var o := if options.Some? then options.value
                       else GenerationOptions(settings.maxNewTokens, settings.temperature, settings.topP);
        && (backend == "vllm" && llm.Some? ==>
              r == Ok(runVllm(llm.value, [prompt], SamplingParams(o.maxNewTokens, o.temperature, o.topP))))
        && (backend == "transformers" && pipeline.Some? ==>
              var text := runPipeline(pipeline.value, PipelineCall(prompt, o.maxNewTokens, o.temperature, o.topP, o.temperature > 0.0));
              (IsPrefix(prompt, text) ==> r.Ok? && prompt + r.value == text)
              && (!IsPrefix(prompt, text) ==> r == Ok(text)))
    {
      var opts: GenerationOptions;
      if options.None? {
        opts := GenerationOptions(
          maxNewTokens := settings.maxNewTokens,
          temperature := settings.temperature,
          topP := settings.topP);
      } else {
        opts := options.value;
      }
      if backend == "vllm" {
        r := GenerateVllm(prompt, opts, runVllm);
        return;
      }
      if backend == "transformers" {
        r := GenerateTransformers(prompt, opts, runPipeline);
        return;
      }
      return Err(ValueError(GenerateErrorMessage));
    }

    /** `_generate_vllm`: one prompt in, the first candidate's text out. */
    method GenerateVllm(prompt: string, options: GenerationOptions,
                        runVllm: (LlmConfig, seq<string>, SamplingParams) -> string)
      returns (r: Result<string, EngineError>)
      ensures llm.None? ==> r == Err(BackendNotLoaded)
      ensures llm.Some? ==>
        r == Ok(runVllm(llm.value, [prompt], SamplingParams(options.maxNewTokens, options.temperature, options.topP)))
    {
      if llm.None? {
        return Err(BackendNotLoaded);
      }
      var samplingParams := SamplingParams(
        maxTokens := options.maxNewTokens,
        temperature := options.temperature,
        topP := options.topP);
      r := Ok(runVllm(llm.value, [prompt], samplingParams));
    }

    /** `_generate_transformers`: sampling only for a positive temperature, and an echoed
        prompt stripped from the generated text. */
    method GenerateTransformers(prompt: string, options: GenerationOptions,
                                runPipeline: (PipelineConfig, PipelineCall) -> string)
      returns (r: Result<string, EngineError>)
      ensures pipeline.None? ==> r == Err(BackendNotLoaded)
      ensures pipeline.Some? ==>
        var text := runPipeline(pipeline.value,
          PipelineCall(prompt, options.maxNewTokens, options.temperature, options.topP, options.temperature > 0.0));
        r == Ok(StripEchoedPrompt(prompt, text))
    {
      if pipeline.None? {
        return Err(BackendNotLoaded);
      }
      var call := PipelineCall(
        prompt := prompt,
        maxNewTokens := options.maxNewTokens,
        temperature := options.temperature,
        topP := options.topP,
        doSample := options.temperature > 0.0);
      var text := runPipeline(pipeline.value, call);
      r := Ok(StripEchoedPrompt(prompt, text));
    }
  }

  /** An engine that keeps the invariant and has loaded holds exactly one handle, the one
      its tag names. */
  lemma LoadedEngineHasOneHandle(e: ModelEngine)
    requires e.OnlySelectedHandle() && e.Loaded()
    ensures e.llm.Some? != e.pipeline.Some?
    ensures e.llm.Some? <==> e.backend == "vllm"
  {
  }
}
