# hf-model-inference, modelled in Dafny

A model of the inference server's core, written in Dafny. It covers three parts:

- **Configuration.** `get_settings` reads the environment through `_to_bool`, `_to_int` and `_to_float`.
- **Guardrails.** Blocked terms are parsed from a comma-separated setting. Prompts and requested token counts are validated against the limits.
- **The model engine.** It normalises the `QUANTIZATION` setting for vLLM and for transformers. `load` builds the backend handle its tag selects. `generate` fills in default options, dispatches to the loaded backend and strips an echoed prompt.

The `/generate` handler's merge of request overrides over the settings defaults is also modelled.

## Layout

- `base.dfy` (`Base`): `Option`, `Outcome` (pass, or an error a Python function would raise) and `Result`.
- `text.dfy` (`Text`): the parts of Python's `str` and `int` that the core relies on.
  - `lower`, `strip`, `split` on one character, `startswith` and the `in` substring test.
  - `int(s)` on a decimal literal, and the decimal rendering of an `int`.
  - All of these are restricted to ASCII.
  - `Join`, `IsPrefix` (`startswith`), `Contains` (`in`), `IntToString` (the f-string rendering of an `int`) and, in `Config`, `GetEnv` and `GetEnvOr` (`os.getenv` with and without a default) are reference definitions of Python builtins. They carry no contract of their own; the lemmas about `Split`, `ParseInt`, `Blocked`, `StripEchoedPrompt` and `GetSettings` rest on them.
- `config.py` → `config.dfy` (`Config`):
  - `Settings` is a datatype.
  - The environment is a `map<string, string>`.
  - `float()` is a parameter `parseFloat`.
- `guardrails.py` → `guardrails.dfy` (`Guardrails`):
  - `Guardrails` is a class whose constructor parses the blocked terms.
  - `validate_prompt` is a method whose loop walks the terms.
  - Raising a `GuardrailViolation` is a `Fail` result.
- `engine.py` → `engine.dfy` (`Engine`):
  - `ModelEngine` is a class whose `llm` and `pipeline` fields are set by `Load`.
  - Calls into vLLM and transformers are recorded as the argument values the source passes to them.
  - The text those libraries generate is a function parameter of `Generate`.
- `hf-model-server/app/main.py` → `server.dfy` (`Server`): the `GenerationOptions` merge of the `/generate` handler.

Backend tags are compared as stored:
- `backend` is lower-cased by `get_settings`, but not stripped.
- `" vllm"` is therefore an unsupported backend, in the model as in the code.

## Model

| member | source | states |
|---|---|---|
| Text.Lower | app/config.py:12 | `lower` keeps the length, maps every character through ASCII lower-casing, and leaves no upper-case letter |
| Text.Strip | app/config.py:12 | `strip` returns the slice of the input between the leading and trailing whitespace; the slice has no whitespace at either end and only whitespace follows it |
| Text.StripUnique | app/config.py:12 | whatever whitespace surrounds a string without outer whitespace, `strip` returns exactly that string |
| Text.StripIdempotent | app/engine.py:101 | stripping twice is the same as stripping once |
| Text.StripIgnoresPadding | app/engine.py:101 | whitespace added around a value does not change its stripped form |
| Text.StripLowerFixed | app/engine.py:101 | a stripped, lower-case value is unchanged by `strip().lower()` |
| Text.StripLowerCommute | app/engine.py:101 | `strip().lower()` equals `lower().strip()` |
| Text.Split | app/guardrails.py:17 | `split(",")` returns at least one piece; no piece contains the separator; joining the pieces with the separator gives the input back |
| Text.SplitConcat | app/guardrails.py:17 | splitting at a separator splits the two sides independently |
| Text.SplitJoin | app/guardrails.py:17 | `split` inverts `join` for pieces free of the separator |
| Text.ParseInt | app/config.py:17 | `int()` of a blank string fails; it succeeds exactly when the input holds no 0x1C-0x1F separator and, once stripped, is an optional sign followed by one to 4300 digits, so an over-long literal fails signed or padded too; the value is those digits' value, negated after `-`; round trip in ParseIntToString, padding in ParseIntIgnoresPadding |
| Text.ParseIntToString | app/config.py:17 | `int()` reads back the decimal rendering of every integer of at most 4300 digits |
| Text.ParseIntDigitLimit | app/config.py:17 | a run of more than 4300 digits is refused |
| Text.ParseIntIgnoresPadding | app/config.py:17 | `int()` ignores surrounding space, tab, newline, vertical tab, form feed and carriage return |
| Text.ParseIntRejectsSeparator | app/config.py:17 | a leading 0x1C-0x1F separator makes `int()` fail, though `strip` would remove it |
| Config.ToBool | app/config.py:9-12 | `_to_bool` returns the default exactly for an unset variable; a blank value is false; a true value is one to four characters once stripped; see ToBoolIgnoresDefault and ToBoolIgnoresPaddingAndCase |
| Config.ToInt | app/config.py:15-19 | `_to_int` returns the default when the variable is unset or not an integer literal, and the parsed value otherwise |
| Config.ToBoolIgnoresDefault | app/config.py:9-12 | `_to_bool` returns the default only when the variable is unset; a set variable's value decides alone, so an empty one is false even with default true |
| Config.ToBoolIgnoresPaddingAndCase | app/config.py:12 | `_to_bool` ignores surrounding whitespace and letter case |
| Config.ToIntReadsIntegers | app/config.py:15-19 | `_to_int` returns any integer of at most 4300 digits written in decimal, whatever the default |
| Config.ToIntDigitLimit | app/config.py:15-19 | a literal of more than 4300 digits raises inside `int()`, so `_to_int` returns the default |
| Config.ToFloat | app/config.py:22-26 | `_to_float` returns the default when the variable is unset or `float()` rejects it, and the parsed value otherwise |
| Config.GetSettings | app/config.py:50-68 | backend and quantization are lower-case, and an unset `BLOCKED_TERMS` gives the empty string; see EmptyEnvironmentGivesDefaults, SettingsLowerCase, UnsetNumericKeepsOthers, MalformedIntFallsBack and MalformedFloatFallsBack |
| Config.EmptyEnvironmentGivesDefaults | app/config.py:50-68 | with no variables set, `get_settings` gives the documented defaults (gpt2, vllm, 0.0.0.0:8000, 128 tokens, 0.7, 0.95, guardrails on, 4000 chars, 512 tokens, ...) |
| Config.SettingsLowerCase | app/config.py:53 | the backend and quantization settings hold no upper-case letter |
| Config.UnsetNumericKeepsOthers | app/config.py:50-68 | unsetting a numeric variable leaves every other variable's lookup unchanged, numeric ones included, and so the string and boolean settings |
| Config.MalformedIntFallsBack | app/config.py:55-66 | a malformed integer variable gives the same settings as leaving it unset |
| Config.MalformedFloatFallsBack | app/config.py:57-61 | a malformed float variable gives the same settings as leaving it unset |
| Guardrails.Message | app/guardrails.py:25-27 | each violation's message: the two limit messages start with their fixed prefix and go on to the limit; the blocked-content message is the fixed policy text; see PromptTooLongMessage and TooManyTokensMessage |
| Guardrails.Blocked | app/guardrails.py:29-31 | the term check: some term occurs in the lower-cased prompt, so that term is no longer than the prompt; see BlockedAnywhere, CaseVariantBlocked and ValidatePrompt |
| Guardrails.PieceTerm | app/guardrails.py:17 | each comma-separated piece yields at most one term, and that term is non-empty, stripped and lower-case |
| Guardrails.KeepTerms | app/guardrails.py:16-18 | the kept terms are no more than the pieces, and every term is non-empty, stripped and lower-case |
| Guardrails.ParseBlockedTerms | app/guardrails.py:15-18 | every parsed blocked term is non-empty, stripped and lower-case |
| Guardrails.KeepTermsConcat | app/guardrails.py:16-18 | filtering the pieces distributes over concatenation |
| Guardrails.ParseBlockedTermsConcat | app/guardrails.py:15-18 | the terms of `a,b` are the terms of `a` followed by those of `b` |
| Guardrails.ParseBlockedTermsPiece | app/guardrails.py:17 | a comma-free setting yields its stripped, lower-cased value, or nothing if that is empty |
| Guardrails.ParseBlockedTermsWord | app/guardrails.py:15-18 | a normalised comma-free term parses to itself |
| Guardrails.ParseBlockedTermsPair | app/guardrails.py:15-18 | two normalised terms joined by a comma parse to those two terms, in order |
| Guardrails.EmptySettingBlocksNothing | app/guardrails.py:15-18 | an empty `BLOCKED_TERMS` gives no terms and blocks no prompt |
| Guardrails.BlockedAnywhere | app/guardrails.py:29-31 | a blocked prompt stays blocked whatever text surrounds it |
| Guardrails.CaseVariantBlocked | app/guardrails.py:29-31 | any letter-case variant of a blocked term, anywhere in the prompt, blocks it |
| Guardrails.BlockedExample | app/guardrails.py:15-34 | `foo,bar` parses to `[foo, bar]`, and a prompt containing `FOO` is blocked |
| Guardrails.PromptTooLongMessage | app/guardrails.py:25-27 | the too-long message is the fixed prefix followed by the limit, which reads back as an integer when it has at most 4300 digits |
| Guardrails.TooManyTokensMessage | app/guardrails.py:41-43 | the token-cap message is the fixed prefix followed by the cap, which reads back as an integer when it has at most 4300 digits |
| Guardrails.Guardrails.constructor | app/guardrails.py:14-18 | the terms are `ParseBlockedTerms` of the `BLOCKED_TERMS` setting |
| Guardrails.Guardrails.ValidatePrompt | app/guardrails.py:20-34 | three outcomes, checked in the source's order: (1) disabled guardrails pass everything; (2) a prompt over the limit fails with that limit; (3) otherwise it fails with blocked content exactly when some term occurs in the lower-cased prompt |
| Guardrails.Guardrails.ValidateMaxNewTokens | app/guardrails.py:36-43 | it fails exactly when guardrails are enabled and the request exceeds the limit, and the failure carries that limit |
| Engine.NormalizeQuantization | app/engine.py:101 | the normalised setting is lower-case and stripped |
| Engine.NormalizeQuantizationForm | app/engine.py:101 | an empty setting normalises to `none`; any other setting normalises to its stripped, lower-cased form |
| Engine.NormalSettingIsItsOwnForm | app/engine.py:101 | a non-empty, stripped, lower-case setting normalises to itself |
| Engine.ResolveVllmQuantization | app/engine.py:100-106 | a resolved vLLM quantization name is non-empty, stripped and lower-case |
| Engine.VllmNoQuantization | app/engine.py:102-103 | vLLM gets no quantization exactly when the normalised setting is one of `""`, `none`, `no`, `false` |
| Engine.VllmBitsAndBytes | app/engine.py:104-105 | the aliases `int8`, `int4`, `4`, `8` select `bitsandbytes` |
| Engine.VllmPassThrough | app/engine.py:106 | any other normalised name is passed to vLLM as is |
| Engine.ResolveTransformersQuantBits | app/engine.py:108-117 | the bits are 0, 4 or 8; an explicit 4 or 8 wins; otherwise 4 exactly for the 4-bit aliases and 8 exactly for the 8-bit aliases |
| Engine.SameNormalFormSameResolution | app/engine.py:100-117 | settings with the same stripped, lower-cased form resolve alike for both backends |
| Engine.ResolutionIgnoresPaddingAndCase | app/engine.py:100-117 | padding with whitespace and changing letter case never change either resolution |
| Engine.PaddedUpperCaseExample | app/engine.py:100-117 | `" INT8 "` resolves to `bitsandbytes` for vLLM and to 8 bits for transformers |
| Engine.StripEchoedPrompt | app/engine.py:95-98 | when the generated text starts with the prompt, the prompt followed by the result is the text; otherwise the text comes back unchanged |
| Engine.StripEchoedPromptInverse | app/engine.py:96-97 | removing an echoed prompt returns exactly the continuation |
| Engine.VllmEngine | app/engine.py:47-55 | the `LLM` the vLLM path builds gets no quantization exactly for the no-quantization spellings, and otherwise a non-empty lower-case name |
| Engine.TransformersPipeline | app/engine.py:72-85 | the transformers pipeline's `model_kwargs` holds at most `quantization_config`, whose config selects exactly one of 4-bit and 8-bit loading |
| Engine.TransformersQuantizationConfig | app/engine.py:72-77 | `model_kwargs` has a `quantization_config` exactly when the bits are non-zero, and that config's 4-bit and 8-bit flags match the bits |
| Engine.ModelEngine.constructor | app/engine.py:14-19 | the engine keeps the settings and backend tag and starts with no handle |
| Engine.ModelEngine.Load | app/engine.py:21-28 | it succeeds exactly for the `vllm` and `transformers` tags; each builds its own handle and leaves the other alone; any other tag raises the load error and changes nothing; it keeps the invariant that only the handle the tag selects is ever set |
| Engine.LoadedEngineHasOneHandle | app/engine.py:21-28 | an engine that keeps that invariant and has loaded holds exactly one handle, the one its tag names |
| Engine.ModelEngine.LoadVllm | app/engine.py:44-55 | the `LLM` handle gets the model, trust, parallelism and memory settings and the resolved quantization |
| Engine.ModelEngine.LoadTransformers | app/engine.py:68-85 | the pipeline is built for text generation on `auto` devices, with the quantization config the bits select |
| Engine.ModelEngine.Generate | app/engine.py:30-42 | four cases: (1) absent options take the settings defaults; (2) an unsupported tag raises; (3) once loaded the call returns the backend's text; (4) the transformers path samples only for a positive temperature and strips an echoed prompt |
| Engine.ModelEngine.GenerateVllm | app/engine.py:57-66 | vLLM is called with the single prompt and the options as sampling parameters, and its first text is returned |
| Engine.ModelEngine.GenerateTransformers | app/engine.py:87-98 | the pipeline is called with the options and `do_sample` set to `temperature > 0`, and the echoed prompt is removed from its text |
| Server.MergeOptions | hf-model-server/app/main.py:48-52 | each option comes from the request or from the settings, and a zero token count can only come from the settings; see MergeFieldByField |
| Server.MergeFieldByField | hf-model-server/app/main.py:48-52 | each option is the request's value where one was given (a non-zero one for the token count) and the setting otherwise |
| Server.ZeroTemperatureKept | hf-model-server/app/main.py:50 | an explicit temperature of 0 is kept, not replaced by the default |
| Server.NoOverridesGivesDefaults | hf-model-server/app/main.py:48-52 | a request without overrides gets exactly the options `generate` uses when given none |
| Server.MergeExample | hf-model-server/app/main.py:48-52 | defaults {128, 0.7, 0.95} with only `max_new_tokens=50` merge to {50, 0.7, 0.95} |

## Left out

- `load_dotenv` and `os.getenv`: the process environment is a `map<string, string>` parameter of `GetSettings`. Reading a `.env` file is not modelled.
- `_to_float`: Python's `float()` grammar is not modelled. It is a parameter `parseFloat`, whose failure means the default applies. Floats are Dafny `real`s, without rounding. NaN and the infinities, which `float()` accepts, cannot arise in the model; for a NaN temperature the source's `temperature > 0` (app/engine.py:93) is false, so it would not sample.
- `Text.ParseInt` accepts the following:
  - optional surrounding space, tab, newline, vertical tab, form feed or carriage return;
  - an optional sign;
  - one to 4300 ASCII digits.

  Python's `int()` also accepts underscores between digits and non-ASCII digits; the model does not. CPython also skips non-ASCII whitespace such as U+00A0 or U+3000 around the literal, by turning it into spaces before parsing; the model, being ASCII-only, does not. The separators 0x1C-0x1F make `int()` fail in every string, as they do in the model.
- The 4300-digit limit is CPython's default `int_max_str_digits`, present since 3.11 and the September 2022 security releases of 3.7 to 3.10. Older interpreters have no limit, and the limit can be changed through `PYTHONINTMAXSTRDIGITS`; neither variation is modelled.
- `lower`, `strip` and `isspace` are ASCII-only. Non-ASCII letters and whitespace are kept as they are.
- The vLLM and transformers libraries are outside the model:
  - `LLM(...)`, `pipeline(...)`, `SamplingParams(...)` and `BitsAndBytesConfig(...)` are recorded as the argument values passed to them;
  - the text they generate is the parameters `runVllm` and `runPipeline`;
  - model loading, GPU use and the content of the generated text are not modelled.
- Engine.ModelEngine.Generate: the source, called before `load`, fails on the unset handle. On the vLLM path that is an `AttributeError` from `self._llm.generate` (app/engine.py:65). On the transformers path it is a `TypeError` from calling `self._pipeline` (app/engine.py:88). The model returns `BackendNotLoaded` in both cases.
- Python exceptions are `Outcome` and `Result` values:
  - `GuardrailViolation` and `ValueError` carry their message constants;
  - exceptions raised inside the libraries are not modelled.
- `hf-model-server/app/main.py` is modelled only for the options merge. The following are not modelled:
  - the FastAPI application, its lifespan hook and `/health`;
  - the `GenerateRequest` field constraints (`min_length`, `ge`, `gt`, `le`) that the web framework enforces;
  - the conversion of every exception into HTTP 500.

  The merge is therefore stated for all request values, including a zero `max_new_tokens`, which the field constraint would reject before the merge.
- The handler does not call the guardrails, and the model does not either. `Guardrails` is modelled on its own.
- Concurrency between requests sharing one engine is not modelled.
