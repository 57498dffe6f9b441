/** The settings resolver of app/config.py: one immutable record read from the process
    environment, every field with a hard-coded default. The environment is a map from
    variable names to values; parsing a float is left to a given function. */
module Config {
  import opened Base
  import opened Text

  type Env = map<string, string>

  datatype Settings = Settings(
    modelId: string,
    backend: string,
    host: string,
    port: int,
    maxNewTokens: int,
    temperature: real,
    topP: real,
    trustRemoteCode: bool,
    tensorParallelSize: int,
    gpuMemoryUtilization: real,
    quantization: string,
    quantizationBits: int,
    enableGuardrails: bool,
    maxPromptChars: int,
    maxRequestNewTokens: int,
    blockedTerms: string)

  /** `os.getenv(key)`: `None` when the variable is not set. */
  function GetEnv(env: Env, key: string): Option<string>
  {
    if key in env then Some(env[key]) else None
  }

  /** `os.getenv(key, default)`. A variable that is set, even to "", wins over the default. */
  function GetEnvOr(env: Env, key: string, default: string): string
  {
    if key in env then env[key] else default
  }

  /** The spellings `_to_bool` reads as true, after strip and lower. */
  const TrueWords: set<string> := {"1", "true", "yes", "y"}

  /** `_to_bool`: the default only when the variable is unset; a set variable is true
      exactly when it is one of the true words, whatever the default. */
  function ToBool(value: Option<string>, default: bool): (r: bool)
    ensures value.None? ==> r == default
    ensures value.Some? && Strip(value.value) == [] ==> !r
    ensures value.Some? && r ==> 1 <= |Strip(value.value)| <= 4
  {
    match value
    case None => default
    case Some(v) => Lower(Strip(v)) in TrueWords
  }

  /** `_to_int`: `int(value)`, or the default when the variable is unset or is not an
      integer literal. It never raises. */
  function ToInt(value: Option<string>, default: int): (r: int)
    ensures value.None? ==> r == default
    ensures value.Some? && ParseInt(value.value).Some? ==> r == ParseInt(value.value).value
    ensures value.Some? && ParseInt(value.value).None? ==> r == default
  {
    match value
    case None => default
    case Some(v) =>
      match ParseInt(v)
      case Some(n) => n
      case None => default
  }

  /** `_to_float`, with the float grammar given as `parseFloat`. */
  function ToFloat(value: Option<string>, default: real, parseFloat: string -> Option<real>): (r: real)
    ensures value.None? ==> r == default
    ensures value.Some? && parseFloat(value.value).Some? ==> r == parseFloat(value.value).value
    ensures value.Some? && parseFloat(value.value).None? ==> r == default
  {
    match value
    case None => default
    case Some(v) =>
      match parseFloat(v)
      case Some(x) => x
      case None => default
  }

  /** `get_settings()`. */
  function GetSettings(env: Env, parseFloat: string -> Option<real>): (s: Settings)
    ensures IsLower(s.backend) && IsLower(s.quantization)
    ensures "BLOCKED_TERMS" !in env ==> s.blockedTerms == []
  {
    Settings(
      modelId := GetEnvOr(env, "MODEL_ID", "gpt2"),
      backend := Lower(GetEnvOr(env, "INFERENCE_BACKEND", "vllm")),
      host := GetEnvOr(env, "HOST", "0.0.0.0"),
      port := ToInt(GetEnv(env, "PORT"), 8000),
      maxNewTokens := ToInt(GetEnv(env, "MAX_NEW_TOKENS"), 128),
      temperature := ToFloat(GetEnv(env, "TEMPERATURE"), 0.7, parseFloat),
      topP := ToFloat(GetEnv(env, "TOP_P"), 0.95, parseFloat),
      trustRemoteCode := ToBool(GetEnv(env, "TRUST_REMOTE_CODE"), false),
      tensorParallelSize := ToInt(GetEnv(env, "TENSOR_PARALLEL_SIZE"), 1),
      gpuMemoryUtilization := ToFloat(GetEnv(env, "GPU_MEMORY_UTILIZATION"), 0.9, parseFloat),
      quantization := Lower(GetEnvOr(env, "QUANTIZATION", "none")),
      quantizationBits := ToInt(GetEnv(env, "QUANTIZATION_BITS"), 0),
      enableGuardrails := ToBool(GetEnv(env, "ENABLE_GUARDRAILS"), true),
      maxPromptChars := ToInt(GetEnv(env, "MAX_PROMPT_CHARS"), 4000),
      maxRequestNewTokens := ToInt(GetEnv(env, "MAX_REQUEST_NEW_TOKENS"), 512),
      blockedTerms := GetEnvOr(env, "BLOCKED_TERMS", ""))
  }

  /** The settings of a process started with none of the variables set. */
  const Defaults: Settings := Settings(
    modelId := "gpt2", backend := "vllm", host := "0.0.0.0", port := 8000,
    maxNewTokens := 128, temperature := 0.7, topP := 0.95, trustRemoteCode := false,
    tensorParallelSize := 1, gpuMemoryUtilization := 0.9, quantization := "none",
    quantizationBits := 0, enableGuardrails := true, maxPromptChars := 4000,
    maxRequestNewTokens := 512, blockedTerms := "")

  /** The variables read through `_to_int`. */
  const IntKeys: set<string> := {"PORT", "MAX_NEW_TOKENS", "TENSOR_PARALLEL_SIZE",
    "QUANTIZATION_BITS", "MAX_PROMPT_CHARS", "MAX_REQUEST_NEW_TOKENS"}

  /** The variables read through `_to_float`. */
  const FloatKeys: set<string> := {"TEMPERATURE", "TOP_P", "GPU_MEMORY_UTILIZATION"}

  // ---------------------------------------------------------------- properties

  /** An unset variable gives the default; a set one is judged on its own, so "" is
      false even where the default is true. */
  lemma ToBoolIgnoresDefault(v: string, default: bool)
    ensures ToBool(None, default) == default
    ensures ToBool(Some(v), default) == ToBool(Some(v), !default)
    ensures ToBool(Some(""), true) == false
  {
    StripUnique([], [], []);
  }

  /** Surrounding whitespace and letter case do not change how a value reads. */
  lemma ToBoolIgnoresPaddingAndCase(v: string, w: string, pre: string, post: string)
    requires AllSpace(pre) && AllSpace(post) && Lower(v) == Lower(w)
    ensures ToBool(Some(pre + v + post), false) == ToBool(Some(w), false)
  {
    StripIgnoresPadding(pre, v, post);
    StripLowerCommute(v);
    StripLowerCommute(w);
  }

  /** A rendered integer within the digit limit reads back as itself, whatever the
      default. */
  lemma ToIntReadsIntegers(n: int, default: int)
    requires WithinMaxStrDigits(n)
    ensures ToInt(Some(IntToString(n)), default) == n
  {
    ParseIntToString(n);
  }

  /** A literal longer than the digit limit is a `ValueError`, so the default applies. */
  lemma ToIntDigitLimit(v: string, default: int)
    requires IsDigits(v) && |v| > MaxStrDigits
    ensures ToInt(Some(v), default) == default
  {
    ParseIntDigitLimit(v);
  }

  /** With no variable set every field takes its documented default. */
  lemma EmptyEnvironmentGivesDefaults(parseFloat: string -> Option<real>)
    ensures GetSettings(map[], parseFloat) == Defaults
  {
    LowerOfLower("vllm");
    LowerOfLower("none");
  }

  /** `backend` and `quantization` are the lower-cased variable (or default), never
      stripped. */
  lemma SettingsLowerCase(env: Env, parseFloat: string -> Option<real>)
    ensures var s := GetSettings(env, parseFloat);
      && IsLower(s.backend) && |s.backend| == |GetEnvOr(env, "INFERENCE_BACKEND", "vllm")|
      && IsLower(s.quantization) && |s.quantization| == |GetEnvOr(env, "QUANTIZATION", "none")|
  {
  }

  /** Unsetting one variable leaves every other lookup as it was. */
  lemma UnsetOthersUnchanged(env: Env, key: string, k: string)
    requires k != key
    ensures GetEnv(env - {key}, k) == GetEnv(env, k)
    ensures forall d :: GetEnvOr(env - {key}, k, d) == GetEnvOr(env, k, d)
  {
  }

  /** Unsetting a numeric variable leaves the string and boolean fields as they were. */
  lemma UnsetNumericKeepsOthers(env: Env, key: string)
    requires key in IntKeys + FloatKeys
    ensures var env' := env - {key};
      && GetEnvOr(env', "MODEL_ID", "gpt2") == GetEnvOr(env, "MODEL_ID", "gpt2")
      && GetEnvOr(env', "INFERENCE_BACKEND", "vllm") == GetEnvOr(env, "INFERENCE_BACKEND", "vllm")
      && GetEnvOr(env', "HOST", "0.0.0.0") == GetEnvOr(env, "HOST", "0.0.0.0")
      && GetEnv(env', "TRUST_REMOTE_CODE") == GetEnv(env, "TRUST_REMOTE_CODE")
      && GetEnvOr(env', "QUANTIZATION", "none") == GetEnvOr(env, "QUANTIZATION", "none")
      && GetEnv(env', "ENABLE_GUARDRAILS") == GetEnv(env, "ENABLE_GUARDRAILS")
      && GetEnvOr(env', "BLOCKED_TERMS", "") == GetEnvOr(env, "BLOCKED_TERMS", "")
    ensures forall k :: k != key ==> GetEnv(env - {key}, k) == GetEnv(env, k)
  {
    UnsetOthersUnchanged(env, key, "MODEL_ID");
    UnsetOthersUnchanged(env, key, "INFERENCE_BACKEND");
    UnsetOthersUnchanged(env, key, "HOST");
    UnsetOthersUnchanged(env, key, "TRUST_REMOTE_CODE");
    UnsetOthersUnchanged(env, key, "QUANTIZATION");
    UnsetOthersUnchanged(env, key, "ENABLE_GUARDRAILS");
    UnsetOthersUnchanged(env, key, "BLOCKED_TERMS");
  }

  lemma ToIntUnset(env: Env, key: string, k: string, d: int)
    requires k != key || (key in env && ParseInt(env[key]).None?)
    ensures ToInt(GetEnv(env - {key}, k), d) == ToInt(GetEnv(env, k), d)
  {
  }

  lemma ToFloatUnset(env: Env, key: string, k: string, d: real, parseFloat: string -> Option<real>)
    requires k != key || (key in env && parseFloat(env[key]).None?)
    ensures ToFloat(GetEnv(env - {key}, k), d, parseFloat) == ToFloat(GetEnv(env, k), d, parseFloat)
  {
  }

  /** A malformed integer variable is as good as an unset one: its field falls back to
      the default and every other field is unaffected. */
  lemma MalformedIntFallsBack(env: Env, parseFloat: string -> Option<real>, key: string)
    requires key in IntKeys && key in env && ParseInt(env[key]).None?
    ensures GetSettings(env, parseFloat) == GetSettings(env - {key}, parseFloat)
  {
    UnsetNumericKeepsOthers(env, key);
    ToIntUnset(env, key, "PORT", 8000);
    ToIntUnset(env, key, "MAX_NEW_TOKENS", 128);
    ToIntUnset(env, key, "TENSOR_PARALLEL_SIZE", 1);
    ToIntUnset(env, key, "QUANTIZATION_BITS", 0);
    ToIntUnset(env, key, "MAX_PROMPT_CHARS", 4000);
    ToIntUnset(env, key, "MAX_REQUEST_NEW_TOKENS", 512);
    ToFloatUnset(env, key, "TEMPERATURE", 0.7, parseFloat);
    ToFloatUnset(env, key, "TOP_P", 0.95, parseFloat);
    ToFloatUnset(env, key, "GPU_MEMORY_UTILIZATION", 0.9, parseFloat);
  }

  /** The same for a float variable that `parseFloat` rejects. */
  lemma MalformedFloatFallsBack(env: Env, parseFloat: string -> Option<real>, key: string)
    requires key in FloatKeys && key in env && parseFloat(env[key]).None?
    ensures GetSettings(env, parseFloat) == GetSettings(env - {key}, parseFloat)
  {
    UnsetNumericKeepsOthers(env, key);
    ToIntUnset(env, key, "PORT", 8000);
    ToIntUnset(env, key, "MAX_NEW_TOKENS", 128);
    ToIntUnset(env, key, "TENSOR_PARALLEL_SIZE", 1);
    ToIntUnset(env, key, "QUANTIZATION_BITS", 0);
    ToIntUnset(env, key, "MAX_PROMPT_CHARS", 4000);
    ToIntUnset(env, key, "MAX_REQUEST_NEW_TOKENS", 512);
    ToFloatUnset(env, key, "TEMPERATURE", 0.7, parseFloat);
    ToFloatUnset(env, key, "TOP_P", 0.95, parseFloat);
    ToFloatUnset(env, key, "GPU_MEMORY_UTILIZATION", 0.9, parseFloat);
  }
}
