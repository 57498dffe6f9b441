/** The one piece of decision logic in hf-model-server/app/main.py: the `/generate` handler
    merges the request's optional overrides over the settings defaults. */
module Server {
  import opened Base
  import opened Config
  import opened Engine

  /** `GenerateRequest`, without the field constraints the web framework enforces. */
  datatype GenerateRequest = GenerateRequest(
    prompt: string,
    maxNewTokens: Option<int>,
    temperature: Option<real>,
    topP: Option<real>)

  /** The `GenerationOptions(...)` expression of `generate`. `max_new_tokens` is merged with
      `or`, so an override of 0 also falls back; the other two fall back only when absent. */
  function MergeOptions(payload: GenerateRequest, settings: Settings): (o: GenerationOptions)
    ensures o.maxNewTokens == 0 ==> settings.maxNewTokens == 0
    ensures o.temperature == settings.temperature || Some(o.temperature) == payload.temperature
    ensures o.topP == settings.topP || Some(o.topP) == payload.topP
  {
    GenerationOptions(
      maxNewTokens :=
        if payload.maxNewTokens.Some? && payload.maxNewTokens.value != 0
        then payload.maxNewTokens.value else settings.maxNewTokens,
      temperature :=
        if payload.temperature.Some? then payload.temperature.value else settings.temperature,
      topP := if payload.topP.Some? then payload.topP.value else settings.topP)
  }

  /** Each field is the request's value when it gave one (a non-zero one for the token
      count) and the setting otherwise; no field depends on another. */
  lemma MergeFieldByField(payload: GenerateRequest, settings: Settings)
    ensures var o := MergeOptions(payload, settings);
      && (o.maxNewTokens == settings.maxNewTokens || Some(o.maxNewTokens) == payload.maxNewTokens)
      && (payload.maxNewTokens.Some? && payload.maxNewTokens.value != 0 ==>
            o.maxNewTokens == payload.maxNewTokens.value)
      && (payload.maxNewTokens.None? || payload.maxNewTokens == Some(0) ==>
            o.maxNewTokens == settings.maxNewTokens)
      && (payload.temperature.Some? ==> o.temperature == payload.temperature.value)
      && (payload.temperature.None? ==> o.temperature == settings.temperature)
      && (payload.topP.Some? ==> o.topP == payload.topP.value)
      && (payload.topP.None? ==> o.topP == settings.topP)
  {
  }

  /** A temperature override of 0 is kept, not mistaken for an absent one. */
  lemma ZeroTemperatureKept(payload: GenerateRequest, settings: Settings)
    requires payload.temperature == Some(0.0)
    ensures MergeOptions(payload, settings).temperature == 0.0
  {
  }

  /** A request without overrides gets exactly the options `ModelEngine.generate` uses
      when it is given none. */
  lemma NoOverridesGivesDefaults(payload: GenerateRequest, settings: Settings)
    requires payload.maxNewTokens.None? && payload.temperature.None? && payload.topP.None?
    ensures MergeOptions(payload, settings) ==
      GenerationOptions(settings.maxNewTokens, settings.temperature, settings.topP)
  {
  }

  /** Defaults {128, 0.7, 0.95} and a request carrying only max_new_tokens=50 merge to
      {50, 0.7, 0.95}. */
  lemma MergeExample(settings: Settings)
    requires settings.maxNewTokens == 128 && settings.temperature == 0.7 && settings.topP == 0.95
    ensures MergeOptions(GenerateRequest("hi", Some(50), None, None), settings) ==
      GenerationOptions(50, 0.7, 0.95)
  {
  }
}
