/**
 * src/podflix/utils/pydantic_models.py: the models offered to the user, the
 * default one, and the fields of `OpenAIChatGenerationSettings`, whose model
 * field takes its default and its choices from the environment settings.
 */
module PydanticModels {
  import opened Wrappers
  import opened PydanticFields
  import EnvConfig

  const OpenAIModelNames: seq<string> := ["gpt-3.5-turbo", "gpt-4", "gpt-4o-mini"]
  const OpenAIDefaultModel: string := "gpt-4o-mini"

  /** `get_available_models`. */
  function AvailableModels(settings: EnvConfig.Settings): seq<string> {
    if settings.enableOpenaiApi then OpenAIModelNames else [settings.modelName]
  }

  /** `get_default_model`. */
  function DefaultModel(settings: EnvConfig.Settings): string {
    if !settings.enableOpenaiApi then settings.modelName else OpenAIDefaultModel
  }

  /**
   * With the OpenAI API the three OpenAI models are offered and `gpt-4o-mini` is
   * the default; otherwise only the configured model, which is the default.
   */
  lemma ModelChoice(settings: EnvConfig.Settings)
    ensures settings.enableOpenaiApi ==>
      AvailableModels(settings) == ["gpt-3.5-turbo", "gpt-4", "gpt-4o-mini"] && DefaultModel(settings) == "gpt-4o-mini"
    ensures !settings.enableOpenaiApi ==>
      AvailableModels(settings) == [settings.modelName] && DefaultModel(settings) == settings.modelName
  {
  }

  /** The default model is always one of the available ones. */
  lemma DefaultIsAvailable(settings: EnvConfig.Settings)
    ensures DefaultModel(settings) in AvailableModels(settings)
  {
    if settings.enableOpenaiApi {
      assert AvailableModels(settings)[2] == DefaultModel(settings);
    }
  }

  /** Python strings as field values. */
  function StrValues(xs: seq<string>): (r: seq<Value>)
    ensures |r| == |xs| && forall k :: 0 <= k < |xs| ==> r[k] == StrV(xs[k])
  {
    if xs == [] then [] else [StrV(xs[0])] + StrValues(xs[1..])
  }

  function ModelField(settings: EnvConfig.Settings): FieldInfo {
    WithChoices("model", OtherType("str"), StrV(DefaultModel(settings)), "Model to use for chat completion",
      StrValues(AvailableModels(settings)))
  }

  function TemperatureField(): FieldInfo {
    Bounded("temperature", FloatType, RealV(0.7), 0.0, 2.0, "Controls randomness in the output")
  }

  function MaxTokensField(): FieldInfo {
    Bounded("max_tokens", IntType, IntV(2000), 1.0, 32000.0, "Maximum number of tokens to generate")
  }

  function TopPField(): FieldInfo {
    Bounded("top_p", FloatType, RealV(1.0), 0.0, 1.0, "Controls diversity via nucleus sampling")
  }

  function FrequencyPenaltyField(): FieldInfo {
    Bounded("frequency_penalty", FloatType, RealV(0.0), -2.0, 2.0, "Reduces repetition of token sequences")
  }

  function PresencePenaltyField(): FieldInfo {
    Bounded("presence_penalty", FloatType, RealV(0.0), -2.0, 2.0, "Reduces likelihood of repeating information")
  }

  /** The seed is bounded by the largest unsigned 32-bit value. */
  function SeedField(): FieldInfo {
    Bounded("seed", IntType, IntV(-1), -1.0, (0x1_0000_0000 - 1) as real, "Random seed for deterministic completions")
  }

  function NField(): FieldInfo {
    Bounded("n", IntType, IntV(1), 1.0, 5.0, "Number of completions to generate")
  }

  function ResponseFormatField(): FieldInfo {
    WithChoices("response_format", OtherType("str"), StrV("text"), "Format for model responses",
      [StrV("text"), StrV("json_object")])
  }

  function LogprobsField(): FieldInfo {
    Plain("logprobs", BoolType, BoolV(false), "Return log probabilities of tokens")
  }

  /** The fields of `OpenAIChatGenerationSettings`, in declaration order. */
  function GenerationSettingsFields(settings: EnvConfig.Settings): seq<FieldInfo> {
    [ModelField(settings), TemperatureField(), MaxTokensField(), TopPField(), FrequencyPenaltyField(),
     PresencePenaltyField(), SeedField(), NField(), ResponseFormatField(), LogprobsField()]
  }

  /** The model and response format default to one of their own choices, the model to a string. */
  lemma ChoiceDefaults(settings: EnvConfig.Settings)
    ensures DefaultAmongChoices(ModelField(settings))
    ensures DefaultAmongChoices(ResponseFormatField())
    ensures ModelField(settings).choices.value != [] && ModelField(settings).choices.value[0].StrV?
  {
    DefaultIsAvailable(settings);
    var models := AvailableModels(settings);
    var k :| 0 <= k < |models| && models[k] == DefaultModel(settings);
    assert ModelField(settings).choices.value[k] == StrV(DefaultModel(settings));
  }

  /** Every bounded field's default lies within its bounds. */
  lemma BoundedDefaults()
    ensures DefaultWithinBounds(TemperatureField())
    ensures DefaultWithinBounds(MaxTokensField())
    ensures DefaultWithinBounds(TopPField())
    ensures DefaultWithinBounds(FrequencyPenaltyField())
    ensures DefaultWithinBounds(PresencePenaltyField())
    ensures DefaultWithinBounds(SeedField())
    ensures DefaultWithinBounds(NField())
  {
  }
}
