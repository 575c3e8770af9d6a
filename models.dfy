/**
 * The provider/model catalogue: a fixed table of the four supported
 * language-model vendors with the models each offers, and the two lookups the
 * settings screen and the AI client use.
 */
module Models {
  import opened Wrappers
  import opened Seqs

  datatype AIProvider = OpenAI | Anthropic | Google | DeepSeek

  datatype ModelConfig = ModelConfig(
    id: string,
    name: string,
    description: Option<string>,
    maxTokens: int,
    supportsVision: Option<bool>)

  datatype ProviderConfig = ProviderConfig(
    id: AIProvider,
    name: string,
    baseUrl: Option<string>,
    models: seq<ModelConfig>,
    apiKeyPrefix: Option<string>,
    docsUrl: string)

  const OPENAI_MODELS: seq<ModelConfig> := [
    ModelConfig("gpt-4o", "GPT-4o", None, 128000, Some(true)),
    ModelConfig("gpt-4o-mini", "GPT-4o Mini", None, 128000, None),
    ModelConfig("gpt-4-turbo", "GPT-4 Turbo", None, 128000, Some(true)),
    ModelConfig("o1", "o1", None, 200000, None),
    ModelConfig("o1-mini", "o1 Mini", None, 128000, None)
  ]

  const ANTHROPIC_MODELS: seq<ModelConfig> := [
    ModelConfig("claude-sonnet-4-20250514", "Claude Sonnet 4", None, 200000, Some(true)),
    ModelConfig("claude-3-5-sonnet-20241022", "Claude 3.5 Sonnet", None, 200000, Some(true)),
    ModelConfig("claude-3-5-haiku-20241022", "Claude 3.5 Haiku", None, 200000, None),
    ModelConfig("claude-3-opus-20240229", "Claude 3 Opus", None, 200000, Some(true))
  ]

  const GOOGLE_MODELS: seq<ModelConfig> := [
    ModelConfig("gemini-2.0-flash", "Gemini 2.0 Flash", None, 1000000, Some(true)),
    ModelConfig("gemini-1.5-pro", "Gemini 1.5 Pro", None, 2000000, Some(true)),
    ModelConfig("gemini-1.5-flash", "Gemini 1.5 Flash", None, 1000000, Some(true))
  ]

  const DEEPSEEK_MODELS: seq<ModelConfig> := [
    ModelConfig("deepseek-chat", "DeepSeek Chat", None, 64000, None),
    ModelConfig("deepseek-reasoner", "DeepSeek Reasoner", None, 64000, None)
  ]

  const PROVIDERS: seq<ProviderConfig> := [
    ProviderConfig(OpenAI, "OpenAI", None, OPENAI_MODELS,
      Some("sk-"), "https://platform.openai.com/api-keys"),
    ProviderConfig(Anthropic, "Anthropic", None, ANTHROPIC_MODELS,
      Some("sk-ant-"), "https://console.anthropic.com/settings/keys"),
    ProviderConfig(Google, "Google AI", None, GOOGLE_MODELS,
      None, "https://aistudio.google.com/app/apikey"),
    ProviderConfig(DeepSeek, "DeepSeek", Some("https://api.deepseek.com/v1"), DEEPSEEK_MODELS,
      Some("sk-"), "https://platform.deepseek.com/api_keys")
  ]

  /** Position of each provider's entry in PROVIDERS. */
  function ProviderIndex(provider: AIProvider): (k: nat)
    ensures k < |PROVIDERS| && PROVIDERS[k].id == provider
  {
    match provider
    case OpenAI => 0
    case Anthropic => 1
    case Google => 2
    case DeepSeek => 3
  }

  function HasProviderId(provider: AIProvider): ProviderConfig -> bool {
    (c: ProviderConfig) => c.id == provider
  }

  function HasModelId(modelId: string): ModelConfig -> bool {
    (m: ModelConfig) => m.id == modelId
  }

  /** The table entry for `provider`; every provider has one, and it is the one with that id. */
  function GetProviderConfig(provider: AIProvider): (r: Option<ProviderConfig>)
    ensures r.Some? && r.value in PROVIDERS && r.value.id == provider
    ensures r == Some(PROVIDERS[ProviderIndex(provider)])
  {
    var k := ProviderIndex(provider);
    FindFirst(PROVIDERS, HasProviderId(provider), k);
    Find(PROVIDERS, HasProviderId(provider))
  }

  /**
   * The model `modelId` of `provider`: found exactly when that provider lists a
   * model with this id, and then it is that model.
   */
  function GetModelConfig(provider: AIProvider, modelId: string): (r: Option<ModelConfig>)
    ensures var models := GetProviderConfig(provider).value.models;
      && (r.Some? <==> exists i :: 0 <= i < |models| && models[i].id == modelId)
      && (r.Some? ==> r.value in models && r.value.id == modelId)
  {
    match GetProviderConfig(provider)
    case None => None
    case Some(config) => Find(config.models, HasModelId(modelId))
  }

  /** Each provider identifier appears in exactly one entry of the table. */
  lemma ProviderIdsDistinct()
    ensures |PROVIDERS| == 4
    ensures forall i, j :: 0 <= i < j < |PROVIDERS| ==> PROVIDERS[i].id != PROVIDERS[j].id
  {
  }

  /**
   * Every provider lists at least one model, so the settings screen's default
   * choice `models[0]` after a provider switch always exists and is a valid model.
   */
  lemma DefaultModelExists(provider: AIProvider)
    ensures |GetProviderConfig(provider).value.models| > 0
    ensures var m := GetProviderConfig(provider).value.models[0];
      GetModelConfig(provider, m.id) == Some(m)
  {
    var models := GetProviderConfig(provider).value.models;
    FindFirst(models, HasModelId(models[0].id), 0);
  }

  /** Within one provider the model ids are pairwise distinct and every token limit is positive. */
  lemma ModelTableWellFormed(provider: AIProvider)
    ensures var models := GetProviderConfig(provider).value.models;
      && (forall i, j :: 0 <= i < j < |models| ==> models[i].id != models[j].id)
      && (forall i :: 0 <= i < |models| ==> models[i].maxTokens > 0)
  {
    match provider
    case OpenAI => assert GetProviderConfig(provider).value.models == OPENAI_MODELS;
    case Anthropic => assert GetProviderConfig(provider).value.models == ANTHROPIC_MODELS;
    case Google => assert GetProviderConfig(provider).value.models == GOOGLE_MODELS;
    case DeepSeek => assert GetProviderConfig(provider).value.models == DEEPSEEK_MODELS;
  }

  /** A model id belongs to at most one provider: asking another provider for it finds nothing. */
  lemma ModelBelongsToOneProvider(provider: AIProvider, other: AIProvider, modelId: string)
    requires GetModelConfig(provider, modelId).Some?
    requires other != provider
    ensures GetModelConfig(other, modelId).None?
  {
    var mine := GetProviderConfig(provider).value.models;
    var theirs := GetProviderConfig(other).value.models;
    var i :| 0 <= i < |mine| && mine[i].id == modelId;
    ModelIdsHaveFamily(provider, i);
    forall j | 0 <= j < |theirs|
      ensures theirs[j].id != modelId
    {
      ModelIdsHaveFamily(other, j);
    }
  }

  /** The default settings (provider OpenAI, model "gpt-4o") name a model of that provider. */
  lemma DefaultSettingsModelIsListed()
    ensures GetModelConfig(OpenAI, "gpt-4o").Some?
    ensures GetModelConfig(OpenAI, "gpt-4o").value.maxTokens == 128000
  {
    FindFirst(GetProviderConfig(OpenAI).value.models, HasModelId("gpt-4o"), 0);
  }

  /** The provider a model id's opening letters point to. */
  function Family(modelId: string): Option<AIProvider> {
    if |modelId| < 2 then None
    else if modelId[0] == 'g' && modelId[1] == 'p' then Some(OpenAI)
    else if modelId[0] == 'o' then Some(OpenAI)
    else if modelId[0] == 'c' then Some(Anthropic)
    else if modelId[0] == 'g' && modelId[1] == 'e' then Some(Google)
    else if modelId[0] == 'd' then Some(DeepSeek)
    else None
  }

  lemma ModelIdsHaveFamily(provider: AIProvider, i: int)
    requires 0 <= i < |GetProviderConfig(provider).value.models|
    ensures Family(GetProviderConfig(provider).value.models[i].id) == Some(provider)
  {
    var models := GetProviderConfig(provider).value.models;
    match provider
    case OpenAI => OpenAIFamily(i);
    case Anthropic => AnthropicFamily(i);
    case Google => GoogleFamily(i);
    case DeepSeek => DeepSeekFamily(i);
  }

  lemma OpenAIFamily(i: int)
    requires 0 <= i < |OPENAI_MODELS|
    ensures Family(OPENAI_MODELS[i].id) == Some(OpenAI)
  {
    if i < 3 {
      assert OPENAI_MODELS[i].id[..2] == "gp";
    } else {
      assert OPENAI_MODELS[i].id[0] == 'o';
    }
  }

  lemma AnthropicFamily(i: int)
    requires 0 <= i < |ANTHROPIC_MODELS|
    ensures Family(ANTHROPIC_MODELS[i].id) == Some(Anthropic)
  {
    assert ANTHROPIC_MODELS[i].id[0] == 'c';
  }

  lemma GoogleFamily(i: int)
    requires 0 <= i < |GOOGLE_MODELS|
    ensures Family(GOOGLE_MODELS[i].id) == Some(Google)
  {
    assert GOOGLE_MODELS[i].id[..2] == "ge";
  }

  lemma DeepSeekFamily(i: int)
    requires 0 <= i < |DEEPSEEK_MODELS|
    ensures Family(DEEPSEEK_MODELS[i].id) == Some(DeepSeek)
  {
    assert DEEPSEEK_MODELS[i].id[0] == 'd';
  }
}
