/** The built-in catalog of provider templates that seeds the "add provider"
    form, and how a template model becomes a stored model. */
module Presets {
  import opened Wrappers
  import opened Domain

  /** A catalog model: every ModelInfo field except `cost`. */
  datatype PresetModel = PresetModel(
    id: string,
    name: string,
    reasoning: bool,
    input: seq<string>,
    contextWindow: int,
    maxTokens: int,
    tier: Option<ModelTier>)

  datatype ProviderPreset = ProviderPreset(
    id: string,
    name: string,
    apiType: ApiType,
    supportsEndpoint: bool,
    defaultEndpoint: Option<string>,
    models: seq<PresetModel>)

  const ZERO_COST: ModelCost := ModelCost(0.0, 0.0, None, None)

  /** A catalog model with its cost filled in as `{input: 0, output: 0}`. */
  function Materialize(m: PresetModel): ModelInfo {
    ModelInfo(m.id, m.name, m.reasoning, m.input, ZERO_COST, m.contextWindow, m.maxTokens,
              match m.tier case Some(t) => Some(TierName(t)) case None => None)
  }

  /** Forgets a stored model's cost; a tier string that is not a ModelTier is dropped. */
  function WithoutCost(m: ModelInfo): PresetModel {
    PresetModel(m.id, m.name, m.reasoning, m.input, m.contextWindow, m.maxTokens,
                match m.tier case Some(s) => ParseTier(s) case None => None)
  }

  /** Materializing loses nothing but adds the zero cost: stripping the cost
      again gives the catalog model back. */
  lemma MaterializeRoundTrip(m: PresetModel)
    ensures WithoutCost(Materialize(m)) == m
    ensures Materialize(m).cost == ZERO_COST
  {
    ClosedNameSets();
  }

  function Anthropic(): ProviderPreset {
    ProviderPreset("anthropic", "Anthropic (Claude)", AnthropicMessages, false, None, [
      PresetModel("claude-haiku-4-5-20251001", "Claude Haiku 4.5", true, ["text", "image"], 200000, 8192, Some(Fast)),
      PresetModel("claude-sonnet-4-5-20250929", "Claude Sonnet 4.5", true, ["text", "image"], 200000, 16000, Some(Balanced)),
      PresetModel("claude-opus-4-6", "Claude Opus 4.6", true, ["text", "image"], 200000, 16000, Some(Powerful))])
  }

  function OpenAI(): ProviderPreset {
    ProviderPreset("openai", "OpenAI", OpenaiChat, false, None, [
      PresetModel("gpt-4o", "GPT-4o", false, ["text", "image"], 128000, 4096, Some(Balanced)),
      PresetModel("gpt-4o-mini", "GPT-4o Mini", false, ["text", "image"], 128000, 16384, Some(Fast)),
      PresetModel("o1-preview", "o1-preview", true, ["text"], 128000, 32768, Some(Powerful))])
  }

  function Ollama(): ProviderPreset {
    ProviderPreset("ollama", "Ollama (Local)", OllamaChat, true, Some("http://localhost:11434"), [
      PresetModel("llama3.2", "Llama 3.2", false, ["text"], 128000, 4096, Some(Fast)),
      PresetModel("qwen2.5-coder", "Qwen 2.5 Coder", false, ["text"], 32768, 8192, Some(Balanced)),
      PresetModel("deepseek-coder", "DeepSeek Coder", false, ["text"], 16384, 4096, Some(Fast))])
  }

  function Glm(): ProviderPreset {
    ProviderPreset("glm", "智谱 GLM", OpenaiChat, true, Some("https://open.bigmodel.cn/api/paas/v4"), [
      PresetModel("glm-4-plus", "GLM-4 Plus", true, ["text", "image"], 128000, 8192, Some(Powerful)),
      PresetModel("glm-4-air", "GLM-4 Air", false, ["text"], 128000, 4096, Some(Fast)),
      PresetModel("glm-4-flash", "GLM-4 Flash", false, ["text"], 128000, 4096, Some(Fast))])
  }

  function Kimi(): ProviderPreset {
    ProviderPreset("kimi", "Kimi (Moonshot)", OpenaiChat, true, Some("https://api.moonshot.cn/v1"), [
      PresetModel("moonshot-v1-128k", "Kimi Moonshot v1 128k", false, ["text"], 128000, 4096, Some(Balanced)),
      PresetModel("moonshot-v1-32k", "Kimi Moonshot v1 32k", false, ["text"], 32000, 4096, Some(Balanced)),
      PresetModel("moonshot-v1-8k", "Kimi Moonshot v1 8k", false, ["text"], 8000, 4096, Some(Fast))])
  }

  /** `PROVIDER_PRESETS`. */
  function ProviderPresets(): seq<ProviderPreset> {
    [Anthropic(), OpenAI(), Ollama(), Glm(), Kimi()]
  }

  /** Ids of a list of presets, in order. */
  function PresetIds(ps: seq<ProviderPreset>): (ids: seq<string>)
    ensures |ids| == |ps|
    ensures forall i :: 0 <= i < |ps| ==> ids[i] == ps[i].id
  {
    if ps == [] then [] else [ps[0].id] + PresetIds(ps[1..])
  }

  predicate Distinct<T(==)>(s: seq<T>) {
    forall i, j :: 0 <= i < j < |s| ==> s[i] != s[j]
  }

  /** A well-formed catalog entry: three models with distinct ids, each with a
      tier, and an editable endpoint exactly when a non-empty default endpoint
      is given. */
  predicate WellFormedPreset(p: ProviderPreset) {
    && |p.models| == 3
    && p.models[0].id != p.models[1].id
    && p.models[0].id != p.models[2].id
    && p.models[1].id != p.models[2].id
    && (forall i :: 0 <= i < 3 ==> p.models[i].tier.Some?)
    && (p.supportsEndpoint <==> p.defaultEndpoint.Some?)
    && (p.defaultEndpoint.Some? ==> p.defaultEndpoint.value != "")
  }

  /** Five presets with distinct ids, in the order anthropic, openai, ollama, glm, kimi. */
  lemma CatalogIds()
    ensures PresetIds(ProviderPresets()) == ["anthropic", "openai", "ollama", "glm", "kimi"]
    ensures Distinct(PresetIds(ProviderPresets()))
  {
  }

  /** Every preset is well formed, and exactly ollama, glm and kimi carry a
      default endpoint. */
  lemma CatalogWellFormed()
    ensures forall i :: 0 <= i < |ProviderPresets()| ==> WellFormedPreset(ProviderPresets()[i])
    ensures forall i :: 0 <= i < |ProviderPresets()| ==>
      (ProviderPresets()[i].defaultEndpoint.Some? <==> ProviderPresets()[i].id in {"ollama", "glm", "kimi"})
  {
    assert WellFormedPreset(Anthropic());
    assert WellFormedPreset(OpenAI());
    assert WellFormedPreset(Ollama());
    assert WellFormedPreset(Glm());
    assert WellFormedPreset(Kimi());
  }
}
