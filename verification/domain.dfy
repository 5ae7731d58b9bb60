/** The shape of the configuration file (the Rust records of the backend) and
    the closed string sets of the frontend's types.

    JSON numbers are `int`, as the frontend sees them; the widths the Rust
    records give them (u16, u32, u64, and usize on a 64-bit target) are the
    predicate `ConfigFits`, which holds of every value the backend decodes.
    Floating-point values (costs, the compaction threshold) are `real`: only
    their presence and the constant zero matter here. */
module Domain {
  import opened Wrappers

  /** The wire protocols a preset can name (TypeScript `ApiType`). */
  datatype ApiType = AnthropicMessages | OpenaiChat | OllamaChat

  function ApiTypeName(a: ApiType): string {
    match a
    case AnthropicMessages => "anthropic-messages"
    case OpenaiChat => "openai-chat"
    case OllamaChat => "ollama-chat"
  }

  /** TypeScript `ModelTier`. */
  datatype ModelTier = Fast | Balanced | Powerful

  function TierName(t: ModelTier): string {
    match t
    case Fast => "fast"
    case Balanced => "balanced"
    case Powerful => "powerful"
  }

  /** Reads a tier name back; any other string is not a `ModelTier`. */
  function ParseTier(s: string): (r: Option<ModelTier>)
    ensures r.Some? ==> TierName(r.value) == s
  {
    if s == "fast" then Some(Fast)
    else if s == "balanced" then Some(Balanced)
    else if s == "powerful" then Some(Powerful)
    else None
  }

  /** Every api type is named by one of the three protocol strings and
      distinct api types have distinct names; the tier names read back, and
      exactly the three tier strings are tiers. */
  lemma ClosedNameSets()
    ensures forall a: ApiType :: ApiTypeName(a) in {"anthropic-messages", "openai-chat", "ollama-chat"}
    ensures forall a: ApiType, b: ApiType :: ApiTypeName(a) == ApiTypeName(b) ==> a == b
    ensures forall t: ModelTier :: ParseTier(TierName(t)) == Some(t)
    ensures forall s :: ParseTier(s).Some? <==> s in {"fast", "balanced", "powerful"}
  {
  }

  datatype ModelCost = ModelCost(input: real, output: real, cacheRead: Option<real>, cacheWrite: Option<real>)

  datatype ModelInfo = ModelInfo(
    id: string,
    name: string,
    reasoning: bool,
    input: seq<string>,
    cost: ModelCost,
    contextWindow: int,
    maxTokens: int,
    tier: Option<string>)

  /** One provider entry: `api` is a free string and `apiKey` may be absent. */
  datatype Provider = Provider(baseUrl: string, apiKey: Option<string>, api: string, models: seq<ModelInfo>)

  /** A present `models` section always carries both its mode and its providers. */
  datatype ModelsConfig = ModelsConfig(mode: string, providers: map<string, Provider>)

  datatype ModelConfig = ModelConfig(primary: string, fast: Option<string>, balanced: Option<string>, powerful: Option<string>)

  datatype ModelAlias = ModelAlias(alias: string, description: Option<string>)

  datatype SubagentsConfig = SubagentsConfig(maxConcurrent: int)

  datatype CachingConfig = CachingConfig(enabled: bool, maxCacheSize: string)

  datatype TimeoutConfig = TimeoutConfig(request: int, idle: int)

  datatype RetryConfig = RetryConfig(maxAttempts: int, backoff: string)

  datatype CompactionConfig = CompactionConfig(mode: string, threshold: Option<real>)

  /** Every field but `models` is optional. */
  datatype AgentsDefaults = AgentsDefaults(
    model: Option<ModelConfig>,
    models: map<string, ModelAlias>,
    workspace: Option<string>,
    maxConcurrent: Option<int>,
    subagents: Option<SubagentsConfig>,
    caching: Option<CachingConfig>,
    timeout: Option<TimeoutConfig>,
    retry: Option<RetryConfig>,
    compaction: Option<CompactionConfig>)

  datatype AgentsConfig = AgentsConfig(defaults: AgentsDefaults)

  datatype ConfigMeta = ConfigMeta(lastTouchedVersion: Option<string>, lastTouchedAt: Option<string>, comment: Option<string>)

  datatype WizardConfig = WizardConfig(
    lastRunAt: Option<string>, lastRunVersion: Option<string>,
    lastRunCommand: Option<string>, lastRunMode: Option<string>)

  datatype AuthProfile = AuthProfile(provider: string, mode: string)

  datatype AuthConfig = AuthConfig(profiles: Option<map<string, AuthProfile>>)

  datatype MessagesConfig = MessagesConfig(ackReactionScope: Option<string>)

  datatype CommandsConfig = CommandsConfig(native: Option<string>, nativeSkills: Option<string>)

  datatype GatewayAuthConfig = GatewayAuthConfig(mode: Option<string>, token: Option<string>)

  datatype TailscaleConfig = TailscaleConfig(mode: Option<string>, resetOnExit: Option<bool>)

  datatype GatewayConfig = GatewayConfig(
    port: Option<int>, mode: Option<string>, bind: Option<string>,
    auth: Option<GatewayAuthConfig>, tailscale: Option<TailscaleConfig>)

  datatype SkillsInstallConfig = SkillsInstallConfig(nodeManager: Option<string>)

  datatype SkillsConfig = SkillsConfig(install: Option<SkillsInstallConfig>)

  /** The whole file: nine optional top-level sections. */
  datatype Config = Config(
    meta: Option<ConfigMeta>,
    wizard: Option<WizardConfig>,
    models: Option<ModelsConfig>,
    agents: Option<AgentsConfig>,
    auth: Option<AuthConfig>,
    messages: Option<MessagesConfig>,
    commands: Option<CommandsConfig>,
    gateway: Option<GatewayConfig>,
    skills: Option<SkillsConfig>)

  /** `OpenClawConfig::default()`: a file with no section at all. */
  function DefaultConfig(): Config {
    Config(None, None, None, None, None, None, None, None, None)
  }

  const U16_MAX: int := 0xFFFF
  const U32_MAX: int := 0xFFFF_FFFF
  const U64_MAX: int := 0xFFFF_FFFF_FFFF_FFFF
  const USIZE_MAX: int := U64_MAX

  predicate InRange(n: int, max: int) {
    0 <= n <= max
  }

  predicate OptionInRange(o: Option<int>, max: int) {
    o.Some? ==> InRange(o.value, max)
  }

  /** `contextWindow` and `maxTokens` are usize. */
  predicate ModelInfoFits(m: ModelInfo) {
    InRange(m.contextWindow, USIZE_MAX) && InRange(m.maxTokens, USIZE_MAX)
  }

  predicate ProviderFits(p: Provider) {
    forall i :: 0 <= i < |p.models| ==> ModelInfoFits(p.models[i])
  }

  predicate ProvidersFit(providers: map<string, Provider>) {
    forall id :: id in providers ==> ProviderFits(providers[id])
  }

  /** `maxConcurrent`, the subagents' limit and `maxAttempts` are u32; the timeouts are u64. */
  predicate AgentsDefaultsFits(d: AgentsDefaults) {
    && OptionInRange(d.maxConcurrent, U32_MAX)
    && (d.subagents.Some? ==> InRange(d.subagents.value.maxConcurrent, U32_MAX))
    && (d.timeout.Some? ==> InRange(d.timeout.value.request, U64_MAX) && InRange(d.timeout.value.idle, U64_MAX))
    && (d.retry.Some? ==> InRange(d.retry.value.maxAttempts, U32_MAX))
  }

  /** A configuration whose numbers all fit the Rust field types. */
  predicate ConfigFits(c: Config) {
    && (c.models.Some? ==> ProvidersFit(c.models.value.providers))
    && (c.agents.Some? ==> AgentsDefaultsFits(c.agents.value.defaults))
    && (c.gateway.Some? ==> OptionInRange(c.gateway.value.port, U16_MAX))
  }
}
