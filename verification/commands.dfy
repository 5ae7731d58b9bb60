/** The backend commands on providers and agent defaults. Each one reads the
    stored configuration, changes one part of it and writes it back through
    the service, so the merge on write keeps every other section. */
module Commands {
  import opened Wrappers
  import opened Domain
  import opened Text
  import opened ConfigUtils
  import opened ConfigService

  /** The providers map of a configuration, empty without a models section. */
  function ProvidersOf(c: Config): map<string, Provider> {
    if c.models.Some? then c.models.value.providers else map[]
  }

  /** The agent defaults of a configuration, if it has an agents section. */
  function AgentsDefaultsOf(c: Config): Option<AgentsDefaults> {
    if c.agents.Some? then Some(c.agents.value.defaults) else None
  }

  /** `default_agents_defaults`: the record put in place before the caller's
      record replaces it. */
  function DefaultAgentsDefaults(): AgentsDefaults {
    AgentsDefaults(
      Some(ModelConfig("", None, None, None)),
      map[], None, Some(6), Some(SubagentsConfig(12)), None, None, None, None)
  }

  /** The placeholder fits the field widths, and it would fail validation on
      its empty primary model and on nothing else. */
  lemma DefaultAgentsDefaultsPlaceholder()
    ensures AgentsDefaultsFits(DefaultAgentsDefaults())
    ensures Failures(AgentsChecks(DefaultAgentsDefaults())) == [PRIMARY_REQUIRED]
  {
    var checks := AgentsChecks(DefaultAgentsDefaults());
    FailuresOfThree(checks[0], checks[1], checks[2]);
    assert IsBlank("");
  }

  // ---------------------------------------------------------------------
  // What each command writes, as functions of the configuration it read

  /** The configuration `add_provider` writes: a models section (mode "merge",
      no providers) is created when missing, then `id` is set to `provider`. */
  function AddedProvider(c: Config, id: string, provider: Provider): Config {
    var models := if c.models.Some? then c.models.value else ModelsConfig("merge", map[]);
    c.(models := Some(models.(providers := models.providers[id := provider])))
  }

  /** The outcome of `update_provider` on a configuration: nothing to write
      without a models section, `InvalidProvider` for an unknown id, else the
      configuration with that entry replaced. */
  function UpdatedProvider(c: Config, id: string, provider: Provider): Result<Option<Config>, AppError> {
    if c.models.None? then Ok(None)
    else if id !in c.models.value.providers then Err(InvalidProvider("Provider '" + id + "' not found"))
    else Ok(Some(c.(models := Some(c.models.value.(providers := c.models.value.providers[id := provider])))))
  }

  /** The outcome of `delete_provider`: nothing to write without a models
      section, else the configuration without the entry. */
  function DeletedProvider(c: Config, id: string): Option<Config> {
    if c.models.None? then None
    else Some(c.(models := Some(c.models.value.(providers := c.models.value.providers - {id}))))
  }

  /** The configuration `save_agents_defaults` writes. */
  function SavedAgentsDefaults(c: Config, defaults: AgentsDefaults): Config {
    var agents := if c.agents.Some? then c.agents.value else AgentsConfig(DefaultAgentsDefaults());
    c.(agents := Some(agents.(defaults := defaults)))
  }

  /** Adding sets the entry, silently replacing an existing one; every other
      entry, the mode (or "merge" for a new section) and every other section
      stay as they were. */
  lemma AddProviderEffect(c: Config, id: string, provider: Provider)
    ensures ProvidersOf(AddedProvider(c, id, provider)) == ProvidersOf(c)[id := provider]
    ensures id in ProvidersOf(c) ==> |ProvidersOf(AddedProvider(c, id, provider))| == |ProvidersOf(c)|
    ensures AddedProvider(c, id, provider).models.value.mode == if c.models.Some? then c.models.value.mode else "merge"
    ensures AddedProvider(c, id, provider).(models := c.models) == c
    ensures forall other :: other != id && other in ProvidersOf(c) ==>
      other in ProvidersOf(AddedProvider(c, id, provider))
      && ProvidersOf(AddedProvider(c, id, provider))[other] == ProvidersOf(c)[other]
  {
    assert id in ProvidersOf(c) ==> ProvidersOf(c)[id := provider].Keys == ProvidersOf(c).Keys;
  }

  /** Updating never adds an id: the keys stay the same and only the named
      entry changes; an unknown id is refused and a missing section is left alone. */
  lemma UpdateProviderEffect(c: Config, id: string, provider: Provider)
    ensures c.models.None? ==> UpdatedProvider(c, id, provider) == Ok(None)
    ensures c.models.Some? && id !in ProvidersOf(c) ==>
      UpdatedProvider(c, id, provider) == Err(InvalidProvider("Provider '" + id + "' not found"))
    ensures id in ProvidersOf(c) ==>
      var r := UpdatedProvider(c, id, provider);
      && r.Ok? && r.value.Some?
      && ProvidersOf(r.value.value).Keys == ProvidersOf(c).Keys
      && ProvidersOf(r.value.value)[id] == provider
      && (forall other :: other in ProvidersOf(c) && other != id ==> ProvidersOf(r.value.value)[other] == ProvidersOf(c)[other])
      && r.value.value.models.value.mode == c.models.value.mode
      && r.value.value.(models := c.models) == c
  {
  }

  /** Deleting removes exactly the id; deleting an absent id leaves the map
      as it was. */
  lemma DeleteProviderEffect(c: Config, id: string)
    ensures c.models.None? <==> DeletedProvider(c, id).None?
    ensures c.models.Some? ==>
      var d := DeletedProvider(c, id).value;
      && ProvidersOf(d).Keys == ProvidersOf(c).Keys - {id}
      && (forall other :: other in ProvidersOf(d) ==> ProvidersOf(d)[other] == ProvidersOf(c)[other])
      && (id !in ProvidersOf(c) ==> ProvidersOf(d) == ProvidersOf(c))
      && d.models.value.mode == c.models.value.mode
      && d.(models := c.models) == c
  {
    if c.models.Some? && id !in ProvidersOf(c) {
      var d := DeletedProvider(c, id).value;
      assert ProvidersOf(d) == ProvidersOf(c);
    }
  }

  /** Saving replaces the defaults wholesale, so reading them back gives
      exactly the saved record (the placeholder never survives); the other
      sections stay as they were. */
  lemma SaveAgentsDefaultsEffect(c: Config, defaults: AgentsDefaults)
    ensures AgentsDefaultsOf(SavedAgentsDefaults(c, defaults)) == Some(defaults)
    ensures SavedAgentsDefaults(c, defaults).(agents := c.agents) == c
  {
  }

  // ---------------------------------------------------------------------
  // The commands

  /** `get_providers`. */
  method GetProviders(store: ConfigStore) returns (r: Result<map<string, Provider>, AppError>)
    requires store.Valid()
    ensures Load(store.file).Err? ==> r == Err(Load(store.file).error)
    ensures Load(store.file).Ok? ==> r == Ok(ProvidersOf(Load(store.file).value))
  {
    var read := store.ReadConfig();
    if read.Err? {
      return Err(read.error);
    }
    var config := read.value;
    r := Ok(if config.models.Some? then config.models.value.providers else map[]);
  }

  /** `add_provider`. */
  method AddProvider(store: ConfigStore, id: string, provider: Provider) returns (r: Result<(), AppError>)
    requires store.Valid() && ProviderFits(provider)
    modifies store
    ensures store.Valid() && store.others == old(store.others)
    ensures old(Load(store.file)).Err? ==> r == Err(old(Load(store.file)).error) && store.file == old(store.file)
    ensures old(Load(store.file)).Ok? ==>
      r == Ok(()) && store.file == Some(Parsed(AddedProvider(old(Load(store.file)).value, id, provider)))
  {
    var read := store.ReadConfig();
    if read.Err? {
      return Err(read.error);
    }
    var config := read.value;
    ghost var c := config;
    if config.models.None? {
      config := config.(models := Some(ModelsConfig("merge", map[])));
    }
    var models := config.models.value;
    config := config.(models := Some(models.(providers := models.providers[id := provider])));
    MergeCovering(c, config);
    r := store.WriteConfig(config);
  }

  /** `update_provider`. */
  method UpdateProvider(store: ConfigStore, id: string, provider: Provider) returns (r: Result<(), AppError>)
    requires store.Valid() && ProviderFits(provider)
    modifies store
    ensures store.Valid() && store.others == old(store.others)
    ensures old(Load(store.file)).Err? ==> r == Err(old(Load(store.file)).error) && store.file == old(store.file)
    ensures old(Load(store.file)).Ok? ==>
      match UpdatedProvider(old(Load(store.file)).value, id, provider)
      case Err(e) => r == Err(e) && store.file == old(store.file)
      case Ok(None) => r == Ok(()) && store.file == old(store.file)
      case Ok(Some(written)) => r == Ok(()) && store.file == Some(Parsed(written))
  {
    var read := store.ReadConfig();
    if read.Err? {
      return Err(read.error);
    }
    var config := read.value;
    ghost var c := config;
    if config.models.Some? {
      var models := config.models.value;
      if id !in models.providers {
        return Err(InvalidProvider("Provider '" + id + "' not found"));
      }
      config := config.(models := Some(models.(providers := models.providers[id := provider])));
      MergeCovering(c, config);
      var w := store.WriteConfig(config);
      if w.Err? {
        return w;
      }
    }
    r := Ok(());
  }

  /** `delete_provider`. */
  method DeleteProvider(store: ConfigStore, id: string) returns (r: Result<(), AppError>)
    requires store.Valid()
    modifies store
    ensures store.Valid() && store.others == old(store.others)
    ensures old(Load(store.file)).Err? ==> r == Err(old(Load(store.file)).error) && store.file == old(store.file)
    ensures old(Load(store.file)).Ok? ==>
      r == Ok(()) &&
      match DeletedProvider(old(Load(store.file)).value, id)
      case None => store.file == old(store.file)
      case Some(written) => store.file == Some(Parsed(written))
  {
    var read := store.ReadConfig();
    if read.Err? {
      return Err(read.error);
    }
    var config := read.value;
    ghost var c := config;
    if config.models.Some? {
      var models := config.models.value;
      config := config.(models := Some(models.(providers := models.providers - {id})));
      MergeCovering(c, config);
      var w := store.WriteConfig(config);
      if w.Err? {
        return w;
      }
    }
    r := Ok(());
  }

  /** `get_agents_defaults`. */
  method GetAgentsDefaults(store: ConfigStore) returns (r: Result<Option<AgentsDefaults>, AppError>)
    requires store.Valid()
    ensures Load(store.file).Err? ==> r == Err(Load(store.file).error)
    ensures Load(store.file).Ok? ==> r == Ok(AgentsDefaultsOf(Load(store.file).value))
  {
    var read := store.ReadConfig();
    if read.Err? {
      return Err(read.error);
    }
    var config := read.value;
    r := Ok(if config.agents.Some? then Some(config.agents.value.defaults) else None);
  }

  /** `save_agents_defaults`. */
  method SaveAgentsDefaults(store: ConfigStore, defaults: AgentsDefaults) returns (r: Result<(), AppError>)
    requires store.Valid() && AgentsDefaultsFits(defaults)
    modifies store
    ensures store.Valid() && store.others == old(store.others)
    ensures old(Load(store.file)).Err? ==> r == Err(old(Load(store.file)).error) && store.file == old(store.file)
    ensures old(Load(store.file)).Ok? ==>
      r == Ok(()) && store.file == Some(Parsed(SavedAgentsDefaults(old(Load(store.file)).value, defaults)))
  {
    var read := store.ReadConfig();
    if read.Err? {
      return Err(read.error);
    }
    var config := read.value;
    ghost var c := config;
    if config.agents.None? {
      config := config.(agents := Some(AgentsConfig(DefaultAgentsDefaults())));
    }
    if config.agents.Some? {
      config := config.(agents := Some(config.agents.value.(defaults := defaults)));
    }
    MergeCovering(c, config);
    r := store.WriteConfig(config);
  }

  /** Saving the agent defaults and reading them back gives the saved record
      whenever the file could be read. */
  method SaveThenGetAgentsDefaults(store: ConfigStore, defaults: AgentsDefaults) returns (r: Result<Option<AgentsDefaults>, AppError>)
    requires store.Valid() && AgentsDefaultsFits(defaults)
    modifies store
    ensures old(Load(store.file)).Ok? ==> r == Ok(Some(defaults))
  {
    var saved := SaveAgentsDefaults(store, defaults);
    ghost var c := old(Load(store.file));
    if c.Ok? {
      SaveAgentsDefaultsEffect(c.value, defaults);
    }
    r := GetAgentsDefaults(store);
  }

  /** Adding a provider and listing the providers shows the new entry next to
      the ones that were there. */
  method AddThenGetProviders(store: ConfigStore, id: string, provider: Provider) returns (r: Result<map<string, Provider>, AppError>)
    requires store.Valid() && ProviderFits(provider)
    modifies store
    ensures old(Load(store.file)).Ok? ==> r == Ok(ProvidersOf(old(Load(store.file)).value)[id := provider])
  {
    var added := AddProvider(store, id, provider);
    ghost var c := old(Load(store.file));
    if c.Ok? {
      AddProviderEffect(c.value, id, provider);
    }
    r := GetProviders(store);
  }
}
