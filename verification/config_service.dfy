/** The backend's configuration service: the file is one stored value that a
    read decodes and a write replaces by the section-wise merge of what was
    there and what is written. */
module ConfigService {
  import opened Wrappers
  import opened Domain

  /** The backend's error enum; the details are the messages the library gave. */
  datatype AppError =
    | ConfigPathNotFound
    | ConfigNotFound
    | ReadError(detail: string)
    | ParseError(detail: string)
    | SerializeError(detail: string)
    | WriteError(detail: string)
    | FileNotFound(path: string)
    | InvalidProvider(message: string)
    | Io(message: string)

  /** What a file holds: a configuration the decoder accepts, or text it
      refuses (with the decoder's message). */
  datatype Content = Parsed(config: Config) | Garbled(detail: string)

  /** Rust `Option::or`: `preferred` when present, else `fallback`. */
  function Or<T>(preferred: Option<T>, fallback: Option<T>): Option<T> {
    if preferred.Some? then preferred else fallback
  }

  /** `merge_configs`: each top-level section from `incoming` when present there,
      else from `existing`. */
  function MergeConfigs(existing: Config, incoming: Config): Config {
    Config(
      Or(incoming.meta, existing.meta),
      Or(incoming.wizard, existing.wizard),
      Or(incoming.models, existing.models),
      Or(incoming.agents, existing.agents),
      Or(incoming.auth, existing.auth),
      Or(incoming.messages, existing.messages),
      Or(incoming.commands, existing.commands),
      Or(incoming.gateway, existing.gateway),
      Or(incoming.skills, existing.skills))
  }

  /** The nine top-level sections of the file. */
  datatype SectionName = Meta | Wizard | Models | Agents | Auth | Messages | Commands | Gateway | Skills

  /** Whether section `name` is present in `c`. */
  predicate Present(c: Config, name: SectionName) {
    match name
    case Meta => c.meta.Some?
    case Wizard => c.wizard.Some?
    case Models => c.models.Some?
    case Agents => c.agents.Some?
    case Auth => c.auth.Some?
    case Messages => c.messages.Some?
    case Commands => c.commands.Some?
    case Gateway => c.gateway.Some?
    case Skills => c.skills.Some?
  }

  /** The default configuration is the one configuration without any section. */
  lemma DefaultHasNoSection(c: Config)
    ensures forall name :: !Present(DefaultConfig(), name)
    ensures (forall name :: !Present(c, name)) ==> c == DefaultConfig()
  {
    if forall name :: !Present(c, name) {
      assert !Present(c, Meta) && !Present(c, Wizard) && !Present(c, Models);
      assert !Present(c, Agents) && !Present(c, Auth) && !Present(c, Messages);
      assert !Present(c, Commands) && !Present(c, Gateway) && !Present(c, Skills);
    }
  }

  /** The default is neutral on both sides and merging is idempotent. */
  lemma MergeIdentities(c: Config)
    ensures MergeConfigs(DefaultConfig(), c) == c
    ensures MergeConfigs(c, DefaultConfig()) == c
    ensures MergeConfigs(c, c) == c
  {
  }

  /** Merging never drops a section: a section is in the merge exactly when it
      is on either side, and the sections `incoming` has are taken from it. */
  lemma MergeSections(existing: Config, incoming: Config)
    ensures forall name :: Present(MergeConfigs(existing, incoming), name) <==> Present(existing, name) || Present(incoming, name)
    ensures incoming.meta.Some? ==> MergeConfigs(existing, incoming).meta == incoming.meta
    ensures incoming.wizard.Some? ==> MergeConfigs(existing, incoming).wizard == incoming.wizard
    ensures incoming.models.Some? ==> MergeConfigs(existing, incoming).models == incoming.models
    ensures incoming.agents.Some? ==> MergeConfigs(existing, incoming).agents == incoming.agents
    ensures incoming.auth.Some? ==> MergeConfigs(existing, incoming).auth == incoming.auth
    ensures incoming.messages.Some? ==> MergeConfigs(existing, incoming).messages == incoming.messages
    ensures incoming.commands.Some? ==> MergeConfigs(existing, incoming).commands == incoming.commands
    ensures incoming.gateway.Some? ==> MergeConfigs(existing, incoming).gateway == incoming.gateway
    ensures incoming.skills.Some? ==> MergeConfigs(existing, incoming).skills == incoming.skills
  {
  }

  /** Rust `Option::or` returns its first argument exactly when that one is
      present or the fallback is absent. */
  lemma OrKeepsPreferred<T>(preferred: Option<T>, fallback: Option<T>)
    ensures Or(preferred, fallback) == preferred <==> (fallback.Some? ==> preferred.Some?)
  {
  }

  /** Every section of `existing` is present in `incoming`, section by section. */
  lemma CoveringBySection(existing: Config, incoming: Config)
    ensures (forall name :: Present(existing, name) ==> Present(incoming, name)) <==>
      && (existing.meta.Some? ==> incoming.meta.Some?)
      && (existing.wizard.Some? ==> incoming.wizard.Some?)
      && (existing.models.Some? ==> incoming.models.Some?)
      && (existing.agents.Some? ==> incoming.agents.Some?)
      && (existing.auth.Some? ==> incoming.auth.Some?)
      && (existing.messages.Some? ==> incoming.messages.Some?)
      && (existing.commands.Some? ==> incoming.commands.Some?)
      && (existing.gateway.Some? ==> incoming.gateway.Some?)
      && (existing.skills.Some? ==> incoming.skills.Some?)
  {
    if forall name :: Present(existing, name) ==> Present(incoming, name) {
      assert Present(existing, Meta) ==> Present(incoming, Meta);
      assert Present(existing, Wizard) ==> Present(incoming, Wizard);
      assert Present(existing, Models) ==> Present(incoming, Models);
      assert Present(existing, Agents) ==> Present(incoming, Agents);
      assert Present(existing, Auth) ==> Present(incoming, Auth);
      assert Present(existing, Messages) ==> Present(incoming, Messages);
      assert Present(existing, Commands) ==> Present(incoming, Commands);
      assert Present(existing, Gateway) ==> Present(incoming, Gateway);
      assert Present(existing, Skills) ==> Present(incoming, Skills);
    }
  }

  /** Writing a configuration that has every section already on disk stores
      it exactly; otherwise what is stored differs from it. */
  lemma MergeCovering(existing: Config, incoming: Config)
    ensures MergeConfigs(existing, incoming) == incoming
        <==> forall name :: Present(existing, name) ==> Present(incoming, name)
  {
    CoveringBySection(existing, incoming);
    OrKeepsPreferred(incoming.meta, existing.meta);
    OrKeepsPreferred(incoming.wizard, existing.wizard);
    OrKeepsPreferred(incoming.models, existing.models);
    OrKeepsPreferred(incoming.agents, existing.agents);
    OrKeepsPreferred(incoming.auth, existing.auth);
    OrKeepsPreferred(incoming.messages, existing.messages);
    OrKeepsPreferred(incoming.commands, existing.commands);
    OrKeepsPreferred(incoming.gateway, existing.gateway);
    OrKeepsPreferred(incoming.skills, existing.skills);
  }

  /** Merging is associative: two writes in a row store what one write of
      their merge would. */
  lemma MergeAssociative(a: Config, b: Config, c: Config)
    ensures MergeConfigs(MergeConfigs(a, b), c) == MergeConfigs(a, MergeConfigs(b, c))
  {
  }

  /** The merge of two configurations that fit the field widths fits them. */
  lemma MergeFits(existing: Config, incoming: Config)
    requires ConfigFits(existing) && ConfigFits(incoming)
    ensures ConfigFits(MergeConfigs(existing, incoming))
  {
  }

  /** A stored content the decoder can produce: its numbers fit their fields. */
  predicate ContentFits(c: Content) {
    c.Parsed? ==> ConfigFits(c.config)
  }

  /** What `read_config` gives for a file: the default configuration for a
      missing file, the decoded one, or the decoder's error. */
  function Load(file: Option<Content>): (r: Result<Config, AppError>)
    ensures file.None? ==> r == Ok(DefaultConfig())
    ensures r.Err? <==> file.Some? && file.value.Garbled?
    ensures r.Ok? && file.Some? ==> file == Some(Parsed(r.value))
  {
    match file
    case None => Ok(DefaultConfig())
    case Some(Parsed(c)) => Ok(c)
    case Some(Garbled(detail)) => Err(ParseError(detail))
  }

  /** `ConfigService`: the configuration file and the other files a backup
      can be restored from. */
  class ConfigStore {
    /** The content at the configuration path; None when no file is there. */
    var file: Option<Content>
    /** The content of the other paths on disk, by path. */
    var others: map<string, Content>

    ghost predicate Valid()
      reads this
    {
      && (file.Some? ==> ContentFits(file.value))
      && (forall path :: path in others ==> ContentFits(others[path]))
    }

    constructor (initial: Option<Content>, disk: map<string, Content>)
      requires initial.Some? ==> ContentFits(initial.value)
      requires forall path :: path in disk ==> ContentFits(disk[path])
      ensures Valid()
      ensures file == initial && others == disk
    {
      file := initial;
      others := disk;
    }

    /** `read_config`. */
    method ReadConfig() returns (r: Result<Config, AppError>)
      requires Valid()
      ensures r == Load(file)
      ensures r.Ok? ==> ConfigFits(r.value)
    {
      if file.None? {
        return Ok(DefaultConfig());
      }
      match file.value
      case Parsed(c) =>
        r := Ok(c);
      case Garbled(detail) =>
        r := Err(ParseError(detail));
    }

    /** `write_config`: re-read what is on disk (the default when nothing is),
        fail without writing when that cannot be decoded, otherwise store the
        merge of it and `config`. */
    method WriteConfig(config: Config) returns (r: Result<(), AppError>)
      requires Valid() && ConfigFits(config)
      modifies this
      ensures Valid()
      ensures others == old(others)
      ensures old(Load(file)).Err? ==> r == Err(old(Load(file)).error) && file == old(file)
      ensures old(Load(file)).Ok? ==>
        r == Ok(()) && file == Some(Parsed(MergeConfigs(old(Load(file)).value, config)))
    {
      var existing: Config;
      if file.Some? {
        var read := ReadConfig();
        if read.Err? {
          return Err(read.error);
        }
        existing := read.value;
      } else {
        existing := DefaultConfig();
      }
      var merged := MergeConfigs(existing, config);
      MergeFits(existing, config);
      file := Some(Parsed(merged));
      r := Ok(());
    }

    /** `restore_config`: a missing backup path is `FileNotFound`; otherwise the
        configuration file takes the backup's content. */
    method RestoreConfig(backupPath: string) returns (r: Result<(), AppError>)
      requires Valid()
      modifies this
      ensures Valid()
      ensures others == old(others)
      ensures backupPath !in others ==> r == Err(FileNotFound(backupPath)) && file == old(file)
      ensures backupPath in others ==> r == Ok(()) && file == Some(others[backupPath])
    {
      if backupPath !in others {
        return Err(FileNotFound(backupPath));
      }
      file := Some(others[backupPath]);
      r := Ok(());
    }
  }

  /** A write followed by a read gives back the merge of what was on disk and
      what was written; on a missing file, exactly what was written. */
  method WriteThenRead(store: ConfigStore, config: Config) returns (r: Result<Config, AppError>)
    requires store.Valid() && ConfigFits(config)
    modifies store
    ensures old(store.file).None? ==> r == Ok(config)
    ensures old(Load(store.file)).Ok? ==> r == Ok(MergeConfigs(old(Load(store.file)).value, config))
    ensures old(Load(store.file)).Err? ==> r == old(Load(store.file))
  {
    var w := store.WriteConfig(config);
    MergeIdentities(config);
    r := store.ReadConfig();
  }
}
