/** The agent-defaults forms of the frontend: the edit dialog of the main
    window and the agents panel. Each one fills a form from the stored record
    with `||` fallbacks, reads numbers with `parseInt(v) || default`, and turns
    the form back into the AgentsDefaults record sent to the backend. */
module AgentsForms {
  import opened Wrappers
  import opened Text
  import opened Domain
  import opened ConfigUtils

  /** `s || undefined`: an empty string becomes absent. */
  function Absent(s: string): Option<string> {
    if s == "" then None else Some(s)
  }

  /** `o || ''` for an optional string. */
  function TextOr(o: Option<string>): string {
    o.GetOr("")
  }

  /** `o || d` for an optional number: absent and 0 are falsy. */
  function NumberOr(o: Option<int>, d: int): int {
    if o.Some? && o.value != 0 then o.value else d
  }

  /** `parseInt(raw) || d`: an entry that does not parse, or parses to 0, gives `d`. */
  function NumericInput(raw: string, d: int): int {
    NumberOr(ParseInt(raw), d)
  }

  /** A number field never yields 0 when its default is not 0; the text a
      number field shows for any non-zero number, negative ones included,
      reads back as that number; 0 and an empty field give the default. */
  lemma NumericInputEffect(raw: string, n: int, d: int)
    ensures d != 0 ==> NumericInput(raw, d) != 0
    ensures n != 0 ==> NumericInput(ShowInt(n), d) == n
    ensures NumericInput(ShowInt(0), d) == d
    ensures NumericInput("", d) == d
  {
    ParseShowInt(n);
    ParseShowInt(0);
  }

  // ---------------------------------------------------------------------
  // Options of the model selects

  /** One entry of a model select. */
  datatype ModelOption = ModelOption(id: string, name: string)

  /** `{id: providerId/modelId, name: "name (providerId)"}`. */
  function OptionOf(a: AvailableModel): ModelOption {
    ModelOption(a.fullId, a.model.name + " (" + a.providerId + ")")
  }

  /** The options for a list of models, one each, in order. */
  function OptionsOf(xs: seq<AvailableModel>): seq<ModelOption> {
    if xs == [] then [] else OptionsOf(xs[..|xs| - 1]) + [OptionOf(xs[|xs| - 1])]
  }

  lemma {:induction false} OptionsOfLength(xs: seq<AvailableModel>)
    ensures |OptionsOf(xs)| == |xs|
  {
    if xs != [] {
      OptionsOfLength(xs[..|xs| - 1]);
    }
  }

  lemma {:induction false} OptionsOfAt(xs: seq<AvailableModel>, k: nat)
    requires k < |xs|
    ensures |OptionsOf(xs)| == |xs|
    ensures OptionsOf(xs)[k] == OptionOf(xs[k])
  {
    OptionsOfLength(xs);
    if k < |xs| - 1 {
      OptionsOfAt(xs[..|xs| - 1], k);
    }
  }

  /** `getAvailableModels` of the edit dialog, over the providers as
      `Object.entries` lists them. */
  method ModelOptions(entries: seq<(string, Provider)>) returns (options: seq<ModelOption>)
    ensures options == OptionsOf(Flatten(entries))
  {
    options := [];
    for i := 0 to |entries|
      invariant options == OptionsOf(Flatten(entries[..i]))
    {
      var (providerId, provider) := entries[i];
      assert entries[..i + 1][..i] == entries[..i];
      assert provider.models[..0] == [];
      assert Flatten(entries[..i]) + [] == Flatten(entries[..i]);
      for j := 0 to |provider.models|
        invariant options == OptionsOf(Flatten(entries[..i]) + Tagged(providerId, provider.models[..j]))
      {
        var model := provider.models[j];
        assert provider.models[..j + 1][..j] == provider.models[..j];
        ghost var prefix := Flatten(entries[..i]) + Tagged(providerId, provider.models[..j]);
        ghost var item := AvailableModel(GetModelId(providerId, model.id), providerId, model);
        assert Tagged(providerId, provider.models[..j + 1]) == Tagged(providerId, provider.models[..j]) + [item];
        assert Flatten(entries[..i]) + Tagged(providerId, provider.models[..j + 1]) == prefix + [item];
        assert (prefix + [item])[..|prefix|] == prefix;
        options := options + [ModelOption(providerId + "/" + model.id, model.name + " (" + providerId + ")")];
      }
      assert provider.models[..|provider.models|] == provider.models;
    }
    assert entries[..|entries|] == entries;
  }

  /** The panel's `getAvailableModels`: no options before the providers are loaded. */
  method PanelModelOptions(providers: Option<seq<(string, Provider)>>) returns (options: seq<ModelOption>)
    ensures providers.None? ==> options == []
    ensures providers.Some? ==> options == OptionsOf(Flatten(providers.value))
  {
    if providers.None? {
      return [];
    }
    options := ModelOptions(providers.value);
  }

  /** One option per model, in provider order and then model order: the
      option of model `j` of the provider at position `i` has the id
      `providerId/modelId` and the name `name (providerId)`. */
  lemma OptionsAt(entries: seq<(string, Provider)>, i: nat, j: nat)
    requires i < |entries| && j < |entries[i].1.models|
    ensures |OptionsOf(Flatten(entries))| == ModelCount(entries)
    ensures ModelCount(entries[..i]) + j < ModelCount(entries)
    ensures var m := entries[i].1.models[j];
      OptionsOf(Flatten(entries))[ModelCount(entries[..i]) + j]
        == ModelOption(GetModelId(entries[i].0, m.id), m.name + " (" + entries[i].0 + ")")
  {
    FlattenAt(entries, i, j);
    OptionsOfAt(Flatten(entries), ModelCount(entries[..i]) + j);
  }

  // ---------------------------------------------------------------------
  // The edit dialog of the main window

  datatype AgentsEditForm = AgentsEditForm(
    primary: string,
    fast: string,
    balanced: string,
    powerful: string,
    maxConcurrent: int,
    subagentsMaxConcurrent: int,
    cachingEnabled: bool,
    maxCacheSize: string,
    requestTimeout: int,
    idleTimeout: int,
    maxAttempts: int,
    workspace: string)

  /** The dialog's initial form: each field from the stored record, a missing
      or falsy value replaced by its default. */
  function AgentsEditInit(stored: Option<AgentsDefaults>): AgentsEditForm {
    var model := if stored.Some? then stored.value.model else None;
    var caching := if stored.Some? then stored.value.caching else None;
    var timeout := if stored.Some? then stored.value.timeout else None;
    var retry := if stored.Some? then stored.value.retry else None;
    var subagents := if stored.Some? then stored.value.subagents else None;
    AgentsEditForm(
      if model.Some? then model.value.primary else "",
      if model.Some? then TextOr(model.value.fast) else "",
      if model.Some? then TextOr(model.value.balanced) else "",
      if model.Some? then TextOr(model.value.powerful) else "",
      NumberOr(if stored.Some? then stored.value.maxConcurrent else None, 6),
      NumberOr(if subagents.Some? then Some(subagents.value.maxConcurrent) else None, 12),
      caching.Some? && caching.value.enabled,
      if caching.Some? && caching.value.maxCacheSize != "" then caching.value.maxCacheSize else "2GB",
      NumberOr(if timeout.Some? then Some(timeout.value.request) else None, 120000),
      NumberOr(if timeout.Some? then Some(timeout.value.idle) else None, 300000),
      NumberOr(if retry.Some? then Some(retry.value.maxAttempts) else None, 3),
      if stored.Some? then TextOr(stored.value.workspace) else "")
  }

  /** The dialog's `handleSubmit` payload. */
  function AgentsEditPayload(stored: Option<AgentsDefaults>, form: AgentsEditForm): AgentsDefaults {
    AgentsDefaults(
      Some(ModelConfig(form.primary, Absent(form.fast), Absent(form.balanced), Absent(form.powerful))),
      if stored.Some? then stored.value.models else map[],
      Absent(form.workspace),
      Some(form.maxConcurrent),
      Some(SubagentsConfig(form.subagentsMaxConcurrent)),
      Some(CachingConfig(form.cachingEnabled, form.maxCacheSize)),
      Some(TimeoutConfig(form.requestTimeout, form.idleTimeout)),
      Some(RetryConfig(form.maxAttempts, "exponential")),
      if stored.Some? then stored.value.compaction else None)
  }

  /** With nothing stored the dialog shows the defaults; a stored 0 is
      replaced by the default just like a missing value. */
  lemma AgentsEditDefaults(d: AgentsDefaults)
    ensures AgentsEditInit(None) == AgentsEditForm("", "", "", "", 6, 12, false, "2GB", 120000, 300000, 3, "")
    ensures d.maxConcurrent == Some(0) ==> AgentsEditInit(Some(d)).maxConcurrent == 6
    ensures d.subagents == Some(SubagentsConfig(0)) ==> AgentsEditInit(Some(d)).subagentsMaxConcurrent == 12
    ensures d.retry.Some? && d.retry.value.maxAttempts == 0 ==> AgentsEditInit(Some(d)).maxAttempts == 3
    ensures d.timeout.Some? && d.timeout.value.request == 0 ==> AgentsEditInit(Some(d)).requestTimeout == 120000
    ensures d.timeout.Some? && d.timeout.value.idle == 0 ==> AgentsEditInit(Some(d)).idleTimeout == 300000
    ensures d.caching.Some? && d.caching.value.maxCacheSize == "" ==> AgentsEditInit(Some(d)).maxCacheSize == "2GB"
  {
  }

  /** Whatever the form holds, the payload carries subagents, caching, timeout
      and retry, retries back off "exponential", empty references and an empty
      workspace are absent, and `models` and `compaction` are the stored ones. */
  lemma AgentsEditPayloadShape(stored: Option<AgentsDefaults>, form: AgentsEditForm)
    ensures var p := AgentsEditPayload(stored, form);
      && p.subagents.Some? && p.caching.Some? && p.timeout.Some? && p.retry.Some?
      && p.retry.value.backoff == "exponential"
      && (p.model.value.fast.None? <==> form.fast == "")
      && (p.model.value.balanced.None? <==> form.balanced == "")
      && (p.model.value.powerful.None? <==> form.powerful == "")
      && (p.workspace.None? <==> form.workspace == "")
      && p.models == (if stored.Some? then stored.value.models else map[])
      && p.compaction == (if stored.Some? then stored.value.compaction else None)
  {
  }

  /** The stored records the dialog writes back unchanged when it is saved
      untouched: every section the dialog always sends is present, no text is
      the empty string, no number is 0, and retries back off "exponential". */
  predicate EditDialogKeeps(d: AgentsDefaults) {
    && d.model.Some?
    && d.model.value.fast != Some("") && d.model.value.balanced != Some("") && d.model.value.powerful != Some("")
    && d.workspace != Some("")
    && d.maxConcurrent.Some? && d.maxConcurrent.value != 0
    && d.subagents.Some? && d.subagents.value.maxConcurrent != 0
    && d.caching.Some? && d.caching.value.maxCacheSize != ""
    && d.timeout.Some? && d.timeout.value.request != 0 && d.timeout.value.idle != 0
    && d.retry.Some? && d.retry.value.maxAttempts != 0 && d.retry.value.backoff == "exponential"
  }

  /** Opening the dialog on a stored record and saving it untouched gives the
      record back exactly when the record is one the dialog keeps. */
  lemma AgentsEditRoundTrip(d: AgentsDefaults)
    ensures AgentsEditPayload(Some(d), AgentsEditInit(Some(d))) == d <==> EditDialogKeeps(d)
  {
    var p := AgentsEditPayload(Some(d), AgentsEditInit(Some(d)));
    if EditDialogKeeps(d) {
      assert p.model == d.model;
      assert p.workspace == d.workspace;
      assert p.subagents == d.subagents;
      assert p.caching == d.caching;
      assert p.timeout == d.timeout;
      assert p.retry == d.retry;
    }
  }

  /** The dialog does not validate: a negative timeout typed in reaches the
      payload, passes every rule of `validateAgentsDefaults` when the primary
      model is set, and yet does not fit the unsigned field the backend
      decodes it into, so the backend refuses the record. */
  lemma NegativeTimeoutReachesBackend(stored: Option<AgentsDefaults>, form: AgentsEditForm)
    requires form.requestTimeout < 0
    requires !AllWhite(form.primary) && form.maxConcurrent >= 1 && form.subagentsMaxConcurrent >= 1
    ensures var p := AgentsEditPayload(stored, form);
      && Failures(AgentsChecks(p)) == []
      && !AgentsDefaultsFits(p)
  {
    AgentsErrorsMeaning(AgentsEditPayload(stored, form));
  }

  // ---------------------------------------------------------------------
  // The agents panel

  datatype PanelForm = PanelForm(
    primary: string,
    fast: string,
    balanced: string,
    powerful: string,
    maxConcurrent: int,
    subagentMaxConcurrent: int)

  /** The panel's form before anything is loaded. */
  function PanelInitial(): PanelForm {
    PanelForm("", "", "", "", 6, 12)
  }

  /** The loading effect: nothing happens until a record is loaded; then every
      field is taken from it, a missing or falsy value replaced by its default. */
  function PanelLoad(form: PanelForm, agents: Option<AgentsDefaults>): PanelForm {
    if agents.None? then form
    else
      var d := agents.value;
      PanelForm(
        if d.model.Some? then d.model.value.primary else "",
        if d.model.Some? then TextOr(d.model.value.fast) else "",
        if d.model.Some? then TextOr(d.model.value.balanced) else "",
        if d.model.Some? then TextOr(d.model.value.powerful) else "",
        NumberOr(d.maxConcurrent, 6),
        NumberOr(if d.subagents.Some? then Some(d.subagents.value.maxConcurrent) else None, 12))
  }

  /** The panel's `handleSave` payload: the form's references and limits,
      everything else as loaded. */
  function PanelPayload(agents: Option<AgentsDefaults>, form: PanelForm): AgentsDefaults {
    AgentsDefaults(
      Some(ModelConfig(form.primary, Absent(form.fast), Absent(form.balanced), Absent(form.powerful))),
      if agents.Some? then agents.value.models else map[],
      if agents.Some? then agents.value.workspace else None,
      Some(form.maxConcurrent),
      Some(SubagentsConfig(form.subagentMaxConcurrent)),
      if agents.Some? then agents.value.caching else None,
      if agents.Some? then agents.value.timeout else None,
      if agents.Some? then agents.value.retry else None,
      if agents.Some? then agents.value.compaction else None)
  }

  /** The fields the panel does not show are saved as loaded, whatever the
      form holds; empty references are absent; the primary model is sent as
      typed, even empty, in which case the record fails the primary rule of
      `validateAgentsDefaults`. */
  lemma PanelPayloadKeepsHidden(d: AgentsDefaults, form: PanelForm)
    ensures var p := PanelPayload(Some(d), form);
      && p.models == d.models && p.workspace == d.workspace && p.caching == d.caching
      && p.timeout == d.timeout && p.retry == d.retry && p.compaction == d.compaction
      && p.model.value.primary == form.primary
      && (p.model.value.fast.None? <==> form.fast == "")
      && (p.model.value.balanced.None? <==> form.balanced == "")
      && (p.model.value.powerful.None? <==> form.powerful == "")
      && (form.primary == "" ==> PRIMARY_REQUIRED in Failures(AgentsChecks(p)))
  {
    AgentsErrorsMeaning(PanelPayload(Some(d), form));
  }

  /** The records the panel writes back unchanged when saved untouched. */
  predicate PanelKeeps(d: AgentsDefaults) {
    && d.model.Some?
    && d.model.value.fast != Some("") && d.model.value.balanced != Some("") && d.model.value.powerful != Some("")
    && d.maxConcurrent.Some? && d.maxConcurrent.value != 0
    && d.subagents.Some? && d.subagents.value.maxConcurrent != 0
  }

  /** Loading a record into any form and saving it untouched gives the record
      back exactly when the record is one the panel keeps; a missing or 0
      limit comes back as 6 or 12. */
  lemma PanelRoundTrip(form: PanelForm, d: AgentsDefaults)
    ensures PanelPayload(Some(d), PanelLoad(form, Some(d))) == d <==> PanelKeeps(d)
    ensures (d.maxConcurrent.None? || d.maxConcurrent == Some(0)) ==>
      PanelPayload(Some(d), PanelLoad(form, Some(d))).maxConcurrent == Some(6)
    ensures (d.subagents.None? || d.subagents == Some(SubagentsConfig(0))) ==>
      PanelPayload(Some(d), PanelLoad(form, Some(d))).subagents == Some(SubagentsConfig(12))
  {
    var p := PanelPayload(Some(d), PanelLoad(form, Some(d)));
    if PanelKeeps(d) {
      assert p.model == d.model;
      assert p.subagents == d.subagents;
    }
  }
}
