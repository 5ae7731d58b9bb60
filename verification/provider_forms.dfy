/** The provider forms of the frontend: the preset-based "add provider"
    form, the two "edit provider" forms and the plain "add provider" form of
    the main window. Each one turns form fields into the Provider record sent
    to the backend. */
module ProviderForms {
  import opened Wrappers
  import opened Text
  import opened Domain
  import opened Presets
  import opened ConfigUtils

  /** `presets.find(p => p.id === id)`. */
  function FindPreset(presets: seq<ProviderPreset>, id: string): (r: Option<ProviderPreset>)
    ensures r.None? <==> forall j :: 0 <= j < |presets| ==> presets[j].id != id
    ensures r.Some? ==> r.value.id == id && r.value == presets[FirstWithId(presets, id)]
  {
    if presets == [] then None
    else if presets[0].id == id then Some(presets[0])
    else FindPreset(presets[1..], id)
  }

  /** Position of the first preset with the given id, when there is one. */
  ghost function FirstWithId(presets: seq<ProviderPreset>, id: string): (i: nat)
    requires exists j :: 0 <= j < |presets| && presets[j].id == id
    ensures i < |presets| && presets[i].id == id
    ensures forall j :: 0 <= j < i ==> presets[j].id != id
  {
    if presets[0].id == id then 0
    else
      assert exists j :: 0 <= j < |presets[1..]| && presets[1..][j].id == id by {
        var j :| 0 <= j < |presets| && presets[j].id == id;
        assert presets[1..][j - 1] == presets[j];
      }
      1 + FirstWithId(presets[1..], id)
  }

  /** A JavaScript string is truthy exactly when it is not empty. */
  predicate Truthy(s: string) {
    s != ""
  }

  /** The endpoint a preset offers when it has a non-empty one (`preset?.defaultEndpoint` truthy). */
  function OfferedEndpoint(p: Option<ProviderPreset>): Option<string> {
    if p.Some? && p.value.defaultEndpoint.Some? && Truthy(p.value.defaultEndpoint.value)
    then p.value.defaultEndpoint else None
  }

  /** `preset.models.map(m => ({...m, cost: {input: 0, output: 0}}))`. */
  function MaterializeAll(ms: seq<PresetModel>): (r: seq<ModelInfo>)
    ensures |r| == |ms|
  {
    if ms == [] then [] else [Materialize(ms[0])] + MaterializeAll(ms[1..])
  }

  /** The stored models are the catalog models in the same order, each with
      its catalog fields and a zero cost. */
  lemma {:induction false} MaterializeAllKeeps(ms: seq<PresetModel>)
    ensures forall i :: 0 <= i < |ms| ==>
      WithoutCost(MaterializeAll(ms)[i]) == ms[i] && MaterializeAll(ms)[i].cost == ZERO_COST
  {
    if ms != [] {
      MaterializeAllKeeps(ms[1..]);
      MaterializeRoundTrip(ms[0]);
      forall i | 1 <= i < |ms| ensures MaterializeAll(ms)[i] == MaterializeAll(ms[1..])[i - 1] {
      }
    }
  }

  /** The state of the preset-based "add provider" form. */
  class AddProviderForm {
    const presets: seq<ProviderPreset>
    var selectedPreset: string
    var customId: string
    var apiKey: string
    var baseUrl: string

    /** Every field starts empty. */
    constructor (catalog: seq<ProviderPreset>)
      ensures presets == catalog
      ensures selectedPreset == "" && customId == "" && apiKey == "" && baseUrl == ""
    {
      presets := catalog;
      selectedPreset := "";
      customId := "";
      apiKey := "";
      baseUrl := "";
    }

    /** The preset select's `onChange`: record the choice, copy it into the id
        only while no id was typed, and take the preset's endpoint when it has one. */
    method SelectPreset(value: string)
      modifies this
      ensures selectedPreset == value
      ensures customId == if Truthy(old(customId)) then old(customId) else value
      ensures baseUrl == if Truthy(value) && OfferedEndpoint(FindPreset(presets, value)).Some?
                         then OfferedEndpoint(FindPreset(presets, value)).value else old(baseUrl)
      ensures apiKey == old(apiKey)
    {
      selectedPreset := value;
      if !Truthy(customId) {
        customId := value;
      }
      if Truthy(value) {
        var preset := FindPreset(presets, value);
        if preset.Some? && preset.value.defaultEndpoint.Some? && Truthy(preset.value.defaultEndpoint.value) {
          baseUrl := preset.value.defaultEndpoint.value;
        }
      }
    }

    /** The preset the submission is built from: the selected one, else the first. */
    function ChosenPreset(): ProviderPreset
      reads this
      requires |presets| > 0
    {
      var found := FindPreset(presets, selectedPreset);
      if found.Some? then found.value else presets[0]
    }

    /** `handleSubmit`: the id and the provider sent to the backend. */
    function Submission(): (r: (string, Provider))
      reads this
      requires |presets| > 0
    {
      var id := if Truthy(customId) then customId else selectedPreset;
      var preset := ChosenPreset();
      var endpoint := if preset.defaultEndpoint.Some? then preset.defaultEndpoint.value else "";
      var provider := Provider(
        if Truthy(baseUrl) then baseUrl else if Truthy(endpoint) then endpoint else "",
        Some(apiKey),
        ApiTypeName(preset.apiType),
        MaterializeAll(preset.models));
      (id, provider)
    }
  }

  /** What the submission holds: the typed id, else the selected preset's id;
      the typed base URL, else the preset's endpoint, else ""; the key as typed
      (no trimming, no placeholder check); the preset's api type; and the
      preset's models in order, each with a zero cost. */
  lemma SubmissionContents(form: AddProviderForm)
    requires |form.presets| > 0
    ensures var (id, p) := form.Submission();
      var preset := form.ChosenPreset();
      && id == (if form.customId != "" then form.customId else form.selectedPreset)
      && (FindPreset(form.presets, form.selectedPreset).None? ==> preset == form.presets[0])
      && (form.baseUrl != "" ==> p.baseUrl == form.baseUrl)
      && (form.baseUrl == "" && preset.defaultEndpoint.Some? ==> p.baseUrl == preset.defaultEndpoint.value)
      && (form.baseUrl == "" && preset.defaultEndpoint.None? ==> p.baseUrl == "")
      && p.apiKey == Some(form.apiKey)
      && p.api == ApiTypeName(preset.apiType)
      && |p.models| == |preset.models|
      && (forall i :: 0 <= i < |p.models| ==> WithoutCost(p.models[i]) == preset.models[i] && p.models[i].cost == ZERO_COST)
  {
    MaterializeAllKeeps(form.ChosenPreset().models);
  }

  /** Every protocol name starts with a letter, so none is blank. */
  lemma ApiTypeNameNotBlank(a: ApiType)
    ensures !AllWhite(ApiTypeName(a))
  {
    assert !IsWhiteSpace(ApiTypeName(a)[0]);
  }

  /** A submission built from a catalog of well-formed presets (such as the
      built-in one) never fails the api-type or the models rule of
      `validateProvider`; it fails the key rule exactly when the typed key is
      only white space, and the base-URL rule exactly when the URL it carries is. */
  lemma CatalogSubmissionValidation(form: AddProviderForm)
    requires |form.presets| > 0
    requires forall i :: 0 <= i < |form.presets| ==> WellFormedPreset(form.presets[i])
    ensures var p := form.Submission().1;
      var errors := Failures(ProviderChecks(p));
      && API_TYPE_REQUIRED !in errors
      && MODELS_REQUIRED !in errors
      && (API_KEY_REQUIRED in errors <==> AllWhite(form.apiKey))
      && (BASE_URL_REQUIRED in errors <==> AllWhite(p.baseUrl))
  {
    var preset := form.ChosenPreset();
    assert WellFormedPreset(preset) by {
      var found := FindPreset(form.presets, form.selectedPreset);
      if found.Some? {
        assert preset == form.presets[FirstWithId(form.presets, form.selectedPreset)];
      } else {
        assert preset == form.presets[0];
      }
    }
    var p := form.Submission().1;
    ProviderErrorsMeaning(p);
    ApiTypeNameNotBlank(preset.apiType);
  }

  /** The catalog facts the "ollama" choice relies on. */
  lemma OllamaInCatalog()
    ensures FindPreset(ProviderPresets(), "ollama") == Some(Ollama())
    ensures OfferedEndpoint(Some(Ollama())) == Some("http://localhost:11434")
    ensures Ollama().defaultEndpoint == Some("http://localhost:11434")
    ensures ApiTypeName(Ollama().apiType) == "ollama-chat"
    ensures |MaterializeAll(Ollama().models)| == 3 && MaterializeAll(Ollama().models)[0].id == "llama3.2"
  {
    assert ProviderPresets()[1..][1..][0] == Ollama();
  }

  /** Choosing "ollama" in a fresh form and submitting it adds the provider
      "ollama" at the local endpoint with the three catalog models. */
  method ChooseOllamaAndSubmit() returns (id: string, provider: Provider)
    ensures id == "ollama"
    ensures provider.baseUrl == "http://localhost:11434"
    ensures provider.api == "ollama-chat" && provider.apiKey == Some("")
    ensures |provider.models| == 3 && provider.models[0].id == "llama3.2"
  {
    OllamaInCatalog();
    var form := new AddProviderForm(ProviderPresets());
    form.SelectPreset("ollama");
    assert form.ChosenPreset() == Ollama();
    id, provider := form.Submission().0, form.Submission().1;
  }

  // ---------------------------------------------------------------------
  // Editing an existing provider

  /** The fields of an edit form. */
  datatype EditForm = EditForm(apiKey: string, baseUrl: string)

  /** The standalone edit form starts with an empty key and the current URL. */
  function EditFormInit(p: Provider): EditForm {
    EditForm("", p.baseUrl)
  }

  /** `{...provider, baseUrl, apiKey: apiKey || provider.apiKey}`. */
  function EditSubmit(p: Provider, form: EditForm): Provider {
    p.(baseUrl := form.baseUrl, apiKey := if Truthy(form.apiKey) then Some(form.apiKey) else p.apiKey)
  }

  /** Saving the untouched form changes nothing; in general the URL comes from
      the form, the key is replaced only by a non-empty typed key, and the api
      and models are kept. */
  lemma EditSubmitEffect(p: Provider, form: EditForm)
    ensures EditSubmit(p, EditFormInit(p)) == p
    ensures EditSubmit(p, form).baseUrl == form.baseUrl
    ensures EditSubmit(p, form).apiKey == if form.apiKey == "" then p.apiKey else Some(form.apiKey)
    ensures EditSubmit(p, form).api == p.api && EditSubmit(p, form).models == p.models
  {
  }

  /** The main window's edit form starts from the current key (`apiKey || ''`). */
  function AppEditInit(p: Provider): EditForm {
    EditForm(p.apiKey.GetOr(""), p.baseUrl)
  }

  /** `{...provider, baseUrl, apiKey: formData.apiKey || undefined}`. */
  function AppEditSubmit(p: Provider, form: EditForm): Provider {
    p.(baseUrl := form.baseUrl, apiKey := if Truthy(form.apiKey) then Some(form.apiKey) else None)
  }

  /** In the main window's edit form an emptied key field removes the key
      instead of keeping it; saving the untouched form gives the provider back
      exactly unless its stored key is "", which becomes absent. */
  lemma AppEditSubmitEffect(p: Provider, form: EditForm)
    ensures AppEditSubmit(p, AppEditInit(p)) == p <==> p.apiKey != Some("")
    ensures AppEditSubmit(p, form).apiKey.None? <==> form.apiKey == ""
    ensures AppEditSubmit(p, form).(baseUrl := p.baseUrl, apiKey := p.apiKey) == p
  {
    if p.apiKey == Some("") {
      assert AppEditSubmit(p, AppEditInit(p)).apiKey.None?;
    }
  }

  // ---------------------------------------------------------------------
  // The main window's plain "add provider" form

  datatype AddForm = AddForm(id: string, baseUrl: string, apiKey: string, api: string)

  /** The form's initial state: the "openai" option is selected. */
  function AddFormInitial(): AddForm {
    AddForm("", "", "", "openai")
  }

  /** The values the api select offers. */
  const API_OPTIONS: seq<string> := ["openai", "anthropic", "openrouter"]

  /** `handleSubmit`: nothing is saved for an id that is blank after trimming;
      otherwise the untrimmed id and a provider without models. */
  function AddSubmit(form: AddForm): Option<(string, Provider)> {
    if IsBlank(form.id) then None
    else Some((form.id, Provider(form.baseUrl, if Truthy(form.apiKey) then Some(form.apiKey) else None, form.api, [])))
  }

  /** A blank id saves nothing; otherwise the id is kept untrimmed, an empty
      key becomes absent, and the provider has no model, so it always fails
      the models rule of `validateProvider`. None of the offered api values is
      one of the three protocol names of the preset catalog. */
  lemma AddSubmitEffect(form: AddForm)
    ensures AddSubmit(form).None? <==> AllWhite(form.id)
    ensures AddSubmit(form).Some? ==>
      var (id, p) := AddSubmit(form).value;
      && id == form.id
      && p == Provider(form.baseUrl, if form.apiKey == "" then None else Some(form.apiKey), form.api, [])
      && MODELS_REQUIRED in Failures(ProviderChecks(p))
    ensures forall i, a :: 0 <= i < |API_OPTIONS| ==> API_OPTIONS[i] != ApiTypeName(a)
  {
    BlankIffAllWhite(form.id);
    if AddSubmit(form).Some? {
      ProviderErrorsMeaning(AddSubmit(form).value.1);
    }
  }
}
