# claw-config data layer in Dafny

claw-config is a desktop editor for one `openclaw.json` file. The file holds
model-provider entries (`models.providers`) and one agents-defaults record
(`agents.defaults`), next to seven other top-level sections the editor does
not touch. This project models the logic under the editor's screens:

- `configUtils` of the frontend: composing and parsing `providerId/modelId`
  references, the api-key check, the provider display name, grouping models
  by tier, flattening every provider's models, and the two validators
  (`config_utils.dfy`, over the JavaScript string built-ins in `text.dfy`);
- the backend's configuration service: reading, writing with the
  section-wise merge, and restoring (`config_service.dfy`, a class over the
  stored file);
- the backend commands on providers and agent defaults (`commands.dfy`),
  each a method that reads the stored configuration, changes one part and
  writes it back;
- the record shapes of the file and the closed string sets of the frontend
  (`domain.dfy`), and the built-in catalog of provider presets
  (`presets.dfy`);
- the form code that builds the records the frontend sends: the provider
  forms (`provider_forms.dfy`) and the agent-defaults forms
  (`agents_forms.dfy`).

The file on disk is one stored value, `Option<Content>`: absent, a decoded
configuration, or text the decoder refuses. JSON encoding and decoding are
treated as the identity. JSON numbers are unbounded `int`s. The Rust field
widths (u16, u32, u64, and usize on a 64-bit target) are the predicate
`Domain.ConfigFits`, which every decoded configuration satisfies and every
write must keep. `Object.entries(providers)` becomes a sequence of
`(id, provider)` pairs in enumeration order.

The code is followed where it differs from what one might expect:
- a model whose tier is not one of the three names gets a bucket of its own
  rather than going to `other`;
- adding a provider under an existing id silently replaces it;
- deleting an absent id succeeds and changes nothing;
- the display name looks only at the first model;
- the provider validator accepts the placeholder key `YOUR_API_KEY_HERE`.

## Model

| member | source | states |
|---|---|---|
| Text.TrimStartSpec | src/lib/api.ts:114 | `trim` drops exactly the leading white space (the JavaScript white-space and line-terminator set): the result is a suffix, everything dropped is white space, and the result does not start with white space |
| Text.TrimEndSpec | src/lib/api.ts:114 | the same for the trailing white space: a prefix, the dropped part white, no white space at the end |
| Text.BlankIffAllWhite | src/lib/api.ts:114-116 | `s.trim() === ''` holds exactly when every character of `s` is white space |
| Text.TrimAppendWhite | src/lib/api.ts:63-64 | trimming `x + w` with `w` all white space is trimming `x` |
| Text.JoinSplit | src/lib/api.ts:40-44 | `split` then `join` on the same separator gives the string back |
| Text.SplitAtFirst | src/lib/api.ts:40-44 | the first piece of `split` is the text before the first separator, and the other pieces rejoined are the text after it |
| Text.ParseShowInt | src/App.tsx:696 | `parseInt` of the decimal text of any integer, negative ones included, is that integer |
| Domain.ParseTier | src/types/index.ts:34 | a tier string reads back to a tier only when it is that tier's name |
| Domain.ClosedNameSets | src/types/index.ts:14-34 | `ApiType` is exactly the three protocol names, one per api type; `ModelTier` is exactly "fast", "balanced", "powerful", and each name reads back to its tier |
| Presets.MaterializeRoundTrip | src/components/providers/AddProviderModal.tsx:34-37 | a preset model turned into a stored model keeps every field and gains the zero cost: removing the cost gives the preset model back |
| Presets.PresetIds | src/types/index.ts:169-228 | the id list is as long as the catalog and holds each preset's id at its position |
| Presets.CatalogIds | src/types/index.ts:169-228 | five presets with distinct ids, in the order anthropic, openai, ollama, glm, kimi |
| Presets.CatalogWellFormed | src/types/index.ts:169-228 | every preset has three models with distinct ids, each with a tier; an editable endpoint exactly when a non-empty default endpoint is given, which is exactly ollama, glm and kimi |
| ConfigUtils.ParseModelIdAtFirstSlash | src/lib/api.ts:39-51 | `parseModelId` splits at the first '/'; a string without '/', "" included, is a model of the provider "unknown" |
| ConfigUtils.ParseGetModelId | src/lib/api.ts:36-51 | composing then parsing gives the pair back when the provider id has no '/', even when the model id has some |
| ConfigUtils.GetParseModelId | src/lib/api.ts:36-51 | parsing then composing gives back every string that contains '/', and the parsed provider id has no '/' |
| ConfigUtils.HasApiKeyOfAbsentKey | src/lib/api.ts:54-56 | as written, a provider stored without any key is reported as having one |
| ConfigUtils.HasUsableApiKeyCorrects | src/lib/api.ts:54-56 | the intended check is false for an absent key and agrees with the written one whenever a key is present; a key of spaces counts as present |
| ConfigUtils.IndexOfFrom | src/lib/api.ts:63 | the first position at or after `from` holding the character, or none when there is no such position |
| ConfigUtils.WhiteRunStart | src/lib/api.ts:63 | where the run of white space just before a position starts: everything from there up to the position is white space and the character before it is not |
| ConfigUtils.NameMatchEndIsLeastMatch | src/lib/api.ts:63 | the scan finds exactly what `/^(.+?)\s*\(/` captures: the least group end for which the pattern matches (at least one character, no line terminator, then white space and '('), and no match when no group end works |
| ConfigUtils.DisplayNameFromFirstModel | src/lib/api.ts:59-67 | only the first model is consulted; take the first '(' after its first character and the start of the white space just before it (at least position 1): with no line break before that start, the name is the text before the '(' trimmed (a line break inside that white space is allowed, since `\s` takes it, so "a\n(b)" gives "a"); with a line break before it, with no such '(', no first model or an empty name, the id with its first character upper-cased ("" stays "") |
| ConfigUtils.Bucket | src/lib/api.ts:78-84 | a bucket is no longer than the input and holds only input models with that tier key |
| ConfigUtils.GroupModelsByTier | src/lib/api.ts:70-87 | the keys are fast, balanced, powerful, other and every tier key met; each bucket is the input models with that key, in input order |
| ConfigUtils.BucketCounts | src/lib/api.ts:78-84 | stable partition: each model occurs in the bucket of its own tier key as often as in the input, and in no other bucket |
| ConfigUtils.BucketOfConcat | src/lib/api.ts:78-84 | buckets keep input order: the bucket of a concatenation is the concatenation of the buckets |
| ConfigUtils.BucketSizesSum | src/lib/api.ts:70-87 | over the keys of the grouping, however enumerated, the bucket sizes add up to the number of input models |
| ConfigUtils.TierBucketOf | src/lib/api.ts:79-83 | an absent or empty tier goes to "other"; any other tier string is a key of its own holding the model, which is then not in "other" |
| ConfigUtils.Tagged | src/lib/api.ts:98-104 | one tagged entry per model of the provider |
| ConfigUtils.GetAllAvailableModels | src/lib/api.ts:90-108 | the nested loops build exactly the flattened list: every provider's models tagged with their composite id, providers in enumeration order, models in stored order |
| ConfigUtils.FlattenAt | src/lib/api.ts:90-108 | the list is as long as the providers' model counts together, and model `j` of provider `i` sits right after the models of the providers before it, with fullId `providerId/modelId` |
| ConfigUtils.FlattenedIdsParse | src/lib/api.ts:36-51 | every flattened fullId parses back to its provider and model id when the provider id has no '/' |
| ConfigUtils.Failures | src/lib/api.ts:112-133 | a validator reports at most one message per rule |
| ConfigUtils.ValidateProvider | src/lib/api.ts:111-134 | every rule runs and the failed rules' messages are collected in rule order; valid exactly when none failed |
| ConfigUtils.ProviderErrorsMeaning | src/lib/api.ts:111-134 | at most four messages; each one exactly when its field is missing or only white space (or the model list is empty); the placeholder key is accepted |
| ConfigUtils.MessagesDistinct | src/lib/api.ts:115-149 | the seven validation messages are pairwise different |
| ConfigUtils.ValidateAgentsDefaults | src/lib/api.ts:137-156 | every rule runs, messages in rule order; valid exactly when none failed |
| ConfigUtils.AgentsErrorsMeaning | src/lib/api.ts:137-156 | at most three messages; the primary model is required and not only white space; an absent limit is never an error, a present one exactly when below 1; valid exactly when all three hold |
| ConfigService.DefaultHasNoSection | src-tauri/src/models.rs:247-260 | the default configuration has no section, and it is the only configuration without any |
| ConfigService.MergeIdentities | src-tauri/src/service.rs:61-73 | the default is neutral on both sides of the merge, and merging a configuration with itself gives it back |
| ConfigService.MergeSections | src-tauri/src/service.rs:61-73 | a section is in the merge exactly when it is on either side, so a write never removes a section; each of the nine sections present in the written configuration is taken from it |
| ConfigService.MergeCovering | src-tauri/src/service.rs:43-56 | a write stores the written configuration exactly when it has every section already on disk |
| ConfigService.MergeAssociative | src-tauri/src/service.rs:61-73 | two writes in a row store what one write of their merge would |
| ConfigService.MergeFits | src-tauri/src/service.rs:61-73 | the merge of two configurations whose numbers fit their fields fits them |
| ConfigService.Load | src-tauri/src/service.rs:26-35 | a missing file reads as the default configuration; reading fails exactly when the file cannot be decoded; otherwise it gives the decoded configuration |
| ConfigService.ConfigStore.constructor | src-tauri/src/service.rs:8-20 | the service over a given disk state: the content at the configuration path (or none) and the other paths, each decodable content fitting the field widths |
| ConfigService.ConfigStore.ReadConfig | src-tauri/src/service.rs:26-35 | `read_config` gives what the stored file decodes to, and a decoded configuration fits the field widths |
| ConfigService.ConfigStore.WriteConfig | src-tauri/src/service.rs:37-59 | an undecodable file is an error and nothing is written; otherwise the file holds the merge of what was read (the default for a missing file) and the written configuration; other paths are untouched |
| ConfigService.ConfigStore.RestoreConfig | src-tauri/src/service.rs:93-102 | a missing backup path is `FileNotFound` with that path and nothing changes; otherwise the configuration file takes the backup's content |
| ConfigService.WriteThenRead | src-tauri/src/service.rs:26-59 | a read after a write gives the merge of what was on disk and what was written; on a missing file, exactly what was written |
| Commands.DefaultAgentsDefaultsPlaceholder | src-tauri/src/commands.rs:189-208 | the placeholder record fits the field widths and would fail validation only on its empty primary model |
| Commands.AddProviderEffect | src-tauri/src/commands.rs:56-68 | the entry is set, silently replacing an existing one; every other entry stays; the mode is kept, or "merge" for a new section; every other section stays |
| Commands.UpdateProviderEffect | src-tauri/src/commands.rs:80-90 | no models section: nothing to write; unknown id: `InvalidProvider("Provider '<id>' not found")`; else the ids stay the same, only that entry changes, mode and other sections stay |
| Commands.DeleteProviderEffect | src-tauri/src/commands.rs:101-108 | no models section: nothing to write; else exactly the id is removed, an absent id leaves the map as it was, mode and other sections stay |
| Commands.SaveAgentsDefaultsEffect | src-tauri/src/commands.rs:130-142 | the defaults are replaced wholesale, so reading them back gives exactly the saved record; every other section stays |
| Commands.GetProviders | src-tauri/src/commands.rs:35-45 | a read error is passed on; otherwise the stored providers map, empty without a models section |
| Commands.AddProvider | src-tauri/src/commands.rs:49-69 | a read error is passed on with nothing written; otherwise the file holds the configuration with the entry added (the models section created with mode "merge" when missing) |
| Commands.UpdateProvider | src-tauri/src/commands.rs:73-91 | a read error or an unknown id is returned with nothing written; no models section is Ok with nothing written; otherwise the file holds the updated configuration |
| Commands.DeleteProvider | src-tauri/src/commands.rs:95-109 | a read error is returned with nothing written; no models section is Ok with nothing written; otherwise the file holds the configuration without the id |
| Commands.GetAgentsDefaults | src-tauri/src/commands.rs:113-120 | a read error is passed on; otherwise the stored defaults, absent without an agents section |
| Commands.SaveAgentsDefaults | src-tauri/src/commands.rs:124-143 | a read error is passed on with nothing written; otherwise the file holds the configuration with the defaults replaced (the agents section created around the placeholder when missing) |
| Commands.SaveThenGetAgentsDefaults | src-tauri/src/commands.rs:113-143 | saving then reading the defaults gives the saved record whenever the file could be read |
| Commands.AddThenGetProviders | src-tauri/src/commands.rs:35-69 | adding then listing shows the new entry next to the ones that were there |
| ProviderForms.FindPreset | src/components/providers/AddProviderModal.tsx:22 | `find` gives the first preset with the id, and nothing exactly when no preset has it |
| ProviderForms.MaterializeAllKeeps | src/components/providers/AddProviderModal.tsx:34-37 | the stored models are the preset's models in the same order, each with its preset fields and a zero cost |
| ProviderForms.AddProviderForm.constructor | src/components/providers/AddProviderModal.tsx:17-20 | every field starts empty |
| ProviderForms.AddProviderForm.SelectPreset | src/components/providers/AddProviderModal.tsx:55-66 | the choice is recorded; it is copied into the id only while no id was typed; the base URL takes the preset's endpoint only when it has a non-empty one; the key is untouched |
| ProviderForms.SubmissionContents | src/components/providers/AddProviderModal.tsx:22-38 | the typed id, else the selected preset's; the first preset when none matches; the typed URL, else the preset's endpoint, else ""; the key as typed; the preset's api type; the preset's models in order with zero cost |
| ProviderForms.CatalogSubmissionValidation | src/components/providers/AddProviderModal.tsx:24-38 | a submission from well-formed presets never fails the api-type or models rule; it fails the key rule exactly when the typed key is only white space, and the URL rule exactly when its URL is |
| ProviderForms.ChooseOllamaAndSubmit | src/components/providers/AddProviderModal.tsx:24-66 | choosing "ollama" in a fresh form and submitting adds "ollama" at the local endpoint, with api "ollama-chat", the empty key, and the three catalog models |
| ProviderForms.EditSubmitEffect | src/components/providers/EditProviderModal.tsx:17-27 | saving the untouched form changes nothing; the URL comes from the form; the key is replaced only by a non-empty typed key; api and models are kept |
| ProviderForms.AppEditSubmitEffect | src/App.tsx:386-398 | an emptied key field removes the key; saving untouched gives the provider back exactly unless its stored key is "", which becomes absent; only URL and key change |
| ProviderForms.AddSubmitEffect | src/App.tsx:450-522 | a blank id saves nothing; otherwise the untrimmed id and a provider without models, an empty key absent, which always fails the models rule; none of the offered api values is a protocol name of the catalog |
| AgentsForms.NumericInputEffect | src/App.tsx:696-779 | the fallback of `parseInt(v)` to the default `d` never gives 0 for a non-zero default; any non-zero number, negative ones included, reads back as typed; 0 and an empty field give the default |
| AgentsForms.OptionsOfAt | src/App.tsx:553-564 | one option per model, each built from the model at the same position |
| AgentsForms.ModelOptions | src/App.tsx:553-564 | the nested loops build exactly the options of the flattened model list |
| AgentsForms.OptionsAt | src/App.tsx:553-564 | the option of model `j` of provider `i` sits after the models of the earlier providers, with id `providerId/modelId` and name `name (providerId)` |
| AgentsForms.PanelModelOptions | src/components/agents/AgentsConfigPanel.tsx:37-50 | no options before the providers are loaded; afterwards the same options as the edit dialog |
| AgentsForms.AgentsEditDefaults | src/App.tsx:568-581 | with nothing stored the dialog shows 6, 12, caching off, "2GB", 120000, 300000, 3 and empty texts; a stored 0 (both limits, both timeouts, the attempts) or an empty cache size is replaced by its default |
| AgentsForms.AgentsEditPayloadShape | src/App.tsx:583-611 | the payload always carries subagents, caching, timeout and retry with backoff "exponential"; empty fast, balanced and powerful references and an empty workspace are absent; models and compaction are the stored ones |
| AgentsForms.AgentsEditRoundTrip | src/App.tsx:568-611 | opening the dialog on a record and saving it untouched gives the record back exactly when no field is lost or replaced by the fallbacks |
| AgentsForms.NegativeTimeoutReachesBackend | src/App.tsx:583-611 | a negative timeout typed in passes the agents validator yet does not fit the backend's unsigned field |
| AgentsForms.PanelPayloadKeepsHidden | src/components/agents/AgentsConfigPanel.tsx:52-71 | the fields the panel does not show are saved as loaded; empty fast, balanced and powerful references are absent; the primary model is sent as typed, and an empty one fails the primary rule |
| AgentsForms.PanelRoundTrip | src/components/agents/AgentsConfigPanel.tsx:23-71 | loading a record and saving it untouched gives it back exactly when nothing is lost to the fallbacks; a missing or 0 limit comes back as 6 or 12 |

## Left out

- Reading and writing the disk (`read_to_string`, `fs::write`, `create_dir_all`, `fs::copy`) and their I/O errors (`ReadError`, `WriteError`): the file is one stored value and these failures are not modelled.
- Numbers as the frontend holds them: JavaScript numbers are IEEE doubles, so a u64 or usize value above 2^53 (a timeout, `contextWindow`, `maxTokens`) is rounded when a form sends a stored record back (the edit forms spread the stored provider); the model's numbers are unbounded integers and keep such values exactly.
- `ConfigService::new`: the home directory lookup and its `ConfigPathNotFound` error are not modelled; the store is built over a given disk state.
- JSON encoding and decoding: treated as the identity, and a decode failure is the abstract `Garbled` content. `SerializeError` is therefore never produced.
- serde defaults on decoding (`reasoning` false, `models` an empty map): a decoded record always carries these fields, so the model has no missing-field case.
- The `Mutex` around the service and its lock-failure error: this is concurrency.
- `backup_config`: it names the backup file after the clock. Restoring reads any other path, given as `ConfigStore.others`.
- ConfigService.ConfigStore.RestoreConfig: restoring from the configuration path itself is not modelled, because the configuration file is kept apart from the other paths.
- `get_config`, `save_config`, `get_config_path` and `config_exists`: thin wrappers over `read_config`, `write_config` and the path.
- The Tauri `invoke` calls, the command registration, the React Query hooks, JSX rendering, `alert`, `confirm` and `console`: foreign calls and presentation.
- Typing into a text field: it is plain assignment of the field, so only the initial states, the preset choice and the submissions are modelled.
- Text.ToUpper: only ASCII letters are upper-cased; the rest of the Unicode case mapping is not modelled.
- Text.ParseInt: the decimal case only; `parseInt` reads a string starting with "0x" as hexadecimal, which is not modelled (a number field never holds one).
- The regular expression engine: `getProviderDisplayName` is a scan for the first '(' that is proved to give the lazy match.
- `Object.entries` order: a sequence in enumeration order is given as input; the engine's rule that integer-like keys come first is not modelled.
- ConfigUtils.GroupModelsByTier: a tier string naming an `Object.prototype` member (such as "toString") makes the JavaScript call fail or misbehave; the model gives it a bucket like any other string.
- `ModelCost` values and the compaction `threshold` are floating-point values in the source; they are `real` here and only the zero cost matters.

## Findings

| source | as written | input that shows it | evidently intended | confidence | as-written member | corrected member |
|---|---|---|---|---|---|---|
| src/lib/api.ts:54-56 | `hasApiKey` compares the key with '' and the placeholder only, so an absent key (`undefined`, which the backend's optional `apiKey` allows) is reported as present | a provider stored without `apiKey` | an absent key is reported as missing, as for "" | not executed | ConfigUtils.HasApiKeyOfAbsentKey | ConfigUtils.HasUsableApiKeyCorrects |
