/** The frontend's configuration utilities (`configUtils`): composite model
    references, the api-key check, the provider display name, grouping models
    by tier, flattening every provider's models, and the two validators. */
module ConfigUtils {
  import opened Wrappers
  import opened Text
  import opened Domain

  // ---------------------------------------------------------------------
  // Composite model references "providerId/modelId"

  datatype ModelRef = ModelRef(providerId: string, modelId: string)

  /** `getModelId`. */
  function GetModelId(providerId: string, modelId: string): string {
    providerId + "/" + modelId
  }

  /** `parseModelId`: split on '/', the first piece is the provider and the
      other pieces rejoined with '/' are the model; a single piece falls back
      to the provider "unknown". */
  function ParseModelId(fullModelId: string): ModelRef {
    var parts := Split(fullModelId, '/');
    if |parts| >= 2 then ModelRef(parts[0], Join(parts[1..], '/'))
    else ModelRef("unknown", fullModelId)
  }

  /** Parsing splits at the first '/', and a string without '/' (including "")
      is a model of the provider "unknown". */
  lemma ParseModelIdAtFirstSlash(s: string)
    ensures '/' !in s ==> ParseModelId(s) == ModelRef("unknown", s)
    ensures '/' in s ==>
      var i := IndexOf(s, '/').value;
      ParseModelId(s) == ModelRef(s[..i], s[i + 1..])
  {
    SplitAtFirst(s, '/');
  }

  /** Composing then parsing gives the pair back whenever the provider id has
      no '/', even when the model id has some. */
  lemma ParseGetModelId(providerId: string, modelId: string)
    requires '/' !in providerId
    ensures ParseModelId(GetModelId(providerId, modelId)) == ModelRef(providerId, modelId)
  {
    var s := GetModelId(providerId, modelId);
    assert s == providerId + ['/'] + modelId;
    IndexOfAfterPrefix(providerId, '/', modelId);
    ParseModelIdAtFirstSlash(s);
    assert s[..|providerId|] == providerId;
    assert s[|providerId| + 1..] == modelId;
  }

  /** Parsing then composing gives back any string that contains '/'; the
      parsed provider id never contains '/'. */
  lemma GetParseModelId(s: string)
    requires '/' in s
    ensures var r := ParseModelId(s); GetModelId(r.providerId, r.modelId) == s && '/' !in r.providerId
  {
    ParseModelIdAtFirstSlash(s);
    var i := IndexOf(s, '/').value;
    assert s == s[..i] + [s[i]] + s[i + 1..];
  }

  // ---------------------------------------------------------------------
  // API key presence

  const API_KEY_PLACEHOLDER: string := "YOUR_API_KEY_HERE"

  /** `hasApiKey` as written: `apiKey !== '' && apiKey !== 'YOUR_API_KEY_HERE'`.
      An absent key is `undefined`, which is different from both strings. */
  predicate HasApiKey(p: Provider) {
    p.apiKey != Some("") && p.apiKey != Some(API_KEY_PLACEHOLDER)
  }

  /** As written, a provider stored without any key is reported as having one. */
  lemma HasApiKeyOfAbsentKey(p: Provider)
    requires p.apiKey.None?
    ensures HasApiKey(p)
  {
  }

  /** The check as intended: a key is present, non-empty and not the placeholder. */
  predicate HasUsableApiKey(p: Provider) {
    p.apiKey.Some? && p.apiKey.value != "" && p.apiKey.value != API_KEY_PLACEHOLDER
  }

  /** The intended check says "no key" for an absent key, and agrees with the
      check as written whenever a key is present; in particular a key of
      spaces counts as present (no trimming). */
  lemma HasUsableApiKeyCorrects(p: Provider)
    ensures p.apiKey.None? ==> !HasUsableApiKey(p)
    ensures p.apiKey.Some? ==> (HasUsableApiKey(p) <==> HasApiKey(p))
    ensures p.apiKey == Some(" ") ==> HasUsableApiKey(p)
  {
  }

  // ---------------------------------------------------------------------
  // Display name: /^(.+?)\s*\(/ on the first model's name

  /** First position at or after `from` holding `c`. */
  function IndexOfFrom(s: string, c: char, from: nat): (r: Option<nat>)
    requires from <= |s|
    ensures r.None? ==> forall j :: from <= j < |s| ==> s[j] != c
    ensures r.Some? ==> from <= r.value < |s| && s[r.value] == c
    ensures r.Some? ==> forall j :: from <= j < r.value ==> s[j] != c
    decreases |s| - from
  {
    if from == |s| then None
    else if s[from] == c then Some(from)
    else IndexOfFrom(s, c, from + 1)
  }

  /** Start of the run of white space that ends just before position `p`. */
  function WhiteRunStart(s: string, p: nat): (w: nat)
    requires p <= |s|
    ensures w <= p
    ensures forall j :: w <= j < p ==> IsWhiteSpace(s[j])
    ensures w > 0 ==> !IsWhiteSpace(s[w - 1])
  {
    if p > 0 && IsWhiteSpace(s[p - 1]) then WhiteRunStart(s, p - 1) else p
  }

  /** Where the lazy group `(.+?)` of /^(.+?)\s*\(/ ends when the pattern
      matches `s`: found by scanning for the first '(' after the first
      character and backing over the white space before it. */
  function NameMatchEnd(s: string): Option<nat> {
    if |s| == 0 then None
    else match IndexOfFrom(s, '(', 1)
      case None => None
      case Some(p) =>
        var w := WhiteRunStart(s, p);
        var k := if w == 0 then 1 else w;
        if forall j :: 0 <= j < k ==> !IsLineTerminator(s[j]) then Some(k) else None
  }

  /** After position `k` come only white space and then '('. */
  ghost predicate ParenAfterWhite(s: string, k: int) {
    exists j :: 0 <= k <= j < |s| && s[j] == '(' && forall i :: k <= i < j ==> IsWhiteSpace(s[i])
  }

  /** The pattern matches with the group `(.+?)` covering `s[..k]`: at least one
      character, none a line terminator (what `.` refuses), then `\s*\(`. */
  ghost predicate LazyMatchAt(s: string, k: int) {
    && 1 <= k <= |s|
    && (forall i :: 0 <= i < k ==> !IsLineTerminator(s[i]))
    && ParenAfterWhite(s, k)
  }

  /** The scan finds exactly the regular expression's match: the least group
      end for which the pattern matches, and none when no group end works. */
  lemma NameMatchEndIsLeastMatch(s: string)
    ensures NameMatchEnd(s).Some? ==>
      && LazyMatchAt(s, NameMatchEnd(s).value)
      && forall k :: 1 <= k < NameMatchEnd(s).value ==> !LazyMatchAt(s, k)
    ensures NameMatchEnd(s).None? ==> forall k :: !LazyMatchAt(s, k)
  {
    if |s| > 0 {
      match IndexOfFrom(s, '(', 1)
      case None =>
      case Some(p) =>
        var w := WhiteRunStart(s, p);
        var k := if w == 0 then 1 else w;
        assert ParenAfterWhite(s, k) by {
          assert k <= p < |s| && s[p] == '(' && forall i :: k <= i < p ==> IsWhiteSpace(s[i]);
        }
        // a smaller group end would need s[w - 1] or s[p] to be white space
        assert !IsWhiteSpace(s[p]);
        if w > 0 {
          assert !IsWhiteSpace(s[w - 1]);
          assert forall k' :: 1 <= k' < k ==> !ParenAfterWhite(s, k');
        }
        if !(forall j :: 0 <= j < k ==> !IsLineTerminator(s[j])) {
          var t :| 0 <= t < k && IsLineTerminator(s[t]);
          assert forall k' :: k <= k' ==> !LazyMatchAt(s, k');
        }
    }
  }

  /** `getProviderDisplayName`: the captured group of the first model's name,
      trimmed; otherwise the id with its first character upper-cased. */
  function GetProviderDisplayName(id: string, p: Provider): string {
    if |p.models| > 0 && p.models[0].name != "" then
      match NameMatchEnd(p.models[0].name)
      case Some(k) => Trim(p.models[0].name[..k])
      case None => UpperFirst(id)
    else UpperFirst(id)
  }

  /** Only the first model is consulted. Let `q` be the first '(' after the
      first character of its name, and `k` the start of the white space just
      before `q` (at least 1). When no line break comes before `k` (line breaks
      in that white space are allowed, since `\s` takes them), the display name
      is the text before `q` trimmed; when one does, or when there is no such
      '(', no first model or an empty name, it is the id with its first
      character upper-cased (so "" stays ""). */
  lemma DisplayNameFromFirstModel(id: string, p: Provider)
    ensures |p.models| == 0 || p.models[0].name == "" ==> GetProviderDisplayName(id, p) == UpperFirst(id)
    ensures |p.models| > 0 && p.models[0].name != "" ==>
      var name := p.models[0].name;
      match IndexOfFrom(name, '(', 1)
      case None => GetProviderDisplayName(id, p) == UpperFirst(id)
      case Some(q) =>
        var w := WhiteRunStart(name, q);
        var k := if w == 0 then 1 else w;
        && ((forall j :: 0 <= j < k ==> !IsLineTerminator(name[j])) ==>
              GetProviderDisplayName(id, p) == Trim(name[..q]))
        && ((exists j :: 0 <= j < k && IsLineTerminator(name[j])) ==>
              GetProviderDisplayName(id, p) == UpperFirst(id))
    ensures UpperFirst("") == ""
  {
    if |p.models| > 0 && p.models[0].name != "" {
      var name := p.models[0].name;
      match IndexOfFrom(name, '(', 1)
      case None =>
      case Some(q) =>
        var w := WhiteRunStart(name, q);
        var k := if w == 0 then 1 else w;
        if forall j :: 0 <= j < k ==> !IsLineTerminator(name[j]) {
          assert NameMatchEnd(name) == Some(k);
          assert name[..q] == name[..k] + name[k..q];
          assert AllWhite(name[k..q]) by {
            forall i | 0 <= i < q - k ensures IsWhiteSpace(name[k..q][i]) {
              assert name[k..q][i] == name[k + i];
            }
          }
          TrimAppendWhite(name[..k], name[k..q]);
        } else {
          assert NameMatchEnd(name).None?;
        }
    }
  }

  // ---------------------------------------------------------------------
  // Grouping by tier

  const FIXED_TIER_KEYS: set<string> := {"fast", "balanced", "powerful", "other"}

  /** `model.tier || 'other'`: an absent or empty tier is "other", any other
      string is its own key. */
  function TierKey(m: ModelInfo): string {
    if m.tier.None? || m.tier.value == "" then "other" else m.tier.value
  }

  /** The models whose tier key is `key`, in input order. */
  function Bucket(models: seq<ModelInfo>, key: string): (b: seq<ModelInfo>)
    ensures |b| <= |models|
    ensures forall x :: x in b ==> x in models && TierKey(x) == key
  {
    if models == [] then []
    else
      var last := models[|models| - 1];
      Bucket(models[..|models| - 1], key) + (if TierKey(last) == key then [last] else [])
  }

  /** The keys of the grouping: the four fixed ones and every tier key met. */
  function TierKeys(models: seq<ModelInfo>): set<string> {
    FIXED_TIER_KEYS + (set m | m in models :: TierKey(m))
  }

  lemma BucketOfUnusedKey(models: seq<ModelInfo>, key: string)
    requires key !in TierKeys(models)
    ensures Bucket(models, key) == []
  {
  }

  /** One more model extends its own bucket and adds its key. */
  lemma GroupStep(models: seq<ModelInfo>, i: nat)
    requires i < |models|
    ensures models[..i + 1] == models[..i] + [models[i]]
    ensures TierKeys(models[..i + 1]) == TierKeys(models[..i]) + {TierKey(models[i])}
    ensures forall key ::
      Bucket(models[..i + 1], key) == Bucket(models[..i], key) + (if TierKey(models[i]) == key then [models[i]] else [])
  {
    assert models[..i + 1][..i] == models[..i];
    assert models[..i + 1] == models[..i] + [models[i]];
  }

  lemma GroupInsert(models: seq<ModelInfo>, i: nat, before: map<string, seq<ModelInfo>>, after: map<string, seq<ModelInfo>>)
    requires i < |models|
    requires before.Keys == TierKeys(models[..i])
    requires forall key :: key in before ==> before[key] == Bucket(models[..i], key)
    requires var tier := TierKey(models[i]);
      after == before[tier := (if tier in before then before[tier] else []) + [models[i]]]
    ensures after.Keys == TierKeys(models[..i + 1])
    ensures forall key :: key in after ==> after[key] == Bucket(models[..i + 1], key)
  {
    var tier := TierKey(models[i]);
    GroupStep(models, i);
    if tier !in before {
      BucketOfUnusedKey(models[..i], tier);
    }
    forall key | key in after
      ensures after[key] == Bucket(models[..i + 1], key)
    {
      if key != tier {
        assert after[key] == before[key];
      }
    }
  }

  /** The grouping starts with the four fixed keys and empty buckets. */
  lemma GroupStart(models: seq<ModelInfo>, groups: map<string, seq<ModelInfo>>)
    requires groups == map["fast" := [], "balanced" := [], "powerful" := [], "other" := []]
    ensures groups.Keys == TierKeys(models[..0])
    ensures forall key :: key in groups ==> groups[key] == Bucket(models[..0], key)
  {
    assert models[..0] == [];
  }

  /** `groupModelsByTier`. */
  method GroupModelsByTier(models: seq<ModelInfo>) returns (groups: map<string, seq<ModelInfo>>)
    ensures groups.Keys == TierKeys(models)
    ensures forall key :: key in groups ==> groups[key] == Bucket(models, key)
  {
    groups := map["fast" := [], "balanced" := [], "powerful" := [], "other" := []];
    GroupStart(models, groups);
    for i := 0 to |models|
      invariant groups.Keys == TierKeys(models[..i])
      invariant forall key :: key in groups ==> groups[key] == Bucket(models[..i], key)
    {
      var model := models[i];
      var tier := TierKey(model);
      ghost var before := groups;
      if tier !in groups {
        groups := groups[tier := []];
      }
      groups := groups[tier := groups[tier] + [model]];
      GroupInsert(models, i, before, groups);
    }
    assert models[..|models|] == models;
  }

  /** The stable partition: each model occurs in the bucket of its own tier
      key exactly as often as in the input, and in no other bucket. */
  lemma {:induction false} BucketCounts(models: seq<ModelInfo>, key: string, x: ModelInfo)
    ensures multiset(Bucket(models, key))[x] == if TierKey(x) == key then multiset(models)[x] else 0
  {
    if models != [] {
      var init := models[..|models| - 1];
      BucketCounts(init, key, x);
      assert models == init + [models[|models| - 1]];
    }
  }

  /** Buckets keep input order: the bucket of a concatenation is the
      concatenation of the buckets. */
  lemma {:induction false} BucketOfConcat(a: seq<ModelInfo>, b: seq<ModelInfo>, key: string)
    ensures Bucket(a + b, key) == Bucket(a, key) + Bucket(b, key)
  {
    if b == [] {
      assert a + b == a;
    } else {
      var init := b[..|b| - 1];
      assert (a + b)[..|a + b| - 1] == a + init;
      BucketOfConcat(a, init, key);
    }
  }

  /** Sum of the bucket sizes over a list of keys. */
  function BucketSizes(models: seq<ModelInfo>, keys: seq<string>): nat {
    if keys == [] then 0 else |Bucket(models, keys[0])| + BucketSizes(models, keys[1..])
  }

  lemma {:induction false} BucketSizesAppend(models: seq<ModelInfo>, m: ModelInfo, keys: seq<string>)
    requires forall i, j :: 0 <= i < j < |keys| ==> keys[i] != keys[j]
    ensures BucketSizes(models + [m], keys) == BucketSizes(models, keys) + (if TierKey(m) in keys then 1 else 0)
  {
    if keys != [] {
      assert (models + [m])[..|models + [m]| - 1] == models;
      BucketSizesAppend(models, m, keys[1..]);
      if TierKey(m) == keys[0] {
        assert TierKey(m) !in keys[1..];
      }
    }
  }

  /** However the keys of the grouping are enumerated, the bucket sizes add
      up to the number of input models. */
  lemma {:induction false} BucketSizesSum(models: seq<ModelInfo>, keys: seq<string>)
    requires forall i, j :: 0 <= i < j < |keys| ==> keys[i] != keys[j]
    requires forall m :: m in models ==> TierKey(m) in keys
    ensures BucketSizes(models, keys) == |models|
  {
    if models == [] {
      BucketSizesEmpty(keys);
    } else {
      var init := models[..|models| - 1];
      var m := models[|models| - 1];
      assert models == init + [m];
      BucketSizesSum(init, keys);
      BucketSizesAppend(init, m, keys);
    }
  }

  lemma {:induction false} BucketSizesEmpty(keys: seq<string>)
    ensures BucketSizes([], keys) == 0
  {
    if keys != [] {
      BucketSizesEmpty(keys[1..]);
    }
  }

  /** A model without a tier, or with an empty one, is grouped under "other";
      a model with any other tier string is grouped under that string, which
      becomes a key of its own, and not under "other". */
  lemma TierBucketOf(models: seq<ModelInfo>, i: nat)
    requires i < |models|
    ensures var m := models[i];
      && (m.tier.None? || m.tier == Some("") ==> m in Bucket(models, "other"))
      && (m.tier.Some? && m.tier.value != "" ==>
            m.tier.value in TierKeys(models) && m in Bucket(models, m.tier.value)
            && (m.tier.value != "other" ==> m !in Bucket(models, "other")))
  {
    var m := models[i];
    BucketCounts(models, TierKey(m), m);
    assert m in multiset(models);
  }

  // ---------------------------------------------------------------------
  // All models of all providers

  /** One entry of `getAllAvailableModels`. */
  datatype AvailableModel = AvailableModel(fullId: string, providerId: string, model: ModelInfo)

  /** A provider's models, each tagged with its composite id. */
  function Tagged(providerId: string, models: seq<ModelInfo>): (r: seq<AvailableModel>)
    ensures |r| == |models|
  {
    if models == [] then []
    else
      var m := models[|models| - 1];
      Tagged(providerId, models[..|models| - 1]) + [AvailableModel(GetModelId(providerId, m.id), providerId, m)]
  }

  /** Every provider's tagged models, providers in enumeration order
      (`Object.entries`), models in stored order. */
  function Flatten(entries: seq<(string, Provider)>): seq<AvailableModel> {
    if entries == [] then []
    else
      var e := entries[|entries| - 1];
      Flatten(entries[..|entries| - 1]) + Tagged(e.0, e.1.models)
  }

  /** Total number of models over the providers. */
  function ModelCount(entries: seq<(string, Provider)>): nat {
    if entries == [] then 0
    else ModelCount(entries[..|entries| - 1]) + |entries[|entries| - 1].1.models|
  }

  /** `getAllAvailableModels`, over the providers as `Object.entries` lists them. */
  method GetAllAvailableModels(entries: seq<(string, Provider)>) returns (models: seq<AvailableModel>)
    ensures models == Flatten(entries)
  {
    models := [];
    for i := 0 to |entries|
      invariant models == Flatten(entries[..i])
    {
      var (providerId, provider) := entries[i];
      assert entries[..i + 1][..i] == entries[..i];
      for j := 0 to |provider.models|
        invariant models == Flatten(entries[..i]) + Tagged(providerId, provider.models[..j])
      {
        var model := provider.models[j];
        assert provider.models[..j + 1][..j] == provider.models[..j];
        models := models + [AvailableModel(providerId + "/" + model.id, providerId, model)];
      }
      assert provider.models[..|provider.models|] == provider.models;
    }
    assert entries[..|entries|] == entries;
  }

  lemma {:induction false} FlattenLength(entries: seq<(string, Provider)>)
    ensures |Flatten(entries)| == ModelCount(entries)
  {
    if entries != [] {
      FlattenLength(entries[..|entries| - 1]);
    }
  }

  lemma {:induction false} TaggedAt(providerId: string, models: seq<ModelInfo>, j: nat)
    requires j < |models|
    ensures Tagged(providerId, models)[j] == AvailableModel(GetModelId(providerId, models[j].id), providerId, models[j])
  {
    var init := models[..|models| - 1];
    if j < |init| {
      TaggedAt(providerId, init, j);
    }
  }

  lemma {:induction false} ModelCountPrefix(entries: seq<(string, Provider)>, i: nat)
    requires i < |entries|
    ensures ModelCount(entries[..i]) + |entries[i].1.models| <= ModelCount(entries)
  {
    var init := entries[..|entries| - 1];
    if i < |init| {
      ModelCountPrefix(init, i);
      assert init[..i] == entries[..i];
    } else {
      assert entries[..i] == init;
    }
  }

  /** Order and content of the flattened list: model `j` of the provider at
      position `i` sits right after the models of the providers before it,
      tagged with that provider's id and its composite id; the list is as
      long as all providers' model counts together. */
  lemma {:induction false} FlattenAt(entries: seq<(string, Provider)>, i: nat, j: nat)
    requires i < |entries| && j < |entries[i].1.models|
    ensures |Flatten(entries)| == ModelCount(entries)
    ensures ModelCount(entries[..i]) + j < |Flatten(entries)|
    ensures Flatten(entries)[ModelCount(entries[..i]) + j]
         == AvailableModel(GetModelId(entries[i].0, entries[i].1.models[j].id), entries[i].0, entries[i].1.models[j])
  {
    FlattenLength(entries);
    ModelCountPrefix(entries, i);
    var init := entries[..|entries| - 1];
    var last := entries[|entries| - 1];
    FlattenLength(init);
    if i < |init| {
      FlattenAt(init, i, j);
      assert init[..i] == entries[..i];
    } else {
      assert entries[..i] == init;
      TaggedAt(last.0, last.1.models, j);
    }
  }

  /** Every flattened entry's composite id parses back to its provider and
      model id when the provider id has no '/'. */
  lemma FlattenedIdsParse(entries: seq<(string, Provider)>, i: nat, j: nat)
    requires i < |entries| && j < |entries[i].1.models|
    requires '/' !in entries[i].0
    ensures ModelCount(entries[..i]) + j < |Flatten(entries)|
    ensures var x := Flatten(entries)[ModelCount(entries[..i]) + j];
      ParseModelId(x.fullId) == ModelRef(entries[i].0, entries[i].1.models[j].id)
  {
    FlattenAt(entries, i, j);
    ParseGetModelId(entries[i].0, entries[i].1.models[j].id);
  }

  // ---------------------------------------------------------------------
  // Validators

  const BASE_URL_REQUIRED: string := "Base URL 不能为空"
  const API_KEY_REQUIRED: string := "API Key 不能为空"
  const API_TYPE_REQUIRED: string := "API 类型不能为空"
  const MODELS_REQUIRED: string := "至少需要配置一个模型"
  const PRIMARY_REQUIRED: string := "主模型不能为空"
  const MAX_CONCURRENT_POSITIVE: string := "最大并发数必须大于 0"
  const SUBAGENTS_MAX_CONCURRENT_POSITIVE: string := "子代理最大并发数必须大于 0"

  /** One rule of a validator: whether it failed, and the message it reports. */
  datatype Check = Check(failed: bool, message: string)

  /** The messages of the failed rules, in rule order. */
  function Failures(checks: seq<Check>): (errors: seq<string>)
    ensures |errors| <= |checks|
  {
    if checks == [] then [] else Reported(checks[0]) + Failures(checks[1..])
  }

  /** The message list a single rule contributes. */
  function Reported(c: Check): seq<string> {
    if c.failed then [c.message] else []
  }

  lemma FailuresOfThree(a: Check, b: Check, c: Check)
    ensures Failures([a, b, c]) == Reported(a) + Reported(b) + Reported(c)
  {
    assert Failures([c]) == Reported(c) by {
      assert [c][1..] == [];
    }
    assert Failures([b, c]) == Reported(b) + Failures([c]) by {
      assert [b, c][1..] == [c];
    }
    assert [a, b, c][1..] == [b, c];
  }

  lemma FailuresOfFour(a: Check, b: Check, c: Check, d: Check)
    ensures Failures([a, b, c, d]) == Reported(a) + Reported(b) + Reported(c) + Reported(d)
  {
    assert [a, b, c, d][1..] == [b, c, d];
    FailuresOfThree(b, c, d);
  }

  /** The rules of `validateProvider`, in the order they run. A falsy string
      is "", which is blank, so `!s || s.trim() === ''` is blankness. */
  function ProviderChecks(p: Provider): seq<Check> {
    [ Check(IsBlank(p.baseUrl), BASE_URL_REQUIRED),
      Check(p.apiKey.None? || IsBlank(p.apiKey.value), API_KEY_REQUIRED),
      Check(IsBlank(p.api), API_TYPE_REQUIRED),
      Check(|p.models| == 0, MODELS_REQUIRED) ]
  }

  /** `validateProvider`: every rule runs, failures are collected in order. */
  method ValidateProvider(p: Provider) returns (valid: bool, errors: seq<string>)
    ensures errors == Failures(ProviderChecks(p))
    ensures valid <==> errors == []
  {
    ghost var checks := ProviderChecks(p);
    FailuresOfFour(checks[0], checks[1], checks[2], checks[3]);
    errors := [];
    if IsBlank(p.baseUrl) {
      errors := errors + [BASE_URL_REQUIRED];
    }
    assert errors == Reported(checks[0]);
    if p.apiKey.None? || IsBlank(p.apiKey.value) {
      errors := errors + [API_KEY_REQUIRED];
    }
    assert errors == Reported(checks[0]) + Reported(checks[1]);
    if IsBlank(p.api) {
      errors := errors + [API_TYPE_REQUIRED];
    }
    assert errors == Reported(checks[0]) + Reported(checks[1]) + Reported(checks[2]);
    if |p.models| == 0 {
      errors := errors + [MODELS_REQUIRED];
    }
    valid := |errors| == 0;
  }

  /** What the provider validator reports: at most four messages; each one
      exactly when its field is missing or only white space (or the model list
      is empty); valid exactly when none is. The placeholder key is accepted. */
  lemma ProviderErrorsMeaning(p: Provider)
    ensures var errors := Failures(ProviderChecks(p));
      && |errors| <= 4
      && (BASE_URL_REQUIRED in errors <==> AllWhite(p.baseUrl))
      && (API_KEY_REQUIRED in errors <==> p.apiKey.None? || AllWhite(p.apiKey.value))
      && (API_TYPE_REQUIRED in errors <==> AllWhite(p.api))
      && (MODELS_REQUIRED in errors <==> |p.models| == 0)
      && (p.apiKey == Some(API_KEY_PLACEHOLDER) ==> API_KEY_REQUIRED !in errors)
  {
    var checks := ProviderChecks(p);
    FailuresOfFour(checks[0], checks[1], checks[2], checks[3]);
    BlankIffAllWhite(p.baseUrl);
    BlankIffAllWhite(p.api);
    if p.apiKey.Some? {
      BlankIffAllWhite(p.apiKey.value);
    }
    assert !AllWhite(API_KEY_PLACEHOLDER) by {
      assert !IsWhiteSpace(API_KEY_PLACEHOLDER[0]);
    }
    MessagesDistinct();
  }

  /** The seven messages are pairwise different. */
  lemma MessagesDistinct()
    ensures BASE_URL_REQUIRED != API_KEY_REQUIRED && BASE_URL_REQUIRED != API_TYPE_REQUIRED
    ensures BASE_URL_REQUIRED != MODELS_REQUIRED && API_KEY_REQUIRED != API_TYPE_REQUIRED
    ensures API_KEY_REQUIRED != MODELS_REQUIRED && API_TYPE_REQUIRED != MODELS_REQUIRED
    ensures PRIMARY_REQUIRED != MAX_CONCURRENT_POSITIVE && PRIMARY_REQUIRED != SUBAGENTS_MAX_CONCURRENT_POSITIVE
    ensures MAX_CONCURRENT_POSITIVE != SUBAGENTS_MAX_CONCURRENT_POSITIVE
  {
    assert BASE_URL_REQUIRED[0] == 'B' && API_KEY_REQUIRED[4] == 'K' && API_TYPE_REQUIRED[4] != 'K';
    assert MODELS_REQUIRED[0] != 'B' && MODELS_REQUIRED[0] != 'A';
    assert PRIMARY_REQUIRED[0] != MAX_CONCURRENT_POSITIVE[0] && PRIMARY_REQUIRED[0] != SUBAGENTS_MAX_CONCURRENT_POSITIVE[0];
    assert MAX_CONCURRENT_POSITIVE[0] != SUBAGENTS_MAX_CONCURRENT_POSITIVE[0];
  }

  /** The rules of `validateAgentsDefaults`, in the order they run. */
  function AgentsChecks(d: AgentsDefaults): seq<Check> {
    [ Check(d.model.None? || IsBlank(d.model.value.primary), PRIMARY_REQUIRED),
      Check(d.maxConcurrent.Some? && d.maxConcurrent.value < 1, MAX_CONCURRENT_POSITIVE),
      Check(d.subagents.Some? && d.subagents.value.maxConcurrent < 1, SUBAGENTS_MAX_CONCURRENT_POSITIVE) ]
  }

  /** `validateAgentsDefaults`. */
  method ValidateAgentsDefaults(d: AgentsDefaults) returns (valid: bool, errors: seq<string>)
    ensures errors == Failures(AgentsChecks(d))
    ensures valid <==> errors == []
  {
    errors := [];
    if d.model.None? || IsBlank(d.model.value.primary) {
      errors := errors + [PRIMARY_REQUIRED];
    }
    if d.maxConcurrent.Some? && d.maxConcurrent.value < 1 {
      errors := errors + [MAX_CONCURRENT_POSITIVE];
    }
    if d.subagents.Some? && d.subagents.value.maxConcurrent < 1 {
      errors := errors + [SUBAGENTS_MAX_CONCURRENT_POSITIVE];
    }
    valid := |errors| == 0;
    ghost var checks := AgentsChecks(d);
    FailuresOfThree(checks[0], checks[1], checks[2]);
  }

  /** What the agents validator reports: at most three messages; the primary
      model is required and not only white space; an absent limit is never an
      error, a present one is an error exactly when below 1. No rule looks at
      the fast, balanced or powerful references. */
  lemma AgentsErrorsMeaning(d: AgentsDefaults)
    ensures var errors := Failures(AgentsChecks(d));
      && |errors| <= 3
      && (PRIMARY_REQUIRED in errors <==> d.model.None? || AllWhite(d.model.value.primary))
      && (MAX_CONCURRENT_POSITIVE in errors <==> d.maxConcurrent.Some? && d.maxConcurrent.value < 1)
      && (SUBAGENTS_MAX_CONCURRENT_POSITIVE in errors <==> d.subagents.Some? && d.subagents.value.maxConcurrent < 1)
      && (errors == [] <==>
            d.model.Some? && !AllWhite(d.model.value.primary)
            && (d.maxConcurrent.Some? ==> d.maxConcurrent.value >= 1)
            && (d.subagents.Some? ==> d.subagents.value.maxConcurrent >= 1))
  {
    var checks := AgentsChecks(d);
    FailuresOfThree(checks[0], checks[1], checks[2]);
    if d.model.Some? {
      BlankIffAllWhite(d.model.value.primary);
    }
    MessagesDistinct();
  }
}
