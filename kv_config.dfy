// Conversion between the client's config dicts and the server's KV config
// fields: one field kind per way a client setting maps onto a server key,
// the GPU split-strategy converters, the nested key tables flattened into
// dotted server keys, their inversion into client-to-server maps, and the
// layered config stack sent with a prediction.

module KvConfig {
  import opened JsonValue
  import opened SdkErrors

  /* ---------------------------------------------------------------------
   * Config fields
   * ------------------------------------------------------------------- */

  /**
   * ConfigField and its subclasses. The only MultiPartField in the key
   * tables is the GPU one, whose nested keys and converters are fixed, so
   * it is a kind of its own.
   */
  datatype ConfigField =
    | Plain(clientKey: string)                       // ConfigField
    | Checkbox(clientKey: string)                    // CheckboxField
    | NestedKey(clientKey: string, nestedKey: string) // NestedKeyField
    | GpuSplit(clientKey: string)                    // MultiPartField for the GPU split

  /** A server KV field: `{"key": server_key, "value": value}`. */
  function KvField(serverKey: string, value: Json): Json
  {
    JObject([("key", JStr(serverKey)), ("value", value)])
  }

  /** A checkbox setting as the server holds it: `{"checked": True, "value": value}`. */
  function CheckedValue(value: Json): Json
  {
    JObject([("checked", JBool(true)), ("value", value)])
  }

  /** `d[key]` on a client dict. */
  function Index(d: Entries, key: string): (r: Result<Json>)
    ensures r.Ok? <==> HasKey(d, key)
    ensures r.Ok? ==> Lookup(d, key) == Some(r.value)
    ensures r.Err? ==> r.error == Builtin(KeyError)
  {
    match Lookup(d, key)
    case Some(v) => Ok(v)
    case None => Err(Builtin(KeyError))
  }

  /** `container[key]` on a decoded value: a dict looks the key up; a list or string cannot take a string index. */
  function IndexValue(container: Json, key: string): (r: Result<Json>)
    ensures r.Ok? <==> container.JObject? && HasKey(container.entries, key)
  {
    match container
    case JObject(entries) => Index(entries, key)
    case JArray(_) => Err(Builtin(TypeError))
    case JStr(_) => Err(Builtin(TypeError))
    case _ => Err(Builtin(TypeError))
  }

  /**
   * to_kv_field: the server field for one client setting, or None when a
   * nested key is absent from its containing value.
   */
  function ToKvField(field: ConfigField, serverKey: string, config: Entries): (r: Result<Option<Json>>)
  {
    match Index(config, field.clientKey)
    case Err(e) => Err(e)
    case Ok(v) =>
      match field
      case Plain(_) => Ok(Some(KvField(serverKey, v)))
      case Checkbox(_) => Ok(Some(KvField(serverKey, CheckedValue(v))))
      case NestedKey(_, nested) =>
        (match Contains(v, nested)
         case None => Err(Builtin(TypeError))
         case Some(false) => Ok(None)
         case Some(true) =>
           match IndexValue(v, nested)
           case Err(e) => Err(e)
           case Ok(inner) => Ok(Some(KvField(serverKey, inner))))
      case GpuSplit(_) =>
        match v
        case JObject(container) =>
          (match GpuSettingsToGpuSplitConfig(Lookup(container, "mainGpu"), Lookup(container, "splitStrategy"),
                                            Lookup(container, "disabledGpus"))
           case Err(e) => Err(e)
           case Ok(split) => Ok(Some(KvField(serverKey, split))))
        case _ => Err(Builtin(AttributeError))
  }

  /** The server field of a plain or checkbox setting carries the client value, wrapped for a checkbox. */
  lemma ToKvFieldValues(field: ConfigField, serverKey: string, config: Entries)
    requires HasKey(config, field.clientKey)
    ensures field.Plain? ==> ToKvField(field, serverKey, config) == Ok(Some(KvField(serverKey, Lookup(config, field.clientKey).value)))
    ensures field.Checkbox? ==>
      ToKvField(field, serverKey, config) == Ok(Some(KvField(serverKey, CheckedValue(Lookup(config, field.clientKey).value))))
  {
  }

  /**
   * A nested-key setting gives no server field when its containing dict
   * lacks the nested key, and the nested value when it has it.
   */
  lemma NestedKeyToKvField(clientKey: string, nestedKey: string, serverKey: string, config: Entries, inner: Entries)
    requires Lookup(config, clientKey) == Some(JObject(inner))
    ensures !HasKey(inner, nestedKey) ==> ToKvField(NestedKey(clientKey, nestedKey), serverKey, config) == Ok(None)
    ensures HasKey(inner, nestedKey) ==>
      ToKvField(NestedKey(clientKey, nestedKey), serverKey, config) == Ok(Some(KvField(serverKey, Lookup(inner, nestedKey).value)))
  {
  }

  /**
   * update_client_config: a server value written back into the client
   * dict. A checkbox value is written only when it is checked; a nested
   * key is written inside the dict kept under the client key, created
   * when missing.
   */
  function UpdateClientConfig(field: ConfigField, client: Entries, value: Json): (r: Result<Entries>)
  {
    match field
    case Plain(key) => Ok(Put(client, key, value))
    case Checkbox(key) =>
      (match value
       case JObject(d) =>
         var checked := match Lookup(d, "checked") case Some(c) => c case None => JBool(false);
         if !Truthy(checked) then Ok(client)
         else
           (match Index(d, "value")
            case Err(e) => Err(e)
            case Ok(v) => Ok(Put(client, key, v)))
       case _ => Err(Builtin(AttributeError)))
    case NestedKey(key, nested) =>
      (match SetDefaultDict(client, key)
       case Err(e) => Err(e)
       case Ok(inner) => Ok(Put(client, key, JObject(Put(inner, nested, value)))))
    case GpuSplit(key) =>
      match DecodeGpuSplitConfig(value)
      case Err(e) => Err(e)
      case Ok(split) =>
        match SetDefaultDict(client, key)
        case Err(e) => Err(e)
        case Ok(inner) => Ok(Put(client, key, JObject(GpuSplitConfigToGpuSettings(split, inner))))
  }

  /**
   * `client.setdefault(key, {})` followed by item assignment: the dict
   * under `key`, empty when there is none; any other value there cannot
   * take a string key.
   */
  function SetDefaultDict(client: Entries, key: string): (r: Result<Entries>)
    ensures !HasKey(client, key) ==> r == Ok([])
    ensures r.Ok? && HasKey(client, key) ==> Lookup(client, key) == Some(JObject(r.value))
  {
    match Lookup<Json>(client, key)
    case None => Ok([])
    case Some(JObject(inner)) => Ok(inner)
    case Some(_) => Err(Builtin(TypeError))
  }

  /** A checked checkbox value writes its inner value; an unchecked one leaves the client dict alone. */
  lemma CheckboxUpdate(key: string, client: Entries, checked: bool, v: Json)
    ensures UpdateClientConfig(Checkbox(key), client, JObject([("checked", JBool(checked)), ("value", v)]))
      == Ok(if checked then Put(client, key, v) else client)
  {
    var d := [("checked", JBool(checked)), ("value", v)];
    assert d[1..] == [("value", v)];
    assert Lookup(d, "checked") == Some(JBool(checked));
    assert Lookup(d, "value") == Some(v);
  }

  /**
   * Checkbox round trip: the server field built from a client value is
   * checked and carries that value, and writing it back restores the value.
   */
  lemma {:induction false} CheckboxRoundTrip(key: string, serverKey: string, config: Entries, client: Entries)
    requires HasKey(config, key)
    ensures ToKvField(Checkbox(key), serverKey, config) == Ok(Some(KvField(serverKey, CheckedValue(Lookup(config, key).value))))
    ensures UpdateClientConfig(Checkbox(key), client, CheckedValue(Lookup(config, key).value))
      == Ok(Put(client, key, Lookup(config, key).value))
  {
    ToKvFieldValues(Checkbox(key), serverKey, config);
    CheckboxUpdate(key, client, true, Lookup(config, key).value);
  }

  /** Nested-key round trip: the nested value written back lands under `client[key][nested]`. */
  lemma NestedKeyRoundTrip(key: string, nested: string, client: Entries, value: Json)
    requires Lookup(client, key).None? || Lookup(client, key).value.JObject?
    ensures UpdateClientConfig(NestedKey(key, nested), client, value).Ok?
    ensures var updated := UpdateClientConfig(NestedKey(key, nested), client, value).value;
      && Lookup(updated, key).Some? && Lookup(updated, key).value.JObject?
      && Lookup(Lookup(updated, key).value.entries, nested) == Some(value)
      && (forall k :: k != key ==> Lookup(updated, k) == Lookup(client, k))
  {
  }

  /* ---------------------------------------------------------------------
   * GPU split strategy
   * ------------------------------------------------------------------- */

  /** A GPU number as the server's structs accept it. */
  predicate IsInt(j: Json)
  {
    j.JNum? && IsWhole(j.n)
  }

  /** GpuSplitConfig after msgspec decoding: all four fields are required. */
  datatype GpuSplitConfig = GpuSplitConfig(strategy: string, disabledGpus: seq<Json>, priority: seq<Json>, customRatio: seq<Json>)

  predicate AllInts(items: seq<Json>)
  {
    forall i :: 0 <= i < |items| ==> IsInt(items[i])
  }

  predicate AllNums(items: seq<Json>)
  {
    forall i :: 0 <= i < |items| ==> items[i].JNum?
  }

  /** GpuSplitConfig._from_any_api_dict: a dict with a known strategy and three number lists. */
  function DecodeGpuSplitConfig(j: Json): (r: Result<GpuSplitConfig>)
    ensures r.Ok? ==> r.value.strategy in {"evenly", "priorityOrder", "custom"}
    ensures r.Ok? ==> AllInts(r.value.disabledGpus) && AllInts(r.value.priority)
    ensures r.Err? ==> r.error == Builtin(ValidationError)
  {
    match (Get(j, "strategy"), Get(j, "disabledGpus"), Get(j, "priority"), Get(j, "customRatio"))
    case (Some(JStr(s)), Some(JArray(d)), Some(JArray(p)), Some(JArray(c))) =>
      if s in {"evenly", "priorityOrder", "custom"} && AllInts(d) && AllInts(p) && AllNums(c)
      then Ok(GpuSplitConfig(s, d, p, c))
      else Err(Builtin(ValidationError))
    case _ => Err(Builtin(ValidationError))
  }

  /** `[*value]`: the items of a list, the keys of a dict, the characters of a string. */
  function IterateValue(value: Json): (r: Result<seq<Json>>)
    ensures value.JArray? ==> r == Ok(value.items)
  {
    match value
    case JArray(items) => Ok(items)
    case JObject(entries) => Ok(seq(|entries|, i requires 0 <= i < |entries| => JStr(entries[i].0)))
    case JStr(s) => Ok(seq(|s|, i requires 0 <= i < |s| => JStr([s[i]])))
    case _ => Err(Builtin(TypeError))
  }

  /** Python's `x is None` for a value read with `.get(key, None)`. */
  predicate IsNone(v: Option<Json>)
  {
    v.None? || v.value.JNull?
  }

  /** The server's GpuSplitConfig dict. */
  function SplitConfigJson(disabled: seq<Json>, strategy: string, priority: seq<Json>): Json
  {
    JObject([("disabledGpus", JArray(disabled)), ("strategy", JStr(strategy)),
             ("priority", JArray(priority)), ("customRatio", JArray([]))])
  }

  /**
   * _gpu_settings_to_gpu_split_config: the client's main GPU, split
   * strategy and disabled GPUs as the server's split config.
   */
  function GpuSettingsToGpuSplitConfig(mainGpu: Option<Json>, strategy: Option<Json>, disabledGpus: Option<Json>)
    : (r: Result<Json>)
    ensures r.Ok? ==> (IsNone(strategy) || strategy.value == JStr("evenly") || strategy.value == JStr("favorMainGpu"))
    ensures r.Ok? <==> (IsNone(strategy) || strategy.value == JStr("evenly") || strategy.value == JStr("favorMainGpu"))
                       && (disabledGpus.None? || !Truthy(disabledGpus.value) || disabledGpus.value.JArray?
                           || disabledGpus.value.JObject? || disabledGpus.value.JStr?)
    ensures r.Err? ==> r.error in {Builtin(TypeError), ValueError}
  {
    var disabled :=
      if disabledGpus.Some? && Truthy(disabledGpus.value) then IterateValue(disabledGpus.value) else Ok([]);
    match disabled
    case Err(e) => Err(e)
    case Ok(d) =>
      if IsNone(strategy) || strategy.value == JStr("evenly") then Ok(SplitConfigJson(d, "evenly", []))
      else if strategy.value == JStr("favorMainGpu") then
        Ok(SplitConfigJson(d, "priorityOrder", if IsNone(mainGpu) then [] else [mainGpu.value]))
      else Err(ValueError)
  }

  /** Client to server: "evenly" or no strategy gives strategy "evenly" with no priority. */
  lemma EvenlyToServer(mainGpu: Option<Json>, strategy: Option<Json>, disabled: seq<Json>)
    requires IsNone(strategy) || strategy.value == JStr("evenly")
    ensures GpuSettingsToGpuSplitConfig(mainGpu, strategy, Some(JArray(disabled))) == Ok(SplitConfigJson(disabled, "evenly", []))
    ensures GpuSettingsToGpuSplitConfig(mainGpu, strategy, None) == Ok(SplitConfigJson([], "evenly", []))
  {
  }

  /**
   * Client to server: "favorMainGpu" gives strategy "priorityOrder" whose
   * priority holds the main GPU when one is given, and is empty otherwise.
   */
  lemma FavorMainGpuToServer(mainGpu: Option<Json>, disabled: seq<Json>)
    ensures GpuSettingsToGpuSplitConfig(mainGpu, Some(JStr("favorMainGpu")), Some(JArray(disabled)))
      == Ok(SplitConfigJson(disabled, "priorityOrder", if IsNone(mainGpu) then [] else [mainGpu.value]))
  {
  }

  /**
   * _gpu_split_config_to_gpu_settings: the disabled GPUs are always
   * reported; "evenly" is reported as is, "priorityOrder" only when it has
   * exactly one priority entry (as "favorMainGpu" with that main GPU), and
   * "custom" not at all.
   */
  function GpuSplitConfigToGpuSettings(split: GpuSplitConfig, client: Entries): (r: Entries)
    ensures Lookup(r, "disabledGpus") == Some(JArray(split.disabledGpus))
    ensures split.strategy == "evenly" ==> Lookup(r, "splitStrategy") == Some(JStr("evenly"))
    ensures split.strategy == "priorityOrder" && |split.priority| == 1 ==>
      Lookup(r, "splitStrategy") == Some(JStr("favorMainGpu")) && Lookup(r, "mainGpu") == Some(split.priority[0])
    ensures !(split.strategy == "priorityOrder" && |split.priority| == 1) ==> Lookup(r, "mainGpu") == Lookup(client, "mainGpu")
    ensures split.strategy != "evenly" && !(split.strategy == "priorityOrder" && |split.priority| == 1) ==>
      Lookup(r, "splitStrategy") == Lookup(client, "splitStrategy")
    ensures forall k :: k != "disabledGpus" && k != "splitStrategy" && k != "mainGpu" ==> Lookup(r, k) == Lookup(client, k)
  {
    var withDisabled := Put(client, "disabledGpus", JArray(split.disabledGpus));
    if split.strategy == "evenly" then Put(withDisabled, "splitStrategy", JStr("evenly"))
    else if split.strategy == "priorityOrder" && |split.priority| == 1 then
      Put(Put(withDisabled, "splitStrategy", JStr("favorMainGpu")), "mainGpu", split.priority[0])
    else withDisabled
  }

  lemma DecodeSplitConfigJson(disabled: seq<Json>, strategy: string, priority: seq<Json>)
    requires AllInts(disabled) && AllInts(priority) && strategy in {"evenly", "priorityOrder", "custom"}
    ensures DecodeGpuSplitConfig(SplitConfigJson(disabled, strategy, priority)) == Ok(GpuSplitConfig(strategy, disabled, priority, []))
  {
    SplitConfigLookups(disabled, strategy, priority);
  }

  /** The fields of the server's split config dict, read back by key. */
  lemma SplitConfigLookups(disabled: seq<Json>, strategy: string, priority: seq<Json>)
    ensures var entries := SplitConfigJson(disabled, strategy, priority).entries;
      && Lookup(entries, "disabledGpus") == Some(JArray(disabled))
      && Lookup(entries, "strategy") == Some(JStr(strategy))
      && Lookup(entries, "priority") == Some(JArray(priority))
      && Lookup(entries, "customRatio") == Some(JArray([]))
  {
    var entries := [("disabledGpus", JArray(disabled)), ("strategy", JStr(strategy)),
                    ("priority", JArray(priority)), ("customRatio", JArray([]))];
    assert entries[1..] == [("strategy", JStr(strategy)), ("priority", JArray(priority)), ("customRatio", JArray([]))];
    assert entries[1..][1..] == [("priority", JArray(priority)), ("customRatio", JArray([]))];
    assert entries[1..][1..][1..] == [("customRatio", JArray([]))];
    assert Lookup(entries[1..][1..][1..], "customRatio") == Some(JArray([]));
    assert Lookup(entries[1..][1..], "priority") == Some(JArray(priority));
    assert Lookup(entries[1..][1..], "customRatio") == Some(JArray([]));
    assert Lookup(entries[1..], "strategy") == Some(JStr(strategy));
    assert Lookup(entries[1..], "priority") == Some(JArray(priority));
    assert Lookup(entries[1..], "customRatio") == Some(JArray([]));
    assert Lookup(entries, "customRatio") == Some(JArray([]));
    assert Lookup(entries, "priority") == Some(JArray(priority));
    assert Lookup(entries, "strategy") == Some(JStr(strategy));
  }

  /**
   * The split strategy round-trips for "favorMainGpu" with a main GPU:
   * converting to the server's split config and back reports
   * "favorMainGpu", the same main GPU and the same disabled GPUs.
   */
  lemma {:induction false} FavorMainGpuRoundTrip(mainGpu: Json, disabled: seq<Json>, client: Entries)
    requires IsInt(mainGpu) && AllInts(disabled)
    ensures var sent := GpuSettingsToGpuSplitConfig(Some(mainGpu), Some(JStr("favorMainGpu")), Some(JArray(disabled)));
      && sent.Ok?
      && DecodeGpuSplitConfig(sent.value).Ok?
      && var back := GpuSplitConfigToGpuSettings(DecodeGpuSplitConfig(sent.value).value, client);
         && Lookup(back, "splitStrategy") == Some(JStr("favorMainGpu"))
         && Lookup(back, "mainGpu") == Some(mainGpu)
         && Lookup(back, "disabledGpus") == Some(JArray(disabled))
  {
    FavorMainGpuToServer(Some(mainGpu), disabled);
    assert AllInts([mainGpu]);
    DecodeSplitConfigJson(disabled, "priorityOrder", [mainGpu]);
  }

  /** The "evenly" strategy round-trips too. */
  lemma {:induction false} EvenlyRoundTrip(disabled: seq<Json>, client: Entries)
    requires AllInts(disabled)
    ensures var sent := GpuSettingsToGpuSplitConfig(None, Some(JStr("evenly")), Some(JArray(disabled)));
      && sent.Ok?
      && DecodeGpuSplitConfig(sent.value).Ok?
      && var back := GpuSplitConfigToGpuSettings(DecodeGpuSplitConfig(sent.value).value, client);
         && Lookup(back, "splitStrategy") == Some(JStr("evenly"))
         && Lookup(back, "disabledGpus") == Some(JArray(disabled))
  {
    EvenlyToServer(None, Some(JStr("evenly")), disabled);
    assert AllInts([]);
    DecodeSplitConfigJson(disabled, "evenly", []);
  }

  /* ---------------------------------------------------------------------
   * Server key tables
   * ------------------------------------------------------------------- */

  /** A key table: each key holds a config field or a nested table. */
  datatype KeyNode = Leaf(field: ConfigField) | Scope(entries: seq<KeyEntry>)

  datatype KeyEntry = KeyEntry(key: string, node: KeyNode)

  function P(key: string, clientKey: string): KeyEntry { KeyEntry(key, Leaf(Plain(clientKey))) }

  function C(key: string, clientKey: string): KeyEntry { KeyEntry(key, Leaf(Checkbox(clientKey))) }

  /** _COMMON_LLAMA_LOAD_KEYS */
  function CommonLlamaLoadKeys(): seq<KeyEntry>
  {
    [P("keepModelInMemory", "keepModelInMemory"), C("ropeFrequencyBase", "ropeFrequencyBase"),
     C("ropeFrequencyScale", "ropeFrequencyScale"), P("tryMmap", "tryMmap"),
     KeyEntry("acceleration", Scope([KeyEntry("offloadRatio", Leaf(NestedKey("gpu", "ratio")))]))]
  }

  /** _COMMON_MODEL_LOAD_KEYS */
  function CommonModelLoadKeys(): seq<KeyEntry>
  {
    [P("contextLength", "contextLength")]
  }

  /** SUPPORTED_SERVER_KEYS: the key table of each config namespace. */
  function SupportedServerKeys(): seq<(string, seq<KeyEntry>)>
  {
    [("load", [KeyEntry("gpuSplitConfig", Leaf(GpuSplit("gpu"))), P("gpuStrictVramCap", "gpuStrictVramCap")]),
     ("embedding.load", CommonModelLoadKeys() + [KeyEntry("llama", Scope(CommonLlamaLoadKeys()))]),
     ("llm.load", CommonModelLoadKeys() +
        [P("numExperts", "numExperts"), C("seed", "seed"),
         KeyEntry("llama", Scope(CommonLlamaLoadKeys() +
           [P("evalBatchSize", "evalBatchSize"), P("flashAttention", "flashAttention"),
            C("llamaKCacheQuantizationType", "llamaKCacheQuantizationType"),
            C("llamaVCacheQuantizationType", "llamaVCacheQuantizationType"),
            P("useFp16ForKVCache", "useFp16ForKVCache")]))]),
     ("llm.prediction",
        [P("contextOverflowPolicy", "contextOverflowPolicy"), C("maxPredictedTokens", "maxTokens"),
         C("minPSampling", "minPSampling"), P("promptTemplate", "promptTemplate"),
         C("repeatPenalty", "repeatPenalty"), P("stopStrings", "stopStrings"), P("structured", "structured"),
         P("temperature", "temperature"), P("toolCallStopStrings", "toolCallStopStrings"),
         P("tools", "rawTools"), P("topKSampling", "topKSampling"), C("topPSampling", "topPSampling"),
         KeyEntry("llama", Scope([P("cpuThreads", "cpuThreads")])),
         KeyEntry("reasoning", Scope([P("parsing", "reasoningParsing")])),
         KeyEntry("speculativeDecoding", Scope(
           [P("draftModel", "draftModel"),
            P("minDraftLengthToConsider", "speculativeDecodingMinDraftLengthToConsider"),
            P("minContinueDraftingProbability", "speculativeDecodingMinContinueDraftingProbability"),
            P("numDraftTokensExact", "speculativeDecodingNumDraftTokensExact")]))])]
  }

  /** The `excluded` argument: a tuple of keys, or a plain string. */
  datatype Container = TupleOf(items: seq<string>) | StrOf(text: string)

  /** Python's `k in excluded`: membership for a tuple, but a substring test for a string. */
  predicate Excludes(excluded: Container, k: string)
  {
    match excluded
    case TupleOf(items) => k in items
    case StrOf(text) => IsSubstring(k, text)
  }

  /** With a plain string, every key that occurs inside it is excluded, not just the string itself. */
  lemma ExcludesSubstrings(text: string, i: nat, j: nat)
    requires i <= j <= |text|
    ensures Excludes(StrOf(text), text[i..j])
  {
    assert text[i..j] <= text[i..];
  }

  /** `f"{prefix}.{k}" if prefix else k` */
  function Dotted(prefix: string, k: string): string
  {
    if prefix != "" then prefix + "." + k else k
  }

  /** A (prefix, scope) pair on _iter_server_keys's worklist. */
  datatype Pending = Pending(prefix: string, entries: seq<KeyEntry>)

  type ServerKeyPair = (string, ConfigField)

  /**
   * One pass over a scope's items: each field not excluded is yielded
   * under its dotted key, each nested table not excluded is queued.
   */
  function VisitEntries(prefix: string, entries: seq<KeyEntry>, excluded: Container): (seq<ServerKeyPair>, seq<Pending>)
  {
    if entries == [] then ([], [])
    else
      var (yielded, queued) := VisitEntries(prefix, entries[..|entries| - 1], excluded);
      var e := entries[|entries| - 1];
      if Excludes(excluded, e.key) then (yielded, queued)
      else match e.node
        case Leaf(f) => (yielded + [(Dotted(prefix, e.key), f)], queued)
        case Scope(nested) => (yielded, queued + [Pending(Dotted(prefix, e.key), nested)])
  }

  /** How much table a worklist still holds; it shrinks with every scope visited. */
  function NodeSize(n: KeyNode): nat
  {
    match n
    case Leaf(_) => 0
    case Scope(entries) => EntriesSize(entries)
  }

  function EntriesSize(entries: seq<KeyEntry>): nat
  {
    if entries == [] then 0
    else EntriesSize(entries[..|entries| - 1]) + 1 + NodeSize(entries[|entries| - 1].node)
  }

  function Weight(worklist: seq<Pending>): nat
  {
    if worklist == [] then 0
    else Weight(worklist[..|worklist| - 1]) + 1 + EntriesSize(worklist[|worklist| - 1].entries)
  }

  lemma {:induction false} WeightAppend(a: seq<Pending>, b: seq<Pending>)
    ensures Weight(a + b) == Weight(a) + Weight(b)
    decreases |b|
  {
    if b != [] {
      assert (a + b)[..|a + b| - 1] == a + b[..|b| - 1];
      assert (a + b)[|a + b| - 1] == b[|b| - 1];
      WeightAppend(a, b[..|b| - 1]);
    } else {
      assert a + b == a;
    }
  }

  /** The scopes queued by one visit hold less table than the visited scope. */
  lemma {:induction false} VisitWeight(prefix: string, entries: seq<KeyEntry>, excluded: Container)
    ensures Weight(VisitEntries(prefix, entries, excluded).1) <= EntriesSize(entries)
    decreases |entries|
  {
    if entries != [] {
      var queued := VisitEntries(prefix, entries[..|entries| - 1], excluded).1;
      VisitWeight(prefix, entries[..|entries| - 1], excluded);
      var e := entries[|entries| - 1];
      if !Excludes(excluded, e.key) && e.node.Scope? {
        WeightAppend(queued, [Pending(Dotted(prefix, e.key), e.node.entries)]);
        assert Weight([Pending(Dotted(prefix, e.key), e.node.entries)]) == 1 + EntriesSize(e.node.entries) by {
          assert [Pending(Dotted(prefix, e.key), e.node.entries)][..0] == [];
        }
      }
    }
  }

  lemma VisitFrontWeight(worklist: seq<Pending>, excluded: Container)
    requires worklist != []
    ensures Weight(worklist[1..] + VisitEntries(worklist[0].prefix, worklist[0].entries, excluded).1) < Weight(worklist)
  {
    assert worklist == [worklist[0]] + worklist[1..];
    WeightAppend([worklist[0]], worklist[1..]);
    assert [worklist[0]][..0] == [];
    VisitWeight(worklist[0].prefix, worklist[0].entries, excluded);
    WeightAppend(worklist[1..], VisitEntries(worklist[0].prefix, worklist[0].entries, excluded).1);
  }

  /**
   * What _iter_server_keys yields for a worklist: the first scope's
   * fields, then whatever the rest of the worklist, with the first
   * scope's nested tables queued at its end, yields.
   */
  function Bfs(worklist: seq<Pending>, excluded: Container): seq<ServerKeyPair>
    decreases Weight(worklist)
  {
    if worklist == [] then []
    else
      var (yielded, queued) := VisitEntries(worklist[0].prefix, worklist[0].entries, excluded);
      VisitFrontWeight(worklist, excluded);
      yielded + Bfs(worklist[1..] + queued, excluded)
  }

  /** Every field of a table that no excluded key hides, under its dotted path. */
  function EntryLeaves(prefix: string, e: KeyEntry, excluded: Container): set<ServerKeyPair>
    decreases e
  {
    if Excludes(excluded, e.key) then {}
    else match e.node
      case Leaf(f) => {(Dotted(prefix, e.key), f)}
      case Scope(nested) => ScopeLeaves(Dotted(prefix, e.key), nested, excluded)
  }

  function ScopeLeaves(prefix: string, entries: seq<KeyEntry>, excluded: Container): set<ServerKeyPair>
    decreases entries
  {
    if entries == [] then {}
    else ScopeLeaves(prefix, entries[..|entries| - 1], excluded) + EntryLeaves(prefix, entries[|entries| - 1], excluded)
  }

  function AllLeaves(worklist: seq<Pending>, excluded: Container): set<ServerKeyPair>
  {
    if worklist == [] then {}
    else
      var last := worklist[|worklist| - 1];
      AllLeaves(worklist[..|worklist| - 1], excluded) + ScopeLeaves(last.prefix, last.entries, excluded)
  }

  function Elems<T>(s: seq<T>): set<T>
  {
    set x | x in s
  }

  lemma {:induction false} AllLeavesAppend(a: seq<Pending>, b: seq<Pending>, excluded: Container)
    ensures AllLeaves(a + b, excluded) == AllLeaves(a, excluded) + AllLeaves(b, excluded)
    decreases |b|
  {
    if b != [] {
      assert (a + b)[..|a + b| - 1] == a + b[..|b| - 1];
      assert (a + b)[|a + b| - 1] == b[|b| - 1];
      AllLeavesAppend(a, b[..|b| - 1], excluded);
    } else {
      assert a + b == a;
    }
  }

  /** One visit accounts for all of a scope's leaves: those it yields and those under the tables it queues. */
  lemma {:induction false} VisitLeaves(prefix: string, entries: seq<KeyEntry>, excluded: Container)
    ensures var (yielded, queued) := VisitEntries(prefix, entries, excluded);
      Elems(yielded) + AllLeaves(queued, excluded) == ScopeLeaves(prefix, entries, excluded)
    decreases |entries|
  {
    if entries != [] {
      var (yielded, queued) := VisitEntries(prefix, entries[..|entries| - 1], excluded);
      VisitLeaves(prefix, entries[..|entries| - 1], excluded);
      var e := entries[|entries| - 1];
      if !Excludes(excluded, e.key) {
        match e.node
        case Leaf(f) =>
          assert Elems(yielded + [(Dotted(prefix, e.key), f)]) == Elems(yielded) + {(Dotted(prefix, e.key), f)};
        case Scope(nested) =>
          var p := Pending(Dotted(prefix, e.key), nested);
          AllLeavesAppend(queued, [p], excluded);
          assert [p][..0] == [];
      }
    }
  }

  /**
   * _iter_server_keys over a worklist yields exactly the fields of all
   * its tables that no excluded key hides, each under its dotted path.
   */
  lemma {:induction false} BfsLeaves(worklist: seq<Pending>, excluded: Container)
    ensures Elems(Bfs(worklist, excluded)) == AllLeaves(worklist, excluded)
    decreases Weight(worklist)
  {
    if worklist != [] {
      var (yielded, queued) := VisitEntries(worklist[0].prefix, worklist[0].entries, excluded);
      VisitFrontWeight(worklist, excluded);
      BfsLeaves(worklist[1..] + queued, excluded);
      VisitLeaves(worklist[0].prefix, worklist[0].entries, excluded);
      AllLeavesAppend(worklist[1..], queued, excluded);
      assert worklist == [worklist[0]] + worklist[1..];
      AllLeavesAppend([worklist[0]], worklist[1..], excluded);
      assert [worklist[0]][..0] == [];
      assert Elems(yielded + Bfs(worklist[1..] + queued, excluded))
        == Elems(yielded) + Elems(Bfs(worklist[1..] + queued, excluded));
    }
  }

  /** _iter_server_keys: every namespace's table in turn; an unknown namespace raises KeyError. */
  function ServerKeys(table: seq<(string, seq<KeyEntry>)>, namespaces: seq<string>, excluded: Container)
    : Result<seq<ServerKeyPair>>
  {
    if namespaces == [] then Ok([])
    else
      match ServerKeys(table, namespaces[..|namespaces| - 1], excluded)
      case Err(e) => Err(e)
      case Ok(keys) =>
        var ns := namespaces[|namespaces| - 1];
        match Lookup(table, ns)
        case None => Err(Builtin(KeyError))
        case Some(scope) => Ok(keys + Bfs([Pending(ns, scope)], excluded))
  }

  /** The fields of the named namespaces' tables, not hidden by an excluded key. */
  function NamespaceLeaves(table: seq<(string, seq<KeyEntry>)>, namespaces: seq<string>, excluded: Container)
    : set<ServerKeyPair>
  {
    if namespaces == [] then {}
    else
      var ns := namespaces[|namespaces| - 1];
      NamespaceLeaves(table, namespaces[..|namespaces| - 1], excluded)
        + match Lookup(table, ns) case Some(scope) => ScopeLeaves(ns, scope, excluded) case None => {}
  }

  /**
   * _iter_server_keys succeeds exactly when every namespace is in the
   * table, and then yields each field not hidden by an excluded key under
   * its dotted path "namespace.key.subkey", and nothing else.
   */
  lemma {:induction false} ServerKeysLeaves(table: seq<(string, seq<KeyEntry>)>, namespaces: seq<string>, excluded: Container)
    ensures ServerKeys(table, namespaces, excluded).Ok? <==> forall ns :: ns in namespaces ==> HasKey(table, ns)
    ensures ServerKeys(table, namespaces, excluded).Ok? ==>
      Elems(ServerKeys(table, namespaces, excluded).value) == NamespaceLeaves(table, namespaces, excluded)
    decreases |namespaces|
  {
    if namespaces != [] {
      var init := namespaces[..|namespaces| - 1];
      var ns := namespaces[|namespaces| - 1];
      assert namespaces == init + [ns];
      ServerKeysLeaves(table, init, excluded);
      match Lookup(table, ns)
      case None =>
      case Some(scope) =>
        var w := [Pending(ns, scope)];
        BfsLeaves(w, excluded);
        assert w[..0] == [];
        if ServerKeys(table, init, excluded).Ok? {
          var keys := ServerKeys(table, init, excluded).value;
          assert Elems(keys + Bfs(w, excluded)) == Elems(keys) + Elems(Bfs(w, excluded));
        }
    }
  }

  /** The loop of _iter_server_keys over one scope's items. */
  method VisitScope(prefix: string, entries: seq<KeyEntry>, excluded: Container)
    returns (yielded: seq<ServerKeyPair>, queued: seq<Pending>)
    ensures (yielded, queued) == VisitEntries(prefix, entries, excluded)
  {
    yielded, queued := [], [];
    var j := 0;
    while j < |entries|
      invariant 0 <= j <= |entries|
      invariant (yielded, queued) == VisitEntries(prefix, entries[..j], excluded)
    {
      var e := entries[j];
      assert entries[..j + 1][..j] == entries[..j];
      if !Excludes(excluded, e.key) {
        var key := Dotted(prefix, e.key);
        match e.node
        case Leaf(f) =>
          yielded := yielded + [(key, f)];
        case Scope(nested) =>
          queued := queued + [Pending(key, nested)];
      }
      j := j + 1;
    }
    assert entries[..j] == entries;
  }

  /** One turn of the worklist loop: visit scope i, yield its fields, queue its nested tables. */
  lemma BfsStep(scopes: seq<Pending>, i: nat, excluded: Container, keys: seq<ServerKeyPair>, all: seq<ServerKeyPair>)
    requires i < |scopes| && keys + Bfs(scopes[i..], excluded) == all
    ensures var (yielded, queued) := VisitEntries(scopes[i].prefix, scopes[i].entries, excluded);
      && (keys + yielded) + Bfs((scopes + queued)[i + 1..], excluded) == all
      && Weight((scopes + queued)[i + 1..]) < Weight(scopes[i..])
  {
    var (yielded, queued) := VisitEntries(scopes[i].prefix, scopes[i].entries, excluded);
    var rest := scopes[i..];
    assert rest[0] == scopes[i] && rest[1..] == scopes[i + 1..];
    VisitFrontWeight(rest, excluded);
    assert (scopes + queued)[i + 1..] == rest[1..] + queued;
    assert Bfs(rest, excluded) == yielded + Bfs(rest[1..] + queued, excluded);
    assert keys + (yielded + Bfs(rest[1..] + queued, excluded)) == (keys + yielded) + Bfs(rest[1..] + queued, excluded);
  }

  /**
   * The worklist loop of _iter_server_keys for one namespace: nested
   * tables are appended to the worklist while it is being walked.
   */
  method IterNamespace(namespace: string, scope: seq<KeyEntry>, excluded: Container) returns (keys: seq<ServerKeyPair>)
    ensures keys == Bfs([Pending(namespace, scope)], excluded)
    ensures Elems(keys) == ScopeLeaves(namespace, scope, excluded)
  {
    var scopes := [Pending(namespace, scope)];
    keys := [];
    var i := 0;
    while i < |scopes|
      invariant 0 <= i <= |scopes|
      invariant keys + Bfs(scopes[i..], excluded) == Bfs([Pending(namespace, scope)], excluded)
      decreases Weight(scopes[i..])
    {
      var yielded, queued := VisitScope(scopes[i].prefix, scopes[i].entries, excluded);
      BfsStep(scopes, i, excluded, keys, Bfs([Pending(namespace, scope)], excluded));
      scopes := scopes + queued;
      keys := keys + yielded;
      i := i + 1;
    }
    assert scopes[i..] == [];
    BfsLeaves([Pending(namespace, scope)], excluded);
    assert [Pending(namespace, scope)][..0] == [];
  }

  /**
   * _iter_server_keys: the fields of each namespace's table, namespace by
   * namespace; an unknown namespace raises KeyError.
   */
  method IterServerKeys(table: seq<(string, seq<KeyEntry>)>, namespaces: seq<string>, excluded: Container)
    returns (r: Result<seq<ServerKeyPair>>)
    ensures r == ServerKeys(table, namespaces, excluded)
    ensures r.Ok? <==> forall ns :: ns in namespaces ==> HasKey(table, ns)
    ensures r.Ok? ==> Elems(r.value) == NamespaceLeaves(table, namespaces, excluded)
  {
    var keys := [];
    var n := 0;
    while n < |namespaces|
      invariant 0 <= n <= |namespaces|
      invariant ServerKeys(table, namespaces[..n], excluded) == Ok(keys)
    {
      assert namespaces[..n + 1][..n] == namespaces[..n];
      var ns := namespaces[n];
      var scope := Lookup(table, ns);
      if scope.None? {
        r := Err(Builtin(KeyError));
        assert ServerKeys(table, namespaces[..n + 1], excluded) == r;
        ServerKeysFailFast(table, namespaces, excluded, n + 1);
        ServerKeysLeaves(table, namespaces, excluded);
        return;
      }
      var more := IterNamespace(ns, scope.value, excluded);
      keys := keys + more;
      n := n + 1;
    }
    assert namespaces[..n] == namespaces;
    r := Ok(keys);
    ServerKeysLeaves(table, namespaces, excluded);
  }

  /** Once a namespace is missing, the namespaces after it do not matter. */
  lemma {:induction false} ServerKeysFailFast(table: seq<(string, seq<KeyEntry>)>, namespaces: seq<string>,
                                              excluded: Container, n: nat)
    requires n <= |namespaces| && ServerKeys(table, namespaces[..n], excluded).Err?
    ensures ServerKeys(table, namespaces, excluded) == ServerKeys(table, namespaces[..n], excluded)
    decreases |namespaces| - n
  {
    if n < |namespaces| {
      assert namespaces[..n + 1][..n] == namespaces[..n];
      ServerKeysFailFast(table, namespaces, excluded, n + 1);
    } else {
      assert namespaces[..n] == namespaces;
    }
  }

  /** `dict(pairs)`: a later pair for the same key overwrites the earlier value in place. */
  function DictOf<V>(pairs: seq<(string, V)>): seq<(string, V)>
  {
    if pairs == [] then [] else Put(DictOf(pairs[..|pairs| - 1]), pairs[|pairs| - 1].0, pairs[|pairs| - 1].1)
  }

  /** The keys of a table built by `dict(...)` are the keys of its pairs, and the last pair for a key wins. */
  lemma {:induction false} DictOfKeys<V>(pairs: seq<(string, V)>, key: string)
    ensures Lookup(DictOf(pairs), key).Some? <==> HasKey(pairs, key)
    ensures pairs != [] && pairs[|pairs| - 1].0 == key ==> Lookup(DictOf(pairs), key) == Some(pairs[|pairs| - 1].1)
    decreases |pairs|
  {
    if pairs != [] {
      var init := pairs[..|pairs| - 1];
      DictOfKeys(init, key);
      if HasKey(init, key) {
        var i :| 0 <= i < |init| && init[i].0 == key;
        assert pairs[i].0 == key;
      }
      if HasKey(pairs, key) && pairs[|pairs| - 1].0 != key {
        var i :| 0 <= i < |pairs| && pairs[i].0 == key;
        assert init[i].0 == key;
      }
    }
  }

  function Unwrap<T>(r: Result<seq<T>>): seq<T>
  {
    match r
    case Ok(v) => v
    case Err(_) => []
  }

  /** FROM_SERVER_LOAD_LLM */
  function FromServerLoadLlm(): seq<(string, ConfigField)>
  {
    DictOf(Unwrap(ServerKeys(SupportedServerKeys(), ["load", "llm.load"], TupleOf([]))))
  }

  /** FROM_SERVER_LOAD_EMBEDDING: the embedding table without the LLM-only VRAM cap key. */
  function FromServerLoadEmbedding(): seq<(string, ConfigField)>
  {
    DictOf(Unwrap(ServerKeys(SupportedServerKeys(), ["load", "embedding.load"], StrOf("gpuStrictVramCap"))))
  }

  /** FROM_SERVER_PREDICTION */
  function FromServerPrediction(): seq<(string, ConfigField)>
  {
    DictOf(Unwrap(ServerKeys(SupportedServerKeys(), ["llm.prediction"], TupleOf([]))))
  }

  /** FROM_SERVER_CONFIG: every namespace of the table. */
  function FromServerConfig(): seq<(string, ConfigField)>
  {
    DictOf(Unwrap(ServerKeys(SupportedServerKeys(), ["load", "embedding.load", "llm.load", "llm.prediction"], TupleOf([]))))
  }

  /* ---------------------------------------------------------------------
   * Inverting a key map
   * ------------------------------------------------------------------- */

  /** Python's `<` on strings: lexicographic by code point, a proper prefix first. */
  predicate StrLess(a: string, b: string)
    decreases |a|
  {
    if a == [] then b != []
    else if b == [] then false
    else if a[0] != b[0] then a[0] < b[0]
    else StrLess(a[1..], b[1..])
  }

  lemma {:induction false} StrLessIrreflexive(a: string)
    ensures !StrLess(a, a)
    decreases |a|
  {
    if a != [] {
      StrLessIrreflexive(a[1..]);
    }
  }

  lemma {:induction false} StrLessTransitive(a: string, b: string, c: string)
    requires StrLess(a, b) && StrLess(b, c)
    ensures StrLess(a, c)
    decreases |a|
  {
    if a != [] && a[0] == b[0] && b[0] == c[0] {
      StrLessTransitive(a[1..], b[1..], c[1..]);
    }
  }

  lemma {:induction false} StrLessTotal(a: string, b: string)
    requires a != b
    ensures StrLess(a, b) || StrLess(b, a)
    decreases |a|
  {
    if a != [] && b != [] && a[0] == b[0] {
      assert a == [a[0]] + a[1..] && b == [b[0]] + b[1..];
      StrLessTotal(a[1..], b[1..]);
    }
  }

  predicate SortedByKey<V>(s: seq<(string, V)>)
  {
    forall i, j :: 0 <= i < j < |s| ==> StrLess(s[i].0, s[j].0)
  }

  function InsertByKey<V>(x: (string, V), sorted: seq<(string, V)>): (r: seq<(string, V)>)
    ensures multiset(r) == multiset(sorted) + multiset{x}
  {
    if sorted == [] then [x]
    else if StrLess(x.0, sorted[0].0) then [x] + sorted
    else
      assert sorted == [sorted[0]] + sorted[1..];
      [sorted[0]] + InsertByKey(x, sorted[1..])
  }

  /** `sorted(d.items())` for a dict, whose keys are distinct. */
  function SortByKey<V>(items: seq<(string, V)>): (r: seq<(string, V)>)
    ensures multiset(r) == multiset(items)
  {
    if items == [] then []
    else
      assert items == [items[0]] + items[1..];
      InsertByKey(items[0], SortByKey(items[1..]))
  }

  lemma {:induction false} InsertByKeySorted<V>(x: (string, V), sorted: seq<(string, V)>)
    requires SortedByKey(sorted)
    requires forall i :: 0 <= i < |sorted| ==> sorted[i].0 != x.0
    ensures SortedByKey(InsertByKey(x, sorted))
    decreases |sorted|
  {
    if sorted != [] && !StrLess(x.0, sorted[0].0) {
      StrLessTotal(x.0, sorted[0].0);
      InsertByKeySorted(x, sorted[1..]);
      var r := InsertByKey(x, sorted);
      var rest := InsertByKey(x, sorted[1..]);
      assert r == [sorted[0]] + rest;
      forall j | 0 < j < |r|
        ensures StrLess(r[0].0, r[j].0)
      {
        assert r[j] in multiset(rest);
        assert r[j] in multiset(sorted[1..]) + multiset{x};
        if r[j] != x {
          assert r[j] in sorted[1..];
          var k :| 0 <= k < |sorted[1..]| && sorted[1..][k] == r[j];
          assert sorted[k + 1] == r[j];
        }
      }
    } else if sorted != [] {
      var r := [x] + sorted;
      forall i, j | 0 <= i < j < |r|
        ensures StrLess(r[i].0, r[j].0)
      {
        if i == 0 && j > 1 {
          StrLessTransitive(x.0, sorted[0].0, sorted[j - 1].0);
        }
      }
    }
  }

  /** Sorting a dict's items orders them strictly by key and keeps every item. */
  lemma {:induction false} SortByKeySorted<V>(items: seq<(string, V)>)
    requires DistinctKeys(items)
    ensures SortedByKey(SortByKey(items))
    ensures multiset(SortByKey(items)) == multiset(items)
    decreases |items|
  {
    if items != [] {
      var rest := SortByKey(items[1..]);
      SortByKeySorted(items[1..]);
      forall i | 0 <= i < |rest|
        ensures rest[i].0 != items[0].0
      {
        assert rest[i] in multiset(items[1..]);
        var k :| 0 <= k < |items[1..]| && items[1..][k] == rest[i];
        assert items[k + 1] == rest[i];
      }
      InsertByKeySorted(items[0], rest);
    }
  }

  /** ToServerKeymap: client key to the (server key, field) pairs that feed it. */
  type ToServerKeymap = seq<(string, seq<ServerKeyPair>)>

  /** The pairs of `items` whose field writes the given client key, in order. */
  function Bucket(items: seq<ServerKeyPair>, clientKey: string): (b: seq<ServerKeyPair>)
    ensures forall p :: p in b ==> p in items && p.1.clientKey == clientKey
  {
    if items == [] then []
    else
      var b := Bucket(items[..|items| - 1], clientKey);
      if items[|items| - 1].1.clientKey == clientKey then b + [items[|items| - 1]] else b
  }

  /** _invert_config_keymap on items already in order: `setdefault(client_key, []).append(pair)`. */
  function Invert(items: seq<ServerKeyPair>): ToServerKeymap
  {
    if items == [] then []
    else
      var keymap := Invert(items[..|items| - 1]);
      var (serverKey, field) := items[|items| - 1];
      var bucket := match Lookup(keymap, field.clientKey) case Some(b) => b case None => [];
      Put(keymap, field.clientKey, bucket + [(serverKey, field)])
  }

  /** Each client key of the inverted map holds exactly its bucket of pairs, in order; no other key is present. */
  lemma {:induction false} InvertBuckets(items: seq<ServerKeyPair>, clientKey: string)
    ensures Lookup(Invert(items), clientKey) == if Bucket(items, clientKey) == [] then None else Some(Bucket(items, clientKey))
    decreases |items|
  {
    if items != [] {
      InvertBuckets(items[..|items| - 1], clientKey);
      var last := items[|items| - 1];
      if last.1.clientKey != clientKey {
        // Put on another key leaves this one alone
      } else {
        InvertBuckets(items[..|items| - 1], last.1.clientKey);
      }
    }
  }

  lemma {:induction false} BucketHolds(items: seq<ServerKeyPair>, i: nat)
    requires i < |items|
    ensures items[i] in Bucket(items, items[i].1.clientKey)
    decreases |items|
  {
    if i < |items| - 1 {
      BucketHolds(items[..|items| - 1], i);
    }
  }

  lemma {:induction false} BucketSorted(items: seq<ServerKeyPair>, clientKey: string)
    requires SortedByKey(items)
    ensures SortedByKey(Bucket(items, clientKey))
    decreases |items|
  {
    if items != [] {
      var init := items[..|items| - 1];
      assert SortedByKey(init);
      BucketSorted(init, clientKey);
      var b := Bucket(init, clientKey);
      var last := items[|items| - 1];
      if last.1.clientKey == clientKey {
        forall i | 0 <= i < |b|
          ensures StrLess(b[i].0, last.0)
        {
          assert b[i] in init;
          var k :| 0 <= k < |init| && init[k] == b[i];
        }
      }
    }
  }

  /**
   * _invert_config_keymap: every (server key, field) pair of the given map
   * lands under its field's client key, each client key's pairs are in
   * server-key order, and nothing else is there.
   */
  method InvertConfigKeymap(fromServer: seq<ServerKeyPair>) returns (toServer: ToServerKeymap)
    ensures toServer == Invert(SortByKey(fromServer))
    ensures forall clientKey :: (Lookup(toServer, clientKey)
      == if Bucket(SortByKey(fromServer), clientKey) == [] then None else Some(Bucket(SortByKey(fromServer), clientKey)))
  {
    var items := SortByKey(fromServer);
    toServer := [];
    var i := 0;
    while i < |items|
      invariant 0 <= i <= |items|
      invariant toServer == Invert(items[..i])
    {
      InvertStep(items, i);
      var (serverKey, field) := items[i];
      var bucket := match Lookup(toServer, field.clientKey) case Some(b) => b case None => [];
      toServer := Put(toServer, field.clientKey, bucket + [(serverKey, field)]);
      i := i + 1;
    }
    assert items[..i] == items;
    InvertLookups(items);
  }

  lemma InvertStep(items: seq<ServerKeyPair>, i: nat)
    requires i < |items|
    ensures var keymap := Invert(items[..i]);
      var bucket := match Lookup(keymap, items[i].1.clientKey) case Some(b) => b case None => [];
      Invert(items[..i + 1]) == Put(keymap, items[i].1.clientKey, bucket + [items[i]])
  {
    var prefix := items[..i + 1];
    assert prefix[..|prefix| - 1] == items[..i] && prefix[|prefix| - 1] == items[i];
  }

  lemma InvertLookups(items: seq<ServerKeyPair>)
    ensures forall clientKey ::
      Lookup(Invert(items), clientKey) == if Bucket(items, clientKey) == [] then None else Some(Bucket(items, clientKey))
  {
    forall clientKey
      ensures Lookup(Invert(items), clientKey) == if Bucket(items, clientKey) == [] then None else Some(Bucket(items, clientKey))
    {
      InvertBuckets(items, clientKey);
    }
  }

  /**
   * Inverting a dict loses no pair: each one is found under its client
   * key, and every client key's list is sorted by server key.
   */
  lemma InvertLosesNothing(fromServer: seq<ServerKeyPair>)
    requires DistinctKeys(fromServer)
    ensures forall i :: 0 <= i < |fromServer| ==>
      Lookup(Invert(SortByKey(fromServer)), fromServer[i].1.clientKey).Some?
      && fromServer[i] in Lookup(Invert(SortByKey(fromServer)), fromServer[i].1.clientKey).value
    ensures forall clientKey :: Lookup(Invert(SortByKey(fromServer)), clientKey).Some? ==>
      SortedByKey(Lookup(Invert(SortByKey(fromServer)), clientKey).value)
  {
    var sorted := SortByKey(fromServer);
    SortByKeySorted(fromServer);
    forall i | 0 <= i < |fromServer|
      ensures Lookup(Invert(sorted), fromServer[i].1.clientKey).Some?
      ensures fromServer[i] in Lookup(Invert(sorted), fromServer[i].1.clientKey).value
    {
      assert fromServer[i] in multiset(sorted);
      var k :| 0 <= k < |sorted| && sorted[k] == fromServer[i];
      BucketHolds(sorted, k);
      InvertBuckets(sorted, fromServer[i].1.clientKey);
    }
    forall clientKey | Lookup(Invert(sorted), clientKey).Some?
      ensures SortedByKey(Lookup(Invert(sorted), clientKey).value)
    {
      InvertBuckets(sorted, clientKey);
      BucketSorted(sorted, clientKey);
    }
  }

  /** TO_SERVER_LOAD_LLM */
  function ToServerLoadLlm(): ToServerKeymap { Invert(SortByKey(FromServerLoadLlm())) }

  /** TO_SERVER_LOAD_EMBEDDING */
  function ToServerLoadEmbedding(): ToServerKeymap { Invert(SortByKey(FromServerLoadEmbedding())) }

  /** TO_SERVER_PREDICTION */
  function ToServerPrediction(): ToServerKeymap { Invert(SortByKey(FromServerPrediction())) }

  /* ---------------------------------------------------------------------
   * Server configs to client dicts
   * ------------------------------------------------------------------- */

  /**
   * One element of the server's "fields" list written into the client dict:
   * it must be a dict with a "key"; a key the map does not know is skipped,
   * a known one needs a "value" and goes through update_client_config.
   */
  function ApplyServerField(fromServer: seq<(string, ConfigField)>, client: Entries, kv: Json): Result<Entries>
  {
    match kv
    case JObject(d) =>
      (match Index(d, "key")
       case Err(e) => Err(e)
       case Ok(key) =>
         if !Hashable(key) then Err(Builtin(TypeError))
         else
           // only string keys can match a string-keyed dict
           var field := if key.JStr? then Lookup(fromServer, key.s) else None;
           match field
           case None => Ok(client)
           case Some(f) =>
             match Index(d, "value")
             case Err(e) => Err(e)
             case Ok(v) => UpdateClientConfig(f, client, v))
    case _ => Err(Builtin(TypeError))
  }

  /** The server's fields applied in order to an empty client dict. */
  function ApplyServerFields(fromServer: seq<(string, ConfigField)>, kvs: seq<Json>): Result<Entries>
  {
    if kvs == [] then Ok([])
    else
      match ApplyServerFields(fromServer, kvs[..|kvs| - 1])
      case Err(e) => Err(e)
      case Ok(client) => ApplyServerField(fromServer, client, kvs[|kvs| - 1])
  }

  /** `server_config.get("fields", [])`, iterated. */
  function ServerFieldList(serverConfig: Entries): Result<seq<Json>>
  {
    match Lookup(serverConfig, "fields")
    case None => Ok([])
    case Some(v) => IterateValue(v)
  }

  /** parse_server_config against a given server-to-client key map. */
  function ParsedServerConfig(fromServer: seq<(string, ConfigField)>, serverConfig: Entries): Result<Entries>
  {
    match ServerFieldList(serverConfig)
    case Err(e) => Err(e)
    case Ok(kvs) => ApplyServerFields(fromServer, kvs)
  }

  /** Some field of the key map writes this client key. */
  predicate IsClientKey(fromServer: seq<(string, ConfigField)>, k: string)
  {
    exists i :: 0 <= i < |fromServer| && fromServer[i].1.clientKey == k
  }

  /** update_client_config touches only its own client key. */
  lemma UpdateClientConfigKeys(field: ConfigField, client: Entries, value: Json)
    ensures var r := UpdateClientConfig(field, client, value);
      r.Ok? ==> forall k :: HasKey(r.value, k) ==> HasKey(client, k) || k == field.clientKey
  {
    var r := UpdateClientConfig(field, client, value);
    if r.Ok? {
      forall k | HasKey(r.value, k) && k != field.clientKey
        ensures HasKey(client, k)
      {
        assert Lookup(r.value, k).Some?;
      }
    }
  }

  /**
   * parse_server_config builds a dict holding client keys of known fields
   * only, and raises nothing but Python's own errors.
   */
  lemma {:induction false} ApplyServerFieldsKeys(fromServer: seq<(string, ConfigField)>, kvs: seq<Json>)
    ensures var r := ApplyServerFields(fromServer, kvs);
      && (r.Ok? ==> forall k :: HasKey(r.value, k) ==> IsClientKey(fromServer, k))
      && (r.Err? ==> r.error.Builtin?)
    decreases |kvs|
  {
    if kvs != [] {
      ApplyServerFieldsKeys(fromServer, kvs[..|kvs| - 1]);
      match ApplyServerFields(fromServer, kvs[..|kvs| - 1])
      case Err(_) =>
      case Ok(client) =>
        match kvs[|kvs| - 1]
        case JObject(d) =>
          var key := Lookup(d, "key");
          if key.Some? && key.value.JStr? && Lookup(fromServer, key.value.s).Some? {
            var f := Lookup(fromServer, key.value.s).value;
            var i :| 0 <= i < |fromServer| && fromServer[i] == (key.value.s, f);
            assert fromServer[i].1.clientKey == f.clientKey;
            if HasKey(d, "value") {
              UpdateClientConfigKeys(f, client, Lookup(d, "value").value);
              UpdateErrors(f, client, Lookup(d, "value").value);
            }
          }
        case _ =>
    }
  }

  /** update_client_config's failures are Python built-in errors. */
  lemma UpdateErrors(field: ConfigField, client: Entries, value: Json)
    ensures UpdateClientConfig(field, client, value).Err? ==> UpdateClientConfig(field, client, value).error.Builtin?
  {
  }

  /**
   * Fields whose keys the SDK does not know (a newer server) are skipped:
   * a list made only of them parses to an empty dict.
   */
  lemma {:induction false} UnknownServerKeysSkipped(fromServer: seq<(string, ConfigField)>, kvs: seq<Json>)
    requires forall i :: 0 <= i < |kvs| ==>
      kvs[i].JObject? && Get(kvs[i], "key").Some? && Get(kvs[i], "key").value.JStr?
      && !HasKey(fromServer, Get(kvs[i], "key").value.s)
    ensures ApplyServerFields(fromServer, kvs) == Ok([])
    decreases |kvs|
  {
    if kvs != [] {
      UnknownServerKeysSkipped(fromServer, kvs[..|kvs| - 1]);
    }
  }

  /** A known plain key read back from the server lands under its client key. */
  lemma ParsePlainField(fromServer: seq<(string, ConfigField)>, serverKey: string, clientKey: string, value: Json)
    requires Lookup(fromServer, serverKey) == Some(Plain(clientKey))
    ensures ParsedServerConfig(fromServer, [("fields", JArray([KvField(serverKey, value)]))]) == Ok([(clientKey, value)])
  {
    var kvs := [KvField(serverKey, value)];
    var config: Entries := [("fields", JArray(kvs))];
    assert Lookup(config, "fields") == Some(JArray(kvs));
    assert ServerFieldList(config) == Ok(kvs);
    assert kvs[..0] == [];
    var d := [("key", JStr(serverKey)), ("value", value)];
    assert Lookup(d, "key") == Some(JStr(serverKey));
    assert d[1..][0].0 == "value";
    assert Lookup(d, "value") == Some(value);
    var empty: Entries := [];
    assert !HasKey(empty, clientKey);
    assert Put(empty, clientKey, value) == [(clientKey, value)];
    assert UpdateClientConfig(Plain(clientKey), [], value) == Ok([(clientKey, value)]);
    assert ApplyServerField(fromServer, [], kvs[0]) == Ok([(clientKey, value)]);
    assert ApplyServerFields(fromServer, kvs[..0]) == Ok([]);
    assert ApplyServerFields(fromServer, kvs) == Ok([(clientKey, value)]);
  }

  /** parse_server_config: the server's field list mapped to client keys. */
  method ParseServerConfig(serverConfig: Entries) returns (r: Result<Entries>)
    ensures r == ParsedServerConfig(FromServerConfig(), serverConfig)
    ensures r.Ok? ==> forall k :: HasKey(r.value, k) ==> IsClientKey(FromServerConfig(), k)
  {
    r := ParseServerConfigWith(FromServerConfig(), serverConfig);
  }

  /** The loop of parse_server_config, for any server-to-client key map. */
  method ParseServerConfigWith(fromServer: seq<(string, ConfigField)>, serverConfig: Entries) returns (r: Result<Entries>)
    ensures r == ParsedServerConfig(fromServer, serverConfig)
    ensures r.Ok? ==> forall k :: HasKey(r.value, k) ==> IsClientKey(fromServer, k)
  {
    var kvs := ServerFieldList(serverConfig);
    if kvs.Err? {
      return Err(kvs.error);
    }
    var items := kvs.value;
    var result := [];
    var i := 0;
    while i < |items|
      invariant 0 <= i <= |items|
      invariant ApplyServerFields(fromServer, items[..i]) == Ok(result)
    {
      assert items[..i + 1][..i] == items[..i];
      var next := ApplyServerField(fromServer, result, items[i]);
      if next.Err? {
        ApplyServerFieldsFailFast(fromServer, items, i + 1);
        return next;
      }
      result := next.value;
      i := i + 1;
    }
    assert items[..i] == items;
    r := Ok(result);
    ApplyServerFieldsKeys(fromServer, items);
  }

  lemma {:induction false} ApplyServerFieldsFailFast(fromServer: seq<(string, ConfigField)>, kvs: seq<Json>, n: nat)
    requires n <= |kvs| && ApplyServerFields(fromServer, kvs[..n]).Err?
    ensures ApplyServerFields(fromServer, kvs) == ApplyServerFields(fromServer, kvs[..n])
    decreases |kvs| - n
  {
    if n < |kvs| {
      assert kvs[..n + 1][..n] == kvs[..n];
      ApplyServerFieldsFailFast(fromServer, kvs, n + 1);
    } else {
      assert kvs[..n] == kvs;
    }
  }

  /* ---------------------------------------------------------------------
   * Client dicts to server config stacks
   * ------------------------------------------------------------------- */

  /** `set(config.keys())` */
  function KeySet(config: Entries): (ks: set<string>)
    ensures forall k :: k in ks <==> HasKey(config, k)
  {
    set i | 0 <= i < |config| :: config[i].0
  }

  /** The server fields one client key feeds; a field whose setting is absent is dropped. */
  function ConvertFields(config: Entries, pairs: seq<ServerKeyPair>): Result<seq<Json>>
  {
    if pairs == [] then Ok([])
    else
      match ConvertFields(config, pairs[..|pairs| - 1])
      case Err(e) => Err(e)
      case Ok(fields) =>
        var (serverKey, field) := pairs[|pairs| - 1];
        match ToKvField(field, serverKey, config)
        case Err(e) => Err(e)
        case Ok(None) => Ok(fields)
        case Ok(Some(kv)) => Ok(fields + [kv])
  }

  /**
   * The loop of _to_kv_config_stack_base: the fields emitted so far and the
   * client keys struck off `remaining_keys`. Striking a key twice (a key
   * map with a repeated client key) raises KeyError.
   */
  function CollectFields(config: Entries, keymap: ToServerKeymap): Result<(seq<Json>, set<string>)>
  {
    if keymap == [] then Ok(([], {}))
    else
      match CollectFields(config, keymap[..|keymap| - 1])
      case Err(e) => Err(e)
      case Ok((fields, removed)) =>
        var (clientKey, pairs) := keymap[|keymap| - 1];
        if !HasKey(config, clientKey) then Ok((fields, removed))
        else if clientKey in removed then Err(Builtin(KeyError))
        else
          match ConvertFields(config, pairs)
          case Err(e) => Err(e)
          case Ok(more) => Ok((fields + more, removed + {clientKey}))
  }

  /** _to_kv_config_stack_base: any client setting no key map entry covers raises ValueError. */
  function StackBase(config: Entries, keymap: ToServerKeymap): Result<seq<Json>>
  {
    match CollectFields(config, keymap)
    case Err(e) => Err(e)
    case Ok((fields, removed)) =>
      if KeySet(config) <= removed then Ok(fields) else Err(ValueError)
  }

  /** The client keys struck off are exactly the key map's keys the config holds. */
  lemma {:induction false} CollectFieldsRemoved(config: Entries, keymap: ToServerKeymap)
    requires CollectFields(config, keymap).Ok?
    ensures forall k :: k in CollectFields(config, keymap).value.1 <==> HasKey(keymap, k) && HasKey(config, k)
    decreases |keymap|
  {
    if keymap != [] {
      var init := keymap[..|keymap| - 1];
      CollectFieldsRemoved(config, init);
      forall k
        ensures HasKey(keymap, k) <==> HasKey(init, k) || keymap[|keymap| - 1].0 == k
      {
        if HasKey(keymap, k) && keymap[|keymap| - 1].0 != k {
          var i :| 0 <= i < |keymap| && keymap[i].0 == k;
          assert init[i].0 == k;
        }
        if HasKey(init, k) {
          var i :| 0 <= i < |init| && init[i].0 == k;
          assert keymap[i].0 == k;
        }
      }
    }
  }

  /**
   * On a key map with distinct client keys whose conversions all succeed,
   * collecting never fails, and the stack is built exactly when every
   * client setting is one the key map knows.
   */
  lemma {:induction false} CollectFieldsSucceeds(config: Entries, keymap: ToServerKeymap)
    requires DistinctKeys(keymap)
    requires forall i :: 0 <= i < |keymap| ==> ConvertFields(config, keymap[i].1).Ok?
    ensures CollectFields(config, keymap).Ok?
    decreases |keymap|
  {
    if keymap != [] {
      var init := keymap[..|keymap| - 1];
      CollectFieldsSucceeds(config, init);
      CollectFieldsRemoved(config, init);
      var last := keymap[|keymap| - 1];
      assert !HasKey(init, last.0);
    }
  }

  lemma StackBaseUnknownSettings(config: Entries, keymap: ToServerKeymap)
    requires DistinctKeys(keymap)
    requires forall i :: 0 <= i < |keymap| ==> ConvertFields(config, keymap[i].1).Ok?
    ensures StackBase(config, keymap).Ok? <==> forall k :: HasKey(config, k) ==> HasKey(keymap, k)
    ensures StackBase(config, keymap).Err? ==> StackBase(config, keymap).error == ValueError
  {
    CollectFieldsSucceeds(config, keymap);
    CollectFieldsRemoved(config, keymap);
  }

  /** A field the client sends comes from some pair of the key map. */
  predicate FromKeymap(config: Entries, keymap: ToServerKeymap, kv: Json)
  {
    exists i, j :: 0 <= i < |keymap| && 0 <= j < |keymap[i].1| && HasKey(config, keymap[i].0)
      && ToKvField(keymap[i].1[j].1, keymap[i].1[j].0, config) == Ok(Some(kv))
  }

  lemma {:induction false} ConvertFieldsFrom(config: Entries, pairs: seq<ServerKeyPair>)
    requires ConvertFields(config, pairs).Ok?
    ensures forall kv :: kv in ConvertFields(config, pairs).value ==>
      exists j :: 0 <= j < |pairs| && ToKvField(pairs[j].1, pairs[j].0, config) == Ok(Some(kv))
    decreases |pairs|
  {
    if pairs != [] {
      var init := pairs[..|pairs| - 1];
      ConvertFieldsFrom(config, init);
      forall kv | kv in ConvertFields(config, pairs).value
        ensures exists j :: 0 <= j < |pairs| && ToKvField(pairs[j].1, pairs[j].0, config) == Ok(Some(kv))
      {
        if kv in ConvertFields(config, init).value {
          var j :| 0 <= j < |init| && ToKvField(init[j].1, init[j].0, config) == Ok(Some(kv));
          assert pairs[j] == init[j];
        } else {
          assert ToKvField(pairs[|pairs| - 1].1, pairs[|pairs| - 1].0, config) == Ok(Some(kv));
        }
      }
    }
  }

  /** Every field of the stack converts a setting the config holds, through a pair of the key map. */
  lemma {:induction false} CollectFieldsFrom(config: Entries, keymap: ToServerKeymap)
    requires CollectFields(config, keymap).Ok?
    ensures forall kv :: kv in CollectFields(config, keymap).value.0 ==> FromKeymap(config, keymap, kv)
    decreases |keymap|
  {
    if keymap != [] {
      var init := keymap[..|keymap| - 1];
      CollectFieldsFrom(config, init);
      var n := |keymap| - 1;
      forall kv | kv in CollectFields(config, keymap).value.0
        ensures FromKeymap(config, keymap, kv)
      {
        if kv in CollectFields(config, init).value.0 {
          assert FromKeymap(config, init, kv);
          var i, j :| 0 <= i < |init| && 0 <= j < |init[i].1| && HasKey(config, init[i].0)
            && ToKvField(init[i].1[j].1, init[i].1[j].0, config) == Ok(Some(kv));
          assert keymap[i] == init[i];
        } else {
          ConvertFieldsFrom(config, keymap[n].1);
          var j :| 0 <= j < |keymap[n].1| && ToKvField(keymap[n].1[j].1, keymap[n].1[j].0, config) == Ok(Some(kv));
        }
      }
    }
  }

  lemma StackBaseFrom(config: Entries, keymap: ToServerKeymap)
    requires StackBase(config, keymap).Ok?
    ensures forall kv :: kv in StackBase(config, keymap).value ==> FromKeymap(config, keymap, kv)
  {
    CollectFieldsFrom(config, keymap);
  }

  lemma {:induction false} ConvertFieldsFailFast(config: Entries, pairs: seq<ServerKeyPair>, n: nat)
    requires n <= |pairs| && ConvertFields(config, pairs[..n]).Err?
    ensures ConvertFields(config, pairs) == ConvertFields(config, pairs[..n])
    decreases |pairs| - n
  {
    if n < |pairs| {
      assert pairs[..n + 1][..n] == pairs[..n];
      ConvertFieldsFailFast(config, pairs, n + 1);
    } else {
      assert pairs[..n] == pairs;
    }
  }

  lemma {:induction false} CollectFieldsFailFast(config: Entries, keymap: ToServerKeymap, n: nat)
    requires n <= |keymap| && CollectFields(config, keymap[..n]).Err?
    ensures CollectFields(config, keymap) == CollectFields(config, keymap[..n])
    decreases |keymap| - n
  {
    if n < |keymap| {
      assert keymap[..n + 1][..n] == keymap[..n];
      CollectFieldsFailFast(config, keymap, n + 1);
    } else {
      assert keymap[..n] == keymap;
    }
  }

  /** The inner loop of _to_kv_config_stack_base over one client key's pairs. */
  method ConvertClientSetting(config: Entries, pairs: seq<ServerKeyPair>) returns (r: Result<seq<Json>>)
    ensures r == ConvertFields(config, pairs)
  {
    var fields := [];
    var j := 0;
    while j < |pairs|
      invariant 0 <= j <= |pairs|
      invariant ConvertFields(config, pairs[..j]) == Ok(fields)
    {
      assert pairs[..j + 1][..j] == pairs[..j];
      var (serverKey, field) := pairs[j];
      var kv := ToKvField(field, serverKey, config);
      if kv.Err? {
        ConvertFieldsFailFast(config, pairs, j + 1);
        return Err(kv.error);
      }
      if kv.value.Some? {
        fields := fields + [kv.value.value];
      }
      j := j + 1;
    }
    assert pairs[..j] == pairs;
    r := Ok(fields);
  }

  /**
   * _to_kv_config_stack_base: each client setting the key map knows is
   * converted to its server fields; a setting left over raises ValueError.
   */
  method ToKvConfigStackBase(config: Entries, keymap: ToServerKeymap) returns (r: Result<seq<Json>>)
    ensures r == StackBase(config, keymap)
    ensures r.Ok? ==> forall kv :: kv in r.value ==> FromKeymap(config, keymap, kv)
  {
    var fields := [];
    var remaining := KeySet(config);
    ghost var removed: set<string> := {};
    var i := 0;
    while i < |keymap|
      invariant 0 <= i <= |keymap|
      invariant CollectFields(config, keymap[..i]) == Ok((fields, removed))
      invariant removed <= KeySet(config) && remaining == KeySet(config) - removed
    {
      assert keymap[..i + 1][..i] == keymap[..i];
      var (clientKey, pairs) := keymap[i];
      if !HasKey(config, clientKey) {
        i := i + 1;
        continue;
      }
      if clientKey !in remaining {
        CollectFieldsFailFast(config, keymap, i + 1);
        return Err(Builtin(KeyError));
      }
      remaining := remaining - {clientKey};
      removed := removed + {clientKey};
      var more := ConvertClientSetting(config, pairs);
      if more.Err? {
        CollectFieldsFailFast(config, keymap, i + 1);
        return Err(more.error);
      }
      fields := fields + more.value;
      i := i + 1;
    }
    assert keymap[..i] == keymap;
    if remaining != {} {
      return Err(ValueError);
    }
    r := Ok(fields);
    StackBaseFrom(config, keymap);
  }

  /** A config stack layer: its name and its fields. */
  function Layer(name: string, fields: seq<Json>): Json
  {
    JObject([("layerName", JStr(name)), ("config", JObject([("fields", JArray(fields))]))])
  }

  /** The layers of a config stack, when it has them. */
  function Layers(stack: Json): Option<seq<Json>>
  {
    match Get(stack, "layers")
    case Some(JArray(layers)) => Some(layers)
    case _ => None
  }

  /** _api_override_kv_config_stack: the "apiOverride" layer holding the fields, then any further layers. */
  function ApiOverrideKvConfigStack(fields: seq<Json>, additional: seq<Json>): (stack: Json)
    ensures Layers(stack).Some? && |Layers(stack).value| == 1 + |additional|
    ensures Layers(stack).value[0] == Layer("apiOverride", fields)
    ensures Layers(stack).value[1..] == additional
  {
    JObject([("layers", JArray([Layer("apiOverride", fields)] + additional))])
  }

  /** _get_completion_config_layer: a prompt template that just concatenates the messages' contents. */
  function CompletionConfigLayer(): (layer: Json)
    ensures Get(layer, "layerName") == Some(JStr("completeModeFormatting"))
  {
    var jinjaConfig := JObject([
      ("messagesConfig", JObject([("contentConfig", JObject([("type", JStr("string"))]))])),
      ("useTools", JBool(false))]);
    var template := JObject([
      ("type", JStr("jinja")),
      ("jinjaPromptTemplate", JObject([
        ("bosToken", JStr("")),
        ("eosToken", JStr("")),
        ("template", JStr("{% for message in messages %}{{ message['content'] }}{% endfor %}")),
        ("inputConfig", jinjaConfig)])),
      ("stopStrings", JArray([]))]);
    Layer("completeModeFormatting", [KvField("llm.prediction.promptTemplate", template)])
  }

  /** _client_config_to_kv_config_stack */
  function ClientConfigToKvConfigStack(config: Entries, keymap: ToServerKeymap): (r: Result<Json>)
    ensures r.Ok? <==> StackBase(config, keymap).Ok?
    ensures r.Ok? ==> Layers(r.value) == Some([Layer("apiOverride", StackBase(config, keymap).value)])
  {
    match StackBase(config, keymap)
    case Err(e) => Err(e)
    case Ok(fields) =>
      var stack := ApiOverrideKvConfigStack(fields, []);
      assert Layers(stack).value == [Layer("apiOverride", fields)];
      Ok(stack)
  }

  /** load_config_to_kv_config_stack: no config is an empty dict; the key map follows the model kind. */
  function LoadConfigToKvConfigStack(config: Option<Entries>, forLlm: bool): (r: Result<Json>)
    ensures config.None? ==> r.Ok? && Layers(r.value) == Some([Layer("apiOverride", [])])
    ensures config.Some? ==> r == ClientConfigToKvConfigStack(config.value, if forLlm then ToServerLoadLlm() else ToServerLoadEmbedding())
  {
    var dictConfig := if config.Some? then config.value else [];
    CollectFieldsOfEmpty(if forLlm then ToServerLoadLlm() else ToServerLoadEmbedding());
    ClientConfigToKvConfigStack(dictConfig, if forLlm then ToServerLoadLlm() else ToServerLoadEmbedding())
  }

  /** An empty client dict sets nothing: no fields, and no key left over. */
  lemma {:induction false} CollectFieldsOfEmpty(keymap: ToServerKeymap)
    ensures CollectFields([], keymap) == Ok(([], {}))
    ensures StackBase([], keymap) == Ok([])
    decreases |keymap|
  {
    if keymap != [] {
      CollectFieldsOfEmpty(keymap[..|keymap| - 1]);
    }
  }

  /**
   * A response format: a structured-prediction setting object (given by its
   * dict form), a schema class (given by its JSON schema), or a raw value.
   */
  datatype ResponseFormat = SettingStruct(setting: Entries) | SchemaClass(jsonSchema: Json) | RawFormat(raw: Json)

  /** A JSON-schema setting for the server. */
  function JsonSchemaSetting(schema: Json): Json
  {
    JObject([("type", JStr("json")), ("jsonSchema", schema)])
  }

  /**
   * The structured-prediction setting a response format asks for: a raw
   * dict already in json or gbnf form is kept, any other dict with a "type"
   * is taken as a JSON schema, and anything else raises ValueError.
   */
  function ResponseSchema(format: ResponseFormat): (r: Result<Json>)
    ensures format.RawFormat? ==> (r.Err? <==> Get(format.raw, "type").None?)
    ensures r.Err? ==> r.error == ValueError
    ensures format.RawFormat? && r.Ok? && !TypeIs(format.raw, "json") && !TypeIs(format.raw, "gbnf") ==>
      r.value == JsonSchemaSetting(format.raw)
    ensures format.SchemaClass? ==> r == Ok(JsonSchemaSetting(format.jsonSchema))
  {
    match format
    case SettingStruct(setting) => Ok(JObject(setting))
    case SchemaClass(schema) => Ok(JsonSchemaSetting(schema))
    case RawFormat(raw) =>
      if TypeIs(raw, "json") && Get(raw, "jsonSchema").Some? then Ok(raw)
      else if TypeIs(raw, "gbnf") && Get(raw, "gbnfGrammar").Some? then Ok(raw)
      else if Get(raw, "type").Some? then Ok(JsonSchemaSetting(raw))
      else Err(ValueError)
  }

  /** `{"structured": {"type": "json" | "gbnf"}}` matches the config. */
  predicate StructuredInConfig(config: Entries)
  {
    match Lookup(config, "structured")
    case Some(setting) => TypeIs(setting, "json") || TypeIs(setting, "gbnf")
    case None => false
  }

  /**
   * The first half of prediction_config_to_kv_config_stack: whether the
   * result is structured, and the config dict with any response format
   * written under "structured".
   */
  function PreparedPredictionConfig(responseFormat: Option<ResponseFormat>, config: Option<Entries>)
    : (r: Result<(bool, Entries)>)
    ensures responseFormat.Some? && config.Some? && HasKey(config.value, "structured") ==> r == Err(ValueError)
    ensures r.Ok? ==> (r.value.0 <==> responseFormat.Some? || (config.Some? && StructuredInConfig(config.value)))
    ensures r.Ok? && responseFormat.Some? ==>
      ResponseSchema(responseFormat.value).Ok?
      && Lookup(r.value.1, "structured") == Some(ResponseSchema(responseFormat.value).value)
      && forall k :: k != "structured" ==> Lookup(r.value.1, k) == Lookup(if config.Some? then config.value else [], k)
    ensures r.Ok? && responseFormat.None? ==> r.value.1 == if config.Some? then config.value else []
  {
    var dictConfig := if config.Some? then config.value else [];
    match responseFormat
    case Some(format) =>
      if HasKey(dictConfig, "structured") then Err(ValueError)
      else
        (match ResponseSchema(format)
         case Err(e) => Err(e)
         case Ok(schema) => Ok((true, Put(dictConfig, "structured", schema))))
    case None => Ok((StructuredInConfig(dictConfig), dictConfig))
  }

  /**
   * prediction_config_to_kv_config_stack, for any client-to-server key map:
   * the structured flag and the stack, whose first layer overrides the
   * prediction settings and which ends with the completion template layer
   * for a text completion.
   */
  function PredictionConfigStackWith(keymap: ToServerKeymap, responseFormat: Option<ResponseFormat>,
                                     config: Option<Entries>, forTextCompletion: bool): (r: Result<(bool, Json)>)
    ensures responseFormat.Some? && config.Some? && HasKey(config.value, "structured") ==> r == Err(ValueError)
    ensures r.Ok? ==> (r.value.0 <==> responseFormat.Some? || (config.Some? && StructuredInConfig(config.value)))
    ensures r.Ok? ==> Layers(r.value.1).Some? && |Layers(r.value.1).value| == if forTextCompletion then 2 else 1
    ensures r.Ok? ==> (
      && PreparedPredictionConfig(responseFormat, config).Ok?
      && var prepared := PreparedPredictionConfig(responseFormat, config).value.1;
      && StackBase(prepared, keymap).Ok?
      && Layers(r.value.1).value[0] == Layer("apiOverride", StackBase(prepared, keymap).value))
    ensures r.Ok? && forTextCompletion ==> Layers(r.value.1).value[1] == CompletionConfigLayer()
  {
    match PreparedPredictionConfig(responseFormat, config)
    case Err(e) => Err(e)
    case Ok((structured, dictConfig)) =>
      match StackBase(dictConfig, keymap)
      case Err(e) => Err(e)
      case Ok(fields) =>
        var additional := if forTextCompletion then [CompletionConfigLayer()] else [];
        Ok((structured, ApiOverrideKvConfigStack(fields, additional)))
  }

  /** prediction_config_to_kv_config_stack on the prediction settings' key map. */
  function PredictionConfigToKvConfigStack(responseFormat: Option<ResponseFormat>, config: Option<Entries>,
                                           forTextCompletion: bool): Result<(bool, Json)>
  {
    PredictionConfigStackWith(ToServerPrediction(), responseFormat, config, forTextCompletion)
  }

}
