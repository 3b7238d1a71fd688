/**
 * getAvailableModels: the model list is served from a cache keyed by the base
 * URL; otherwise the vendor's list is mapped entry by entry, or, when the
 * request yields nothing, the configured model alone is offered; either result
 * is cached.
 */
module ModelDiscovery {
  import opened Wrappers
  import opened Provider

  /** One entry of the vendor's model list, as far as it is read. */
  datatype ModelEntry = ModelEntry(
    id: Option<string>,
    name: Option<string>,
    description: Option<string>,
    contextLength: Option<nat>,
    maxTokens: Option<nat>,
    supportsFunctions: Option<bool>,
    supportsStreaming: Option<bool>,
    strengths: Option<seq<string>>)

  /** The decoded list reply: the entries under `data` or under `models`. */
  datatype ModelsReply = ModelsReply(data: Option<seq<ModelEntry>>, models: Option<seq<ModelEntry>>)

  datatype ModelCapabilities = ModelCapabilities(
    contextWindow: Option<nat>,
    supportsFunctions: bool,
    supportsStreaming: bool,
    strengths: seq<string>)

  datatype ModelInfo = ModelInfo(
    id: Option<string>,
    name: Option<string>,
    provider: string,
    isDefault: bool,
    description: string,
    capabilities: ModelCapabilities)

  const ProviderName: string := "Custom API"
  const DefaultDescription: string := "Custom API model"
  const DefaultStrengths: seq<string> := ["General purpose"]

  /** The cache, keyed by provider id; the service behind it is shared. */
  type ModelCache = map<string, seq<ModelInfo>>

  /** The cache key of an adapter. */
  function ProviderId(adapter: Adapter): string
  {
    "custom-api-" + adapter.baseUrl
  }

  /** `a || b` on an optional string: the empty string counts as absent. */
  function OrText(a: Option<string>, b: Option<string>): (r: Option<string>)
    ensures a.Some? && a.value != "" ==> r == a
    ensures !(a.Some? && a.value != "") ==> r == b
  {
    if a.Some? && a.value != "" then a else b
  }

  /** `a || b` on an optional count: zero counts as absent. */
  function OrCount(a: Option<nat>, b: Option<nat>): (r: Option<nat>)
    ensures a.Some? && a.value != 0 ==> r == a
    ensures !(a.Some? && a.value != 0) ==> r == b
  {
    if a.Some? && a.value != 0 then a else b
  }

  /**
   * One entry mapped: id falls back to the name and the name to the id, a
   * description and strengths have defaults, the context window is the context
   * length or else the token maximum, a capability flag holds unless it is
   * explicitly false, and the entry is the default exactly when its own id is
   * the configured model.
   */
  function ToModelInfo(configuredModel: string, e: ModelEntry): (m: ModelInfo)
    ensures m.provider == ProviderName
    ensures m.isDefault <==> e.id == Some(configuredModel)
    ensures m.id == OrText(e.id, e.name) && m.name == OrText(e.name, e.id)
    ensures (e.id.Some? && e.id.value != "") || (e.name.Some? && e.name.value != "") ==> m.id.Some? && m.name.Some?
    ensures m.description == (if e.description.Some? && e.description.value != "" then e.description.value else DefaultDescription)
    ensures m.capabilities.contextWindow == OrCount(e.contextLength, e.maxTokens)
    ensures m.capabilities.supportsFunctions <==> e.supportsFunctions != Some(false)
    ensures m.capabilities.supportsStreaming <==> e.supportsStreaming != Some(false)
    ensures m.capabilities.strengths == e.strengths.GetOr(DefaultStrengths)
  {
    ModelInfo(
      OrText(e.id, e.name),
      OrText(e.name, e.id),
      ProviderName,
      e.id == Some(configuredModel),
      if e.description.Some? && e.description.value != "" then e.description.value else DefaultDescription,
      ModelCapabilities(
        OrCount(e.contextLength, e.maxTokens),
        e.supportsFunctions != Some(false),
        e.supportsStreaming != Some(false),
        e.strengths.GetOr(DefaultStrengths)))
  }

  /** The entries of a reply: `data`, else `models`, else none. */
  function ReplyEntries(reply: ModelsReply): seq<ModelEntry>
  {
    if reply.data.Some? then reply.data.value
    else if reply.models.Some? then reply.models.value
    else []
  }

  function ToModelInfos(configuredModel: string, entries: seq<ModelEntry>): (ms: seq<ModelInfo>)
    ensures |ms| == |entries|
    ensures forall k :: 0 <= k < |entries| ==> ms[k] == ToModelInfo(configuredModel, entries[k])
  {
    if |entries| == 0 then []
    else ToModelInfos(configuredModel, entries[..|entries| - 1]) + [ToModelInfo(configuredModel, entries[|entries| - 1])]
  }

  /** The list offered when the vendor gives none: the configured model, marked default and fully capable. */
  function FallbackModels(configuredModel: string): (ms: seq<ModelInfo>)
    ensures |ms| == 1
    ensures ms[0].id == Some(configuredModel) && ms[0].name == Some(configuredModel)
    ensures ms[0].isDefault && ms[0].capabilities.supportsFunctions && ms[0].capabilities.supportsStreaming
    ensures ms[0].capabilities.contextWindow.None?
    ensures ms[0].provider == ProviderName && ms[0].description == DefaultDescription
    ensures ms[0].capabilities.strengths == DefaultStrengths
  {
    [ModelInfo(Some(configuredModel), Some(configuredModel), ProviderName, true, DefaultDescription,
               ModelCapabilities(None, true, true, DefaultStrengths))]
  }

  /** The result of one call: the list, the cache afterwards, and whether the vendor was asked. */
  datatype Listing = Listing(models: seq<ModelInfo>, cache: ModelCache, requested: bool)

  /**
   * One call. `reply` is what the list request yields when it is made: `None`
   * for a failed request, a non-success status or an unreadable body.
   */
  function AvailableModels(adapter: Adapter, cache: ModelCache, reply: Option<ModelsReply>): (r: Listing)
    ensures ProviderId(adapter) in cache ==> r == Listing(cache[ProviderId(adapter)], cache, false)
    ensures ProviderId(adapter) !in cache ==>
      && r.requested
      && r.cache == cache[ProviderId(adapter) := r.models]
      && (reply.None? ==> r.models == FallbackModels(adapter.model))
      && (reply.Some? ==> r.models == ToModelInfos(adapter.model, ReplyEntries(reply.value)))
  {
    var key := ProviderId(adapter);
    if key in cache then Listing(cache[key], cache, false)
    else
      var models :=
        if reply.Some? then ToModelInfos(adapter.model, ReplyEntries(reply.value))
        else FallbackModels(adapter.model);
      Listing(models, cache[key := models], true)
  }

  /** A second call returns the same list without asking the vendor, whatever it would reply. */
  lemma SecondCallIsServedFromCache(adapter: Adapter, cache: ModelCache, first: Option<ModelsReply>, second: Option<ModelsReply>)
    ensures var r1 := AvailableModels(adapter, cache, first);
      var r2 := AvailableModels(adapter, r1.cache, second);
      r2 == Listing(r1.models, r1.cache, false)
  {
  }

  /** A reply with an empty list is taken as it is: no fallback entry is added. */
  lemma EmptyListIsNotReplacedByFallback(adapter: Adapter, cache: ModelCache)
    requires ProviderId(adapter) !in cache
    ensures AvailableModels(adapter, cache, Some(ModelsReply(Some([]), None))).models == []
  {
  }

  /** In a mapped list the default entries are exactly those whose own id is the configured model. */
  lemma DefaultIsTheConfiguredId(adapter: Adapter, cache: ModelCache, reply: ModelsReply, k: nat)
    requires ProviderId(adapter) !in cache
    requires k < |ReplyEntries(reply)|
    ensures var ms := AvailableModels(adapter, cache, Some(reply)).models;
      k < |ms| && (ms[k].isDefault <==> ReplyEntries(reply)[k].id == Some(adapter.model))
  {
  }

  /** An entry known only by its name is never the default, even when the name is the configured model. */
  lemma NameOnlyEntryIsNeverDefault(configuredModel: string, e: ModelEntry)
    requires e.id.None? && e.name == Some(configuredModel)
    ensures !ToModelInfo(configuredModel, e).isDefault
    ensures ToModelInfo(configuredModel, e).id == Some(configuredModel)
  {
  }
}
