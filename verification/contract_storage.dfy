/**
 * `STORAGE_KEYS` and `contractStorage` (client/lib/localStorage.ts): named
 * accessors for the contract dashboard's keys. Structured values go through
 * the JSON codec; the active tab and the custom query are stored as raw strings.
 */
module ContractStorage {
  import opened Wrappers
  import opened Json
  import opened LocalStorage

  // Contract dashboard
  const ContractDataKey := "contract-data"
  const ContractActiveTabKey := "contract-active-tab"
  const ApiConfigKey := "api-config"
  const AnalysisTypeKey := "analysis-type"
  const CustomQueryKey := "custom-query"
  // User preferences
  const ThemeKey := "app-theme"
  const LanguageKey := "app-language"
  // UI state
  const SidebarCollapsedKey := "sidebar-collapsed"
  const UploadMinimizedKey := "upload-minimized"
  // Recent activity
  const RecentUploadsKey := "recent-uploads"
  const RecentAnalysesKey := "recent-analyses"

  /** The five keys `clearAll` removes. */
  const ContractKeys: set<string> :=
    {ContractDataKey, ContractActiveTabKey, ApiConfigKey, AnalysisTypeKey, CustomQueryKey}

  /** The keys reserved for preferences, UI state and recent activity. */
  const ReservedKeys: set<string> :=
    {ThemeKey, LanguageKey, SidebarCollapsedKey, UploadMinimizedKey, RecentUploadsKey, RecentAnalysesKey}

  /** The tab shown when none is stored. */
  const DefaultTab := "analysis"

  /** The analysis type used when none is stored: `{type: 'Contract Review'}`. */
  const DefaultAnalysisType := JObj(map["type" := JStr("Contract Review")])

  /** No reserved key is one of the contract keys, so `clearAll` never touches one. */
  lemma ReservedKeysAreNotContractKeys()
    ensures ReservedKeys !! ContractKeys
    ensures |ContractKeys| == 5
  {
  }

  function GetContractData(store: BrowserStorage, json: Codec<Json>): (r: Json)
    reads store
    ensures !Decodes(store, json, ContractDataKey) ==> r == JNull
    ensures Decodes(store, json, ContractDataKey) ==> r == json.parse(store.items[ContractDataKey]).value
  {
    GetStoredJSON(store, json, ContractDataKey, JNull)
  }

  method SetContractData(store: BrowserStorage, json: Codec<Json>, data: Json) returns (ok: bool)
    modifies store`items
    ensures ok <==> store.Writable()
    ensures store.items == if ok then old(store.items)[ContractDataKey := json.serialize(data)] else old(store.items)
    ensures ok && Lawful(json) ==> GetContractData(store, json) == data
    ensures SameExcept(old(store.items), store.items, {ContractDataKey})
  {
    ok := SetStoredJSON(store, json, ContractDataKey, data);
  }

  method ClearContractData(store: BrowserStorage) returns (ok: bool)
    modifies store`items
    ensures ok <==> store.Reachable()
    ensures store.items == if ok then old(store.items) - {ContractDataKey} else old(store.items)
    ensures ok ==> ContractDataKey !in store.items
    ensures SameExcept(old(store.items), store.items, {ContractDataKey})
  {
    ok := store.RemoveItem(ContractDataKey);
  }

  /** `getActiveTab`: the raw stored string when it is non-empty, else `'analysis'`; never empty. */
  function GetActiveTab(store: BrowserStorage): (r: string)
    reads store
    ensures r != ""
    ensures (&& store.Reachable()
             && ContractActiveTabKey in store.items
             && store.items[ContractActiveTabKey] != "") ==> r == store.items[ContractActiveTabKey]
    ensures (|| !store.Reachable()
             || ContractActiveTabKey !in store.items
             || store.items[ContractActiveTabKey] == "") ==> r == DefaultTab
  {
    var stored := store.GetItem(ContractActiveTabKey);
    if stored.Some? && stored.value != "" then stored.value else DefaultTab
  }

  /** `setActiveTab`: a raw write, which a later `getActiveTab` reads back unless the tab is empty. */
  method SetActiveTab(store: BrowserStorage, tab: string) returns (ok: bool)
    modifies store`items
    ensures ok <==> store.Writable()
    ensures store.items == if ok then old(store.items)[ContractActiveTabKey := tab] else old(store.items)
    ensures ok ==> GetActiveTab(store) == if tab != "" then tab else DefaultTab
    ensures SameExcept(old(store.items), store.items, {ContractActiveTabKey})
  {
    ok := store.SetItem(ContractActiveTabKey, tab);
  }

  function GetApiConfig(store: BrowserStorage, json: Codec<Json>): (r: Json)
    reads store
    ensures !Decodes(store, json, ApiConfigKey) ==> r == JNull
    ensures Decodes(store, json, ApiConfigKey) ==> r == json.parse(store.items[ApiConfigKey]).value
  {
    GetStoredJSON(store, json, ApiConfigKey, JNull)
  }

  method SetApiConfig(store: BrowserStorage, json: Codec<Json>, config: Json) returns (ok: bool)
    modifies store`items
    ensures ok <==> store.Writable()
    ensures store.items == if ok then old(store.items)[ApiConfigKey := json.serialize(config)] else old(store.items)
    ensures ok && Lawful(json) ==> GetApiConfig(store, json) == config
    ensures SameExcept(old(store.items), store.items, {ApiConfigKey})
  {
    ok := SetStoredJSON(store, json, ApiConfigKey, config);
  }

  method ClearApiConfig(store: BrowserStorage) returns (ok: bool)
    modifies store`items
    ensures ok <==> store.Reachable()
    ensures store.items == if ok then old(store.items) - {ApiConfigKey} else old(store.items)
    ensures ok ==> ApiConfigKey !in store.items
    ensures SameExcept(old(store.items), store.items, {ApiConfigKey})
  {
    ok := store.RemoveItem(ApiConfigKey);
  }

  function GetAnalysisType(store: BrowserStorage, json: Codec<Json>): (r: Json)
    reads store
    ensures !Decodes(store, json, AnalysisTypeKey) ==> r == DefaultAnalysisType
    ensures Decodes(store, json, AnalysisTypeKey) ==> r == json.parse(store.items[AnalysisTypeKey]).value
  {
    GetStoredJSON(store, json, AnalysisTypeKey, DefaultAnalysisType)
  }

  method SetAnalysisType(store: BrowserStorage, json: Codec<Json>, analysisType: Json) returns (ok: bool)
    modifies store`items
    ensures ok <==> store.Writable()
    ensures store.items == if ok then old(store.items)[AnalysisTypeKey := json.serialize(analysisType)] else old(store.items)
    ensures ok && Lawful(json) ==> GetAnalysisType(store, json) == analysisType
    ensures SameExcept(old(store.items), store.items, {AnalysisTypeKey})
  {
    ok := SetStoredJSON(store, json, AnalysisTypeKey, analysisType);
  }

  /** `getCustomQuery`: the raw stored string, or `''` when it cannot be read. */
  function GetCustomQuery(store: BrowserStorage): (r: string)
    reads store
    ensures store.Reachable() && CustomQueryKey in store.items ==> r == store.items[CustomQueryKey]
    ensures !store.Reachable() || CustomQueryKey !in store.items ==> r == ""
  {
    var stored := store.GetItem(CustomQueryKey);
    if stored.Some? && stored.value != "" then stored.value else ""
  }

  /** `setCustomQuery`: a raw write, which a later `getCustomQuery` reads back exactly. */
  method SetCustomQuery(store: BrowserStorage, query: string) returns (ok: bool)
    modifies store`items
    ensures ok <==> store.Writable()
    ensures store.items == if ok then old(store.items)[CustomQueryKey := query] else old(store.items)
    ensures ok ==> GetCustomQuery(store) == query
    ensures SameExcept(old(store.items), store.items, {CustomQueryKey})
  {
    ok := store.SetItem(CustomQueryKey, query);
  }

  /**
   * `clearAll`: five removals, one per contract key. When storage can be reached
   * exactly those five keys are gone; every other key, the reserved ones
   * included, is as it was. The removals' results are ignored.
   */
  method ClearAll(store: BrowserStorage)
    modifies store`items
    ensures store.items == if store.Reachable() then old(store.items) - ContractKeys else old(store.items)
    ensures SameExcept(old(store.items), store.items, ContractKeys)
    ensures store.Reachable() ==> GetActiveTab(store) == DefaultTab && GetCustomQuery(store) == ""
  {
    var _ := store.RemoveItem(ContractDataKey);
    var _ := store.RemoveItem(ContractActiveTabKey);
    var _ := store.RemoveItem(ApiConfigKey);
    var _ := store.RemoveItem(AnalysisTypeKey);
    var _ := store.RemoveItem(CustomQueryKey);
  }
}
