# Contract dashboard client: persistence layer and API client, modelled in Dafny

This project models the client-side core of a contract-analysis dashboard:

- **Safe storage** (`client/lib/localStorage.ts`): `safeLocalStorage` over the
  browser's localStorage, where every call returns a sentinel (`null`/`false`)
  instead of throwing; the JSON codec `getStoredJSON`/`setStoredJSON` with its
  uniform fallback; `STORAGE_KEYS` and the `contractStorage` facade, which mixes
  raw-string keys (active tab, custom query) with JSON keys; and the generic
  per-key `StorageManager<T>`.
- **Write-through hooks** (`client/lib/useLocalStorage.ts`): `useLocalStorage`
  with React taken away, an object holding the cached value of one key; the
  cross-tab `storage` event handler of `useLocalStorageSync`; the boolean and
  array updaters of `useLocalStorageBoolean` and `useLocalStorageArray`.
- **API client** (`client/lib/api-service.ts`): the configuration slot, the
  credential check, the multipart field list, the error-message rule for non-OK
  responses and the success-field defaulting of `uploadAndAnalyze`.

Files: `wrappers.dfy` (Option, Result), `json.dfy` (parsed JSON values,
truthiness, property reads, the abstract codec), `local_storage.dfy`
(`LocalStorage`), `contract_storage.dfy` (`ContractStorage`),
`use_local_storage.dfy` (`UseLocalStorage`), `api_service.dfy` (`Api`).

How the environment is represented:

- The browser store is the class `LocalStorage.BrowserStorage`: a
  `map<string, string>` field plus three flags fixed by the host. `hasWindow`
  is false during server-side rendering. `blocked` means every localStorage call
  throws. `full` means `setItem` throws (quota exceeded).
- JSON text is abstract. `Json.Codec<V>` pairs `serialize` (`JSON.stringify`)
  with `parse` (`JSON.parse`, None when it throws). `Json.Lawful` states the
  three facts of RFC 8259 the code relies on: the empty string is not JSON
  text, so parsing it fails; a serialization is never the empty string; and
  parsing a serialization gives the value back. Properties that need them carry
  `Lawful(codec)` as a hypothesis.
- Parsed values are the datatype `Json.Json`, with JavaScript truthiness
  (`Truthy`) and property reads (`Get`). This is what `x || default` and
  `data.field` act on. A property read on `null` throws, and the model keeps
  that case.
- The HTTP exchange is an input `Api.HttpOutcome`: `fetch` rejects, or the
  host answers `(ok, body)`. `UploadAndAnalyze` returns the request it sends
  (None when it sends none) together with its result.

Behaviour of the code worth knowing, kept as written:

- `custom_query` is appended whenever the custom query is non-empty. The code
  keys it on the query, not on the analysis type tag
  (client/lib/api-service.ts:22-24).
- On a non-OK response, a body that parses to `null` gives the raw body text as
  the message: reading `detail` of `null` throws inside the same `try`
  (client/lib/api-service.ts:37-41). A body that parses to any other
  non-object (`0`, `"x"`, `[]`) gives `'Analysis failed'`.
- `useLocalStorageBoolean` defines `setTrue` and `setFalse` but does not return
  them (client/lib/useLocalStorage.ts:99). They are modelled as defined.

## Model

| member | source | states |
|---|---|---|
| `LocalStorage.BrowserStorage.GetItem` | client/lib/localStorage.ts:8-17 | Returns the stored string exactly when a window exists, the call does not throw and the key is present; otherwise None (`null`). |
| `LocalStorage.BrowserStorage.SetItem` | client/lib/localStorage.ts:22-32 | Returns true iff the store is reachable and accepts writes. On success the key maps to the value and `getItem` returns it; on failure the store is unchanged. Every other key is untouched either way. |
| `LocalStorage.BrowserStorage.RemoveItem` | client/lib/localStorage.ts:37-47 | Returns true iff the store is reachable. On success the key is absent and `getItem` returns null; on failure (no window, blocked) the store is unchanged. Every other key is untouched. |
| `LocalStorage.BrowserStorage.IsAvailable` | client/lib/localStorage.ts:52-63 | Returns true iff the probe write and removal succeed. Afterwards `__localStorage_test__` is absent, even if it existed before, and all other keys are unchanged. On failure nothing changes. |
| `LocalStorage.BrowserStorage.Clear` | client/lib/localStorage.ts:68-78 | Returns true iff the store is reachable. On success the store is empty; otherwise it is unchanged. |
| `LocalStorage.GetStoredJSON` | client/lib/localStorage.ts:84-94 | Returns the fallback in four cases: no reachable store, key absent, stored string empty, or unparsable. Otherwise returns the parsed value. |
| `LocalStorage.StoredJSONRoundTrip` | client/lib/localStorage.ts:84-106 | With a lawful codec, a stored serialization of `v` reads back as `v`, whatever the fallback. |
| `LocalStorage.SetStoredJSON` | client/lib/localStorage.ts:99-106 | Returns true iff the store accepts writes, and then the key holds the serialization. After a true result, `getStoredJSON(key, fb)` returns the value for every fallback `fb`. |
| `LocalStorage.StorageManager.constructor` | client/lib/localStorage.ts:167-169 | Binds the store, codec, key and default value. |
| `LocalStorage.StorageManager.Get` | client/lib/localStorage.ts:171-173 | Returns the parsed stored value when a non-empty, parseable string is stored and can be read; otherwise (no reachable store, key absent, empty string, unparsable) the default. |
| `LocalStorage.StorageManager.Set` | client/lib/localStorage.ts:175-177 | Returns true iff the store accepts writes. After a true result `exists()` holds, and `get()` returns the value (lawful codec). |
| `LocalStorage.StorageManager.Remove` | client/lib/localStorage.ts:179-181 | Returns true iff the store is reachable, and then the key is removed. After a true result `exists()` is false and `get()` is the default. |
| `LocalStorage.StorageManager.Exists` | client/lib/localStorage.ts:183-185 | True iff the store is reachable and holds some string under the key, i.e. iff `getItem(key)` is not null. |
| `LocalStorage.ExistsWithoutValue` | client/lib/localStorage.ts:171-185 | `exists()` can hold while `get()` returns the default: this happens when the stored string is empty or unparsable. |
| `ContractStorage.ReservedKeysAreNotContractKeys` | client/lib/localStorage.ts:112-131 | The five contract keys are distinct. None of the six reserved keys is among them. |
| `ContractStorage.GetContractData` | client/lib/localStorage.ts:137 | JSON read of `contract-data`: the parsed value when a non-empty, parseable string is stored and can be read; otherwise `null`. |
| `ContractStorage.SetContractData` | client/lib/localStorage.ts:138 | Returns true iff the store accepts writes. On success `contract-data` holds the serialization and a later `getContractData` returns the data (lawful codec); on failure the store is unchanged. Other keys are untouched. |
| `ContractStorage.ClearContractData` | client/lib/localStorage.ts:139 | Returns true iff the store is reachable. On success `contract-data` is absent; on failure the store is unchanged. Other keys are untouched. |
| `ContractStorage.GetActiveTab` | client/lib/localStorage.ts:141 | Returns the raw stored string if it is non-empty, else `'analysis'`. It bypasses the codec and is never empty. |
| `ContractStorage.SetActiveTab` | client/lib/localStorage.ts:142 | Raw write: returns true iff the store accepts writes. On success `contract-active-tab` holds the tab string itself and a later `getActiveTab` returns it, or `'analysis'` for an empty tab; on failure the store is unchanged. |
| `ContractStorage.GetApiConfig` | client/lib/localStorage.ts:144 | JSON read of `api-config`: the parsed value when a non-empty, parseable string is stored and can be read; otherwise `null`. |
| `ContractStorage.SetApiConfig` | client/lib/localStorage.ts:145 | Returns true iff the store accepts writes. On success `api-config` holds the serialization and a later `getApiConfig` returns the config (lawful codec); on failure the store is unchanged. Other keys are untouched. |
| `ContractStorage.ClearApiConfig` | client/lib/localStorage.ts:146 | Returns true iff the store is reachable. On success `api-config` is absent; on failure the store is unchanged. Other keys are untouched. |
| `ContractStorage.GetAnalysisType` | client/lib/localStorage.ts:148 | JSON read of `analysis-type`: the parsed value when a non-empty, parseable string is stored and can be read; otherwise `{type: 'Contract Review'}`. |
| `ContractStorage.SetAnalysisType` | client/lib/localStorage.ts:149 | Returns true iff the store accepts writes. On success `analysis-type` holds the serialization and a later `getAnalysisType` returns the value (lawful codec); on failure the store is unchanged. Other keys are untouched. |
| `ContractStorage.GetCustomQuery` | client/lib/localStorage.ts:151 | Returns the raw stored string (an empty one included), or `''` when the key cannot be read. No codec is involved. |
| `ContractStorage.SetCustomQuery` | client/lib/localStorage.ts:152 | Raw write: returns true iff the store accepts writes. On success `custom-query` holds the query string itself and a later `getCustomQuery` returns exactly it; on failure the store is unchanged. |
| `ContractStorage.ClearAll` | client/lib/localStorage.ts:155-161 | When the store is reachable, removes exactly the five contract keys; otherwise changes nothing. Every other key is unchanged, the reserved ones included. Afterwards the active tab reads `'analysis'` and the custom query reads `''`. |
| `UseLocalStorage.LocalStorageHook.constructor` | client/lib/useLocalStorage.ts:12-14 | The initial cache is `getStoredJSON(key, initialValue)`, so cache and storage agree. |
| `UseLocalStorage.LocalStorageHook.SetValue` | client/lib/useLocalStorage.ts:17-30 | Sets the cache to the literal, or to the updater applied to the previous cache, even when the write fails. Then writes the serialization of the new cache when the store accepts writes; otherwise the store is unchanged. After a successful write, a fresh mount reads the cache (lawful codec). |
| `UseLocalStorage.LocalStorageHook.RemoveValue` | client/lib/useLocalStorage.ts:33-40 | Sets the cache to the mount's `initialValue`, not to an earlier stored value, and removes the key. When the store is reachable, a fresh mount reads the cache. |
| `UseLocalStorage.LocalStorageHook.HandleStorageEvent` | client/lib/useLocalStorage.ts:56-65 | Cache and store are unchanged when the event key differs, `newValue` is null, or `newValue` does not parse. Otherwise the cache becomes the parsed value and is written back as `setValue` does. An empty `newValue` is not JSON text and changes nothing (lawful codec). When the store accepts writes, a cache that agreed with storage still agrees afterwards. |
| `UseLocalStorage.Toggled` | client/lib/useLocalStorage.ts:83-85 | The toggle updater always changes the value. |
| `UseLocalStorage.ToggleTwice` | client/lib/useLocalStorage.ts:83-85 | Toggling twice restores the original value. |
| `UseLocalStorage.Toggle` | client/lib/useLocalStorage.ts:83-85 | Negates the cached boolean and writes it through. |
| `UseLocalStorage.SetTrue` | client/lib/useLocalStorage.ts:87-89 | Sets the cache to true whatever it was, and writes it through. |
| `UseLocalStorage.SetFalse` | client/lib/useLocalStorage.ts:91-93 | Sets the cache to false whatever it was, and writes it through. |
| `UseLocalStorage.SetBoolean` | client/lib/useLocalStorage.ts:95-97 | Sets the cache to the given boolean and writes it through. |
| `UseLocalStorage.Appended` | client/lib/useLocalStorage.ts:120-122 | The `add` updater: length grows by one, the last element is the item, and the prefix is the previous array. |
| `UseLocalStorage.WithoutPositionDrops` | client/lib/useLocalStorage.ts:124-126 | The position filter removes exactly the element at an in-range position. An out-of-range position removes nothing. |
| `UseLocalStorage.Removed` | client/lib/useLocalStorage.ts:124-126 | The `remove(i)` updater: in range gives `prev[..i] + prev[i+1..]` (one shorter); out of range, negative included, gives `prev`. |
| `UseLocalStorage.ReplacingPositionAt` | client/lib/useLocalStorage.ts:128-130 | The position map keeps the length. Only the position equal to the index changes, and it takes the item. |
| `UseLocalStorage.Replaced` | client/lib/useLocalStorage.ts:128-130 | The `update(i, item)` updater keeps the length and puts the item at an in-range `i`. Every other position is unchanged, and an out-of-range `i` changes nothing. |
| `UseLocalStorage.Add` | client/lib/useLocalStorage.ts:120-122 | The cache becomes the appended array, written through. |
| `UseLocalStorage.Remove` | client/lib/useLocalStorage.ts:124-126 | The cache becomes the array without position `index`, written through. |
| `UseLocalStorage.Update` | client/lib/useLocalStorage.ts:128-130 | The cache becomes the array with position `index` replaced, written through. |
| `UseLocalStorage.Clear` | client/lib/useLocalStorage.ts:132-134 | The cache becomes `[]`, written through. |
| `UseLocalStorage.Set` | client/lib/useLocalStorage.ts:136-138 | The cache becomes exactly the given array, written through. |
| `Json.OrElse` | client/lib/api-service.ts:39 | The logical-or default keeps a present truthy property; a missing or falsy one (`null`, `""`, `0`, `false`) gives the fallback. A truthy fallback makes the result truthy. |
| `Api.ErrorDetail` | client/lib/api-service.ts:34-43 | The error message is never falsy. A parsed body with a truthy `detail` gives `detail`. A parsed body whose `detail` is missing or falsy gives `'Analysis failed'`. A body that does not parse (or is `null`) gives the body text, or `'Analysis failed'` if the body is empty; an empty body always gives `'Analysis failed'` (lawful codec). |
| `Api.MapResult` | client/lib/api-service.ts:50-54 | Fails (TypeError) iff the body is `null`. Otherwise each field keeps its truthy value, and an absent or falsy field (`null`, `""`, `0`, `false`) becomes `''`. |
| `Api.SuccessResult` | client/lib/api-service.ts:46-54 | An OK body that does not parse is an error (SyntaxError): unlike the error path, there is no fallback. Otherwise the parsed body is mapped. |
| `Api.ApiService.constructor` | client/lib/api-service.ts:6 | The configuration slot starts empty. |
| `Api.ApiService.SetConfig` | client/lib/api-service.ts:8-10 | Overwrites the single slot, so the last call wins. |
| `Api.ApiService.UploadAndAnalyze` | client/lib/api-service.ts:12-58 | Without a non-empty key: sends nothing and fails with `'OpenAI API key not configured'`. Otherwise sends one POST to `http://localhost:8501/api/analyze` with fields `file`, `openai_api_key`, `analysis_type`, plus `custom_query` last iff the query is non-empty. A rejected fetch propagates its error, a non-OK answer throws the error detail, and an OK answer gives the success mapping. |
| `Api.CustomQueryScenario` | client/lib/api-service.ts:12-54 | Key `sk-test`, type `Custom Query` with its query, and an OK body without `negotiations`. The form has 4 fields, the last two being the type and the query, and the result is `{analysis: "ok", keyPoints: "kp", negotiations: ""}`. |
| `Api.ErrorScenarios` | client/lib/api-service.ts:34-43 | A non-OK body `{"detail":"rate limited"}` gives the message `"rate limited"`. A non-OK non-JSON body `oops` gives `"oops"`. |

## Left out

- The JSON text grammar. `JSON.stringify`/`JSON.parse` are an abstract codec constrained only by `Json.Lawful`.
- Numbers in parsed JSON are integers. Only zero versus non-zero matters to the code (truthiness), so fractions are not modelled.
- `LocalStorage.SetStoredJSON`: the `catch` around `JSON.stringify` (circular structures, BigInt) is not modelled. Model values cannot be circular, so serialization always succeeds.
- Host failures are flags fixed for the lifetime of a `BrowserStorage`, not per-call nondeterminism. A full quota makes every write fail, whatever the size of the value.
- The `console.warn`/`console.error` logging side channel.
- The `NEXT_PUBLIC_API_URL` environment lookup. The base URL is the default constant.
- `fetch`, `FormData`, `File` and `response.text()` are network I/O. The request is a value and the host's answer an input. A failure of `response.text()` itself is not modelled.
- `Api.ApiService.UploadAndAnalyze`: an `AnalysisError` carries the value passed to `new Error(...)`. JavaScript's string conversion of a non-string `detail` into the message is not modelled.
- `ApiConfig` is reduced to its credential and `AnalysisType` to its tag string and optional query. client/lib/types.ts is not part of this model.
- React scheduling: `useState` batching, `useCallback` dependencies, and the stale closure where `setValue` applies an updater to the render-time value. Calls are strictly sequential, and an updater sees the current cache.
- `UseLocalStorage.LocalStorageHook.SetValue`: an updater that throws (the `catch` at client/lib/useLocalStorage.ts:27-29) is not modelled; updaters are total. A literal whose value is itself a function (`instanceof Function`) is not distinguished from an updater.
- The `as T` cast in `getStoredJSON`: the hook's codec parses directly into the hook's value type. A stored value of another shape is not modelled.
- Subscribing and unsubscribing the `storage` listener (client/lib/useLocalStorage.ts:67-68), and delivery order across tabs. Only the handler's state transition is modelled.
- `useLocalStorageAvailable`: its effect only stores the result of `BrowserStorage.IsAvailable`.
- The default arguments of `useLocalStorageBoolean` (`false`) and `useLocalStorageArray` (`[]`). The hook object is built with an explicit initial value.
- client/components/contract-dashboard.tsx (rendering, alerts, effects) is presentation, and it only calls the operations modelled here.
