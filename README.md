# Request de-duplication and expiring cache of Hue's ApiHelper

This project models the client-side cache layer of Hue's `ApiHelper`
(`desktop/core/src/desktop/static/desktop/js/apiHelper.js`), the object
through which the editor's assist panels and autocompleter call the backend.
The layer keeps three pieces of state:

- the **in-flight call queue** of `ApiQueueManager`: one pending deferred per
  key `url + (hash || '')`, removed when it settles;
- the **assist caches** in browser storage: namespaces named
  `hue.assist.<cacheType>.<sourceType>_<user>_<host>`, each a map from url to
  `{timestamp, data}`, expired lazily against a TTL chosen by cache type;
- the **user settings** in browser storage: one map per owner, read with a
  default value.

On top of these sit the two caching decorators, `fetchAssistData` (cache,
then queue, then POST) and `fetchCached` (cache, then the caller's fetch
function), the response classification (`successResponseIsError`,
`genericCacheCondition`, the `notFound` flag), the error-message selection of
`assistErrorCallback`, request cancellation (`cancelActiveRequest`,
`CancellablePromise.cancel`), cache clearing (`clearDbCache`,
`clearAllCaches`) and the two list builders fed by the cache
(`loadDatabases`' database filter and `createNavOptDbTablesJson`).

Modules, one per file:

| file | module | contents |
|---|---|---|
| js_values.dfy | `JsValues` | JavaScript values, truthiness, property access, `indexOf`, ASCII `toLowerCase`, `join` |
| responses.dfy | `Responses` | response classification, `notFound`, `assistErrorCallback` |
| call_queue.dfy | `CallQueue` | `Deferred` (a jQuery deferred), `ApiQueueManager` as a class over a map |
| cancellation.dfy | `Cancellation` | `cancelActiveRequest`, `CancellablePromise.cancel` over a tree of cancellables |
| total_storage.dfy | `TotalStorage` | storage keys, TTL expiry, namespace reads and writes, `clearDbCache`'s key, settings |
| decorators.dfy | `Decorators` | the branch decisions of `fetchAssistData` and `fetchCached` as functions |
| table_lists.dfy | `TableLists` | `loadDatabases`' filter and `createNavOptDbTablesJson`'s de-duplication, as loops proved against functions |
| api_helper.dfy | `Api` | the `ApiHelper` class: its storage, queue and `lastKnownDatabases`, and the methods that change them |

The clock is a parameter `now` (milliseconds). The logged-in user, the host
name, the `CACHEABLE_TTL` table and the debug override
`hueDebug.cacheTimeout` are the fields of `TotalStorage.Env`. `JSON.parse`
is a parameter `parseJson` that yields `None` where it throws. A POST is
abstracted to its outcome (`Decorators.AjaxResult`), and its settlement is a
separate method (`Api.ApiHelper.SettleAssistFetch`) so that other calls can
run while it is in flight.

The model follows the code on points where its behaviour is easy to
misread:

- `fetchAssistData` checks `timeout === 0` only after the cache lookup and
  the queue lookup: a fresh hit is served and a queued call is joined even
  with timeout 0, and a timeout-0 call briefly queues its deferred before
  rejecting it.
- `fetchAssistData` looks in the cache before it looks at `cachedOnly`.
- `fetchCached` has no queue of its own; concurrent misses each call the
  fetch function.
- A "not found" response (status 0, code 500, an error naming Hive's
  `Error 10001` or Impala's `AnalysisException`) resolves and is cached by
  the generic condition even when it carries a traceback.

## Model

| member | source | states |
|---|---|---|
| `JsValues.IndexOf` | desktop/core/src/desktop/static/desktop/js/apiHelper.js:2475 | `indexOf` gives the least index at which the substring occurs, or -1 exactly when it occurs nowhere |
| `JsValues.ContainsIffOccurs` | desktop/core/src/desktop/static/desktop/js/apiHelper.js:2475 | the test `indexOf(sub) !== -1` holds exactly when `sub` occurs somewhere |
| `JsValues.LowerIsLower` | desktop/core/src/desktop/static/desktop/js/apiHelper.js:1180 | lower-casing leaves no upper-case letter and changes nothing in an already lower-case name |
| `Responses.StatusDecidesBoth` | desktop/core/src/desktop/static/desktop/js/apiHelper.js:158-160 | a defined non-zero status makes a response an error and uncacheable by the generic condition; a response the generic condition accepts is an error only through a traceback or code 500/503 |
| `Responses.SuccessResponseIsError` | desktop/core/src/desktop/static/desktop/js/apiHelper.js:320-326 | defined as a defined response with a traceback, a defined non-zero status, or code 500 or 503; its relation to the cache condition is `Responses.StatusDecidesBoth` |
| `Responses.GenericCacheCondition` | desktop/core/src/desktop/static/desktop/js/apiHelper.js:158-160 | defined as a defined response whose status is exactly 0; see `Responses.StatusDecidesBoth` |
| `Responses.NotFoundValue` | desktop/core/src/desktop/static/desktop/js/apiHelper.js:2475 | `data.notFound` is truthy exactly when status is 0, code is 500, `error` is a string, and it contains `Error 10001` or `AnalysisException` |
| `Responses.ErrorMessage` | desktop/core/src/desktop/static/desktop/js/apiHelper.js:334-357 | the handler ignores the failure exactly when the response is defined and its `statusText` is `'abort'` |
| `Responses.ErrorMessageIsFirstAvailable` | desktop/core/src/desktop/static/desktop/js/apiHelper.js:336-357 | apart from an abort, the message is the first available of parsed `message`, raw `responseText`, `message`, `statusText`, string `error`, the response itself when a string, and `'Unknown error occurred'` |
| `Responses.AssistErrorCallback` | desktop/core/src/desktop/static/desktop/js/apiHelper.js:334-371 | an abort has no effect and returns undefined; otherwise the one message is returned, passed to `errorCallback` exactly when there is one, and surfaced exactly when errors are not silenced |
| `Responses.TimeoutRejectionMessage` | desktop/core/src/desktop/static/desktop/js/apiHelper.js:2459-2462 | the timeout rejection `{status: -1}` is reported as `'Unknown error occurred'` |
| `CallQueue.QueueKey` | desktop/core/src/desktop/static/desktop/js/apiHelper.js:26-29 | the key is the url alone when the hash is absent or empty, else the url followed by the hash |
| `CallQueue.QueueKeyConflates` | desktop/core/src/desktop/static/desktop/js/apiHelper.js:26-34 | the key is not injective: `('/a', 'bc')` and `('/ab', 'c')` share one entry |
| `CallQueue.Deferred.Resolve` | desktop/core/src/desktop/static/desktop/js/apiHelper.js:2495 | a pending deferred resolves with the value; a settled one is left as it is |
| `CallQueue.Deferred.Reject` | desktop/core/src/desktop/static/desktop/js/apiHelper.js:2482 | a pending deferred is rejected with the reason; a settled one is left as it is |
| `CallQueue.ApiQueueManager.Valid` | desktop/core/src/desktop/static/desktop/js/apiHelper.js:31-36 | the queue invariant: every queued deferred is pending and no deferred is queued under two keys; kept by `Api.ApiHelper.FetchAssistData` and `Api.ApiHelper.SettleAssistFetch` |
| `CallQueue.ApiQueueManager.constructor` | desktop/core/src/desktop/static/desktop/js/apiHelper.js:21-24 | a new manager has an empty queue |
| `CallQueue.ApiQueueManager.GetQueued` | desktop/core/src/desktop/static/desktop/js/apiHelper.js:26-29 | a deferred is returned exactly when the key is queued, and it is the one queued under the key |
| `CallQueue.ApiQueueManager.AddToQueue` | desktop/core/src/desktop/static/desktop/js/apiHelper.js:31-33 | the key now maps to the deferred, so `getQueued` returns it; every other key is unchanged |
| `CallQueue.ApiQueueManager.Settled` | desktop/core/src/desktop/static/desktop/js/apiHelper.js:34-36 | when a queued deferred settles, exactly its key leaves the queue and every other entry stays |
| `Cancellation.CancelActiveRequest` | desktop/core/src/desktop/static/desktop/js/apiHelper.js:374-378 | a request is aborted once exactly when it exists and its `readyState` is below 4 |
| `Cancellation.Request.Abort` | desktop/core/src/desktop/static/desktop/js/apiHelper.js:376 | `abort()` is counted once and leaves `readyState` as it was |
| `Cancellation.OccursIffRequest` | desktop/core/src/desktop/static/desktop/js/apiHelper.js:61-70 | cancelling a tree reaches a request exactly when the request belongs to the tree |
| `Cancellation.Cancel` | desktop/core/src/desktop/static/desktop/js/apiHelper.js:61-70 | every request of the tree that is not done is aborted once per place it occurs; a done request is never aborted; no `readyState` changes |
| `TotalStorage.CachesAndSettingsDisjoint` | desktop/core/src/desktop/static/desktop/js/apiHelper.js:253-256 | an assist cache identifier never equals a settings slot key |
| `TotalStorage.NamespacesSeparate` | desktop/core/src/desktop/static/desktop/js/apiHelper.js:243-256 | for one user and host, different source types, or different cache types, never share a namespace |
| `TotalStorage.SettingsSlotsSeparate` | desktop/core/src/desktop/static/desktop/js/apiHelper.js:264-289 | different owners never share a settings slot |
| `TotalStorage.UserPrefix` | desktop/core/src/desktop/static/desktop/js/apiHelper.js:243-245 | defined as source type, user and host joined by `_`; its injectivity is `TotalStorage.NamespacesSeparate` |
| `TotalStorage.AssistCacheIdentifier` | desktop/core/src/desktop/static/desktop/js/apiHelper.js:253-256 | defined as `hue.assist.`, the cache type or `default`, `.` and the user prefix; see `TotalStorage.NamespacesSeparate` and `TotalStorage.CachesAndSettingsDisjoint` |
| `TotalStorage.HasExpired` | desktop/core/src/desktop/static/desktop/js/apiHelper.js:232-237 | defined by the strict comparison with the debug timeout or `CACHEABLE_TTL[cacheType]`; its properties are `TotalStorage.ExpiryIsStrict` and `TotalStorage.ExpiryIsMonotone` |
| `TotalStorage.ExpiryIsStrict` | desktop/core/src/desktop/static/desktop/js/apiHelper.js:232-237 | an entry has expired exactly when it is strictly older than the TTL in effect; without a TTL nothing expires; the debug override applies to every cache type |
| `TotalStorage.ExpiryIsMonotone` | desktop/core/src/desktop/static/desktop/js/apiHelper.js:232-237 | an expired entry stays expired as time passes |
| `TotalStorage.FreshLookup` | desktop/core/src/desktop/static/desktop/js/apiHelper.js:2420-2422 | an entry is returned exactly when the key is present and its entry has not expired, and then it is that entry's data |
| `TotalStorage.CacheWriteThenRead` | desktop/core/src/desktop/static/desktop/js/apiHelper.js:2486-2492 | a written entry reads back until its TTL passes and is absent afterwards; other keys and other namespaces read as before |
| `TotalStorage.RemoveAndClearAreLocal` | desktop/core/src/desktop/static/desktop/js/apiHelper.js:1135-1155 | deleting a key removes exactly that key, clearing empties the namespace, and no other namespace changes |
| `TotalStorage.ClearDbUrl` | desktop/core/src/desktop/static/desktop/js/apiHelper.js:1141-1150 | defined as the autocomplete prefix, then a truthy database, `/` and a truthy table, `/` and the fields joined by `/` when given and non-empty; see `TotalStorage.ClearDbUrlOfDatabaseList` |
| `TotalStorage.ClearDbUrlOfDatabaseList` | desktop/core/src/desktop/static/desktop/js/apiHelper.js:1141-1151 | without a (truthy) database, table or non-empty fields the deleted key is the bare autocomplete prefix |
| `TotalStorage.GetSetting` | desktop/core/src/desktop/static/desktop/js/apiHelper.js:285-289 | a stored value other than undefined is returned; a missing or undefined one gives the default |
| `TotalStorage.SetSettingAsWritten` | desktop/core/src/desktop/static/desktop/js/apiHelper.js:264-276 | defined as the code stores: a defined non-null value is set; undefined or null deletes only a truthy stored value; see `TotalStorage.FalsySettingSurvivesRemoval` and `TotalStorage.SetSettingAgreesUnlessFalsy` |
| `TotalStorage.FalsySettingSurvivesRemoval` | desktop/core/src/desktop/static/desktop/js/apiHelper.js:264-278 | as written, setting null on a stored `false` changes nothing, and the read still returns `false` rather than the default |
| `TotalStorage.SettingRoundTrip` | desktop/core/src/desktop/static/desktop/js/apiHelper.js:264-289 | a defined, non-null value is read back; undefined or null makes the default read back; every other id of every slot reads as before |
| `TotalStorage.SetSettingAgreesUnlessFalsy` | desktop/core/src/desktop/static/desktop/js/apiHelper.js:264-278 | the code as written and the documented behaviour agree except when removing a falsy stored value |
| `Decorators.AssistStepOf` | desktop/core/src/desktop/static/desktop/js/apiHelper.js:2412-2462 | defined as the branch chain of fetchAssistData in source order; its properties are `Decorators.FreshHitWins`, `Decorators.QueueUse` and `Decorators.TimeoutZeroAfterCacheAndQueue` |
| `Decorators.AssistSettlement` | desktop/core/src/desktop/static/desktop/js/apiHelper.js:2474-2496 | defined as the success and failure handlers' decision; its properties are `Decorators.CachedOnlyWhenWorthy` and `Decorators.NotFoundWithTracebackIsCached` |
| `Decorators.FetchCachedStep` | desktop/core/src/desktop/static/desktop/js/apiHelper.js:2512-2538 | defined as fetchCached's hit-or-fetch test; characterised by `Decorators.FetchCachedServesFreshEntries` |
| `Decorators.StoreFromSnapshot` | desktop/core/src/desktop/static/desktop/js/apiHelper.js:2522-2530 | defined as the store callback as written (snapshot plus entry written back whole); see `Decorators.OverlappingStoresLoseAnEntry` |
| `Decorators.FreshHitWins` | desktop/core/src/desktop/static/desktop/js/apiHelper.js:2419-2425 | with `noCache` and `refreshCache` off, a fresh entry is served whatever `cachedOnly`, the queue and the timeout say |
| `Decorators.QueueUse` | desktop/core/src/desktop/static/desktop/js/apiHelper.js:2412-2462 | a cached-only call never reaches the queue; a queued key never starts a fetch; a fetch or timeout rejection happens only for an unqueued key, and timeout 0 decides which |
| `Decorators.TimeoutZeroAfterCacheAndQueue` | desktop/core/src/desktop/static/desktop/js/apiHelper.js:2419-2462 | timeout 0 still serves a fresh hit and still joins a queued call; only a first unqueued call is rejected |
| `Decorators.CachedOnlyWhenWorthy` | desktop/core/src/desktop/static/desktop/js/apiHelper.js:2474-2496 | a response is cached only when it resolves, `noCache` is off, its status is 0 and the condition accepts it, and an erroneous one only as "not found"; a defined non-zero status rejects; nothing stays pending |
| `Decorators.NotFoundWithTracebackIsCached` | desktop/core/src/desktop/static/desktop/js/apiHelper.js:2475-2494 | a "not found" answer with a traceback is cached by the generic condition |
| `Decorators.CachedId` | desktop/core/src/desktop/static/desktop/js/apiHelper.js:2516 | the cache id of fetchCached is the queue key of the same url and hash |
| `Decorators.FetchCachedServesFreshEntries` | desktop/core/src/desktop/static/desktop/js/apiHelper.js:2518-2537 | fetchCached answers from the cache exactly when `refreshCache` is off and the entry is fresh, with that entry's data; otherwise the fetch function receives the namespace read at call time |
| `Decorators.WrapperTimeoutOnlyOnMiss` | desktop/core/src/desktop/static/desktop/js/apiHelper.js:485-488 | in the wrappers, timeout 0 still serves a fresh entry, and a miss with timeout 0 sends no request |
| `Decorators.OverlappingStoresLoseAnEntry` | desktop/core/src/desktop/static/desktop/js/apiHelper.js:2514-2530 | two overlapping fetchCached misses on different urls: the second store erases the first one's entry |
| `Decorators.StoresCommuteOnDifferentKeys` | desktop/core/src/desktop/static/desktop/js/apiHelper.js:2486-2492 | stores that re-read the namespace keep each other's entries in either order, and agree with the snapshot store when nothing was written in between |
| `TableLists.CleanDatabases` | desktop/core/src/desktop/static/desktop/js/apiHelper.js:1174-1182 | defined as the filtered, lower-cased list; characterised by `TableLists.CleanDatabasesMembers` |
| `TableLists.Names` | desktop/core/src/desktop/static/desktop/js/apiHelper.js:2155 | jQuery's map keeps exactly the names that are defined and not null |
| `TableLists.TableIdentifier` | desktop/core/src/desktop/static/desktop/js/apiHelper.js:2145-2155 | defined as the database prefix rule followed by the joined names; see `TableLists.DatabasePrefix` |
| `TableLists.Dedup` | desktop/core/src/desktop/static/desktop/js/apiHelper.js:2156-2159 | defined as keeping the first occurrence of each identifier; characterised by `TableLists.DedupSpec` |
| `TableLists.CleanDatabasesMembers` | desktop/core/src/desktop/static/desktop/js/apiHelper.js:1174-1182 | a kept name is exactly the lower-cased form of a listed name other than `_impala_builtins`; all kept names are lower case; the list does not grow |
| `TableLists.UpperCaseBuiltinsKept` | desktop/core/src/desktop/static/desktop/js/apiHelper.js:1176-1180 | the filter looks before lower-casing, so `_IMPALA_BUILTINS` is kept, as `_impala_builtins` |
| `TableLists.CleanDatabaseList` | desktop/core/src/desktop/static/desktop/js/apiHelper.js:1174-1182 | the loop builds exactly the cleaned list of `data.databases`, or an empty list when it is missing |
| `TableLists.DedupSpec` | desktop/core/src/desktop/static/desktop/js/apiHelper.js:2156-2159 | de-duplication keeps every element once, nothing else, in order of first occurrence |
| `TableLists.CreateNavOptDbTables` | desktop/core/src/desktop/static/desktop/js/apiHelper.js:2140-2160 | the loop with its `tableIndex` builds exactly the de-duplicated identifiers of the eligible tables |
| `TableLists.NavOptTablesSpec` | desktop/core/src/desktop/static/desktop/js/apiHelper.js:2140-2160 | the result has no duplicates, holds exactly the identifiers of eligible tables, and keeps first-occurrence order |
| `TableLists.EligibleTablesListed` | desktop/core/src/desktop/static/desktop/js/apiHelper.js:2141-2144 | every table that is not a sub-query and has a chain contributes its identifier |
| `TableLists.DatabasePrefix` | desktop/core/src/desktop/static/desktop/js/apiHelper.js:2148-2155 | a known first part is kept as written in front; an unknown one gets the default database in front of the whole chain |
| `Api.ClearedNamespaces` | desktop/core/src/desktop/static/desktop/js/apiHelper.js:200-217 | the cleared namespaces are exactly the default namespaces of the nine listed source types |
| `Api.IsAuthFailure` | desktop/core/src/desktop/static/desktop/js/apiHelper.js:1188 | the loose test `status == 401` for the number and the string spelling; see `Api.UnauthorizedListingIsNotRecognised` |
| `Api.OptimizerCachesSurviveClearAll` | desktop/core/src/desktop/static/desktop/js/apiHelper.js:200-217 | no optimizer namespace is among those clearAllCaches empties |
| `Api.ApiHelper.constructor` | desktop/core/src/desktop/static/desktop/js/apiHelper.js:163-166 | a new helper knows no databases and shares the queue manager it is given |
| `Api.ApiHelper.FetchAssistData` | desktop/core/src/desktop/static/desktop/js/apiHelper.js:2412-2462 | the outcome follows the branch order; only a new fetch leaves a new pending deferred queued under `(url, sourceType)`; a timeout-0 call returns a rejected deferred and leaves the queue as it was; every other branch leaves the queue alone; the queue invariant is kept |
| `Api.ApiHelper.SettleAssistFetch` | desktop/core/src/desktop/static/desktop/js/apiHelper.js:2474-2496 | the deferred queued for the call, pending until now, settles as the response decides; worthy data is written under the url in the namespace read at that moment; exactly its key leaves the queue and the queue invariant is kept |
| `Api.ApiHelper.FetchCached` | desktop/core/src/desktop/static/desktop/js/apiHelper.js:2512-2538 | the branch is the one of `FetchCachedStep`; on a hit the given promise is resolved with the cached data, on a miss it is untouched |
| `Api.ApiHelper.StoreFetched` | desktop/core/src/desktop/static/desktop/js/apiHelper.js:2522-2530 | the entry is added to the namespace fetchCached read at call time and that snapshot is written back whole, unless the storage write throws |
| `Api.ApiHelper.ClearDbCache` | desktop/core/src/desktop/static/desktop/js/apiHelper.js:1135-1155 | `clearAll` empties the namespace; otherwise exactly the key built from prefix, database, table and fields is deleted |
| `Api.ApiHelper.ClearSourceCache` | desktop/core/src/desktop/static/desktop/js/apiHelper.js:180-198 | a clear event empties the default namespace of its source type |
| `Api.ApiHelper.ClearAllCaches` | desktop/core/src/desktop/static/desktop/js/apiHelper.js:200-217 | the nine default namespaces are empty afterwards and every other namespace reads as before |
| `Api.ApiHelper.SetInTotalStorage` | desktop/core/src/desktop/static/desktop/js/apiHelper.js:264-278 | a defined, non-null value is stored under the id; undefined or null deletes it only when the stored value is truthy; nothing changes when the storage write throws |
| `Api.ApiHelper.GetFromTotalStorage` | desktop/core/src/desktop/static/desktop/js/apiHelper.js:285-289 | a defined stored value is returned, otherwise the default |
| `Api.ApiHelper.LoadDatabasesSucceeded` | desktop/core/src/desktop/static/desktop/js/apiHelper.js:1173-1186 | the cleaned list becomes the last known databases of the source type and is returned |
| `Api.ApiHelper.LoadDatabasesFailed` | desktop/core/src/desktop/static/desktop/js/apiHelper.js:1187-1198 | authentication is requested exactly on a 401 status, and then nothing changes; any other failure forgets the source type's databases and has exactly the effects of `assistErrorCallback` with the caller's options |
| `Api.DatabasesErrorArgument` | desktop/core/src/desktop/static/desktop/js/apiHelper.js:362-370 | what the error callback receives is the argument assistErrorCallback passes on, and nothing after an abort |
| `Api.UnauthorizedListingIsNotRecognised` | desktop/core/src/desktop/static/desktop/js/apiHelper.js:1187-1198 | as written, a 401 failure reaches the callback as its response text, which is not recognised as a 401 |
| `Api.MessagesAreNotAuthFailures` | desktop/core/src/desktop/static/desktop/js/apiHelper.js:2414-2431 | a string message, or the `false` of a cached-only miss, is never recognised as a 401 |
| `Api.SecondPassKeepsStringMessage` | desktop/core/src/desktop/static/desktop/js/apiHelper.js:1197 | as written the message goes through `assistErrorCallback` a second time, and a string message comes out unchanged |
| `Api.DuplicateCallsShareOneRequest` | desktop/core/src/desktop/static/desktop/js/apiHelper.js:2437-2496 | a second call for a key in flight joins the first call's deferred; when that call succeeds with cacheable data, a third call is served from the cache |
| `Api.OverlappingFetchCachedMissesLoseAnEntry` | desktop/core/src/desktop/static/desktop/js/apiHelper.js:2512-2530 | through the class as written: two overlapping fetchCached misses on `/a` and `/b` leave only `/b` stored |

## Left out

- Network I/O (`$.ajax`, `$.post`, `$.get`) and the endpoint wrappers' URL building: a request is its outcome, passed in.
- The `console.warn` fetchAssistData logs when no source type is given: console output only.
- The `huePubSub` subscriptions and the reload detection through `window.performance` in the constructor: only their effect (clearing a namespace) is modelled.
- DOM and UI effects (`$(document).trigger`, `hueUtils.logError`, the editor spinner, the authentication dialog, `withTotalStorage`'s observables): they are reduced to the flags and values the methods return.
- The success and error callbacks that fetchAssistData attaches to a deferred: a jQuery deferred is modelled by its state alone, and `CancellablePromise`'s delegation to it (`then`, `done`, `fail`, `always`, `pipe`, `progress`) is not modelled.
- Polling with `setTimeout` (table statistics, analysis) is not part of this model.
- loadDatabases' Impala invalidation POST before listing: it is network glue ahead of the cached call.
- `getDatabases`, which feeds `createNavOptDbTablesJson` its database list, and the JSON serialisation of that function's result: the list is a parameter and the result a sequence.
- Numbers are integers; floating-point timestamps and TTLs are not modelled.
- `Cancellation.Request.Abort`: the effect of `abort()` on `readyState` and on the request's deferred is not modelled, only the call.
- `JsValues.Lower`: `toLowerCase` is modelled on ASCII letters only.
- `Api.IsAuthFailure`: JavaScript's loose `== 401` also accepts other spellings (`" 401 "`, `[401]`, `"0401"`); only the number and the string `"401"` are modelled.
- `Responses.NotFoundValue`: a truthy `error` that is not a string is taken to give `false`; in the source an array `error` would be searched element-wise and other objects would throw.
- `Api.ApiHelper.SettleAssistFetch`: a storage write that throws inside the success handler (and so leaves the deferred pending) is not modelled.
- `TableLists.CreateNavOptDbTables`: `tableIndex` is a plain object, so an identifier such as `constructor` would read as already present through its prototype; the model uses an empty map.
- `Decorators.AjaxResult`: a success body that is not a JSON object is not modelled.
- Response objects are read through property access only; getters and prototype properties are not modelled.

## Findings

| source | as written | input that shows it | evidently intended | confidence | as-written member | corrected member |
|---|---|---|---|---|---|---|
| desktop/core/src/desktop/static/desktop/js/apiHelper.js:264-278 | a null or undefined value deletes the id only when the stored value is truthy | store `false`, then set `null`: the read still returns `false` | undefined and null remove the value, as the documentation of `setInTotalStorage` says | not executed; high | `TotalStorage.FalsySettingSurvivesRemoval` | `TotalStorage.SettingRoundTrip` |
| desktop/core/src/desktop/static/desktop/js/apiHelper.js:2512-2530 | the store callback writes back the namespace read before the fetch started | two misses on `/a` and `/b` of one empty namespace, stored in turn: `/a` is lost | read the namespace when storing, as fetchAssistData does | not executed; high | `Decorators.OverlappingStoresLoseAnEntry` | `Decorators.StoresCommuteOnDifferentKeys` |
| desktop/core/src/desktop/static/desktop/js/apiHelper.js:1187-1198 | the 401 check reads `status` of the message assistErrorCallback passes on | a listing refused with `{status: 401, responseText: 'Unauthorized'}`: the databases are forgotten and no dialog is shown | check the status of the failed request | not executed; medium | `Api.UnauthorizedListingIsNotRecognised` | `Api.ApiHelper.LoadDatabasesFailed` |

The `ApiHelper` class follows the code as written:
`Api.ApiHelper.SetInTotalStorage` stores through
`TotalStorage.SetSettingAsWritten` and `Api.ApiHelper.StoreFetched` writes
back the snapshot through `Decorators.StoreFromSnapshot`
(`Api.OverlappingFetchCachedMissesLoseAnEntry` shows the lost entry through
the class). The corrected stores, `TotalStorage.SetSetting` and
`TotalStorage.PutEntry`, are defined beside them with their properties
proved, and `TotalStorage.SetSettingAgreesUnlessFalsy` and
`Decorators.StoresCommuteOnDifferentKeys` show where the two agree.
`Api.ApiHelper.LoadDatabasesFailed` receives the failed request, as the
status check intends; `Api.DatabasesErrorArgument` is what it receives as
written.
