# DCP offline-sync core in Dafny

A model of the offline-first client core of DCP (TypeScript), with proofs.

The modelled parts are:

- the persistent **SyncQueue** of pending CREATE/UPDATE/DELETE operations. The whole queue is one array stored under the key `dcp_sync_queue`.
- the **SyncEngine** that drains that queue from the head, with its `isSyncing` guard.
- the last-write-wins **LWWResolver**.
- the two key-value stores:
  - **InMemoryStorage**, a JavaScript `Map`;
  - **BrowserStorage**, IndexedDB documents with sync metadata and optional encryption.
- the **NetworkMonitor**, which tracks status, quality and listeners.
- the **ResourceManager**, which prefetches predicted routes into the store under `cache:<url>`.
- the three drafts under `specs/`:
  - **DCPNetworkManager**, the adaptive fetching mode;
  - **DCPStorageManager** and **DCPResourceManager**, the quota, the eviction order and prefetch on navigation;
  - **DCPSyncEngine**, one envelope round trip and per-patch apply-or-conflict.

How the model is built:

- Objects whose fields the code updates are Dafny classes. Their methods are proved against specification functions: `Drain`, `PrefetchAll`, `StoredDoc`, `ProbeQuality`, `ModeFor`, `OutcomeOf`.
- Pure logic is modelled as functions and lemmas.
- Stored values are one datatype of JavaScript values, so `x || null` and `x || []` keep their truthiness semantics.
- These are parameters:
  - the clock (`now`);
  - generated ids;
  - `navigator`;
  - the crypto provider;
  - the transport;
  - the predictive loader;
  - storage writes or reads that throw.
- Stubs are modelled as shipped:
  - `pullChanges`, `preparePatches`, `applyPatch` and `handleConflict` do nothing;
  - `calculateCurrentSize` returns 0;
  - `getEvictionCandidates` returns `[]`.
- What their comments describe is given separately as specification functions, for example `IntendedEvictionCandidates`.

Several parts of the source are placeholders or simplifications, and the model keeps them as written:

- `retryStrategy` is declared in the configuration (src/interfaces/index.ts:7-11) but never read. A failed dequeue ends the drain, with only a retry TODO (src/sync/SyncEngine.ts:43).
- `sync()` logs and swallows every error (src/sync/SyncEngine.ts:23-24).
- `put` replaces the data but keeps an existing document's version and lastSyncedAt. It sets isDirty and encrypted afresh (src/storage/BrowserStorage.ts:96-107).
- The draft's `applyPatch` is described as an atomic apply that can fail a version check (specs/sync-engine.spec.ts:66, 82), but its body is empty.
- `deleteResources` returns the number of urls, not bytes (specs/resource-manager.spec.ts:59).
- `IResourceMetadata` has no dirty flag (specs/resource-manager.spec.ts:6-13). The eviction order in `getEvictionCandidates`' comment (lines 39-41) therefore ranks every resource.

## Model

| member | source | states |
|---|---|---|
| Queue.DecodeEncode | src/sync/SyncQueue.ts:6-13 | An operation stored as a plain object reads back as the same operation. |
| Queue.SyncQueue.Enqueue | src/sync/SyncQueue.ts:20-33 | The queue becomes the old queue plus the new operation at the tail. The operation carries the given id and timestamp and retryCount 0. No other store key changes. The queue key joins the key order only if it was not stored yet. |
| Queue.SyncQueue.Peek | src/sync/SyncQueue.ts:35-38 | Returns the head, or none on an empty queue, and writes nothing. |
| Queue.SyncQueue.Dequeue | src/sync/SyncQueue.ts:40-47 | On an empty queue: returns none and leaves the store untouched. Otherwise: returns the old head and stores exactly the old tail. No other key changes, and the key order is kept. |
| Queue.SyncQueue.Size | src/sync/SyncQueue.ts:49-52 | The number of pending operations. |
| Queue.RunIsFifo | src/sync/SyncQueue.ts:20-47 | For any series of enqueue and dequeue calls, the operations dequeued followed by those left equal the starting queue followed by every enqueued operation, in order. |
| Engine.SyncEngine.Sync | src/sync/SyncEngine.ts:15-29 | While a cycle is in flight: does nothing. Otherwise: leaves exactly the queue the drain leaves, and `isSyncing` is false again on every path. Every other document in the shared store, and the store's key order, is left alone. |
| Engine.SyncEngine.PullChanges | src/sync/SyncEngine.ts:50-55 | Fetching remote changes is a TODO: the method has no `modifies` clause, so it changes nothing. |
| Engine.SyncEngine.ProcessQueue | src/sync/SyncEngine.ts:31-48 | What it removed, what remains and whether it threw are exactly the drain run of the starting queue under the given failure. No key other than the queue's changes, and the key order is kept. |
| Engine.Drain | src/sync/SyncEngine.ts:31-48 | The drain loop as a function: every operation is either removed or remaining. Only a failing peek lets an error escape. Without a failure nothing remains. |
| Engine.DrainSplitsQueue | src/sync/SyncEngine.ts:31-48 | A drain removes operations only from the head, in order: removed followed by remaining is the original queue. |
| Engine.DrainWithoutFaultEmptiesQueue | src/sync/SyncEngine.ts:31-48 | Without a failure, every operation is removed in queue order and nothing remains. |
| Engine.DrainEmptyQueue | src/sync/SyncEngine.ts:32-33 | Draining an empty queue removes nothing and leaves it empty. |
| Engine.DrainStopsAtFailedDequeue | src/sync/SyncEngine.ts:39-45 | If the dequeue of iteration k throws, the first k operations are gone and the rest remain in order. The error does not escape. |
| Conflict.Resolve | src/sync/ConflictResolver.ts:10-16 | The result is the remote value. |
| Conflict.ResolveIgnoresLocal | src/sync/ConflictResolver.ts:11-15 | Different local values give the same result. |
| Conflict.ResolveSelf | src/sync/ConflictResolver.ts:11-15 | A value resolved against itself is itself. |
| Conflict.ResolveIdempotent | src/sync/ConflictResolver.ts:11-15 | Resolving the result again against the same remote changes nothing. |
| MemoryStore.Lookup | src/storage/InMemoryStorage.ts:14-16 | Null or a truthy value. Never invents a value. Returns a stored truthy value exactly. |
| MemoryStore.LookupAfterPut | src/storage/InMemoryStorage.ts:14-20 | After put(k, v), get(k) is v when v is truthy and null otherwise. Other keys read as before. |
| MemoryStore.LookupAfterDelete | src/storage/InMemoryStorage.ts:14-24 | After delete(k), get(k) is null. Other keys read as before. |
| MemoryStore.InMemoryStorage.Get | src/storage/InMemoryStorage.ts:14-16 | Null or a stored truthy value. A stored truthy value is returned exactly. |
| MemoryStore.InMemoryStorage.Init | src/storage/InMemoryStorage.ts:9-12 | Changes nothing. |
| MemoryStore.InMemoryStorage.Put | src/storage/InMemoryStorage.ts:18-20 | Sets one entry. An existing key keeps its place in key order; a new key goes last. |
| MemoryStore.InMemoryStorage.Delete | src/storage/InMemoryStorage.ts:22-24 | Removes the key. The order of the other keys is kept. |
| MemoryStore.InMemoryStorage.List | src/storage/InMemoryStorage.ts:26-32 | Exactly the stored keys matching the prefix, or all keys; no duplicates. |
| Keys.Filter | src/storage/InMemoryStorage.ts:28-29 | Keeps exactly the keys that start with the prefix, never lengthens the listing, keeps the kept keys in their listed order, and keeps a distinct listing distinct and a sorted one sorted. |
| Keys.FilterEmptyPrefix | src/storage/BrowserStorage.ts:122-125 | Filtering by the empty prefix keeps the whole listing. |
| Keys.ListKeys | src/storage/BrowserStorage.ts:117-126 | Exactly the keys matching a given prefix. An absent or empty prefix lists every key unchanged. |
| Keys.ListKeysIsFilter | src/storage/BrowserStorage.ts:122-125 | The `if (prefix)` guard makes no difference to the result. |
| Keys.Without | src/storage/InMemoryStorage.ts:22-24 | Removes exactly the given key, keeps the others in their listed order, and keeps a distinct listing distinct and a sorted one sorted. |
| Keys.CodeUnits | src/storage/BrowserStorage.ts:119 | Below U+10000, the one code unit is the character's own value, outside the surrogate range. Above it, a high-then-low surrogate pair that decodes back to the character. |
| Keys.Utf16Injective | src/storage/BrowserStorage.ts:119 | Different strings have different UTF-16 encodings, so key order compares them by code units without ties. |
| Keys.UnitsBelowIrreflexive | src/storage/BrowserStorage.ts:119 | No code-unit sequence sorts before itself. |
| Keys.UnitsBelowTransitive | src/storage/BrowserStorage.ts:119 | The code-unit comparison is transitive. |
| Keys.UnitsBelowTotal | src/storage/BrowserStorage.ts:119 | Any two different code-unit sequences are ordered one way or the other. |
| Keys.SurrogatePairSortsBeforeHighBmp | src/storage/BrowserStorage.ts:119 | Keys are ordered by UTF-16 code units, not code points: U+10000 sorts before U+FFFF. |
| Keys.BelowIrreflexive | src/storage/BrowserStorage.ts:117-120 | No key sorts before itself in IndexedDB key order. |
| Keys.BelowTransitive | src/storage/BrowserStorage.ts:117-120 | IndexedDB key order is transitive. |
| Keys.BelowTotal | src/storage/BrowserStorage.ts:117-120 | Any two different keys are ordered one way or the other. |
| Keys.Insert | src/storage/BrowserStorage.ts:109 | Adding a key keeps the key listing sorted and adds exactly that key. A key already present is not duplicated. |
| BrowserStore.StoredDoc | src/storage/BrowserStorage.ts:81-110 | The written document: ciphertext exactly when a provider is set, `encrypted` matching that, always dirty. A new document gets version 1 and `now`; an existing one keeps its version and lastSyncedAt. |
| BrowserStore.ReadDoc | src/storage/BrowserStorage.ts:67-78 | A missing document reads as null. Without a provider, or for data not marked encrypted or not a string, the stored data is returned as is. Otherwise the result is the decryption, or null when decryption throws. |
| BrowserStore.ReadAfterPlainPut | src/storage/BrowserStorage.ts:63-110 | Without a provider, get after put returns the value written. |
| BrowserStore.ReadAfterEncryptedPut | src/storage/BrowserStorage.ts:63-110 | With a provider whose decrypt undoes its encrypt, get after put returns the value written. |
| BrowserStore.ReadWithoutProviderGivesCiphertext | src/storage/BrowserStorage.ts:69-78 | An encrypted document read without a provider comes back as its ciphertext. |
| BrowserStore.ReadFailedDecryptIsNull | src/storage/BrowserStorage.ts:67-75 | A decryption that throws reads as null, and so does a missing document. |
| BrowserStore.RewriteKeepsVersion | src/storage/BrowserStorage.ts:93-107 | A second put of a key keeps version 1 and the first write's timestamp, and is dirty. |
| BrowserStore.BrowserStorage.Init | src/storage/BrowserStorage.ts:37-55 | The database is open afterwards exactly when it was already open or IndexedDB exists. |
| BrowserStore.BrowserStorage.GetDb | src/storage/BrowserStorage.ts:57-61 | Opens on first use and succeeds exactly when the database is then open. |
| BrowserStore.BrowserStorage.Get | src/storage/BrowserStorage.ts:63-79 | Fails with 'Database not initialized' when the database cannot be opened. Otherwise returns the read of the stored document, or null. |
| BrowserStore.BrowserStorage.Put | src/storage/BrowserStorage.ts:81-110 | Writes exactly one document and inserts its key in key order. Fails without writing when the database cannot be opened. |
| BrowserStore.BrowserStorage.Delete | src/storage/BrowserStorage.ts:112-115 | Removes exactly one document and its key, or fails without writing. |
| BrowserStore.BrowserStorage.List | src/storage/BrowserStorage.ts:117-126 | Exactly the document keys matching the prefix, in IndexedDB's UTF-16 code-unit order, or an error. |
| Network.ProbeQuality | src/network/NetworkMonitor.ts:47-72 | OFFLINE exactly when the status is offline; never EXCELLENT. |
| Network.ProbeConnectionMapping | src/network/NetworkMonitor.ts:53-71 | Online: saveData gives POOR, 4g GOOD, 3g MODERATE, 2g POOR, and any other type the GOOD fallback. When reading `navigator` throws, the caught error gives POOR. |
| Network.ProbeWritesOnlyGoodOrOffline | src/network/NetworkMonitor.ts:48-67 | When the probe stores a quality, it stores what it returns: OFFLINE when offline, GOOD online. |
| Network.InitialQualityAsWritten | src/network/NetworkMonitor.ts:19-30 | As written, a monitor built in a browser always starts at GOOD. |
| Network.InitialQualityIgnoresProbe | src/network/NetworkMonitor.ts:19-30 | Started offline, quality is not OFFLINE. Started on 2g, quality differs from the probe's POOR. |
| Network.InitialQuality | src/network/NetworkMonitor.ts:19-30 | Corrected: the starting quality is OFFLINE exactly when offline, and otherwise the probe's answer. |
| Network.NetworkMonitor.InBrowser | src/network/NetworkMonitor.ts:19-30 | Corrected constructor, given a `navigator`: the status follows `navigator.onLine` and the quality is InitialQuality. |
| Network.NetworkMonitor.InBrowserAsWritten | src/network/NetworkMonitor.ts:19-30 | Constructor as written, given a `navigator`: the status follows `navigator.onLine`; the quality is GOOD. |
| Network.NetworkMonitor.constructor | src/network/NetworkMonitor.ts:15-17 | Outside a browser: ONLINE, GOOD, no listeners. |
| Network.NetworkMonitor.GetStatus | src/network/NetworkMonitor.ts:36-38 | Returns the current status. The constructors and UpdateStatus state what it holds. |
| Network.NetworkMonitor.GetQuality | src/network/NetworkMonitor.ts:40-42 | Returns the current quality. Probe, UpdateStatus and SettleProbe state what it holds. |
| Network.NetworkMonitor.OnStatusChange | src/network/NetworkMonitor.ts:32-34 | Appends exactly one listener. |
| Network.NetworkMonitor.Probe | src/network/NetworkMonitor.ts:47-72 | Returns ProbeQuality and stores it only on the offline and fallback paths. |
| Network.NetworkMonitor.UpdateStatus | src/network/NetworkMonitor.ts:74-84 | Same status: nothing happens. A change: the status is recorded; offline sets OFFLINE; online starts a probe; every listener is notified once with the new status, in registration order. |
| Network.NetworkMonitor.SettleProbe | src/network/NetworkMonitor.ts:80 | The probe's answer becomes the quality. |
| Resources.PredictNextResources | src/resources/ResourceManager.ts:37-44 | At most three predictions. There are some exactly for the three routes of the table. |
| Resources.UnknownRoutePredictsNothing | src/resources/ResourceManager.ts:37-44 | Routes outside the table predict no resources. |
| Resources.CacheKey | src/resources/ResourceManager.ts:48 | The key is exactly `cache:` followed by the url. |
| Resources.CacheKeyInjective | src/resources/ResourceManager.ts:48-58 | Different urls never share a cache key. |
| Resources.PrefetchOne | src/resources/ResourceManager.ts:46-62 | Only the url's cache key can change. A truthy cached entry leaves the store as it was. Unless the write fails, the key reads as cached afterwards. |
| Resources.PrefetchOrder | src/resources/ResourceManager.ts:28-30 | The key order after a series of prefetches extends the old order: keys are only appended. |
| Resources.PrefetchAll | src/resources/ResourceManager.ts:28-30 | Only the cache keys of the urls change. Truthy entries are never overwritten. Every url whose write succeeds reads as cached afterwards. |
| Resources.HomePrefetchCachesAvatar | src/resources/ResourceManager.ts:37-44 | Prefetching for '/home' caches 'user-avatar.png' unless its own write fails. |
| Resources.ResourceManager.OptimizeForRoute | src/resources/ResourceManager.ts:16-31 | At OFFLINE or POOR quality the store is untouched. Otherwise the store becomes PrefetchAll of the route's predictions, and the key order PrefetchOrder of them. |
| Resources.ResourceManager.Prefetch | src/resources/ResourceManager.ts:46-62 | Leaves a cached (truthy) entry alone, swallows a failed write, and otherwise writes the mock payload under the cache key. The key joins the key order only if it is new and its write succeeds. |
| AdaptiveNetwork.ModeFor | specs/network-layer.spec.ts:45-51 | AGGRESSIVE exactly above 10 Mbps with latency under 100 ms. OFFLINE exactly without bandwidth. |
| AdaptiveNetwork.BoundaryIsConservative | specs/network-layer.spec.ts:45-51 | Exactly 10 Mbps or exactly 100 ms, with some bandwidth, is CONSERVATIVE. |
| AdaptiveNetwork.ModeIsMonotone | specs/network-layer.spec.ts:45-51 | More bandwidth and less latency never give a more restrictive mode. |
| AdaptiveNetwork.DCPNetworkManager.constructor | specs/network-layer.spec.ts:35-36 | Starts OFFLINE with no metrics. |
| AdaptiveNetwork.DCPNetworkManager.GetMode | specs/network-layer.spec.ts:54-56 | Returns the current mode. The constructor and UpdateState state what it holds. |
| AdaptiveNetwork.DCPNetworkManager.UpdateState | specs/network-layer.spec.ts:40-52 | A rejected probe changes nothing and propagates. Otherwise the metrics are appended and the mode is ModeFor of the latest alone. |
| ResourcePolicy.QuotaBytes | specs/resource-manager.spec.ts:31-33 | The quota in bytes is exactly the configured mebibytes, fractional ones included. It is positive exactly when the configured count is. |
| ResourcePolicy.EvictionRequest | specs/resource-manager.spec.ts:49-51 | No eviction within the quota; otherwise a positive amount equal to the overflow. |
| ResourcePolicy.EnforceQuotaWith | specs/resource-manager.spec.ts:48-56 | 0 within the quota; beyond it, the number of candidates selected for the overflow. |
| ResourcePolicy.DeleteResources | specs/resource-manager.spec.ts:59 | The drafted deletion reports the number of urls it was given. |
| ResourcePolicy.StorageManager.GetEvictionCandidates | specs/resource-manager.spec.ts:38-43 | As shipped, selects nothing. |
| ResourcePolicy.StorageManager.CalculateCurrentSize | specs/resource-manager.spec.ts:58 | As shipped, the current size is 0. |
| ResourcePolicy.StorageManager.EnforceQuota | specs/resource-manager.spec.ts:48-56 | EnforceQuotaWith applied to the shipped size and candidate selection. |
| ResourcePolicy.ShippedEnforceQuotaFreesNothing | specs/resource-manager.spec.ts:38-59 | With the shipped size and candidate stubs, enforcing the quota frees nothing. |
| ResourcePolicy.InsertForEviction | specs/resource-manager.spec.ts:40 | Inserting into an eviction-ordered list keeps it ordered and adds exactly that resource. |
| ResourcePolicy.SortForEviction | specs/resource-manager.spec.ts:40 | Ordered by priority ascending, then lastUsed ascending, and a permutation of the input. |
| ResourcePolicy.TakeUntil | specs/resource-manager.spec.ts:41 | A prefix of the sorted list that frees at least the required space, or all of it. Every shorter prefix falls short. |
| ResourcePolicy.IntendedEvictionCandidates | specs/resource-manager.spec.ts:38-43 | The commented selection: no more urls than resources, none when no space is required, and every url is a resource's url. |
| ResourcePolicy.EvictionExample | specs/resource-manager.spec.ts:38-43 | For three 10-byte resources and 15 bytes required, the documented order selects the two of priority 2, least recently used first. |
| ResourcePolicy.DCPResourceManager.OnNavigation | specs/resource-manager.spec.ts:72-77 | Outside ONLINE_AGGRESSIVE mode nothing is asked or handed on. In that mode the loader's suggestions for the route are handed to prefetch, and a rejecting loader rejects the navigation with its error, before prefetch. |
| SyncProtocol.Envelope | specs/sync-engine.spec.ts:55-60 | Protocol "1.0", client "client-123", exactly the given patches in order, the given timestamp, no signature. |
| SyncProtocol.OutcomeOf | specs/sync-engine.spec.ts:62-69 | A reply patch goes to conflict handling exactly when applying it throws. |
| SyncProtocol.Sync | specs/sync-engine.spec.ts:53-70 | Sends the envelope of the prepared patches. A transport failure propagates before any reply patch is handled. Otherwise each reply patch is handled once, in order, with its outcome. |
| SyncProtocol.PreparePatches | specs/sync-engine.spec.ts:76-79 | As drafted, collects no patches. |
| SyncProtocol.DraftSendsNothing | specs/sync-engine.spec.ts:76-79 | As drafted, a round sends no patches. |
| SyncProtocol.DraftNeverConflicts | specs/sync-engine.spec.ts:81-83 | As drafted, applyPatch never throws, so no reply patch reaches conflict handling. |

## Left out

- Concurrency: the async calls are modelled as running one after another. Interleaved `enqueue`/`dequeue` calls, and the lost updates they allow on the single stored array, are not modelled.
- `isSyncing` is modelled only as the guard seen by a call that starts while a cycle is in flight.
- SyncQueue is modelled over InMemoryStorage, the store DCPClient chooses outside a browser. Its run over BrowserStorage, with encryption and version metadata on the queue document, is not modelled.
- Storage failures are injected by two parameters. `Fault` names the one store call that throws. `failing` names the urls whose prefetch write throws. The in-memory store itself never fails.
- Engine.SyncEngine.Sync: the logged error and the console messages are not modelled. The `storage` field SyncEngine never uses is left out.
- The sync backend is not part of the model. There is no API call in `processQueue`, `pullChanges` does nothing, and retries are neither counted nor used.
- Dates and `Date.now()` are integer parameters. `crypto.randomUUID()` is an id parameter. Nothing checks that ids are unique.
- JavaScript numbers are modelled as integers in stored values, priorities and times, and as reals in sizes, quotas and network metrics. NaN, infinities, fractional stored numbers and double rounding are not modelled. `undefined` is folded into null.
- Keys.Utf16: strings are sequences of Unicode scalar values. A JavaScript string holding a lone surrogate cannot be represented.
- A route named like an inherited `Object.prototype` property (for example `constructor`) would make the prediction table return that property. The model treats every such route as unknown.
- BrowserStorage: the `openDB` call, its `upgrade` callback, a failed open, the unused `queue` object store, and the database name and version are not modelled. Opening is a flag that succeeds exactly when IndexedDB exists.
- BrowserStore.CryptoProvider: encryption with a random IV is given as two functions. The AES-GCM implementation in src/security/CryptoProvider.ts is not modelled, so its round trip is taken as a precondition, not proved.
- Network.NetworkMonitor.UpdateStatus: the probe's `.then` continuation runs at an unknown later time. It is split out as SettleProbe, which the caller runs when the probe settles. The window `online`/`offline` event wiring is not modelled.
- Resources.ResourceManager.OptimizeForRoute: all prefetches share one `now`. The source reads the clock once per url.
- DCPClient (the offline check before `sync()` and the wiring of components), the React bindings and the scripts are not part of this model.
- The `ISyncQueue`, `IConflictResolver` (with context), `IBackgroundSyncManager` and `SyncOptions` interfaces of the drafts are declarations without behaviour. They are not modelled.
- `preFetch` and `handleConflict` in the drafts have empty bodies. OnNavigation returns what it hands to `preFetch`, and Sync records which patches reach `handleConflict`.
- SyncProtocol.Sync: whether a reply patch is rejected is a predicate of that patch alone. The draft's atomic apply with a version check (specs/sync-engine.spec.ts:66, 82) could reject a patch because of what an earlier patch in the same round wrote. That dependence is not modelled.
- ResourcePolicy.IntendedEvictionCandidates models the comment's order. It has no dirty or queued protection, because the source describes none.
- ResourcePolicy.QuotaBytes: the product is exact real arithmetic. The rounding of a JavaScript double for huge or non-representable quotas is not modelled.
- Resources.ResourceManager.OptimizeForRoute: modelled over InMemoryStorage only. In a browser, DCPClient passes BrowserStorage (src/core/DCPClient.ts:24-25, 35). There the cache read in `prefetch` sits outside its `try` (src/resources/ResourceManager.ts:48). A 'Database not initialized' failure would then reject `optimizeForRoute`, and that rejection is not modelled.
- Network.NetworkMonitor.UpdateStatus: listeners are taken not to throw. A listener that throws ends the `forEach` and escapes `updateStatus` (src/network/NetworkMonitor.ts:82), so later listeners go unnotified. The model does not capture that.
- BrowserStore.BrowserStorage.Put: `encrypt` is a total function here. An `encrypt` that rejects aborts `put` before the write (src/storage/BrowserStorage.ts:89), and that is not modelled.

## Findings

| source | as written | input that shows it | evidently intended | confidence | as-written member | corrected member |
|---|---|---|---|---|---|---|
| src/network/NetworkMonitor.ts:19-30 | The browser constructor's initial probe drops its answer. Offline it does not probe at all, so `currentQuality` stays at the default GOOD. | `navigator.onLine` false, giving status OFFLINE with quality GOOD. Or online with `navigator.connection.effectiveType` '2g', giving quality GOOD although the probe answers POOR. | The starting quality is OFFLINE when offline and is otherwise the probe's answer, as `updateStatus` arranges after a change. | medium, not executed | Network.InitialQualityAsWritten, Network.InitialQualityIgnoresProbe | Network.InitialQuality, Network.NetworkMonitor.InBrowser |
