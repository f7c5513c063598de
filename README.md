# Offline layer of a point-of-sale service worker, modelled in Dafny

This project models the decision and state logic of `sw.js`, the service worker
of a point-of-sale web application. The browser's stores and the network are
abstract state and parameters:

- **Request routing** (`Router`): each intercepted request goes network-first
  when its hostname contains `firebaseio.com` or `googleapis.com`, and
  cache-first otherwise. Network-first returns the network's response and stores
  it when its status is 200 and the request is a GET (the bucket is opened
  either way); if the network fails it falls back to the cache,
  and then to a synthesized 503 JSON response. Cache-first returns a hit without
  fetching; on a miss it makes one fetch, passes its outcome on unchanged, and
  stores the response only when it is a 200 of type `basic` and the request is
  a GET.
- **Cache version purge** (`Router.Activate`): activation deletes every bucket
  whose name is not `pagerrys-pos-v1` and leaves that bucket's entries as they
  were.
- **Cache Storage** (`Caches.CacheStorage`): bucket names in creation order and
  a map from bucket name to its request/response entries. `caches.match`
  searches the buckets in creation order. Following the Cache API, only GET
  requests are matched or stored; a `put` of any other request is rejected and
  stores nothing.
- **Offline write queue** (`OfflineStore.ObjectStore`): one object store, `sales`
  or `inventory`, holding records keyed by `id`. Keys are enumerated in
  ascending order, compared character by character. The model covers
  `saveOfflineData` (put), `getOfflineData` (the records not yet synced, in
  store order) and `markAsSynced` (get, set `synced`, put back).
- **Replay** (`Sync`): the Firestore write built for each record, and the two
  drains. A sale becomes a POST to the sales collection. An inventory change
  becomes a DELETE without a body when its type is `delete`, and a PATCH with
  its typed fields otherwise. A drain sends each pending record's request and
  marks the record synced when the response has `ok` set. It rejects at the
  first record that fails and does not undo the marks already made, so a rerun
  picks up the rest. The `sync` and `periodicsync` events choose which drains
  run.

The network is a parameter. For a page request it is the outcome of the one
fetch. For a drain it is a function from each remote request to its outcome.
The requests actually sent are returned, so "no fetch" and "exactly one fetch"
can be stated.

`saveOfflineData` stores the record exactly as given; it does not force
`synced` to false for a new record.

## Model

| member | source | states |
|---|---|---|
| `Text.ContainsIffOccurs` | sw.js:53-55 | the hostname test `includes` succeeds exactly when the needle occurs at some index of the hostname |
| `Router.RemoteApiIffTwoHosts` | sw.js:53-55 | a request is routed network-first exactly when its hostname contains `firebaseio.com` or `googleapis.com`; the third test, for `firestore.googleapis.com`, adds nothing |
| `Router.IsRemoteApi` | sw.js:53-55 | a hostname selects network-first exactly when `firebaseio.com` or `googleapis.com` occurs at some index of it |
| `Router.GoogleApisHostIsNetworkFirst` | sw.js:53-55 | every host ending in `googleapis.com` is routed network-first, among them the precached font stylesheet's `fonts.googleapis.com` (sw.js:10) |
| `Router.NetworkFirst` | sw.js:58-88 | one fetch is made. On success, the network response is returned unchanged and is stored in `pagerrys-pos-v1` exactly when its status is 200 and the request is a GET. A 200 opens the bucket either way; otherwise the cache is unchanged. On a network failure, the cached entry is returned if there is one, and otherwise a 503 `Service Unavailable` with JSON body `{"error":"Offline - Request failed","offline":true}` |
| `Router.CacheFirst` | sw.js:96-120 | a hit is returned with no fetch and no cache change. On a miss, exactly one fetch is made and its outcome is passed on unchanged, including a failed fetch. The response is stored only when it is a 200 of type `basic` and the request is a GET (the bucket is opened either way); otherwise the cache is unchanged |
| `Router.HandleFetch` | sw.js:48-123 | a remote-database request gets network-first's reply and cache update: the network response, else the cached entry, else the offline 503; it is stored exactly when its status is 200 and the request is a GET (the bucket is opened either way). Any other request gets cache-first's: a hit with no fetch, else the fetch's outcome passed on, stored exactly when it is a 200 of type `basic` and the request is a GET. The cache is otherwise unchanged, and the reply fails exactly when a cache-first miss met a failed fetch |
| `Router.OfflineResponse` | sw.js:77-87 | the fallback is a 503 `Service Unavailable`, not `ok`, with a JSON content type and the body `{"error":"Offline - Request failed","offline":true}` |
| `Router.IsCacheable` | sw.js:106 | only a response with status 200 (hence `ok`) of type `basic` is cached; opaque, CORS and error responses never are |
| `Router.Activate` | sw.js:31-39 | afterwards the only bucket name left is at most `pagerrys-pos-v1`, and that bucket, if it existed, keeps exactly its old entries |
| `Caches.MatchIn` | sw.js:71-75 | the lookup answers from the first bucket in creation order that holds the request (no earlier bucket holds it), and finds nothing exactly when no bucket holds it |
| `Caches.CacheStorage.Match` | sw.js:71 | `caches.match` answers only GET requests, from the first bucket in creation order that holds the request, and finds nothing exactly when the request is not a GET or no bucket holds it |
| `Caches.CacheStorage.Keys` | sw.js:31 | `caches.keys` lists every existing bucket exactly once, in creation order |
| `Caches.Retain` | sw.js:36 | deleting buckets keeps exactly the other names, without repetition |
| `Caches.RetainKeepsOrder` | sw.js:36 | deleting buckets keeps the remaining names in their creation order: any two left appear in that order in the old list |
| `Caches.CacheStorage.Open` | sw.js:63 | opening a missing bucket creates it empty and lists it last; opening an existing one changes nothing |
| `Caches.CacheStorage.Put` | sw.js:64 | a GET request's entry is set to the response in the named bucket; any other request leaves the storage unchanged |
| `Caches.CacheStorage.Delete` | sw.js:36 | the named bucket and its entries are gone, the other buckets untouched, and the result says whether it existed |
| `OfflineStore.InsertKey` | sw.js:358 | a new key joins the stored keys keeping them in strictly ascending order, with exactly one key added |
| `OfflineStore.EntriesAscending` | sw.js:316 | `getAll` lists exactly the stored records, by ascending id |
| `OfflineStore.UnsyncedMember` | sw.js:318 | the filter keeps exactly the records whose `synced` is false |
| `OfflineStore.UnsyncedAscending` | sw.js:318 | the filter keeps the store's order |
| `OfflineStore.PendingDetermined` | sw.js:316-318 | the pending list is the only list, by ascending id, of exactly the stored records not yet synced |
| `OfflineStore.MarkSyncedIdempotent` | sw.js:332-343 | marking a record twice is the same as marking it once |
| `OfflineStore.MarkFirstUnsynced` | sw.js:318-338 | marking the first pending record synced removes exactly that record from the pending list |
| `OfflineStore.ObjectStore.SaveOfflineData` | sw.js:352-365 | the record is stored under its id, replacing any earlier one, and a new id takes its place in key order |
| `OfflineStore.ObjectStore.GetOfflineData` | sw.js:310-323 | returns exactly the stored records not yet synced, by ascending id, and reads the store without changing it |
| `OfflineStore.ObjectStore.MarkAsSynced` | sw.js:326-349 | a present record gets `synced` set and nothing else changes, in it or in any other record; an absent id leaves the store unchanged |
| `Sync.SaleRequest` | sw.js:190-208 | a sale is sent as a POST to the sales collection with JSON headers and exactly the nine fields, `synced` false. Reading the fields back, each checked for its type tag, gives the sale: every value in its own field, line items in order, and a missing customer name or phone sent as the empty string |
| `Sync.ItemsRoundTrip` | sw.js:199 | each line item is sent as a map value, and reading the array back gives the items in order |
| `Sync.InventoryRequest` | sw.js:239-259 | the method is DELETE exactly when the change's type is `delete`, otherwise PATCH; the URL is `.../inventory/{id}` either way; the body is absent exactly for DELETE. Otherwise it has exactly the seven fields, and reading them back, each checked for its type tag, gives the change with a missing description sent as the empty string, and `updatedAt` as the clock reading |
| `Sync.Replay` | sw.js:189-219 | a replay sends at most one request per pending record, and at least one when it fails |
| `Sync.ReplayRequests` | sw.js:189-216 | requests go out one per record, in store order. Every record before the last one sent was acknowledged. The replay fails exactly when the last request sent was not acknowledged, and the failure is a fetch error exactly when that request's fetch failed |
| `Sync.ReplayFrame` | sw.js:209-216 | no record is added or removed. A record either stays as it was or only gains `synced`. Records the replay did not acknowledge are untouched, and every acknowledged record is synced, with no rollback after a later failure |
| `Sync.ReplayResume` | sw.js:183-186 | after a replay of the store's pending list, what is still pending is exactly the rest of that list from the first failing record on, and nothing after a success; a rerun scans only the remaining records |
| `Sync.EnqueueThenDrain` | sw.js:352-365 | a saved record that is then drained against a database acknowledging every write ends up synced, with no failure and nothing left pending |
| `Sync.SendPending` | sw.js:189-219 | the loop over the pending records leaves the store, the failure and the requests sent exactly as the replay of that list describes |
| `Sync.Drain` | sw.js:178-224 | with no pending records, no request is sent and the drain resolves with its "nothing to sync" message. Otherwise the store and the requests sent follow the replay; the drain resolves with its success message, or rejects with the fetch error or its failure message |
| `Sync.Acknowledged` | sw.js:209-216 | a record counts as written exactly when its fetch gives a response whose status is in 200-299 (`response.ok`); a failed fetch never does |
| `Sync.Verdict` | sw.js:182-222 | with nothing pending the drain resolves with its "nothing to sync" message. Otherwise it resolves with its success message exactly when no record failed, rejects with the fetch's own error exactly when a fetch failed, and rejects with its failure message for a response without `ok` |
| `Sync.DrainResolvesIffCaughtUp` | sw.js:182-222 | a drain resolves exactly when it leaves no record pending, and rejects exactly when some record is still waiting |
| `Sync.SyncOfflineSales` | sw.js:178-224 | the drain of the sales store with the sales request, resolving `No sales to sync` or `Sales synced successfully`, or rejecting with `Failed to sync sale` |
| `Sync.SyncOfflineInventory` | sw.js:227-276 | the drain of the inventory store with the inventory request, resolving `No inventory changes to sync` or `Inventory changes synced successfully`, or rejecting with `Failed to sync inventory change` |
| `Sync.OnSync` | sw.js:126-133 | tag `background-sync-sales` drains exactly the sales store, tag `background-sync-inventory` exactly the inventory store; any other tag changes nothing and sends nothing |
| `Sync.OnPeriodicSync` | sw.js:368-377 | tag `periodic-sync` drains both stores; any other tag changes nothing and sends nothing |

## Left out

- The install handler's precache (sw.js:14-26): `cache.addAll` is all-or-nothing because of the platform, not because of this code.
- The push and notification-click handlers (sw.js:136-175): they only show a notification or open a window.
- `openIndexedDB` (sw.js:279-307): the database schema, its version upgrade, the `settings` store and the secondary indexes. Each store is a map keyed by `id` instead, and store open or transaction errors are not modelled.
- `fetch`, `caches` and `indexedDB` themselves. They are replaced by the abstract state above and by outcome parameters. `new URL(...).hostname` is given as the request's `host` field. `JSON.stringify` is not modelled: request bodies are kept as typed field maps.
- `console.log`, `self.skipWaiting()` and `self.clients.claim()`: they do not touch the modelled state.
- Numbers (`total`, `price`, `stock`), line items and timestamps are carried as opaque `JsValue`s. Optional customer and description fields are `Option<string>`. Other missing record fields are not modelled: a missing scalar field is sent as an empty typed value `{}`, and a sale without `items` throws at `sale.items.map` (sw.js:199) while its request is built, so the drain rejects with that error and no fetch for it or any later record is started.
- Record ids are strings, enumerated in character-by-character order. Numeric or mixed-type keys, which IndexedDB orders numbers first and numerically, and its comparison of strings by UTF-16 code unit, are not modelled. Because the modelled drain stops at the first failure, the key order decides which records are sent.
- `synced` is a boolean: a missing field reads as false, and other falsy values are not modelled.
- `Sync.SyncOfflineInventory`: it takes one clock reading `now` for every `updatedAt` in a drain, while the source reads the clock once per record.
- `Sync.Drain`: it sends the requests one at a time and stops at the first one not acknowledged. The source starts every request at once through `Promise.all`, so on a failing drain every later request is still sent, while the model sends none of them; whether those later records end up marked depends on timing. The model also ignores a failure of `response.json()` after a record has been marked.
- Fire-and-forget cache writes and `markAsSynced` calls (sw.js:63-65, 114-117, 212, 264) are modelled as done before the reply or the next record. Overlapping `sync` and `periodicsync` triggers racing on the same records are not modelled.
- `Sync.OnPeriodicSync`: it runs the two drains one after the other. They touch different stores, so their order does not change the outcome.
