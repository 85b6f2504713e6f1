# Edge Config storage wrappers for the Split SDK

splitio/vercel-integration-utils lets the Split JavaScript SDK keep its feature-flag
definitions in a Vercel Edge Config item. The SDK talks to a *pluggable storage wrapper*:
an object with `connect`, `disconnect`, key–value reads and writes, counters, string sets
and queues. The repository ships three wrappers over one Edge Config item (a JSON object,
called the dataset here):

- `EdgeConfigApiStorageWrapper` is read-write. `connect` reads the item through the Vercel
  management API, the operations update the dataset in memory, and `disconnect` writes the
  whole dataset back with an upsert.
- `EdgeConfigSdkStorageWrapper` is read-only. It reads through the `@vercel/edge-config`
  client, either the default one or one built from a connection string.
- `EdgeConfigWrapper` is read-only and validating. It accepts only an item that holds
  flag definitions, and it serves `get` as strings.

The model has these modules:

- `Wrappers` holds `Option`, `Result` and `Outcome` (a promise that resolves with nothing
  or rejects with a message).
- `Utils` models `utils.ts`. It has `Unique`, the order-keeping de-duplication done with a
  `Set`, and its lemmas.
- `Json` holds JSON values, JavaScript truthiness, and the `Dataset`: an object whose keys
  are distinct and kept in insertion order, which is the order `Object.keys` lists them in.
- `Store` holds every read and every update the wrappers perform on a dataset. Each is a
  function of the dataset and is proved against its meaning: membership, order, "no other
  key changes", and round-trips between updates.
- `VercelApi` models the pure parts of `VercelApi.ts`: the requests, the URLs with their
  parsers and round-trip lemmas, the connection string, and how responses are classified.
- `ApiStorage`, `SdkStorage` and `ValidatingStorage` each model one wrapper as a class.
  The class has a `data: Option<Dataset>` field, which is `None` until the first `connect`
  (the source's `undefined`). Each method states the new dataset, or its answer, through
  the `Store` functions.
- `Scenarios` replays the sessions of the three test files against the classes, with the
  answer of every call in the method's contract.

Before the first `connect`, every access to `data` fails with a TypeError, because the
dataset is still `undefined`. There are two exceptions:

- The read-write variant's `getMany` guards with `data && data[key]`, so it answers nulls.
- A `getMany` of no keys never touches the dataset, so it answers `[]`.

An option the caller leaves out is the empty string, since both are falsy.

The read-write variant issues its read on `connect` and its upsert on `disconnect`
without awaiting either. Each is therefore two transitions:

- the call, which returns the request it sends;
- the arrival of the response (`FetchCompleted`, `CommitCompleted`), which runs the
  promise's callback.

## Model

| member | source | states |
|---|---|---|
| `Utils.Unique` | utils.ts:8-10 | the result has no duplicates and holds exactly the elements of the input, and it is no longer |
| `Utils.UniqueIsSubsequence` | utils.ts:8-10 | de-duplication keeps the input's order |
| `Utils.UniqueIsFirstOccurrences` | utils.ts:8-10 | de-duplication keeps the first occurrence of each element, scanning from the front as `Set` insertion does |
| `Utils.UniqueAppend` | utils.ts:8-10 | de-duplicating `p + r` gives `Unique(p)` followed by the first occurrences in `r` of elements not in `p` |
| `Utils.UniqueOfDistinct` | utils.ts:8-10 | a list without duplicates comes back unchanged |
| `Utils.UniqueIdempotent` | utils.ts:8-10 | de-duplicating twice is the same as once |
| `Utils.UniquePrefix` | utils.ts:8-10 | de-duplicating a list extends the de-duplication of any prefix of it |
| `Utils.UniqueAbsorb` | utils.ts:8-10 | appending elements already present to a duplicate-free list and de-duplicating gives the list back |
| `Json.HasOwnProperty` | utils.ts:1-6 | a dataset owns a property exactly when it is one of its keys |
| `Store.Get` | EdgeConfigApiStorageWrapper.ts:70-72 | an absent key reads as null |
| `Store.FilterSound` | EdgeConfigApiStorageWrapper.ts:120-122 | `filter` keeps exactly the accepted elements, each as often as it occurs, in their order, without creating duplicates |
| `Store.FilterAppend` | EdgeConfigApiStorageWrapper.ts:120-122 | filtering a list grown by one element grows the answer by that element exactly when it is accepted |
| `Store.FilterAll` | EdgeConfigApiStorageWrapper.ts:217-225 | a filter that accepts every element gives the list back |
| `Store.KeysByPrefix` | EdgeConfigApiStorageWrapper.ts:120-122 | lists exactly the dataset's keys that start with the prefix, each once, in key order |
| `Store.GetMany` | EdgeConfigApiStorageWrapper.ts:132-134 | one answer per requested key, and answer i is the value of key i or null |
| `Store.ItemContains` | EdgeConfigApiStorageWrapper.ts:183-186 | true exactly when the key holds a list that contains the item |
| `Store.GetItems` | EdgeConfigApiStorageWrapper.ts:234-237 | is the stored list itself, in its order, when the key holds a list, and empty otherwise; it holds exactly the items `ItemContains` accepts |
| `Store.Put` | EdgeConfigApiStorageWrapper.ts:82-85 | the key then holds the value and no other key changes; a new key goes last in key order and an existing one keeps its place |
| `Store.Delete` | EdgeConfigApiStorageWrapper.ts:108-111 | the key is gone, every other key keeps its value, and the key order is otherwise kept |
| `Store.Incr` | EdgeConfigApiStorageWrapper.ts:145-153 | a number n becomes n + 1 and anything else becomes 1; no other key changes; a new key goes last in key order and an existing one keeps its place |
| `Store.Decr` | EdgeConfigApiStorageWrapper.ts:162-170 | a number n becomes n - 1 and anything else becomes -1; no other key changes; a new key goes last in key order and an existing one keeps its place |
| `Store.AddItems` | EdgeConfigApiStorageWrapper.ts:197-207 | the key then holds exactly `Unique(old list ++ items)` (with `[]` for a key holding no list): no duplicates, the old members and the new items, each at its first occurrence; no other key changes; a new key goes last in key order |
| `Store.RemoveItems` | EdgeConfigApiStorageWrapper.ts:217-225 | a list loses exactly the listed items and keeps the rest in order, each as many times as before; a key holding no list leaves the dataset unchanged; no other key changes and the key order is kept |
| `Store.PutPut` | EdgeConfigApiStorageWrapper.ts:82-99 | of two writes to one key the last wins, and the key keeps its place |
| `Store.PutThenDelete` | EdgeConfigApiStorageWrapper.ts:82-111 | writing a key the dataset lacks and deleting it gives back the very same dataset |
| `Store.AddItemsIdempotent` | EdgeConfigApiStorageWrapper.ts:197-207 | adding the same items twice gives the same dataset as adding them once |
| `Store.IncrThenDecr` | EdgeConfigApiStorageWrapper.ts:145-170 | on a number, `incr` then `decr` gives back the very same dataset |
| `Store.IncrTimesValue` | EdgeConfigApiStorageWrapper.ts:145-153 | after n increments a counter holds its old value plus n, or n if it held no number; no other key changes |
| `Store.DecrTimesValue` | EdgeConfigApiStorageWrapper.ts:162-170 | after n decrements a counter holding m holds m - n; no other key changes |
| `Store.CounterRoundTrip` | EdgeConfigApiStorageWrapper.ts:145-170 | counting a key that holds no number (absent, a string or a list) up n times and down n times leaves it at 0, with no other key changed |
| `Store.AddThenRemove` | EdgeConfigApiStorageWrapper.ts:197-237 | adding `["a","b"]` to a fresh key and then removing `["a"]` leaves `["b"]` |
| `VercelApi.TeamIdQueryRoundTrip` | VercelApi.ts:18 | the team query is empty exactly when no team id is given, and it parses back to that team id |
| `VercelApi.KeyAndQueryRoundTrip` | VercelApi.ts:18-19 | an item key without `?` and its team query parse back to that key and team |
| `VercelApi.ItemUrlRoundTrip` | VercelApi.ts:17-19 | the item URL parses back to exactly the store id, item key and team id it was built from |
| `VercelApi.ItemsUrlRoundTrip` | VercelApi.ts:51-54 | the items URL parses back to exactly the store id and team id it was built from |
| `VercelApi.ConnectionString` | VercelApi.ts:89-91 | the connection string parses back to the store id and token it was built from |
| `VercelApi.FetchRequest` | VercelApi.ts:17-23 | a GET with only the bearer-token header (no content type) and no body, whose URL names the store, the item key and the team |
| `VercelApi.UpsertRequest` | VercelApi.ts:50-70 | a JSON PATCH with the bearer token; its URL names the store and team, and its body is exactly one upsert of the dataset under the item key |
| `VercelApi.ReadResult` | VercelApi.ts:25-35 | a non-ok status fails with "Could not read Edge Config"; 200 gives the body's value; 204 gives `{}`; any other ok status fails naming the status; success exactly for 200 and 204 |
| `VercelApi.UpsertResult` | VercelApi.ts:71-86 | the upsert rejects with "Failed to synchronize Vercel" exactly when a response arrives that is not ok; a network failure is only logged |
| `ApiStorage.ConfigCheck` | EdgeConfigApiStorageWrapper.ts:34-42 | passes exactly when store id, item key and token are all given; otherwise fails naming the first one missing, in that order |
| `ApiStorage.EdgeConfigApiStorageWrapper.constructor` | EdgeConfigApiStorageWrapper.ts:17-26 | keeps the options and starts with no dataset |
| `ApiStorage.EdgeConfigApiStorageWrapper.Connect` | EdgeConfigApiStorageWrapper.ts:30-49 | resets the dataset to `{}` first, even when the configuration check fails; issues the read request exactly when the check passes |
| `ApiStorage.EdgeConfigApiStorageWrapper.FetchCompleted` | EdgeConfigApiStorageWrapper.ts:44-46 | a successful read replaces the dataset; a failed one leaves it as it was |
| `ApiStorage.EdgeConfigApiStorageWrapper.Disconnect` | EdgeConfigApiStorageWrapper.ts:52-60 | sends one upsert of the current dataset under the item key and changes nothing yet |
| `ApiStorage.EdgeConfigApiStorageWrapper.CommitCompleted` | EdgeConfigApiStorageWrapper.ts:55-59 | the dataset becomes `{}` when the upsert resolves and is kept when it rejects |
| `ApiStorage.EdgeConfigApiStorageWrapper.Get` | EdgeConfigApiStorageWrapper.ts:70-72 | the raw stored value or null; fails before the first connect |
| `ApiStorage.EdgeConfigApiStorageWrapper.Set` | EdgeConfigApiStorageWrapper.ts:82-85 | the dataset becomes `Put(key, value)` and the answer is true |
| `ApiStorage.EdgeConfigApiStorageWrapper.GetAndSet` | EdgeConfigApiStorageWrapper.ts:95-99 | answers the value before the write (or null) and stores the new string |
| `ApiStorage.EdgeConfigApiStorageWrapper.Del` | EdgeConfigApiStorageWrapper.ts:108-111 | the dataset loses the key, whether or not it was there, and the answer is true |
| `ApiStorage.EdgeConfigApiStorageWrapper.GetKeysByPrefix` | EdgeConfigApiStorageWrapper.ts:120-122 | the keys with the prefix, in key order |
| `ApiStorage.EdgeConfigApiStorageWrapper.GetMany` | EdgeConfigApiStorageWrapper.ts:132-134 | one answer per key, in order; all nulls before the first connect |
| `ApiStorage.EdgeConfigApiStorageWrapper.Incr` | EdgeConfigApiStorageWrapper.ts:145-153 | the dataset becomes `Incr(key)` and the answer is the number now stored |
| `ApiStorage.EdgeConfigApiStorageWrapper.Decr` | EdgeConfigApiStorageWrapper.ts:162-170 | the dataset becomes `Decr(key)` and the answer is the number now stored |
| `ApiStorage.EdgeConfigApiStorageWrapper.ItemContains` | EdgeConfigApiStorageWrapper.ts:183-186 | set membership of the item at the key |
| `ApiStorage.EdgeConfigApiStorageWrapper.AddItems` | EdgeConfigApiStorageWrapper.ts:197-207 | the dataset becomes `AddItems(key, items)` and the answer is true |
| `ApiStorage.EdgeConfigApiStorageWrapper.RemoveItems` | EdgeConfigApiStorageWrapper.ts:217-225 | the dataset becomes `RemoveItems(key, items)` and the answer is true |
| `ApiStorage.EdgeConfigApiStorageWrapper.GetItems` | EdgeConfigApiStorageWrapper.ts:234-237 | the members of the set at the key, or `[]` |
| `ApiStorage.EdgeConfigApiStorageWrapper.PushItems` | EdgeConfigApiStorageWrapper.ts:243 | resolves and changes nothing |
| `ApiStorage.EdgeConfigApiStorageWrapper.PopItems` | EdgeConfigApiStorageWrapper.ts:245-247 | always answers no items |
| `ApiStorage.EdgeConfigApiStorageWrapper.GetItemsCount` | EdgeConfigApiStorageWrapper.ts:249-251 | always answers 0 |
| `SdkStorage.SelectReader` | src/EdgeConfigSdkStorageWrapper.ts:22-28 | a connection-string client exactly when both store id and token are given, and its connection string names them |
| `SdkStorage.EdgeConfigSdkStorageWrapper.constructor` | src/EdgeConfigSdkStorageWrapper.ts:15-28 | keeps the item key, chooses the reader, and starts with no dataset |
| `SdkStorage.EdgeConfigSdkStorageWrapper.Connect` | src/EdgeConfigSdkStorageWrapper.ts:31-46 | a missing item key fails before reading; a failed read is passed on with the dataset untouched; a falsy item becomes `{}` |
| `SdkStorage.EdgeConfigSdkStorageWrapper.Disconnect` | src/EdgeConfigSdkStorageWrapper.ts:49-51 | the dataset becomes `{}` |
| `SdkStorage.EdgeConfigSdkStorageWrapper.Get` | src/EdgeConfigSdkStorageWrapper.ts:61-63 | the raw stored value or null; fails before the first connect |
| `SdkStorage.EdgeConfigSdkStorageWrapper.GetKeysByPrefix` | src/EdgeConfigSdkStorageWrapper.ts:107-109 | the keys with the prefix, in key order |
| `SdkStorage.EdgeConfigSdkStorageWrapper.GetMany` | src/EdgeConfigSdkStorageWrapper.ts:118-120 | one raw answer per key, in order; before the first connect it fails, except for an empty request |
| `SdkStorage.EdgeConfigSdkStorageWrapper.ItemContains` | src/EdgeConfigSdkStorageWrapper.ts:157-160 | set membership of the item at the key |
| `SdkStorage.EdgeConfigSdkStorageWrapper.GetItems` | src/EdgeConfigSdkStorageWrapper.ts:194-197 | the members of the set at the key, or `[]` |
| `SdkStorage.EdgeConfigSdkStorageWrapper.Set` | src/EdgeConfigSdkStorageWrapper.ts:73-75 | rejects with "SET not implemented" and may change nothing |
| `SdkStorage.EdgeConfigSdkStorageWrapper.GetAndSet` | src/EdgeConfigSdkStorageWrapper.ts:85-87 | rejects with "GET AND SET not implemented" and may change nothing |
| `SdkStorage.EdgeConfigSdkStorageWrapper.Del` | src/EdgeConfigSdkStorageWrapper.ts:96-98 | rejects with "DEL not implemented" and may change nothing |
| `SdkStorage.EdgeConfigSdkStorageWrapper.Incr` | src/EdgeConfigSdkStorageWrapper.ts:131-133 | rejects with "INCR not implemented" and may change nothing |
| `SdkStorage.EdgeConfigSdkStorageWrapper.Decr` | src/EdgeConfigSdkStorageWrapper.ts:142-144 | rejects with "DECR not implemented" and may change nothing |
| `SdkStorage.EdgeConfigSdkStorageWrapper.AddItems` | src/EdgeConfigSdkStorageWrapper.ts:171-173 | rejects with "ADD ITEMS not implemented" and may change nothing |
| `SdkStorage.EdgeConfigSdkStorageWrapper.RemoveItems` | src/EdgeConfigSdkStorageWrapper.ts:183-185 | rejects with "REMOVE ITEMS not implemented" and may change nothing |
| `SdkStorage.EdgeConfigSdkStorageWrapper.PushItems` | src/EdgeConfigSdkStorageWrapper.ts:203 | resolves and changes nothing |
| `SdkStorage.EdgeConfigSdkStorageWrapper.PopItems` | src/EdgeConfigSdkStorageWrapper.ts:205-207 | always answers no items |
| `SdkStorage.EdgeConfigSdkStorageWrapper.GetItemsCount` | src/EdgeConfigSdkStorageWrapper.ts:209-211 | always answers 0 |
| `ValidatingStorage.CheckOptions` | src/EdgeConfigWrapper.ts:16-19 | passes exactly when options, item key and client are all given; missing options or key fail first, then a missing client |
| `ValidatingStorage.Create` | src/EdgeConfigWrapper.ts:11-21 | construction throws the option check's error, or yields a new wrapper for the item key with no dataset |
| `ValidatingStorage.IsFlagDefinitions` | src/EdgeConfigWrapper.ts:38 | accepts exactly an object (not null, not an array) that owns the key `SPLITIO.splits.till` |
| `ValidatingStorage.Serialized` | src/EdgeConfigWrapper.ts:23-29 | null exactly for an absent or falsy value; a string as it is; any other value serialised |
| `ValidatingStorage.SerializedMany` | src/EdgeConfigWrapper.ts:81-83 | answer i is what `get` answers for key i |
| `ValidatingStorage.EdgeConfigWrapper.constructor` | src/EdgeConfigWrapper.ts:11-21 | keeps the item key and starts with no dataset |
| `ValidatingStorage.EdgeConfigWrapper.Connect` | src/EdgeConfigWrapper.ts:33-43 | a failed read is passed on; an item that is not flag definitions fails naming the item key; in both cases the dataset is not assigned; otherwise the item becomes the dataset |
| `ValidatingStorage.EdgeConfigWrapper.Disconnect` | src/EdgeConfigWrapper.ts:46-48 | the dataset becomes `{}` |
| `ValidatingStorage.EdgeConfigWrapper.Get` | src/EdgeConfigWrapper.ts:58-60 | the serialised value or null; fails before a successful connect |
| `ValidatingStorage.EdgeConfigWrapper.GetKeysByPrefix` | src/EdgeConfigWrapper.ts:69-71 | the keys with the prefix, in key order |
| `ValidatingStorage.EdgeConfigWrapper.GetMany` | src/EdgeConfigWrapper.ts:81-83 | answer i is `get(keys[i])`; before a successful connect it fails, except for an empty request |
| `ValidatingStorage.EdgeConfigWrapper.ItemContains` | src/EdgeConfigWrapper.ts:94-96 | true exactly when the key holds a list with the item |
| `ValidatingStorage.EdgeConfigWrapper.GetItems` | src/EdgeConfigWrapper.ts:105-107 | the list at the key, or `[]` |
| `ValidatingStorage.EdgeConfigWrapper.Set` | src/EdgeConfigWrapper.ts:110 | rejects with "SET not implemented" and may change nothing |
| `ValidatingStorage.EdgeConfigWrapper.GetAndSet` | src/EdgeConfigWrapper.ts:111 | rejects with "GET AND SET not implemented" and may change nothing |
| `ValidatingStorage.EdgeConfigWrapper.Del` | src/EdgeConfigWrapper.ts:112 | rejects with "DEL not implemented" and may change nothing |
| `ValidatingStorage.EdgeConfigWrapper.Incr` | src/EdgeConfigWrapper.ts:113 | rejects with "INCR not implemented" and may change nothing |
| `ValidatingStorage.EdgeConfigWrapper.Decr` | src/EdgeConfigWrapper.ts:114 | rejects with "DECR not implemented" and may change nothing |
| `ValidatingStorage.EdgeConfigWrapper.AddItems` | src/EdgeConfigWrapper.ts:115 | rejects with "ADD ITEMS not implemented" and may change nothing |
| `ValidatingStorage.EdgeConfigWrapper.RemoveItems` | src/EdgeConfigWrapper.ts:116 | rejects with "REMOVE ITEMS not implemented" and may change nothing |
| `ValidatingStorage.EdgeConfigWrapper.PushItems` | src/EdgeConfigWrapper.ts:117 | rejects with "PUSH ITEMS not implemented" |
| `ValidatingStorage.EdgeConfigWrapper.PopItems` | src/EdgeConfigWrapper.ts:118 | rejects with "POP ITEMS not implemented" |
| `ValidatingStorage.EdgeConfigWrapper.GetItemsCount` | src/EdgeConfigWrapper.ts:119 | rejects with "GET ITEMS COUNT not implemented" |
| `Scenarios.ApiConnect` | __tests__/EdgeConfigApiStorageWrapper.spec.ts:31-35 | a fully configured wrapper holds `{}` once the read of an empty item answers |
| `Scenarios.ApiStrings` | __tests__/EdgeConfigApiStorageWrapper.spec.ts:37-50 | the reads around set, getAndSet and del answer null, "value1", "value1", "value2" and null; set and del answer true; the dataset is `{}` again |
| `Scenarios.CountUp` | __tests__/EdgeConfigApiStorageWrapper.spec.ts:52-60 | n increments of an absent key answer 1 to n and add the key once at the end |
| `Scenarios.ApiCountersUp` | __tests__/EdgeConfigApiStorageWrapper.spec.ts:52-60 | counting up gives 1 to 4 and 1 to 3, with the counters in creation order |
| `Scenarios.ApiCounters` | __tests__/EdgeConfigApiStorageWrapper.spec.ts:52-64 | the increments and the two decrements answer as in the test and leave the counters at 3 and 2 |
| `Scenarios.ApiReadCounters` | __tests__/EdgeConfigApiStorageWrapper.spec.ts:66-71 | the prefix listings are `["count1","count2"]` and `["count2"]`, and getMany answers 3 and 2 |
| `Scenarios.CountersByPrefix` | __tests__/EdgeConfigApiStorageWrapper.spec.ts:66-68 | the prefix listings of the two counters |
| `Scenarios.ApiSets` | __tests__/EdgeConfigApiStorageWrapper.spec.ts:73-85 | adding two items and then a third gives three in order; after removing two, one is gone and one remains; both `addItems` and the `removeItems` answer true |
| `Scenarios.ApiSetsAdd` | __tests__/EdgeConfigApiStorageWrapper.spec.ts:73-78 | two `addItems` calls answer true and leave `["item1","item2","item3"]`, which `getItems` answers |
| `Scenarios.ApiSetsRemove` | __tests__/EdgeConfigApiStorageWrapper.spec.ts:80-84 | `removeItems` answers true; afterwards item1 is absent and item2 present |
| `Scenarios.ApiSession` | __tests__/EdgeConfigApiStorageWrapper.spec.ts:30-91 | the gets, counters, prefix listings, getMany, getItems and itemContains answer as in the test, and set, del, both addItems and removeItems answer true; disconnect sends the PATCH to the items URL, and a successful upsert leaves `{}` |
| `Scenarios.SdkMissingKey` | __tests__/EdgeConfigSdkStorageWrapper.spec.ts:60-64 | without an item key connect fails with "Edge Config Item Key not provided" |
| `Scenarios.SdkReaderChoice` | __tests__/EdgeConfigSdkStorageWrapper.spec.ts:6-14 | the default client is used unless both store id and token are given |
| `Scenarios.SdkConnected` | __tests__/EdgeConfigSdkStorageWrapper.spec.ts:66-72 | connecting to the test item makes it the dataset |
| `Scenarios.SdkValues` | __tests__/EdgeConfigSdkStorageWrapper.spec.ts:34-44 | get answers "value" and null, and getMany answers the raw numbers 3 and 2 |
| `Scenarios.SdkPrefixes` | __tests__/EdgeConfigSdkStorageWrapper.spec.ts:39-41 | the prefix listings are `["count1","count2"]` and `["count2"]` |
| `Scenarios.SdkDataByPrefix` | __tests__/EdgeConfigSdkStorageWrapper.spec.ts:39-41 | the prefix listings of the test item |
| `Scenarios.SdkSets` | __tests__/EdgeConfigSdkStorageWrapper.spec.ts:46-51 | getItems lists the three items and itemContains tells item2 from item4 |
| `Scenarios.SdkSession` | __tests__/EdgeConfigSdkStorageWrapper.spec.ts:66-81 | the whole session answers as in the test |
| `Scenarios.ValidatingMisconfigured` | src/__tests__/EdgeConfigWrapper.spec.ts:57-64 | construction fails without options or item key, then without a client |
| `Scenarios.ValidatingInvalidItem` | src/__tests__/EdgeConfigWrapper.spec.ts:66-70 | an item without the marker is refused, naming the item key |
| `Scenarios.ValidatingConnected` | src/__tests__/EdgeConfigWrapper.spec.ts:72-77 | connecting to the flag definitions makes them the dataset |
| `Scenarios.ValidatingValues` | src/__tests__/EdgeConfigWrapper.spec.ts:31-41 | get answers "value" and null; getMany serialises the object, passes the string through and answers null for the missing key |
| `Scenarios.ValidatingPrefixes` | src/__tests__/EdgeConfigWrapper.spec.ts:36-38 | the prefix listings are `["split1","split2"]` and `["split2"]` |
| `Scenarios.DefinitionsByPrefix` | src/__tests__/EdgeConfigWrapper.spec.ts:36-38 | the prefix listings of the flag definitions, which leave out the upper-case marker key |
| `Scenarios.ValidatingSets` | src/__tests__/EdgeConfigWrapper.spec.ts:43-48 | itemContains tells item2 from item4, and getItems lists the three items |
| `Scenarios.ValidatingSession` | src/__tests__/EdgeConfigWrapper.spec.ts:72-84 | the whole session answers as in the test |

## Left out

- HTTP transport, response-body parsing and `node-fetch` are left out. A response is an
  input: a status and, for 200, the body's `value`.
- `response.json()` rejecting is not modelled, for both the read and the upsert.
- A 200 body without a `value` field is not modelled. The source would then set the
  dataset to `undefined`.
- `ApiStorage.EdgeConfigApiStorageWrapper.FetchCompleted` stores only a well-formed JSON
  object (`VercelApi.FetchResponse` carries a `Dataset`). The source stores whatever the
  body's `value` is: with `null` every later read or write throws, and a string or an
  array is kept and indexed as it is. Those item shapes are not modelled for the
  read-write variant.
- `console.log` is left out.
- The `waitUntil` callback of the read-write variant is left out: the host's scheduling
  and the race between the unawaited read and later operations. The model orders the
  events explicitly: `Connect`, then operations and `FetchCompleted` in any order the
  caller chooses, `Disconnect`, `CommitCompleted`.
- The `@vercel/edge-config` client is left out. What it answers for the item key is the
  input of `Connect`. A truthy item that is not an object is not modelled for the
  SDK-backed variant.
- `JSON.stringify` is an uninterpreted function, `stringify`, of the validating wrapper.
- `ValidatingStorage.EdgeConfigWrapper.Connect` requires that a fetched object have each
  key once, which a parsed JSON object always does.
- Numbers are unbounded integers. Floating-point values and `NaN` are left out, and so is
  the precision loss of very large counters.
- JSON arrays are lists of strings, which is what sets hold. Other arrays are not
  modelled.
- `Object.keys` lists integer-like keys first, in numeric order. The model keeps pure
  insertion order.
- Properties inherited from `Object.prototype` (`data["constructor"]` and the like) are
  not modelled; every key is an own key.
- A missing option and an empty-string option are the same in the model, because the
  source tests both only for truthiness.
- EdgeConfigSynchronize.ts, index.ts and the example application are not part of this
  model.
- The "Create connection string" test of the SDK-backed variant passes `apiToken`, but
  src/EdgeConfigSdkStorageWrapper.ts:23 reads `edgeConfigToken`. The model follows the
  source, so that configuration uses the default client (`Scenarios.SdkReaderChoice`).
- The TypeError thrown before the first connect is kept only as its kind
  (`Store.NOT_CONNECTED`). Its message, which differs between indexing and
  `Object.keys`, is not modelled.
