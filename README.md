# med-record-space: the sync pipeline, modelled in Dafny

med-record-space is an offline-first medical-records app. The browser keeps
patients, records and an outbox of pending changes in IndexedDB. When the
browser is online, the client's SyncService drains the outbox. Each queued
object's `data` is encrypted, the ciphertext is signed, and the result is
posted to an edge worker. The worker has three routes:

- `/submit` validates a submission, checks its signature, forwards it to the
  store-of-record and caches its metadata in a key-value namespace for an hour;
- `/fetch` reads through that cache;
- `/sync` counts syncs in the cache and forwards the payload.

The project models both ends of this pipeline.

Worker side:

- `Json`: the JavaScript values the code handles, with truthiness, property
  access, `String(...)` and the JSON round trip (`Wire`).
- `Http`: requests, responses and the replies of outbound `fetch` calls.
- `Kv`: the cache namespace, with TTL expiry over a millisecond clock.
- `Environment`: the handler's `env`, a class holding the cache and the log of
  calls made to the store-of-record.
- `Auth`, `Validation`: the worker's utils.
- `Submit`, `Fetch`, `SyncRoute`: one module per route. Each has an imperative
  handler method, proved equal to a function of the state before the request.
- `Router`: the entry point. It covers preflight, dispatch, the CORS header
  overlay applied in place, and turning an exception into a 500.

Client side:

- `Storage`: the IndexedDB wrapper. Object stores are records sorted
  by key (numbers first, then strings) plus a key generator that follows section 2.11 of the W3C Indexed
  Database API. `StorageService` is a class whose methods update its three
  stores.
- `Crypto`: the CryptoService as the sync path uses it. AES-GCM and RSA-PSS
  are abstract primitives of a `Provider`, and the `{iv, data}` and byte-array
  shapes they produce are modelled exactly.
- `Sync`: `attemptSync` and `syncToServer`. The drain is defined
  object by object up to the first failure, and the class's loop is proved
  against that definition.
- `State`: the StateManager. `setState` is a loop over the update's entries
  that writes changed keys and emits one change event.

Everything from outside is a parameter:

- the clock (`now`);
- the store-of-record and the worker as seen from the client
  (`deta`, `net`: functions from an outbound call to its result);
- `navigator.onLine` (`online`);
- the random IV draws (`random(i)`, the bytes for the i-th queued object);
- the crypto primitives (`Provider`);
- the storage and crypto services `attemptSync` looks up on `window.app`
  (`storage`, `p`);
- the worker's token store (`tokens`: each token's stored text and its parse).

The model follows the code, including three places where the code departs
from the protocol the app evidently intends:

- The worker's `verifySignature` only checks that the ciphertext and the
  signature are present. `Auth.SignatureIgnoresContent` states that tampered
  data passes.
- The client posts each queued object to `/sync`, not to `/submit`.
- `/submit` caches the `timestamp` of the store's reply. The store answers only
  `{success, id}`, so the cached metadata has no timestamp
  (`Submit.ProjectionOfIdOnlyReply`).

## Model

| member | source | states |
|---|---|---|
| Auth.VerifySignature | src/worker/utils/auth.js:1-10 | a falsy ciphertext or signature is refused |
| Auth.SignatureIgnoresContent | src/worker/utils/auth.js:5-9 | any two present ciphertexts are accepted under a present signature, so tampering goes undetected |
| Auth.ValidateToken | src/worker/utils/auth.js:12-20 | an unknown token or an empty stored text is invalid; a stored text that is not JSON makes the call reject; a parsed object is valid exactly when `Number(expiry)` is greater than now, so numbers, numeric strings, one-number arrays, `null` and booleans compare as numbers and every other expiry (missing, NaN) is invalid; a stored primitive or array, having no `expiry`, is invalid; a stored `null` makes the call reject |
| Auth.ExpiryIsStrict | src/worker/utils/auth.js:19 | an illustration of `TokenValidIff`: a token expiring at the current instant is already invalid |
| Auth.NumeralExpiry | src/worker/utils/auth.js:19 | an expiry stored as the numeral of a number, or as an array holding just that number, is valid exactly when that number lies after now |
| Json.IntNumeralRoundTrip | src/worker/utils/auth.js:19 | `Number(String(n))` is `n` for every integer, the conversion the comparison applies to a string expiry |
| Auth.TokenValidIff | src/worker/utils/auth.js:19 | with a numeric expiry, the token is valid if and only if the expiry lies after now |
| Validation.ValidatePayload | src/worker/utils/validation.js:1-8 | accepted if and only if the value is an object owning `encrypted`, `signature` and `type` (arrays, null and primitives are refused) |
| Validation.ValidateQuery | src/worker/utils/validation.js:10-16 | accepted if and only if the value is an object owning `id` |
| Validation.PayloadIgnoresExtraFields | src/worker/utils/validation.js:6-7 | adding members never turns an accepted payload into a refused one |
| Validation.NonObjectsRejected | src/worker/utils/validation.js:1-16 | no non-object value passes either check |
| Kv.Put | src/worker/routes/submit.js:43-51 | the written key reads its value strictly before now plus the TTL and reads absent from then on (forever readable with no TTL); every other key keeps its entry |
| Kv.RecordEntryLifetime | src/worker/routes/fetch.js:33-35 | a `record:` entry written with the one-hour TTL is served for exactly 3,600,000 ms |
| Environment.Env.Post | src/worker/routes/submit.js:23-34 | one outbound call to the store URL plus path is appended to the log, and its result is the store's answer to that call |
| Environment.Env.CachePut | src/worker/routes/submit.js:43-51 | the cache becomes the put of the value's JSON round trip |
| Submit.HandleSubmit | src/worker/routes/submit.js:4-56 | the handler's result, cache and outbound log are those of SubmitOutcome on the state before it |
| Submit.NonPostRejected | src/worker/routes/submit.js:5-7 | a non-POST gets 405 and nothing is stored or cached |
| Submit.InvalidPayloadRejected | src/worker/routes/submit.js:12-14 | an invalid payload gets 400 with no store call and no cache write |
| Submit.BadSignatureRejected | src/worker/routes/submit.js:17-20 | a failed signature check gets 401 with no store call and no cache write |
| Submit.StoreFailureRejected | src/worker/routes/submit.js:23-38 | a valid, signed submission the store answers with a non-ok status gets 500 "Storage failed" after its one store call, and nothing is cached |
| Submit.StoredRecordFields | src/worker/routes/submit.js:29-33 | the record stored carries the payload's own ciphertext and type and the server's instant |
| Submit.AcceptedPayloadForwarded | src/worker/routes/submit.js:23-34 | a valid, signed submission makes exactly one store call, to `/store`, with that record |
| Submit.ClientTimestampIgnored | src/worker/routes/submit.js:31 | a forged client timestamp never changes what is stored |
| Submit.CacheWrittenOnlyOnSuccess | src/worker/routes/submit.js:36-55 | if the cache changed, the answer is `{success: true, id}` |
| Submit.SuccessCachesProjection | src/worker/routes/submit.js:43-55 | on success, `record:<id>` holds the `{id, timestamp, type}` projection throughout the TTL, and the answer names the same id |
| Submit.ProjectionOfIdOnlyReply | src/worker/routes/submit.js:44-49 | if the store replies with only `{success, id}`, the cached metadata has an id and a type but no timestamp |
| Fetch.HandleFetch | src/worker/routes/fetch.js:1-40 | the handler's result, cache and outbound log are those of FetchOutcome on the state before it |
| Fetch.NonPostRejected | src/worker/routes/fetch.js:2-4 | a non-POST gets 405 and neither the cache nor the store is touched |
| Fetch.HitServesCache | src/worker/routes/fetch.js:8-14 | a live entry is served as it is, with no store call |
| Fetch.MissNotFound | src/worker/routes/fetch.js:16-28 | on a miss the store is asked once with the query; a non-ok answer gets 404 and nothing is cached |
| Fetch.MissThenHit | src/worker/routes/fetch.js:30-39 | a miss the store answers is cached under the key that was looked up, so the same query within the TTL is a hit serving that data with no further store call |
| SyncRoute.PlusOne | src/worker/routes/sync.js:11 | `(c \|\| 0) + 1` gives 1 for a falsy count and n + 1 for a number |
| SyncRoute.Bumped | src/worker/routes/sync.js:9-11 | the metrics gain `lastSync` = now and a count one higher; every other field is kept |
| SyncRoute.HandleSync | src/worker/routes/sync.js:1-31 | the handler's result, cache and outbound log are those of SyncOutcome on the state before it |
| SyncRoute.NonPostRejected | src/worker/routes/sync.js:2-4 | a non-POST gets 405 and the metrics are left alone |
| SyncRoute.MetricsUpdatedFirst | src/worker/routes/sync.js:9-26 | the metrics are written before forwarding and stay written on every outcome; the payload goes out unchanged; the answer is 500 exactly when the store's reply is not ok |
| SyncRoute.CountGrowsByOne | src/worker/routes/sync.js:9-12 | from no metrics, or from metrics this route wrote, one sync raises the count by one, stamps now and keeps the other fields |
| Router.RouteOf | src/worker/index.js:24-41 | each of `/submit`, `/fetch`, `/sync` and `/health` selects its own route exactly when it is the path, and every other path selects none |
| Router.KnownPathsDispatched | src/worker/index.js:24-38 | `/submit`, `/fetch` and `/sync` get exactly their handler's outcome, and `/health` answers `{status: "healthy"}` as JSON with the state unchanged |
| Router.Headers.Set | src/worker/index.js:46 | `set` replaces the entry under the lower-cased name |
| Router.AddCors | src/worker/index.js:44-47 | the headers become the handler's headers with the three CORS pairs set in turn |
| Router.HandleRequest | src/worker/index.js:7-60 | OPTIONS gets the preflight and changes nothing; any other method gets the routed outcome with CORS applied, or a 500 for an exception, and the cache and log the route left |
| Router.OverlaySetsCors | src/worker/index.js:11-15 | after the overlay the three CORS headers hold their values and every other header is unchanged |
| Router.FinishKeepsResponse | src/worker/index.js:49-53 | a routed response keeps its status and body and allows any origin |
| Router.ExceptionBecomes500 | src/worker/index.js:54-59 | an exception becomes `500 {error: message}` as JSON with the CORS headers |
| Router.UnknownPathNotFound | src/worker/index.js:39-40 | any other path is a 404 with nothing read or written |
| Storage.Empty | src/frontend/js/storage.js:18-36 | a new store is empty and well formed |
| Storage.Find | src/frontend/js/storage.js:71-80 | for a numeric key, a result is a record stored under the key; none exactly when no record has that key |
| Storage.FindNamed | src/frontend/js/storage.js:71-80 | for a string key, a result is a record stored under the key; none exactly when no record has that key |
| Storage.FindUnique | src/frontend/js/storage.js:71-80 | with ascending numeric keys, looking up a record's key yields that record |
| Storage.FindNamedUnique | src/frontend/js/storage.js:71-80 | with ascending string keys, looking up a record's key yields that record |
| Storage.AddRow | src/frontend/js/storage.js:60-69 | an add keeps the store well formed and answers a number or string key not in use; without an own `id` it appends under the generator's number, or fails with ConstraintError past 2^53; an own numeric `id` is stored under that number and never moves the generator back; an own string `id` is stored under that string and leaves the generator alone; a duplicate own key is a ConstraintError, and an own `id` that is neither number nor string a DataError |
| Storage.Cleared | src/frontend/js/storage.js:113-122 | a clear removes every record and keeps the generator |
| Storage.Contents | src/frontend/js/storage.js:82-91 | `getAll` returns every stored object in key order: the numerically keyed ones, then the string-keyed ones |
| Storage.Matching | src/frontend/js/storage.js:93-103 | an index query returns exactly the stored objects whose indexed member is a valid key (a number, a string or an array of valid keys) equal to the query (all of them for an absent query), and no more objects than are stored |
| Storage.GetAfterAdd | src/frontend/js/storage.js:60-80 | `get` with the key `add` answered, numeric or string, returns the object as stored |
| Storage.KeysNeverReused | src/frontend/js/storage.js:105-122 | a key generated after `clearSyncQueue` is a number greater than every numeric key the store held before the clear, the key of the add just before it included |
| Storage.GetAllAscending | src/frontend/js/storage.js:82-91 | `getAll` lists objects by strictly ascending `id` in IndexedDB key order: numbers ascending, then strings by UTF-16 code unit |
| Storage.CodeUnitsInjective | src/frontend/js/storage.js:82-91 | distinct strings have distinct UTF-16 code units, so string keys are totally ordered |
| Storage.AstralBeforeLastBmp | src/frontend/js/storage.js:82-91 | an illustration of the code-unit order: a key holding U+10000 sorts before one holding U+FFFF, because its high surrogate is the smaller code unit |
| Storage.AppendOrder | src/frontend/js/storage.js:105-111 | queued objects without an own `id` are stored after the existing numerically keyed ones, in order, under consecutive keys, and the string-keyed ones are untouched: the queue is first in, first out |
| Storage.StorageService.constructor | src/frontend/js/storage.js:18-36 | three empty stores whose generators start at 1 |
| Storage.StorageService.Add | src/frontend/js/storage.js:60-69 | the named store changes as AddRow says and no other store changes; a failure changes nothing; the answer is AddRow's key, and a generated key is a number exceeding every numeric key that store ever issued |
| Storage.StorageService.Get | src/frontend/js/storage.js:71-80 | a numeric or string key gives the object stored under it, or none; an array key gives none; anything that is no valid key is a DataError |
| Storage.StorageService.GetAll | src/frontend/js/storage.js:82-91 | every stored object, in key order |
| Storage.StorageService.GetByIndex | src/frontend/js/storage.js:93-103 | an unknown index is a NotFoundError, a query that is not a key is a DataError, and otherwise the objects the index selects |
| Storage.StorageService.AddToSyncQueue | src/frontend/js/storage.js:105-107 | an add to `sync-queue` that leaves patients and records unchanged |
| Storage.StorageService.GetSyncQueue | src/frontend/js/storage.js:109-111 | the queued objects in key order |
| Storage.StorageService.ClearSyncQueue | src/frontend/js/storage.js:113-122 | the queue is emptied and keeps its generator; the other stores and the issued keys are unchanged |
| Crypto.ByteArray | src/frontend/js/crypto.js:99-102 | `Array.from(bytes)` holds each byte, in order, as a number |
| Crypto.BytesRoundTrip | src/frontend/js/crypto.js:105-107 | reading a byte array back gives the same bytes |
| Crypto.CipherRoundTrip | src/frontend/js/crypto.js:99-107 | an `{iv, data}` object reads back as its IV and ciphertext, and survives JSON unchanged |
| Crypto.Encrypt | src/frontend/js/crypto.js:86-103 | succeeds exactly when the cipher does, and then answers `{iv, data}` with the given IV and the ciphertext |
| Crypto.Decrypt | src/frontend/js/crypto.js:105-120 | a value that is not an `{iv, data}` pair of byte arrays fails; otherwise the decryption of its IV and ciphertext |
| Crypto.Sign | src/frontend/js/crypto.js:122-135 | succeeds exactly when the signer does, and then answers the signature as a byte array |
| Crypto.DecryptEncrypt | src/frontend/js/crypto.js:86-120 | under keys that round-trip, decrypting what `encrypt` produced gives the data as JSON carries it, both directly and after the ciphertext has crossed the network as JSON |
| Crypto.DecryptEncryptJson | src/frontend/js/crypto.js:86-120 | data that came from JSON decrypts back exactly |
| Sync.Answer | src/frontend/js/sync.js:39-53 | a network failure, a non-ok status ("Sync failed: <status>") or a non-JSON body is thrown; otherwise it returns the parsed body |
| Sync.AttemptShape | src/frontend/js/sync.js:20-28 | an object sends one request exactly when it could be encrypted and signed; that request carries its payload; it succeeds exactly when that request is answered successfully |
| Sync.DrainInOrder | src/frontend/js/sync.js:19-29 | the k-th request sent is the k-th queued object sealed with the k-th IV, and no more requests are sent than objects are queued |
| Sync.DrainCompletes | src/frontend/js/sync.js:19-31 | a drain ends without error if and only if every object was delivered, and then sent one request per object |
| Sync.DrainStops | src/frontend/js/sync.js:19-33 | a failed drain stops at an object k that was not delivered, after every earlier one was, having sent k requests plus one if k was sealed |
| Sync.DrainStaysFailed | src/frontend/js/sync.js:19-33 | once a drain has failed, later objects change nothing |
| Sync.SealedPayload | src/frontend/js/sync.js:20-28 | the payload carries the object's type and timestamp and the ciphertext of its data; the signature covers that ciphertext; after JSON the ciphertext still decrypts to the data |
| Sync.SyncService.constructor | src/frontend/js/sync.js:2-5 | an unset or empty worker URL falls back to `https://api.medrecord.space`; not syncing; nothing sent |
| Sync.SyncService.SyncToServer | src/frontend/js/sync.js:39-53 | one POST of the payload as JSON to `<apiUrl>/sync` is sent, and the result is Answer's reading of the reply |
| Sync.SyncService.AttemptSync | src/frontend/js/sync.js:7-37 | when syncing already or offline, nothing changes; otherwise the flag ends false, the requests sent are the drain's, the error logged is the one that ended it, the queue is emptied (keeping its generator) exactly when the drain completed, and patients and records are untouched |
| Sync.SyncService.SendItem | src/frontend/js/sync.js:20-28 | encrypt, sign and post one object: the requests and error of one Attempt |
| Sync.SyncService.SendQueue | src/frontend/js/sync.js:19-29 | the loop's requests and error are the drain's |
| State.OtherKeysKept | src/frontend/js/state.js:12-25 | keys an update does not name keep their value and their presence, and are not reported as changed |
| State.UpdatedKeysRead | src/frontend/js/state.js:15-20 | after an update, every key it names reads as its new value |
| State.DiffWithinUpdate | src/frontend/js/state.js:14-20 | the change detail names only keys of the update |
| State.DiffExact | src/frontend/js/state.js:14-20 | a key of the update is in the detail exactly when its new value differs from the original state, and then with `{old, new}` = the original and the new value |
| State.NothingToWrite | src/frontend/js/state.js:15-24 | an update whose every entry already holds changes nothing and reports nothing |
| State.Idempotent | src/frontend/js/state.js:12-25 | repeating an update changes nothing and dispatches nothing |
| State.StateManager.constructor | src/frontend/js/state.js:2-10 | `user` null, `patients` and `records` empty arrays, `settings` an empty object; no events |
| State.StateManager.SetState | src/frontend/js/state.js:12-25 | the state becomes Applied, and one `statechange` event carrying Diff is dispatched exactly when Diff is not empty |
| State.StateManager.GetState | src/frontend/js/state.js:27-29 | a falsy key answers the whole state; a non-empty string key answers that entry (undefined when absent) |

## Left out

- Cryptography itself (AES-GCM, RSA-PSS, key generation and key storage in crypto.js): the primitives are parameters of a `Provider`, and decryption is trusted to invert encryption only where `Crypto.RoundTrips` is assumed by a lemma.
- `verify` in crypto.js: nothing in the sync path calls it. Nothing in the worker calls `validateToken` either; `Auth.ValidateToken` is modelled on its own.
- `fetchFromServer` in the client's sync.js: it is not part of the sync path; it differs from `syncToServer` only in its path and error text.
- `addPatient`, `getPatient`, `getAllPatients`, `addRecord`, `getRecordsByPatient`: one-line delegations to `add`, `get`, `getAll` and `getByIndex`, which are modelled.
- `init`'s IndexedDB lifecycle (open, upgrade, version, success and error events) and the I/O errors of transactions: the constructor is the state after a first upgrade, and `Add` fails only for the key-in-use, key-generator and key-validity reasons above.
- Storage.AddRow: primary keys are numbers and strings; an own `id` that is an array of keys, which IndexedDB would store under that array, is refused as a DataError in the model.
- Storage.StorageService.Get: an array key answers none, because the model stores no object under one.
- Storage.Matching: the result's order (primary key order among equal index keys, and index-key order for an absent query) is not stated; the contract gives membership and length only.
- Dates and binary keys (`Date`, `ArrayBuffer`, typed arrays), which IndexedDB accepts as keys, are not values of the model: neither stored objects, index members nor queries can hold them.
- Crypto.Decrypt: `new Uint8Array(...)` coerces any array; the model refuses arrays that are not byte values.
- Crypto.Encrypt: JSON serialisation of the data before encryption is inside the abstract cipher; `JSON.stringify(undefined)` has no text, and `Crypto.RoundTrips` excludes undefined data.
- State.StateManager.SetState: `!==` on objects and arrays compares identity in JavaScript; the model compares values structurally, so writing an equal but distinct object is not reported as a change. The update is a map, so `setState(null)` and `setState(undefined)`, where `Object.entries` throws a TypeError, cannot be expressed.
- State.StateManager.GetState: the contract covers falsy keys and string keys; other truthy keys read the entry named by `String(key)`, which no ensures states; inherited members (`toString`, `__proto__`) are not modelled. With a falsy key the code returns the live `this.state` object, so a caller that mutates it changes the state without any change event; the model returns the state as a value, and that aliasing is not captured.
- Inherited properties in general: `hasOwnProperty` could be shadowed by an own member named `hasOwnProperty`; property reads see own members only.
- Numbers are unbounded integers: floating point, NaN and the string forms of non-integers are not modelled.
- Strings are sequences of Unicode scalar values. Key order is defined on their UTF-16 code units, as IndexedDB compares them, but a string's `length` and index reads (`Json.Member`, `Json.HasOwn`) count scalar values where JavaScript counts code units, so they differ for characters beyond U+FFFF.
- Auth.ValidateToken: `Number(...)` of a string is modelled for integer numerals with an optional sign and for the empty string; surrounding whitespace, fractions, exponents, hexadecimal, binary and octal numerals and `Infinity` read as NaN in the model, so such an expiry is invalid where the code may accept it. Beyond 2^53 the code compares rounded floating-point values; the model compares exact integers.
- The order of members in JSON text: objects are maps, so `JSON.stringify` output is compared as a value, not as text.
- Worker-side time, the `ctx` argument, the `X-API-Key` and `Content-Type` request headers, `statusText` and URL parsing beyond the pathname: the clock is a parameter, and requests carry only method, pathname and parsed body.
- Concurrency: several requests sharing the metrics key, or an `attemptSync` re-entered across an `await`, are not modelled; `syncInProgress` is checked and set in one step.
- `main.js` (what triggers `attemptSync`), service-worker.js, the Deta Space service and the build configuration are not part of this model.
- Sync.SyncService.AttemptSync: the storage and crypto services the code reads from `window.app` (src/frontend/js/sync.js:15-16) are parameters here. Nothing in main.js assigns `window.app` (its `const app` at module scope creates no `window` property), so unless a page outside this model sets it, every attempt that passes the guard throws a TypeError at that read, logs it, resets the flag, and sends and clears nothing; the model cannot express a missing `window.app`.
- The `console.error` of a failed drain is modelled as the error `AttemptSync` returns.
