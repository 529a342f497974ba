# fetch-sync client coordination layer in Dafny

fetch-sync hands a request to a service worker so that the browser's
Background Sync retries it even after the page is gone. This project models
the client side of that hand-off: the registry of outstanding syncs, the
one-time comms-channel handshake with the worker (and its 2000 ms timeout),
the per-call request/reply correlation of `postMessage`, the dispatch of
pushed SUCCESS/FAILURE results, and the public `fetchSync` API in front of
them (argument normalisation, the plain-`fetch` fallback, `init` and its
guards, `get`, `getAll` and the wrapper that gates every API method on
initialisation).

The model is a single-threaded event machine. `Requests.Store` is the
client store: the registry (`SyncRegistry.Registry`, key order plus map),
the comms status, whether a worker handle is held, the outbox of posted
messages, and the closure state of every `postMessage` call and every
handshake. Each callback of the source (a reply on a per-call port, a
message on the comms port, the handshake timer) is one `Store` method that
runs to completion. A `SyncRegistry.Sync` is an object with a constant id
and name, a settle-once promise (`Futures.Future`) and a `response` field
written in place. `Client.FetchSync` holds the two module flags
`hasStartedInit` and `hasBackgroundSyncSupport` and the store.

Files: `js_values.dfy` (JavaScript values, `typeof`, truthiness),
`futures.dfy` (settle-once promises), `registry.dfy` (syncs and the
registry), `requests.dfy` (lib/client/store/requests.js), `client.dfy`
(lib/client/index.js), `scenarios.dfy` (walk-throughs proved from the
contracts: a named sync's registration and lifecycle, a one-shot anonymous sync, a duplicate
registration, a late handshake reply, first-reply-only correlation, the
unsupported-environment fallback and a second `init`).

## Model

| member | source | states |
|---|---|---|
| Futures.SettleOnce | lib/client/store/requests.js:183-203 | a sync's promise settles at most once: after any series of resolve/reject calls it holds the outcome of the first one, and a settled promise never changes |
| SyncRegistry.Sync.Resolve | lib/client/store/requests.js:186 | `sync.resolve(v)` settles the promise with `v` only if it is still pending and leaves `response` alone |
| SyncRegistry.Sync.Reject | lib/client/store/requests.js:196 | `sync.reject(e)` settles the promise with `e` only if it is still pending and leaves `response` alone |
| SyncRegistry.Registry.Add | lib/client/store/requests.js:43-45 | the addSync action keeps the registry well formed, stores the sync under its id, leaves every other entry as it was and keeps the existing key order as a prefix |
| SyncRegistry.Registry.Remove | lib/client/store/requests.js:191 | the removeSync action drops exactly that id, keeps every other entry and the registry well formed, and is a no-op for an unregistered id |
| SyncRegistry.RemoveKeepsFirstMatch | lib/client/store/requests.js:191 | the remaining keys keep their relative order: removing any sync other than the first one with a given name leaves `get` on that name finding the same sync |
| SyncRegistry.FilterKeepsFirstMatch | lib/client/index.js:164-173 | a filter that keeps the first key whose sync has a given name keeps it as the first match, since a filter keeps the relative order of what it keeps |
| SyncRegistry.Registry.Empty | lib/client/store/requests.js:53 | the removeAllSyncs action leaves an empty, well-formed registry |
| SyncRegistry.IndexOfName | lib/client/index.js:164-173 | the position of the first sync in key order whose name equals the argument, with no earlier match; none exactly when no sync has that name |
| SyncRegistry.NamedIds | lib/client/index.js:180-188 | corrected getAll: an id is listed exactly when it is registered and its sync has a non-empty name, and no id twice when the keys are distinct |
| Client.NamedIdsIsFilter | lib/client/index.js:180-188 | corrected getAll is the same key-order filter as getAll as written, with the test applied to the registered sync's name instead of the key string: it lists the named ids in key order, each once |
| Requests.ReplyOutcome | lib/client/store/requests.js:144-149 | the first reply rejects exactly when its `error` field is truthy, with that error, and otherwise resolves with the whole reply |
| Requests.NewIdsAreNew | lib/client/store/requests.js:94 | the keys the handshake merge appends are exactly the listed ids not yet registered, each once |
| Requests.MergeSyncs | lib/client/store/requests.js:94 | merging the worker's list keeps every registered entry, appends the new ids in list order as fresh pending syncs built from the list, and keeps the registry well formed |
| Requests.Store.SetServiceWorker | lib/client/index.js:143 | the setServiceWorker action records whether the worker controller is present and changes nothing else |
| Requests.Store.PostMessage | lib/client/store/requests.js:119-133 | with a worker, exactly one message is posted and one pending, open correlation is added; without one the call throws and nothing is posted |
| Requests.Store.DeliverReply | lib/client/store/requests.js:135-150 | the first reply closes both ports and settles the promise by ReplyOutcome, passing a rejection to the chained sync's `reject`; every later reply changes nothing |
| Requests.Store.RegisterSync | lib/client/store/requests.js:33-49 | the sync is added only if its id is not a key (an existing entry is untouched), one register message is posted either way, and its rejection is chained to `sync.reject` |
| Requests.Store.CancelAllSyncs | lib/client/store/requests.js:51-56 | the registry is emptied whether or not the cancel-all message can be posted |
| Requests.Store.CancelSync | lib/client/store/requests.js:58-63 | exactly that sync is removed whether or not the cancel message can be posted |
| Requests.Store.OpenCommsChannel | lib/client/store/requests.js:69-85 | without a worker the result is an already rejected promise and nothing is posted; with one, the open request is posted and a pending, incomplete handshake begins |
| Requests.Store.AddSyncs | lib/client/store/requests.js:94 | the addSyncs action merges the worker's list into the registry as MergeSyncs does and changes nothing else |
| Requests.Store.ReceiveFetchResponse | lib/client/store/requests.js:155-181 | a push for an unregistered id changes nothing whatever its type; for a registered id SUCCESS and FAILURE settle that sync and any other type throws "Unknown response type" with no change |
| Requests.Store.HandleSyncSuccess | lib/client/store/requests.js:183-193 | the promise resolves with the deserialised response; a named sync stays registered with `response` set to it, an anonymous one is removed |
| Requests.Store.HandleSyncFailure | lib/client/store/requests.js:195-203 | the promise rejects with `data.error`; a named sync stays registered with `response` null, an anonymous one is removed |
| Requests.Store.OnCommsMessage | lib/client/store/requests.js:87-100 | the handshake becomes complete; while closed, the comms open and the listed syncs (or none) are merged; while open, the message is dispatched as a push; the handshake promise resolves unless the dispatch threw, with no guard for a handshake that already timed out |
| Requests.Store.OnCommsTimeout | lib/client/store/requests.js:102-108 | if no message has arrived the comms are set closed and the handshake rejects with the timeout error; once one has arrived nothing changes |
| Client.ResolveSyncArgs | lib/client/index.js:74-93 | (string, string or Request, extra) gives [name, request, extra if an object else {}]; a non-Request object as options gives [undefined, request, options]; otherwise [undefined, request, {}] |
| Client.EnvironmentHasSupport | lib/client/index.js:36-52 | true exactly when both service workers and Background Sync are available |
| Client.CheckSyncOperation | lib/client/index.js:54-61 | succeeds exactly when the request is a string or Request and the defaulted options are an object; a bad request is reported first |
| Client.ResolvedArgsPassOptionsCheck | lib/client/index.js:55-93 | on normalised arguments the options check never fires: a fetchSync call throws only for a request that is neither a string nor a Request |
| Client.GetAllAsWritten | lib/client/index.js:185-187 | getAll as written returns a selection of the registry's keys |
| Client.GetAllAsWrittenIsEmpty | lib/client/index.js:185-187 | getAll as written returns the empty list for every registry |
| Client.GetAllMissesNamedSync | lib/client/index.js:180-188 | for a registry holding one named sync, getAll as written lists nothing while the corrected NamedIds lists its id |
| Client.FetchSync.constructor | lib/client/index.js:33-34 | init has not started and background sync support is assumed |
| Client.FetchSync.Call | lib/client/index.js:106-114 | without background sync support the normalised request and options go to `fetch`; otherwise the call throws only for a bad request and else proceeds to create the sync with the normalised arguments |
| Client.FetchSync.RegisterNewSync | lib/client/index.js:63-71 | a fresh pending sync with the given id and name is registered as RegisterSync does |
| Client.FetchSync.Init | lib/client/index.js:120-152 | a second init and options without `workerUrl` throw before any change; an unsupported environment turns support off, rejects and leaves init not started; otherwise init is started before registration (and absent options then throw on reading `workerUrl`) |
| Client.FetchSync.OnWorkerRegistered | lib/client/index.js:139-145 | the store records the worker controller and the comms channel is opened as OpenCommsChannel does |
| Client.FetchSync.Gate | lib/client/index.js:209-235 | a gated method throws at once while init has not started, and otherwise runs once the comms are open and waits before that |
| Client.FetchSync.Get | lib/client/index.js:159-174 | behind the gate: the sync at IndexOfName, the first position in key order whose name equals the argument, or none exactly when IndexOfName finds none |
| Client.FetchSync.GetAll | lib/client/index.js:180-188 | behind the gate: a selection of registered ids, which is always empty |
| Client.FetchSync.CancelAll | lib/client/index.js:205-207 | behind the gate: the registry is emptied and the cancel-all message posted as CancelAllSyncs does; refused or waiting calls change nothing |

## Left out

- MessageChannel ports and `serviceWorker.postMessage` are not modelled as objects: a posted message is an outbox entry, a port pair is the `portsOpen` flag of its correlation, and a reply is a `DeliverReply` or `OnCommsMessage` event.
- The 2000 ms `setTimeout` is the `OnCommsTimeout` event; no clock is modelled.
- `navigator.serviceWorker.register`, `registration.update` (the `forceUpdate` option), `console.warn` and the probes of `navigator` and `window` are browser I/O; only their boolean results are parameters. A failed registration only logs and rethrows, so it changes no modelled state.
- `JSON.parse` of push messages and the serialise-request / serialise-response libraries are foreign code: pushes arrive already parsed, and `deserialise` is a parameter of the push handlers. A parse or deserialise failure is not modelled.
- The `fetch` fallback itself is network I/O: the model returns the request and options that would be forwarded.
- The store implementation, its reducer and the action creators are not part of this model. Their actions are plain map and status updates; addSyncs is taken to add only ids that are not yet registered. Posted messages are abstracted to their kind and sync id.
- `createSync` and `new Request(...)` are not part of this model: a new sync is given its id and name, with a pending promise and an undefined response.
- fetchSync.cancel is left out: it chains on the resolved value through `sync.cancel`, which is not part of this model.
- The promise chain of createSyncOperation (returning `sync.promise` after registration) is not modelled; the sync object stands for its promise.
- The store's `commsChannel.promise` is not part of this model: it is taken to be resolved when the comms status is open. A gated call made before that is reported as `Waiting`; its later run is the same method called once the comms are open.
- Key order is insertion order; JavaScript's ordering of integer-like keys first is not modelled.
- Numbers are integers: NaN and fractions are not modelled. Falsy primitives (`false`, `0`, `""`) as init options are not modelled; `NoOptions` stands for `undefined` and `null`.
- A rejection chained with `.catch(sync.reject)` runs in a later microtask in the source; the model applies it in the same step as the reply.
- Requests.Store.OnCommsMessage: tests the current comms status, while the source tests the `commsChannel` object it read when openCommsChannel was called (lib/client/store/requests.js:74); the two agree only if the store updates that object in place, which the unseen store decides.
- Requests.Store.CancelAllSyncs: does not settle the promises of the removed syncs: the code only dispatches removeAllSyncs (lib/client/store/requests.js:53), whose reducer is not part of this model.

## Findings

| source | as written | input that shows it | evidently intended | confidence | as-written member | corrected member |
|---|---|---|---|---|---|---|
| lib/client/index.js:185-187 | `Object.keys(syncs).filter(sync => !!sync.name)` tests the `name` of each key string, which is always undefined | a registry holding one sync with id "s1" and name "daily": getAll returns `[]` | the ids of the named syncs, in key order: the doc comment says "Get all named syncs" (line 177) and the list is built from `Object.keys`; the function name `fetchSync_getNames` (line 180) would instead point to the names, and the parameter name `sync` (line 185) to the sync records; both of those are a map over the same filtered ids, which is what the model proves | medium; not executed | Client.GetAllAsWritten | SyncRegistry.NamedIds |
