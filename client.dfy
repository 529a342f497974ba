/** The public fetchSync API (lib/client/index.js): argument normalisation,
    the fallback to plain `fetch` where background sync is unsupported,
    `init` and its guards, lookup by name, and the wrapper that makes every
    other API method wait for initialisation.

    The module-level flags `hasStartedInit` and `hasBackgroundSyncSupport`
    are fields of one `FetchSync` object, which also holds the client store.
    The browser probes (`'serviceWorker' in navigator`, `'SyncManager' in
    window`) are parameters; the worker registration and the network are
    outside the model. */
module Client {
  import opened JsValues
  import opened Futures
  import opened SyncRegistry
  import opened Requests

  /** The normalised `[name, request, options]` triple. */
  datatype SyncArgs = SyncArgs(name: Option<string>, request: Value, options: Value)

  /** resolveSyncArgs (lib/client/index.js:74-93): `fetchSync(name, request,
      options?)` when a string is followed by a string or Request, otherwise
      `fetchSync(request, options?)`; options that are not an object (or are
      a Request) become a fresh `{}`. */
  function ResolveSyncArgs(request: Value, options: Value, extra: Value): (r: SyncArgs)
    ensures request.Str? && (options.Str? || options.Req?) ==>
      r == SyncArgs(Some(request.s), options, if TypeOf(extra) == "object" then extra else EmptyObject)
    ensures !(request.Str? && (options.Str? || options.Req?)) && TypeOf(options) == "object" && !options.Req? ==>
      r == SyncArgs(None, request, options)
    ensures !(request.Str? && (options.Str? || options.Req?)) && (TypeOf(options) != "object" || options.Req?) ==>
      r == SyncArgs(None, request, EmptyObject)
  {
    var realOptions := if TypeOf(options) == "object" && !options.Req? then options else EmptyObject;
    if TypeOf(request) == "string" && (TypeOf(options) == "string" || options.Req?) then
      SyncArgs(Some(request.s), options, if TypeOf(extra) == "object" then extra else realOptions)
    else
      SyncArgs(None, request, realOptions)
  }

  /** The browser features fetchSync needs and lacks, in the order of the
      warning it prints. */
  function MissingFeatures(hasServiceWorker: bool, hasSyncManager: bool): seq<string> {
    (if hasServiceWorker then [] else ["Service Workers"]) + (if hasSyncManager then [] else ["Background Sync"])
  }

  /** environmentHasSupport (lib/client/index.js:36-52). */
  function EnvironmentHasSupport(hasServiceWorker: bool, hasSyncManager: bool): (r: bool)
    ensures r <==> hasServiceWorker && hasSyncManager
  {
    |MissingFeatures(hasServiceWorker, hasSyncManager)| == 0
  }

  const InvalidRequest := Error("Expecting URL to be a string or Request")
  const InvalidOptions := Error("Expecting options to be an object")

  /** createSyncOperation's third parameter: `{}` when it is undefined. */
  function DefaultOptions(options: Value): Value {
    if options.Undefined? then EmptyObject else options
  }

  /** The argument checks of createSyncOperation (lib/client/index.js:54-61),
      made before any serialisation or registration. */
  function CheckSyncOperation(request: Value, options: Value): (r: Result<()>)
    ensures r.Ok? <==> (request.Str? || request.Req?) && TypeOf(DefaultOptions(options)) == "object"
    ensures !(request.Str? || request.Req?) ==> r == Throw(InvalidRequest)
    ensures (request.Str? || request.Req?) && r.Throw? ==> r.error == InvalidOptions
  {
    if TypeOf(request) != "string" && !request.Req? then Throw(InvalidRequest)
    else if TypeOf(DefaultOptions(options)) != "object" then Throw(InvalidOptions)
    else Ok(())
  }

  /** Whatever the caller passes, resolveSyncArgs yields options of type
      "object", so the options check of createSyncOperation never fires on a
      fetchSync call: only a request that is neither a string nor a Request
      is refused. */
  lemma ResolvedArgsPassOptionsCheck(request: Value, options: Value, extra: Value)
    ensures var args := ResolveSyncArgs(request, options, extra);
      CheckSyncOperation(args.request, args.options)
        == if args.request.Str? || args.request.Req? then Ok(()) else Throw(InvalidRequest)
  {
    var args := ResolveSyncArgs(request, options, extra);
    assert TypeOf(args.options) == "object";
  }

  /** `key.name` for a registry key: the keys are strings, and a string has no
      `name` property. */
  function NameOfKey(key: SyncId): Value {
    Undefined
  }

  /** getAll as written (lib/client/index.js:185-187): the filter runs over the
      key strings of the registry, not over the syncs. */
  function GetAllAsWritten(keys: seq<SyncId>): (r: seq<SyncId>)
    ensures forall k :: k in r ==> k in keys
  {
    Filter(keys, k => Truthy(NameOfKey(k)))
  }

  /** A filter whose test never passes keeps nothing. */
  lemma {:induction false} FilterNothing(keys: seq<SyncId>, keep: SyncId -> bool)
    requires forall k :: !keep(k)
    ensures Filter(keys, keep) == []
  {
    if keys != [] {
      FilterNothing(keys[1..], keep);
    }
  }

  /** As written, getAll returns an empty list for every registry. */
  lemma GetAllAsWrittenIsEmpty(keys: seq<SyncId>)
    ensures GetAllAsWritten(keys) == []
  {
    FilterNothing(keys, k => Truthy(NameOfKey(k)));
  }

  /** A registry holding one named sync: getAll as written lists nothing,
      while the named ids are that sync's id. */
  lemma GetAllMissesNamedSync(s: Sync)
    requires s.IsNamed()
    ensures GetAllAsWritten([s.id]) == []
    ensures NamedIds([s.id], map[s.id := s]) == [s.id]
  {
    GetAllAsWrittenIsEmpty([s.id]);
    assert [s.id][1..] == [];
  }

  /** The corrected getAll is the same filter over the keys in key order as
      getAll as written; only the test differs, reading the registered
      sync's name instead of the key string's. */
  lemma {:induction false} NamedIdsIsFilter(order: seq<SyncId>, syncs: map<SyncId, Sync>)
    requires forall k :: k in order ==> k in syncs
    ensures NamedIds(order, syncs) == Filter(order, k => k in syncs && syncs[k].IsNamed())
  {
    if order != [] {
      NamedIdsIsFilter(order[1..], syncs);
    }
  }

  datatype InitOptions = NoOptions | Options(workerUrl: Value)

  /** What init does: throw, return an already rejected promise, or return
      the comms channel's promise while registration goes on. */
  datatype InitOutcome = InitThrew(error: Value) | InitRejected(reason: Value) | AwaitingComms

  /** The outcome of a call through the initialisation wrapper: thrown at
      once, waiting for the comms promise, or run. */
  datatype Gated<T> = Refused(error: Value) | Waiting | Ran(value: T)

  /** What a fetchSync call does: forward to `fetch`, throw, or go on to
      serialise the request and create the sync. */
  datatype CallOutcome = Forwarded(request: Value, options: Value) | CallThrew(error: Value) | Creating(args: SyncArgs)

  const InitCalledTwice := Error("fetchSync.init() called multiple times")
  const MissingWorkerUrl := Error("Expecting `workerUrl` in options object")
  const EnvironmentNotSupported := Error("Environment not supported")
  const NotInitialised := Error("Initialise fetchSync first by calling fetchSync.init(<options>)")
  /** What reading `options.workerUrl` throws when init got no options. */
  const NoInitOptions := TypeError("Cannot read property 'workerUrl' of undefined")

  class FetchSync {
    var hasStartedInit: bool
    var hasBackgroundSyncSupport: bool
    const store: Store

    constructor (store: Store)
      ensures this.store == store
      ensures !hasStartedInit && hasBackgroundSyncSupport
    {
      this.store := store;
      hasStartedInit := false;
      hasBackgroundSyncSupport := true;
    }

    /** fetchSync (lib/client/index.js:106-114). Without background sync
        support the normalised request and options go straight to `fetch`
        and the registry is not touched; otherwise the arguments are checked
        before anything else happens. This call is not behind the
        initialisation wrapper. */
    method Call(request: Value, options: Value, extra: Value) returns (r: CallOutcome)
      ensures var args := ResolveSyncArgs(request, options, extra);
        && (!hasBackgroundSyncSupport ==> r == Forwarded(args.request, args.options))
        && (hasBackgroundSyncSupport && (args.request.Str? || args.request.Req?) ==> r == Creating(args))
        && (hasBackgroundSyncSupport && !(args.request.Str? || args.request.Req?) ==> r == CallThrew(InvalidRequest))
    {
      var args := ResolveSyncArgs(request, options, extra);
      if !hasBackgroundSyncSupport {
        return Forwarded(args.request, args.options);
      }
      ResolvedArgsPassOptionsCheck(request, options, extra);
      match CheckSyncOperation(args.request, args.options)
      case Throw(e) => r := CallThrew(e);
      case Ok(_) => r := Creating(args);
    }

    /** The rest of createSyncOperation (lib/client/index.js:65-71), once the
        request has been serialised: the new sync (built by createSync, which
        is not part of this model) is registered. */
    method RegisterNewSync(id: SyncId, args: SyncArgs) returns (sync: Sync, r: Result<nat>)
      requires store.Valid()
      modifies store
      ensures fresh(sync) && sync.id == id && sync.name == args.name && sync.future == Pending
      ensures store.Valid()
      ensures store.registry == if id in old(store.registry.syncs) then old(store.registry) else old(store.registry).Add(sync)
      ensures store.Posted(RegisterSyncRequest(id), Some(sync), r)
    {
      sync := new Sync(id, args.name);
      r := store.RegisterSync(sync);
    }

    /** fetchSync.init (lib/client/index.js:120-152). Both guards throw before
        any state changes; an unsupported environment turns background sync
        off for good and leaves init not started; otherwise init counts as
        started before registration begins. */
    method Init(options: InitOptions, hasServiceWorker: bool, hasSyncManager: bool) returns (r: InitOutcome)
      modifies this
      ensures old(hasStartedInit) ==> r == InitThrew(InitCalledTwice) && unchanged(this)
      ensures !old(hasStartedInit) && options.Options? && !Truthy(options.workerUrl) ==>
        r == InitThrew(MissingWorkerUrl) && unchanged(this)
      ensures !old(hasStartedInit) && !(options.Options? && !Truthy(options.workerUrl)) ==>
        if EnvironmentHasSupport(hasServiceWorker, hasSyncManager) then
          && hasStartedInit && hasBackgroundSyncSupport == old(hasBackgroundSyncSupport)
          && r == (if options.NoOptions? then InitThrew(NoInitOptions) else AwaitingComms)
        else
          && !hasStartedInit && !hasBackgroundSyncSupport
          && r == InitRejected(EnvironmentNotSupported)
    {
      if hasStartedInit {
        return InitThrew(InitCalledTwice);
      } else if options.Options? && !Truthy(options.workerUrl) {
        return InitThrew(MissingWorkerUrl);
      }
      if !EnvironmentHasSupport(hasServiceWorker, hasSyncManager) {
        hasBackgroundSyncSupport := false;
        return InitRejected(EnvironmentNotSupported);
      }
      hasStartedInit := true;
      if options.NoOptions? {
        return InitThrew(NoInitOptions);
      }
      r := AwaitingComms;
    }

    /** The worker registration started by init has settled and the store
        received `navigator.serviceWorker.controller`, which may be absent;
        then the comms channel is opened (lib/client/index.js:139-145). */
    method OnWorkerRegistered(controllerPresent: bool) returns (r: OpenResult)
      requires store.Valid()
      modifies store
      ensures store.Valid() && store.serviceWorker == controllerPresent
      ensures store.registry == old(store.registry) && store.commsStatus == old(store.commsStatus)
      ensures store.replies == old(store.replies)
      ensures !controllerPresent ==>
        && r == RejectedAtOnce(NoServiceWorker)
        && store.outbox == old(store.outbox) && store.handshakes == old(store.handshakes)
      ensures controllerPresent ==>
        && r == Awaiting(|old(store.handshakes)|)
        && store.outbox == old(store.outbox) + [OpenCommsRequest]
        && store.handshakes == old(store.handshakes) + [Handshake(false, Pending)]
    {
      store.SetServiceWorker(controllerPresent);
      r := store.OpenCommsChannel();
    }

    /** The initialisation wrapper put around every API method but init
        (lib/client/index.js:209-235): it throws at once while init has not
        started, and otherwise runs the method once the comms channel's
        promise has resolved, which the model takes to be when the comms
        status is open. */
    method Gate() returns (g: Gated<()>)
      ensures !hasStartedInit ==> g == Refused(NotInitialised)
      ensures hasStartedInit && store.commsStatus != Open ==> g == Waiting
      ensures hasStartedInit && store.commsStatus == Open ==> g == Ran(())
    {
      if !hasStartedInit {
        return Refused(NotInitialised);
      }
      g := if store.commsStatus == Open then Ran(()) else Waiting;
    }

    /** fetchSync.get (lib/client/index.js:159-174), behind the wrapper: the
        first sync in key order whose name equals `name` (whose promise the
        source returns), or none (`false`). */
    method Get(name: Option<string>) returns (r: Gated<Option<Sync>>)
      requires store.Valid()
      ensures !hasStartedInit ==> r == Refused(NotInitialised)
      ensures hasStartedInit && store.commsStatus != Open ==> r == Waiting
      ensures hasStartedInit && store.commsStatus == Open ==> r.Ran?
      ensures r.Ran? ==>
        var found := IndexOfName(store.registry.order, store.registry.syncs, name);
        && (r.value.None? <==> found.None?)
        && (r.value.Some? ==> r.value.value == store.registry.syncs[store.registry.order[found.value]])
      ensures r.Ran? && r.value.None? ==>
        forall k :: k in store.registry.syncs ==> store.registry.syncs[k].name != name
    {
      var g := Gate();
      if !g.Ran? {
        return if g.Refused? then Refused(g.error) else Waiting;
      }
      var ids := store.registry.order;
      var syncs := store.registry.syncs;
      var i := 0;
      while i < |ids|
        invariant 0 <= i <= |ids|
        invariant forall j :: 0 <= j < i ==> syncs[ids[j]].name != name
      {
        var sync := syncs[ids[i]];
        if sync.name == name {
          IndexOfNameAt(ids, syncs, name, i);
          return Ran(Some(sync));
        }
        i := i + 1;
      }
      r := Ran(None);
    }

    /** fetchSync.getAll (lib/client/index.js:180-188), behind the wrapper:
        a selection of the registry's ids, empty as written. */
    method GetAll() returns (r: Gated<seq<SyncId>>)
      requires store.Valid()
      ensures !hasStartedInit ==> r == Refused(NotInitialised)
      ensures hasStartedInit && store.commsStatus != Open ==> r == Waiting
      ensures hasStartedInit && store.commsStatus == Open ==> r.Ran?
      ensures r.Ran? ==> forall k :: k in r.value ==> k in store.registry.syncs
      ensures r.Ran? ==> r.value == []
    {
      var g := Gate();
      if !g.Ran? {
        return if g.Refused? then Refused(g.error) else Waiting;
      }
      GetAllAsWrittenIsEmpty(store.registry.order);
      r := Ran(GetAllAsWritten(store.registry.order));
    }

    /** fetchSync.cancelAll (lib/client/index.js:205-207), behind the
        wrapper. */
    method CancelAll() returns (r: Gated<Result<nat>>)
      requires store.Valid()
      modifies store
      ensures store.Valid()
      ensures !r.Ran? ==> unchanged(store)
      ensures !old(hasStartedInit) ==> r == Refused(NotInitialised)
      ensures old(hasStartedInit) && old(store.commsStatus) != Open ==> r == Waiting
      ensures old(hasStartedInit) && old(store.commsStatus) == Open ==>
        r.Ran? && store.registry == Registry.Empty() && store.Posted(CancelAllSyncsRequest, None, r.value)
    {
      var g := Gate();
      if !g.Ran? {
        return if g.Refused? then Refused(g.error) else Waiting;
      }
      var posted := store.CancelAllSyncs();
      r := Ran(posted);
    }
  }
}
