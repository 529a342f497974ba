/** Client-side walk-throughs of the library's documented behaviour, proved
    from the contracts of the Store and FetchSync methods alone. */
module Scenarios {
  import opened JsValues
  import opened Futures
  import opened SyncRegistry
  import opened Requests
  import opened Client

  function Identity(v: Value): Value {
    v
  }

  /** Initialisation in a supported browser: init starts, the worker is
      registered, and the first message on the comms port opens the comms. */
  method InitAndHandshake() returns (api: FetchSync)
    ensures fresh(api) && fresh(api.store)
    ensures api.hasStartedInit && api.hasBackgroundSyncSupport
    ensures api.store.Valid() && api.store.serviceWorker && api.store.commsStatus == Open
    ensures api.store.registry.order == [] && api.store.outbox == [OpenCommsRequest] && api.store.replies == []
  {
    var store := new Store();
    api := new FetchSync(store);
    var init := api.Init(Options(Str("/worker.js")), true, true);
    assert init == AwaitingComms;
    var opening := api.OnWorkerRegistered(true);
    assert opening == Awaiting(0);
    var ack := store.OnCommsMessage(0, CommsMessage(None, Push(Success, "none", Undefined, Undefined)), Identity);
    assert store.handshakes[0].promise == Resolved(Undefined);
  }

  /** A named fetchSync call once initialised: the sync is registered with
      one message. */
  method NamedSyncRegistration() returns (api: FetchSync, sync: Sync)
    ensures api.hasStartedInit && api.store.Valid() && api.store.commsStatus == Open
    ensures api.store.registry.order == ["s1"] && api.store.registry.syncs["s1"] == sync
    ensures sync.name == Some("dailyReport")
  {
    api := InitAndHandshake();
    var call := api.Call(Str("dailyReport"), Str("https://api/report"), Undefined);
    assert call == Creating(SyncArgs(Some("dailyReport"), Str("https://api/report"), EmptyObject));
    var posted;
    sync, posted := api.RegisterNewSync("s1", call.args);
    assert posted == Ok(0) && api.store.outbox[1] == RegisterSyncRequest("s1");
  }

  /** The registered sync is found again by its name. */
  method NamedSyncFoundByName() {
    var api, sync := NamedSyncRegistration();
    assert IndexOfName(api.store.registry.order, api.store.registry.syncs, Some("dailyReport")) == Some(0);
    var found := api.Get(Some("dailyReport"));
    assert found == Ran(Some(sync));
  }

  /** A store whose comms channel is open, with an empty registry. */
  method OpenStore() returns (store: Store)
    ensures fresh(store) && store.Valid()
    ensures store.serviceWorker && store.commsStatus == Open && |store.handshakes| == 1
    ensures store.registry.order == [] && store.registry.syncs == map[] && store.replies == []
  {
    store := new Store();
    store.SetServiceWorker(true);
    var opening := store.OpenCommsChannel();
    var ack := store.OnCommsMessage(0, CommsMessage(None, Push(Success, "none", Undefined, Undefined)), Identity);
  }

  /** A named sync is resolved by the first SUCCESS push and kept in the
      registry; a second push only refreshes its response. */
  method NamedSyncLifecycle() {
    var store := OpenStore();
    var sync := new Sync("s1", Some("dailyReport"));
    var posted := store.RegisterSync(sync);
    assert store.registry.syncs["s1"] == sync;

    store.DeliverReply(0, ReplyData(Undefined, Obj(1)));
    assert store.replies[0].promise == Resolved(ReplyData(Undefined, Obj(1)));
    assert sync.future == Pending;

    var first := store.OnCommsMessage(0, CommsMessage(None, Push(Success, "s1", Str("R"), Undefined)), Identity);
    assert sync.future == Resolved(Str("R")) && sync.response == Str("R");
    assert store.registry.order == ["s1"] && store.registry.syncs["s1"] == sync;

    var again := store.OnCommsMessage(0, CommsMessage(None, Push(Success, "s1", Str("R2"), Undefined)), Identity);
    assert sync.future == Resolved(Str("R")) && sync.response == Str("R2");
  }

  /** An anonymous sync leaves the registry with its first result; a later
      push for its id changes nothing, whatever its type. */
  method AnonymousSyncIsOneShot() {
    var store := new Store();
    store.SetServiceWorker(true);
    var sync := new Sync("a1", None);
    var posted := store.RegisterSync(sync);
    var done := store.ReceiveFetchResponse(Push(Failure, "a1", Undefined, Str("offline")), Identity);
    assert sync.future == Rejected(Str("offline")) && "a1" !in store.registry.syncs;
    var late := store.ReceiveFetchResponse(Push(OtherType("PROGRESS"), "a1", Undefined, Undefined), Identity);
    assert late == Ok(()) && sync.future == Rejected(Str("offline"));
  }

  /** Registering an id that is already a key leaves the registry as it was
      but still posts a second register message. */
  method DuplicateRegistration() {
    var store := new Store();
    store.SetServiceWorker(true);
    var s := new Sync("d1", Some("daily"));
    var copy := new Sync("d1", Some("other"));
    var first := store.RegisterSync(s);
    var second := store.RegisterSync(copy);
    assert store.registry.syncs == map["d1" := s] && store.registry.order == ["d1"];
    assert store.outbox == [RegisterSyncRequest("d1"), RegisterSyncRequest("d1")];
  }

  /** A handshake reply that arrives after the timer has fired still opens
      the comms and merges the worker's syncs, but the handshake stays
      rejected. The second timer event cannot happen in the source, which
      arms one timer per handshake; it only shows that the timer is inert
      once a message has arrived. */
  method LateHandshakeReply() {
    var store := new Store();
    store.SetServiceWorker(true);
    var opening := store.OpenCommsChannel();
    store.OnCommsTimeout(0);
    assert store.commsStatus == Closed && store.handshakes[0].promise == Rejected(HandshakeTimedOut);
    var infos := [SyncInfo("n1", Some("daily"))];
    var late := store.OnCommsMessage(0, CommsMessage(Some(infos), Push(Success, "n1", Undefined, Undefined)), Identity);
    assert store.commsStatus == Open && store.handshakes[0].promise == Rejected(HandshakeTimedOut);
    assert "n1" in IdsOf(infos);
    assert "n1" in store.registry.syncs && store.registry.syncs["n1"].future == Pending;
    store.OnCommsTimeout(0);
    assert store.commsStatus == Open;
  }

  /** Only the first reply on a per-call port counts, and a rejected register
      reply rejects the sync. */
  method FirstReplyOnly() {
    var store := new Store();
    store.SetServiceWorker(true);
    var sync := new Sync("r1", None);
    var posted := store.RegisterSync(sync);
    store.DeliverReply(0, ReplyData(Str("quota"), Undefined));
    assert store.replies[0] == Correlation(true, false, Rejected(Str("quota")), Some(sync));
    assert sync.future == Rejected(Str("quota"));
    store.DeliverReply(0, ReplyData(Undefined, Obj(2)));
    assert store.replies[0].promise == Rejected(Str("quota")) && sync.future == Rejected(Str("quota"));
  }

  /** Without background sync support a call goes straight to fetch; init
      can be called again after that, and a second successful init throws. */
  method UnsupportedThenInitTwice() {
    var store := new Store();
    var api := new FetchSync(store);
    var denied := api.Init(Options(Str("/worker.js")), true, false);
    assert denied == InitRejected(EnvironmentNotSupported) && !api.hasStartedInit;
    var call := api.Call(Str("https://api/x"), Undefined, Undefined);
    assert call == Forwarded(Str("https://api/x"), EmptyObject);
    var started := api.Init(Options(Str("/worker.js")), true, true);
    assert started == AwaitingComms;
    var twice := api.Init(Options(Str("/worker.js")), true, true);
    assert twice == InitThrew(InitCalledTwice);
    var waiting := api.Get(Some("daily"));
    assert waiting == Waiting;
  }
}
