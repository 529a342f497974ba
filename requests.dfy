/** The client side of the coordination protocol with the service worker
    (lib/client/store/requests.js): registering and cancelling syncs, the
    one-time comms-channel handshake with its two-second timeout, the per-call
    request/reply correlation, and the dispatch of pushed results.

    The whole client store is one `Store` object. Every callback of the
    source (a reply on a per-call port, a message on the comms port, the
    handshake timer firing) is one method that runs to completion; JavaScript
    runs them one at a time, so nothing interleaves inside a method. */
module Requests {
  import opened JsValues
  import opened Futures
  import opened SyncRegistry

  datatype CommsStatus = Closed | Open

  /** A message this client posts to the service worker. Its exact shape is
      built by action creators that are not part of this model. */
  datatype Request =
    | RegisterSyncRequest(id: SyncId)
    | CancelSyncRequest(id: SyncId)
    | CancelAllSyncsRequest
    | OpenCommsRequest

  /** `event.data` of a reply on a per-call port. */
  datatype ReplyData = ReplyData(error: Value, body: Value)

  /** The closure state of one postMessage call: its `complete` flag, whether
      its two ports are still open, the promise it returned, and the sync whose
      `reject` is chained on that promise's rejection, if any. */
  datatype Correlation = Correlation(complete: bool, portsOpen: bool, promise: Future<ReplyData>, onReject: Option<Sync>)

  /** The closure state of one openCommsChannel call. */
  datatype Handshake = Handshake(complete: bool, promise: Future<Value>)

  datatype PushType = Success | Failure | OtherType(name: string)

  /** A push message after `JSON.parse`: `{type, data: {id, response, error}}`. */
  datatype Push = Push(kind: PushType, id: SyncId, response: Value, error: Value)

  /** A named sync the worker already knows, as listed in the handshake reply. */
  datatype SyncInfo = SyncInfo(id: SyncId, name: Option<string>)

  /** A message on the comms port. The source reads the same `event.data` in
      two ways depending on the comms status: as the handshake reply, whose
      `data` field (`named`) lists the worker's syncs, or as the JSON text of a
      push (`push`). */
  datatype CommsMessage = CommsMessage(named: Option<seq<SyncInfo>>, push: Push)

  /** What openCommsChannel returns: an already rejected promise, or the
      pending handshake with the given index. */
  datatype OpenResult = RejectedAtOnce(reason: Value) | Awaiting(handshake: nat)

  const HandshakeTimeoutMs := 2000
  const HandshakeTimedOut := Error("Connecting to Worker timed out. See Initialisation documentation.")
  const NoServiceWorker := Error("No service worker")
  /** What `serviceWorker.postMessage(...)` throws while no worker is set. */
  const PostWithoutWorker := TypeError("Cannot read property 'postMessage' of null")

  function UnknownResponseType(t: string): Value {
    Error("Unknown response type '" + t + "'")
  }

  /** How the first reply on a per-call port settles its promise: a truthy
      `error` field rejects with it, anything else resolves with the whole
      reply. */
  function ReplyOutcome(data: ReplyData): (op: Settle<ReplyData>)
    ensures op.DoReject? <==> Truthy(data.error)
    ensures op.DoReject? ==> op.e == data.error
    ensures op.DoResolve? ==> op.v == data
  {
    if Truthy(data.error) then DoReject(data.error) else DoResolve(data)
  }

  function IdsOf(infos: seq<SyncInfo>): set<SyncId> {
    set info | info in infos :: info.id
  }

  /** The ids of `infos` that are not in `known`, first occurrence only, in
      list order: the keys a merge appends to the registry. */
  function NewIds(known: set<SyncId>, infos: seq<SyncInfo>): seq<SyncId>
    decreases |infos|
  {
    if infos == [] then []
    else if infos[0].id in known then NewIds(known, infos[1..])
    else [infos[0].id] + NewIds(known + {infos[0].id}, infos[1..])
  }

  /** The keys a merge appends are exactly the listed ids not yet known, each
      once. */
  lemma {:induction false} NewIdsAreNew(known: set<SyncId>, infos: seq<SyncInfo>)
    ensures Distinct(NewIds(known, infos))
    ensures forall k :: k in NewIds(known, infos) <==> k in IdsOf(infos) && k !in known
    decreases |infos|
  {
    if infos != [] {
      assert IdsOf(infos) == {infos[0].id} + IdsOf(infos[1..]) by {
        assert infos == [infos[0]] + infos[1..];
      }
      if infos[0].id in known {
        NewIdsAreNew(known, infos[1..]);
      } else {
        NewIdsAreNew(known + {infos[0].id}, infos[1..]);
      }
    }
  }

  lemma NewIdsStep(known: set<SyncId>, infos: seq<SyncInfo>, i: nat)
    requires i < |infos|
    ensures NewIds(known, infos[i..]) ==
      if infos[i].id in known then NewIds(known, infos[i + 1..])
      else [infos[i].id] + NewIds(known + {infos[i].id}, infos[i + 1..])
  {
    assert infos[i..][0] == infos[i] && infos[i..][1..] == infos[i + 1..];
  }

  /** Merges the worker's list of syncs into a registry: ids not yet
      registered are appended, in list order, as fresh pending syncs; the
      registered ones are left as they are. */
  method MergeSyncs(reg0: Registry, infos: seq<SyncInfo>) returns (reg: Registry)
    requires reg0.Valid()
    ensures reg.Valid()
    ensures reg.syncs.Keys == reg0.syncs.Keys + IdsOf(infos)
    ensures forall k :: k in reg0.syncs ==> reg.syncs[k] == reg0.syncs[k]
    ensures reg.order == reg0.order + NewIds(reg0.syncs.Keys, infos)
    ensures forall k :: k in reg.syncs && k !in reg0.syncs ==> fresh(reg.syncs[k])
    ensures forall k :: k in reg.syncs && k !in reg0.syncs ==> reg.syncs[k].future == Pending
    ensures forall k :: k in reg.syncs && k !in reg0.syncs ==> SyncInfo(k, reg.syncs[k].name) in infos
  {
    reg := reg0;
    var i := 0;
    assert infos[0..] == infos;
    while i < |infos|
      modifies {}
      invariant 0 <= i <= |infos|
      invariant reg.Valid()
      invariant forall k :: k in reg0.syncs ==> k in reg.syncs && reg.syncs[k] == reg0.syncs[k]
      invariant reg.order + NewIds(reg.syncs.Keys, infos[i..]) == reg0.order + NewIds(reg0.syncs.Keys, infos)
      invariant forall k :: k in reg.syncs && k !in reg0.syncs ==> fresh(reg.syncs[k])
      invariant forall k :: k in reg.syncs && k !in reg0.syncs ==> reg.syncs[k].future == Pending
      invariant forall k :: k in reg.syncs && k !in reg0.syncs ==> SyncInfo(k, reg.syncs[k].name) in infos
    {
      reg := MergeOne(reg, infos, i);
      i := i + 1;
    }
    assert infos[i..] == [];
    assert reg.order == reg0.order + NewIds(reg0.syncs.Keys, infos);
    NewIdsAreNew(reg0.syncs.Keys, infos);
    assert forall k :: k in reg.syncs <==> k in reg0.syncs || k in IdsOf(infos);
  }

  /** One step of the merge: `infos[i]` becomes a fresh pending sync unless
      its id is already registered. */
  method MergeOne(reg0: Registry, infos: seq<SyncInfo>, i: nat) returns (reg: Registry)
    requires reg0.Valid() && i < |infos|
    ensures reg.Valid()
    ensures reg.order + NewIds(reg.syncs.Keys, infos[i + 1..]) == reg0.order + NewIds(reg0.syncs.Keys, infos[i..])
    ensures forall k :: k in reg0.syncs ==> k in reg.syncs && reg.syncs[k] == reg0.syncs[k]
    ensures forall k :: k in reg.syncs && k !in reg0.syncs ==>
      fresh(reg.syncs[k]) && reg.syncs[k].future == Pending && SyncInfo(k, reg.syncs[k].name) in infos
  {
    var info := infos[i];
    NewIdsStep(reg0.syncs.Keys, infos, i);
    reg := reg0;
    if info.id !in reg.syncs {
      var s := new Sync(info.id, info.name);
      reg := reg.Add(s);
      assert reg.order == reg0.order + [info.id];
      assert reg.syncs.Keys == reg0.syncs.Keys + {info.id};
    }
  }

  class Store {
    var registry: Registry
    var commsStatus: CommsStatus
    /** Whether the store holds a service worker handle. */
    var serviceWorker: bool
    /** Every message posted to the service worker, in order. */
    var outbox: seq<Request>
    /** One entry per postMessage call, in call order. */
    var replies: seq<Correlation>
    /** One entry per openCommsChannel call that reached the worker. */
    var handshakes: seq<Handshake>

    ghost predicate Valid()
      reads this
    {
      && registry.Valid()
      && (forall c :: c in replies ==> (c.complete <==> !c.portsOpen) && (c.complete <==> c.promise.Settled()))
    }

    constructor ()
      ensures Valid()
      ensures registry == Registry.Empty() && commsStatus == Closed && !serviceWorker
      ensures outbox == [] && replies == [] && handshakes == []
    {
      registry := Registry.Empty();
      commsStatus := Closed;
      serviceWorker := false;
      outbox := [];
      replies := [];
      handshakes := [];
    }

    /** The sync a push for `id` would settle: the registered one, if any. */
    function PushTarget(id: SyncId): set<Sync>
      reads this
    {
      if id in registry.syncs then {registry.syncs[id]} else {}
    }

    /** The sync whose `reject` is chained on the promise of call `k`. */
    function ReplyTarget(k: nat): set<Sync>
      requires k < |replies|
      reads this
    {
      if replies[k].onReject.Some? then {replies[k].onReject.value} else {}
    }

    /** Nothing but the registry and the syncs changed. */
    twostate predicate SameChannels()
      reads this
    {
      && commsStatus == old(commsStatus) && serviceWorker == old(serviceWorker)
      && outbox == old(outbox) && replies == old(replies) && handshakes == old(handshakes)
    }

    /** One postMessage call's effect on the channels: with a worker, exactly
        one message is posted and one pending correlation opened; without one,
        the call throws and nothing is posted. */
    twostate predicate Posted(msg: Request, new onReject: Option<Sync>, new r: Result<nat>)
      reads this
    {
      && commsStatus == old(commsStatus) && serviceWorker == old(serviceWorker)
      && handshakes == old(handshakes)
      && (old(serviceWorker) ==>
            && r == Ok(|old(replies)|)
            && outbox == old(outbox) + [msg]
            && replies == old(replies) + [Correlation(false, true, Pending, onReject)])
      && (!old(serviceWorker) ==>
            r == Throw(PostWithoutWorker) && outbox == old(outbox) && replies == old(replies))
    }

    /** What a push with a registered id does to that sync and to the
        registry (lib/client/store/requests.js:166-202). */
    twostate predicate Dispatched(push: Push, deserialise: Value -> Value, sync: Sync, new r: Result<()>)
      reads this, sync
    {
      match push.kind
      case Success =>
        var v := deserialise(push.response);
        && r == Ok(())
        && sync.future == old(sync.future).Resolve(v)
        && (if sync.IsNamed() then sync.response == v && registry == old(registry)
            else sync.response == old(sync.response) && registry == old(registry).Remove(sync.id))
      case Failure =>
        && r == Ok(())
        && sync.future == old(sync.future).Reject(push.error)
        && (if sync.IsNamed() then sync.response == Null && registry == old(registry)
            else sync.response == old(sync.response) && registry == old(registry).Remove(sync.id))
      case OtherType(t) =>
        && r == Throw(UnknownResponseType(t))
        && registry == old(registry)
        && sync.future == old(sync.future) && sync.response == old(sync.response)
    }

    /** What merging the worker's list of syncs does to the registry: ids not
        yet registered are appended as fresh pending syncs; registered ones are
        left as they are. */
    twostate predicate Merged(infos: seq<SyncInfo>)
      reads this, registry.syncs.Values
    {
      && registry.syncs.Keys == old(registry.syncs.Keys) + IdsOf(infos)
      && (forall k :: k in old(registry.syncs) ==> registry.syncs[k] == old(registry.syncs[k]))
      && registry.order == old(registry.order) + NewIds(old(registry.syncs.Keys), infos)
      && (forall k :: k in registry.syncs && k !in old(registry.syncs) ==>
            && fresh(registry.syncs[k])
            && registry.syncs[k].future == Pending
            && SyncInfo(k, registry.syncs[k].name) in infos)
    }

    /** The setServiceWorker action. */
    method SetServiceWorker(present: bool)
      requires Valid()
      modifies this
      ensures Valid() && serviceWorker == present
      ensures registry == old(registry) && commsStatus == old(commsStatus)
      ensures outbox == old(outbox) && replies == old(replies) && handshakes == old(handshakes)
    {
      serviceWorker := present;
    }

    /** postMessage (lib/client/store/requests.js:119-153): posts `msg` with a
        fresh port and returns the promise of its first reply. */
    method PostMessage(msg: Request, onReject: Option<Sync>) returns (r: Result<nat>)
      requires Valid()
      modifies this
      ensures Valid() && registry == old(registry)
      ensures Posted(msg, onReject, r)
    {
      if !serviceWorker {
        return Throw(PostWithoutWorker);
      }
      outbox := outbox + [msg];
      replies := replies + [Correlation(false, true, Pending, onReject)];
      r := Ok(|replies| - 1);
    }

    /** A reply arrives on the port of postMessage call `k`
        (lib/client/store/requests.js:135-150). Only the first reply counts: it
        closes both ports and settles the promise; a rejection is passed on to
        the sync chained on it. Later replies change nothing. */
    method DeliverReply(k: nat, data: ReplyData)
      requires Valid() && k < |replies|
      modifies this, ReplyTarget(k)
      ensures Valid()
      ensures registry == old(registry) && commsStatus == old(commsStatus) && serviceWorker == old(serviceWorker)
      ensures outbox == old(outbox) && handshakes == old(handshakes)
      ensures old(replies[k].complete) ==> replies == old(replies)
      ensures !old(replies[k].complete) ==>
        replies == old(replies)[k := Correlation(true, false, Apply(Pending, ReplyOutcome(data)), old(replies[k].onReject))]
      ensures old(replies[k].onReject).Some? ==>
        var s := old(replies[k].onReject.value);
        && s.response == old(s.response)
        && s.future == if !old(replies[k].complete) && Truthy(data.error) then old(s.future).Reject(data.error) else old(s.future)
    {
      var c := replies[k];
      if c.complete {
        return;
      }
      // port1.close(); port2.close()
      var outcome := ReplyOutcome(data);
      replies := replies[k := Correlation(true, false, Apply(c.promise, outcome), c.onReject)];
      if outcome.DoReject? && c.onReject.Some? {
        c.onReject.value.Reject(data.error);
      }
    }

    /** registerSync (lib/client/store/requests.js:33-49): the sync is added
        only if its id is not yet a key, and one register message is posted
        whatever the registry held; a rejected reply rejects the sync. */
    method RegisterSync(sync: Sync) returns (r: Result<nat>)
      requires Valid()
      modifies this
      ensures Valid()
      ensures registry == if sync.id in old(registry.syncs) then old(registry) else old(registry).Add(sync)
      ensures Posted(RegisterSyncRequest(sync.id), Some(sync), r)
    {
      if sync.id !in registry.syncs {
        registry := registry.Add(sync);
      }
      r := PostMessage(RegisterSyncRequest(sync.id), Some(sync));
    }

    /** cancelAllSyncs (lib/client/store/requests.js:51-56): the registry is
        emptied before, and whether or not, the cancel message is posted. */
    method CancelAllSyncs() returns (r: Result<nat>)
      requires Valid()
      modifies this
      ensures Valid() && registry == Registry.Empty()
      ensures Posted(CancelAllSyncsRequest, None, r)
    {
      registry := Registry.Empty();
      r := PostMessage(CancelAllSyncsRequest, None);
    }

    /** cancelSync (lib/client/store/requests.js:58-63): exactly this sync is
        removed before, and whether or not, the cancel message is posted. */
    method CancelSync(sync: Sync) returns (r: Result<nat>)
      requires Valid()
      modifies this
      ensures Valid() && registry == old(registry).Remove(sync.id)
      ensures Posted(CancelSyncRequest(sync.id), None, r)
    {
      registry := registry.Remove(sync.id);
      r := PostMessage(CancelSyncRequest(sync.id), None);
    }

    /** openCommsChannel (lib/client/store/requests.js:69-85): without a
        worker, an already rejected promise and nothing posted; otherwise the
        open request is posted and a pending handshake begins. */
    method OpenCommsChannel() returns (r: OpenResult)
      requires Valid()
      modifies this
      ensures Valid()
      ensures registry == old(registry) && commsStatus == old(commsStatus) && serviceWorker == old(serviceWorker)
      ensures replies == old(replies)
      ensures !serviceWorker ==>
        r == RejectedAtOnce(NoServiceWorker) && outbox == old(outbox) && handshakes == old(handshakes)
      ensures serviceWorker ==>
        && r == Awaiting(|old(handshakes)|)
        && outbox == old(outbox) + [OpenCommsRequest]
        && handshakes == old(handshakes) + [Handshake(false, Pending)]
    {
      if !serviceWorker {
        return RejectedAtOnce(NoServiceWorker);
      }
      outbox := outbox + [OpenCommsRequest];
      handshakes := handshakes + [Handshake(false, Pending)];
      r := Awaiting(|handshakes| - 1);
    }

    /** The addSyncs action with the worker's list of named syncs. */
    method AddSyncs(infos: seq<SyncInfo>)
      requires Valid()
      modifies this
      ensures Valid() && SameChannels()
      ensures Merged(infos)
    {
      registry := MergeSyncs(registry, infos);
    }

    /** receiveFetchResponse (lib/client/store/requests.js:155-181): a push
        for an unregistered id changes nothing, whatever its type; for a
        registered one it settles that sync, and an unknown type throws. */
    method ReceiveFetchResponse(push: Push, deserialise: Value -> Value) returns (r: Result<()>)
      requires Valid()
      modifies this, PushTarget(push.id)
      ensures Valid() && SameChannels()
      ensures push.id !in old(registry.syncs) ==> r == Ok(()) && registry == old(registry)
      ensures push.id in old(registry.syncs) ==> Dispatched(push, deserialise, old(registry.syncs[push.id]), r)
    {
      if push.id !in registry.syncs {
        return Ok(());
      }
      var sync := registry.syncs[push.id];
      match push.kind
      case Success =>
        HandleSyncSuccess(sync, push, deserialise);
        r := Ok(());
      case Failure =>
        HandleSyncFailure(sync, push);
        r := Ok(());
      case OtherType(t) =>
        r := Throw(UnknownResponseType(t));
    }

    /** handleSyncSuccess (lib/client/store/requests.js:183-193). */
    method HandleSyncSuccess(sync: Sync, push: Push, deserialise: Value -> Value)
      requires Valid()
      modifies this, sync
      ensures Valid() && SameChannels()
      ensures var v := deserialise(push.response);
        && sync.future == old(sync.future).Resolve(v)
        && (if sync.IsNamed() then sync.response == v && registry == old(registry)
            else sync.response == old(sync.response) && registry == old(registry).Remove(sync.id))
    {
      var v := deserialise(push.response);
      sync.Resolve(v);
      if sync.IsNamed() {
        sync.response := v;
      } else {
        registry := registry.Remove(sync.id);
      }
    }

    /** handleSyncFailure (lib/client/store/requests.js:195-203). */
    method HandleSyncFailure(sync: Sync, push: Push)
      requires Valid()
      modifies this, sync
      ensures Valid() && SameChannels()
      ensures sync.future == old(sync.future).Reject(push.error)
      ensures if sync.IsNamed() then sync.response == Null && registry == old(registry)
              else sync.response == old(sync.response) && registry == old(registry).Remove(sync.id)
    {
      sync.Reject(push.error);
      if sync.IsNamed() {
        sync.response := Null;
      } else {
        registry := registry.Remove(sync.id);
      }
    }

    /** A message arrives on the comms port of handshake `h`
        (lib/client/store/requests.js:87-100). While the comms are closed it is
        the handshake reply: the comms open and the worker's named syncs are
        merged in. Once they are open it is a push. Either way the handshake is
        complete, and its promise resolves unless the push dispatch threw.
        There is no guard against a handshake that already timed out. */
    method OnCommsMessage(h: nat, msg: CommsMessage, deserialise: Value -> Value) returns (r: Result<()>)
      requires Valid() && h < |handshakes|
      modifies this, if commsStatus == Closed then {} else PushTarget(msg.push.id)
      ensures Valid()
      ensures serviceWorker == old(serviceWorker) && outbox == old(outbox) && replies == old(replies)
      ensures handshakes == old(handshakes)[h := Handshake(true,
        if r.Ok? then old(handshakes[h].promise).Resolve(Undefined) else old(handshakes[h].promise))]
      ensures old(commsStatus) == Closed ==>
        r == Ok(()) && commsStatus == Open && Merged(msg.named.GetOr([]))
      ensures old(commsStatus) == Open ==> commsStatus == Open
      ensures old(commsStatus) == Open && msg.push.id !in old(registry.syncs) ==>
        r == Ok(()) && registry == old(registry)
      ensures old(commsStatus) == Open && msg.push.id in old(registry.syncs) ==>
        Dispatched(msg.push, deserialise, old(registry.syncs[msg.push.id]), r)
    {
      handshakes := handshakes[h := handshakes[h].(complete := true)];
      // The source tests the `commsChannel` object it read from the store
      // when openCommsChannel was called (requests.js:74); the model reads the
      // current status.
      if commsStatus == Closed {
        commsStatus := Open;
        AddSyncs(msg.named.GetOr([]));
        r := Ok(());
      } else {
        r := ReceiveFetchResponse(msg.push, deserialise);
      }
      if r.Ok? {
        handshakes := handshakes[h := handshakes[h].(promise := handshakes[h].promise.Resolve(Undefined))];
      }
    }

    /** The handshake timer of handshake `h` fires, HandshakeTimeoutMs after
        the open request (lib/client/store/requests.js:103-108): unless a message has
        arrived, the comms are set closed and the handshake rejects. */
    method OnCommsTimeout(h: nat)
      requires Valid() && h < |handshakes|
      modifies this
      ensures Valid()
      ensures registry == old(registry) && serviceWorker == old(serviceWorker)
      ensures outbox == old(outbox) && replies == old(replies)
      ensures old(handshakes[h].complete) ==> commsStatus == old(commsStatus) && handshakes == old(handshakes)
      ensures !old(handshakes[h].complete) ==>
        && commsStatus == Closed
        && handshakes == old(handshakes)[h := Handshake(false, old(handshakes[h].promise).Reject(HandshakeTimedOut))]
    {
      if !handshakes[h].complete {
        commsStatus := Closed;
        handshakes := handshakes[h := handshakes[h].(promise := handshakes[h].promise.Reject(HandshakeTimedOut))];
      }
    }
  }
}
