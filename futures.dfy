/** The settle-once promise behind every sync and every per-call reply:
    the first `resolve` or `reject` decides it, later ones are no-ops. */
module Futures {
  import opened JsValues

  datatype Future<T> = Pending | Resolved(value: T) | Rejected(reason: Value) {
    predicate Settled() {
      !Pending?
    }

    function Resolve(v: T): Future<T> {
      if Pending? then Resolved(v) else this
    }

    function Reject(e: Value): Future<T> {
      if Pending? then Rejected(e) else this
    }
  }

  /** One call of the promise's `resolve` or `reject` callback. */
  datatype Settle<T> = DoResolve(v: T) | DoReject(e: Value)

  function Apply<T>(f: Future<T>, op: Settle<T>): Future<T> {
    match op
    case DoResolve(v) => f.Resolve(v)
    case DoReject(e) => f.Reject(e)
  }

  /** The future after a whole series of settle calls, in order. */
  function ApplyAll<T>(f: Future<T>, ops: seq<Settle<T>>): Future<T>
    decreases |ops|
  {
    if ops == [] then f else ApplyAll(Apply(f, ops[0]), ops[1..])
  }

  /** A future settles at most once: whatever series of resolve/reject calls
      reaches it, the outcome is the one the first call decided, and a future
      that is already settled never changes. */
  lemma {:induction false} SettleOnce<T>(f: Future<T>, ops: seq<Settle<T>>)
    ensures f.Settled() ==> ApplyAll(f, ops) == f
    ensures !f.Settled() && ops != [] ==> ApplyAll(f, ops) == Apply(f, ops[0])
    ensures ApplyAll(f, ops).Settled() <==> f.Settled() || ops != []
    decreases |ops|
  {
    if ops != [] {
      var g := Apply(f, ops[0]);
      assert g.Settled();
      SettleOnce(g, ops[1..]);
    }
  }
}
