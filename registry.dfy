/** The registry of outstanding syncs kept in the client's store: a map from
    sync id to Sync, iterated in key insertion order. The store's reducer is
    not part of this model; its addSync, removeSync and removeAllSyncs actions
    are the plain map updates `Add`, `Remove` and `Empty` below. */
module SyncRegistry {
  import opened JsValues
  import opened Futures

  type SyncId = string

  /** One deferred request. `id` and `name` never change; the promise
      (`future`) settles once and `response` is overwritten in place on every
      push delivery to a named sync. */
  class Sync {
    const id: SyncId
    const name: Option<string>
    var future: Future<Value>
    var response: Value

    constructor (id: SyncId, name: Option<string>)
      ensures this.id == id && this.name == name
      ensures future == Pending && response == Undefined
    {
      this.id := id;
      this.name := name;
      future := Pending;
      response := Undefined;
    }

    /** `if (sync.name)`: a sync is named when its name is a non-empty string. */
    predicate IsNamed() {
      name.Some? && name.value != ""
    }

    /** `sync.resolve(v)`. */
    method Resolve(v: Value)
      modifies this
      ensures future == old(future).Resolve(v)
      ensures response == old(response)
    {
      future := future.Resolve(v);
    }

    /** `sync.reject(e)`. */
    method Reject(e: Value)
      modifies this
      ensures future == old(future).Reject(e)
      ensures response == old(response)
    {
      future := future.Reject(e);
    }
  }

  predicate Distinct(ids: seq<SyncId>) {
    forall i, j :: 0 <= i < j < |ids| ==> ids[i] != ids[j]
  }

  /** `keys.filter(keep)`: the keys that pass the test, in their order. */
  function Filter(keys: seq<SyncId>, keep: SyncId -> bool): (r: seq<SyncId>)
    ensures forall k :: k in r <==> k in keys && keep(k)
    ensures |r| <= |keys|
  {
    if keys == [] then []
    else (if keep(keys[0]) then [keys[0]] else []) + Filter(keys[1..], keep)
  }

  /** A filter of distinct keys lists each kept key once. */
  lemma {:induction false} FilterDistinct(keys: seq<SyncId>, keep: SyncId -> bool)
    ensures Distinct(keys) ==> Distinct(Filter(keys, keep))
  {
    if keys != [] && Distinct(keys) {
      assert Distinct(keys[1..]) && keys[0] !in keys[1..] by {
        forall j | 0 <= j < |keys[1..]| ensures keys[1..][j] != keys[0] {
          assert keys[1..][j] == keys[j + 1];
        }
      }
      FilterDistinct(keys[1..], keep);
    }
  }

  /** A filter that keeps every key is the identity. */
  lemma {:induction false} FilterKeepsAll(keys: seq<SyncId>, keep: SyncId -> bool)
    ensures (forall k :: k in keys ==> keep(k)) ==> Filter(keys, keep) == keys
  {
    if keys != [] && forall k :: k in keys ==> keep(k) {
      FilterKeepsAll(keys[1..], keep);
      assert keys == [keys[0]] + keys[1..];
    }
  }

  /** `ids` with every occurrence of `id` taken out, order kept. */
  function Without(ids: seq<SyncId>, id: SyncId): (r: seq<SyncId>)
    ensures forall k :: k in r <==> k in ids && k != id
    ensures Distinct(ids) ==> Distinct(r)
    ensures id !in ids ==> r == ids
  {
    FilterDistinct(ids, k => k != id);
    FilterKeepsAll(ids, k => k != id);
    Filter(ids, k => k != id)
  }

  /** The registry: `order` lists the keys of `syncs` in insertion order. */
  datatype Registry = Registry(order: seq<SyncId>, syncs: map<SyncId, Sync>) {

    ghost predicate Valid() {
      && Distinct(order)
      && (forall k :: k in syncs <==> k in order)
      && (forall k :: k in syncs ==> syncs[k].id == k)
    }

    static function Empty(): (r: Registry)
      ensures r.Valid() && r.syncs == map[] && r.order == []
    {
      Registry([], map[])
    }

    /** The addSync action: the sync is stored under its id; a new id goes to
        the end of the key order, an existing one keeps its place. */
    function Add(s: Sync): (r: Registry)
      ensures Valid() ==> r.Valid()
      ensures r.syncs.Keys == syncs.Keys + {s.id} && r.syncs[s.id] == s
      ensures forall k :: k in syncs && k != s.id ==> r.syncs[k] == syncs[k]
      ensures |order| <= |r.order| && r.order[..|order|] == order
    {
      Registry(if s.id in syncs then order else order + [s.id], syncs[s.id := s])
    }

    /** The removeSync action: the entry for `id`, if any, is dropped and the
        remaining keys keep their order. */
    function Remove(id: SyncId): (r: Registry)
      ensures Valid() ==> r.Valid()
      ensures r.syncs.Keys == syncs.Keys - {id}
      ensures forall k :: k in r.syncs ==> r.syncs[k] == syncs[k]
      ensures Valid() && id !in syncs ==> r == this
    {
      Registry(Without(order, id), syncs - {id})
    }
  }

  /** Position in `order` of the first sync whose name equals `name`
      (`sync.name === name`), if there is one. */
  function IndexOfName(order: seq<SyncId>, syncs: map<SyncId, Sync>, name: Option<string>): (r: Option<nat>)
    requires forall k :: k in order ==> k in syncs
    ensures r.Some? ==> r.value < |order| && syncs[order[r.value]].name == name
    ensures r.Some? ==> forall j :: 0 <= j < r.value ==> syncs[order[j]].name != name
    ensures r.None? <==> forall j :: 0 <= j < |order| ==> syncs[order[j]].name != name
  {
    if order == [] then None
    else if syncs[order[0]].name == name then Some(0)
    else match IndexOfName(order[1..], syncs, name)
      case None => None
      case Some(i) => Some(i + 1)
  }

  /** The ids of the named syncs, in key order: what "get all named syncs"
      is meant to list. */
  function NamedIds(order: seq<SyncId>, syncs: map<SyncId, Sync>): (r: seq<SyncId>)
    requires forall k :: k in order ==> k in syncs
    ensures forall k :: k in r <==> k in order && syncs[k].IsNamed()
    ensures |r| <= |order|
    ensures Distinct(order) ==> Distinct(r)
  {
    if order == [] then []
    else (if syncs[order[0]].IsNamed() then [order[0]] else []) + NamedIds(order[1..], syncs)
  }

  /** Filtering a concatenation filters each part. */
  lemma {:induction false} FilterAppend(a: seq<SyncId>, b: seq<SyncId>, keep: SyncId -> bool)
    ensures Filter(a + b, keep) == Filter(a, keep) + Filter(b, keep)
  {
    if a != [] {
      assert (a + b)[0] == a[0] && (a + b)[1..] == a[1..] + b;
      FilterAppend(a[1..], b, keep);
    } else {
      assert a + b == b;
    }
  }

  /** A filter that keeps `keys[i]` lists it between the kept keys before
      and after it. */
  lemma FilterAround(keys: seq<SyncId>, i: nat, keep: SyncId -> bool)
    requires i < |keys| && keep(keys[i])
    ensures Filter(keys, keep) == Filter(keys[..i], keep) + ([keys[i]] + Filter(keys[i + 1..], keep))
  {
    SplitAt(keys, i);
    FilterAppend(keys[..i], [keys[i]] + keys[i + 1..], keep);
    FilterCons(keys[i], keys[i + 1..], keep);
  }

  /** `keys` around its element at `i`. */
  lemma SplitAt(keys: seq<SyncId>, i: nat)
    requires i < |keys|
    ensures keys == keys[..i] + ([keys[i]] + keys[i + 1..])
  {
  }

  /** A kept head stays at the head. */
  lemma FilterCons(x: SyncId, rest: seq<SyncId>, keep: SyncId -> bool)
    requires keep(x)
    ensures Filter([x] + rest, keep) == [x] + Filter(rest, keep)
  {
    assert ([x] + rest)[1..] == rest;
  }

  /** A match with no match before it is what IndexOfName finds. */
  lemma IndexOfNameAt(order: seq<SyncId>, syncs: map<SyncId, Sync>, name: Option<string>, p: nat)
    requires forall k :: k in order ==> k in syncs
    requires p < |order| && syncs[order[p]].name == name
    requires forall q :: 0 <= q < p ==> syncs[order[q]].name != name
    ensures IndexOfName(order, syncs, name) == Some(p)
  {
    var found := IndexOfName(order, syncs, name);
    assert found.Some? && !(found.value < p) && !(found.value > p);
  }

  /** No key before position `i` of `order` has a sync named `name`, stated
      by membership. */
  lemma NoMatchBefore(order: seq<SyncId>, syncs: map<SyncId, Sync>, name: Option<string>, i: nat)
    requires i <= |order|
    requires forall k :: k in order ==> k in syncs
    requires forall q :: 0 <= q < i ==> syncs[order[q]].name != name
    ensures forall k :: k in order[..i] ==> k in syncs && syncs[k].name != name
  {
    forall k | k in order[..i]
      ensures k in syncs && syncs[k].name != name
    {
      var j :| 0 <= j < i && order[..i][j] == k;
      assert order[j] == k;
    }
  }

  /** A match after keys none of which matches is the first match. */
  lemma IndexOfNameAfter(pre: seq<SyncId>, x: SyncId, post: seq<SyncId>, syncs: map<SyncId, Sync>, name: Option<string>)
    requires forall k :: k in pre ==> k in syncs && syncs[k].name != name
    requires x in syncs && syncs[x].name == name
    requires forall k :: k in post ==> k in syncs
    ensures IndexOfName(pre + ([x] + post), syncs, name) == Some(|pre|)
  {
    var r := pre + ([x] + post);
    forall q | 0 <= q < |pre|
      ensures syncs[r[q]].name != name
    {
      assert r[q] == pre[q] && pre[q] in pre;
    }
    assert r[|pre|] == x;
    IndexOfNameAt(r, syncs, name, |pre|);
  }

  /** Filtering out keys other than the first match keeps that match first:
      the keys that remain keep their relative order. */
  lemma FilterKeepsFirstMatch(order: seq<SyncId>, syncs: map<SyncId, Sync>, name: Option<string>, keep: SyncId -> bool)
    requires forall k :: k in order ==> k in syncs
    requires IndexOfName(order, syncs, name).Some?
    requires keep(order[IndexOfName(order, syncs, name).value])
    ensures IndexOfName(Filter(order, keep), syncs, name).Some?
    ensures Filter(order, keep)[IndexOfName(Filter(order, keep), syncs, name).value]
      == order[IndexOfName(order, syncs, name).value]
  {
    var i0 := IndexOfName(order, syncs, name).value;
    NoMatchBefore(order, syncs, name, i0);
    FilterAround(order, i0, keep);
    var fp, fq := Filter(order[..i0], keep), Filter(order[i0 + 1..], keep);
    IndexOfNameAfter(fp, order[i0], fq, syncs, name);
    assert (fp + ([order[i0]] + fq))[|fp|] == order[i0];
  }

  /** IndexOfName reads only the entries of the keys it walks. */
  lemma {:induction false} IndexOfNameReadsOrderOnly(order: seq<SyncId>, syncs: map<SyncId, Sync>, other: map<SyncId, Sync>, name: Option<string>)
    requires forall k :: k in order ==> k in syncs && k in other && syncs[k] == other[k]
    ensures IndexOfName(order, syncs, name) == IndexOfName(order, other, name)
  {
    if order != [] {
      IndexOfNameReadsOrderOnly(order[1..], syncs, other, name);
    }
  }

  /** Removing any sync but the first one named `name` leaves that sync the
      first match: `get(name)` finds the same sync before and after. */
  lemma RemoveKeepsFirstMatch(reg: Registry, id: SyncId, name: Option<string>)
    requires reg.Valid()
    requires IndexOfName(reg.order, reg.syncs, name).Some?
    requires reg.order[IndexOfName(reg.order, reg.syncs, name).value] != id
    ensures var r := reg.Remove(id);
      && IndexOfName(r.order, r.syncs, name).Some?
      && r.syncs[r.order[IndexOfName(r.order, r.syncs, name).value]]
         == reg.syncs[reg.order[IndexOfName(reg.order, reg.syncs, name).value]]
  {
    var r := reg.Remove(id);
    FilterKeepsFirstMatch(reg.order, reg.syncs, name, k => k != id);
    IndexOfNameReadsOrderOnly(r.order, reg.syncs, r.syncs, name);
  }
}
