/**
 * InMemoryStorage: the fallback key-value store, a JavaScript `Map` from
 * string keys to values. A `Map` lists its keys in insertion order; the
 * model keeps that order beside the contents.
 */
module MemoryStore {
  import opened Wrappers
  import opened JsValues
  import opened Keys

  /**
   * `store.get(key) || null`: the stored value when it is truthy, and null
   * both for a missing key and for a stored falsy value (0, '', false, null).
   */
  function Lookup(store: map<string, Value>, key: string): (v: Value)
    ensures v == Null || Truthy(v)
    ensures v != Null ==> key in store && store[key] == v
    ensures key in store && Truthy(store[key]) ==> v == store[key]
  {
    if key in store then Or(store[key], Null) else Null
  }

  /** After `put(k, v)`, `get(k)` is `v` if `v` is truthy and null otherwise; every other key reads as before. */
  lemma LookupAfterPut(store: map<string, Value>, k: string, v: Value, other: string)
    ensures Lookup(store[k := v], k) == (if Truthy(v) then v else Null)
    ensures other != k ==> Lookup(store[k := v], other) == Lookup(store, other)
  {
  }

  /** After `delete(k)`, `get(k)` is null; every other key reads as before. */
  lemma LookupAfterDelete(store: map<string, Value>, k: string, other: string)
    ensures Lookup(store - {k}, k) == Null
    ensures other != k ==> Lookup(store - {k}, other) == Lookup(store, other)
  {
  }

  class InMemoryStorage {
    /** The contents of the `Map`. */
    var store: map<string, Value>
    /** The `Map`'s keys in insertion order, as `store.keys()` yields them. */
    var order: seq<string>

    ghost predicate Valid()
      reads this
    {
      Distinct(order) && forall k :: k in order <==> k in store
    }

    constructor()
      ensures Valid() && store == map[] && order == []
    {
      store := map[];
      order := [];
    }

    /** `init()` is a no-op for the in-memory store. */
    method Init()
      requires Valid()
      ensures Valid() && store == old(store) && order == old(order)
    {
    }

    /** `get(key)` */
    function Get(key: string): (v: Value)
      reads this
      ensures v == Null || (key in store && store[key] == v && Truthy(v))
      ensures key in store && Truthy(store[key]) ==> v == store[key]
    {
      Lookup(store, key)
    }

    /** `put(key, value)`: `Map.set` overwrites in place, so a key keeps its position; a new key goes last. */
    method Put(key: string, value: Value)
      requires Valid()
      modifies this
      ensures Valid()
      ensures store == old(store)[key := value]
      ensures order == if key in old(store) then old(order) else old(order) + [key]
    {
      if key !in store {
        order := order + [key];
      }
      store := store[key := value];
    }

    /** `delete(key)`: removes the key and leaves the order of the others alone. */
    method Delete(key: string)
      requires Valid()
      modifies this
      ensures Valid()
      ensures store == old(store) - {key}
      ensures order == Without(old(order), key)
    {
      store := store - {key};
      order := Without(order, key);
    }

    /** `list(prefix?)`: the stored keys starting with `prefix`, or all of them without a (non-empty) prefix. */
    function List(prefix: Option<string>): (r: seq<string>)
      reads this
      requires Valid()
      ensures forall k :: k in r <==> k in store && (prefix.Some? ==> StartsWith(k, prefix.value))
      ensures Distinct(r)
    {
      ListKeys(order, prefix)
    }
  }
}
