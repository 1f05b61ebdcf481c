/**
 * The blackboard: a key/value store the agents share. The asyncio lock that guards
 * every operation is not modelled; the model runs one operation at a time.
 */
module SharedState {

  /** A Python value other than a dict, with its type name and its `str()` rendering. */
  datatype Scalar = Str(s: string) | Obj(typeName: string, shown: string)

  /** A value stored under a blackboard key: a dict of scalars, or a scalar. */
  datatype Value = Dict(entries: map<string, Scalar>) | Atom(a: Scalar)

  type Store = map<string, Value>

  /** The empty dict `{}`, the default the agents read with. */
  const EmptyDict: Value := Dict(map[])

  /** `store.get(key, default)`. */
  function Get(store: Store, key: string, default: Value): Value {
    if key in store then store[key] else default
  }

  /**
   * The dict `update_dict(key, values)` leaves at `key`: the dict already there
   * (or a fresh `{}` when the key is absent or holds a non-dict), updated with `values`.
   */
  function Merged(store: Store, key: string, values: map<string, Scalar>): map<string, Scalar> {
    var cur := Get(store, key, EmptyDict);
    (if cur.Dict? then cur.entries else map[]) + values
  }

  /** The store after `update_dict(key, values)`. */
  function AfterUpdate(store: Store, key: string, values: map<string, Scalar>): Store {
    store[key := Dict(Merged(store, key, values))]
  }

  /** `str(type(v).__name__)` for a value an agent reads. */
  function TypeName(v: Value): string {
    match v
    case Dict(_) => "dict"
    case Atom(Str(_)) => "str"
    case Atom(Obj(t, _)) => t
  }

  /** `str(x)` for a scalar embedded in an f-string. */
  function Show(x: Scalar): string {
    match x
    case Str(s) => s
    case Obj(_, shown) => shown
  }

  /**
   * Shallow-merge semantics: on a dict, the old entries survive unless `values`
   * overrides them, every entry of `values` is present, and nothing else appears;
   * on a missing key or a non-dict, the result is exactly `values`.
   */
  lemma MergedEntries(store: Store, key: string, values: map<string, Scalar>)
    ensures key in store && store[key].Dict? ==>
      Merged(store, key, values).Keys == store[key].entries.Keys + values.Keys
      && (forall f :: f in store[key].entries && f !in values ==>
            Merged(store, key, values)[f] == store[key].entries[f])
    ensures forall f :: f in values ==> f in Merged(store, key, values) && Merged(store, key, values)[f] == values[f]
    ensures !(key in store && store[key].Dict?) ==> Merged(store, key, values) == values
  {
  }

  /** `update_dict` touches only its own key. */
  lemma UpdateDictFrame(store: Store, key: string, values: map<string, Scalar>, other: string)
    requires other != key
    ensures Get(AfterUpdate(store, key, values), other, EmptyDict) == Get(store, other, EmptyDict)
    ensures other in AfterUpdate(store, key, values) <==> other in store
  {
  }

  /** Two `update_dict` calls on different keys commute. */
  lemma UpdateDictCommute(store: Store, k1: string, v1: map<string, Scalar>, k2: string, v2: map<string, Scalar>)
    requires k1 != k2
    ensures AfterUpdate(AfterUpdate(store, k1, v1), k2, v2) == AfterUpdate(AfterUpdate(store, k2, v2), k1, v1)
  {
    assert Merged(AfterUpdate(store, k1, v1), k2, v2) == Merged(store, k2, v2);
    assert Merged(AfterUpdate(store, k2, v2), k1, v1) == Merged(store, k1, v1);
  }

  /** The blackboard object; `store` is its `_store` dict. */
  class Blackboard {
    var store: Store

    constructor ()
      ensures store == map[]
    {
      store := map[];
    }

    /** `read(key, default)`: the stored value, or `default` for a missing key. */
    method Read(key: string, default: Value) returns (v: Value)
      ensures key in store ==> v == store[key]
      ensures key !in store ==> v == default
    {
      v := if key in store then store[key] else default;
    }

    /** `write(key, value)`. */
    method Write(key: string, value: Value)
      modifies this
      ensures store == old(store)[key := value]
      ensures forall k :: k != key ==> Get(store, k, EmptyDict) == Get(old(store), k, EmptyDict)
    {
      store := store[key := value];
    }

    /** `update_dict(key, values)`: shallow-merge `values` into the dict at `key`. */
    method UpdateDict(key: string, values: map<string, Scalar>)
      modifies this
      ensures store == AfterUpdate(old(store), key, values)
      ensures key in store && store[key] == Dict(Merged(old(store), key, values))
      ensures forall k :: k != key ==> (k in store <==> k in old(store))
      ensures forall k :: k != key && k in store ==> store[k] == old(store)[k]
    {
      var cur := if key in store then store[key] else EmptyDict;
      var entries := if cur.Dict? then cur.entries else map[];
      entries := entries + values;
      store := store[key := Dict(entries)];
    }

    /** `dump()`: a copy of the whole store. */
    method Dump() returns (m: Store)
      ensures m == store
    {
      m := store;
    }

    /** `clear()`: afterwards every read yields its default. */
    method Clear()
      modifies this
      ensures store == map[]
      ensures forall k, d :: Get(store, k, d) == d
    {
      store := map[];
    }
  }
}
