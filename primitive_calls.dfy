/** The protected abstract primitives of the cache base classes, recorded as the
    calls the public operations make. Every backend supplies these primitives; the
    base classes only choose which one to call and with which arguments. */
module PrimitiveCalls {
  import opened Wrappers
  import opened Exceptions
  import opened EntryOptions

  /** One call of a primitive: `GetCacheObject`, `SetCacheObject` and
      `RemoveCacheObject` and their `Async` forms, with their arguments. */
  datatype PrimitiveCall<V> =
    | GetObject(key: string)
    | GetObjectAsync(key: string, token: CancellationToken)
    | SetObject(key: string, value: V, options: CacheEntryOptions?)
    | SetObjectAsync(key: string, value: V, options: CacheEntryOptions?, token: CancellationToken)
    | RemoveObject(key: string)
    | RemoveObjectAsync(key: string, token: CancellationToken)

  /** What a typed read of a store finds: the value under the key, or null. */
  function Lookup<V>(store: map<string, V>, key: string): (r: Option<V>)
    ensures r.Some? <==> key in store
    ensures r.Some? ==> r.value == store[key]
  {
    if key in store then Some(store[key]) else None
  }
}
