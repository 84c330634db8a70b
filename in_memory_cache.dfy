/** `InMemoryCache<TCacheId>`: the memory backend, over a wrapped
    `Microsoft.Extensions.Caching.Memory.IMemoryCache` that keeps the objects
    themselves (no serialization). */
module InMemoryCaches {
  import opened Wrappers
  import opened EntryOptions
  import opened PrimitiveCalls

  /** `MemoryCacheEntryOptions`: the expiration settings of a wrapped-cache entry. */
  datatype MemoryCacheEntryOptions = MemoryCacheEntryOptions(
    AbsoluteExpiration: Option<Ticks>,
    AbsoluteExpirationRelativeToNow: Option<Ticks>,
    SlidingExpiration: Option<Ticks>)

  /** `new MemoryCacheEntryOptions()`: no expiration. */
  const DefaultMemoryCacheEntryOptions := MemoryCacheEntryOptions(None, None, None)

  /** An entry of the wrapped cache: the object and the options it was stored with. */
  datatype MemoryEntry<V> = MemoryEntry(value: V, options: MemoryCacheEntryOptions)

  /** The entry options `SetCacheObject` hands to the wrapped cache for `options`. */
  ghost function TranslatedOptions(options: CacheEntryOptions?): MemoryCacheEntryOptions
    reads options
  {
    if options == null then DefaultMemoryCacheEntryOptions
    else MemoryCacheEntryOptions(options.absoluteExpiration, options.absoluteExpirationRelativeToNow, options.slidingExpiration)
  }

  class InMemoryCache<V> {
    /** The contents of the wrapped `IMemoryCache`. */
    var cache: map<string, MemoryEntry<V>>

    /** The objects the cache holds, by key. */
    ghost function View(): map<string, V>
      reads this
    {
      map k | k in cache :: cache[k].value
    }

    /** `new InMemoryCache(cache)` over a wrapped cache with the given contents. */
    constructor (cache: map<string, MemoryEntry<V>>)
      ensures this.cache == cache
    {
      this.cache := cache;
    }

    /** `GetCacheObject`: the stored object itself, or the default (null) when the
        key is absent. */
    method GetCacheObject(key: string) returns (r: Option<V>)
      ensures r == Lookup(View(), key)
      ensures r.Some? <==> key in cache
      ensures r.Some? ==> r.value == cache[key].value
    {
      if key in cache {
        r := Some(cache[key].value);
      } else {
        r := None;
      }
    }

    /** `SetCacheObject`: builds the wrapped cache's entry options (defaults when
        `options` is null, otherwise a copy of its three expiration fields) and
        stores the object under `key`, replacing any entry there. */
    method SetCacheObject(key: string, value: V, options: CacheEntryOptions?)
      modifies this
      ensures cache == old(cache)[key := MemoryEntry(value, TranslatedOptions(options))]
      ensures View() == old(View())[key := value]
    {
      var opt := DefaultMemoryCacheEntryOptions;
      if options != null {
        opt := opt.(AbsoluteExpiration := options.absoluteExpiration);
        opt := opt.(AbsoluteExpirationRelativeToNow := options.absoluteExpirationRelativeToNow);
        opt := opt.(SlidingExpiration := options.slidingExpiration);
      }
      cache := cache[key := MemoryEntry(value, opt)];
    }

    /** `RemoveCacheObject`: drops the entry under `key`, if any. */
    method RemoveCacheObject(key: string)
      modifies this
      ensures cache == old(cache) - {key}
      ensures View() == old(View()) - {key}
    {
      cache := cache - {key};
    }
  }
}
