/** `RedisHybridCache<TCacheId>`: the hybrid (local plus Redis) backend, over a
    Foundatio `ICacheClient`. The client is modelled by its contents: a value and
    the relative expiration it was given, by key. */
module RedisHybridCaches {
  import opened Wrappers
  import opened Exceptions
  import opened EntryOptions
  import opened PrimitiveCalls

  /** An entry of the cache client: the value and the `expiresIn` it was set with. */
  datatype HybridEntry<V> = HybridEntry(value: V, expiresIn: Option<Ticks>)

  /** The `expiresIn` that `SetCacheObjectAsync` passes for `options`: only the
      relative expiration, and none when the options are null. */
  ghost function ForwardedExpiration(options: CacheEntryOptions?): Option<Ticks>
    reads options
  {
    if options == null then None else options.absoluteExpirationRelativeToNow
  }

  class RedisHybridCache<V> {
    /** The contents of the wrapped `ICacheClient`. */
    var client: map<string, HybridEntry<V>>

    /** The values the cache holds, by key. */
    ghost function View(): map<string, V>
      reads this
    {
      map k | k in client :: client[k].value
    }

    /** `new RedisHybridCache(cacheClient)` over a client with the given contents. */
    constructor (client: map<string, HybridEntry<V>>)
      ensures this.client == client
    {
      this.client := client;
    }

    /** `GetCacheObjectAsync`: the entry's value when the client has one, null
        otherwise. The token is not passed on. */
    method GetCacheObjectAsync(key: string, token: CancellationToken) returns (r: Option<V>)
      ensures r == Lookup(View(), key)
      ensures r.Some? <==> key in client
      ensures r.Some? ==> r.value == client[key].value
    {
      if key in client {
        r := Some(client[key].value);
      } else {
        r := None;
      }
    }

    /** `GetCacheObject`: the asynchronous form run to completion with the default token. */
    method GetCacheObject(key: string) returns (r: Option<V>)
      ensures r == Lookup(View(), key)
    {
      r := GetCacheObjectAsync(key, NoToken);
    }

    /** `SetCacheObjectAsync`: null options become a fresh `CacheEntryOptions`, and
        the value is set with the relative expiration as `expiresIn`; the absolute
        and sliding expirations are dropped. The token is not passed on. */
    method SetCacheObjectAsync(key: string, value: V, options: CacheEntryOptions?, token: CancellationToken)
      modifies this
      ensures client == old(client)[key := HybridEntry(value, ForwardedExpiration(options))]
      ensures View() == old(View())[key := value]
    {
      var opts := options;
      if opts == null {
        opts := new CacheEntryOptions();
      }
      client := client[key := HybridEntry(value, opts.absoluteExpirationRelativeToNow)];
    }

    /** `SetCacheObject`: the asynchronous form run with the default token. */
    method SetCacheObject(key: string, value: V, options: CacheEntryOptions?)
      modifies this
      ensures client == old(client)[key := HybridEntry(value, ForwardedExpiration(options))]
      ensures View() == old(View())[key := value]
    {
      SetCacheObjectAsync(key, value, options, NoToken);
    }

    /** `RemoveCacheObjectAsync`: the key is removed unchanged. The token is not passed on. */
    method RemoveCacheObjectAsync(key: string, token: CancellationToken)
      modifies this
      ensures client == old(client) - {key}
      ensures View() == old(View()) - {key}
    {
      client := client - {key};
    }

    /** `RemoveCacheObject`: the asynchronous form run with the default token. */
    method RemoveCacheObject(key: string)
      modifies this
      ensures client == old(client) - {key}
      ensures View() == old(View()) - {key}
    {
      RemoveCacheObjectAsync(key, NoToken);
    }
  }
}
