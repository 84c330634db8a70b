/** `DistributedCache<TCacheId>`: the distributed cache base class. It captures the
    key settings at construction, and each public overload builds the key once
    (failing, before any primitive, when the key is too long) and calls exactly one
    primitive with it. The primitives are those of the backend the cache was built
    with: `MessagePackDistributedCache` or `RedisHybridCache`. */
module DistributedCacheDispatch {
  import opened Wrappers
  import opened Exceptions
  import opened Text
  import opened EntryOptions
  import opened CacheIds
  import opened DistributedCacheOptions
  import opened DistributedCacheKeys
  import opened PrimitiveCalls
  import opened MessagePackCaches
  import opened RedisHybridCaches

  /** The subclass that supplies the primitives. */
  datatype Backend<V(!new)> =
    | MessagePack(mp: MessagePackDistributedCache<V>)
    | RedisHybrid(rh: RedisHybridCache<V>)
  {
    ghost function Obj(): object {
      if MessagePack? then mp else rh
    }

    ghost predicate Valid() {
      MessagePack? ==> mp.Valid()
    }

    /** The values the backend holds, by key. */
    ghost function View(): map<string, V>
      reads Obj()
    {
      if MessagePack? then mp.View() else rh.View()
    }
  }

  /** A distributed cache for one cache-id enum type. `calls` records the primitive
      calls made through it. */
  class DistributedCache<V(!new)> {
    const idType: CacheIdType
    /** The settings read from the options accessor at construction. */
    const options: DistributedCacheOptionsBase
    const backend: Backend<V>
    ghost var calls: seq<PrimitiveCall<V>>

    ghost predicate Valid() {
      backend.Valid()
    }

    /** The values the backend holds, by key. */
    ghost function Store(): map<string, V>
      reads backend.Obj()
    {
      backend.View()
    }

    /** `CreateCacheKey(id, key)` with the captured settings. */
    function KeyFor(id: Int32, key: Option<string>): Result<string, Error> {
      CreateCacheKey(options, idType, id, key)
    }

    constructor (idType: CacheIdType, options: DistributedCacheOptionsBase, backend: Backend<V>)
      ensures this.idType == idType && this.options == options && this.backend == backend
      ensures calls == []
    {
      this.idType := idType;
      this.options := options;
      this.backend := backend;
      calls := [];
    }

    /** The base constructor: a null options accessor throws `ArgumentNullException`;
        otherwise the four key settings are copied from its value. */
    static method Create(idType: CacheIdType, optionsAccessor: Option<DistributedCacheOptionsBase>, backend: Backend<V>)
      returns (r: Result<DistributedCache<V>, Error>)
      ensures optionsAccessor.None? ==> r == Failure(ArgumentNullException("optionsAccessor"))
      ensures optionsAccessor.Some? ==>
        && r.Success? && fresh(r.value)
        && r.value.idType == idType && r.value.backend == backend
        && r.value.options == optionsAccessor.value
        && r.value.calls == []
    {
      if optionsAccessor.None? {
        return Failure(ArgumentNullException("optionsAccessor"));
      }
      var c := new DistributedCache(idType, optionsAccessor.value, backend);
      r := Success(c);
    }

    // -------------------------------------------------------------------------
    // The primitives, as the backend implements them

    method GetCacheObject(key: string) returns (r: Option<V>)
      modifies this
      ensures r == Lookup(Store(), key)
      ensures calls == old(calls) + [GetObject(key)]
    {
      match backend {
        case MessagePack(mp) => r := mp.GetCacheObject(key);
        case RedisHybrid(rh) => r := rh.GetCacheObject(key);
      }
      calls := calls + [GetObject(key)];
    }

    method GetCacheObjectAsync(key: string, token: CancellationToken) returns (r: Option<V>)
      modifies this
      ensures r == Lookup(Store(), key)
      ensures calls == old(calls) + [GetObjectAsync(key, token)]
    {
      match backend {
        case MessagePack(mp) => r := mp.GetCacheObjectAsync(key, token);
        case RedisHybrid(rh) => r := rh.GetCacheObjectAsync(key, token);
      }
      calls := calls + [GetObjectAsync(key, token)];
    }

    method SetCacheObject(key: string, value: V, options: CacheEntryOptions?)
      requires Valid()
      modifies this, backend.Obj()
      ensures Store() == old(Store())[key := value]
      ensures calls == old(calls) + [SetObject(key, value, options)]
    {
      match backend {
        case MessagePack(mp) => mp.SetCacheObject(key, value, options);
        case RedisHybrid(rh) => rh.SetCacheObject(key, value, options);
      }
      calls := calls + [SetObject(key, value, options)];
    }

    method SetCacheObjectAsync(key: string, value: V, options: CacheEntryOptions?, token: CancellationToken)
      requires Valid()
      modifies this, backend.Obj()
      ensures Store() == old(Store())[key := value]
      ensures calls == old(calls) + [SetObjectAsync(key, value, options, token)]
    {
      match backend {
        case MessagePack(mp) => mp.SetCacheObjectAsync(key, value, options, token);
        case RedisHybrid(rh) => rh.SetCacheObjectAsync(key, value, options, token);
      }
      calls := calls + [SetObjectAsync(key, value, options, token)];
    }

    method RemoveCacheObject(key: string)
      modifies this, backend.Obj()
      ensures Store() == old(Store()) - {key}
      ensures calls == old(calls) + [RemoveObject(key)]
    {
      match backend {
        case MessagePack(mp) => mp.RemoveCacheObject(key);
        case RedisHybrid(rh) => rh.RemoveCacheObject(key);
      }
      calls := calls + [RemoveObject(key)];
    }

    method RemoveCacheObjectAsync(key: string, token: CancellationToken)
      modifies this, backend.Obj()
      ensures Store() == old(Store()) - {key}
      ensures calls == old(calls) + [RemoveObjectAsync(key, token)]
    {
      match backend {
        case MessagePack(mp) => mp.RemoveCacheObjectAsync(key, token);
        case RedisHybrid(rh) => rh.RemoveCacheObjectAsync(key, token);
      }
      calls := calls + [RemoveObjectAsync(key, token)];
    }

    // -------------------------------------------------------------------------
    // The public overloads

    /** `Get(id)`: a read under the key of the id alone (`CreateCacheKey(id)`). */
    method Get(id: Int32) returns (r: Result<Option<V>, Error>)
      modifies this
      ensures Store() == old(Store())
      ensures KeyFor(id, None).Failure? ==> r == Failure(KeyFor(id, None).error) && calls == old(calls)
      ensures KeyFor(id, None).Success? ==>
        && r == Success(Lookup(Store(), KeyFor(id, None).value))
        && calls == old(calls) + [GetObject(KeyFor(id, None).value)]
    {
      var cacheKey :- KeyFor(id, None);
      var value := GetCacheObject(cacheKey);
      r := Success(value);
    }

    /** `Get(id, key)`: a read under the key built with the sub-key. */
    method GetWithSubKey(id: Int32, key: Option<string>) returns (r: Result<Option<V>, Error>)
      modifies this
      ensures Store() == old(Store())
      ensures KeyFor(id, key).Failure? ==> r == Failure(KeyFor(id, key).error) && calls == old(calls)
      ensures KeyFor(id, key).Success? ==>
        && r == Success(Lookup(Store(), KeyFor(id, key).value))
        && calls == old(calls) + [GetObject(KeyFor(id, key).value)]
    {
      var cacheKey :- KeyFor(id, key);
      var value := GetCacheObject(cacheKey);
      r := Success(value);
    }

    /** `GetAsync(id, token)`. */
    method GetAsync(id: Int32, token: CancellationToken) returns (r: Result<Option<V>, Error>)
      modifies this
      ensures Store() == old(Store())
      ensures KeyFor(id, None).Failure? ==> r == Failure(KeyFor(id, None).error) && calls == old(calls)
      ensures KeyFor(id, None).Success? ==>
        && r == Success(Lookup(Store(), KeyFor(id, None).value))
        && calls == old(calls) + [GetObjectAsync(KeyFor(id, None).value, token)]
    {
      var cacheKey :- KeyFor(id, None);
      var value := GetCacheObjectAsync(cacheKey, token);
      r := Success(value);
    }

    /** `GetAsync(id, key, token)`. */
    method GetWithSubKeyAsync(id: Int32, key: Option<string>, token: CancellationToken) returns (r: Result<Option<V>, Error>)
      modifies this
      ensures Store() == old(Store())
      ensures KeyFor(id, key).Failure? ==> r == Failure(KeyFor(id, key).error) && calls == old(calls)
      ensures KeyFor(id, key).Success? ==>
        && r == Success(Lookup(Store(), KeyFor(id, key).value))
        && calls == old(calls) + [GetObjectAsync(KeyFor(id, key).value, token)]
    {
      var cacheKey :- KeyFor(id, key);
      var value := GetCacheObjectAsync(cacheKey, token);
      r := Success(value);
    }

    /** `Set(id, value)`: a store with a fresh, empty `CacheEntryOptions`. */
    method Set(id: Int32, value: V) returns (r: Outcome<Error>)
      requires Valid()
      modifies this, backend.Obj()
      ensures Valid()
      ensures KeyFor(id, None).Failure? ==>
        r == Fail(KeyFor(id, None).error) && calls == old(calls) && unchanged(backend.Obj())
      ensures KeyFor(id, None).Success? ==>
        && r.Pass?
        && Store() == old(Store())[KeyFor(id, None).value := value]
        && |calls| == |old(calls)| + 1 && calls[..|old(calls)|] == old(calls)
        && calls[|old(calls)|].SetObject? && calls[|old(calls)|].key == KeyFor(id, None).value
        && calls[|old(calls)|].value == value
        && calls[|old(calls)|].options != null && fresh(calls[|old(calls)|].options)
        && calls[|old(calls)|].options.IsEmpty()
    {
      var built := KeyFor(id, None);
      if built.Failure? {
        return Fail(built.error);
      }
      var cacheKey := built.value;
      var entryOptions := new CacheEntryOptions();
      SetCacheObject(cacheKey, value, entryOptions);
      r := Pass;
    }

    /** `Set(id, key, value)`: a store with a fresh, empty `CacheEntryOptions`. */
    method SetWithSubKey(id: Int32, key: Option<string>, value: V) returns (r: Outcome<Error>)
      requires Valid()
      modifies this, backend.Obj()
      ensures Valid()
      ensures KeyFor(id, key).Failure? ==>
        r == Fail(KeyFor(id, key).error) && calls == old(calls) && unchanged(backend.Obj())
      ensures KeyFor(id, key).Success? ==>
        && r.Pass?
        && Store() == old(Store())[KeyFor(id, key).value := value]
        && |calls| == |old(calls)| + 1 && calls[..|old(calls)|] == old(calls)
        && calls[|old(calls)|].SetObject? && calls[|old(calls)|].key == KeyFor(id, key).value
        && calls[|old(calls)|].value == value
        && calls[|old(calls)|].options != null && fresh(calls[|old(calls)|].options)
        && calls[|old(calls)|].options.IsEmpty()
    {
      var built := KeyFor(id, key);
      if built.Failure? {
        return Fail(built.error);
      }
      var cacheKey := built.value;
      var entryOptions := new CacheEntryOptions();
      SetCacheObject(cacheKey, value, entryOptions);
      r := Pass;
    }

    /** `SetAsync(id, value, token)`: a store with a fresh, empty `CacheEntryOptions`. */
    method SetAsync(id: Int32, value: V, token: CancellationToken) returns (r: Outcome<Error>)
      requires Valid()
      modifies this, backend.Obj()
      ensures Valid()
      ensures KeyFor(id, None).Failure? ==>
        r == Fail(KeyFor(id, None).error) && calls == old(calls) && unchanged(backend.Obj())
      ensures KeyFor(id, None).Success? ==>
        && r.Pass?
        && Store() == old(Store())[KeyFor(id, None).value := value]
        && |calls| == |old(calls)| + 1 && calls[..|old(calls)|] == old(calls)
        && calls[|old(calls)|].SetObjectAsync? && calls[|old(calls)|].key == KeyFor(id, None).value
        && calls[|old(calls)|].value == value && calls[|old(calls)|].token == token
        && calls[|old(calls)|].options != null && fresh(calls[|old(calls)|].options)
        && calls[|old(calls)|].options.IsEmpty()
    {
      var built := KeyFor(id, None);
      if built.Failure? {
        return Fail(built.error);
      }
      var cacheKey := built.value;
      var entryOptions := new CacheEntryOptions();
      SetCacheObjectAsync(cacheKey, value, entryOptions, token);
      r := Pass;
    }

    /** `SetAsync(id, key, value, token)`: a store with a fresh, empty `CacheEntryOptions`. */
    method SetWithSubKeyAsync(id: Int32, key: Option<string>, value: V, token: CancellationToken) returns (r: Outcome<Error>)
      requires Valid()
      modifies this, backend.Obj()
      ensures Valid()
      ensures KeyFor(id, key).Failure? ==>
        r == Fail(KeyFor(id, key).error) && calls == old(calls) && unchanged(backend.Obj())
      ensures KeyFor(id, key).Success? ==>
        && r.Pass?
        && Store() == old(Store())[KeyFor(id, key).value := value]
        && |calls| == |old(calls)| + 1 && calls[..|old(calls)|] == old(calls)
        && calls[|old(calls)|].SetObjectAsync? && calls[|old(calls)|].key == KeyFor(id, key).value
        && calls[|old(calls)|].value == value && calls[|old(calls)|].token == token
        && calls[|old(calls)|].options != null && fresh(calls[|old(calls)|].options)
        && calls[|old(calls)|].options.IsEmpty()
    {
      var built := KeyFor(id, key);
      if built.Failure? {
        return Fail(built.error);
      }
      var cacheKey := built.value;
      var entryOptions := new CacheEntryOptions();
      SetCacheObjectAsync(cacheKey, value, entryOptions, token);
      r := Pass;
    }

    /** `SetWithOptions(id, value, options)`: the caller's options, possibly null, are passed on as they are. */
    method SetWithOptions(id: Int32, value: V, options: CacheEntryOptions?) returns (r: Outcome<Error>)
      requires Valid()
      modifies this, backend.Obj()
      ensures Valid()
      ensures KeyFor(id, None).Failure? ==>
        r == Fail(KeyFor(id, None).error) && calls == old(calls) && unchanged(backend.Obj())
      ensures KeyFor(id, None).Success? ==>
        && r.Pass?
        && Store() == old(Store())[KeyFor(id, None).value := value]
        && calls == old(calls) + [SetObject(KeyFor(id, None).value, value, options)]
    {
      var built := KeyFor(id, None);
      if built.Failure? {
        return Fail(built.error);
      }
      var cacheKey := built.value;
      SetCacheObject(cacheKey, value, options);
      r := Pass;
    }

    /** `SetWithOptions(id, key, value, options)`. */
    method SetWithOptionsAndSubKey(id: Int32, key: Option<string>, value: V, options: CacheEntryOptions?) returns (r: Outcome<Error>)
      requires Valid()
      modifies this, backend.Obj()
      ensures Valid()
      ensures KeyFor(id, key).Failure? ==>
        r == Fail(KeyFor(id, key).error) && calls == old(calls) && unchanged(backend.Obj())
      ensures KeyFor(id, key).Success? ==>
        && r.Pass?
        && Store() == old(Store())[KeyFor(id, key).value := value]
        && calls == old(calls) + [SetObject(KeyFor(id, key).value, value, options)]
    {
      var built := KeyFor(id, key);
      if built.Failure? {
        return Fail(built.error);
      }
      var cacheKey := built.value;
      SetCacheObject(cacheKey, value, options);
      r := Pass;
    }

    /** `SetWithOptionsAsync(id, value, options, token)`. */
    method SetWithOptionsAsync(id: Int32, value: V, options: CacheEntryOptions?, token: CancellationToken) returns (r: Outcome<Error>)
      requires Valid()
      modifies this, backend.Obj()
      ensures Valid()
      ensures KeyFor(id, None).Failure? ==>
        r == Fail(KeyFor(id, None).error) && calls == old(calls) && unchanged(backend.Obj())
      ensures KeyFor(id, None).Success? ==>
        && r.Pass?
        && Store() == old(Store())[KeyFor(id, None).value := value]
        && calls == old(calls) + [SetObjectAsync(KeyFor(id, None).value, value, options, token)]
    {
      var built := KeyFor(id, None);
      if built.Failure? {
        return Fail(built.error);
      }
      var cacheKey := built.value;
      SetCacheObjectAsync(cacheKey, value, options, token);
      r := Pass;
    }

    /** `SetWithOptionsAsync(id, key, value, options, token)`. */
    method SetWithOptionsAndSubKeyAsync(id: Int32, key: Option<string>, value: V, options: CacheEntryOptions?, token: CancellationToken) returns (r: Outcome<Error>)
      requires Valid()
      modifies this, backend.Obj()
      ensures Valid()
      ensures KeyFor(id, key).Failure? ==>
        r == Fail(KeyFor(id, key).error) && calls == old(calls) && unchanged(backend.Obj())
      ensures KeyFor(id, key).Success? ==>
        && r.Pass?
        && Store() == old(Store())[KeyFor(id, key).value := value]
        && calls == old(calls) + [SetObjectAsync(KeyFor(id, key).value, value, options, token)]
    {
      var built := KeyFor(id, key);
      if built.Failure? {
        return Fail(built.error);
      }
      var cacheKey := built.value;
      SetCacheObjectAsync(cacheKey, value, options, token);
      r := Pass;
    }

    /** `Remove(id)`: a removal under the key of the id alone. */
    method Remove(id: Int32) returns (r: Outcome<Error>)
      modifies this, backend.Obj()
      ensures KeyFor(id, None).Failure? ==>
        r == Fail(KeyFor(id, None).error) && calls == old(calls) && unchanged(backend.Obj())
      ensures KeyFor(id, None).Success? ==>
        && r.Pass?
        && Store() == old(Store()) - {KeyFor(id, None).value}
        && calls == old(calls) + [RemoveObject(KeyFor(id, None).value)]
    {
      var built := KeyFor(id, None);
      if built.Failure? {
        return Fail(built.error);
      }
      var cacheKey := built.value;
      RemoveCacheObject(cacheKey);
      r := Pass;
    }

    /** `Remove(id, key)`. */
    method RemoveWithSubKey(id: Int32, key: Option<string>) returns (r: Outcome<Error>)
      modifies this, backend.Obj()
      ensures KeyFor(id, key).Failure? ==>
        r == Fail(KeyFor(id, key).error) && calls == old(calls) && unchanged(backend.Obj())
      ensures KeyFor(id, key).Success? ==>
        && r.Pass?
        && Store() == old(Store()) - {KeyFor(id, key).value}
        && calls == old(calls) + [RemoveObject(KeyFor(id, key).value)]
    {
      var built := KeyFor(id, key);
      if built.Failure? {
        return Fail(built.error);
      }
      var cacheKey := built.value;
      RemoveCacheObject(cacheKey);
      r := Pass;
    }

    /** `RemoveAsync(id, token)`. */
    method RemoveAsync(id: Int32, token: CancellationToken) returns (r: Outcome<Error>)
      modifies this, backend.Obj()
      ensures KeyFor(id, None).Failure? ==>
        r == Fail(KeyFor(id, None).error) && calls == old(calls) && unchanged(backend.Obj())
      ensures KeyFor(id, None).Success? ==>
        && r.Pass?
        && Store() == old(Store()) - {KeyFor(id, None).value}
        && calls == old(calls) + [RemoveObjectAsync(KeyFor(id, None).value, token)]
    {
      var built := KeyFor(id, None);
      if built.Failure? {
        return Fail(built.error);
      }
      var cacheKey := built.value;
      RemoveCacheObjectAsync(cacheKey, token);
      r := Pass;
    }

    /** `RemoveAsync(id, key, token)`. */
    method RemoveWithSubKeyAsync(id: Int32, key: Option<string>, token: CancellationToken) returns (r: Outcome<Error>)
      modifies this, backend.Obj()
      ensures KeyFor(id, key).Failure? ==>
        r == Fail(KeyFor(id, key).error) && calls == old(calls) && unchanged(backend.Obj())
      ensures KeyFor(id, key).Success? ==>
        && r.Pass?
        && Store() == old(Store()) - {KeyFor(id, key).value}
        && calls == old(calls) + [RemoveObjectAsync(KeyFor(id, key).value, token)]
    {
      var built := KeyFor(id, key);
      if built.Failure? {
        return Fail(built.error);
      }
      var cacheKey := built.value;
      RemoveCacheObjectAsync(cacheKey, token);
      r := Pass;
    }
  }

  /** A value stored under an accepted key is read back as itself, with either
      backend, and reads as null once removed; a refused key fails every step with
      the same error. */
  method SetGetRemoveGet<V(!new)>(c: DistributedCache<V>, id: Int32, key: Option<string>, value: V)
    returns (stored: Outcome<Error>, afterSet: Result<Option<V>, Error>,
             removed: Outcome<Error>, afterRemove: Result<Option<V>, Error>)
    requires c.Valid()
    modifies c, c.backend.Obj()
    ensures c.KeyFor(id, key).Success? ==>
      stored.Pass? && afterSet == Success(Some(value)) && removed.Pass? && afterRemove == Success(None)
    ensures c.KeyFor(id, key).Failure? ==>
      var e := c.KeyFor(id, key).error;
      stored == Fail(e) && afterSet == Failure(e) && removed == Fail(e) && afterRemove == Failure(e)
  {
    stored := c.SetWithSubKey(id, key, value);
    afterSet := c.GetWithSubKey(id, key);
    removed := c.RemoveWithSubKey(id, key);
    afterRemove := c.GetWithSubKey(id, key);
  }
}
