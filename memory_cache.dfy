/** `MemoryCache<TCacheId>`: the memory cache base class. Its key builder has no
    override lookup, encoding, version, prefix or length limit, and its public
    overloads build the key and call one primitive. The primitives are those of
    its one backend, `InMemoryCache`. */
module MemoryCacheDispatch {
  import opened Wrappers
  import opened Text
  import opened EntryOptions
  import opened CacheIds
  import opened DistributedCacheOptions
  import DistributedCacheKeys
  import opened PrimitiveCalls
  import opened InMemoryCaches

  /** `CreateCacheKey(container, key)`: `TypeName ":" container.ToString()`, with
      `"_" key` after the member when the sub-key is not null or white space. It
      has no failure case, whatever the length. */
  function CreateCacheKey(t: CacheIdType, container: Int32, key: Option<string>): (r: string)
    ensures |t.name| < |r| && r[..|t.name| + 1] == t.name + ":"
    ensures |r| == |t.name| + 1 + |EnumToString(t, container)| + (if IsNullOrWhiteSpace(key) then 0 else 1 + |key.value|)
    ensures !IsNullOrWhiteSpace(key) ==> r[|r| - |key.value| - 1..] == "_" + key.value
  {
    var containerName := EnumToString(t, container);
    var containerName := if !IsNullOrWhiteSpace(key) then containerName + "_" + key.value else containerName;
    t.name + ":" + containerName
  }

  /** The key starts with the type name and the member name, never an override key,
      and ends with the raw sub-key when that is not blank. */
  lemma MemoryKeyLayout(t: CacheIdType, container: Int32, key: Option<string>)
    ensures var k := CreateCacheKey(t, container, key);
      var head := t.name + ":" + EnumToString(t, container);
      && |head| <= |k| && k[..|head|] == head
      && (!IsNullOrWhiteSpace(key) ==> k == head + "_" + key.value)
      && (IsNullOrWhiteSpace(key) ==> k == head)
  {
    var k := CreateCacheKey(t, container, key);
    var head := t.name + ":" + EnumToString(t, container);
    if !IsNullOrWhiteSpace(key) {
      assert k == head + ("_" + key.value);
    }
  }

  /** A null, empty or white-space sub-key gives the key of the id alone. */
  lemma MemoryBlankSubKeyIgnored(t: CacheIdType, container: Int32, key: Option<string>)
    requires IsNullOrWhiteSpace(key)
    ensures CreateCacheKey(t, container, key) == CreateCacheKey(t, container, None)
  {
  }

  /** Two different non-blank sub-keys of one id give different keys, and a
      non-blank sub-key never gives the key of the id alone. */
  lemma MemorySubKeysDoNotCollide(t: CacheIdType, container: Int32, key1: string, key2: string)
    requires !IsNullOrWhiteSpace(Some(key1)) && !IsNullOrWhiteSpace(Some(key2))
    ensures key1 != key2 ==> CreateCacheKey(t, container, Some(key1)) != CreateCacheKey(t, container, Some(key2))
    ensures CreateCacheKey(t, container, Some(key1)) != CreateCacheKey(t, container, None)
  {
    var head := t.name + ":" + EnumToString(t, container) + "_";
    MemoryKeyLayout(t, container, Some(key1));
    MemoryKeyLayout(t, container, Some(key2));
    MemoryKeyLayout(t, container, None);
    assert CreateCacheKey(t, container, Some(key1)) == head + key1;
    assert CreateCacheKey(t, container, Some(key2)) == head + key2;
    if key1 != key2 && head + key1 == head + key2 {
      CancelAround(head, key1, key2, []);
    }
    assert |key1| > 0;
  }

  /** For an id without a `CacheKeyAttribute`, with key encoding off, no version and
      no prefix, the memory key is the distributed key. */
  lemma MemoryKeyMatchesDistributed(options: DistributedCacheOptionsBase, t: CacheIdType, id: Int32, key: Option<string>)
    requires id !in t.members || t.members[id].cacheKey.None?
    requires !options.EnableKeyEncoding && options.Version.None? && IsNullOrWhiteSpace(options.EnvironmentPrefix)
    ensures CreateCacheKey(t, id, key) == DistributedCacheKeys.FullKey(options, t, id, key)
  {
    DistributedCacheKeys.KeyLayout(options, t, id, key);
    DistributedCacheKeys.BaseSegmentChoice(t, id);
    MemoryKeyLayout(t, id, key);
    if !IsNullOrWhiteSpace(key) {
      assert DistributedCacheKeys.FullKey(options, t, id, key) == t.name + ":" + EnumToString(t, id) + "_" + key.value;
    }
  }

  /** Storing under one sub-key leaves what a read under another sub-key of the same
      id finds. */
  lemma OtherSubKeyUntouched<V>(store: map<string, V>, t: CacheIdType, id: Int32, key1: string, key2: string, value: V)
    requires !IsNullOrWhiteSpace(Some(key1)) && !IsNullOrWhiteSpace(Some(key2)) && key1 != key2
    ensures Lookup(store[CreateCacheKey(t, id, Some(key2)) := value], CreateCacheKey(t, id, Some(key1)))
         == Lookup(store, CreateCacheKey(t, id, Some(key1)))
  {
    MemorySubKeysDoNotCollide(t, id, key1, key2);
  }

  /** A memory cache for one cache-id enum type, with the wrapped `InMemoryCache` as
      its primitives. `calls` records the primitive calls made through it. */
  class MemoryCache<V> {
    const idType: CacheIdType
    const backend: InMemoryCache<V>
    ghost var calls: seq<PrimitiveCall<V>>

    /** The objects the backend holds, by key. */
    ghost function Store(): map<string, V>
      reads backend
    {
      backend.View()
    }

    constructor (idType: CacheIdType, backend: InMemoryCache<V>)
      ensures this.idType == idType && this.backend == backend && calls == []
    {
      this.idType := idType;
      this.backend := backend;
      calls := [];
    }

    /** The `GetCacheObject` primitive. */
    method GetCacheObject(key: string) returns (r: Option<V>)
      modifies this
      ensures r == Lookup(Store(), key)
      ensures calls == old(calls) + [GetObject(key)]
    {
      r := backend.GetCacheObject(key);
      calls := calls + [GetObject(key)];
    }

    /** The `SetCacheObject` primitive. */
    method SetCacheObject(key: string, value: V, options: CacheEntryOptions?)
      modifies this, backend
      ensures backend.cache == old(backend.cache)[key := MemoryEntry(value, TranslatedOptions(options))]
      ensures Store() == old(Store())[key := value]
      ensures calls == old(calls) + [SetObject(key, value, options)]
    {
      backend.SetCacheObject(key, value, options);
      calls := calls + [SetObject(key, value, options)];
    }

    /** The `RemoveCacheObject` primitive. */
    method RemoveCacheObject(key: string)
      modifies this, backend
      ensures backend.cache == old(backend.cache) - {key}
      ensures Store() == old(Store()) - {key}
      ensures calls == old(calls) + [RemoveObject(key)]
    {
      backend.RemoveCacheObject(key);
      calls := calls + [RemoveObject(key)];
    }

    /** `Get(id, key)`: one read under the built key. */
    method GetWithSubKey(id: Int32, key: Option<string>) returns (r: Option<V>)
      modifies this
      ensures Store() == old(Store())
      ensures r == Lookup(Store(), CreateCacheKey(idType, id, key))
      ensures calls == old(calls) + [GetObject(CreateCacheKey(idType, id, key))]
    {
      var cacheKey := CreateCacheKey(idType, id, key);
      r := GetCacheObject(cacheKey);
    }

    /** `Get(id)`: `Get(id, null)`. */
    method Get(id: Int32) returns (r: Option<V>)
      modifies this
      ensures Store() == old(Store())
      ensures r == Lookup(Store(), CreateCacheKey(idType, id, None))
      ensures calls == old(calls) + [GetObject(CreateCacheKey(idType, id, None))]
    {
      r := GetWithSubKey(id, None);
    }

    /** `SetWithOptions(id, key, value, options)`: one store under the built key,
        with the caller's options passed on as they are (possibly null). */
    method SetWithOptionsAndSubKey(id: Int32, key: Option<string>, value: V, options: CacheEntryOptions?)
      modifies this, backend
      ensures backend.cache == old(backend.cache)[CreateCacheKey(idType, id, key) := MemoryEntry(value, TranslatedOptions(options))]
      ensures Store() == old(Store())[CreateCacheKey(idType, id, key) := value]
      ensures calls == old(calls) + [SetObject(CreateCacheKey(idType, id, key), value, options)]
    {
      var cacheKey := CreateCacheKey(idType, id, key);
      SetCacheObject(cacheKey, value, options);
    }

    /** `Set(id, value)`: `SetWithOptions(id, null, value, null)`, so the entry gets
        no expiration. */
    method Set(id: Int32, value: V)
      modifies this, backend
      ensures backend.cache == old(backend.cache)[CreateCacheKey(idType, id, None) := MemoryEntry(value, DefaultMemoryCacheEntryOptions)]
      ensures Store() == old(Store())[CreateCacheKey(idType, id, None) := value]
      ensures calls == old(calls) + [SetObject(CreateCacheKey(idType, id, None), value, null)]
    {
      SetWithOptionsAndSubKey(id, None, value, null);
    }

    /** `Set(id, key, value)`: `SetWithOptions(id, key, value, null)`. */
    method SetWithSubKey(id: Int32, key: Option<string>, value: V)
      modifies this, backend
      ensures backend.cache == old(backend.cache)[CreateCacheKey(idType, id, key) := MemoryEntry(value, DefaultMemoryCacheEntryOptions)]
      ensures Store() == old(Store())[CreateCacheKey(idType, id, key) := value]
      ensures calls == old(calls) + [SetObject(CreateCacheKey(idType, id, key), value, null)]
    {
      SetWithOptionsAndSubKey(id, key, value, null);
    }

    /** `SetWithOptions(id, value, options)`: `SetWithOptions(id, null, value, options)`. */
    method SetWithOptions(id: Int32, value: V, options: CacheEntryOptions?)
      modifies this, backend
      ensures backend.cache == old(backend.cache)[CreateCacheKey(idType, id, None) := MemoryEntry(value, TranslatedOptions(options))]
      ensures Store() == old(Store())[CreateCacheKey(idType, id, None) := value]
      ensures calls == old(calls) + [SetObject(CreateCacheKey(idType, id, None), value, options)]
    {
      SetWithOptionsAndSubKey(id, None, value, options);
    }

    /** `Remove(id, key)`: one removal under the built key. */
    method RemoveWithSubKey(id: Int32, key: Option<string>)
      modifies this, backend
      ensures backend.cache == old(backend.cache) - {CreateCacheKey(idType, id, key)}
      ensures Store() == old(Store()) - {CreateCacheKey(idType, id, key)}
      ensures calls == old(calls) + [RemoveObject(CreateCacheKey(idType, id, key))]
    {
      var cacheKey := CreateCacheKey(idType, id, key);
      RemoveCacheObject(cacheKey);
    }

    /** `Remove(id)`: `Remove(id, null)`. */
    method Remove(id: Int32)
      modifies this, backend
      ensures backend.cache == old(backend.cache) - {CreateCacheKey(idType, id, None)}
      ensures Store() == old(Store()) - {CreateCacheKey(idType, id, None)}
      ensures calls == old(calls) + [RemoveObject(CreateCacheKey(idType, id, None))]
    {
      RemoveWithSubKey(id, None);
    }
  }

  /** A stored object is read back as itself, and a removed one reads as null. */
  method SetGetRemoveGet<V>(c: MemoryCache<V>, id: Int32, key: Option<string>, value: V)
    returns (afterSet: Option<V>, afterRemove: Option<V>)
    modifies c, c.backend
    ensures afterSet == Some(value)
    ensures afterRemove == None
  {
    c.SetWithSubKey(id, key, value);
    afterSet := c.GetWithSubKey(id, key);
    c.RemoveWithSubKey(id, key);
    afterRemove := c.GetWithSubKey(id, key);
  }
}
