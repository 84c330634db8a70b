/** `MessagePackDistributedCache<TCacheId>`: the distributed backend, over a wrapped
    `Microsoft.Extensions.Caching.Distributed.IDistributedCache` that keeps bytes.
    Values are turned into bytes by MessagePack; the serializer is a pair of
    functions assumed to round-trip. */
module MessagePackCaches {
  import opened Wrappers
  import opened Exceptions
  import opened EntryOptions
  import opened Utf8
  import opened PrimitiveCalls

  /** `MessagePackCompression`: the two modes the constructor chooses between. */
  datatype Compression = Lz4BlockArray | NoCompression

  /** The resolver of the serializer options: contract-less (any public type) or
      standard (types must carry `[MessagePackObject]`). */
  datatype Resolver = ContractlessStandardResolver | StandardResolver

  /** `MessagePackSerializerOptions`, reduced to what the constructor sets. */
  datatype SerializerOptions = SerializerOptions(resolver: Resolver, compression: Compression)

  /** The field initialiser: contract-less resolver with LZ4 block-array compression. */
  const ContractlessLz4Options := SerializerOptions(ContractlessStandardResolver, Lz4BlockArray)

  /** `MessagePackSerializerOptions.Standard`: standard resolver, no compression. */
  const StandardOptions := SerializerOptions(StandardResolver, NoCompression)

  /** `MessagePackDistributedCacheOptions` as the constructor reads it. */
  datatype MessagePackDistributedCacheOptions = MessagePackDistributedCacheOptions(
    DisableCompression: bool,
    RequireMessagePackObjectAnnotation: bool)

  /** `MessagePackSerializer.Serialize` and `Deserialize` for one value type. */
  datatype Codec<!V(!new)> = Codec(
    serialize: (V, SerializerOptions) -> seq<byte>,
    deserialize: (seq<byte>, SerializerOptions) -> V)
  {
    /** Deserializing what was serialized, with the same options, gives the value back. */
    ghost predicate RoundTrips() {
      forall v, o :: deserialize(serialize(v, o), o) == v
    }
  }

  /** `DistributedCacheEntryOptions`: the expiration settings of a wrapped-cache entry. */
  datatype DistributedCacheEntryOptions = DistributedCacheEntryOptions(
    AbsoluteExpiration: Option<Ticks>,
    AbsoluteExpirationRelativeToNow: Option<Ticks>,
    SlidingExpiration: Option<Ticks>)

  /** An entry of the wrapped cache: the serialized bytes and their entry options. */
  datatype DistributedEntry = DistributedEntry(bytes: seq<byte>, options: DistributedCacheEntryOptions)

  /** `ConvertOptions`: null gives entry options with no expiration, otherwise the
      three expiration fields are copied unchanged. */
  ghost function ConvertOptions(options: CacheEntryOptions?): (r: DistributedCacheEntryOptions)
    reads options
    ensures options == null ==>
      r.AbsoluteExpiration.None? && r.AbsoluteExpirationRelativeToNow.None? && r.SlidingExpiration.None?
    ensures options != null ==>
      && r.AbsoluteExpiration == options.absoluteExpiration
      && r.AbsoluteExpirationRelativeToNow == options.absoluteExpirationRelativeToNow
      && r.SlidingExpiration == options.slidingExpiration
  {
    if options == null then DistributedCacheEntryOptions(None, None, None)
    else DistributedCacheEntryOptions(options.absoluteExpiration, options.absoluteExpirationRelativeToNow, options.slidingExpiration)
  }

  /** The serializer options the constructor ends with: standard when annotations are
      required, contract-less with LZ4 otherwise; compression then switched off when
      `DisableCompression` is set. */
  function SelectSerializerOptions(options: MessagePackDistributedCacheOptions): (r: SerializerOptions)
    ensures r.resolver == (if options.RequireMessagePackObjectAnnotation then StandardResolver else ContractlessStandardResolver)
    ensures r.compression == Lz4BlockArray <==> !options.DisableCompression && !options.RequireMessagePackObjectAnnotation
  {
    var serializerOptions := ContractlessLz4Options;
    var serializerOptions := if options.RequireMessagePackObjectAnnotation then StandardOptions else serializerOptions;
    if options.DisableCompression then serializerOptions.(compression := NoCompression) else serializerOptions
  }

  class MessagePackDistributedCache<V(!new)> {
    /** The contents of the wrapped `IDistributedCache`. */
    var cache: map<string, DistributedEntry>
    /** The serializer options chosen at construction. */
    const serializerOptions: SerializerOptions
    /** The MessagePack serializer for the cached type. */
    const codec: Codec<V>

    ghost predicate Valid() {
      codec.RoundTrips()
    }

    /** The values the cache holds, by key: its bytes deserialized. */
    ghost function View(): map<string, V>
      reads this
    {
      map k | k in cache :: codec.deserialize(cache[k].bytes, serializerOptions)
    }

    /** The body of the constructor once both arguments are known to be non-null. */
    constructor (cache: map<string, DistributedEntry>, options: MessagePackDistributedCacheOptions, codec: Codec<V>)
      ensures this.cache == cache && this.codec == codec
      ensures serializerOptions == SelectSerializerOptions(options)
    {
      this.cache := cache;
      this.codec := codec;
      var chosen := ContractlessLz4Options;
      if options.RequireMessagePackObjectAnnotation {
        chosen := StandardOptions;
      }
      if options.DisableCompression {
        chosen := chosen.(compression := NoCompression);
      }
      serializerOptions := chosen;
    }

    /** `new MessagePackDistributedCache(cache, optionsAccessor)`: a null cache, then
        a null options accessor, throws `ArgumentNullException`. */
    static method Create(cache: Option<map<string, DistributedEntry>>, optionsAccessor: Option<MessagePackDistributedCacheOptions>, codec: Codec<V>)
      returns (r: Result<MessagePackDistributedCache<V>, Error>)
      ensures cache.None? ==> r == Failure(ArgumentNullException("cache"))
      ensures cache.Some? && optionsAccessor.None? ==> r == Failure(ArgumentNullException("optionsAccessor"))
      ensures cache.Some? && optionsAccessor.Some? ==>
        && r.Success? && fresh(r.value)
        && r.value.cache == cache.value && r.value.codec == codec
        && r.value.serializerOptions == SelectSerializerOptions(optionsAccessor.value)
    {
      if cache.None? {
        return Failure(ArgumentNullException("cache"));
      }
      if optionsAccessor.None? {
        return Failure(ArgumentNullException("optionsAccessor"));
      }
      var c := new MessagePackDistributedCache(cache.value, optionsAccessor.value, codec);
      r := Success(c);
    }

    /** `GetCacheObject`: null when the wrapped cache has no bytes for the key,
        otherwise the bytes deserialized. */
    method GetCacheObject(key: string) returns (r: Option<V>)
      ensures r == Lookup(View(), key)
      ensures r.Some? <==> key in cache
      ensures r.Some? ==> r.value == codec.deserialize(cache[key].bytes, serializerOptions)
    {
      if key in cache {
        r := Some(codec.deserialize(cache[key].bytes, serializerOptions));
      } else {
        r := None;
      }
    }

    /** `GetCacheObjectAsync`: the same read; the token only cancels. */
    method GetCacheObjectAsync(key: string, token: CancellationToken) returns (r: Option<V>)
      ensures r == Lookup(View(), key)
    {
      r := GetCacheObject(key);
    }

    /** `SetCacheObject`: stores the serialized value under `key` with the converted
        options; a later read gives the value back. */
    method SetCacheObject(key: string, value: V, options: CacheEntryOptions?)
      requires Valid()
      modifies this
      ensures cache == old(cache)[key := DistributedEntry(codec.serialize(value, serializerOptions), ConvertOptions(options))]
      ensures View() == old(View())[key := value]
    {
      var bytes := codec.serialize(value, serializerOptions);
      var entryOptions := DistributedCacheEntryOptions(None, None, None);
      if options != null {
        entryOptions := DistributedCacheEntryOptions(options.absoluteExpiration, options.absoluteExpirationRelativeToNow, options.slidingExpiration);
      }
      cache := cache[key := DistributedEntry(bytes, entryOptions)];
    }

    /** `SetCacheObjectAsync`: the same store effect as `SetCacheObject`. */
    method SetCacheObjectAsync(key: string, value: V, options: CacheEntryOptions?, token: CancellationToken)
      requires Valid()
      modifies this
      ensures cache == old(cache)[key := DistributedEntry(codec.serialize(value, serializerOptions), ConvertOptions(options))]
      ensures View() == old(View())[key := value]
    {
      SetCacheObject(key, value, options);
    }

    /** `RemoveCacheObject`: drops the entry under `key`, if any. */
    method RemoveCacheObject(key: string)
      modifies this
      ensures cache == old(cache) - {key}
      ensures View() == old(View()) - {key}
    {
      cache := cache - {key};
    }

    /** `RemoveCacheObjectAsync`: the same store effect as `RemoveCacheObject`. */
    method RemoveCacheObjectAsync(key: string, token: CancellationToken)
      modifies this
      ensures cache == old(cache) - {key}
      ensures View() == old(View()) - {key}
    {
      RemoveCacheObject(key);
    }
  }
}
