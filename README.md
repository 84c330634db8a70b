# Neolution.Extensions.Caching in Dafny

This project models the core of Neolution.Extensions.Caching, a .NET library that
puts typed, enum-keyed caches in front of three backends:

- a plain `IMemoryCache`;
- an `IDistributedCache` holding MessagePack bytes;
- a Foundatio Redis hybrid client.

The model covers the following:

- **Key builders.**
  - The distributed builder, `DistributedCache.CreateCacheKey`, with
    `GetCacheKeyString` and its `[CacheKey]` override. It has an optional version
    segment and an optional environment prefix. It escapes the sub-key with
    `Uri.EscapeDataString`, and it refuses keys over 250 UTF-8 bytes.
  - The simpler memory builder, `MemoryCache.CreateCacheKey`. It has no override,
    no escaping, no version, no prefix and no limit.
- **Dispatch layers.** `DistributedCache` and `MemoryCache` are the two base classes.
  Every public overload builds the key once and calls exactly one protected
  primitive. A refused key fails before any primitive is called.
- **Adapters.** `MessagePackDistributedCache`, `InMemoryCache` and `RedisHybridCache`
  are the subclasses that supply the primitives. Each is a class over the contents
  of the store it wraps, with a view of the values it holds by key.
- **Option types.**
  - `CacheEntryOptions`, with its validating setters.
  - `CacheKeyAttribute`, with its validating constructor.
  - `DistributedCacheOptionsBase`.
  - The MessagePack serializer-option selection.

Framework functions the key builder depends on are modelled exactly:

- `string.IsNullOrWhiteSpace`, over the .NET white-space set;
- `Int32.ToString()`;
- `Uri.EscapeDataString`, using the unreserved set of section 2.3 of RFC 3986 and the
  upper-case `%HH` triples of section 2.1;
- `Encoding.UTF8.GetByteCount`, following RFC 3629.

Virtual dispatch to the subclasses is a closed sum. A distributed cache holds a
`Backend`, either `MessagePack(…)` or `RedisHybrid(…)`, and the memory cache holds
its `InMemoryCache`. Each dispatch object keeps a ghost trace `calls` of the
primitive calls it made. The contracts therefore state both what is stored and
which primitive was called, with which key, value, options object and token.

Modules and files:

| module | file | models |
|---|---|---|
| `Wrappers`, `Exceptions` | wrappers.dfy, exceptions.dfy | `Option`, `Result`, `Outcome`; thrown exceptions; cancellation tokens |
| `Text` | text.dfy | white space, `Int32.ToString`, and its inverse |
| `Utf8` | utf8.dfy | UTF-8 encoding, byte count, and decoding of one character |
| `PercentEncoding` | percent_encoding.dfy | `Uri.EscapeDataString` and its inverse |
| `CacheKeyAttributes` | cache_key_attribute.dfy | `CacheKeyAttribute` |
| `CacheIds` | cache_ids.dfy | the cache-id enum type as a table of members |
| `DistributedCacheOptions` | distributed_cache_options.dfy | `DistributedCacheOptionsBase` |
| `EntryOptions` | cache_entry_options.dfy | `CacheEntryOptions` |
| `DistributedCacheKeys` | distributed_cache_keys.dfy | `GetCacheKeyString`, `CreateCacheKey`, and the key properties |
| `PrimitiveCalls` | primitive_calls.dfy | the protected primitives as recorded calls |
| `InMemoryCaches` | in_memory_cache.dfy | `InMemoryCache` |
| `RedisHybridCaches` | redis_hybrid_cache.dfy | `RedisHybridCache` |
| `MessagePackCaches` | message_pack_distributed_cache.dfy | `MessagePackDistributedCache` |
| `DistributedCacheDispatch` | distributed_cache.dfy | `DistributedCache` |
| `MemoryCacheDispatch` | memory_cache.dfy | `MemoryCache` |
| `KeyExamples` | key_examples.dfy | the keys of the repository's test and documentation enums |

## Model

| member | source | states |
|---|---|---|
| DistributedCacheKeys.GetCacheKeyString | Neolution.Extensions.Caching.Abstractions/DistributedCache.cs:262-277 | reading the attribute throws `ArgumentException` for "key" exactly when the member declares a null, empty or white-space `[CacheKey]`. Otherwise it yields the base string, which for a well-formed enum type is never null, empty or white space |
| DistributedCacheKeys.BaseSegmentChoice | Neolution.Extensions.Caching.Abstractions/DistributedCache.cs:262-277 | the base string is the declared key verbatim when the member has a valid `[CacheKey]`; a blank declared key throws; otherwise it is the member name, or the decimal value when no member is declared |
| DistributedCacheKeys.CreateCacheKey | Neolution.Extensions.Caching.Abstractions/DistributedCache.cs:285-329 | a member declared with a blank `[CacheKey]` fails first, with the attribute's exception, whatever the settings. Otherwise the key is accepted exactly when validation is off or its UTF-8 length is at most 250. An accepted key is the assembled key; a refused one throws `ArgumentException` for parameter "key" with the three-part message |
| DistributedCacheKeys.KeyLayout | Neolution.Extensions.Caching.Abstractions/DistributedCache.cs:297-311 | the key is `[prefix ":"] TypeName [":v" n] ":"` followed by the segment; only the segment depends on the id and the sub-key |
| DistributedCacheKeys.RenamingMember | Neolution.Extensions.Caching.Abstractions/DistributedCache.cs:262-277 | renaming a member that has a `[CacheKey]` leaves all its keys unchanged; renaming one without it changes every key |
| DistributedCacheKeys.BlankSubKeyIgnored | Neolution.Extensions.Caching.Abstractions/DistributedCache.cs:290-295 | a null, empty or white-space sub-key gives the same result as no sub-key |
| DistributedCacheKeys.SubKeyExtendsPlainKey | Neolution.Extensions.Caching.Abstractions/DistributedCache.cs:290-295 | a non-blank sub-key gives the plain key followed by "_" and the processed sub-key, which is never the plain key |
| DistributedCacheKeys.SubKeyByteCount | Neolution.Extensions.Caching.Abstractions/DistributedCache.cs:290-316 | a non-blank sub-key adds one byte plus the UTF-8 length of the processed sub-key |
| DistributedCacheKeys.EncodingOnlyTouchesSubKey | Neolution.Extensions.Caching.Abstractions/DistributedCache.cs:290-311 | with encoding on, the key is the unencoded key of the escaped sub-key, so the prefix, type name, version and base string are never escaped |
| DistributedCacheKeys.EncodedSubKeyRecoverable | Neolution.Extensions.Caching.Abstractions/DistributedCache.cs:290-295 | the escaped sub-key at the end of the key is well formed, holds no ':', and decodes back to the sub-key |
| DistributedCacheKeys.SubKeysDoNotCollide | Neolution.Extensions.Caching.Abstractions/DistributedCache.cs:290-311 | two different non-blank sub-keys of one id never share a key, with encoding on or off |
| KeyExamples.DistinctIdsCanShareKey | Neolution.Extensions.Caching.Abstractions/DistributedCache.cs:290-305 | keys are unique per id only: in an enum with members `User` and `User_1`, `User` with sub-key "1" and `User_1` without one both build "E:User_1" |
| DistributedCacheKeys.VersionsIsolate | Neolution.Extensions.Caching.Abstractions/DistributedCache.cs:300-303 | two different versions give different keys for every id and sub-key |
| DistributedCacheKeys.LongSubKeyRejected | Neolution.Extensions.Caching.Abstractions/DistributedCache.cs:314-326 | with validation on, a non-blank sub-key longer than 250 characters is always refused, whatever the encoding |
| DistributedCacheKeys.KeyTooLongMessageReports | Neolution.Extensions.Caching.Abstractions/DistributedCache.cs:320-324 | the message contains "exceeds maximum length", "250 bytes", the byte count followed by " bytes", and the key itself |
| Text.IsNullOrWhiteSpaceChars | Neolution.Extensions.Caching.Abstractions/DistributedCache.cs:290 | `string.IsNullOrWhiteSpace` holds exactly when the string is null or every character is in the .NET white-space set (U+0009–U+000D, U+0085 and the Unicode space separators), so also for the empty string |
| Text.IntToString | Neolution.Extensions.Caching.Abstractions/DistributedCache.cs:302 | the rendering of the version is non-empty and made of digits and '-' |
| Text.ParseIntToString | Neolution.Extensions.Caching.Abstractions/DistributedCache.cs:302 | parsing the rendered number gives the number back |
| Text.IntToStringInjective | Neolution.Extensions.Caching.Abstractions/DistributedCache.cs:302 | different numbers render differently |
| Utf8.ByteCount | Neolution.Extensions.Caching.Abstractions/DistributedCache.cs:316 | the byte count is the length of the UTF-8 encoding, between one and four bytes per character |
| Utf8.ByteCountAppend | Neolution.Extensions.Caching.Abstractions/DistributedCache.cs:316 | the byte count of a concatenation is the sum of the byte counts |
| Utf8.ByteCountIsLengthIffAscii | Neolution.Extensions.Caching.Abstractions/DistributedCache.cs:316 | the byte count equals the character count exactly when every character is 7-bit |
| Utf8.DecodeEncodeChar | Neolution.Extensions.Caching.Abstractions/DistributedCache.cs:316 | the encoding of every character is a well-formed sequence that decodes back to it |
| PercentEncoding.EscapeDataString | Neolution.Extensions.Caching.Abstractions/DistributedCache.cs:293 | the escaped text holds only unreserved characters and '%' and is never shorter than the input |
| PercentEncoding.UnescapeEscape | Neolution.Extensions.Caching.Abstractions/DistributedCache.cs:293 | decoding the escaped text gives the input back |
| PercentEncoding.EscapeInjective | Neolution.Extensions.Caching.Abstractions/DistributedCache.cs:293 | different inputs escape to different texts |
| PercentEncoding.EscapeIsWellFormed | Neolution.Extensions.Caching.Abstractions/DistributedCache.cs:293 | the escaped text is a sequence of unreserved characters and `%HH` triples |
| PercentEncoding.EscapeIdentityIffUnreserved | Neolution.Extensions.Caching.Abstractions/DistributedCache.cs:293 | escaping leaves a text unchanged exactly when all its characters are unreserved |
| PercentEncoding.EscapedByteCount | Neolution.Extensions.Caching.Abstractions/DistributedCache.cs:293-316 | escaped text takes one UTF-8 byte per character |
| CacheKeyAttributes.NewCacheKeyAttribute | Neolution.Extensions.Caching.Abstractions/CacheKeyAttribute.cs:18-26 | the constructor fails exactly on a null, empty or white-space key, with `ArgumentException` for "key"; otherwise it keeps the key verbatim |
| CacheIds.EnumToString | Neolution.Extensions.Caching.Abstractions/DistributedCache.cs:265 | for a well-formed enum type, the name of a value is never blank |
| DistributedCacheOptions.Defaults | Neolution.Extensions.Caching.Abstractions/DistributedCacheOptionsBase.cs:19-46 | fresh options have no version and no prefix, and have encoding and length validation on |
| EntryOptions.CacheEntryOptions.constructor | Neolution.Extensions.Caching.Abstractions/CacheEntryOptions.cs:11-26 | a fresh object has no expiration of any kind and satisfies the invariant |
| EntryOptions.CacheEntryOptions.SetAbsoluteExpiration | Neolution.Extensions.Caching.Abstractions/CacheEntryOptions.cs:26 | any absolute expiration is stored; the other fields and the invariant are kept |
| EntryOptions.CacheEntryOptions.SetAbsoluteExpirationRelativeToNow | Neolution.Extensions.Caching.Abstractions/CacheEntryOptions.cs:31-43 | fails, leaving the object unchanged, exactly when the value is present and not positive; otherwise stores it. The invariant (durations null or positive) is kept |
| EntryOptions.CacheEntryOptions.SetSlidingExpiration | Neolution.Extensions.Caching.Abstractions/CacheEntryOptions.cs:49-61 | the same guard and invariant for the sliding expiration, with its own message |
| PrimitiveCalls.Lookup | Neolution.Extensions.Caching.Abstractions/DistributedCache.cs:206-207 | a typed read finds a value exactly when the key is present, and then the stored one |
| InMemoryCaches.InMemoryCache.constructor | Neolution.Extensions.Caching.InMemory/InMemoryCache.cs:23-26 | the adapter holds the wrapped cache with its contents unchanged |
| InMemoryCaches.InMemoryCache.GetCacheObject | Neolution.Extensions.Caching.InMemory/InMemoryCache.cs:29-32 | the stored object when the key is present, null otherwise |
| InMemoryCaches.InMemoryCache.SetCacheObject | Neolution.Extensions.Caching.InMemory/InMemoryCache.cs:35-46 | stores the object with default entry options for null options, or a copy of the three expirations; the view is updated at that key alone |
| InMemoryCaches.InMemoryCache.RemoveCacheObject | Neolution.Extensions.Caching.InMemory/InMemoryCache.cs:49-52 | removes that key alone |
| RedisHybridCaches.RedisHybridCache.constructor | Neolution.Extensions.Caching.RedisHybrid/RedisHybridCache.cs:28-31 | the adapter holds the cache client with its contents unchanged |
| RedisHybridCaches.RedisHybridCache.GetCacheObjectAsync | Neolution.Extensions.Caching.RedisHybrid/RedisHybridCache.cs:40-44 | the entry's value when the client has one, null otherwise |
| RedisHybridCaches.RedisHybridCache.GetCacheObject | Neolution.Extensions.Caching.RedisHybrid/RedisHybridCache.cs:34-37 | the same read as the asynchronous form |
| RedisHybridCaches.RedisHybridCache.SetCacheObjectAsync | Neolution.Extensions.Caching.RedisHybrid/RedisHybridCache.cs:53-57 | stores the value with only the relative expiration as `expiresIn` (none for null options); the view is updated at that key alone |
| RedisHybridCaches.RedisHybridCache.SetCacheObject | Neolution.Extensions.Caching.RedisHybrid/RedisHybridCache.cs:47-50 | the same store effect as the asynchronous form |
| RedisHybridCaches.RedisHybridCache.RemoveCacheObjectAsync | Neolution.Extensions.Caching.RedisHybrid/RedisHybridCache.cs:66-69 | removes that key alone |
| RedisHybridCaches.RedisHybridCache.RemoveCacheObject | Neolution.Extensions.Caching.RedisHybrid/RedisHybridCache.cs:60-63 | the same effect as the asynchronous form |
| MessagePackCaches.SelectSerializerOptions | Neolution.Extensions.Caching.Distributed/MessagePackDistributedCache.cs:27-53 | the resolver is the standard one exactly when annotations are required. LZ4 compression is kept exactly when compression is not disabled and annotations are not required |
| MessagePackCaches.ConvertOptions | Neolution.Extensions.Caching.Distributed/MessagePackDistributedCache.cs:103-116 | null gives entry options with no expiration; otherwise the three expirations are copied |
| MessagePackCaches.MessagePackDistributedCache.constructor | Neolution.Extensions.Caching.Distributed/MessagePackDistributedCache.cs:35-54 | keeps the wrapped cache and ends with the selected serializer options |
| MessagePackCaches.MessagePackDistributedCache.Create | Neolution.Extensions.Caching.Distributed/MessagePackDistributedCache.cs:35-54 | a null cache throws `ArgumentNullException("cache")`. Otherwise a null accessor throws `ArgumentNullException("optionsAccessor")`. Otherwise a fresh cache is returned |
| MessagePackCaches.MessagePackDistributedCache.GetCacheObject | Neolution.Extensions.Caching.Distributed/MessagePackDistributedCache.cs:57-62 | null without bytes, otherwise the bytes deserialized with the chosen options |
| MessagePackCaches.MessagePackDistributedCache.GetCacheObjectAsync | Neolution.Extensions.Caching.Distributed/MessagePackDistributedCache.cs:65-70 | the same read as the synchronous form |
| MessagePackCaches.MessagePackDistributedCache.SetCacheObject | Neolution.Extensions.Caching.Distributed/MessagePackDistributedCache.cs:73-77 | stores the serialized value with the converted options; with a round-tripping serializer, the view is updated at that key to the value itself |
| MessagePackCaches.MessagePackDistributedCache.SetCacheObjectAsync | Neolution.Extensions.Caching.Distributed/MessagePackDistributedCache.cs:80-84 | the same store effect as the synchronous form |
| MessagePackCaches.MessagePackDistributedCache.RemoveCacheObject | Neolution.Extensions.Caching.Distributed/MessagePackDistributedCache.cs:87-90 | removes that key alone |
| MessagePackCaches.MessagePackDistributedCache.RemoveCacheObjectAsync | Neolution.Extensions.Caching.Distributed/MessagePackDistributedCache.cs:93-96 | removes that key alone |
| DistributedCacheDispatch.DistributedCache.Create | Neolution.Extensions.Caching.Abstractions/DistributedCache.cs:40-52 | a null options accessor throws `ArgumentNullException("optionsAccessor")`; otherwise the settings are captured and no call has been made |
| DistributedCacheDispatch.DistributedCache.GetCacheObject | Neolution.Extensions.Caching.Abstractions/DistributedCache.cs:206-207 | the backend's read, recorded as one `GetCacheObject` call |
| DistributedCacheDispatch.DistributedCache.GetCacheObjectAsync | Neolution.Extensions.Caching.Abstractions/DistributedCache.cs:216-217 | the backend's read, recorded as one `GetCacheObjectAsync` call with the token |
| DistributedCacheDispatch.DistributedCache.SetCacheObject | Neolution.Extensions.Caching.Abstractions/DistributedCache.cs:226-227 | the backend's store, recorded with the exact options object |
| DistributedCacheDispatch.DistributedCache.SetCacheObjectAsync | Neolution.Extensions.Caching.Abstractions/DistributedCache.cs:238-239 | the backend's store, recorded with the options object and token |
| DistributedCacheDispatch.DistributedCache.RemoveCacheObject | Neolution.Extensions.Caching.Abstractions/DistributedCache.cs:245 | the backend's removal, recorded as one call |
| DistributedCacheDispatch.DistributedCache.RemoveCacheObjectAsync | Neolution.Extensions.Caching.Abstractions/DistributedCache.cs:253 | the backend's removal, recorded as one call with the token |
| DistributedCacheDispatch.DistributedCache.Get | Neolution.Extensions.Caching.Abstractions/DistributedCache.cs:75-80 | a refused key gives its error with no call. Otherwise it is one `GetCacheObject` under the key of the id alone, returning what the store holds there; nothing is stored |
| DistributedCacheDispatch.DistributedCache.GetWithSubKey | Neolution.Extensions.Caching.Abstractions/DistributedCache.cs:83-88 | the same, under the key built with the sub-key |
| DistributedCacheDispatch.DistributedCache.GetAsync | Neolution.Extensions.Caching.Abstractions/DistributedCache.cs:91-96 | the same through `GetCacheObjectAsync`, passing the token |
| DistributedCacheDispatch.DistributedCache.GetWithSubKeyAsync | Neolution.Extensions.Caching.Abstractions/DistributedCache.cs:99-104 | the same with the sub-key and token |
| DistributedCacheDispatch.DistributedCache.Set | Neolution.Extensions.Caching.Abstractions/DistributedCache.cs:107-112 | a refused key gives its error with no call and no change. Otherwise it makes one `SetCacheObject` with a fresh, empty `CacheEntryOptions`, and the store maps the key to the value |
| DistributedCacheDispatch.DistributedCache.SetWithSubKey | Neolution.Extensions.Caching.Abstractions/DistributedCache.cs:115-120 | the same with the sub-key |
| DistributedCacheDispatch.DistributedCache.SetAsync | Neolution.Extensions.Caching.Abstractions/DistributedCache.cs:123-128 | the same through `SetCacheObjectAsync` with the token |
| DistributedCacheDispatch.DistributedCache.SetWithSubKeyAsync | Neolution.Extensions.Caching.Abstractions/DistributedCache.cs:131-136 | the same with the sub-key and token |
| DistributedCacheDispatch.DistributedCache.SetWithOptions | Neolution.Extensions.Caching.Abstractions/DistributedCache.cs:139-144 | like `Set`, but passes the caller's options object (possibly null) on unchanged |
| DistributedCacheDispatch.DistributedCache.SetWithOptionsAndSubKey | Neolution.Extensions.Caching.Abstractions/DistributedCache.cs:147-152 | the same with the sub-key |
| DistributedCacheDispatch.DistributedCache.SetWithOptionsAsync | Neolution.Extensions.Caching.Abstractions/DistributedCache.cs:155-160 | the same through the asynchronous primitive |
| DistributedCacheDispatch.DistributedCache.SetWithOptionsAndSubKeyAsync | Neolution.Extensions.Caching.Abstractions/DistributedCache.cs:163-168 | the same with the sub-key and token |
| DistributedCacheDispatch.DistributedCache.Remove | Neolution.Extensions.Caching.Abstractions/DistributedCache.cs:171-175 | a refused key gives its error with no call. Otherwise it makes one `RemoveCacheObject`, and the store loses that key alone |
| DistributedCacheDispatch.DistributedCache.RemoveWithSubKey | Neolution.Extensions.Caching.Abstractions/DistributedCache.cs:178-182 | the same with the sub-key |
| DistributedCacheDispatch.DistributedCache.RemoveAsync | Neolution.Extensions.Caching.Abstractions/DistributedCache.cs:185-189 | the same through `RemoveCacheObjectAsync` with the token |
| DistributedCacheDispatch.DistributedCache.RemoveWithSubKeyAsync | Neolution.Extensions.Caching.Abstractions/DistributedCache.cs:192-196 | the same with the sub-key and token |
| DistributedCacheDispatch.SetGetRemoveGet | Neolution.Extensions.Caching.UnitTests/DistributedCacheKeyImprovementsTests.cs:112-130 | with either backend, a value stored under an accepted key reads back as itself and as null once removed; a refused key fails all four steps with one error |
| MemoryCacheDispatch.MemoryKeyLayout | Neolution.Extensions.Caching.Abstractions/MemoryCache.cs:100-109 | the key starts with the type name and the member name, never an override key, and ends with "_" and the raw sub-key when that is not blank |
| MemoryCacheDispatch.MemoryBlankSubKeyIgnored | Neolution.Extensions.Caching.Abstractions/MemoryCache.cs:103-106 | a blank sub-key gives the key of the id alone |
| MemoryCacheDispatch.CreateCacheKey | Neolution.Extensions.Caching.Abstractions/MemoryCache.cs:100-109 | the memory key never fails. It starts with the type name and ':'. Its length is the type name, ':', the member name, and for a non-blank sub-key one '_' and the raw sub-key, which end the key |
| MemoryCacheDispatch.MemorySubKeysDoNotCollide | Neolution.Extensions.Caching.Abstractions/MemoryCache.cs:100-109 | different non-blank sub-keys give different keys, and none gives the key of the id alone |
| KeyExamples.MemoryDistinctIdsCanShareKey | Neolution.Extensions.Caching.Abstractions/MemoryCache.cs:100-109 | the memory keys of `User` with sub-key "1" and of `User_1` alone coincide too |
| MemoryCacheDispatch.MemoryKeyMatchesDistributed | Neolution.Extensions.Caching.Abstractions/MemoryCache.cs:100-109 | without an override, encoding, version or prefix, the memory key is the distributed key |
| MemoryCacheDispatch.OtherSubKeyUntouched | Neolution.Extensions.Caching.Abstractions/MemoryCache.cs:52-56 | storing under one sub-key does not change what a read under another sub-key finds |
| MemoryCacheDispatch.MemoryCache.GetCacheObject | Neolution.Extensions.Caching.Abstractions/MemoryCache.cs:77 | the backend's read, recorded as one call |
| MemoryCacheDispatch.MemoryCache.SetCacheObject | Neolution.Extensions.Caching.Abstractions/MemoryCache.cs:86 | the backend's store with translated options, recorded as one call |
| MemoryCacheDispatch.MemoryCache.RemoveCacheObject | Neolution.Extensions.Caching.Abstractions/MemoryCache.cs:92 | the backend's removal of that entry alone (the other entries keep their objects and options), recorded as one call |
| MemoryCacheDispatch.MemoryCache.GetWithSubKey | Neolution.Extensions.Caching.Abstractions/MemoryCache.cs:27-31 | one read under the built key, returning what the store holds there |
| MemoryCacheDispatch.MemoryCache.Get | Neolution.Extensions.Caching.Abstractions/MemoryCache.cs:21-24 | the read with a null sub-key |
| MemoryCacheDispatch.MemoryCache.SetWithOptionsAndSubKey | Neolution.Extensions.Caching.Abstractions/MemoryCache.cs:52-56 | one store under the built key with the caller's options, possibly null |
| MemoryCacheDispatch.MemoryCache.Set | Neolution.Extensions.Caching.Abstractions/MemoryCache.cs:34-37 | a store with null options, so the entry has no expiration |
| MemoryCacheDispatch.MemoryCache.SetWithSubKey | Neolution.Extensions.Caching.Abstractions/MemoryCache.cs:40-43 | the same with the sub-key |
| MemoryCacheDispatch.MemoryCache.SetWithOptions | Neolution.Extensions.Caching.Abstractions/MemoryCache.cs:46-49 | a store with the caller's options and no sub-key |
| MemoryCacheDispatch.MemoryCache.RemoveWithSubKey | Neolution.Extensions.Caching.Abstractions/MemoryCache.cs:65-69 | one removal under the built key; the other entries keep their objects and options |
| MemoryCacheDispatch.MemoryCache.Remove | Neolution.Extensions.Caching.Abstractions/MemoryCache.cs:59-62 | the removal with a null sub-key; the other entries are unchanged |
| MemoryCacheDispatch.SetGetRemoveGet | Neolution.Extensions.Caching.UnitTests/CacheKeyImprovementsTests.cs:79-96 | a stored object reads back as itself, and reads as null once removed |
| KeyExamples.DefaultKeyExample | Neolution.Extensions.Caching.Abstractions/DistributedCache.cs:297-311 | with default options, the key of `TestCacheId.Foobar` is "TestCacheId:Foobar" |
| KeyExamples.VersionedKeyExample | Neolution.Extensions.Caching.Abstractions/DistributedCacheOptionsBase.cs:16-19 | with `Version = 2`, the key of `MyCacheId.UserProfile` is "MyCacheId:v2:UserProfile" |
| KeyExamples.PrefixedKeyExample | Neolution.Extensions.Caching.Abstractions/DistributedCacheOptionsBase.cs:27-30 | with `EnvironmentPrefix = "staging"`, that key is "staging:MyCacheId:UserProfile" |
| KeyExamples.FoobarKeyBytes | Neolution.Extensions.Caching.Abstractions/DistributedCache.cs:290-316 | with default options, a non-blank sub-key of `Foobar` gives a key of 19 bytes plus the UTF-8 length of the escaped sub-key |
| KeyExamples.UnreservedRunLimit | Neolution.Extensions.Caching.UnitTests/DistributedCacheKeyImprovementsTests.cs:112-130 | a run of n unreserved characters gives 19 + n bytes and is accepted exactly when n ≤ 231 (the tests' 180 is accepted) |
| KeyExamples.LongUnreservedRunReported | Neolution.Extensions.Caching.UnitTests/DistributedCacheKeyImprovementsTests.cs:88-104 | a longer run (the tests use 300 'x') throws `ArgumentException` for "key", whose message mentions "exceeds maximum length", "250 bytes" and the byte count |
| KeyExamples.MultiByteRunLimit | Neolution.Extensions.Caching.UnitTests/DistributedCacheKeyImprovementsTests.cs:137-153 | n copies of U+4E2D take 3n bytes and give a key of 19 + 9n bytes, refused exactly when n ≥ 26 (the tests use 100) |
| KeyExamples.MemoryKeyExample | Neolution.Extensions.Caching.Abstractions/MemoryCache.cs:100-109 | the memory key of `TestCacheId.Foobar` with sub-key "123" is "TestCacheId:Foobar_123" |
| KeyExamples.MemoryRunLength | Neolution.Extensions.Caching.UnitTests/CacheKeyImprovementsTests.cs:79-96 | the memory key has no limit: n characters of sub-key give a key of 19 + n characters |

## Left out

- Dependency injection (`ServiceCollectionExtensions`, `IOptions<T>` resolution) is not part of this model. An options accessor is an `Option` of its value.
- MessagePack and LZ4 internals are not modelled. The serializer is a pair of functions, and a round trip (`Codec.RoundTrips`) is required where a stored value must read back. Deserialization errors and type mismatches are not modelled.
- The wrapped `IDistributedCache`, `IMemoryCache` and Foundatio `ICacheClient` are modelled by their contents alone. Not modelled:
  - the network, Redis and pub/sub;
  - expiry as time passes, sliding refresh and eviction;
  - an `AbsoluteExpiration` already in the past, which makes the wrapped caches drop or refuse the entry at once. The `Set` contracts record such an entry as stored;
  - Foundatio dropping an entry whose `expiresIn` is not positive.
- Tasks, `await`, `ConfigureAwait` and the blocking of the synchronous Redis forms are left out. An asynchronous form has the store effect of its synchronous form, and the token is recorded, not honoured. Cancellation and deadlocks are out of scope.
- Reflection over the enum type is replaced by an explicit table, `CacheIdType`, of declared members and their `[CacheKey]` arguments as written. A blank argument makes the attribute lookup throw, as in the source. `Enum.ToString` of a combination of `[Flags]` values is not modelled: an undeclared value prints as its number.
- Values are one type parameter `V` per cache rather than a generic `T` per call, so casts and `default(T)` for value types are not modelled. Distributed values are restricted to `V(!new)` so that the serializer round trip can be stated.
- Enum ids are `Int32` values. Enums with another underlying type (`byte`, `long`, `ulong`, …), and undeclared values outside the `Int32` range printed by `Enum.ToString`, are not modelled.
- `TimeSpan` and `DateTimeOffset` are unbounded tick counts. The 64-bit tick range is not modelled.
- Lone UTF-16 surrogates cannot occur: Dafny characters are Unicode scalar values, so the replacement-character handling of `Encoding.UTF8` and `Uri.EscapeDataString` for them is not modelled.
- The adapters do not chain to a base constructor here. The dispatch classes hold their backend instead (composition), so the `DistributedCache` constructor and the adapter constructors are separate members.
- `RequireMessagePackObjectAnnotation` is read as a setting of the MessagePack options, as the constructor reads it. The options class's own declaration is not part of this model.
- MessagePackCaches.SelectSerializerOptions: follows the code. When annotations are required the options are `MessagePackSerializerOptions.Standard`, which has no compression, so LZ4 is on only when annotations are not required and compression is not disabled.
- KeyExamples: the length examples are stated for runs of any length rather than the single lengths the tests use.
- The `"v"` version segment renders the version with `Int32.ToString()` under the invariant culture. Culture-specific digits are not modelled.
