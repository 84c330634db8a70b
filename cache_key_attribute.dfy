/** `CacheKeyAttribute`: an explicit key string attached to a cache-id enum member,
    so that the member can be renamed without changing its cache key. */
module CacheKeyAttributes {
  import opened Wrappers
  import opened Exceptions
  import opened Text

  /** The attribute's only state, the read-only `Key` property. Being a datatype
      value, it cannot change once built. */
  datatype KeyAnnotation = KeyAnnotation(Key: string)

  /** An attribute that the validating constructor accepted: its key is never
      null, empty or white space. */
  type CacheKeyAttribute = a: KeyAnnotation | !IsNullOrWhiteSpace(Some(a.Key))
    witness KeyAnnotation("k")

  /** `[CacheKey(argument)]` as written on an enum member. The compiler accepts any
      string constant, null included; the attribute object is only built from it,
      by the validating constructor below, when reflection reads the attribute. */
  datatype CacheKeyDeclaration = CacheKeyDeclaration(argument: Option<string>)

  /** The constructor `CacheKeyAttribute(string key)`. A null, empty or white-space
      key throws `ArgumentException` (not `ArgumentNullException`, although the doc
      comment names that one for null); any other key is kept verbatim. */
  function NewCacheKeyAttribute(key: Option<string>): (r: Result<CacheKeyAttribute, Error>)
    ensures r.Failure? <==> IsNullOrWhiteSpace(key)
    ensures r.Failure? ==> r.error.ArgumentException? && r.error.paramName == Some("key")
    ensures r.Success? ==> r.value.Key == key.value
  {
    if IsNullOrWhiteSpace(key) then
      Result<CacheKeyAttribute, Error>.Failure(ArgumentException("Cache key cannot be null, empty or whitespace.", Some("key")))
    else
      Success(KeyAnnotation(key.value))
  }
}
