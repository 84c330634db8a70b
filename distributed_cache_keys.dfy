/** The key builder of `DistributedCache<TCacheId>`: `GetCacheKeyString`,
    `CreateCacheKey` and the 250-byte limit. A key has the layout
    `[prefix ":"] TypeName [":v" version] ":" base ["_" subKey']`. */
module DistributedCacheKeys {
  import opened Wrappers
  import opened Exceptions
  import opened Text
  import opened Utf8
  import opened PercentEncoding
  import opened CacheKeyAttributes
  import opened CacheIds
  import opened DistributedCacheOptions

  /** `MaxCacheKeyBytes`: the largest accepted UTF-8 length of a key. */
  const MaxCacheKeyBytes: nat := 250

  /** `GetCacheKeyString`: the member's `CacheKeyAttribute` key when it has one,
      otherwise `id.ToString()`; a value with no declared member is its own name.
      Reading an attribute runs its constructor, so a member declared with a null,
      empty or white-space key throws `ArgumentException` here. */
  function GetCacheKeyString(t: CacheIdType, id: Int32): (r: Result<string, Error>)
    ensures r.Failure? <==> t.DeclaresBlankKey(id)
    ensures r.Failure? ==> r.error.ArgumentException? && r.error.paramName == Some("key")
    ensures r.Success? ==> r.value == BaseString(t, id)
    ensures t.Valid() && r.Success? ==> !IsNullOrWhiteSpace(Some(r.value))
  {
    var memberName := EnumToString(t, id);
    if id !in t.members then Success(memberName)
    else if t.members[id].cacheKey.Some? then
      var attribute :- NewCacheKeyAttribute(t.members[id].cacheKey.value.argument);
      Success(attribute.Key)
    else Success(memberName)
  }

  /** The base string of a key: the declared `[CacheKey]` argument, otherwise the
      member name, otherwise the decimal value. Where the declared argument is blank
      `GetCacheKeyString` throws before this string is used. */
  function BaseString(t: CacheIdType, id: Int32): string {
    if id in t.members && t.members[id].cacheKey.Some? then
      var argument := t.members[id].cacheKey.value.argument;
      if argument.Some? then argument.value else ""
    else EnumToString(t, id)
  }

  /** The sub-key as written into the key: `Uri.EscapeDataString` of it when key
      encoding is enabled, the raw sub-key otherwise. */
  function ProcessedSubKey(enableKeyEncoding: bool, key: string): string {
    if enableKeyEncoding then EscapeDataString(key) else key
  }

  /** The local `cacheKey` of `CreateCacheKey`: the base string, followed by "_" and
      the processed sub-key when the sub-key is not null or white space. */
  function CacheKeySegment(options: DistributedCacheOptionsBase, t: CacheIdType, id: Int32, key: Option<string>): string {
    var cacheKey := BaseString(t, id);
    if !IsNullOrWhiteSpace(key) then cacheKey + "_" + ProcessedSubKey(options.EnableKeyEncoding, key.value)
    else cacheKey
  }

  /** The local `fullKey` of `CreateCacheKey` as it stands before the length check:
      the type name, the version, the segment, then the environment prefix in front. */
  function FullKey(options: DistributedCacheOptionsBase, t: CacheIdType, id: Int32, key: Option<string>): string {
    var fullKey := t.name;
    var fullKey := if options.Version.Some? then fullKey + ":v" + IntToString(options.Version.value) else fullKey;
    var fullKey := fullKey + ":" + CacheKeySegment(options, t, id, key);
    if !IsNullOrWhiteSpace(options.EnvironmentPrefix) then options.EnvironmentPrefix.value + ":" + fullKey
    else fullKey
  }

  /** The message of the `ArgumentException` for a key over the limit, made of three
      interpolated lines: the limit, the key with its byte count, and advice. */
  function LimitLine(limit: string): string {
    "Generated cache key exceeds maximum length of " + limit + " bytes. "
  }

  function CurrentLine(keyBytes: string, fullKey: string): string {
    "Current key is " + keyBytes + " bytes: '" + fullKey + "'. "
  }

  const AdviceLine := "Consider using a shorter optional key or shorter enum names."

  function KeyTooLongMessage(fullKey: string, keyBytes: nat): string {
    LimitLine(IntToString(MaxCacheKeyBytes)) + CurrentLine(IntToString(keyBytes), fullKey) + AdviceLine
  }

  /** `CreateCacheKey(id, key)`. A member declared with a blank `[CacheKey]` throws
      from `GetCacheKeyString` first. Otherwise, with length validation enabled, a
      key whose UTF-8 form is longer than 250 bytes is refused with an
      `ArgumentException` for parameter "key" that reports the byte count; without
      it, nothing else fails. */
  function CreateCacheKey(options: DistributedCacheOptionsBase, t: CacheIdType, id: Int32, key: Option<string>)
    : (r: Result<string, Error>)
    ensures t.DeclaresBlankKey(id) ==> r == Failure(GetCacheKeyString(t, id).error)
    ensures r.Success? <==>
      && !t.DeclaresBlankKey(id)
      && (!options.EnableKeyLengthValidation || ByteCount(FullKey(options, t, id, key)) <= MaxCacheKeyBytes)
    ensures r.Success? ==> r.value == FullKey(options, t, id, key)
    ensures !t.DeclaresBlankKey(id) && r.Failure? ==> r.error == ArgumentException(
      KeyTooLongMessage(FullKey(options, t, id, key), ByteCount(FullKey(options, t, id, key))), Some("key"))
  {
    var cacheKey :- GetCacheKeyString(t, id);
    var fullKey := FullKey(options, t, id, key);
    if options.EnableKeyLengthValidation then
      var keyBytes := ByteCount(fullKey);
      if keyBytes > MaxCacheKeyBytes then
        Failure(ArgumentException(KeyTooLongMessage(fullKey, keyBytes), Some("key")))
      else
        Success(fullKey)
    else
      Success(fullKey)
  }

  /** Everything in front of the segment: `[prefix ":"] TypeName [":v" n] ":"`. */
  function KeyHead(options: DistributedCacheOptionsBase, typeName: string): string {
    PrefixPart(options) + typeName + VersionPart(options) + ":"
  }

  /** The environment prefix and its ":" when the prefix is not blank. */
  function PrefixPart(options: DistributedCacheOptionsBase): string {
    if !IsNullOrWhiteSpace(options.EnvironmentPrefix) then options.EnvironmentPrefix.value + ":" else ""
  }

  /** ":v" and the version number when a version is set. */
  function VersionPart(options: DistributedCacheOptionsBase): string {
    if options.Version.Some? then ":v" + IntToString(options.Version.value) else ""
  }

  // ---------------------------------------------------------------------------
  // Properties of the key builder

  /** The prefix goes around the whole type/version/segment key, and only the
      segment depends on the id and the sub-key. */
  lemma KeyLayout(options: DistributedCacheOptionsBase, t: CacheIdType, id: Int32, key: Option<string>)
    ensures FullKey(options, t, id, key) == KeyHead(options, t.name) + CacheKeySegment(options, t, id, key)
  {
    var segment := CacheKeySegment(options, t, id, key);
    var inner := t.name + VersionPart(options) + ":" + segment;
    FullKeyParts(options, t, id, key);
    ConcatAssoc(PrefixPart(options), t.name + VersionPart(options), ":", segment);
    ConcatAssoc(PrefixPart(options), t.name, VersionPart(options), ":");
  }

  lemma FullKeyParts(options: DistributedCacheOptionsBase, t: CacheIdType, id: Int32, key: Option<string>)
    ensures FullKey(options, t, id, key)
         == PrefixPart(options) + (t.name + VersionPart(options) + ":" + CacheKeySegment(options, t, id, key))
  {
    var segment := CacheKeySegment(options, t, id, key);
    var versioned := if options.Version.Some? then t.name + ":v" + IntToString(options.Version.value) else t.name;
    VersionedName(options, t.name);
    PrefixAround(options, versioned + ":" + segment);
  }

  /** The environment prefix step of `CreateCacheKey` puts `PrefixPart` in front. */
  lemma PrefixAround(options: DistributedCacheOptionsBase, inner: string)
    ensures (if !IsNullOrWhiteSpace(options.EnvironmentPrefix) then options.EnvironmentPrefix.value + ":" + inner else inner)
         == PrefixPart(options) + inner
  {
    if IsNullOrWhiteSpace(options.EnvironmentPrefix) {
      assert [] + inner == inner;
    }
  }

  lemma VersionedName(options: DistributedCacheOptionsBase, name: string)
    ensures (if options.Version.Some? then name + ":v" + IntToString(options.Version.value) else name)
         == name + VersionPart(options)
  {
    if options.Version.None? {
      assert name + [] == name;
    }
  }

  /** The base segment: the override key verbatim when the member declares a valid
      one, an exception when it declares a blank one, the member name when it has
      none, and the numeric value when no member is declared. */
  lemma BaseSegmentChoice(t: CacheIdType, id: Int32)
    ensures id in t.members && t.members[id].cacheKey.Some? && !IsNullOrWhiteSpace(t.members[id].cacheKey.value.argument) ==>
      GetCacheKeyString(t, id) == Success(t.members[id].cacheKey.value.argument.value)
    ensures id in t.members && t.members[id].cacheKey.Some? && IsNullOrWhiteSpace(t.members[id].cacheKey.value.argument) ==>
      GetCacheKeyString(t, id).Failure?
    ensures id in t.members && t.members[id].cacheKey.None? ==>
      GetCacheKeyString(t, id) == Success(t.members[id].name)
    ensures id !in t.members ==> GetCacheKeyString(t, id) == Success(IntToString(id))
  {
  }

  /** A member with a `CacheKeyAttribute` can be renamed without changing any of its
      keys; a member without one changes its keys with its name. */
  lemma RenamingMember(options: DistributedCacheOptionsBase, t: CacheIdType, id: Int32, key: Option<string>, newName: string)
    requires id in t.members
    ensures var renamed := t.(members := t.members[id := t.members[id].(name := newName)]);
      && (t.members[id].cacheKey.Some? ==> FullKey(options, renamed, id, key) == FullKey(options, t, id, key))
      && (t.members[id].cacheKey.None? && newName != t.members[id].name ==>
            FullKey(options, renamed, id, key) != FullKey(options, t, id, key))
  {
    var renamed := t.(members := t.members[id := t.members[id].(name := newName)]);
    var head := KeyHead(options, t.name);
    var tail := if !IsNullOrWhiteSpace(key) then "_" + ProcessedSubKey(options.EnableKeyEncoding, key.value) else "";
    SegmentSplit(options, t, id, key);
    SegmentSplit(options, renamed, id, key);
    KeyLayout(options, t, id, key);
    KeyLayout(options, renamed, id, key);
    assert renamed.members[id].cacheKey == t.members[id].cacheKey;
    if t.members[id].cacheKey.Some? {
      assert BaseString(renamed, id) == BaseString(t, id);
    } else if newName != t.members[id].name {
      assert BaseString(t, id) == t.members[id].name;
      assert BaseString(renamed, id) == newName;
      assert FullKey(options, t, id, key) == head + t.members[id].name + tail;
      assert FullKey(options, renamed, id, key) == head + newName + tail;
      if FullKey(options, renamed, id, key) == FullKey(options, t, id, key) {
        CancelAround(head, newName, t.members[id].name, tail);
      }
    }
  }

  /** The segment is the base string followed by the optional "_" part. */
  lemma SegmentSplit(options: DistributedCacheOptionsBase, t: CacheIdType, id: Int32, key: Option<string>)
    ensures CacheKeySegment(options, t, id, key) == BaseString(t, id)
      + (if !IsNullOrWhiteSpace(key) then "_" + ProcessedSubKey(options.EnableKeyEncoding, key.value) else "")
  {
    if IsNullOrWhiteSpace(key) {
      assert BaseString(t, id) + "" == BaseString(t, id);
    }
  }

  /** With a non-blank sub-key, the key is the head, the base string and "_",
      followed by the processed sub-key. */
  lemma SubKeyLayout(options: DistributedCacheOptionsBase, t: CacheIdType, id: Int32, key: string)
    requires !IsNullOrWhiteSpace(Some(key))
    ensures FullKey(options, t, id, Some(key))
         == (KeyHead(options, t.name) + BaseString(t, id) + "_") + ProcessedSubKey(options.EnableKeyEncoding, key)
  {
    KeyLayout(options, t, id, Some(key));
    SegmentSplit(options, t, id, Some(key));
    var head := KeyHead(options, t.name);
    var base := BaseString(t, id);
    var sub := ProcessedSubKey(options.EnableKeyEncoding, key);
    ConcatAssoc(head, base, "_", sub);
  }

  /** A null, empty or white-space sub-key is ignored: the key is the one built
      without a sub-key. */
  lemma BlankSubKeyIgnored(options: DistributedCacheOptionsBase, t: CacheIdType, id: Int32, key: Option<string>)
    requires IsNullOrWhiteSpace(key)
    ensures CreateCacheKey(options, t, id, key) == CreateCacheKey(options, t, id, None)
  {
  }

  /** A key built with a non-blank sub-key is the key built without one, followed by
      "_" and the processed sub-key; so the two never coincide. */
  lemma SubKeyExtendsPlainKey(options: DistributedCacheOptionsBase, t: CacheIdType, id: Int32, key: string)
    requires !IsNullOrWhiteSpace(Some(key))
    ensures FullKey(options, t, id, Some(key))
         == FullKey(options, t, id, None) + "_" + ProcessedSubKey(options.EnableKeyEncoding, key)
    ensures FullKey(options, t, id, Some(key)) != FullKey(options, t, id, None)
  {
    SubKeyLayout(options, t, id, key);
    KeyLayout(options, t, id, None);
    SegmentSplit(options, t, id, None);
    var head := KeyHead(options, t.name);
    var base := BaseString(t, id);
    var sub := ProcessedSubKey(options.EnableKeyEncoding, key);
    assert FullKey(options, t, id, None) == head + base;
    assert |FullKey(options, t, id, Some(key))| > |FullKey(options, t, id, None)|;
  }

  /** A non-blank sub-key adds exactly one byte for the "_" and the UTF-8 length of
      the processed sub-key to the key of the id alone. */
  lemma SubKeyByteCount(options: DistributedCacheOptionsBase, t: CacheIdType, id: Int32, key: string)
    requires !IsNullOrWhiteSpace(Some(key))
    ensures ByteCount(FullKey(options, t, id, Some(key)))
         == ByteCount(FullKey(options, t, id, None)) + 1 + ByteCount(ProcessedSubKey(options.EnableKeyEncoding, key))
  {
    var plain := FullKey(options, t, id, None);
    var sub := ProcessedSubKey(options.EnableKeyEncoding, key);
    SubKeyExtendsPlainKey(options, t, id, key);
    ByteCountAppend(plain, "_");
    ByteCountAppend(plain + "_", sub);
    assert ByteCount("_") == 1;
  }

  /** Encoding acts on the sub-key alone: with encoding on, the key is the key that
      encoding off would build from the escaped sub-key, so the prefix, type name,
      version and base segment are never encoded. */
  lemma EncodingOnlyTouchesSubKey(options: DistributedCacheOptionsBase, t: CacheIdType, id: Int32, key: string)
    requires options.EnableKeyEncoding && !IsNullOrWhiteSpace(Some(key))
    ensures !IsNullOrWhiteSpace(Some(EscapeDataString(key)))
    ensures FullKey(options, t, id, Some(key))
         == FullKey(options.(EnableKeyEncoding := false), t, id, Some(EscapeDataString(key)))
    ensures FullKey(options, t, id, Some(key))
         == KeyHead(options, t.name) + BaseString(t, id) + "_" + EscapeDataString(key)
  {
    var e := EscapeDataString(key);
    var plain := options.(EnableKeyEncoding := false);
    EscapedNotBlank(key);
    SubKeyLayout(options, t, id, key);
    SubKeyLayout(plain, t, id, e);
    assert KeyHead(plain, t.name) == KeyHead(options, t.name);
  }

  /** The escaped form of a non-blank sub-key is not blank either. */
  lemma EscapedNotBlank(key: string)
    requires !IsNullOrWhiteSpace(Some(key))
    ensures !IsNullOrWhiteSpace(Some(EscapeDataString(key)))
  {
    var e := EscapeDataString(key);
    assert |key| > 0;
    assert |e| > 0 && !IsWhiteSpace(e[0]);
  }

  /** The encoded sub-key at the end of a key is made of unreserved characters and
      "%HH" triples (so it holds no ':'), and decoding it gives the sub-key back. */
  lemma EncodedSubKeyRecoverable(options: DistributedCacheOptionsBase, t: CacheIdType, id: Int32, key: string)
    requires options.EnableKeyEncoding && !IsNullOrWhiteSpace(Some(key))
    ensures var k := FullKey(options, t, id, Some(key));
      var start := |KeyHead(options, t.name)| + |BaseString(t, id)| + 1;
      && start <= |k|
      && IsEscaped(k[start..])
      && ':' !in k[start..]
      && Unescape(k[start..]) == Some(key)
  {
    EncodingOnlyTouchesSubKey(options, t, id, key);
    EscapedSuffix(KeyHead(options, t.name) + BaseString(t, id) + "_", key);
  }

  lemma EscapedSuffix(prefix: string, key: string)
    ensures var k := prefix + EscapeDataString(key);
      && IsEscaped(k[|prefix|..])
      && ':' !in k[|prefix|..]
      && Unescape(k[|prefix|..]) == Some(key)
  {
    var e := EscapeDataString(key);
    assert (prefix + e)[|prefix|..] == e;
    EscapeIsWellFormed(key);
    UnescapeEscape(key);
  }

  /** Two different non-blank sub-keys under the same id and options never share a
      key, with encoding on or off. */
  lemma SubKeysDoNotCollide(options: DistributedCacheOptionsBase, t: CacheIdType, id: Int32, key1: string, key2: string)
    requires !IsNullOrWhiteSpace(Some(key1)) && !IsNullOrWhiteSpace(Some(key2))
    requires key1 != key2
    ensures FullKey(options, t, id, Some(key1)) != FullKey(options, t, id, Some(key2))
  {
    SubKeyLayout(options, t, id, key1);
    SubKeyLayout(options, t, id, key2);
    var prefix := KeyHead(options, t.name) + BaseString(t, id) + "_";
    var p1 := ProcessedSubKey(options.EnableKeyEncoding, key1);
    var p2 := ProcessedSubKey(options.EnableKeyEncoding, key2);
    if prefix + p1 == prefix + p2 {
      CancelAround(prefix, p1, p2, []);
      if options.EnableKeyEncoding {
        EscapeInjective(key1, key2);
      }
    }
  }

  /** Two options that differ only in the version number build different keys, so
      bumping the version isolates the old entries. */
  lemma VersionsIsolate(options: DistributedCacheOptionsBase, t: CacheIdType, id: Int32, key: Option<string>, v1: Int32, v2: Int32)
    requires v1 != v2
    ensures FullKey(options.(Version := Some(v1)), t, id, key) != FullKey(options.(Version := Some(v2)), t, id, key)
  {
    var front := PrefixPart(options) + t.name + ":v";
    var rest := ":" + CacheKeySegment(options, t, id, key);
    var s1 := IntToString(v1);
    var s2 := IntToString(v2);
    VersionedKey(options, t, id, key, v1);
    VersionedKey(options, t, id, key, v2);
    if FullKey(options.(Version := Some(v1)), t, id, key) == FullKey(options.(Version := Some(v2)), t, id, key) {
      CancelAround(front, s1, s2, rest);
      IntToStringInjective(v1, v2);
    }
  }

  /** With a version, the key is the part in front of the number, the number, and
      ":" with the segment, which does not depend on the version. */
  lemma VersionedKey(options: DistributedCacheOptionsBase, t: CacheIdType, id: Int32, key: Option<string>, v: Int32)
    ensures FullKey(options.(Version := Some(v)), t, id, key)
         == (PrefixPart(options) + t.name + ":v") + IntToString(v) + (":" + CacheKeySegment(options, t, id, key))
  {
    var o := options.(Version := Some(v));
    var segment := CacheKeySegment(options, t, id, key);
    assert CacheKeySegment(o, t, id, key) == segment;
    assert PrefixPart(o) == PrefixPart(options);
    assert VersionPart(o) == ":v" + IntToString(v);
    FullKeyParts(o, t, id, key);
    VersionRegroup(PrefixPart(options), t.name, IntToString(v), segment);
  }

  lemma VersionRegroup(p: string, name: string, number: string, segment: string)
    ensures p + (name + (":v" + number) + ":" + segment) == (p + name + ":v") + number + (":" + segment)
  {
  }

  /** With validation on, a non-blank sub-key of more than 250 characters is always
      refused, whatever the encoding, since neither escaping nor UTF-8 shortens text. */
  lemma LongSubKeyRejected(options: DistributedCacheOptionsBase, t: CacheIdType, id: Int32, key: string)
    requires options.EnableKeyLengthValidation
    requires !IsNullOrWhiteSpace(Some(key)) && |key| > MaxCacheKeyBytes
    ensures CreateCacheKey(options, t, id, Some(key)).Failure?
  {
    KeyLayout(options, t, id, Some(key));
    var k := FullKey(options, t, id, Some(key));
    assert |k| >= |ProcessedSubKey(options.EnableKeyEncoding, key)| >= |key|;
  }

  ghost predicate OccursAt(s: string, part: string, i: int) {
    0 <= i <= |s| - |part| && s[i..i + |part|] == part
  }

  ghost predicate Contains(s: string, part: string) {
    exists i :: OccursAt(s, part, i)
  }

  lemma OccursBetween(front: string, part: string, back: string)
    ensures OccursAt(front + part + back, part, |front|)
  {
    assert (front + part + back)[|front|..|front| + |part|] == part;
  }

  lemma ContainsLeft(s: string, t: string, part: string)
    requires Contains(s, part)
    ensures Contains(s + t, part)
  {
    var i :| OccursAt(s, part, i);
    assert (s + t)[i..i + |part|] == s[i..i + |part|];
    assert OccursAt(s + t, part, i);
  }

  lemma ContainsRight(s: string, t: string, part: string)
    requires Contains(t, part)
    ensures Contains(s + t, part)
  {
    var i :| OccursAt(t, part, i);
    assert (s + t)[|s| + i..|s| + i + |part|] == t[i..i + |part|];
    assert OccursAt(s + t, part, |s| + i);
  }

  lemma LimitLineReports(limit: string)
    ensures Contains(LimitLine(limit), "exceeds maximum length")
    ensures Contains(LimitLine(limit), limit + " bytes")
  {
    var lead := "Generated cache key exceeds maximum length of ";
    assert lead == "Generated cache key " + "exceeds maximum length" + " of ";
    assert LimitLine(limit) == "Generated cache key " + "exceeds maximum length" + (" of " + limit + " bytes. ");
    OccursBetween("Generated cache key ", "exceeds maximum length", " of " + limit + " bytes. ");
    assert " bytes. " == " bytes" + ". ";
    assert LimitLine(limit) == lead + (limit + " bytes") + ". ";
    OccursBetween(lead, limit + " bytes", ". ");
  }

  lemma CurrentLineReports(keyBytes: string, fullKey: string)
    ensures Contains(CurrentLine(keyBytes, fullKey), keyBytes + " bytes")
    ensures Contains(CurrentLine(keyBytes, fullKey), fullKey)
  {
    assert " bytes: '" == " bytes" + ": '";
    assert CurrentLine(keyBytes, fullKey) == "Current key is " + (keyBytes + " bytes") + (": '" + fullKey + "'. ");
    OccursBetween("Current key is ", keyBytes + " bytes", ": '" + fullKey + "'. ");
    assert CurrentLine(keyBytes, fullKey) == ("Current key is " + keyBytes + " bytes: '") + fullKey + "'. ";
    OccursBetween("Current key is " + keyBytes + " bytes: '", fullKey, "'. ");
  }

  /** The limit is written "250" in the message. */
  lemma LimitText()
    ensures IntToString(MaxCacheKeyBytes) == "250"
  {
    assert NatToString(2) == "2";
    assert NatToString(25) == "2" + "5";
    assert NatToString(250) == "25" + "0";
  }

  /** The refusal message names the limit of 250 bytes, the key's byte count and the key. */
  lemma KeyTooLongMessageReports(fullKey: string, keyBytes: nat)
    ensures var m := KeyTooLongMessage(fullKey, keyBytes);
      && Contains(m, "exceeds maximum length")
      && Contains(m, "250 bytes")
      && Contains(m, IntToString(keyBytes) + " bytes")
      && Contains(m, fullKey)
  {
    LimitText();
    var first := LimitLine("250");
    var second := CurrentLine(IntToString(keyBytes), fullKey);
    LimitLineReports("250");
    assert "250" + " bytes" == "250 bytes";
    CurrentLineReports(IntToString(keyBytes), fullKey);
    ContainsLeft(first, second, "exceeds maximum length");
    ContainsLeft(first, second, "250 bytes");
    ContainsRight(first, second, IntToString(keyBytes) + " bytes");
    ContainsRight(first, second, fullKey);
    ContainsLeft(first + second, AdviceLine, "exceeds maximum length");
    ContainsLeft(first + second, AdviceLine, "250 bytes");
    ContainsLeft(first + second, AdviceLine, IntToString(keyBytes) + " bytes");
    ContainsLeft(first + second, AdviceLine, fullKey);
  }
}
