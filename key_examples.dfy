/** Keys of the enum types used in the repository's tests and documentation,
    worked out exactly. `TestCacheId` has `Foobar = 0` and `NonRefreshedFoobar = 1`;
    `MyCacheId` has `UserProfile = 0`. */
module KeyExamples {
  import opened Wrappers
  import opened Exceptions
  import opened Utf8
  import opened PercentEncoding
  import opened CacheIds
  import opened DistributedCacheOptions
  import opened DistributedCacheKeys
  import MemoryCacheDispatch

  const TestCacheId := CacheIdType("TestCacheId", map[0 := CacheIdMember("Foobar", None), 1 := CacheIdMember("NonRefreshedFoobar", None)])
  const MyCacheId := CacheIdType("MyCacheId", map[0 := CacheIdMember("UserProfile", None)])

  /** `new string(c, n)`. */
  function Repeat(c: char, n: nat): (r: string)
    ensures |r| == n
    ensures forall i | 0 <= i < n :: r[i] == c
  {
    if n == 0 then [] else [c] + Repeat(c, n - 1)
  }

  lemma {:induction false} RepeatByteCount(c: char, n: nat)
    ensures ByteCount(Repeat(c, n)) == n * CharByteCount(c)
  {
    if n > 0 {
      var s := Repeat(c, n);
      var k := CharByteCount(c);
      assert s[0] == c && s[1..] == Repeat(c, n - 1);
      RepeatByteCount(c, n - 1);
      MulStep(n, k);
    }
  }

  lemma MulStep(n: nat, k: int)
    requires n > 0
    ensures n * k == k + (n - 1) * k
  {
  }

  lemma {:induction false} EscapeRepeatLength(c: char, n: nat)
    ensures |EscapeDataString(Repeat(c, n))| == n * |EscapeChar(c)|
  {
    if n > 0 {
      var s := Repeat(c, n);
      var e := EscapeChar(c);
      var k := |e|;
      assert s[0] == c && s[1..] == Repeat(c, n - 1);
      assert EscapeDataString(s) == e + EscapeDataString(Repeat(c, n - 1));
      EscapeRepeatLength(c, n - 1);
      MulStep(n, k);
    }
  }

  /** 7-bit text takes one byte per character. */
  lemma AsciiBytes(s: string)
    requires forall i | 0 <= i < |s| :: s[i] as int < 0x80
    ensures ByteCount(s) == |s|
  {
    ByteCountIsLengthIffAscii(s);
  }

  /** A key of at most 250 bytes for a member without a blank `[CacheKey]` is
      accepted as built. */
  lemma AcceptedKey(options: DistributedCacheOptionsBase, t: CacheIdType, id: Text.Int32, key: Option<string>, k: string)
    requires !t.DeclaresBlankKey(id)
    requires FullKey(options, t, id, key) == k && ByteCount(k) <= MaxCacheKeyBytes
    ensures CreateCacheKey(options, t, id, key) == Success(k)
  {
  }

  /** With the default options the key of `Foobar` alone is "TestCacheId:Foobar". */
  lemma DefaultKeyExample()
    ensures CreateCacheKey(Defaults(), TestCacheId, 0, None) == Success("TestCacheId:Foobar")
  {
    DefaultFullKey();
    FoobarBytes();
    FoobarHasNoKeyAttribute();
    AcceptedKey(Defaults(), TestCacheId, 0, None, "TestCacheId:Foobar");
  }

  lemma FoobarHasNoKeyAttribute()
    ensures !TestCacheId.DeclaresBlankKey(0)
  {
  }

  lemma DefaultFullKey()
    ensures FullKey(Defaults(), TestCacheId, 0, None) == "TestCacheId:Foobar"
  {
    assert BaseString(TestCacheId, 0) == "Foobar";
    KeyLayout(Defaults(), TestCacheId, 0, None);
    assert KeyHead(Defaults(), "TestCacheId") == "TestCacheId" + ":";
    assert "TestCacheId" + ":" + "Foobar" == "TestCacheId:Foobar";
  }

  lemma FoobarBytes()
    ensures ByteCount("TestCacheId:Foobar") == 18
  {
    AsciiBytes("TestCacheId:Foobar");
  }

  /** With `Version = 2` the key of `UserProfile` is "MyCacheId:v2:UserProfile". */
  lemma VersionedKeyExample()
    ensures CreateCacheKey(Defaults().(Version := Some(2)), MyCacheId, 0, None) == Success("MyCacheId:v2:UserProfile")
  {
    VersionedFullKey();
    VersionedKeyBytes();
    UserProfileHasNoKeyAttribute();
    AcceptedKey(Defaults().(Version := Some(2)), MyCacheId, 0, None, "MyCacheId:v2:UserProfile");
  }

  lemma VersionedFullKey()
    ensures FullKey(Defaults().(Version := Some(2)), MyCacheId, 0, None) == "MyCacheId:v2:UserProfile"
  {
    VersionedKey(Defaults(), MyCacheId, 0, None, 2);
    assert PrefixPart(Defaults()) == [];
    VersionTwoText();
    UserProfileSegment();
    VersionedLiteral();
  }

  lemma VersionedLiteral()
    ensures [] + "MyCacheId" + ":v" + "2" + (":" + "UserProfile") == "MyCacheId:v2:UserProfile"
  {
    assert [] + "MyCacheId" + ":v" == "MyCacheId:v";
    assert "MyCacheId:v" + "2" == "MyCacheId:v2";
  }

  lemma UserProfileHasNoKeyAttribute()
    ensures !MyCacheId.DeclaresBlankKey(0)
  {
  }

  lemma VersionTwoText()
    ensures Text.IntToString(2) == "2"
  {
  }

  lemma UserProfileSegment()
    ensures CacheKeySegment(Defaults(), MyCacheId, 0, None) == "UserProfile"
  {
    assert BaseString(MyCacheId, 0) == "UserProfile";
  }

  lemma VersionedKeyBytes()
    ensures ByteCount("MyCacheId:v2:UserProfile") == 24
  {
    AsciiBytes("MyCacheId:v2:UserProfile");
  }

  /** With `EnvironmentPrefix = "staging"` the key is "staging:MyCacheId:UserProfile". */
  lemma PrefixedKeyExample()
    ensures CreateCacheKey(Defaults().(EnvironmentPrefix := Some("staging")), MyCacheId, 0, None)
         == Success("staging:MyCacheId:UserProfile")
  {
    PrefixedFullKey();
    StagingKeyBytes();
    UserProfileHasNoKeyAttribute();
    AcceptedKey(Defaults().(EnvironmentPrefix := Some("staging")), MyCacheId, 0, None, "staging:MyCacheId:UserProfile");
  }

  lemma PrefixedFullKey()
    ensures FullKey(Defaults().(EnvironmentPrefix := Some("staging")), MyCacheId, 0, None) == "staging:MyCacheId:UserProfile"
  {
    var options := Defaults().(EnvironmentPrefix := Some("staging"));
    assert BaseString(MyCacheId, 0) == "UserProfile";
    KeyLayout(options, MyCacheId, 0, None);
    assert !Text.IsWhiteSpace('s');
    assert KeyHead(options, "MyCacheId") == "staging" + ":" + "MyCacheId" + ":";
    assert "staging" + ":" + "MyCacheId" + ":" == "staging:MyCacheId:";
    assert "staging:MyCacheId:" + "UserProfile" == "staging:MyCacheId:UserProfile";
    assert CacheKeySegment(options, MyCacheId, 0, None) == "UserProfile";
  }

  lemma StagingKeyBytes()
    ensures ByteCount("staging:MyCacheId:UserProfile") == 29
  {
    AsciiBytes("staging:MyCacheId:UserProfile");
  }

  /** With the default options, the key of `Foobar` with a non-blank sub-key takes
      19 bytes more than the escaped sub-key. */
  lemma FoobarKeyBytes(key: string)
    requires !Text.IsNullOrWhiteSpace(Some(key))
    ensures ByteCount(FullKey(Defaults(), TestCacheId, 0, Some(key))) == 19 + ByteCount(EscapeDataString(key))
  {
    DefaultKeyExample();
    assert FullKey(Defaults(), TestCacheId, 0, None) == "TestCacheId:Foobar";
    FoobarBytes();
    SubKeyByteCount(Defaults(), TestCacheId, 0, key);
  }

  /** A run of n > 0 copies of a character that is not white space is not blank. */
  lemma RepeatNotBlank(c: char, n: nat)
    requires n > 0 && !Text.IsWhiteSpace(c)
    ensures !Text.IsNullOrWhiteSpace(Some(Repeat(c, n)))
  {
    assert Repeat(c, n)[0] == c;
  }

  /** With the default options, a sub-key of n > 0 copies of one unreserved character
      is written as is, so the key of `Foobar` takes 19 + n bytes, and it is accepted
      exactly when n <= 231: 231 gives exactly 250 bytes, and the 180 'a' of the
      tests are accepted. */
  lemma UnreservedRunLimit(c: char, n: nat)
    requires n > 0 && IsUnreserved(c)
    ensures ByteCount(FullKey(Defaults(), TestCacheId, 0, Some(Repeat(c, n)))) == 19 + n
    ensures CreateCacheKey(Defaults(), TestCacheId, 0, Some(Repeat(c, n))).Success? <==> n <= 231
  {
    var s := Repeat(c, n);
    assert AllUnreserved(s);
    EscapeIdentityIffUnreserved(s);
    RepeatNotBlank(c, n);
    FoobarKeyBytes(s);
    RepeatByteCount(c, n);
    assert CharByteCount(c) == 1;
    FoobarHasNoKeyAttribute();
  }

  /** A sub-key of more than 231 copies of an unreserved character (the tests use
      300 'x') is refused with an `ArgumentException` for "key" whose message says
      the key exceeds the maximum length of 250 bytes and gives its byte count. */
  lemma LongUnreservedRunReported(c: char, n: nat)
    requires n > 231 && IsUnreserved(c)
    ensures var r := CreateCacheKey(Defaults(), TestCacheId, 0, Some(Repeat(c, n)));
      && r.Failure? && r.error.ArgumentException? && r.error.paramName == Some("key")
      && Contains(r.error.message, "exceeds maximum length")
      && Contains(r.error.message, "250 bytes")
      && Contains(r.error.message, Text.IntToString(19 + n) + " bytes")
  {
    var k := FullKey(Defaults(), TestCacheId, 0, Some(Repeat(c, n)));
    UnreservedRunLimit(c, n);
    KeyTooLongMessageReports(k, ByteCount(k));
  }

  /** U+4E2D takes three bytes in UTF-8 and escapes to the nine characters
      "%E4%B8%AD", so a sub-key of n copies gives a key of 19 + 9n bytes, which is
      refused exactly when n >= 26; the tests' 100 copies take 300 bytes even
      before escaping. */
  lemma MultiByteRunLimit(n: nat)
    requires n > 0
    ensures ByteCount(Repeat('\U{4E2D}', n)) == 3 * n
    ensures ByteCount(FullKey(Defaults(), TestCacheId, 0, Some(Repeat('\U{4E2D}', n)))) == 19 + 9 * n
    ensures CreateCacheKey(Defaults(), TestCacheId, 0, Some(Repeat('\U{4E2D}', n))).Failure? <==> n >= 26
  {
    CjkEscape();
    RepeatByteCount('\U{4E2D}', n);
    EscapedRunBytes('\U{4E2D}', n);
    FoobarHasNoKeyAttribute();
  }

  /** With the default options, a sub-key of n > 0 copies of a character that is
      not white space gives a key of 19 bytes plus n times the escaped character. */
  lemma EscapedRunBytes(c: char, n: nat)
    requires n > 0 && !Text.IsWhiteSpace(c)
    ensures ByteCount(FullKey(Defaults(), TestCacheId, 0, Some(Repeat(c, n)))) == 19 + n * |EscapeChar(c)|
  {
    var s := Repeat(c, n);
    EscapeRepeatLength(c, n);
    EscapedByteCount(s);
    RepeatNotBlank(c, n);
    FoobarKeyBytes(s);
  }

  lemma CjkEscape()
    ensures CharByteCount('\U{4E2D}') == 3
    ensures |EscapeChar('\U{4E2D}')| == 9
    ensures !Text.IsWhiteSpace('\U{4E2D}')
  {
  }

  /** The memory key of `Foobar` with sub-key "123" is "TestCacheId:Foobar_123". */
  lemma MemoryKeyExample()
    ensures MemoryCacheDispatch.CreateCacheKey(TestCacheId, 0, Some("123")) == "TestCacheId:Foobar_123"
  {
    assert !Text.IsNullOrWhiteSpace(Some("123")) by {
      assert !Text.IsWhiteSpace('1');
    }
    FoobarMemoryKey("123");
    assert "TestCacheId:Foobar_" + "123" == "TestCacheId:Foobar_123";
  }

  lemma FoobarMemoryKey(key: string)
    requires !Text.IsNullOrWhiteSpace(Some(key))
    ensures MemoryCacheDispatch.CreateCacheKey(TestCacheId, 0, Some(key)) == "TestCacheId:Foobar_" + key
  {
    assert EnumToString(TestCacheId, 0) == "Foobar";
    MemoryCacheDispatch.MemoryKeyLayout(TestCacheId, 0, Some(key));
    assert "TestCacheId" + ":" + "Foobar" + "_" == "TestCacheId:Foobar_";
  }

  /** The memory key builder has no limit: a sub-key of n visible characters gives
      a key of 19 + n characters, however large n is (the tests use 500). */
  lemma MemoryRunLength(c: char, n: nat)
    requires n > 0 && !Text.IsWhiteSpace(c)
    ensures |MemoryCacheDispatch.CreateCacheKey(TestCacheId, 0, Some(Repeat(c, n)))| == 19 + n
  {
    RepeatNotBlank(c, n);
    MemoryCacheDispatch.MemoryKeyLayout(TestCacheId, 0, Some(Repeat(c, n)));
    assert EnumToString(TestCacheId, 0) == "Foobar";
  }

  /** An enum with members `User` and `User_1`. */
  const CollidingIds := CacheIdType("E", map[0 := CacheIdMember("User", None), 1 := CacheIdMember("User_1", None)])

  /** Keys are unique per id, not across ids: `User` with sub-key "1" and `User_1`
      without one build the same distributed key, since escaping keeps '_' and
      digits. */
  lemma DistinctIdsCanShareKey()
    ensures FullKey(Defaults(), CollidingIds, 0, Some("1")) == FullKey(Defaults(), CollidingIds, 1, None)
    ensures FullKey(Defaults(), CollidingIds, 0, Some("1")) == "E:User_1"
  {
    assert !Text.IsWhiteSpace('1');
    assert EscapeDataString("1") == "1";
    assert BaseString(CollidingIds, 0) == "User";
    assert BaseString(CollidingIds, 1) == "User_1";
    SubKeyLayout(Defaults(), CollidingIds, 0, "1");
    KeyLayout(Defaults(), CollidingIds, 1, None);
    SegmentSplit(Defaults(), CollidingIds, 1, None);
    assert KeyHead(Defaults(), "E") == "E:";
  }

  /** The same holds for the memory key builder. */
  lemma MemoryDistinctIdsCanShareKey()
    ensures MemoryCacheDispatch.CreateCacheKey(CollidingIds, 0, Some("1")) == MemoryCacheDispatch.CreateCacheKey(CollidingIds, 1, None)
  {
    assert !Text.IsWhiteSpace('1');
    assert EnumToString(CollidingIds, 0) == "User";
    assert EnumToString(CollidingIds, 1) == "User_1";
    MemoryCacheDispatch.MemoryKeyLayout(CollidingIds, 0, Some("1"));
    MemoryCacheDispatch.MemoryKeyLayout(CollidingIds, 1, None);
    assert "E" + ":" + "User" + "_" + "1" == "E" + ":" + "User_1";
  }
}
