/** The cache-id enum type as a static table. The source finds member names and
    `CacheKeyAttribute`s by reflection; here each enum type is given as its name
    and a map from underlying values to declared members. */
module CacheIds {
  import opened Wrappers
  import opened Text
  import opened CacheKeyAttributes

  /** A declared enum member: its identifier and its optional `[CacheKey]` attribute,
      as declared (its argument not yet validated). */
  datatype CacheIdMember = CacheIdMember(name: string, cacheKey: Option<CacheKeyDeclaration>)

  /** `typeof(TCacheId)`: the type's simple name and its declared members by value. */
  datatype CacheIdType = CacheIdType(name: string, members: map<Int32, CacheIdMember>) {
    /** Member names are C# identifiers, so never blank. */
    predicate Valid() {
      forall id | id in members :: !IsNullOrWhiteSpace(Some(members[id].name))
    }

    /** The member for `id` carries a `[CacheKey]` whose argument is null, empty or
        white space, so reading that attribute throws. */
    predicate DeclaresBlankKey(id: Int32) {
      id in members && members[id].cacheKey.Some? && IsNullOrWhiteSpace(members[id].cacheKey.value.argument)
    }
  }

  /** `Enum.ToString()` of a single value: the member's name, or the decimal value
      when no member is declared for it. */
  function EnumToString(t: CacheIdType, id: Int32): (r: string)
    ensures t.Valid() ==> !IsNullOrWhiteSpace(Some(r))
  {
    if id in t.members then t.members[id].name
    else
      var digits := IntToString(id);
      assert !IsWhiteSpace(digits[0]);
      digits
  }
}
