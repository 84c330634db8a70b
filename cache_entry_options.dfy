/** `CacheEntryOptions`: the expiration settings of one cache entry. Durations
    (`TimeSpan`) and points in time (`DateTimeOffset`) are counted in ticks. */
module EntryOptions {
  import opened Wrappers
  import opened Exceptions

  type Ticks = int

  /** The lifted comparison `value <= TimeSpan.Zero`: false for null, so null
      passes the setters' guard. */
  predicate RejectedDuration(value: Option<Ticks>) {
    value.Some? && value.value <= 0
  }

  class CacheEntryOptions {
    /** `AbsoluteExpiration`, an auto-property with no check. */
    var absoluteExpiration: Option<Ticks>
    /** The field behind `AbsoluteExpirationRelativeToNow`. */
    var absoluteExpirationRelativeToNow: Option<Ticks>
    /** The field behind `SlidingExpiration`. */
    var slidingExpiration: Option<Ticks>

    /** The guarded durations are null or positive: the setters let no other value in. */
    ghost predicate Valid()
      reads this
    {
      !RejectedDuration(absoluteExpirationRelativeToNow) && !RejectedDuration(slidingExpiration)
    }

    predicate IsEmpty()
      reads this
    {
      absoluteExpiration.None? && absoluteExpirationRelativeToNow.None? && slidingExpiration.None?
    }

    /** `new CacheEntryOptions()`: no expiration of any kind. */
    constructor ()
      ensures Valid() && IsEmpty()
    {
      absoluteExpiration := None;
      absoluteExpirationRelativeToNow := None;
      slidingExpiration := None;
    }

    /** The `AbsoluteExpiration` setter: any value, past ones included, is stored. */
    method SetAbsoluteExpiration(value: Option<Ticks>)
      requires Valid()
      modifies this
      ensures Valid()
      ensures absoluteExpiration == value
      ensures absoluteExpirationRelativeToNow == old(absoluteExpirationRelativeToNow)
      ensures slidingExpiration == old(slidingExpiration)
    {
      absoluteExpiration := value;
    }

    /** The `AbsoluteExpirationRelativeToNow` setter: a duration of zero or less
        throws and leaves the object as it was; null or a positive duration is stored. */
    method SetAbsoluteExpirationRelativeToNow(value: Option<Ticks>) returns (r: Outcome<Error>)
      requires Valid()
      modifies this
      ensures Valid()
      ensures r.Fail? <==> RejectedDuration(value)
      ensures r.Fail? ==> r.error == ArgumentException("The relative expiration value must be positive.", None)
      ensures absoluteExpirationRelativeToNow == if r.Fail? then old(absoluteExpirationRelativeToNow) else value
      ensures absoluteExpiration == old(absoluteExpiration)
      ensures slidingExpiration == old(slidingExpiration)
    {
      if RejectedDuration(value) {
        return Fail(ArgumentException("The relative expiration value must be positive.", None));
      }
      absoluteExpirationRelativeToNow := value;
      r := Pass;
    }

    /** The `SlidingExpiration` setter, guarded like the relative expiration. */
    method SetSlidingExpiration(value: Option<Ticks>) returns (r: Outcome<Error>)
      requires Valid()
      modifies this
      ensures Valid()
      ensures r.Fail? <==> RejectedDuration(value)
      ensures r.Fail? ==> r.error == ArgumentException("The sliding expiration value must be positive.", None)
      ensures slidingExpiration == if r.Fail? then old(slidingExpiration) else value
      ensures absoluteExpiration == old(absoluteExpiration)
      ensures absoluteExpirationRelativeToNow == old(absoluteExpirationRelativeToNow)
    {
      if RejectedDuration(value) {
        return Fail(ArgumentException("The sliding expiration value must be positive.", None));
      }
      slidingExpiration := value;
      r := Pass;
    }
  }
}
