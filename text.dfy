/** String helpers of the .NET base library that the key builders rely on:
    `char.IsWhiteSpace`, `string.IsNullOrWhiteSpace` and `Int32.ToString()`. */
module Text {
  import opened Wrappers

  /** A 32-bit signed integer (`int` in C#). */
  type Int32 = x: int | -0x8000_0000 <= x < 0x8000_0000

  /** `char.IsWhiteSpace`: the Unicode White_Space characters, i.e. the
      categories Zs, Zl and Zp plus U+0009..U+000D and U+0085. */
  predicate IsWhiteSpace(c: char) {
    || ('\U{0009}' <= c <= '\U{000D}')
    || c == '\U{0020}'
    || c == '\U{0085}'
    || c == '\U{00A0}'
    || c == '\U{1680}'
    || ('\U{2000}' <= c <= '\U{200A}')
    || c == '\U{2028}'
    || c == '\U{2029}'
    || c == '\U{202F}'
    || c == '\U{205F}'
    || c == '\U{3000}'
  }

  /** `string.IsNullOrWhiteSpace`: null, empty, or white space only. */
  predicate IsNullOrWhiteSpace(s: Option<string>) {
    s.None? || AllWhiteSpace(s.value)
  }

  /** Every character is white space; vacuously true of the empty string. */
  predicate AllWhiteSpace(s: string) {
    s == [] || (IsWhiteSpace(s[0]) && AllWhiteSpace(s[1..]))
  }

  /** `string.IsNullOrWhiteSpace(s)` holds exactly when `s` is null or every one of
      its characters is white space; in particular, for the empty string. */
  lemma IsNullOrWhiteSpaceChars(s: Option<string>)
    ensures IsNullOrWhiteSpace(s) <==> s.None? || forall i | 0 <= i < |s.value| :: IsWhiteSpace(s.value[i])
  {
    if s.Some? {
      AllWhiteSpaceChars(s.value);
    }
  }

  lemma {:induction false} AllWhiteSpaceChars(s: string)
    ensures AllWhiteSpace(s) <==> forall i | 0 <= i < |s| :: IsWhiteSpace(s[i])
  {
    if s != [] {
      AllWhiteSpaceChars(s[1..]);
      assert forall i | 1 <= i < |s| :: s[i] == s[1..][i - 1];
    }
  }

  predicate IsDigit(c: char) { '0' <= c <= '9' }

  function DigitChar(d: nat): (c: char)
    requires d < 10
    ensures IsDigit(c) && c as int - '0' as int == d
  {
    ('0' as int + d) as char
  }

  /** The invariant-culture decimal form of a natural number, most significant digit first. */
  function NatToString(n: nat): (r: string)
    ensures |r| >= 1
    ensures forall i | 0 <= i < |r| :: IsDigit(r[i])
  {
    if n < 10 then [DigitChar(n)] else NatToString(n / 10) + [DigitChar(n % 10)]
  }

  /** `Int32.ToString()` in the invariant culture: a leading '-' for negatives. */
  function IntToString(n: int): (r: string)
    ensures |r| >= 1
    ensures forall i | 0 <= i < |r| :: IsDigit(r[i]) || r[i] == '-'
  {
    if n < 0 then "-" + NatToString(-n) else NatToString(n)
  }

  /** The value of a non-empty string of decimal digits. */
  function ParseNat(s: string): nat
    requires |s| >= 1
    requires forall i | 0 <= i < |s| :: IsDigit(s[i])
  {
    assert IsDigit(s[|s| - 1]);
    var last := s[|s| - 1] as int - '0' as int;
    if |s| == 1 then last else 10 * ParseNat(s[..|s| - 1]) + last
  }

  /** `Int32.Parse` in the invariant culture, restricted to what `IntToString` writes. */
  function ParseInt(s: string): Option<int> {
    if |s| >= 2 && s[0] == '-' && forall i | 1 <= i < |s| :: IsDigit(s[i]) then
      var magnitude: int := ParseNat(s[1..]);
      Some(-magnitude)
    else if |s| >= 1 && forall i | 0 <= i < |s| :: IsDigit(s[i]) then
      Some(ParseNat(s))
    else
      None
  }

  lemma {:induction false} ParseNatToString(n: nat)
    ensures ParseNat(NatToString(n)) == n
  {
    if n >= 10 {
      var s := NatToString(n);
      assert s[..|s| - 1] == NatToString(n / 10);
      ParseNatToString(n / 10);
    }
  }

  /** Parsing undoes formatting, so `IntToString` is injective. */
  lemma {:induction false} ParseIntToString(n: int)
    ensures ParseInt(IntToString(n)) == Some(n)
  {
    if n < 0 {
      var s := IntToString(n);
      assert s[1..] == NatToString(-n);
      assert !IsDigit(s[0]);
      ParseNatToString(-n);
    } else {
      ParseNatToString(n);
    }
  }

  lemma IntToStringInjective(a: int, b: int)
    requires IntToString(a) == IntToString(b)
    ensures a == b
  {
    ParseIntToString(a);
    ParseIntToString(b);
  }

  /** Regrouping a concatenation of four texts. */
  lemma ConcatAssoc<T>(a: seq<T>, b: seq<T>, c: seq<T>, d: seq<T>)
    ensures a + (b + (c + d)) == a + b + c + d
  {
  }

  /** Equal texts with the same surroundings are equal. */
  lemma CancelAround<T>(front: seq<T>, x: seq<T>, y: seq<T>, back: seq<T>)
    requires front + x + back == front + y + back
    ensures x == y
  {
    var whole := front + x + back;
    assert |x| == |y|;
    assert x == whole[|front|..|front| + |x|];
    assert y == (front + y + back)[|front|..|front| + |y|];
  }
}
