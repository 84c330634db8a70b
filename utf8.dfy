/** UTF-8 as defined in section 3 of RFC 3629, over Unicode scalar values
    (a Dafny `char`). `Encoding.UTF8.GetByteCount` is `ByteCount` below. */
module Utf8 {
  import opened Wrappers

  type byte = x: int | 0 <= x < 256

  /** Section 3 of RFC 3629: the number of octets for a scalar value, read off the
      table of code point ranges. */
  function CharByteCount(c: char): (n: nat)
    ensures 1 <= n <= 4
  {
    if c as int < 0x80 then 1
    else if c as int < 0x800 then 2
    else if c as int < 0x1_0000 then 3
    else 4
  }

  /** The encoding of one scalar value: the lead octet carries the length
      marker and the high bits, continuation octets carry six bits each. */
  function EncodeChar(c: char): (r: seq<byte>)
    ensures |r| == CharByteCount(c)
  {
    var cp := c as int;
    if cp < 0x80 then [cp]
    else if cp < 0x800 then [0xC0 + cp / 0x40, 0x80 + cp % 0x40]
    else if cp < 0x1_0000 then [0xE0 + cp / 0x40 / 0x40, 0x80 + cp / 0x40 % 0x40, 0x80 + cp % 0x40]
    else [0xF0 + cp / 0x40 / 0x40 / 0x40, 0x80 + cp / 0x40 / 0x40 % 0x40, 0x80 + cp / 0x40 % 0x40, 0x80 + cp % 0x40]
  }

  /** The encoding of a whole string. */
  function Encode(s: string): seq<byte> {
    if s == [] then [] else EncodeChar(s[0]) + Encode(s[1..])
  }

  /** `Encoding.UTF8.GetByteCount`: the length of the UTF-8 form. */
  function ByteCount(s: string): (n: nat)
    ensures n == |Encode(s)|
    ensures |s| <= n <= 4 * |s|
  {
    if s == [] then 0 else CharByteCount(s[0]) + ByteCount(s[1..])
  }

  lemma {:induction false} ByteCountAppend(a: string, b: string)
    ensures ByteCount(a + b) == ByteCount(a) + ByteCount(b)
  {
    if a == [] {
      assert a + b == b;
    } else {
      assert (a + b)[0] == a[0];
      assert (a + b)[1..] == a[1..] + b;
      ByteCountAppend(a[1..], b);
    }
  }

  predicate IsAscii(s: string) {
    forall i | 0 <= i < |s| :: s[i] as int < 0x80
  }

  /** Text of 7-bit characters takes one byte per character, and only such text does. */
  lemma {:induction false} ByteCountIsLengthIffAscii(s: string)
    ensures ByteCount(s) == |s| <==> IsAscii(s)
  {
    if s != [] {
      ByteCountIsLengthIffAscii(s[1..]);
      assert IsAscii(s) <==> s[0] as int < 0x80 && IsAscii(s[1..]) by {
        if s[0] as int < 0x80 && IsAscii(s[1..]) {
          forall i | 0 <= i < |s| ensures s[i] as int < 0x80 {
            if i > 0 { assert s[i] == s[1..][i - 1]; }
          }
        }
      }
    }
  }

  /** Number of octets announced by a lead octet; 0 for an octet that cannot lead. */
  function SequenceLength(lead: byte): nat {
    if lead < 0x80 then 1
    else if 0xC0 <= lead < 0xE0 then 2
    else if 0xE0 <= lead < 0xF0 then 3
    else if 0xF0 <= lead < 0xF8 then 4
    else 0
  }

  predicate IsContinuation(b: byte) { 0x80 <= b < 0xC0 }

  predicate IsScalarValue(n: int) {
    (0 <= n < 0xD800) || (0xE000 <= n < 0x11_0000)
  }

  /** Decodes the octets of exactly one scalar value. Overlong forms are not
      rejected: the decoder is only used as the inverse of `EncodeChar`. */
  function DecodeChar(b: seq<byte>): Option<char> {
    if |b| == 0 || SequenceLength(b[0]) != |b| then None
    else if |b| == 1 then Some(b[0] as char)
    else if !(forall i | 1 <= i < |b| :: IsContinuation(b[i])) then None
    else
      var cp := Payload(b);
      if IsScalarValue(cp) then Some(cp as char) else None
  }

  /** The bits a multi-octet sequence carries: the lead octet's payload followed
      by six bits from each continuation octet. */
  function Payload(b: seq<byte>): int
    requires 2 <= |b| <= 4
  {
    var lead: int := b[0] as int - (if |b| == 2 then 0xC0 else if |b| == 3 then 0xE0 else 0xF0);
    Continue(lead, b[1..])
  }

  function Continue(acc: int, rest: seq<byte>): int
    decreases rest
  {
    if rest == [] then acc else Continue(acc * 0x40 + (rest[0] as int - 0x80), rest[1..])
  }

  /** Every scalar value's encoding announces its own length and decodes back to it. */
  lemma DecodeEncodeChar(c: char)
    ensures |EncodeChar(c)| == SequenceLength(EncodeChar(c)[0])
    ensures DecodeChar(EncodeChar(c)) == Some(c)
  {
    var cp := c as int;
    var b := EncodeChar(c);
    if cp < 0x80 {
    } else if cp < 0x800 {
      TwoOctets(cp);
    } else if cp < 0x1_0000 {
      ThreeOctets(cp);
    } else {
      FourOctets(cp);
    }
  }

  lemma TwoOctets(cp: int)
    requires 0x80 <= cp < 0x800
    ensures Continue(cp / 0x40, [0x80 + cp % 0x40]) == cp
  {
    assert Continue(cp / 0x40 * 0x40 + cp % 0x40, []) == cp;
  }

  lemma ThreeOctets(cp: int)
    requires 0x800 <= cp < 0x1_0000
    ensures Continue(cp / 0x40 / 0x40, [0x80 + cp / 0x40 % 0x40, 0x80 + cp % 0x40]) == cp
  {
    var q1 := cp / 0x40;
    assert Continue(q1 / 0x40 * 0x40 + q1 % 0x40, [0x80 + cp % 0x40]) == q1 * 0x40 + cp % 0x40;
  }

  lemma FourOctets(cp: int)
    requires 0x1_0000 <= cp < 0x11_0000
    ensures Continue(cp / 0x40 / 0x40 / 0x40,
                     [0x80 + cp / 0x40 / 0x40 % 0x40, 0x80 + cp / 0x40 % 0x40, 0x80 + cp % 0x40]) == cp
  {
    var q1 := cp / 0x40;
    var q2 := q1 / 0x40;
    assert Continue(q2 / 0x40 * 0x40 + q2 % 0x40, [0x80 + q1 % 0x40, 0x80 + cp % 0x40])
        == Continue(q2, [0x80 + q1 % 0x40, 0x80 + cp % 0x40]);
    assert Continue(q2 * 0x40 + q1 % 0x40, [0x80 + cp % 0x40]) == q1 * 0x40 + cp % 0x40;
  }
}
