/** `Uri.EscapeDataString`: percent-encoding as defined in section 2.1 of RFC 3986.
    Characters of the unreserved set of section 2.3 are copied; every other
    character is first encoded as UTF-8 (section 2.5) and each octet is written as
    '%' followed by two upper-case hexadecimal digits. */
module PercentEncoding {
  import opened Wrappers
  import opened Utf8

  /** Section 2.3 of RFC 3986: ALPHA / DIGIT / "-" / "." / "_" / "~". */
  predicate IsUnreserved(c: char) {
    ('A' <= c <= 'Z') || ('a' <= c <= 'z') || ('0' <= c <= '9') || c == '-' || c == '.' || c == '_' || c == '~'
  }

  predicate AllUnreserved(s: string) {
    forall i | 0 <= i < |s| :: IsUnreserved(s[i])
  }

  predicate IsUpperHexDigit(c: char) {
    ('0' <= c <= '9') || ('A' <= c <= 'F')
  }

  function HexValue(c: char): (d: nat)
    requires IsUpperHexDigit(c)
    ensures d < 16
  {
    if c <= '9' then c as int - '0' as int else c as int - 'A' as int + 10
  }

  function HexDigit(d: nat): (c: char)
    requires d < 16
    ensures IsUpperHexDigit(c) && IsUnreserved(c) && HexValue(c) == d
  {
    if d < 10 then ('0' as int + d) as char else ('A' as int + d - 10) as char
  }

  /** One percent-encoded octet, "%HH". */
  function EscapeOctet(b: byte): (r: string)
    ensures |r| == 3 && r[0] == '%' && IsUpperHexDigit(r[1]) && IsUpperHexDigit(r[2])
    ensures HexValue(r[1]) * 16 + HexValue(r[2]) == b
  {
    ['%', HexDigit(b / 16), HexDigit(b % 16)]
  }

  function EscapeOctets(bs: seq<byte>): (r: string)
    ensures |r| == 3 * |bs|
    ensures forall i | 0 <= i < |r| :: IsUnreserved(r[i]) || r[i] == '%'
  {
    if bs == [] then [] else EscapeOctet(bs[0]) + EscapeOctets(bs[1..])
  }

  function EscapeChar(c: char): string {
    if IsUnreserved(c) then [c] else EscapeOctets(EncodeChar(c))
  }

  /** `Uri.EscapeDataString`. The result is made of unreserved characters and '%'
      only (so in particular it never contains ':'), and it is never shorter than
      the input. */
  function EscapeDataString(s: string): (r: string)
    ensures forall i | 0 <= i < |r| :: IsUnreserved(r[i]) || r[i] == '%'
    ensures |r| >= |s|
  {
    if s == [] then [] else EscapeChar(s[0]) + EscapeDataString(s[1..])
  }

  /** The shape of an escaped string: unreserved characters and "%HH" triples. */
  predicate IsEscaped(s: string)
    decreases |s|
  {
    || s == []
    || (IsUnreserved(s[0]) && IsEscaped(s[1..]))
    || (|s| >= 3 && s[0] == '%' && IsUpperHexDigit(s[1]) && IsUpperHexDigit(s[2]) && IsEscaped(s[3..]))
  }

  /** The octet written as "%HH" at the front of `s`, if there is one. */
  function OctetAt(s: string): Option<byte> {
    if |s| >= 3 && s[0] == '%' && IsUpperHexDigit(s[1]) && IsUpperHexDigit(s[2]) then
      Some(HexValue(s[1]) * 16 + HexValue(s[2]))
    else
      None
  }

  /** The `n` octets written as "%HH" triples at the front of `s`. */
  function OctetsAt(s: string, n: nat): Option<seq<byte>>
    decreases n
  {
    if n == 0 then Some([])
    else
      var b :- OctetAt(s);
      var bs :- OctetsAt(s[3..], n - 1);
      Some([b] + bs)
  }

  /** The character spelled by the "%HH" triples at the front of `s`, and how many
      characters of `s` those triples take. */
  function EscapedCharAt(s: string): (r: Option<(char, nat)>)
    ensures r.Some? ==> 3 <= r.value.1 <= |s|
  {
    var lead :- OctetAt(s);
    var n := SequenceLength(lead);
    if n == 0 || |s| < 3 * n then None
    else
      var octets :- OctetsAt(s, n);
      var c :- DecodeChar(octets);
      Some((c, 3 * n))
  }

  /** The inverse of `EscapeDataString` on its image: unreserved characters stand for
      themselves, and a run of "%HH" triples stands for the character whose UTF-8
      form they spell. */
  function Unescape(s: string): Option<string>
    decreases |s|
  {
    if s == [] then Some([])
    else if IsUnreserved(s[0]) then
      var rest :- Unescape(s[1..]);
      Some([s[0]] + rest)
    else
      var escaped :- EscapedCharAt(s);
      var rest :- Unescape(s[escaped.1..]);
      Some([escaped.0] + rest)
  }

  lemma {:induction false} OctetsAtEscape(bs: seq<byte>, tail: string)
    ensures OctetsAt(EscapeOctets(bs) + tail, |bs|) == Some(bs)
  {
    if bs != [] {
      var e := EscapeOctets(bs) + tail;
      assert e == EscapeOctet(bs[0]) + (EscapeOctets(bs[1..]) + tail);
      assert e[..3] == EscapeOctet(bs[0]);
      assert OctetAt(e) == Some(bs[0]);
      assert e[3..] == EscapeOctets(bs[1..]) + tail;
      OctetsAtEscape(bs[1..], tail);
      assert OctetsAt(e[3..], |bs| - 1) == Some(bs[1..]);
      assert [bs[0]] + bs[1..] == bs;
    }
  }

  /** Decoding undoes encoding, character by character. */
  lemma {:induction false} UnescapeEscape(s: string)
    ensures Unescape(EscapeDataString(s)) == Some(s)
  {
    if s != [] {
      var c, rest := s[0], s[1..];
      var tail := EscapeDataString(rest);
      assert s == [c] + rest;
      assert EscapeDataString(s) == EscapeChar(c) + tail;
      UnescapeEscape(rest);
      UnescapeEscapeChar(c, tail, rest);
    }
  }

  /** One step of the round trip: an escaped character in front of text that
      decodes to `rest` decodes to the character followed by `rest`. */
  lemma UnescapeEscapeChar(c: char, tail: string, rest: string)
    requires Unescape(tail) == Some(rest)
    ensures Unescape(EscapeChar(c) + tail) == Some([c] + rest)
  {
    var e := EscapeChar(c) + tail;
    if IsUnreserved(c) {
      assert e[0] == c && e[1..] == tail;
    } else {
      var enc := EncodeChar(c);
      EscapedCharOfEncoding(c, tail);
      assert e[0] == '%';
      assert e[3 * |enc|..] == tail;
    }
  }

  lemma EscapedCharOfEncoding(c: char, tail: string)
    ensures EscapedCharAt(EscapeOctets(EncodeChar(c)) + tail) == Some((c, 3 * |EncodeChar(c)|))
  {
    var enc := EncodeChar(c);
    var e := EscapeOctets(enc) + tail;
    DecodeEncodeChar(c);
    assert e == EscapeOctet(enc[0]) + (EscapeOctets(enc[1..]) + tail);
    assert OctetAt(e) == Some(enc[0]);
    OctetsAtEscape(enc, tail);
  }

  /** Two different strings never escape to the same text. */
  lemma EscapeInjective(a: string, b: string)
    requires EscapeDataString(a) == EscapeDataString(b)
    ensures a == b
  {
    UnescapeEscape(a);
    UnescapeEscape(b);
  }

  lemma {:induction false} EscapedAppend(a: string, b: string)
    requires IsEscaped(a) && IsEscaped(b)
    ensures IsEscaped(a + b)
    decreases |a|
  {
    if a == [] {
      assert a + b == b;
    } else if IsUnreserved(a[0]) && IsEscaped(a[1..]) {
      assert (a + b)[1..] == a[1..] + b;
      EscapedAppend(a[1..], b);
    } else {
      assert (a + b)[3..] == a[3..] + b;
      EscapedAppend(a[3..], b);
    }
  }

  lemma {:induction false} EscapeOctetsIsEscaped(bs: seq<byte>)
    ensures IsEscaped(EscapeOctets(bs))
  {
    if bs != [] {
      var e := EscapeOctets(bs);
      EscapeOctetsIsEscaped(bs[1..]);
      assert e[3..] == EscapeOctets(bs[1..]);
    }
  }

  /** The output of `EscapeDataString` consists of unreserved characters and
      "%HH" triples only. */
  lemma {:induction false} EscapeIsWellFormed(s: string)
    ensures IsEscaped(EscapeDataString(s))
  {
    if s != [] {
      EscapeIsWellFormed(s[1..]);
      if IsUnreserved(s[0]) {
        assert IsEscaped([s[0]]) by { assert [s[0]][1..] == []; }
      } else {
        EscapeOctetsIsEscaped(EncodeChar(s[0]));
      }
      EscapedAppend(EscapeChar(s[0]), EscapeDataString(s[1..]));
    }
  }

  /** Escaping leaves a string unchanged exactly when all its characters are
      unreserved (a GUID, say); any other character grows to at least three. */
  lemma {:induction false} EscapeIdentityIffUnreserved(s: string)
    ensures EscapeDataString(s) == s <==> AllUnreserved(s)
  {
    if s != [] {
      EscapeIdentityIffUnreserved(s[1..]);
      var e := EscapeDataString(s);
      assert e == EscapeChar(s[0]) + EscapeDataString(s[1..]);
      assert AllUnreserved(s) <==> IsUnreserved(s[0]) && AllUnreserved(s[1..]) by {
        if IsUnreserved(s[0]) && AllUnreserved(s[1..]) {
          forall i | 0 <= i < |s| ensures IsUnreserved(s[i]) {
            if i > 0 { assert s[i] == s[1..][i - 1]; }
          }
        }
      }
      if IsUnreserved(s[0]) {
        assert s == [s[0]] + s[1..];
        if e == s {
          assert e[1..] == EscapeDataString(s[1..]);
        }
      } else {
        assert |EscapeChar(s[0])| >= 3;
      }
    }
  }

  /** An escaped string is 7-bit text, so its UTF-8 form has one byte per character. */
  lemma EscapedByteCount(s: string)
    ensures ByteCount(EscapeDataString(s)) == |EscapeDataString(s)|
  {
    var e := EscapeDataString(s);
    forall i | 0 <= i < |e| ensures e[i] as int < 0x80 {
      assert IsUnreserved(e[i]) || e[i] == '%';
    }
    ByteCountIsLengthIffAscii(e);
  }
}
