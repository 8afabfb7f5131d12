/** `encodeURL` (src/ChzzkUtils.cpp): percent-encoding of a byte string, the
    unreserved characters of section 2.3 of RFC 3986 kept as they are and
    every other byte written as `%` and two upper-case hexadecimal digits, as
    in section 2.1 of RFC 3986. */
module UrlEncoding {
  import opened Wrappers

  /** One byte of a std::string. */
  type Byte = c: char | c as int < 256 witness 'a'

  /** The unreserved set: ALPHA, DIGIT, '-', '.', '_' and '~'. */
  predicate IsUnreserved(c: char)
  {
    ('0' <= c <= '9') || ('A' <= c <= 'Z') || ('a' <= c <= 'z')
    || c == '-' || c == '_' || c == '.' || c == '~'
  }

  predicate IsUpperHexDigit(c: char)
  {
    ('0' <= c <= '9') || ('A' <= c <= 'F')
  }

  /** Hexadecimal digits as a decoder reads them, in either case. */
  predicate IsHexDigit(c: char)
  {
    ('0' <= c <= '9') || ('A' <= c <= 'F') || ('a' <= c <= 'f')
  }

  function HexDigit(d: nat): (c: char)
    requires d < 16
    ensures IsUpperHexDigit(c)
  {
    if d < 10 then ('0' as int + d) as char else ('A' as int + d - 10) as char
  }

  function HexValue(c: char): (d: nat)
    requires IsHexDigit(c)
    ensures d < 16
  {
    if '0' <= c <= '9' then c as int - '0' as int
    else if 'A' <= c <= 'F' then c as int - 'A' as int + 10
    else c as int - 'a' as int + 10
  }

  /** What the loop writes for one byte. */
  function EncodeByte(b: Byte): string
  {
    if IsUnreserved(b) then [b] else ['%', HexDigit(b as int / 16), HexDigit(b as int % 16)]
  }

  function Encoded(s: seq<Byte>): string
  {
    if s == [] then [] else EncodeByte(s[0]) + Encoded(s[1..])
  }

  /** The number of bytes the encoding expands to three characters. */
  function ReservedCount(s: seq<Byte>): nat
  {
    if s == [] then 0 else (if IsUnreserved(s[0]) then 0 else 1) + ReservedCount(s[1..])
  }

  /** Percent-decoding: `%` and two hexadecimal digits give one byte, any
      other character below 256 stands for itself. */
  function PercentDecode(t: string): Option<seq<Byte>>
  {
    if t == [] then Some([])
    else if t[0] == '%' then
      if |t| >= 3 && IsHexDigit(t[1]) && IsHexDigit(t[2]) then
        var rest :- PercentDecode(t[3..]);
        Some([(HexValue(t[1]) * 16 + HexValue(t[2])) as char] + rest)
      else None
    else if t[0] as int < 256 then
      var rest :- PercentDecode(t[1..]);
      Some([t[0]] + rest)
    else None
  }

  lemma {:induction false} EncodedAppend(s: seq<Byte>, b: Byte)
    ensures Encoded(s + [b]) == Encoded(s) + EncodeByte(b)
  {
    if s != [] {
      assert (s + [b])[1..] == s[1..] + [b];
      EncodedAppend(s[1..], b);
    }
  }

  /** The loop of `encodeURL`, with its early return for the empty string. */
  method EncodeUrl(s: seq<Byte>) returns (r: string)
    ensures r == Encoded(s)
    ensures s == [] ==> r == []
  {
    if s == [] {
      return s;
    }
    r := [];
    var i := 0;
    while i < |s|
      invariant 0 <= i <= |s|
      invariant r == Encoded(s[..i])
    {
      EncodedAppend(s[..i], s[i]);
      assert s[..i + 1] == s[..i] + [s[i]];
      r := r + EncodeByte(s[i]);
      i := i + 1;
    }
    assert s[..|s|] == s;
  }

  /** Each reserved byte costs two extra characters. */
  lemma {:induction false} EncodedLength(s: seq<Byte>)
    ensures |Encoded(s)| == |s| + 2 * ReservedCount(s)
  {
    if s != [] {
      EncodedLength(s[1..]);
    }
  }

  /** The output holds only unreserved characters, `%` and upper-case hex digits. */
  lemma {:induction false} EncodedAlphabet(s: seq<Byte>)
    ensures forall i :: 0 <= i < |Encoded(s)| ==>
      IsUnreserved(Encoded(s)[i]) || Encoded(s)[i] == '%' || IsUpperHexDigit(Encoded(s)[i])
  {
    if s != [] {
      EncodedAlphabet(s[1..]);
      var e := Encoded(s);
      assert e == EncodeByte(s[0]) + Encoded(s[1..]);
      forall i | 0 <= i < |e|
        ensures IsUnreserved(e[i]) || e[i] == '%' || IsUpperHexDigit(e[i])
      {
        if i >= |EncodeByte(s[0])| {
          assert e[i] == Encoded(s[1..])[i - |EncodeByte(s[0])|];
        }
      }
    }
  }

  /** A string of unreserved bytes is its own encoding. */
  lemma {:induction false} EncodedUnreserved(s: seq<Byte>)
    requires forall i :: 0 <= i < |s| ==> IsUnreserved(s[i])
    ensures Encoded(s) == s
  {
    if s != [] {
      EncodedUnreserved(s[1..]);
    }
  }

  lemma HexRoundTrip(d: nat)
    requires d < 16
    ensures IsHexDigit(HexDigit(d)) && HexValue(HexDigit(d)) == d
  {
  }

  /** Decoding the encoding gives the input back. */
  lemma {:induction false} DecodeEncoded(s: seq<Byte>)
    ensures PercentDecode(Encoded(s)) == Some(s)
  {
    if s != [] {
      DecodeEncoded(s[1..]);
      var b, rest, t := s[0], Encoded(s[1..]), Encoded(s);
      assert t == EncodeByte(b) + rest;
      if IsUnreserved(b) {
        assert t[0] == b && t[1..] == rest;
      } else {
        HexRoundTrip(b as int / 16);
        HexRoundTrip(b as int % 16);
        assert t[0] == '%' && t[3..] == rest;
        assert HexValue(t[1]) * 16 + HexValue(t[2]) == b as int;
      }
      assert [b] + s[1..] == s;
    }
  }

  /** Different byte strings never share an encoding. */
  lemma EncodedInjective(a: seq<Byte>, b: seq<Byte>)
    requires Encoded(a) == Encoded(b)
    ensures a == b
  {
    DecodeEncoded(a);
    DecodeEncoded(b);
  }
}
