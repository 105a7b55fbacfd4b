/** Percent-encoding of text by its UTF-8 bytes, as sections 2.1 and 2.3 of RFC 3986 have it. */
module PercentEncoding {
  import opened Text

  /** The unreserved characters of section 2.3. */
  predicate Unreserved(b: int) {
    'A' as int <= b <= 'Z' as int || 'a' as int <= b <= 'z' as int || '0' as int <= b <= '9' as int
    || b == '-' as int || b == '_' as int || b == '.' as int || b == '~' as int
  }

  function EncodeByte(b: Byte): string {
    if Unreserved(b) then [b as char]
    else if b == ' ' as int then "%20"
    else ['%', UpperHexDigit(b / 16), UpperHexDigit(b % 16)]
  }

  function Encode(bytes: seq<Byte>): string {
    if bytes == [] then [] else EncodeByte(bytes[0]) + Encode(bytes[1..])
  }

  /** Decoding as in section 2.1: a percent sign and two hexadecimal digits stand for one byte. */
  function Decode(s: string): Option<seq<Byte>> {
    if s == [] then Some([])
    else if s[0] == '%' then
      if |s| < 3 || HexValue(s[1]).None? || HexValue(s[2]).None? then None
      else Prepend((HexValue(s[1]).value * 16 + HexValue(s[2]).value) % 256, Decode(s[3..]))
    else if s[0] as int >= 128 then None
    else Prepend(s[0] as int, Decode(s[1..]))
  }

  function Prepend(b: Byte, rest: Option<seq<Byte>>): Option<seq<Byte>> {
    if rest.None? then None else Some([b] + rest.value)
  }

  predicate IsUpperHex(c: char) {
    '0' <= c <= '9' || 'A' <= c <= 'F'
  }

  predicate IsUnreserved(c: char) {
    'A' <= c <= 'Z' || 'a' <= c <= 'z' || '0' <= c <= '9' || c == '-' || c == '_' || c == '.' || c == '~'
  }

  /** Nothing but unreserved characters and percent signs with two upper-case digits behind them. */
  predicate WellEncoded(s: string) {
    if s == [] then true
    else if s[0] == '%' then |s| >= 3 && IsUpperHex(s[1]) && IsUpperHex(s[2]) && WellEncoded(s[3..])
    else IsUnreserved(s[0]) && WellEncoded(s[1..])
  }

  lemma TripletReadsBack(b: Byte, hi: char, lo: char, tail: string)
    requires hi == UpperHexDigit(b / 16) && lo == UpperHexDigit(b % 16)
    ensures Decode(['%', hi, lo] + tail) == Prepend(b, Decode(tail))
    ensures WellEncoded(tail) ==> WellEncoded(['%', hi, lo] + tail)
  {
    var s := ['%', hi, lo] + tail;
    UpperHexReadsBack(b / 16);
    UpperHexReadsBack(b % 16);
    assert s[0] == '%' && s[1] == hi && s[2] == lo && s[3..] == tail;
  }

  lemma EncodedByteReadsBack(b: Byte, tail: string)
    ensures Decode(EncodeByte(b) + tail) == Prepend(b, Decode(tail))
    ensures WellEncoded(tail) ==> WellEncoded(EncodeByte(b) + tail)
  {
    var s := EncodeByte(b) + tail;
    if Unreserved(b) {
      assert s[0] == b as char && s[1..] == tail;
      assert s[0] != '%' && s[0] as int == b;
    } else {
      assert b == ' ' as int ==> EncodeByte(b) == ['%', UpperHexDigit(b / 16), UpperHexDigit(b % 16)];
      TripletReadsBack(b, UpperHexDigit(b / 16), UpperHexDigit(b % 16), tail);
    }
  }

  /** Unreserved characters stay as they are. */
  lemma {:induction false} UnreservedIsKept(bytes: seq<Byte>)
    requires forall i | 0 <= i < |bytes| :: bytes[i] < 128 && IsUnreserved(bytes[i] as char)
    ensures |Encode(bytes)| == |bytes| && forall i | 0 <= i < |bytes| :: Encode(bytes)[i] == bytes[i] as char
  {
    if bytes != [] {
      assert forall i | 0 <= i < |bytes[1..]| :: bytes[1..][i] == bytes[i + 1];
      UnreservedIsKept(bytes[1..]);
      assert Encode(bytes) == [bytes[0] as char] + Encode(bytes[1..]);
    }
  }

  /** Every byte string reads back, and its encoding needs no further escaping. */
  lemma {:induction false} EncodedReadsBack(bytes: seq<Byte>)
    ensures Decode(Encode(bytes)) == Some(bytes) && WellEncoded(Encode(bytes))
  {
    if bytes != [] {
      EncodedReadsBack(bytes[1..]);
      EncodedByteReadsBack(bytes[0], Encode(bytes[1..]));
      assert bytes == [bytes[0]] + bytes[1..];
    }
  }
}
