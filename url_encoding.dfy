/**
 * java.net.URLEncoder.encode(s, "UTF-8"): the application/x-www-form-urlencoded
 * byte serializer of section 5.2 of the WHATWG URL Standard applied to the
 * UTF-8 encoding of the text. The bytes of the letters, the digits and
 * "*-._" stay as they are, the space becomes "+", and every other byte
 * becomes "%" and two upper-case hexadecimal digits.
 */
module FormEncoding {
  import opened Common

  newtype byte = x: int | 0 <= x < 256

  // ---------------------------------------------------------------------
  // UTF-8 (section 3 of RFC 3629)

  /** The UTF-8 bytes of one Unicode scalar value. */
  function Utf8(c: char): (r: seq<byte>)
    ensures 1 <= |r| <= 4
    ensures |r| == 1 <==> c as int < 0x80
    ensures |r| == 1 ==> r[0] as int == c as int
    ensures |r| > 1 ==> forall i | 0 <= i < |r| :: r[i] >= 0x80
  {
    var cp := c as int;
    if cp < 0x80 then [cp as byte]
    else if cp < 0x800 then [(0xC0 + cp / 64) as byte, (0x80 + cp % 64) as byte]
    else if cp < 0x1_0000 then
      [(0xE0 + cp / 4096) as byte, (0x80 + cp / 64 % 64) as byte, (0x80 + cp % 64) as byte]
    else
      [(0xF0 + cp / 262144) as byte, (0x80 + cp / 4096 % 64) as byte, (0x80 + cp / 64 % 64) as byte,
       (0x80 + cp % 64) as byte]
  }

  /** The UTF-8 bytes of a text. */
  function Utf8String(s: string): (r: seq<byte>)
    ensures |s| <= |r| <= 4 * |s|
  {
    if s == [] then [] else Utf8(s[0]) + Utf8String(s[1..])
  }

  // ---------------------------------------------------------------------
  // The byte serializer

  /** The bytes that stand for themselves: ASCII letters, digits, '*', '-', '.' and '_'. */
  predicate Unreserved(b: byte)
  {
    ('a' as byte <= b <= 'z' as byte) || ('A' as byte <= b <= 'Z' as byte) || ('0' as byte <= b <= '9' as byte)
    || b == '*' as byte || b == '-' as byte || b == '.' as byte || b == '_' as byte
  }

  /** The upper-case hexadecimal digit of a value below 16. */
  function HexDigit(n: int): (c: char)
    requires 0 <= n < 16
    ensures IsHexDigit(c) && HexValue(c) == n
  {
    if n < 10 then ('0' as int + n) as char else ('A' as int + n - 10) as char
  }

  predicate IsHexDigit(c: char)
  {
    '0' <= c <= '9' || 'A' <= c <= 'F'
  }

  function HexValue(c: char): (n: int)
    requires IsHexDigit(c)
    ensures 0 <= n < 16
  {
    if c <= '9' then c as int - '0' as int else c as int - 'A' as int + 10
  }

  /** The serialization of one byte. */
  function EncodeByte(b: byte): (t: string)
    ensures |t| == 1 || |t| == 3
    ensures |t| == 1 <==> Unreserved(b) || b == 0x20
  {
    if Unreserved(b) then [b as int as char]
    else if b == 0x20 then "+"
    else ['%', HexDigit(b as int / 16), HexDigit(b as int % 16)]
  }

  /** The characters a serialization is made of. */
  predicate FormChar(c: char)
  {
    (c as int < 256 && Unreserved(c as int as byte)) || c == '+' || c == '%' || IsHexDigit(c)
  }

  /** The serialization of a byte sequence. */
  function EncodeBytes(bs: seq<byte>): (t: string)
    ensures forall i | 0 <= i < |t| :: FormChar(t[i])
    ensures |bs| <= |t| <= 3 * |bs|
  {
    if bs == [] then "" else EncodeByte(bs[0]) + EncodeBytes(bs[1..])
  }

  /** URLEncoder.encode(s, "UTF-8"). */
  function FormEncode(s: string): (t: string)
    ensures forall i | 0 <= i < |t| :: FormChar(t[i])
  {
    EncodeBytes(Utf8String(s))
  }

  /** An encoded text never holds the characters that separate a query: '&', '=', '?' and '#'. */
  lemma EncodedHasNoSeparator(s: string)
    ensures '&' !in FormEncode(s) && '=' !in FormEncode(s) && '?' !in FormEncode(s) && '#' !in FormEncode(s)
  {
    var t := FormEncode(s);
    forall i | 0 <= i < |t|
      ensures t[i] != '&' && t[i] != '=' && t[i] != '?' && t[i] != '#'
    {
      assert FormChar(t[i]);
    }
  }

  /** Text of letters, digits and "*-._" only is left as it is. */
  lemma {:induction false} PlainTextUnchanged(s: string)
    requires forall i | 0 <= i < |s| :: s[i] as int < 128 && Unreserved(s[i] as int as byte)
    ensures FormEncode(s) == s
    decreases |s|
  {
    if s != [] {
      PlainTextUnchanged(s[1..]);
      assert Utf8String(s) == Utf8(s[0]) + Utf8String(s[1..]);
      assert EncodeBytes(Utf8(s[0]) + Utf8String(s[1..])) == EncodeByte(Utf8(s[0])[0]) + EncodeBytes(Utf8String(s[1..])) by {
        assert (Utf8(s[0]) + Utf8String(s[1..]))[1..] == Utf8String(s[1..]);
      }
    }
  }

  // ---------------------------------------------------------------------
  // Reading a serialization back

  /** The bytes a serialization stands for, or None for text no serialization produces. */
  function DecodeBytes(t: string): Option<seq<byte>>
    decreases |t|
  {
    if t == [] then Some([])
    else if t[0] == '+' then
      match DecodeBytes(t[1..])
      case None => None
      case Some(rest) => Some([0x20 as byte] + rest)
    else if t[0] == '%' then
      if |t| >= 3 && IsHexDigit(t[1]) && IsHexDigit(t[2]) then
        match DecodeBytes(t[3..])
        case None => None
        case Some(rest) => Some([(HexValue(t[1]) * 16 + HexValue(t[2])) as byte] + rest)
      else None
    else if t[0] as int < 256 && Unreserved(t[0] as int as byte) then
      match DecodeBytes(t[1..])
      case None => None
      case Some(rest) => Some([t[0] as int as byte] + rest)
    else None
  }

  /** Decoding reads one byte's serialization off the front. */
  lemma DecodeOneByte(b: byte, rest: string)
    ensures DecodeBytes(EncodeByte(b) + rest) ==
      match DecodeBytes(rest)
      case None => None
      case Some(bs) => Some([b] + bs)
  {
    var t := EncodeByte(b) + rest;
    if Unreserved(b) {
      assert t[1..] == rest;
    } else if b == 0x20 {
      assert t[1..] == rest;
    } else {
      assert t[3..] == rest;
      assert HexValue(t[1]) * 16 + HexValue(t[2]) == b as int;
    }
  }

  /** Decoding a serialization gives back exactly the bytes that were serialized. */
  lemma {:induction false} DecodeEncodeBytes(bs: seq<byte>)
    ensures DecodeBytes(EncodeBytes(bs)) == Some(bs)
    decreases |bs|
  {
    if bs != [] {
      DecodeEncodeBytes(bs[1..]);
      DecodeOneByte(bs[0], EncodeBytes(bs[1..]));
      assert [bs[0]] + bs[1..] == bs;
    }
  }

  /** A form-encoded text decodes to the UTF-8 bytes of the original text. */
  lemma FormDecodeRecoversBytes(s: string)
    ensures DecodeBytes(FormEncode(s)) == Some(Utf8String(s))
  {
    DecodeEncodeBytes(Utf8String(s));
  }
}
