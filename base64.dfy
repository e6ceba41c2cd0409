/**
 * java.util.Base64.getEncoder(): the "base64" encoding of section 4 of
 * RFC 4648, with the standard alphabet, padding with '=' and no line breaks.
 * Used for the credentials of the "Basic" scheme of section 2 of RFC 7617.
 */
module Base64 {
  import opened Common
  import opened FormEncoding

  /** The characters of the alphabet (Table 1 of RFC 4648). */
  predicate IsDigit(c: char)
  {
    'A' <= c <= 'Z' || 'a' <= c <= 'z' || '0' <= c <= '9' || c == '+' || c == '/'
  }

  /** The value a character of the alphabet stands for. */
  function DigitValue(c: char): (n: int)
    requires IsDigit(c)
    ensures 0 <= n < 64
  {
    if 'A' <= c <= 'Z' then c as int - 'A' as int
    else if 'a' <= c <= 'z' then c as int - 'a' as int + 26
    else if '0' <= c <= '9' then c as int - '0' as int + 52
    else if c == '+' then 62
    else 63
  }

  /** The character of the alphabet for a 6-bit value. */
  function Digit(n: int): (c: char)
    requires 0 <= n < 64
    ensures IsDigit(c) && DigitValue(c) == n
  {
    if n < 26 then ('A' as int + n) as char
    else if n < 52 then ('a' as int + n - 26) as char
    else if n < 62 then ('0' as int + n - 52) as char
    else if n == 62 then '+'
    else '/'
  }

  /**
   * The encoding of a byte sequence: every group of three bytes becomes four
   * characters; a final group of one or two bytes is padded with "==" or "=".
   */
  function Encode(bs: seq<byte>): (t: string)
    ensures |t| == 4 * ((|bs| + 2) / 3)
    ensures forall i | 0 <= i < |t| :: IsDigit(t[i]) || t[i] == '='
    decreases |bs|
  {
    if |bs| == 0 then ""
    else if |bs| == 1 then
      [Digit(bs[0] as int / 4), Digit(bs[0] as int % 4 * 16), '=', '=']
    else if |bs| == 2 then
      [Digit(bs[0] as int / 4), Digit(bs[0] as int % 4 * 16 + bs[1] as int / 16), Digit(bs[1] as int % 16 * 4), '=']
    else
      [Digit(bs[0] as int / 4), Digit(bs[0] as int % 4 * 16 + bs[1] as int / 16),
       Digit(bs[1] as int % 16 * 4 + bs[2] as int / 64), Digit(bs[2] as int % 64)] + Encode(bs[3..])
  }

  /** Reading an encoding back, four characters at a time; None for text that is not an encoding. */
  function Decode(t: string): Option<seq<byte>>
    decreases |t|
  {
    if t == [] then Some([])
    else if |t| < 4 || !IsDigit(t[0]) || !IsDigit(t[1]) then None
    else
      var v0, v1 := DigitValue(t[0]), DigitValue(t[1]);
      var b0 := (v0 * 4 + v1 / 16) as byte;
      if t[2] == '=' then
        if t[3] == '=' && |t| == 4 then Some([b0]) else None
      else if !IsDigit(t[2]) then None
      else
        var v2 := DigitValue(t[2]);
        var b1 := (v1 % 16 * 16 + v2 / 4) as byte;
        if t[3] == '=' then
          if |t| == 4 then Some([b0, b1]) else None
        else if !IsDigit(t[3]) then None
        else
          var b2 := (v2 % 4 * 64 + DigitValue(t[3])) as byte;
          match Decode(t[4..])
          case None => None
          case Some(rest) => Some([b0, b1, b2] + rest)
  }

  /** Three bytes come back from their four characters. */
  lemma GroupRoundTrip(b0: int, b1: int, b2: int)
    requires 0 <= b0 < 256 && 0 <= b1 < 256 && 0 <= b2 < 256
    ensures (b0 / 4) * 4 + (b0 % 4 * 16 + b1 / 16) / 16 == b0
    ensures (b0 % 4 * 16 + b1 / 16) % 16 * 16 + (b1 % 16 * 4 + b2 / 64) / 4 == b1
    ensures (b1 % 16 * 4 + b2 / 64) % 4 * 64 + b2 % 64 == b2
  {
  }

  /** The four characters of a full group. */
  function Quad(b0: byte, b1: byte, b2: byte): (t: string)
    ensures |t| == 4 && IsDigit(t[0]) && IsDigit(t[1]) && IsDigit(t[2]) && IsDigit(t[3])
  {
    [Digit(b0 as int / 4), Digit(b0 as int % 4 * 16 + b1 as int / 16),
     Digit(b1 as int % 16 * 4 + b2 as int / 64), Digit(b2 as int % 64)]
  }

  /** Decoding reads one full group off the front. */
  lemma DecodeQuad(b0: byte, b1: byte, b2: byte, rest: string)
    ensures Decode(Quad(b0, b1, b2) + rest) ==
      match Decode(rest)
      case None => None
      case Some(bs) => Some([b0, b1, b2] + bs)
  {
    var t := Quad(b0, b1, b2) + rest;
    GroupRoundTrip(b0 as int, b1 as int, b2 as int);
    assert t[4..] == rest;
    assert t[..4] == Quad(b0, b1, b2);
  }

  /** A final group of one byte comes back from its padded characters. */
  lemma DecodeSingle(b0: byte)
    ensures Decode(Encode([b0])) == Some([b0])
  {
    var t := Encode([b0]);
    GroupRoundTrip(b0 as int, 0, 0);
    assert t[0] == Digit(b0 as int / 4) && t[1] == Digit(b0 as int % 4 * 16);
    assert t[2] == '=' && t[3] == '=' && |t| == 4;
  }

  /** A final group of two bytes comes back from its padded characters. */
  lemma DecodePair(b0: byte, b1: byte)
    ensures Decode(Encode([b0, b1])) == Some([b0, b1])
  {
    var t := Encode([b0, b1]);
    GroupRoundTrip(b0 as int, b1 as int, 0);
    assert t[0] == Digit(b0 as int / 4) && t[1] == Digit(b0 as int % 4 * 16 + b1 as int / 16);
    assert t[2] == Digit(b1 as int % 16 * 4) && t[3] == '=' && |t| == 4;
  }

  /** Decoding an encoding gives back exactly the bytes that were encoded. */
  lemma {:induction false} DecodeEncode(bs: seq<byte>)
    ensures Decode(Encode(bs)) == Some(bs)
    decreases |bs|
  {
    if |bs| == 1 {
      DecodeSingle(bs[0]);
      assert [bs[0]] == bs;
    } else if |bs| == 2 {
      DecodePair(bs[0], bs[1]);
      assert [bs[0], bs[1]] == bs;
    } else if |bs| >= 3 {
      assert Encode(bs) == Quad(bs[0], bs[1], bs[2]) + Encode(bs[3..]);
      DecodeEncode(bs[3..]);
      DecodeQuad(bs[0], bs[1], bs[2], Encode(bs[3..]));
      assert [bs[0], bs[1], bs[2]] + bs[3..] == bs;
    }
  }
}
