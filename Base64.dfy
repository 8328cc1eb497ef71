/**
 * The "base64" encoding of section 4 of RFC 4648 (the alphabet of Table 1, with
 * `=` padding), as `java.util.Base64.getEncoder()` produces it, and a decoder that
 * inverts it.
 */
module Base64 {
  import opened Wrappers

  type byte = b: int | 0 <= b < 256

  /** A 6-bit group, the unit one base64 character encodes. */
  type sextet = v: int | 0 <= v < 64

  const Pad: char := '='

  /** Table 1 of RFC 4648: A-Z, a-z, 0-9, '+', '/'. */
  function EncodeSextet(v: sextet): (c: char)
  {
    if v < 26 then ('A' as int + v) as char
    else if v < 52 then ('a' as int + (v - 26)) as char
    else if v < 62 then ('0' as int + (v - 52)) as char
    else if v == 62 then '+'
    else '/'
  }

  /** The inverse of Table 1; None for a character outside the alphabet (including the pad). */
  function DecodeChar(c: char): (r: Option<sextet>)
    ensures r.Some? ==> EncodeSextet(r.value) == c
  {
    if 'A' <= c <= 'Z' then Some(c as int - 'A' as int)
    else if 'a' <= c <= 'z' then Some(c as int - 'a' as int + 26)
    else if '0' <= c <= '9' then Some(c as int - '0' as int + 52)
    else if c == '+' then Some(62)
    else if c == '/' then Some(63)
    else None
  }

  /** One full group: three octets, 24 bits, become four characters. */
  function EncodeTriple(b0: byte, b1: byte, b2: byte): (s: string)
  {
    [EncodeSextet(b0 / 4), EncodeSextet((b0 % 4) * 16 + b1 / 16),
     EncodeSextet((b1 % 16) * 4 + b2 / 64), EncodeSextet(b2 % 64)]
  }

  /** A final group of one or two octets, padded to four characters with `=`. */
  function EncodeTail(bytes: seq<byte>): (s: string)
    requires 1 <= |bytes| <= 2
  {
    if |bytes| == 1 then
      [EncodeSextet(bytes[0] / 4), EncodeSextet((bytes[0] % 4) * 16), Pad, Pad]
    else
      [EncodeSextet(bytes[0] / 4), EncodeSextet((bytes[0] % 4) * 16 + bytes[1] / 16),
       EncodeSextet((bytes[1] % 16) * 4), Pad]
  }

  /** Each input group of three octets becomes four characters; a short last group is padded. */
  function Encode(bytes: seq<byte>): (s: string)
    ensures |s| == 4 * ((|bytes| + 2) / 3)
    decreases |bytes|
  {
    if |bytes| == 0 then ""
    else if |bytes| <= 2 then EncodeTail(bytes)
    else EncodeTriple(bytes[0], bytes[1], bytes[2]) + Encode(bytes[3..])
  }

  /** Four alphabet characters back to three octets. */
  function DecodeQuad(s: string): (bytes: Option<seq<byte>>)
    requires |s| == 4
  {
    var c0, c1, c2, c3 := DecodeChar(s[0]), DecodeChar(s[1]), DecodeChar(s[2]), DecodeChar(s[3]);
    if c0.None? || c1.None? || c2.None? || c3.None? then None
    else Some([c0.value * 4 + c1.value / 16, (c1.value % 16) * 16 + c2.value / 4, (c2.value % 4) * 64 + c3.value])
  }

  /** A padded last group back to one or two octets; the unused bits must be zero. */
  function DecodePadded(s: string): (bytes: Option<seq<byte>>)
    requires |s| == 4 && s[3] == Pad
  {
    var c0, c1, c2 := DecodeChar(s[0]), DecodeChar(s[1]), DecodeChar(s[2]);
    if c0.None? || c1.None? then None
    else if s[2] == Pad then
      if c1.value % 16 == 0 then Some([c0.value * 4 + c1.value / 16]) else None
    else if c2.Some? && c2.value % 4 == 0 then
      Some([c0.value * 4 + c1.value / 16, (c1.value % 16) * 16 + c2.value / 4])
    else None
  }

  /**
   * Decodes canonical padded base64: None for a length that is not a multiple of
   * four, a character outside the alphabet, misplaced padding or non-zero pad bits.
   */
  function Decode(s: string): (bytes: Option<seq<byte>>)
    decreases |s|
  {
    if |s| == 0 then Some([])
    else if |s| < 4 then None
    else if |s| == 4 && s[3] == Pad then DecodePadded(s)
    else
      match DecodeQuad(s[..4])
      case None => None
      case Some(group) =>
        match Decode(s[4..])
        case None => None
        case Some(rest) => Some(group + rest)
  }

  lemma DecodeEncodeSextet(v: sextet)
    ensures DecodeChar(EncodeSextet(v)) == Some(v)
  {
  }

  /** The pad character is not in the alphabet. */
  lemma SextetIsNotPad(v: sextet)
    ensures EncodeSextet(v) != Pad
  {
    DecodeEncodeSextet(v);
  }

  /** The bit arithmetic behind one group: the four sextets recombine into the three octets. */
  lemma GroupArithmetic(b0: byte, b1: byte, b2: byte)
    ensures ((b0 % 4) * 16 + b1 / 16) / 16 == b0 % 4
    ensures ((b0 % 4) * 16 + b1 / 16) % 16 == b1 / 16
    ensures ((b1 % 16) * 4 + b2 / 64) / 4 == b1 % 16
    ensures ((b1 % 16) * 4 + b2 / 64) % 4 == b2 / 64
    ensures (b0 / 4) * 4 + b0 % 4 == b0
    ensures (b1 / 16) * 16 + b1 % 16 == b1
    ensures (b2 / 64) * 64 + b2 % 64 == b2
  {
  }

  lemma DecodeEncodeTriple(b0: byte, b1: byte, b2: byte)
    ensures DecodeQuad(EncodeTriple(b0, b1, b2)) == Some([b0, b1, b2])
  {
    var v0, v1, v2, v3 := b0 / 4, (b0 % 4) * 16 + b1 / 16, (b1 % 16) * 4 + b2 / 64, b2 % 64;
    var q := EncodeTriple(b0, b1, b2);
    assert q == [EncodeSextet(v0), EncodeSextet(v1), EncodeSextet(v2), EncodeSextet(v3)];
    DecodeEncodeSextet(v0);
    DecodeEncodeSextet(v1);
    DecodeEncodeSextet(v2);
    DecodeEncodeSextet(v3);
    GroupArithmetic(b0, b1, b2);
    assert v0 * 4 + v1 / 16 == b0;
    assert (v1 % 16) * 16 + v2 / 4 == b1;
    assert (v2 % 4) * 64 + v3 == b2;
  }

  /** A final group of one octet decodes back from its two characters and two pads. */
  lemma DecodeEncodeOne(b0: byte)
    ensures DecodePadded(EncodeTail([b0])) == Some([b0])
  {
    var v0, v1 := b0 / 4, (b0 % 4) * 16;
    assert EncodeTail([b0]) == [EncodeSextet(v0), EncodeSextet(v1), Pad, Pad];
    DecodeEncodeSextet(v0);
    DecodeEncodeSextet(v1);
    assert v1 % 16 == 0 && v0 * 4 + v1 / 16 == b0;
  }

  /** A final group of two octets decodes back from its three characters and one pad. */
  lemma DecodeEncodeTwo(b0: byte, b1: byte)
    ensures DecodePadded(EncodeTail([b0, b1])) == Some([b0, b1])
  {
    var v0, v1, v2 := b0 / 4, (b0 % 4) * 16 + b1 / 16, (b1 % 16) * 4;
    assert EncodeTail([b0, b1]) == [EncodeSextet(v0), EncodeSextet(v1), EncodeSextet(v2), Pad];
    DecodeEncodeSextet(v0);
    DecodeEncodeSextet(v1);
    DecodeEncodeSextet(v2);
    SextetIsNotPad(v2);
    GroupArithmetic(b0, b1, 0);
    assert v2 % 4 == 0 && v0 * 4 + v1 / 16 == b0 && (v1 % 16) * 16 + v2 / 4 == b1;
  }

  lemma DecodeEncodeTail(bytes: seq<byte>)
    requires 1 <= |bytes| <= 2
    ensures DecodePadded(EncodeTail(bytes)) == Some(bytes)
  {
    if |bytes| == 1 {
      assert bytes == [bytes[0]];
      DecodeEncodeOne(bytes[0]);
    } else {
      assert bytes == [bytes[0], bytes[1]];
      DecodeEncodeTwo(bytes[0], bytes[1]);
    }
  }

  /** A full leading group is decoded on its own and the rest after it. */
  lemma DecodeFullGroup(s: string, group: seq<byte>, rest: seq<byte>)
    requires |s| >= 4 && s[3] != Pad
    requires DecodeQuad(s[..4]) == Some(group) && Decode(s[4..]) == Some(rest)
    ensures Decode(s) == Some(group + rest)
  {
  }

  /** Decoding an encoding gives back the octets that were encoded. */
  lemma {:induction false} DecodeEncode(bytes: seq<byte>)
    ensures Decode(Encode(bytes)) == Some(bytes)
    decreases |bytes|
  {
    if 1 <= |bytes| <= 2 {
      var e := EncodeTail(bytes);
      assert Encode(bytes) == e;
      assert |e| == 4 && e[3] == Pad;
      DecodeEncodeTail(bytes);
      assert Decode(e) == DecodePadded(e);
    } else if |bytes| >= 3 {
      var head, tail := EncodeTriple(bytes[0], bytes[1], bytes[2]), Encode(bytes[3..]);
      var s := head + tail;
      assert Encode(bytes) == s;
      DecodeEncodeTriple(bytes[0], bytes[1], bytes[2]);
      assert bytes[..3] == [bytes[0], bytes[1], bytes[2]];
      SextetIsNotPad(bytes[2] % 64);
      assert s[..4] == head && s[4..] == tail;
      DecodeEncode(bytes[3..]);
      DecodeFullGroup(s, bytes[..3], bytes[3..]);
      assert bytes[..3] + bytes[3..] == bytes;
    }
  }
}
