/** Hexadecimal text as Node's `Buffer` reads and writes it. */
module Hex {

  type byte = b: int | 0 <= b < 256

  /** The digits `toString('hex')` writes: lower case. */
  predicate IsLowerHexDigit(c: char) {
    '0' <= c <= '9' || 'a' <= c <= 'f'
  }

  /** The digits `Buffer.from(s, 'hex')` accepts: either case. */
  predicate IsHexDigit(c: char) {
    '0' <= c <= '9' || 'a' <= c <= 'f' || 'A' <= c <= 'F'
  }

  function DigitChar(d: int): (c: char)
    requires 0 <= d < 16
    ensures IsLowerHexDigit(c)
  {
    if d < 10 then ('0' as int + d) as char else ('a' as int + d - 10) as char
  }

  function DigitValue(c: char): (d: int)
    requires IsHexDigit(c)
    ensures 0 <= d < 16
  {
    if '0' <= c <= '9' then c as int - '0' as int
    else if 'a' <= c <= 'f' then c as int - 'a' as int + 10
    else c as int - 'A' as int + 10
  }

  /** `buffer.toString('hex')`: two lower-case digits per byte. */
  function Encode(bytes: seq<byte>): (s: string)
    ensures |s| == 2 * |bytes|
    ensures forall i | 0 <= i < |s| :: IsLowerHexDigit(s[i])
  {
    if bytes == [] then []
    else [DigitChar(bytes[0] / 16), DigitChar(bytes[0] % 16)] + Encode(bytes[1..])
  }

  /** `Buffer.from(s, 'hex')`: decodes digit pairs and stops at the first pair
      that is not two hex digits (an odd last digit is dropped). */
  function Decode(s: string): (bytes: seq<byte>)
    ensures |bytes| <= |s| / 2
  {
    if |s| >= 2 && IsHexDigit(s[0]) && IsHexDigit(s[1]) then
      [16 * DigitValue(s[0]) + DigitValue(s[1])] + Decode(s[2..])
    else []
  }

  lemma DigitRoundTrip(d: int)
    requires 0 <= d < 16
    ensures DigitValue(DigitChar(d)) == d
  {
  }

  /** Decoding what was encoded gives the bytes back. */
  lemma {:induction false} DecodeEncode(bytes: seq<byte>)
    ensures Decode(Encode(bytes)) == bytes
  {
    if bytes != [] {
      var s := Encode(bytes);
      var b := bytes[0];
      DigitRoundTrip(b / 16);
      DigitRoundTrip(b % 16);
      assert s[2..] == Encode(bytes[1..]);
      DecodeEncode(bytes[1..]);
    }
  }

  /** Hex text never holds the `:` that separates IV and ciphertext. */
  lemma EncodeHasNoColon(bytes: seq<byte>)
    ensures ':' !in Encode(bytes)
  {
    var s := Encode(bytes);
    forall i | 0 <= i < |s| ensures s[i] != ':' {
      assert IsLowerHexDigit(s[i]);
    }
  }
}
