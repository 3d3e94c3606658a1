/**
 * Base16 ("hex") encoding of byte sequences, as in section 8 of RFC 4648.
 * Encoding writes lower-case digits; decoding accepts either case and
 * fails on odd lengths and on non-hex characters.
 */
module Hex {
  import opened Common

  type byte = b: int | 0 <= b < 256

  /** The hex digit for a nibble. */
  function Digit(n: int): (c: char)
    requires 0 <= n < 16
    ensures c != ':'
    ensures DigitValue(c) == Some(n)
  {
    if n < 10 then ('0' as int + n) as char else ('a' as int + n - 10) as char
  }

  /** The nibble a hex digit stands for, or None for any other character. */
  function DigitValue(c: char): (r: Option<int>)
    ensures r.Some? ==> 0 <= r.value < 16
  {
    if '0' <= c <= '9' then Some(c as int - '0' as int)
    else if 'a' <= c <= 'f' then Some(c as int - 'a' as int + 10)
    else if 'A' <= c <= 'F' then Some(c as int - 'A' as int + 10)
    else None
  }

  /** Two digits per byte, high nibble first. */
  function Encode(bytes: seq<byte>): (s: string)
    ensures |s| == 2 * |bytes|
    ensures ':' !in s
  {
    if bytes == [] then []
    else [Digit(bytes[0] / 16), Digit(bytes[0] % 16)] + Encode(bytes[1..])
  }

  function Decode(s: string): (r: Option<seq<byte>>)
    ensures r.Some? ==> 2 * |r.value| == |s|
  {
    if |s| == 0 then Some([])
    else if |s| == 1 then None
    else
      match (DigitValue(s[0]), DigitValue(s[1]), Decode(s[2..]))
      case (Some(hi), Some(lo), Some(rest)) => Some([(16 * hi + lo) as byte] + rest)
      case _ => None
  }

  /** Decoding undoes encoding. */
  lemma {:induction false} DecodeEncode(bytes: seq<byte>)
    ensures Decode(Encode(bytes)) == Some(bytes)
  {
    if bytes != [] {
      var s := Encode(bytes);
      assert s[2..] == Encode(bytes[1..]);
      DecodeEncode(bytes[1..]);
      assert DigitValue(s[0]) == Some(bytes[0] / 16);
      assert DigitValue(s[1]) == Some(bytes[0] % 16);
      assert [bytes[0]] + bytes[1..] == bytes;
    }
  }

  /** Distinct byte sequences have distinct encodings. */
  lemma EncodeInjective(a: seq<byte>, b: seq<byte>)
    requires Encode(a) == Encode(b)
    ensures a == b
  {
    DecodeEncode(a);
    DecodeEncode(b);
  }
}
