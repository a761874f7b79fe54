/** Lowercase hexadecimal text of a byte string, as Go's
    `hex.EncodeToString` writes it for the `Sign` header, with the decoder
    that inverts it. */
module Hex {
  import opened Wrappers

  type Byte = b: int | 0 <= b < 256

  const Digits: string := "0123456789abcdef"

  function DigitValue(c: char): (r: Option<nat>)
    ensures r.Some? ==> r.value < 16 && Digits[r.value] == c
  {
    if '0' <= c <= '9' then Some(c as int - '0' as int)
    else if 'a' <= c <= 'f' then Some(c as int - 'a' as int + 10)
    else None
  }

  predicate IsLowerHex(c: char) {
    ('0' <= c <= '9') || ('a' <= c <= 'f')
  }

  /** Two lowercase digits per byte, high nibble first. */
  function Encode(bs: seq<Byte>): (r: string)
    ensures |r| == 2 * |bs|
    ensures forall i :: 0 <= i < |r| ==> IsLowerHex(r[i])
  {
    if bs == [] then []
    else [Digits[bs[0] / 16], Digits[bs[0] % 16]] + Encode(bs[1..])
  }

  /** Reads back what `Encode` writes; refuses odd lengths and other characters. */
  function Decode(s: string): Option<seq<Byte>> {
    if s == [] then Some([])
    else if |s| == 1 then None
    else
      match (DigitValue(s[0]), DigitValue(s[1]), Decode(s[2..]))
      case (Some(hi), Some(lo), Some(rest)) => Some([hi * 16 + lo] + rest)
      case _ => None
  }

  lemma DigitValueOfDigit(n: nat)
    requires n < 16
    ensures DigitValue(Digits[n]) == Some(n)
  {
  }

  /** Decoding reads one byte back from the two digits that encode it. */
  lemma DecodeDigitPair(b: Byte, s: string)
    ensures Decode([Digits[b / 16], Digits[b % 16]] + s) ==
      match Decode(s)
      case Some(rest) => Some([b] + rest)
      case None => None
  {
    var t := [Digits[b / 16], Digits[b % 16]] + s;
    DigitValueOfDigit(b / 16);
    DigitValueOfDigit(b % 16);
    assert t[0] == Digits[b / 16] && t[1] == Digits[b % 16] && t[2..] == s;
  }

  /** Decoding the hex text gives back the bytes: no two MACs share a header. */
  lemma {:induction false} DecodeEncode(bs: seq<Byte>)
    ensures Decode(Encode(bs)) == Some(bs)
  {
    if bs != [] {
      DecodeDigitPair(bs[0], Encode(bs[1..]));
      DecodeEncode(bs[1..]);
      assert [bs[0]] + bs[1..] == bs;
    }
  }
}
