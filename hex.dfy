/**
 * Base16 as in section 8 of RFC 4648, as the `hex` crate implements it: `Encode` writes
 * lowercase digits, `Decode` accepts either case and rejects an odd length or any
 * character that is not a hexadecimal digit.
 */
module Hex {
  import opened Wrappers

  newtype u8 = x: int | 0 <= x < 256

  /** The lowercase digit for a nibble. */
  function NibbleChar(v: nat): (c: char)
    requires v < 16
    ensures IsLowerHexDigit(c)
  {
    if v < 10 then ('0' as int + v) as char else ('a' as int + v - 10) as char
  }

  predicate IsHexDigit(c: char)
  {
    '0' <= c <= '9' || 'a' <= c <= 'f' || 'A' <= c <= 'F'
  }

  predicate IsLowerHexDigit(c: char)
  {
    '0' <= c <= '9' || 'a' <= c <= 'f'
  }

  /** The value of a hexadecimal digit, either case. */
  function DigitValue(c: char): (v: nat)
    requires IsHexDigit(c)
    ensures v < 16 && NibbleChar(v) == ToLower(c)
  {
    if '0' <= c <= '9' then c as nat - '0' as nat
    else if 'a' <= c <= 'f' then c as nat - 'a' as nat + 10
    else c as nat - 'A' as nat + 10
  }

  function ToLower(c: char): char
  {
    if 'A' <= c <= 'Z' then (c as int - 'A' as int + 'a' as int) as char else c
  }

  /** Every character lowercased. */
  function LowerText(s: string): (r: string)
    ensures |r| == |s| && forall i :: 0 <= i < |s| ==> r[i] == ToLower(s[i])
  {
    if s == [] then [] else [ToLower(s[0])] + LowerText(s[1..])
  }

  function EncodeByte(b: u8): string
  {
    [NibbleChar(b as int / 16), NibbleChar(b as int % 16)]
  }

  /** `hex::encode`: two lowercase digits per byte, high nibble first. */
  function Encode(bytes: seq<u8>): (s: string)
    ensures |s| == 2 * |bytes|
    ensures forall i :: 0 <= i < |s| ==> IsLowerHexDigit(s[i])
  {
    if bytes == [] then "" else EncodeByte(bytes[0]) + Encode(bytes[1..])
  }

  /** Decoding pairs of digits, for an input of even length. */
  function DecodePairs(s: string): (r: Option<seq<u8>>)
    requires |s| % 2 == 0
    ensures r.Some? <==> forall i :: 0 <= i < |s| ==> IsHexDigit(s[i])
    ensures r.Some? ==> 2 * |r.value| == |s|
  {
    if s == [] then Some([])
    else if !IsHexDigit(s[0]) || !IsHexDigit(s[1]) then None
    else
      match DecodePairs(s[2..])
      case None => None
      case Some(rest) => Some([(DigitValue(s[0]) * 16 + DigitValue(s[1])) as u8] + rest)
  }

  /** `hex::decode`: an odd length is an error before any character is looked at. */
  function Decode(s: string): (r: Option<seq<u8>>)
    ensures r.Some? <==> |s| % 2 == 0 && forall i :: 0 <= i < |s| ==> IsHexDigit(s[i])
    ensures r.Some? ==> 2 * |r.value| == |s|
  {
    if |s| % 2 != 0 then None else DecodePairs(s)
  }

  /** Encoding works byte by byte: the encoding of a concatenation is the concatenation. */
  lemma {:induction false} EncodeAppend(a: seq<u8>, b: seq<u8>)
    ensures Encode(a + b) == Encode(a) + Encode(b)
  {
    if a != [] {
      assert (a + b)[1..] == a[1..] + b;
      EncodeAppend(a[1..], b);
    } else {
      assert a + b == b;
    }
  }

  lemma NibbleValue(v: nat)
    requires v < 16
    ensures DigitValue(NibbleChar(v)) == v
  {
  }

  /** Decoding what was encoded gives the bytes back. */
  lemma {:induction false} DecodeEncode(bytes: seq<u8>)
    ensures Decode(Encode(bytes)) == Some(bytes)
  {
    if bytes != [] {
      var b := bytes[0];
      var s := Encode(bytes);
      assert s == EncodeByte(b) + Encode(bytes[1..]);
      assert s[2..] == Encode(bytes[1..]);
      DecodeEncode(bytes[1..]);
      NibbleValue(b as int / 16);
      NibbleValue(b as int % 16);
      assert (DigitValue(s[0]) * 16 + DigitValue(s[1])) as u8 == b;
      assert DecodePairs(s) == Some([b] + bytes[1..]);
      assert [b] + bytes[1..] == bytes;
    }
  }

  /** Encoding what was decoded gives the input back, in lowercase. */
  lemma {:induction false} EncodeDecode(s: string)
    requires Decode(s).Some?
    ensures Encode(Decode(s).value) == LowerText(s)
    decreases |s|
  {
    if s != [] {
      var rest := s[2..];
      assert forall i :: 0 <= i < |rest| ==> IsHexDigit(rest[i]) by {
        forall i | 0 <= i < |rest| ensures IsHexDigit(rest[i]) {
          assert rest[i] == s[i + 2];
        }
      }
      EncodeDecode(rest);
      var hi, lo := DigitValue(s[0]), DigitValue(s[1]);
      var b := (hi * 16 + lo) as u8;
      assert Decode(s).value == [b] + Decode(rest).value;
      assert b as int / 16 == hi && b as int % 16 == lo;
      assert EncodeByte(b) == [ToLower(s[0]), ToLower(s[1])];
      assert LowerText(s) == [ToLower(s[0]), ToLower(s[1])] + LowerText(rest);
    }
  }
}
