/** Bytes and the two byte encodings the back end relies on: Python's
    `str.encode("utf-8")` and the lowercase hexadecimal of `secrets.token_hex`. */
module Bytes {

  newtype byte = x: int | 0 <= x < 256

  predicate IsAscii(s: string) {
    forall i :: 0 <= i < |s| ==> s[i] as int < 128
  }

  /** The UTF-8 encoding of one Unicode scalar value. */
  function Utf8Char(c: char): (b: seq<byte>)
    ensures 1 <= |b| <= 4
    ensures |b| == 1 <==> c as int < 0x80
    ensures c as int < 0x80 ==> b[0] as int == c as int
  {
    var cp := c as int;
    if cp < 0x80 then [cp as byte]
    else if cp < 0x800 then [(0xC0 + cp / 64) as byte, (0x80 + cp % 64) as byte]
    else if cp < 0x10000 then
      [(0xE0 + cp / 4096) as byte, (0x80 + (cp / 64) % 64) as byte, (0x80 + cp % 64) as byte]
    else
      [(0xF0 + cp / 262144) as byte, (0x80 + (cp / 4096) % 64) as byte,
       (0x80 + (cp / 64) % 64) as byte, (0x80 + cp % 64) as byte]
  }

  /** `s.encode("utf-8")`. */
  function Utf8Encode(s: string): (b: seq<byte>)
    ensures |s| <= |b| <= 4 * |s|
    ensures b == [] <==> s == []
  {
    if s == [] then [] else Utf8Char(s[0]) + Utf8Encode(s[1..])
  }

  /** ASCII text encodes to one byte per character, each the character's code. */
  lemma {:induction false} Utf8OfAscii(s: string)
    requires IsAscii(s)
    ensures |Utf8Encode(s)| == |s|
    ensures forall i :: 0 <= i < |s| ==> Utf8Encode(s)[i] as int == s[i] as int
  {
    if s != [] {
      assert IsAscii(s[1..]) by {
        forall i | 0 <= i < |s| - 1 ensures s[1..][i] as int < 128 {
          assert s[1..][i] == s[i + 1];
        }
      }
      Utf8OfAscii(s[1..]);
      forall i | 0 <= i < |s| ensures Utf8Encode(s)[i] as int == s[i] as int {
        if i > 0 {
          assert Utf8Encode(s)[i] == Utf8Encode(s[1..])[i - 1];
          assert s[i] == s[1..][i - 1];
        }
      }
    }
  }

  // ---------------------------------------------------------------------------
  // Hexadecimal

  const HexAlphabet: string := "0123456789abcdef"

  predicate IsLowerHex(s: string) {
    forall i :: 0 <= i < |s| ==> s[i] in HexAlphabet
  }

  /** Two lowercase hexadecimal digits per byte, high nibble first (`bytes.hex()`). */
  function HexEncode(bs: seq<byte>): (s: string)
    ensures |s| == 2 * |bs|
    ensures IsLowerHex(s)
  {
    if bs == [] then []
    else [HexAlphabet[bs[0] as int / 16], HexAlphabet[bs[0] as int % 16]] + HexEncode(bs[1..])
  }
}
