/**
 * UTF-8 (RFC 3629), the encoding `str.encode()` applies to the Langfuse
 * credentials before they are base64-encoded.  A Dafny `char` is a Unicode
 * scalar value, so every string has an encoding.
 */
module Utf8 {

  type byte = x: int | 0 <= x < 256

  /**
   * The one to four bytes that encode `c`, in the shortest form: the length
   * is fixed by the code point's range, and the lead byte announces it.
   */
  function EncodeChar(c: char): (r: seq<byte>)
    ensures 1 <= |r| <= 4
    ensures |r| == 1 <==> c as int < 0x80
    ensures |r| == 2 <==> 0x80 <= c as int < 0x800
    ensures |r| == 3 <==> 0x800 <= c as int < 0x1_0000
    ensures |r| == 2 ==> 0xC0 <= r[0] < 0xE0
    ensures |r| == 3 ==> 0xE0 <= r[0] < 0xF0
    ensures |r| == 4 ==> 0xF0 <= r[0] < 0xF8
    ensures |r| == 1 ==> r[0] == c as int
    ensures forall k :: 1 <= k < |r| ==> 0x80 <= r[k] < 0xC0
  {
    var cp := c as int;
    if cp < 0x80 then [cp]
    else if cp < 0x800 then [0xC0 + cp / 0x40, 0x80 + cp % 0x40]
    else if cp < 0x1_0000 then [0xE0 + cp / 0x1000, 0x80 + (cp / 0x40) % 0x40, 0x80 + cp % 0x40]
    else [0xF0 + cp / 0x4_0000, 0x80 + (cp / 0x1000) % 0x40, 0x80 + (cp / 0x40) % 0x40, 0x80 + cp % 0x40]
  }

  /** The code point carried by one encoded character (leading byte plus continuation bytes). */
  function DecodeScalar(r: seq<byte>): int
    requires 1 <= |r| <= 4
  {
    if |r| == 1 then r[0]
    else if |r| == 2 then (r[0] as int - 0xC0) * 0x40 + (r[1] as int - 0x80)
    else if |r| == 3 then (r[0] as int - 0xE0) * 0x1000 + (r[1] as int - 0x80) * 0x40 + (r[2] as int - 0x80)
    else (r[0] as int - 0xF0) * 0x4_0000 + (r[1] as int - 0x80) * 0x1000 + (r[2] as int - 0x80) * 0x40 + (r[3] as int - 0x80)
  }

  /** Decoding the bytes of one character gives that character back. */
  lemma DecodeEncodeChar(c: char)
    ensures DecodeScalar(EncodeChar(c)) == c as int
  {
    var cp := c as int;
    if cp >= 0x1_0000 {
      var a, b, d := cp / 0x4_0000, (cp / 0x1000) % 0x40, (cp / 0x40) % 0x40;
      assert cp / 0x1000 == a * 0x40 + b;
      assert cp / 0x40 == (cp / 0x1000) * 0x40 + d;
    } else if cp >= 0x800 {
      assert cp / 0x40 == (cp / 0x1000) * 0x40 + (cp / 0x40) % 0x40;
    }
  }

  /** `s.encode()`: the encodings of the characters of `s`, in order. */
  function Encode(s: string): seq<byte>
  {
    if s == [] then [] else EncodeChar(s[0]) + Encode(s[1..])
  }

  /** The encoding of a concatenation is the concatenation of the encodings. */
  lemma {:induction false} EncodeConcat(a: string, b: string)
    ensures Encode(a + b) == Encode(a) + Encode(b)
  {
    if a == [] {
      assert a + b == b;
    } else {
      assert (a + b)[1..] == a[1..] + b;
      EncodeConcat(a[1..], b);
    }
  }

  /** An ASCII string is encoded one byte per character, each its code point. */
  lemma {:induction false} EncodeAscii(s: string)
    requires forall k :: 0 <= k < |s| ==> s[k] as int < 0x80
    ensures |Encode(s)| == |s|
    ensures forall k :: 0 <= k < |s| ==> Encode(s)[k] == s[k] as int
  {
    if s != [] {
      EncodeAscii(s[1..]);
    }
  }

  /** Every character takes between one and four bytes. */
  lemma {:induction false} EncodeLength(s: string)
    ensures |s| <= |Encode(s)| <= 4 * |s|
  {
    if s != [] {
      EncodeLength(s[1..]);
    }
  }
}
