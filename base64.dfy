/**
 * Base64 with the standard alphabet and `=` padding (section 4 of RFC 4648),
 * as `base64.b64encode` computes it, together with a decoder that accepts
 * exactly the canonical encodings.
 */
module Base64 {
  import opened Wrappers
  import opened Utf8

  /** The character of the alphabet that stands for the six-bit value `k`. */
  function CharOf(k: int): (c: char)
    requires 0 <= k < 64
    ensures c != '='
  {
    if k < 26 then ('A' as int + k) as char
    else if k < 52 then ('a' as int + (k - 26)) as char
    else if k < 62 then ('0' as int + (k - 52)) as char
    else if k == 62 then '+'
    else '/'
  }

  /** The six-bit value a character stands for, if it belongs to the alphabet. */
  function IndexOf(c: char): (r: Option<int>)
    ensures r.Some? ==> 0 <= r.value < 64 && CharOf(r.value) == c
  {
    if 'A' <= c <= 'Z' then Some(c as int - 'A' as int)
    else if 'a' <= c <= 'z' then Some(c as int - 'a' as int + 26)
    else if '0' <= c <= '9' then Some(c as int - '0' as int + 52)
    else if c == '+' then Some(62)
    else if c == '/' then Some(63)
    else None
  }

  lemma IndexOfCharOf(k: int)
    requires 0 <= k < 64
    ensures IndexOf(CharOf(k)) == Some(k)
  {
  }

  /** The four characters for a full group of three bytes. */
  function EncodeTriple(b0: byte, b1: byte, b2: byte): string {
    [CharOf(b0 / 4), CharOf((b0 % 4) * 16 + b1 / 16), CharOf((b1 % 16) * 4 + b2 / 64), CharOf(b2 % 64)]
  }

  /** `base64.b64encode(b)`: four characters for every started group of three bytes. */
  function Encode(b: seq<byte>): string {
    if |b| == 0 then []
    else if |b| == 1 then [CharOf(b[0] / 4), CharOf((b[0] % 4) * 16), '=', '=']
    else if |b| == 2 then [CharOf(b[0] / 4), CharOf((b[0] % 4) * 16 + b[1] / 16), CharOf((b[1] % 16) * 4), '=']
    else EncodeTriple(b[0], b[1], b[2]) + Encode(b[3..])
  }

  /** The three bytes of an unpadded group, if all four characters are in the alphabet. */
  function DecodeQuad(q: string): Option<seq<byte>>
    requires |q| == 4
  {
    match (IndexOf(q[0]), IndexOf(q[1]), IndexOf(q[2]), IndexOf(q[3]))
    case (Some(c0), Some(c1), Some(c2), Some(c3)) =>
      Some([c0 * 4 + c1 / 16, (c1 % 16) * 16 + c2 / 4, (c2 % 4) * 64 + c3])
    case _ => None
  }

  /**
   * The bytes of the last group, which may end in one or two `=`; the bits
   * that padding leaves unused must be zero.
   */
  function DecodeLast(q: string): Option<seq<byte>>
    requires |q| == 4
  {
    if q[2] == '=' && q[3] == '=' then
      match (IndexOf(q[0]), IndexOf(q[1]))
      case (Some(c0), Some(c1)) => if c1 % 16 == 0 then Some([c0 * 4 + c1 / 16]) else None
      case _ => None
    else if q[3] == '=' then
      match (IndexOf(q[0]), IndexOf(q[1]), IndexOf(q[2]))
      case (Some(c0), Some(c1), Some(c2)) =>
        if c2 % 4 == 0 then Some([c0 * 4 + c1 / 16, (c1 % 16) * 16 + c2 / 4]) else None
      case _ => None
    else DecodeQuad(q)
  }

  /** The bytes a canonical base64 string encodes, or `None` for any other string. */
  function Decode(s: string): Option<seq<byte>>
  {
    if |s| == 0 then Some([])
    else if |s| < 4 then None
    else if |s| == 4 then DecodeLast(s)
    else
      match (DecodeQuad(s[..4]), Decode(s[4..]))
      case (Some(head), Some(tail)) => Some(head + tail)
      case _ => None
  }

  /** Splitting `q * d + r` by `d` gives back `q` and `r`. */
  lemma DivModOf(q: int, r: int, d: int)
    requires d == 4 || d == 16 || d == 64
    requires 0 <= r < d
    ensures (q * d + r) / d == q && (q * d + r) % d == r
  {
    if d == 4 {
      assert (q * 4 + r) / 4 == q;
    } else if d == 16 {
      assert (q * 16 + r) / 16 == q;
    } else {
      assert (q * 64 + r) / 64 == q;
    }
  }

  lemma DecodeEncodeTriple(b0: byte, b1: byte, b2: byte)
    ensures DecodeQuad(EncodeTriple(b0, b1, b2)) == Some([b0, b1, b2])
  {
    IndexOfCharOf(b0 / 4);
    IndexOfCharOf((b0 % 4) * 16 + b1 / 16);
    IndexOfCharOf((b1 % 16) * 4 + b2 / 64);
    IndexOfCharOf(b2 % 64);
    DivModOf(b0 % 4, b1 / 16, 16);
    DivModOf(b1 % 16, b2 / 64, 4);
  }

  lemma DecodeEncodeOne(b0: byte)
    ensures Decode(Encode([b0])) == Some([b0])
  {
    var c0, c1 := b0 / 4, (b0 % 4) * 16;
    IndexOfCharOf(c0);
    IndexOfCharOf(c1);
    var s := [CharOf(c0), CharOf(c1), '=', '='];
    assert Encode([b0]) == s;
    DivModOf(b0 % 4, 0, 16);
    assert DecodeLast(s) == Some([c0 * 4 + c1 / 16]);
  }

  lemma DecodeEncodeTwo(b0: byte, b1: byte)
    ensures Decode(Encode([b0, b1])) == Some([b0, b1])
  {
    var c0, c1, c2 := b0 / 4, (b0 % 4) * 16 + b1 / 16, (b1 % 16) * 4;
    IndexOfCharOf(c0);
    IndexOfCharOf(c1);
    IndexOfCharOf(c2);
    DivModOf(b0 % 4, b1 / 16, 16);
    DivModOf(b1 % 16, 0, 4);
    var s := [CharOf(c0), CharOf(c1), CharOf(c2), '='];
    assert Encode([b0, b1]) == s;
    assert DecodeLast(s) == Some([c0 * 4 + c1 / 16, (c1 % 16) * 16 + c2 / 4]);
  }

  /** Decoding undoes encoding. */
  lemma {:induction false} DecodeEncode(b: seq<byte>)
    ensures Decode(Encode(b)) == Some(b)
    decreases |b|
  {
    if |b| == 1 {
      DecodeEncodeOne(b[0]);
      assert b == [b[0]];
    } else if |b| == 2 {
      DecodeEncodeTwo(b[0], b[1]);
      assert b == [b[0], b[1]];
    } else if |b| == 3 {
      DecodeEncodeThree(b);
    } else if |b| > 3 {
      DecodeEncode(b[3..]);
      DecodeEncodeGroup(b);
    }
  }

  /** Three bytes decode back from their single group. */
  lemma DecodeEncodeThree(b: seq<byte>)
    requires |b| == 3
    ensures Decode(Encode(b)) == Some(b)
  {
    EncodeGroup(b);
    assert b[3..] == [];
    assert Encode(b) == EncodeTriple(b[0], b[1], b[2]);
    DecodeOnlyGroup(b[0], b[1], b[2]);
    assert b == [b[0], b[1], b[2]];
  }

  /** A leading full group decodes back, given that the rest does. */
  lemma DecodeEncodeGroup(b: seq<byte>)
    requires |b| > 3
    requires Decode(Encode(b[3..])) == Some(b[3..])
    ensures Decode(Encode(b)) == Some(b)
  {
    var q := EncodeTriple(b[0], b[1], b[2]);
    var rest := Encode(b[3..]);
    EncodeGroup(b);
    DecodeEncodeTriple(b[0], b[1], b[2]);
    SplitThree(b);
    assert |rest| > 0;
    DecodeGroups(q, rest);
  }

  /** A single full group decodes on its own. */
  lemma DecodeOnlyGroup(b0: byte, b1: byte, b2: byte)
    ensures Decode(EncodeTriple(b0, b1, b2)) == Some([b0, b1, b2])
  {
    var q := EncodeTriple(b0, b1, b2);
    DecodeEncodeTriple(b0, b1, b2);
    assert q[2] != '=' && q[3] != '=';
    assert Decode(q) == DecodeLast(q) == DecodeQuad(q);
  }

  /** A string of three or more bytes encodes as its first group followed by the rest. */
  lemma EncodeGroup(b: seq<byte>)
    requires |b| >= 3
    ensures Encode(b) == EncodeTriple(b[0], b[1], b[2]) + Encode(b[3..])
  {
  }

  lemma SplitThree<T>(b: seq<T>)
    requires |b| >= 3
    ensures b == [b[0], b[1], b[2]] + b[3..]
  {
  }

  /** Four characters for every started group of three bytes. */
  lemma {:induction false} EncodeLength(b: seq<byte>)
    ensures |Encode(b)| == 4 * ((|b| + 2) / 3)
    decreases |b|
  {
    if |b| >= 3 {
      EncodeLength(b[3..]);
    }
  }

  /** A string of more than four characters decodes as its first group followed by the rest. */
  lemma DecodeGroups(q: string, rest: string)
    requires |q| == 4 && |rest| > 0
    ensures Decode(q + rest) == match (DecodeQuad(q), Decode(rest))
                                case (Some(head), Some(tail)) => Some(head + tail)
                                case _ => None
  {
    assert (q + rest)[..4] == q;
    assert (q + rest)[4..] == rest;
  }

  /** Only the encodings of byte strings decode: encoding a decoded string gives it back. */
  lemma {:induction false} EncodeDecode(s: string)
    requires Decode(s).Some?
    ensures Encode(Decode(s).value) == s
    decreases |s|
  {
    if |s| == 4 {
      EncodeDecodeLast(s);
    } else if |s| > 4 {
      var head := DecodeQuad(s[..4]).value;
      var tail := Decode(s[4..]).value;
      EncodeDecodeQuad(s[..4]);
      EncodeDecode(s[4..]);
      assert (head + tail)[3..] == tail;
      assert s == s[..4] + s[4..];
    }
  }

  lemma EncodeDecodeQuad(q: string)
    requires |q| == 4 && DecodeQuad(q).Some?
    ensures |DecodeQuad(q).value| == 3
    ensures EncodeTriple(DecodeQuad(q).value[0], DecodeQuad(q).value[1], DecodeQuad(q).value[2]) == q
  {
    var c0, c1, c2, c3 := IndexOf(q[0]).value, IndexOf(q[1]).value, IndexOf(q[2]).value, IndexOf(q[3]).value;
    var x0, x1, x2 := c0 * 4 + c1 / 16, (c1 % 16) * 16 + c2 / 4, (c2 % 4) * 64 + c3;
    DivModOf(c0, c1 / 16, 4);
    DivModOf(c1 % 16, c2 / 4, 16);
    DivModOf(c2 % 4, c3, 64);
    assert x0 / 4 == c0 && (x0 % 4) * 16 + x1 / 16 == c1;
    assert (x1 % 16) * 4 + x2 / 64 == c2 && x2 % 64 == c3;
  }

  lemma EncodeDecodeLast(q: string)
    requires |q| == 4 && DecodeLast(q).Some?
    ensures Encode(DecodeLast(q).value) == q
  {
    if q[2] == '=' && q[3] == '=' {
      EncodeDecodeOnePadded(q);
    } else if q[3] == '=' {
      EncodeDecodeTwoPadded(q);
    } else {
      EncodeDecodeQuad(q);
      var b := DecodeQuad(q).value;
      EncodeGroup(b);
      assert b[3..] == [];
    }
  }

  /** A group ending in `==` is the encoding of the one byte it decodes to. */
  lemma EncodeDecodeOnePadded(q: string)
    requires |q| == 4 && q[2] == '=' && q[3] == '=' && DecodeLast(q).Some?
    ensures Encode(DecodeLast(q).value) == q
  {
    var c0, c1 := IndexOf(q[0]).value, IndexOf(q[1]).value;
    var x0 := c0 * 4 + c1 / 16;
    assert DecodeLast(q).value == [x0];
    DivModOf(c0, c1 / 16, 4);
    assert (c1 / 16) * 16 == c1;
    assert Encode([x0]) == [CharOf(c0), CharOf(c1), '=', '='];
    assert q == [q[0], q[1], '=', '='];
  }

  /** A group ending in a single `=` is the encoding of the two bytes it decodes to. */
  lemma EncodeDecodeTwoPadded(q: string)
    requires |q| == 4 && q[2] != '=' && q[3] == '=' && DecodeLast(q).Some?
    ensures Encode(DecodeLast(q).value) == q
  {
    var c0, c1, c2 := IndexOf(q[0]).value, IndexOf(q[1]).value, IndexOf(q[2]).value;
    var x0, x1 := c0 * 4 + c1 / 16, (c1 % 16) * 16 + c2 / 4;
    assert DecodeLast(q).value == [x0, x1];
    DivModOf(c0, c1 / 16, 4);
    DivModOf(c1 % 16, c2 / 4, 16);
    assert (c2 / 4) * 4 == c2;
    assert x0 / 4 == c0 && (x0 % 4) * 16 + x1 / 16 == c1 && (x1 % 16) * 4 == c2;
    assert Encode([x0, x1]) == [CharOf(c0), CharOf(c1), CharOf(c2), '='];
    assert q == [q[0], q[1], q[2], '='];
  }
}
