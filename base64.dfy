/**
 * The base 64 encoding of section 4 of RFC 4648, which PHP's builtin
 * `base64_encode` implements: every 3 input bytes become 4 characters of the
 * 64-character alphabet `A-Z a-z 0-9 + /`; a final group of 1 or 2 bytes
 * becomes 2 or 3 characters followed by `==` or `=`.
 *
 * PHP strings are byte strings; a Dafny string stands for one when every
 * character is below 256, and `ToBytes`/`FromBytes` convert between the two.
 */
module Base64 {

  import opened PhpArrays

  type byte = x: int | 0 <= x < 256

  /** A 6-bit value: the index of one character of the alphabet. */
  type sextet = x: int | 0 <= x < 64

  /** A string every character of which is one byte. */
  predicate IsByteString(s: string)
  {
    forall i :: 0 <= i < |s| ==> s[i] as int < 256
  }

  function ToBytes(s: string): (b: seq<byte>)
    requires IsByteString(s)
    ensures |b| == |s|
    ensures forall i :: 0 <= i < |s| ==> b[i] == s[i] as int
  {
    seq(|s|, i requires 0 <= i < |s| => s[i] as int)
  }

  function FromBytes(b: seq<byte>): (s: string)
    ensures IsByteString(s)
    ensures |s| == |b|
    ensures forall i :: 0 <= i < |b| ==> s[i] as int == b[i]
  {
    seq(|b|, i requires 0 <= i < |b| => b[i] as char)
  }

  /** Converting a byte string to bytes loses nothing. */
  lemma BytesRoundTrip(s: string)
    requires IsByteString(s)
    ensures FromBytes(ToBytes(s)) == s
  {
  }

  /** The character for a 6-bit value, from the alphabet of Table 1. */
  function CharOf(x: sextet): char
  {
    if x < 26 then ('A' as int + x) as char
    else if x < 52 then ('a' as int + (x - 26)) as char
    else if x < 62 then ('0' as int + (x - 52)) as char
    else if x == 62 then '+'
    else '/'
  }

  /** The 6-bit value of an alphabet character; None for any other character. */
  function ValueOf(c: char): (r: Option<sextet>)
    ensures r.Some? ==> CharOf(r.value) == c
  {
    if 'A' <= c <= 'Z' then Some(c as int - 'A' as int)
    else if 'a' <= c <= 'z' then Some(c as int - 'a' as int + 26)
    else if '0' <= c <= '9' then Some(c as int - '0' as int + 52)
    else if c == '+' then Some(62)
    else if c == '/' then Some(63)
    else None
  }

  /** Every 6-bit value has exactly one character, and it decodes back. */
  lemma ValueOfCharOf(x: sextet)
    ensures ValueOf(CharOf(x)) == Some(x)
  {
  }

  /** The padding character is outside the alphabet. */
  lemma PadIsNotAValue(x: sextet)
    ensures CharOf(x) != '='
  {
  }

  /** The four characters for three bytes: 8+8+8 bits cut into 6+6+6+6. */
  function EncodeTriple(b0: byte, b1: byte, b2: byte): (q: string)
    ensures |q| == 4
  {
    [CharOf(b0 / 4), CharOf(b0 % 4 * 16 + b1 / 16), CharOf(b1 % 16 * 4 + b2 / 64), CharOf(b2 % 64)]
  }

  /** Section 4 of RFC 4648: groups of three bytes, then the padded tail. */
  function Encode(b: seq<byte>): (s: string)
    ensures |s| % 4 == 0
    ensures |s| == 0 <==> |b| == 0
    decreases |b|
  {
    if |b| == 0 then []
    else if |b| == 1 then
      [CharOf(b[0] / 4), CharOf(b[0] % 4 * 16), '=', '=']
    else if |b| == 2 then
      [CharOf(b[0] / 4), CharOf(b[0] % 4 * 16 + b[1] / 16), CharOf(b[1] % 16 * 4), '=']
    else EncodeTriple(b[0], b[1], b[2]) + Encode(b[3..])
  }

  /** The bytes of one group of four characters, the last group possibly padded. */
  function DecodeQuad(q: string, last: bool): (r: Option<seq<byte>>)
    requires |q| == 4
  {
    var v0, v1, v2, v3 := ValueOf(q[0]), ValueOf(q[1]), ValueOf(q[2]), ValueOf(q[3]);
    if v0.None? || v1.None? then None
    else
      var b0 := v0.value * 4 + v1.value / 16;
      if last && q[2] == '=' && q[3] == '=' then Some([b0])
      else if v2.None? then None
      else
        var b1 := v1.value % 16 * 16 + v2.value / 4;
        if last && q[3] == '=' then Some([b0, b1])
        else if v3.None? then None
        else Some([b0, b1, v2.value % 4 * 64 + v3.value])
  }

  /** The inverse of `Encode`: None for a string that is not base 64. */
  function Decode(s: string): (r: Option<seq<byte>>)
    decreases |s|
  {
    if |s| == 0 then Some([])
    else if |s| < 4 then None
    else
      match DecodeQuad(s[..4], |s| == 4)
      case None => None
      case Some(head) =>
        match Decode(s[4..])
        case None => None
        case Some(tail) => Some(head + tail)
  }

  /** Three bytes survive a trip through four characters. */
  lemma TripleRoundTrip(b0: byte, b1: byte, b2: byte, last: bool)
    ensures DecodeQuad(EncodeTriple(b0, b1, b2), last) == Some([b0, b1, b2])
  {
    var c0, c1, c2, c3 := b0 / 4, b0 % 4 * 16 + b1 / 16, b1 % 16 * 4 + b2 / 64, b2 % 64;
    ValueOfCharOf(c0);
    ValueOfCharOf(c1);
    ValueOfCharOf(c2);
    ValueOfCharOf(c3);
    PadIsNotAValue(c2);
    PadIsNotAValue(c3);
    assert c1 / 16 == b0 % 4 && c1 % 16 == b1 / 16;
    assert c2 / 4 == b1 % 16 && c2 % 4 == b2 / 64;
  }

  /** One byte survives a trip through two characters and two pads. */
  lemma SingleRoundTrip(b0: byte)
    ensures DecodeQuad([CharOf(b0 / 4), CharOf(b0 % 4 * 16), '=', '='], true) == Some([b0])
  {
    var c0, c1 := b0 / 4, b0 % 4 * 16;
    ValueOfCharOf(c0);
    ValueOfCharOf(c1);
    assert c1 / 16 == b0 % 4;
  }

  /** Two bytes survive a trip through three characters and one pad. */
  lemma PairRoundTrip(b0: byte, b1: byte)
    ensures DecodeQuad([CharOf(b0 / 4), CharOf(b0 % 4 * 16 + b1 / 16), CharOf(b1 % 16 * 4), '='], true)
            == Some([b0, b1])
  {
    var c0, c1, c2 := b0 / 4, b0 % 4 * 16 + b1 / 16, b1 % 16 * 4;
    ValueOfCharOf(c0);
    ValueOfCharOf(c1);
    ValueOfCharOf(c2);
    PadIsNotAValue(c2);
    assert c1 / 16 == b0 % 4 && c1 % 16 == b1 / 16;
    assert c2 / 4 == b1 % 16;
  }

  /** A decodable group followed by a decodable rest decodes to both in order. */
  lemma DecodeStep(q: string, rest: string, head: seq<byte>, tail: seq<byte>)
    requires |q| == 4
    requires DecodeQuad(q, rest == []) == Some(head)
    requires Decode(rest) == Some(tail)
    ensures Decode(q + rest) == Some(head + tail)
  {
    var s := q + rest;
    assert s[..4] == q;
    assert s[4..] == rest;
  }

  /** A last group of four characters decodes as that group alone. */
  lemma DecodeLast(q: string, head: seq<byte>)
    requires |q| == 4 && DecodeQuad(q, true) == Some(head)
    ensures Decode(q) == Some(head)
  {
    assert q[..4] == q;
    assert head + [] == head;
  }

  /** A single byte decodes back from its padded group. */
  lemma DecodeEncodeOne(b0: byte)
    ensures Decode(Encode([b0])) == Some([b0])
  {
    var q := [CharOf(b0 / 4), CharOf(b0 % 4 * 16), '=', '='];
    assert Encode([b0]) == q;
    assert DecodeQuad(q, true) == Some([b0]) by { SingleRoundTrip(b0); }
    DecodeLast(q, [b0]);
  }

  /** Two bytes decode back from their padded group. */
  lemma DecodeEncodeTwo(b0: byte, b1: byte)
    ensures Decode(Encode([b0, b1])) == Some([b0, b1])
  {
    var q := [CharOf(b0 / 4), CharOf(b0 % 4 * 16 + b1 / 16), CharOf(b1 % 16 * 4), '='];
    assert Encode([b0, b1]) == q;
    assert DecodeQuad(q, true) == Some([b0, b1]) by { PairRoundTrip(b0, b1); }
    DecodeLast(q, [b0, b1]);
  }

  /** A padded last group decodes to the one or two bytes it encodes. */
  lemma DecodeEncodeTail(b: seq<byte>)
    requires 1 <= |b| <= 2
    ensures Decode(Encode(b)) == Some(b)
  {
    if |b| == 1 {
      DecodeEncodeOne(b[0]);
      assert [b[0]] == b;
    } else {
      DecodeEncodeTwo(b[0], b[1]);
      assert [b[0], b[1]] == b;
    }
  }

  /** Decoding undoes encoding, for every byte string. */
  lemma {:induction false} DecodeEncode(b: seq<byte>)
    ensures Decode(Encode(b)) == Some(b)
    decreases |b|
  {
    if 1 <= |b| <= 2 {
      DecodeEncodeTail(b);
    } else if |b| >= 3 {
      var q, rest := EncodeTriple(b[0], b[1], b[2]), Encode(b[3..]);
      assert Encode(b) == q + rest;
      TripleRoundTrip(b[0], b[1], b[2], rest == []);
      DecodeEncode(b[3..]);
      DecodeStep(q, rest, [b[0], b[1], b[2]], b[3..]);
      assert [b[0], b[1], b[2]] + b[3..] == b;
    }
  }

  /** Four characters per started group of three bytes. */
  lemma {:induction false} EncodedLength(b: seq<byte>)
    ensures |Encode(b)| == 4 * ((|b| + 2) / 3)
    decreases |b|
  {
    if |b| >= 3 {
      EncodedLength(b[3..]);
      assert (|b| + 2) / 3 == (|b[3..]| + 2) / 3 + 1;
    }
  }

  /** Distinct byte strings have distinct encodings. */
  lemma EncodeInjective(b: seq<byte>, b': seq<byte>)
    requires Encode(b) == Encode(b')
    ensures b == b'
  {
    DecodeEncode(b);
    DecodeEncode(b');
  }

  /** The test vectors of section 10 of RFC 4648. */
  lemma Rfc4648Vectors()
    ensures Encode(ToBytes("")) == ""
    ensures Encode(ToBytes("f")) == "Zg=="
    ensures Encode(ToBytes("fo")) == "Zm8="
    ensures Encode(ToBytes("foo")) == "Zm9v"
    ensures Encode(ToBytes("foob")) == "Zm9vYg=="
    ensures Encode(ToBytes("fooba")) == "Zm9vYmE="
    ensures Encode(ToBytes("foobar")) == "Zm9vYmFy"
  {
  }
}
