/** Base64 with the standard alphabet of RFC 4648 section 4 and no padding
    (section 3.2), as the `base64` crate's `BASE64_STANDARD_NO_PAD` engine encodes
    and decodes it: decoding rejects characters outside the alphabet (padding `=`
    included), a length that leaves one character over, and non-zero bits in the
    last character of a short final group. */
module Base64 {
  import opened Wrappers

  type byte = b: int | 0 <= b < 256
  type sextet = i: int | 0 <= i < 64

  /** The character that stands for a six-bit value (RFC 4648, Table 1). */
  function Alphabet(i: sextet): char {
    if i < 26 then ('A' as int + i) as char
    else if i < 52 then ('a' as int + (i - 26)) as char
    else if i < 62 then ('0' as int + (i - 52)) as char
    else if i == 62 then '+'
    else '/'
  }

  /** The six-bit value a character stands for, if it is in the alphabet. */
  function ValueOf(c: char): (r: Option<sextet>)
    ensures r.Some? ==> Alphabet(r.value) == c
  {
    if 'A' <= c <= 'Z' then Some(c as int - 'A' as int)
    else if 'a' <= c <= 'z' then Some(c as int - 'a' as int + 26)
    else if '0' <= c <= '9' then Some(c as int - '0' as int + 52)
    else if c == '+' then Some(62)
    else if c == '/' then Some(63)
    else None
  }

  predicate InAlphabet(c: char) {
    ValueOf(c).Some?
  }

  lemma ValueOfAlphabet(i: sextet)
    ensures ValueOf(Alphabet(i)) == Some(i)
  {
  }

  /** Three bytes become four characters. */
  function EncodeBlock(b0: byte, b1: byte, b2: byte): string {
    [Alphabet(b0 / 4), Alphabet((b0 % 4) * 16 + b1 / 16), Alphabet((b1 % 16) * 4 + b2 / 64), Alphabet(b2 % 64)]
  }

  /** A final group of two bytes becomes three characters, of one byte two. */
  function EncodeTail2(b0: byte, b1: byte): string {
    [Alphabet(b0 / 4), Alphabet((b0 % 4) * 16 + b1 / 16), Alphabet((b1 % 16) * 4)]
  }

  function EncodeTail1(b0: byte): string {
    [Alphabet(b0 / 4), Alphabet((b0 % 4) * 16)]
  }

  function Encode(s: seq<byte>): string
    decreases |s|
  {
    if |s| >= 3 then EncodeBlock(s[0], s[1], s[2]) + Encode(s[3..])
    else if |s| == 2 then EncodeTail2(s[0], s[1])
    else if |s| == 1 then EncodeTail1(s[0])
    else []
  }

  /** Four characters become three bytes. */
  function DecodeBlock(c0: sextet, c1: sextet, c2: sextet, c3: sextet): seq<byte> {
    [c0 * 4 + c1 / 16, (c1 % 16) * 16 + c2 / 4, (c2 % 4) * 64 + c3]
  }

  /** A full group of four characters, all in the alphabet. */
  function DecodeQuad(a: char, b: char, c: char, d: char): Option<seq<byte>> {
    if InAlphabet(a) && InAlphabet(b) && InAlphabet(c) && InAlphabet(d) then
      Some(DecodeBlock(ValueOf(a).value, ValueOf(b).value, ValueOf(c).value, ValueOf(d).value))
    else None
  }

  /** A final group of three characters: two bytes, and the unused low bits of
      the last character must be zero. */
  function DecodeTail2(a: char, b: char, c: char): Option<seq<byte>> {
    if InAlphabet(a) && InAlphabet(b) && InAlphabet(c) && ValueOf(c).value % 4 == 0 then
      var c0, c1, c2 := ValueOf(a).value, ValueOf(b).value, ValueOf(c).value;
      Some([c0 * 4 + c1 / 16, (c1 % 16) * 16 + c2 / 4])
    else None
  }

  /** A final group of two characters: one byte. */
  function DecodeTail1(a: char, b: char): Option<seq<byte>> {
    if InAlphabet(a) && InAlphabet(b) && ValueOf(b).value % 16 == 0 then
      Some([ValueOf(a).value * 4 + ValueOf(b).value / 16])
    else None
  }

  /** The decoder: groups of four, then a final group of two or three; a final
      group of one character is refused. */
  function Decode(s: string): Option<seq<byte>>
    decreases |s|
  {
    if |s| == 0 then Some([])
    else if |s| == 1 then None
    else if |s| == 2 then DecodeTail1(s[0], s[1])
    else if |s| == 3 then DecodeTail2(s[0], s[1], s[2])
    else
      match DecodeQuad(s[0], s[1], s[2], s[3])
      case None => None
      case Some(block) =>
        match Decode(s[4..])
        case None => None
        case Some(rest) => Some(block + rest)
  }

  lemma BlockArith(b0: byte, b1: byte, b2: byte)
    ensures DecodeBlock(b0 / 4, (b0 % 4) * 16 + b1 / 16, (b1 % 16) * 4 + b2 / 64, b2 % 64) == [b0, b1, b2]
  {
    var c1 := (b0 % 4) * 16 + b1 / 16;
    var c2 := (b1 % 16) * 4 + b2 / 64;
    assert c1 / 16 == b0 % 4 && c1 % 16 == b1 / 16;
    assert c2 / 4 == b1 % 16 && c2 % 4 == b2 / 64;
  }

  lemma BlockRoundTrip(b0: byte, b1: byte, b2: byte)
    ensures var e := EncodeBlock(b0, b1, b2); DecodeQuad(e[0], e[1], e[2], e[3]) == Some([b0, b1, b2])
  {
    ValueOfAlphabet(b0 / 4);
    ValueOfAlphabet((b0 % 4) * 16 + b1 / 16);
    ValueOfAlphabet((b1 % 16) * 4 + b2 / 64);
    ValueOfAlphabet(b2 % 64);
    BlockArith(b0, b1, b2);
  }

  lemma Tail2RoundTrip(b0: byte, b1: byte)
    ensures var e := EncodeTail2(b0, b1); DecodeTail2(e[0], e[1], e[2]) == Some([b0, b1])
  {
    var c0, c1, c2 := b0 / 4, (b0 % 4) * 16 + b1 / 16, (b1 % 16) * 4;
    ValueOfAlphabet(c0);
    ValueOfAlphabet(c1);
    ValueOfAlphabet(c2);
    assert c1 / 16 == b0 % 4 && c1 % 16 == b1 / 16;
  }

  lemma Tail1RoundTrip(b0: byte)
    ensures var e := EncodeTail1(b0); DecodeTail1(e[0], e[1]) == Some([b0])
  {
    ValueOfAlphabet(b0 / 4);
    ValueOfAlphabet((b0 % 4) * 16);
  }

  /** A group of four characters followed by more text decodes group by group. */
  lemma DecodeGroup(q: string, rest: string)
    requires |q| == 4 && DecodeQuad(q[0], q[1], q[2], q[3]).Some? && Decode(rest).Some?
    ensures Decode(q + rest) == Some(DecodeQuad(q[0], q[1], q[2], q[3]).value + Decode(rest).value)
  {
    var t := q + rest;
    assert t[0] == q[0] && t[1] == q[1] && t[2] == q[2] && t[3] == q[3];
    assert t[4..] == rest;
  }

  lemma EncodeFirstGroup(s: seq<byte>)
    requires |s| >= 3
    ensures Encode(s) == EncodeBlock(s[0], s[1], s[2]) + Encode(s[3..])
  {
  }

  lemma FirstGroup(s: seq<byte>)
    requires |s| >= 3
    ensures s == [s[0], s[1], s[2]] + s[3..]
  {
  }

  lemma DecodeEncodeGroup(s: seq<byte>)
    requires |s| >= 3 && Decode(Encode(s[3..])) == Some(s[3..])
    ensures Decode(Encode(s)) == Some(s)
  {
    EncodeFirstGroup(s);
    BlockRoundTrip(s[0], s[1], s[2]);
    DecodeGroup(EncodeBlock(s[0], s[1], s[2]), Encode(s[3..]));
    FirstGroup(s);
  }

  lemma DecodeEncodeTwo(b0: byte, b1: byte)
    ensures Decode(Encode([b0, b1])) == Some([b0, b1])
  {
    assert Encode([b0, b1]) == EncodeTail2(b0, b1);
    Tail2RoundTrip(b0, b1);
  }

  lemma DecodeEncodeOne(b0: byte)
    ensures Decode(Encode([b0])) == Some([b0])
  {
    assert Encode([b0]) == EncodeTail1(b0);
    Tail1RoundTrip(b0);
  }

  /** Decoding undoes encoding. */
  lemma {:induction false} DecodeEncode(s: seq<byte>)
    ensures Decode(Encode(s)) == Some(s)
    decreases |s|
  {
    if |s| >= 3 {
      DecodeEncode(s[3..]);
      DecodeEncodeGroup(s);
    } else if |s| == 2 {
      DecodeEncodeTwo(s[0], s[1]);
      assert s == [s[0], s[1]];
    } else if |s| == 1 {
      DecodeEncodeOne(s[0]);
      assert s == [s[0]];
    }
  }

  lemma BlockArithBack(c0: sextet, c1: sextet, c2: sextet, c3: sextet)
    ensures var v := DecodeBlock(c0, c1, c2, c3);
      v[0] / 4 == c0 && (v[0] % 4) * 16 + v[1] / 16 == c1 && (v[1] % 16) * 4 + v[2] / 64 == c2 && v[2] % 64 == c3
  {
    var v0: int, v1: int, v2: int := c0 * 4 + c1 / 16, (c1 % 16) * 16 + c2 / 4, (c2 % 4) * 64 + c3;
    assert v0 / 4 == c0 && v0 % 4 == c1 / 16;
    assert v1 / 16 == c1 % 16 && v1 % 16 == c2 / 4;
    assert v2 / 64 == c2 % 4 && v2 % 64 == c3;
  }

  lemma QuadCanonical(a: char, b: char, c: char, d: char)
    requires DecodeQuad(a, b, c, d).Some?
    ensures var v := DecodeQuad(a, b, c, d).value; |v| == 3 && EncodeBlock(v[0], v[1], v[2]) == [a, b, c, d]
  {
    BlockArithBack(ValueOf(a).value, ValueOf(b).value, ValueOf(c).value, ValueOf(d).value);
  }

  lemma Tail2Arith(c0: int, c1: int, c2: int)
    requires 0 <= c0 < 64 && 0 <= c1 < 64 && 0 <= c2 < 64 && c2 % 4 == 0
    ensures var b0, b1 := c0 * 4 + c1 / 16, (c1 % 16) * 16 + c2 / 4;
      b0 / 4 == c0 && (b0 % 4) * 16 + b1 / 16 == c1 && (b1 % 16) * 4 == c2
  {
    var b0, b1 := c0 * 4 + c1 / 16, (c1 % 16) * 16 + c2 / 4;
    assert b0 % 4 == c1 / 16;
    assert b1 / 16 == c1 % 16 && b1 % 16 == c2 / 4;
  }

  lemma Tail2Canonical(a: char, b: char, c: char)
    requires DecodeTail2(a, b, c).Some?
    ensures var v := DecodeTail2(a, b, c).value; |v| == 2 && EncodeTail2(v[0], v[1]) == [a, b, c]
  {
    Tail2Arith(ValueOf(a).value, ValueOf(b).value, ValueOf(c).value);
  }

  lemma Tail1Arith(c0: int, c1: int)
    requires 0 <= c0 < 64 && 0 <= c1 < 64 && c1 % 16 == 0
    ensures var b0 := c0 * 4 + c1 / 16; b0 / 4 == c0 && (b0 % 4) * 16 == c1
  {
  }

  lemma Tail1Canonical(a: char, b: char)
    requires DecodeTail1(a, b).Some?
    ensures var v := DecodeTail1(a, b).value; |v| == 1 && EncodeTail1(v[0]) == [a, b]
  {
    Tail1Arith(ValueOf(a).value, ValueOf(b).value);
  }

  lemma EncodeGroup(block: seq<byte>, rest: seq<byte>)
    requires |block| == 3
    ensures Encode(block + rest) == EncodeBlock(block[0], block[1], block[2]) + Encode(rest)
  {
    var d := block + rest;
    assert d[0] == block[0] && d[1] == block[1] && d[2] == block[2];
    assert d[3..] == rest;
  }

  /** Encoding undoes a successful decoding: the text accepted is exactly the
      canonical encoding of what it decodes to. */
  lemma {:induction false} EncodeDecode(t: string)
    requires Decode(t).Some?
    ensures Encode(Decode(t).value) == t
    decreases |t|
  {
    if |t| == 2 {
      Tail1Canonical(t[0], t[1]);
      assert t == [t[0], t[1]];
    } else if |t| == 3 {
      Tail2Canonical(t[0], t[1], t[2]);
      assert t == [t[0], t[1], t[2]];
    } else if |t| >= 4 {
      var block := DecodeQuad(t[0], t[1], t[2], t[3]).value;
      var rest := Decode(t[4..]).value;
      var d := block + rest;
      assert Decode(t).value == d;
      QuadCanonical(t[0], t[1], t[2], t[3]);
      EncodeDecode(t[4..]);
      EncodeGroup(block, rest);
      assert t == [t[0], t[1], t[2], t[3]] + t[4..];
    }
  }

  lemma BlockInAlphabet(b0: byte, b1: byte, b2: byte)
    ensures forall k :: 0 <= k < 4 ==> InAlphabet(EncodeBlock(b0, b1, b2)[k])
  {
    ValueOfAlphabet(b0 / 4);
    ValueOfAlphabet((b0 % 4) * 16 + b1 / 16);
    ValueOfAlphabet((b1 % 16) * 4 + b2 / 64);
    ValueOfAlphabet(b2 % 64);
  }

  /** Every character of an encoding is in the alphabet. */
  lemma {:induction false} EncodedInAlphabet(s: seq<byte>)
    ensures forall k :: 0 <= k < |Encode(s)| ==> InAlphabet(Encode(s)[k])
    decreases |s|
  {
    if |s| >= 3 {
      var e, rest := EncodeBlock(s[0], s[1], s[2]), Encode(s[3..]);
      assert Encode(s) == e + rest;
      EncodedInAlphabet(s[3..]);
      BlockInAlphabet(s[0], s[1], s[2]);
      assert forall k :: 0 <= k < |e + rest| ==> (e + rest)[k] == if k < 4 then e[k] else rest[k - 4];
    } else if |s| == 2 {
      ValueOfAlphabet(s[0] / 4);
      ValueOfAlphabet((s[0] % 4) * 16 + s[1] / 16);
      ValueOfAlphabet((s[1] % 16) * 4);
    } else if |s| == 1 {
      ValueOfAlphabet(s[0] / 4);
      ValueOfAlphabet((s[0] % 4) * 16);
    }
  }

  /** A character outside the alphabet (`;`, `:`, a newline) never occurs in an encoding. */
  lemma EncodedHasNo(s: seq<byte>, c: char)
    requires !InAlphabet(c)
    ensures c !in Encode(s)
  {
    EncodedInAlphabet(s);
  }
}
