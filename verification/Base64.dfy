/** Base64 (section 4 of RFC 4648) as the server writes and reads it. The reader never masks its
    32-bit accumulator; `DecodeEncode` shows that this costs nothing. Characters are bytes. */
module Base64 {
  import opened Xxtea
  import opened WordCodec

  const PAD: Byte := 0x3D         // '='
  const UNDERSCORE: Byte := 0x5F  // '_'

  /** The alphabet, by position. */
  function Digit(x: Byte): Byte {
    if x < 26 then 0x41 + x
    else if x < 52 then 0x61 + (x - 26)
    else if x < 62 then 0x30 + (x - 52)
    else if x == 62 then 0x2B
    else 0x2F
  }

  datatype Sextet = NoValue | Value(v: Byte)

  /** The value of a character, if it has one. Padding, line breaks and blanks have none. */
  function ValueOfChar(c: Byte): Sextet {
    if 0x41 <= c <= 0x5A then Value(c - 0x41)
    else if 0x61 <= c <= 0x7A then Value(c - 0x61 + 26)
    else if 0x30 <= c <= 0x39 then Value(c - 0x30 + 52)
    else if c == 0x2B then Value(62)
    else if c == 0x2F then Value(63)
    else NoValue
  }

  lemma ValueOfDigit(x: Byte)
    requires x < 64
    ensures ValueOfChar(Digit(x)) == Value(x)
    ensures Digit(x) != UNDERSCORE
  {}

  /** Nothing but the 64 characters of the alphabet has a value, and each has the value of its place. */
  lemma DigitOfValue(c: Byte)
    ensures ValueOfChar(c).Value? ==> ValueOfChar(c).v < 64 && Digit(ValueOfChar(c).v) == c
  {}

  /** The 24 bits of three bytes. */
  function Triple(a: Byte, b: Byte, c: Byte): Word {
    ((a as Word) << 16) | ((b as Word) << 8) | (c as Word)
  }

  /** Sextet `k` (0..3) of 24 bits, most significant first. */
  function SextetOf(n: Word, k: nat): (x: Byte)
    requires k < 4
    ensures x < 64
  {
    if k == 0 then ((n >> 18) & 63) as Byte
    else if k == 1 then ((n >> 12) & 63) as Byte
    else if k == 2 then ((n >> 6) & 63) as Byte
    else (n & 63) as Byte
  }

  function CharOf(n: Word, k: nat): Byte
    requires k < 4
  {
    Digit(SextetOf(n, k))
  }

  function Encode(data: Bytes): Bytes {
    if |data| >= 3 then
      var n := Triple(data[0], data[1], data[2]);
      [CharOf(n, 0), CharOf(n, 1), CharOf(n, 2), CharOf(n, 3)] + Encode(data[3..])
    else if |data| == 2 then
      var n := Triple(data[0], data[1], 0);
      [CharOf(n, 0), CharOf(n, 1), CharOf(n, 2), PAD]
    else if |data| == 1 then
      var n := Triple(data[0], 0, 0);
      [CharOf(n, 0), CharOf(n, 1), PAD, PAD]
    else []
  }

  /** The accumulator after one more sextet; high bits are shifted out, never masked. */
  function Push(buf: Word, v: Byte): Word {
    (buf << 6) | (v as Word)
  }

  /** `(buf >> bits) & 0xFF`; a byte is taken out with 0, 2 or 4 bits left over. */
  function ByteAbove(buf: Word, bits: nat): Byte
    requires bits < 6
  {
    if bits == 0 then (buf & 0xFF) as Byte
    else if bits == 2 then ((buf >> 2) & 0xFF) as Byte
    else if bits == 4 then ((buf >> 4) & 0xFF) as Byte
    else 0
  }

  predicate BitCount(bits: nat) {
    bits == 0 || bits == 2 || bits == 4 || bits == 6
  }

  /** What the reader appends from `s` on, with `bits` bits pending in `buf`. */
  function DecodeFrom(s: Bytes, buf: Word, bits: nat): Bytes
    requires BitCount(bits)
    decreases |s|
  {
    if s == [] then []
    else if ValueOfChar(s[0]).NoValue? then DecodeFrom(s[1..], buf, bits)
    else
      var next := Push(buf, ValueOfChar(s[0]).v);
      if bits == 0 then DecodeFrom(s[1..], next, 6)
      else [ByteAbove(next, bits - 2)] + DecodeFrom(s[1..], next, bits - 2)
  }

  function Decode(s: Bytes): Bytes {
    DecodeFrom(s, 0, 0)
  }

  /** Four sextets give back the three bytes, whatever is left above them in the accumulator. */
  lemma FirstByteBack(a: Byte, b: Byte, c: Byte, buf: Word)
    ensures ByteAbove(Push(Push(buf, SextetOf(Triple(a, b, c), 0)), SextetOf(Triple(a, b, c), 1)), 4) == a
  {}

  lemma SecondByteBack(a: Byte, b: Byte, c: Byte, buf: Word)
    ensures ByteAbove(Push(Push(buf, SextetOf(Triple(a, b, c), 1)), SextetOf(Triple(a, b, c), 2)), 2) == b
  {}

  lemma ThirdByteBack(a: Byte, b: Byte, c: Byte, buf: Word)
    ensures ByteAbove(Push(Push(buf, SextetOf(Triple(a, b, c), 2)), SextetOf(Triple(a, b, c), 3)), 0) == c
  {}

  lemma DecodeChar(n: Word, k: nat, rest: Bytes, buf: Word, bits: nat)
    requires k < 4 && BitCount(bits)
    ensures DecodeFrom([CharOf(n, k)] + rest, buf, bits) ==
            var next := Push(buf, SextetOf(n, k));
            if bits == 0 then DecodeFrom(rest, next, 6)
            else [ByteAbove(next, bits - 2)] + DecodeFrom(rest, next, bits - 2)
  {
    hide Push, ByteAbove, SextetOf, Digit, ValueOfChar;
    ValueOfDigit(SextetOf(n, k));
    assert ([CharOf(n, k)] + rest)[1..] == rest;
  }

  lemma DecodePad(rest: Bytes, buf: Word, bits: nat)
    requires BitCount(bits)
    ensures DecodeFrom([PAD] + rest, buf, bits) == DecodeFrom(rest, buf, bits)
  {
    hide Push, ByteAbove;
    assert ([PAD] + rest)[1..] == rest;
  }

  /** Reading back two characters gives the first byte, three the second as well, four all. */
  lemma DecodeTwo(a: Byte, b: Byte, c: Byte, rest: Bytes, buf: Word)
    ensures var n := Triple(a, b, c);
            DecodeFrom([CharOf(n, 0), CharOf(n, 1)] + rest, buf, 0)
            == [a] + DecodeFrom(rest, Push(Push(buf, SextetOf(n, 0)), SextetOf(n, 1)), 4)
  {
    hide Push, ByteAbove, SextetOf, CharOf, Triple, DecodeFrom;
    var n := Triple(a, b, c);
    assert [CharOf(n, 0), CharOf(n, 1)] + rest == [CharOf(n, 0)] + ([CharOf(n, 1)] + rest);
    DecodeChar(n, 0, [CharOf(n, 1)] + rest, buf, 0);
    DecodeChar(n, 1, rest, Push(buf, SextetOf(n, 0)), 6);
    FirstByteBack(a, b, c, buf);
  }

  lemma DecodeThree(a: Byte, b: Byte, c: Byte, rest: Bytes, buf: Word)
    ensures var n := Triple(a, b, c);
            DecodeFrom([CharOf(n, 0), CharOf(n, 1), CharOf(n, 2)] + rest, buf, 0)
            == [a, b] + DecodeFrom(rest, Push(Push(Push(buf, SextetOf(n, 0)), SextetOf(n, 1)), SextetOf(n, 2)), 2)
  {
    hide Push, ByteAbove, SextetOf, CharOf, Triple, DecodeFrom;
    var n := Triple(a, b, c);
    var b1 := Push(buf, SextetOf(n, 0));
    assert [CharOf(n, 0), CharOf(n, 1), CharOf(n, 2)] + rest
        == [CharOf(n, 0), CharOf(n, 1)] + ([CharOf(n, 2)] + rest);
    DecodeTwo(a, b, c, [CharOf(n, 2)] + rest, buf);
    DecodeChar(n, 2, rest, Push(b1, SextetOf(n, 1)), 4);
    SecondByteBack(a, b, c, b1);
  }

  lemma DecodeFour(a: Byte, b: Byte, c: Byte, rest: Bytes, buf: Word) returns (after: Word)
    ensures var n := Triple(a, b, c);
            DecodeFrom([CharOf(n, 0), CharOf(n, 1), CharOf(n, 2), CharOf(n, 3)] + rest, buf, 0)
            == [a, b, c] + DecodeFrom(rest, after, 0)
  {
    hide Push, ByteAbove, SextetOf, CharOf, Triple, DecodeFrom;
    var n := Triple(a, b, c);
    var b2 := Push(Push(buf, SextetOf(n, 0)), SextetOf(n, 1));
    assert [CharOf(n, 0), CharOf(n, 1), CharOf(n, 2), CharOf(n, 3)] + rest
        == [CharOf(n, 0), CharOf(n, 1), CharOf(n, 2)] + ([CharOf(n, 3)] + rest);
    DecodeThree(a, b, c, [CharOf(n, 3)] + rest, buf);
    after := Push(Push(b2, SextetOf(n, 2)), SextetOf(n, 3));
    DecodeChar(n, 3, rest, Push(b2, SextetOf(n, 2)), 2);
    ThirdByteBack(a, b, c, b2);
  }

  /** The reader inverts the writer from any leftover accumulator. */
  lemma {:induction false} DecodeFromEncode(data: Bytes, buf: Word)
    ensures DecodeFrom(Encode(data), buf, 0) == data
  {
    hide Push, ByteAbove, SextetOf, CharOf, Triple;
    if |data| >= 3 {
      hide DecodeFrom;
      var after := DecodeFour(data[0], data[1], data[2], Encode(data[3..]), buf);
      DecodeFromEncode(data[3..], after);
      assert data == [data[0], data[1], data[2]] + data[3..];
    } else if |data| == 2 {
      var n := Triple(data[0], data[1], 0);
      DecodeThree(data[0], data[1], 0, [PAD], buf);
      assert Encode(data) == [CharOf(n, 0), CharOf(n, 1), CharOf(n, 2)] + [PAD];
      assert [PAD] == [PAD] + [];
      DecodePad([], Push(Push(Push(buf, SextetOf(n, 0)), SextetOf(n, 1)), SextetOf(n, 2)), 2);
    } else if |data| == 1 {
      var n := Triple(data[0], 0, 0);
      var left := Push(Push(buf, SextetOf(n, 0)), SextetOf(n, 1));
      DecodeTwo(data[0], 0, 0, [PAD, PAD], buf);
      assert Encode(data) == [CharOf(n, 0), CharOf(n, 1)] + [PAD, PAD];
      assert [PAD, PAD] == [PAD] + ([PAD] + []);
      DecodePad([PAD] + [], left, 4);
      DecodePad([], left, 4);
    }
  }

  /** Every byte string survives. */
  lemma DecodeEncode(data: Bytes)
    ensures Decode(Encode(data)) == data
  {
    DecodeFromEncode(data, 0);
  }

  predicate InAlphabet(c: Byte) {
    ValueOfChar(c).Value? || c == PAD
  }

  /** The text is four characters per started group of three, all of the alphabet or padding. */
  lemma {:induction false} EncodeShape(data: Bytes)
    ensures |Encode(data)| == (|data| + 2) / 3 * 4
    ensures forall i :: 0 <= i < |Encode(data)| ==> InAlphabet(Encode(data)[i])
  {
    hide Triple, SextetOf, Digit, ValueOfChar;
    forall n: Word, k: nat | k < 4 ensures InAlphabet(CharOf(n, k)) {
      ValueOfDigit(SextetOf(n, k));
    }
    hide CharOf;
    if |data| >= 3 {
      EncodeShape(data[3..]);
    }
  }

  /** So it can never contain, begin or prolong the container's delimiter. */
  lemma EncodeHasNoUnderscore(data: Bytes)
    ensures UNDERSCORE !in Encode(data)
  {
    EncodeShape(data);
  }

  method Base64Encode(data: Bytes) returns (out: Bytes)
    ensures out == Encode(data)
  {
    hide CharOf, Triple;
    out := [];
    var i := 0;
    while i + 2 < |data|
      invariant 0 <= i <= |data|
      invariant out + Encode(data[i..]) == Encode(data)
    {
      var n := Triple(data[i], data[i + 1], data[i + 2]);
      assert data[i..][3..] == data[i + 3..];
      out := out + [CharOf(n, 0), CharOf(n, 1), CharOf(n, 2), CharOf(n, 3)];
      i := i + 3;
    }
    if i < |data| {
      var twoLeft := i + 1 < |data|;
      var n := Triple(data[i], if twoLeft then data[i + 1] else 0, 0);
      out := out + [CharOf(n, 0), CharOf(n, 1)];
      if twoLeft {
        out := out + [CharOf(n, 2), PAD];
      } else {
        out := out + [PAD, PAD];
      }
    }
  }

  method Base64Decode(s: Bytes) returns (out: Bytes)
    ensures out == Decode(s)
  {
    hide Push, ByteAbove;
    out := [];
    var buf: Word := 0;
    var bits := 0;
    var i := 0;
    while i < |s|
      invariant 0 <= i <= |s|
      invariant BitCount(bits)
      invariant out + DecodeFrom(s[i..], buf, bits) == Decode(s)
    {
      var c := s[i];
      assert s[i..][1..] == s[i + 1..];
      i := i + 1;
      match ValueOfChar(c) {
        case NoValue =>
        case Value(v) =>
          buf := Push(buf, v);
          bits := bits + 6;
          if bits >= 8 {
            bits := bits - 8;
            out := out + [ByteAbove(buf, bits)];
          }
      }
    }
  }
}
