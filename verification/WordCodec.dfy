/** Bytes to 32-bit words and back, little-endian, with the length trailer XXTEA carries. */
module WordCodec {
  import opened ByteDigits
  import opened Xxtea

  type Byte = bv8
  type Bytes = seq<Byte>

  function Pack(a: Byte, b: Byte, c: Byte, d: Byte): Word {
    (a as Word) | ((b as Word) << 8) | ((c as Word) << 16) | ((d as Word) << 24)
  }

  /** Byte `j` (0..3) of a word. */
  function ByteOf(w: Word, j: nat): Byte
    requires j < 4
  {
    if j == 0 then (w & 0xFF) as Byte
    else if j == 1 then ((w >> 8) & 0xFF) as Byte
    else if j == 2 then ((w >> 16) & 0xFF) as Byte
    else ((w >> 24) & 0xFF) as Byte
  }

  lemma ByteOfPack(a: Byte, b: Byte, c: Byte, d: Byte)
    ensures ByteOf(Pack(a, b, c, d), 0) == a && ByteOf(Pack(a, b, c, d), 1) == b
    ensures ByteOf(Pack(a, b, c, d), 2) == c && ByteOf(Pack(a, b, c, d), 3) == d
  {}

  lemma PackByteOf(w: Word)
    ensures Pack(ByteOf(w, 0), ByteOf(w, 1), ByteOf(w, 2), ByteOf(w, 3)) == w
  {}

  /** The byte at `j`, or zero past the end: the words start zeroed. */
  function ByteAt(data: Bytes, j: nat): Byte {
    if j < |data| then data[j] else 0
  }

  function WordAt(data: Bytes, i: nat): Word {
    Pack(ByteAt(data, 4 * i), ByteAt(data, 4 * i + 1), ByteAt(data, 4 * i + 2), ByteAt(data, 4 * i + 3))
  }

  /** The numeric value of a word. */
  function ValueOf(w: Word): nat {
    NatOfByte(ByteOf(w, 0)) + 0x100 * NatOfByte(ByteOf(w, 1))
    + 0x1_0000 * NatOfByte(ByteOf(w, 2)) + 0x100_0000 * NatOfByte(ByteOf(w, 3))
  }

  /** `static_cast<uint32_t>(len)`. */
  function LengthWord(len: nat): Word {
    Pack(ByteOfNat(len % 256), ByteOfNat(len / 256 % 256), ByteOfNat(len / 256 / 256 % 256),
      ByteOfNat(len / 256 / 256 / 256 % 256))
  }

  lemma ValueOfLengthWord(len: nat)
    ensures ValueOf(LengthWord(len)) == len % 0x1_0000_0000
  {
    var a, b, c, d := len % 256, len / 256 % 256, len / 256 / 256 % 256, len / 256 / 256 / 256 % 256;
    hide Pack, ByteOf, NatOfByte, ByteOfNat;
    NatOfByteOfNat(a);
    NatOfByteOfNat(b);
    NatOfByteOfNat(c);
    NatOfByteOfNat(d);
    ByteOfPack(ByteOfNat(a), ByteOfNat(b), ByteOfNat(c), ByteOfNat(d));
    FourDigits(len);
  }

  function WordsFor(len: nat): (n: nat)
    ensures len <= 4 * n < len + 4
  {
    (len + 3) / 4
  }

  function ToWords(data: Bytes, includeLength: bool): (v: seq<Word>)
    ensures |v| == WordsFor(|data|) + if includeLength then 1 else 0
  {
    seq(WordsFor(|data|), i requires 0 <= i => WordAt(data, i)) + if includeLength then [LengthWord(|data|)] else []
  }

  /** The first `len` bytes held by the words. */
  function FromWords(v: seq<Word>, len: nat): (data: Bytes)
    requires len <= 4 * |v|
    ensures |data| == len
  {
    seq(len, i requires 0 <= i < len => ByteOf(v[i / 4], i % 4))
  }

  lemma ByteOfWordAt(data: Bytes, i: nat)
    requires i < |data|
    ensures ByteOf(WordAt(data, i / 4), i % 4) == data[i]
  {
    var k := i / 4;
    ByteOfPack(ByteAt(data, 4 * k), ByteAt(data, 4 * k + 1), ByteAt(data, 4 * k + 2), ByteAt(data, 4 * k + 3));
    hide Pack, ByteOf;
    assert i == 4 * k + i % 4;
  }

  lemma FromToWords(data: Bytes)
    ensures FromWords(ToWords(data, true), |data|) == data
  {
    hide ByteOf, WordAt;
    forall i | 0 <= i < |data| ensures FromWords(ToWords(data, true), |data|)[i] == data[i] {
      ByteOfWordAt(data, i);
    }
  }

  /** Four bytes for each word. */
  function Spread(v: seq<Word>): (data: Bytes)
    ensures |data| == 4 * |v| && |data| % 4 == 0
  {
    FromWords(v, 4 * |v|)
  }

  function Gather(data: Bytes): (v: seq<Word>)
    requires |data| % 4 == 0
    ensures |v| == |data| / 4
  {
    ToWords(data, false)
  }

  lemma SpreadAt(v: seq<Word>, i: nat, j: nat)
    requires i < |v| && j < 4
    ensures Spread(v)[4 * i + j] == ByteOf(v[i], j)
  {
    hide ByteOf;
    assert (4 * i + j) / 4 == i && (4 * i + j) % 4 == j;
  }

  lemma GatherSpread(v: seq<Word>)
    ensures Gather(Spread(v)) == v
  {
    hide Pack, ByteOf, Spread;
    forall i | 0 <= i < |v| ensures WordAt(Spread(v), i) == v[i] {
      SpreadAt(v, i, 0); SpreadAt(v, i, 1); SpreadAt(v, i, 2); SpreadAt(v, i, 3);
      PackByteOf(v[i]);
    }
    hide WordAt;
  }

  /** Or-ing one more byte into the word that holds it. */
  function OrByte(w: Word, b: Byte, j: nat): Word
    requires j < 4
  {
    if j == 0 then w | (b as Word)
    else if j == 1 then w | ((b as Word) << 8)
    else if j == 2 then w | ((b as Word) << 16)
    else w | ((b as Word) << 24)
  }

  lemma OrFirst(a: Byte)
    ensures OrByte(Pack(0, 0, 0, 0), a, 0) == Pack(a, 0, 0, 0)
  {}

  lemma OrSecond(a: Byte, b: Byte)
    ensures OrByte(Pack(a, 0, 0, 0), b, 1) == Pack(a, b, 0, 0)
  {}

  lemma OrThird(a: Byte, b: Byte, c: Byte)
    ensures OrByte(Pack(a, b, 0, 0), c, 2) == Pack(a, b, c, 0)
  {}

  lemma OrFourth(a: Byte, b: Byte, c: Byte, d: Byte)
    ensures OrByte(Pack(a, b, c, 0), d, 3) == Pack(a, b, c, d)
  {}

  lemma WordAtGrows(data: Bytes, i: nat, k: nat)
    requires i < |data|
    ensures WordAt(data[..i + 1], k) == if k == i / 4 then OrByte(WordAt(data[..i], k), data[i], i % 4)
                                        else WordAt(data[..i], k)
  {
    hide Pack, OrByte;
    if k == i / 4 {
      var s := data[..i + 1];
      var a, b, c, d := ByteAt(s, 4 * k), ByteAt(s, 4 * k + 1), ByteAt(s, 4 * k + 2), ByteAt(s, 4 * k + 3);
      assert i == 4 * k + i % 4;
      OrFirst(a); OrSecond(a, b); OrThird(a, b, c); OrFourth(a, b, c, d);
    }
  }

  lemma WordAtNothing(k: nat)
    ensures WordAt([], k) == 0
  {}

  method ToUint32Array(data: Bytes, includeLength: bool) returns (r: seq<Word>)
    ensures r == ToWords(data, includeLength)
  {
    hide WordAt, OrByte, LengthWord;
    var n := (|data| + 3) / 4;
    if includeLength {
      n := n + 1;
    }
    var v := new Word[n](_ => 0);
    forall k | 0 <= k < WordsFor(|data|) ensures v[k] == WordAt(data[..0], k) {
      assert data[..0] == [];
      WordAtNothing(k);
    }
    var i := 0;
    while i < |data|
      invariant 0 <= i <= |data|
      invariant forall k :: 0 <= k < WordsFor(|data|) ==> v[k] == WordAt(data[..i], k)
    {
      forall k | 0 <= k < WordsFor(|data|)
        ensures WordAt(data[..i + 1], k) == if k == i / 4 then OrByte(WordAt(data[..i], k), data[i], i % 4)
                                            else WordAt(data[..i], k)
      {
        WordAtGrows(data, i, k);
      }
      v[i / 4] := OrByte(v[i / 4], data[i], i % 4);
      i := i + 1;
    }
    assert data[..i] == data;
    if includeLength {
      v[n - 1] := LengthWord(|data|);
    }
    r := v[..];
  }

  method FromUint32Array(v: seq<Word>, len: nat) returns (r: Bytes)
    requires len <= 4 * |v|
    ensures r == FromWords(v, len)
  {
    hide ByteOf;
    var out := new Byte[len];
    var i := 0;
    while i < len
      invariant 0 <= i <= len
      invariant forall k :: 0 <= k < i ==> out[k] == ByteOf(v[k / 4], k % 4)
    {
      out[i] := ByteOf(v[i / 4], i % 4);
      i := i + 1;
    }
    r := out[..];
  }
}
