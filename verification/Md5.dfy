/** Streaming MD5 (RFC 1321): the buffer, the split bit counter and the padding loop. The 64 steps on
    one block are a parameter, `Compress`: everything below holds for any of them, and so for those of
    `Md5Steps`. */
module Md5 {
  import opened Md5Counter
  import opened Xxtea
  import opened WordCodec

  datatype State = State(a: Word, b: Word, c: Word, d: Word)

  /** `md5_transform` on one 64-byte block. */
  type Compress = (State, Bytes) -> State

  function Initial(): State {
    State(0x6745_2301, 0xEFCD_AB89, 0x98BA_DCFE, 0x1032_5476)
  }

  /** Steps 1 to 4 of RFC 1321 (sections 3.1 to 3.4) on a whole message. */
  function Fold(t: Compress, st: State, msg: Bytes): State
    decreases |msg|
  {
    if |msg| < 64 then st else Fold(t, t(st, msg[..64]), msg[64..])
  }

  function Zeros(n: nat): (s: Bytes)
    ensures |s| == n
  {
    seq(n, _ => 0 as Byte)
  }

  /** The two counter words, low word first, each low byte first. */
  function CounterBytes(low: nat, high: nat): (s: Bytes)
    ensures |s| == 8
  {
    FromWords([LengthWord(low), LengthWord(high)], 8)
  }

  function PaddedWith(msg: Bytes, low: nat, high: nat): Bytes {
    msg + [0x80] + Zeros(PadZeros(|msg|)) + CounterBytes(low, high)
  }

  /** Section 3.1 and 3.2: the length is the bit count modulo 2^64. */
  function Padded(msg: Bytes): Bytes {
    PaddedWith(msg, LowOf(|msg|), HighOf(|msg|))
  }

  function OutputOf(st: State): Bytes {
    FromWords([st.a, st.b, st.c, st.d], 16)
  }

  /** Section 3.5: the four words of the state, low-order byte first. */
  lemma OutputWords(st: State)
    ensures |OutputOf(st)| == 16 && Gather(OutputOf(st)) == [st.a, st.b, st.c, st.d]
  {
    hide ByteOf, Gather;
    GatherSpread([st.a, st.b, st.c, st.d]);
  }

  /** The eight bytes after the padding are the two counter words, low word and low byte first. */
  lemma CounterWords(low: nat, high: nat)
    requires low < 0x1_0000_0000 && high < 0x1_0000_0000
    ensures var words := Gather(CounterBytes(low, high));
            |words| == 2 && ValueOf(words[0]) == low && ValueOf(words[1]) == high
  {
    ValueOfLengthWord(low);
    ValueOfLengthWord(high);
    hide ByteOf, Gather, ValueOf, LengthWord;
    GatherSpread([LengthWord(low), LengthWord(high)]);
  }

  /** Section 3.1: the padded message is made of whole blocks; after the message come one bit, fewer
      than 64 bytes of zeros and, as its last eight bytes, the bit count modulo 2^64. */
  lemma PaddedShape(msg: Bytes)
    ensures |Padded(msg)| % 64 == 0 && |msg| + 9 <= |Padded(msg)| < |msg| + 73
    ensures msg + [0x80] <= Padded(msg)
    ensures forall i :: |msg| < i < |Padded(msg)| - 8 ==> Padded(msg)[i] == 0
    ensures Padded(msg)[|Padded(msg)| - 8..] == CounterBytes(LowOf(|msg|), HighOf(|msg|))
    ensures LowOf(|msg|) + 0x1_0000_0000 * HighOf(|msg|) == 8 * |msg| % 0x1_0000_0000_0000_0000
  {
    hide CounterBytes;
    PadsToBlock(|msg|);
    BitCount(8 * |msg|);
  }

  /** Two digits give back the byte. */
  lemma HexBack(data: Bytes, i: nat)
    requires i < |data|
    ensures (DigitValue(Hex(data)[2 * i]) << 4) | DigitValue(Hex(data)[2 * i + 1]) == data[i]
  {
    DigitsBack(data[i]);
    hide HighDigit, LowDigit, DigitValue;
    assert 2 * i / 2 == i && (2 * i + 1) / 2 == i;
  }

  /** The value of a hexadecimal digit, '0' to '9' and 'a' to 'f'. */
  function DigitValue(d: Byte): Byte {
    if d < 0x3A then d - 0x30 else d - 0x57
  }

  lemma DigitsBack(b: Byte)
    ensures (DigitValue(HighDigit(b)) << 4) | DigitValue(LowDigit(b)) == b
  {}

  function DigestWith(t: Compress, msg: Bytes, low: nat, high: nat): Bytes {
    OutputOf(Fold(t, Initial(), PaddedWith(msg, low, high)))
  }

  /** The one-shot digest. */
  function Digest(t: Compress, msg: Bytes): Bytes {
    OutputOf(Fold(t, Initial(), Padded(msg)))
  }

  function HexDigit(x: Byte): Byte {
    if x < 10 then 0x30 + x else 0x61 + (x - 10)
  }

  predicate IsHexDigit(d: Byte) {
    0x30 <= d <= 0x39 || 0x61 <= d <= 0x66
  }

  function HighDigit(b: Byte): (d: Byte)
    ensures IsHexDigit(d)
  {
    HexDigit(b >> 4)
  }

  function LowDigit(b: Byte): (d: Byte)
    ensures IsHexDigit(d)
  {
    HexDigit(b & 0xF)
  }

  function Hex(data: Bytes): (s: Bytes)
    ensures |s| == 2 * |data| && forall i :: 0 <= i < |s| ==> IsHexDigit(s[i])
  {
    seq(2 * |data|, i requires 0 <= i < 2 * |data| =>
      if i % 2 == 0 then HighDigit(data[i / 2]) else LowDigit(data[i / 2]))
  }

  function HexDigest(t: Compress, msg: Bytes): (s: Bytes)
    ensures |s| == 32 && forall i :: 0 <= i < 32 ==> IsHexDigit(s[i])
  {
    Hex(Digest(t, msg))
  }

  /** A message made of whole blocks can be absorbed before what follows it. */
  lemma {:induction false} FoldAppend(t: Compress, st: State, a: Bytes, b: Bytes)
    requires |a| % 64 == 0
    ensures Fold(t, st, a + b) == Fold(t, Fold(t, st, a), b)
    decreases |a|
  {
    if a == [] {
      assert a + b == b;
    } else {
      assert (a + b)[..64] == a[..64];
      assert (a + b)[64..] == a[64..] + b;
      FoldAppend(t, t(st, a[..64]), a[64..], b);
    }
  }

  lemma FoldIgnoresRemainder(t: Compress, st: State, msg: Bytes)
    ensures Fold(t, st, msg) == Fold(t, st, msg[..Whole(|msg|)])
  {
    var k := Whole(|msg|);
    assert msg == msg[..k] + msg[k..];
    FoldAppend(t, st, msg[..k], msg[k..]);
  }

  lemma FoldOneBlock(t: Compress, st: State, a: Bytes, block: Bytes)
    requires |a| % 64 == 0 && |block| == 64
    ensures Fold(t, st, a + block) == t(Fold(t, st, a), block)
  {
    FoldAppend(t, st, a, block);
    assert block[..64] == block && block[64..] == [];
  }

  /** A context has absorbed `msg`: whole blocks are in the state, the remainder is in the buffer,
      and the low counter word is right. */
  ghost predicate Absorbed(t: Compress, msg: Bytes, st: State, tail: Bytes, low: nat) {
    && st == Fold(t, Initial(), msg)
    && tail == msg[Whole(|msg|)..]
    && low == LowOf(|msg|)
  }

  lemma StateOf(t: Compress, msg: Bytes, st: State, tail: Bytes, low: nat)
    requires Absorbed(t, msg, st, tail, low)
    ensures st == Fold(t, Initial(), msg) && low == LowOf(|msg|)
  {}

  lemma AbsorbedNothing(t: Compress)
    ensures Absorbed(t, [], Initial(), [], 0)
  {
    hide Initial, LowOf;
    NothingCounted();
  }

  lemma AbsorbShort(t: Compress, m: Bytes, data: Bytes, st: State, tail: Bytes, low: nat)
    requires Absorbed(t, m, st, tail, low) && |m| % 64 + |data| < 64
    ensures Absorbed(t, m + data, st, tail + data, NewLow(low, |data|))
    ensures |m + data| % 64 == |m| % 64 + |data|
  {
    hide LowOf, HighOf, NewLow, NewHigh, CarryExact, Initial;
    CounterStep(|m|, |data|);
    var c := Whole(|m|);
    FoldIgnoresRemainder(t, Initial(), m);
    FoldIgnoresRemainder(t, Initial(), m + data);
    assert (m + data)[..c] == m[..c];
  }

  lemma AbsorbFirstBlock(t: Compress, m: Bytes, data: Bytes, st: State, tail: Bytes, low: nat)
    requires Absorbed(t, m, st, tail, low) && |m| % 64 + |data| >= 64
    ensures var part := 64 - |m| % 64;
            t(st, tail + data[..part]) == Fold(t, Initial(), (m + data)[..|m| + part])
  {
    var c, part := Whole(|m|), 64 - |m| % 64;
    FoldIgnoresRemainder(t, Initial(), m);
    FoldOneBlock(t, Initial(), m[..c], tail + data[..part]);
    assert (m + data)[..|m| + part] == m[..c] + (tail + data[..part]);
  }

  predicate Aligned(n: nat) {
    n % 64 == 0
  }

  lemma AbsorbBlock(t: Compress, m: Bytes, data: Bytes, idx: nat)
    requires idx + 64 <= |data| && Aligned(|m| + idx)
    ensures Aligned(|m| + idx + 64)
    ensures t(Fold(t, Initial(), (m + data)[..|m| + idx]), data[idx..idx + 64])
            == Fold(t, Initial(), (m + data)[..|m| + idx + 64])
  {
    FoldOneBlock(t, Initial(), (m + data)[..|m| + idx], data[idx..idx + 64]);
    assert (m + data)[..|m| + idx + 64] == (m + data)[..|m| + idx] + data[idx..idx + 64];
  }

  lemma AbsorbRemainder(t: Compress, m: Bytes, data: Bytes, st: State, idx: nat)
    requires idx <= |data| < idx + 64 && (|m| + idx) % 64 == 0
    requires st == Fold(t, Initial(), (m + data)[..|m| + idx])
    ensures Absorbed(t, m + data, st, data[idx..], NewLow(LowOf(|m|), |data|))
    ensures |m + data| % 64 == |data| - idx
  {
    hide LowOf, HighOf, NewLow, NewHigh, CarryExact, Initial;
    CounterStep(|m|, |data|);
    FoldIgnoresRemainder(t, Initial(), m + data);
    assert Whole(|m + data|) == |m| + idx;
  }

  class Md5Ctx {
    const transform: Compress
    var state: State
    var count0: nat
    var count1: nat
    const buffer: array<Byte>
    ghost var message: Bytes  // everything absorbed so far

    /** State, buffer and low counter word agree with the bytes absorbed, however they were cut. */
    ghost predicate Valid()
      reads this, buffer
    {
      && buffer.Length == 64
      && Absorbed(transform, message, state, buffer[..|message| % 64], count0)
    }

    ghost predicate CountsExact()
      reads this
    {
      count1 == HighOf(|message|)
    }

    constructor (t: Compress)
      ensures Valid() && CountsExact() && fresh(buffer)
      ensures transform == t && message == [] && count0 == 0 && count1 == 0
    {
      hide Absorbed, Initial, LowOf, HighOf;
      transform := t;
      count0, count1 := 0, 0;
      state := Initial();
      buffer := new Byte[64];
      message := [];
      new;
      AbsorbedNothing(t);
      NothingCounted();
      assert buffer[..0] == [];
    }

    method CopyIn(at: nat, data: Bytes)
      requires at + |data| <= buffer.Length
      modifies buffer
      ensures buffer[..at + |data|] == old(buffer[..at]) + data
    {
      forall k | 0 <= k < |data| {
        buffer[at + k] := data[k];
      }
    }

    /** The whole blocks of `data` from `start` on; what was absorbed before ends there. */
    method TransformBlocks(ghost m: Bytes, data: Bytes, start: nat) returns (idx: nat)
      requires start <= |data| && Aligned(|m| + start)
      requires state == Fold(transform, Initial(), (m + data)[..|m| + start])
      modifies `state
      ensures start <= idx <= |data| < idx + 64 && Aligned(|m| + idx)
      ensures state == Fold(transform, Initial(), (m + data)[..|m| + idx])
    {
      hide Fold, Initial, Aligned;
      idx := start;
      while idx + 63 < |data|
        invariant start <= idx <= |data|
        invariant Aligned(|m| + idx)
        invariant state == Fold(transform, Initial(), (m + data)[..|m| + idx])
      {
        AbsorbBlock(transform, m, data, idx);
        state := transform(state, data[idx..idx + 64]);
        idx := idx + 64;
      }
    }

    method Update(data: Bytes)
      requires Valid()
      requires |data| < 0x2000_0000_0000_0000  // 8 * |data| fits the source's size_t
      modifies this, buffer
      ensures Valid()
      ensures message == old(message) + data
      ensures count0 == NewLow(old(count0), |data|)
      ensures count1 == NewHigh(old(count0), old(count1), |data|)
      ensures old(CountsExact()) ==> (CountsExact() <==> CarryExact(old(count0), |data|))
    {
      hide Fold, NewLow, NewHigh, CarryExact, Initial, LowOf, HighOf, Absorbed, Whole;
      ghost var m, st, tail, low := message, state, buffer[..|message| % 64], count0;
      StateOf(transform, m, st, tail, low);
      PositionFromLow(|m|);
      CounterStep(|m|, |data|);
      var i := count0 / 8 % 64;
      count0, count1 := NewLow(count0, |data|), NewHigh(count0, count1, |data|);
      message := m + data;
      var part := 64 - i;
      var idx := 0;
      if |data| >= part {
        CopyIn(i, data[..part]);
        AbsorbFirstBlock(transform, m, data, st, tail, low);
        assert buffer[..] == buffer[..64];
        state := transform(state, buffer[..]);
        idx := TransformBlocks(m, data, part);
        i := 0;
        AbsorbRemainder(transform, m, data, state, idx);
        assert [] + data[idx..] == data[idx..];
      } else {
        AbsorbShort(transform, m, data, st, tail, low);
      }
      ghost var kept := buffer[..i];
      CopyIn(i, data[idx..]);
      assert buffer[..|message| % 64] == kept + data[idx..];
    }

    /** Pads up to 56 modulo 64, appends the counters read before padding, and gives the state. */
    method Final() returns (digest: Bytes)
      requires Valid()
      modifies this, buffer
      ensures digest == DigestWith(transform, old(message), old(count0), old(count1))
      ensures old(CountsExact()) ==> digest == Digest(transform, old(message))
    {
      hide Initial, CounterBytes, OutputOf, Absorbed, Whole, NewLow, NewHigh, LowOf, HighOf, PadZeros, Fold;
      ghost var m := message;
      StateOf(transform, message, state, buffer[..|message| % 64], count0);
      var bits := CounterBytes(count0, count1);
      Update([0x80]);
      ghost var zeros := 0;
      assert message == m + [0x80] + Zeros(0);
      StateOf(transform, message, state, buffer[..|message| % 64], count0);
      PositionFromLow(|message|);
      PaddingStops(|m|, 0);
      while count0 / 8 % 64 != 56
        invariant Valid()
        invariant count0 / 8 % 64 == 56 <==> zeros == PadZeros(|m|)
        invariant message == m + [0x80] + Zeros(zeros)
        invariant 0 <= zeros <= PadZeros(|m|)
        decreases PadZeros(|m|) - zeros
      {
        Update([0]);
        StateOf(transform, message, state, buffer[..|message| % 64], count0);
        PositionFromLow(|message|);
        zeros := zeros + 1;
        PaddingStops(|m|, zeros);
      }
      Update(bits);
      assert message == PaddedWith(m, old(count0), old(count1));
      StateOf(transform, message, state, buffer[..|message| % 64], count0);
      digest := OutputOf(state);
    }
  }

  /** One update with the whole input. */
  method Md5Hex(t: Compress, input: Bytes) returns (out: Bytes)
    requires |input| < 0x2000_0000_0000_0000
    ensures out == Hex(DigestWith(t, input, LowOf(|input|), NewHigh(0, 0, |input|)))
    ensures |input| < 0x2000_0000 ==> out == HexDigest(t, input)
  {
    hide DigestWith, Digest, Hex, NewLow, NewHigh, Absorbed;
    var ctx := new Md5Ctx(t);
    ctx.Update(input);
    assert [] + input == input;
    OneUpdateExact(|input|);
    var digest := ctx.Final();
    out := Hex(digest);
  }

  const FILE_CHUNK: nat := 64 * 1024

  /** The file is read 64 KiB at a time, so its counters are exact for any content. */
  method Md5File(t: Compress, content: Bytes) returns (out: Bytes)
    ensures out == HexDigest(t, content)
  {
    hide DigestWith, Digest, Hex, NewLow, NewHigh, Absorbed;
    var ctx := new Md5Ctx(t);
    var at := 0;
    while at < |content|
      invariant 0 <= at <= |content|
      invariant ctx.Valid() && ctx.CountsExact() && fresh(ctx) && fresh(ctx.buffer)
      invariant ctx.transform == t
      invariant ctx.message == content[..at]
    {
      var count := if |content| - at < FILE_CHUNK then |content| - at else FILE_CHUNK;
      ctx.Update(content[at..at + count]);
      at := at + count;
    }
    assert content[..at] == content;
    var digest := ctx.Final();
    out := Hex(digest);
  }

  /** Any way of cutting the input into updates below 2^29 bytes gives the one-shot digest. */
  method DigestInPieces(t: Compress, pieces: seq<Bytes>) returns (digest: Bytes)
    requires forall p :: p in pieces ==> |p| < 0x2000_0000
    ensures digest == Digest(t, Concat(pieces))
  {
    hide DigestWith, Digest, Hex, NewLow, NewHigh, Absorbed;
    var ctx := new Md5Ctx(t);
    var i := 0;
    while i < |pieces|
      invariant 0 <= i <= |pieces|
      invariant ctx.Valid() && ctx.CountsExact() && fresh(ctx) && fresh(ctx.buffer)
      invariant ctx.transform == t
      invariant ctx.message + Concat(pieces[i..]) == Concat(pieces)
    {
      ctx.Update(pieces[i]);
      assert pieces[i..][1..] == pieces[i + 1..];
      i := i + 1;
    }
    assert ctx.message + [] == ctx.message;
    digest := ctx.Final();
  }

  function Concat(pieces: seq<Bytes>): Bytes {
    if pieces == [] then [] else pieces[0] + Concat(pieces[1..])
  }
}
