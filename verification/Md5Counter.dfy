/** The arithmetic of MD5's split bit counter and padding. */
module Md5Counter {
  /** The bit count of `n` bytes, as the low and the high word of the split counter. */
  function LowOf(n: nat): nat {
    8 * n % 0x1_0000_0000
  }

  function HighOf(n: nat): nat {
    8 * n / 0x1_0000_0000 % 0x1_0000_0000
  }

  /** How many zero bytes follow the first padding byte. */
  function PadZeros(n: nat): nat {
    (55 - n) % 64
  }

  function Whole(n: nat): nat {
    n / 64 * 64
  }

  /** Whether adding `len` bytes to a low counter word of `low` carries correctly. The test in the
      source compares the new low word with the full 64-bit bit count. */
  predicate CarryExact(low: nat, len: nat) {
    len < 0x2000_0000 || low + 8 * len % 0x1_0000_0000 >= 0x1_0000_0000
  }

  function NewLow(low: nat, len: nat): nat {
    (low + 8 * len % 0x1_0000_0000) % 0x1_0000_0000
  }

  function NewHigh(low: nat, high: nat, len: nat): nat {
    ((if NewLow(low, len) < 8 * len then high + 1 else high) + len / 0x2000_0000) % 0x1_0000_0000
  }

  lemma SplitSum(n: nat, len: nat)
    ensures 8 * (n + len) == 0x1_0000_0000 * (8 * n / 0x1_0000_0000 + len / 0x2000_0000) + 8 * n % 0x1_0000_0000
          + 8 * len % 0x1_0000_0000
  {
    assert 8 * len / 0x1_0000_0000 == len / 0x2000_0000;
  }

  lemma QuotientRemainder(x: nat, q: nat, r: nat)
    requires x == 0x1_0000_0000 * q + r && r < 0x1_0000_0000
    ensures x / 0x1_0000_0000 == q && x % 0x1_0000_0000 == r
  {}

  lemma ModOfSum(x: nat, y: nat)
    ensures (x % 0x1_0000_0000 + y) % 0x1_0000_0000 == (x + y) % 0x1_0000_0000
  {}

  lemma NextDiffers(x: nat)
    ensures (x + 1) % 0x1_0000_0000 != x % 0x1_0000_0000
  {}

  /** The low word is always right; the high word is right exactly when the carry test is. */
  lemma CounterStep(n: nat, len: nat)
    ensures NewLow(LowOf(n), len) == LowOf(n + len)
    ensures NewHigh(LowOf(n), HighOf(n), len) == HighOf(n + len) <==> CarryExact(LowOf(n), len)
  {
    SplitSum(n, len);
    var low, add, q := 8 * n % 0x1_0000_0000, 8 * len % 0x1_0000_0000, 8 * n / 0x1_0000_0000 + len / 0x2000_0000;
    var carry := low + add >= 0x1_0000_0000;
    if carry {
      QuotientRemainder(8 * (n + len), q + 1, low + add - 0x1_0000_0000);
      QuotientRemainder(low + add, 1, low + add - 0x1_0000_0000);
    } else {
      QuotientRemainder(8 * (n + len), q, low + add);
    }
    ModOfSum(8 * n / 0x1_0000_0000, len / 0x2000_0000);
    ModOfSum(8 * n / 0x1_0000_0000, 1 + len / 0x2000_0000);
    NextDiffers(q);
    if len < 0x2000_0000 {
      assert add == 8 * len;
    } else {
      assert 8 * len >= 0x1_0000_0000;
    }
  }

  /** One update of a fresh context counts right exactly below 2^29 bytes. */
  lemma OneUpdateExact(len: nat)
    ensures NewLow(0, len) == LowOf(len)
    ensures NewHigh(0, 0, len) == HighOf(len) <==> len < 0x2000_0000
  {
    CounterStep(0, len);
  }

  /** A single update of 2^29 bytes on a fresh context already counts one high word too many. */
  lemma CarryTestTooEager()
    ensures !CarryExact(0, 0x2000_0000)
    ensures NewHigh(0, 0, 0x2000_0000) == 2 && 8 * 0x2000_0000 / 0x1_0000_0000 == 1
  {}

  lemma NothingCounted()
    ensures LowOf(0) == 0 && HighOf(0) == 0
  {}

  lemma Mod64Shift(m: nat, k: nat)
    ensures (m + 64 * k) % 64 == m % 64
  {}

  /** The buffer position is read off the low counter word. */
  lemma PositionFromLow(n: nat)
    ensures LowOf(n) / 8 % 64 == n % 64
  {
    var q := 8 * n / 0x1_0000_0000;
    var m := n - 0x2000_0000 * q;
    assert LowOf(n) == 8 * m;
    assert 8 * m / 8 == m;
    Mod64Shift(m, 0x80_0000 * q);
  }

  /** The padding loop stops at 56 modulo 64, after `PadZeros` zero bytes and not before. */
  lemma PaddingStops(n: nat, zeros: nat)
    requires zeros <= PadZeros(n)
    ensures (n + 1 + zeros) % 64 == 56 <==> zeros == PadZeros(n)
  {}

  lemma PadsToBlock(n: nat)
    ensures (n + 9 + PadZeros(n)) % 64 == 0 && PadZeros(n) < 64
  {}

  lemma BitCount(x: nat)
    ensures x % 0x1_0000_0000 + 0x1_0000_0000 * (x / 0x1_0000_0000 % 0x1_0000_0000) == x % 0x1_0000_0000_0000_0000
  {
    var q, r := x / 0x1_0000_0000, x % 0x1_0000_0000;
    var p, s := q / 0x1_0000_0000, q % 0x1_0000_0000;
    assert x == 0x1_0000_0000_0000_0000 * p + (0x1_0000_0000 * s + r);
    WideRemainder(x, p, 0x1_0000_0000 * s + r);
  }

  lemma WideRemainder(x: nat, q: nat, r: nat)
    requires x == 0x1_0000_0000_0000_0000 * q + r && r < 0x1_0000_0000_0000_0000
    ensures x % 0x1_0000_0000_0000_0000 == r
  {}
}
