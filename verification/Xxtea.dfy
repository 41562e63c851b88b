/** The XXTEA block transform over 32-bit words, in place, and its inverse.

    `Sweep`/`Rounds` describe what the encrypting loops leave in the array and `Unsweep`/`Unrounds`
    what the decrypting loops leave; `DecryptedEncrypted` shows that one undoes the other for
    every word count and every key. */
module Xxtea {

  type Word = bv32

  const DELTA: Word := 0x9E37_79B9

  /** Addition and subtraction modulo 2^32. */
  function Plus(a: Word, b: Word): Word {
    a + b
  }

  function Minus(a: Word, b: Word): Word {
    a - b
  }

  /** The low two bits of a word position. */
  function LowTwoBits(p: nat): Word {
    if p % 4 == 0 then 0 else if p % 4 == 1 then 1 else if p % 4 == 2 then 2 else 3
  }

  /** The key word selected for position `p` when the running sum is `sum`: the index
      `(p & 3) ^ ((sum >> 2) & 3)` is one of 0, 1, 2, 3. */
  function KeyWord(key: seq<Word>, p: nat, sum: Word): Word
    requires |key| >= 4
  {
    var i := LowTwoBits(p) ^ ((sum >> 2) & 3);
    if i == 0 then key[0] else if i == 1 then key[1] else if i == 2 then key[2] else key[3]
  }

  /** Over four positions in a row each key word is used once, in an order the sum selects. */
  lemma KeyOrder(key: seq<Word>, p: nat, sum: Word)
    requires |key| >= 4
    ensures var e := (sum >> 2) & 3;
            && (e == 0 ==> KeyWord(key, p, sum) == key[p % 4])
            && (e == 1 ==> KeyWord(key, p, sum) == [key[1], key[0], key[3], key[2]][p % 4])
            && (e == 2 ==> KeyWord(key, p, sum) == [key[2], key[3], key[0], key[1]][p % 4])
            && (e == 3 ==> KeyWord(key, p, sum) == key[3 - p % 4])
  {}

  /** The amount by which position `p` moves; in the source `+` binds tighter than `^`. */
  function Mix(z: Word, y: Word, sum: Word, key: seq<Word>, p: nat): Word
    requires |key| >= 4
  {
    (((z >> 5) ^ (y << 2)) + ((y >> 3) ^ (z << 4))) ^ ((sum ^ y) + (KeyWord(key, p, sum) ^ z))
  }

  function Before(n: nat, p: nat): nat
    requires p < n
  {
    if p == 0 then n - 1 else p - 1
  }

  function After(n: nat, p: nat): nat
    requires p < n
  {
    if p == n - 1 then 0 else p + 1
  }

  /** One word advanced by the mix of its two cyclic neighbours. */
  function Step(s: seq<Word>, key: seq<Word>, sum: Word, p: nat): (r: seq<Word>)
    requires p < |s| && |key| >= 4
    ensures |r| == |s|
  {
    s[p := Plus(s[p], Mix(s[Before(|s|, p)], s[After(|s|, p)], sum, key, p))]
  }

  function Unstep(s: seq<Word>, key: seq<Word>, sum: Word, p: nat): (r: seq<Word>)
    requires p < |s| && |key| >= 4
    ensures |r| == |s|
  {
    s[p := Minus(s[p], Mix(s[Before(|s|, p)], s[After(|s|, p)], sum, key, p))]
  }

  /** Positions 0, 1, .., k-1 advanced, in that order. */
  function Sweep(s: seq<Word>, key: seq<Word>, sum: Word, k: nat): (r: seq<Word>)
    requires k <= |s| && |key| >= 4
    ensures |r| == |s|
  {
    if k == 0 then s else Step(Sweep(s, key, sum, k - 1), key, sum, k - 1)
  }

  /** Positions k-1, .., 1, 0 taken back, in that order. */
  function Unsweep(s: seq<Word>, key: seq<Word>, sum: Word, k: nat): (r: seq<Word>)
    requires k <= |s| && |key| >= 4
    ensures |r| == |s|
    decreases k
  {
    if k == 0 then s else Unsweep(Unstep(s, key, sum, k - 1), key, sum, k - 1)
  }

  /** `r * DELTA` in 32-bit arithmetic. */
  function TimesDelta(r: nat): Word {
    if r == 0 then 0 else Plus(TimesDelta(r - 1), DELTA)
  }

  function Rounds(s: seq<Word>, key: seq<Word>, r: nat): (t: seq<Word>)
    requires |key| >= 4
    ensures |t| == |s|
  {
    if r == 0 then s else Sweep(Rounds(s, key, r - 1), key, TimesDelta(r), |s|)
  }

  function Unrounds(s: seq<Word>, key: seq<Word>, r: nat): (t: seq<Word>)
    requires |key| >= 4
    ensures |t| == |s|
    decreases r
  {
    if r == 0 then s else Unrounds(Unsweep(s, key, TimesDelta(r), |s|), key, r - 1)
  }

  function RoundCount(n: int): nat
    requires n >= 2
  {
    6 + 52 / n
  }

  /** What encrypting the first `n` words of `s` leaves; one word or none is left as it is. */
  function Encrypted(s: seq<Word>, n: int, key: seq<Word>): (r: seq<Word>)
    requires n <= |s| && |key| >= 4
    ensures |r| == |s|
  {
    if n <= 1 then s else Rounds(s[..n], key, RoundCount(n)) + s[n..]
  }

  function Decrypted(s: seq<Word>, n: int, key: seq<Word>): (r: seq<Word>)
    requires n <= |s| && |key| >= 4
    ensures |r| == |s|
  {
    if n <= 1 then s else Unrounds(s[..n], key, RoundCount(n)) + s[n..]
  }

  lemma PlusIsAddition(a: Word, b: Word)
    ensures Plus(a, b) == a + b
  {}

  lemma MinusTakesBack(a: Word, b: Word)
    ensures Minus(a + b, b) == a
  {}

  lemma AddThenSubtract(a: Word, b: Word)
    ensures Minus(Plus(a, b), b) == a
  {
    hide Plus, Minus;
    PlusIsAddition(a, b);
    MinusTakesBack(a, b);
  }

  /** A step is undone because neither neighbour is the word it changes. */
  lemma UnstepStep(s: seq<Word>, key: seq<Word>, sum: Word, p: nat)
    requires |s| >= 2 && p < |s| && |key| >= 4
    ensures Unstep(Step(s, key, sum, p), key, sum, p) == s
  {
    hide Mix, Plus, Minus;
    AddThenSubtract(s[p], Mix(s[Before(|s|, p)], s[After(|s|, p)], sum, key, p));
  }

  lemma {:induction false} UnsweepSweep(s: seq<Word>, key: seq<Word>, sum: Word, k: nat)
    requires |s| >= 2 && k <= |s| && |key| >= 4
    ensures Unsweep(Sweep(s, key, sum, k), key, sum, k) == s
  {
    hide Step, Unstep;
    if k > 0 {
      UnstepStep(Sweep(s, key, sum, k - 1), key, sum, k - 1);
      UnsweepSweep(s, key, sum, k - 1);
    }
  }

  lemma {:induction false} UnroundsRounds(s: seq<Word>, key: seq<Word>, r: nat)
    requires |s| >= 2 && |key| >= 4
    ensures Unrounds(Rounds(s, key, r), key, r) == s
  {
    hide Sweep, Unsweep, TimesDelta;
    if r > 0 {
      UnsweepSweep(Rounds(s, key, r - 1), key, TimesDelta(r), |s|);
      UnroundsRounds(s, key, r - 1);
    }
  }

  /** Decryption undoes encryption, for every word count and every key. */
  lemma DecryptedEncrypted(s: seq<Word>, n: int, key: seq<Word>)
    requires n <= |s| && |key| >= 4
    ensures Decrypted(Encrypted(s, n, key), n, key) == s
  {
    hide Rounds, Unrounds;
    if n > 1 {
      var e := Encrypted(s, n, key);
      assert e[..n] == Rounds(s[..n], key, RoundCount(n)) && e[n..] == s[n..];
      UnroundsRounds(s[..n], key, RoundCount(n));
    }
  }

  /** One round forward: words 0, 1, .., n-1, each from its neighbours as they are by then. */
  method RoundForward(v: array<Word>, n: int, key: seq<Word>, sum: Word, last: Word) returns (z: Word)
    requires 2 <= n <= v.Length && |key| >= 4 && last == v[n - 1]
    modifies v
    ensures v[..n] == Sweep(old(v[..n]), key, sum, n) && v[n..] == old(v[n..])
    ensures z == v[n - 1]
  {
    hide Mix, Plus, Minus;
    z := last;
    ghost var before := v[..n];
    var p := 0;
    while p < n - 1
      invariant 0 <= p <= n - 1
      invariant z == v[Before(n, p)]
      invariant v[..n] == Sweep(before, key, sum, p)
      invariant v[n..] == old(v[n..])
    {
      var y := v[p + 1];
      ghost var s := v[..n];
      v[p] := Plus(v[p], Mix(z, y, sum, key, p));
      z := v[p];
      assert v[..n] == Step(s, key, sum, p);
      p := p + 1;
    }
    var y := v[0];
    ghost var s := v[..n];
    v[n - 1] := Plus(v[n - 1], Mix(z, y, sum, key, n - 1));
    z := v[n - 1];
    assert v[..n] == Step(s, key, sum, n - 1);
  }

  method Btea(v: array<Word>, n: int, key: seq<Word>)
    requires n <= v.Length && |key| >= 4
    modifies v
    ensures v[..] == Encrypted(old(v[..]), n, key)
  {
    hide Plus, Sweep;
    if n <= 1 {
      return;
    }
    var rounds := 6 + 52 / n;
    var sum: Word := 0;
    var z := v[n - 1];
    ghost var start := v[..n];
    ghost var done := 0;
    while rounds > 0
      invariant rounds >= 0 && done + rounds == RoundCount(n)
      invariant sum == TimesDelta(done)
      invariant z == v[n - 1]
      invariant v[..n] == Rounds(start, key, done)
      invariant v[n..] == old(v[n..])
    {
      sum := Plus(sum, DELTA);
      done := done + 1;
      z := RoundForward(v, n, key, sum, z);
      rounds := rounds - 1;
    }
    assert v[..] == v[..n] + v[n..];
  }

  /** One round back: words n-1, .., 1, 0. */
  method RoundBack(v: array<Word>, n: int, key: seq<Word>, sum: Word, first: Word) returns (y: Word)
    requires 2 <= n <= v.Length && |key| >= 4 && first == v[0]
    modifies v
    ensures v[..n] == Unsweep(old(v[..n]), key, sum, n) && v[n..] == old(v[n..])
    ensures y == v[0]
  {
    hide Mix, Plus, Minus;
    y := first;
    ghost var before := v[..n];
    var p := n - 1;
    while p > 0
      invariant 0 <= p <= n - 1
      invariant y == v[After(n, p)]
      invariant Unsweep(v[..n], key, sum, p + 1) == Unsweep(before, key, sum, n)
      invariant v[n..] == old(v[n..])
    {
      var z := v[p - 1];
      ghost var s := v[..n];
      v[p] := Minus(v[p], Mix(z, y, sum, key, p));
      y := v[p];
      assert v[..n] == Unstep(s, key, sum, p);
      p := p - 1;
    }
    var z := v[n - 1];
    ghost var s := v[..n];
    v[0] := Minus(v[0], Mix(z, y, sum, key, 0));
    y := v[0];
    assert v[..n] == Unstep(s, key, sum, 0);
    assert v[..n] == Unsweep(before, key, sum, n);
  }

  method BteaDecrypt(v: array<Word>, n: int, key: seq<Word>)
    requires n <= v.Length && |key| >= 4
    modifies v
    ensures v[..] == Decrypted(old(v[..]), n, key)
  {
    hide Plus, Minus, Unsweep;
    if n <= 1 {
      return;
    }
    var rounds := 6 + 52 / n;
    var sum := TimesDelta(rounds);
    var y := v[0];
    ghost var start := v[..n];
    while rounds > 0
      invariant 0 <= rounds <= RoundCount(n)
      invariant sum == TimesDelta(rounds)
      invariant y == v[0]
      invariant Unrounds(v[..n], key, rounds) == Unrounds(start, key, RoundCount(n))
      invariant v[n..] == old(v[n..])
    {
      y := RoundBack(v, n, key, sum, y);
      sum := Minus(sum, DELTA);
      AddThenSubtract(TimesDelta(rounds - 1), DELTA);
      rounds := rounds - 1;
    }
    assert v[..] == v[..n] + v[n..];
  }
}
