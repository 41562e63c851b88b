/** XXTEA on byte strings with a length trailer, and the encrypted request payload. */
module Payload {
  import opened Results
  import opened ByteDigits
  import opened Xxtea
  import opened WordCodec
  import opened Decimals
  import Base64
  import Md5

  /** `static_cast<int>` of a size. */
  function AsInt32(n: nat): (i: int)
    ensures i <= n && -0x8000_0000 <= i < 0x8000_0000 && (n - i) % 0x1_0000_0000 == 0
    ensures n < 0x8000_0000 ==> i == n
  {
    var m := n % 0x1_0000_0000;
    if m < 0x8000_0000 then m else m - 0x1_0000_0000
  }

  function ZeroWords(n: nat): (s: seq<Word>)
    ensures |s| == n
  {
    seq(n, _ => 0 as Word)
  }

  /** The key as words, filled up with zero words to four. */
  function KeyWords(key: Bytes): (k: seq<Word>)
    ensures |k| >= 4
  {
    var k := ToWords(key, false);
    if |k| < 4 then k + ZeroWords(4 - |k|) else k
  }

  function ZeroBytes(n: nat): (s: Bytes)
    ensures |s| == n
  {
    seq(n, _ => 0 as Byte)
  }

  /** Every byte of the key stands at its own place in the key words, and only zeros follow. */
  lemma KeyBytes(key: Bytes)
    ensures |KeyWords(key)| == if |key| <= 16 then 4 else (|key| + 3) / 4
    ensures Spread(KeyWords(key)) == key + ZeroBytes(4 * |KeyWords(key)| - |key|)
  {
    hide ByteOf, WordAt;
    var k := KeyWords(key);
    forall i | 0 <= i < 4 * |k| ensures Spread(k)[i] == (key + ZeroBytes(4 * |k| - |key|))[i] {
      if i < |key| {
        ByteOfWordAt(key, i);
      } else if i / 4 < WordsFor(|key|) {
        ByteAfter(key, i);
      } else {
        ByteOfZero(i % 4);
      }
    }
  }

  lemma ByteOfZero(j: nat)
    requires j < 4
    ensures ByteOf(0, j) == 0
  {}

  lemma ByteAfter(data: Bytes, i: nat)
    requires i >= |data|
    ensures ByteOf(WordAt(data, i / 4), i % 4) == 0
  {
    var k := i / 4;
    ByteOfPack(ByteAt(data, 4 * k), ByteAt(data, 4 * k + 1), ByteAt(data, 4 * k + 2), ByteAt(data, 4 * k + 3));
    hide Pack, ByteOf;
    assert i == 4 * k + i % 4;
  }

  function XxteaEncrypt(data: Bytes, key: Bytes): (c: Bytes)
    ensures |c| % 4 == 0 && |c| == if data == [] then 0 else 4 * WordsFor(|data|) + 4
  {
    if data == [] then []
    else
      var v := ToWords(data, true);
      Spread(Encrypted(v, AsInt32(|v|), KeyWords(key)))
  }

  function XxteaDecrypt(data: Bytes, key: Bytes): Result<Bytes> {
    if data == [] || |data| % 4 != 0 then Failure("invalid cipher length")
    else
      var v := Decrypted(Gather(data), AsInt32(|data| / 4), KeyWords(key));
      var origLen := ValueOf(v[|v| - 1]);
      if origLen > (|v| - 1) * 4 then Failure("invalid plain length")
      else Success(FromWords(v, origLen))
  }

  lemma CipherBack(v: seq<Word>, n: int, key: seq<Word>)
    requires n <= |v| && |key| >= 4
    ensures Decrypted(Gather(Spread(Encrypted(v, n, key))), n, key) == v
  {
    hide Gather, Spread, Encrypted, Decrypted;
    GatherSpread(Encrypted(v, n, key));
    DecryptedEncrypted(v, n, key);
  }

  /** Decryption returns the plain bytes exactly for the lengths a 32-bit trailer can hold, and
      an empty plaintext is refused. */
  lemma XxteaRoundTrip(data: Bytes, key: Bytes)
    ensures XxteaDecrypt(XxteaEncrypt(data, key), key) == Success(data) <==> 0 < |data| < 0x1_0000_0000
    ensures 0 < |data| ==> XxteaDecrypt(XxteaEncrypt(data, key), key).Success?
  {
    hide Gather, Encrypted, Decrypted, KeyWords, LengthWord, ValueOf, FromWords, AsInt32;
    if data != [] {
      var v := ToWords(data, true);
      CipherBack(v, AsInt32(|v|), KeyWords(key));
      ValueOfLengthWord(|data|);
      hide Spread;
      assert v[|v| - 1] == LengthWord(|data|);
      if |data| < 0x1_0000_0000 {
        FromToWords(data);
      }
    }
  }

  lemma SpreadPrefix(v: seq<Word>, len: nat)
    requires len <= 4 * |v|
    ensures Spread(v)[..len] == FromWords(v, len)
  {
    hide ByteOf;
  }

  /** All words of a cipher text taken back under four key words. */
  function Undone(c: Bytes, k: seq<Word>): (v: seq<Word>)
    requires |c| % 4 == 0 && |k| == 4
    ensures |v| == |c| / 4
  {
    Decrypted(Gather(c), |c| / 4, k)
  }

  /** The cipher text is the plain bytes and their length under exactly the key's bytes: whoever undoes
      the cipher with the four words that hold them, filled up with zeros, finds the plain bytes and,
      in the last word, their number. */
  lemma EncipheredUnderKey(data: Bytes, key: Bytes, k: seq<Word>)
    requires 0 < |data| < 0x1_0000_0000 && |key| <= 16
    requires |k| == 4 && Spread(k) == key + ZeroBytes(16 - |key|)
    ensures var c := XxteaEncrypt(data, key);
            && |c| == 4 * WordsFor(|data|) + 4
            && Spread(Undone(c, k))[..|data|] == data
            && ValueOf(Undone(c, k)[WordsFor(|data|)]) == |data|
  {
    hide Spread, Gather, Encrypted, Decrypted, KeyWords, LengthWord, ValueOf, FromWords;
    KeyBytes(key);
    GatherSpread(k);
    GatherSpread(KeyWords(key));
    var v := ToWords(data, true);
    CipherBack(v, |v|, k);
    ValueOfLengthWord(|data|);
    FromToWords(data);
    SpreadPrefix(v, |data|);
  }

  method SpreadWords(v: seq<Word>) returns (out: Bytes)
    ensures out == Spread(v)
  {
    hide ByteOf;
    var bytes := new Byte[|v| * 4];
    var i := 0;
    while i < |v|
      invariant 0 <= i <= |v|
      invariant forall k :: 0 <= k < 4 * i ==> bytes[k] == ByteOf(v[k / 4], k % 4)
    {
      bytes[i * 4] := ByteOf(v[i], 0);
      bytes[i * 4 + 1] := ByteOf(v[i], 1);
      bytes[i * 4 + 2] := ByteOf(v[i], 2);
      bytes[i * 4 + 3] := ByteOf(v[i], 3);
      i := i + 1;
    }
    out := bytes[..];
  }

  method EncryptBytes(data: Bytes, key: Bytes) returns (out: Bytes)
    ensures out == XxteaEncrypt(data, key)
  {
    hide Encrypted, KeyWords, ToWords, Spread, AsInt32;
    if data == [] {
      return [];
    }
    var words := ToUint32Array(data, true);
    var v := new Word[|words|](i requires 0 <= i < |words| => words[i]);
    assert v[..] == words;
    Btea(v, AsInt32(v.Length), KeyWords(key));
    out := SpreadWords(v[..]);
  }

  method DecryptBytes(data: Bytes, key: Bytes) returns (r: Result<Bytes>)
    ensures r == XxteaDecrypt(data, key)
  {
    hide Pack, Decrypted, KeyWords, ValueOf, FromWords, LengthWord;
    if data == [] || |data| % 4 != 0 {
      return Failure("invalid cipher length");
    }
    var v := new Word[|data| / 4];
    var i := 0;
    while i < v.Length
      invariant 0 <= i <= v.Length
      invariant forall k :: 0 <= k < i ==> v[k] == WordAt(data, k)
    {
      v[i] := Pack(data[i * 4], data[i * 4 + 1], data[i * 4 + 2], data[i * 4 + 3]);
      i := i + 1;
    }
    assert v[..] == Gather(data);
    BteaDecrypt(v, AsInt32(v.Length), KeyWords(key));
    var origLen := ValueOf(v[v.Length - 1]);
    if origLen > (v.Length - 1) * 4 {
      return Failure("invalid plain length");
    }
    var plain := FromUint32Array(v[..], origLen);
    r := Success(plain);
  }

  /** A character as a byte. */
  function CodeOf(c: char): Byte {
    ByteOfNat(c as int % 256)
  }

  lemma CodeOfIs(c: char)
    ensures NatOfByte(CodeOf(c)) == c as int % 256
  {
    NatOfByteOfNat(c as int % 256);
  }

  function Ascii(text: string): (s: Bytes)
    ensures |s| == |text| && forall i :: 0 <= i < |s| ==> s[i] == CodeOf(text[i])
  {
    seq(|text|, i requires 0 <= i < |text| => CodeOf(text[i]))
  }

  /** `std::to_string` of a signed version. */
  function VersionBytes(version: int): Bytes {
    Ascii(IntText(version))
  }

  /** The first half of the version's hexadecimal digest. */
  function PayloadKey(t: Md5.Compress, version: int): Bytes {
    Md5.HexDigest(t, VersionBytes(version))[..16]
  }

  function EncryptPayload(t: Md5.Compress, plain: Bytes, version: int): Bytes {
    Base64.Encode(XxteaEncrypt(plain, PayloadKey(t, version)))
  }

  function DecryptPayload(t: Md5.Compress, cipher: Bytes, version: int): Result<Bytes> {
    XxteaDecrypt(Base64.Decode(cipher), PayloadKey(t, version))
  }

  /** A payload is enciphered under the first sixteen digits of the digest of its version's decimal
      text: the four words that hold them give the plain bytes back. */
  lemma PayloadUnderDigits(t: Md5.Compress, plain: Bytes, version: int, k: seq<Word>)
    requires 0 < |plain| < 0x1_0000_0000 && |k| == 4
    requires forall i :: 0 <= i < 16 ==> Spread(k)[i] == Md5.HexDigest(t, Ascii(IntText(version)))[i]
    ensures var c := Base64.Decode(EncryptPayload(t, plain, version));
            && |c| % 4 == 0 && |c| == 4 * WordsFor(|plain|) + 4
            && Spread(Undone(c, k))[..|plain|] == plain
  {
    hide XxteaEncrypt, Spread, Undone, Md5.HexDigest, Ascii, IntText;
    var key := PayloadKey(t, version);
    assert Spread(k) == key + ZeroBytes(0);
    EncipheredUnderKey(plain, key, k);
    Base64.DecodeEncode(XxteaEncrypt(plain, key));
  }

  /** What a client of any version encrypts, the server with the same version reads back. */
  lemma PayloadRoundTrip(t: Md5.Compress, plain: Bytes, version: int)
    ensures DecryptPayload(t, EncryptPayload(t, plain, version), version) == Success(plain)
            <==> 0 < |plain| < 0x1_0000_0000
  {
    hide XxteaEncrypt, XxteaDecrypt, PayloadKey;
    Base64.DecodeEncode(XxteaEncrypt(plain, PayloadKey(t, version)));
    XxteaRoundTrip(plain, PayloadKey(t, version));
  }
}
