/** Keys of a save's dat.json and the search for the key mode that decrypts it. */
module SaveCrypto {
  import opened Results
  import opened WordCodec
  import opened Payload
  import Md5

  datatype KeyMode = LegacyPlain | PaPa | PaPaNew2 | Override

  /** What key derivation reads: the digest and the table of captured keys. */
  datatype Keys = Keys(compress: Md5.Compress, overrides: map<nat, Bytes>)

  /** The sixteen fixed bytes, each followed by the fill byte. */
  function Interleave(fill: Byte, fixed: Bytes): Bytes
    requires |fixed| >= 16
  {
    seq(32, i requires 0 <= i < 32 => if i % 2 == 0 then fixed[i / 2] else fill)
  }

  function SixteenAt(digest: Bytes, off: nat): (key: Bytes)
    requires off <= |digest|
    ensures |key| == if |digest| - off < 16 then |digest| - off else 16
  {
    if |digest| - off < 16 then digest[off..] else digest[off..off + 16]
  }

  /** Save indices are not negative; with `index % 18 == 17` only fifteen digits are left. */
  function DerivePaPaNew2(t: Md5.Compress, index: nat): (key: Bytes)
    ensures |key| == if index % 18 == 17 then 15 else 16
  {
    var fill := Ascii("habo6qeegjpqdgfl")[index % 16];
    SixteenAt(Md5.HexDigest(t, Interleave(fill, Ascii("vabi98dftdlpzeag"))), index % 18)
  }

  function DerivePaPa(t: Md5.Compress, index: nat): (key: Bytes)
    ensures |key| == 16
  {
    var fill := Ascii("bc86tycaxnml5uop")[index % 16];
    SixteenAt(Md5.HexDigest(t, Interleave(fill, Ascii("acdf0899cklnpxzdh"))), index % 7)
  }

  predicate AllHex(key: Bytes) {
    forall i :: 0 <= i < |key| ==> 0x30 <= key[i] <= 0x39 || 0x61 <= key[i] <= 0x66
  }

  /** Derived keys are sixteen hexadecimal digits, one less at the last of the 18 offsets, and they
      repeat: 144 and 112 of them serve every index. */
  lemma DerivedKeys(t: Md5.Compress, a: nat, b: nat)
    ensures |DerivePaPaNew2(t, a)| == (if a % 18 == 17 then 15 else 16) && |DerivePaPa(t, a)| == 16
    ensures AllHex(DerivePaPaNew2(t, a)) && AllHex(DerivePaPa(t, a))
    ensures a % 144 == b % 144 ==> DerivePaPaNew2(t, a) == DerivePaPaNew2(t, b)
    ensures a % 112 == b % 112 ==> DerivePaPa(t, a) == DerivePaPa(t, b)
  {
    hide Ascii, Interleave, Md5.HexDigest;
    Remainders(a);
    Remainders(b);
  }

  /** The characters of the fixed text, each followed by the fill character. */
  predicate IsMaterial(m: Bytes, fixed: string, fill: char)
    requires |fixed| >= 16
  {
    |m| == 32 && forall i :: 0 <= i < 16 ==> m[2 * i] == CodeOf(fixed[i]) && m[2 * i + 1] == CodeOf(fill)
  }

  lemma InterleavedIs(fill: Byte, fixed: Bytes, m: Bytes)
    requires |fixed| >= 16 && |m| == 32
    requires forall i :: 0 <= i < 16 ==> m[2 * i] == fixed[i] && m[2 * i + 1] == fill
    ensures Interleave(fill, fixed) == m
  {
    forall j | 0 <= j < 32 ensures Interleave(fill, fixed)[j] == m[j] {
      assert j == 2 * (j / 2) + j % 2;
    }
  }

  lemma MaterialIs(m: Bytes, fixed: string, fill: char)
    requires |fixed| >= 16 && IsMaterial(m, fixed, fill)
    ensures Interleave(CodeOf(fill), Ascii(fixed)) == m
  {
    hide Interleave, CodeOf;
    InterleavedIs(CodeOf(fill), Ascii(fixed), m);
  }

  /** Which digits the keys are: those of the digest of the fixed text with a letter that the index
      selects after every character, from a place on that the index selects as well. */
  lemma NewKeyIsDigits(t: Md5.Compress, index: nat, m: Bytes)
    requires IsMaterial(m, "vabi98dftdlpzeag", "habo6qeegjpqdgfl"[index % 16])
    ensures forall i :: 0 <= i < |DerivePaPaNew2(t, index)| ==>
              DerivePaPaNew2(t, index)[i] == Md5.HexDigest(t, m)[index % 18 + i]
  {
    hide Interleave, IsMaterial, Md5.HexDigest, CodeOf;
    MaterialIs(m, "vabi98dftdlpzeag", "habo6qeegjpqdgfl"[index % 16]);
  }

  lemma OldKeyIsDigits(t: Md5.Compress, index: nat, m: Bytes)
    requires IsMaterial(m, "acdf0899cklnpxzdh", "bc86tycaxnml5uop"[index % 16])
    ensures forall i :: 0 <= i < 16 ==> DerivePaPa(t, index)[i] == Md5.HexDigest(t, m)[index % 7 + i]
  {
    hide Interleave, IsMaterial, Md5.HexDigest, CodeOf;
    MaterialIs(m, "acdf0899cklnpxzdh", "bc86tycaxnml5uop"[index % 16]);
  }

  lemma Remainders(a: nat)
    ensures a % 16 == a % 144 % 16 && a % 18 == a % 144 % 18
    ensures a % 16 == a % 112 % 16 && a % 7 == a % 112 % 7
  {
    Remainders144(a / 144, a % 144);
    Remainders112(a / 112, a % 112);
  }

  lemma Remainders144(q: nat, r: nat)
    ensures (144 * q + r) % 16 == r % 16 && (144 * q + r) % 18 == r % 18
  {
    Remainder16(9 * q, r);
    Remainder18(8 * q, r);
  }

  lemma Remainder7(k: nat, r: nat)
    ensures (7 * k + r) % 7 == r % 7
  {}

  lemma Remainder16(k: nat, r: nat)
    ensures (16 * k + r) % 16 == r % 16
  {}

  lemma Remainder18(k: nat, r: nat)
    ensures (18 * k + r) % 18 == r % 18
  {}

  lemma Remainders112(q: nat, r: nat)
    ensures (112 * q + r) % 16 == r % 16 && (112 * q + r) % 7 == r % 7
  {
    Remainder16(7 * q, r);
    Remainder7(16 * q, r);
  }

  function OverrideKey(keys: Keys, index: nat): (r: Option<Bytes>)
    ensures r.Some? ==> 15 <= |r.value| <= 16
  {
    if index in keys.overrides && |keys.overrides[index]| >= 15
    then Some(SixteenAt(keys.overrides[index], 0))
    else None
  }

  function DeriveKey(keys: Keys, index: nat, mode: KeyMode): Result<Bytes> {
    match mode
    case Override =>
      (match OverrideKey(keys, index)
       case Some(key) => Success(key)
       case None => Failure("override key missing"))
    case LegacyPlain => Success(Ascii("ab1234abab1234ab"))
    case PaPa => Success(DerivePaPa(keys.compress, index))
    case PaPaNew2 => Success(DerivePaPaNew2(keys.compress, index))
  }

  function EncryptWithKey(plain: Bytes, key: Bytes): Bytes {
    Base64.Encode(XxteaEncrypt(plain, key))
  }

  function DecryptWithKey(cipher: Bytes, key: Bytes): Result<Bytes> {
    XxteaDecrypt(Base64.Decode(cipher), key)
  }

  function EncryptDat(keys: Keys, plain: Bytes, index: nat, mode: KeyMode): Result<Bytes> {
    var key :- DeriveKey(keys, index, mode);
    Success(EncryptWithKey(plain, key))
  }

  function DecryptDat(keys: Keys, cipher: Bytes, index: nat, mode: KeyMode): Result<Bytes> {
    var key :- DeriveKey(keys, index, mode);
    DecryptWithKey(cipher, key)
  }

  /** Whatever a mode encrypts, the same mode decrypts, and the text fits in a save container. */
  lemma DatRoundTrip(keys: Keys, plain: Bytes, index: nat, mode: KeyMode)
    requires EncryptDat(keys, plain, index, mode).Success?
    ensures var c := EncryptDat(keys, plain, index, mode).value;
            && Base64.UNDERSCORE !in c
            && (DecryptDat(keys, c, index, mode) == Success(plain) <==> 0 < |plain| < 0x1_0000_0000)
  {
    hide XxteaEncrypt, XxteaDecrypt, DeriveKey;
    var key := DeriveKey(keys, index, mode).value;
    Base64.EncodeHasNoUnderscore(XxteaEncrypt(plain, key));
    Base64.DecodeEncode(XxteaEncrypt(plain, key));
    XxteaRoundTrip(plain, key);
  }

  predicate LooksLikeJson(text: Bytes) {
    text != [] && (text[0] == CodeOf('{') || text[0] == CodeOf('['))
  }

  /** The text a mode would give, if it decrypts to something that begins like JSON. */
  function Candidate(keys: Keys, cipher: Bytes, index: nat, mode: KeyMode): Option<Bytes> {
    match DecryptDat(keys, cipher, index, mode)
    case Success(plain) => if LooksLikeJson(plain) then Some(plain) else None
    case Failure(_) => None
  }

  /** The order of the attempts: a captured key first. */
  const ORDER: seq<KeyMode> := [Override, PaPaNew2, PaPa, LegacyPlain]

  datatype Found = Found(plain: Bytes, mode: KeyMode)

  /** The found mode is the first in the order that qualifies; failing means that none does. */
  ghost predicate FirstQualifying(keys: Keys, cipher: Bytes, index: nat, r: Result<Found>) {
    match r
    case Success(f) =>
      exists k :: 0 <= k < |ORDER| && ORDER[k] == f.mode
                  && Candidate(keys, cipher, index, f.mode) == Some(f.plain)
                  && forall j :: 0 <= j < k ==> Candidate(keys, cipher, index, ORDER[j]).None?
    case Failure(_) =>
      forall j :: 0 <= j < |ORDER| ==> Candidate(keys, cipher, index, ORDER[j]).None?
  }

  function FirstFrom(keys: Keys, cipher: Bytes, index: nat, k: nat): Result<Found>
    requires k <= |ORDER|
    decreases |ORDER| - k
  {
    if k == |ORDER| then Failure("dat.json decrypt failed")
    else
      match Candidate(keys, cipher, index, ORDER[k])
      case Some(plain) => Success(Found(plain, ORDER[k]))
      case None => FirstFrom(keys, cipher, index, k + 1)
  }

  function DecryptDatAuto(keys: Keys, cipher: Bytes, index: nat): Result<Found> {
    FirstFrom(keys, cipher, index, 0)
  }

  lemma {:induction false} FirstFromQualifies(keys: Keys, cipher: Bytes, index: nat, k: nat)
    requires k <= |ORDER| && forall j :: 0 <= j < k ==> Candidate(keys, cipher, index, ORDER[j]).None?
    ensures FirstQualifying(keys, cipher, index, FirstFrom(keys, cipher, index, k))
    decreases |ORDER| - k
  {
    hide Candidate;
    if k < |ORDER| && Candidate(keys, cipher, index, ORDER[k]).None? {
      FirstFromQualifies(keys, cipher, index, k + 1);
    }
  }

  /** Exactly one answer qualifies, and it is the one returned. */
  lemma DecryptDatAutoIsFirst(keys: Keys, cipher: Bytes, index: nat, r: Result<Found>)
    ensures FirstQualifying(keys, cipher, index, r) && r.Success? <==>
          r == DecryptDatAuto(keys, cipher, index) && r.Success?
    ensures FirstQualifying(keys, cipher, index, r) && r.Failure? ==> DecryptDatAuto(keys, cipher, index).Failure?
  {
    hide Candidate, DecryptDatAuto;
    FirstFromQualifies(keys, cipher, index, 0);
    assert DecryptDatAuto(keys, cipher, index) == FirstFrom(keys, cipher, index, 0) by {
      DatAutoUnfold(keys, cipher, index);
    }
  }

  /** Under this mode the cipher text gives something that begins with a brace or a bracket. */
  predicate GivesJson(keys: Keys, cipher: Bytes, index: nat, mode: KeyMode) {
    var r := DecryptDat(keys, cipher, index, mode);
    r.Success? && r.value != [] && (r.value[0] == CodeOf('{') || r.value[0] == CodeOf('['))
  }

  lemma CandidateGivesJson(keys: Keys, cipher: Bytes, index: nat, mode: KeyMode)
    ensures Candidate(keys, cipher, index, mode).Some? <==> GivesJson(keys, cipher, index, mode)
    ensures Candidate(keys, cipher, index, mode).Some? ==>
              DecryptDat(keys, cipher, index, mode) == Success(Candidate(keys, cipher, index, mode).value)
  {
    hide DecryptDat;
  }

  /** The captured key first, the plain legacy key last. */
  function Rank(mode: KeyMode): nat {
    match mode case Override => 0 case PaPaNew2 => 1 case PaPa => 2 case LegacyPlain => 3
  }

  /** A document encrypted under any mode with a key is opened again: some text that begins with a
      brace or a bracket is found, and it is the document itself unless an earlier mode happens to give
      such a text too. */
  lemma EncryptedIsOpened(keys: Keys, plain: Bytes, index: nat, mode: KeyMode)
    requires EncryptDat(keys, plain, index, mode).Success? && 0 < |plain| < 0x1_0000_0000
    requires plain[0] == CodeOf('{') || plain[0] == CodeOf('[')
    ensures var c := EncryptDat(keys, plain, index, mode).value;
            && DecryptDatAuto(keys, c, index).Success?
            && ((forall m :: Rank(m) < Rank(mode) ==> !GivesJson(keys, c, index, m)) ==>
                  DecryptDatAuto(keys, c, index) == Success(Found(plain, mode)))
  {
    hide EncryptDat, DecryptDat, FirstFrom, DecryptDatAuto, Candidate, CodeOf;
    var c := EncryptDat(keys, plain, index, mode).value;
    DatRoundTrip(keys, plain, index, mode);
    CandidateGivesJson(keys, c, index, mode);
    assert Candidate(keys, c, index, mode) == Some(plain);
    assert ORDER[Rank(mode)] == mode;
    DatAutoUnfold(keys, c, index);
    FirstFromQualifies(keys, c, index, 0);
    if forall m :: Rank(m) < Rank(mode) ==> !GivesJson(keys, c, index, m) {
      forall j | 0 <= j < Rank(mode) ensures Candidate(keys, c, index, ORDER[j]).None? {
        assert Rank(ORDER[j]) == j;
        CandidateGivesJson(keys, c, index, ORDER[j]);
      }
      DecryptDatAutoIsFirst(keys, c, index, Success(Found(plain, mode)));
    }
  }

  /** Under the current derivation, without a captured key, it is always the document itself. */
  lemma CurrentModeIsOpened(keys: Keys, plain: Bytes, index: nat)
    requires 0 < |plain| < 0x1_0000_0000 && (plain[0] == CodeOf('{') || plain[0] == CodeOf('['))
    requires index !in keys.overrides || |keys.overrides[index]| < 15
    ensures EncryptDat(keys, plain, index, PaPaNew2).Success?
    ensures DecryptDatAuto(keys, EncryptDat(keys, plain, index, PaPaNew2).value, index) ==
              Success(Found(plain, PaPaNew2))
  {
    hide DerivePaPa, DerivePaPaNew2, EncryptWithKey, DecryptWithKey, DecryptDatAuto, CodeOf;
    var c := EncryptDat(keys, plain, index, PaPaNew2).value;
    assert DecryptDat(keys, c, index, Override).Failure?;
    assert forall m :: Rank(m) < Rank(PaPaNew2) ==> m == Override;
    EncryptedIsOpened(keys, plain, index, PaPaNew2);
  }

  /** Nothing else is ever taken for a document. */
  lemma OpenedBeginsLikeJson(keys: Keys, cipher: Bytes, index: nat)
    requires DecryptDatAuto(keys, cipher, index).Success?
    ensures var found := DecryptDatAuto(keys, cipher, index).value;
            && GivesJson(keys, cipher, index, found.mode)
            && DecryptDat(keys, cipher, index, found.mode) == Success(found.plain)
  {
    hide DecryptDat, DecryptDatAuto, Candidate, CodeOf;
    var r := DecryptDatAuto(keys, cipher, index);
    DecryptDatAutoIsFirst(keys, cipher, index, r);
    CandidateGivesJson(keys, cipher, index, r.value.mode);
  }

  lemma DatAutoUnfold(keys: Keys, cipher: Bytes, index: nat)
    ensures DecryptDatAuto(keys, cipher, index) == FirstFrom(keys, cipher, index, 0)
  {}

  /** Every character of the fixed text is followed by the fill character. */
  method InterleaveLoop(fill: Byte, fixed: Bytes) returns (out: Bytes)
    requires |fixed| >= 16
    ensures out == Interleave(fill, fixed)
  {
    out := [];
    for i := 0 to 16
      invariant |out| == 2 * i
      invariant forall k :: 0 <= k < i ==> out[2 * k] == fixed[k] && out[2 * k + 1] == fill
    {
      out := out + [fixed[i], fill];
    }
    InterleavedIs(fill, fixed, out);
  }

  method PaPaNew2Key(t: Md5.Compress, index: nat) returns (key: Bytes)
    ensures key == DerivePaPaNew2(t, index)
  {
    hide Ascii, Interleave, Md5.HexDigest;
    var material := InterleaveLoop(Ascii("habo6qeegjpqdgfl")[index % 16], Ascii("vabi98dftdlpzeag"));
    var md5 := Md5.HexDigest(t, material);
    var off := index % 18;
    key := md5[off..off + if 16 <= |md5| - off then 16 else |md5| - off];
  }

  method PaPaKey(t: Md5.Compress, index: nat) returns (key: Bytes)
    ensures key == DerivePaPa(t, index)
  {
    hide Ascii, Interleave, Md5.HexDigest;
    var material := InterleaveLoop(Ascii("bc86tycaxnml5uop")[index % 16], Ascii("acdf0899cklnpxzdh"));
    var md5 := Md5.HexDigest(t, material);
    var off := index % 7;
    key := md5[off..off + 16];
  }

  method KeyOfMode(keys: Keys, index: nat, mode: KeyMode) returns (r: Result<Bytes>)
    ensures r == DeriveKey(keys, index, mode)
  {
    hide Ascii, DerivePaPa, DerivePaPaNew2;
    match mode {
      case Override =>
        if index !in keys.overrides || |keys.overrides[index]| < 15 {
          return Failure("override key missing");
        }
        var key := keys.overrides[index];
        assert key[0..] == key && (|key| > 16 ==> key[0..16] == key[..16]);
        assert |key| == 16 ==> key[0..16] == key;
        r := Success(if |key| > 16 then key[..16] else key);
      case LegacyPlain =>
        r := Success(Ascii("ab1234abab1234ab"));
      case PaPa =>
        var key := PaPaKey(keys.compress, index);
        r := Success(key);
      case PaPaNew2 =>
        var key := PaPaNew2Key(keys.compress, index);
        r := Success(key);
    }
  }

  /** The captured key is tried by itself, then the three derived modes in a loop. */
  method DecryptAuto(keys: Keys, cipher: Bytes, index: nat) returns (r: Result<Found>)
    ensures r == DecryptDatAuto(keys, cipher, index)
  {
    hide XxteaDecrypt, DerivePaPa, DerivePaPaNew2, Ascii, FirstFrom;
    var modes := [PaPaNew2, PaPa, LegacyPlain];
    assert ORDER == [Override] + modes;
    DatAutoUnfold(keys, cipher, index);
    FirstStep(keys, cipher, index, 0);
    match OverrideKey(keys, index) {
      case Some(key) =>
        match DecryptWithKey(cipher, key) {
          case Success(plain) =>
            if LooksLikeJson(plain) {
              return Success(Found(plain, Override));
            }
          case Failure(_) =>
        }
      case None =>
    }
    var i := 0;
    while i < 3
      invariant 0 <= i <= 3
      invariant FirstFrom(keys, cipher, index, i + 1) == DecryptDatAuto(keys, cipher, index)
    {
      FirstStep(keys, cipher, index, i + 1);
      match DecryptDat(keys, cipher, index, modes[i]) {
        case Success(plain) =>
          if LooksLikeJson(plain) {
            return Success(Found(plain, modes[i]));
          }
        case Failure(_) =>
      }
      i := i + 1;
    }
    FirstEnd(keys, cipher, index);
    r := Failure("dat.json decrypt failed");
  }

  lemma FirstStep(keys: Keys, cipher: Bytes, index: nat, k: nat)
    requires k < |ORDER|
    ensures FirstFrom(keys, cipher, index, k)
            == match Candidate(keys, cipher, index, ORDER[k])
               case Some(plain) => Success(Found(plain, ORDER[k]))
               case None => FirstFrom(keys, cipher, index, k + 1)
  {
    hide Candidate;
  }

  lemma FirstEnd(keys: Keys, cipher: Bytes, index: nat)
    ensures FirstFrom(keys, cipher, index, |ORDER|) == Failure("dat.json decrypt failed")
  {}
}
