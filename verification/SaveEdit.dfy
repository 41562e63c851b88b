/** Editing the encrypted dat.json inside a save: strip or apply the `bl` mark. */
module SaveEdit {
  import opened Results
  import opened WordCodec
  import opened SaveBlob
  import opened Payload
  import opened SaveCrypto
  import Base64

  /** A member keeps its value as text; documents other than objects are left alone. */
  datatype Member = Member(key: Bytes, value: Bytes)
  datatype Json = Object(members: seq<Member>) | NotObject(text: Bytes)

  /** The JSON library, as far as an edit uses it. */
  datatype JsonLib = JsonLib(parse: Bytes -> Option<Json>, dump: Json -> Bytes)

  predicate UniqueKeys(ms: seq<Member>) {
    forall i, j :: 0 <= i < j < |ms| ==> ms[i].key != ms[j].key
  }

  predicate WellFormed(doc: Json) {
    doc.Object? ==> UniqueKeys(doc.members)
  }

  /** The library reads this document back from its own text, which is not empty. */
  predicate RoundTrips(lib: JsonLib, doc: Json) {
    lib.dump(doc) != [] && lib.parse(lib.dump(doc)) == Some(doc)
  }

  function DatName(): Bytes { Ascii("dat.json") }
  function BlKey(): Bytes { Ascii("bl") }

  /** An edit of the document; None means unchanged. */
  type Edit = Json -> Option<Json>

  function HasKey(ms: seq<Member>, key: Bytes): bool {
    exists i :: 0 <= i < |ms| && ms[i].key == key
  }

  /** Members other than `key`, in order. */
  function Without(ms: seq<Member>, key: Bytes): seq<Member> {
    if ms == [] then []
    else (if ms[0].key == key then [] else [ms[0]]) + Without(ms[1..], key)
  }

  function StripEdit(doc: Json): Option<Json> {
    if doc.Object? && HasKey(doc.members, BlKey()) then Some(Object(Without(doc.members, BlKey()))) else None
  }

  function ApplyEdit(doc: Json): Option<Json> {
    if !doc.Object? || HasKey(doc.members, BlKey()) then None
    else Some(Object(doc.members + [Member(BlKey(), Ascii("1"))]))
  }

  /** The plain text of a stored dat.json and the key mode to write it back with. */
  function OpenDat(keys: Keys, cipher: Bytes, index: nat): Result<Found> {
    if cipher == Ascii("null") || cipher == [] then Success(Found(Ascii("{}"), PaPaNew2))
    else DecryptDatAuto(keys, cipher, index)
  }

  function EditDat(keys: Keys, lib: JsonLib, blob: Bytes, index: nat, edit: Edit): Result<Bytes> {
    match GetSegment(blob, DatName())
    case None => Failure("save blob missing dat.json")
    case Some(cipher) =>
      var found :- OpenDat(keys, cipher, index);
      match lib.parse(found.plain)
      case None => Failure("parse error")
      case Some(doc) =>
        match edit(doc)
        case None => Success(blob)
        case Some(after) =>
          var encrypted :- EncryptDat(keys, lib.dump(after), index, found.mode);
          Success(SetSegment(blob, DatName(), encrypted))
  }

  function StripBl(keys: Keys, lib: JsonLib, blob: Bytes, index: nat): Result<Bytes> {
    EditDat(keys, lib, blob, index, StripEdit)
  }

  function ApplyBl(keys: Keys, lib: JsonLib, blob: Bytes, index: nat): Result<Bytes> {
    EditDat(keys, lib, blob, index, ApplyEdit)
  }

  /** What an edit that changed something must have done: the same segments in the same order with
      only the first dat.json replaced, by text that the same mode decrypts to the new document. */
  ghost predicate ExactEdit(keys: Keys, lib: JsonLib, blob: Bytes, out: Bytes, index: nat, mode: KeyMode, after: Json) {
    exists k, c ::
      && 0 <= k < |Parse(blob)| && Parse(blob)[k].name == DatName()
      && (forall i :: 0 <= i < k ==> Parse(blob)[i].name != DatName())
      && Parse(out) == Parse(blob)[k := Segment(DatName(), c)]
      && GetSegment(out, DatName()) == Some(c)
      && DecryptDat(keys, c, index, mode) == Success(lib.dump(after))
      && lib.parse(lib.dump(after)) == Some(after)
  }

  lemma DerivedAfterFound(keys: Keys, cipher: Bytes, index: nat)
    requires OpenDat(keys, cipher, index).Success?
    ensures DeriveKey(keys, index, OpenDat(keys, cipher, index).value.mode).Success?
  {
    hide Ascii, DerivePaPa, DerivePaPaNew2, DecryptWithKey, LooksLikeJson;
    var r := OpenDat(keys, cipher, index);
    if r.value.mode.Override? {
      DecryptDatAutoIsFirst(keys, cipher, index, r);
    }
  }

  /** Every successful edit that changes the document is exact, whatever the blob, the keys and the
      edit, as long as the library reads the new document back from its text, and that text is
      shorter than 2^32. */
  lemma EditDatExact(keys: Keys, lib: JsonLib, blob: Bytes, index: nat, edit: Edit,
                     cipher: Bytes, found: Found, doc: Json, after: Json)
    requires GetSegment(blob, DatName()) == Some(cipher)
    requires OpenDat(keys, cipher, index) == Success(found)
    requires lib.parse(found.plain) == Some(doc)
    requires edit(doc) == Some(after) && RoundTrips(lib, after) && |lib.dump(after)| < 0x1_0000_0000
    ensures EditDat(keys, lib, blob, index, edit).Success?
    ensures ExactEdit(keys, lib, blob, EditDat(keys, lib, blob, index, edit).value, index, found.mode, after)
  {
    hide DatName, OpenDat, EncryptDat, DecryptDat, DeriveKey, Parse, SetSegment, GetSegment, Updated;
    DerivedAfterFound(keys, cipher, index);
    EncryptSucceeds(keys, lib.dump(after), index, found.mode);
    var c := EncryptDat(keys, lib.dump(after), index, found.mode).value;
    DatRoundTrip(keys, lib.dump(after), index, found.mode);
    SetSegmentPlain(blob, DatName(), c);
    var k := ReplacedAt(blob, DatName(), c);
  }

  lemma EncryptSucceeds(keys: Keys, plain: Bytes, index: nat, mode: KeyMode)
    requires DeriveKey(keys, index, mode).Success?
    ensures EncryptDat(keys, plain, index, mode).Success?
  {}

  lemma ReplacedAt(blob: Bytes, name: Bytes, c: Bytes) returns (k: nat)
    requires GetSegment(blob, name).Some?
    ensures k < |Parse(blob)| && Parse(blob)[k].name == name && forall i :: 0 <= i < k ==> Parse(blob)[i].name != name
    ensures Updated(Parse(blob), name, c) == Parse(blob)[k := Segment(name, c)]
  {
    k := UpdatedShape(Parse(blob), name, c);
  }

  lemma {:induction false} WithoutMembers(ms: seq<Member>, key: Bytes)
    ensures forall m :: m in Without(ms, key) <==> m in ms && m.key != key
  {
    if ms != [] {
      WithoutMembers(ms[1..], key);
      assert forall m :: m in ms <==> m == ms[0] || m in ms[1..];
    }
  }

  lemma HasKeyIn(ms: seq<Member>, key: Bytes)
    ensures HasKey(ms, key) <==> exists m :: m in ms && m.key == key
  {
    if HasKey(ms, key) {
      var i :| 0 <= i < |ms| && ms[i].key == key;
      assert ms[i] in ms;
    }
  }

  lemma {:induction false} WithoutUnique(ms: seq<Member>, key: Bytes)
    requires UniqueKeys(ms)
    ensures UniqueKeys(Without(ms, key))
  {
    if ms != [] {
      WithoutUnique(ms[1..], key);
      WithoutMembers(ms[1..], key);
    }
  }

  /** Stripping removes exactly the mark: distinct keys stay, and every other member stays. */
  lemma StripEditMeaning(doc: Json)
    requires WellFormed(doc)
    ensures StripEdit(doc).Some? <==> doc.Object? && HasKey(doc.members, BlKey())
    ensures StripEdit(doc).Some? ==>
      var after := StripEdit(doc).value;
      && after.Object? && WellFormed(after) && !HasKey(after.members, BlKey())
      && forall m :: m in after.members <==> m in doc.members && m.key != BlKey()
  {
    hide BlKey;
    if doc.Object? {
      WithoutUnique(doc.members, BlKey());
      WithoutMembers(doc.members, BlKey());
      HasKeyIn(Without(doc.members, BlKey()), BlKey());
    }
  }

  lemma {:induction false} WithoutLast(ms: seq<Member>, m: Member)
    requires !HasKey(ms, m.key)
    ensures Without(ms + [m], m.key) == ms
  {
    if ms != [] {
      assert (ms + [m])[1..] == ms[1..] + [m];
      assert ms[0].key != m.key;
      forall i | 0 <= i < |ms| - 1 ensures ms[1..][i].key != m.key {
        assert ms[i + 1].key != m.key;
      }
      WithoutLast(ms[1..], m);
    }
  }

  /** Applying appends the mark last, and stripping takes exactly it away again. */
  lemma StripUndoesApply(doc: Json)
    requires WellFormed(doc) && ApplyEdit(doc).Some?
    ensures WellFormed(ApplyEdit(doc).value)
    ensures StripEdit(ApplyEdit(doc).value) == Some(doc)
  {
    hide BlKey;
    var m := Member(BlKey(), Ascii("1"));
    var after := doc.members + [m];
    WithoutLast(doc.members, m);
    assert after[|doc.members|].key == BlKey();
  }

  /** Stripping a save whose document carries the mark removes that member and changes nothing else. */
  lemma StripBlExact(keys: Keys, lib: JsonLib, blob: Bytes, index: nat, cipher: Bytes, found: Found, doc: Json)
    requires GetSegment(blob, DatName()) == Some(cipher)
    requires OpenDat(keys, cipher, index) == Success(found)
    requires lib.parse(found.plain) == Some(doc)
    requires StripEdit(doc).Some? ==>
          RoundTrips(lib, StripEdit(doc).value) && |lib.dump(StripEdit(doc).value)| < 0x1_0000_0000
    ensures StripBl(keys, lib, blob, index).Success?
    ensures var out := StripBl(keys, lib, blob, index).value;
            match StripEdit(doc)
            case None => out == blob
            case Some(after) => ExactEdit(keys, lib, blob, out, index, found.mode, after)
  {
    hide DatName, OpenDat, EncryptDat, GetSegment, SetSegment, ExactEdit, BlKey, StripEdit;
    if StripEdit(doc).Some? {
      EditDatExact(keys, lib, blob, index, StripEdit, cipher, found, doc, StripEdit(doc).value);
    }
  }

  /** Applying the mark appends it as the document's last member and changes nothing else. */
  lemma ApplyBlExact(keys: Keys, lib: JsonLib, blob: Bytes, index: nat, cipher: Bytes, found: Found, doc: Json)
    requires GetSegment(blob, DatName()) == Some(cipher)
    requires OpenDat(keys, cipher, index) == Success(found)
    requires lib.parse(found.plain) == Some(doc)
    requires ApplyEdit(doc).Some? ==>
          RoundTrips(lib, ApplyEdit(doc).value) && |lib.dump(ApplyEdit(doc).value)| < 0x1_0000_0000
    ensures ApplyBl(keys, lib, blob, index).Success?
    ensures var out := ApplyBl(keys, lib, blob, index).value;
            match ApplyEdit(doc)
            case None => out == blob
            case Some(after) => ExactEdit(keys, lib, blob, out, index, found.mode, after)
  {
    if ApplyEdit(doc).Some? {
      hide DatName, OpenDat, EncryptDat, GetSegment, SetSegment, ExactEdit, BlKey, ApplyEdit;
      EditDatExact(keys, lib, blob, index, ApplyEdit, cipher, found, doc, ApplyEdit(doc).value);
    }
  }

  // ---- from the encrypted document

  /** Cipher texts are never mistaken for a missing document: they have twelve characters or more. */
  lemma CipherIsNoStub(keys: Keys, plain: Bytes, index: nat, mode: KeyMode)
    requires EncryptDat(keys, plain, index, mode).Success? && plain != []
    ensures |EncryptDat(keys, plain, index, mode).value| >= 12
  {
    hide DeriveKey, XxteaEncrypt, Base64.Encode;
    Base64.EncodeShape(XxteaEncrypt(plain, DeriveKey(keys, index, mode).value));
  }

  /** A document a client encrypted under any mode is opened as it was, unless an earlier mode happens
      to turn it into something that begins like JSON. */
  lemma ClientsDocumentIsOpened(keys: Keys, plain: Bytes, index: nat, mode: KeyMode)
    requires EncryptDat(keys, plain, index, mode).Success? && 0 < |plain| < 0x1_0000_0000
    requires plain[0] == CodeOf('{') || plain[0] == CodeOf('[')
    requires var c := EncryptDat(keys, plain, index, mode).value;
             forall m :: Rank(m) < Rank(mode) ==> !GivesJson(keys, c, index, m)
    ensures OpenDat(keys, EncryptDat(keys, plain, index, mode).value, index) == Success(Found(plain, mode))
  {
    hide EncryptDat, DecryptDatAuto, GivesJson, CodeOf;
    CipherIsNoStub(keys, plain, index, mode);
    EncryptedIsOpened(keys, plain, index, mode);
  }

  /** The `dat.json` of a save holds this plain text, encrypted by a client under this mode, and the
      library reads it as this document. */
  predicate Holds(keys: Keys, lib: JsonLib, blob: Bytes, index: nat, mode: KeyMode, plain: Bytes, doc: Json) {
    && EncryptDat(keys, plain, index, mode).Success? && 0 < |plain| < 0x1_0000_0000
    && (plain[0] == CodeOf('{') || plain[0] == CodeOf('['))
    && GetSegment(blob, Ascii("dat.json")) == Some(EncryptDat(keys, plain, index, mode).value)
    && (var c := EncryptDat(keys, plain, index, mode).value;
        forall m :: Rank(m) < Rank(mode) ==> !GivesJson(keys, c, index, m))
    && lib.parse(plain) == Some(doc)
  }

  /** Stripping succeeds on every such save: without the member "bl" it is left as it is, with it
      only that member is gone. */
  lemma StripsClientsMark(keys: Keys, lib: JsonLib, blob: Bytes, index: nat, mode: KeyMode, plain: Bytes, doc: Json)
    requires Holds(keys, lib, blob, index, mode, plain, doc) && WellFormed(doc)
    requires StripEdit(doc).Some? ==>
          RoundTrips(lib, StripEdit(doc).value) && |lib.dump(StripEdit(doc).value)| < 0x1_0000_0000
    ensures StripBl(keys, lib, blob, index).Success?
    ensures var out := StripBl(keys, lib, blob, index).value;
            if doc.Object? && HasKey(doc.members, Ascii("bl")) then
              exists after :: ExactEdit(keys, lib, blob, out, index, mode, Object(after))
                && forall m :: m in after <==> m in doc.members && m.key != Ascii("bl")
            else out == blob
  {
    hide EncryptDat, GetSegment, OpenDat, ExactEdit, GivesJson, CodeOf, Ascii, RoundTrips;
    var c := EncryptDat(keys, plain, index, mode).value;
    ClientsDocumentIsOpened(keys, plain, index, mode);
    StripBlExact(keys, lib, blob, index, c, Found(plain, mode), doc);
    StripEditMeaning(doc);
    if StripEdit(doc).Some? {
      var after := StripEdit(doc).value.members;
      assert ExactEdit(keys, lib, blob, StripBl(keys, lib, blob, index).value, index, mode, Object(after));
    }
  }

  /** Marking succeeds as well, and appends the member "bl" with the value 1 unless there is one. */
  lemma MarksClientsDocument(keys: Keys, lib: JsonLib, blob: Bytes, index: nat, mode: KeyMode, plain: Bytes, doc: Json)
    requires Holds(keys, lib, blob, index, mode, plain, doc)
    requires ApplyEdit(doc).Some? ==>
          RoundTrips(lib, ApplyEdit(doc).value) && |lib.dump(ApplyEdit(doc).value)| < 0x1_0000_0000
    ensures ApplyBl(keys, lib, blob, index).Success?
    ensures var out := ApplyBl(keys, lib, blob, index).value;
            if doc.Object? && !HasKey(doc.members, Ascii("bl")) then
              ExactEdit(keys, lib, blob, out, index, mode, Object(doc.members + [Member(Ascii("bl"), Ascii("1"))]))
            else out == blob
  {
    hide EncryptDat, GetSegment, OpenDat, ExactEdit, GivesJson, CodeOf, Ascii, RoundTrips;
    var c := EncryptDat(keys, plain, index, mode).value;
    ClientsDocumentIsOpened(keys, plain, index, mode);
    ApplyBlExact(keys, lib, blob, index, c, Found(plain, mode), doc);
  }

  /** A missing document, "null" or nothing at all, counts as an empty object: it is left alone when
      stripped, and marked under the current derivation. */
  lemma MissingDocumentIsEmpty(keys: Keys, lib: JsonLib, blob: Bytes, index: nat, c: Bytes)
    requires GetSegment(blob, Ascii("dat.json")) == Some(c) && (c == Ascii("null") || c == [])
    requires lib.parse(Ascii("{}")) == Some(Object([]))
    requires var marked := Object([Member(Ascii("bl"), Ascii("1"))]);
             RoundTrips(lib, marked) && |lib.dump(marked)| < 0x1_0000_0000
    ensures StripBl(keys, lib, blob, index) == Success(blob)
    ensures ApplyBl(keys, lib, blob, index).Success?
    ensures ExactEdit(keys, lib, blob, ApplyBl(keys, lib, blob, index).value, index, PaPaNew2,
                      Object([Member(Ascii("bl"), Ascii("1"))]))
  {
    var doc := Object([]);
    var found := Found(Ascii("{}"), PaPaNew2);
    assert OpenDat(keys, c, index) == Success(found);
    hide GetSegment, OpenDat, ExactEdit, CodeOf, Ascii, RoundTrips;
    assert doc.members + [Member(BlKey(), Ascii("1"))] == [Member(BlKey(), Ascii("1"))];
    ApplyBlExact(keys, lib, blob, index, c, found, doc);
    StripBlExact(keys, lib, blob, index, c, found, doc);
  }

  /** The edit step by step, with its refusals. */
  method EditDocument(keys: Keys, lib: JsonLib, blob: Bytes, index: nat, edit: Edit) returns (r: Result<Bytes>)
    ensures r == EditDat(keys, lib, blob, index, edit)
  {
    hide GetSegment, DecryptDatAuto, SetSegment, EncryptDat, Ascii;
    var cipher := ReadSegment(blob, Ascii("dat.json"));
    if cipher == None {
      return Failure("save blob missing dat.json");
    }
    var found := Found(Ascii("{}"), PaPaNew2);
    if cipher.value != Ascii("null") && cipher.value != [] {
      var decrypted := DecryptAuto(keys, cipher.value, index);
      if decrypted.Failure? {
        return Failure(decrypted.error);
      }
      found := decrypted.value;
    }
    var doc := lib.parse(found.plain);
    if doc == None {
      return Failure("parse error");
    }
    var after := edit(doc.value);
    if after == None {
      return Success(blob);
    }
    var key := KeyOfMode(keys, index, found.mode);
    EncryptUnfold(keys, lib.dump(after.value), index, found.mode);
    if key.Failure? {
      return Failure(key.error);
    }
    var out := WriteSegment(blob, Ascii("dat.json"), EncryptWithKey(lib.dump(after.value), key.value));
    r := Success(out);
  }

  lemma EncryptUnfold(keys: Keys, plain: Bytes, index: nat, mode: KeyMode)
    ensures EncryptDat(keys, plain, index, mode) ==
              match DeriveKey(keys, index, mode)
              case Success(key) => Success(EncryptWithKey(plain, key))
              case Failure(error) => Failure(error)
  {
    hide DeriveKey, EncryptWithKey;
  }
}
