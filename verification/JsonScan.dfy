/** The upload scanner: it looks for keys in the text of an object instead of parsing it. */
module JsonScan {
  import opened Results
  import opened Decimals

  predicate IsBlank(c: char) {
    c == ' ' || c == '\n' || c == '\r' || c == '\t'
  }

  function SkipBlank(s: string): (r: string)
    ensures |r| <= |s|
  {
    if s != [] && IsBlank(s[0]) then SkipBlank(s[1..]) else s
  }

  predicate StartsWith(s: string, pat: string) {
    |pat| <= |s| && s[..|pat|] == pat
  }

  function Quoted(key: string): string {
    "\"" + key + "\""
  }

  /** What follows the first quoted key that a colon follows (blanks aside). */
  function Locate(s: string, key: string): Option<string>
    decreases |s|
  {
    var pat := Quoted(key);
    if s == [] then None
    else if StartsWith(s, pat) then
      var rest := SkipBlank(s[|pat|..]);
      if rest != [] && rest[0] == ':' then Some(SkipBlank(rest[1..])) else Locate(s[|pat|..], key)
    else Locate(s[1..], key)
  }

  /** One character of a string value, and how much text it takes; a \u escape becomes a question
      mark and takes its four digits with it if there are that many left. */
  function NextChar(s: string): (r: (char, nat))
    requires s != []
    ensures 1 <= r.1 <= |s|
  {
    if s[0] == '\\' && |s| > 1 then
      var e := s[1];
      (if e == 'n' then '\n' else if e == 't' then '\t' else if e == 'r' then '\r' else if e == 'u' then '?' else e,
       if e == 'u' && |s| >= 6 then 6 else 2)
    else (s[0], 1)
  }

  /** The text up to the closing quote, escapes resolved. */
  function Unescaped(s: string): string
    decreases |s|
  {
    if s == [] || s[0] == '"' then [] else [NextChar(s).0] + Unescaped(s[NextChar(s).1..])
  }

  // ---- the two readers

  function ReadString(at: string): Option<string> {
    if at != [] && at[0] == '"' then Some(Unescaped(at[1..]))
    else if StartsWith(at, "null") then Some("")
    else None
  }

  function GetString(s: string, key: string): Option<string> {
    var at := Locate(s, key);
    if at == None then None else ReadString(at.value)
  }

  /** A sign and the digits after it. */
  function SignedRun(s: string): (r: string)
    ensures |r| <= |s| && r == s[..|r|]
  {
    if s != [] && (s[0] == '-' || s[0] == '+') then [s[0]] + DigitRun(s[1..]) else DigitRun(s)
  }

  function ReadInt(at: string): Option<int> {
    if at != [] && at[0] == '"' then Stoi(Unescaped(at[1..]))
    else if SignedRun(at) == [] then None
    else Stoi(SignedRun(at))
  }

  function GetInt(s: string, key: string): Option<int> {
    var at := Locate(s, key);
    if at == None then None else ReadInt(at.value)
  }

  // ---- objects in print

  /** A character of a string value, as it is or escaped. */
  datatype Piece = Plain(c: char) | Escaped(c: char)

  datatype Value = Text(pieces: seq<Piece>) | Number(n: int) | Null

  datatype Field = Field(key: string, value: Value)

  predicate PieceOk(p: Piece) {
    match p
    case Plain(c) => c != '"' && c != '\\'
    case Escaped(c) => c in "\"\\/\n\r\t"
  }

  function PrintPiece(p: Piece): string {
    match p
    case Plain(c) => [c]
    case Escaped(c) => ['\\', if c == '\n' then 'n' else if c == '\r' then 'r' else if c == '\t' then 't' else c]
  }

  function PrintPieces(ps: seq<Piece>): string {
    if ps == [] then [] else PrintPiece(ps[0]) + PrintPieces(ps[1..])
  }

  function Meaning(ps: seq<Piece>): string {
    seq(|ps|, i requires 0 <= i < |ps| => ps[i].c)
  }

  function PrintValue(v: Value): string {
    match v
    case Text(ps) => "\"" + PrintPieces(ps) + "\""
    case Number(n) => IntText(n)
    case Null => "null"
  }

  function PrintField(f: Field): string {
    Quoted(f.key) + ":" + PrintValue(f.value)
  }

  /** The end of an object, or a comma and the next key. */
  predicate TailOk(tail: string) {
    tail == "}" || (|tail| >= 2 && tail[0] == ',' && tail[1] == '"')
  }

  /** What follows a field: the further fields, each after a comma, and the closing brace. */
  function PrintRest(fields: seq<Field>): (s: string)
    ensures TailOk(s)
  {
    if fields == [] then "}" else "," + PrintField(fields[0]) + PrintRest(fields[1..])
  }

  function PrintObject(fields: seq<Field>): string {
    if fields == [] then "{}" else "{" + PrintField(fields[0]) + PrintRest(fields[1..])
  }

  /** A key that is printed as it is. */
  predicate Quoteless(key: string) {
    forall i :: 0 <= i < |key| ==> key[i] != '"' && key[i] != '\\'
  }

  /** The text of a value without quotes: null, or an int as it is printed. */
  predicate Bare(t: string) {
    t == "null" || (IntOf(t).Some? && InIntRange(IntOf(t).value) && IntText(IntOf(t).value) == t)
  }

  /** What can stand between a quote that closes and the next quote that opens: a colon before a text,
      a comma before a key, or a whole value without quotes between its colon and comma. */
  predicate Gap(key: string) {
    key == ":" || key == ","
    || (|key| >= 3 && key[0] == ':' && key[|key| - 1] == ',' && Bare(key[1..|key| - 1]))
  }

  predicate Findable(key: string) {
    Quoteless(key) && !Gap(key)
  }

  predicate ValueOk(v: Value) {
    match v
    case Text(ps) => forall i :: 0 <= i < |ps| ==> PieceOk(ps[i])
    case Number(n) => InIntRange(n)
    case Null => true
  }

  predicate FieldOk(f: Field) {
    Quoteless(f.key) && ValueOk(f.value)
  }

  predicate ObjectOk(fields: seq<Field>) {
    forall i :: 0 <= i < |fields| ==> FieldOk(fields[i])
  }

  /** The value bound to a key: the first, should the key occur twice. */
  function Bound(fields: seq<Field>, key: string): Option<Value> {
    if fields == [] then None
    else if fields[0].key == key then Some(fields[0].value)
    else Bound(fields[1..], key)
  }

  /** What reading a string should give: the bound text, the empty text for null. */
  function AsString(bound: Option<Value>): Option<string> {
    match bound
    case Some(Text(ps)) => Some(Meaning(ps))
    case Some(Null) => Some("")
    case _ => None
  }

  /** What reading an integer should give: the bound number, or what std::stoi makes of a bound text. */
  function AsInt(bound: Option<Value>): Option<int> {
    match bound
    case Some(Text(ps)) => Stoi(Meaning(ps))
    case Some(Number(n)) => Some(n)
    case _ => None
  }

  // ---- scanning past what is no key

  lemma {:induction false} PastQuoteless(t: string, tail: string, key: string)
    requires forall i :: 0 <= i < |t| ==> t[i] != '"'
    ensures Locate(t + tail, key) == Locate(tail, key)
  {
    if t == [] {
      assert t + tail == tail;
    } else {
      assert (t + tail)[1..] == t[1..] + tail;
      assert (t + tail)[0] != Quoted(key)[0];
      PastQuoteless(t[1..], tail, key);
    }
  }

  /** Whatever is not the quoted key is passed over character by character. */
  lemma PastQuote(s: string, key: string)
    requires s != [] && !StartsWith(s, Quoted(key))
    ensures Locate(s, key) == Locate(s[1..], key)
  {}

  lemma NotHere(s: string, pat: string, j: nat)
    requires j < |pat| && (j < |s| ==> s[j] != pat[j])
    ensures !StartsWith(s, pat)
  {
    if |pat| <= |s| {
      assert s[..|pat|][j] == s[j];
    }
  }

  lemma NotLater(s: string, pat: string)
    requires s != [] && pat != [] && !StartsWith(s[1..], pat[1..])
    ensures !StartsWith(s, pat)
  {
    if |pat| <= |s| {
      assert s[1..][..|pat| - 1] == s[..|pat|][1..];
    }
  }

  /** A quote with no other behind it opens nothing. */
  lemma LoneQuote(t: string, key: string)
    requires forall i :: 0 <= i < |t| ==> t[i] != '"'
    ensures !StartsWith("\"" + t, Quoted(key))
  {
    NotHere("\"" + t, Quoted(key), |key| + 1);
  }

  /** The quote that closes a text is passed over. */
  lemma ClosingQuote(tail: string, key: string)
    requires Findable(key) && TailOk(tail)
    ensures Locate("\"" + tail, key) == Locate(tail, key)
  {
    hide Locate, StartsWith;
    var s := "\"" + tail;
    if tail == "}" {
      LoneQuote(tail, key);
    } else {
      assert s == Quoted(",") + tail[2..];
      OtherKey(",", tail[2..], key);
    }
    PastQuote(s, key);
    assert s[1..] == tail;
  }

  lemma BareValue(v: Value)
    requires ValueOk(v) && !v.Text?
    ensures Bare(PrintValue(v)) && Quoteless(PrintValue(v)) && PrintValue(v) != []
  {
    if v.Number? {
      IntOfText(v.n);
      IntTextChars(v.n);
    }
  }

  lemma ValueGap(v: Value)
    requires ValueOk(v) && !v.Text?
    ensures var gap := ":" + PrintValue(v) + ","; Gap(gap) && Quoteless(gap)
  {
    hide PrintValue, Bare;
    BareValue(v);
    var gap := ":" + PrintValue(v) + ",";
    assert gap[1..|gap| - 1] == PrintValue(v);
  }

  lemma TextNoHit(ps: seq<Piece>, rest: string, key: string)
    requires Quoteless(key) && key != ":"
    ensures !StartsWith("\"" + (":" + (PrintValue(Text(ps)) + rest)), Quoted(key))
  {
    hide StartsWith, PrintPieces;
    var after := PrintValue(Text(ps)) + rest;
    assert "\"" + (":" + after) == Quoted(":") + after[1..];
    OtherKey(":", after[1..], key);
  }

  lemma BareNoHit(t: string, rest: string, key: string)
    requires TailOk(rest) && Quoteless(t) && Quoteless(key) && Quoteless(":" + t + ",") && key != ":" + t + ","
    ensures !StartsWith("\"" + (":" + (t + rest)), Quoted(key))
  {
    hide StartsWith;
    if rest == "}" {
      LoneQuote(":" + (t + rest), key);
    } else {
      assert "\"" + (":" + (t + rest)) == Quoted(":" + t + ",") + rest[2..];
      OtherKey(":" + t + ",", rest[2..], key);
    }
  }

  /** The quote that closes a key is passed over. */
  lemma KeyClosingQuote(v: Value, rest: string, key: string)
    requires ValueOk(v) && Findable(key) && TailOk(rest)
    ensures Locate("\":" + PrintValue(v) + rest, key) == Locate(PrintValue(v) + rest, key)
  {
    assert key != ":";
    hide Locate, StartsWith, Gap, IntText, TailOk;
    var after := PrintValue(v) + rest;
    if v.Text? {
      TextNoHit(v.pieces, rest, key);
    } else {
      BareValue(v);
      ValueGap(v);
      BareNoHit(PrintValue(v), rest, key);
    }
    hide PrintValue, Quoteless, Quoted, ValueOk;
    PastQuoteColon(after, key);
    ColonText(PrintValue(v), rest);
  }

  lemma ColonText(t: string, rest: string)
    ensures "\":" + t + rest == "\"" + (":" + (t + rest))
  {}

  lemma PastQuoteColon(after: string, key: string)
    requires !StartsWith("\"" + (":" + after), Quoted(key))
    ensures Locate("\"" + (":" + after), key) == Locate(after, key)
  {
    hide Locate, StartsWith;
    var s := "\"" + (":" + after);
    PastQuote(s, key);
    assert s[1..] == ":" + after;
    PastQuoteless(":", after, key);
  }

  predicate PiecesOk(ps: seq<Piece>) {
    forall i :: 0 <= i < |ps| ==> PieceOk(ps[i])
  }

  /** The rest of a string value, with what follows it. */
  function Ending(ps: seq<Piece>, tail: string): string {
    PrintPieces(ps) + "\"" + tail
  }

  lemma EndingStep(ps: seq<Piece>, tail: string)
    requires ps != []
    ensures Ending(ps, tail) == PrintPiece(ps[0]) + Ending(ps[1..], tail)
  {
    hide PrintPiece;
  }

  /** A key and its quote fit in nowhere but at the very end of a string value. */
  lemma {:induction false} KeyInValue(ps: seq<Piece>, tail: string, key: string)
    requires PiecesOk(ps) && Quoteless(key) && PrintPieces(ps) != key
    ensures !StartsWith(Ending(ps, tail), key + "\"")
  {
    hide StartsWith;
    var s := Ending(ps, tail);
    var pat := key + "\"";
    if ps == [] {
      assert s == "\"" + tail;
      NotHere(s, pat, 0);
    } else {
      EndingStep(ps, tail);
      assert PieceOk(ps[0]) && s[0] == PrintPiece(ps[0])[0];
      if key == [] || s[0] != key[0] {
        NotHere(s, pat, 0);
      } else {
        assert s[1..] == Ending(ps[1..], tail) && pat[1..] == key[1..] + "\"";
        assert key == [key[0]] + key[1..];
        KeyInValue(ps[1..], tail, key[1..]);
        NotLater(s, pat);
      }
    }
  }

  /** A quote inside or before a string value: whatever it opens, the scan ends up behind the value. */
  lemma OpeningQuote(ps: seq<Piece>, tail: string, key: string)
    requires PiecesOk(ps) && Findable(key) && TailOk(tail)
    requires Locate(Ending(ps, tail), key) == Locate(tail, key)
    ensures Locate("\"" + Ending(ps, tail), key) == Locate(tail, key)
  {
    hide PrintPieces, PiecesOk;
    var s := "\"" + Ending(ps, tail);
    var pat := Quoted(key);
    assert s[1..] == Ending(ps, tail) && pat[1..] == key + "\"";
    if PrintPieces(ps) == key {
      assert s == pat + tail;
      assert s[..|pat|] == pat && s[|pat|..] == tail;
    } else {
      hide Locate, StartsWith;
      KeyInValue(ps, tail, key);
      NotLater(s, pat);
      PastQuote(s, key);
    }
  }

  lemma {:induction false} PastPieces(ps: seq<Piece>, tail: string, key: string)
    requires PiecesOk(ps) && Findable(key) && TailOk(tail)
    ensures Locate(Ending(ps, tail), key) == Locate(tail, key)
  {
    hide Findable, Locate;
    if ps == [] {
      assert Ending(ps, tail) == "\"" + tail;
      ClosingQuote(tail, key);
    } else {
      var p := ps[0];
      assert PieceOk(p);
      var rest := Ending(ps[1..], tail);
      PastPieces(ps[1..], tail, key);
      EndingStep(ps, tail);
      if p.Escaped? && p.c == '"' {
        OpeningQuote(ps[1..], tail, key);
        assert Ending(ps, tail) == "\\" + ("\"" + rest);
        PastQuoteless("\\", "\"" + rest, key);
      } else {
        PastQuoteless(PrintPiece(p), rest, key);
      }
    }
  }

  lemma {:induction false} NumberQuoteless(n: int)
    ensures forall i :: 0 <= i < |IntText(n)| ==> IntText(n)[i] != '"'
  {
    IntTextChars(n);
  }

  lemma PastValue(v: Value, tail: string, key: string)
    requires ValueOk(v) && Findable(key) && TailOk(tail)
    ensures Locate(PrintValue(v) + tail, key) == Locate(tail, key)
  {
    hide Findable, Locate, IntText;
    match v
    case Text(ps) =>
      PastPieces(ps, tail, key);
      OpeningQuote(ps, tail, key);
      assert PrintValue(v) + tail == "\"" + Ending(ps, tail);
    case Number(n) =>
      NumberQuoteless(n);
      PastQuoteless(IntText(n), tail, key);
    case Null =>
      PastQuoteless("null", tail, key);
  }

  /** At a field: the key is found there, or the scan goes on behind the key. */
  lemma AtField(f: Field, rest: string, key: string)
    requires FieldOk(f) && Findable(key) && TailOk(rest)
    ensures Locate(PrintField(f) + rest, key) ==
              if f.key == key then Some(SkipBlank(PrintValue(f.value) + rest))
              else Locate(PrintValue(f.value) + rest, key)
  {
    hide PrintValue, Gap, Locate, TailOk, Quoted;
    var after := PrintValue(f.value) + rest;
    FieldText(f, rest);
    if f.key == key {
      KeyHit(key, after);
    } else {
      PastKey(f.key, ":" + after, key);
      ColonText(PrintValue(f.value), rest);
      KeyClosingQuote(f.value, rest, key);
    }
  }

  lemma FieldText(f: Field, rest: string)
    ensures PrintField(f) + rest == Quoted(f.key) + (":" + (PrintValue(f.value) + rest))
  {
    hide PrintValue;
  }

  /** Another key is passed over up to its closing quote. */
  lemma PastKey(k: string, tail: string, key: string)
    requires Quoteless(k) && Quoteless(key) && k != key
    ensures Locate(Quoted(k) + tail, key) == Locate("\"" + tail, key)
  {
    hide Locate, StartsWith;
    var s := Quoted(k) + tail;
    OtherKey(k, tail, key);
    PastQuote(s, key);
    assert s[1..] == k + ("\"" + tail);
    PastQuoteless(k, "\"" + tail, key);
  }

  /** The quoted key with a colon behind it is a hit, wherever it stands. */
  lemma KeyHit(key: string, after: string)
    ensures Locate(Quoted(key) + (":" + after), key) == Some(SkipBlank(after))
  {
    var s, pat := Quoted(key) + (":" + after), Quoted(key);
    assert s[..|pat|] == pat;
    assert s[|pat|..] == ":" + after;
    assert (":" + after)[1..] == after;
  }

  lemma OtherKey(k: string, after: string, key: string)
    requires Quoteless(k) && Quoteless(key) && k != key
    ensures !StartsWith(Quoted(k) + after, Quoted(key))
  {
    hide StartsWith;
    var s, pat := Quoted(k) + after, Quoted(key);
    if j :| 0 <= j < |k| && j < |key| && k[j] != key[j] {
      NotHere(s, pat, j + 1);
    } else if |k| < |key| {
      assert s[|k| + 1] == '"' && pat[|k| + 1] == key[|k|];
      NotHere(s, pat, |k| + 1);
    } else {
      LongerKey(k, key);
      assert s[|key| + 1] == k[|key|] && pat[|key| + 1] == '"';
      NotHere(s, pat, |key| + 1);
    }
  }

  lemma LongerKey(k: string, key: string)
    requires k != key && |k| >= |key| && forall j :: 0 <= j < |k| && j < |key| ==> k[j] == key[j]
    ensures |k| > |key|
  {}

  // ---- where the scan stops

  /** The text from the value of the first field with the key. */
  function FromValue(fields: seq<Field>, key: string): Option<string> {
    if fields == [] then None
    else if fields[0].key == key then Some(PrintValue(fields[0].value) + PrintRest(fields[1..]))
    else FromValue(fields[1..], key)
  }

  lemma ValueNotBlank(v: Value, tail: string)
    ensures SkipBlank(PrintValue(v) + tail) == PrintValue(v) + tail
  {
    if v.Number? {
      IntTextChars(v.n);
      assert IsDigit(IntText(v.n)[0]) || IntText(v.n)[0] == '-';
    }
  }

  lemma {:induction false} LocateInFields(fields: seq<Field>, key: string)
    requires ObjectOk(fields) && Findable(key) && fields != []
    ensures Locate(PrintField(fields[0]) + PrintRest(fields[1..]), key) == FromValue(fields, key)
    decreases |fields|, 0
  {
    hide Findable, Locate, ValueOk, PrintValue;
    var f, rest := fields[0], PrintRest(fields[1..]);
    assert FieldOk(f);
    AtField(f, rest, key);
    if f.key == key {
      ValueNotBlank(f.value, rest);
    } else {
      PastValue(f.value, rest, key);
      LocateInRest(fields[1..], key);
    }
  }

  lemma {:induction false} LocateInRest(fields: seq<Field>, key: string)
    requires ObjectOk(fields) && Findable(key)
    ensures Locate(PrintRest(fields), key) == FromValue(fields, key)
    decreases |fields|, 1
  {
    if fields == [] {
      PastQuoteless("}", "", key);
      assert "}" + "" == "}";
    } else {
      LocateInFields(fields, key);
      var body := PrintField(fields[0]) + PrintRest(fields[1..]);
      assert PrintRest(fields) == "," + body;
      PastQuoteless(",", body, key);
    }
  }

  /** In the text of an object the scan stops exactly at the value bound to the key, whatever the
      values before it look like. */
  lemma LocateIsExact(fields: seq<Field>, key: string)
    requires ObjectOk(fields) && Findable(key)
    ensures Locate(PrintObject(fields), key) == FromValue(fields, key)
  {
    if fields == [] {
      PastQuoteless("{}", "", key);
      assert "{}" + "" == "{}";
    } else {
      var body := PrintField(fields[0]) + PrintRest(fields[1..]);
      assert PrintObject(fields) == "{" + body;
      LocateInFields(fields, key);
      PastQuoteless("{", body, key);
    }
  }

  // ---- reading the value

  lemma {:induction false} UnescapedPieces(ps: seq<Piece>, tail: string)
    requires PiecesOk(ps)
    ensures Unescaped(Ending(ps, tail)) == Meaning(ps)
  {
    var s := Ending(ps, tail);
    if ps == [] {
      assert s == "\"" + tail;
    } else {
      var p := ps[0];
      assert PieceOk(p);
      UnescapedPieces(ps[1..], tail);
      EndingStep(ps, tail);
      hide Ending;
      assert NextChar(s) == (p.c, |PrintPiece(p)|);
      assert s[|PrintPiece(p)|..] == Ending(ps[1..], tail);
      assert Meaning(ps) == [p.c] + Meaning(ps[1..]);
    }
  }

  lemma {:induction false} FromValueSome(fields: seq<Field>, key: string)
    requires ObjectOk(fields)
    ensures FromValue(fields, key).Some? <==> Bound(fields, key).Some?
    ensures Bound(fields, key).Some? ==> ValueOk(Bound(fields, key).value)
    ensures Bound(fields, key).Some? ==>
              var text := PrintValue(Bound(fields, key).value);
              exists k :: 0 <= k <= |fields| && FromValue(fields, key) == Some(text + PrintRest(fields[k..]))
  {
    if fields != [] {
      assert FieldOk(fields[0]);
      if fields[0].key == key {
        assert FromValue(fields, key) == Some(PrintValue(Bound(fields, key).value) + PrintRest(fields[1..]));
      } else {
        FromValueSome(fields[1..], key);
        if Bound(fields, key).Some? {
          var text := PrintValue(Bound(fields, key).value);
          var k :| 0 <= k <= |fields| - 1 && FromValue(fields[1..], key) == Some(text + PrintRest(fields[1..][k..]));
          assert fields[1..][k..] == fields[k + 1..];
        }
      }
    }
  }

  lemma TextInPrint(ps: seq<Piece>, rest: string)
    ensures var at := PrintValue(Text(ps)) + rest;
            at != [] && at[0] == '"' && at[1..] == Ending(ps, rest)
  {
    hide PrintPieces;
    assert PrintValue(Text(ps)) + rest == "\"" + Ending(ps, rest);
  }

  lemma ReadStringOf(v: Value, rest: string)
    requires ValueOk(v)
    ensures ReadString(PrintValue(v) + rest) == AsString(Some(v))
  {
    hide IntText, Unescaped, Meaning, PrintPieces;
    var at := PrintValue(v) + rest;
    match v
    case Text(ps) =>
      TextInPrint(ps, rest);
      UnescapedPieces(ps, rest);
    case Number(n) =>
      IntTextChars(n);
      assert at[0] == IntText(n)[0];
      NotHere(at, "null", 0);
    case Null =>
      assert at[..4] == "null";
  }

  /** Reading a string finds exactly the bound text; a number or an absent key gives nothing, null
      the empty text. */
  lemma GetStringIsExact(fields: seq<Field>, key: string)
    requires ObjectOk(fields) && Findable(key)
    ensures GetString(PrintObject(fields), key) == AsString(Bound(fields, key))
  {
    hide Findable, Locate, PrintObject, PrintValue, ReadString, Meaning, ObjectOk, ValueOk;
    LocateIsExact(fields, key);
    FromValueSome(fields, key);
    if Bound(fields, key).Some? {
      var v := Bound(fields, key).value;
      var k :| 0 <= k <= |fields| && FromValue(fields, key) == Some(PrintValue(v) + PrintRest(fields[k..]));
      ReadStringOf(v, PrintRest(fields[k..]));
    }
  }

  lemma {:induction false} DigitRunOf(digits: string, tail: string)
    requires AllDigits(digits) && tail != [] && !IsDigit(tail[0])
    ensures DigitRun(digits + tail) == digits
  {
    if digits == [] {
      assert digits + tail == tail;
    } else {
      assert (digits + tail)[1..] == digits[1..] + tail;
      DigitRunOf(digits[1..], tail);
    }
  }

  lemma SignedRunOf(n: int, tail: string)
    requires tail != [] && !IsDigit(tail[0])
    ensures SignedRun(IntText(n) + tail) == IntText(n)
  {
    hide NatText;
    var s := IntText(n) + tail;
    if n < 0 {
      assert s[1..] == NatText(0 - n) + tail;
      DigitRunOf(NatText(0 - n), tail);
    } else {
      assert IsDigit(s[0]);
      DigitRunOf(NatText(n), tail);
    }
  }

  lemma ReadIntOf(v: Value, rest: string)
    requires ValueOk(v) && rest != [] && !IsDigit(rest[0])
    ensures ReadInt(PrintValue(v) + rest) == AsInt(Some(v))
  {
    hide IntText, Unescaped, Meaning, PrintPieces, Stoi;
    var at := PrintValue(v) + rest;
    match v
    case Text(ps) =>
      TextInPrint(ps, rest);
      UnescapedPieces(ps, rest);
    case Number(n) =>
      IntTextChars(n);
      assert at[0] == IntText(n)[0];
      SignedRunOf(n, rest);
      StoiOfText(n);
    case Null =>
      assert at[0] == 'n';
  }

  /** Reading an integer finds exactly the bound number, what std::stoi makes of a bound text, and
      nothing for null or an absent key. */
  lemma GetIntIsExact(fields: seq<Field>, key: string)
    requires ObjectOk(fields) && Findable(key)
    ensures GetInt(PrintObject(fields), key) == AsInt(Bound(fields, key))
  {
    hide Findable, Locate, PrintObject, PrintValue, ReadInt, Meaning, Stoi, ObjectOk, ValueOk;
    LocateIsExact(fields, key);
    FromValueSome(fields, key);
    if Bound(fields, key).Some? {
      var v := Bound(fields, key).value;
      var k :| 0 <= k <= |fields| && FromValue(fields, key) == Some(PrintValue(v) + PrintRest(fields[k..]));
      ReadIntOf(v, PrintRest(fields[k..]));
    }
  }

  // ---- which keys are read right

  predicate ReadsExactly(fields: seq<Field>, key: string) {
    && GetString(PrintObject(fields), key) == AsString(Bound(fields, key))
    && GetInt(PrintObject(fields), key) == AsInt(Bound(fields, key))
  }

  /** A key that is printed as it is is read right in every object if and only if it is no gap. */
  lemma ExactIffNoGap(key: string)
    requires Quoteless(key)
    ensures (forall fields :: ObjectOk(fields) ==> ReadsExactly(fields, key)) <==> !Gap(key)
  {
    hide ObjectOk, PrintObject, AsString, AsInt, GetString, GetInt, Gap, Quoteless;
    if Gap(key) {
      var fields := Misread(key);
      assert !ReadsExactly(fields, key);
    } else {
      forall fields | ObjectOk(fields) ensures ReadsExactly(fields, key) {
        GetStringIsExact(fields, key);
        GetIntIsExact(fields, key);
      }
    }
  }

  /** Every gap is misread in some object. */
  lemma Misread(key: string) returns (fields: seq<Field>)
    requires Quoteless(key) && Gap(key)
    ensures ObjectOk(fields) && GetInt(PrintObject(fields), key) != AsInt(Bound(fields, key))
  {
    if key == ":" {
      ColonKeyMisread();
      fields := [Field("a", Text([Plain(':'), Plain('7')]))];
    } else if key == "," {
      CommaKeyMisread();
      fields := [Field("a", Text([])), Field(",", Number(5))];
    } else {
      hide GetInt, PrintObject;
      var t := key[1..|key| - 1];
      assert key == ":" + t + ",";
      var v := if t == "null" then Null else Number(IntOf(t).value);
      fields := ValueKeyMisread(v, key);
    }
  }

  /** Keys the server asks for. */
  lemma ServerKeysFindable()
    ensures forall key :: key in {"acc", "area", "save", "username", "pName", "lev"} ==> Findable(key)
  {}

  /** In an object without the key ":" the scan finds one when a text begins with a colon. */
  lemma ColonKeyMisread()
    ensures var fields := [Field("a", Text([Plain(':'), Plain('7')]))];
            ObjectOk(fields) && Bound(fields, ":") == None && GetInt(PrintObject(fields), ":") == Some(7)
  {
    var t := "\":\":7\"}";
    ColonObject();
    hide ObjectOk, Bound, PrintObject, Locate, ReadInt;
    ColonPrinted(t);
    FromOpening(t, ":");
    ColonHit(t);
    SevenRead();
  }

  lemma ColonObject()
    ensures var fields := [Field("a", Text([Plain(':'), Plain('7')]))]; ObjectOk(fields) && Bound(fields, ":") == None
  {}

  lemma ColonPrinted(t: string)
    requires t == "\":\":7\"}"
    ensures PrintObject([Field("a", Text([Plain(':'), Plain('7')]))]) == "{\"a" + t
  {
    var ps := [Plain(':'), Plain('7')];
    var fields := [Field("a", Text(ps))];
    assert ps[1..] == [Plain('7')] && ps[1..][1..] == [] && fields[1..] == [];
    assert PrintPieces(ps) == ":7";
  }

  lemma SevenRead()
    ensures ReadInt("7\"}") == Some(7)
  {
    hide Stoi, IntText;
    SevenText();
    SignedRunOf(7, "\"}");
    assert "7" + "\"}" == "7\"}";
    StoiOfText(7);
  }

  lemma SevenText()
    ensures IntText(7) == "7"
  {}

  /** The scan reaches the end of a first key "a". */
  lemma FromOpening(t: string, key: string)
    requires key != [] && key[0] != 'a'
    ensures Locate("{\"a" + t, key) == Locate(t, key)
  {
    hide Locate, StartsWith;
    var s := "\"a" + t;
    assert "{\"a" + t == "{" + s;
    PastQuoteless("{", s, key);
    NotHere(s, Quoted(key), 1);
    PastQuote(s, key);
    assert s[1..] == "a" + t;
    PastQuoteless("a", t, key);
  }

  lemma ColonHit(t: string)
    requires t == "\":\":7\"}"
    ensures Locate(t, ":") == Some("7\"}")
  {
    KeyHit(":", "7\"}");
    assert Quoted(":") + (":" + "7\"}") == t;
    assert !IsBlank('7');
  }

  /** Behind a text, the key "," is looked for from the wrong quote, and its value is not found. */
  lemma CommaKeyMisread()
    ensures var fields := [Field("a", Text([])), Field(",", Number(5))];
            ObjectOk(fields) && Bound(fields, ",") == Some(Number(5)) && GetInt(PrintObject(fields), ",") == None
  {
    var t := "\":\"\",\",\":5}";
    CommaObject();
    hide ObjectOk, Bound, PrintObject, Locate;
    CommaPrinted(t);
    FromOpening(t, ",");
    CommaLost(t);
  }

  lemma CommaObject()
    ensures var fields := [Field("a", Text([])), Field(",", Number(5))];
            ObjectOk(fields) && Bound(fields, ",") == Some(Number(5))
  {
    assert [Field("a", Text([])), Field(",", Number(5))][1..] == [Field(",", Number(5))];
  }

  lemma CommaPrinted(t: string)
    requires t == "\":\"\",\",\":5}"
    ensures PrintObject([Field("a", Text([])), Field(",", Number(5))]) == "{\"a" + t
  {
    var fields := [Field("a", Text([])), Field(",", Number(5))];
    assert fields[1..] == [Field(",", Number(5))] && fields[1..][1..] == [];
    assert IntText(5) == "5";
  }

  lemma CommaLost(t: string)
    requires t == "\":\"\",\",\":5}"
    ensures Locate(t, ",") == None
  {
    hide Locate, StartsWith;
    var u := "\"\",\",\":5}";
    NotHere(t, Quoted(","), 1);
    PastQuote(t, ",");
    assert t[1..] == ":" + u;
    PastQuoteless(":", u, ",");
    NotHere(u, Quoted(","), 1);
    PastQuote(u, ",");
    CommaSwallowed(u[1..]);
    var w := "\":5}";
    assert ",\":5}" == "," + w;
    PastQuoteless(",", w, ",");
    NotHere(w, Quoted(","), 1);
    PastQuote(w, ",");
    assert w[1..] == ":5}" + "";
    PastQuoteless(":5}", "", ",");
    NothingLeft(",");
  }

  lemma NothingLeft(key: string)
    ensures Locate("", key) == None
  {}

  lemma CommaSwallowed(s: string)
    requires s == "\",\",\":5}"
    ensures Locate(s, ",") == Locate(",\":5}", ",")
  {
    assert Quoted(",") == "\",\"" && s[..3] == "\",\"" && s[3..] == ",\":5}";
    assert !IsBlank(',');
  }

  /** Around a value without quotes, the key that spells out colon, value and comma is found one field
      too early. */
  lemma ValueKeyMisread(v: Value, key: string) returns (fields: seq<Field>)
    requires ValueOk(v) && !v.Text? && key == ":" + PrintValue(v) + "," && Quoteless(key)
    ensures ObjectOk(fields) && GetInt(PrintObject(fields), key) != AsInt(Bound(fields, key))
  {
    hide IntText, Locate, ReadInt, Quoteless;
    var m := if v == Number(7) then 8 else 7;
    fields := [Field("a", v), Field(key, Number(m))];
    assert Quoteless("a") by { AQuoteless(); }
    var rest := ",\":" + IntText(m) + "}";
    var after := PrintValue(v) + rest;
    TwoFields(fields[0], fields[1]);
    Rejoin(PrintValue(v), IntText(m), key);
    assert fields[1..] == [Field(key, Number(m))];
    hide PrintObject;
    FromOpening(Quoted(key) + (":" + after), key);
    KeyHit(key, after);
    ValueNotBlank(v, rest);
    ReadIntOf(v, rest);
  }

  lemma TwoFields(f: Field, g: Field)
    ensures PrintObject([f, g]) == "{" + PrintField(f) + "," + PrintField(g) + "}"
  {
    hide PrintField;
    assert [f, g][1..] == [g] && [g][1..] == [];
    assert PrintRest([g]) == "," + PrintField(g) + "}";
    assert PrintObject([f, g]) == "{" + PrintField(f) + ("," + PrintField(g) + "}");
  }

  /** The same text, read from the quote that closes the first key. */
  lemma Rejoin(t: string, m: string, key: string)
    requires key == ":" + t + ","
    ensures "{" + (Quoted("a") + ":" + t) + "," + (Quoted(key) + ":" + m) + "}"
            == "{\"a" + (Quoted(key) + (":" + (t + (",\":" + m + "}"))))
  {
    var all := "{\"a\":" + t + ",\":" + t + ",\":" + m + "}";
    assert "{" + (Quoted("a") + ":" + t) + "," + (Quoted(key) + ":" + m) + "}" == all;
    assert "{\"a" + (Quoted(key) + (":" + (t + (",\":" + m + "}")))) == all;
  }

  lemma AQuoteless()
    ensures Quoteless("a")
  {}

  // ---- the loops of the source

  method SkipJsonBlank(s: string, start: nat) returns (i: nat)
    requires start <= |s|
    ensures start <= i <= |s| && s[i..] == SkipBlank(s[start..])
  {
    i := start;
    while i < |s| && IsBlank(s[i])
      invariant start <= i <= |s| && SkipBlank(s[i..]) == SkipBlank(s[start..])
    {
      assert s[i..][1..] == s[i + 1..];
      i := i + 1;
    }
  }

  /** std::string::find: the next occurrence, passing what cannot be one. */
  method FindFrom(s: string, key: string, start: nat) returns (p: Option<nat>)
    requires start <= |s|
    ensures p.None? ==> Locate(s[start..], key) == None
    ensures p.Some? ==> start <= p.value < |s| && StartsWith(s[p.value..], Quoted(key))
    ensures p.Some? ==> Locate(s[start..], key) == Locate(s[p.value..], key)
  {
    var pat := Quoted(key);
    var i := start;
    while i < |s|
      invariant start <= i <= |s| && Locate(s[i..], key) == Locate(s[start..], key)
    {
      StartsAt(s, i, pat);
      if i + |pat| <= |s| && s[i..i + |pat|] == pat {
        return Some(i);
      }
      PastQuote(s[i..], key);
      assert s[i..][1..] == s[i + 1..];
      i := i + 1;
    }
    p := None;
  }

  lemma StartsAt(s: string, i: nat, pat: string)
    requires i <= |s|
    ensures StartsWith(s[i..], pat) <==> i + |pat| <= |s| && s[i..i + |pat|] == pat
  {
    if i + |pat| <= |s| {
      assert s[i..][..|pat|] == s[i..i + |pat|];
    }
  }

  /** What a hit at `p` leads to. */
  lemma AtHit(s: string, p: nat, key: string)
    requires p <= |s| && StartsWith(s[p..], Quoted(key))
    ensures p + |Quoted(key)| <= |s|
    ensures var rest := SkipBlank(s[p + |Quoted(key)|..]);
            Locate(s[p..], key) ==
              if rest != [] && rest[0] == ':' then Some(SkipBlank(rest[1..]))
              else Locate(s[p + |Quoted(key)|..], key)
  {
    var pat := Quoted(key);
    assert s[p..][|pat|..] == s[p + |pat|..];
  }

  method LocateKey(s: string, key: string) returns (valuePos: Option<nat>)
    ensures valuePos.None? ==> Locate(s, key) == None
    ensures valuePos.Some? ==> valuePos.value <= |s| && Locate(s, key) == Some(s[valuePos.value..])
  {
    hide Locate, StartsWith, SkipBlank, IsBlank;
    var pat := Quoted(key);
    var p := 0;
    assert s[0..] == s;
    while true
      invariant 0 <= p <= |s| && Locate(s, key) == Locate(s[p..], key)
      decreases |s| - p
    {
      var found := FindFrom(s, key, p);
      if found == None {
        return None;
      }
      p := found.value;
      AtHit(s, p, key);
      var j := SkipJsonBlank(s, p + |pat|);
      if j < |s| && s[j] == ':' {
        assert s[j..][1..] == s[j + 1..];
        var at := SkipJsonBlank(s, j + 1);
        return Some(at);
      }
      p := p + |pat|;
    }
  }

  /** Reads from an opening quote on. */
  method ParseStringValue(s: string, start: nat) returns (out: string)
    requires start < |s| && s[start] == '"'
    ensures out == Unescaped(s[start + 1..])
  {
    var i := start + 1;
    out := [];
    while i < |s|
      invariant start < i <= |s|
      invariant Unescaped(s[start + 1..]) == out + Unescaped(s[i..])
    {
      if s[i] == '"' {
        return;
      }
      ghost var at := s[i..];
      var c, next := ParseChar(s, i);
      hide NextChar;
      assert at[next - i..] == s[next..];
      out := out + [c];
      i := next;
    }
  }

  method ParseChar(s: string, start: nat) returns (c: char, i: nat)
    requires start < |s|
    ensures start < i <= |s| && (c, i - start) == NextChar(s[start..])
  {
    c := s[start];
    i := start + 1;
    if c == '\\' && i < |s| {
      var e := s[i];
      i := i + 1;
      if e == 'n' {
        c := '\n';
      } else if e == 't' {
        c := '\t';
      } else if e == 'r' {
        c := '\r';
      } else if e == 'u' {
        if i + 4 <= |s| {
          i := i + 4;
        }
        c := '?';
      } else {
        c := e;
      }
    }
  }

  method JsonGetString(s: string, key: string) returns (r: Option<string>)
    ensures r == GetString(s, key)
  {
    hide Locate, Unescaped;
    var at := LocateKey(s, key);
    if at == None {
      return None;
    }
    var i := at.value;
    if i < |s| && s[i] == '"' {
      var out := ParseStringValue(s, i);
      assert s[i..][1..] == s[i + 1..];
      return Some(out);
    }
    StartsAt(s, i, "null");
    if i + 4 <= |s| && s[i..i + 4] == "null" {
      return Some("");
    }
    r := None;
  }

  lemma DigitRunStep(s: string, j: nat)
    requires j <= |s|
    ensures DigitRun(s[j..]) == if j < |s| && IsDigit(s[j]) then [s[j]] + DigitRun(s[j + 1..]) else []
  {
    if j < |s| {
      assert s[j..][1..] == s[j + 1..];
    }
  }

  lemma GrowRun(before: string, c: char, after: string)
    ensures before + ([c] + after) == (before + [c]) + after
  {}

  method SkipDigits(s: string, start: nat) returns (j: nat)
    requires start <= |s|
    ensures start <= j <= |s| && s[start..j] == DigitRun(s[start..])
  {
    hide DigitRun, AllDigits, IsDigit;
    j := start;
    while j < |s| && IsDigit(s[j])
      invariant start <= j <= |s| && DigitRun(s[start..]) == s[start..j] + DigitRun(s[j..])
    {
      DigitRunStep(s, j);
      GrowRun(s[start..j], s[j], DigitRun(s[j + 1..]));
      assert s[start..j + 1] == s[start..j] + [s[j]];
      j := j + 1;
    }
    DigitRunStep(s, j);
  }

  method SkipSigned(s: string, i: nat) returns (j: nat)
    requires i <= |s|
    ensures i <= j <= |s| && s[i..j] == SignedRun(s[i..])
  {
    hide DigitRun;
    if i < |s| && (s[i] == '-' || s[i] == '+') {
      j := SkipDigits(s, i + 1);
      assert s[i..][1..] == s[i + 1..] && s[i..j] == [s[i]] + s[i + 1..j];
    } else {
      j := SkipDigits(s, i);
    }
  }

  method JsonGetInt(s: string, key: string) returns (r: Option<int>)
    ensures r == GetInt(s, key)
  {
    hide Locate, Unescaped, Stoi;
    var at := LocateKey(s, key);
    if at == None {
      return None;
    }
    var i := at.value;
    if i < |s| && s[i] == '"' {
      var out := ParseStringValue(s, i);
      assert s[i..][1..] == s[i + 1..];
      return Stoi(out);
    }
    var j := SkipSigned(s, i);
    if j == i {
      return None;
    }
    r := Stoi(s[i..j]);
  }

  // ---- objects that are not printed compactly

  /** Blanks of JSON: space, line feed, carriage return, tab. */
  predicate Blanks(s: string) {
    forall i :: 0 <= i < |s| ==> s[i] in " \n\r\t"
  }

  lemma {:induction false} BlanksSkipped(blanks: string, t: string)
    requires Blanks(blanks) && (t != [] ==> t[0] !in " \n\r\t")
    ensures SkipBlank(blanks + t) == t
  {
    if blanks == [] {
      assert blanks + t == t;
    } else {
      assert (blanks + t)[1..] == blanks[1..] + t;
      BlanksSkipped(blanks[1..], t);
    }
  }

  /** Blanks on either side of the colon make no difference: after text without quotes, the first key
      is found and what follows the blanks is taken for its value. */
  lemma SpacedKeyIsFound(before: string, key: string, left: string, right: string, value: string)
    requires (forall i :: 0 <= i < |before| ==> before[i] != '"') && Blanks(left) && Blanks(right)
    requires value != [] ==> value[0] !in " \n\r\t"
    ensures Locate(before + (Quoted(key) + left + ":" + right + value), key) == Some(value)
  {
    hide Locate, SkipBlank, Quoted;
    var tail := right + value;
    assert Quoted(key) + left + ":" + right + value == Quoted(key) + (left + (":" + tail));
    PastQuoteless(before, Quoted(key) + (left + (":" + tail)), key);
    BlanksSkipped(left, ":" + tail);
    BlanksSkipped(right, value);
    assert (":" + tail)[1..] == tail;
    LocateThere(key, left + (":" + tail));
  }

  /** The key's quoted text at hand: what follows decides. */
  lemma LocateThere(key: string, rest: string)
    ensures var after := SkipBlank(rest);
            Locate(Quoted(key) + rest, key) ==
              if after != [] && after[0] == ':' then Some(SkipBlank(after[1..])) else Locate(rest, key)
  {
    hide SkipBlank;
    var s := Quoted(key) + rest;
    assert s != [] && s[..|Quoted(key)|] == Quoted(key) && s[|Quoted(key)|..] == rest;
  }

  /** A quoted text that no colon follows is no key. */
  lemma NoColonNoKey(key: string, left: string, rest: string)
    requires Blanks(left) && (rest != [] ==> rest[0] !in " \n\r\t" && rest[0] != ':')
    ensures Locate(Quoted(key) + (left + rest), key) == Locate(left + rest, key)
  {
    hide Locate, SkipBlank, Quoted;
    BlanksSkipped(left, rest);
    LocateThere(key, left + rest);
  }

  /** A \\u escape with its four characters reads as one question mark; cut short, as one as well. */
  lemma UnicodeEscape(digits: string, rest: string)
    requires |digits| == 4
    ensures Unescaped("\\u" + digits + rest) == "?" + Unescaped(rest)
  {
    var s := "\\u" + digits + rest;
    assert s[0] == '\\' && s[1] == 'u' && |s| >= 6;
    assert s[6..] == rest;
  }

  lemma ShortUnicodeEscape(digits: string)
    requires |digits| < 4
    ensures Unescaped("\\u" + digits) == "?" + Unescaped(digits)
  {
    hide Unescaped;
    var s := "\\u" + digits;
    assert NextChar(s) == ('?', 2);
    assert s[2..] == digits;
    hide NextChar;
    UnescapedStep(s);
  }

  lemma UnescapedStep(s: string)
    requires s != [] && s[0] != '"'
    ensures Unescaped(s) == [NextChar(s).0] + Unescaped(s[NextChar(s).1..])
  {
    hide NextChar;
  }

  /** Any other escaped character stands for itself, except n, r and t. */
  lemma OtherEscape(c: char, rest: string)
    requires c != 'u'
    ensures Unescaped(['\\', c] + rest) ==
              [if c == 'n' then '\n' else if c == 'r' then '\r' else if c == 't' then '\t' else c] + Unescaped(rest)
  {
    var s := ['\\', c] + rest;
    assert s[0] == '\\' && s[1] == c && s[2..] == rest;
  }

  /** A bare number is a sign and digits up to the first other character; a quoted one is read like
      std::stoi reads it. Anything without digits is no number. */
  lemma NumberIsRead(sign: string, digits: string, tail: string)
    requires sign in {"", "+", "-"} && AllDigits(digits) && digits != "" && (tail != [] ==> !IsDigit(tail[0]))
    ensures ReadInt(sign + digits + tail) == Stoi(sign + digits)
  {
    var s := sign + digits + tail;
    RunOfDigits(digits, tail);
    assert sign == "" ==> s == digits + tail && s[0] == digits[0];
    assert sign != "" ==> s[0] == sign[0] && s[1..] == digits + tail && [s[0]] + digits == sign + digits;
    assert sign == "" ==> sign + digits == digits;
  }

  lemma NoDigitsNoNumber(s: string)
    requires s == "" || (s[0] != '"' && !IsDigit(s[0]) && s[0] != '-' && s[0] != '+')
    ensures ReadInt(s) == None
  {}
}
