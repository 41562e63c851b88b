/** The save container: names and contents delimited by four underscores, split greedily. */
module SaveBlob {
  import opened Results
  import opened WordCodec

  const UNDERSCORE: Byte := 0x5F
  const DELIM: Bytes := [0x5F, 0x5F, 0x5F, 0x5F]

  datatype Segment = Segment(name: Bytes, content: Bytes)

  predicate DelimAt(s: Bytes, p: nat) {
    p + 4 <= |s| && s[p..p + 4] == DELIM
  }

  predicate NoDelim(s: Bytes) {
    forall p :: 0 <= p < |s| ==> !DelimAt(s, p)
  }

  predicate EndsUnderscore(s: Bytes) {
    s != [] && s[|s| - 1] == UNDERSCORE
  }

  /** The pieces from `blob` on, with `cur` already collected. */
  function SplitFrom(blob: Bytes, cur: Bytes): (parts: seq<Bytes>)
    ensures |parts| > 0
    decreases |blob|
  {
    if blob == [] then [cur]
    else if DelimAt(blob, 0) then [cur] + SplitFrom(blob[4..], [])
    else SplitFrom(blob[1..], cur + [blob[0]])
  }

  function Split(blob: Bytes): seq<Bytes> {
    SplitFrom(blob, [])
  }

  function Join(parts: seq<Bytes>): Bytes {
    if parts == [] then []
    else if |parts| == 1 then parts[0]
    else parts[0] + DELIM + Join(parts[1..])
  }

  /** What splitting produces: no piece holds the delimiter, only the last may end in '_'. */
  predicate PiecesOk(parts: seq<Bytes>) {
    forall i :: 0 <= i < |parts| ==> NoDelim(parts[i]) && (i < |parts| - 1 ==> !EndsUnderscore(parts[i]))
  }

  /** Nothing is lost: joining the pieces gives the blob back, for every byte string. */
  lemma {:induction false} JoinSplitFrom(blob: Bytes, cur: Bytes)
    ensures Join(SplitFrom(blob, cur)) == cur + blob
    decreases |blob|
  {
    if blob == [] {
    } else if DelimAt(blob, 0) {
      JoinSplitFrom(blob[4..], []);
      assert blob == DELIM + blob[4..];
      assert SplitFrom(blob, cur)[1..] == SplitFrom(blob[4..], []);
    } else {
      JoinSplitFrom(blob[1..], cur + [blob[0]]);
      assert cur + [blob[0]] + blob[1..] == cur + blob;
    }
  }

  lemma JoinSplit(blob: Bytes)
    ensures Join(Split(blob)) == blob
  {
    JoinSplitFrom(blob, []);
  }

  /** No delimiter starts inside `cur`, counting what follows it. */
  predicate Clean(cur: Bytes, blob: Bytes) {
    forall p :: 0 <= p < |cur| ==> !DelimAt(cur + blob, p)
  }

  lemma CleanPiece(cur: Bytes, blob: Bytes)
    requires Clean(cur, blob)
    ensures NoDelim(cur)
    ensures DelimAt(blob, 0) ==> !EndsUnderscore(cur)
  {
    forall p | 0 <= p < |cur| ensures !DelimAt(cur, p) {
      if p + 4 <= |cur| {
        assert (cur + blob)[p..p + 4] == cur[p..p + 4];
      }
      assert !DelimAt(cur + blob, p);
    }
    if cur != [] && |blob| >= 4 {
      var p := |cur| - 1;
      assert (cur + blob)[p..p + 4] == [cur[p]] + blob[0..4][..3];
      assert !DelimAt(cur + blob, p);
    }
  }

  lemma {:induction false} SplitFromPieces(blob: Bytes, cur: Bytes)
    requires Clean(cur, blob)
    ensures PiecesOk(SplitFrom(blob, cur))
    decreases |blob|
  {
    CleanPiece(cur, blob);
    if blob == [] {
    } else if DelimAt(blob, 0) {
      SplitFromPieces(blob[4..], []);
    } else {
      var next := cur + [blob[0]];
      assert next + blob[1..] == cur + blob;
      forall p | 0 <= p < |next| ensures !DelimAt(next + blob[1..], p) {
        if p == |cur| && |blob| >= 4 {
          assert (cur + blob)[p..p + 4] == blob[0..4];
        }
      }
      SplitFromPieces(blob[1..], next);
    }
  }

  lemma SplitPieces(blob: Bytes)
    ensures PiecesOk(Split(blob))
  {
    SplitFromPieces(blob, []);
  }

  /** Inside a piece that is fit to be followed by a delimiter no earlier delimiter is seen. */
  lemma NoEarlyDelim(piece: Bytes, k: nat, rest: Bytes)
    requires NoDelim(piece) && k < |piece|
    requires rest == [] || (!EndsUnderscore(piece) && DelimAt(rest, 0))
    ensures !DelimAt(piece[k..] + rest, 0)
  {
    var s := piece[k..] + rest;
    if k + 4 <= |piece| {
      assert piece[k..k + 4] == s[0..4];
      assert !DelimAt(piece, k);
    } else if |s| >= 4 {
      assert s[0..4][|piece| - 1 - k] == piece[|piece| - 1];
    }
  }

  lemma {:induction false} SplitFromPiece(piece: Bytes, k: nat, rest: Bytes)
    requires NoDelim(piece) && k <= |piece|
    requires rest == [] || (!EndsUnderscore(piece) && DelimAt(rest, 0))
    ensures SplitFrom(piece[k..] + rest, piece[..k])
            == if rest == [] then [piece] else [piece] + SplitFrom(rest[4..], [])
    decreases |piece| - k
  {
    if k == |piece| {
      assert piece[k..] + rest == rest && piece[..k] == piece;
    } else {
      NoEarlyDelim(piece, k, rest);
      assert (piece[k..] + rest)[1..] == piece[k + 1..] + rest;
      assert piece[..k] + [piece[k]] == piece[..k + 1];
      SplitFromPiece(piece, k + 1, rest);
    }
  }

  /** Splitting undoes joining on exactly the piece lists that splitting can produce. */
  lemma {:induction false} SplitJoinOk(parts: seq<Bytes>)
    requires |parts| > 0 && PiecesOk(parts)
    ensures Split(Join(parts)) == parts
  {
    var piece := parts[0];
    assert piece[0..] == piece && piece[..0] == [];
    if |parts| == 1 {
      SplitFromPiece(piece, 0, []);
      assert piece + [] == piece;
    } else {
      var rest := DELIM + Join(parts[1..]);
      assert rest[..4] == DELIM && rest[4..] == Join(parts[1..]);
      assert DelimAt(rest, 0);
      SplitFromPiece(piece, 0, rest);
      assert piece + DELIM + Join(parts[1..]) == piece + rest;
      assert PiecesOk(parts[1..]) by {
        forall i | 0 <= i < |parts| - 1 ensures parts[1..][i] == parts[i + 1] {}
      }
      SplitJoinOk(parts[1..]);
    }
  }

  lemma SplitJoin(parts: seq<Bytes>)
    requires |parts| > 0
    ensures Split(Join(parts)) == parts <==> PiecesOk(parts)
  {
    SplitPieces(Join(parts));
    if PiecesOk(parts) {
      SplitJoinOk(parts);
    }
  }

  /** Names and contents in turn; an odd last piece and nameless segments are dropped. */
  function Pairs(parts: seq<Bytes>): seq<Segment> {
    if |parts| < 2 then []
    else (if parts[0] == [] then [] else [Segment(parts[0], parts[1])]) + Pairs(parts[2..])
  }

  function FromParts(parts: seq<Bytes>): seq<Segment> {
    Pairs(if parts != [] && parts[0] == [] then parts[1..] else parts)
  }

  function Flatten(segs: seq<Segment>): seq<Bytes> {
    if segs == [] then [] else [segs[0].name, segs[0].content] + Flatten(segs[1..])
  }

  function Parse(blob: Bytes): seq<Segment> {
    FromParts(Split(blob))
  }

  function Pack(segs: seq<Segment>): Bytes {
    Join([[]] + Flatten(segs))
  }

  /** Segment lists that survive packing. */
  predicate PackSafe(segs: seq<Segment>) {
    && (forall i :: 0 <= i < |segs| ==> segs[i].name != [])
    && PiecesOk(Flatten(segs))
  }

  lemma {:induction false} PairsFlatten(segs: seq<Segment>)
    requires forall i :: 0 <= i < |segs| ==> segs[i].name != []
    ensures Pairs(Flatten(segs)) == segs
  {
    if segs != [] {
      PairsFlatten(segs[1..]);
      assert Flatten(segs)[2..] == Flatten(segs[1..]);
    }
  }

  lemma PiecesOkCons(piece: Bytes, parts: seq<Bytes>)
    requires NoDelim(piece) && (parts != [] ==> !EndsUnderscore(piece)) && PiecesOk(parts)
    ensures PiecesOk([piece] + parts)
  {}

  lemma PiecesOkTail(parts: seq<Bytes>)
    requires parts != [] && PiecesOk(parts)
    ensures PiecesOk(parts[1..])
  {
    forall i | 0 <= i < |parts| - 1 ensures parts[1..][i] == parts[i + 1] {}
  }

  lemma {:induction false} PairsSafe(parts: seq<Bytes>)
    requires PiecesOk(parts)
    ensures PackSafe(Pairs(parts))
  {
    if |parts| >= 2 {
      PiecesOkTail(parts);
      PiecesOkTail(parts[1..]);
      assert parts[1..][1..] == parts[2..];
      var tail := Pairs(parts[2..]);
      PairsSafe(parts[2..]);
      if parts[0] != [] {
        PiecesOkCons(parts[1], Flatten(tail));
        PiecesOkCons(parts[0], [parts[1]] + Flatten(tail));
        var segs := [Segment(parts[0], parts[1])] + tail;
        assert segs[1..] == tail;
        assert [parts[0]] + ([parts[1]] + Flatten(tail)) == Flatten(segs);
      } else {
        assert Pairs(parts) == tail;
      }
    }
  }

  /** Every parsed blob is fit to be packed again. */
  lemma ParseSafe(blob: Bytes)
    ensures PackSafe(Parse(blob))
  {
    var parts := Split(blob);
    SplitPieces(blob);
    PiecesOkTail(parts);
    PairsSafe(if parts[0] == [] then parts[1..] else parts);
  }

  /** Parsing gives back what was packed exactly when every name is nonempty, no piece holds the
      delimiter and no piece but the last content ends in an underscore. */
  lemma ParsePack(segs: seq<Segment>)
    ensures Parse(Pack(segs)) == segs <==> PackSafe(segs)
  {
    ParseSafe(Pack(segs));
    if PackSafe(segs) {
      var parts := [[]] + Flatten(segs);
      PiecesOkCons([], Flatten(segs));
      SplitJoinOk(parts);
      assert parts[1..] == Flatten(segs);
      PairsFlatten(segs);
    }
  }

  function Find(segs: seq<Segment>, name: Bytes): Option<Bytes> {
    if segs == [] then None
    else if segs[0].name == name then Some(segs[0].content)
    else Find(segs[1..], name)
  }

  function GetSegment(blob: Bytes, name: Bytes): Option<Bytes> {
    Find(Parse(blob), name)
  }

  /** The first segment of that name gets the content; a missing one is appended. */
  function Updated(segs: seq<Segment>, name: Bytes, content: Bytes): seq<Segment> {
    if segs == [] then [Segment(name, content)]
    else if segs[0].name == name then [Segment(name, content)] + segs[1..]
    else [segs[0]] + Updated(segs[1..], name, content)
  }

  function SetSegment(blob: Bytes, name: Bytes, content: Bytes): Bytes {
    Pack(Updated(Parse(blob), name, content))
  }

  /** The list keeps its order: only the first segment of that name differs, and it is found. */
  lemma {:induction false} UpdatedShape(segs: seq<Segment>, name: Bytes, content: Bytes) returns (k: nat)
    requires Find(segs, name).Some?
    ensures k < |segs| && segs[k].name == name && forall i :: 0 <= i < k ==> segs[i].name != name
    ensures Updated(segs, name, content) == segs[k := Segment(name, content)]
    ensures Find(Updated(segs, name, content), name) == Some(content)
  {
    if segs[0].name == name {
      k := 0;
    } else {
      var j := UpdatedShape(segs[1..], name, content);
      k := j + 1;
      assert Updated(segs, name, content)[1..] == Updated(segs[1..], name, content);
    }
  }

  /** No byte of the content is an underscore, so it fits anywhere. */
  lemma PlainContent(content: Bytes)
    requires UNDERSCORE !in content
    ensures NoDelim(content) && !EndsUnderscore(content)
  {
    forall p | 0 <= p < |content| ensures !DelimAt(content, p) {
      if p + 4 <= |content| {
        assert content[p..p + 4][0] == content[p];
      }
    }
  }

  /** Names sit at even places of the flattened list, contents at odd ones. */
  lemma {:induction false} FlattenAt(segs: seq<Segment>)
    ensures |Flatten(segs)| == 2 * |segs|
    ensures forall i :: 0 <= i < |segs| ==>
          Flatten(segs)[2 * i] == segs[i].name && Flatten(segs)[2 * i + 1] == segs[i].content
  {
    if segs != [] {
      FlattenAt(segs[1..]);
      forall i | 0 < i < |segs|
        ensures Flatten(segs)[2 * i] == segs[i].name && Flatten(segs)[2 * i + 1] == segs[i].content
      {
        assert segs[i] == segs[1..][i - 1];
        assert Flatten(segs)[2 * i] == Flatten(segs[1..])[2 * (i - 1)];
        assert Flatten(segs)[2 * i + 1] == Flatten(segs[1..])[2 * (i - 1) + 1];
      }
    }
  }

  /** A segment that fits at place `k` of a list of `n`. */
  predicate Fits(seg: Segment, k: nat, n: nat) {
    && seg.name != [] && NoDelim(seg.name) && !EndsUnderscore(seg.name)
    && NoDelim(seg.content) && (k + 1 < n ==> !EndsUnderscore(seg.content))
  }

  /** Being fit for packing, segment by segment. */
  lemma PackSafeIffFits(segs: seq<Segment>)
    ensures PackSafe(segs) <==> forall k :: 0 <= k < |segs| ==> Fits(segs[k], k, |segs|)
  {
    var f := Flatten(segs);
    FlattenAt(segs);
    if PackSafe(segs) {
      forall k | 0 <= k < |segs| ensures Fits(segs[k], k, |segs|) {
        assert f[2 * k] == segs[k].name && f[2 * k + 1] == segs[k].content;
      }
    }
    if forall k :: 0 <= k < |segs| ==> Fits(segs[k], k, |segs|) {
      forall i | 0 <= i < |f| ensures NoDelim(f[i]) && (i < |f| - 1 ==> !EndsUnderscore(f[i])) {
        assert Fits(segs[i / 2], i / 2, |segs|);
        assert i == 2 * (i / 2) || i == 2 * (i / 2) + 1;
      }
      forall i | 0 <= i < |segs| ensures segs[i].name != [] {
        assert Fits(segs[i], i, |segs|);
      }
    }
  }

  /** Replacing the content of an existing segment changes that content and nothing else if and
      only if the new content has no delimiter and, unless it comes last, no final underscore. */
  lemma SetSegmentExact(blob: Bytes, name: Bytes, content: Bytes) returns (k: nat)
    requires GetSegment(blob, name).Some?
    ensures k < |Parse(blob)| && Parse(blob)[k].name == name && forall i :: 0 <= i < k ==> Parse(blob)[i].name != name
    ensures Parse(SetSegment(blob, name, content)) == Parse(blob)[k := Segment(name, content)]
            <==> NoDelim(content) && (k + 1 < |Parse(blob)| ==> !EndsUnderscore(content))
  {
    var segs := Parse(blob);
    k := UpdatedShape(segs, name, content);
    var up := segs[k := Segment(name, content)];
    ParseSafe(blob);
    ParsePack(up);
    PackSafeIffFits(segs);
    PackSafeIffFits(up);
    hide PackSafe;
    assert Fits(segs[k], k, |segs|);
    assert up[k] == Segment(name, content);
  }

  /** Base64 text is such content. */
  lemma SetSegmentPlain(blob: Bytes, name: Bytes, content: Bytes)
    requires GetSegment(blob, name).Some? && UNDERSCORE !in content
    ensures Parse(SetSegment(blob, name, content)) == Updated(Parse(blob), name, content)
    ensures GetSegment(SetSegment(blob, name, content), name) == Some(content)
  {
    PlainContent(content);
    var k := SetSegmentExact(blob, name, content);
    var j := UpdatedShape(Parse(blob), name, content);
    assert j == k;
  }

  lemma UpdatedAppends(segs: seq<Segment>, name: Bytes, content: Bytes)
    requires Find(segs, name).None?
    ensures Updated(segs, name, content) == segs + [Segment(name, content)]
  {}

  /** Appending a missing segment is exact if and only if the new pieces are sound and the content
      that used to be last does not end in an underscore. */
  lemma AppendSegmentExact(blob: Bytes, name: Bytes, content: Bytes)
    requires GetSegment(blob, name).None?
    ensures var segs := Parse(blob);
            Parse(SetSegment(blob, name, content)) == segs + [Segment(name, content)]
            <==> (name != [] && NoDelim(name) && !EndsUnderscore(name) && NoDelim(content)
                  && (segs != [] ==> !EndsUnderscore(segs[|segs| - 1].content)))
  {
    var segs := Parse(blob);
    var n := |segs|;
    var up := segs + [Segment(name, content)];
    ParseSafe(blob);
    UpdatedAppends(segs, name, content);
    ParsePack(up);
    PackSafeIffFits(segs);
    PackSafeIffFits(up);
    hide PackSafe;
    assert up[n] == Segment(name, content);
    if n > 0 {
      assert Fits(segs[n - 1], n - 1, n) && up[n - 1] == segs[n - 1];
    }
    forall k | 0 <= k < n ensures up[k] == segs[k] && Fits(segs[k], k, n) {}
  }

  /** A container whose last content ends in '_' is misread once something is appended to it. */
  lemma AppendAfterUnderscore()
    ensures var blob := DELIM + [0x61] + DELIM + [0x5F];
            Parse(SetSegment(blob, [0x62], [])) != Parse(blob) + [Segment([0x62], [])]
  {
    var segs := [Segment([0x61], [0x5F])];
    var blob := Pack(segs);
    assert Flatten(segs) == [[0x61], [0x5F]];
    assert Join([[], [0x61], [0x5F]]) == DELIM + [0x61] + DELIM + [0x5F] by {
      assert [[], [0x61], [0x5F]][1..] == [[0x61], [0x5F]];
      assert [[0x61], [0x5F]][1..] == [[0x5F]];
    }
    assert [[]] + Flatten(segs) == [[], [0x61], [0x5F]];
    ParsePack(segs);
    AppendSegmentExact(blob, [0x62], []);
  }

  method SplitBlob(blob: Bytes) returns (parts: seq<Bytes>)
    ensures parts == Split(blob)
  {
    parts := [];
    var cur: Bytes := [];
    var i := 0;
    while i < |blob|
      invariant 0 <= i <= |blob|
      invariant parts + SplitFrom(blob[i..], cur) == Split(blob)
    {
      if i + 4 <= |blob| && blob[i..i + 4] == DELIM {
        assert blob[i..][0..4] == blob[i..i + 4] && blob[i..][4..] == blob[i + 4..];
        parts := parts + [cur];
        cur := [];
        i := i + 4;
      } else {
        assert i + 4 <= |blob| ==> blob[i..][0..4] == blob[i..i + 4];
        assert blob[i..][1..] == blob[i + 1..];
        cur := cur + [blob[i]];
        i := i + 1;
      }
    }
    parts := parts + [cur];
  }

  lemma PairsStep(parts: seq<Bytes>, i: nat)
    requires i <= |parts|
    ensures i + 1 < |parts| ==>
              Pairs(parts[i..]) == (if parts[i] == [] then []
                else [Segment(parts[i], parts[i + 1])]) + Pairs(parts[i + 2..])
    ensures i + 1 >= |parts| ==> Pairs(parts[i..]) == []
  {
    if i + 1 < |parts| {
      assert parts[i..][2..] == parts[i + 2..];
    }
  }

  lemma GrowSegments(done: seq<Segment>, seg: Segment, rest: seq<Segment>)
    ensures done + ([seg] + rest) == (done + [seg]) + rest
    ensures done + ([] + rest) == done + rest
  {
    assert [] + rest == rest;
  }

  method PartsToSegments(parts: seq<Bytes>) returns (segs: seq<Segment>)
    ensures segs == FromParts(parts)
  {
    hide Pairs;
    segs := [];
    var i := 0;
    if parts != [] && parts[0] == [] {
      i := 1;
    }
    assert parts[0..] == parts;
    while i + 1 < |parts|
      invariant 0 <= i <= |parts|
      invariant segs + Pairs(parts[i..]) == FromParts(parts)
    {
      var seg := Segment(parts[i], parts[i + 1]);
      PairsStep(parts, i);
      GrowSegments(segs, seg, if i + 2 <= |parts| then Pairs(parts[i + 2..]) else []);
      if seg.name != [] {
        segs := segs + [seg];
      }
      i := i + 2;
    }
    PairsStep(parts, i);
  }

  method ToParts(segs: seq<Segment>) returns (parts: seq<Bytes>)
    ensures parts == [[]] + Flatten(segs)
  {
    parts := [[]];
    var k := 0;
    while k < |segs|
      invariant 0 <= k <= |segs|
      invariant parts + Flatten(segs[k..]) == [[]] + Flatten(segs)
    {
      assert segs[k..][1..] == segs[k + 1..];
      parts := parts + [segs[k].name, segs[k].content];
      k := k + 1;
    }
  }

  lemma JoinAbsorb(head: Bytes, next: Bytes, rest: seq<Bytes>)
    ensures Join([head, next] + rest) == Join([head + DELIM + next] + rest)
  {
    var merged := head + DELIM + next;
    assert ([head, next] + rest)[1..] == [next] + rest;
    assert ([merged] + rest)[1..] == rest && ([next] + rest)[1..] == rest;
    assert rest != [] ==> head + DELIM + (next + DELIM + Join(rest)) == merged + DELIM + Join(rest);
  }

  method PackSegments(segs: seq<Segment>) returns (blob: Bytes)
    ensures blob == Pack(segs)
  {
    var parts := ToParts(segs);
    hide Join, Flatten;
    blob := parts[0];
    var i := 1;
    assert [parts[0]] + parts[1..] == parts;
    while i < |parts|
      invariant 1 <= i <= |parts|
      invariant Join([blob] + parts[i..]) == Join(parts)
    {
      JoinAbsorb(blob, parts[i], parts[i + 1..]);
      assert [blob, parts[i]] + parts[i + 1..] == [blob] + parts[i..];
      blob := blob + DELIM + parts[i];
      i := i + 1;
    }
    assert [blob] + parts[i..] == [blob];
    JoinOne(blob);
  }

  lemma JoinOne(blob: Bytes)
    ensures Join([blob]) == blob
  {}

  lemma UpdatedHere(segs: seq<Segment>, i: nat, name: Bytes, content: Bytes)
    requires i < |segs| && segs[i].name == name
    ensures segs[..i] + Updated(segs[i..], name, content) == segs[i := Segment(name, content)]
  {
    assert segs[i..][1..] == segs[i + 1..];
  }

  lemma UpdatedLater(segs: seq<Segment>, i: nat, name: Bytes, content: Bytes)
    requires i < |segs| && segs[i].name != name
    ensures segs[..i] + Updated(segs[i..], name, content) == segs[..i + 1] + Updated(segs[i + 1..], name, content)
  {
    assert segs[i..][1..] == segs[i + 1..];
  }

  method Replace(segs: seq<Segment>, name: Bytes, content: Bytes) returns (r: seq<Segment>)
    ensures r == Updated(segs, name, content)
  {
    var i := 0;
    assert segs[..0] + Updated(segs[0..], name, content) == Updated(segs, name, content);
    while i < |segs|
      invariant 0 <= i <= |segs|
      invariant segs[..i] + Updated(segs[i..], name, content) == Updated(segs, name, content)
    {
      hide Updated;
      if segs[i].name == name {
        UpdatedHere(segs, i, name, content);
        return segs[i := Segment(name, content)];
      }
      UpdatedLater(segs, i, name, content);
      i := i + 1;
    }
    assert segs[i..] == [] && segs[..i] == segs;
    r := segs + [Segment(name, content)];
  }

  method ReadSegment(blob: Bytes, name: Bytes) returns (r: Option<Bytes>)
    ensures r == GetSegment(blob, name)
  {
    var parts := SplitBlob(blob);
    var segments := PartsToSegments(parts);
    var i := 0;
    while i < |segments|
      invariant 0 <= i <= |segments| && Find(segments[i..], name) == GetSegment(blob, name)
    {
      assert segments[i..][1..] == segments[i + 1..];
      if segments[i].name == name {
        return Some(segments[i].content);
      }
      i := i + 1;
    }
    r := None;
  }

  method WriteSegment(blob: Bytes, name: Bytes, content: Bytes) returns (r: Bytes)
    ensures r == SetSegment(blob, name, content)
  {
    var parts := SplitBlob(blob);
    var segments := PartsToSegments(parts);
    segments := Replace(segments, name, content);
    r := PackSegments(segments);
  }
}
