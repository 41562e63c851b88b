/** Sessions: a table of token digests with whole-second expiry, and the cache in front of it. */
module Sessions {
  import opened Results
  import opened Cache

  const SESSION_TTL := 2592000
  const CACHE_BOUND := 200000

  /** Milliseconds to whole seconds. */
  function Sec(now: int): int {
    now / 1000
  }

  datatype Row = Row(acc: string, expires: int)

  datatype World = World(table: map<string, Row>, cache: map<string, Slot<string>>)

  const EMPTY := World(map[], map[])

  /** Requests, each at one instant. `evicted` is the entry a full cache gives up, if it has to. */
  datatype Op =
    | Issue(acc: string, hash: string, now: int, evicted: string)
    | Validate(hash: string, now: int, evicted: string)
    | Revoke(acc: string, now: int)

  // ---- the table alone

  function Unexpired(t: map<string, Row>, now: int): map<string, Row> {
    map h | h in t && t[h].expires >= Sec(now) :: t[h]
  }

  /** Issuing drops what has expired before it inserts. */
  function Inserted(t: map<string, Row>, acc: string, hash: string, now: int): map<string, Row> {
    Unexpired(t, now)[hash := Row(acc, Sec(now) + SESSION_TTL)]
  }

  /** The rows of an account go, however it is spelt: the table compares what names fold to. */
  function WithoutAccount(fold: string -> string, t: map<string, Row>, acc: string): map<string, Row> {
    map h | h in t && fold(t[h].acc) != fold(acc) :: t[h]
  }

  function TableAfter(fold: string -> string, t: map<string, Row>, op: Op): map<string, Row> {
    match op
    case Issue(acc, hash, now, _) => if acc == "" then t else Inserted(t, acc, hash, now)
    case Validate(_, _, _) => t
    case Revoke(acc, _) => if acc == "" then t else WithoutAccount(fold, t, acc)
  }

  /** Issuing leaves exactly the new row, good for thirty days, and the rows whose last second has not
      passed. */
  lemma IssuedRows(fold: string -> string, t: map<string, Row>, acc: string, hash: string, now: int, evicted: string)
    requires acc != ""
    ensures var r := TableAfter(fold, t, Issue(acc, hash, now, evicted));
            && hash in r && r[hash] == Row(acc, now / 1000 + 30 * 24 * 60 * 60)
            && forall h :: h != hash ==>
                 && (h in r <==> h in t && now / 1000 <= t[h].expires)
                 && (h in r ==> r[h] == t[h])
  {}

  /** Revoking leaves exactly the rows of the accounts with another name. */
  lemma RevokedRows(fold: string -> string, t: map<string, Row>, acc: string, now: int)
    ensures var r := TableAfter(fold, t, Revoke(acc, now));
            forall h :: && (h in r <==> h in t && (acc == "" || fold(t[h].acc) != fold(acc)))
                        && (h in r ==> r[h] == t[h])
  {}

  /** What the table says: the account, before the second of expiry. */
  function TableAnswer(t: map<string, Row>, hash: string, now: int): Option<string> {
    if hash in t && Sec(now) < t[hash].expires then Some(t[hash].acc) else None
  }

  // ---- with the cache

  /** The lookup of the database: rows up to and including the second of expiry. */
  function FindRow(t: map<string, Row>, hash: string, now: int): Option<Row> {
    if hash in t && t[hash].expires >= Sec(now) then Some(t[hash]) else None
  }

  function Answer(w: World, hash: string, now: int): Option<string> {
    var cached := Peek(w.cache, hash, now);
    if cached.Some? then cached
    else
      var row := FindRow(w.table, hash, now);
      if row.Some? && row.value.expires - Sec(now) > 0 then Some(row.value.acc) else None
  }

  function CacheAfter(w: World, op: Op): map<string, Slot<string>> {
    match op
    case Issue(acc, hash, now, evicted) =>
      if acc == "" then w.cache
      else Filled(w.cache, CACHE_BOUND, hash, Slot(acc, now + SESSION_TTL * 1000), evicted)
    case Validate(hash, now, evicted) =>
      var swept := Swept(w.cache, hash, now);
      var row := FindRow(w.table, hash, now);
      if Peek(w.cache, hash, now).Some? || row == None || row.value.expires - Sec(now) <= 0 then swept
      else Filled(swept, CACHE_BOUND, hash, Slot(row.value.acc, now + (row.value.expires - Sec(now)) * 1000), evicted)
    case Revoke(_, _) => map[]
  }

  function After(fold: string -> string, w: World, op: Op): World {
    World(TableAfter(fold, w.table, op), CacheAfter(w, op))
  }

  function AfterAll(fold: string -> string, ops: seq<Op>): World {
    if ops == [] then EMPTY else After(fold, AfterAll(fold, ops[..|ops| - 1]), ops[|ops| - 1])
  }

  /** Fresh digests; a full cache gives up an entry it has. */
  predicate Enabled(w: World, op: Op) {
    match op
    case Issue(acc, hash, now, evicted) =>
      hash !in w.table && (|w.cache| >= CACHE_BOUND && hash !in w.cache ==> evicted in w.cache)
    case Validate(hash, now, evicted) =>
      var swept := Swept(w.cache, hash, now);
      |swept| >= CACHE_BOUND && hash !in swept ==> evicted in swept
    case Revoke(_, _) => true
  }

  predicate IsRun(fold: string -> string, ops: seq<Op>) {
    ops == [] ||
    (IsRun(fold, ops[..|ops| - 1]) && Enabled(AfterAll(fold, ops[..|ops| - 1]), ops[|ops| - 1])
     && (|ops| > 1 ==> ops[|ops| - 2].now <= ops[|ops| - 1].now))
  }

  // ---- agreement

  /** A cache entry against its row: it outlives the start of the row's last second, and not its end. */
  predicate SlotOk(w: World, h: string, now: int)
    requires h in w.cache
  {
    if h in w.table then
      && w.cache[h].value == w.table[h].acc
      && w.table[h].expires * 1000 <= w.cache[h].deadline < (w.table[h].expires + 1) * 1000
    else w.cache[h].deadline <= now
  }

  ghost predicate Inv(w: World, now: int) {
    && |w.cache| <= CACHE_BOUND
    && forall h :: h in w.cache ==> SlotOk(w, h, now)
  }

  lemma SecBounds(now: int)
    ensures Sec(now) * 1000 <= now < (Sec(now) + 1) * 1000
  {}

  /** A row is only dropped after every cache entry for it has expired. */
  lemma IssueKeeps(fold: string -> string, w: World, op: Op, before: int)
    requires Inv(w, before) && op.Issue? && Enabled(w, op) && before <= op.now
    ensures Inv(After(fold, w, op), op.now)
  {
    var r := After(fold, w, op);
    SecBounds(op.now);
    if op.acc != "" {
      FilledBound(w.cache, CACHE_BOUND, op.hash, Slot(op.acc, op.now + SESSION_TTL * 1000), op.evicted);
    }
    forall h | h in r.cache ensures SlotOk(r, h, op.now) {
      if h in w.cache {
        assert SlotOk(w, h, before);
      }
    }
  }

  lemma ValidateKeeps(fold: string -> string, w: World, op: Op, before: int)
    requires Inv(w, before) && op.Validate? && Enabled(w, op) && before <= op.now
    ensures Inv(After(fold, w, op), op.now)
  {
    var r := After(fold, w, op);
    SecBounds(op.now);
    var swept := Swept(w.cache, op.hash, op.now);
    SweptBound(w.cache, op.hash, op.now);
    var row := FindRow(w.table, op.hash, op.now);
    if row.Some? {
      var deadline := op.now + (row.value.expires - Sec(op.now)) * 1000;
      FilledBound(swept, CACHE_BOUND, op.hash, Slot(row.value.acc, deadline), op.evicted);
    }
    forall h | h in r.cache ensures SlotOk(r, h, op.now) {
      if h in w.cache {
        assert SlotOk(w, h, before);
      }
    }
  }

  lemma {:induction false} RunKeeps(fold: string -> string, ops: seq<Op>)
    requires IsRun(fold, ops)
    ensures Inv(AfterAll(fold, ops), if ops == [] then 0 else ops[|ops| - 1].now)
  {
    if ops != [] {
      hide After, Inv, Enabled;
      var front, op := ops[..|ops| - 1], ops[|ops| - 1];
      RunKeeps(fold, front);
      var w := AfterAll(fold, front);
      var before := if front == [] then op.now else front[|front| - 1].now;
      if front == [] {
        NothingYet(op.now);
      }
      match op
      case Issue(_, _, _, _) => IssueKeeps(fold, w, op, before);
      case Validate(_, _, _) => ValidateKeeps(fold, w, op, before);
      case Revoke(_, _) => RevokeKeeps(fold, w, op);
    } else {
      NothingYet(0);
    }
  }

  lemma NothingYet(now: int)
    ensures Inv(EMPTY, now)
  {}

  lemma RevokeKeeps(fold: string -> string, w: World, op: Op)
    requires op.Revoke?
    ensures Inv(After(fold, w, op), op.now)
  {}

  function TableOf(fold: string -> string, ops: seq<Op>): map<string, Row> {
    if ops == [] then map[] else TableAfter(fold, TableOf(fold, ops[..|ops| - 1]), ops[|ops| - 1])
  }

  /** The cache never influences the table. */
  lemma {:induction false} TableIsItsOwn(fold: string -> string, ops: seq<Op>)
    ensures AfterAll(fold, ops).table == TableOf(fold, ops)
  {
    if ops != [] {
      TableIsItsOwn(fold, ops[..|ops| - 1]);
    }
  }

  /** The window: the cached entry is still good in the very second the row expires in. */
  predicate InWindow(w: World, hash: string, now: int) {
    hash in w.table && Sec(now) == w.table[hash].expires && Peek(w.cache, hash, now).Some?
  }

  lemma AgreesIffOutside(w: World, hash: string, last: int, now: int)
    requires Inv(w, last) && last <= now
    ensures Answer(w, hash, now) == TableAnswer(w.table, hash, now) <==> !InWindow(w, hash, now)
  {
    SecBounds(now);
    if hash in w.cache {
      assert SlotOk(w, hash, last);
    }
  }

  /** After any run of issuing, validating, revoking and waiting, whatever the cache gave up, a
      validation says exactly what the table alone says, except in one case: within the second the
      session expires in, an entry that is still cached. */
  lemma AgreesWithTable(fold: string -> string, ops: seq<Op>, hash: string, now: int)
    requires IsRun(fold, ops) && (ops != [] ==> ops[|ops| - 1].now <= now)
    ensures Answer(AfterAll(fold, ops), hash, now) == TableAnswer(TableOf(fold, ops), hash, now) <==>
              !InWindow(AfterAll(fold, ops), hash, now)
  {
    hide Answer, TableAnswer, InWindow;
    RunKeeps(fold, ops);
    TableIsItsOwn(fold, ops);
    if ops == [] {
      NothingYet(now);
      AgreesIffOutside(EMPTY, hash, now, now);
    } else {
      AgreesIffOutside(AfterAll(fold, ops), hash, ops[|ops| - 1].now, now);
    }
  }

  /** In particular it always does in any other second than the one of expiry. */
  lemma AgreesOutsideLastSecond(fold: string -> string, ops: seq<Op>, hash: string, now: int)
    requires IsRun(fold, ops) && (ops != [] ==> ops[|ops| - 1].now <= now)
    requires hash in TableOf(fold, ops) ==> Sec(now) != TableOf(fold, ops)[hash].expires
    ensures Answer(AfterAll(fold, ops), hash, now) == TableAnswer(TableOf(fold, ops), hash, now)
  {
    AgreesWithTable(fold, ops, hash, now);
    TableIsItsOwn(fold, ops);
  }

  /** The bound holds throughout. */
  lemma CacheStaysBounded(fold: string -> string, ops: seq<Op>)
    requires IsRun(fold, ops)
    ensures |AfterAll(fold, ops).cache| <= CACHE_BOUND
  {
    hide IsRun, AfterAll, SlotOk;
    RunKeeps(fold, ops);
  }

  /** The exception is real: a session issued half way through a second is still good a fifth of a
      second into its last one, although the table has let it go. */
  lemma LastSecondDisagrees(fold: string -> string, acc: string, hash: string)
    requires acc != ""
    ensures var ops := [Issue(acc, hash, 500, hash)];
            var now := SESSION_TTL * 1000 + 200;
            && IsRun(fold, ops)
            && Answer(AfterAll(fold, ops), hash, now) == Some(acc)
            && TableAnswer(TableOf(fold, ops), hash, now) == None
  {
    var ops := [Issue(acc, hash, 500, hash)];
    assert ops[..|ops| - 1] == [];
    assert AfterAll(fold, ops[..|ops| - 1]) == EMPTY && TableOf(fold, ops[..|ops| - 1]) == map[];
    assert Enabled(EMPTY, ops[0]);
    assert IsRun(fold, ops[..|ops| - 1]);
  }

  // ---- from issue to revocation

  /** Requests that leave this account's sessions alone. */
  predicate Spares(fold: string -> string, acc: string, ops: seq<Op>) {
    forall i :: 0 <= i < |ops| && ops[i].Revoke? ==> ops[i].acc == "" || fold(ops[i].acc) != fold(acc)
  }

  lemma RunStep(fold: string -> string, ops: seq<Op>, op: Op)
    requires IsRun(fold, ops + [op])
    ensures IsRun(fold, ops) && Enabled(AfterAll(fold, ops), op) && (ops != [] ==> ops[|ops| - 1].now <= op.now)
    ensures TableOf(fold, ops + [op]) == TableAfter(fold, TableOf(fold, ops), op)
  {
    hide Enabled, TableAfter, AfterAll;
    assert (ops + [op])[..|ops|] == ops;
  }

  lemma OpKeepsRow(fold: string -> string, t: map<string, Row>, op: Op, hash: string, row: Row)
    requires hash in t && t[hash] == row && (op.Issue? ==> op.hash != hash) && Sec(op.now) <= row.expires
    requires op.Revoke? ==> op.acc == "" || fold(op.acc) != fold(row.acc)
    ensures hash in TableAfter(fold, t, op) && TableAfter(fold, t, op)[hash] == row
  {}

  /** A session's row stands until its last second has passed, as long as its account is spared. */
  lemma {:induction false} RowStands(fold: string -> string, ops: seq<Op>, later: seq<Op>, hash: string, row: Row)
    requires IsRun(fold, ops + later) && hash in TableOf(fold, ops) && TableOf(fold, ops)[hash] == row
    requires Spares(fold, row.acc, later)
    requires later != [] ==> Sec(later[|later| - 1].now) <= row.expires
    ensures hash in TableOf(fold, ops + later) && TableOf(fold, ops + later)[hash] == row
  {
    hide IsRun, TableOf, TableAfter, AfterAll;
    if later == [] {
      assert ops + later == ops;
    } else {
      var front, op := later[..|later| - 1], later[|later| - 1];
      assert ops + later == (ops + front) + [op];
      RunStep(fold, ops + front, op);
      if front != [] {
        assert (ops + front)[|ops + front| - 1] == front[|front| - 1];
      }
      RowStands(fold, ops, front, hash, row);
      TableIsItsOwn(fold, ops + front);
      OpKeepsRow(fold, TableOf(fold, ops + front), op, hash, row);
    }
  }

  /** A session that was issued is accepted, for the account it was issued to, until the second it
      expires in, whatever else is issued, validated or revoked for others and whatever the cache has
      to give up meanwhile. */
  lemma IssuedIsAccepted(fold: string -> string, ops: seq<Op>, issue: Op, later: seq<Op>, now: int)
    requires IsRun(fold, ops + [issue] + later) && issue.Issue? && issue.acc != "" && Spares(fold, issue.acc, later)
    requires (if later == [] then issue else later[|later| - 1]).now <= now
    requires Sec(now) < Sec(issue.now) + SESSION_TTL
    ensures Answer(AfterAll(fold, ops + [issue] + later), issue.hash, now) == Some(issue.acc)
  {
    hide IsRun, TableOf, AfterAll, Answer;
    var all := ops + [issue] + later;
    var row := Row(issue.acc, Sec(issue.now) + SESSION_TTL);
    assert all[|all| - 1] == if later == [] then issue else later[|later| - 1];
    FirstPart(fold, ops + [issue], later);
    RunStep(fold, ops, issue);
    assert TableOf(fold, ops + [issue])[issue.hash] == row;
    RowStands(fold, ops + [issue], later, issue.hash, row);
    AgreesOutsideLastSecond(fold, all, issue.hash, now);
  }

  lemma {:induction false} FirstPart(fold: string -> string, ops: seq<Op>, later: seq<Op>)
    requires IsRun(fold, ops + later)
    ensures IsRun(fold, ops)
  {
    hide IsRun, AfterAll;
    if later == [] {
      assert ops + later == ops;
    } else {
      var front, op := later[..|later| - 1], later[|later| - 1];
      assert ops + later == (ops + front) + [op];
      RunStep(fold, ops + front, op);
      FirstPart(fold, ops, front);
    }
  }

  lemma {:induction false} RowStaysAway(fold: string -> string, ops: seq<Op>, later: seq<Op>, hash: string)
    requires hash !in TableOf(fold, ops) && forall i :: 0 <= i < |later| && later[i].Issue? ==> later[i].hash != hash
    ensures hash !in TableOf(fold, ops + later)
  {
    if later == [] {
      assert ops + later == ops;
    } else {
      var front := later[..|later| - 1];
      assert (ops + later)[..|ops + later| - 1] == ops + front;
      RowStaysAway(fold, ops, front, hash);
    }
  }

  /** A session of a revoked account, or one that was never issued, is refused ever after. */
  lemma RevokedIsRefused(fold: string -> string, ops: seq<Op>, revoke: Op, later: seq<Op>, hash: string, now: int)
    requires IsRun(fold, ops + [revoke] + later) && revoke.Revoke? && revoke.acc != ""
    requires hash in TableOf(fold, ops) ==> fold(TableOf(fold, ops)[hash].acc) == fold(revoke.acc)
    requires forall i :: 0 <= i < |later| && later[i].Issue? ==> later[i].hash != hash
    requires (if later == [] then revoke else later[|later| - 1]).now <= now
    ensures Answer(AfterAll(fold, ops + [revoke] + later), hash, now) == None
  {
    var all := ops + [revoke] + later;
    assert (ops + [revoke])[..|ops|] == ops;
    assert TableOf(fold, ops + [revoke]) == TableAfter(fold, TableOf(fold, ops), revoke);
    RowStaysAway(fold, ops + [revoke], later, hash);
    assert all[|all| - 1] == if later == [] then revoke else later[|later| - 1];
    AgreesOutsideLastSecond(fold, all, hash, now);
  }

  // ---- the operations of the source

  predicate IsHex(c: char) {
    '0' <= c <= '9' || 'a' <= c <= 'f'
  }

  predicate IsToken(token: string) {
    |token| == 64 && forall i :: 0 <= i < 64 ==> IsHex(token[i])
  }

  const HEX := "0123456789abcdef"

  lemma HexDigits(c: char)
    ensures IsHex(c) <==> c in HEX
  {
    if IsHex(c) {
      assert HEX[if c <= '9' then c as int - '0' as int else c as int - 'a' as int + 10] == c;
    }
  }

  /** A token is 64 lower-case hexadecimal digits, nothing else. */
  lemma TokenIs(token: string)
    ensures IsToken(token) <==> |token| == 64 && forall c :: c in token ==> c in HEX
  {
    forall c ensures IsHex(c) <==> c in HEX {
      HexDigits(c);
    }
    hide IsHex;
    assert forall i :: 0 <= i < |token| ==> token[i] in token;
  }

  /** The token of 32 random bytes: two digits for each. */
  method RandomToken(bytes: seq<nat>) returns (token: string)
    requires |bytes| == 32 && forall i :: 0 <= i < 32 ==> bytes[i] < 256
    ensures IsToken(token)
    ensures forall i :: 0 <= i < 32 ==> token[2 * i] == HEX[bytes[i] / 16] && token[2 * i + 1] == HEX[bytes[i] % 16]
  {
    token := "";
    var i := 0;
    while i < 32
      invariant 0 <= i <= 32 && |token| == 2 * i
      invariant forall j :: 0 <= j < 2 * i ==> IsHex(token[j])
      invariant forall j :: 0 <= j < i ==> token[2 * j] == HEX[bytes[j] / 16] && token[2 * j + 1] == HEX[bytes[j] % 16]
    {
      token := token + [HEX[bytes[i] / 16], HEX[bytes[i] % 16]];
      i := i + 1;
    }
  }

  method CheckToken(token: string) returns (ok: bool)
    ensures ok <==> IsToken(token)
  {
    if |token| != 64 {
      return false;
    }
    var i := 0;
    while i < |token|
      invariant 0 <= i <= 64 && forall j :: 0 <= j < i ==> IsHex(token[j])
    {
      if !IsHex(token[i]) {
        return false;
      }
      i := i + 1;
    }
    ok := true;
  }

  /** A random token as the generator gives it, and whether the database takes the row. */
  datatype Attempt = Attempt(token: string, accepted: bool)

  class SessionStore {
    const digest: string -> string
    const fold: string -> string
    const cache: TtlCache<string, string>
    var table: map<string, Row>

    ghost predicate Valid()
      reads this, cache
    {
      cache.Valid() && cache.maxEntries == CACHE_BOUND
    }

    ghost function State(): World
      reads this, cache
    {
      World(table, cache.entries)
    }

    constructor (digest: string -> string, fold: string -> string)
      ensures Valid() && State() == EMPTY && fresh(cache) && this.digest == digest && this.fold == fold
    {
      this.digest, this.fold := digest, fold;
      TextOrder();
      cache := new TtlCache(CACHE_BOUND, TextLess);
      table := map[];
    }

    /** Three tries at most; the first row the database takes is also cached. */
    method Issue(acc: string, attempts: seq<Attempt>, now: int) returns (token: Option<string>, ghost evicted: string)
      requires Valid() && |attempts| == 3
      modifies this, cache
      ensures Valid()
      ensures token == None ==> State() == old(State())
      ensures token == None ==> acc == "" || forall i :: 0 <= i < 3 ==> !attempts[i].accepted
      ensures token.Some? ==> exists i :: 0 <= i < 3 && attempts[i] == Attempt(token.value, true)
      ensures token.Some? ==> State() == After(fold, old(State()), Op.Issue(acc, digest(token.value), now, evicted))
      ensures token.Some? && |old(cache.entries)| >= CACHE_BOUND && digest(token.value) !in old(cache.entries) ==>
                evicted in old(cache.entries)
    {
      hide Filled, Inserted;
      token, evicted := None, "";
      if acc == "" {
        return;
      }
      var i := 0;
      while i < 3
        invariant 0 <= i <= 3 && Valid() && State() == old(State())
        invariant forall j :: 0 <= j < i ==> !attempts[j].accepted
      {
        if attempts[i].accepted {
          var hash := digest(attempts[i].token);
          table := Inserted(table, acc, hash, now);
          evicted := cache.Put(hash, acc, now, SESSION_TTL * 1000);
          token := Some(attempts[i].token);
          return;
        }
        i := i + 1;
      }
    }

    method Validate(token: string, now: int) returns (acc: Option<string>, ghost evicted: string)
      requires Valid()
      modifies this, cache
      ensures Valid()
      ensures !IsToken(token) ==> acc == None && State() == old(State())
      ensures IsToken(token) ==>
                acc == Answer(old(State()), digest(token), now)
                && State() == After(fold, old(State()), Op.Validate(digest(token), now, evicted))
    {
      hide Filled;
      evicted := "";
      var ok := CheckToken(token);
      if !ok {
        return None, evicted;
      }
      var hash := digest(token);
      var cached := cache.Get(hash, now);
      if cached.Some? {
        return cached, evicted;
      }
      var row := FindRow(table, hash, now);
      if row == None {
        return None, evicted;
      }
      var remaining := row.value.expires - Sec(now);
      if remaining <= 0 {
        return None, evicted;
      }
      evicted := cache.Put(hash, row.value.acc, now, remaining * 1000);
      acc := Some(row.value.acc);
    }

    method RevokeAccount(acc: string, now: int)
      requires Valid()
      modifies this, cache
      ensures Valid() && State() == After(fold, old(State()), Revoke(acc, now))
    {
      if acc != "" {
        table := WithoutAccount(fold, table, acc);
      }
      cache.Clear();
    }
  }
}
