/** The single commands against the requests as a whole: an operation nobody interferes with does what
    the sequential model says, and evicting an entry only sends the next validation to the table. */
module SessionFlow {
  import opened Results
  import opened Cache
  import opened SessionSteps
  import Sessions

  /** Up to `n` commands of one operation, one after the other. */
  function Commands(fold: Fold, w: World, p: Pid, n: nat): World
    decreases n
  {
    if n == 0 || p !in w.busy then w else Commands(fold, Advanced(fold, w, p), p, n - 1)
  }

  /** The operation begins at an instant, and runs to its end. */
  function Alone(fold: Fold, w: World, now: int, p: Pid, task: Task): World {
    Commands(fold, After(fold, After(fold, w, Tick(now)), Begin(p, task)), p, 4)
  }

  function Whole(w: World): Sessions.World {
    Sessions.World(w.table, w.cache)
  }

  /** The commands of an operation leave everybody else's alone. */
  predicate OthersSame(w: World, r: World, now: int) {
    r.busy == w.busy && r.now == now
  }

  /** The operation is about to give this command. */
  function At(b: World, p: Pid, phase: Phase): World {
    b.(busy := b.busy[p := phase])
  }

  /** One command of an operation. */
  lemma NextCommand(fold: Fold, b: World, p: Pid, phase: Phase, n: nat)
    requires n > 0
    ensures p in At(b, p, phase).busy
    ensures Commands(fold, At(b, p, phase), p, n) == Commands(fold, Advanced(fold, At(b, p, phase), p), p, n - 1)
  {
    hide Advanced;
  }

  lemma Over(fold: Fold, b: World, p: Pid, n: nat)
    requires p !in b.busy
    ensures Commands(fold, b, p, n) == b
  {}

  lemma Goes(b: World, p: Pid, phase: Phase, next: Phase)
    ensures Moved(At(b, p, phase), p, next) == At(b, p, next)
  {
    assert b.busy[p := phase][p := next] == b.busy[p := next];
  }

  lemma Ends(b: World, p: Pid, phase: Phase)
    requires p !in b.busy
    ensures Ended(At(b, p, phase), p) == b
  {
    assert b.busy[p := phase] - {p} == b.busy;
  }

  /** Where an issue alone ends. */
  function Issued(b: World, acc: string, hash: string): World {
    b.(table := Sessions.Inserted(b.table, acc, hash, b.now), owner := b.owner[hash := acc],
       cache := b.cache[hash := Slot(acc, b.now + Sessions.SESSION_TTL * 1000)])
  }

  lemma IssueEnds(fold: Fold, b: World, p: Pid, acc: string, hash: string)
    requires p !in b.busy
    ensures Commands(fold, At(b, p, Insert(acc, hash, Sessions.Sec(b.now) + Sessions.SESSION_TTL)), p, 4) ==
              Issued(b, acc, hash)
  {
    hide Commands, Moved, Ended, Sessions.Unexpired;
    var expires := Sessions.Sec(b.now) + Sessions.SESSION_TTL;
    var b1 := b.(table := Sessions.Inserted(b.table, acc, hash, b.now), owner := b.owner[hash := acc]);
    NextCommand(fold, b, p, Insert(acc, hash, expires), 4);
    Goes(b1, p, Insert(acc, hash, expires), PutNew(acc, hash));
    NextCommand(fold, b1, p, PutNew(acc, hash), 3);
    Ends(Issued(b, acc, hash), p, PutNew(acc, hash));
    Over(fold, Issued(b, acc, hash), p, 2);
  }

  /** A session issued alone is in the table and in the cache, and what had expired has left the table. */
  lemma IssuedAlone(fold: Fold, w: World, now: int, p: Pid, acc: string, hash: string, evicted: string)
    requires p !in w.busy && acc != "" && |w.cache| < Sessions.CACHE_BOUND
    ensures var r, op := Alone(fold, w, now, p, Issue(acc, hash)), Sessions.Issue(acc, hash, now, evicted);
            && Whole(r) == Sessions.After(fold, Whole(w), op) && OthersSame(w, r, now)
            && r.owner == w.owner[hash := acc] && r.revoked == w.revoked && r.passed == w.passed
  {
    hide Alone, Issued;
    AloneIsIssued(fold, w, now, p, acc, hash);
    IssuedIs(w.(now := now), acc, hash, evicted);
  }

  lemma AloneIsIssued(fold: Fold, w: World, now: int, p: Pid, acc: string, hash: string)
    requires p !in w.busy
    ensures Alone(fold, w, now, p, Issue(acc, hash)) == Issued(w.(now := now), acc, hash)
  {
    hide Commands, Issued;
    IssueEnds(fold, w.(now := now), p, acc, hash);
  }

  lemma IssuedIs(b: World, acc: string, hash: string, evicted: string)
    requires acc != "" && |b.cache| < Sessions.CACHE_BOUND
    ensures var r, op := Issued(b, acc, hash), Sessions.Issue(acc, hash, b.now, evicted);
            && r == b.(table := r.table, cache := r.cache, owner := b.owner[hash := acc])
            && r.cache == Sessions.CacheAfter(Whole(b), op)
            && forall fold :: r.table == Sessions.TableAfter(fold, b.table, op)
  {
    hide Sessions.Inserted;
  }

  /** The cache knows the session. */
  lemma CachedAlone(fold: Fold, b: World, p: Pid, hash: string, late: bool)
    requires p !in b.busy && Peek(b.cache, hash, b.now).Some?
    ensures Commands(fold, At(b, p, Get(hash, late)), p, 4) == if late then b.(passed := b.passed + {hash}) else b
  {
    hide Commands, Moved, Ended, Peek, Swept;
    var r := if late then b.(passed := b.passed + {hash}) else b;
    NextCommand(fold, b, p, Get(hash, late), 4);
    Ends(r, p, Get(hash, late));
    Over(fold, r, p, 3);
  }

  /** The cache does not: the table is asked. */
  lemma UncachedAlone(fold: Fold, b: World, p: Pid, hash: string, late: bool)
    requires p !in b.busy && Peek(b.cache, hash, b.now) == None
    ensures var b1, row := b.(cache := Swept(b.cache, hash, b.now)), Sessions.FindRow(b.table, hash, b.now);
            Commands(fold, At(b, p, Get(hash, late)), p, 4) ==
              if row == None then b1
              else Commands(fold, At(b1, p, Remain(hash, late, row.value.acc, row.value.expires)), p, 2)
  {
    hide Commands, Moved, Ended, Peek, Swept, Sessions.FindRow;
    var b1, row := b.(cache := Swept(b.cache, hash, b.now)), Sessions.FindRow(b.table, hash, b.now);
    NextCommand(fold, b, p, Get(hash, late), 4);
    Goes(b1, p, Get(hash, late), Find(hash, late));
    NextCommand(fold, b1, p, Find(hash, late), 3);
    if row == None {
      Ends(b1, p, Find(hash, late));
      Over(fold, b1, p, 2);
    } else {
      Goes(b1, p, Find(hash, late), Remain(hash, late, row.value.acc, row.value.expires));
    }
  }

  /** What the table says is cached for the seconds that are left. */
  lemma FoundAlone(fold: Fold, b: World, p: Pid, hash: string, late: bool, acc: string, expires: int)
    requires p !in b.busy
    ensures var seconds := expires - Sessions.Sec(b.now);
            Commands(fold, At(b, p, Remain(hash, late, acc, expires)), p, 2) ==
              if seconds <= 0 then b
              else b.(cache := b.cache[hash := Slot(acc, b.now + seconds * 1000)],
                      passed := if late then b.passed + {hash} else b.passed)
  {
    hide Commands, Moved, Ended;
    var seconds := expires - Sessions.Sec(b.now);
    NextCommand(fold, b, p, Remain(hash, late, acc, expires), 2);
    if seconds <= 0 {
      Ends(b, p, Remain(hash, late, acc, expires));
      Over(fold, b, p, 1);
    } else {
      var b2 := b.(cache := b.cache[hash := Slot(acc, b.now + seconds * 1000)],
                   passed := if late then b.passed + {hash} else b.passed);
      Goes(b, p, Remain(hash, late, acc, expires), PutFound(hash, late, acc, seconds));
      NextCommand(fold, b, p, PutFound(hash, late, acc, seconds), 1);
      Ends(b2, p, PutFound(hash, late, acc, seconds));
      Over(fold, b2, p, 0);
    }
  }

  /** Where a validation alone ends. */
  function Validated(b: World, hash: string, late: bool): World {
    var row := Sessions.FindRow(b.table, hash, b.now);
    if Peek(b.cache, hash, b.now).Some? then if late then b.(passed := b.passed + {hash}) else b
    else if row == None || row.value.expires - Sessions.Sec(b.now) <= 0 then
      b.(cache := Swept(b.cache, hash, b.now))
    else
      var seconds := row.value.expires - Sessions.Sec(b.now);
      b.(cache := Swept(b.cache, hash, b.now)[hash := Slot(row.value.acc, b.now + seconds * 1000)],
         passed := if late then b.passed + {hash} else b.passed)
  }

  lemma ValidationEnds(fold: Fold, b: World, p: Pid, hash: string, late: bool)
    requires p !in b.busy
    ensures Commands(fold, At(b, p, Get(hash, late)), p, 4) == Validated(b, hash, late)
  {
    hide Commands, Peek, Swept, Sessions.FindRow, At;
    if Peek(b.cache, hash, b.now).Some? {
      CachedAlone(fold, b, p, hash, late);
    } else {
      UncachedAlone(fold, b, p, hash, late);
      var b1, row := b.(cache := Swept(b.cache, hash, b.now)), Sessions.FindRow(b.table, hash, b.now);
      if row.Some? {
        FoundAlone(fold, b1, p, hash, late, row.value.acc, row.value.expires);
      }
    }
  }

  lemma ValidatedCache(b: World, hash: string, late: bool, evicted: string)
    requires |b.cache| < Sessions.CACHE_BOUND
    ensures Validated(b, hash, late).cache == Sessions.CacheAfter(Whole(b), Sessions.Validate(hash, b.now, evicted))
  {
    hide Peek, Swept, Sessions.FindRow;
    SweptBound(b.cache, hash, b.now);
    if Peek(b.cache, hash, b.now).Some? {
      SweptOfLive(b.cache, hash, b.now);
    }
  }

  lemma ValidatedPasses(b: World, hash: string, late: bool)
    ensures var r := Validated(b, hash, late);
            && r == b.(cache := r.cache, passed := r.passed)
            && r.passed == b.passed + (if late && Sessions.Answer(Whole(b), hash, b.now).Some? then {hash} else {})
  {
    hide Peek, Swept, Sessions.FindRow;
  }

  lemma AloneIsValidated(fold: Fold, w: World, now: int, p: Pid, hash: string)
    requires p !in w.busy
    ensures Alone(fold, w, now, p, Validate(hash)) == Validated(w.(now := now), hash, hash in w.revoked)
  {
    hide Commands, Validated, Peek, Swept, Sessions.FindRow;
    ValidationEnds(fold, w.(now := now), p, hash, hash in w.revoked);
  }

  /** A validation alone answers what the sequential one answers, and leaves the cache it leaves. */
  lemma ValidatedAlone(fold: Fold, w: World, now: int, p: Pid, hash: string, evicted: string)
    requires p !in w.busy && |w.cache| < Sessions.CACHE_BOUND
    ensures var r, op := Alone(fold, w, now, p, Validate(hash)), Sessions.Validate(hash, now, evicted);
            && Whole(r) == Sessions.After(fold, Whole(w), op) && OthersSame(w, r, now)
            && r.owner == w.owner && r.revoked == w.revoked
            && r.passed == w.passed + (if hash in w.revoked && Sessions.Answer(Whole(w), hash, now).Some?
                                       then {hash} else {})
  {
    hide Alone, Validated, Sessions.CacheAfter, Sessions.Answer;
    var b, late := w.(now := now), hash in w.revoked;
    AloneIsValidated(fold, w, now, p, hash);
    ValidatedPasses(b, hash, late);
    ValidatedCache(b, hash, late, evicted);
  }

  lemma SweptOfLive(c: map<string, Slot<string>>, hash: string, now: int)
    requires Peek(c, hash, now).Some?
    ensures Swept(c, hash, now) == c
  {}

  /** A revocation alone takes the account's rows and empties the cache; its sessions are revoked. */
  lemma RevokedAlone(fold: Fold, w: World, now: int, p: Pid, acc: string)
    requires p !in w.busy
    ensures var r := Alone(fold, w, now, p, Revoke(acc));
            && Whole(r) == Sessions.After(fold, Whole(w), Sessions.Revoke(acc, now)) && OthersSame(w, r, now)
            && r.owner == w.owner && r.passed == w.passed
            && forall h :: h in r.revoked <==>
                 h in w.revoked || (acc != "" && h in w.owner && fold(w.owner[h]) == fold(acc))
  {
    hide Commands, Moved, Ended, Sessions.WithoutAccount;
    var b0 := w.(now := now);
    var gone := if acc == "" then {} else SessionsOf(fold, w, acc);
    var b1 := if acc == "" then b0 else b0.(table := Sessions.WithoutAccount(fold, w.table, acc));
    var b2 := b1.(cache := map[], revoked := w.revoked + gone);
    assert SessionsOf(fold, b0, acc) == SessionsOf(fold, w, acc);
    NextCommand(fold, b0, p, Delete(acc), 4);
    Goes(b1, p, Delete(acc), Clear(acc, gone));
    NextCommand(fold, b1, p, Clear(acc, gone), 3);
    Ends(b2, p, Clear(acc, gone));
    Over(fold, b2, p, 2);
  }

  /** An operation whose database command fails is over and has changed nothing. */
  lemma FailedAlone(fold: Fold, w: World, p: Pid, task: Task)
    requires p !in w.busy
    ensures After(fold, After(fold, w, Begin(p, task)), Fail(p)) == w
  {
    assert w.busy[p := Begun(w, task)] - {p} == w.busy;
  }

  /** A session whose cache entry was given up is accepted exactly when the table says so; nobody
      else's answer changes. */
  lemma EvictionIsHarmless(fold: Fold, w: World, hash: string, other: string, now: int)
    ensures var r := Whole(After(fold, w, Evict(hash)));
            && Sessions.Answer(r, hash, now) == Sessions.TableAnswer(w.table, hash, now)
            && (other != hash ==> Sessions.Answer(r, other, now) == Sessions.Answer(Whole(w), other, now))
  {}

  /** A restart forgets the cache and the operations under way, and nothing else. */
  lemma RestartAnswers(fold: Fold, w: World, hash: string, now: int)
    ensures var r := After(fold, w, Restart);
            && r.busy == map[] && r == w.(cache := r.cache, busy := r.busy)
            && Sessions.Answer(Whole(r), hash, now) == Sessions.TableAnswer(w.table, hash, now)
  {}
}
