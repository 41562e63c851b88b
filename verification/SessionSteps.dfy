/** Sessions issued, validated and revoked at the same time, one command of the database or the cache
    at a time. No lock spans the two; how operations on one account may overlap is a parameter, and
    revoked sessions are proved to stay refused for exactly the ways in which revocations are alone. */
module SessionSteps {
  import opened Results
  import opened Cache
  import Sessions

  /** A handler thread. */
  datatype Pid = Pid(n: nat)

  datatype Task = Issue(acc: string, hash: string) | Validate(hash: string) | Revoke(acc: string)

  /** Where an operation is; the name tells its next command. `late` marks a validation that began
      after its session had been revoked, `gone` the sessions a revocation has deleted. */
  datatype Phase =
    | Insert(acc: string, hash: string, expires: int)
    | PutNew(acc: string, hash: string)
    | Get(hash: string, late: bool)
    | Find(hash: string, late: bool)
    | Remain(hash: string, late: bool, acc: string, expires: int)
    | PutFound(hash: string, late: bool, acc: string, seconds: int)
    | Delete(acc: string)
    | Clear(acc: string, gone: set<string>)

  predicate Issuing(phase: Phase) {
    phase.Insert? || phase.PutNew?
  }

  predicate Validating(phase: Phase) {
    phase.Get? || phase.Find? || phase.Remain? || phase.PutFound?
  }

  predicate Revoking(phase: Phase) {
    phase.Delete? || phase.Clear?
  }

  /** The table and the cache, the operations under way, and what has happened: whom every session was
      issued to, which were revoked by revocations that have returned, and which of those a validation
      begun later has let pass. */
  datatype World = World(now: int, table: map<string, Sessions.Row>, cache: map<string, Slot<string>>,
                         busy: map<Pid, Phase>, owner: map<string, string>, revoked: set<string>, passed: set<string>)

  const START := World(0, map[], map[], map[], map[], {}, {})

  type Fold = string -> string

  /** The session was issued to the account, by the table's comparison of names. */
  predicate Owns(fold: Fold, w: World, acc: string, hash: string) {
    hash in w.owner && fold(w.owner[hash]) == fold(acc)
  }

  /** Which operations may begin while which are under way on the same account. */
  datatype Policy = Policy(issueInRevoke: bool, validateInRevoke: bool, revokeInIssue: bool, revokeInValidate: bool)

  predicate MayOverlap(fold: Fold, policy: Policy, w: World, task: Task, other: Phase) {
    match task
    case Issue(acc, _) => Revoking(other) && fold(other.acc) == fold(acc) ==> policy.issueInRevoke
    case Validate(hash) => Revoking(other) && Owns(fold, w, other.acc, hash) ==> policy.validateInRevoke
    case Revoke(acc) =>
      && (Issuing(other) && fold(other.acc) == fold(acc) ==> policy.revokeInIssue)
      && (Validating(other) && Owns(fold, w, acc, other.hash) ==> policy.revokeInValidate)
  }

  datatype Step =
    | Tick(now: int)
    | Begin(p: Pid, task: Task)
    | Advance(p: Pid)              // the next command of an operation
    | Fail(p: Pid)                 // the database throws or refuses, and the operation ends
    | Evict(hash: string)          // what a full cache gives up, at any time
    | DeleteAccount(acc: string)   // by an administrator: rows only
    | Restart                      // the cache and the operations are lost

  /** Random tokens: a digest that is inserted was never issued before. */
  predicate Enabled(fold: Fold, policy: Policy, w: World, s: Step) {
    match s
    case Tick(now) => now >= w.now
    case Begin(p, task) =>
      && p !in w.busy && (task.Issue? ==> task.acc != "")
      && forall q :: q in w.busy ==> MayOverlap(fold, policy, w, task, w.busy[q])
    case Advance(p) => p in w.busy && (w.busy[p].Insert? ==> w.busy[p].hash !in w.owner)
    case Fail(p) => p in w.busy && (w.busy[p].Insert? || w.busy[p].Find? || w.busy[p].Delete?)
    case Evict(_) => true
    case DeleteAccount(_) => true
    case Restart => true
  }

  function Begun(w: World, task: Task): Phase {
    match task
    case Issue(acc, hash) => Insert(acc, hash, Sessions.Sec(w.now) + Sessions.SESSION_TTL)
    case Validate(hash) => Get(hash, hash in w.revoked)
    case Revoke(acc) => Delete(acc)
  }

  /** The operations other than p stay where they are. */
  predicate OthersStay(busy: map<Pid, Phase>, p: Pid, after: map<Pid, Phase>) {
    && (forall q :: q in busy && q != p ==> q in after && after[q] == busy[q])
    && (forall q :: q in after && q != p ==> q in busy)
  }

  function Ended(w: World, p: Pid): (r: World)
    ensures OthersStay(w.busy, p, r.busy) && p !in r.busy
  {
    w.(busy := w.busy - {p})
  }

  function Moved(w: World, p: Pid, phase: Phase): (r: World)
    ensures OthersStay(w.busy, p, r.busy) && p in r.busy && r.busy[p] == phase
  {
    w.(busy := w.busy[p := phase])
  }

  /** A validation answers with an account. */
  function Passed(w: World, p: Pid, hash: string, late: bool): World {
    Ended(if late then w.(passed := w.passed + {hash}) else w, p)
  }

  function SessionsOf(fold: Fold, w: World, acc: string): set<string> {
    set h | h in w.owner && fold(w.owner[h]) == fold(acc)
  }

  function Advanced(fold: Fold, w: World, p: Pid): World
    requires p in w.busy
  {
    match w.busy[p]
    case Insert(acc, hash, expires) =>
      var table := Sessions.Unexpired(w.table, w.now)[hash := Sessions.Row(acc, expires)];
      Moved(w.(table := table, owner := w.owner[hash := acc]), p, PutNew(acc, hash))
    case PutNew(acc, hash) =>
      Ended(w.(cache := w.cache[hash := Slot(acc, w.now + Sessions.SESSION_TTL * 1000)]), p)
    case Get(hash, late) =>
      if Peek(w.cache, hash, w.now).Some? then Passed(w, p, hash, late)
      else Moved(w.(cache := Swept(w.cache, hash, w.now)), p, Find(hash, late))
    case Find(hash, late) =>
      (match Sessions.FindRow(w.table, hash, w.now)
       case None => Ended(w, p)
       case Some(row) => Moved(w, p, Remain(hash, late, row.acc, row.expires)))
    case Remain(hash, late, acc, expires) =>
      var seconds := expires - Sessions.Sec(w.now);
      if seconds <= 0 then Ended(w, p) else Moved(w, p, PutFound(hash, late, acc, seconds))
    case PutFound(hash, late, acc, seconds) =>
      Passed(w.(cache := w.cache[hash := Slot(acc, w.now + seconds * 1000)]), p, hash, late)
    case Delete(acc) =>
      if acc == "" then Moved(w, p, Clear(acc, {}))
      else Moved(w.(table := Sessions.WithoutAccount(fold, w.table, acc)), p, Clear(acc, SessionsOf(fold, w, acc)))
    case Clear(acc, gone) => Ended(w.(cache := map[], revoked := w.revoked + gone), p)
  }

  function After(fold: Fold, w: World, s: Step): World
    requires s.Advance? ==> s.p in w.busy
  {
    match s
    case Tick(now) => w.(now := now)
    case Begin(p, task) => w.(busy := w.busy[p := Begun(w, task)])
    case Advance(p) => Advanced(fold, w, p)
    case Fail(p) => Ended(w, p)
    case Evict(hash) => w.(cache := w.cache - {hash})
    case DeleteAccount(acc) => w.(table := Sessions.WithoutAccount(fold, w.table, acc))
    case Restart => w.(cache := map[], busy := map[])
  }

  /** Where a sequence of steps leads, if each was possible when it was taken. */
  function Reached(fold: Fold, policy: Policy, steps: seq<Step>): Option<World> {
    if steps == [] then Some(START)
    else
      var before := Reached(fold, policy, steps[..|steps| - 1]);
      var s := steps[|steps| - 1];
      if before.Some? && Enabled(fold, policy, before.value, s) then Some(After(fold, before.value, s)) else None
  }

  /** No operation of an account overlaps a revocation of it, but revocations may overlap each other. */
  predicate RevokesAlone(policy: Policy) {
    !policy.issueInRevoke && !policy.validateInRevoke && !policy.revokeInIssue && !policy.revokeInValidate
  }

  // ---- revocations alone are enough

  predicate Apart(fold: Fold, w: World, a: Phase, b: Phase) {
    Revoking(b) ==>
      && (Issuing(a) ==> fold(a.acc) != fold(b.acc))
      && (Validating(a) ==> !Owns(fold, w, b.acc, a.hash))
  }

  /** What an operation may rely on: a session that is still to be cached is not revoked. */
  ghost predicate PhaseOk(fold: Fold, w: World, phase: Phase) {
    match phase
    case Insert(_, _, _) => true
    case PutNew(acc, hash) => hash in w.owner && w.owner[hash] == acc && hash !in w.revoked
    case Get(hash, late) => late ==> hash in w.revoked
    case Find(hash, late) => late ==> hash in w.revoked
    case Remain(hash, late, _, _) => hash in w.owner && hash !in w.revoked && !late
    case PutFound(hash, late, _, _) => hash in w.owner && hash !in w.revoked && !late
    case Delete(_) => true
    case Clear(acc, gone) =>
      && (forall h :: h in gone ==> Owns(fold, w, acc, h) && h !in w.table)
      && (acc != "" ==> forall h :: Owns(fold, w, acc, h) ==> h in gone)
  }

  predicate TableOk(w: World) {
    forall h :: h in w.table ==> h in w.owner && w.table[h].acc == w.owner[h]
  }

  /** A revoked session is neither in the table nor in the cache. */
  predicate Refused(w: World) {
    forall h :: h in w.revoked ==> h in w.owner && h !in w.table && h !in w.cache
  }

  ghost predicate Inv(fold: Fold, w: World) {
    && TableOk(w) && Refused(w) && w.passed == {}
    && (forall p :: p in w.busy ==> PhaseOk(fold, w, w.busy[p]))
    && (forall p, q :: p in w.busy && q in w.busy ==> Apart(fold, w, w.busy[p], w.busy[q]))
  }

  /** Sessions keep their owners. */
  lemma OwnersStay(fold: Fold, w: World, p: Pid, acc: string, hash: string)
    requires p in w.busy && (w.busy[p].Insert? ==> w.busy[p].hash !in w.owner)
    ensures Owns(fold, w, acc, hash) ==> Owns(fold, Advanced(fold, w, p), acc, hash)
    ensures Owns(fold, Advanced(fold, w, p), acc, hash) && !Owns(fold, w, acc, hash) ==>
              w.busy[p].Insert? && w.busy[p].hash == hash && fold(w.busy[p].acc) == fold(acc)
  {}

  /** What a command may change for others: the owner and the row of a session that is new, and
      sessions that a revocation ends. */
  lemma Effects(fold: Fold, w: World, p: Pid)
    requires p in w.busy && (w.busy[p].Insert? ==> w.busy[p].hash !in w.owner)
    ensures var r := Advanced(fold, w, p);
            && (forall h :: h in w.owner ==> h in r.owner && r.owner[h] == w.owner[h])
            && (forall h :: h in w.owner && h in r.table ==> h in w.table)
            && (forall h :: h in w.revoked ==> h in r.revoked)
            && (forall h :: h in r.revoked && h !in w.revoked ==> w.busy[p].Clear? && h in w.busy[p].gone)
  {
    hide Peek, Swept, Sessions.FindRow, SessionsOf, OthersStay;
  }

  /** A command leaves the other operations right. */
  lemma OtherOk(fold: Fold, w: World, p: Pid, q: Pid)
    requires Inv(fold, w) && p in w.busy && q in w.busy && p != q
    requires w.busy[p].Insert? ==> w.busy[p].hash !in w.owner
    ensures PhaseOk(fold, Advanced(fold, w, p), w.busy[q])
  {
    hide Advanced;
    Effects(fold, w, p);
    assert PhaseOk(fold, w, w.busy[p]) && PhaseOk(fold, w, w.busy[q]);
    assert Apart(fold, w, w.busy[q], w.busy[p]) && Apart(fold, w, w.busy[p], w.busy[q]);
    if w.busy[q].Clear? {
      forall h | Owns(fold, Advanced(fold, w, p), w.busy[q].acc, h) && !Owns(fold, w, w.busy[q].acc, h) ensures false {
        OwnersStay(fold, w, p, w.busy[q].acc, h);
      }
    }
  }

  lemma OwnOk(fold: Fold, w: World, p: Pid)
    requires Inv(fold, w) && p in w.busy
    requires w.busy[p].Insert? ==> w.busy[p].hash !in w.owner
    ensures var r := Advanced(fold, w, p);
            p in r.busy ==> PhaseOk(fold, r, r.busy[p])
  {
    assert PhaseOk(fold, w, w.busy[p]);
  }

  lemma TableKept(fold: Fold, w: World, p: Pid)
    requires TableOk(w) && p in w.busy && (w.busy[p].Insert? ==> w.busy[p].hash !in w.owner)
    ensures TableOk(Advanced(fold, w, p))
  {
    hide OthersStay, Peek, Swept, Sessions.Sec, Sessions.FindRow, SessionsOf;
  }

  lemma RefusedKept(fold: Fold, w: World, p: Pid)
    requires Refused(w) && p in w.busy && PhaseOk(fold, w, w.busy[p])
    requires w.busy[p].Insert? ==> w.busy[p].hash !in w.owner
    ensures Refused(Advanced(fold, w, p))
  {
    hide OthersStay, Peek, Sessions.Sec, Sessions.FindRow, SessionsOf, Owns;
    if w.busy[p].Clear? {
      assert forall h :: h in w.busy[p].gone ==> Owns(fold, w, w.busy[p].acc, h);
      OwnedIsIssued(fold, w, w.busy[p].acc);
    }
  }

  lemma OwnedIsIssued(fold: Fold, w: World, acc: string)
    ensures forall h :: Owns(fold, w, acc, h) ==> h in w.owner
  {}

  /** A validation that began too late never finds its session. */
  lemma NonePasses(fold: Fold, w: World, p: Pid)
    requires Refused(w) && w.passed == {} && p in w.busy && PhaseOk(fold, w, w.busy[p])
    ensures Advanced(fold, w, p).passed == {}
  {
    hide OthersStay, Owns, SessionsOf, Swept, Sessions.Sec, Sessions.FindRow, Sessions.Unexpired;
  }

  predicate SameTask(a: Phase, b: Phase) {
    && (Issuing(a) <==> Issuing(b)) && (Validating(a) <==> Validating(b)) && (Revoking(a) <==> Revoking(b))
    && (if Validating(a) then a.hash == b.hash else a.acc == b.acc)
  }

  lemma OwnTask(fold: Fold, w: World, p: Pid)
    requires p in w.busy && p in Advanced(fold, w, p).busy
    ensures SameTask(w.busy[p], Advanced(fold, w, p).busy[p])
  {
    hide Peek, Swept, Sessions.FindRow, Sessions.Unexpired, Sessions.WithoutAccount, SessionsOf, Moved, Ended,
          OthersStay;
  }

  lemma OthersUnmoved(fold: Fold, w: World, p: Pid)
    requires p in w.busy
    ensures OthersStay(w.busy, p, Advanced(fold, w, p).busy)
  {
    hide Peek, Swept, Sessions.FindRow, Sessions.Unexpired, Sessions.WithoutAccount, SessionsOf, Moved, Ended,
          OthersStay;
  }

  /** An operation stays one of its kind, on its account or session, and no other one moves. */
  lemma TasksStay(fold: Fold, w: World, p: Pid, q: Pid)
    requires p in w.busy && q in Advanced(fold, w, p).busy
    ensures q in w.busy && SameTask(w.busy[q], Advanced(fold, w, p).busy[q])
    ensures q != p ==> Advanced(fold, w, p).busy[q] == w.busy[q]
  {
    hide Advanced;
    if q == p {
      OwnTask(fold, w, p);
    } else {
      OthersUnmoved(fold, w, p);
    }
  }

  lemma StaysApart(fold: Fold, w: World, p: Pid, a: Pid, b: Pid)
    requires Inv(fold, w) && p in w.busy && (w.busy[p].Insert? ==> w.busy[p].hash !in w.owner)
    requires a in Advanced(fold, w, p).busy && b in Advanced(fold, w, p).busy
    ensures var r := Advanced(fold, w, p); Apart(fold, r, r.busy[a], r.busy[b])
  {
    hide Advanced, PhaseOk, Refused, TableOk, Owns;
    TasksStay(fold, w, p, a);
    TasksStay(fold, w, p, b);
    assert Apart(fold, w, w.busy[a], w.busy[b]) && Apart(fold, w, w.busy[p], w.busy[b]);
    if Revoking(w.busy[b]) && Validating(w.busy[a]) {
      OwnersStay(fold, w, p, w.busy[b].acc, w.busy[a].hash);
    }
  }

  lemma AdvanceKeeps(fold: Fold, w: World, p: Pid)
    requires Inv(fold, w) && p in w.busy && (w.busy[p].Insert? ==> w.busy[p].hash !in w.owner)
    ensures Inv(fold, Advanced(fold, w, p))
  {
    hide Advanced, PhaseOk, Apart, Refused, TableOk;
    assert PhaseOk(fold, w, w.busy[p]);
    var r := Advanced(fold, w, p);
    TableKept(fold, w, p);
    RefusedKept(fold, w, p);
    NonePasses(fold, w, p);
    OwnOk(fold, w, p);
    forall q | q in r.busy ensures PhaseOk(fold, r, r.busy[q]) {
      if q != p {
        TasksStay(fold, w, p, q);
        OtherOk(fold, w, p, q);
      }
    }
    forall a, b | a in r.busy && b in r.busy ensures Apart(fold, r, r.busy[a], r.busy[b]) {
      StaysApart(fold, w, p, a, b);
    }
  }

  lemma BeginKeeps(fold: Fold, policy: Policy, w: World, p: Pid, task: Task)
    requires Inv(fold, w) && RevokesAlone(policy) && Enabled(fold, policy, w, Begin(p, task))
    ensures Inv(fold, After(fold, w, Begin(p, task)))
  {
    var r := After(fold, w, Begin(p, task));
    forall q | q in r.busy ensures PhaseOk(fold, r, r.busy[q]) {
      assert q != p ==> PhaseOk(fold, w, w.busy[q]);
    }
    forall a, b | a in r.busy && b in r.busy ensures Apart(fold, r, r.busy[a], r.busy[b]) {
      if a != p && b != p {
        assert Apart(fold, w, w.busy[a], w.busy[b]);
      } else if a != p {
        assert MayOverlap(fold, policy, w, task, w.busy[a]);
      } else if b != p {
        assert MayOverlap(fold, policy, w, task, w.busy[b]);
      }
    }
  }

  /** Steps outside the operations take away and add nothing. */
  lemma OutsideKeeps(fold: Fold, policy: Policy, w: World, s: Step)
    requires Inv(fold, w) && Enabled(fold, policy, w, s) && !s.Begin? && !s.Advance?
    ensures Inv(fold, After(fold, w, s))
  {
    var r := After(fold, w, s);
    forall q | q in r.busy ensures PhaseOk(fold, r, r.busy[q]) {
      assert PhaseOk(fold, w, w.busy[q]);
    }
    forall a, b | a in r.busy && b in r.busy ensures Apart(fold, r, r.busy[a], r.busy[b]) {
      assert Apart(fold, w, w.busy[a], w.busy[b]);
    }
  }

  /** Every step of every operation keeps revoked sessions out of the table and the cache. */
  lemma StepKeeps(fold: Fold, policy: Policy, w: World, s: Step)
    requires Inv(fold, w) && RevokesAlone(policy) && Enabled(fold, policy, w, s)
    ensures Inv(fold, After(fold, w, s))
  {
    hide Inv, RevokesAlone, Advanced, MayOverlap;
    match s
    case Begin(p, task) => BeginKeeps(fold, policy, w, p, task);
    case Advance(p) => AdvanceKeeps(fold, w, p);
    case _ => OutsideKeeps(fold, policy, w, s);
  }

  lemma {:induction false} RunKeeps(fold: Fold, policy: Policy, steps: seq<Step>)
    requires RevokesAlone(policy) && Reached(fold, policy, steps).Some?
    ensures Inv(fold, Reached(fold, policy, steps).value)
  {
    if steps == [] {
      StartOk(fold);
    } else {
      hide Inv, RevokesAlone, Enabled, After;
      RunKeeps(fold, policy, steps[..|steps| - 1]);
      StepKeeps(fold, policy, Reached(fold, policy, steps[..|steps| - 1]).value, steps[|steps| - 1]);
    }
  }

  lemma StartOk(fold: Fold)
    ensures Inv(fold, START)
  {}

  // ---- what that means for a caller

  lemma {:induction false} RevokedGrows(fold: Fold, policy: Policy, steps: seq<Step>, later: seq<Step>)
    requires Reached(fold, policy, steps + later).Some?
    ensures Reached(fold, policy, steps).Some?
    ensures Reached(fold, policy, steps).value.revoked <= Reached(fold, policy, steps + later).value.revoked
  {
    if later == [] {
      assert steps + later == steps;
    } else {
      var front := later[..|later| - 1];
      assert (steps + later)[..|steps + later| - 1] == steps + front;
      RevokedGrows(fold, policy, steps, front);
      hide Enabled, Advanced;
      OnlyMoreRevoked(fold, policy, Reached(fold, policy, steps + front).value, later[|later| - 1]);
    }
  }

  lemma OnlyMoreRevoked(fold: Fold, policy: Policy, w: World, s: Step)
    requires Enabled(fold, policy, w, s)
    ensures w.revoked <= After(fold, w, s).revoked
  {}

  /** Once a revocation has returned, whatever happens later, no session ever issued to the account
      until then is accepted again. */
  lemma RevokedForGood(fold: Fold, policy: Policy, steps: seq<Step>, p: Pid, later: seq<Step>, hash: string)
    requires RevokesAlone(policy) && Reached(fold, policy, steps).Some?
    requires var w := Reached(fold, policy, steps).value;
             p in w.busy && w.busy[p].Clear? && w.busy[p].acc != "" && Owns(fold, w, w.busy[p].acc, hash)
    requires Reached(fold, policy, steps + [Advance(p)] + later).Some?
    ensures var r := Reached(fold, policy, steps + [Advance(p)] + later).value;
            Sessions.Answer(Sessions.World(r.table, r.cache), hash, r.now) == None
  {
    var w := Reached(fold, policy, steps).value;
    RunKeeps(fold, policy, steps);
    assert PhaseOk(fold, w, w.busy[p]);
    RunKeeps(fold, policy, steps + [Advance(p)] + later);
    RevokedGrows(fold, policy, steps + [Advance(p)], later);
    assert (steps + [Advance(p)])[..|steps|] == steps;
    var mid := Reached(fold, policy, steps + [Advance(p)]).value;
    assert mid == Advanced(fold, w, p);
    assert hash in mid.revoked;
    assert Refused(Reached(fold, policy, steps + [Advance(p)] + later).value);
  }

  /** Deleting an account touches no cache: right after it a session of the account is refused if and
      only if no live entry is cached. */
  lemma DeletionIffUncached(fold: Fold, w: World, acc: string, hash: string)
    requires Owns(fold, w, acc, hash) && TableOk(w)
    ensures var r := After(fold, w, DeleteAccount(acc));
            Sessions.Answer(Sessions.World(r.table, r.cache), hash, r.now) == None
            <==> Peek(w.cache, hash, w.now) == None
  {}

  // ---- and they are needed

  lemma OneMore(fold: Fold, policy: Policy, steps: seq<Step>, s: Step, w: World) returns (more: seq<Step>, r: World)
    requires Reached(fold, policy, steps) == Some(w) && Enabled(fold, policy, w, s)
    ensures Reached(fold, policy, more) == Some(r) && r == After(fold, w, s)
  {
    more, r := steps + [s], After(fold, w, s);
    assert more[..|steps|] == steps;
  }

  const A := Pid(0)
  const B := Pid(1)

  /** A session issued and at rest. */
  function Issued(acc: string, hash: string): World {
    START.(table := map[hash := Sessions.Row(acc, Sessions.SESSION_TTL)],
    cache := map[hash := Slot(acc, Sessions.SESSION_TTL * 1000)], owner := map[hash := acc])
  }

  /** A session revoked and still cached. */
  function LeftBehind(acc: string, hash: string): World {
    START.(cache := map[hash := Slot(acc, Sessions.SESSION_TTL * 1000)], owner := map[hash := acc], revoked := {hash})
  }

  lemma IssueAlone(fold: Fold, policy: Policy, acc: string, hash: string) returns (steps: seq<Step>, w: World)
    requires acc != ""
    ensures Reached(fold, policy, steps) == Some(w) && w == Issued(acc, hash)
  {
    assert Reached(fold, policy, []) == Some(START);
    hide Reached;
    steps, w := OneMore(fold, policy, [], Begin(A, Issue(acc, hash)), START);
    steps, w := OneMore(fold, policy, steps, Advance(A), w);
    steps, w := OneMore(fold, policy, steps, Advance(A), w);
    assert w.busy == map[];
  }

  /** An account deleted while its session is cached: the session stays accepted. */
  lemma DeletedStaysAccepted(fold: Fold, policy: Policy, acc: string, hash: string)
      returns (steps: seq<Step>, w: World)
    requires acc != ""
    ensures Reached(fold, policy, steps) == Some(w) && w.table == map[]
    ensures Sessions.Answer(Sessions.World(w.table, w.cache), hash, w.now) == Some(acc)
  {
    hide Reached;
    steps, w := IssueAlone(fold, policy, acc, hash);
    steps, w := OneMore(fold, policy, steps, DeleteAccount(acc), w);
  }

  /** A revocation between the insertion of a session and its caching. */
  lemma RevokeInIssue(fold: Fold, policy: Policy, acc: string, hash: string) returns (steps: seq<Step>, w: World)
    requires policy.revokeInIssue && acc != ""
    ensures Reached(fold, policy, steps) == Some(w) && w == LeftBehind(acc, hash)
  {
    assert Reached(fold, policy, []) == Some(START);
    hide Reached;
    steps, w := OneMore(fold, policy, [], Begin(A, Issue(acc, hash)), START);
    steps, w := OneMore(fold, policy, steps, Advance(A), w);
    steps, w := OneMore(fold, policy, steps, Begin(B, Revoke(acc)), w);
    steps, w := Interrupted(fold, policy, steps, w, acc, hash, PutNew(acc, hash));
  }

  /** A session that is issued while its account is revoked. */
  lemma IssueInRevoke(fold: Fold, policy: Policy, acc: string, hash: string) returns (steps: seq<Step>, w: World)
    requires policy.issueInRevoke && acc != ""
    ensures Reached(fold, policy, steps) == Some(w) && w == LeftBehind(acc, hash)
  {
    assert Reached(fold, policy, []) == Some(START);
    hide Reached;
    steps, w := OneMore(fold, policy, [], Begin(B, Revoke(acc)), START);
    steps, w := OneMore(fold, policy, steps, Begin(A, Issue(acc, hash)), w);
    steps, w := OneMore(fold, policy, steps, Advance(A), w);
    steps, w := Interrupted(fold, policy, steps, w, acc, hash, PutNew(acc, hash));
  }

  /** The revocation runs to its end, and then the interrupted operation caches the session. */
  lemma Interrupted(fold: Fold, policy: Policy, steps: seq<Step>, w: World, acc: string, hash: string, put: Phase)
      returns (more: seq<Step>, r: World)
    requires Reached(fold, policy, steps) == Some(w) && acc != ""
    requires put == PutNew(acc, hash) || put == PutFound(hash, false, acc, Sessions.SESSION_TTL)
    requires w == START.(table := map[hash := Sessions.Row(acc, Sessions.SESSION_TTL)], owner := map[hash := acc],
                         busy := map[A := put, B := Delete(acc)])
    ensures Reached(fold, policy, more) == Some(r) && r == LeftBehind(acc, hash)
  {
    hide Reached;
    more, r := OneMore(fold, policy, steps, Advance(B), w);
    assert r.table == map[] && SessionsOf(fold, w, acc) == {hash};
    more, r := OneMore(fold, policy, more, Advance(B), r);
    assert r.busy == map[A := put];
    more, r := OneMore(fold, policy, more, Advance(A), r);
    assert r.busy == map[];
  }

  /** A session issued, at rest and, after a restart, no longer cached. */
  lemma IssuedBefore(fold: Fold, policy: Policy, acc: string, hash: string) returns (steps: seq<Step>, w: World)
    requires acc != ""
    ensures Reached(fold, policy, steps) == Some(w) && w == Issued(acc, hash).(cache := map[])
  {
    hide Reached;
    steps, w := IssueAlone(fold, policy, acc, hash);
    steps, w := OneMore(fold, policy, steps, Restart, w);
  }

  /** A revocation after a validation has found the row and before it caches the session. */
  lemma RevokeInValidate(fold: Fold, policy: Policy, acc: string, hash: string) returns (steps: seq<Step>, w: World)
    requires policy.revokeInValidate && acc != ""
    ensures Reached(fold, policy, steps) == Some(w) && w == LeftBehind(acc, hash)
  {
    hide Reached;
    steps, w := IssuedBefore(fold, policy, acc, hash);
    steps, w := OneMore(fold, policy, steps, Begin(A, Validate(hash)), w);
    steps, w := OneMore(fold, policy, steps, Advance(A), w);
    steps, w := OneMore(fold, policy, steps, Advance(A), w);
    steps, w := OneMore(fold, policy, steps, Advance(A), w);
    steps, w := OneMore(fold, policy, steps, Begin(B, Revoke(acc)), w);
    steps, w := Interrupted(fold, policy, steps, w, acc, hash, PutFound(hash, false, acc, Sessions.SESSION_TTL));
  }

  /** A validation that begins while its account is revoked, and finds the row still there. */
  lemma ValidateInRevoke(fold: Fold, policy: Policy, acc: string, hash: string) returns (steps: seq<Step>, w: World)
    requires policy.validateInRevoke && acc != ""
    ensures Reached(fold, policy, steps) == Some(w) && w == LeftBehind(acc, hash)
  {
    hide Reached;
    steps, w := IssuedBefore(fold, policy, acc, hash);
    steps, w := OneMore(fold, policy, steps, Begin(B, Revoke(acc)), w);
    steps, w := OneMore(fold, policy, steps, Begin(A, Validate(hash)), w);
    steps, w := OneMore(fold, policy, steps, Advance(A), w);
    steps, w := OneMore(fold, policy, steps, Advance(A), w);
    steps, w := OneMore(fold, policy, steps, Advance(A), w);
    steps, w := Interrupted(fold, policy, steps, w, acc, hash, PutFound(hash, false, acc, Sessions.SESSION_TTL));
  }

  /** The next validation lets the revoked session pass. */
  lemma NextPasses(fold: Fold, policy: Policy, before: seq<Step>, acc: string, hash: string)
      returns (steps: seq<Step>, w: World)
    requires Reached(fold, policy, before) == Some(LeftBehind(acc, hash))
    ensures Reached(fold, policy, steps) == Some(w) && w.passed == {hash}
  {
    hide Reached;
    steps, w := OneMore(fold, policy, before, Begin(A, Validate(hash)), LeftBehind(acc, hash));
    steps, w := OneMore(fold, policy, steps, Advance(A), w);
  }

  /** When a revoked session stays refused: in every interleaving that keeps to a policy no validation
      that begins after a revocation has returned lets one of its sessions pass, if and only if the
      policy lets neither an issue nor a validation overlap a revocation of the same account. */
  lemma RevokedRefusedIffAlone(fold: Fold, policy: Policy)
    ensures (forall steps :: Reached(fold, policy, steps).Some? ==> Reached(fold, policy, steps).value.passed == {})
            <==> RevokesAlone(policy)
  {
    hide Reached, LeftBehind;
    if RevokesAlone(policy) {
      forall steps | Reached(fold, policy, steps).Some?
        ensures Reached(fold, policy, steps).value.passed == {}
      {
        RunKeeps(fold, policy, steps);
      }
    } else {
      var steps, w;
      if policy.revokeInIssue {
        steps, w := RevokeInIssue(fold, policy, "a", "h");
      } else if policy.issueInRevoke {
        steps, w := IssueInRevoke(fold, policy, "a", "h");
      } else if policy.revokeInValidate {
        steps, w := RevokeInValidate(fold, policy, "a", "h");
      } else {
        steps, w := ValidateInRevoke(fold, policy, "a", "h");
      }
      steps, w := NextPasses(fold, policy, steps, "a", "h");
      assert w.passed != {};
    }
  }
}
