/** The map of registered connections and the connection counter, in every reachable state of the hub. */
module HubRegistry {
  import opened Results
  import opened PushHub

  /** Every entry names a connection authenticated as its key whose handler has not left. */
  ghost predicate MapInv(s: Hub) {
    && s.acc.Keys == s.pc.Keys
    && (forall k :: k in s.byAcc ==>
          s.byAcc[k] in s.pc && s.acc[s.byAcc[k]] == k && k != "" && InCare(s.pc[s.byAcc[k]]))
    && (forall c :: c in s.pc && s.pc[c].Registering? ==> s.acc[c] != "")
    && (forall c :: c in s.pc && Unnamed(s.pc[c]) ==> s.acc[c] == "")
  }

  /** A handler is about to close `c` because it took its place in the map. */
  ghost predicate BeingDisplaced(s: Hub, c: ConnId) {
    exists d :: d in s.pc && s.pc[d] == Displacing(Some(c))
  }

  /** An authenticated connection is the registered one of its account, or closed, or about to be
      closed by the connection that displaced it or by stop(). */
  ghost predicate Settled(s: Hub, c: ConnId) {
    c in s.pc && c in s.acc && s.acc[c] != "" && InCare(s.pc[c]) ==>
      || (s.acc[c] in s.byAcc && s.byAcc[s.acc[c]] == c)
      || c in s.closed || c in s.stopping || BeingDisplaced(s, c)
  }

  predicate IsCounted(pc: Pc) {
    !pc.Finished? && !pc.SpawnFailed?
  }

  /** Accepted connections whose handler has not finished. */
  ghost function Counted(s: Hub): set<ConnId> {
    set c | c in s.pc && IsCounted(s.pc[c])
  }

  ghost predicate CountInv(s: Hub) {
    && s.active == |Counted(s)| <= s.maxConns
    && (s.accepter.Admitted? ==> s.active < s.maxConns)
  }

  ghost predicate Inv(s: Hub) {
    MapInv(s) && (forall c :: Settled(s, c)) && CountInv(s)
  }

  lemma InvMove(s: Hub, t: Hub, c: ConnId)
    requires Inv(s) && Move(s, t, c)
    ensures Inv(t)
  {
    assert CountInv(t) by {
      hide MapInv, Settled;
      assert Counted(t) == Counted(s);
    }
    assert MapInv(t) by {
      hide CountInv, Settled;
    }
    hide CountInv, MapInv, Move, Settled;
    forall d ensures Settled(t, d) {
      assert Settled(s, d);
      MoveSettles(s, t, c, d);
    }
  }

  lemma MoveSettles(s: Hub, t: Hub, c: ConnId, d: ConnId)
    requires Move(s, t, c) && MapInv(s) && Settled(s, d)
    ensures Settled(t, d)
  {
    if BeingDisplaced(s, d) {
      var e :| e in s.pc && s.pc[e] == Displacing(Some(d));
      assert e != c ==> t.pc[e] == Displacing(Some(d));
    }
  }

  /** A step that moves no handler: connections may get closed, stop() may be under way. */
  lemma InvStill(s: Hub, t: Hub)
    requires Inv(s) && t.pc == s.pc && t.acc == s.acc && t.byAcc == s.byAcc && s.closed <= t.closed
    requires forall c :: c in s.stopping ==> c in t.stopping || c in t.closed
    requires t.active == s.active && t.maxConns == s.maxConns && t.accepter == s.accepter
    ensures Inv(t)
  {
    assert Counted(t) == Counted(s);
    forall d ensures Settled(t, d) {
      assert Settled(s, d);
      if BeingDisplaced(s, d) {
        var e :| e in s.pc && s.pc[e] == Displacing(Some(d));
        assert t.pc[e] == Displacing(Some(d));
      }
    }
  }

  lemma Displaces(t: Hub, c: ConnId, d: ConnId)
    requires c in t.pc && t.pc[c] == Displacing(Some(d))
    ensures BeingDisplaced(t, d)
  {}

  /** A displacement under way in `s` is still under way, or its handler was `c`. */
  lemma StillDisplaced(s: Hub, t: Hub, c: ConnId, d: ConnId)
    requires BeingDisplaced(s, d) && OneHandler(s, t, c)
    ensures BeingDisplaced(t, d)
  {
    var e :| e in s.pc && s.pc[e] == Displacing(Some(d));
    assert t.pc[e] == Displacing(Some(d));
  }

  /** A settled connection other than `c` stays so, if it is still its account's entry or `c` has
      just displaced it. */
  lemma SettledUpdate(s: Hub, t: Hub, c: ConnId, d: ConnId)
    requires Settled(s, d) && OneHandler(s, t, c) && d != c
    requires forall k :: k in s.byAcc && s.byAcc[k] == d ==>
          (k in t.byAcc && t.byAcc[k] == d) || t.pc[c] == Displacing(Some(d))
    ensures Settled(t, d)
  {
    hide BeingDisplaced;
    if BeingDisplaced(s, d) { StillDisplaced(s, t, c, d); }
    if t.pc[c] == Displacing(Some(d)) { Displaces(t, c, d); }
  }

  ghost function Weight(pc: Pc): int {
    if IsCounted(pc) then 1 else 0
  }

  lemma CountUpdate(s: Hub, t: Hub, c: ConnId)
    requires OneHandler(s, t, c)
    ensures |Counted(t)| == |Counted(s)| + Weight(t.pc[c]) - (if c in s.pc then Weight(s.pc[c]) else 0)
  {
    if IsCounted(t.pc[c]) {
      assert Counted(t) == Counted(s) + {c};
    } else {
      assert Counted(t) == Counted(s) - {c};
    }
  }

  lemma InvUpdate(s: Hub, t: Hub, c: ConnId)
    requires Inv(s) && MapInv(t) && OneHandler(s, t, c) && Settled(t, c)
    requires forall k :: k in s.byAcc && s.byAcc[k] != c ==>
               (k in t.byAcc && t.byAcc[k] == s.byAcc[k]) || t.pc[c] == Displacing(Some(s.byAcc[k]))
    requires t.active == s.active + Weight(t.pc[c]) - (if c in s.pc then Weight(s.pc[c]) else 0)
    requires t.active <= t.maxConns && (t.accepter.Admitted? ==> t.active < t.maxConns)
    ensures Inv(t)
  {
    CountUpdate(s, t, c);
    hide MapInv, Counted, Weight;
    forall d ensures Settled(t, d) {
      if d != c {
        assert Settled(s, d);
        hide Settled, OneHandler;
        SettledUpdate(s, t, c, d);
      }
    }
  }

  lemma MapInvRegister(s: Hub, c: ConnId)
    requires MapInv(s) && Has(s, c) && s.pc[c].Registering?
    ensures MapInv(Register(s, c))
  {}

  lemma InvRegister(s: Hub, c: ConnId)
    requires Inv(s) && Has(s, c) && s.pc[c].Registering?
    ensures Inv(Register(s, c))
  {
    MapInvRegister(s, c);
    assert s.active <= s.maxConns && (s.accepter.Admitted? ==> s.active < s.maxConns);
    hide Inv, MapInv, BeingDisplaced, Counted, OneHandler;
    InvUpdate(s, Register(s, c), c);
  }

  lemma MapInvUnregister(s: Hub, c: ConnId)
    requires MapInv(s) && Has(s, c) && s.pc[c].Unregistering?
    ensures MapInv(Unregister(s, c))
  {}

  lemma InvUnregister(s: Hub, c: ConnId)
    requires Inv(s) && Has(s, c) && s.pc[c].Unregistering?
    ensures Inv(Unregister(s, c))
  {
    MapInvUnregister(s, c);
    assert s.active <= s.maxConns && (s.accepter.Admitted? ==> s.active < s.maxConns);
    hide Inv, MapInv, BeingDisplaced, Counted, OneHandler;
    InvUpdate(s, Unregister(s, c), c);
  }

  /** Past unregistering no entry names the connection, so it may end. */
  lemma MapInvLeave(s: Hub, t: Hub, c: ConnId)
    requires MapInv(s) && Has(s, c) && !InCare(s.pc[c])
    requires t.acc == s.acc && t.byAcc == s.byAcc && (t.pc == s.pc[c := Ending] || t.pc == s.pc[c := Finished])
    ensures MapInv(t)
  {}

  lemma InvClose(s: Hub, c: ConnId)
    requires Inv(s) && Has(s, c) && s.pc[c].Closing?
    ensures Inv(Goto(Close(s, c), c, Ending))
  {
    var t := Goto(Close(s, c), c, Ending);
    MapInvLeave(s, t, c);
    assert OneHandler(s, t, c);
    assert s.active <= s.maxConns && (s.accepter.Admitted? ==> s.active < s.maxConns);
    hide Inv, MapInv, BeingDisplaced, Counted, OneHandler;
    InvUpdate(s, t, c);
  }

  lemma InvFinish(s: Hub, c: ConnId)
    requires Inv(s) && Has(s, c) && s.pc[c].Ending?
    ensures Inv(Finish(s, c))
  {
    MapInvLeave(s, Finish(s, c), c);
    assert s.active <= s.maxConns && (s.accepter.Admitted? ==> s.active < s.maxConns);
    hide Inv, MapInv, BeingDisplaced, Counted, OneHandler;
    InvUpdate(s, Finish(s, c), c);
  }

  lemma MapInvAuthenticate(s: Hub, c: ConnId, frame: Frame)
    requires MapInv(s) && Has(s, c) && s.pc[c] == Reading(false)
    ensures MapInv(Authenticate(s, c, frame))
  {}

  lemma InvAuthenticate(s: Hub, c: ConnId, frame: Frame)
    requires Inv(s) && Has(s, c) && s.pc[c] == Reading(false)
    ensures Inv(Authenticate(s, c, frame))
  {
    MapInvAuthenticate(s, c, frame);
    assert s.acc[c] == "";
    assert s.active <= s.maxConns && (s.accepter.Admitted? ==> s.active < s.maxConns);
    hide Inv, MapInv, BeingDisplaced, Counted, OneHandler;
    InvUpdate(s, Authenticate(s, c, frame), c);
  }

  lemma MapInvReserve(s: Hub, c: ConnId)
    requires MapInv(s)
    ensures MapInv(Reservation(s, c))
  {}

  lemma InvReserve(s: Hub, c: ConnId)
    requires Inv(s)
    ensures Inv(Reservation(s, c))
  {
    MapInvReserve(s, c);
    if Reservation(s, c) != s {
      assert c !in s.acc;
      assert s.active <= s.maxConns && (s.accepter.Admitted? ==> s.active < s.maxConns);
      hide Inv, MapInv, BeingDisplaced, Counted, OneHandler;
      InvUpdate(s, Reservation(s, c), c);
    }
  }

  lemma MapInvSpawned(s: Hub, ok: bool)
    requires MapInv(s)
    ensures MapInv(Spawned(s, ok))
  {}

  /** A thread that could not be started is uncounted again. */
  lemma InvSpawned(s: Hub, ok: bool)
    requires Inv(s)
    ensures Inv(Spawned(s, ok))
  {
    MapInvSpawned(s, ok);
    if Spawned(s, ok) != s {
      assert s.accepter.c in s.acc;
      assert s.active <= s.maxConns && (s.accepter.Admitted? ==> s.active < s.maxConns);
      hide Inv, MapInv, BeingDisplaced, Counted, OneHandler;
      InvUpdate(s, Spawned(s, ok), s.accepter.c);
    }
  }

  lemma InvTakeAll(s: Hub)
    requires Inv(s)
    ensures Inv(TakeAll(s))
  {
    var t := TakeAll(s);
    assert Counted(t) == Counted(s);
    forall d ensures Settled(t, d) {
      assert Settled(s, d);
      if BeingDisplaced(s, d) {
        var e :| e in s.pc && s.pc[e] == Displacing(Some(d));
        assert t.pc[e] == Displacing(Some(d));
      }
    }
  }

  lemma InvDispatch(s: Hub, c: ConnId, frame: Frame)
    requires Inv(s) && Has(s, c) && s.pc[c].Reading?
    ensures Inv(Dispatch(s, c, frame))
  {
    hide Inv, Authenticate, AskWave, Goto, Truncate, Move;
    var t := Dispatch(s, c, frame);
    if !frame.NoFrame? && s.pc[c] == Reading(false) {
      InvAuthenticate(s, c, frame);
    } else if t != s {
      InvMove(s, t, c);
    }
  }

  lemma InvStepped(s: Hub, c: ConnId, ok: bool, now: int)
    requires Inv(s) && Has(s, c)
    ensures Inv(Stepped(s, c, ok, now))
  {
    hide Displace, Check, Record, SendWave, Drop, Erase, Fail, TakeRoute, CheckSender, Thank, ThankAtOnce, Finish;
    hide Inv, Register, Unregister, Goto, Lookup, Move;
    var pc := s.pc[c];
    var t := Stepped(s, c, ok, now);
    if pc.Registering? {
      InvRegister(s, c);
    } else if pc.Unregistering? {
      InvUnregister(s, c);
    } else if pc.Closing? {
      InvClose(s, c);
    } else if pc.Ending? {
      InvFinish(s, c);
    } else if t != s {
      InvMove(s, t, c);
    }
  }

  lemma InvKept(s: Hub, a: Action)
    requires Inv(s)
    ensures Inv(Apply(s, a))
  {
    hide Stepped, Dispatch, Reservation, Spawned, TakeAll, Inv;
    match a {
      case Advance(c, ok, now) => if Has(s, c) { InvStepped(s, c, ok, now); }
      case Read(c, frame) => if Has(s, c) && s.pc[c].Reading? { InvDispatch(s, c, frame); }
      case Reserve(c) => InvReserve(s, c);
      case Spawn(ok) => InvSpawned(s, ok);
      case StopTake => InvTakeAll(s);
      case Admit => InvAdmission(s);
      case _ => InvStill(s, Apply(s, a));
    }
  }

  lemma InvAdmission(s: Hub)
    requires Inv(s)
    ensures Inv(Admission(s))
  {
    InvStill(s, Admission(s).(accepter := s.accepter));
    var t := Admission(s);
    assert Counted(t) == Counted(s);
    forall d ensures Settled(t, d) {
      assert Settled(s, d);
      if BeingDisplaced(s, d) {
        var e :| e in s.pc && s.pc[e] == Displacing(Some(d));
        assert t.pc[e] == Displacing(Some(d));
      }
    }
  }

  lemma InvStart(maxConns: nat)
    ensures Inv(Start(maxConns))
  {
    assert Counted(Start(maxConns)) == {};
  }

  lemma {:induction false} InvRun(s: Hub, actions: seq<Action>)
    requires Inv(s)
    ensures Inv(Run(s, actions))
    decreases |actions|
  {
    hide Inv, Apply;
    if actions != [] {
      InvKept(s, actions[0]);
      InvRun(Apply(s, actions[0]), actions[1..]);
    }
  }

  lemma Reached(maxConns: nat, actions: seq<Action>)
    ensures Inv(Run(Start(maxConns), actions))
  {
    hide Inv;
    InvStart(maxConns);
    InvRun(Start(maxConns), actions);
  }

  /** In every interleaving each entry of the map is a connection authenticated as its key whose
      handler is still running. */
  lemma EntriesAreTheirKeys(maxConns: nat, actions: seq<Action>)
    ensures var s := Run(Start(maxConns), actions);
            forall k :: k in s.byAcc ==> Has(s, s.byAcc[k]) && s.acc[s.byAcc[k]] == k && InCare(s.pc[s.byAcc[k]])
  {
    hide Run, Start;
    Reached(maxConns, actions);
  }

  lemma EntriesStepped(s: Hub, c: ConnId, ok: bool, now: int)
    requires Has(s, c)
    ensures Stepped(s, c, ok, now).maxConns == s.maxConns
    ensures !s.pc[c].Registering? && !s.pc[c].Unregistering? ==> Stepped(s, c, ok, now).byAcc == s.byAcc
  {
    hide Displace, Check, Record, SendWave, Drop, Erase, Fail, TakeRoute, CheckSender, Thank, Lookup, Goto;
    hide Calm, Register, Unregister;
  }

  lemma EntriesDispatched(s: Hub, c: ConnId, frame: Frame)
    requires Has(s, c) && s.pc[c].Reading?
    ensures Dispatch(s, c, frame).byAcc == s.byAcc && Dispatch(s, c, frame).maxConns == s.maxConns
  {
    hide Truncate, Goto, AskWave;
  }

  /** An entry changes only when its own connection unregisters, when a connection of the same
      account registers, or when stop() empties the map: never by a displaced one's cleanup. */
  lemma EntryKeptUnless(s: Hub, a: Action, k: string)
    requires k in s.byAcc
    ensures || (k in Apply(s, a).byAcc && Apply(s, a).byAcc[k] == s.byAcc[k])
            || a.StopTake?
            || (a.Advance? && Has(s, a.c) && s.pc[a.c].Registering? && s.acc[a.c] == k)
            || (a.Advance? && a.c == s.byAcc[k] && Has(s, a.c) && s.pc[a.c].Unregistering?)
  {
    hide Dispatch, Stepped;
    match a {
      case Advance(c, ok, now) =>
        if Has(s, c) {
          EntriesStepped(s, c, ok, now);
          EntryRegistrations(s, c, ok, now, k);
        }
      case Read(c, frame) => if Has(s, c) && s.pc[c].Reading? { EntriesDispatched(s, c, frame); }
      case _ =>
    }
  }

  lemma EntryRegistrations(s: Hub, c: ConnId, ok: bool, now: int, k: string)
    requires Has(s, c) && k in s.byAcc
    ensures s.pc[c].Registering? && s.acc[c] != k ==>
              k in Stepped(s, c, ok, now).byAcc && Stepped(s, c, ok, now).byAcc[k] == s.byAcc[k]
    ensures s.pc[c].Unregistering? && s.byAcc[k] != c ==>
              k in Stepped(s, c, ok, now).byAcc && Stepped(s, c, ok, now).byAcc[k] == s.byAcc[k]
  {
    hide Displace, Check, Record, SendWave, Drop, Erase, Fail, TakeRoute, CheckSender, Thank, Lookup, Goto;
  }

  /** Two open connections of one account are never both settled in. */
  lemma OneOpenPerAccount(maxConns: nat, actions: seq<Action>, c: ConnId, d: ConnId)
    ensures var s := Run(Start(maxConns), actions);
            Has(s, c) && Has(s, d) && c != d && s.acc[c] == s.acc[d] != "" && InCare(s.pc[c]) && InCare(s.pc[d]) ==>
              || c in s.closed || c in s.stopping || BeingDisplaced(s, c)
              || d in s.closed || d in s.stopping || BeingDisplaced(s, d)
  {
    hide Run, Start;
    Reached(maxConns, actions);
    var s := Run(Start(maxConns), actions);
    assert Settled(s, c) && Settled(s, d);
  }

  /** The counter is the number of accepted connections whose handler has not finished, also when
      threads fail to start, and it never exceeds the bound. */
  lemma CounterIsExact(maxConns: nat, actions: seq<Action>)
    ensures var s := Run(Start(maxConns), actions);
            s.active == |Counted(s)| && s.active <= maxConns
  {
    hide Run, Start;
    Reached(maxConns, actions);
    BoundKept(Start(maxConns), actions);
    StartBound(maxConns);
  }

  lemma StartBound(maxConns: nat)
    ensures Start(maxConns).maxConns == maxConns
  {}

  lemma {:induction false} BoundKept(s: Hub, actions: seq<Action>)
    ensures Run(s, actions).maxConns == s.maxConns
    decreases |actions|
  {
    if actions != [] {
      BoundKeptOnce(s, actions[0]);
      hide Apply;
      BoundKept(Apply(s, actions[0]), actions[1..]);
    }
  }

  lemma BoundKeptOnce(s: Hub, a: Action)
    ensures Apply(s, a).maxConns == s.maxConns
  {
    hide Dispatch, Stepped;
    match a {
      case Advance(c, ok, now) => if Has(s, c) { EntriesStepped(s, c, ok, now); }
      case Read(c, frame) => if Has(s, c) && s.pc[c].Reading? { EntriesDispatched(s, c, frame); }
      case _ =>
    }
  }
}
