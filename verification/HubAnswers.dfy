/** Nothing is lost in the hub: in every interleaving every wave read is delivered or refused, and
    every acknowledgement taken is passed on, unless it still is in some handler's hands. */
module HubAnswers {
  import opened PushHub
  import opened HubRoutes

  // ---- waves

  ghost predicate InHands(s: Hub, id: string) {
    exists c :: c in s.pc && InFlight(s.pc[c]) == id
  }

  ghost predicate Told(s: Hub, id: string) {
    id in s.asked && id != "" ==> id in s.delivered || id in s.failed || InHands(s, id)
  }

  /** One handler moves: what it carried it still carries, has delivered or has refused. */
  ghost predicate Carries(s: Hub, t: Hub, c: ConnId) {
    && (forall d :: d in s.pc && d != c ==> d in t.pc && t.pc[d] == s.pc[d])
    && s.delivered <= t.delivered && s.failed <= t.failed
    && (c in s.pc && InFlight(s.pc[c]) != "" ==>
          || (c in t.pc && InFlight(t.pc[c]) == InFlight(s.pc[c]))
          || InFlight(s.pc[c]) in t.delivered || InFlight(s.pc[c]) in t.failed)
    && (forall id :: id in t.asked && id !in s.asked ==> c in t.pc && (id == "" || InFlight(t.pc[c]) == id))
  }

  lemma CarriedIsTold(s: Hub, t: Hub, c: ConnId, id: string)
    requires Carries(s, t, c) && Told(s, id)
    ensures Told(t, id)
  {
    hide InFlight;
    if id in s.asked && id != "" && InHands(s, id) {
      var d :| d in s.pc && InFlight(s.pc[d]) == id;
      if d != c {
        assert InFlight(t.pc[d]) == id;
      }
    }
  }

  lemma GoesOn(s: Hub, t: Hub, c: ConnId)
    requires t.asked == s.asked && t.delivered == s.delivered && t.failed == s.failed
    requires c in t.pc && t.pc == s.pc[c := t.pc[c]]
    requires c in s.pc ==> InFlight(s.pc[c]) == "" || InFlight(t.pc[c]) == InFlight(s.pc[c])
    ensures Carries(s, t, c)
  {}

  lemma SteppedCarries(s: Hub, c: ConnId, ok: bool, now: int)
    requires Has(s, c)
    ensures Carries(s, Stepped(s, c, ok, now), c)
  {
    hide Move, Calm, Tagged, OneHandler, Enter, TakeOut;
    match s.pc[c]
    case WaveSend(to, id, target) =>
    case WaveOffline(to, id) =>
    case WaveRefuse(to, id) =>
    case _ =>
      var t := Stepped(s, c, ok, now);
      StepTalk(s, c, ok, now);
      if t != s { GoesOn(s, t, c); }
  }

  /** The handler moves on with what it carries, or without anything. */
  ghost predicate Quiet(s: Hub, t: Hub, c: ConnId) {
    && t.asked == s.asked && t.delivered == s.delivered && t.failed == s.failed
    && (t == s || (c in s.pc && c in t.pc && t.pc == s.pc[c := t.pc[c]]
                   && (InFlight(s.pc[c]) == "" || InFlight(t.pc[c]) == InFlight(s.pc[c]))))
  }

  lemma CarryingIsQuiet(s: Hub, c: ConnId, ok: bool, now: int)
    requires Has(s, c)
    requires s.pc[c].WaveLookup? || s.pc[c].WaveCheck? || s.pc[c].WaveRecord? || s.pc[c].WaveDrop? || s.pc[c].WaveErase?
    ensures Quiet(s, Stepped(s, c, ok, now), c)
  {
    hide Move, Calm, Tagged, OneHandler, Enter;
  }

  lemma StepTalk(s: Hub, c: ConnId, ok: bool, now: int)
    requires Has(s, c) && !s.pc[c].WaveSend? && !s.pc[c].WaveOffline? && !s.pc[c].WaveRefuse?
    ensures Quiet(s, Stepped(s, c, ok, now), c)
  {
    if InFlight(s.pc[c]) != "" || s.pc[c].WaveErase? || s.pc[c].WaveRecord? {
      hide Stepped, Quiet;
      CarryingIsQuiet(s, c, ok, now);
    } else {
      hide Displace, Check, Record, SendWave, Drop, Erase, Fail, TakeRoute, CheckSender, ThankAtOnce, Finish;
      hide Register, Unregister, Goto, Lookup, Move, Calm, OneHandler;
    }
  }

  lemma DispatchCarries(s: Hub, c: ConnId, frame: Frame)
    requires Has(s, c) && s.pc[c].Reading?
    ensures Carries(s, Dispatch(s, c, frame), c)
  {
    hide Move, Calm, Tagged, OneHandler;
  }

  lemma AppliedCarries(s: Hub, a: Action) returns (c: ConnId)
    ensures Carries(s, Apply(s, a), c)
  {
    hide Move, Calm, Tagged, OneHandler, Stepped, Dispatch, InFlight;
    c := 0;
    match a
    case Advance(d, ok, now) => c := d; if Has(s, d) { SteppedCarries(s, d, ok, now); }
    case Read(d, frame) => c := d; if Has(s, d) && s.pc[d].Reading? { DispatchCarries(s, d, frame); }
    case Reserve(d) => c := d;
    case Spawn(ok) => if s.accepter.Starting? { c := s.accepter.c; SpawnCarries(s, ok); }
    case _ =>
  }

  lemma SpawnCarries(s: Hub, ok: bool)
    requires s.accepter.Starting?
    ensures Carries(s, Spawned(s, ok), s.accepter.c)
  {
    hide Move, Calm, Tagged, OneHandler;
  }

  lemma {:induction false} ToldKept(s: Hub, actions: seq<Action>, id: string)
    requires Told(s, id)
    ensures Told(Run(s, actions), id)
    decreases |actions|
  {
    hide Told, Apply, Carries;
    if actions != [] {
      var c := AppliedCarries(s, actions[0]);
      CarriedIsTold(s, Apply(s, actions[0]), c, id);
      ToldKept(Apply(s, actions[0]), actions[1..], id);
    }
  }

  /** No wave vanishes: in every interleaving each wave with an id that was read is in a handler's
      hands, or has been sent to its target in full, or has been refused. */
  lemma NoWaveVanishes(maxConns: nat, actions: seq<Action>, id: string)
    ensures var s := Run(Start(maxConns), actions);
            id in s.asked && id != "" ==> id in s.delivered || id in s.failed || InHands(s, id)
  {
    hide Run;
    assert Told(Start(maxConns), id);
    ToldKept(Start(maxConns), actions, id);
  }

  // ---- acknowledgements

  ghost predicate Thanked(s: Hub, rid: nat) {
    exists i :: 0 <= i < |s.book.oks| && s.book.oks[i].rid == rid
  }

  predicate Carried(pc: Pc, rid: nat, sender: ConnId) {
    || (pc.AckCheck? && pc.route.rid == rid && pc.route.sender == sender)
    || (pc.AckSend? && pc.route.rid == rid && pc.route.sender == sender)
  }

  ghost predicate BeingThanked(s: Hub, rid: nat) {
    rid in s.book.recorded && exists c :: c in s.pc && Carried(s.pc[c], rid, s.book.recorded[rid].0)
  }

  ghost predicate SenderGone(s: Hub, rid: nat) {
    rid in s.book.recorded && s.book.recorded[rid].0 in s.closed
  }

  ghost predicate PassedOn(s: Hub, rid: nat) {
    rid in s.book.acked ==> Thanked(s, rid) || BeingThanked(s, rid) || SenderGone(s, rid)
  }

  /** One handler moves: an acknowledgement it holds it still holds, has passed on, or its sender is
      gone; a new one it holds itself. */
  ghost predicate PassesOn(s: Hub, t: Hub, c: ConnId) {
    && (forall d :: d in s.pc && d != c ==> d in t.pc && t.pc[d] == s.pc[d])
    && s.book.oks <= t.book.oks && s.closed <= t.closed
    && (forall r :: r in s.book.recorded ==> r in t.book.recorded && t.book.recorded[r] == s.book.recorded[r])
    && (c in s.pc && s.pc[c].AckCheck? ==>
          s.pc[c].route.sender in t.closed || (c in t.pc && t.pc[c] == AckSend(s.pc[c].id, s.pc[c].route)))
    && (c in s.pc && s.pc[c].AckSend? ==>
          t.book.oks != s.book.oks && t.book.oks[|t.book.oks| - 1].rid == s.pc[c].route.rid)
    && (forall r :: r in t.book.acked && r !in s.book.acked ==> BeingThanked(t, r))
  }

  lemma PassedOnStays(s: Hub, t: Hub, c: ConnId, rid: nat)
    requires PassesOn(s, t, c) && PassedOn(s, rid)
    ensures PassedOn(t, rid)
  {
    if rid in s.book.acked {
      if Thanked(s, rid) {
        var i :| 0 <= i < |s.book.oks| && s.book.oks[i].rid == rid;
        assert t.book.oks[i] == s.book.oks[i];
      } else if BeingThanked(s, rid) {
        var d :| d in s.pc && Carried(s.pc[d], rid, s.book.recorded[rid].0);
        if d != c {
          assert Carried(t.pc[d], rid, t.book.recorded[rid].0);
        } else if s.pc[c].AckSend? {
          assert Thanked(t, rid);
        }
      }
    }
  }

  /** Anything a handler does that concerns no acknowledgement. */
  lemma Unconcerned(s: Hub, t: Hub, c: ConnId)
    requires t.book.oks == s.book.oks && t.book.acked == s.book.acked && s.closed <= t.closed
    requires forall r :: r in s.book.recorded ==> r in t.book.recorded && t.book.recorded[r] == s.book.recorded[r]
    requires t.pc == s.pc || (c in t.pc && t.pc == s.pc[c := t.pc[c]])
    requires c in s.pc ==> Ackless(s.pc[c])
    ensures PassesOn(s, t, c)
  {}

  ghost predicate SameAcks(s: Hub, t: Hub, c: ConnId) {
    && t.book.oks == s.book.oks && t.book.acked == s.book.acked && t.book.recorded == s.book.recorded
    && s.closed <= t.closed && (t.pc == s.pc || (c in t.pc && t.pc == s.pc[c := t.pc[c]]))
  }

  lemma ErasePassesOn(s: Hub, c: ConnId, ok: bool, now: int)
    requires Has(s, c) && (s.pc[c].WaveErase? || s.pc[c].Closing?)
    ensures SameAcks(s, Stepped(s, c, ok, now), c)
  {
    hide Move, Calm, Tagged, OneHandler;
  }

  predicate Waving(pc: Pc) {
    pc.WaveCheck? || pc.WaveOffline? || pc.WaveSend? || pc.WaveDrop? || pc.WaveRefuse? || pc.WaveThank?
  }

  lemma WavingUnconcerned(s: Hub, c: ConnId, ok: bool, now: int)
    requires Has(s, c) && Waving(s.pc[c])
    ensures SameAcks(s, Stepped(s, c, ok, now), c)
  {
    hide Check, SendWave, Drop, Fail, ThankAtOnce, Tagged;
  }

  lemma StepUnconcerned(s: Hub, c: ConnId, ok: bool, now: int)
    requires Has(s, c) && Ackless(s.pc[c]) && !s.pc[c].AckTake? && !s.pc[c].WaveRecord?
    ensures SameAcks(s, Stepped(s, c, ok, now), c)
  {
    if s.pc[c].WaveErase? || s.pc[c].Closing? {
      hide Stepped, SameAcks;
      ErasePassesOn(s, c, ok, now);
    } else if Waving(s.pc[c]) {
      hide Stepped, SameAcks;
      WavingUnconcerned(s, c, ok, now);
    } else {
      hide Displace, Finish, Register, Unregister, Goto, Lookup, Tagged;
    }
  }

  lemma RecordPassesOn(s: Hub, c: ConnId, ok: bool, now: int)
    requires RouteInv(s) && Has(s, c) && s.pc[c].WaveRecord?
    ensures PassesOn(s, Stepped(s, c, ok, now), c)
  {
    hide Move, Calm, Tagged, OneHandler, Pruned, Holds, Taken, FromTarget;
    assert BookInv(s.book);
    Unconcerned(s, Stepped(s, c, ok, now), c);
  }

  lemma TakenPassesOn(s: Hub, c: ConnId, id: string)
    requires BookInv(s.book) && Has(s, c) && s.pc[c] == AckTake(id)
    ensures PassesOn(s, TakeRoute(s, c, id), c)
  {
    hide Move, Calm, Tagged, OneHandler, Holds, Taken, FromTarget;
    var t := TakeRoute(s, c, id);
    if id in s.book.pending && s.book.pending[id].targetAcc == s.acc[c] {
      assert t.pc[c] == AckCheck(id, s.book.pending[id]);
      assert Carried(t.pc[c], s.book.pending[id].rid, s.book.pending[id].sender);
      assert BeingThanked(t, s.book.pending[id].rid);
    }
  }

  lemma TakePassesOn(s: Hub, c: ConnId, ok: bool, now: int)
    requires BookInv(s.book) && Has(s, c) && s.pc[c].AckTake?
    ensures PassesOn(s, Stepped(s, c, ok, now), c)
  {
    hide BookInv, PassesOn, TakeRoute, Displace, Check, Record, SendWave, Drop, Erase, Fail, CheckSender;
    hide Thank, ThankAtOnce, Finish, Register, Unregister, Goto, Lookup, Tagged, Move, Calm, OneHandler;
    TakenPassesOn(s, c, s.pc[c].id);
  }

  lemma AckPassesOn(s: Hub, c: ConnId, ok: bool, now: int)
    requires Has(s, c) && !Ackless(s.pc[c])
    ensures PassesOn(s, Stepped(s, c, ok, now), c)
  {
    hide Move, Calm, Tagged, OneHandler;
  }

  lemma RouteInvHasBook(s: Hub)
    requires RouteInv(s)
    ensures BookInv(s.book)
  {
    hide BookInv;
  }

  lemma StepPassesOn(s: Hub, c: ConnId, ok: bool, now: int)
    requires RouteInv(s) && Has(s, c)
    ensures PassesOn(s, Stepped(s, c, ok, now), c)
  {
    hide PassesOn, Stepped, RouteInv;
    if !Ackless(s.pc[c]) {
      AckPassesOn(s, c, ok, now);
    } else if s.pc[c].AckTake? {
      RouteInvHasBook(s);
      TakePassesOn(s, c, ok, now);
    } else if s.pc[c].WaveRecord? {
      RecordPassesOn(s, c, ok, now);
    } else {
      StepUnconcerned(s, c, ok, now);
      Unconcerned(s, Stepped(s, c, ok, now), c);
    }
  }

  lemma DispatchUnconcerned(s: Hub, c: ConnId, frame: Frame)
    requires Has(s, c) && s.pc[c].Reading?
    ensures SameAcks(s, Dispatch(s, c, frame), c)
  {
    hide Move, Calm, Tagged, OneHandler;
  }

  lemma DispatchPassesOn(s: Hub, c: ConnId, frame: Frame)
    requires Has(s, c) && s.pc[c].Reading?
    ensures PassesOn(s, Dispatch(s, c, frame), c)
  {
    hide Dispatch, PassesOn;
    DispatchUnconcerned(s, c, frame);
    Unconcerned(s, Dispatch(s, c, frame), c);
  }

  lemma SpawnPassesOn(s: Hub, ok: bool)
    requires s.accepter.Starting?
    ensures PassesOn(s, Spawned(s, ok), s.accepter.c) || Spawned(s, ok) == s
  {
    hide Move, Calm, Tagged, OneHandler;
  }

  lemma NothingPassesOn(s: Hub, c: ConnId)
    requires c !in s.pc
    ensures PassesOn(s, s, c)
  {}

  lemma FreshId(s: Hub) returns (c: ConnId)
    ensures c !in s.pc
  {
    c := FreshAbove(s.pc.Keys);
  }

  lemma {:induction false} FreshAbove(ids: set<ConnId>) returns (c: ConnId)
    ensures forall d :: d in ids ==> d < c
    decreases |ids|
  {
    if ids == {} {
      c := 0;
    } else {
      var d :| d in ids;
      var e := FreshAbove(ids - {d});
      c := if d < e then e else d + 1;
      assert forall x :: x in ids ==> x == d || x in ids - {d};
    }
  }

  lemma AppliedPassesOn(s: Hub, a: Action) returns (c: ConnId)
    requires RouteInv(s)
    ensures PassesOn(s, Apply(s, a), c)
  {
    hide Move, Calm, Tagged, OneHandler, Stepped, Dispatch, RouteInv, PassesOn;
    c := FreshId(s);
    NothingPassesOn(s, c);
    match a
    case Advance(d, ok, now) => if Has(s, d) { c := d; StepPassesOn(s, d, ok, now); }
    case Read(d, frame) => if Has(s, d) && s.pc[d].Reading? { c := d; DispatchPassesOn(s, d, frame); }
    case Reserve(d) => if Reservation(s, d) != s { c := d; Unconcerned(s, Apply(s, a), d); }
    case Spawn(ok) =>
      if s.accepter.Starting? {
        SpawnPassesOn(s, ok);
        c := if Spawned(s, ok) == s then c else s.accepter.c;
      }
    case _ => Unconcerned(s, Apply(s, a), c);
  }

  lemma {:induction false} PassedOnKept(s: Hub, actions: seq<Action>, rid: nat)
    requires RouteInv(s) && PassedOn(s, rid)
    ensures PassedOn(Run(s, actions), rid)
    decreases |actions|
  {
    hide PassedOn, Apply, PassesOn, RouteInv;
    if actions != [] {
      var c := AppliedPassesOn(s, actions[0]);
      PassedOnStays(s, Apply(s, actions[0]), c, rid);
      RouteKept(s, actions[0]);
      PassedOnKept(Apply(s, actions[0]), actions[1..], rid);
    }
  }

  /** No acknowledgement is lost: in every interleaving each route taken out by an acknowledgement has
      been thanked for, or is about to be, or its sender's connection is closed. */
  lemma NoAckIsLost(maxConns: nat, actions: seq<Action>, rid: nat)
    ensures var s := Run(Start(maxConns), actions);
            rid in s.book.acked ==> Thanked(s, rid) || BeingThanked(s, rid) || SenderGone(s, rid)
  {
    hide Run, RouteInv;
    RouteStart(maxConns);
    PassedOnKept(Start(maxConns), actions, rid);
  }
}
