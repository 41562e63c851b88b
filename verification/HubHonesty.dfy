/** With honest clients, wave_ok and wave_fail exclude each other. */
module HubHonesty {
  import opened PushHub


  /** Clients number their waves freshly and acknowledge only waves that were sent. */
  predicate Honest(s: Hub, a: Action) {
    match a
    case Read(c, Wave(to, id)) => Truncate(id) == "" || Truncate(id) !in s.asked
    case Read(c, WaveAck(id)) => id == "" || id in s.delivered
    case _ => true
  }

  ghost predicate HonestRun(s: Hub, actions: seq<Action>)
    decreases |actions|
  {
    actions == [] || (Honest(s, actions[0]) && HonestRun(Apply(s, actions[0]), actions[1..]))
  }

  /** An id in a handler's hands is asked for and undecided; an acknowledged one was sent. */
  predicate Decided(s: Hub, pc: Pc) {
    && (InFlight(pc) == "" || (InFlight(pc) in s.asked && InFlight(pc) !in s.delivered && InFlight(pc) !in s.failed))
    && Acking(pc) <= s.delivered
  }

  ghost predicate HonestInv(s: Hub) {
    && (forall c :: c in s.pc ==> Decided(s, s.pc[c]))
    && (forall c, d :: c in s.pc && d in s.pc && c != d ==>
          InFlight(s.pc[c]) == "" || InFlight(s.pc[c]) != InFlight(s.pc[d]))
    && s.failed <= s.asked && s.delivered - {""} <= s.asked && s.failed !! s.delivered - {""} && "" !in s.failed
    && (forall i :: 0 <= i < |s.book.oks| ==> s.book.oks[i].id in s.delivered)
  }

  lemma HonestTagged(s: Hub, t: Hub, c: ConnId, flight: string, ack: set<string>)
    requires HonestInv(s) && Tagged(s, t, c, flight, ack)
    requires flight == "" || (c in s.pc && flight == InFlight(s.pc[c]))
    requires ack <= s.delivered
    ensures HonestInv(t)
  {}

  lemma HonestAsk(s: Hub, c: ConnId, to: string, id: string)
    requires HonestInv(s) && Has(s, c) && Busy(s.pc[c]) && (id == "" || id !in s.asked)
    ensures HonestInv(AskWave(s, c, to, id))
  {
    hide Move, Calm;
  }

  lemma HonestSend(s: Hub, c: ConnId, to: string, id: string, target: ConnId, ok: bool)
    requires HonestInv(s) && Has(s, c) && s.pc[c] == WaveSend(to, id, target)
    ensures HonestInv(SendWave(s, c, to, id, target, ok))
  {
    hide Move, Calm;
  }

  lemma HonestFail(s: Hub, c: ConnId, to: string, id: string)
    requires HonestInv(s) && Has(s, c) && Busy(s.pc[c]) && InFlight(s.pc[c]) == id
    ensures HonestInv(Fail(s, c, to, id))
  {
    hide Move, Calm;
  }

  lemma HonestThank(s: Hub, c: ConnId, id: string, route: Route)
    requires HonestInv(s) && Has(s, c) && s.pc[c] == AckSend(id, route)
    ensures HonestInv(Thank(s, c, id, route))
  {
    hide Move, Calm;
    assert Acking(s.pc[c]) == {id} && Decided(s, s.pc[c]);
  }

  lemma HonestSame(s: Hub, t: Hub)
    requires HonestInv(s) && t.pc == s.pc && t.book.oks == s.book.oks
    requires t.asked == s.asked && t.delivered == s.delivered && t.failed == s.failed
    ensures HonestInv(t)
  {}

  /** The handler carries a wave it is not about to send or refuse. */
  predicate Carrying(pc: Pc) {
    pc.WaveLookup? || pc.WaveCheck? || pc.WaveRecord? || pc.WaveDrop? || pc.WaveErase?
  }

  lemma HonestCarrying(s: Hub, c: ConnId, ok: bool, now: int)
    requires HonestInv(s) && Has(s, c) && Carrying(s.pc[c])
    ensures HonestInv(Stepped(s, c, ok, now))
  {
    hide Displace, Check, Record, SendWave, Drop, Erase, Fail, TakeRoute, CheckSender, Thank, ThankAtOnce, Finish;
    hide HonestInv, Register, Unregister, Goto, Lookup, Move, Calm, OneHandler, Tagged;
    var t := Stepped(s, c, ok, now);
    HonestTagged(s, t, c, s.pc[c].id, {});
  }

  lemma HonestAcking(s: Hub, c: ConnId, ok: bool, now: int)
    requires HonestInv(s) && Has(s, c) && (s.pc[c].AckTake? || s.pc[c].AckCheck? || s.pc[c].AckSend?)
    ensures HonestInv(Stepped(s, c, ok, now))
  {
    hide Displace, Check, Record, SendWave, Drop, Erase, Fail, TakeRoute, CheckSender, Thank, ThankAtOnce, Finish;
    assert Acking(s.pc[c]) <= s.delivered;
    hide HonestInv, Register, Unregister, Goto, Lookup, Move, Calm, OneHandler, Tagged;
    var t := Stepped(s, c, ok, now);
    if s.pc[c].AckSend? {
      HonestThank(s, c, s.pc[c].id, s.pc[c].route);
    } else {
      HonestTagged(s, t, c, "", {s.pc[c].id});
    }
  }

  lemma HonestSettling(s: Hub, c: ConnId, ok: bool, now: int)
    requires HonestInv(s) && Has(s, c) && (s.pc[c].WaveSend? || s.pc[c].WaveOffline? || s.pc[c].WaveRefuse?)
    ensures HonestInv(Stepped(s, c, ok, now))
  {
    hide SendWave, Fail, HonestInv;
    if s.pc[c].WaveSend? {
      HonestSend(s, c, s.pc[c].to, s.pc[c].id, s.pc[c].target, ok);
    } else {
      HonestFail(s, c, s.pc[c].to, s.pc[c].id);
    }
  }

  predicate HandlingWave(pc: Pc) {
    Carrying(pc) || pc.AckTake? || pc.AckCheck? || pc.AckSend? || pc.WaveSend? || pc.WaveOffline? || pc.WaveRefuse?
  }

  lemma HonestElsewhere(s: Hub, c: ConnId, ok: bool, now: int)
    requires HonestInv(s) && Has(s, c) && !HandlingWave(s.pc[c])
    ensures HonestInv(Stepped(s, c, ok, now))
  {
    hide Displace, Check, Record, SendWave, Drop, Erase, Fail, TakeRoute, CheckSender, Thank, ThankAtOnce, Finish;
    hide HonestInv, Register, Unregister, Goto, Lookup, Move, Calm, OneHandler, Tagged;
    var t := Stepped(s, c, ok, now);
    if s.pc[c].Closing? {
      HonestSame(s, Close(s, c));
      HonestTagged(Close(s, c), t, c, "", {});
    } else if t != s {
      HonestTagged(s, t, c, "", {});
    }
  }

  lemma HonestStepped(s: Hub, c: ConnId, ok: bool, now: int)
    requires HonestInv(s) && Has(s, c)
    ensures HonestInv(Stepped(s, c, ok, now))
  {
    hide HonestInv, Stepped, Carrying;
    var pc := s.pc[c];
    if Carrying(pc) {
      HonestCarrying(s, c, ok, now);
    } else if pc.AckTake? || pc.AckCheck? || pc.AckSend? {
      HonestAcking(s, c, ok, now);
    } else if pc.WaveSend? || pc.WaveOffline? || pc.WaveRefuse? {
      HonestSettling(s, c, ok, now);
    } else {
      HonestElsewhere(s, c, ok, now);
    }
  }

  lemma HonestDispatch(s: Hub, c: ConnId, frame: Frame)
    requires HonestInv(s) && Has(s, c) && s.pc[c].Reading? && Honest(s, Read(c, frame))
    ensures HonestInv(Dispatch(s, c, frame))
  {
    hide HonestInv, Authenticate, AskWave, Goto, Truncate, Move, Calm, OneHandler, Tagged;
    var t := Dispatch(s, c, frame);
    if s.pc[c].authed && frame.Wave? {
      HonestAsk(s, c, frame.to, Truncate(frame.id));
    } else if t != s {
      HonestTagged(s, t, c, "", if s.pc[c].authed && frame.WaveAck? then {frame.id} else {});
    }
  }

  lemma HonestKept(s: Hub, a: Action)
    requires HonestInv(s) && Honest(s, a)
    ensures HonestInv(Apply(s, a))
  {
    hide Stepped, Dispatch, Reservation, Spawned, HonestInv, Tagged, Calm, OneHandler;
    match a {
      case Advance(c, ok, now) => if Has(s, c) { HonestStepped(s, c, ok, now); }
      case Read(c, frame) => if Has(s, c) && s.pc[c].Reading? { HonestDispatch(s, c, frame); }
      case Reserve(c) => if Reservation(s, c) != s { HonestTagged(s, Reservation(s, c), c, "", {}); }
      case Spawn(ok) => if Spawned(s, ok) != s { HonestTagged(s, Spawned(s, ok), s.accepter.c, "", {}); }
      case _ => HonestSame(s, Apply(s, a));
    }
  }

  lemma {:induction false} HonestRunKeeps(s: Hub, actions: seq<Action>)
    requires HonestInv(s) && HonestRun(s, actions)
    ensures HonestInv(Run(s, actions))
    decreases |actions|
  {
    hide HonestInv, Apply, Honest;
    if actions != [] {
      HonestKept(s, actions[0]);
      HonestRunKeeps(Apply(s, actions[0]), actions[1..]);
    }
  }

  /** With fresh ids and clients that acknowledge only waves that were sent, no interleaving gives
      one wave both wave_ok and wave_fail. */
  lemma NoOkAndFail(maxConns: nat, actions: seq<Action>)
    requires HonestRun(Start(maxConns), actions)
    ensures var s := Run(Start(maxConns), actions);
            forall i :: 0 <= i < |s.book.oks| ==> s.book.oks[i].id !in s.failed
  {
    hide Run, HonestRun;
    assert HonestInv(Start(maxConns));
    HonestRunKeeps(Start(maxConns), actions);
  }
}
