/** Routes of pending waves, and who gets a wave_ok. */
module HubRoutes {
  import opened PushHub

  /** A route taken out by `c` and not yet thanked for. */
  ghost predicate Taken(b: Book, c: ConnId, id: string, route: Route) {
    && route.rid in b.acked && b.acked[route.rid] == c && route.rid in b.recorded
    && b.recorded[route.rid].0 == route.sender && b.recorded[route.rid].2 == id
    && forall i :: 0 <= i < |b.oks| ==> b.oks[i].rid != route.rid
  }

  ghost predicate Holds(b: Book, c: ConnId, pc: Pc) {
    match pc
    case AckCheck(id, route) => Taken(b, c, id, route)
    case AckSend(id, route) => Taken(b, c, id, route)
    case _ => true
  }

  /** Pending routes are recorded and not yet acknowledged; every wave_ok was acknowledged, and no
      route has two. */
  ghost predicate BookInv(b: Book) {
    && (forall r :: r in b.recorded ==> r < b.nextRid)
    && (forall r :: r in b.acked ==> r in b.recorded)
    && (forall id :: id in b.pending ==>
          && b.pending[id].rid in b.recorded && b.pending[id].rid !in b.acked
          && b.recorded[b.pending[id].rid] == (b.pending[id].sender, b.pending[id].targetAcc, id))
    && (forall i :: 0 <= i < |b.oks| ==>
          && b.oks[i].rid in b.acked && b.oks[i].rid in b.recorded
          && b.recorded[b.oks[i].rid].0 == b.oks[i].recipient && b.recorded[b.oks[i].rid].2 == b.oks[i].id)
    && (forall i, j :: 0 <= i < j < |b.oks| ==> b.oks[i].rid != b.oks[j].rid)
  }

  lemma EnterKeeps(b: Book, c: ConnId, account: string, to: string, id: string, now: int)
    requires BookInv(b)
    ensures BookInv(Enter(b, c, account, to, id, now))
    ensures forall d, pc :: Holds(b, d, pc) ==> Holds(Enter(b, c, account, to, id, now), d, pc)
  {}

  lemma TakeOutKeeps(b: Book, c: ConnId, id: string)
    requires BookInv(b) && id in b.pending
    ensures BookInv(TakeOut(b, c, id)) && Taken(TakeOut(b, c, id), c, id, b.pending[id])
    ensures forall d, pc :: Holds(b, d, pc) ==> Holds(TakeOut(b, c, id), d, pc)
  {}

  /** Thanking uses the route up: nobody else holds it. */
  lemma ThankKeeps(b: Book, c: ConnId, id: string, route: Route)
    requires BookInv(b) && Taken(b, c, id, route)
    ensures var b1 := b.(oks := b.oks + [Ok(route.rid, route.sender, id)]);
            && BookInv(b1)
            && forall d, pc :: d != c && Holds(b, d, pc) ==> Holds(b1, d, pc)
  {}

  lemma ForgetKeeps(b: Book, ids: set<string>)
    requires BookInv(b)
    ensures BookInv(b.(pending := b.pending - ids))
    ensures forall d, pc :: Holds(b, d, pc) ==> Holds(b.(pending := b.pending - ids), d, pc)
  {}

  /** An acknowledgement came from a connection whose account is the route's target. */
  ghost predicate FromTarget(s: Hub, r: nat) {
    r in s.book.acked && r in s.book.recorded ==>
      Named(s, s.book.acked[r]) && s.acc[s.book.acked[r]] == s.book.recorded[r].1
  }

  ghost predicate RouteInv(s: Hub) {
    && BookInv(s.book) && s.acc.Keys == s.pc.Keys
    && (forall r :: FromTarget(s, r))
    && (forall c :: c in s.pc ==> Holds(s.book, c, s.pc[c]))
  }

  lemma RouteCalm(s: Hub, t: Hub, c: ConnId)
    requires RouteInv(s) && Calm(s, t, c)
    ensures RouteInv(t)
  {
    hide BookInv, Taken;
    forall r ensures FromTarget(t, r) {
      assert FromTarget(s, r);
    }
  }

  /** The book changes and the handler of `c` moves. */
  lemma RouteMove(s: Hub, t: Hub, c: ConnId)
    requires RouteInv(s) && Move(s, t, c) && BookInv(t.book) && Holds(t.book, c, t.pc[c])
    requires forall d :: d in s.pc && d != c ==> Holds(t.book, d, s.pc[d])
    requires forall r :: r in t.book.acked ==> r in t.book.recorded
    requires forall r :: r in t.book.acked ==>
               || (r in s.book.acked && r in s.book.recorded && t.book.acked[r] == s.book.acked[r]
                   && t.book.recorded[r] == s.book.recorded[r])
               || (t.book.acked[r] == c && s.acc[c] == t.book.recorded[r].1)
    ensures RouteInv(t)
  {
    hide BookInv, Taken, Holds;
    forall r ensures FromTarget(t, r) {
      assert FromTarget(s, r);
    }
  }

  lemma RouteRecord(s: Hub, c: ConnId, to: string, id: string, target: ConnId, now: int)
    requires RouteInv(s) && Has(s, c) && s.pc[c] == WaveRecord(to, id, target)
    ensures RouteInv(Record(s, c, to, id, target, now))
  {
    var t := Record(s, c, to, id, target, now);
    if id == "" || target !in s.acc {
      RouteCalm(s, t, c);
    } else {
      EnterKeeps(s.book, c, s.acc[target], to, id, now);
      assert t.pc[c] == WaveSend(to, id, target);
      assert t.book.acked == s.book.acked;
      assert forall r :: r in s.book.acked ==> r in s.book.recorded && t.book.recorded[r] == s.book.recorded[r];
      hide BookInv, Taken, Pruned, Move;
      RouteMove(s, t, c);
    }
  }

  lemma RouteTake(s: Hub, c: ConnId, id: string)
    requires RouteInv(s) && Has(s, c) && s.pc[c] == AckTake(id)
    ensures RouteInv(TakeRoute(s, c, id))
  {
    var t := TakeRoute(s, c, id);
    if id in s.book.pending && s.book.pending[id].targetAcc == s.acc[c] {
      TakeOutKeeps(s.book, c, id);
      assert t.pc[c] == AckCheck(id, s.book.pending[id]);
      assert t.book.recorded == s.book.recorded;
      assert forall r :: r in t.book.acked ==> r in s.book.recorded;
      assert s.book.recorded[s.book.pending[id].rid].1 == s.acc[c];
      hide BookInv, Taken, Move;
      RouteMove(s, t, c);
    } else {
      RouteCalm(s, t, c);
    }
  }

  lemma RouteCheck(s: Hub, c: ConnId, id: string, route: Route)
    requires RouteInv(s) && Has(s, c) && s.pc[c] == AckCheck(id, route)
    ensures RouteInv(CheckSender(s, c, id, route))
  {
    var t := CheckSender(s, c, id, route);
    assert Holds(s.book, c, AckCheck(id, route));
    assert forall r :: r in s.book.acked ==> r in s.book.recorded;
    hide BookInv, Taken, Move;
    RouteMove(s, t, c);
  }

  lemma RouteThank(s: Hub, c: ConnId, id: string, route: Route)
    requires RouteInv(s) && Has(s, c) && s.pc[c] == AckSend(id, route)
    ensures RouteInv(Thank(s, c, id, route))
  {
    var t := Thank(s, c, id, route);
    assert Holds(s.book, c, AckSend(id, route));
    ThankKeeps(s.book, c, id, route);
    assert forall r :: r in s.book.acked ==> r in s.book.recorded;
    hide BookInv, Taken, Move;
    RouteMove(s, t, c);
  }

  lemma RouteErase(s: Hub, c: ConnId, to: string, id: string)
    requires RouteInv(s) && Has(s, c) && s.pc[c] == WaveErase(to, id)
    ensures RouteInv(Erase(s, c, to, id))
  {
    var t := Erase(s, c, to, id);
    ForgetKeeps(s.book, NonEmpty(id));
    assert forall r :: r in s.book.acked ==> r in s.book.recorded;
    hide BookInv, Taken, Move;
    RouteMove(s, t, c);
  }

  lemma RouteStepped(s: Hub, c: ConnId, ok: bool, now: int)
    requires RouteInv(s) && Has(s, c)
    ensures RouteInv(Stepped(s, c, ok, now))
  {
    hide Displace, Check, Record, SendWave, Drop, Erase, Fail, TakeRoute, CheckSender, Thank, ThankAtOnce, Finish;
    hide RouteInv, Register, Unregister, Goto, Lookup, Move, Calm, OneHandler;
    var t := Stepped(s, c, ok, now);
    match s.pc[c] {
      case WaveRecord(to, id, target) => RouteRecord(s, c, to, id, target, now);
      case WaveErase(to, id) => RouteErase(s, c, to, id);
      case AckTake(id) => RouteTake(s, c, id);
      case AckCheck(id, route) => RouteCheck(s, c, id, route);
      case AckSend(id, route) => RouteThank(s, c, id, route);
      case Closing => RouteSame(s, Close(s, c)); RouteCalm(Close(s, c), t, c);
      case _ => if t != s { RouteCalm(s, t, c); }
    }
  }

  lemma RouteSame(s: Hub, t: Hub)
    requires RouteInv(s) && t.pc == s.pc && t.acc == s.acc && t.book == s.book
    ensures RouteInv(t)
  {
    hide BookInv, Taken, Holds;
    forall r ensures FromTarget(t, r) {
      assert FromTarget(s, r);
    }
  }

  lemma RouteDispatch(s: Hub, c: ConnId, frame: Frame)
    requires RouteInv(s) && Has(s, c) && s.pc[c].Reading?
    ensures RouteInv(Dispatch(s, c, frame))
  {
    hide RouteInv, Authenticate, AskWave, Goto, Truncate, Move, Calm, OneHandler;
    var t := Dispatch(s, c, frame);
    if t != s { RouteCalm(s, t, c); }
  }

  lemma RouteSpawned(s: Hub, ok: bool)
    requires RouteInv(s)
    ensures RouteInv(Spawned(s, ok))
  {
    if Spawned(s, ok) != s {
      assert s.accepter.c in s.acc;
      hide RouteInv, Calm;
      RouteCalm(s, Spawned(s, ok), s.accepter.c);
    }
  }

  lemma RouteKept(s: Hub, a: Action)
    requires RouteInv(s)
    ensures RouteInv(Apply(s, a))
  {
    hide Stepped, Dispatch, Reservation, Spawned, RouteInv, Calm, OneHandler;
    match a {
      case Advance(c, ok, now) => if Has(s, c) { RouteStepped(s, c, ok, now); }
      case Read(c, frame) => if Has(s, c) && s.pc[c].Reading? { RouteDispatch(s, c, frame); }
      case Reserve(c) => if Reservation(s, c) != s { RouteCalm(s, Reservation(s, c), c); }
      case Spawn(ok) => RouteSpawned(s, ok);
      case _ => RouteSame(s, Apply(s, a));
    }
  }

  lemma {:induction false} RouteRun(s: Hub, actions: seq<Action>)
    requires RouteInv(s)
    ensures RouteInv(Run(s, actions))
    decreases |actions|
  {
    hide RouteInv, Apply;
    if actions != [] {
      RouteKept(s, actions[0]);
      RouteRun(Apply(s, actions[0]), actions[1..]);
    }
  }

  lemma RouteStart(maxConns: nat)
    ensures RouteInv(Start(maxConns))
  {
    forall r ensures FromTarget(Start(maxConns), r) {}
  }

  /** In every interleaving each wave_ok for a nonempty id went to the connection whose wave recorded
      that route and id, after a wave_ack from a connection of the route's target account, and no
      route gave more than one. */
  lemma OksAreEarned(maxConns: nat, actions: seq<Action>)
    ensures var s := Run(Start(maxConns), actions);
            && (forall i :: 0 <= i < |s.book.oks| ==>
                  var ok := s.book.oks[i];
                  && ok.rid in s.book.recorded && ok.rid in s.book.acked && s.book.acked[ok.rid] in s.acc
                  && s.book.recorded[ok.rid] == (ok.recipient, s.acc[s.book.acked[ok.rid]], ok.id))
            && (forall i, j :: 0 <= i < j < |s.book.oks| ==> s.book.oks[i].rid != s.book.oks[j].rid)
  {
    hide Run, Start;
    RouteStart(maxConns);
    RouteRun(Start(maxConns), actions);
    var s := Run(Start(maxConns), actions);
    forall i | 0 <= i < |s.book.oks|
      ensures var ok := s.book.oks[i];
              && ok.rid in s.book.recorded && ok.rid in s.book.acked && s.book.acked[ok.rid] in s.acc
              && s.book.recorded[ok.rid] == (ok.recipient, s.acc[s.book.acked[ok.rid]], ok.id)
    {
      assert FromTarget(s, s.book.oks[i].rid);
    }
  }
}
