/** The push hub: one accept thread and one handler thread per connection, sharing the map of
    registered connections and the table of waves waiting for the receiver's acknowledgement.

    A step is one lock region, one atomic operation or one send. `Apply` takes one step of any
    thread; the theorems are about every state any interleaving can reach. */
module PushHub {
  import opened Results

  type ConnId = nat

  /** A recorded wave; `rid` numbers the recordings and exists for the proofs only. */
  datatype Route = Route(sender: ConnId, targetAcc: string, to: string, createdAt: int, rid: nat)

  /** Where a connection's handler is. */
  datatype Pc =
    | Spawning                                         // counted, thread not yet started
    | Reading(authed: bool)                            // top of the loop
    | Registering                                      // acc is set
    | Displacing(prior: Option<ConnId>)                  // in the map, the old one not yet closed
    | AuthReply
    | WaveLookup(to: string, id: string)
    | WaveCheck(to: string, id: string, found: Option<ConnId>)
    | WaveOffline(to: string, id: string)              // about to send wave_fail "offline"
    | WaveRecord(to: string, id: string, target: ConnId)
    | WaveSend(to: string, id: string, target: ConnId)
    | WaveDrop(to: string, id: string, target: ConnId) // the send failed; about to close the target
    | WaveErase(to: string, id: string)
    | WaveRefuse(to: string, id: string)               // about to send wave_fail "send failed"
    | WaveThank(to: string, id: string)                // old clients: no id, ok at once
    | AckTake(id: string)
    | AckCheck(id: string, route: Route)
    | AckSend(id: string, route: Route)
    | Leaving
    | Unregistering
    | Closing
    | Ending                                           // handle_client returned
    | Finished                                         // no longer counted
    | SpawnFailed                                      // thread creation threw; no longer counted

  /** The accept thread. */
  datatype Accepter = Polling | Admitted | Starting(c: ConnId)

  datatype Ok = Ok(rid: nat, recipient: ConnId, id: string)

  /** The table of pending waves, with the history of what became of them. */
  datatype Book = Book(
    pending: map<string, Route>,
    nextRid: nat,
    // history, read by no step
    recorded: map<nat, (ConnId, string, string)>,  // rid -> (sender, target account, id)
    acked: map<nat, ConnId>,                       // rid -> connection whose wave_ack took it
    oks: seq<Ok>)                                  // wave_ok sends for nonempty ids

  /** A frame about a wave, handed to a connection; a wave itself only counts when it went out in full. */
  datatype Message =
    | WaveTo(to: ConnId, from: string, id: string)
    | WaveOk(to: ConnId, id: string, account: string)
    | WaveFail(to: ConnId, id: string, account: string)

  datatype Hub = Hub(
    pc: map<ConnId, Pc>,            // accepted connections and where their handlers are
    acc: map<ConnId, string>,       // their accounts, empty until authenticated
    closed: set<ConnId>,
    byAcc: map<string, ConnId>,
    book: Book,
    active: int,
    maxConns: nat,
    accepter: Accepter,
    running: bool,
    stopping: set<ConnId>,          // taken out of the map by stop(), about to be closed
    // history, read by no step
    asked: set<string>,                            // nonempty ids of waves read
    delivered: set<string>,                        // ids of waves sent in full
    failed: set<string>,                           // nonempty ids of wave_fail sends
    sends: seq<Message>)                           // all of them, in order

  /** What a handler reads. `Auth` carries the outcome of validating the session. */
  datatype Frame =
    | NoFrame                                      // closed, idle, malformed or not accepted
    | Auth(acc: Option<string>)
    | Ping(sent: bool)
    | Other                                        // ack, presence or an unknown type
    | Wave(to: string, id: string)
    | WaveAck(id: string)

  datatype Action =
    | Admit                                        // active.load() < max_conns?
    | Reserve(c: ConnId)
    | Spawn(ok: bool)
    | Read(c: ConnId, frame: Frame)
    | Advance(c: ConnId, ok: bool, now: int)       // ok: outcome of a send; now: the clock
    | DropAfterPush(c: ConnId)                     // a failed push closes its connection
    | StopRequest
    | StopTake
    | StopClose(c: ConnId)

  predicate Has(s: Hub, c: ConnId) {
    c in s.pc && c in s.acc
  }

  function Start(maxConns: nat): Hub {
    Hub(map[], map[], {}, map[], Book(map[], 0, map[], map[], []), 0, maxConns, Polling, true, {}, {}, {}, {}, [])
  }

  function Close(s: Hub, c: ConnId): Hub {
    s.(closed := s.closed + {c})
  }

  function Truncate(id: string): string {
    if |id| > 64 then id[..64] else id
  }

  function NonEmpty(id: string): set<string> {
    if id == "" then {} else {id}
  }

  /** The handler is past registration and has not yet unregistered. */
  predicate InCare(pc: Pc) {
    match pc
    case Spawning => false
    case Reading(authed) => authed
    case Registering => false
    case SpawnFailed => false
    case Closing => false
    case Ending => false
    case Finished => false
    case _ => true
  }

  predicate Unnamed(pc: Pc) {
    pc.Spawning? || pc == Reading(false)
  }

  predicate Busy(pc: Pc) {
    InCare(pc) && !pc.Displacing?
  }

  /** A step of `c` that leaves map, accounts and counter alone and keeps `c` in care. */
  ghost predicate Move(s: Hub, t: Hub, c: ConnId) {
    && c in s.pc && c in t.pc && t.pc == s.pc[c := t.pc[c]]
    && (InCare(s.pc[c]) || Unnamed(s.pc[c])) && Busy(t.pc[c])
    && (s.pc[c].Displacing? && s.pc[c].prior.Some? ==> s.pc[c].prior.value in t.closed)
    && t.acc == s.acc && t.byAcc == s.byAcc && s.closed <= t.closed
    && t.active == s.active && t.maxConns == s.maxConns && t.accepter == s.accepter
    && t.running == s.running && t.stopping == s.stopping
  }

  /** Only the handler of `c` moves, and it was not displacing anyone. */
  ghost predicate OneHandler(s: Hub, t: Hub, c: ConnId) {
    && c in t.pc && t.pc == s.pc[c := t.pc[c]] && (c in s.pc ==> !s.pc[c].Displacing?)
    && c in t.acc && t.acc == s.acc[c := t.acc[c]]
    && s.closed <= t.closed && t.stopping == s.stopping && t.maxConns == s.maxConns
  }

  ghost predicate Named(s: Hub, c: ConnId) {
    c in s.pc && c in s.acc && !Unnamed(s.pc[c])
  }

  predicate Ackless(pc: Pc) {
    !pc.AckCheck? && !pc.AckSend?
  }

  /** Nothing about routes changes; the handler of `c` moves to a place without a route. */
  ghost predicate Calm(s: Hub, t: Hub, c: ConnId) {
    && t.book == s.book
    && c in t.pc && t.pc == s.pc[c := t.pc[c]] && Ackless(t.pc[c])
    && c in t.acc && t.acc == s.acc[c := t.acc[c]]
    && (Named(s, c) ==> t.acc[c] == s.acc[c] && !Unnamed(t.pc[c]))
  }

  /** The id of the wave this handler is dealing with and has neither sent nor refused. */
  function InFlight(pc: Pc): string {
    match pc
    case WaveLookup(_, id) => id
    case WaveCheck(_, id, _) => id
    case WaveOffline(_, id) => id
    case WaveRecord(_, id, _) => id
    case WaveSend(_, id, _) => id
    case WaveDrop(_, id, _) => id
    case WaveErase(_, id) => id
    case WaveRefuse(_, id) => id
    case _ => ""
  }

  /** The id, if any, that this handler's client has acknowledged. */
  function Acking(pc: Pc): set<string> {
    match pc
    case AckTake(id) => {id}
    case AckCheck(id, _) => {id}
    case AckSend(id, _) => {id}
    case _ => {}
  }

  /** Only the handler of `c` moves, with at most these ids; nothing is asked, sent or refused. */
  ghost predicate Tagged(s: Hub, t: Hub, c: ConnId, flight: string, ack: set<string>) {
    && t.asked == s.asked && t.delivered == s.delivered && t.failed == s.failed && t.book.oks == s.book.oks
    && c in t.pc && t.pc == s.pc[c := t.pc[c]]
    && InFlight(t.pc[c]) in {"", flight} && Acking(t.pc[c]) <= ack
  }

  function Goto(s: Hub, c: ConnId, next: Pc): (t: Hub)
    ensures c in s.pc && (Busy(s.pc[c]) || Unnamed(s.pc[c])) && Busy(next) ==> Move(s, t, c)
    ensures t.byAcc == s.byAcc && t.maxConns == s.maxConns
    ensures c in s.acc && Ackless(next) && !Unnamed(next) ==> Calm(s, t, c)
    ensures Tagged(s, t, c, InFlight(next), Acking(next))
  {
    s.(pc := s.pc[c := next])
  }

  function Admission(s: Hub): Hub {
    if s.accepter.Polling? && s.running && s.active < s.maxConns then s.(accepter := Admitted) else s
  }

  function Reservation(s: Hub, c: ConnId): (t: Hub)
    ensures t == s || (OneHandler(s, t, c) && Calm(s, t, c) && Tagged(s, t, c, "", {}))
  {
    if s.accepter.Admitted? && c !in s.pc then
      s.(pc := s.pc[c := Spawning], acc := s.acc[c := ""], active := s.active + 1, accepter := Starting(c))
    else s
  }

  /** Thread creation succeeds, or throws and gives the reservation back. */
  function Spawned(s: Hub, ok: bool): (t: Hub)
    ensures t != s ==> s.accepter.Starting?
    ensures t != s && s.accepter.c in s.acc ==> OneHandler(s, t, s.accepter.c) && Calm(s, t, s.accepter.c)
    ensures t != s ==> s.accepter.c in s.pc && Tagged(s, t, s.accepter.c, "", {})
  {
    if s.accepter.Starting? && s.accepter.c in s.pc && s.pc[s.accepter.c].Spawning? then
      var c := s.accepter.c;
      assert Unnamed(s.pc[c]);
      if ok then Goto(s.(accepter := Polling), c, Reading(false))
      else Goto(Close(s.(accepter := Polling, active := s.active - 1), c), c, SpawnFailed)
    else s
  }

  /** The first frame must authenticate. */
  function Authenticate(s: Hub, c: ConnId, frame: Frame): (t: Hub)
    requires Has(s, c) && s.pc[c] == Reading(false)
    ensures OneHandler(s, t, c)
    ensures Calm(s, t, c)
    ensures Tagged(s, t, c, "", {})
  {
    match frame
    case Auth(Some(account)) =>
      if account == "" then Goto(s, c, Leaving) else Goto(s.(acc := s.acc[c := account]), c, Registering)
    case _ => Goto(s, c, Leaving)
  }

  function AskWave(s: Hub, c: ConnId, to: string, id: string): (t: Hub)
    requires Has(s, c) && Busy(s.pc[c])
    ensures t == s || (Move(s, t, c) && Calm(s, t, c))
  {
    if to == "" || to == s.acc[c] then s
    else Goto(s.(asked := s.asked + NonEmpty(id)), c, WaveLookup(to, id))
  }

  /** Dispatch on the frame read at the top of the loop. */
  function Dispatch(s: Hub, c: ConnId, frame: Frame): Hub
    requires Has(s, c) && s.pc[c].Reading?
  {
    if frame.NoFrame? then Goto(s, c, Leaving)
    else if !s.pc[c].authed then Authenticate(s, c, frame)
    else
      match frame
      case Ping(sent) => if sent then s else Goto(s, c, Leaving)
      case Wave(to, id) => AskWave(s, c, to, Truncate(id))
      case WaveAck(id) => if id == "" then s else Goto(s, c, AckTake(id))
      case _ => s
  }

  function Register(s: Hub, c: ConnId): (t: Hub)
    requires Has(s, c) && s.pc[c].Registering?
    ensures OneHandler(s, t, c)
    ensures Calm(s, t, c)
    ensures Tagged(s, t, c, "", {})
  {
    var account := s.acc[c];
    var prior := if account in s.byAcc && s.byAcc[account] != c then Some(s.byAcc[account]) else None;
    Goto(s.(byAcc := s.byAcc[account := c]), c, Displacing(prior))
  }

  function Displace(s: Hub, c: ConnId, prior: Option<ConnId>): (t: Hub)
    requires Has(s, c) && s.pc[c] == Displacing(prior)
    ensures Move(s, t, c)
    ensures Calm(s, t, c)
    ensures Tagged(s, t, c, "", {})
  {
    Goto(if prior.Some? then Close(s, prior.value) else s, c, AuthReply)
  }

  /** Only the entry that still holds this connection is erased. */
  function Unregister(s: Hub, c: ConnId): (t: Hub)
    requires Has(s, c) && s.pc[c].Unregistering?
    ensures OneHandler(s, t, c)
    ensures Calm(s, t, c)
    ensures Tagged(s, t, c, "", {})
  {
    var account := s.acc[c];
    Goto(if account != "" && account in s.byAcc && s.byAcc[account] == c then s.(byAcc := s.byAcc - {account}) else s,
         c, Closing)
  }

  function Lookup(s: Hub, to: string): Option<ConnId> {
    if to in s.byAcc then Some(s.byAcc[to]) else None
  }

  function Check(s: Hub, c: ConnId, to: string, id: string, found: Option<ConnId>): (t: Hub)
    requires Has(s, c) && Busy(s.pc[c])
    ensures Move(s, t, c)
    ensures Calm(s, t, c)
    ensures Tagged(s, t, c, id, {})
  {
    Goto(s, c, if found.None? || found.value in s.closed || found.value !in s.acc then WaveOffline(to, id)
               else WaveRecord(to, id, found.value))
  }

  function Pruned(pending: map<string, Route>, cutoff: int): map<string, Route> {
    map id | id in pending && pending[id].createdAt >= cutoff :: pending[id]
  }

  /** Stale entries go, then this wave's route is entered, replacing any of the same id. */
  function Enter(b: Book, c: ConnId, account: string, to: string, id: string, now: int): Book {
    Book(Pruned(b.pending, now - 60)[id := Route(c, account, to, now, b.nextRid)], b.nextRid + 1,
         b.recorded[b.nextRid := (c, account, id)], b.acked, b.oks)
  }

  function Record(s: Hub, c: ConnId, to: string, id: string, target: ConnId, now: int): (t: Hub)
    requires Has(s, c) && Busy(s.pc[c])
    ensures Move(s, t, c)
    ensures Tagged(s, t, c, id, {})
  {
    if id == "" || target !in s.acc then Goto(s, c, WaveSend(to, id, target))
    else Goto(s.(book := Enter(s.book, c, s.acc[target], to, id, now)), c, WaveSend(to, id, target))
  }

  function SendWave(s: Hub, c: ConnId, to: string, id: string, target: ConnId, ok: bool): (t: Hub)
    requires Has(s, c) && Busy(s.pc[c])
    ensures Move(s, t, c)
    ensures Calm(s, t, c)
  {
    if !ok || target !in s.acc then Goto(s, c, WaveDrop(to, id, target))
    else Goto(s.(delivered := s.delivered + {id}, sends := s.sends + [WaveTo(target, s.acc[c], id)]), c,
              if id == "" then WaveThank(to, id) else Reading(true))
  }

  function Drop(s: Hub, c: ConnId, to: string, id: string, target: ConnId): (t: Hub)
    requires Has(s, c) && Busy(s.pc[c])
    ensures Move(s, t, c)
    ensures Calm(s, t, c)
    ensures Tagged(s, t, c, id, {})
  {
    Goto(Close(s, target), c, WaveErase(to, id))
  }

  function Erase(s: Hub, c: ConnId, to: string, id: string): (t: Hub)
    requires Has(s, c) && Busy(s.pc[c])
    ensures Move(s, t, c)
    ensures Tagged(s, t, c, id, {})
  {
    Goto(s.(book := s.book.(pending := s.book.pending - NonEmpty(id))), c, WaveRefuse(to, id))
  }

  function Fail(s: Hub, c: ConnId, to: string, id: string): (t: Hub)
    requires Has(s, c) && Busy(s.pc[c])
    ensures Move(s, t, c)
    ensures Calm(s, t, c)
  {
    Goto(s.(failed := s.failed + NonEmpty(id), sends := s.sends + [WaveFail(c, id, to)]), c, Reading(true))
  }

  function TakeOut(b: Book, c: ConnId, id: string): Book
    requires id in b.pending
  {
    b.(pending := b.pending - {id}, acked := b.acked[b.pending[id].rid := c])
  }

  /** The acknowledged route is taken out only by a connection of its target account. */
  function TakeRoute(s: Hub, c: ConnId, id: string): (t: Hub)
    requires Has(s, c) && Busy(s.pc[c])
    ensures Move(s, t, c)
    ensures Tagged(s, t, c, "", {id})
  {
    if id in s.book.pending && s.book.pending[id].targetAcc == s.acc[c] then
      Goto(s.(book := TakeOut(s.book, c, id)), c, AckCheck(id, s.book.pending[id]))
    else Goto(s, c, Reading(true))
  }

  /** A freed sender counts as closed: its handler closed it before it ended. */
  function CheckSender(s: Hub, c: ConnId, id: string, route: Route): (t: Hub)
    requires Has(s, c) && Busy(s.pc[c])
    ensures Move(s, t, c)
    ensures Tagged(s, t, c, "", {id})
  {
    Goto(s, c, if route.sender in s.closed then Reading(true) else AckSend(id, route))
  }

  function Thank(s: Hub, c: ConnId, id: string, route: Route): (t: Hub)
    requires Has(s, c) && Busy(s.pc[c])
    ensures Move(s, t, c)
  {
    Goto(s.(book := s.book.(oks := s.book.oks + [Ok(route.rid, route.sender, id)]),
            sends := s.sends + [WaveOk(route.sender, id, route.to)]), c, Reading(true))
  }

  function ThankAtOnce(s: Hub, c: ConnId, to: string, id: string): (t: Hub)
    requires Has(s, c) && Busy(s.pc[c])
    ensures Move(s, t, c)
    ensures Calm(s, t, c)
    ensures Tagged(s, t, c, "", {})
  {
    Goto(s.(sends := s.sends + [WaveOk(c, id, to)]), c, Reading(true))
  }

  function Finish(s: Hub, c: ConnId): (t: Hub)
    requires Has(s, c) && s.pc[c].Ending?
    ensures OneHandler(s, t, c)
    ensures Calm(s, t, c)
    ensures Tagged(s, t, c, "", {})
  {
    Goto(s.(active := s.active - 1), c, Finished)
  }

  /** The next atomic step of the handler of `c`. */
  function Stepped(s: Hub, c: ConnId, ok: bool, now: int): Hub
    requires Has(s, c)
  {
    match s.pc[c]
    case Reading(_) => if !s.running || c in s.closed then Goto(s, c, Leaving) else s
    case Registering => Register(s, c)
    case Displacing(prior) => Displace(s, c, prior)
    case AuthReply => Goto(s, c, if ok then Reading(true) else Leaving)
    case WaveLookup(to, id) => Goto(s, c, WaveCheck(to, id, Lookup(s, to)))
    case WaveCheck(to, id, found) => Check(s, c, to, id, found)
    case WaveOffline(to, id) => Fail(s, c, to, id)
    case WaveRecord(to, id, target) => Record(s, c, to, id, target, now)
    case WaveSend(to, id, target) => SendWave(s, c, to, id, target, ok)
    case WaveDrop(to, id, target) => Drop(s, c, to, id, target)
    case WaveErase(to, id) => Erase(s, c, to, id)
    case WaveRefuse(to, id) => Fail(s, c, to, id)
    case WaveThank(to, id) => ThankAtOnce(s, c, to, id)
    case AckTake(id) => TakeRoute(s, c, id)
    case AckCheck(id, route) => CheckSender(s, c, id, route)
    case AckSend(id, route) => Thank(s, c, id, route)
    case Leaving => Goto(s, c, Unregistering)
    case Unregistering => Unregister(s, c)
    case Closing => Goto(Close(s, c), c, Ending)
    case Ending => Finish(s, c)
    case _ => s
  }

  function TakeAll(s: Hub): Hub {
    if s.running then s else s.(stopping := s.stopping + s.byAcc.Values, byAcc := map[])
  }

  function Apply(s: Hub, a: Action): Hub {
    match a
    case Admit => Admission(s)
    case Reserve(c) => Reservation(s, c)
    case Spawn(ok) => Spawned(s, ok)
    case Read(c, frame) => if Has(s, c) && s.pc[c].Reading? then Dispatch(s, c, frame) else s
    case Advance(c, ok, now) => if Has(s, c) then Stepped(s, c, ok, now) else s
    case DropAfterPush(c) => Close(s, c)
    case StopRequest => s.(running := false)
    case StopTake => TakeAll(s)
    case StopClose(c) => if c in s.stopping then Close(s, c).(stopping := s.stopping - {c}) else s
  }

  function Run(s: Hub, actions: seq<Action>): Hub
    decreases |actions|
  {
    if actions == [] then s else Run(Apply(s, actions[0]), actions[1..])
  }
}
