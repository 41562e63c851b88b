/** What a client gets for each thing it does: connecting, waving, acknowledging and leaving, followed
    from the first frame to the last step of its handler. */
module HubFlow {
  import opened Results
  import opened PushHub

  /** Steps of the handler of `c`, all sends with this outcome, at this time. */
  function Steps(c: ConnId, n: nat, ok: bool, now: int): (r: seq<Action>)
    ensures |r| == n && forall i :: 0 <= i < n ==> r[i] == Advance(c, ok, now)
  {
    seq(n, _ => Advance(c, ok, now))
  }

  function After(s: Hub, c: ConnId, n: nat, ok: bool, now: int): Hub
    decreases n
  {
    if n == 0 then s else After(Apply(s, Advance(c, ok, now)), c, n - 1, ok, now)
  }

  lemma {:induction false} RunSteps(s: Hub, c: ConnId, n: nat, ok: bool, now: int)
    ensures Run(s, Steps(c, n, ok, now)) == After(s, c, n, ok, now)
    decreases n
  {
    hide Apply;
    if n > 0 {
      assert Steps(c, n, ok, now)[1..] == Steps(c, n - 1, ok, now);
      RunSteps(Apply(s, Advance(c, ok, now)), c, n - 1, ok, now);
    }
  }

  /** A frame read at the top of the loop, and `n` steps that deal with it. */
  lemma RunFrame(s: Hub, c: ConnId, frame: Frame, n: nat, ok: bool, now: int)
    ensures Run(s, [Read(c, frame)] + Steps(c, n, ok, now)) == After(Apply(s, Read(c, frame)), c, n, ok, now)
  {
    hide Apply;
    var actions := [Read(c, frame)] + Steps(c, n, ok, now);
    assert actions[1..] == Steps(c, n, ok, now);
    RunSteps(Apply(s, Read(c, frame)), c, n, ok, now);
  }

  /** One step, of which only the result is known. */
  lemma OneStep(s: Hub, c: ConnId, n: nat, ok: bool, now: int)
    requires n > 0
    ensures After(s, c, n, ok, now) == After(Apply(s, Advance(c, ok, now)), c, n - 1, ok, now)
  {
    hide Apply;
  }

  lemma NoStep(s: Hub, c: ConnId, ok: bool, now: int)
    ensures After(s, c, 0, ok, now) == s
  {}

  /** The hub with the handler of `c` elsewhere. */
  function At(s: Hub, c: ConnId, place: Pc): Hub {
    s.(pc := s.pc[c := place])
  }

  lemma AtHome(s: Hub, c: ConnId)
    requires c in s.pc
    ensures At(s, c, s.pc[c]) == s
  {
    assert s.pc[c := s.pc[c]] == s.pc;
  }

  /** The handler of `c` waits at the top of its loop for an authenticated client. */
  predicate Idle(s: Hub, c: ConnId) {
    Has(s, c) && s.pc[c] == Reading(true)
  }

  predicate Open(s: Hub, to: string) {
    to in s.byAcc && s.byAcc[to] !in s.closed
  }

  /** Ids are cut to 64 characters. */
  function Cut(id: string): string {
    if |id| <= 64 then id else id[..64]
  }

  // ---- single steps of a wave

  lemma ReadWave(s: Hub, c: ConnId, to: string, id: string)
    requires Idle(s, c) && to != "" && to != s.acc[c]
    ensures Apply(s, Read(c, Wave(to, id))) ==
              At(s.(asked := if id == "" then s.asked else s.asked + {Cut(id)}), c, WaveLookup(to, Cut(id)))
  {
    hide Move, Calm, Tagged, OneHandler;
  }

  lemma LookUp(s: Hub, c: ConnId, to: string, id: string, ok: bool, now: int)
    requires Has(s, c)
    ensures Apply(At(s, c, WaveLookup(to, id)), Advance(c, ok, now)) ==
              At(s, c, WaveCheck(to, id, if to in s.byAcc then Some(s.byAcc[to]) else None))
  {
    hide Move, Calm, Tagged, OneHandler;
    assert s.pc[c := WaveLookup(to, id)][c := WaveCheck(to, id, Lookup(s, to))]
        == s.pc[c := WaveCheck(to, id, Lookup(s, to))];
  }

  lemma CheckTarget(s: Hub, c: ConnId, to: string, id: string, found: Option<ConnId>, ok: bool, now: int)
    requires Has(s, c) && (found.Some? ==> found.value in s.acc)
    ensures Apply(At(s, c, WaveCheck(to, id, found)), Advance(c, ok, now)) ==
              At(s, c, if found.Some? && found.value !in s.closed then WaveRecord(to, id, found.value)
                       else WaveOffline(to, id))
  {
    hide Move, Calm, Tagged, OneHandler;
    var next := if found.Some? && found.value !in s.closed then WaveRecord(to, id, found.value)
                else WaveOffline(to, id);
    assert s.pc[c := WaveCheck(to, id, found)][c := next] == s.pc[c := next];
  }

  lemma RecordRoute(s: Hub, c: ConnId, to: string, id: string, d: ConnId, ok: bool, now: int)
    requires Has(s, c) && d in s.acc
    ensures Apply(At(s, c, WaveRecord(to, id, d)), Advance(c, ok, now)) ==
              At(s.(book := if id == "" then s.book else Enter(s.book, c, s.acc[d], to, id, now)), c,
                 WaveSend(to, id, d))
  {
    hide Move, Calm, Tagged, OneHandler, Enter;
    assert s.pc[c := WaveRecord(to, id, d)][c := WaveSend(to, id, d)] == s.pc[c := WaveSend(to, id, d)];
  }

  lemma SendWaveOut(s: Hub, c: ConnId, to: string, id: string, d: ConnId, now: int)
    requires Has(s, c) && d in s.acc
    ensures Apply(At(s, c, WaveSend(to, id, d)), Advance(c, true, now)) ==
              At(s.(delivered := s.delivered + {id}, sends := s.sends + [WaveTo(d, s.acc[c], id)]), c,
                 if id == "" then WaveThank(to, id) else Reading(true))
  {
    hide Move, Calm, Tagged, OneHandler;
    var next := if id == "" then WaveThank(to, id) else Reading(true);
    assert s.pc[c := WaveSend(to, id, d)][c := next] == s.pc[c := next];
  }

  lemma SendBreaks(s: Hub, c: ConnId, to: string, id: string, d: ConnId, now: int)
    requires Has(s, c)
    ensures Apply(At(s, c, WaveSend(to, id, d)), Advance(c, false, now)) == At(s, c, WaveDrop(to, id, d))
  {
    hide Move, Calm, Tagged, OneHandler;
    assert s.pc[c := WaveSend(to, id, d)][c := WaveDrop(to, id, d)] == s.pc[c := WaveDrop(to, id, d)];
  }

  lemma DropTarget(s: Hub, c: ConnId, to: string, id: string, d: ConnId, ok: bool, now: int)
    requires Has(s, c)
    ensures Apply(At(s, c, WaveDrop(to, id, d)), Advance(c, ok, now)) ==
              At(s.(closed := s.closed + {d}), c, WaveErase(to, id))
  {
    hide Move, Calm, Tagged, OneHandler;
    assert s.pc[c := WaveDrop(to, id, d)][c := WaveErase(to, id)] == s.pc[c := WaveErase(to, id)];
  }

  lemma EraseRoute(s: Hub, c: ConnId, to: string, id: string, ok: bool, now: int)
    requires Has(s, c) && id != ""
    ensures Apply(At(s, c, WaveErase(to, id)), Advance(c, ok, now)) ==
              At(s.(book := s.book.(pending := s.book.pending - {id})), c, WaveRefuse(to, id))
  {
    hide Move, Calm, Tagged, OneHandler;
    assert s.pc[c := WaveErase(to, id)][c := WaveRefuse(to, id)] == s.pc[c := WaveRefuse(to, id)];
  }

  lemma SendRefusal(s: Hub, c: ConnId, to: string, id: string, place: Pc, ok: bool, now: int)
    requires Has(s, c) && (place == WaveOffline(to, id) || place == WaveRefuse(to, id))
    ensures Apply(At(s, c, place), Advance(c, ok, now)) ==
              At(s.(failed := if id == "" then s.failed else s.failed + {id},
                    sends := s.sends + [WaveFail(c, id, to)]), c, Reading(true))
  {
    hide Move, Calm, Tagged, OneHandler;
    assert s.pc[c := place][c := Reading(true)] == s.pc[c := Reading(true)];
  }

  lemma SendThanks(s: Hub, c: ConnId, to: string, id: string, ok: bool, now: int)
    requires Has(s, c)
    ensures Apply(At(s, c, WaveThank(to, id)), Advance(c, ok, now)) ==
              At(s.(sends := s.sends + [WaveOk(c, id, to)]), c, Reading(true))
  {
    hide Move, Calm, Tagged, OneHandler;
    assert s.pc[c := WaveThank(to, id)][c := Reading(true)] == s.pc[c := Reading(true)];
  }

  /** Entering a route: it is there, stale ones are gone, and all others stay. */
  lemma EnteredBook(b: Book, c: ConnId, account: string, to: string, id: string, now: int)
    ensures var r := Enter(b, c, account, to, id, now);
            && id in r.pending && r.pending[id] == Route(c, account, to, now, b.nextRid) && r.oks == b.oks
            && (forall k :: k != id ==> (k in r.pending <==> k in b.pending && b.pending[k].createdAt >= now - 60))
            && (forall k :: k != id && k in r.pending ==> r.pending[k] == b.pending[k])
  {}

  // ---- waves

  /** The wave up to its sending. */
  lemma WaveRun(s: Hub, c: ConnId, to: string, id: string, n: nat, ok: bool, now: int)
    requires Idle(s, c) && to != "" && to != s.acc[c] && id != "" && Open(s, to)
    requires s.byAcc[to] in s.acc && s.acc[s.byAcc[to]] == to
    ensures Run(s, [Read(c, Wave(to, id))] + Steps(c, n + 3, ok, now)) ==
              After(At(s.(asked := s.asked + {Cut(id)}, book := Enter(s.book, c, to, to, Cut(id), now)), c,
                       WaveSend(to, Cut(id), s.byAcc[to])), c, n, ok, now)
  {
    var k, d := Cut(id), s.byAcc[to];
    var b := s.(asked := s.asked + {k});
    assert Has(b, c) && k != "";
    hide Run, Apply, Enter, After, Steps, At, Cut;
    RunFrame(s, c, Wave(to, id), n + 3, ok, now);
    ReadWave(s, c, to, id);
    LookUp(b, c, to, k, ok, now);
    CheckTarget(b, c, to, k, Some(d), ok, now);
    RecordRoute(b, c, to, k, d, ok, now);
    OneStep(At(b, c, WaveLookup(to, k)), c, n + 3, ok, now);
    OneStep(At(b, c, WaveCheck(to, k, Some(d))), c, n + 2, ok, now);
    OneStep(At(b, c, WaveRecord(to, k, d)), c, n + 1, ok, now);
  }

  lemma SentRun(s: Hub, c: ConnId, to: string, id: string, now: int)
    requires Idle(s, c) && to != "" && to != s.acc[c] && id != "" && Open(s, to)
    requires s.byAcc[to] in s.acc && s.acc[s.byAcc[to]] == to
    ensures Run(s, [Read(c, Wave(to, id))] + Steps(c, 4, true, now)) ==
              s.(asked := s.asked + {Cut(id)}, book := Enter(s.book, c, to, to, Cut(id), now),
                 delivered := s.delivered + {Cut(id)}, sends := s.sends + [WaveTo(s.byAcc[to], s.acc[c], Cut(id))])
  {
    var k, d := Cut(id), s.byAcc[to];
    var b := s.(asked := s.asked + {k}, book := Enter(s.book, c, to, to, k, now));
    var e := b.(delivered := s.delivered + {k}, sends := s.sends + [WaveTo(d, s.acc[c], k)]);
    assert Has(b, c) && k != "" && e.pc[c] == Reading(true);
    hide Run, Apply, Enter, After, Steps, At, Cut;
    WaveRun(s, c, to, id, 1, true, now);
    SendWaveOut(b, c, to, k, d, now);
    OneStep(At(b, c, WaveSend(to, k, d)), c, 1, true, now);
    AtHome(e, c);
    NoStep(e, c, true, now);
  }

  /** A wave to a registered open connection whose send succeeds: the target gets it, it is pending
      with everything its acknowledgement needs, routes older than a minute are gone and no others,
      and nothing is thanked for or refused. */
  lemma WaveGoesOut(s: Hub, c: ConnId, to: string, id: string, now: int)
    requires Idle(s, c) && to != "" && to != s.acc[c] && id != "" && Open(s, to)
    requires s.byAcc[to] in s.acc && s.acc[s.byAcc[to]] == to
    ensures var r := Run(s, [Read(c, Wave(to, id))] + Steps(c, 4, true, now));
            && r.pc == s.pc && r.closed == s.closed && r.byAcc == s.byAcc && r.failed == s.failed
            && r.sends == s.sends + [WaveTo(s.byAcc[to], s.acc[c], Cut(id))]
            && r.book.oks == s.book.oks
            && Cut(id) in r.book.pending
            && r.book.pending[Cut(id)] == Route(c, to, to, now, s.book.nextRid)
            && (forall k :: k != Cut(id) ==>
                  (k in r.book.pending <==> k in s.book.pending && s.book.pending[k].createdAt >= now - 60))
            && (forall k :: k != Cut(id) && k in r.book.pending ==> r.book.pending[k] == s.book.pending[k])
  {
    hide Run, Enter, Steps, Cut;
    SentRun(s, c, to, id, now);
    EnteredBook(s.book, c, to, to, Cut(id), now);
  }

  lemma BrokenRun(s: Hub, c: ConnId, to: string, id: string, now: int)
    requires Idle(s, c) && to != "" && to != s.acc[c] && id != "" && Open(s, to)
    requires s.byAcc[to] in s.acc && s.acc[s.byAcc[to]] == to
    ensures var entered := Enter(s.book, c, to, to, Cut(id), now);
            Run(s, [Read(c, Wave(to, id))] + Steps(c, 7, false, now)) ==
              s.(asked := s.asked + {Cut(id)}, book := entered.(pending := entered.pending - {Cut(id)}),
                 closed := s.closed + {s.byAcc[to]}, failed := s.failed + {Cut(id)},
                 sends := s.sends + [WaveFail(c, Cut(id), to)])
  {
    var k, d := Cut(id), s.byAcc[to];
    var b4 := s.(asked := s.asked + {k}, book := Enter(s.book, c, to, to, k, now));
    var b6 := b4.(closed := s.closed + {d});
    var b7 := b6.(book := b4.book.(pending := b4.book.pending - {k}));
    var e := b7.(failed := s.failed + {k}, sends := s.sends + [WaveFail(c, k, to)]);
    assert Has(b4, c) && k != "" && e.pc[c] == Reading(true);
    hide Run, Apply, Enter, After, Steps, At, Cut;
    WaveRun(s, c, to, id, 4, false, now);
    SendBreaks(b4, c, to, k, d, now);
    DropTarget(b4, c, to, k, d, false, now);
    EraseRoute(b6, c, to, k, false, now);
    SendRefusal(b7, c, to, k, WaveRefuse(to, k), false, now);
    OneStep(At(b4, c, WaveSend(to, k, d)), c, 4, false, now);
    OneStep(At(b4, c, WaveDrop(to, k, d)), c, 3, false, now);
    OneStep(At(b6, c, WaveErase(to, k)), c, 2, false, now);
    OneStep(At(b7, c, WaveRefuse(to, k)), c, 1, false, now);
    AtHome(e, c);
    NoStep(e, c, false, now);
  }

  /** A wave whose send fails: the target is closed, the route is taken back and the sender told. */
  lemma BrokenWaveIsRefused(s: Hub, c: ConnId, to: string, id: string, now: int)
    requires Idle(s, c) && to != "" && to != s.acc[c] && id != "" && Open(s, to)
    requires s.byAcc[to] in s.acc && s.acc[s.byAcc[to]] == to
    ensures var r := Run(s, [Read(c, Wave(to, id))] + Steps(c, 7, false, now));
            && r.pc == s.pc && r.closed == s.closed + {s.byAcc[to]} && r.byAcc == s.byAcc
            && r.sends == s.sends + [WaveFail(c, Cut(id), to)] && r.delivered == s.delivered
            && r.book.oks == s.book.oks
            && (forall k :: k in r.book.pending <==>
                  k != Cut(id) && k in s.book.pending && s.book.pending[k].createdAt >= now - 60)
  {
    hide Run, Enter, Steps, Cut;
    BrokenRun(s, c, to, id, now);
    EnteredBook(s.book, c, to, to, Cut(id), now);
  }

  /** A wave to an account that is absent or whose connection is closed is refused, and that is all. */
  lemma OfflineWaveIsRefused(s: Hub, c: ConnId, to: string, id: string, ok: bool, now: int)
    requires Idle(s, c) && to != "" && to != s.acc[c] && id != "" && !Open(s, to)
    requires to in s.byAcc ==> s.byAcc[to] in s.acc
    ensures Run(s, [Read(c, Wave(to, id))] + Steps(c, 3, ok, now)) ==
              s.(asked := s.asked + {Cut(id)}, failed := s.failed + {Cut(id)},
                 sends := s.sends + [WaveFail(c, Cut(id), to)])
  {
    var k := Cut(id);
    var found := if to in s.byAcc then Some(s.byAcc[to]) else None;
    var b := s.(asked := s.asked + {k});
    var e := b.(failed := s.failed + {k}, sends := s.sends + [WaveFail(c, k, to)]);
    assert Has(b, c) && k != "" && e.pc[c] == Reading(true);
    hide Run, Apply, After, Steps, At, Cut;
    RunFrame(s, c, Wave(to, id), 3, ok, now);
    ReadWave(s, c, to, id);
    LookUp(b, c, to, k, ok, now);
    CheckTarget(b, c, to, k, found, ok, now);
    SendRefusal(b, c, to, k, WaveOffline(to, k), ok, now);
    OneStep(At(b, c, WaveLookup(to, k)), c, 3, ok, now);
    OneStep(At(b, c, WaveCheck(to, k, found)), c, 2, ok, now);
    OneStep(At(b, c, WaveOffline(to, k)), c, 1, ok, now);
    AtHome(e, c);
    NoStep(e, c, ok, now);
  }

  /** A wave without an id, from an old client: sent, never pending, and thanked for at once. */
  lemma OldWaveIsThanked(s: Hub, c: ConnId, to: string, now: int)
    requires Idle(s, c) && to != "" && to != s.acc[c] && Open(s, to) && s.byAcc[to] in s.acc
    ensures Run(s, [Read(c, Wave(to, ""))] + Steps(c, 5, true, now)) ==
              s.(delivered := s.delivered + {""},
                 sends := s.sends + [WaveTo(s.byAcc[to], s.acc[c], "")] + [WaveOk(c, "", to)])
  {
    var d := s.byAcc[to];
    var b := s.(delivered := s.delivered + {""}, sends := s.sends + [WaveTo(d, s.acc[c], "")]);
    var e := b.(sends := b.sends + [WaveOk(c, "", to)]);
    assert Cut("") == "" && s.(asked := s.asked) == s && s.(book := s.book) == s && e.pc[c] == Reading(true);
    hide Run, Apply, After, Steps, At, Cut;
    RunFrame(s, c, Wave(to, ""), 5, true, now);
    ReadWave(s, c, to, "");
    LookUp(s, c, to, "", true, now);
    CheckTarget(s, c, to, "", Some(d), true, now);
    RecordRoute(s, c, to, "", d, true, now);
    SendWaveOut(s, c, to, "", d, now);
    SendThanks(b, c, to, "", true, now);
    OneStep(At(s, c, WaveLookup(to, "")), c, 5, true, now);
    OneStep(At(s, c, WaveCheck(to, "", Some(d))), c, 4, true, now);
    OneStep(At(s, c, WaveRecord(to, "", d)), c, 3, true, now);
    OneStep(At(s, c, WaveSend(to, "", d)), c, 2, true, now);
    OneStep(At(b, c, WaveThank(to, "")), c, 1, true, now);
    AtHome(e, c);
    NoStep(e, c, true, now);
  }

  /** A wave to nobody or to oneself is dropped without a word. */
  lemma IdleWaveIsDropped(s: Hub, c: ConnId, to: string, id: string)
    requires Idle(s, c) && (to == "" || to == s.acc[c])
    ensures Apply(s, Read(c, Wave(to, id))) == s
  {
    hide Move, Calm, Tagged, OneHandler;
  }

  // ---- acknowledgements

  lemma ReadAck(s: Hub, c: ConnId, id: string)
    requires Idle(s, c) && id != ""
    ensures Apply(s, Read(c, WaveAck(id))) == At(s, c, AckTake(id))
  {
    hide Move, Calm, Tagged, OneHandler;
  }

  lemma TakeAck(s: Hub, c: ConnId, id: string, ok: bool, now: int)
    requires Has(s, c)
    ensures Apply(At(s, c, AckTake(id)), Advance(c, ok, now)) ==
              if id in s.book.pending && s.book.pending[id].targetAcc == s.acc[c] then
                At(s.(book := TakeOut(s.book, c, id)), c, AckCheck(id, s.book.pending[id]))
              else At(s, c, Reading(true))
  {
    hide Move, Calm, Tagged, OneHandler, TakeOut;
    assert s.pc[c := AckTake(id)][c := Reading(true)] == s.pc[c := Reading(true)];
    if id in s.book.pending {
      var next := AckCheck(id, s.book.pending[id]);
      assert s.pc[c := AckTake(id)][c := next] == s.pc[c := next];
    }
  }

  lemma CheckAck(s: Hub, c: ConnId, id: string, route: Route, ok: bool, now: int)
    requires Has(s, c)
    ensures Apply(At(s, c, AckCheck(id, route)), Advance(c, ok, now)) ==
              At(s, c, if route.sender !in s.closed then AckSend(id, route) else Reading(true))
  {
    hide Move, Calm, Tagged, OneHandler;
    var next := if route.sender !in s.closed then AckSend(id, route) else Reading(true);
    assert s.pc[c := AckCheck(id, route)][c := next] == s.pc[c := next];
  }

  lemma SendAck(s: Hub, c: ConnId, id: string, route: Route, ok: bool, now: int)
    requires Has(s, c)
    ensures Apply(At(s, c, AckSend(id, route)), Advance(c, ok, now)) ==
              At(s.(book := s.book.(oks := s.book.oks + [Ok(route.rid, route.sender, id)]),
                    sends := s.sends + [WaveOk(route.sender, id, route.to)]), c, Reading(true))
  {
    hide Move, Calm, Tagged, OneHandler;
    assert s.pc[c := AckSend(id, route)][c := Reading(true)] == s.pc[c := Reading(true)];
  }

  lemma TakenBook(b: Book, c: ConnId, id: string)
    requires id in b.pending
    ensures TakeOut(b, c, id).pending == b.pending - {id} && TakeOut(b, c, id).oks == b.oks
  {}

  /** The target's acknowledgement of a pending wave: the route is taken out, and its sender, whose
      connection is still open, gets exactly one wave_ok for exactly that wave. */
  lemma AckIsPassedOn(s: Hub, c: ConnId, id: string, ok: bool, now: int)
    requires Idle(s, c) && id != "" && id in s.book.pending && s.book.pending[id].targetAcc == s.acc[c]
    requires s.book.pending[id].sender !in s.closed
    ensures var r := Run(s, [Read(c, WaveAck(id))] + Steps(c, 3, ok, now));
            var route := s.book.pending[id];
            && r.pc == s.pc && r.closed == s.closed && r.failed == s.failed
            && r.book.pending == s.book.pending - {id}
            && r.book.oks == s.book.oks + [Ok(route.rid, route.sender, id)]
            && r.sends == s.sends + [WaveOk(route.sender, id, route.to)]
  {
    var route := s.book.pending[id];
    var b := s.(book := TakeOut(s.book, c, id));
    var e := b.(book := b.book.(oks := b.book.oks + [Ok(route.rid, route.sender, id)]),
                sends := s.sends + [WaveOk(route.sender, id, route.to)]);
    assert Has(b, c) && e.pc[c] == Reading(true);
    hide Run, Apply, After, Steps, At, TakeOut;
    RunFrame(s, c, WaveAck(id), 3, ok, now);
    ReadAck(s, c, id);
    TakeAck(s, c, id, ok, now);
    CheckAck(b, c, id, route, ok, now);
    SendAck(b, c, id, route, ok, now);
    OneStep(At(s, c, AckTake(id)), c, 3, ok, now);
    OneStep(At(b, c, AckCheck(id, route)), c, 2, ok, now);
    OneStep(At(b, c, AckSend(id, route)), c, 1, ok, now);
    AtHome(e, c);
    NoStep(e, c, ok, now);
    TakenBook(s.book, c, id);
  }

  /** If the sender is gone the route is used up all the same, and nothing is sent. */
  lemma AckOfGoneSender(s: Hub, c: ConnId, id: string, ok: bool, now: int)
    requires Idle(s, c) && id != "" && id in s.book.pending && s.book.pending[id].targetAcc == s.acc[c]
    requires s.book.pending[id].sender in s.closed
    ensures var r := Run(s, [Read(c, WaveAck(id))] + Steps(c, 2, ok, now));
            && r.pc == s.pc && r.closed == s.closed && r.failed == s.failed
            && r.book.pending == s.book.pending - {id} && r.book.oks == s.book.oks && r.sends == s.sends
  {
    var route := s.book.pending[id];
    var b := s.(book := TakeOut(s.book, c, id));
    assert Has(b, c) && b.pc[c] == Reading(true);
    hide Run, Apply, After, Steps, At, TakeOut;
    RunFrame(s, c, WaveAck(id), 2, ok, now);
    ReadAck(s, c, id);
    TakeAck(s, c, id, ok, now);
    CheckAck(b, c, id, route, ok, now);
    OneStep(At(s, c, AckTake(id)), c, 2, ok, now);
    OneStep(At(b, c, AckCheck(id, route)), c, 1, ok, now);
    AtHome(b, c);
    NoStep(b, c, ok, now);
    TakenBook(s.book, c, id);
  }

  /** An acknowledgement of nothing, or of a wave to somebody else, changes nothing. */
  lemma StrayAckIsDropped(s: Hub, c: ConnId, id: string, ok: bool, now: int)
    requires Idle(s, c) && id != "" && (id in s.book.pending ==> s.book.pending[id].targetAcc != s.acc[c])
    ensures Run(s, [Read(c, WaveAck(id))] + Steps(c, 1, ok, now)) == s
  {
    hide Run, Apply, After, Steps, At;
    RunFrame(s, c, WaveAck(id), 1, ok, now);
    ReadAck(s, c, id);
    TakeAck(s, c, id, ok, now);
    OneStep(At(s, c, AckTake(id)), c, 1, ok, now);
    AtHome(s, c);
    NoStep(s, c, ok, now);
  }

  // ---- connecting

  lemma RunThree(s: Hub, a: Action, b: Action, d: Action, rest: seq<Action>)
    ensures Run(s, [a, b, d] + rest) == Run(Apply(Apply(Apply(s, a), b), d), rest)
  {
    hide Run, Apply;
    RunOne(s, a, [b, d] + rest);
    RunOne(Apply(s, a), b, [d] + rest);
    RunOne(Apply(Apply(s, a), b), d, rest);
    assert [a, b, d] + rest == [a] + ([b, d] + rest) && [b, d] + rest == [b] + ([d] + rest);
  }

  lemma RunOne(s: Hub, a: Action, rest: seq<Action>)
    ensures Run(s, [a] + rest) == Run(Apply(s, a), rest)
  {
    hide Apply;
    assert ([a] + rest)[1..] == rest;
  }

  /** A connection admitted while there is room gets its handler; it is counted. */
  lemma Admitted(s: Hub, c: ConnId)
    requires s.accepter.Polling? && s.running && s.active < s.maxConns && c !in s.pc
    ensures Apply(Apply(Apply(s, Admit), Reserve(c)), Spawn(true)) ==
              At(s.(acc := s.acc[c := ""], active := s.active + 1), c, Reading(false))
  {
    hide Move, Calm, Tagged, OneHandler;
    var s2 := At(s.(acc := s.acc[c := ""], active := s.active + 1, accepter := Starting(c)), c, Spawning);
    assert Apply(Apply(s, Admit), Reserve(c)) == s2;
    assert s2.pc[c := Reading(false)] == s.pc[c := Reading(false)];
  }

  /** One whose thread cannot be created is closed and counts no more. */
  lemma SpawnFailureIsUndone(s: Hub, c: ConnId)
    requires s.accepter.Polling? && s.running && s.active < s.maxConns && c !in s.pc
    ensures Apply(Apply(Apply(s, Admit), Reserve(c)), Spawn(false)) ==
              At(s.(acc := s.acc[c := ""], closed := s.closed + {c}), c, SpawnFailed)
  {
    hide Move, Calm, Tagged, OneHandler;
    var s2 := At(s.(acc := s.acc[c := ""], active := s.active + 1, accepter := Starting(c)), c, Spawning);
    assert Apply(Apply(s, Admit), Reserve(c)) == s2;
    assert s2.pc[c := SpawnFailed] == s.pc[c := SpawnFailed];
  }

  /** A full hub, or one that was stopped, admits nobody. */
  lemma FullHubAdmitsNobody(s: Hub, c: ConnId)
    requires s.accepter.Polling? && (s.active >= s.maxConns || !s.running)
    ensures Apply(s, Admit) == s && Apply(s, Reserve(c)) == s
  {
    hide Move, Calm, Tagged, OneHandler;
  }

  lemma Authenticates(s: Hub, c: ConnId, account: string)
    requires c in s.acc && account != ""
    ensures Apply(At(s, c, Reading(false)), Read(c, Auth(Some(account)))) ==
              At(s.(acc := s.acc[c := account]), c, Registering)
  {
    hide Move, Calm, Tagged, OneHandler;
    assert s.pc[c := Reading(false)][c := Registering] == s.pc[c := Registering];
  }

  /** Whoever does not authenticate first is shown the door. */
  lemma StrangersLeave(s: Hub, c: ConnId, frame: Frame)
    requires Has(s, c) && s.pc[c] == Reading(false) && (frame.Auth? ==> frame.acc == None || frame.acc == Some(""))
    ensures Apply(s, Read(c, frame)) == At(s, c, Leaving)
  {
    hide Move, Calm, Tagged, OneHandler;
  }

  lemma RegistersItself(s: Hub, c: ConnId, prior: Option<ConnId>, ok: bool, now: int)
    requires c in s.acc && c !in s.byAcc.Values
    requires prior == if s.acc[c] in s.byAcc then Some(s.byAcc[s.acc[c]]) else None
    ensures Apply(At(s, c, Registering), Advance(c, ok, now)) ==
              At(s.(byAcc := s.byAcc[s.acc[c] := c]), c, Displacing(prior))
  {
    hide Move, Calm, Tagged, OneHandler;
    assert s.acc[c] in s.byAcc ==> s.byAcc[s.acc[c]] in s.byAcc.Values;
    assert s.pc[c := Registering][c := Displacing(prior)] == s.pc[c := Displacing(prior)];
  }

  lemma ClosesPrior(s: Hub, c: ConnId, prior: Option<ConnId>, ok: bool, now: int)
    requires c in s.acc
    ensures Apply(At(s, c, Displacing(prior)), Advance(c, ok, now)) ==
              At(s.(closed := if prior.Some? then s.closed + {prior.value} else s.closed), c, AuthReply)
  {
    hide Move, Calm, Tagged, OneHandler;
    assert s.pc[c := Displacing(prior)][c := AuthReply] == s.pc[c := AuthReply];
  }

  lemma Replies(s: Hub, c: ConnId, ok: bool, now: int)
    requires c in s.acc
    ensures Apply(At(s, c, AuthReply), Advance(c, ok, now)) == At(s, c, if ok then Reading(true) else Leaving)
  {
    hide Move, Calm, Tagged, OneHandler;
    var next := if ok then Reading(true) else Leaving;
    assert s.pc[c := AuthReply][c := next] == s.pc[c := next];
  }

  /** A connection is admitted and authenticates: it is the registered one of its account, it counts,
      whoever was registered before is closed, nothing else changes, and it waits for frames. */
  lemma ClientConnects(s: Hub, c: ConnId, account: string, now: int)
    requires s.accepter.Polling? && s.running && s.active < s.maxConns && c !in s.pc && account != ""
    requires c !in s.byAcc.Values
    ensures Run(s, [Admit, Reserve(c), Spawn(true)] + ([Read(c, Auth(Some(account)))] + Steps(c, 3, true, now))) ==
              At(s.(acc := s.acc[c := account], active := s.active + 1, byAcc := s.byAcc[account := c],
                    closed := if account in s.byAcc then s.closed + {s.byAcc[account]} else s.closed),
                 c, Reading(true))
  {
    var prior := if account in s.byAcc then Some(s.byAcc[account]) else None;
    var b3 := s.(acc := s.acc[c := ""], active := s.active + 1);
    var b4 := s.(acc := s.acc[c := account], active := s.active + 1);
    assert b4 == b3.(acc := b3.acc[c := account]) by {
      assert s.acc[c := ""][c := account] == s.acc[c := account];
    }
    var b5 := b4.(byAcc := s.byAcc[account := c]);
    var b6 := b5.(closed := if prior.Some? then s.closed + {prior.value} else s.closed);
    hide Run, Apply, After, Steps, At;
    RunThree(s, Admit, Reserve(c), Spawn(true), [Read(c, Auth(Some(account)))] + Steps(c, 3, true, now));
    Admitted(s, c);
    RunFrame(At(b3, c, Reading(false)), c, Auth(Some(account)), 3, true, now);
    Authenticates(b3, c, account);
    RegistersItself(b4, c, prior, true, now);
    ClosesPrior(b5, c, prior, true, now);
    Replies(b6, c, true, now);
    OneStep(At(b4, c, Registering), c, 3, true, now);
    OneStep(At(b5, c, Displacing(prior)), c, 2, true, now);
    OneStep(At(b6, c, AuthReply), c, 1, true, now);
    NoStep(At(b6, c, Reading(true)), c, true, now);
  }

  // ---- leaving

  /** The map without this connection; a later connection of the account stays. */
  function Forgotten(s: Hub, c: ConnId): map<string, ConnId>
    requires c in s.acc
  {
    map a | a in s.byAcc && !(a == s.acc[c] && s.byAcc[a] == c) :: s.byAcc[a]
  }

  lemma Goes(s: Hub, c: ConnId)
    requires Idle(s, c)
    ensures Apply(s, Read(c, NoFrame)) == At(s, c, Leaving)
  {
    hide Move, Calm, Tagged, OneHandler;
  }

  lemma LeavesLoop(s: Hub, c: ConnId, ok: bool, now: int)
    requires c in s.acc
    ensures Apply(At(s, c, Leaving), Advance(c, ok, now)) == At(s, c, Unregistering)
  {
    hide Move, Calm, Tagged, OneHandler;
    assert s.pc[c := Leaving][c := Unregistering] == s.pc[c := Unregistering];
  }

  lemma UnregistersItself(s: Hub, c: ConnId, ok: bool, now: int)
    requires c in s.acc && s.acc[c] != ""
    ensures Apply(At(s, c, Unregistering), Advance(c, ok, now)) == At(s.(byAcc := Forgotten(s, c)), c, Closing)
  {
    hide Move, Calm, Tagged, OneHandler;
    assert s.pc[c := Unregistering][c := Closing] == s.pc[c := Closing];
    var a := s.acc[c];
    assert Forgotten(s, c) == if a in s.byAcc && s.byAcc[a] == c then s.byAcc - {a} else s.byAcc;
  }

  lemma ClosesItself(s: Hub, c: ConnId, ok: bool, now: int)
    requires c in s.acc
    ensures Apply(At(s, c, Closing), Advance(c, ok, now)) == At(s.(closed := s.closed + {c}), c, Ending)
  {
    hide Move, Calm, Tagged, OneHandler;
    assert s.pc[c := Closing][c := Ending] == s.pc[c := Ending];
  }

  lemma CountsOff(s: Hub, c: ConnId, ok: bool, now: int)
    requires c in s.acc
    ensures Apply(At(s, c, Ending), Advance(c, ok, now)) == At(s.(active := s.active - 1), c, Finished)
  {
    hide Move, Calm, Tagged, OneHandler;
    assert s.pc[c := Ending][c := Finished] == s.pc[c := Finished];
  }

  /** A client that goes is unregistered, if it still is the registered one, closed and counted off. */
  lemma ClientLeaves(s: Hub, c: ConnId, ok: bool, now: int)
    requires Idle(s, c) && s.acc[c] != ""
    ensures Run(s, [Read(c, NoFrame)] + Steps(c, 4, ok, now)) ==
              At(s.(byAcc := Forgotten(s, c), closed := s.closed + {c}, active := s.active - 1), c, Finished)
  {
    var b3 := s.(byAcc := Forgotten(s, c));
    var b4 := b3.(closed := s.closed + {c});
    hide Run, Apply, After, Steps, At, Forgotten;
    RunFrame(s, c, NoFrame, 4, ok, now);
    Goes(s, c);
    LeavesLoop(s, c, ok, now);
    UnregistersItself(s, c, ok, now);
    ClosesItself(b3, c, ok, now);
    CountsOff(b4, c, ok, now);
    OneStep(At(s, c, Leaving), c, 4, ok, now);
    OneStep(At(s, c, Unregistering), c, 3, ok, now);
    OneStep(At(b3, c, Closing), c, 2, ok, now);
    OneStep(At(b4, c, Ending), c, 1, ok, now);
    NoStep(At(b4.(active := s.active - 1), c, Finished), c, ok, now);
  }

  /** A handler whose connection was closed, or whose hub was stopped, leaves; otherwise it waits. */
  lemma ClosedHandlersLeave(s: Hub, c: ConnId, ok: bool, now: int)
    requires Has(s, c) && s.pc[c].Reading?
    ensures Apply(s, Advance(c, ok, now)) == if s.running && c !in s.closed then s else At(s, c, Leaving)
  {
    hide Move, Calm, Tagged, OneHandler;
  }

  /** Stopping: nobody is registered any more, and everybody who was is closed one by one. */
  lemma StopTakesEveryone(s: Hub)
    ensures var r := Run(s, [StopRequest, StopTake]);
            && !r.running && r.byAcc == map[] && r.closed == s.closed
            && (forall a :: a in s.byAcc ==> s.byAcc[a] in r.stopping)
            && (forall c :: c in r.stopping ==>
                  var t := Apply(r, StopClose(c)); t.closed == r.closed + {c} && t.stopping == r.stopping - {c})
  {
    assert [StopRequest, StopTake][1..] == [StopTake] && [StopTake][1..] == [];
    var r := Apply(Apply(s, StopRequest), StopTake);
    assert Run(Apply(Apply(s, StopRequest), StopTake), []) == r;
    forall a | a in s.byAcc ensures s.byAcc[a] in r.stopping {
      assert s.byAcc[a] in s.byAcc.Values;
    }
  }
}
