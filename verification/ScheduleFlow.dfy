/** What a pass of the scheduler's loop, and a cancellation, do when nobody interferes. */
module ScheduleFlow {
  import opened Results
  import opened Scheduler

  function RunFrom(w: World, steps: seq<Step>): Option<World>
    decreases |steps|
  {
    if steps == [] then Some(w)
    else if Enabled(w, steps[0]) then RunFrom(After(w, steps[0]), steps[1..])
    else None
  }

  /** Every run begins with nothing scheduled, and goes on from where it was. */
  lemma {:induction false} RunGoesOn(steps: seq<Step>, more: seq<Step>)
    ensures Reached([]) == Some(START)
    ensures Reached(steps + more) == if Reached(steps).Some? then RunFrom(Reached(steps).value, more) else None
    decreases |more|
  {
    if more == [] {
      assert steps + more == steps;
    } else {
      hide Enabled, After;
      var a, rest := more[0], more[1..];
      assert steps + more == (steps + [a]) + rest && (steps + [a])[..|steps|] == steps;
      RunGoesOn(steps + [a], rest);
    }
  }

  lemma TwoSteps(w: World, a: Step, b: Step, rest: seq<Step>)
    requires Enabled(w, a) && Enabled(After(w, a), b)
    ensures RunFrom(w, [a, b] + rest) == RunFrom(After(After(w, a), b), rest)
  {
    hide Enabled, After;
    assert ([a, b] + rest)[1..] == [b] + rest && ([b] + rest)[1..] == rest;
  }

  /** The loop deals with so many entries, and every send succeeds. */
  function Sends(p: Pid, n: nat): seq<Step> {
    if n == 0 then [] else [Claim(p), Finish(p, true)] + Sends(p, n - 1)
  }

  predicate Distinct(due: seq<Schedule>) {
    forall i, j :: 0 <= i < j < |due| ==> due[i] != due[j]
  }

  function SentAt(due: seq<Schedule>, now: int): seq<Event> {
    seq(|due|, i requires 0 <= i < |due| => Sent(due[i], now))
  }

  /** Other loops, cancellations, the clock and what was ever scheduled stay as they are. */
  ghost predicate ElseSame(w: World, r: World, p: Pid) {
    && r.now == w.now && r.known == w.known && r.cancels == w.cancels
    && forall q :: q != p ==> WorkerOf(r, q) == WorkerOf(w, q)
  }

  function Waiting(due: seq<Schedule>): Worker {
    if due != [] then Passing(due) else Idle
  }

  lemma OneSend(w: World, p: Pid, raw: Schedule, rest: seq<Schedule>, ok: bool)
    requires WorkerOf(w, p) == Passing([raw] + rest) && raw in w.stored
    ensures Enabled(w, Claim(p)) && Enabled(After(w, Claim(p)), Finish(p, ok))
    ensures var r := After(After(w, Claim(p)), Finish(p, ok));
            && WorkerOf(r, p) == Waiting(rest) && ElseSame(w, r, p)
            && (if ok then r.stored == w.stored - {raw} && r.log == w.log + [Sent(raw, w.now)]
                else r.stored == w.stored && r.log == w.log)
  {
    assert ([raw] + rest)[0] == raw && ([raw] + rest)[1..] == rest;
    assert w.stored - {raw} + {raw} == w.stored;
  }

  lemma {:induction false} PassSends(w: World, p: Pid, due: seq<Schedule>)
    requires WorkerOf(w, p) == Waiting(due) && Distinct(due) && forall i :: 0 <= i < |due| ==> due[i] in w.stored
    ensures var r := RunFrom(w, Sends(p, |due|));
            && r.Some? && WorkerOf(r.value, p) == Idle && ElseSame(w, r.value, p)
            && r.value.log == w.log + SentAt(due, w.now)
            && forall x :: x in r.value.stored <==> x in w.stored && x !in due
    decreases |due|
  {
    if due != [] {
      hide Enabled, After, WorkerOf;
      var raw, rest := due[0], due[1..];
      assert due == [raw] + rest;
      OneSend(w, p, raw, rest, true);
      var next := After(After(w, Claim(p)), Finish(p, true));
      TwoSteps(w, Claim(p), Finish(p, true), Sends(p, |rest|));
      forall i | 0 <= i < |rest| ensures rest[i] in next.stored {
        assert rest[i] == due[i + 1];
      }
      PassSends(next, p, rest);
      assert SentAt(due, w.now) == [Sent(raw, w.now)] + SentAt(rest, w.now);
    }
  }

  /** A pass over what is due sends every entry once, in order, and leaves none of them behind. */
  lemma DueIsSent(w: World, p: Pid, due: seq<Schedule>)
    requires WorkerOf(w, p) == Idle && Distinct(due)
    requires forall i :: 0 <= i < |due| ==> due[i] in w.stored && due[i].at <= w.now
    ensures var r := RunFrom(w, [Look(p, due)] + Sends(p, |due|));
            && r.Some? && WorkerOf(r.value, p) == Idle && ElseSame(w, r.value, p)
            && r.value.log == w.log + SentAt(due, w.now)
            && forall x :: x in r.value.stored <==> x in w.stored && x !in due
  {
    hide RunFrom, SentAt, Sends;
    var next := After(w, Look(p, due));
    assert RunFrom(w, [Look(p, due)] + Sends(p, |due|)) == RunFrom(next, Sends(p, |due|)) by {
      OneStep(w, Look(p, due), Sends(p, |due|));
    }
    PassSends(next, p, due);
  }

  lemma OneStep(w: World, a: Step, rest: seq<Step>)
    requires Enabled(w, a)
    ensures RunFrom(w, [a] + rest) == RunFrom(After(w, a), rest)
  {
    hide Enabled, After;
    assert ([a] + rest)[1..] == rest;
  }

  /** An entry whose send fails is back in the set, and the loop goes on with the others. */
  lemma FailedSendIsPutBack(w: World, p: Pid, raw: Schedule, rest: seq<Schedule>)
    requires WorkerOf(w, p) == Passing([raw] + rest) && raw in w.stored
    ensures var r := RunFrom(w, [Claim(p), Finish(p, false)]);
            && r.Some? && WorkerOf(r.value, p) == Waiting(rest) && ElseSame(w, r.value, p)
            && r.value.stored == w.stored && r.value.log == w.log
  {
    hide Enabled, After;
    OneSend(w, p, raw, rest, false);
    TwoSteps(w, Claim(p), Finish(p, false), []);
    assert [Claim(p), Finish(p, false)] + [] == [Claim(p), Finish(p, false)];
  }

  /** An entry whose sending throws is gone. */
  lemma ThrownIsLost(w: World, p: Pid, raw: Schedule, rest: seq<Schedule>)
    requires WorkerOf(w, p) == Passing([raw] + rest) && raw in w.stored
    ensures var r := RunFrom(w, [Claim(p), Throw(p)]);
            && r.Some? && WorkerOf(r.value, p) == Waiting(rest) && ElseSame(w, r.value, p)
            && r.value.stored == w.stored - {raw} && r.value.log == w.log + [Lost(raw)]
  {
    assert ([raw] + rest)[0] == raw && ([raw] + rest)[1..] == rest;
    TwoSteps(w, Claim(p), Throw(p), []);
    assert [Claim(p), Throw(p)] + [] == [Claim(p), Throw(p)];
  }

  /** An entry that somebody else has claimed or cancelled is passed over. */
  lemma ClaimedIsSkipped(w: World, p: Pid, raw: Schedule, rest: seq<Schedule>)
    requires WorkerOf(w, p) == Passing([raw] + rest) && raw !in w.stored
    ensures Enabled(w, Claim(p))
    ensures var r := After(w, Claim(p));
            WorkerOf(r, p) == Waiting(rest) && ElseSame(w, r, p) && r.stored == w.stored && r.log == w.log
  {
    assert ([raw] + rest)[0] == raw && ([raw] + rest)[1..] == rest;
  }

  /** A cancellation picks the waiting entry of its id and takes it away. */
  lemma WaitingIsCancelled(w: World, c: Pid, raw: Schedule)
    requires c !in w.cancels && raw in w.stored
    ensures RunFrom(w, [PickCancel(c, raw.id, raw), Cancel(c)]) ==
              Some(w.(stored := w.stored - {raw}, log := w.log + [Cancelled(raw)]))
  {
    TwoSteps(w, PickCancel(c, raw.id, raw), Cancel(c), []);
    assert [PickCancel(c, raw.id, raw), Cancel(c)] + [] == [PickCancel(c, raw.id, raw), Cancel(c)];
    assert w.cancels[c := raw] - {c} == w.cancels;
  }

  /** One that comes too late takes nothing away and reports nothing. */
  lemma LateCancelFails(w: World, c: Pid)
    requires c in w.cancels && w.cancels[c] !in w.stored
    ensures Enabled(w, Cancel(c)) && After(w, Cancel(c)) == w.(cancels := w.cancels - {c})
  {}

  /** A schedule with a new id waits from the moment it is planned. */
  lemma PlannedWaits(w: World, raw: Schedule)
    requires forall k :: k in w.known ==> k.id != raw.id
    ensures RunFrom(w, [Plan(raw)]) == Some(w.(stored := w.stored + {raw}, known := w.known + {raw}))
  {
    OneStep(w, Plan(raw), []);
    assert [Plan(raw)] + [] == [Plan(raw)];
  }
}
