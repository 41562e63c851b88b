/** Scheduled global mail: any number of scheduler loops and cancellations at work on one sorted set,
    one Redis command at a time. An entry is claimed by removing it from the set. */
module Scheduler {
  import opened Results

  /** The stored text of a schedule: its id, its time (also its score) and the rest. */
  datatype Schedule = Schedule(id: string, at: int, rest: string)

  /** A process of its own: a scheduler loop or a cancellation. */
  datatype Pid = Pid(n: nat)

  datatype Worker =
    | Idle
    | Passing(due: seq<Schedule>)
    | Sending(raw: Schedule, due: seq<Schedule>)

  datatype Event = Sent(raw: Schedule, time: int) | Cancelled(raw: Schedule) | Lost(raw: Schedule)

  /** The sorted set, everything ever scheduled, the loops, the cancellations that have picked their
      entry, and what happened. */
  datatype World = World(now: int, stored: set<Schedule>, known: set<Schedule>, workers: map<Pid, Worker>,
                         cancels: map<Pid, Schedule>, log: seq<Event>)

  datatype Step =
    | Tick(now: int)
    | Plan(raw: Schedule)
    | Look(w: Pid, due: seq<Schedule>)
    | Claim(w: Pid)
    | Finish(w: Pid, ok: bool)
    | Throw(w: Pid)
    | PickCancel(c: Pid, id: string, raw: Schedule)
    | Cancel(c: Pid)

  function WorkerOf(w: World, p: Pid): Worker {
    if p in w.workers then w.workers[p] else Idle
  }

  /** What the environment may do: time goes on, ids are fresh, a range read gives what is due. */
  predicate Enabled(w: World, s: Step) {
    match s
    case Tick(now) => now >= w.now
    case Plan(raw) => forall k :: k in w.known ==> k.id != raw.id
    case Look(p, due) => WorkerOf(w, p).Idle? && forall i :: 0 <= i < |due| ==> due[i] in w.stored && due[i].at <= w.now
    case Claim(p) => WorkerOf(w, p).Passing?
    case Finish(p, _) => WorkerOf(w, p).Sending?
    case Throw(p) => WorkerOf(w, p).Sending?
    case PickCancel(c, id, raw) => c !in w.cancels && raw in w.stored && raw.id == id
    case Cancel(c) => c in w.cancels
  }

  /** The loop goes to the next due entry; when there is none, the pass is over. */
  function Rest(due: seq<Schedule>): Worker {
    if due == [] then Idle else Passing(due)
  }

  function After(w: World, s: Step): World
    requires Enabled(w, s)
  {
    match s
    case Tick(now) => w.(now := now)
    case Plan(raw) => w.(stored := w.stored + {raw}, known := w.known + {raw})
    case Look(p, due) => w.(workers := w.workers[p := Rest(due)])
    case Claim(p) =>
      var due := WorkerOf(w, p).due;
      if due == [] then w.(workers := w.workers[p := Idle])
      else if due[0] in w.stored then
        w.(stored := w.stored - {due[0]}, workers := w.workers[p := Sending(due[0], due[1..])])
      else w.(workers := w.workers[p := Rest(due[1..])])
    case Finish(p, ok) =>
      var worker := WorkerOf(w, p);
      var next := w.(workers := w.workers[p := Rest(worker.due)]);
      if ok then next.(log := w.log + [Sent(worker.raw, w.now)]) else next.(stored := w.stored + {worker.raw})
    case Throw(p) =>
      var worker := WorkerOf(w, p);
      w.(workers := w.workers[p := Rest(worker.due)], stored := w.stored - {worker.raw},
        log := w.log + [Lost(worker.raw)])
    case PickCancel(c, id, raw) => w.(cancels := w.cancels[c := raw])
    case Cancel(c) =>
      var raw := w.cancels[c];
      var next := w.(cancels := w.cancels - {c});
      if raw in w.stored then next.(stored := w.stored - {raw}, log := w.log + [Cancelled(raw)]) else next
  }

  const START := World(0, {}, {}, map[], map[], [])

  /** Where a sequence of steps leads, if each was possible when it was taken. */
  function Reached(steps: seq<Step>): Option<World> {
    if steps == [] then Some(START)
    else
      var before := Reached(steps[..|steps| - 1]);
      var s := steps[|steps| - 1];
      if before.Some? && Enabled(before.value, s) then Some(After(before.value, s)) else None
  }

  // ---- where an entry is

  predicate Holds(w: World, p: Pid, raw: Schedule) {
    WorkerOf(w, p).Sending? && WorkerOf(w, p).raw == raw
  }

  ghost predicate Held(w: World, raw: Schedule) {
    exists p :: Holds(w, p, raw)
  }

  function Ended(log: seq<Event>, raw: Schedule): nat {
    if log == [] then 0 else Ended(log[..|log| - 1], raw) + if log[|log| - 1].raw == raw then 1 else 0
  }

  /** Every entry ever scheduled is in exactly one place: in the set, with one loop, or done with. */
  ghost predicate OnePlace(w: World, raw: Schedule) {
    && (raw in w.stored ==> raw in w.known && !Held(w, raw) && Ended(w.log, raw) == 0)
    && (Held(w, raw) ==> raw in w.known && Ended(w.log, raw) == 0)
    && (raw in w.known && raw !in w.stored && !Held(w, raw) ==> Ended(w.log, raw) == 1)
    && (raw !in w.known ==> Ended(w.log, raw) == 0)
    && (forall p, q :: Holds(w, p, raw) && Holds(w, q, raw) ==> p == q)
  }

  predicate DueNow(w: World, due: seq<Schedule>) {
    forall i :: 0 <= i < |due| ==> due[i].at <= w.now && due[i] in w.known
  }

  predicate WorkerOk(w: World, worker: Worker) {
    match worker
    case Idle => true
    case Passing(due) => DueNow(w, due)
    case Sending(raw, due) => raw.at <= w.now && DueNow(w, due)
  }

  ghost predicate Inv(w: World) {
    && (forall raw :: OnePlace(w, raw))
    && (forall p :: p in w.workers ==> WorkerOk(w, w.workers[p]))
    && (forall c :: c in w.cancels ==> w.cancels[c] in w.known)
    && (forall a, b :: a in w.known && b in w.known && a.id == b.id ==> a == b)
    && (forall i :: 0 <= i < |w.log| && w.log[i].Sent? ==> w.log[i].raw.at <= w.log[i].time <= w.now)
    && (forall i :: 0 <= i < |w.log| ==> w.log[i].raw in w.known)
  }

  lemma EndedAppend(log: seq<Event>, e: Event, raw: Schedule)
    ensures Ended(log + [e], raw) == Ended(log, raw) + if e.raw == raw then 1 else 0
  {
    assert (log + [e])[..|log|] == log;
  }

  /** Only the places of what a step moves change. */
  lemma SamePlace(w: World, r: World, raw: Schedule)
    requires OnePlace(w, raw)
    requires (raw in r.stored <==> raw in w.stored) && (raw in r.known <==> raw in w.known)
    requires Ended(r.log, raw) == Ended(w.log, raw)
    requires forall p :: Holds(r, p, raw) <==> Holds(w, p, raw)
    ensures OnePlace(r, raw)
  {
    hide Holds, Ended;
    assert Held(r, raw) <==> Held(w, raw);
  }

  lemma PlanKeeps(w: World, raw: Schedule)
    requires Inv(w) && Enabled(w, Plan(raw))
    ensures forall x :: OnePlace(After(w, Plan(raw)), x)
  {
    hide Ended, WorkerOk;
    var r := After(w, Plan(raw));
    forall x ensures OnePlace(r, x) {
      assert OnePlace(w, x);
      assert forall p :: Holds(r, p, x) <==> Holds(w, p, x);
      assert raw !in w.known;
      if x != raw {
        SamePlace(w, r, x);
      } else {
        assert !Held(r, x);
      }
    }
  }

  lemma ClaimKeeps(w: World, p: Pid)
    requires Inv(w) && Enabled(w, Claim(p))
    ensures forall x :: OnePlace(After(w, Claim(p)), x)
  {
    hide Ended, WorkerOk;
    var r := After(w, Claim(p));
    var due := WorkerOf(w, p).due;
    forall x ensures OnePlace(r, x) {
      assert OnePlace(w, x);
      assert forall q :: q != p ==> (Holds(r, q, x) <==> Holds(w, q, x));
      assert !Holds(w, p, x);
      if due != [] && due[0] in w.stored && x == due[0] {
        assert Holds(r, p, x);
        assert forall q :: Holds(r, q, x) ==> q == p by {
          forall q | Holds(r, q, x) ensures q == p {
            assert q != p ==> Holds(w, q, x);
            assert !Held(w, x);
          }
        }
        assert Held(r, x);
      } else {
        SamePlace(w, r, x);
      }
    }
  }

  lemma FinishKeeps(w: World, p: Pid, s: Step)
    requires Inv(w) && Enabled(w, s) && (s == Throw(p) || s == Finish(p, true) || s == Finish(p, false))
    ensures forall x :: OnePlace(After(w, s), x)
  {
    hide Ended, WorkerOk;
    var r := After(w, s);
    var raw := WorkerOf(w, p).raw;
    assert Holds(w, p, raw) && Held(w, raw);
    forall x ensures OnePlace(r, x) {
      assert OnePlace(w, x);
      EndedAppend(w.log, Sent(raw, w.now), x);
      EndedAppend(w.log, Lost(raw), x);
      assert !Holds(r, p, x);
      assert forall q :: q != p ==> (Holds(r, q, x) <==> Holds(w, q, x));
      if x == raw {
        assert !Held(r, x) by {
          forall q | Holds(r, q, x) ensures q != p && Holds(w, q, x) {}
        }
      } else {
        assert !Holds(w, p, x);
        SamePlace(w, r, x);
      }
    }
  }

  lemma CancelKeeps(w: World, c: Pid)
    requires Inv(w) && Enabled(w, Cancel(c))
    ensures forall x :: OnePlace(After(w, Cancel(c)), x)
  {
    hide Ended, WorkerOk;
    var r := After(w, Cancel(c));
    var raw := w.cancels[c];
    forall x ensures OnePlace(r, x) {
      assert OnePlace(w, x);
      EndedAppend(w.log, Cancelled(raw), x);
      assert forall q :: Holds(r, q, x) <==> Holds(w, q, x);
      if x == raw && raw in w.stored {
        assert !Held(w, x);
        assert !Held(r, x);
      } else {
        SamePlace(w, r, x);
      }
    }
  }

  lemma QuietKeeps(w: World, s: Step)
    requires Inv(w) && Enabled(w, s) && (s.Tick? || s.Look? || s.PickCancel?)
    ensures forall x :: OnePlace(After(w, s), x)
  {
    hide Ended, WorkerOk;
    var r := After(w, s);
    forall x ensures OnePlace(r, x) {
      assert OnePlace(w, x);
      assert forall q :: Holds(r, q, x) <==> Holds(w, q, x);
      SamePlace(w, r, x);
    }
  }

  /** Loops and cancellations after a step. */
  lemma WorkersKeep(w: World, s: Step)
    requires Inv(w) && Enabled(w, s)
    ensures var r := After(w, s);
            && (forall p :: p in r.workers ==> WorkerOk(r, r.workers[p]))
            && (forall c :: c in r.cancels ==> r.cancels[c] in r.known)
  {
    var r := After(w, s);
    assert w.now <= r.now && w.known <= r.known;
    forall p | p in w.workers ensures WorkerOk(r, w.workers[p]) {
      assert WorkerOk(w, w.workers[p]);
    }
    forall x | x in w.stored ensures x in w.known {
      assert OnePlace(w, x);
    }
    hide OnePlace;
  }

  /** Ids and what happened, after a step. */
  lemma LogKeeps(w: World, s: Step)
    requires Inv(w) && Enabled(w, s)
    ensures var r := After(w, s);
            && (forall a, b :: a in r.known && b in r.known && a.id == b.id ==> a == b)
            && (forall i :: 0 <= i < |r.log| && r.log[i].Sent? ==> r.log[i].raw.at <= r.log[i].time <= r.now)
            && (forall i :: 0 <= i < |r.log| ==> r.log[i].raw in r.known)
  {
    hide Ended;
    if s.Finish? || s.Throw? {
      var raw := WorkerOf(w, s.w).raw;
      assert Holds(w, s.w, raw) && OnePlace(w, raw);
    }
    hide OnePlace;
  }

  lemma StepKeeps(w: World, s: Step)
    requires Inv(w) && Enabled(w, s)
    ensures Inv(After(w, s))
  {
    hide OnePlace, WorkerOk, After, Enabled;
    WorkersKeep(w, s);
    LogKeeps(w, s);
    match s
    case Tick(_) => QuietKeeps(w, s);
    case Look(_, _) => QuietKeeps(w, s);
    case PickCancel(_, _, _) => QuietKeeps(w, s);
    case Plan(raw) => PlanKeeps(w, raw);
    case Claim(p) => ClaimKeeps(w, p);
    case Finish(p, ok) => FinishKeeps(w, p, s);
    case Throw(p) => FinishKeeps(w, p, s);
    case Cancel(c) => CancelKeeps(w, c);
  }

  lemma {:induction false} RunKeeps(steps: seq<Step>, w: World)
    requires Reached(steps) == Some(w)
    ensures Inv(w)
  {
    if steps == [] {
      StartOk();
    } else {
      hide Inv, After, Enabled;
      var before := Reached(steps[..|steps| - 1]).value;
      RunKeeps(steps[..|steps| - 1], before);
      StepKeeps(before, steps[|steps| - 1]);
    }
  }

  lemma StartOk()
    ensures Inv(START)
  {
    forall raw ensures OnePlace(START, raw) {
      assert forall p :: !Holds(START, p, raw);
    }
  }

  lemma {:induction false} TwoEvents(log: seq<Event>, i: nat, j: nat)
    requires i < j < |log| && log[i].raw == log[j].raw
    ensures Ended(log, log[i].raw) >= 2
  {
    var front := log[..|log| - 1];
    if j == |log| - 1 {
      OneEvent(front, i);
    } else {
      TwoEvents(front, i, j);
    }
  }

  lemma {:induction false} OneEvent(log: seq<Event>, i: nat)
    requires i < |log|
    ensures Ended(log, log[i].raw) >= 1
  {
    if i < |log| - 1 {
      OneEvent(log[..|log| - 1], i);
    }
  }

  lemma AtMostOneEnd(w: World, raw: Schedule)
    requires Inv(w)
    ensures Ended(w.log, raw) <= 1
  {
    assert OnePlace(w, raw);
  }

  /** Over every interleaving: a schedule is sent at most once and never before its time, and a
      cancellation that succeeded excludes any sending of the same id, before and after, even when
      failed sends have put the entry back. */
  lemma SentOnceNeverEarlyNeverCancelled(steps: seq<Step>, w: World)
    requires Reached(steps) == Some(w)
    ensures forall i, j :: 0 <= i < j < |w.log| ==> w.log[i].raw.id != w.log[j].raw.id
    ensures forall i :: 0 <= i < |w.log| && w.log[i].Sent? ==> w.log[i].raw.at <= w.log[i].time
    ensures forall i, j :: 0 <= i < |w.log| && 0 <= j < |w.log| && w.log[i].Cancelled? && w.log[j].Sent? ==>
          w.log[i].raw.id != w.log[j].raw.id
  {
    hide Reached, OnePlace, WorkerOk, Ended;
    RunKeeps(steps, w);
    forall i, j | 0 <= i < j < |w.log| ensures w.log[i].raw.id != w.log[j].raw.id {
      if w.log[i].raw.id == w.log[j].raw.id {
        assert w.log[i].raw == w.log[j].raw;
        TwoEvents(w.log, i, j);
        AtMostOneEnd(w, w.log[i].raw);
      }
    }
  }

  /** Nothing disappears: whatever was scheduled is waiting, being sent, or was sent, cancelled, or
      lost to an exception while it was being sent. */
  lemma NothingDisappears(steps: seq<Step>, w: World, raw: Schedule)
    requires Reached(steps) == Some(w) && raw in w.known
    ensures raw in w.stored || Held(w, raw) || exists i :: 0 <= i < |w.log| && w.log[i].raw == raw
  {
    hide Reached, WorkerOk, Held;
    RunKeeps(steps, w);
    assert OnePlace(w, raw);
    if Ended(w.log, raw) == 1 {
      SomeEvent(w.log, raw);
    }
  }

  lemma {:induction false} SomeEvent(log: seq<Event>, raw: Schedule)
    requires Ended(log, raw) > 0
    ensures exists i :: 0 <= i < |log| && log[i].raw == raw
  {
    var front := log[..|log| - 1];
    if log[|log| - 1].raw != raw {
      SomeEvent(front, raw);
      var i :| 0 <= i < |front| && front[i].raw == raw;
      assert log[i].raw == raw;
    }
  }
}
