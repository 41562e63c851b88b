/** Sends and removals of personal mail at work at the same time, one Redis command at a time. They
    take no lock, so the commands of two operations on one key can mix; how they may overlap is a
    parameter, and the index is proved sound for exactly those ways in which no send is involved. */
module MailSteps {
  import opened Results
  import Mail

  /** A handler thread. */
  datatype Pid = Pid(n: nat)

  datatype Kind = Sending | Removing

  /** Where an operation on a key is; the name tells its next command. */
  datatype Phase =
    | Store(key: string)
    | Score(key: string)
    | Index(key: string, score: int)
    | Check(key: string)
    | Delete(key: string)
    | Unindex(key: string)

  function KindOf(phase: Phase): Kind {
    if phase.Store? || phase.Score? || phase.Index? then Sending else Removing
  }

  /** Expiry of the values and score of the index; what the values hold plays no part here. */
  datatype World = World(now: int, expires: map<string, int>, index: map<string, int>, busy: map<Pid, Phase>)

  /** Which kind of operation may begin while one of which kind is under way on the same key. */
  datatype Policy = Policy(sendInSend: bool, sendInRemove: bool, removeInSend: bool, removeInRemove: bool)

  predicate Allows(policy: Policy, begins: Kind, underWay: Kind) {
    match (begins, underWay)
    case (Sending, Sending) => policy.sendInSend
    case (Sending, Removing) => policy.sendInRemove
    case (Removing, Sending) => policy.removeInSend
    case (Removing, Removing) => policy.removeInRemove
  }

  datatype Step =
    | Tick(now: int)
    | Sweep(upTo: int)           // zremrangebyscore by any send, listing or scheduler pass
    | Begin(p: Pid, kind: Kind, key: string)
    | Advance(p: Pid)            // the next command of an operation

  predicate MayBegin(policy: Policy, w: World, kind: Kind, key: string) {
    forall q :: q in w.busy && w.busy[q].key == key ==> Allows(policy, kind, KindOf(w.busy[q]))
  }

  predicate Enabled(policy: Policy, w: World, s: Step) {
    match s
    case Tick(now) => now >= w.now
    case Sweep(upTo) => upTo <= w.now
    case Begin(p, kind, key) => p !in w.busy && MayBegin(policy, w, kind, key)
    case Advance(p) => p in w.busy
  }

  predicate Live(w: World, key: string) {
    key in w.expires && w.now < w.expires[key]
  }

  function Advanced(w: World, p: Pid): World
    requires p in w.busy
  {
    var key := w.busy[p].key;
    match w.busy[p]
    case Store(_) => w.(expires := w.expires[key := w.now + Mail.LIFE], busy := w.busy[p := Score(key)])
    case Score(_) => w.(busy := w.busy[p := Index(key, w.now + Mail.LIFE)])
    case Index(_, score) => w.(index := w.index[key := score], busy := w.busy - {p})
    case Check(_) => w.(busy := w.busy[p := if Live(w, key) then Delete(key) else Unindex(key)])
    case Delete(_) => w.(expires := w.expires - {key}, busy := w.busy[p := Unindex(key)])
    case Unindex(_) => w.(index := w.index - {key}, busy := w.busy - {p})
  }

  function After(w: World, s: Step): World
    requires s.Advance? ==> s.p in w.busy
  {
    match s
    case Tick(now) => w.(now := now)
    case Sweep(upTo) => w.(index := Mail.Unexpired(w.index, upTo))
    case Begin(p, kind, key) => w.(busy := w.busy[p := if kind == Sending then Store(key) else Check(key)])
    case Advance(p) => Advanced(w, p)
  }

  /** A removal left alone takes a live value and its place in the index away; without one it takes
      two commands and costs the place only. */
  lemma RemovalAlone(w: World, p: Pid, key: string)
    requires p in w.busy && w.busy[p] == Check(key)
    ensures var r := if Live(w, key) then Advanced(Advanced(Advanced(w, p), p), p) else Advanced(Advanced(w, p), p);
            && r.busy == w.busy - {p} && r.index == w.index - {key} && r.now == w.now
            && r.expires == if Live(w, key) then w.expires - {key} else w.expires
  {
    var next := if Live(w, key) then Delete(key) else Unindex(key);
    assert w.busy[p := next] - {p} == w.busy - {p};
    if Live(w, key) {
      assert w.busy[p := next][p := Unindex(key)] - {p} == w.busy - {p};
    }
  }

  const START := World(0, map[], map[], map[])

  /** Where a sequence of steps leads, if each was possible when it was taken. */
  function Reached(policy: Policy, steps: seq<Step>): Option<World> {
    if steps == [] then Some(START)
    else
      var before := Reached(policy, steps[..|steps| - 1]);
      var s := steps[|steps| - 1];
      if before.Some? && Enabled(policy, before.value, s) then Some(After(before.value, s)) else None
  }

  /** The index lists the key until its value expires, or later. */
  predicate Covered(w: World, key: string) {
    Live(w, key) ==> key in w.index && w.index[key] >= w.expires[key]
  }

  predicate AtRest(w: World, key: string) {
    forall p :: p in w.busy ==> w.busy[p].key != key
  }

  /** Every live mail that no operation is working on is indexed, with a score not before its expiry. */
  ghost predicate IndexSound(w: World) {
    forall key :: AtRest(w, key) ==> Covered(w, key)
  }

  /** No operation overlaps a send of the same key. */
  predicate SendsAlone(policy: Policy) {
    !policy.sendInSend && !policy.sendInRemove && !policy.removeInSend
  }

  // ---- sends alone are enough

  predicate Overlap(a: Phase, b: Phase) {
    a.key == b.key ==> KindOf(a) == Removing && KindOf(b) == Removing
  }

  /** What an operation may rely on. */
  predicate PhaseOk(w: World, phase: Phase) {
    match phase
    case Store(key) => Covered(w, key)
    case Score(key) => key in w.expires && w.expires[key] <= w.now + Mail.LIFE
    case Index(key, score) => key in w.expires && w.expires[key] <= score
    case Check(key) => Covered(w, key)
    case Delete(key) => Covered(w, key)
    case Unindex(key) => !Live(w, key)
  }

  ghost predicate Inv(w: World) {
    && w.now >= 0
    && (forall p, q :: p in w.busy && q in w.busy && p != q ==> Overlap(w.busy[p], w.busy[q]))
    && (forall p :: p in w.busy ==> PhaseOk(w, w.busy[p]))
    && IndexSound(w)
  }

  lemma TickKeeps(w: World, now: int)
    requires Inv(w) && now >= w.now
    ensures Inv(After(w, Tick(now)))
  {
    var r := After(w, Tick(now));
    forall p | p in r.busy ensures PhaseOk(r, r.busy[p]) {
      assert PhaseOk(w, w.busy[p]);
    }
    forall key | AtRest(r, key) ensures Covered(r, key) {
      assert AtRest(w, key) && Covered(w, key);
    }
  }

  lemma SweepCovers(w: World, upTo: int, key: string)
    requires upTo <= w.now && Covered(w, key)
    ensures Covered(After(w, Sweep(upTo)), key)
  {}

  lemma SweepKeeps(w: World, upTo: int)
    requires Inv(w) && upTo <= w.now
    ensures Inv(After(w, Sweep(upTo)))
  {
    hide Covered;
    var r := After(w, Sweep(upTo));
    forall p | p in r.busy ensures PhaseOk(r, r.busy[p]) {
      assert PhaseOk(w, w.busy[p]);
      if Covered(w, w.busy[p].key) {
        SweepCovers(w, upTo, w.busy[p].key);
      }
    }
    forall key | AtRest(r, key) ensures Covered(r, key) {
      assert AtRest(w, key);
      SweepCovers(w, upTo, key);
    }
  }

  /** A new operation finds its key at rest, or, as a removal, among removals only. */
  lemma BeginKeeps(policy: Policy, w: World, p: Pid, kind: Kind, key: string)
    requires Inv(w) && SendsAlone(policy) && Enabled(policy, w, Begin(p, kind, key))
    ensures Inv(After(w, Begin(p, kind, key)))
  {
    hide Covered, Live;
    var r := After(w, Begin(p, kind, key));
    forall q | q in w.busy ensures Overlap(w.busy[q], r.busy[p]) && Overlap(r.busy[p], w.busy[q]) {
      assert w.busy[q].key == key ==> Allows(policy, kind, KindOf(w.busy[q]));
    }
    assert Covered(w, key) by {
      if q :| q in w.busy && w.busy[q].key == key {
        assert PhaseOk(w, w.busy[q]) && KindOf(w.busy[q]) == Removing;
        NotLiveIsCovered(w, key);
      } else {
        assert AtRest(w, key);
      }
    }
    forall q | q in r.busy ensures PhaseOk(r, r.busy[q]) {
      assert q != p ==> PhaseOk(w, w.busy[q]);
      SameCover(w, r, r.busy[q].key);
    }
    forall k | AtRest(r, k) ensures Covered(r, k) {
      assert r.busy[p].key == key;
      assert AtRest(w, k) by {
        forall q | q in w.busy ensures w.busy[q].key != k {
          assert q in r.busy;
        }
      }
      SameCover(w, r, k);
    }
  }

  lemma NotLiveIsCovered(w: World, key: string)
    ensures !Live(w, key) ==> Covered(w, key)
  {}

  lemma SameCover(w: World, r: World, key: string)
    requires r.now == w.now && r.expires == w.expires && r.index == w.index
    ensures Covered(r, key) == Covered(w, key) && Live(r, key) == Live(w, key)
  {}

  /** A command touches its own key only. */
  lemma Elsewhere(w: World, p: Pid, key: string)
    requires p in w.busy && w.busy[p].key != key
    ensures var r := Advanced(w, p);
            && Covered(r, key) == Covered(w, key) && Live(r, key) == Live(w, key)
            && (key in r.expires <==> key in w.expires) && (key in w.expires ==> r.expires[key] == w.expires[key])
  {}

  /** A command on its own key: the operation stays right, and when it ends the key is covered. */
  lemma OwnKey(w: World, p: Pid)
    requires p in w.busy && PhaseOk(w, w.busy[p])
    ensures var r := Advanced(w, p);
            if p in r.busy then r.busy[p].key == w.busy[p].key && PhaseOk(r, r.busy[p])
              && KindOf(r.busy[p]) == KindOf(w.busy[p])
            else Covered(r, w.busy[p].key)
  {}

  /** A removal's command leaves other removals of the key right. */
  lemma OtherRemoval(w: World, p: Pid, other: Phase)
    requires p in w.busy && PhaseOk(w, w.busy[p]) && PhaseOk(w, other)
    requires KindOf(w.busy[p]) == Removing && KindOf(other) == Removing && other.key == w.busy[p].key
    ensures PhaseOk(Advanced(w, p), other)
  {}

  lemma OthersOk(w: World, p: Pid, q: Pid)
    requires Inv(w) && p in w.busy && q in w.busy && p != q
    ensures PhaseOk(Advanced(w, p), w.busy[q])
  {
    hide Covered, Live, IndexSound;
    assert PhaseOk(w, w.busy[p]) && PhaseOk(w, w.busy[q]) && Overlap(w.busy[p], w.busy[q]);
    if w.busy[q].key == w.busy[p].key {
      OtherRemoval(w, p, w.busy[q]);
    } else {
      var r := Advanced(w, p);
      Elsewhere(w, p, w.busy[q].key);
      assert r.now == w.now;
    }
  }

  lemma RestAfter(w: World, p: Pid, key: string)
    requires Inv(w) && p in w.busy && AtRest(Advanced(w, p), key)
    ensures Covered(Advanced(w, p), key)
  {
    hide Covered, Live, PhaseOk;
    var r := Advanced(w, p);
    OwnKey(w, p);
    if key != w.busy[p].key {
      assert AtRest(w, key) by {
        forall q | q in w.busy ensures w.busy[q].key != key {
          assert q != p ==> q in r.busy && r.busy[q] == w.busy[q];
        }
      }
      Elsewhere(w, p, key);
    } else {
      assert p !in r.busy;
    }
  }

  lemma AdvanceKeeps(w: World, p: Pid)
    requires Inv(w) && p in w.busy
    ensures Inv(Advanced(w, p))
  {
    var r := Advanced(w, p);
    OwnKey(w, p);
    forall q | q in r.busy ensures PhaseOk(r, r.busy[q]) {
      if q != p {
        OthersOk(w, p, q);
      }
    }
    forall key | AtRest(r, key) ensures Covered(r, key) {
      RestAfter(w, p, key);
    }
    hide Covered, Live, PhaseOk, IndexSound;
    forall a, b | a in r.busy && b in r.busy && a != b ensures Overlap(r.busy[a], r.busy[b]) {
      assert Overlap(w.busy[a], w.busy[b]);
    }
  }

  lemma {:induction false} RunKeeps(policy: Policy, steps: seq<Step>)
    requires SendsAlone(policy) && Reached(policy, steps).Some?
    ensures Inv(Reached(policy, steps).value)
  {
    hide Inv, SendsAlone, Enabled, After;
    if steps == [] {
      StartOk();
    } else {
      RunKeeps(policy, steps[..|steps| - 1]);
      StepKeeps(policy, Reached(policy, steps[..|steps| - 1]).value, steps[|steps| - 1]);
    }
  }

  lemma StepKeeps(policy: Policy, w: World, s: Step)
    requires Inv(w) && SendsAlone(policy) && Enabled(policy, w, s)
    ensures Inv(After(w, s))
  {
    hide Inv, SendsAlone, Advanced, MayBegin;
    match s
    case Tick(now) => TickKeeps(w, now);
    case Sweep(upTo) => SweepKeeps(w, upTo);
    case Begin(p, kind, key) => BeginKeeps(policy, w, p, kind, key);
    case Advance(p) => AdvanceKeeps(w, p);
  }

  lemma StartOk()
    ensures Inv(START)
  {}

  // ---- and they are needed

  lemma OneMore(policy: Policy, steps: seq<Step>, s: Step, w: World)
    requires Reached(policy, steps) == Some(w) && Enabled(policy, w, s)
    ensures Reached(policy, steps + [s]) == Some(After(w, s))
  {
    assert (steps + [s])[..|steps|] == steps;
  }

  const A := Pid(0)
  const B := Pid(1)

  /** Two sends: the first computes its score, the second stores and indexes, then the first indexes
      with the older score. */
  lemma SendInSend(policy: Policy, key: string) returns (steps: seq<Step>, w: World)
    requires policy.sendInSend
    ensures Reached(policy, steps) == Some(w)
    ensures AtRest(w, key) && Live(w, key) && key in w.index && w.index[key] < w.expires[key]
  {
    hide Reached;
    steps, w := Begun(policy, A, Sending, key);
    steps, w := Next(policy, steps, w, A);
    steps, w := Next(policy, steps, w, A);
    assert w == World(0, map[key := Mail.LIFE], map[], map[A := Index(key, Mail.LIFE)]);
    OneMore(policy, steps, Tick(1), w);
    steps, w := steps + [Tick(1)], After(w, Tick(1));
    OneMore(policy, steps, Begin(B, Sending, key), w);
    steps, w := steps + [Begin(B, Sending, key)], After(w, Begin(B, Sending, key));
    steps, w := Next(policy, steps, w, B);
    steps, w := Next(policy, steps, w, B);
    steps, w := Next(policy, steps, w, B);
    assert w == World(1, map[key := Mail.LIFE + 1], map[key := Mail.LIFE + 1], map[A := Index(key, Mail.LIFE)]);
    steps, w := Next(policy, steps, w, A);
    assert w == World(1, map[key := Mail.LIFE + 1], map[key := Mail.LIFE], map[]);
  }

  lemma Begun(policy: Policy, p: Pid, kind: Kind, key: string) returns (steps: seq<Step>, w: World)
    ensures Reached(policy, steps) == Some(w) && w == After(START, Begin(p, kind, key))
  {
    assert Reached(policy, []) == Some(START);
    OneMore(policy, [], Begin(p, kind, key), START);
    steps, w := [] + [Begin(p, kind, key)], After(START, Begin(p, kind, key));
  }

  lemma Next(policy: Policy, steps: seq<Step>, w: World, p: Pid) returns (steps': seq<Step>, w': World)
    requires Reached(policy, steps) == Some(w) && p in w.busy
    ensures Reached(policy, steps') == Some(w') && w' == Advanced(w, p)
  {
    OneMore(policy, steps, Advance(p), w);
    steps', w' := steps + [Advance(p)], Advanced(w, p);
  }

  /** A first mail, sent and at rest. */
  lemma OneMail(policy: Policy, key: string) returns (steps: seq<Step>, w: World)
    ensures Reached(policy, steps) == Some(w) && w == World(0, map[key := Mail.LIFE], map[key := Mail.LIFE], map[])
  {
    hide Reached;
    steps, w := Begun(policy, A, Sending, key);
    steps, w := Next(policy, steps, w, A);
    steps, w := Next(policy, steps, w, A);
    steps, w := Next(policy, steps, w, A);
  }

  /** A send that begins while a mail is being removed: the removal takes the new mail's key out of
      the index. */
  lemma SendInRemove(policy: Policy, key: string) returns (steps: seq<Step>, w: World)
    requires policy.sendInRemove
    ensures Reached(policy, steps) == Some(w)
    ensures AtRest(w, key) && Live(w, key) && key !in w.index
  {
    hide Reached;
    steps, w := OneMail(policy, key);
    OneMore(policy, steps, Begin(B, Removing, key), w);
    steps, w := steps + [Begin(B, Removing, key)], After(w, Begin(B, Removing, key));
    steps, w := Next(policy, steps, w, B);
    steps, w := Next(policy, steps, w, B);
    assert w == World(0, map[], map[key := Mail.LIFE], map[B := Unindex(key)]);
    OneMore(policy, steps, Begin(A, Sending, key), w);
    steps, w := steps + [Begin(A, Sending, key)], After(w, Begin(A, Sending, key));
    steps, w := Next(policy, steps, w, A);
    steps, w := Next(policy, steps, w, A);
    steps, w := Next(policy, steps, w, A);
    assert w == World(0, map[key := Mail.LIFE], map[key := Mail.LIFE], map[B := Unindex(key)]);
    steps, w := Next(policy, steps, w, B);
    assert w == World(0, map[key := Mail.LIFE], map[], map[]);
  }

  /** A removal that begins while a mail is being sent over an older one, with the same effect. */
  lemma RemoveInSend(policy: Policy, key: string) returns (steps: seq<Step>, w: World)
    requires policy.removeInSend
    ensures Reached(policy, steps) == Some(w)
    ensures AtRest(w, key) && Live(w, key) && key !in w.index
  {
    hide Reached;
    steps, w := OneMail(policy, key);
    OneMore(policy, steps, Begin(A, Sending, key), w);
    steps, w := steps + [Begin(A, Sending, key)], After(w, Begin(A, Sending, key));
    OneMore(policy, steps, Begin(B, Removing, key), w);
    steps, w := steps + [Begin(B, Removing, key)], After(w, Begin(B, Removing, key));
    steps, w := Next(policy, steps, w, B);
    steps, w := Next(policy, steps, w, B);
    assert w == World(0, map[], map[key := Mail.LIFE], map[A := Store(key), B := Unindex(key)]);
    steps, w := Next(policy, steps, w, A);
    steps, w := Next(policy, steps, w, A);
    steps, w := Next(policy, steps, w, A);
    assert w == World(0, map[key := Mail.LIFE], map[key := Mail.LIFE], map[B := Unindex(key)]);
    steps, w := Next(policy, steps, w, B);
    assert w == World(0, map[key := Mail.LIFE], map[], map[]);
  }

  /** Which overlaps the index survives: in every interleaving that keeps to a policy every live mail
      at rest is indexed until it expires, if and only if the policy lets no operation overlap a send
      of the same key. Removals may overlap each other, and operations on other keys anything. */
  lemma IndexSoundIffSendsAlone(policy: Policy)
    ensures (forall steps :: Reached(policy, steps).Some? ==> IndexSound(Reached(policy, steps).value)) <==>
          SendsAlone(policy)
  {
    hide Reached, Live, AtRest;
    if SendsAlone(policy) {
      forall steps | Reached(policy, steps).Some? ensures IndexSound(Reached(policy, steps).value) {
        RunKeeps(policy, steps);
      }
    } else {
      var steps, w;
      if policy.sendInSend {
        steps, w := SendInSend(policy, "k");
      } else if policy.sendInRemove {
        steps, w := SendInRemove(policy, "k");
      } else {
        steps, w := RemoveInSend(policy, "k");
      }
      assert !Covered(w, "k");
      assert !IndexSound(w);
    }
  }
}
