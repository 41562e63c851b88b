/** Editing a loadout: the requests a player can send, what each does, and what holds after every
    run of them in one week. */
module LoadoutSets {
  import opened Results
  import opened Collections
  import opened WeekPool
  import opened Loadouts

  /** A request; a list that is missing or not an array is None, a member that is no integer is 0. */
  datatype Request =
    | PickTeam(ids: Option<seq<int>>)
    | PickSkill(charId: int, id: int)
    | PickNei(charId: int, id: int)
    | PickEquips(charId: int, ids: Option<seq<int>>)
    | Other

  function NickOf(pool: Pool, id: int): string {
    var p := FindItem(pool.chars, id);
    if p.Some? then p.value.nick else ""
  }

  predicate Distinct(ids: seq<int>) {
    forall i, j :: 0 <= i < j < |ids| ==> ids[i] != ids[j]
  }

  predicate DistinctNicks(pool: Pool, ids: seq<int>) {
    forall i, j :: 0 <= i < j < |ids| && NickOf(pool, ids[i]) != "" ==> NickOf(pool, ids[i]) != NickOf(pool, ids[j])
  }

  /** Persons of the pool, none twice, no two of the same name. */
  predicate TeamOk(pool: Pool, ids: seq<int>) {
    && (forall i :: 0 <= i < |ids| ==> InPool(pool.chars, ids[i]))
    && Distinct(ids)
    && DistinctNicks(pool, ids)
  }

  predicate EquipsOk(pool: Pool, ids: seq<int>) {
    && (forall i :: 0 <= i < |ids| ==> InPool(pool.equips, ids[i]))
    && Distinct(ids)
  }

  function NonZero(ids: seq<int>): (r: seq<int>)
    ensures |r| <= |ids|
  {
    if ids == [] then []
    else if ids[|ids| - 1] == 0 then NonZero(ids[..|ids| - 1])
    else NonZero(ids[..|ids| - 1]) + [ids[|ids| - 1]]
  }

  function OnlyOf<K, V>(m: map<K, V>, team: seq<K>): map<K, V> {
    map c | c in m && c in team :: m[c]
  }

  /** The edit alone; None is a refusal. */
  function Edited(pool: Pool, l: Loadout, req: Request): Option<Loadout> {
    match req
    case PickTeam(ids) =>
      if ids.Some? && 1 <= |ids.value| <= MAX_TEAM && TeamOk(pool, ids.value) then
        var team := ids.value;
        Some(Loadout(team, OnlyOf(l.skill, team), OnlyOf(l.nei, team), OnlyOf(l.equip, team)))
      else None
    case PickSkill(c, id) =>
      if c in l.chars && (id == 0 || InPool(pool.skills, id)) && TryAssign(l.skill, c, id).Some? then
        Some(l.(skill := TryAssign(l.skill, c, id).value))
      else None
    case PickNei(c, id) =>
      if c in l.chars && (id == 0 || InPool(pool.neis, id)) && TryAssign(l.nei, c, id).Some? then
        Some(l.(nei := TryAssign(l.nei, c, id).value))
      else None
    case PickEquips(c, ids) =>
      if c in l.chars && ids.Some? && |ids.value| <= 4 && EquipsOk(pool, NonZero(ids.value)) then
        var worn := NonZero(ids.value);
        Some(l.(equip := if worn == [] then l.equip - {c} else l.equip[c := worn]))
      else None
    case Other => None
  }

  /** The stored loadout after a request; a refusal stores nothing. */
  function AfterSet(pool: Pool, l: Loadout, req: Request): Loadout {
    var e := Edited(pool, l, req);
    if e.Some? then EnsuredLoadout(pool, e.value) else l
  }

  predicate SharedOk(chars: seq<int>, m: map<int, int>, items: seq<PoolItem>) {
    Exclusive(chars, m, items) && NothingLeft(chars, m, items)
  }

  predicate WornOk(pool: Pool, chars: seq<int>, equip: map<int, seq<int>>) {
    forall c :: c in equip ==> c in chars && 1 <= |equip[c]| <= 4 && EquipsOk(pool, equip[c])
  }

  /** What every stored loadout is. */
  predicate LoadoutOk(pool: Pool, l: Loadout) {
    && |l.chars| <= MAX_TEAM
    && TeamOk(pool, l.chars)
    && SharedOk(l.chars, l.skill, pool.skills)
    && SharedOk(l.chars, l.nei, pool.neis)
    && WornOk(pool, l.chars, l.equip)
  }

  predicate PositivePool(pool: Pool) {
    PositiveIds(pool.skills) && PositiveIds(pool.neis)
  }

  lemma EnsuredOk(pool: Pool, l: Loadout)
    requires PositivePool(pool)
    requires |l.chars| <= MAX_TEAM && TeamOk(pool, l.chars) && WornOk(pool, l.chars, l.equip)
    ensures LoadoutOk(pool, EnsuredLoadout(pool, l))
  {
    EnsuredIsComplete(l.chars, l.skill, pool.skills);
    EnsuredIsComplete(l.chars, l.nei, pool.neis);
  }

  /** Every request keeps every promise, whatever it asks. */
  lemma SetKeepsOk(pool: Pool, l: Loadout, req: Request)
    requires PositivePool(pool) && LoadoutOk(pool, l)
    ensures LoadoutOk(pool, AfterSet(pool, l, req))
  {
    hide TeamOk, EquipsOk, SharedOk, NonZero, InPool, TryAssign;
    if Edited(pool, l, req).Some? {
      EnsuredOk(pool, Edited(pool, l, req).value);
    }
  }

  // ---- storing as text and reading back

  function Positives(ids: seq<int>): seq<int> {
    if ids == [] then []
    else if ids[0] > 0 then [ids[0]] + Positives(ids[1..])
    else Positives(ids[1..])
  }

  /** Reading a stored loadout drops assignments that are not between positive ids. */
  function Reloaded(l: Loadout): Loadout {
    Loadout(l.chars,
            map c | c in l.skill && c > 0 && l.skill[c] > 0 :: l.skill[c],
            map c | c in l.nei && c > 0 && l.nei[c] > 0 :: l.nei[c],
            map c | c in l.equip && c > 0 && Positives(l.equip[c]) != [] :: Positives(l.equip[c]))
  }

  lemma {:induction false} PositivesOfPositive(ids: seq<int>)
    requires forall i :: 0 <= i < |ids| ==> ids[i] > 0
    ensures Positives(ids) == ids
  {
    if ids != [] {
      PositivesOfPositive(ids[1..]);
    }
  }

  lemma SharedReload(chars: seq<int>, m: map<int, int>, items: seq<PoolItem>)
    requires Exclusive(chars, m, items) && PositiveIds(items) && forall i :: 0 <= i < |chars| ==> chars[i] > 0
    ensures m == map c | c in m && c > 0 && m[c] > 0 :: m[c]
  {
    var n := map c | c in m && c > 0 && m[c] > 0 :: m[c];
    forall c ensures c in m <==> c in n {
      if c in m {
        assert c in chars && m[c] in PoolIds(items);
      }
    }
    forall c | c in m ensures m[c] == n[c] {}
    SameMap(m, n);
  }

  lemma WornReload(pool: Pool, chars: seq<int>, m: map<int, seq<int>>)
    requires WornOk(pool, chars, m) && forall i :: 0 <= i < |chars| ==> chars[i] > 0
    ensures m == map c | c in m && c > 0 && Positives(m[c]) != [] :: Positives(m[c])
  {
    var n := map c | c in m && c > 0 && Positives(m[c]) != [] :: Positives(m[c]);
    forall c | c in m ensures Positives(m[c]) == m[c] && c > 0 && m[c] != [] {
      PositivesOfPositive(m[c]);
    }
    forall c ensures c in m <==> c in n {}
    forall c | c in m ensures m[c] == n[c] {}
    SameMap(m, n);
  }

  /** Nothing is lost between two requests. */
  lemma ReloadedIsSame(pool: Pool, l: Loadout)
    requires PositivePool(pool) && LoadoutOk(pool, l)
    ensures Reloaded(l) == l
  {
    SharedReload(l.chars, l.skill, pool.skills);
    SharedReload(l.chars, l.nei, pool.neis);
    WornReload(pool, l.chars, l.equip);
  }

  // ---- repairing a loadout when it is shown

  function NicksOf(pool: Pool, ids: seq<int>): set<string> {
    set i | 0 <= i < |ids| :: NickOf(pool, ids[i])
  }

  /** Keeps the first of each person and of each name. */
  function RepairedTeam(pool: Pool, ids: seq<int>): seq<int> {
    if ids == [] then []
    else
      var kept := RepairedTeam(pool, ids[..|ids| - 1]);
      var id := ids[|ids| - 1];
      if !InPool(pool.chars, id) || id in kept then kept
      else if NickOf(pool, id) != "" && NickOf(pool, id) in NicksOf(pool, kept) then kept
      else kept + [id]
  }

  function Repaired(pool: Pool, l: Loadout): Loadout {
    var team := RepairedTeam(pool, l.chars);
    if team == [] then l else EnsuredLoadout(pool, l.(chars := team))
  }

  /** The repaired team is always a proper one; a person is only left out for being outside the
      pool, or for sharing a name (or identity) with one who stays. */
  lemma {:induction false} RepairedTeamIsOk(pool: Pool, ids: seq<int>)
    ensures TeamOk(pool, RepairedTeam(pool, ids)) && |RepairedTeam(pool, ids)| <= |ids|
    ensures forall id :: id in RepairedTeam(pool, ids) ==> id in ids
    ensures forall id :: id in ids && InPool(pool.chars, id) && id !in RepairedTeam(pool, ids) ==>
              NickOf(pool, id) in NicksOf(pool, RepairedTeam(pool, ids))
  {
    if ids != [] {
      var front, last := ids[..|ids| - 1], ids[|ids| - 1];
      RepairedTeamIsOk(pool, front);
      assert ids == front + [last];
      var kept := RepairedTeam(pool, front);
      var r := RepairedTeam(pool, ids);
      forall i | 0 <= i < |kept| ensures NickOf(pool, kept[i]) in NicksOf(pool, kept)
            && NickOf(pool, kept[i]) in NicksOf(pool, r) {
        assert r[i] == kept[i];
      }
    }
  }

  lemma TeamIsEmptyIff(pool: Pool, ids: seq<int>)
    ensures RepairedTeam(pool, ids) != [] <==> exists c :: c in ids && InPool(pool.chars, c)
  {
    RepairedTeamIsOk(pool, ids);
    var team := RepairedTeam(pool, ids);
    if team != [] {
      assert team[0] in ids;
    } else {
      assert NicksOf(pool, team) == {};
    }
  }

  lemma {:induction false} RepairedTeamOfOk(pool: Pool, ids: seq<int>)
    requires TeamOk(pool, ids)
    ensures RepairedTeam(pool, ids) == ids
  {
    if ids != [] {
      var front, last := ids[..|ids| - 1], ids[|ids| - 1];
      RepairedTeamOfOk(pool, front);
      assert ids == front + [last];
    }
  }

  /** A loadout that keeps its promises is shown as it is. */
  lemma RepairedOfOk(pool: Pool, l: Loadout)
    requires PositivePool(pool) && LoadoutOk(pool, l)
    ensures Repaired(pool, l) == l
  {
    RepairedTeamOfOk(pool, l.chars);
    EnsuredOfComplete(l.chars, l.skill, pool.skills);
    EnsuredOfComplete(l.chars, l.nei, pool.neis);
  }

  /** What repairing does: nothing to a loadout with nobody from the pool. Otherwise the team becomes a
      proper one, skills and arts are exclusive and nobody goes without who could have one; whoever
      stays keeps a skill or an art that nobody else on the team has, and all equipment stays. */
  lemma RepairedMeaning(pool: Pool, l: Loadout, c: int)
    requires PositivePool(pool)
    ensures var r := Repaired(pool, l);
            if exists c :: c in l.chars && InPool(pool.chars, c) then
              && r.chars != [] && TeamOk(pool, r.chars) && r.equip == l.equip
              && SharedOk(r.chars, r.skill, pool.skills) && SharedOk(r.chars, r.nei, pool.neis)
              && (c in r.chars && Own(l.skill, c, pool.skills) ==> c in r.skill && r.skill[c] == l.skill[c])
              && (c in r.chars && Own(l.nei, c, pool.neis) ==> c in r.nei && r.nei[c] == l.nei[c])
            else r == l
  {
    hide TeamOk, SharedOk, Own;
    TeamIsEmptyIff(pool, l.chars);
    var team := RepairedTeam(pool, l.chars);
    if team != [] {
      RepairedTeamIsOk(pool, l.chars);
      SharesComplete(team, l.skill, pool.skills, c);
      SharesComplete(team, l.nei, pool.neis, c);
    }
  }

  /** The person has an item of the pool that nobody else has. */
  predicate Own(m: map<int, int>, c: int, items: seq<PoolItem>) {
    c in m && m[c] in PoolIds(items) && forall o :: o in m && o != c ==> m[o] != m[c]
  }

  lemma SharesComplete(chars: seq<int>, m: map<int, int>, items: seq<PoolItem>, c: int)
    requires PositiveIds(items)
    ensures SharedOk(chars, Ensured(chars, m, items), items)
    ensures c in chars && Own(m, c, items) ==> c in Ensured(chars, m, items) && Ensured(chars, m, items)[c] == m[c]
  {
    hide Ensured, Exclusive, NothingLeft;
    EnsuredIsComplete(chars, m, items);
    if c in chars && Own(m, c, items) {
      var i :| 0 <= i < |chars| && chars[i] == c;
      EnsuredKeepsValid(chars, m, items, i);
    }
  }

  /** Repairing is done at once: a second repair finds nothing, whatever was stored. */
  lemma RepairedIdempotent(pool: Pool, l: Loadout)
    requires PositivePool(pool)
    ensures Repaired(pool, Repaired(pool, l)) == Repaired(pool, l)
  {
    var team := RepairedTeam(pool, l.chars);
    if team != [] {
      RepairedTeamIsOk(pool, l.chars);
      RepairedTeamOfOk(pool, team);
      EnsuredIdempotent(team, l.skill, pool.skills);
      EnsuredIdempotent(team, l.nei, pool.neis);
    }
  }

  // ---- every run of a week

  /** What touches a stored loadout: a request, an upload of the fighter's power, or showing it. */
  datatype Action = Set(req: Request) | Upload | Show

  function AfterAction(pool: Pool, stored: Loadout, a: Action): Loadout {
    var l := Reloaded(stored);
    match a
    case Set(req) => AfterSet(pool, l, req)
    case Upload => if l.chars == [] then l else EnsuredLoadout(pool, l)
    case Show => Repaired(pool, l)
  }

  function AfterRun(pool: Pool, actions: seq<Action>): Loadout {
    if actions == [] then EMPTY else AfterAction(pool, AfterRun(pool, actions[..|actions| - 1]), actions[|actions| - 1])
  }

  lemma EmptyOk(pool: Pool)
    ensures LoadoutOk(pool, EMPTY)
  {
    assert forall c :: c !in EMPTY.chars;
  }

  lemma {:induction false} RunKeepsOk(pool: Pool, actions: seq<Action>)
    requires PositivePool(pool)
    ensures LoadoutOk(pool, AfterRun(pool, actions))
  {
    hide LoadoutOk, AfterSet, Repaired, EnsuredLoadout, Reloaded;
    if actions == [] {
      EmptyOk(pool);
    } else {
      var front, a := actions[..|actions| - 1], actions[|actions| - 1];
      RunKeepsOk(pool, front);
      var l := AfterRun(pool, front);
      ReloadedIsSame(pool, l);
      match a
      case Set(req) => SetKeepsOk(pool, l, req);
      case Upload => UploadKeeps(pool, l);
      case Show => RepairedOfOk(pool, l);
    }
  }

  lemma UploadKeeps(pool: Pool, l: Loadout)
    requires PositivePool(pool) && LoadoutOk(pool, l)
    ensures EnsuredLoadout(pool, l) == l
  {
    EnsuredOfComplete(l.chars, l.skill, pool.skills);
    EnsuredOfComplete(l.chars, l.nei, pool.neis);
  }

  /** After any run: the team is 0 to 5 different persons of the pool with different names, skills
      and arts are exclusive pool items, and everybody has one exactly when the pool has enough. */
  lemma RunIsFair(pool: Pool, actions: seq<Action>)
    requires PositivePool(pool)
    ensures var l := AfterRun(pool, actions);
            && |l.chars| <= MAX_TEAM && TeamOk(pool, l.chars)
            && Exclusive(l.chars, l.skill, pool.skills) && Exclusive(l.chars, l.nei, pool.neis)
            && (l.skill.Keys == Team(l.chars) <==> |PoolIds(pool.skills)| >= |l.chars|)
            && (l.nei.Keys == Team(l.chars) <==> |PoolIds(pool.neis)| >= |l.chars|)
            && WornOk(pool, l.chars, l.equip)
  {
    RunKeepsOk(pool, actions);
    var l := AfterRun(pool, actions);
    CompleteIffEnough(l.chars, l.skill, pool.skills);
    CompleteIffEnough(l.chars, l.nei, pool.neis);
    TeamSize(l.chars);
  }

  lemma {:induction false} TeamSize(ids: seq<int>)
    requires Distinct(ids)
    ensures |Team(ids)| == |ids|
  {
    if ids == [] {
      SameSet(Team(ids), {});
    } else {
      var front, last := ids[..|ids| - 1], ids[|ids| - 1];
      TeamSize(front);
      forall c ensures c in Team(ids) <==> c in Team(front) + {last} {
        assert ids == front + [last];
      }
      SameSet(Team(ids), Team(front) + {last});
    }
  }

  /** A run goes on from where it was: a choice acts on the loadout as the run left it, and neither an
      upload nor looking at it changes it. */
  lemma RunGoesOn(pool: Pool, actions: seq<Action>, a: Action)
    requires PositivePool(pool)
    ensures AfterRun(pool, []) == EMPTY
    ensures AfterRun(pool, actions + [a]) ==
              if a.Set? then AfterSet(pool, AfterRun(pool, actions), a.req) else AfterRun(pool, actions)
  {
    hide LoadoutOk, AfterSet, Repaired, EnsuredLoadout, Reloaded;
    assert (actions + [a])[..|actions|] == actions;
    RunKeepsOk(pool, actions);
    var l := AfterRun(pool, actions);
    ReloadedIsSame(pool, l);
    UploadKeeps(pool, l);
    RepairedOfOk(pool, l);
  }

  // ---- the loops of the source

  /** Reads one map of a stored loadout, pair by pair. */
  method ReadMap(body: map<int, int>) returns (out: map<int, int>)
    ensures out == map c | c in body && c > 0 && body[c] > 0 :: body[c]
  {
    out := map[];
    var rest := body.Keys;
    while rest != {}
      invariant rest <= body.Keys
      invariant forall c :: c in out <==> c in body && c !in rest && c > 0 && body[c] > 0
      invariant forall c :: c in out ==> out[c] == body[c]
      decreases |rest|
    {
      ghost var some := Pick(rest);
      assert exists c :: c in rest;
      var c :| c in rest;
      rest := rest - {c};
      if c > 0 && body[c] > 0 {
        out := out[c := body[c]];
      }
    }
    ghost var kept := map c | c in body && c > 0 && body[c] > 0 :: body[c];
    forall c ensures c in out <==> c in kept {}
    SameMap(out, kept);
  }

  method ReadIds(ids: seq<int>) returns (r: seq<int>)
    ensures r == Positives(ids)
  {
    r := [];
    var i := 0;
    while i < |ids|
      invariant 0 <= i <= |ids| && r + Positives(ids[i..]) == Positives(ids)
    {
      assert ids[i..][1..] == ids[i + 1..];
      if ids[i] > 0 {
        r := r + [ids[i]];
      }
      i := i + 1;
    }
  }

  /** Equipment is kept for positive ids with at least one positive piece. */
  method ReadEquip(body: map<int, seq<int>>) returns (out: map<int, seq<int>>)
    ensures out == map c | c in body && c > 0 && Positives(body[c]) != [] :: Positives(body[c])
  {
    out := map[];
    var rest := body.Keys;
    while rest != {}
      invariant rest <= body.Keys
      invariant forall c :: c in out <==> c in body && c !in rest && c > 0 && Positives(body[c]) != []
      invariant forall c :: c in out ==> out[c] == Positives(body[c])
      decreases |rest|
    {
      ghost var some := Pick(rest);
      assert exists c :: c in rest;
      var c :| c in rest;
      rest := rest - {c};
      if c > 0 {
        var equips := ReadIds(body[c]);
        if equips != [] {
          out := out[c := equips];
        }
      }
    }
    ghost var kept := map c | c in body && c > 0 && Positives(body[c]) != [] :: Positives(body[c]);
    forall c ensures c in out <==> c in kept {}
    SameMap(out, kept);
  }

  /** A stored loadout as it is read again. */
  method ParseLoadout(stored: Loadout) returns (l: Loadout)
    ensures l == Reloaded(stored)
  {
    var skill := ReadMap(stored.skill);
    var nei := ReadMap(stored.nei);
    var equip := ReadEquip(stored.equip);
    l := Loadout(stored.chars, skill, nei, equip);
  }

  /** Looks at one id after the other, remembering the names used. */
  method CheckTeam(pool: Pool, given: seq<int>) returns (ok: bool)
    ensures ok <==> TeamOk(pool, given)
  {
    var ids: seq<int>, usedNicks := [], {};
    var k := 0;
    while k < |given|
      invariant 0 <= k <= |given| && ids == given[..k]
      invariant usedNicks == NicksOf(pool, ids) - {""}
      invariant TeamOk(pool, ids)
    {
      var id := given[k];
      if !InPool(pool.chars, id) || id in ids {
        return false;
      }
      var nick := NickOf(pool, id);
      if nick != "" {
        if nick in usedNicks {
          var j :| 0 <= j < |ids| && NickOf(pool, ids[j]) == nick;
          assert given[j] == ids[j];
          return false;
        }
        usedNicks := usedNicks + {nick};
      }
      assert given[..k + 1] == ids + [id];
      NicksGrow(pool, ids, id);
      forall j | 0 <= j < |ids| ensures NickOf(pool, ids[j]) in NicksOf(pool, ids) {}
      ids := ids + [id];
      k := k + 1;
    }
    assert ids == given;
    ok := true;
  }

  lemma NicksGrow(pool: Pool, ids: seq<int>, id: int)
    ensures NicksOf(pool, ids + [id]) == NicksOf(pool, ids) + {NickOf(pool, id)}
  {
    var more := ids + [id];
    assert more[|ids|] == id;
    forall i | 0 <= i < |ids| ensures more[i] == ids[i] && NickOf(pool, ids[i]) in NicksOf(pool, more) {
      assert more[i] == ids[i];
    }
  }

  /** Gathers the worn pieces, skipping empty places. */
  method CheckEquips(pool: Pool, given: seq<int>) returns (worn: Option<seq<int>>)
    ensures worn == if EquipsOk(pool, NonZero(given)) then Some(NonZero(given)) else None
  {
    var ids: seq<int> := [];
    var k := 0;
    while k < |given|
      invariant 0 <= k <= |given| && ids == NonZero(given[..k])
      invariant EquipsOk(pool, ids)
    {
      var id := given[k];
      assert given[..k + 1][..k] == given[..k];
      if id != 0 {
        if !InPool(pool.equips, id) || id in ids {
          PrefixNotOk(pool, given, k);
          return None;
        }
        ids := ids + [id];
      }
      k := k + 1;
    }
    assert given[..k] == given;
    worn := Some(ids);
  }

  /** What is bad about a prefix stays bad. */
  lemma {:induction false} NonZeroPrefix(ids: seq<int>, k: nat)
    requires k <= |ids|
    ensures NonZero(ids[..k]) <= NonZero(ids)
  {
    if k == |ids| {
      assert ids[..k] == ids;
    } else {
      var front := ids[..|ids| - 1];
      NonZeroPrefix(front, k);
      assert front[..k] == ids[..k];
    }
  }

  lemma PrefixNotOk(pool: Pool, given: seq<int>, k: nat)
    requires k < |given| && given[k] != 0
    requires !InPool(pool.equips, given[k]) || given[k] in NonZero(given[..k])
    ensures !EquipsOk(pool, NonZero(given))
  {
    hide NonZero, InPool;
    var before := NonZero(given[..k]);
    NonZeroPrefix(given, k + 1);
    NonZeroStep(given, k);
    var all := NonZero(given);
    assert before + [given[k]] <= all;
    var n := |before|;
    assert all[n] == (before + [given[k]])[n];
    if given[k] in before {
      var j :| 0 <= j < n && before[j] == given[k];
      assert all[j] == (before + [given[k]])[j];
      assert !Distinct(all);
    } else {
      assert !InPool(pool.equips, all[n]);
    }
  }

  lemma NonZeroStep(ids: seq<int>, k: nat)
    requires k < |ids|
    ensures NonZero(ids[..k + 1]) == if ids[k] == 0 then NonZero(ids[..k]) else NonZero(ids[..k]) + [ids[k]]
  {
    assert ids[..k + 1][..k] == ids[..k];
  }

  /** Erases, one after the other, the entries of those who left the team. */
  method KeepTeam<K, V>(m: map<K, V>, team: seq<K>) returns (r: map<K, V>)
    ensures r == OnlyOf(m, team)
  {
    r := m;
    var rest := m.Keys;
    while rest != {}
      invariant rest <= r.Keys <= m.Keys
      invariant forall c :: c in m && (c in rest || c in team) ==> c in r
      invariant forall c :: c in r ==> c in m && r[c] == m[c] && (c in rest || c in team)
      decreases |rest|
    {
      ghost var some := Pick(rest);
      assert exists c :: c in rest;
      var c :| c in rest;
      rest := rest - {c};
      if c !in team {
        r := r - {c};
      }
    }
  }

  method HandleSet(pool: Pool, l: Loadout, req: Request) returns (ok: bool, r: Loadout)
    requires PositivePool(pool)
    ensures r == AfterSet(pool, l, req)
    ensures ok <==> Edited(pool, l, req).Some?
  {
    hide TeamOk, EquipsOk, OnlyOf, NonZero, InPool, EnsuredLoadout;
    ok, r := false, l;
    var e := l;
    match req {
      case PickTeam(ids) =>
        if ids == None || |ids.value| == 0 || |ids.value| > MAX_TEAM { return; }
        var good := CheckTeam(pool, ids.value);
        if !good { return; }
        var skill := KeepTeam(l.skill, ids.value);
        var nei := KeepTeam(l.nei, ids.value);
        var equip := KeepTeam(l.equip, ids.value);
        e := Loadout(ids.value, skill, nei, equip);
      case PickSkill(c, id) =>
        if c !in l.chars || (id != 0 && !InPool(pool.skills, id)) { return; }
        var m := TryAssignKungfu(l.skill, c, id);
        if m == None { return; }
        e := l.(skill := m.value);
      case PickNei(c, id) =>
        if c !in l.chars || (id != 0 && !InPool(pool.neis, id)) { return; }
        var m := TryAssignKungfu(l.nei, c, id);
        if m == None { return; }
        e := l.(nei := m.value);
      case PickEquips(c, ids) =>
        if c !in l.chars || ids == None || |ids.value| > 4 { return; }
        var worn := CheckEquips(pool, ids.value);
        if worn == None { return; }
        e := l.(equip := if worn.value == [] then l.equip - {c} else l.equip[c := worn.value]);
      case Other =>
        return;
    }
    ok := true;
    var changed;
    r, changed := EnsureLoadoutKungfu(pool, e);
  }
}
