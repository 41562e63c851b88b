/** Computer-run fighters: how a team is dealt from the week's pool, and when its fight data counts
    as belonging to the week. */
module NpcTeams {
  import opened Results
  import opened Collections
  import opened WeekPool
  import opened Loadouts
  import opened LoadoutSets
  import opened FightData

  /** What a built pool is: positive ids, persons with different ids and names. */
  predicate PoolSound(pool: Pool) {
    && PositivePool(pool) && PositiveIds(pool.equips) && PositiveIds(pool.chars)
    && forall i, j :: 0 <= i < j < |pool.chars| ==>
      pool.chars[i].id != pool.chars[j].id && pool.chars[i].nick != pool.chars[j].nick
  }

  // ---- fight power

  function StarOf(items: seq<PoolItem>, id: int): (star: int)
    ensures star >= 1
  {
    var item := FindItem(items, id);
    if item.Some? && item.value.star > 1 then item.value.star else 1
  }

  function SumStars(items: seq<PoolItem>, ids: seq<int>): int {
    if ids == [] then 0 else SumStars(items, ids[..|ids| - 1]) + StarOf(items, ids[|ids| - 1])
  }

  function PowerOfOne(pool: Pool, l: Loadout, c: int): int {
    2000
    + (if c in l.skill then 600 * StarOf(pool.skills, l.skill[c]) else 0)
    + (if c in l.nei then 600 * StarOf(pool.neis, l.nei[c]) else 0)
    + 200 * SumStars(pool.equips, WornBy(l, c))
  }

  function PowerUpTo(pool: Pool, l: Loadout, k: nat): int
    requires k <= |l.chars|
  {
    if k == 0 then 5000 else PowerUpTo(pool, l, k - 1) + PowerOfOne(pool, l, l.chars[k - 1])
  }

  function FightPower(pool: Pool, l: Loadout): int {
    PowerUpTo(pool, l, |l.chars|)
  }

  // ---- dealing a team

  /** Ids of the pieces for one slot, in pool order. */
  function Candidates(pool: Pool, items: seq<PoolItem>, slot: int): seq<int> {
    if items == [] then []
    else
      var before := Candidates(pool, items[..|items| - 1], slot);
      var id := items[|items| - 1].id;
      if EquipSlot(pool, id) == slot then before + [id] else before
  }

  function Bag(pool: Pool, slot: int): seq<int> {
    Candidates(pool, pool.equips, slot)
  }

  function IdsOf(items: seq<PoolItem>): (ids: seq<int>)
    ensures |ids| == |items| && forall i :: 0 <= i < |ids| ==> ids[i] == items[i].id
  {
    seq(|items|, i requires 0 <= i < |items| => items[i].id)
  }

  /** The random choices behind one team: three shuffles, and for every person a draw per slot. */
  datatype Roll = Roll(chars: seq<int>, skills: seq<int>, neis: seq<int>, draws: seq<seq<nat>>)

  predicate RollOk(pool: Pool, roll: Roll) {
    && multiset(roll.chars) == multiset(IdsOf(pool.chars))
    && multiset(roll.skills) == multiset(IdsOf(pool.skills))
    && multiset(roll.neis) == multiset(IdsOf(pool.neis))
    && |roll.draws| == MAX_TEAM
    && (forall n :: 0 <= n < MAX_TEAM ==> |roll.draws[n]| == EQUIP_SLOTS)
  }

  /** One drawn piece for each of the first `k` slots that has any. */
  function Drawn(pool: Pool, draws: seq<nat>, k: nat): (worn: seq<int>)
    requires k <= |draws|
    ensures |worn| <= k
  {
    if k == 0 then []
    else
      var before := Drawn(pool, draws, k - 1);
      var bag := Bag(pool, k - 1);
      if bag != [] then before + [bag[draws[k - 1] % |bag|]] else before
  }

  /** The first `n` persons, each taking the last item left in both bags. */
  function Dealt(pool: Pool, roll: Roll, n: nat): (l: Loadout)
    requires n <= |roll.chars| && n <= |roll.draws|
    requires forall i :: 0 <= i < |roll.draws| ==> |roll.draws[i]| == EQUIP_SLOTS
    ensures l.chars == roll.chars[..n]
  {
    if n == 0 then EMPTY
    else
      var l := Dealt(pool, roll, n - 1);
      var c := roll.chars[n - 1];
      var worn := Drawn(pool, roll.draws[n - 1], EQUIP_SLOTS);
      Loadout(l.chars + [c],
              if n <= |roll.skills| then l.skill[c := roll.skills[|roll.skills| - n]] else l.skill,
              if n <= |roll.neis| then l.nei[c := roll.neis[|roll.neis| - n]] else l.nei,
              if worn != [] then l.equip[c := worn] else l.equip)
  }

  function TeamSizeOf(pool: Pool): nat {
    if |pool.chars| < MAX_TEAM then |pool.chars| else MAX_TEAM
  }

  lemma RollSize(pool: Pool, roll: Roll)
    requires RollOk(pool, roll)
    ensures |roll.chars| == |pool.chars|
  {
    assert |multiset(roll.chars)| == |multiset(IdsOf(pool.chars))|;
  }

  function NpcLoadout(pool: Pool, roll: Roll): Loadout
    requires RollOk(pool, roll)
  {
    RollSize(pool, roll);
    EnsuredLoadout(pool, Dealt(pool, roll, TeamSizeOf(pool)))
  }

  // ---- dealt teams are proper loadouts

  lemma ShuffledDistinct(a: seq<int>, b: seq<int>)
    requires multiset(a) == multiset(b) && Distinct(b)
    ensures Distinct(a)
  {
    forall i, j | 0 <= i < j < |a| ensures a[i] != a[j] {
      if a[i] == a[j] {
        TwiceCounts(a, i, j);
        DistinctOnce(b, a[i]);
      }
    }
  }

  lemma {:induction false} DistinctOnce(b: seq<int>, x: int)
    requires Distinct(b)
    ensures multiset(b)[x] <= 1
  {
    if b != [] {
      var front, last := b[..|b| - 1], b[|b| - 1];
      DistinctOnce(front, x);
      assert b == front + [last];
      if last == x {
        assert x !in front;
        assert multiset(front)[x] == 0;
      }
    }
  }

  lemma {:induction false} PersonById(items: seq<PoolItem>, i: nat)
    requires i < |items| && forall a, b :: 0 <= a < b < |items| ==> items[a].id != items[b].id
    ensures FindItem(items, items[i].id) == Some(items[i])
  {
    if i > 0 {
      PersonById(items[1..], i - 1);
    }
  }

  /** Any part of a shuffle of the pool's persons is a proper team. */
  lemma PoolTeamOk(pool: Pool, ids: seq<int>, n: nat)
    requires PoolSound(pool) && multiset(ids) == multiset(IdsOf(pool.chars)) && n <= |ids|
    ensures TeamOk(pool, ids[..n])
  {
    var all := IdsOf(pool.chars);
    assert Distinct(all);
    ShuffledDistinct(ids, all);
    forall k | 0 <= k < n
      ensures exists i :: 0 <= i < |all| && all[i] == ids[k] && FindItem(pool.chars, ids[k]) == Some(pool.chars[i])
    {
      assert ids[k] in multiset(ids);
      assert ids[k] in multiset(all);
      var i :| 0 <= i < |all| && all[i] == ids[k];
      PersonById(pool.chars, i);
    }
    forall k | 0 <= k < n ensures InPool(pool.chars, ids[k]) {
      var i :| 0 <= i < |all| && all[i] == ids[k] && FindItem(pool.chars, ids[k]) == Some(pool.chars[i]);
      assert pool.chars[i] in pool.chars;
    }
    forall j, k | 0 <= j < k < n ensures NickOf(pool, ids[j]) != NickOf(pool, ids[k]) {
      var i :| 0 <= i < |all| && all[i] == ids[j] && FindItem(pool.chars, ids[j]) == Some(pool.chars[i]);
      var h :| 0 <= h < |all| && all[h] == ids[k] && FindItem(pool.chars, ids[k]) == Some(pool.chars[h]);
      assert i != h;
    }
  }

  lemma {:induction false} CandidatesMembers(pool: Pool, items: seq<PoolItem>, slot: int)
    ensures forall id :: id in Candidates(pool, items, slot) <==> id in PoolIds(items) && EquipSlot(pool, id) == slot
  {
    hide EquipSlot;
    if items != [] {
      var front, last := items[..|items| - 1], items[|items| - 1];
      CandidatesMembers(pool, front, slot);
      assert items == front + [last];
      forall id ensures id in PoolIds(items) <==> id in PoolIds(front) || id == last.id {
        if id in PoolIds(items) {
          var p :| p in items && p.id == id;
        }
        if id in PoolIds(front) {
          var p :| p in front && p.id == id;
          assert p in items;
        }
        assert last in items;
      }
    }
  }

  /** Drawn pieces are pool pieces of different slots; a slot is served exactly when it has any. */
  lemma {:induction false} DrawnMeaning(pool: Pool, draws: seq<nat>, k: nat)
    requires PositiveIds(pool.equips) && k <= |draws|
    ensures var worn := Drawn(pool, draws, k);
            && (forall i :: 0 <= i < |worn| ==> InPool(pool.equips, worn[i]) && 0 <= EquipSlot(pool, worn[i]) < k)
            && (forall i, j :: 0 <= i < j < |worn| ==> EquipSlot(pool, worn[i]) < EquipSlot(pool, worn[j]))
            && (forall s :: 0 <= s < k && Bag(pool, s) != [] ==>
              exists i :: 0 <= i < |worn| && EquipSlot(pool, worn[i]) == s)
  {
    if k > 0 {
      hide EquipSlot, Bag, InPool;
      DrawnMeaning(pool, draws, k - 1);
      var before := Drawn(pool, draws, k - 1);
      var worn := Drawn(pool, draws, k);
      assert forall i :: 0 <= i < |before| ==> worn[i] == before[i];
      var bag := Bag(pool, k - 1);
      if bag != [] {
        var id := bag[draws[k - 1] % |bag|];
        BagMember(pool, k - 1, id);
        assert worn[|before|] == id;
      }
    }
  }

  lemma BagMember(pool: Pool, slot: int, id: int)
    requires PositiveIds(pool.equips) && id in Bag(pool, slot)
    ensures InPool(pool.equips, id) && EquipSlot(pool, id) == slot
  {
    CandidatesMembers(pool, pool.equips, slot);
    FindItemMeaning(pool.equips, id);
  }

  lemma DrawnOk(pool: Pool, draws: seq<nat>)
    requires PositiveIds(pool.equips) && |draws| == EQUIP_SLOTS
    ensures EquipsOk(pool, Drawn(pool, draws, EQUIP_SLOTS))
  {
    DrawnMeaning(pool, draws, EQUIP_SLOTS);
  }

  lemma {:induction false} DealtWornOk(pool: Pool, roll: Roll, n: nat)
    requires PositiveIds(pool.equips) && n <= |roll.chars| && n <= |roll.draws|
    requires forall i :: 0 <= i < |roll.draws| ==> |roll.draws[i]| == EQUIP_SLOTS
    ensures WornOk(pool, roll.chars[..n], Dealt(pool, roll, n).equip)
  {
    hide EquipsOk, Drawn;
    if n > 0 {
      DealtWornOk(pool, roll, n - 1);
      DrawnOk(pool, roll.draws[n - 1]);
      assert roll.chars[..n] == roll.chars[..n - 1] + [roll.chars[n - 1]];
    }
  }

  /** Every dealt team keeps every promise a player's loadout keeps. */
  lemma NpcLoadoutOk(pool: Pool, roll: Roll)
    requires PoolSound(pool) && RollOk(pool, roll)
    ensures LoadoutOk(pool, NpcLoadout(pool, roll)) && |roll.chars| == |pool.chars|
    ensures NpcLoadout(pool, roll).chars == roll.chars[..TeamSizeOf(pool)]
  {
    hide TeamOk, WornOk, LoadoutOk, Dealt;
    RollSize(pool, roll);
    var n := TeamSizeOf(pool);
    PoolTeamOk(pool, roll.chars, n);
    DealtWornOk(pool, roll, n);
    EnsuredOk(pool, Dealt(pool, roll, n));
  }

  // ---- fight data of this week

  predicate PieceInPool(pool: Pool, piece: Piece) {
    EidOf(piece) > 0 && FindItem(pool.equips, EidOf(piece)).Some?
  }

  predicate EquippedPlayer(pool: Pool, p: Entry) {
    && p.Player? && p.equip.Some? && p.equip.value != []
    && forall i :: 0 <= i < |p.equip.value| ==> PieceInPool(pool, p.equip.value[i])
  }

  predicate Equipped(pool: Pool, list: Option<seq<Entry>>) {
    && list.Some? && list.value != []
    && forall i :: 0 <= i < |list.value| ==> EquippedPlayer(pool, list.value[i])
  }

  /** A stored fighter belongs to this week: a good document, everybody in four pool pieces. */
  predicate UsesPool(pool: Pool, blob: Blob) {
    blob.Document? && !NeedsRebuild(pool, blob.fight) && Equipped(pool, blob.fight.players)
  }

  /** What a week needs so that computer-run fighters can be dealt once and for all. */
  predicate Rich(pool: Pool) {
    && pool.chars != []
    && (forall s :: 0 <= s < EQUIP_SLOTS ==> Bag(pool, s) != [])
    && |PoolIds(pool.skills)| >= TeamSizeOf(pool)
  }

  lemma SlotServed(pool: Pool, draws: seq<nat>, s: int)
    requires PositiveIds(pool.equips) && |draws| == EQUIP_SLOTS && 0 <= s < EQUIP_SLOTS
    ensures PieceInPool(pool, PieceOf(Slotted(pool, Drawn(pool, draws, EQUIP_SLOTS))[s])) <==> Bag(pool, s) != []
  {
    hide Drawn, Slotted, Bag;
    var worn := Drawn(pool, draws, EQUIP_SLOTS);
    var eid := Slotted(pool, worn)[s];
    DrawnMeaning(pool, draws, EQUIP_SLOTS);
    SlottedMeaning(pool, worn, s);
    if Bag(pool, s) != [] {
      var i :| 0 <= i < |worn| && EquipSlot(pool, worn[i]) == s;
      assert InPool(pool.equips, worn[i]);
      assert eid != 0 && EquipSlot(pool, eid) == s;
      var k :| 0 <= k < |worn| && worn[k] == eid;
      assert InPool(pool.equips, worn[k]);
    } else {
      EmptyBag(pool, s);
      assert eid == 0;
    }
  }

  lemma EmptyBag(pool: Pool, s: int)
    requires Bag(pool, s) == [] && 0 <= s
    ensures forall id :: EquipSlot(pool, id) != s
  {
    CandidatesMembers(pool, pool.equips, s);
    forall id ensures EquipSlot(pool, id) != s {
      FindItemMeaning(pool.equips, id);
      assert id !in Bag(pool, s);
    }
  }

  lemma {:induction false} DealtWorn(pool: Pool, roll: Roll, n: nat, i: nat)
    requires n <= |roll.chars| && n <= |roll.draws| && i < n && Distinct(roll.chars)
    requires forall i :: 0 <= i < |roll.draws| ==> |roll.draws[i]| == EQUIP_SLOTS
    ensures WornBy(Dealt(pool, roll, n), roll.chars[i]) == Drawn(pool, roll.draws[i], EQUIP_SLOTS)
  {
    hide Drawn;
    if i < n - 1 {
      DealtWorn(pool, roll, n - 1, i);
      assert roll.chars[i] != roll.chars[n - 1];
    } else {
      DealtStranger(pool, roll, i, roll.chars[i]);
    }
  }

  lemma {:induction false} DealtStranger(pool: Pool, roll: Roll, n: nat, c: int)
    requires n <= |roll.chars| && n <= |roll.draws| && c !in roll.chars[..n]
    requires forall i :: 0 <= i < |roll.draws| ==> |roll.draws[i]| == EQUIP_SLOTS
    ensures c !in Dealt(pool, roll, n).equip
  {
    hide Drawn;
    if n > 0 {
      assert roll.chars[..n] == roll.chars[..n - 1] + [roll.chars[n - 1]];
      DealtStranger(pool, roll, n - 1, c);
    }
  }

  predicate FourBags(pool: Pool) {
    forall s :: 0 <= s < EQUIP_SLOTS ==> Bag(pool, s) != []
  }

  lemma NpcEquipped(pool: Pool, roll: Roll, i: nat)
    requires PoolSound(pool) && RollOk(pool, roll) && i < TeamSizeOf(pool)
    ensures |roll.chars| == |pool.chars|
    ensures EquippedPlayer(pool, PlayerOf(pool, NpcLoadout(pool, roll), roll.chars[i])) <==> FourBags(pool)
  {
    RollSize(pool, roll);
    hide Drawn, Slotted, Bag, Dealt, PieceInPool, Resolved;
    var n := TeamSizeOf(pool);
    var l := NpcLoadout(pool, roll);
    PoolDistinct(pool, roll);
    DealtWorn(pool, roll, n, i);
    var worn := Drawn(pool, roll.draws[i], EQUIP_SLOTS);
    assert WornBy(l, roll.chars[i]) == worn;
    forall s | 0 <= s < EQUIP_SLOTS
      ensures PieceInPool(pool, PieceOf(Slotted(pool, worn)[s])) <==> Bag(pool, s) != []
    {
      SlotServed(pool, roll.draws[i], s);
    }
  }

  lemma PoolDistinct(pool: Pool, roll: Roll)
    requires PoolSound(pool) && RollOk(pool, roll)
    ensures Distinct(roll.chars)
  {
    assert Distinct(IdsOf(pool.chars));
    ShuffledDistinct(roll.chars, IdsOf(pool.chars));
  }

  /** Whatever the shuffles and draws, a dealt team belongs to the week exactly when the week has a
      person, a piece for each of the four slots, and a skill for everyone on the team. */
  lemma DealtUsesPoolIffRich(pool: Pool, roll: Roll)
    requires PoolSound(pool) && RollOk(pool, roll)
    ensures UsesPool(pool, Document(FightDataOf(pool, NpcLoadout(pool, roll)))) <==> Rich(pool)
  {
    hide PoolSound, RollOk, LoadoutOk, Bag, PlayerOf, NpcLoadout, EquippedPlayer, NeedsRebuild;
    var l := NpcLoadout(pool, roll);
    NpcLoadoutOk(pool, roll);
    RollSize(pool, roll);
    SoundIsPositive(pool);
    RebuildIffTooFewSkills(pool, l);
    var n := TeamSizeOf(pool);
    assert l.chars[..n] == l.chars;
    var players := FightDataOf(pool, l).players.value;
    forall i | 0 <= i < n ensures EquippedPlayer(pool, players[i]) <==> FourBags(pool) {
      NpcEquipped(pool, roll, i);
    }
    if n > 0 {
      assert EquippedPlayer(pool, players[0]) <==> FourBags(pool);
    }
  }

  lemma SoundIsPositive(pool: Pool)
    requires PoolSound(pool)
    ensures PositivePool(pool)
  {}

  // ---- the loops of the source

  /** A star is never worth less than one, and what is not in the pool counts one. */
  method StarIn(items: seq<PoolItem>, id: int) returns (star: int)
    ensures star == StarOf(items, id)
  {
    var item := FindItem(items, id);
    star := 1;
    if item.Some? && item.value.star >= 1 {
      star := item.value.star;
    }
  }

  method FightPowerOf(pool: Pool, l: Loadout) returns (power: int)
    ensures power == FightPower(pool, l)
  {
    power := 5000;
    var k := 0;
    while k < |l.chars|
      invariant 0 <= k <= |l.chars| && power == PowerUpTo(pool, l, k)
    {
      var id := l.chars[k];
      power := power + 2000;
      if id in l.skill {
        var star := StarIn(pool.skills, l.skill[id]);
        power := power + 600 * star;
      }
      if id in l.nei {
        var star := StarIn(pool.neis, l.nei[id]);
        power := power + 600 * star;
      }
      if id in l.equip {
        var worn := l.equip[id];
        ghost var before := power;
        var i := 0;
        while i < |worn|
          invariant 0 <= i <= |worn| && power == before + 200 * SumStars(pool.equips, worn[..i])
        {
          assert worn[..i + 1][..i] == worn[..i];
          var star := StarIn(pool.equips, worn[i]);
          power := power + 200 * star;
          i := i + 1;
        }
        assert worn[..i] == worn;
      }
      k := k + 1;
    }
  }

  /** Sorts the pieces by slot, in one pass over the pool. */
  method FillBags(pool: Pool) returns (bags: array<seq<int>>)
    ensures fresh(bags) && bags.Length == EQUIP_SLOTS
    ensures forall s :: 0 <= s < EQUIP_SLOTS ==> bags[s] == Bag(pool, s)
  {
    hide EquipSlot;
    bags := new seq<int>[EQUIP_SLOTS](i => []);
    var items := pool.equips;
    var k := 0;
    while k < |items|
      invariant 0 <= k <= |items|
      invariant forall s :: 0 <= s < EQUIP_SLOTS ==> bags[s] == Candidates(pool, items[..k], s)
    {
      assert items[..k + 1][..k] == items[..k];
      var slot := EquipSlot(pool, items[k].id);
      if slot >= 0 {
        bags[slot] := bags[slot] + [items[k].id];
      }
      k := k + 1;
    }
    assert items[..k] == items;
  }

  method DrawPieces(pool: Pool, bags: array<seq<int>>, draws: seq<nat>) returns (worn: seq<int>)
    requires bags.Length == EQUIP_SLOTS == |draws|
    requires forall s :: 0 <= s < EQUIP_SLOTS ==> bags[s] == Bag(pool, s)
    ensures worn == Drawn(pool, draws, EQUIP_SLOTS)
  {
    worn := [];
    var s := 0;
    while s < EQUIP_SLOTS
      invariant 0 <= s <= EQUIP_SLOTS && worn == Drawn(pool, draws, s)
    {
      if bags[s] != [] {
        worn := worn + [bags[s][draws[s] % |bags[s]|]];
      }
      s := s + 1;
    }
  }

  /** What is left of a bag after `n` takers. */
  function Left(bag: seq<int>, n: nat): seq<int> {
    if n <= |bag| then bag[..|bag| - n] else []
  }

  method GiveLast(all: seq<int>, n: nat, bag: seq<int>, owned: map<int, int>, c: int)
      returns (owned': map<int, int>, bag': seq<int>)
    requires bag == Left(all, n)
    ensures bag' == Left(all, n + 1)
    ensures owned' == if n + 1 <= |all| then owned[c := all[|all| - (n + 1)]] else owned
  {
    owned', bag' := owned, bag;
    if bag != [] {
      owned' := owned[c := bag[|bag| - 1]];
      bag' := bag[..|bag| - 1];
    }
  }

  /** The n-th person takes a place on the team. */
  method DealOne(pool: Pool, roll: Roll, n: nat, bags: array<seq<int>>, before: Loadout, skillBag: seq<int>,
      neiBag: seq<int>)
    returns (l: Loadout, skillBag': seq<int>, neiBag': seq<int>)
    requires n < |roll.chars| && n < |roll.draws| && forall i :: 0 <= i < |roll.draws| ==>
          |roll.draws[i]| == EQUIP_SLOTS
    requires bags.Length == EQUIP_SLOTS && forall s :: 0 <= s < EQUIP_SLOTS ==> bags[s] == Bag(pool, s)
    requires before == Dealt(pool, roll, n) && skillBag == Left(roll.skills, n) && neiBag == Left(roll.neis, n)
    ensures l == Dealt(pool, roll, n + 1) && skillBag' == Left(roll.skills, n + 1) && neiBag' == Left(roll.neis, n + 1)
  {
    hide Drawn, Bag, Left;
    var c := roll.chars[n];
    var skill, nei, equip := before.skill, before.nei, before.equip;
    skill, skillBag' := GiveLast(roll.skills, n, skillBag, skill, c);
    nei, neiBag' := GiveLast(roll.neis, n, neiBag, nei, c);
    var worn := DrawPieces(pool, bags, roll.draws[n]);
    if worn != [] {
      equip := equip[c := worn];
    }
    l := Loadout(before.chars + [c], skill, nei, equip);
  }

  /** Deals one team: the bags of skills and arts are emptied from the back. */
  method DealTeam(pool: Pool, roll: Roll) returns (l: Loadout)
    requires PoolSound(pool) && RollOk(pool, roll)
    ensures l == NpcLoadout(pool, roll)
  {
    hide Drawn, Bag, EnsuredLoadout, PoolSound;
    RollSize(pool, roll);
    assert |roll.draws| == MAX_TEAM && forall i :: 0 <= i < MAX_TEAM ==> |roll.draws[i]| == EQUIP_SLOTS;
    hide RollOk;
    var bags := FillBags(pool);
    var team := TeamSizeOf(pool);
    l := EMPTY;
    var skillBag, neiBag := roll.skills, roll.neis;
    var n := 0;
    while n < team
      invariant 0 <= n <= team && l == Dealt(pool, roll, n)
      invariant skillBag == Left(roll.skills, n) && neiBag == Left(roll.neis, n)
      invariant forall s :: 0 <= s < EQUIP_SLOTS ==> bags[s] == Bag(pool, s)
    {
      l, skillBag, neiBag := DealOne(pool, roll, n, bags, l, skillBag, neiBag);
      n := n + 1;
    }
    SoundIsPositive(pool);
    var changed;
    l, changed := EnsureLoadoutKungfu(pool, l);
  }
}
