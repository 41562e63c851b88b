/** What each choice of a player does to a proper loadout: when it is accepted, what is stored, and
    that nothing else moves. */
module LoadoutChoices {
  import opened Results
  import opened WeekPool
  import opened Loadouts
  import opened LoadoutSets

  predicate HeldByMate(m: map<int, int>, c: int, id: int) {
    exists d :: d in m && d != c && m[d] == id
  }

  /** A choice of a free item fits in as it is: nobody is waiting for what it gives up. */
  lemma ChoiceFits(chars: seq<int>, m: map<int, int>, items: seq<PoolItem>, c: int, id: int)
    requires PositiveIds(items) && Exclusive(chars, m, items) && NothingLeft(chars, m, items)
    requires c in chars && id in PoolIds(items) && !HeldByMate(m, c, id)
    ensures Ensured(chars, m[c := id], items) == m[c := id]
  {
    hide Ensured, PoolIds;
    var n := m[c := id];
    assert Exclusive(chars, n, items);
    if d :| d in chars && d !in n {
      assert d !in m && id in Vals(m);
      var e :| e in m && m[e] == id;
      assert e == c && n == m;
    }
    EnsuredOfComplete(chars, n, items);
  }

  lemma InPoolIs(items: seq<PoolItem>, id: int)
    requires id > 0
    ensures InPool(items, id) <==> id in PoolIds(items)
  {
    FindItemMeaning(items, id);
  }

  lemma OthersStand(pool: Pool, l: Loadout)
    requires PositivePool(pool) && LoadoutOk(pool, l)
    ensures Ensured(l.chars, l.skill, pool.skills) == l.skill && Ensured(l.chars, l.nei, pool.neis) == l.nei
  {
    hide TeamOk, WornOk;
    EnsuredOfComplete(l.chars, l.skill, pool.skills);
    EnsuredOfComplete(l.chars, l.nei, pool.neis);
  }

  /** A skill is accepted exactly for a member of the team, from the pool, and when no teammate holds
      it; then this member has it, and every other skill, every art, all equipment and the team are as
      they were. A refusal changes nothing. */
  lemma SkillIsChosen(pool: Pool, l: Loadout, c: int, id: int)
    requires PositivePool(pool) && LoadoutOk(pool, l) && id > 0
    ensures Edited(pool, l, PickSkill(c, id)).Some? <==>
              c in l.chars && id in PoolIds(pool.skills) && !HeldByMate(l.skill, c, id)
    ensures AfterSet(pool, l, PickSkill(c, id)) ==
              if Edited(pool, l, PickSkill(c, id)).Some? then l.(skill := l.skill[c := id]) else l
  {
    hide TeamOk, WornOk, Exclusive, NothingLeft, Ensured;
    InPoolIs(pool.skills, id);
    OthersStand(pool, l);
    if c in l.chars && id in PoolIds(pool.skills) && !HeldByMate(l.skill, c, id) {
      ChoiceFits(l.chars, l.skill, pool.skills, c, id);
    }
  }

  /** The same for inner arts. */
  lemma ArtIsChosen(pool: Pool, l: Loadout, c: int, id: int)
    requires PositivePool(pool) && LoadoutOk(pool, l) && id > 0
    ensures Edited(pool, l, PickNei(c, id)).Some? <==>
              c in l.chars && id in PoolIds(pool.neis) && !HeldByMate(l.nei, c, id)
    ensures AfterSet(pool, l, PickNei(c, id)) ==
              if Edited(pool, l, PickNei(c, id)).Some? then l.(nei := l.nei[c := id]) else l
  {
    hide TeamOk, WornOk, Exclusive, NothingLeft, Ensured;
    InPoolIs(pool.neis, id);
    OthersStand(pool, l);
    if c in l.chars && id in PoolIds(pool.neis) && !HeldByMate(l.nei, c, id) {
      ChoiceFits(l.chars, l.nei, pool.neis, c, id);
    }
  }

  /** Whoever has a valid item keeps it when somebody else's is taken away. */
  lemma MatesKeep(chars: seq<int>, m: map<int, int>, items: seq<PoolItem>, c: int)
    requires PositiveIds(items) && Exclusive(chars, m, items)
    ensures forall d :: d in m && d != c ==>
              d in Ensured(chars, m - {c}, items) && Ensured(chars, m - {c}, items)[d] == m[d]
  {
    hide Ensured, PoolIds;
    var n := m - {c};
    forall d | d in m && d != c ensures d in Ensured(chars, n, items) && Ensured(chars, n, items)[d] == m[d] {
      var i :| 0 <= i < |chars| && chars[i] == d;
      EnsuredKeepsValid(chars, n, items, i);
    }
  }

  /** The items of a team are all different: those who stay keep theirs in a new team. */
  lemma StayersKeep(chars: seq<int>, team: seq<int>, m: map<int, int>, items: seq<PoolItem>)
    requires PositiveIds(items) && Exclusive(chars, m, items)
    ensures forall d :: d in m && d in team ==>
              d in Ensured(team, OnlyOf(m, team), items) && Ensured(team, OnlyOf(m, team), items)[d] == m[d]
  {
    hide Ensured, PoolIds;
    var n := OnlyOf(m, team);
    forall d | d in m && d in team ensures d in Ensured(team, n, items) && Ensured(team, n, items)[d] == m[d] {
      var i :| 0 <= i < |team| && team[i] == d;
      EnsuredKeepsValid(team, n, items, i);
    }
  }

  /** Giving a skill back is accepted for every member of the team: everybody else keeps what they
      have, and the skills are completed again. */
  lemma SkillIsGivenBack(pool: Pool, l: Loadout, c: int)
    requires PositivePool(pool) && LoadoutOk(pool, l)
    ensures Edited(pool, l, PickSkill(c, 0)).Some? <==> c in l.chars
    ensures c in l.chars ==>
              var r := AfterSet(pool, l, PickSkill(c, 0));
              && r == l.(skill := r.skill)
              && SharedOk(l.chars, r.skill, pool.skills)
              && forall d :: d in l.skill && d != c ==> d in r.skill && r.skill[d] == l.skill[d]
  {
    hide TeamOk, WornOk, Exclusive, NothingLeft, Ensured;
    OthersStand(pool, l);
    MatesKeep(l.chars, l.skill, pool.skills, c);
    EnsuredIsComplete(l.chars, l.skill - {c}, pool.skills);
  }

  lemma ArtIsGivenBack(pool: Pool, l: Loadout, c: int)
    requires PositivePool(pool) && LoadoutOk(pool, l)
    ensures Edited(pool, l, PickNei(c, 0)).Some? <==> c in l.chars
    ensures c in l.chars ==>
              var r := AfterSet(pool, l, PickNei(c, 0));
              && r == l.(nei := r.nei)
              && SharedOk(l.chars, r.nei, pool.neis)
              && forall d :: d in l.nei && d != c ==> d in r.nei && r.nei[d] == l.nei[d]
  {
    hide TeamOk, WornOk, Exclusive, NothingLeft, Ensured;
    OthersStand(pool, l);
    MatesKeep(l.chars, l.nei, pool.neis, c);
    EnsuredIsComplete(l.chars, l.nei - {c}, pool.neis);
  }

  /** Negative ids are refused. */
  lemma NegativeIsRefused(pool: Pool, l: Loadout, c: int, id: int)
    requires id < 0
    ensures Edited(pool, l, PickSkill(c, id)).None? && Edited(pool, l, PickNei(c, id)).None?
  {}

  /** A team is accepted exactly when it has one to five persons of the pool, none twice and no two of
      the same name; it is stored in the order given. Whoever stays keeps skill, art and equipment;
      whoever leaves takes the equipment along; the rest is completed. */
  lemma TeamIsChosen(pool: Pool, l: Loadout, ids: seq<int>)
    requires PositivePool(pool) && LoadoutOk(pool, l)
    ensures Edited(pool, l, PickTeam(Some(ids))).Some? <==>
              && 1 <= |ids| <= 5 && (forall i :: 0 <= i < |ids| ==> ids[i] > 0 && ids[i] in PoolIds(pool.chars))
              && forall i, j :: 0 <= i < j < |ids| ==>
                   ids[i] != ids[j] && (NickOf(pool, ids[i]) == "" || NickOf(pool, ids[i]) != NickOf(pool, ids[j]))
    ensures Edited(pool, l, PickTeam(Some(ids))).Some? ==>
              var r := AfterSet(pool, l, PickTeam(Some(ids)));
              && r.chars == ids
              && (forall d :: d in l.skill && d in ids ==> d in r.skill && r.skill[d] == l.skill[d])
              && (forall d :: d in l.nei && d in ids ==> d in r.nei && r.nei[d] == l.nei[d])
              && (forall d :: d in r.equip <==> d in l.equip && d in ids)
              && (forall d :: d in r.equip ==> r.equip[d] == l.equip[d])
              && SharedOk(ids, r.skill, pool.skills) && SharedOk(ids, r.nei, pool.neis)
  {
    hide Exclusive, NothingLeft, Ensured, InPool, PoolIds, NickOf, WornOk;
    AllInPool(pool.chars, ids);
    StayersKeep(l.chars, ids, l.skill, pool.skills);
    StayersKeep(l.chars, ids, l.nei, pool.neis);
    EnsuredIsComplete(ids, OnlyOf(l.skill, ids), pool.skills);
    EnsuredIsComplete(ids, OnlyOf(l.nei, ids), pool.neis);
  }

  lemma AllInPool(items: seq<PoolItem>, ids: seq<int>)
    ensures (forall i :: 0 <= i < |ids| ==> InPool(items, ids[i]))
            <==> (forall i :: 0 <= i < |ids| ==> ids[i] > 0 && ids[i] in PoolIds(items))
  {
    forall i | 0 <= i < |ids| ensures InPool(items, ids[i]) <==> ids[i] > 0 && ids[i] in PoolIds(items) {
      FindItemMeaning(items, ids[i]);
    }
  }

  /** The name of a person is the one the pool gives. */
  lemma NickIsThePools(pool: Pool, id: int)
    requires id in PoolIds(pool.chars)
    ensures exists p :: p in pool.chars && p.id == id && NickOf(pool, id) == p.nick
  {
    FindItemMeaning(pool.chars, id);
  }

  /** Zeros are skipped, everything else stays in order. */
  lemma {:induction false} NonZeroAppend(a: seq<int>, b: seq<int>)
    ensures NonZero([]) == [] && forall x :: NonZero([x]) == if x == 0 then [] else [x]
    ensures NonZero(a + b) == NonZero(a) + NonZero(b)
  {
    forall x ensures NonZero([x]) == if x == 0 then [] else [x] {
      assert [x][..0] == [];
    }
    if b == [] {
      assert a + b == a;
    } else {
      assert (a + b)[..|a + b| - 1] == a + b[..|b| - 1];
      NonZeroAppend(a, b[..|b| - 1]);
    }
  }

  /** Pieces of the pool, none twice. */
  predicate Wearable(pool: Pool, worn: seq<int>) {
    && (forall i :: 0 <= i < |worn| ==> worn[i] > 0 && worn[i] in PoolIds(pool.equips))
    && (forall i, j :: 0 <= i < j < |worn| ==> worn[i] != worn[j])
  }

  /** Equipment is accepted exactly for a member of the team, up to four places, pieces of the pool,
      none twice. It is stored in the order given without the empty places, nothing at all removes the
      entry, and nobody else's equipment and nothing else changes. */
  lemma EquipmentIsChosen(pool: Pool, l: Loadout, c: int, ids: seq<int>)
    requires PositivePool(pool) && LoadoutOk(pool, l)
    ensures Edited(pool, l, PickEquips(c, Some(ids))).Some? <==>
              c in l.chars && |ids| <= 4 && Wearable(pool, NonZero(ids))
    ensures Edited(pool, l, PickEquips(c, Some(ids))).Some? ==>
              var r := AfterSet(pool, l, PickEquips(c, Some(ids)));
              && r == l.(equip := r.equip)
              && (if NonZero(ids) == [] then c !in r.equip else c in r.equip && r.equip[c] == NonZero(ids))
              && (forall d :: d != c ==> (d in r.equip <==> d in l.equip))
              && (forall d :: d != c && d in l.equip ==> r.equip[d] == l.equip[d])
  {
    hide Exclusive, NothingLeft, Ensured, InPool, PoolIds, WornOk, TeamOk, NonZero, EquipsOk, Wearable;
    WearableIs(pool, NonZero(ids));
    OthersStand(pool, l);
  }

  lemma WearableIs(pool: Pool, worn: seq<int>)
    ensures EquipsOk(pool, worn) <==> Wearable(pool, worn)
  {
    hide InPool, PoolIds;
    AllInPool(pool.equips, worn);
  }

  /** What is no list, or no choice at all, is refused and changes nothing. */
  lemma NoListIsRefused(pool: Pool, l: Loadout, c: int)
    ensures Edited(pool, l, PickTeam(None)).None? && Edited(pool, l, PickEquips(c, None)).None?
    ensures Edited(pool, l, Other).None?
    ensures forall req :: Edited(pool, l, req).None? ==> AfterSet(pool, l, req) == l
  {}
}
