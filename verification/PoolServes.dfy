/** Every pool that can be built serves the ladder: what loadouts and computer-run teams rely on. */
module PoolServes {
  import opened WeekPool
  import opened Loadouts
  import opened LoadoutSets
  import opened NpcTeams

  /** Loading a catalog drops entries without a positive id. */
  predicate LoadedItems(items: seq<CatItem>) {
    forall x :: x in items ==> x.id > 0
  }

  predicate Loaded(cat: Catalog) {
    LoadedItems(cat.equips) && LoadedItems(cat.skills) && LoadedItems(cat.neis)
  }

  lemma PoolItemsPositive(items: seq<CatItem>, part: seq<CatItem>, graded: bool)
    requires LoadedItems(items) && multiset(part) <= multiset(items)
    ensures PositiveIds(AllToPool(part, graded))
  {
    var out := AllToPool(part, graded);
    forall p | p in out ensures p.id > 0 {
      var i :| 0 <= i < |out| && out[i] == p;
      assert part[i] in multiset(part);
      assert part[i] in multiset(items);
    }
  }

  lemma CategoryPositive(items: seq<CatItem>, d: Draws)
    requires LoadedItems(items) && FairDraws(d)
    ensures PositiveIds(Category(items, d))
  {
    CategoryIsOk(items, d);
    var out := Category(items, d);
    hide Category, MinStar, AllToPool, LoadedItems, FairDraws;
    var grade, featured, plain :| CategoryParts(items, out, grade, featured, plain);
    assert multiset(featured) <= multiset(items) && multiset(plain) <= multiset(items);
    PoolItemsPositive(items, featured, true);
    PoolItemsPositive(items, plain, false);
    var f, p := AllToPool(featured, true), AllToPool(plain, false);
    forall x | x in out ensures x.id > 0 {
      assert x in multiset(out);
      assert x in f || x in p;
    }
  }

  lemma {:induction false} ByIdsPositive(items: seq<CatItem>, ids: seq<int>)
    requires LoadedItems(items)
    ensures ByIds(items, ids).Success? ==> PositiveIds(ByIds(items, ids).value)
  {
    if ids != [] {
      ByIdsPositive(items, ids[..|ids| - 1]);
      FirstWithIdMember(items, ids[|ids| - 1]);
    }
  }

  /** Whatever the catalog, the week and the draws, a pool that is built has positive ids throughout
      and persons of different ids and names. */
  lemma BuiltPoolServes(cat: Catalog, week: int, d: WeekDraws)
    requires FairWeek(d) && Loaded(cat)
    ensures BuildWeekPool(cat, week, d).Success? ==> PoolSound(BuildWeekPool(cat, week, d).value)
  {
    hide Category, ByIds, Chars, FairDraws;
    CharsWellChosen(cat.chars, d.chars);
    if week == FIRST_WEEK {
      ByIdsPositive(cat.equips, FIRST_EQUIPS);
      ByIdsPositive(cat.skills, FIRST_SKILLS);
      ByIdsPositive(cat.neis, FIRST_NEIS);
    } else {
      CategoryPositive(cat.equips, d.equips);
      CategoryPositive(cat.skills, d.skills);
      CategoryPositive(cat.neis, d.neis);
    }
    var chars := Chars(cat.chars, d.chars);
    forall p | p in chars ensures p.id > 0 {
      assert FromCatalog(cat.chars, p);
    }
  }

  /** Everybody has a name, and no two have the same. */
  predicate NamesDiffer(pool: Pool, ids: seq<int>) {
    && (forall i :: 0 <= i < |ids| ==> NickOf(pool, ids[i]) != "")
    && (forall i, j :: 0 <= i < j < |ids| ==> NickOf(pool, ids[i]) != NickOf(pool, ids[j]))
  }

  lemma TeamNamesDiffer(cat: Catalog, pool: Pool, ids: seq<int>)
    requires WellChosen(cat.chars, pool.chars) && TeamOk(pool, ids)
    ensures NamesDiffer(pool, ids)
  {
    forall i | 0 <= i < |ids| ensures NickOf(pool, ids[i]) != "" {
      assert InPool(pool.chars, ids[i]);
      FindItemMeaning(pool.chars, ids[i]);
      assert FromCatalog(cat.chars, FindItem(pool.chars, ids[i]).value);
    }
  }

  /** In every week that can be built, after every run of requests, uploads and displays: 0 to 5
      different persons of the pool, each with a name and no two with the same, exclusive pool items,
      and everybody has a skill (an art) exactly when the pool has enough of them. */
  lemma BuiltRunIsFair(cat: Catalog, week: int, d: WeekDraws, actions: seq<Action>)
    requires FairWeek(d) && Loaded(cat) && BuildWeekPool(cat, week, d).Success?
    ensures var pool := BuildWeekPool(cat, week, d).value;
            var l := AfterRun(pool, actions);
            && |l.chars| <= MAX_TEAM && TeamOk(pool, l.chars) && NamesDiffer(pool, l.chars)
            && Exclusive(l.chars, l.skill, pool.skills) && Exclusive(l.chars, l.nei, pool.neis)
            && (l.skill.Keys == Team(l.chars) <==> |PoolIds(pool.skills)| >= |l.chars|)
            && (l.nei.Keys == Team(l.chars) <==> |PoolIds(pool.neis)| >= |l.chars|)
            && WornOk(pool, l.chars, l.equip)
  {
    hide BuildWeekPool, AfterRun, TeamOk, NamesDiffer, WellChosen, Advertised, Exclusive, WornOk;
    BuiltPoolServes(cat, week, d);
    BuiltPoolIsSound(cat, week, d);
    var pool := BuildWeekPool(cat, week, d).value;
    RunIsFair(pool, actions);
    TeamNamesDiffer(cat, pool, AfterRun(pool, actions).chars);
  }
}
