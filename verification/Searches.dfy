/** Searches for an enemy: exactly when one succeeds, and that all 25 of a day can. */
module Searches {
  import opened Results
  import opened WeekClock
  import opened WeekPool
  import opened Loadouts
  import opened LoadoutSets
  import opened FightData
  import opened NpcTeams
  import opened Ladder
  import opened Collation
  import opened Quota

  /** The searches a player may still make on a day: all of them for a new row or a new day. */
  function LeftOn(t: Table, k: Key, day: int): int {
    if k !in t then 25 else if t[k].npc || t[k].timesDay == day then t[k].timesLeft else 25
  }

  /** The player has fight data, or a stored team it can be made from. */
  predicate HasTeam(t: Table, k: Key) {
    k in t && (t[k].fight != Empty || Reloaded(t[k].loadout).chars != [])
  }

  predicate EnemyThere(t: Table, enemy: Option<Key>) {
    enemy.Some? && enemy.value in t && t[enemy.value].fight != Empty
  }

  predicate Succeeds(t: Table, k: Key, enemy: Option<Key>, day: int) {
    HasTeam(t, k) && LeftOn(t, k, day) > 0 && EnemyThere(t, enemy)
  }

  /** Showing and restoring a row never loses fight data, and finds it wherever there is a team. */
  lemma RestoredHasFight(pool: Pool, me: Row)
    ensures var r := RestoredRow(pool, ShownRow(pool, me));
            && (r.fight != Empty <==> me.fight != Empty || Reloaded(me.loadout).chars != [])
            && r.timesLeft == me.timesLeft && r.timesDay == me.timesDay
  {
    hide RepairedTeam, EnsuredLoadout, FightDataOf, FightPower;
    var stored := Reloaded(me.loadout);
    var shown := ShownRow(pool, me);
    if shown != me {
      assert shown.fight.Document?;
    }
  }

  /** Looking at a team with anyone in the pool shows the fight data of the repaired loadout, and
      stores that loadout unless the row already has this fight data. Any other team is left alone. */
  lemma ShownIsRepaired(pool: Pool, me: Row)
    ensures var stored, r := Reloaded(me.loadout), ShownRow(pool, me);
            if exists c :: c in stored.chars && InPool(pool.chars, c) then
              && r.fight == Document(FightDataOf(pool, Repaired(pool, stored)))
              && (r == me || r.loadout == Repaired(pool, stored))
            else r == me
  {
    hide EnsuredLoadout, FightDataOf, FightPower, RepairedTeam;
    var stored := Reloaded(me.loadout);
    RepairedTeamIsOk(pool, stored.chars);
    TeamIsEmptyIff(pool, stored.chars);
  }

  /** The row a request finds after entering. */
  lemma EnteredRow(w: World, k: Key, day: int)
    ensures var r := Entered(w, k, day);
            && k in r.table && r.table[k].timesLeft == LeftOn(w.table, k, day)
            && (k in w.table ==> r.table[k].fight == w.table[k].fight && r.table[k].loadout == w.table[k].loadout)
            && (k !in w.table ==> r.table[k].fight == Empty && r.table[k].loadout == EMPTY)
            && (forall j :: j != k ==> (j in r.table <==> j in w.table))
            && (forall j :: j != k && j in w.table ==> r.table[j] == w.table[j])
            && (r.log == w.log || r.log == w.log + [Granted(k, day)])
  {}

  lemma NobodyReloads()
    ensures Reloaded(EMPTY).chars == []
  {}

  /** A search alone. */
  lemma SearchedResult(pool: Pool, w: World, k: Key, enemy: Option<Key>, day: int)
    requires k in w.table && enemy != Some(k)
    ensures var r := Searched(pool, w, k, enemy, day);
            var found := w.table[k].fight != Empty && w.table[k].timesLeft > 0 && EnemyThere(w.table, enemy);
            && r.log == (if found then w.log + [Found(k, day)] else w.log)
            && k in r.table && r.table[k].timesLeft == w.table[k].timesLeft - (if found then 1 else 0)
            && r.table[k].timesDay == w.table[k].timesDay && r.table[k].npc == w.table[k].npc
  {
    hide CurrentFightData;
  }

  /** Exactly when a search succeeds: the player has a team and searches left, and the enemy has fight
      data. Then, and only then, it is counted, and one search is taken away. */
  lemma SearchSucceedsIff(fold: Collation, w: World, c: Call)
    requires c.what.Search? && !Refused(c) && c.what.enemy != Some(KeyOf(fold, c))
    ensures var k, day := KeyOf(fold, c), DayId(c.now);
            var ready := NpcsReady(fold, w, c);
            var found := Succeeds(ready.table, k, c.what.enemy, day);
            var r := After(fold, w, c);
            && (var log := Entered(ready, k, day).log; r.log == if found then log + [Found(k, day)] else log)
            && k in r.table && r.table[k].timesLeft == LeftOn(ready.table, k, day) - (if found then 1 else 0)
  {
    hide NpcsReady, Entered, Searched, ShownRow, RestoredRow, Reloaded, KeyOf, DayId;
    var k, day, enemy := KeyOf(fold, c), DayId(c.now), c.what.enemy;
    var ready := NpcsReady(fold, w, c);
    EnteredRow(ready, k, day);
    NobodyReloads();
    var e := Entered(ready, k, day);
    assert e == Prepared(fold, w, c);
    var me := e.table[k];
    RestoredHasFight(c.pool, me);
    var row := RestoredRow(c.pool, ShownRow(c.pool, me));
    SearchedResult(c.pool, Put(e, k, row), k, enemy, day);
  }

  function RunFrom(fold: Collation, w: World, calls: seq<Call>): World {
    if calls == [] then w else After(fold, RunFrom(fold, w, calls[..|calls| - 1]), calls[|calls| - 1])
  }

  /** A search by this player on this day, with a team and an enemy who can be fought. */
  predicate GoodSearch(fold: Collation, w: World, c: Call, k: Key, day: int) {
    && c.what.Search? && !Refused(c) && CallOk(c) && KeyOf(fold, c) == k && DayId(c.now) == day
    && c.what.enemy != Some(k)
    && HasTeam(NpcsReady(fold, w, c).table, k) && EnemyThere(NpcsReady(fold, w, c).table, c.what.enemy)
  }

  lemma OneGoodSearch(fold: Collation, w: World, c: Call, k: Key, day: int)
    requires GoodSearch(fold, w, c, k, day) && NpcsNamed(w.table) && !Named(k) && LeftOn(w.table, k, day) > 0
    ensures var r := After(fold, w, c);
            && FoundOn(r.log, k, day) == FoundOn(w.log, k, day) + 1
            && LeftOn(r.table, k, day) == LeftOn(w.table, k, day) - 1 && NpcsNamed(r.table)
  {
    hide NpcsReady, Entered, Answered, Named, KeyOf, DayId, CallOk, HasTeam, FoundOn, NpcsNamed;
    NpcsReadyKeeps(fold, w, c);
    NpcsReadyLog(fold, w, c);
    var ready := NpcsReady(fold, w, c);
    assert ViewOf(ready.table, k) == ViewOf(w.table, k);
    SearchSucceedsIff(fold, w, c);
    EnteredKind(ready, k, day);
    var mid := Prepared(fold, w, c);
    AnsweredSpends(fold, mid, c);
    FoundOnAppend(w.log, Granted(k, day), k, day);
    FoundOnAppend(mid.log, Found(k, day), k, day);
  }

  lemma EnteredKind(w: World, k: Key, day: int)
    requires NpcsNamed(w.table) && !Named(k)
    ensures var r := Entered(w, k, day);
            && NpcsNamed(r.table) && k in r.table && !r.table[k].npc && r.table[k].timesDay == day
            && (r.log == w.log || r.log == w.log + [Granted(k, day)])
  {
    hide Named;
  }

  /** On every day a player with a team makes all the searches left, 25 at the start of the day: each
      one with a proper enemy succeeds until they are used up. */
  lemma {:induction false} AllSearchesSucceed(fold: Collation, w: World, calls: seq<Call>, k: Key, day: int)
    requires NpcsNamed(w.table) && !Named(k) && |calls| <= LeftOn(w.table, k, day)
    requires forall i :: 0 <= i < |calls| ==> GoodSearch(fold, RunFrom(fold, w, calls[..i]), calls[i], k, day)
    ensures var r := RunFrom(fold, w, calls);
            && FoundOn(r.log, k, day) == FoundOn(w.log, k, day) + |calls|
            && LeftOn(r.table, k, day) == LeftOn(w.table, k, day) - |calls| && NpcsNamed(r.table)
  {
    hide GoodSearch, After, FoundOn, LeftOn, NpcsNamed, Named;
    if calls != [] {
      var front, c := calls[..|calls| - 1], calls[|calls| - 1];
      forall i | 0 <= i < |front| ensures GoodSearch(fold, RunFrom(fold, w, front[..i]), front[i], k, day) {
        assert front[..i] == calls[..i] && front[i] == calls[i];
      }
      AllSearchesSucceed(fold, w, front, k, day);
      OneGoodSearch(fold, RunFrom(fold, w, front), c, k, day);
    }
  }
}
