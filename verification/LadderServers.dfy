/** The ladder server itself: requests that change the table in place, proved against the functions
    of Ladder and Quota. */
module LadderServers {
  import opened Results
  import opened WeekClock
  import opened WeekPool
  import opened Loadouts
  import opened LoadoutSets
  import opened FightData
  import opened NpcTeams
  import opened NpcNames
  import opened Ladder
  import opened Collation
  import opened Quota

  /** Insertion by power; equals keep their order. */
  method SortByPower(built: seq<Built>) returns (sorted: seq<Built>)
    ensures SortOf(built, sorted)
  {
    sorted := [];
    var n := 0;
    while n < |built|
      invariant 0 <= n <= |built| && SortOf(built[..n], sorted)
    {
      assert built[..n + 1] == built[..n] + [built[n]];
      sorted := Insert(sorted, built[n]);
      n := n + 1;
    }
    assert built[..n] == built;
  }

  method Insert(sorted: seq<Built>, b: Built) returns (r: seq<Built>)
    requires PowerSorted(sorted)
    ensures multiset(r) == multiset(sorted) + multiset{b} && PowerSorted(r)
  {
    var i := |sorted|;
    while i > 0 && sorted[i - 1].row.power > b.row.power
      invariant 0 <= i <= |sorted|
      invariant forall j :: i <= j < |sorted| ==> sorted[j].row.power > b.row.power
    {
      i := i - 1;
    }
    r := sorted[..i] + [b] + sorted[i..];
    InsertedContents(sorted, b, i);
    InsertedSorted(sorted, b, i);
  }

  class LadderServer {
    const fold: Collation
    var table: Table
    ghost var log: seq<Event>

    ghost function State(): World
      reads this
    {
      World(table, log)
    }

    constructor (fold: Collation)
      ensures State() == World(map[], []) && this.fold == fold
    {
      this.fold := fold;
      table, log := map[], [];
    }

    /** Insert or update. Whoever was marked as computer-run, or not, stays so; a new row gets the mark
        it comes with; no other row changes. */
    method SaveFighter(k: Key, row: Row)
      modifies `table
      ensures forall j :: j in table <==> j in old(table) || j == k
      ensures forall j :: j in old(table) ==> table[j].npc == old(table)[j].npc
      ensures forall j :: j in old(table) && j != k ==> table[j] == old(table)[j]
      ensures k in table && table[k].(npc := row.npc) == row && (k !in old(table) ==> table[k] == row)
      ensures table == Saved(old(table), k, row)
    {
      if k in table {
        table := table[k := row.(npc := table[k].npc)];
      } else {
        table := table[k := row];
      }
    }

    /** What the stored computer-run fighters of the week amount to. */
    method ReadNpcs(pool: Pool, channel: string) returns (poolOk: bool, have: set<int>)
      ensures poolOk <==> AllUsePool(pool, table, channel)
      ensures forall i :: i in have <==> i in SlotsHad(table, channel, pool.weekId)
    {
      hide UsesPool, NpcSlotOf;
      var rows := NpcKeys(table, channel, pool.weekId);
      poolOk, have := rows != {}, {};
      var rest := rows;
      while rest != {}
        invariant rest <= rows == NpcKeys(table, channel, pool.weekId)
        invariant poolOk <==> rows != {} && forall k :: k in rows - rest ==> UsesPool(pool, table[k].fight)
        invariant forall i :: i in have ==>
              exists k :: k in rows - rest && NpcSlotOf(k.account) == i && 0 <= i < NPC_COUNT
        invariant forall k :: k in rows - rest && 0 <= NpcSlotOf(k.account) < NPC_COUNT ==> NpcSlotOf(k.account) in have
        decreases |rest|
      {
        var k :| k in rest;
        var index := NpcSlot(k.account);
        ghost var done := rows - rest;
        rest := rest - {k};
        forall j ensures j in rows - rest <==> j in done || j == k {}
        if 0 <= index < NPC_COUNT {
          have := have + {index};
        }
        if !UsesPool(pool, table[k].fight) {
          poolOk := false;
        }
      }
    }

    method BuildAll(pool: Pool, rolls: seq<Roll>, day: int) returns (built: seq<Built>)
      requires PoolSound(pool) && RollsOk(pool, rolls)
      ensures built == AllBuilt(pool, rolls, day)
    {
      hide PoolSound, RollOk, FightDataOf, FightPower, NpcLoadout;
      built := [];
      var i := 0;
      while i < NPC_COUNT
        invariant 0 <= i <= NPC_COUNT && built == AllBuilt(pool, rolls, day)[..i]
      {
        var l := DealTeam(pool, rolls[i]);
        var power := FightPowerOf(pool, l);
        built := built + [Built(i, Row(power, 0, 0, day, Document(FightDataOf(pool, l)), l, true))];
        i := i + 1;
      }
    }

    /** Completes or rebuilds the computer-run fighters; the out-parameters name what was dealt. */
    method EnsureNpcs(pool: Pool, channel: string, rolls: seq<Roll>, day: int)
        returns (ghost built: seq<Built>, ghost sorted: seq<Built>)
      requires PoolSound(pool) && RollsOk(pool, rolls)
      modifies `table
      ensures built == AllBuilt(pool, rolls, day) && SortOf(built, sorted)
      ensures table == AfterNpcs(pool, old(table), channel, built, sorted)
    {
      hide PoolSound, RollOk, RollsOk, AllUsePool, SlotsHad, NpcKeys, NpcKey, BuiltFor;
      var poolOk, have := ReadNpcs(pool, channel);
      var all := BuildAll(pool, rolls, day);
      var order := SortByPower(all);
      built, sorted := all, order;
      var complete := poolOk;
      if complete {
        complete := forall i :: 0 <= i < NPC_COUNT ==> i in have;
      }
      if complete {
        return;
      }
      if poolOk {
        AddAll(pool.weekId, channel, have, all);
        AddedSameHad(old(table), channel, pool.weekId, have, SlotsHad(old(table), channel, pool.weekId), all, |all|);
        return;
      }
      table := table - NpcKeys(table, channel, pool.weekId);
      RankAll(pool.weekId, channel, order);
    }

    method AddAll(week: int, channel: string, have: set<int>, built: seq<Built>)
      modifies `table
      ensures table == Added(old(table), channel, week, have, built, |built|)
    {
      hide NpcKey, Saved;
      var i := 0;
      while i < |built|
        invariant 0 <= i <= |built| && table == Added(old(table), channel, week, have, built, i)
      {
        if built[i].slot !in have {
          SaveFighter(NpcKey(channel, week, built[i].slot), built[i].row.(score := 6 + built[i].slot * 3));
        }
        i := i + 1;
      }
    }

    method RankAll(week: int, channel: string, order: seq<Built>)
      modifies `table
      ensures table == Ranked(old(table), channel, week, order, |order|)
    {
      hide NpcKey, Saved;
      var i := 0;
      while i < |order|
        invariant 0 <= i <= |order| && table == Ranked(old(table), channel, week, order, i)
      {
        SaveFighter(NpcKey(channel, week, order[i].slot), order[i].row.(score := 6 + i * 3));
        i := i + 1;
      }
    }

    /** Finds or makes the player's row, and renews its quota on a new day. */
    method EnsurePlayer(k: Key, today: int) returns (me: Row)
      modifies this
      ensures State() == Entered(old(State()), k, today)
      ensures k in table && me == table[k]
    {
      if k !in table {
        me := Row(0, 0, DEFAULT_TIMES, today, Empty, EMPTY, false);
        SaveFighter(k, me);
        log := log + [Granted(k, today)];
        return;
      }
      me := table[k];
      if me.npc || me.timesDay == today {
        return;
      }
      me := me.(timesLeft := DEFAULT_TIMES, timesDay := today);
      table := table[k := me];
      log := log + [Granted(k, today)];
    }

    method Repair(pool: Pool, k: Key, row: Row) returns (me: Row)
      requires PositivePool(pool) && k in table && row == table[k]
      modifies `table
      ensures table == Saved(old(table), k, ShownRow(pool, row))
      ensures k in table && me == table[k]
    {
      hide FightDataOf, FightPower, RepairedTeam, EnsuredLoadout;
      me := row;
      var l := Reloaded(me.loadout);
      assert Saved(table, k, row) == table;
      if l.chars == [] {
        return;
      }
      var team := RepairedTeam(pool, l.chars);
      if team == [] {
        return;
      }
      var fixed, changed := EnsureLoadoutKungfu(pool, l.(chars := team));
      if !changed && me.fight == Document(FightDataOf(pool, fixed)) {
        return;
      }
      var power := FightPowerOf(pool, fixed);
      me := me.(loadout := fixed, fight := Document(FightDataOf(pool, fixed)), power := power);
      SaveFighter(k, me);
    }

    /** A search for an enemy: succeeds with a searcher who has fight data and searches left, and an
        enemy whose fight data can be handed out. */
    method Find(pool: Pool, k: Key, enemy: Option<Key>, day: int) returns (ok: bool)
      requires k in table
      modifies this
      ensures State() == Searched(pool, old(State()), k, enemy, day)
      ensures ok <==> SearchWorks(pool, old(State()), k, enemy)
    {
      hide CurrentFightData;
      ok := false;
      var me := table[k];
      if me.fight == Empty || me.timesLeft <= 0 {
        return;
      }
      if enemy == None || enemy.value !in table {
        return;
      }
      var raw := table[enemy.value].fight;
      if raw == Empty {
        return;
      }
      var data := HandOut(pool, raw);
      table := table[enemy.value := table[enemy.value].(fight := data)];
      var left := if me.timesLeft - 1 > 0 then me.timesLeft - 1 else 0;
      table := table[k := table[k].(timesLeft := left)];
      log := log + [Found(k, day)];
      ok := true;
    }

    /** One request. */
    method Handle(channel: string, account: string, area: int, now: int, pool: Pool, what: What, rolls: seq<Roll>)
      returns (ghost c: Call)
      requires PoolSound(pool) && RollsOk(pool, rolls)
      modifies this
      ensures c.channel == channel && c.account == account && c.area == area && c.now == now && c.pool == pool
            && c.what == what
      ensures FairlyDealt(c) && State() == After(fold, old(State()), c)
    {
      hide AfterNpcs, Entered, Searched, ShownRow, AllBuilt, BuiltFor, SortOf, PoolSound, RollsOk, DayId;
      ghost var before := State();
      var day := DayId(now);
      var use := if area < 1 then 1 else area;
      var k := Key(fold(channel), fold(account), use, pool.weekId);
      c := Call(channel, account, area, now, pool, what, [], []);
      var refused := account == "" || use > 66;
      if refused {
        return;
      }
      if what.Look? || what.Search? {
        ghost var built, sorted := EnsureNpcs(pool, fold(channel), rolls, day);
        assert BuiltFromRolls(pool, rolls, built, day) by { assert RollsOk(pool, rolls); }
        c := c.(built := built, sorted := sorted);
      }
      assert State() == if ShowsNpcs(c) then NpcsReady(fold, before, c) else before;
      var me := EnsurePlayer(k, day);
      ghost var mid := State();
      assert mid == Prepared(fold, before, c);
      SoundIsPositive(pool);
      Respond(pool, k, me, what, day, c);
    }

    method Respond(pool: Pool, k: Key, row: Row, what: What, day: int, ghost c: Call)
      requires PositivePool(pool) && k in table && row == table[k]
      requires c.pool == pool && KeyOf(fold, c) == k && DayId(c.now) == day && c.what == what
      modifies this
      ensures State() == Answered(fold, old(State()), c)
    {
      hide Searched, ShownRow, FightDataOf, FightPower, EnsuredLoadout, Edited, DayId, KeyOf;
      var me := row;
      match what {
        case Look =>
          me := Repair(pool, k, me);
        case Choose(req) =>
          var l := Reloaded(me.loadout);
          var ok, next := HandleSet(pool, l, req);
          assert Saved(table, k, row) == table;
          if !ok {
            return;
          }
          var power := FightPowerOf(pool, next);
          var fight := if next.chars == [] then Empty else Document(FightDataOf(pool, next));
          SaveFighter(k, me.(loadout := next, fight := fight, power := power));
        case Report =>
          var l := Reloaded(me.loadout);
          assert Saved(table, k, row) == table;
          if l.chars == [] {
            return;
          }
          var next, changed := EnsureLoadoutKungfu(pool, l);
          var power := FightPowerOf(pool, next);
          SaveFighter(k, me.(loadout := next, fight := Document(FightDataOf(pool, next)), power := power));
        case Search(enemy) =>
          me := Repair(pool, k, me);
          Restore(pool, k, me);
          SavedTwice(old(table), k, ShownRow(pool, row), RestoredRow(pool, me));
          var ok := Find(pool, k, enemy, day);
        case Finish(delta) =>
          var score := if me.score + delta > 0 then me.score + delta else 0;
          SaveFighter(k, me.(score := score));
      }
    }

    /** Makes lost fight data again. */
    method Restore(pool: Pool, k: Key, row: Row)
      requires k in table && row == table[k]
      modifies `table
      ensures table == Saved(old(table), k, RestoredRow(pool, row))
    {
      hide FightDataOf, FightPower;
      assert Saved(table, k, row) == table;
      if row.fight == Empty {
        var l := Reloaded(row.loadout);
        if l.chars != [] {
          var power := FightPowerOf(pool, l);
          SaveFighter(k, row.(loadout := l, fight := Document(FightDataOf(pool, l)), power := power));
        }
      }
    }
  }

  lemma SavedTwice(t: Table, k: Key, a: Row, b: Row)
    requires k in t
    ensures Saved(Saved(t, k, a), k, b) == Saved(t, k, b)
  {}

  lemma {:induction false} AddedSameHad(t: Table, channel: string, week: int, a: set<int>, b: set<int>,
      built: seq<Built>, n: nat)
    requires n <= |built| && forall i :: i in a <==> i in b
    ensures Added(t, channel, week, a, built, n) == Added(t, channel, week, b, built, n)
  {
    if n > 0 {
      AddedSameHad(t, channel, week, a, b, built, n - 1);
    }
  }
}
