/** The six ladder requests over the table, and the daily quota of 25 searches. */
module Quota {
  import opened Results
  import opened Collections
  import opened WeekClock
  import opened WeekPool
  import opened Loadouts
  import opened LoadoutSets
  import opened FightData
  import opened NpcTeams
  import opened Decimals
  import opened NpcNames
  import opened Ladder
  import opened Collation

  const DEFAULT_TIMES := 25

  /** A quota handed out, or a search that found an enemy. */
  datatype Event = Granted(key: Key, day: int) | Found(key: Key, day: int)

  datatype World = World(table: Table, log: seq<Event>)

  datatype What =
    | Look
    | Choose(req: LoadoutSets.Request)
    | Report
    | Search(enemy: Option<Key>)
    | Finish(delta: int)

  /** One request. The enemy of a search and the score gained are whatever the server comes up with;
      `built` and `sorted` are the fighters dealt for it, should any be needed. */
  datatype Call = Call(channel: string, account: string, area: int, now: int, pool: Pool, what: What,
                       built: seq<Built>, sorted: seq<Built>)

  function AreaOf(c: Call): int {
    if c.area < 1 then 1 else c.area
  }

  function KeyOf(fold: Collation, c: Call): Key {
    Key(fold(c.channel), fold(c.account), AreaOf(c), c.pool.weekId)
  }

  // ---- the parts of a request

  function Fresh(day: int): Row {
    Row(0, 0, DEFAULT_TIMES, day, Empty, EMPTY, false)
  }

  /** The player's row is made, or its quota renewed on a new day. */
  function Entered(w: World, k: Key, day: int): World {
    if k !in w.table then World(w.table[k := Fresh(day)], w.log + [Granted(k, day)])
    else
      var me := w.table[k];
      if me.npc || me.timesDay == day then w
      else World(w.table[k := me.(timesLeft := DEFAULT_TIMES, timesDay := day)], w.log + [Granted(k, day)])
  }

  function WithLoadout(pool: Pool, me: Row, l: Loadout): Row {
    me.(loadout := l, fight := Document(FightDataOf(pool, l)), power := FightPower(pool, l))
  }

  /** The row as it is after being shown: its loadout repaired, if that changes anything. */
  function ShownRow(pool: Pool, me: Row): Row {
    var stored := Reloaded(me.loadout);
    var team := RepairedTeam(pool, stored.chars);
    if stored.chars == [] || team == [] then me
    else
      var l := EnsuredLoadout(pool, stored.(chars := team));
      if l == stored.(chars := team) && me.fight == Document(FightDataOf(pool, l)) then me
      else WithLoadout(pool, me, l)
  }

  function ChosenRow(pool: Pool, me: Row, req: LoadoutSets.Request): Row {
    var l := Reloaded(me.loadout);
    var e := Edited(pool, l, req);
    if e == None then me
    else
      var next := EnsuredLoadout(pool, e.value);
      WithLoadout(pool, me, next).(fight := if next.chars == [] then Empty else Document(FightDataOf(pool, next)))
  }

  function ReportedRow(pool: Pool, me: Row): Row {
    var l := Reloaded(me.loadout);
    if l.chars == [] then me else WithLoadout(pool, me, EnsuredLoadout(pool, l))
  }

  /** Lost fight data is made again before a search. */
  function RestoredRow(pool: Pool, me: Row): Row {
    var l := Reloaded(me.loadout);
    if me.fight == Empty && l.chars != [] then WithLoadout(pool, me, l) else me
  }

  function FinishedRow(me: Row, delta: int): Row {
    me.(score := if me.score + delta < 0 then 0 else me.score + delta)
  }

  /** An update of the player's own row. */
  function Put(w: World, k: Key, row: Row): World
    requires k in w.table
  {
    w.(table := Saved(w.table, k, row))
  }

  /** The enemy's fight data as handed out; what it was rebuilt to is stored. */
  function EnemyReadied(pool: Pool, w: World, enemy: Key): World {
    if enemy in w.table then
      var row := w.table[enemy];
      w.(table := w.table[enemy := row.(fight := CurrentFightData(pool, row.fight))])
    else w
  }

  predicate SearchWorks(pool: Pool, w: World, k: Key, enemy: Option<Key>)
    requires k in w.table
  {
    && w.table[k].fight != Empty && w.table[k].timesLeft > 0
    && enemy.Some? && enemy.value in w.table && w.table[enemy.value].fight != Empty
  }

  function Searched(pool: Pool, w: World, k: Key, enemy: Option<Key>, day: int): World
    requires k in w.table
  {
    if w.table[k].fight == Empty || w.table[k].timesLeft <= 0 || enemy == None then w
    else if !SearchWorks(pool, w, k, enemy) then w
    else
      var ready := EnemyReadied(pool, w, enemy.value);
      var me := ready.table[k];
      World(ready.table[k := me.(timesLeft := me.timesLeft - 1)], ready.log + [Found(k, day)])
  }

  function NpcsReady(fold: Collation, w: World, c: Call): World {
    w.(table := AfterNpcs(c.pool, w.table, fold(c.channel), c.built, c.sorted))
  }

  /** What the request does after the player's row is there. */
  function Answered(fold: Collation, w: World, c: Call): World
    requires KeyOf(fold, c) in w.table
  {
    var k := KeyOf(fold, c);
    var me := w.table[k];
    match c.what
    case Look => Put(w, k, ShownRow(c.pool, me))
    case Choose(req) => Put(w, k, ChosenRow(c.pool, me, req))
    case Report => Put(w, k, ReportedRow(c.pool, me))
    case Search(enemy) => Searched(c.pool, Put(w, k, RestoredRow(c.pool, ShownRow(c.pool, me))), k, enemy, DayId(c.now))
    case Finish(delta) => Put(w, k, FinishedRow(me, delta))
  }

  predicate Refused(c: Call) {
    c.account == "" || AreaOf(c) > 66
  }

  /** Looking at the board, the pool or for an enemy completes the computer's fighters first. */
  predicate ShowsNpcs(c: Call) {
    c.what.Look? || c.what.Search?
  }

  function Prepared(fold: Collation, w: World, c: Call): (r: World)
    ensures KeyOf(fold, c) in r.table
  {
    Entered(if ShowsNpcs(c) then NpcsReady(fold, w, c) else w, KeyOf(fold, c), DayId(c.now))
  }

  function After(fold: Collation, w: World, c: Call): World {
    if Refused(c) then w else Answered(fold, Prepared(fold, w, c), c)
  }

  function AfterAll(fold: Collation, calls: seq<Call>): World {
    if calls == [] then World(map[], []) else After(fold, AfterAll(fold, calls[..|calls| - 1]), calls[|calls| - 1])
  }

  predicate CallOk(c: Call) {
    ShowsNpcs(c) && !Refused(c) ==> SlotsInOrder(c.built) && SortOf(c.built, c.sorted)
  }

  /** The fighters were really dealt for this call: from the week's pool, on the day of the call. */
  ghost predicate FairlyDealt(c: Call) {
    ShowsNpcs(c) && !Refused(c) ==>
      (exists rolls :: BuiltFromRolls(c.pool, rolls, c.built, DayId(c.now))) && SortOf(c.built, c.sorted)
  }

  lemma DealtIsOk(c: Call)
    requires FairlyDealt(c)
    ensures CallOk(c)
  {
    hide RollsOk;
    if ShowsNpcs(c) && !Refused(c) {
      var rolls :| BuiltFromRolls(c.pool, rolls, c.built, DayId(c.now));
      BuiltInOrder(c.pool, rolls, c.built, DayId(c.now));
    }
  }

  // ---- counting

  /** Searches that found an enemy since the quota was last handed out. */
  function FoundSince(log: seq<Event>, k: Key): nat {
    if log == [] then 0
    else
      match log[|log| - 1]
      case Granted(key, _) => if key == k then 0 else FoundSince(log[..|log| - 1], k)
      case Found(key, _) => FoundSince(log[..|log| - 1], k) + if key == k then 1 else 0
  }

  /** Searches of one row that found an enemy on a day. */
  function FoundOn(log: seq<Event>, k: Key, day: int): nat {
    if log == [] then 0
    else FoundOn(log[..|log| - 1], k, day) + if log[|log| - 1] == Found(k, day) then 1 else 0
  }

  /** Searches of one player, by folded names, that found an enemy on a day, in whatever week. */
  function FoundBy(log: seq<Event>, channel: string, account: string, area: int, day: int): nat {
    if log == [] then 0
    else
      var e := log[|log| - 1];
      FoundBy(log[..|log| - 1], channel, account, area, day)
      + if e.Found? && e.day == day && e.key == Key(channel, account, area, e.key.week) then 1 else 0
  }

  /** What the quota depends on in a row. */
  datatype View = Absent | Present(timesLeft: int, timesDay: int, npc: bool)

  function ViewOf(t: Table, k: Key): View {
    if k in t then Present(t[k].timesLeft, t[k].timesDay, t[k].npc) else Absent
  }

  predicate Named(k: Key) {
    IsNpcKey(k.channel, k.week, k)
  }

  /** Only rows with a slot's name are the computer's. */
  predicate NpcsNamed(t: Table) {
    forall k :: k in t && t[k].npc ==> Named(k)
  }

  /** The quota of a row that carries no slot's name. */
  predicate RowQuota(w: World, k: Key) {
    k in w.table ==>
      && !w.table[k].npc
      && 0 <= w.table[k].timesLeft <= DEFAULT_TIMES
      && w.table[k].timesLeft + FoundSince(w.log, k) == DEFAULT_TIMES
  }

  ghost predicate QuotaKept(w: World) {
    && NpcsNamed(w.table)
    && forall k :: !Named(k) ==> RowQuota(w, k)
  }

  // ---- every part keeps the other rows' quotas

  lemma NamedTables(t: Table, channel: string, week: int)
    requires NpcsNamed(t)
    ensures NpcNamed(t, channel, week)
  {
    hide NpcSlotOf, NpcAccount;
    forall k | k in NpcKeys(t, channel, week)
      ensures 0 <= NpcSlotOf(k.account) < NPC_COUNT && k == NpcKey(channel, week, NpcSlotOf(k.account))
    {
      var i :| 0 <= i < NPC_COUNT && k == NpcKey(channel, week, i);
      NpcSlotOfAccount(week, i);
    }
  }

  /** Completing the computer's fighters changes nobody else, and marks nobody else. */
  lemma NpcsReadyKeeps(fold: Collation, w: World, c: Call)
    requires CallOk(c) && ShowsNpcs(c) && !Refused(c) && NpcsNamed(w.table)
    ensures NpcsNamed(NpcsReady(fold, w, c).table)
    ensures forall k :: !Named(k) ==> ViewOf(NpcsReady(fold, w, c).table, k) == ViewOf(w.table, k)
  {
    hide AfterNpcs, SlotsInOrder, SortOf, NpcKey;
    var r := NpcsReady(fold, w, c);
    NamedTables(w.table, fold(c.channel), c.pool.weekId);
    forall k | !Named(k) ensures (k in r.table <==> k in w.table) && (k in w.table ==> r.table[k] == w.table[k]) {
      if !IsNpcKey(fold(c.channel), c.pool.weekId, k) {
        NpcsElsewhere(c.pool, w.table, fold(c.channel), c.built, c.sorted, k);
      } else {
        KeyNames(fold(c.channel), c.pool.weekId, k);
      }
    }
  }

  lemma KeyNames(channel: string, week: int, k: Key)
    requires IsNpcKey(channel, week, k)
    ensures k.channel == channel && k.week == week
  {}

  /** Rows written back with their quota as it was. */
  lemma PutKeeps(w: World, k: Key, row: Row)
    requires k in w.table && NpcsNamed(w.table)
    requires row.timesLeft == w.table[k].timesLeft && row.timesDay == w.table[k].timesDay
    ensures NpcsNamed(Put(w, k, row).table) && Put(w, k, row).log == w.log
    ensures forall j :: ViewOf(Put(w, k, row).table, j) == ViewOf(w.table, j)
  {
    hide Named;
  }

  lemma EnemyKeeps(pool: Pool, w: World, enemy: Key)
    requires NpcsNamed(w.table)
    ensures NpcsNamed(EnemyReadied(pool, w, enemy).table) && EnemyReadied(pool, w, enemy).log == w.log
    ensures forall j :: ViewOf(EnemyReadied(pool, w, enemy).table, j) == ViewOf(w.table, j)
  {
    hide Named, CurrentFightData;
  }

  /** What a request does to the quotas: at most one search is taken from the caller. */
  ghost predicate Spent(w: World, r: World, k: Key, day: int) {
    && NpcsNamed(r.table)
    && (forall j :: j != k ==> ViewOf(r.table, j) == ViewOf(w.table, j))
    && k in w.table && k in r.table && r.table[k].npc == w.table[k].npc && r.table[k].timesDay == w.table[k].timesDay
    && ((r.log == w.log && r.table[k].timesLeft == w.table[k].timesLeft)
        || (r.log == w.log + [Found(k, day)] && w.table[k].timesLeft > 0
          && r.table[k].timesLeft == w.table[k].timesLeft - 1))
  }

  lemma SearchedSpends(pool: Pool, w: World, k: Key, enemy: Option<Key>, day: int)
    requires k in w.table && NpcsNamed(w.table)
    ensures Spent(w, Searched(pool, w, k, enemy, day), k, day)
  {
    hide Named, EnemyReadied;
    if SearchWorks(pool, w, k, enemy) {
      EnemyKeeps(pool, w, enemy.value);
      var ready := EnemyReadied(pool, w, enemy.value);
      assert ViewOf(ready.table, k) == ViewOf(w.table, k);
      forall j | j in ready.table && ready.table[j].npc ensures Named(j) {}
    }
  }

  lemma RowsKeepQuota(pool: Pool, me: Row, req: LoadoutSets.Request, delta: int)
    ensures var shown := ShownRow(pool, me);
            && shown.timesLeft == me.timesLeft && shown.timesDay == me.timesDay
            && RestoredRow(pool, shown).timesLeft == me.timesLeft && RestoredRow(pool, shown).timesDay == me.timesDay
            && ChosenRow(pool, me, req).timesLeft == me.timesLeft && ChosenRow(pool, me, req).timesDay == me.timesDay
            && ReportedRow(pool, me).timesLeft == me.timesLeft && ReportedRow(pool, me).timesDay == me.timesDay
            && FinishedRow(me, delta).timesLeft == me.timesLeft && FinishedRow(me, delta).timesDay == me.timesDay
  {
    hide Reloaded, RepairedTeam, EnsuredLoadout, FightDataOf, FightPower, Edited;
  }

  lemma AnsweredSpends(fold: Collation, w: World, c: Call)
    requires KeyOf(fold, c) in w.table && NpcsNamed(w.table)
    ensures Spent(w, Answered(fold, w, c), KeyOf(fold, c), DayId(c.now))
  {
    hide Named, NpcsNamed, Put, Searched, ShownRow, RestoredRow, ChosenRow, ReportedRow, FinishedRow, KeyOf, DayId;
    var k := KeyOf(fold, c);
    var me := w.table[k];
    RowsKeepQuota(c.pool, me, if c.what.Choose? then c.what.req else Other, if c.what.Finish? then c.what.delta else 0);
    match c.what
    case Look => PutKeeps(w, k, ShownRow(c.pool, me)); PutSpends(w, k, ShownRow(c.pool, me), DayId(c.now));
    case Choose(req) => PutSpends(w, k, ChosenRow(c.pool, me, req), DayId(c.now));
    case Report => PutSpends(w, k, ReportedRow(c.pool, me), DayId(c.now));
    case Finish(delta) => PutSpends(w, k, FinishedRow(me, delta), DayId(c.now));
    case Search(enemy) =>
      var row := RestoredRow(c.pool, ShownRow(c.pool, me));
      PutSpends(w, k, row, DayId(c.now));
      var mid := Put(w, k, row);
      SearchedSpends(c.pool, mid, k, enemy, DayId(c.now));
      PutKeeps(w, k, row);
      assert ViewOf(mid.table, k) == ViewOf(w.table, k);
  }

  lemma PutSpends(w: World, k: Key, row: Row, day: int)
    requires k in w.table && NpcsNamed(w.table)
    requires row.timesLeft == w.table[k].timesLeft && row.timesDay == w.table[k].timesDay
    ensures Spent(w, Put(w, k, row), k, day)
  {
    hide Named;
    PutKeeps(w, k, row);
    assert ViewOf(Put(w, k, row).table, k) == ViewOf(w.table, k);
  }

  // ---- conservation

  lemma CountAppend(log: seq<Event>, e: Event, k: Key)
    ensures FoundSince(log + [e], k) ==
              if e.key != k then FoundSince(log, k) else if e.Granted? then 0 else FoundSince(log, k) + 1
  {
    assert (log + [e])[..|log|] == log;
  }

  /** After entering, the caller's quota is in order and everybody else's is untouched. */
  lemma EnteredKeeps(w: World, k: Key, day: int)
    requires QuotaKept(w)
    ensures QuotaKept(Entered(w, k, day))
  {
    hide Named, FoundSince;
    var r := Entered(w, k, day);
    forall j | !Named(j) ensures RowQuota(r, j) {
      assert RowQuota(w, j);
      CountAppend(w.log, Granted(k, day), j);
    }
  }

  lemma SpentKeeps(w: World, r: World, k: Key, day: int)
    requires QuotaKept(w) && Spent(w, r, k, day)
    ensures QuotaKept(r)
  {
    hide Named, FoundSince;
    forall j | !Named(j) ensures RowQuota(r, j) {
      assert RowQuota(w, j);
      CountAppend(w.log, Found(k, day), j);
      assert j != k ==> ViewOf(r.table, j) == ViewOf(w.table, j);
    }
  }

  lemma ViewsKeep(w: World, r: World)
    requires QuotaKept(w) && NpcsNamed(r.table) && r.log == w.log
    requires forall k :: !Named(k) ==> ViewOf(r.table, k) == ViewOf(w.table, k)
    ensures QuotaKept(r)
  {
    hide Named, FoundSince;
    forall j | !Named(j) ensures RowQuota(r, j) {
      assert RowQuota(w, j) && ViewOf(r.table, j) == ViewOf(w.table, j);
    }
  }

  lemma AfterKeepsQuota(fold: Collation, w: World, c: Call)
    requires QuotaKept(w) && CallOk(c)
    ensures QuotaKept(After(fold, w, c))
  {
    hide RowQuota, NpcsReady, Entered, Answered, CallOk;
    if !Refused(c) {
      var ready := w;
      if ShowsNpcs(c) {
        ready := NpcsReady(fold, w, c);
        NpcsReadyKeeps(fold, w, c);
        NpcsReadyLog(fold, w, c);
        ViewsKeep(w, ready);
      }
      EnteredKeeps(ready, KeyOf(fold, c), DayId(c.now));
      var mid := Prepared(fold, w, c);
      AnsweredSpends(fold, mid, c);
      SpentKeeps(mid, Answered(fold, mid, c), KeyOf(fold, c), DayId(c.now));
    }
  }

  lemma NpcsReadyLog(fold: Collation, w: World, c: Call)
    ensures NpcsReady(fold, w, c).log == w.log
  {
    hide AfterNpcs;
  }

  /** Conservation over every run of the six requests, by any players, whatever the week, the clock,
      the enemies and the draws: on every row that carries no slot's name, the searches left and the
      successful ones since the quota was last handed out are 25 together. */
  lemma {:induction false} QuotaConserved(fold: Collation, calls: seq<Call>)
    requires forall i :: 0 <= i < |calls| ==> CallOk(calls[i])
    ensures QuotaKept(AfterAll(fold, calls))
  {
    hide After, QuotaKept, CallOk;
    if calls == [] {
      NobodyYet();
    } else {
      QuotaConserved(fold, calls[..|calls| - 1]);
      AfterKeepsQuota(fold, AfterAll(fold, calls[..|calls| - 1]), calls[|calls| - 1]);
    }
  }

  lemma NobodyYet()
    ensures QuotaKept(World(map[], []))
  {}

  // ---- the one exception

  /** Conservation fails for whoever takes a slot's name in area 1: once anybody looks at the board,
      no searches are left and none was made. */
  lemma NamedPlayerLosesQuota(fold: Collation, register: Call, look: Call, rolls: seq<Roll>, slot: int)
    requires register.what == Report && look.what == Look && !Refused(register) && !Refused(look)
    requires BuiltFromRolls(look.pool, rolls, look.built, DayId(look.now)) && SortOf(look.built, look.sorted)
    requires 0 <= slot < NPC_COUNT
    requires KeyOf(fold, register) == NpcKey(fold(look.channel), look.pool.weekId, slot) != KeyOf(fold, look)
    ensures var w := AfterAll(fold, [register, look]);
            var k := KeyOf(fold, register);
            k in w.table && !w.table[k].npc && w.table[k].timesLeft == 0 && FoundSince(w.log, k) == 0
  {
    hide NpcAccount, NpcSlotOf, UsesPool, SortOf, ShownRow, ReportedRow, AfterNpcs, RollOk;
    hide NpcLoadout, FightPower, FightDataOf;
    var k := KeyOf(fold, register);
    var start := World(map[], []);
    assert [register, look][..1] == [register] && [register][..0] == [];
    assert AfterAll(fold, [register][..0]) == start;
    var w1 := After(fold, start, register);
    assert AfterAll(fold, [register]) == w1;
    var entered := Entered(start, k, DayId(register.now));
    assert entered.log == [Granted(k, DayId(register.now))];
    AnsweredSpends(fold, entered, register);
    assert w1.table.Keys == {k};
    assert w1.log == entered.log by { RowsKeepQuota(register.pool, entered.table[k], Other, 0); }
    assert FoundSince(w1.log, k) == 0 && !w1.table[k].npc;
    assert NpcKeys(w1.table, fold(look.channel), look.pool.weekId) == {};
    HumanNameOverwritten(look.pool, w1.table, fold(look.channel), look.built, look.sorted, slot);
    NpcsReadyLog(fold, w1, look);
    var ready := NpcsReady(fold, w1, look);
    var prepared := Prepared(fold, w1, look);
    assert k in ready.table && !ready.table[k].npc && ready.table[k].timesLeft == 0;
    CountAppend(ready.log, Granted(KeyOf(fold, look), DayId(look.now)), k);
    assert FoundSince(prepared.log, k) == 0 && prepared.table[k] == ready.table[k];
    assert After(fold, w1, look).table[k] == prepared.table[k];
    assert After(fold, w1, look).log == prepared.log;
  }

  ghost predicate DealtRun(calls: seq<Call>) {
    forall i :: 0 <= i < |calls| ==> FairlyDealt(calls[i])
  }

  /** Exactly who keeps the quota: over every run, whatever is asked by whom and whatever is dealt, the
      row of an account keeps it if and only if it carries no slot's name as the table compares them. */
  lemma QuotaKeptIffUnnamed(fold: Collation, channel: string, account: string, area: int, pool: Pool, rolls: seq<Roll>)
    requires account != "" && 1 <= area <= 66 && RollsOk(pool, rolls)
    ensures var k := Key(fold(channel), fold(account), area, pool.weekId);
            (forall calls :: DealtRun(calls) ==> RowQuota(AfterAll(fold, calls), k)) <==> !Named(k)
  {
    var k := Key(fold(channel), fold(account), area, pool.weekId);
    if Named(k) {
      var calls := LosingRun(fold, channel, account, area, pool, rolls);
      assert !RowQuota(AfterAll(fold, calls), k);
    } else {
      forall calls | DealtRun(calls) ensures RowQuota(AfterAll(fold, calls), k) {
        forall i | 0 <= i < |calls| ensures CallOk(calls[i]) {
          DealtIsOk(calls[i]);
        }
        QuotaConserved(fold, calls);
      }
    }
  }

  /** The two requests that cost the holder of a slot's name the quota. */
  lemma LosingRun(fold: Collation, channel: string, account: string, area: int, pool: Pool, rolls: seq<Roll>)
      returns (calls: seq<Call>)
    requires account != "" && 1 <= area <= 66 && RollsOk(pool, rolls)
    requires Named(Key(fold(channel), fold(account), area, pool.weekId))
    ensures DealtRun(calls)
    ensures !RowQuota(AfterAll(fold, calls), Key(fold(channel), fold(account), area, pool.weekId))
  {
    hide RollsOk, AllBuilt, SortOf, NpcAccount, FoundSince, AfterAll;
    var k := Key(fold(channel), fold(account), area, pool.weekId);
    var slot :| 0 <= slot < NPC_COUNT && k == NpcKey(k.channel, k.week, slot);
    var built := AllBuilt(pool, rolls, DayId(0));
    var sorted := SortExists(built);
    var register := Call(channel, account, area, 0, pool, Report, built, sorted);
    var look := Call(channel, account, 2, 0, pool, Look, built, sorted);
    assert BuiltFromRolls(pool, rolls, built, DayId(0));
    calls := [register, look];
    NamedPlayerLosesQuota(fold, register, look, rolls, slot);
  }

  /** An account that differs from a slot's name in its capitals only: in a table that ignores them
      it loses its quota too. */
  lemma CapitalsLoseQuota(channel: string, slot: int, pool: Pool, rolls: seq<Roll>)
    requires 0 <= slot < NPC_COUNT && RollsOk(pool, rolls)
    ensures KeepsSlotNames(Lower)
    ensures var account := "NPC:" + IntText(pool.weekId) + ":" + IntText(slot);
            var k := Key(Lower(channel), Lower(account), 1, pool.weekId);
            && (forall i :: 0 <= i < NPC_COUNT ==> account != NpcAccount(pool.weekId, i))
            && !(forall calls :: DealtRun(calls) ==> RowQuota(AfterAll(Lower, calls), k))
  {
    assert forall i :: 0 <= i < NPC_COUNT ==> NpcAccount(pool.weekId, i)[0] == 'n';
    hide RollsOk, Lower, NpcAccount, IntText, AfterAll;
    LowerKeepsSlotNames();
    var account := "NPC:" + IntText(pool.weekId) + ":" + IntText(slot);
    LowerOfCapitals(pool.weekId, slot);
    assert IsNpcKey(Lower(channel), pool.weekId, NpcKey(Lower(channel), pool.weekId, slot));
    QuotaKeptIffUnnamed(Lower, channel, account, 1, pool, rolls);
  }

  // ---- no more than 25 a day

  /** The weeks whose board was served on a day. */
  function WeeksOn(calls: seq<Call>, day: int): set<int> {
    set i | 0 <= i < |calls| && DayId(calls[i].now) == day :: calls[i].pool.weekId
  }

  /** One row's searches by day, up to a day the clock has reached. */
  ghost predicate DayRow(w: World, k: Key, today: int) {
    if k in w.table then
      var me := w.table[k];
      && !me.npc && me.timesDay <= today && 0 <= me.timesLeft <= DEFAULT_TIMES
      && FoundOn(w.log, k, me.timesDay) + me.timesLeft == DEFAULT_TIMES
      && (forall d :: d > me.timesDay ==> FoundOn(w.log, k, d) == 0)
      && (forall d :: FoundOn(w.log, k, d) <= DEFAULT_TIMES)
    else
      forall d :: FoundOn(w.log, k, d) == 0
  }

  ghost predicate DaysKept(w: World, today: int) {
    && NpcsNamed(w.table)
    && forall k :: !Named(k) ==> DayRow(w, k, today)
  }

  /** Searches fall into weeks that were served on their day. */
  predicate WeeksFit(log: seq<Event>, calls: seq<Call>) {
    forall i :: 0 <= i < |log| && log[i].Found? ==> log[i].key.week in WeeksOn(calls, log[i].day)
  }

  lemma FoundOnAppend(log: seq<Event>, e: Event, k: Key, day: int)
    ensures FoundOn(log + [e], k, day) == FoundOn(log, k, day) + if e == Found(k, day) then 1 else 0
  {
    assert (log + [e])[..|log|] == log;
  }

  lemma ViewsKeepDays(w: World, r: World, today: int)
    requires DaysKept(w, today) && NpcsNamed(r.table) && r.log == w.log
    requires forall k :: !Named(k) ==> ViewOf(r.table, k) == ViewOf(w.table, k)
    ensures DaysKept(r, today)
  {
    hide Named, FoundOn;
    forall j | !Named(j) ensures DayRow(r, j, today) {
      assert DayRow(w, j, today) && ViewOf(r.table, j) == ViewOf(w.table, j);
    }
  }

  lemma EnteredKeepsDays(w: World, k: Key, before: int, today: int)
    requires DaysKept(w, before) && before <= today
    ensures DaysKept(Entered(w, k, today), today)
    ensures !Named(k) ==> k in Entered(w, k, today).table && Entered(w, k, today).table[k].timesDay == today
  {
    hide Named, FoundOn;
    var r := Entered(w, k, today);
    forall j | !Named(j) ensures DayRow(r, j, today) {
      assert DayRow(w, j, before);
      forall d ensures FoundOn(r.log, j, d) == FoundOn(w.log, j, d) {
        FoundOnAppend(w.log, Granted(k, today), j, d);
      }
    }
    assert !Named(k) ==> DayRow(w, k, before);
  }

  lemma SpentKeepsDays(w: World, r: World, k: Key, today: int)
    requires DaysKept(w, today) && Spent(w, r, k, today)
    requires !Named(k) ==> w.table[k].timesDay == today
    ensures DaysKept(r, today)
  {
    hide Named, FoundOn;
    forall j | !Named(j) ensures DayRow(r, j, today) {
      assert DayRow(w, j, today);
      forall d
        ensures FoundOn(w.log + [Found(k, today)], j, d) == FoundOn(w.log, j, d) + if j == k && d == today then 1 else 0
      {
        FoundOnAppend(w.log, Found(k, today), j, d);
      }
      assert j != k ==> ViewOf(r.table, j) == ViewOf(w.table, j);
    }
  }

  lemma AfterKeepsDays(fold: Collation, w: World, c: Call, before: int)
    requires DaysKept(w, before) && CallOk(c) && before <= DayId(c.now)
    ensures DaysKept(After(fold, w, c), DayId(c.now))
  {
    hide DayRow, NpcsReady, Entered, Answered, CallOk, DayId;
    var today := DayId(c.now);
    if Refused(c) {
      LaterDay(w, before, today);
    } else {
      var ready := w;
      if ShowsNpcs(c) {
        ready := NpcsReady(fold, w, c);
        NpcsReadyKeeps(fold, w, c);
        NpcsReadyLog(fold, w, c);
        ViewsKeepDays(w, ready, before);
      }
      EnteredKeepsDays(ready, KeyOf(fold, c), before, today);
      var mid := Prepared(fold, w, c);
      AnsweredSpends(fold, mid, c);
      SpentKeepsDays(mid, Answered(fold, mid, c), KeyOf(fold, c), today);
    }
  }

  lemma LaterDay(w: World, before: int, today: int)
    requires DaysKept(w, before) && before <= today
    ensures DaysKept(w, today)
  {
    hide Named, FoundOn;
    forall j | !Named(j) ensures DayRow(w, j, today) {
      assert DayRow(w, j, before);
    }
  }

  lemma WeeksGrow(log: seq<Event>, calls: seq<Call>, c: Call)
    requires WeeksFit(log, calls)
    ensures WeeksFit(log, calls + [c]) && c.pool.weekId in WeeksOn(calls + [c], DayId(c.now))
  {
    hide DayId;
    var more := calls + [c];
    assert more[|calls|] == c;
    forall i | 0 <= i < |log| && log[i].Found? ensures log[i].key.week in WeeksOn(more, log[i].day) {
      var j :| 0 <= j < |calls| && DayId(calls[j].now) == log[i].day && calls[j].pool.weekId == log[i].key.week;
      assert more[j] == calls[j];
    }
  }

  lemma AfterKeepsWeeks(fold: Collation, w: World, calls: seq<Call>, c: Call)
    requires WeeksFit(w.log, calls) && CallOk(c) && NpcsNamed(w.table)
    ensures WeeksFit(After(fold, w, c).log, calls + [c])
  {
    hide NpcsReady, Answered, CallOk, WeeksOn, DayId;
    WeeksGrow(w.log, calls, c);
    if !Refused(c) {
      if ShowsNpcs(c) {
        NpcsReadyKeeps(fold, w, c);
        NpcsReadyLog(fold, w, c);
      }
      var mid := Prepared(fold, w, c);
      assert NpcsNamed(mid.table) by { hide Named; }
      AnsweredSpends(fold, mid, c);
    }
  }

  predicate ClockForward(calls: seq<Call>) {
    forall i, j :: 0 <= i < j < |calls| ==> DayId(calls[i].now) <= DayId(calls[j].now)
  }

  lemma {:induction false} DaysOverRuns(fold: Collation, calls: seq<Call>)
    requires forall i :: 0 <= i < |calls| ==> CallOk(calls[i])
    requires ClockForward(calls)
    ensures calls != [] ==> DaysKept(AfterAll(fold, calls), DayId(calls[|calls| - 1].now))
    ensures calls == [] ==> forall today :: DaysKept(AfterAll(fold, calls), today)
    ensures WeeksFit(AfterAll(fold, calls).log, calls)
  {
    hide After, CallOk, DayId, DayRow, WeeksFit;
    if calls == [] {
      NoDaysYet();
    } else {
      var front, c := calls[..|calls| - 1], calls[|calls| - 1];
      assert calls == front + [c];
      DaysOverRuns(fold, front);
      var w := AfterAll(fold, front);
      var before := if front == [] then DayId(c.now) else DayId(front[|front| - 1].now);
      AfterKeepsDays(fold, w, c, before);
      AfterKeepsWeeks(fold, w, front, c);
    }
  }

  lemma NoDaysYet()
    ensures forall today :: DaysKept(World(map[], []), today)
    ensures WeeksFit([], [])
  {}

  /** Searches of one player on a day, in some of the weeks. */
  function FoundIn(log: seq<Event>, channel: string, account: string, area: int, day: int, weeks: set<int>): nat {
    if log == [] then 0
    else
      var e := log[|log| - 1];
      FoundIn(log[..|log| - 1], channel, account, area, day, weeks)
      + if e.key.week in weeks && e == Found(Key(channel, account, area, e.key.week), day) then 1 else 0
  }

  lemma {:induction false} FoundByIsFoundIn(log: seq<Event>, channel: string, account: string, area: int, day: int,
      weeks: set<int>)
    requires forall i :: 0 <= i < |log| && log[i].Found? && log[i].day == day ==> log[i].key.week in weeks
    ensures FoundBy(log, channel, account, area, day) == FoundIn(log, channel, account, area, day, weeks)
  {
    if log != [] {
      FoundByIsFoundIn(log[..|log| - 1], channel, account, area, day, weeks);
    }
  }

  lemma {:induction false} FoundInSplits(log: seq<Event>, channel: string, account: string, area: int, day: int,
      weeks: set<int>, week: int)
    requires week in weeks
    ensures FoundIn(log, channel, account, area, day, weeks) ==
              FoundIn(log, channel, account, area, day, weeks - {week})
              + FoundOn(log, Key(channel, account, area, week), day)
  {
    if log != [] {
      FoundInSplits(log[..|log| - 1], channel, account, area, day, weeks, week);
    }
  }

  lemma {:induction false} FoundInNone(log: seq<Event>, channel: string, account: string, area: int, day: int)
    ensures FoundIn(log, channel, account, area, day, {}) == 0
  {
    if log != [] {
      FoundInNone(log[..|log| - 1], channel, account, area, day);
    }
  }

  /** At most 25 in every week's row are at most 25 for each week together. */
  lemma {:induction false} FoundInBound(log: seq<Event>, channel: string, account: string, area: int, day: int,
      weeks: set<int>)
    requires forall week :: FoundOn(log, Key(channel, account, area, week), day) <= DEFAULT_TIMES
    ensures FoundIn(log, channel, account, area, day, weeks) <= DEFAULT_TIMES * |weeks|
    decreases |weeks|
  {
    hide FoundIn, FoundOn;
    if weeks == {} {
      FoundInNone(log, channel, account, area, day);
    } else {
      var week := Pick(weeks);
      FoundInSplits(log, channel, account, area, day, weeks, week);
      FoundInBound(log, channel, account, area, day, weeks - {week});
    }
  }

  // ---- a slot's name never finds anybody

  predicate NpcsIdle(t: Table) {
    forall k :: k in t && t[k].npc ==> t[k].timesLeft == 0
  }

  /** No search under a slot's name ever succeeded. */
  ghost predicate NamedFindNothing(log: seq<Event>) {
    forall i :: 0 <= i < |log| && log[i].Found? ==> !Named(log[i].key)
  }

  /** After the completion every slot's name of the board is out of searches for the day. */
  lemma NpcsReadyIdle(fold: Collation, w: World, c: Call)
    requires FairlyDealt(c) && ShowsNpcs(c) && !Refused(c) && NpcsNamed(w.table) && NpcsIdle(w.table)
    ensures var t := NpcsReady(fold, w, c).table;
            && NpcsIdle(t)
            && (IsNpcKey(fold(c.channel), c.pool.weekId, KeyOf(fold, c)) ==>
                  && KeyOf(fold, c) in t && t[KeyOf(fold, c)].timesLeft == 0
                  && (t[KeyOf(fold, c)].npc || t[KeyOf(fold, c)].timesDay == DayId(c.now)))
  {
    hide AfterNpcs, NpcAccount, NpcSlotOf, SortOf, RollOk, NpcLoadout, FightPower, FightDataOf, DayId;
    DealtIsOk(c);
    NpcsReadyKeeps(fold, w, c);
    var ch, wk, t := fold(c.channel), c.pool.weekId, NpcsReady(fold, w, c).table;
    NamedTables(w.table, ch, wk);
    var rolls :| BuiltFromRolls(c.pool, rolls, c.built, DayId(c.now));
    forall i | 0 <= i < NPC_COUNT
      ensures var k := NpcKey(ch, wk, i);
              k in t && t[k].timesLeft == 0 && (t[k].npc || t[k].timesDay == DayId(c.now))
    {
      SlotAfter(c.pool, w.table, ch, c.built, c.sorted, i);
    }
    forall k | k in t && t[k].npc ensures t[k].timesLeft == 0 {
      if !IsNpcKey(ch, wk, k) {
        NpcsElsewhere(c.pool, w.table, ch, c.built, c.sorted, k);
      }
    }
  }

  lemma AnsweredLog(fold: Collation, w: World, c: Call)
    requires KeyOf(fold, c) in w.table && !c.what.Search?
    ensures Answered(fold, w, c).log == w.log
  {
    hide ShownRow, ChosenRow, ReportedRow, FinishedRow;
  }

  lemma SpentIdle(w: World, r: World, k: Key, day: int)
    requires NpcsIdle(w.table) && Spent(w, r, k, day)
    ensures NpcsIdle(r.table)
  {
    forall j | j in r.table && r.table[j].npc ensures r.table[j].timesLeft == 0 {
      assert j != k ==> ViewOf(r.table, j) == ViewOf(w.table, j);
    }
  }

  lemma AfterKeepsNamedIdle(fold: Collation, w: World, c: Call)
    requires FairlyDealt(c) && NpcsNamed(w.table) && NpcsIdle(w.table) && NamedFindNothing(w.log)
    ensures NpcsNamed(After(fold, w, c).table) && NpcsIdle(After(fold, w, c).table)
    ensures NamedFindNothing(After(fold, w, c).log)
  {
    hide NpcsReady, Answered, FairlyDealt, Searched, DayId, IsNpcKey;
    if !Refused(c) {
      DealtIsOk(c);
      if ShowsNpcs(c) {
        NpcsReadyKeeps(fold, w, c);
        NpcsReadyLog(fold, w, c);
        NpcsReadyIdle(fold, w, c);
      }
      var mid := Prepared(fold, w, c);
      AnsweredSpends(fold, mid, c);
      SpentIdle(mid, Answered(fold, mid, c), KeyOf(fold, c), DayId(c.now));
      if !c.what.Search? {
        AnsweredLog(fold, mid, c);
      }
    }
  }

  lemma {:induction false} NamedNeverFind(fold: Collation, calls: seq<Call>)
    requires DealtRun(calls)
    ensures NpcsNamed(AfterAll(fold, calls).table) && NpcsIdle(AfterAll(fold, calls).table)
    ensures NamedFindNothing(AfterAll(fold, calls).log)
  {
    hide After, FairlyDealt, Named;
    if calls != [] {
      NamedNeverFind(fold, calls[..|calls| - 1]);
      AfterKeepsNamedIdle(fold, AfterAll(fold, calls[..|calls| - 1]), calls[|calls| - 1]);
    }
  }

  lemma {:induction false} NoneFound(log: seq<Event>, k: Key, day: int)
    requires forall i :: 0 <= i < |log| && log[i].Found? ==> log[i].key != k
    ensures FoundOn(log, k, day) == 0
  {
    if log != [] {
      NoneFound(log[..|log| - 1], k, day);
    }
  }

  /** No row of any name or week finds more than 25 enemies in one day. */
  lemma RowAtMost25(fold: Collation, calls: seq<Call>, k: Key, day: int)
    requires DealtRun(calls) && ClockForward(calls)
    ensures FoundOn(AfterAll(fold, calls).log, k, day) <= DEFAULT_TIMES
  {
    hide Named, FairlyDealt, CallOk, DayId, AfterAll, FoundOn, WeeksFit;
    forall i | 0 <= i < |calls| ensures CallOk(calls[i]) {
      DealtIsOk(calls[i]);
    }
    DaysOverRuns(fold, calls);
    var w := AfterAll(fold, calls);
    if Named(k) {
      NamedNeverFind(fold, calls);
      NoneFound(w.log, k, day);
    } else {
      var today := if calls == [] then 0 else DayId(calls[|calls| - 1].now);
      assert DaysKept(w, today);
      assert DayRow(w, k, today);
    }
  }

  /** As long as the clock does not go back, no player, whatever the name, finds more than 25 enemies in
      one day (04:00 to 04:00) for each week whose board was served on that day. */
  lemma AtMost25AWeekADay(fold: Collation, calls: seq<Call>, channel: string, account: string, area: int, day: int)
    requires DealtRun(calls) && ClockForward(calls)
    ensures FoundBy(AfterAll(fold, calls).log, channel, account, area, day) <= DEFAULT_TIMES * |WeeksOn(calls, day)|
  {
    hide FairlyDealt, DayId, AfterAll, FoundOn, FoundBy, WeeksOn;
    forall i | 0 <= i < |calls| ensures CallOk(calls[i]) {
      DealtIsOk(calls[i]);
    }
    DaysOverRuns(fold, calls);
    var log := AfterAll(fold, calls).log;
    var weeks := WeeksOn(calls, day);
    FoundByIsFoundIn(log, channel, account, area, day, weeks);
    forall week ensures FoundOn(log, Key(channel, account, area, week), day) <= DEFAULT_TIMES {
      RowAtMost25(fold, calls, Key(channel, account, area, week), day);
    }
    FoundInBound(log, channel, account, area, day, weeks);
  }

  predicate OneWeekADay(calls: seq<Call>) {
    forall i, j :: 0 <= i < |calls| && 0 <= j < |calls| && DayId(calls[i].now) == DayId(calls[j].now) ==>
      calls[i].pool.weekId == calls[j].pool.weekId
  }

  /** The week does not change within a day when it follows the clock, nor when it is pinned. */
  lemma WeeksLastADay(calls: seq<Call>, pin: int)
    requires forall i :: 0 <= i < |calls| ==>
      calls[i].pool.weekId == if pin > 0 then pin else WeekIdAt(calls[i].now)
    ensures OneWeekADay(calls)
  {
    hide DayId, WeekIdAt;
    forall i, j | 0 <= i < |calls| && 0 <= j < |calls| && DayId(calls[i].now) == DayId(calls[j].now)
      ensures calls[i].pool.weekId == calls[j].pool.weekId
    {
      WeekOfDay(calls[i].now, calls[j].now);
    }
  }

  /** So no player finds more than 25 enemies a day, not even when the week changes. */
  lemma AtMost25ADay(fold: Collation, calls: seq<Call>, channel: string, account: string, area: int, day: int)
    requires DealtRun(calls) && ClockForward(calls) && OneWeekADay(calls)
    ensures FoundBy(AfterAll(fold, calls).log, channel, account, area, day) <= DEFAULT_TIMES
  {
    hide DealtRun, ClockForward, AfterAll, FoundBy, DayId;
    AtMost25AWeekADay(fold, calls, channel, account, area, day);
    var weeks := WeeksOn(calls, day);
    if weeks != {} {
      var week := Pick(weeks);
      SubsetCard(weeks, {week});
    }
  }
}
