/** The ladder table and its computer-run fighters: 21 per channel and week, completed or rebuilt
    before a board is shown or an enemy is searched. */
module Ladder {
  import opened Collections
  import opened NpcNames
  import opened WeekPool
  import opened Loadouts
  import opened FightData
  import opened NpcTeams

  const NPC_COUNT := 21

  /** What makes a row unique; channel and account are folded, as the table compares them. A slot's
      name is its own folding. */
  datatype Key = Key(channel: string, account: string, area: int, week: int)

  datatype Row = Row(power: int, score: int, timesLeft: int, timesDay: int, fight: Blob, loadout: Loadout, npc: bool)

  type Table = map<Key, Row>

  /** Insert or update; an update leaves the mark of a computer-run fighter as it was. */
  function Saved(t: Table, k: Key, row: Row): Table {
    t[k := if k in t then row.(npc := t[k].npc) else row]
  }

  function NpcKey(channel: string, week: int, slot: int): Key {
    Key(channel, NpcAccount(week, slot), 1, week)
  }

  function NpcKeys(t: Table, channel: string, week: int): set<Key> {
    set k | k in t && k.channel == channel && k.week == week && t[k].npc
  }

  function SlotsHad(t: Table, channel: string, week: int): set<int> {
    set k | k in NpcKeys(t, channel, week) && 0 <= NpcSlotOf(k.account) < NPC_COUNT :: NpcSlotOf(k.account)
  }

  /** There are some, and every one belongs to the week. */
  predicate AllUsePool(pool: Pool, t: Table, channel: string) {
    && NpcKeys(t, channel, pool.weekId) != {}
    && forall k :: k in NpcKeys(t, channel, pool.weekId) ==> UsesPool(pool, t[k].fight)
  }

  datatype Plan = Nothing | AddMissing | Rebuild

  function NpcPlan(pool: Pool, t: Table, channel: string): Plan {
    if !AllUsePool(pool, t, channel) then Rebuild
    else if forall i :: 0 <= i < NPC_COUNT ==> i in SlotsHad(t, channel, pool.weekId) then Nothing
    else AddMissing
  }

  /** A fighter made for a slot. */
  datatype Built = Built(slot: int, row: Row)

  function BuiltFor(pool: Pool, roll: Roll, slot: int, day: int): Built
    requires RollOk(pool, roll)
  {
    var l := NpcLoadout(pool, roll);
    Built(slot, Row(FightPower(pool, l), 0, 0, day, Document(FightDataOf(pool, l)), l, true))
  }

  predicate RollsOk(pool: Pool, rolls: seq<Roll>) {
    |rolls| == NPC_COUNT && forall i :: 0 <= i < NPC_COUNT ==> RollOk(pool, rolls[i])
  }

  function AllBuilt(pool: Pool, rolls: seq<Roll>, day: int): (r: seq<Built>)
    requires RollsOk(pool, rolls)
    ensures |r| == NPC_COUNT && forall i :: 0 <= i < NPC_COUNT ==> r[i] == BuiltFor(pool, rolls[i], i, day)
  {
    seq(NPC_COUNT, i requires 0 <= i < NPC_COUNT => BuiltFor(pool, rolls[i], i, day))
  }

  /** Slots in order; those already there are skipped. */
  function Added(t: Table, channel: string, week: int, had: set<int>, built: seq<Built>, n: nat): Table
    requires n <= |built|
  {
    if n == 0 then t
    else
      var before := Added(t, channel, week, had, built, n - 1);
      var b := built[n - 1];
      if b.slot in had then before
      else Saved(before, NpcKey(channel, week, b.slot), b.row.(score := 6 + 3 * b.slot))
  }

  /** Ranks in the given order. */
  function Ranked(t: Table, channel: string, week: int, sorted: seq<Built>, n: nat): Table
    requires n <= |sorted|
  {
    if n == 0 then t
    else
      var b := sorted[n - 1];
      Saved(Ranked(t, channel, week, sorted, n - 1), NpcKey(channel, week, b.slot), b.row.(score := 6 + 3 * (n - 1)))
  }

  function WithoutNpcs(t: Table, channel: string, week: int): Table {
    t - NpcKeys(t, channel, week)
  }

  /** A result of sorting by power; std::sort leaves the order of equals open. */
  predicate SortOf(built: seq<Built>, sorted: seq<Built>) {
    && multiset(sorted) == multiset(built)
    && forall i, j :: 0 <= i < j < |sorted| ==> sorted[i].row.power <= sorted[j].row.power
  }

  function AfterNpcs(pool: Pool, t: Table, channel: string, built: seq<Built>, sorted: seq<Built>): Table {
    match NpcPlan(pool, t, channel)
    case Nothing => t
    case AddMissing => Added(t, channel, pool.weekId, SlotsHad(t, channel, pool.weekId), built, |built|)
    case Rebuild => Ranked(WithoutNpcs(t, channel, pool.weekId), channel, pool.weekId, sorted, |sorted|)
  }

  // ---- what the table may hold

  /** Computer-run fighters of the week carry the names of the slots. */
  predicate NpcNamed(t: Table, channel: string, week: int) {
    forall k :: k in NpcKeys(t, channel, week) ==>
      0 <= NpcSlotOf(k.account) < NPC_COUNT && k == NpcKey(channel, week, NpcSlotOf(k.account))
  }

  /** No human has taken one of those names. */
  predicate NoHumanNamed(t: Table, channel: string, week: int) {
    forall i :: 0 <= i < NPC_COUNT && NpcKey(channel, week, i) in t ==> t[NpcKey(channel, week, i)].npc
  }

  predicate SlotsInOrder(built: seq<Built>) {
    |built| == NPC_COUNT && forall i :: 0 <= i < NPC_COUNT ==> built[i].slot == i && built[i].row.npc
  }

  /** Every slot once, in any order. */
  predicate EverySlot(sorted: seq<Built>) {
    && |sorted| == NPC_COUNT
    && (forall j :: 0 <= j < NPC_COUNT ==> 0 <= sorted[j].slot < NPC_COUNT && sorted[j].row.npc)
    && (forall i, j :: 0 <= i < j < NPC_COUNT ==> sorted[i].slot != sorted[j].slot)
    && (forall s :: 0 <= s < NPC_COUNT ==> HasSlot(sorted, s))
  }

  predicate HasSlot(sorted: seq<Built>, s: int) {
    exists j :: 0 <= j < |sorted| && sorted[j].slot == s
  }

  lemma SortKeepsSlots(built: seq<Built>, sorted: seq<Built>)
    requires SlotsInOrder(built) && SortOf(built, sorted)
    ensures EverySlot(sorted)
    ensures forall j :: 0 <= j < NPC_COUNT ==> sorted[j] == built[sorted[j].slot]
  {
    PermutedSize(sorted, built);
    forall j | 0 <= j < NPC_COUNT ensures 0 <= sorted[j].slot < NPC_COUNT && sorted[j] == built[sorted[j].slot] {
      var i := PermutedMember(sorted, built, j);
    }
    forall s | 0 <= s < NPC_COUNT ensures HasSlot(sorted, s) {
      var j := PermutedMember(built, sorted, s);
    }
    forall i, j | 0 <= i < j < NPC_COUNT ensures sorted[i].slot != sorted[j].slot {
      if sorted[i].slot == sorted[j].slot {
        TwiceCounts(sorted, i, j);
        BuiltOnce(built, sorted[i]);
      }
    }
  }

  lemma {:induction false} BuiltOnce(built: seq<Built>, x: Built)
    requires forall i :: 0 <= i < |built| ==> built[i].slot == i
    ensures multiset(built)[x] <= 1
  {
    if built != [] {
      var front, last := built[..|built| - 1], built[|built| - 1];
      BuiltOnce(front, x);
      assert built == front + [last];
      if last == x {
        assert x !in front;
        assert multiset(front)[x] == 0;
      }
    }
  }

  // ---- sorting is possible

  predicate PowerSorted(s: seq<Built>) {
    forall i, j :: 0 <= i < j < |s| ==> s[i].row.power <= s[j].row.power
  }

  lemma InsertedContents(s: seq<Built>, b: Built, i: nat)
    requires i <= |s|
    ensures multiset(s[..i] + [b] + s[i..]) == multiset(s) + multiset{b}
  {
    assert s == s[..i] + s[i..];
  }

  lemma InsertedSorted(s: seq<Built>, b: Built, i: nat)
    requires PowerSorted(s) && i <= |s|
    requires i > 0 ==> s[i - 1].row.power <= b.row.power
    requires forall j :: i <= j < |s| ==> s[j].row.power > b.row.power
    ensures PowerSorted(s[..i] + [b] + s[i..])
  {
    var r := s[..i] + [b] + s[i..];
    forall j, k | 0 <= j < k < |r| ensures r[j].row.power <= r[k].row.power {
      assert j < i ==> r[j] == s[j] && s[j].row.power <= b.row.power;
      assert k > i ==> r[k] == s[k - 1];
    }
  }

  lemma InsertPlace(s: seq<Built>, b: Built) returns (i: nat)
    ensures i <= |s| && (i > 0 ==> s[i - 1].row.power <= b.row.power)
    ensures forall j :: i <= j < |s| ==> s[j].row.power > b.row.power
  {
    i := |s|;
    while i > 0 && s[i - 1].row.power > b.row.power
      invariant i <= |s| && forall j :: i <= j < |s| ==> s[j].row.power > b.row.power
    {
      i := i - 1;
    }
  }

  lemma {:induction false} SortExists(built: seq<Built>) returns (sorted: seq<Built>)
    ensures SortOf(built, sorted)
  {
    if built == [] {
      sorted := [];
    } else {
      var front, last := built[..|built| - 1], built[|built| - 1];
      assert built == front + [last];
      var before := SortExists(front);
      var i := InsertPlace(before, last);
      InsertedContents(before, last, i);
      InsertedSorted(before, last, i);
      sorted := before[..i] + [last] + before[i..];
    }
  }

  lemma BuiltInOrder(pool: Pool, rolls: seq<Roll>, built: seq<Built>, day: int)
    requires RollsOk(pool, rolls) && built == AllBuilt(pool, rolls, day)
    ensures SlotsInOrder(built)
  {
    hide RollOk, NpcLoadout, FightPower, FightDataOf;
  }

  // ---- tables after saving, row by row

  lemma NpcKeyInjective(channel: string, week: int, i: int, j: int)
    requires NpcKey(channel, week, i) == NpcKey(channel, week, j)
    ensures i == j
  {
    NpcAccountInjective(week, i, j);
  }

  /** A key that is no slot's is not touched. */
  lemma {:induction false} RankedElsewhere(t: Table, channel: string, week: int, sorted: seq<Built>, n: nat, k: Key)
    requires n <= |sorted| && forall j :: 0 <= j < n ==> k != NpcKey(channel, week, sorted[j].slot)
    ensures var r := Ranked(t, channel, week, sorted, n);
            (k in r <==> k in t) && (k in t ==> r[k] == t[k])
  {
    hide NpcKey;
    if n > 0 {
      RankedElsewhere(t, channel, week, sorted, n - 1, k);
    }
  }

  /** The j-th of the order gets score 6 + 3j, and stays what it was if a human held the name. */
  lemma {:induction false} RankedAt(t: Table, channel: string, week: int, sorted: seq<Built>, n: nat, j: nat)
    requires j < n <= |sorted|
    requires forall i, j :: 0 <= i < j < |sorted| ==> sorted[i].slot != sorted[j].slot
    requires forall i :: 0 <= i < |sorted| ==> sorted[i].row.npc
    ensures var r := Ranked(t, channel, week, sorted, n);
            var k := NpcKey(channel, week, sorted[j].slot);
            && k in r
            && r[k] == sorted[j].row.(score := 6 + 3 * j, npc := if k in t then t[k].npc else true)
  {
    hide NpcKey;
    var k := NpcKey(channel, week, sorted[j].slot);
    if j == n - 1 {
      forall i | 0 <= i < j ensures k != NpcKey(channel, week, sorted[i].slot) {
        if k == NpcKey(channel, week, sorted[i].slot) {
          NpcKeyInjective(channel, week, sorted[i].slot, sorted[j].slot);
        }
      }
      RankedElsewhere(t, channel, week, sorted, n - 1, k);
    } else {
      RankedAt(t, channel, week, sorted, n - 1, j);
      if k == NpcKey(channel, week, sorted[n - 1].slot) {
        NpcKeyInjective(channel, week, sorted[n - 1].slot, sorted[j].slot);
      }
    }
  }

  lemma {:induction false} AddedElsewhere(t: Table, channel: string, week: int, had: set<int>, built: seq<Built>,
      n: nat, k: Key)
    requires n <= |built| && forall j :: 0 <= j < n && built[j].slot !in had ==>
          k != NpcKey(channel, week, built[j].slot)
    ensures var r := Added(t, channel, week, had, built, n);
            (k in r <==> k in t) && (k in t ==> r[k] == t[k])
  {
    hide NpcKey;
    if n > 0 {
      AddedElsewhere(t, channel, week, had, built, n - 1, k);
    }
  }

  lemma {:induction false} AddedAt(t: Table, channel: string, week: int, had: set<int>, built: seq<Built>, n: nat,
      j: nat)
    requires SlotsInOrder(built) && j < n <= NPC_COUNT && j !in had
    ensures var r := Added(t, channel, week, had, built, n);
            var k := NpcKey(channel, week, j);
            && k in r
            && r[k] == built[j].row.(score := 6 + 3 * j, npc := if k in t then t[k].npc else true)
  {
    hide NpcKey;
    var k := NpcKey(channel, week, j);
    if j == n - 1 {
      forall i | 0 <= i < j ensures k != NpcKey(channel, week, i) {
        if k == NpcKey(channel, week, i) {
          NpcKeyInjective(channel, week, i, j);
        }
      }
      AddedElsewhere(t, channel, week, had, built, n - 1, k);
    } else {
      AddedAt(t, channel, week, had, built, n - 1, j);
      if k == NpcKey(channel, week, n - 1) {
        NpcKeyInjective(channel, week, n - 1, j);
      }
    }
  }

  /** A slot is had exactly when the slot's own key holds a computer-run fighter. */
  lemma SlotHad(t: Table, channel: string, week: int, i: int)
    requires NpcNamed(t, channel, week) && 0 <= i < NPC_COUNT
    ensures i in SlotsHad(t, channel, week) <==> NpcKey(channel, week, i) in NpcKeys(t, channel, week)
  {
    NpcSlotOfAccount(week, i);
    var key := NpcKey(channel, week, i);
    if key in NpcKeys(t, channel, week) {
      assert NpcSlotOf(key.account) == i;
    }
    if i in SlotsHad(t, channel, week) {
      var k :| k in NpcKeys(t, channel, week) && NpcSlotOf(k.account) == i;
    }
  }

  // ---- a run of the completion

  predicate IsNpcKey(channel: string, week: int, k: Key) {
    exists i :: 0 <= i < NPC_COUNT && k == NpcKey(channel, week, i)
  }

  /** What the completion does with a row that is not one of the 21: nothing. In particular no
      player's row is ever touched unless it carries such a name. */
  lemma NpcsElsewhere(pool: Pool, t: Table, channel: string, built: seq<Built>, sorted: seq<Built>, k: Key)
    requires SlotsInOrder(built) && SortOf(built, sorted) && NpcNamed(t, channel, pool.weekId)
    requires !IsNpcKey(channel, pool.weekId, k)
    ensures var r := AfterNpcs(pool, t, channel, built, sorted);
            (k in r <==> k in t) && (k in t ==> r[k] == t[k])
  {
    hide NpcKey, NpcAccount, NpcSlotOf, AllUsePool;
    SortKeepsSlots(built, sorted);
    var w := pool.weekId;
    RankedElsewhere(WithoutNpcs(t, channel, w), channel, w, sorted, |sorted|, k);
    AddedElsewhere(t, channel, w, SlotsHad(t, channel, w), built, |built|, k);
    assert k !in NpcKeys(t, channel, w);
  }

  lemma NoStrangers(pool: Pool, t: Table, channel: string, built: seq<Built>, sorted: seq<Built>, k: Key)
    requires SlotsInOrder(built) && SortOf(built, sorted) && NpcNamed(t, channel, pool.weekId)
    requires !IsNpcKey(channel, pool.weekId, k)
    ensures k !in NpcKeys(AfterNpcs(pool, t, channel, built, sorted), channel, pool.weekId)
  {
    hide AfterNpcs, SortOf, SlotsInOrder, NpcAccount, NpcSlotOf;
    NpcsElsewhere(pool, t, channel, built, sorted, k);
    assert k !in NpcKeys(t, channel, pool.weekId);
  }

  /** A computer-run fighter's row after a rebuild, by place in the order. */
  lemma RebuiltAt(pool: Pool, t: Table, channel: string, built: seq<Built>, sorted: seq<Built>, j: nat)
    requires SlotsInOrder(built) && SortOf(built, sorted) && j < NPC_COUNT
    requires NoHumanNamed(t, channel, pool.weekId) && NpcPlan(pool, t, channel) == Rebuild
    ensures EverySlot(sorted)
    ensures var k := NpcKey(channel, pool.weekId, sorted[j].slot);
            var r := AfterNpcs(pool, t, channel, built, sorted);
            k in r && r[k] == sorted[j].row.(score := 6 + 3 * j)
  {
    hide NpcPlan, NpcAccount;
    SortKeepsSlots(built, sorted);
    RankedAt(WithoutNpcs(t, channel, pool.weekId), channel, pool.weekId, sorted, |sorted|, j);
  }

  /** After the completion each of the 21 keys holds a computer-run fighter, who was either there and
      left alone, or is a new one. */
  lemma NpcAt(pool: Pool, t: Table, channel: string, built: seq<Built>, sorted: seq<Built>, i: int)
    requires SlotsInOrder(built) && SortOf(built, sorted)
    requires NpcNamed(t, channel, pool.weekId) && NoHumanNamed(t, channel, pool.weekId) && 0 <= i < NPC_COUNT
    ensures var k := NpcKey(channel, pool.weekId, i);
            var r := AfterNpcs(pool, t, channel, built, sorted);
            && k in r && r[k].npc
            && (r[k].fight == built[i].row.fight || (AllUsePool(pool, t, channel) && k in t && t[k].npc
              && r[k] == t[k]))
  {
    hide AllUsePool, NpcAccount, NpcSlotOf, SortOf, NpcNamed;
    var w := pool.weekId;
    var k := NpcKey(channel, w, i);
    SlotHad(t, channel, w, i);
    match NpcPlan(pool, t, channel)
    case Nothing =>
    case AddMissing =>
      var had := SlotsHad(t, channel, w);
      if i in had {
        forall j | 0 <= j < NPC_COUNT && built[j].slot !in had ensures k != NpcKey(channel, w, built[j].slot) {
          if k == NpcKey(channel, w, j) {
            NpcKeyInjective(channel, w, i, j);
          }
        }
        AddedElsewhere(t, channel, w, had, built, |built|, k);
      } else {
        AddedAt(t, channel, w, had, built, |built|, i);
      }
    case Rebuild =>
      SortKeepsSlots(built, sorted);
      assert HasSlot(sorted, i);
      var j :| 0 <= j < NPC_COUNT && sorted[j].slot == i;
      RebuiltAt(pool, t, channel, built, sorted, j);
  }

  /** After the completion each of the 21 keys holds a computer-run fighter who was there before, or
      what was dealt for the slot, whoever holds the name. */
  lemma SlotAfter(pool: Pool, t: Table, channel: string, built: seq<Built>, sorted: seq<Built>, i: int)
    requires SlotsInOrder(built) && SortOf(built, sorted)
    requires NpcNamed(t, channel, pool.weekId) && 0 <= i < NPC_COUNT
    ensures var k := NpcKey(channel, pool.weekId, i);
            var r := AfterNpcs(pool, t, channel, built, sorted);
            && k in r
            && ((k in t && t[k].npc && r[k] == t[k])
                || (r[k].timesLeft == built[i].row.timesLeft && r[k].timesDay == built[i].row.timesDay))
  {
    hide AllUsePool, NpcAccount, NpcSlotOf, SortOf, NpcNamed;
    var w := pool.weekId;
    var k := NpcKey(channel, w, i);
    SlotHad(t, channel, w, i);
    match NpcPlan(pool, t, channel)
    case Nothing =>
    case AddMissing =>
      var had := SlotsHad(t, channel, w);
      if i in had {
        forall j | 0 <= j < NPC_COUNT && built[j].slot !in had ensures k != NpcKey(channel, w, built[j].slot) {
          if k == NpcKey(channel, w, j) {
            NpcKeyInjective(channel, w, i, j);
          }
        }
        AddedElsewhere(t, channel, w, had, built, |built|, k);
      } else {
        AddedAt(t, channel, w, had, built, |built|, i);
      }
    case Rebuild =>
      SortKeepsSlots(built, sorted);
      assert HasSlot(sorted, i);
      var j :| 0 <= j < NPC_COUNT && sorted[j].slot == i;
      RankedAt(WithoutNpcs(t, channel, w), channel, w, sorted, |sorted|, j);
  }

  /** After the completion a channel's computer-run fighters of the week are exactly slots 0 to 20. */
  lemma NpcsAreTheSlots(pool: Pool, t: Table, channel: string, built: seq<Built>, sorted: seq<Built>)
    requires SlotsInOrder(built) && SortOf(built, sorted)
    requires NpcNamed(t, channel, pool.weekId) && NoHumanNamed(t, channel, pool.weekId)
    ensures var r := AfterNpcs(pool, t, channel, built, sorted);
            && (forall k :: k in NpcKeys(r, channel, pool.weekId) <==> IsNpcKey(channel, pool.weekId, k))
            && NpcNamed(r, channel, pool.weekId) && NoHumanNamed(r, channel, pool.weekId)
  {
    hide AfterNpcs, SortOf, SlotsInOrder, NpcAccount, NpcSlotOf;
    var w := pool.weekId;
    var r := AfterNpcs(pool, t, channel, built, sorted);
    forall k ensures k in NpcKeys(r, channel, w) <==> IsNpcKey(channel, w, k) {
      if IsNpcKey(channel, w, k) {
        var i :| 0 <= i < NPC_COUNT && k == NpcKey(channel, w, i);
        NpcAt(pool, t, channel, built, sorted, i);
      } else {
        NoStrangers(pool, t, channel, built, sorted, k);
      }
    }
    forall k | k in NpcKeys(r, channel, w)
      ensures 0 <= NpcSlotOf(k.account) < NPC_COUNT && k == NpcKey(channel, w, NpcSlotOf(k.account))
    {
      assert IsNpcKey(channel, w, k);
      var i :| 0 <= i < NPC_COUNT && k == NpcKey(channel, w, i);
      NpcSlotOfAccount(w, i);
    }
    forall i | 0 <= i < NPC_COUNT ensures NpcKey(channel, w, i) in NpcKeys(r, channel, w) {
      assert IsNpcKey(channel, w, NpcKey(channel, w, i));
    }
  }

  // ---- a second run

  predicate BuiltFromRolls(pool: Pool, rolls: seq<Roll>, built: seq<Built>, day: int) {
    RollsOk(pool, rolls) && built == AllBuilt(pool, rolls, day)
  }

  /** In a rich week the second run writes nothing, whatever was there before the first. */
  lemma SecondRunWritesNothing(pool: Pool, t: Table, channel: string, rolls: seq<Roll>, built: seq<Built>,
      sorted: seq<Built>, day: int)
    requires PoolSound(pool) && Rich(pool) && BuiltFromRolls(pool, rolls, built, day) && SortOf(built, sorted)
    requires NpcNamed(t, channel, pool.weekId) && NoHumanNamed(t, channel, pool.weekId)
    ensures NpcPlan(pool, AfterNpcs(pool, t, channel, built, sorted), channel) == Nothing
  {
    hide AfterNpcs, SortOf, UsesPool, Rich, PoolSound, RollOk, NpcLoadout, FightPower, FightDataOf, NpcAccount,
          NpcSlotOf, NpcNamed, NoHumanNamed;
    var w := pool.weekId;
    var r := AfterNpcs(pool, t, channel, built, sorted);
    NpcsAreTheSlots(pool, t, channel, built, sorted);
    forall i | 0 <= i < NPC_COUNT
      ensures NpcKey(channel, w, i) in NpcKeys(r, channel, w) && UsesPool(pool, r[NpcKey(channel, w, i)].fight)
    {
      assert IsNpcKey(channel, w, NpcKey(channel, w, i));
      NpcAt(pool, t, channel, built, sorted, i);
      NpcGood(pool, t, channel, rolls[i], i, day);
    }
    forall k | k in NpcKeys(r, channel, w) ensures UsesPool(pool, r[k].fight) {
      assert IsNpcKey(channel, w, k);
    }
    assert NpcKey(channel, w, 0) in NpcKeys(r, channel, w);
    forall i | 0 <= i < NPC_COUNT ensures i in SlotsHad(r, channel, w) {
      SlotHad(r, channel, w, i);
    }
  }

  lemma NpcGood(pool: Pool, t: Table, channel: string, roll: Roll, i: int, day: int)
    requires PoolSound(pool) && RollOk(pool, roll)
    ensures UsesPool(pool, BuiltFor(pool, roll, i, day).row.fight) <==> Rich(pool)
    ensures AllUsePool(pool, t, channel) && NpcKey(channel, pool.weekId, i) in NpcKeys(t, channel, pool.weekId) ==>
              UsesPool(pool, t[NpcKey(channel, pool.weekId, i)].fight)
  {
    hide UsesPool, Rich;
    DealtUsesPoolIffRich(pool, roll);
  }

  /** Starting from a week without computer-run fighters, the second run writes nothing exactly when
      the week is rich and no human holds one of the 21 names. */
  lemma SecondRunQuietIff(pool: Pool, t: Table, channel: string, rolls: seq<Roll>, built: seq<Built>,
      sorted: seq<Built>, day: int)
    requires PoolSound(pool) && BuiltFromRolls(pool, rolls, built, day) && SortOf(built, sorted)
    requires NpcKeys(t, channel, pool.weekId) == {}
    ensures (NpcPlan(pool, AfterNpcs(pool, t, channel, built, sorted), channel) == Nothing)
              <==> (Rich(pool) && NoHumanNamed(t, channel, pool.weekId))
  {
    hide Rich, PoolSound, UsesPool, SortOf, NpcAccount, NpcSlotOf, AfterNpcs, NpcPlan, RollOk, NpcLoadout,
          FightPower, FightDataOf;
    if NoHumanNamed(t, channel, pool.weekId) {
      if Rich(pool) {
        SecondRunWritesNothing(pool, t, channel, rolls, built, sorted, day);
      } else {
        PoorWeekNeverQuiet(pool, t, channel, rolls, built, sorted, day);
      }
    } else {
      var i :| 0 <= i < NPC_COUNT && NpcKey(channel, pool.weekId, i) in t && !t[NpcKey(channel, pool.weekId, i)].npc;
      HumanNameOverwritten(pool, t, channel, built, sorted, i);
      HumanNameNeverQuiet(pool, AfterNpcs(pool, t, channel, built, sorted), channel, i);
    }
  }

  lemma PoorWeekNeverQuiet(pool: Pool, t: Table, channel: string, rolls: seq<Roll>, built: seq<Built>,
      sorted: seq<Built>, day: int)
    requires PoolSound(pool) && !Rich(pool) && BuiltFromRolls(pool, rolls, built, day) && SortOf(built, sorted)
    requires NpcKeys(t, channel, pool.weekId) == {} && NoHumanNamed(t, channel, pool.weekId)
    ensures NpcPlan(pool, AfterNpcs(pool, t, channel, built, sorted), channel) == Rebuild
  {
    hide Rich, PoolSound, UsesPool, SortOf, NpcAccount, NpcSlotOf, Ranked, NpcLoadout, RollOk, FightPower,
          FightDataOf, AfterNpcs;
    var w := pool.weekId;
    var r := AfterNpcs(pool, t, channel, built, sorted);
    NpcAt(pool, t, channel, built, sorted, 0);
    NpcGood(pool, t, channel, rolls[0], 0, day);
    var k := NpcKey(channel, w, 0);
    assert r[k].fight == built[0].row.fight;
    assert k in NpcKeys(r, channel, w) && !UsesPool(pool, r[k].fight);
  }

  /** While a human holds the name of a slot, the completion never finds its work done. */
  lemma HumanNameNeverQuiet(pool: Pool, t: Table, channel: string, i: int)
    requires NpcNamed(t, channel, pool.weekId)
    requires 0 <= i < NPC_COUNT && NpcKey(channel, pool.weekId, i) in t && !t[NpcKey(channel, pool.weekId, i)].npc
    ensures NpcPlan(pool, t, channel) != Nothing
  {
    hide NpcAccount, NpcSlotOf, UsesPool, NpcNamed;
    SlotHad(t, channel, pool.weekId, i);
    assert i !in SlotsHad(t, channel, pool.weekId);
  }

  /** And every run overwrites that human: the quota becomes a computer's 0 and the fight data a
      computer's, yet the row stays a human's, so that the next run finds the slot missing again. */
  lemma HumanNameOverwritten(pool: Pool, t: Table, channel: string, built: seq<Built>, sorted: seq<Built>, i: int)
    requires SlotsInOrder(built) && SortOf(built, sorted) && NpcNamed(t, channel, pool.weekId)
    requires 0 <= i < NPC_COUNT && NpcKey(channel, pool.weekId, i) in t && !t[NpcKey(channel, pool.weekId, i)].npc
    ensures var k := NpcKey(channel, pool.weekId, i);
            var r := AfterNpcs(pool, t, channel, built, sorted);
            && k in r && !r[k].npc && r[k].timesLeft == built[i].row.timesLeft && r[k].fight == built[i].row.fight
            && NpcNamed(r, channel, pool.weekId)
  {
    hide SortOf, NpcAccount, NpcSlotOf, UsesPool, NpcNamed, AllUsePool;
    var w := pool.weekId;
    HumanNameNeverQuiet(pool, t, channel, i);
    SlotHad(t, channel, w, i);
    SortKeepsSlots(built, sorted);
    if NpcPlan(pool, t, channel) == AddMissing {
      AddedAt(t, channel, w, SlotsHad(t, channel, w), built, |built|, i);
    } else {
      assert HasSlot(sorted, i);
      var j :| 0 <= j < NPC_COUNT && sorted[j].slot == i;
      RankedAt(WithoutNpcs(t, channel, w), channel, w, sorted, |sorted|, j);
    }
    NamesStay(pool, t, channel, built, sorted);
  }

  lemma NamesStay(pool: Pool, t: Table, channel: string, built: seq<Built>, sorted: seq<Built>)
    requires SlotsInOrder(built) && SortOf(built, sorted) && NpcNamed(t, channel, pool.weekId)
    ensures NpcNamed(AfterNpcs(pool, t, channel, built, sorted), channel, pool.weekId)
  {
    hide AfterNpcs, SortOf, SlotsInOrder, NpcAccount, NpcSlotOf;
    var w := pool.weekId;
    var r := AfterNpcs(pool, t, channel, built, sorted);
    forall k | k in NpcKeys(r, channel, w)
      ensures 0 <= NpcSlotOf(k.account) < NPC_COUNT && k == NpcKey(channel, w, NpcSlotOf(k.account))
    {
      if !IsNpcKey(channel, w, k) {
        NoStrangers(pool, t, channel, built, sorted, k);
      }
      var n :| 0 <= n < NPC_COUNT && k == NpcKey(channel, w, n);
      NpcSlotOfAccount(w, n);
    }
  }

  // ---- ranks of a rebuilt board

  predicate PlaceIsTaken(t: Table, channel: string, week: int, n: int) {
    exists k :: k in NpcKeys(t, channel, week) && t[k].score == 6 + 3 * n
  }

  /** Every computer-run fighter of a rebuilt board has a place in the order. */
  lemma PlaceOf(pool: Pool, t: Table, channel: string, built: seq<Built>, sorted: seq<Built>, k: Key) returns (j: nat)
    requires SlotsInOrder(built) && SortOf(built, sorted)
    requires NoHumanNamed(t, channel, pool.weekId) && NpcNamed(t, channel, pool.weekId)
          && NpcPlan(pool, t, channel) == Rebuild
    requires k in NpcKeys(AfterNpcs(pool, t, channel, built, sorted), channel, pool.weekId)
    ensures j < |sorted| == NPC_COUNT && k == NpcKey(channel, pool.weekId, sorted[j].slot)
    ensures AfterNpcs(pool, t, channel, built, sorted)[k] == sorted[j].row.(score := 6 + 3 * j)
  {
    hide AfterNpcs, NpcAccount, NpcSlotOf, NpcPlan, NpcNamed, NoHumanNamed, SortOf;
    SortKeepsSlots(built, sorted);
    NpcsAreTheSlots(pool, t, channel, built, sorted);
    assert IsNpcKey(channel, pool.weekId, k);
    var i :| 0 <= i < NPC_COUNT && k == NpcKey(channel, pool.weekId, i);
    assert HasSlot(sorted, i);
    j :| 0 <= j < NPC_COUNT && sorted[j].slot == i;
    RebuiltAt(pool, t, channel, built, sorted, j);
  }

  /** A full rebuild gives the scores 6, 9, ..., 66, each to one fighter, and a fighter with a lower
      score never has more power. */
  lemma RebuildRanks(pool: Pool, t: Table, channel: string, built: seq<Built>, sorted: seq<Built>)
    requires SlotsInOrder(built) && SortOf(built, sorted)
    requires NoHumanNamed(t, channel, pool.weekId) && NpcNamed(t, channel, pool.weekId)
          && NpcPlan(pool, t, channel) == Rebuild
    ensures var r := AfterNpcs(pool, t, channel, built, sorted);
            var npcs := NpcKeys(r, channel, pool.weekId);
            && (forall k :: k in npcs ==> 6 <= r[k].score <= 66 && r[k].score % 3 == 0)
            && (forall n :: 0 <= n < NPC_COUNT ==> PlaceIsTaken(r, channel, pool.weekId, n))
            && (forall a, b :: a in npcs && b in npcs && a != b ==> r[a].score != r[b].score)
            && (forall a, b :: a in npcs && b in npcs && r[a].score < r[b].score ==> r[a].power <= r[b].power)
  {
    hide AfterNpcs, NpcKey, NpcPlan, NpcNamed, NoHumanNamed, SlotsInOrder, SortOf, EverySlot;
    var w := pool.weekId;
    var r := AfterNpcs(pool, t, channel, built, sorted);
    var npcs := NpcKeys(r, channel, w);
    forall k | k in npcs ensures 6 <= r[k].score <= 66 && r[k].score % 3 == 0 {
      var j := PlaceOf(pool, t, channel, built, sorted, k);
    }
    forall a, b | a in npcs && b in npcs && a != b
      ensures r[a].score != r[b].score && (r[a].score < r[b].score ==> r[a].power <= r[b].power)
    {
      var i := PlaceOf(pool, t, channel, built, sorted, a);
      var j := PlaceOf(pool, t, channel, built, sorted, b);
      PowersSorted(built, sorted, i, j);
    }
    forall n | 0 <= n < NPC_COUNT ensures PlaceIsTaken(r, channel, w, n) {
      PlaceTaken(pool, t, channel, built, sorted, n);
    }
  }

  lemma PowersSorted(built: seq<Built>, sorted: seq<Built>, i: nat, j: nat)
    requires SortOf(built, sorted) && i < |sorted| && j < |sorted|
    ensures i < j ==> sorted[i].row.power <= sorted[j].row.power
  {}

  lemma PlaceTaken(pool: Pool, t: Table, channel: string, built: seq<Built>, sorted: seq<Built>, n: nat)
    requires SlotsInOrder(built) && SortOf(built, sorted) && n < NPC_COUNT
    requires NoHumanNamed(t, channel, pool.weekId) && NpcNamed(t, channel, pool.weekId)
          && NpcPlan(pool, t, channel) == Rebuild
    ensures PlaceIsTaken(AfterNpcs(pool, t, channel, built, sorted), channel, pool.weekId, n)
  {
    hide AfterNpcs, NpcAccount, NpcPlan, NpcNamed, NoHumanNamed, SlotsInOrder, SortOf;
    var r := AfterNpcs(pool, t, channel, built, sorted);
    SortKeepsSlots(built, sorted);
    NpcsAreTheSlots(pool, t, channel, built, sorted);
    RebuiltAt(pool, t, channel, built, sorted, n);
    var k := NpcKey(channel, pool.weekId, sorted[n].slot);
    assert IsNpcKey(channel, pool.weekId, k);
    assert k in NpcKeys(r, channel, pool.weekId);
  }
}
