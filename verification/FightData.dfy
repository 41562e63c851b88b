/** Fight data: the document a fight is played from. It is made from a loadout, and documents made
    by older rules are rebuilt before they are handed out. */
module FightData {
  import opened Results
  import opened Collections
  import opened WeekPool
  import opened Loadouts
  import opened LoadoutSets

  const FIGHT_DATA_VER := 4
  const FIGHT_LEVEL := 90
  const KUNGFU_LEVEL := 9
  const EQUIP_SLOTS := 4

  /** A member of an equipment list. */
  datatype Piece = Piece(eid: int, lev: int) | NoPiece

  /** A member of a list of players; absent numbers are 0, a list that is no array is None. */
  datatype Entry =
    | Player(head: int, sex: int, lev: int, skill: int, skillLevel: int, nei: int, neiLevel: int,
      equip: Option<seq<Piece>>)
    | NoPlayer

  datatype Fight = Fight(ver: int, players: Option<seq<Entry>>, tibus: Option<seq<Entry>>)

  /** The stored column: nothing, something that is not an object, or a document. */
  datatype Blob = Empty | Garbage(text: string) | Document(fight: Fight)

  // ---- equipment slots

  function EquipSlot(pool: Pool, eid: int): (slot: int)
    ensures -1 <= slot < EQUIP_SLOTS
  {
    var item := FindItem(pool.equips, eid);
    if item == None then -1
    else if 1 <= item.value.kind <= 4 then 0
    else if 5 <= item.value.kind <= 7 then item.value.kind - 4
    else -1
  }

  /** Each piece goes to its slot; a slot that is taken keeps its first piece. */
  function Slotted(pool: Pool, ids: seq<int>): (slots: seq<int>)
    ensures |slots| == EQUIP_SLOTS
  {
    if ids == [] then [0, 0, 0, 0]
    else
      var before := Slotted(pool, ids[..|ids| - 1]);
      var eid := ids[|ids| - 1];
      var slot := EquipSlot(pool, eid);
      if slot >= 0 && before[slot] == 0 then before[slot := eid] else before
  }

  /** Every slot holds the first (nonzero) piece of its kind, or 0 when there is none. */
  lemma {:induction false} SlottedMeaning(pool: Pool, ids: seq<int>, s: int)
    requires 0 <= s < EQUIP_SLOTS
    ensures var slots := Slotted(pool, ids);
            || (slots[s] == 0 && forall i :: 0 <= i < |ids| && EquipSlot(pool, ids[i]) == s ==> ids[i] == 0)
            || (slots[s] != 0 && EquipSlot(pool, slots[s]) == s
                && exists i :: 0 <= i < |ids| && ids[i] == slots[s]
                               && forall j :: 0 <= j < i && EquipSlot(pool, ids[j]) == s ==> ids[j] == 0)
  {
    if ids != [] {
      hide EquipSlot;
      var front, eid := ids[..|ids| - 1], ids[|ids| - 1];
      SlottedMeaning(pool, front, s);
      assert ids == front + [eid];
      var before := Slotted(pool, front);
      if before[s] != 0 {
        var i :| 0 <= i < |front| && front[i] == before[s]
                 && forall j :: 0 <= j < i && EquipSlot(pool, front[j]) == s ==> front[j] == 0;
        assert ids[i] == before[s];
        assert Slotted(pool, ids)[s] == before[s];
      } else if EquipSlot(pool, eid) == s && eid != 0 {
        assert ids[|front|] == eid;
        assert Slotted(pool, ids)[s] == eid;
      } else {
        assert Slotted(pool, ids)[s] == 0;
      }
    }
  }

  /** The pieces a rebuild reads off a list of ids. */
  function Picked(pool: Pool, eids: seq<int>): seq<int> {
    if eids == [] then []
    else
      var before := Picked(pool, eids[..|eids| - 1]);
      if InPool(pool.equips, eids[|eids| - 1]) then before + [eids[|eids| - 1]] else before
  }

  function Zeros(k: nat): (r: seq<int>)
    ensures |r| == k
  {
    seq(k, i => 0)
  }

  /** Placing what was read off the slots puts everything back where it was. */
  lemma {:induction false} SlotsStable(pool: Pool, slots: seq<int>, k: nat)
    requires k <= |slots| == EQUIP_SLOTS
    requires forall s :: 0 <= s < EQUIP_SLOTS && slots[s] != 0 ==>
          InPool(pool.equips, slots[s]) && EquipSlot(pool, slots[s]) == s
    ensures Slotted(pool, Picked(pool, slots[..k])) == slots[..k] + Zeros(EQUIP_SLOTS - k)
  {
    if k > 0 {
      hide InPool, EquipSlot, Slotted, Picked, Zeros;
      SlotsStable(pool, slots, k - 1);
      var front, eid := slots[..k - 1], slots[k - 1];
      assert slots[..k] == front + [eid];
      PickedStep(pool, front, eid);
      FillZero(front, eid, EQUIP_SLOTS - k);
      if eid != 0 {
        SlottedStep(pool, Picked(pool, front), eid);
      } else {
        ZeroNotInPool(pool.equips);
      }
    } else {
      assert slots[..0] == [];
      assert Zeros(EQUIP_SLOTS) == [0, 0, 0, 0];
    }
  }

  lemma FillZero(front: seq<int>, eid: int, n: nat)
    ensures var before := front + Zeros(n + 1);
            && before[|front|] == 0
            && before[|front| := eid] == front + [eid] + Zeros(n)
  {}

  lemma SlottedStep(pool: Pool, ids: seq<int>, eid: int)
    ensures var before, slot := Slotted(pool, ids), EquipSlot(pool, eid);
            Slotted(pool, ids + [eid]) == if slot >= 0 && before[slot] == 0 then before[slot := eid] else before
  {
    assert (ids + [eid])[..|ids|] == ids;
  }

  lemma PickedStep(pool: Pool, eids: seq<int>, eid: int)
    ensures Picked(pool, eids + [eid]) == if InPool(pool.equips, eid) then Picked(pool, eids) + [eid]
          else Picked(pool, eids)
  {
    assert (eids + [eid])[..|eids|] == eids;
  }

  lemma ZeroNotInPool(items: seq<PoolItem>)
    ensures !InPool(items, 0)
  {}

  predicate AllInPool(pool: Pool, eids: seq<int>) {
    forall i :: 0 <= i < |eids| ==> InPool(pool.equips, eids[i])
  }

  /** The extra pass changes no slot, for any list of pool pieces. */
  lemma SlottedStable(pool: Pool, ids: seq<int>)
    requires AllInPool(pool, ids)
    ensures Slotted(pool, Picked(pool, Slotted(pool, ids))) == Slotted(pool, ids)
  {
    var slots := Slotted(pool, ids);
    forall s | 0 <= s < EQUIP_SLOTS && slots[s] != 0
      ensures InPool(pool.equips, slots[s]) && EquipSlot(pool, slots[s]) == s
    {
      SlottedMeaning(pool, ids, s);
    }
    SlotsStable(pool, slots, EQUIP_SLOTS);
    assert slots[..EQUIP_SLOTS] == slots;
  }

  // ---- making fight data from a loadout

  /** The item a person fights with: an own one of the pool, or the first nobody has. */
  function Resolved(items: seq<PoolItem>, owned: map<int, int>, c: int): int {
    if c in owned && FindItem(items, owned[c]).Some? then owned[c] else TakeUnused(items, owned)
  }

  function WornBy(l: Loadout, c: int): seq<int> {
    if c in l.equip then l.equip[c] else []
  }

  function PieceOf(eid: int): Piece {
    Piece(eid, if eid > 0 then 1 else 0)
  }

  function PiecesOf(eids: seq<int>): (r: seq<Piece>)
    ensures |r| == |eids| && forall i :: 0 <= i < |r| ==> r[i] == PieceOf(eids[i])
  {
    seq(|eids|, i requires 0 <= i < |eids| => PieceOf(eids[i]))
  }

  function PlayerOf(pool: Pool, l: Loadout, c: int): Entry {
    var person := FindItem(pool.chars, c);
    var skill, nei := Resolved(pool.skills, l.skill, c), Resolved(pool.neis, l.nei, c);
    Player(c, if person.Some? then person.value.sex else 1, FIGHT_LEVEL,
           skill, if skill > 0 then KUNGFU_LEVEL else 1,
           nei, if nei > 0 then KUNGFU_LEVEL else 1,
           Some(PiecesOf(Slotted(pool, WornBy(l, c)))))
  }

  function PlayersOf(pool: Pool, l: Loadout, chars: seq<int>): (r: seq<Entry>)
    ensures |r| == |chars| && forall i :: 0 <= i < |r| ==> r[i] == PlayerOf(pool, l, chars[i])
  {
    seq(|chars|, i requires 0 <= i < |chars| => PlayerOf(pool, l, chars[i]))
  }

  function FightDataOf(pool: Pool, l: Loadout): Fight {
    var k := if |l.chars| < MAX_TEAM then |l.chars| else MAX_TEAM;
    Fight(FIGHT_DATA_VER, Some(PlayersOf(pool, l, l.chars[..k])), Some(PlayersOf(pool, l, l.chars[k..])))
  }

  // ---- deciding on a rebuild

  function Listed<T>(list: Option<seq<T>>): seq<T> {
    if list.Some? then list.value else []
  }

  predicate BadPlayer(pool: Pool, p: Entry) {
    || p.NoPlayer?
    || p.skill <= 0 || FindItem(pool.skills, p.skill) == None
    || (p.nei > 0 && FindItem(pool.neis, p.nei) == None)
  }

  predicate NeedsRebuild(pool: Pool, fight: Fight) {
    || fight.ver != FIGHT_DATA_VER
    || (exists p :: p in Listed(fight.players) && BadPlayer(pool, p))
    || (exists p :: p in Listed(fight.tibus) && BadPlayer(pool, p))
  }

  // ---- reading a loadout off fight data

  function EidOf(piece: Piece): int {
    if piece.Piece? then piece.eid else 0
  }

  function EidsOf(p: Entry): seq<int>
    requires p.Player?
  {
    var pieces := Listed(p.equip);
    seq(|pieces|, i requires 0 <= i < |pieces| => EidOf(pieces[i]))
  }

  /** One player read: a person of the pool seen for the first time, with what of theirs is still in
      the pool. */
  function Taken1(pool: Pool, l: Loadout, p: Entry): Loadout {
    if p.NoPlayer? || !InPool(pool.chars, p.head) || p.head in l.chars then l
    else
      var worn := Picked(pool, EidsOf(p));
      Loadout(l.chars + [p.head],
              if InPool(pool.skills, p.skill) then l.skill[p.head := p.skill] else l.skill,
              if InPool(pool.neis, p.nei) then l.nei[p.head := p.nei] else l.nei,
              if worn != [] then l.equip[p.head := worn] else l.equip)
  }

  function Taken(pool: Pool, l: Loadout, players: seq<Entry>): Loadout {
    if players == [] then l
    else Taken1(pool, Taken(pool, l, players[..|players| - 1]), players[|players| - 1])
  }

  function ReadLoadout(pool: Pool, fight: Fight): Loadout {
    Taken(pool, Taken(pool, EMPTY, Listed(fight.players)), Listed(fight.tibus))
  }

  lemma {:induction false} TakenTwice(pool: Pool, l: Loadout, a: seq<Entry>, b: seq<Entry>)
    ensures Taken(pool, Taken(pool, l, a), b) == Taken(pool, l, a + b)
  {
    hide Taken1;
    if b == [] {
      assert a + b == a;
    } else {
      TakenTwice(pool, l, a, b[..|b| - 1]);
      assert (a + b)[..|a + b| - 1] == a + b[..|b| - 1];
    }
  }

  /** The strict reading used as a second chance: any stranger makes it fail. */
  function StrictTaken(pool: Pool, l: Loadout, players: seq<Entry>): Option<Loadout> {
    if players == [] then Some(l)
    else
      var before := StrictTaken(pool, l, players[..|players| - 1]);
      var p := players[|players| - 1];
      if before == None || p.NoPlayer? || !InPool(pool.chars, p.head) then None
      else if p.skill != 0 && !InPool(pool.skills, p.skill) then None
      else if p.nei != 0 && !InPool(pool.neis, p.nei) then None
      else if exists eid :: eid in EidsOf(p) && eid != 0 && !InPool(pool.equips, eid) then None
      else
        var worn := Picked(pool, EidsOf(p));
        var b := before.value;
        Some(Loadout(b.chars + [p.head],
                     if p.skill != 0 then b.skill[p.head := p.skill] else b.skill,
                     if p.nei != 0 then b.nei[p.head := p.nei] else b.nei,
                     if worn != [] then b.equip[p.head := worn] else b.equip))
  }

  /** The strict reading of a whole document; it fails too when it finds nobody. */
  function StrictLoadout(pool: Pool, fight: Fight): Option<Loadout> {
    var first := StrictTaken(pool, EMPTY, Listed(fight.players));
    var both := if first.Some? then StrictTaken(pool, first.value, Listed(fight.tibus)) else None;
    if both.Some? && both.value.chars != [] then Some(both.value.(chars := FirstOnes(both.value.chars))) else None
  }

  function FirstOnes(ids: seq<int>): seq<int> {
    if ids == [] then []
    else
      var before := FirstOnes(ids[..|ids| - 1]);
      if ids[|ids| - 1] in before then before else before + [ids[|ids| - 1]]
  }

  function CurrentFightData(pool: Pool, blob: Blob): Blob {
    if !blob.Document? || !NeedsRebuild(pool, blob.fight) then blob
    else
      var l := ReadLoadout(pool, blob.fight);
      if l.chars != [] then Document(FightDataOf(pool, l))
      else
        var strict := StrictLoadout(pool, blob.fight);
        if strict.Some? then Document(FightDataOf(pool, strict.value)) else blob
  }

  lemma {:induction false} StrictFindsNobodyNew(pool: Pool, l: Loadout, k: Loadout, players: seq<Entry>)
    requires l.chars != [] ==> k.chars != []
    ensures StrictTaken(pool, l, players).Some? && StrictTaken(pool, l, players).value.chars != [] ==>
          Taken(pool, k, players).chars != []
  {
    hide InPool, Picked, EidsOf;
    if players != [] {
      StrictFindsNobodyNew(pool, l, k, players[..|players| - 1]);
    }
  }

  /** The second chance never helps: whoever the strict reading finds, the first reading found. */
  lemma StrictIsNeverNeeded(pool: Pool, fight: Fight)
    requires ReadLoadout(pool, fight).chars == []
    ensures StrictLoadout(pool, fight) == None
  {
    hide StrictTaken, Taken;
    var first := StrictTaken(pool, EMPTY, Listed(fight.players));
    StrictFindsNobodyNew(pool, EMPTY, EMPTY, Listed(fight.players));
    if first.Some? {
      StrictFindsNobodyNew(pool, first.value, Taken(pool, EMPTY, Listed(fight.players)), Listed(fight.tibus));
    }
  }

  // ---- a loadout survives the trip through its fight data

  /** Loadouts that are read off fight data, and the ones requests make. */
  predicate Sound(pool: Pool, l: Loadout) {
    && Distinct(l.chars) && (forall i :: 0 <= i < |l.chars| ==> InPool(pool.chars, l.chars[i]))
    && (forall c :: c in l.skill ==> c in l.chars && InPool(pool.skills, l.skill[c]))
    && (forall c :: c in l.nei ==> c in l.chars && InPool(pool.neis, l.nei[c]))
    && (forall c :: c in l.equip ==> c in l.chars && AllInPool(pool, l.equip[c]))
  }

  lemma {:induction false} PickedInPool(pool: Pool, eids: seq<int>)
    ensures AllInPool(pool, Picked(pool, eids))
  {
    if eids != [] {
      PickedInPool(pool, eids[..|eids| - 1]);
    }
  }

  lemma {:induction false} TakenSound(pool: Pool, l: Loadout, players: seq<Entry>)
    requires Sound(pool, l)
    ensures Sound(pool, Taken(pool, l, players))
  {
    if players != [] {
      hide InPool, AllInPool, Picked;
      TakenSound(pool, l, players[..|players| - 1]);
      var p := players[|players| - 1];
      if p.Player? {
        PickedInPool(pool, EidsOf(p));
      }
    }
  }

  /** What the first `k` persons of `l` become. */
  ghost predicate ReadBack(pool: Pool, l: Loadout, k: nat, m: Loadout)
    requires k <= |l.chars|
  {
    && m.chars == l.chars[..k]
    && (forall c :: c in m.skill <==> c in l.chars[..k] && InPool(pool.skills, Resolved(pool.skills, l.skill, c)))
    && (forall c :: c in m.skill ==> m.skill[c] == Resolved(pool.skills, l.skill, c))
    && (forall c :: c in m.nei <==> c in l.chars[..k] && InPool(pool.neis, Resolved(pool.neis, l.nei, c)))
    && (forall c :: c in m.nei ==> m.nei[c] == Resolved(pool.neis, l.nei, c))
    && (forall c :: c in m.equip <==> c in l.chars[..k] && Picked(pool, Slotted(pool, WornBy(l, c))) != [])
    && (forall c :: c in m.equip ==> m.equip[c] == Picked(pool, Slotted(pool, WornBy(l, c))))
  }

  lemma EidsOfPlayer(pool: Pool, l: Loadout, c: int)
    ensures EidsOf(PlayerOf(pool, l, c)) == Slotted(pool, WornBy(l, c))
  {
    hide Slotted, Resolved;
    var slots := Slotted(pool, WornBy(l, c));
    var eids := EidsOf(PlayerOf(pool, l, c));
    assert |eids| == |slots|;
    forall i | 0 <= i < |slots| ensures eids[i] == slots[i] {
      assert PiecesOf(slots)[i] == PieceOf(slots[i]);
    }
  }

  lemma PlayerFields(pool: Pool, l: Loadout, c: int)
    ensures var p := PlayerOf(pool, l, c);
            && p.Player? && p.head == c
            && p.skill == Resolved(pool.skills, l.skill, c)
            && p.nei == Resolved(pool.neis, l.nei, c)
            && EidsOf(p) == Slotted(pool, WornBy(l, c))
  {
    EidsOfPlayer(pool, l, c);
  }

  lemma ReadsBackStep(pool: Pool, l: Loadout, k: nat, m: Loadout)
    requires k < |l.chars| && Sound(pool, l) && ReadBack(pool, l, k, m)
    ensures ReadBack(pool, l, k + 1, Taken1(pool, m, PlayerOf(pool, l, l.chars[k])))
  {
    hide InPool, AllInPool, Picked, Slotted, Resolved, WornBy, PlayerOf, EidsOf;
    var c := l.chars[k];
    assert l.chars[..k + 1] == l.chars[..k] + [c];
    PlayerFields(pool, l, c);
    assert c !in l.chars[..k];
  }

  lemma {:induction false} TakenReadsBack(pool: Pool, l: Loadout, k: nat)
    requires k <= |l.chars| && Sound(pool, l)
    ensures ReadBack(pool, l, k, Taken(pool, EMPTY, PlayersOf(pool, l, l.chars[..k])))
  {
    hide Sound, Taken1, PlayerOf;
    if k > 0 {
      hide ReadBack;
      TakenReadsBack(pool, l, k - 1);
      var players := PlayersOf(pool, l, l.chars[..k]);
      assert l.chars[..k][..k - 1] == l.chars[..k - 1];
      assert players[..k - 1] == PlayersOf(pool, l, l.chars[..k - 1]);
      ReadsBackStep(pool, l, k - 1, Taken(pool, EMPTY, players[..k - 1]));
    }
  }

  lemma TakeUnusedInPool(items: seq<PoolItem>, owned: map<int, int>)
    ensures TakeUnused(items, owned) != 0 ==> InPool(items, TakeUnused(items, owned))
  {
    if items != [] {
      TakeUnusedInPool(items[1..], owned);
    }
  }

  /** Reading back what everybody fights with, and resolving again, changes nothing. */
  lemma ResolvedStable(items: seq<PoolItem>, chars: seq<int>, owned: map<int, int>, again: map<int, int>, c: int)
    requires forall o :: o in owned ==> o in chars && InPool(items, owned[o])
    requires forall o :: o in again <==> o in chars && InPool(items, Resolved(items, owned, o))
    requires forall o :: o in again ==> again[o] == Resolved(items, owned, o)
    requires c in chars
    ensures Resolved(items, again, c) == Resolved(items, owned, c)
  {
    hide TakeUnused;
    TakeUnusedInPool(items, owned);
    if c !in again {
      assert TakeUnused(items, owned) == 0;
      forall o ensures o in again <==> o in owned {
        ZeroNotInPool(items);
      }
      forall o | o in again ensures again[o] == owned[o] {}
      SameMap(again, owned);
    }
  }

  lemma WornStable(pool: Pool, l: Loadout, m: Loadout, c: int)
    requires Sound(pool, l) && ReadBack(pool, l, |l.chars|, m) && c in l.chars
    ensures Slotted(pool, WornBy(m, c)) == Slotted(pool, WornBy(l, c))
  {
    hide InPool, Picked, Slotted, EquipSlot, Resolved;
    assert l.chars[..|l.chars|] == l.chars;
    SlottedStable(pool, WornBy(l, c));
    assert WornBy(m, c) == Picked(pool, Slotted(pool, WornBy(l, c)));
  }

  lemma PlayerStable(pool: Pool, l: Loadout, m: Loadout, c: int)
    requires Sound(pool, l) && ReadBack(pool, l, |l.chars|, m) && c in l.chars
    ensures PlayerOf(pool, m, c) == PlayerOf(pool, l, c)
  {
    hide InPool, Picked, Slotted, Resolved, AllInPool;
    assert l.chars[..|l.chars|] == l.chars;
    ResolvedStable(pool.skills, l.chars, l.skill, m.skill, c);
    ResolvedStable(pool.neis, l.chars, l.nei, m.nei, c);
    WornStable(pool, l, m, c);
  }

  lemma AllPlayers(pool: Pool, l: Loadout)
    ensures var fight := FightDataOf(pool, l);
            Listed(fight.players) + Listed(fight.tibus) == PlayersOf(pool, l, l.chars)
  {
    hide PlayerOf;
  }

  lemma SameFightData(pool: Pool, l: Loadout, m: Loadout)
    requires m.chars == l.chars && forall c :: c in l.chars ==> PlayerOf(pool, m, c) == PlayerOf(pool, l, c)
    ensures FightDataOf(pool, m) == FightDataOf(pool, l)
  {
    hide PlayerOf;
    var k := if |l.chars| < MAX_TEAM then |l.chars| else MAX_TEAM;
    var front, back := l.chars[..k], l.chars[k..];
    assert forall i :: 0 <= i < |front| ==> front[i] in l.chars;
    assert forall i :: 0 <= i < |back| ==> back[i] in l.chars;
    assert PlayersOf(pool, m, front) == PlayersOf(pool, l, front);
    assert PlayersOf(pool, m, back) == PlayersOf(pool, l, back);
  }

  /** Fight data made from a sound loadout, read and made again, is the same fight data. */
  lemma FightDataReadBack(pool: Pool, l: Loadout)
    requires Sound(pool, l)
    ensures ReadLoadout(pool, FightDataOf(pool, l)).chars == l.chars
    ensures FightDataOf(pool, ReadLoadout(pool, FightDataOf(pool, l))) == FightDataOf(pool, l)
  {
    hide Sound, ReadBack, PlayerOf, PlayersOf, Taken, FightDataOf, Listed;
    var fight := FightDataOf(pool, l);
    TakenTwice(pool, EMPTY, Listed(fight.players), Listed(fight.tibus));
    AllPlayers(pool, l);
    assert l.chars[..|l.chars|] == l.chars;
    TakenReadsBack(pool, l, |l.chars|);
    var m := ReadLoadout(pool, fight);
    ReadBackTeam(pool, l, m);
    forall c | c in l.chars ensures PlayerOf(pool, m, c) == PlayerOf(pool, l, c) {
      PlayerStable(pool, l, m, c);
    }
    SameFightData(pool, l, m);
  }

  lemma ReadBackTeam(pool: Pool, l: Loadout, m: Loadout)
    requires ReadBack(pool, l, |l.chars|, m)
    ensures m.chars == l.chars
  {
    assert l.chars[..|l.chars|] == l.chars;
  }

  /** Handing fight data out twice rebuilds it at most once, whatever was stored. */
  lemma CurrentIdempotent(pool: Pool, blob: Blob)
    ensures CurrentFightData(pool, CurrentFightData(pool, blob)) == CurrentFightData(pool, blob)
  {
    hide Sound, FightDataOf, NeedsRebuild, StrictLoadout, Taken;
    if blob.Document? && NeedsRebuild(pool, blob.fight) {
      var l := ReadLoadout(pool, blob.fight);
      if l.chars == [] {
        StrictIsNeverNeeded(pool, blob.fight);
      } else {
        EmptySound(pool);
        TakenSound(pool, EMPTY, Listed(blob.fight.players));
        TakenSound(pool, Taken(pool, EMPTY, Listed(blob.fight.players)), Listed(blob.fight.tibus));
        FightDataReadBack(pool, l);
      }
    }
  }

  lemma EmptySound(pool: Pool)
    ensures Sound(pool, EMPTY)
  {}

  // ---- fight data of a stored loadout

  lemma OkIsSound(pool: Pool, l: Loadout)
    requires PositivePool(pool) && LoadoutOk(pool, l)
    ensures Sound(pool, l)
  {
    forall c | c in l.skill ensures InPool(pool.skills, l.skill[c]) {
      FindItemMeaning(pool.skills, l.skill[c]);
    }
    forall c | c in l.nei ensures InPool(pool.neis, l.nei[c]) {
      FindItemMeaning(pool.neis, l.nei[c]);
    }
  }

  /** A stored loadout's fight data is never changed on its way out. */
  lemma CurrentOfStored(pool: Pool, l: Loadout)
    requires PositivePool(pool) && LoadoutOk(pool, l)
    ensures CurrentFightData(pool, Document(FightDataOf(pool, l))) == Document(FightDataOf(pool, l))
  {
    hide Sound, FightDataOf, NeedsRebuild, LoadoutOk;
    OkIsSound(pool, l);
    FightDataReadBack(pool, l);
    var fight := FightDataOf(pool, l);
    if ReadLoadout(pool, fight).chars == [] {
      StrictIsNeverNeeded(pool, fight);
    }
  }

  /** A player is good exactly when the loadout gives the person a skill. */
  lemma GoodPlayer(pool: Pool, l: Loadout, c: int)
    requires PositivePool(pool) && LoadoutOk(pool, l) && c in l.chars
    ensures BadPlayer(pool, PlayerOf(pool, l, c)) <==> c !in l.skill
  {
    hide Slotted;
    TakeUnusedMeaning(pool.skills, l.skill);
    TakeUnusedMeaning(pool.neis, l.nei);
    TakeUnusedInPool(pool.neis, l.nei);
    if c in l.skill {
      FindItemMeaning(pool.skills, l.skill[c]);
    }
    if c in l.nei {
      FindItemMeaning(pool.neis, l.nei[c]);
    }
  }

  /** The data of a stored loadout asks for a rebuild exactly when the week has fewer skills than
      the team has persons. */
  lemma RebuildIffTooFewSkills(pool: Pool, l: Loadout)
    requires PositivePool(pool) && LoadoutOk(pool, l)
    ensures NeedsRebuild(pool, FightDataOf(pool, l)) <==> |PoolIds(pool.skills)| < |l.chars|
  {
    hide BadPlayer, PlayerOf, TeamOk, WornOk, NothingLeft, PoolIds;
    CompleteIffEnough(l.chars, l.skill, pool.skills);
    OkTeamSize(pool, l);
    var k := |l.chars|;
    assert l.chars[..k] == l.chars;
    var players := PlayersOf(pool, l, l.chars);
    assert FightDataOf(pool, l) == Fight(FIGHT_DATA_VER, Some(players), Some([]));
    forall c | c in l.chars ensures BadPlayer(pool, PlayerOf(pool, l, c)) <==> c !in l.skill {
      GoodPlayer(pool, l, c);
    }
    if c :| c in l.chars && c !in l.skill {
      var i :| 0 <= i < k && l.chars[i] == c;
      assert players[i] in players && BadPlayer(pool, players[i]);
      assert c in Team(l.chars) && c !in l.skill.Keys;
    } else {
      forall c ensures c in Team(l.chars) <==> c in l.skill.Keys {
        assert c in l.skill ==> c in l.chars;
      }
      SameSet(l.skill.Keys, Team(l.chars));
    }
  }

  lemma OkTeamSize(pool: Pool, l: Loadout)
    requires LoadoutOk(pool, l)
    ensures |Team(l.chars)| == |l.chars|
  {
    TeamSize(l.chars);
  }

  // ---- the loops of the source

  /** Fists, swords, sabres and staffs are weapons; then come clothes, rings and bracers. */
  method EquipSlotOf(pool: Pool, eid: int) returns (slot: int)
    ensures slot == EquipSlot(pool, eid)
  {
    var item := FindItem(pool.equips, eid);
    if item == None {
      return -1;
    }
    var kind := item.value.kind;
    if kind >= 1 && kind <= 4 {
      return 0;
    }
    if kind >= 5 && kind <= 7 {
      return kind - 4;
    }
    slot := -1;
  }

  method SlottedEquips(pool: Pool, ids: seq<int>) returns (slots: array<int>)
    ensures fresh(slots) && slots[..] == Slotted(pool, ids)
  {
    hide EquipSlot;
    slots := new int[EQUIP_SLOTS](i => 0);
    var k := 0;
    while k < |ids|
      invariant 0 <= k <= |ids| && slots[..] == Slotted(pool, ids[..k])
    {
      assert ids[..k + 1][..k] == ids[..k];
      var slot := EquipSlotOf(pool, ids[k]);
      if slot >= 0 && slots[slot] == 0 {
        slots[slot] := ids[k];
      }
      k := k + 1;
    }
    assert ids[..k] == ids;
  }

  /** What a person fights with: the own item, if it is of the week, or the first one nobody has. */
  method ResolveItem(items: seq<PoolItem>, owned: map<int, int>, c: int) returns (id: int)
    ensures id == Resolved(items, owned, c)
  {
    if c in owned {
      var item := FindItem(items, owned[c]);
      if item != None {
        return owned[c];
      }
    }
    id := TakeUnusedLoop(items, owned);
  }

  /** One player of the document. */
  method PlayerJson(pool: Pool, l: Loadout, c: int) returns (p: Entry)
    ensures p == PlayerOf(pool, l, c)
  {
    hide Slotted, Resolved;
    var person := FindItem(pool.chars, c);
    var skill := ResolveItem(pool.skills, l.skill, c);
    var nei := ResolveItem(pool.neis, l.nei, c);
    var ids: seq<int> := [];
    if c in l.equip {
      ids := l.equip[c];
    }
    var slots := SlottedEquips(pool, ids);
    var equips: seq<Piece> := [];
    var k := 0;
    while k < slots.Length
      invariant 0 <= k <= slots.Length == EQUIP_SLOTS && slots[..] == Slotted(pool, ids)
      invariant |equips| == k && forall i :: 0 <= i < k ==> equips[i] == PiecesOf(slots[..])[i]
    {
      var lev := 0;
      if slots[k] > 0 {
        lev := 1;
      }
      equips := equips + [Piece(slots[k], lev)];
      k := k + 1;
    }
    assert equips == PiecesOf(slots[..]);
    var sex, skillLevel, neiLevel := 1, 1, 1;
    if person != None {
      sex := person.value.sex;
    }
    if skill > 0 {
      skillLevel := 9;
    }
    if nei > 0 {
      neiLevel := 9;
    }
    p := Player(c, sex, 90, skill, skillLevel, nei, neiLevel, Some(equips));
  }

  /** The document: five players, and everybody after them as substitutes. */
  method MakeFightData(pool: Pool, l: Loadout) returns (fight: Fight)
    ensures fight == FightDataOf(pool, l)
  {
    hide PlayerOf;
    var players: seq<Entry>, tibus: seq<Entry> := [], [];
    var five := if |l.chars| < 5 then |l.chars| else 5;
    var i := 0;
    while i < |l.chars|
      invariant 0 <= i <= |l.chars|
      invariant players == PlayersOf(pool, l, if i < five then l.chars[..i] else l.chars[..five])
      invariant tibus == PlayersOf(pool, l, if i < five then [] else l.chars[five..i])
    {
      var player := PlayerJson(pool, l, l.chars[i]);
      if i < 5 {
        players := players + [player];
      } else {
        tibus := tibus + [player];
      }
      i := i + 1;
    }
    assert l.chars[five..i] == l.chars[five..];
    fight := Fight(4, Some(players), Some(tibus));
  }

  method BadPlayers(pool: Pool, list: Option<seq<Entry>>) returns (bad: bool)
    ensures bad <==> exists p :: p in Listed(list) && BadPlayer(pool, p)
  {
    if list == None {
      return false;
    }
    var k := 0;
    while k < |list.value|
      invariant 0 <= k <= |list.value|
      invariant forall i :: 0 <= i < k ==> !BadPlayer(pool, list.value[i])
    {
      var p := list.value[k];
      assert p in Listed(list);
      if p.NoPlayer? || p.skill <= 0 || FindItem(pool.skills, p.skill) == None {
        assert BadPlayer(pool, p);
        return true;
      }
      if p.nei > 0 && FindItem(pool.neis, p.nei) == None {
        assert BadPlayer(pool, p);
        return true;
      }
      k := k + 1;
    }
    bad := false;
  }

  /** Reads one list of players into a loadout that already holds another. */
  method TakePlayers(pool: Pool, list: Option<seq<Entry>>, start: Loadout) returns (l: Loadout)
    ensures l == Taken(pool, start, Listed(list))
  {
    hide InPool, Picked;
    l := start;
    if list == None {
      return;
    }
    var players := list.value;
    var k := 0;
    while k < |players|
      invariant 0 <= k <= |players| && l == Taken(pool, start, players[..k])
    {
      assert players[..k + 1][..k] == players[..k];
      var p := players[k];
      k := k + 1;
      if p.NoPlayer? || !InPool(pool.chars, p.head) || p.head in l.chars {
        continue;
      }
      l := l.(chars := l.chars + [p.head]);
      if InPool(pool.skills, p.skill) {
        l := l.(skill := l.skill[p.head := p.skill]);
      }
      if InPool(pool.neis, p.nei) {
        l := l.(nei := l.nei[p.head := p.nei]);
      }
      var worn := PickEquips(pool, p);
      if worn != [] {
        l := l.(equip := l.equip[p.head := worn]);
      }
    }
    assert players[..k] == players;
  }

  method PickEquips(pool: Pool, p: Entry) returns (worn: seq<int>)
    requires p.Player?
    ensures worn == Picked(pool, EidsOf(p))
  {
    worn := [];
    if p.equip == None {
      return;
    }
    var pieces := p.equip.value;
    ghost var eids := EidsOf(p);
    var k := 0;
    while k < |pieces|
      invariant 0 <= k <= |pieces| && worn == Picked(pool, eids[..k])
    {
      assert eids[..k + 1][..k] == eids[..k];
      var eid := if pieces[k].Piece? then pieces[k].eid else 0;
      if InPool(pool.equips, eid) {
        worn := worn + [eid];
      }
      k := k + 1;
    }
    assert eids[..k] == eids;
  }

  /** Reads the pieces of a person strictly: anything outside the pool makes it fail. */
  method PickStrictly(pool: Pool, p: Entry) returns (worn: Option<seq<int>>)
    requires p.Player?
    ensures worn == if exists eid :: eid in EidsOf(p) && eid != 0 && !InPool(pool.equips, eid) then None
                    else Some(Picked(pool, EidsOf(p)))
  {
    hide InPool;
    ghost var eids := EidsOf(p);
    var pieces: seq<Piece> := if p.equip.Some? then p.equip.value else [];
    var equips: seq<int> := [];
    var k := 0;
    while k < |pieces|
      invariant 0 <= k <= |pieces| == |eids| && equips == Picked(pool, eids[..k])
      invariant forall i :: 0 <= i < k ==> eids[i] == 0 || InPool(pool.equips, eids[i])
    {
      assert eids[..k + 1][..k] == eids[..k];
      var eid := if pieces[k].Piece? then pieces[k].eid else 0;
      assert eid == eids[k];
      if eid != 0 && !InPool(pool.equips, eid) {
        return None;
      }
      if eid != 0 {
        equips := equips + [eid];
      } else {
        NoughtIsOut(pool.equips);
      }
      k := k + 1;
    }
    assert eids[..k] == eids;
    worn := Some(equips);
  }

  lemma NoughtIsOut(items: seq<PoolItem>)
    ensures !InPool(items, 0)
  {}

  /** Reads one list of players strictly, on top of another. */
  method TakeStrictly(pool: Pool, list: Option<seq<Entry>>, start: Loadout) returns (l: Option<Loadout>)
    ensures l == StrictTaken(pool, start, Listed(list))
  {
    hide InPool, Picked;
    l := Some(start);
    if list == None {
      return;
    }
    var players := list.value;
    var k := 0;
    while k < |players|
      invariant 0 <= k <= |players| && l == StrictTaken(pool, start, players[..k]) && l.Some?
    {
      assert players[..k + 1][..k] == players[..k];
      StrictFails(pool, start, players, k + 1);
      var p := players[k];
      if p.NoPlayer? || !InPool(pool.chars, p.head) {
        return None;
      }
      if p.skill != 0 && !InPool(pool.skills, p.skill) {
        return None;
      }
      if p.nei != 0 && !InPool(pool.neis, p.nei) {
        return None;
      }
      var worn := PickStrictly(pool, p);
      if worn == None {
        return None;
      }
      var next := l.value.(chars := l.value.chars + [p.head]);
      if p.skill != 0 {
        next := next.(skill := next.skill[p.head := p.skill]);
      }
      if p.nei != 0 {
        next := next.(nei := next.nei[p.head := p.nei]);
      }
      if worn.value != [] {
        next := next.(equip := next.equip[p.head := worn.value]);
      }
      l := Some(next);
      k := k + 1;
    }
    assert players[..k] == players;
  }

  /** One stranger is enough. */
  lemma {:induction false} StrictFails(pool: Pool, l: Loadout, players: seq<Entry>, k: nat)
    requires k <= |players|
    ensures StrictTaken(pool, l, players[..k]) == None ==> StrictTaken(pool, l, players) == None
    decreases |players| - k
  {
    if k == |players| {
      assert players[..k] == players;
    } else {
      hide InPool, Picked, EidsOf;
      assert players[..k + 1][..k] == players[..k];
      StrictFails(pool, l, players, k + 1);
    }
  }

  method FirstOnesOnly(ids: seq<int>) returns (r: seq<int>)
    ensures r == FirstOnes(ids)
  {
    r := [];
    var k := 0;
    while k < |ids|
      invariant 0 <= k <= |ids| && r == FirstOnes(ids[..k])
    {
      assert ids[..k + 1][..k] == ids[..k];
      if ids[k] !in r {
        r := r + [ids[k]];
      }
      k := k + 1;
    }
    assert ids[..k] == ids;
  }

  /** The strict reading; it fails too when it finds nobody. */
  method FightBlobInPool(pool: Pool, fight: Fight) returns (l: Option<Loadout>)
    ensures l == StrictLoadout(pool, fight)
  {
    hide StrictTaken;
    var first := TakeStrictly(pool, fight.players, EMPTY);
    if first == None {
      return None;
    }
    var both := TakeStrictly(pool, fight.tibus, first.value);
    if both == None || both.value.chars == [] {
      return None;
    }
    var unique := FirstOnesOnly(both.value.chars);
    l := Some(both.value.(chars := unique));
  }

  /** What is handed out for a stored column. */
  method HandOut(pool: Pool, blob: Blob) returns (r: Blob)
    ensures r == CurrentFightData(pool, blob)
    ensures r != blob ==> blob.Document? && NeedsRebuild(pool, blob.fight)
  {
    if !blob.Document? {
      return blob;
    }
    var fight := blob.fight;
    var badPlayers := BadPlayers(pool, fight.players);
    var badTibus := BadPlayers(pool, fight.tibus);
    if fight.ver == FIGHT_DATA_VER && !badPlayers && !badTibus {
      return blob;
    }
    var l := TakePlayers(pool, fight.players, EMPTY);
    l := TakePlayers(pool, fight.tibus, l);
    hide FightDataOf, StrictLoadout;
    if l.chars == [] {
      var strict := FightBlobInPool(pool, fight);
      match strict {
        case None => return blob;
        case Some(found) => l := found;
      }
    }
    var rebuilt := MakeFightData(pool, l);
    r := Document(rebuilt);
  }
}
