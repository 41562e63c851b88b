/** Loadouts: a team of up to five persons, each with at most one skill and one inner art of the
    week's pool, no skill or art given to two persons. */
module Loadouts {
  import opened Results
  import opened Collections
  import opened WeekPool

  datatype Loadout = Loadout(chars: seq<int>, skill: map<int, int>, nei: map<int, int>, equip: map<int, seq<int>>)

  const EMPTY := Loadout([], map[], map[], map[])

  const MAX_TEAM := 5

  function PoolIds(items: seq<PoolItem>): set<int> {
    set p | p in items :: p.id
  }

  /** The items of an assignment. */
  function Vals(m: map<int, int>): set<int> {
    set c | c in m :: m[c]
  }

  function FindItem(items: seq<PoolItem>, id: int): Option<PoolItem> {
    if items == [] then None else if items[0].id == id then Some(items[0]) else FindItem(items[1..], id)
  }

  lemma {:induction false} FindItemMeaning(items: seq<PoolItem>, id: int)
    ensures FindItem(items, id).Some? <==> id in PoolIds(items)
    ensures FindItem(items, id).Some? ==> FindItem(items, id).value in items && FindItem(items, id).value.id == id
  {
    if items != [] {
      FindItemMeaning(items[1..], id);
      assert items[0] in items;
      assert forall p :: p in items[1..] ==> p in items;
    }
  }

  predicate InPool(items: seq<PoolItem>, id: int) {
    id > 0 && FindItem(items, id).Some?
  }

  /** The catalog holds positive ids only. */
  predicate PositiveIds(items: seq<PoolItem>) {
    forall p :: p in items ==> p.id > 0
  }

  predicate UsedByOther(owned: map<int, int>, charId: int, itemId: int) {
    itemId > 0 && exists o :: o in owned && o != charId && owned[o] == itemId
  }

  /** An occupied item is refused; a non-positive one takes the assignment away. */
  function TryAssign(owned: map<int, int>, charId: int, itemId: int): Option<map<int, int>> {
    if itemId <= 0 then Some(owned - {charId})
    else if UsedByOther(owned, charId, itemId) then None
    else Some(owned[charId := itemId])
  }

  /** The first pool item nobody has, or 0. */
  function TakeUnused(items: seq<PoolItem>, owned: map<int, int>): int {
    if items == [] then 0
    else if items[0].id > 0 && items[0].id !in Vals(owned) then items[0].id
    else TakeUnused(items[1..], owned)
  }

  lemma {:induction false} TakeUnusedMeaning(items: seq<PoolItem>, owned: map<int, int>)
    requires PositiveIds(items)
    ensures var r := TakeUnused(items, owned);
            if r == 0 then PoolIds(items) <= Vals(owned) else r > 0 && r in PoolIds(items) && r !in Vals(owned)
  {
    if items != [] {
      var tail := items[1..];
      assert forall p :: p in tail ==> p in items;
      TakeUnusedMeaning(tail, owned);
      assert items[0] in items;
      forall p | p in items ensures p == items[0] || p in tail {}
    }
  }

  /** First pass: the assignments of the first `k` persons that are valid and not yet taken. */
  function Kept(chars: seq<int>, given: map<int, int>, items: seq<PoolItem>, k: nat): map<int, int>
    requires k <= |chars|
  {
    if k == 0 then map[]
    else
      var kept := Kept(chars, given, items, k - 1);
      var c := chars[k - 1];
      if c in given && given[c] in PoolIds(items) && !UsedByOther(kept, c, given[c]) then kept[c := given[c]] else kept
  }

  /** Second pass: those of the first `k` persons that have nothing get the first unused item. */
  function Filled(chars: seq<int>, kept: map<int, int>, items: seq<PoolItem>, k: nat): map<int, int>
    requires k <= |chars|
  {
    if k == 0 then kept
    else
      var filled := Filled(chars, kept, items, k - 1);
      var c := chars[k - 1];
      var item := TakeUnused(items, filled);
      if c !in filled && item != 0 then filled[c := item] else filled
  }

  function Ensured(chars: seq<int>, given: map<int, int>, items: seq<PoolItem>): map<int, int> {
    Filled(chars, Kept(chars, given, items, |chars|), items, |chars|)
  }

  predicate Injective(m: map<int, int>) {
    forall a, b :: a in m && b in m && a != b ==> m[a] != m[b]
  }

  /** Owners are on the team, items are in the pool, and no item has two owners. */
  predicate Exclusive(chars: seq<int>, m: map<int, int>, items: seq<PoolItem>) {
    && (forall c :: c in m ==> c in chars && m[c] in PoolIds(items))
    && Injective(m)
  }

  /** Whoever has nothing has nothing left to get. */
  predicate NothingLeft(chars: seq<int>, m: map<int, int>, items: seq<PoolItem>) {
    (exists c :: c in chars && c !in m) ==> PoolIds(items) <= Vals(m)
  }

  lemma {:induction false} KeptExclusive(chars: seq<int>, given: map<int, int>, items: seq<PoolItem>, k: nat)
    requires k <= |chars| && PositiveIds(items)
    ensures Exclusive(chars, Kept(chars, given, items, k), items)
    ensures forall c :: c in Kept(chars, given, items, k) ==>
          c in chars[..k] && c in given && Kept(chars, given, items, k)[c] == given[c]
  {
    if k > 0 {
      KeptExclusive(chars, given, items, k - 1);
      assert chars[..k] == chars[..k - 1] + [chars[k - 1]];
    }
  }

  /** What is kept stays; every person up to `k` has an item, or the pool is used up. */
  lemma {:induction false} FilledExclusive(chars: seq<int>, kept: map<int, int>, items: seq<PoolItem>, k: nat)
    requires k <= |chars| && PositiveIds(items) && Exclusive(chars, kept, items)
    ensures var m := Filled(chars, kept, items, k);
            && Exclusive(chars, m, items)
            && kept.Keys <= m.Keys && (forall c :: c in kept ==> m[c] == kept[c])
            && Vals(kept) <= Vals(m)
            && NothingLeft(chars[..k], m, items)
            && (forall c :: c in m && c !in kept ==> m[c] !in Vals(kept))
  {
    if k > 0 {
      FilledExclusive(chars, kept, items, k - 1);
      var before := Filled(chars, kept, items, k - 1);
      var m := Filled(chars, kept, items, k);
      TakeUnusedMeaning(items, before);
      assert chars[..k] == chars[..k - 1] + [chars[k - 1]];
      forall v | v in Vals(before) ensures v in Vals(m) {
        var c :| c in before && before[c] == v;
        assert m[c] == v;
      }
    }
  }

  /** After completing: exclusive pool assignments, and nobody lacks one while the pool has one. */
  lemma EnsuredIsComplete(chars: seq<int>, given: map<int, int>, items: seq<PoolItem>)
    requires PositiveIds(items)
    ensures Exclusive(chars, Ensured(chars, given, items), items)
    ensures NothingLeft(chars, Ensured(chars, given, items), items)
  {
    hide Exclusive, NothingLeft;
    KeptExclusive(chars, given, items, |chars|);
    FilledExclusive(chars, Kept(chars, given, items, |chars|), items, |chars|);
    assert chars[..|chars|] == chars;
  }

  lemma {:induction false} InjectiveImage(m: map<int, int>)
    requires Injective(m)
    ensures |Vals(m)| == |m|
  {
    if m.Keys == {} {
      SameSet(Vals(m), {});
    } else {
      var k := Pick(m.Keys);
      var rest := m - {k};
      InjectiveImage(rest);
      forall v | v in Vals(m) ensures v in Vals(rest) + {m[k]} {
        var c :| c in m && m[c] == v;
        assert c != k ==> c in rest && rest[c] == v;
      }
      assert m[k] in Vals(m);
      forall v | v in Vals(rest) ensures v in Vals(m) {
        var c :| c in rest && rest[c] == v;
        assert c in m && m[c] == v;
      }
      SameSet(Vals(m), Vals(rest) + {m[k]});
      assert m[k] !in Vals(rest);
      SameSet(m.Keys, rest.Keys + {k});
    }
  }

  function Team(chars: seq<int>): set<int> {
    set c | c in chars
  }

  /** Pigeonhole: everyone has an item exactly when the pool has at least as many as the team. */
  lemma CompleteIffEnough(chars: seq<int>, m: map<int, int>, items: seq<PoolItem>)
    requires Exclusive(chars, m, items) && NothingLeft(chars, m, items)
    ensures m.Keys == Team(chars) <==> |PoolIds(items)| >= |Team(chars)|
  {
    InjectiveImage(m);
    forall c | c in m.Keys ensures c in Team(chars) {
      assert c in m;
    }
    forall v | v in Vals(m) ensures v in PoolIds(items) {
      var c :| c in m && m[c] == v;
    }
    SubsetCard(m.Keys, Team(chars));
    SubsetCard(Vals(m), PoolIds(items));
    assert |m.Keys| == |m|;
    if forall c :: c in chars ==> c in m {
      forall c ensures c in Team(chars) <==> c in m.Keys {
        assert c in m.Keys ==> c in m;
      }
      SameSet(m.Keys, Team(chars));
    } else {
      var c :| c in chars && c !in m;
      assert c in Team(chars) && c !in m.Keys;
      SubsetCard(PoolIds(items), Vals(m));
    }
  }

  lemma {:induction false} KeptOfComplete(chars: seq<int>, m: map<int, int>, items: seq<PoolItem>, k: nat)
    requires k <= |chars| && PositiveIds(items) && Exclusive(chars, m, items)
    ensures forall c :: c in Kept(chars, m, items, k) <==> c in m && c in chars[..k]
    ensures forall c :: c in Kept(chars, m, items, k) ==> Kept(chars, m, items, k)[c] == m[c]
  {
    if k > 0 {
      KeptOfComplete(chars, m, items, k - 1);
      assert chars[..k] == chars[..k - 1] + [chars[k - 1]];
    }
  }

  lemma {:induction false} FilledOfComplete(chars: seq<int>, m: map<int, int>, items: seq<PoolItem>, k: nat)
    requires k <= |chars| && PositiveIds(items) && NothingLeft(chars, m, items)
    ensures Filled(chars, m, items, k) == m
  {
    if k > 0 {
      FilledOfComplete(chars, m, items, k - 1);
      TakeUnusedMeaning(items, m);
      var c := chars[k - 1];
      if c !in m {
        assert c in chars && c !in m;
        assert PoolIds(items) <= Vals(m);
      }
    }
  }

  /** Completing twice is completing once. */
  lemma EnsuredIdempotent(chars: seq<int>, given: map<int, int>, items: seq<PoolItem>)
    requires PositiveIds(items)
    ensures var m := Ensured(chars, given, items);
            Ensured(chars, m, items) == m
  {
    EnsuredIsComplete(chars, given, items);
    EnsuredOfComplete(chars, Ensured(chars, given, items), items);
  }

  /** A complete assignment is left alone. */
  lemma EnsuredOfComplete(chars: seq<int>, m: map<int, int>, items: seq<PoolItem>)
    requires PositiveIds(items) && Exclusive(chars, m, items) && NothingLeft(chars, m, items)
    ensures Ensured(chars, m, items) == m
  {
    KeptOfComplete(chars, m, items, |chars|);
    assert chars[..|chars|] == chars;
    var kept := Kept(chars, m, items, |chars|);
    forall c ensures c in kept <==> c in m {}
    forall c | c in kept ensures kept[c] == m[c] {}
    SameMap(kept, m);
    FilledOfComplete(chars, m, items, |chars|);
  }

  lemma {:induction false} KeptKeeps(chars: seq<int>, given: map<int, int>, items: seq<PoolItem>, i: nat, k: nat)
    requires i < k <= |chars| && PositiveIds(items)
    requires chars[i] in given && given[chars[i]] in PoolIds(items)
    requires forall j :: 0 <= j < i ==> chars[j] == chars[i] || chars[j] !in given || given[chars[j]] != given[chars[i]]
    ensures chars[i] in Kept(chars, given, items, k) && Kept(chars, given, items, k)[chars[i]] == given[chars[i]]
  {
    KeptExclusive(chars, given, items, k - 1);
    if k == i + 1 {
      var kept := Kept(chars, given, items, i);
      forall o | o in kept && o != chars[i] ensures kept[o] != given[chars[i]] {
        assert o in chars[..i];
      }
    } else {
      KeptKeeps(chars, given, items, i, k - 1);
    }
  }

  /** A valid assignment is never disturbed unless an earlier member of the team has the same item. */
  lemma EnsuredKeepsValid(chars: seq<int>, given: map<int, int>, items: seq<PoolItem>, i: nat)
    requires i < |chars| && PositiveIds(items)
    requires chars[i] in given && given[chars[i]] in PoolIds(items)
    requires forall j :: 0 <= j < i ==> chars[j] == chars[i] || chars[j] !in given || given[chars[j]] != given[chars[i]]
    ensures chars[i] in Ensured(chars, given, items) && Ensured(chars, given, items)[chars[i]] == given[chars[i]]
  {
    KeptKeeps(chars, given, items, i, |chars|);
    KeptExclusive(chars, given, items, |chars|);
    FilledExclusive(chars, Kept(chars, given, items, |chars|), items, |chars|);
  }

  lemma {:induction false} DroppedWasTaken(chars: seq<int>, given: map<int, int>, items: seq<PoolItem>, c: int, k: nat)
    requires k <= |chars| && PositiveIds(items)
    requires c in chars[..k] && c in given && given[c] in PoolIds(items) && c !in Kept(chars, given, items, k)
    ensures given[c] in Vals(Kept(chars, given, items, k))
  {
    var before := Kept(chars, given, items, k - 1);
    var m := Kept(chars, given, items, k);
    assert chars[..k] == chars[..k - 1] + [chars[k - 1]];
    KeptExclusive(chars, given, items, k);
    if c == chars[k - 1] {
      assert UsedByOther(before, c, given[c]);
      var o :| o in before && o != c && before[o] == given[c];
      assert m == before;
      assert o in m && m[o] == given[c];
      assert given[c] in Vals(m);
    } else {
      DroppedWasTaken(chars, given, items, c, k - 1);
      KeptExclusive(chars, given, items, k - 1);
      var o :| o in before && before[o] == given[c];
      assert o in m && m[o] == given[o];
    }
  }

  /** Anything filled in differs from what was given, so "something was filled in" already means
      "something changed". */
  lemma FilledIsChange(chars: seq<int>, given: map<int, int>, items: seq<PoolItem>)
    requires PositiveIds(items)
    requires Ensured(chars, given, items) != Kept(chars, given, items, |chars|)
    ensures Ensured(chars, given, items) != given
  {
    var kept := Kept(chars, given, items, |chars|);
    var m := Ensured(chars, given, items);
    KeptExclusive(chars, given, items, |chars|);
    FilledExclusive(chars, kept, items, |chars|);
    assert chars[..|chars|] == chars;
    forall k | k in kept ensures k in m && m[k] == kept[k] {
      assert k in kept.Keys;
    }
    var c := ExtraKey(m, kept);
    if c in given && given[c] == m[c] {
      DroppedWasTaken(chars, given, items, c, |chars|);
    }
  }

  function EnsuredLoadout(pool: Pool, l: Loadout): Loadout {
    l.(skill := Ensured(l.chars, l.skill, pool.skills), nei := Ensured(l.chars, l.nei, pool.neis))
  }

  // ---- the loops of the source

  method TakeUnusedLoop(items: seq<PoolItem>, owned: map<int, int>) returns (id: int)
    ensures id == TakeUnused(items, owned)
  {
    var taken := set v | v in Vals(owned) && v > 0;
    var i := 0;
    while i < |items|
      invariant 0 <= i <= |items|
      invariant TakeUnused(items, owned) == TakeUnused(items[i..], owned)
    {
      if items[i].id > 0 && items[i].id !in taken {
        return items[i].id;
      }
      assert items[i..][1..] == items[i + 1..];
      i := i + 1;
    }
    id := 0;
  }

  /** Whether somebody else holds the item. */
  method KungfuUsedByOther(owned: map<int, int>, charId: int, itemId: int) returns (used: bool)
    ensures used <==> UsedByOther(owned, charId, itemId)
  {
    if itemId <= 0 {
      return false;
    }
    var rest := owned.Keys;
    while rest != {}
      invariant rest <= owned.Keys
      invariant forall o :: o in owned && o !in rest ==> o == charId || owned[o] != itemId
      decreases |rest|
    {
      ghost var some := Pick(rest);
      assert exists o :: o in rest;
      var owner :| owner in rest;
      if owner != charId && owned[owner] == itemId {
        return true;
      }
      rest := rest - {owner};
    }
    used := false;
  }

  /** Gives the item to the person, or takes away what the person has. */
  method TryAssignKungfu(owned: map<int, int>, charId: int, itemId: int) returns (r: Option<map<int, int>>)
    ensures r == TryAssign(owned, charId, itemId)
  {
    if itemId <= 0 {
      return Some(owned - {charId});
    }
    var used := KungfuUsedByOther(owned, charId, itemId);
    r := if used then None else Some(owned[charId := itemId]);
  }

  /** Completes both maps; the flag tells exactly whether the loadout changed. */
  method EnsureLoadoutKungfu(pool: Pool, l: Loadout) returns (r: Loadout, changed: bool)
    requires PositiveIds(pool.skills) && PositiveIds(pool.neis)
    ensures r == EnsuredLoadout(pool, l)
    ensures changed <==> r != l
  {
    changed := false;
    var skills: map<int, int>, neis: map<int, int> := map[], map[];
    var k := 0;
    while k < |l.chars|
      invariant 0 <= k <= |l.chars|
      invariant skills == Kept(l.chars, l.skill, pool.skills, k)
      invariant neis == Kept(l.chars, l.nei, pool.neis, k)
    {
      var id := l.chars[k];
      if id in l.skill {
        FindItemMeaning(pool.skills, l.skill[id]);
        var used := KungfuUsedByOther(skills, id, l.skill[id]);
        if FindItem(pool.skills, l.skill[id]).Some? && !used {
          skills := skills[id := l.skill[id]];
        }
      }
      if id in l.nei {
        FindItemMeaning(pool.neis, l.nei[id]);
        var used := KungfuUsedByOther(neis, id, l.nei[id]);
        if FindItem(pool.neis, l.nei[id]).Some? && !used {
          neis := neis[id := l.nei[id]];
        }
      }
      k := k + 1;
    }
    hide Kept, PoolIds, UsedByOther;
    ghost var keptSkills, keptNeis := skills, neis;
    k := 0;
    while k < |l.chars|
      invariant 0 <= k <= |l.chars|
      invariant skills == Filled(l.chars, keptSkills, pool.skills, k)
      invariant neis == Filled(l.chars, keptNeis, pool.neis, k)
      invariant changed <==> skills.Keys != keptSkills.Keys || neis.Keys != keptNeis.Keys
      invariant keptSkills.Keys <= skills.Keys && keptNeis.Keys <= neis.Keys
      invariant forall c :: c in keptSkills ==> skills[c] == keptSkills[c]
      invariant forall c :: c in keptNeis ==> neis[c] == keptNeis[c]
    {
      var id := l.chars[k];
      if id !in skills {
        var skill := TakeUnusedLoop(pool.skills, skills);
        if skill != 0 {
          skills := skills[id := skill];
          changed := true;
        }
      }
      if id !in neis {
        var nei := TakeUnusedLoop(pool.neis, neis);
        if nei != 0 {
          neis := neis[id := nei];
          changed := true;
        }
      }
      k := k + 1;
    }
    if changed {
      if skills != keptSkills { FilledIsChange(l.chars, l.skill, pool.skills); }
      if neis != keptNeis { FilledIsChange(l.chars, l.nei, pool.neis); }
    }
    r := l;
    if skills != l.skill || neis != l.nei {
      r := l.(skill := skills, nei := neis);
      changed := true;
    }
  }
}
