/** A bounded cache whose entries expire. Times are milliseconds. */
module Cache {
  import opened Results
  import opened Collections

  datatype Slot<V> = Slot(value: V, deadline: int)

  function Peek<K, V>(c: map<K, Slot<V>>, key: K, now: int): Option<V> {
    if key in c && c[key].deadline > now then Some(c[key].value) else None
  }

  /** Looking at an expired entry removes it. */
  function Swept<K, V>(c: map<K, Slot<V>>, key: K, now: int): map<K, Slot<V>> {
    if key in c && c[key].deadline <= now then c - {key} else c
  }

  /** A new key in a full cache costs another entry its place. */
  function Filled<K, V>(c: map<K, Slot<V>>, bound: nat, key: K, slot: Slot<V>, evicted: K): map<K, Slot<V>> {
    if bound == 0 then c
    else if key !in c && |c| >= bound then (c - {evicted})[key := slot]
    else c[key := slot]
  }

  /** The bound holds after every insertion, as long as what is evicted was there. */
  lemma FilledBound<K, V>(c: map<K, Slot<V>>, bound: nat, key: K, slot: Slot<V>, evicted: K)
    requires |c| <= bound
    requires key !in c && |c| >= bound > 0 ==> evicted in c
    ensures |Filled(c, bound, key, slot, evicted)| <= bound
  {
    var r := Filled(c, bound, key, slot, evicted);
    if bound > 0 {
      if key !in c && |c| >= bound {
        assert r.Keys == c.Keys - {evicted} + {key};
      } else if key in c {
        assert r.Keys == c.Keys;
      } else {
        assert r.Keys == c.Keys + {key};
      }
    }
  }

  lemma SweptBound<K, V>(c: map<K, Slot<V>>, key: K, now: int)
    ensures |Swept(c, key, now)| <= |c|
  {
    SubsetCard(Swept(c, key, now).Keys, c.Keys);
  }

  /** A strict total order on the keys; a std::map keeps its entries in it. */
  ghost predicate TotalOrder<K(!new)>(less: (K, K) -> bool) {
    && (forall a, b :: less(a, b) ==> !less(b, a))
    && (forall a, b, c :: less(a, b) && less(b, c) ==> less(a, c))
    && (forall a, b :: less(a, b) || less(b, a) || a == b)
  }

  class TtlCache<K(==,!new), V> {
    const maxEntries: nat
    const less: (K, K) -> bool
    var entries: map<K, Slot<V>>

    ghost predicate Valid()
      reads this
    {
      |entries| <= maxEntries && TotalOrder(less)
    }

    constructor (maxEntries: nat, less: (K, K) -> bool)
      requires TotalOrder(less)
      ensures Valid() && this.maxEntries == maxEntries && this.less == less && entries == map[]
    {
      this.maxEntries, this.less := maxEntries, less;
      entries := map[];
    }

    /** The key a full cache gives up: the first one. */
    method First() returns (first: K)
      requires Valid() && entries != map[]
      ensures first in entries && forall k :: k in entries ==> !less(k, first)
    {
      ghost var some := Pick(entries.Keys);
      first :| first in entries.Keys;
      var rest := entries.Keys - {first};
      while rest != {}
        invariant rest <= entries.Keys && first in entries
        invariant forall k :: k in entries && k !in rest ==> !less(k, first)
        decreases |rest|
      {
        ghost var other := Pick(rest);
        var k :| k in rest;
        rest := rest - {k};
        if less(k, first) {
          first := k;
        }
      }
    }

    /** Never gives an expired entry, and drops it when it sees one. */
    method Get(key: K, now: int) returns (r: Option<V>)
      requires Valid()
      modifies this
      ensures Valid() && r == Peek(old(entries), key, now) && entries == Swept(old(entries), key, now)
    {
      if key !in entries {
        return None;
      }
      if entries[key].deadline > now {
        return Some(entries[key].value);
      }
      SweptBound(entries, key, now);
      entries := entries - {key};
      r := None;
    }

    method Put(key: K, value: V, now: int, ttl: int) returns (ghost evicted: K)
      requires Valid()
      modifies this
      ensures Valid() && entries == Filled(old(entries), maxEntries, key, Slot(value, now + ttl), evicted)
      ensures key !in old(entries) && |old(entries)| >= maxEntries > 0 ==>
                evicted in old(entries) && forall k :: k in old(entries) ==> !less(k, evicted)
    {
      evicted := key;
      if maxEntries == 0 {
        return;
      }
      ghost var before := entries;
      if key !in entries && |entries| >= maxEntries {
        var k := First();
        evicted := k;
        entries := entries - {k};
      }
      entries := entries[key := Slot(value, now + ttl)];
      FilledBound(before, maxEntries, key, Slot(value, now + ttl), evicted);
    }

    method Erase(key: K)
      requires Valid()
      modifies this
      ensures Valid() && entries == old(entries) - {key}
    {
      SubsetCard((entries - {key}).Keys, entries.Keys);
      entries := entries - {key};
    }

    method Clear()
      requires Valid()
      modifies this
      ensures Valid() && entries == map[]
    {
      entries := map[];
    }
  }

  /** The order of strings: character by character, a prefix first. */
  predicate TextLess(a: string, b: string) {
    b != [] && (a == [] || a[0] < b[0] || (a[0] == b[0] && TextLess(a[1..], b[1..])))
  }

  lemma {:induction false} TextLessAsymmetric(a: string, b: string)
    requires TextLess(a, b)
    ensures !TextLess(b, a)
  {
    if a != [] && a[0] == b[0] {
      TextLessAsymmetric(a[1..], b[1..]);
    }
  }

  lemma {:induction false} TextLessTransitive(a: string, b: string, c: string)
    requires TextLess(a, b) && TextLess(b, c)
    ensures TextLess(a, c)
  {
    if a != [] && a[0] == b[0] == c[0] {
      TextLessTransitive(a[1..], b[1..], c[1..]);
    }
  }

  lemma {:induction false} TextLessTotal(a: string, b: string)
    ensures TextLess(a, b) || TextLess(b, a) || a == b
  {
    if a != [] && b != [] && a[0] == b[0] {
      TextLessTotal(a[1..], b[1..]);
      assert a == [a[0]] + a[1..] && b == [b[0]] + b[1..];
    }
  }

  lemma TextOrder()
    ensures TotalOrder(TextLess)
  {
    forall a, b | TextLess(a, b) ensures !TextLess(b, a) {
      TextLessAsymmetric(a, b);
    }
    forall a, b, c | TextLess(a, b) && TextLess(b, c) ensures TextLess(a, c) {
      TextLessTransitive(a, b, c);
    }
    forall a, b ensures TextLess(a, b) || TextLess(b, a) || a == b {
      TextLessTotal(a, b);
    }
  }
}
