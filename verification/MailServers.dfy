/** The mail operations as they change Redis, command by command. */
module MailServers {
  import opened Results
  import opened Collections
  import opened MailKeys
  import opened Mail

  /** The answer of a removal: there was a value, and it was in the index. */
  predicate RemoveSucceeds(s: Store, a: Address, now: int) {
    AddressOk(a) && Live(s, KeyOf(a), now) && KeyOf(a) in s.index
  }

  /** After any run, a removal reports success exactly when the mailbox has mail. */
  lemma RemoveIsTruthful(ops: seq<Op>, a: Address, now: int)
    requires InTime(ops) && now >= LastEnd(ops)
    ensures RemoveSucceeds(AfterAll(ops), a, now) <==> HasMail(ops, a, now)
  {
    hide KeyOf, Latest, AfterAll, AddressOk, InTime;
    StoreFollowsRun(ops);
    if AddressOk(a) {
      assert BoxOk(AfterAll(ops), Latest(ops, a), KeyOf(a), LastEnd(ops));
    }
  }

  /** The rewards taken out of an array, one erase at a time. */
  method DropGold(base: Option<seq<Activity>>) returns (result: seq<Activity>)
    ensures result == NonGold(if base.Some? then base.value else [])
  {
    var all := if base.Some? then base.value else [];
    result := all;
    var i, read := 0, 0;
    assert all[..0] == [];
    while i < |result|
      invariant 0 <= i <= |result| && 0 <= read <= |all|
      invariant result[..i] == NonGold(all[..read]) && result[i..] == all[read..]
      decreases |result| - i
    {
      assert all[..read + 1][..read] == all[..read];
      assert result[i] == result[i..][0] == all[read];
      assert result[i + 1..] == result[i..][1..] == all[read + 1..];
      if result[i].kind == Some("s_goldSum") {
        result := result[..i] + result[i + 1..];
      } else {
        assert result[..i + 1] == result[..i] + [result[i]];
        i := i + 1;
      }
      read := read + 1;
    }
    assert all[..read] == all;
  }

  /** The gift of a mail, item by item. */
  method MakeReward(items: map<string, Int32>, beginAt: int) returns (reward: Activity)
    ensures reward == RewardOf(items, beginAt)
  {
    var props: map<string, int> := map[];
    var rest := items.Keys;
    while rest != {}
      invariant rest <= items.Keys
      invariant forall k :: k in props <==> k in items && k !in rest && k != "" && items[k] > 0
      invariant forall k :: k in props ==> props[k] == items[k]
      decreases |rest|
    {
      var id :| id in rest;
      rest := rest - {id};
      if id != "" && items[id] > 0 {
        props := props[id := items[id]];
      }
    }
    SameMap(props, Props(items));
    reward := Activity(Some("s_goldSum"), Some(props), beginAt, "");
  }

  /** The items of a gift, as far as their counts are positive and fit the source's `int`. */
  method ReadItems(gift: map<string, int>) returns (items: map<string, int>)
    ensures items == ReadProps(gift)
  {
    items := map[];
    var rest := gift.Keys;
    while rest != {}
      invariant rest <= gift.Keys
      invariant forall k :: k in items <==> k in gift && k !in rest && 0 < gift[k] <= 0x7FFF_FFFF
      invariant forall k :: k in items ==> items[k] == gift[k]
      decreases |rest|
    {
      var id :| id in rest;
      rest := rest - {id};
      var value := gift[id];
      if value > 0 && value <= 2147483647 {
        items := items[id := value];
      }
    }
    SameMap(items, ReadProps(gift));
  }

  /** The first reward of an array decides. */
  method ParseEntry(a: Address, acts: seq<Activity>) returns (entry: Option<Entry>)
    ensures entry == EntryOf(a, acts)
  {
    hide ReadProps;
    var i := 0;
    while i < |acts|
      invariant 0 <= i <= |acts| && FirstGold(acts[i..]) == FirstGold(acts)
    {
      assert acts[i..][1..] == acts[i + 1..];
      if acts[i].kind == Some("s_goldSum") {
        if acts[i].gift == None {
          return None;
        }
        var items := ReadItems(acts[i].gift.value);
        return Some(Entry(a.channel, a.acc, a.area, acts[i].beginAt, items));
      }
      i := i + 1;
    }
    entry := None;
  }

  class MailServer {
    var values: map<string, Stored>
    var index: map<string, int>
    var globalIndex: map<string, int>

    ghost function State(): Store
      reads this
    {
      Store(values, index, globalIndex)
    }

    constructor ()
      ensures State() == EMPTY
    {
      values, index, globalIndex := map[], map[], map[];
    }

    method CleanUp(now: int)
      modifies this
      ensures State() == Cleaned(old(State()), now)
    {
      index := map k | k in index && !(0 <= index[k] <= now) :: index[k];
      globalIndex := map k | k in globalIndex && !(0 <= globalIndex[k] <= now) :: globalIndex[k];
    }

    /** The value under a key, if Redis still has it. */
    method Get(key: string, now: int) returns (r: Option<Stored>)
      ensures r == if Live(State(), key, now) then Some(values[key]) else None
    {
      if key in values && now < values[key].expires {
        r := Some(values[key]);
      } else {
        r := None;
      }
    }

    /** The array of a mailbox; a value that is no array is dropped with its key. */
    method GetActivities(a: Address, now: int) returns (r: Option<seq<Activity>>)
      requires AddressOk(a)
      modifies this
      ensures r == Lookup(old(State()), KeyOf(a), now)
      ensures State() == if Live(old(State()), KeyOf(a), now) && old(values)[KeyOf(a)].acts == None
                         then old(State()).(values := old(values) - {KeyOf(a)}, index := old(index) - {KeyOf(a)})
                         else old(State())
    {
      hide MailKey;
      var key := KeyOf(a);
      var value := Get(key, now);
      if value == None {
        return None;
      }
      r := value.value.acts;
      if r == None {
        values := values - {key};
        index := index - {key};
      }
    }

    /** Sends a reward on top of the given activities. */
    method SendMail(a: Address, base: Option<seq<Activity>>, items: map<string, Int32>, beginAt: int, t0: int,
        t1: int, t2: int)
      returns (ok: bool)
      modifies this
      ensures State() == After(old(State()), Send(a, base, items, beginAt, t0, t1, t2))
      ensures ok <==> Accepted(Send(a, base, items, beginAt, t0, t1, t2))
    {
      hide MailKey, NonGold;
      if !AddressOk(a) || Props(items) == map[] {
        return false;
      }
      var result := DropGold(base);
      var reward := MakeReward(items, beginAt);
      result := result + [reward];
      CleanUp(t0);
      values := values[KeyOf(a) := Stored(Some(result), t1 + LIFE)];
      index := index[KeyOf(a) := t2 + LIFE];
      ok := true;
    }

    method SendToAll(channel: string, base: Option<seq<Activity>>, items: map<string, Int32>, beginAt: int, t0: int,
        t1: int, t2: int)
      returns (ok: bool)
      modifies this
      ensures State() == After(old(State()), SendGlobal(channel, base, items, beginAt, t0, t1, t2))
      ensures ok <==> Accepted(SendGlobal(channel, base, items, beginAt, t0, t1, t2))
    {
      hide GlobalKey, NonGold;
      if !ValidPart(channel) || Props(items) == map[] {
        return false;
      }
      var result := DropGold(base);
      var reward := MakeReward(items, beginAt);
      result := result + [reward];
      CleanUp(t0);
      values := values[GlobalKey(channel) := Stored(Some(result), t1 + LIFE)];
      globalIndex := globalIndex[GlobalKey(channel) := t2 + LIFE];
      ok := true;
    }

    method RemoveMail(a: Address, now: int) returns (ok: bool)
      modifies this
      ensures State() == After(old(State()), Remove(a, now))
      ensures ok <==> RemoveSucceeds(old(State()), a, now)
    {
      hide MailKey;
      if !AddressOk(a) {
        return false;
      }
      var key := KeyOf(a);
      var mail := Get(key, now);
      var indexed := key in index;
      index := index - {key};
      if mail == None {
        return false;
      }
      values := values - {key};
      ok := indexed;
    }

    /** The channel's entries; `keys` is the order in which the index was read. Keys that do not parse
        and mails that cannot be read are dropped on the way. */
    method ListMail(channel: string, now: int) returns (entries: seq<Entry>, ghost keys: seq<string>)
      modifies this
      ensures if ValidPart(channel) then
                && Range(Cleaned(old(State()), now).index, now, keys)
                && entries == Entries(Cleaned(old(State()), now), channel, now, keys)
                && State() == Listed(Cleaned(old(State()), now), channel, now, keys)
              else entries == [] && State() == old(State())
    {
      hide ParseKey, KeyOf, EntryOf, AddressOk, Weeded;
      entries, keys := [], [];
      if !ValidPart(channel) {
        return;
      }
      CleanUp(now);
      ghost var c := State();
      var order := InRange(now);
      keys := order;
      var i := 0;
      while i < |order|
        invariant 0 <= i <= |order| && entries == Entries(c, channel, now, order[..i])
        invariant State() == Listed(c, channel, now, order[..i])
      {
        assert order[..i + 1][..i] == order[..i];
        var entry := ListOne(c, order[..i], channel, now, order[i]);
        if entry.Some? {
          entries := entries + [entry.value];
        }
        i := i + 1;
      }
      assert order[..i] == order;
    }

    /** One key of the index. */
    method ListOne(ghost c: Store, ghost before: seq<string>, channel: string, now: int, key: string)
        returns (entry: Option<Entry>)
      requires State() == Listed(c, channel, now, before)
      modifies this
      ensures State() == Weeded(old(State()), channel, now, key)
      ensures entry == EntryAt(c, channel, now, key)
    {
      hide EntryOf, MailKey;
      entry := None;
      var a := ParseKey(key);
      if a == None {
        index := index - {key};
        return;
      }
      if a.value.channel != channel {
        return;
      }
      ParsedOk(key);
      hide ParseKey;
      ListedKeepsMail(c, channel, now, before, a.value);
      var acts := GetActivities(a.value, now);
      if acts == None {
        return;
      }
      entry := ParseEntry(a.value, acts.value);
      if entry == None {
        values := values - {key};
        index := index - {key};
      }
    }

    method InRange(now: int) returns (keys: seq<string>)
      ensures Range(index, now, keys)
    {
      keys := [];
      var rest := set k | k in index && index[k] >= now;
      ghost var all := rest;
      while rest != {}
        invariant rest <= all
        invariant forall k :: k in keys <==> k in all && k !in rest
        invariant forall i, j :: 0 <= i < j < |keys| ==> keys[i] != keys[j]
        decreases |rest|
      {
        var k :| k in rest;
        keys := keys + [k];
        rest := rest - {k};
      }
    }
  }
}
