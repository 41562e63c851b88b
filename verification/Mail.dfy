/** The mail store over Redis: expiring values, and a sorted set that indexes them by expiry. Times are
    milliseconds of one clock. */
module Mail {
  import opened Results
  import opened Decimals
  import opened MailKeys

  const LIFE := 7200000
  const GOLD := "s_goldSum"

  /** A member of a stored array: no kind when it is not an object, no gift when its data cannot be
      read. */
  datatype Activity = Activity(kind: Option<string>, gift: Option<map<string, int>>, beginAt: int, text: string)

  datatype Entry = Entry(channel: string, acc: string, area: int, beginAt: int, items: map<string, int>)

  /** A value with its expiry; None when its text is not an array. */
  datatype Stored = Stored(acts: Option<seq<Activity>>, expires: int)

  /** The values and the two indexes. */
  datatype Store = Store(values: map<string, Stored>, index: map<string, int>, globalIndex: map<string, int>)

  const EMPTY := Store(map[], map[], map[])

  /** The counts of the source's `int`. */
  type Int32 = n: int | -0x8000_0000 <= n < 0x8000_0000

  /** The items that make it into a gift. */
  function Props(items: map<string, Int32>): map<string, int> {
    map k | k in items && k != "" && items[k] > 0 :: items[k]
  }

  /** The items read out of a stored gift. */
  function ReadProps(gift: map<string, int>): map<string, int> {
    map k | k in gift && 0 < gift[k] <= 0x7FFF_FFFF :: gift[k]
  }

  predicate IsGold(a: Activity) {
    a.kind == Some(GOLD)
  }

  function NonGold(acts: seq<Activity>): (r: seq<Activity>)
    ensures forall i :: 0 <= i < |r| ==> !IsGold(r[i])
  {
    if acts == [] then []
    else if IsGold(acts[|acts| - 1]) then NonGold(acts[..|acts| - 1])
    else NonGold(acts[..|acts| - 1]) + [acts[|acts| - 1]]
  }

  function RewardOf(items: map<string, Int32>, beginAt: int): Activity {
    Activity(Some(GOLD), Some(Props(items)), beginAt, "")
  }

  function SentActs(base: Option<seq<Activity>>, items: map<string, Int32>, beginAt: int): seq<Activity> {
    NonGold(if base.Some? then base.value else []) + [RewardOf(items, beginAt)]
  }

  /** The first reward of an array. */
  function FirstGold(acts: seq<Activity>): Option<Activity> {
    if acts == [] then None else if IsGold(acts[0]) then Some(acts[0]) else FirstGold(acts[1..])
  }

  function EntryOf(a: Address, acts: seq<Activity>): Option<Entry> {
    var gold := FirstGold(acts);
    if gold.Some? && gold.value.gift.Some? then
      Some(Entry(a.channel, a.acc, a.area, gold.value.beginAt, ReadProps(gold.value.gift.value)))
    else None
  }

  lemma {:induction false} NonGoldSplit(acts: seq<Activity>, last: Activity)
    requires IsGold(last)
    ensures FirstGold(NonGold(acts) + [last]) == Some(last)
  {
    OnlyLastGold(NonGold(acts), last);
  }

  lemma {:induction false} OnlyLastGold(r: seq<Activity>, last: Activity)
    requires IsGold(last) && forall i :: 0 <= i < |r| ==> !IsGold(r[i])
    ensures FirstGold(r + [last]) == Some(last)
  {
    if r == [] {
      assert r + [last] == [last];
    } else {
      assert (r + [last])[1..] == r[1..] + [last];
      OnlyLastGold(r[1..], last);
    }
  }

  lemma {:induction false} NonGoldOfPlain(acts: seq<Activity>)
    requires forall i :: 0 <= i < |acts| ==> !IsGold(acts[i])
    ensures NonGold(acts) == acts
  {
    if acts != [] {
      NonGoldOfPlain(acts[..|acts| - 1]);
    }
  }

  function AddressOf(e: Entry): Address {
    Address(e.channel, e.acc, e.area)
  }

  /** What was sent, as it arrives: every item with a name and a positive count, in its count. */
  ghost predicate Arrives(sent: map<string, Int32>, got: map<string, int>) {
    && (forall k :: k in got <==> k in sent && k != "" && sent[k] > 0)
    && (forall k :: k in got ==> got[k] == sent[k])
  }

  /** A stored array holds exactly one reward, at the end, with exactly the items sent; before it come
      the other activities of the base in their order; and it is listed with exactly those items. */
  lemma SentShape(base: Option<seq<Activity>>, items: map<string, Int32>, beginAt: int, a: Address)
    ensures var acts := SentActs(base, items, beginAt);
            && acts != [] && acts[|acts| - 1].kind == Some("s_goldSum")
            && (forall i :: 0 <= i < |acts| - 1 ==> acts[i].kind != Some("s_goldSum"))
            && acts[..|acts| - 1] == NonGold(if base.Some? then base.value else [])
            && acts[|acts| - 1].gift.Some? && Arrives(items, acts[|acts| - 1].gift.value)
            && EntryOf(a, acts).Some?
            && var e := EntryOf(a, acts).value;
               AddressOf(e) == a && e.beginAt == beginAt && Arrives(items, e.items)
  {
    var others := NonGold(if base.Some? then base.value else []);
    OnlyLastGold(others, RewardOf(items, beginAt));
    assert ReadProps(Props(items)) == Props(items);
  }

  /** Sending on top of what is stored replaces the reward and keeps the rest. */
  lemma SentAgain(base: Option<seq<Activity>>, items: map<string, Int32>, beginAt: int, items2: map<string, Int32>,
      beginAt2: int)
    ensures SentActs(Some(SentActs(base, items, beginAt)), items2, beginAt2) == SentActs(base, items2, beginAt2)
  {
    var others := NonGold(if base.Some? then base.value else []);
    var acts := SentActs(base, items, beginAt);
    assert acts[..|acts| - 1] == others;
    NonGoldOfPlain(others);
  }

  // ---- operations

  predicate AddressOk(a: Address) {
    ValidPart(a.channel) && ValidPart(a.acc) && 0 < a.area && InIntRange(a.area)
  }

  function KeyOf(a: Address): string {
    MailKey(a.channel, a.acc, a.area)
  }

  /** zremrangebyscore from 0 to now. */
  function Unexpired(index: map<string, int>, now: int): map<string, int> {
    map k | k in index && !(0 <= index[k] <= now) :: index[k]
  }

  function Cleaned(s: Store, now: int): Store {
    s.(index := Unexpired(s.index, now), globalIndex := Unexpired(s.globalIndex, now))
  }

  /** Redis has a value under the key. */
  predicate Live(s: Store, key: string, now: int) {
    key in s.values && now < s.values[key].expires
  }

  function Lookup(s: Store, key: string, now: int): Option<seq<Activity>> {
    if Live(s, key, now) then s.values[key].acts else None
  }

  /** An operation with the instants of its steps: cleaning, storing, indexing. */
  datatype Op =
    | Send(a: Address, base: Option<seq<Activity>>, items: map<string, Int32>, beginAt: int, t0: int, t1: int, t2: int)
    | SendGlobal(channel: string, base: Option<seq<Activity>>, items: map<string, Int32>, beginAt: int, t0: int,
      t1: int, t2: int)
    | Remove(a: Address, t0: int)
    | RemoveGlobal(channel: string, t0: int)
    | ListAll(channel: string, t0: int)

  predicate Accepted(op: Op) {
    match op
    case Send(a, _, items, _, _, _, _) => AddressOk(a) && Props(items) != map[]
    case SendGlobal(channel, _, items, _, _, _, _) => ValidPart(channel) && Props(items) != map[]
    case Remove(a, _) => AddressOk(a)
    case RemoveGlobal(channel, _) => ValidPart(channel)
    case ListAll(channel, _) => ValidPart(channel)
  }

  function Start(op: Op): int {
    op.t0
  }

  function End(op: Op): int {
    if op.Send? || op.SendGlobal? then op.t2 else op.t0
  }

  predicate Timed(op: Op) {
    0 <= op.t0 && (op.Send? || op.SendGlobal? ==> op.t0 <= op.t1 <= op.t2)
  }

  function Dropped(s: Store, key: string, now: int): map<string, Stored> {
    if Live(s, key, now) then s.values - {key} else s.values
  }

  function After(s: Store, op: Op): Store {
    if !Accepted(op) then s
    else
      match op
      case Send(a, base, items, beginAt, t0, t1, t2) =>
        var c := Cleaned(s, t0);
        Store(c.values[KeyOf(a) := Stored(Some(SentActs(base, items, beginAt)), t1 + LIFE)],
          c.index[KeyOf(a) := t2 + LIFE], c.globalIndex)
      case SendGlobal(channel, base, items, beginAt, t0, t1, t2) =>
        var c := Cleaned(s, t0);
        Store(c.values[GlobalKey(channel) := Stored(Some(SentActs(base, items, beginAt)), t1 + LIFE)], c.index,
              c.globalIndex[GlobalKey(channel) := t2 + LIFE])
      case Remove(a, t0) => s.(values := Dropped(s, KeyOf(a), t0), index := s.index - {KeyOf(a)})
      case RemoveGlobal(channel, t0) =>
        s.(values := Dropped(s, GlobalKey(channel), t0), globalIndex := s.globalIndex - {GlobalKey(channel)})
      case ListAll(_, t0) => Cleaned(s, t0)
  }

  function AfterAll(ops: seq<Op>): Store {
    if ops == [] then EMPTY else After(AfterAll(ops[..|ops| - 1]), ops[|ops| - 1])
  }

  /** One clock: every operation starts no earlier than the one before it ended. */
  predicate InTime(ops: seq<Op>)
  {
    ops == [] ||
    (InTime(ops[..|ops| - 1]) && Timed(ops[|ops| - 1])
     && (|ops| > 1 ==> End(ops[|ops| - 2]) <= Start(ops[|ops| - 1])))
  }

  function LastEnd(ops: seq<Op>): int {
    if ops == [] then 0 else End(ops[|ops| - 1])
  }

  /** What a mailbox holds, told from the operations alone: the last thing sent to it, unless it has
      been removed since. */
  function Latest(ops: seq<Op>, a: Address): Option<Stored> {
    if ops == [] then None
    else
      var op := ops[|ops| - 1];
      if op.Send? && op.a == a && Accepted(op) then
        Some(Stored(Some(SentActs(op.base, op.items, op.beginAt)), op.t1 + LIFE))
      else if op.Remove? && op.a == a then None
      else Latest(ops[..|ops| - 1], a)
  }

  /** The store against the mailboxes. */
  predicate BoxOk(s: Store, latest: Option<Stored>, key: string, now: int) {
    match latest
    case Some(stored) =>
      && key in s.values && s.values[key] == stored
      && (now < stored.expires ==> key in s.index && s.index[key] >= stored.expires)
    case None => key !in s.values || s.values[key].expires <= now
  }

  predicate Indexed(s: Store) {
    forall m :: m in s.index ==> ParseKey(m).Some? && AddressOk(ParseKey(m).value) && KeyOf(ParseKey(m).value) == m
  }

  ghost predicate StoreOk(s: Store, ops: seq<Op>, now: int) {
    && Indexed(s)
    && forall a :: AddressOk(a) ==> BoxOk(s, Latest(ops, a), KeyOf(a), now)
  }

  lemma KeyParses(a: Address)
    requires AddressOk(a)
    ensures ParseKey(KeyOf(a)) == Some(a)
  {
    ParseMailKey(a.channel, a.acc, a.area);
  }

  lemma SendKeeps(s: Store, front: seq<Op>, op: Op, now: int, a: Address)
    requires StoreOk(s, front, now) && op.Send? && Accepted(op) && Timed(op) && now <= op.t0 && AddressOk(a)
    ensures BoxOk(After(s, op), Latest(front + [op], a), KeyOf(a), op.t2)
  {
    hide ParseKey, MailKey, SentActs, Props;
    assert (front + [op])[..|front|] == front;
    assert BoxOk(s, Latest(front, a), KeyOf(a), now);
    KeyParses(a);
    KeyParses(op.a);
  }

  lemma OthersKeep(s: Store, front: seq<Op>, op: Op, now: int, a: Address)
    requires StoreOk(s, front, now) && !op.Send? && Accepted(op) && Timed(op) && now <= op.t0 && AddressOk(a)
    ensures BoxOk(After(s, op), Latest(front + [op], a), KeyOf(a), End(op))
  {
    hide ParseKey, MailKey, GlobalKey, SentActs, Props;
    assert (front + [op])[..|front|] == front;
    assert BoxOk(s, Latest(front, a), KeyOf(a), now);
    KeyParses(a);
    if op.Remove? {
      KeyParses(op.a);
    } else if op.SendGlobal? || op.RemoveGlobal? {
      assert GlobalKey(op.channel) != KeyOf(a) by { GlobalIsNoMailKey(op.channel, a); }
    }
  }

  lemma RefusedKeep(s: Store, front: seq<Op>, op: Op, now: int, a: Address)
    requires StoreOk(s, front, now) && !Accepted(op) && now <= End(op) && AddressOk(a)
    ensures BoxOk(After(s, op), Latest(front + [op], a), KeyOf(a), End(op))
  {
    hide ParseKey, MailKey, GlobalKey, SentActs, Props;
    assert (front + [op])[..|front|] == front;
    assert BoxOk(s, Latest(front, a), KeyOf(a), now);
  }

  lemma AfterIndexed(s: Store, op: Op)
    requires Indexed(s)
    ensures Indexed(After(s, op))
  {
    hide ParseKey, MailKey, GlobalKey, SentActs, Props;
    if op.Send? && Accepted(op) {
      KeyParses(op.a);
    }
  }

  /** Over every run: each mailbox's value is the last one sent, as long as it lives, and every live
      one is indexed with a score no earlier than its expiry. */
  lemma {:induction false} StoreFollowsRun(ops: seq<Op>)
    requires InTime(ops)
    ensures StoreOk(AfterAll(ops), ops, LastEnd(ops)) && LastEnd(ops) >= 0
  {
    if ops != [] {
      hide BoxOk, Indexed, After, KeyOf, ParseKey, Latest, Accepted, AddressOk;
      var front, op := ops[..|ops| - 1], ops[|ops| - 1];
      assert ops == front + [op];
      StoreFollowsRun(front);
      var s, now := AfterAll(front), LastEnd(front);
      AfterIndexed(s, op);
      forall a | AddressOk(a) ensures BoxOk(After(s, op), Latest(ops, a), KeyOf(a), End(op)) {
        if !Accepted(op) {
          RefusedKeep(s, front, op, now, a);
        } else if op.Send? {
          SendKeeps(s, front, op, now, a);
        } else {
          OthersKeep(s, front, op, now, a);
        }
      }
    }
  }

  // ---- reading and listing

  /** A mailbox read at any later instant: the last thing sent, for two hours. */
  lemma LookupIsLatest(ops: seq<Op>, a: Address, now: int)
    requires InTime(ops) && now >= LastEnd(ops) && AddressOk(a)
    ensures Lookup(AfterAll(ops), KeyOf(a), now) ==
              match Latest(ops, a)
              case Some(stored) => if now < stored.expires then stored.acts else None
              case None => None
  {
    hide KeyOf, Latest, AfterAll, AddressOk, InTime;
    StoreFollowsRun(ops);
    assert BoxOk(AfterAll(ops), Latest(ops, a), KeyOf(a), LastEnd(ops));
  }

  /** zrangebyscore from now on, in whatever order. */
  ghost predicate Range(index: map<string, int>, now: int, keys: seq<string>) {
    && (forall k :: k in keys <==> k in index && index[k] >= now)
    && forall i, j :: 0 <= i < j < |keys| ==> keys[i] != keys[j]
  }

  /** What a key of the index shows in the list of a channel. */
  function EntryAt(s: Store, channel: string, now: int, key: string): Option<Entry> {
    var a := ParseKey(key);
    if a == None || a.value.channel != channel || Lookup(s, KeyOf(a.value), now) == None then None
    else EntryOf(a.value, Lookup(s, KeyOf(a.value), now).value)
  }

  /** The entries of a channel among the keys. */
  function Entries(s: Store, channel: string, now: int, keys: seq<string>): seq<Entry> {
    if keys == [] then []
    else
      var before := Entries(s, channel, now, keys[..|keys| - 1]);
      var entry := EntryAt(s, channel, now, keys[|keys| - 1]);
      if entry.Some? then before + [entry.value] else before
  }

  lemma ParsedOk(key: string)
    requires ParseKey(key).Some?
    ensures AddressOk(ParseKey(key).value)
  {}

  /** A mailbox of the channel that has mail now, with the entry to show for it. */
  ghost predicate Shown(s: Store, channel: string, now: int, e: Entry) {
    && AddressOk(AddressOf(e)) && e.channel == channel
    && Lookup(s, KeyOf(AddressOf(e)), now).Some?
    && EntryOf(AddressOf(e), Lookup(s, KeyOf(AddressOf(e)), now).value) == Some(e)
  }

  lemma {:induction false} EntriesMeaning(s: Store, channel: string, now: int, keys: seq<string>)
    requires forall i, j :: 0 <= i < j < |keys| ==> keys[i] != keys[j]
    requires forall k :: k in keys ==>
          ParseKey(k).Some? && AddressOk(ParseKey(k).value) && KeyOf(ParseKey(k).value) == k
    ensures forall e :: e in Entries(s, channel, now, keys) <==>
          Shown(s, channel, now, e) && KeyOf(AddressOf(e)) in keys
    ensures forall i, j :: 0 <= i < j < |Entries(s, channel, now, keys)| ==>
              AddressOf(Entries(s, channel, now, keys)[i]) != AddressOf(Entries(s, channel, now, keys)[j])
  {
    hide ParseKey, MailKey, KeyOf, EntryOf, Lookup, AddressOk;
    if keys != [] {
      var front, key := keys[..|keys| - 1], keys[|keys| - 1];
      assert keys == front + [key] && key in keys;
      EntriesMeaning(s, channel, now, front);
      var before := Entries(s, channel, now, front);
      var all := Entries(s, channel, now, keys);
      var a := ParseKey(key).value;
      forall e ensures e in all <==> Shown(s, channel, now, e) && KeyOf(AddressOf(e)) in keys {
        EntryAddress(s, channel, now, a, e);
        if AddressOk(AddressOf(e)) {
          KeyParses(AddressOf(e));
        }
      }
      forall i | 0 <= i < |before| ensures AddressOf(before[i]) != a {
        assert before[i] in before && key !in front;
        assert KeyOf(AddressOf(before[i])) in front;
      }
      var looked := Lookup(s, KeyOf(a), now);
      if looked.Some? && EntryOf(a, looked.value).Some? {
        EntryAddress(s, channel, now, a, EntryOf(a, looked.value).value);
      }
    }
  }

  /** An entry carries the address it was made for. */
  lemma EntryAddress(s: Store, channel: string, now: int, a: Address, e: Entry)
    ensures forall acts :: EntryOf(a, acts) == Some(e) ==> AddressOf(e) == a
    ensures forall acts :: EntryOf(a, acts).Some? ==> AddressOf(EntryOf(a, acts).value) == a
  {
    hide FirstGold, ReadProps;
  }

  /** Mail to show, told from the operations alone. */
  ghost predicate Pending(ops: seq<Op>, channel: string, now: int, e: Entry) {
    var a := AddressOf(e);
    && AddressOk(a) && e.channel == channel
    && Latest(ops, a).Some? && now < Latest(ops, a).value.expires && Latest(ops, a).value.acts.Some?
    && EntryOf(a, Latest(ops, a).value.acts.value) == Some(e)
  }

  lemma {:induction false} LatestHasGold(ops: seq<Op>, a: Address)
    ensures Latest(ops, a).Some? ==>
              Latest(ops, a).value.acts.Some? && EntryOf(a, Latest(ops, a).value.acts.value).Some?
  {
    if ops != [] {
      var op := ops[|ops| - 1];
      if op.Send? && op.a == a && Accepted(op) {
        SentShape(op.base, op.items, op.beginAt, a);
      } else {
        LatestHasGold(ops[..|ops| - 1], a);
      }
    }
  }

  lemma LiveInRange(s: Store, ops: seq<Op>, last: int, now: int, a: Address, keys: seq<string>)
    requires StoreOk(s, ops, last) && last <= now && AddressOk(a) && Range(Unexpired(s.index, now), now, keys)
    requires Latest(ops, a).Some? && now < Latest(ops, a).value.expires
    ensures KeyOf(a) in keys
  {
    hide ParseKey, KeyOf, Latest, Indexed;
    assert BoxOk(s, Latest(ops, a), KeyOf(a), last);
  }

  /** A mailbox whose last mail was not removed since and is not older than two hours. */
  ghost predicate HasMail(ops: seq<Op>, a: Address, now: int) {
    AddressOk(a) && Latest(ops, a).Some? && now < Latest(ops, a).value.expires
  }

  /** Listing a channel gives exactly its live mails: every entry is one, with the items last sent,
      every mailbox that has mail has an entry, and no mailbox has two. */
  lemma ListIsExact(ops: seq<Op>, channel: string, now: int, keys: seq<string>)
    requires InTime(ops) && now >= LastEnd(ops)
    requires Range(Cleaned(AfterAll(ops), now).index, now, keys)
    ensures var entries := Entries(Cleaned(AfterAll(ops), now), channel, now, keys);
            && (forall e :: e in entries <==> Pending(ops, channel, now, e))
            && (forall a: Address :: a.channel == channel && HasMail(ops, a, now) ==>
              exists e :: e in entries && AddressOf(e) == a)
            && (forall i, j :: 0 <= i < j < |entries| ==> AddressOf(entries[i]) != AddressOf(entries[j]))
  {
    hide ParseKey, KeyOf, Latest, AfterAll, EntryOf, InTime, AddressOk;
    StoreFollowsRun(ops);
    var s := AfterAll(ops);
    var c := Cleaned(s, now);
    assert Indexed(c);
    EntriesMeaning(c, channel, now, keys);
    forall e ensures Shown(c, channel, now, e) && KeyOf(AddressOf(e)) in keys <==> Pending(ops, channel, now, e) {
      if AddressOk(AddressOf(e)) {
        LookupIsLatest(ops, AddressOf(e), now);
        assert Lookup(c, KeyOf(AddressOf(e)), now) == Lookup(s, KeyOf(AddressOf(e)), now);
        if Pending(ops, channel, now, e) {
          LiveInRange(s, ops, LastEnd(ops), now, AddressOf(e), keys);
        }
      }
    }
    forall a: Address | a.channel == channel && HasMail(ops, a, now)
      ensures exists e :: Pending(ops, channel, now, e) && AddressOf(e) == a
    {
      LatestHasGold(ops, a);
      var e := EntryOf(a, Latest(ops, a).value.acts.value).value;
      EntryAddress(c, channel, now, a, e);
      assert Pending(ops, channel, now, e);
    }
  }

  /** The last send to a mailbox that was not followed by a removal. */
  function LastSend(ops: seq<Op>, a: Address): Option<Op> {
    if ops == [] then None
    else
      var op := ops[|ops| - 1];
      if op.Send? && op.a == a && Accepted(op) then Some(op)
      else if op.Remove? && op.a == a then None
      else LastSend(ops[..|ops| - 1], a)
  }

  lemma {:induction false} LatestIsLastSend(ops: seq<Op>, a: Address)
    ensures Latest(ops, a).Some? <==> LastSend(ops, a).Some?
    ensures Latest(ops, a).Some? ==>
              var op := LastSend(ops, a).value;
              && op.Send? && op.a == a
              && Latest(ops, a) == Some(Stored(Some(SentActs(op.base, op.items, op.beginAt)), op.t1 + LIFE))
  {
    hide SentActs, Accepted;
    if ops != [] {
      LatestIsLastSend(ops[..|ops| - 1], a);
    }
  }

  /** Every entry of a listing shows what the last send to its mailbox carried: the time it began, and
      exactly its named items of positive count, each in the count that was sent. */
  lemma ListShowsWhatWasSent(ops: seq<Op>, channel: string, now: int, keys: seq<string>, e: Entry)
    requires InTime(ops) && now >= LastEnd(ops)
    requires Range(Cleaned(AfterAll(ops), now).index, now, keys)
    requires e in Entries(Cleaned(AfterAll(ops), now), channel, now, keys)
    ensures LastSend(ops, AddressOf(e)).Some? && LastSend(ops, AddressOf(e)).value.Send?
    ensures var op := LastSend(ops, AddressOf(e)).value;
            e.beginAt == op.beginAt && now < op.t1 + LIFE && Arrives(op.items, e.items)
  {
    hide AfterAll, InTime, Entries, EntryOf, SentActs, Range, KeyOf, Latest, LastSend, Arrives, AddressOk;
    ListIsExact(ops, channel, now, keys);
    var a := AddressOf(e);
    assert Pending(ops, channel, now, e);
    LatestIsLastSend(ops, a);
    var op := LastSend(ops, a).value;
    SentShape(op.base, op.items, op.beginAt, a);
  }

  lemma SomethingArrives(items: map<string, Int32>)
    ensures Props(items) != map[] <==> exists k :: k in items && k != "" && items[k] > 0
  {
    if k :| k in items && k != "" && items[k] > 0 {
      assert k in Props(items);
    }
    if Props(items) != map[] {
      assert Props(items).Keys != {};
      var k :| k in Props(items).Keys;
    }
  }

  /** A send is accepted exactly when channel and account are not empty and without colons, the area
      is positive, and there is a named item of positive count. */
  lemma SendAcceptedIff(a: Address, base: Option<seq<Activity>>, items: map<string, Int32>, beginAt: int, t0: int,
      t1: int, t2: int)
    ensures Accepted(Send(a, base, items, beginAt, t0, t1, t2)) <==>
              && a.channel != "" && ':' !in a.channel && a.acc != "" && ':' !in a.acc
              && 0 < a.area <= 0x7FFF_FFFF
              && exists k :: k in items && k != "" && items[k] > 0
  {
    SomethingArrives(items);
  }

  lemma GlobalAcceptedIff(channel: string, base: Option<seq<Activity>>, items: map<string, Int32>, beginAt: int,
      t0: int, t1: int, t2: int)
    ensures Accepted(SendGlobal(channel, base, items, beginAt, t0, t1, t2)) <==>
              channel != "" && ':' !in channel && exists k :: k in items && k != "" && items[k] > 0
  {
    SomethingArrives(items);
  }

  // ---- what listing cleans up

  /** One key of the index: a key that is no mail key leaves the index; a value that is no array, or
      has no readable reward, goes with its key. */
  function Weeded(s: Store, channel: string, now: int, key: string): Store {
    var a := ParseKey(key);
    if a == None then s.(index := s.index - {key})
    else if a.value.channel != channel || !Live(s, KeyOf(a.value), now) then s
    else
      var acts := s.values[KeyOf(a.value)].acts;
      if acts == None then
        s.(values := s.values - {KeyOf(a.value)}, index := s.index - {KeyOf(a.value)})
      else if EntryOf(a.value, acts.value) == None then
        s.(values := s.values - {key}, index := s.index - {key})
      else s
  }

  function Listed(s: Store, channel: string, now: int, keys: seq<string>): Store {
    if keys == [] then s else Weeded(Listed(s, channel, now, keys[..|keys| - 1]), channel, now, keys[|keys| - 1])
  }

  /** A mail that can be shown. */
  predicate Showable(s: Store, a: Address, now: int) {
    Lookup(s, KeyOf(a), now).Some? && EntryOf(a, Lookup(s, KeyOf(a), now).value).Some?
  }

  /** Listing never takes away a mail that can be shown, nor its place in the index, and adds nothing. */
  lemma {:induction false} ListedKeepsMail(s: Store, channel: string, now: int, keys: seq<string>, a: Address)
    requires AddressOk(a)
    ensures var r := Listed(s, channel, now, keys);
            && (KeyOf(a) in r.values ==> KeyOf(a) in s.values && r.values[KeyOf(a)] == s.values[KeyOf(a)])
            && (Showable(s, a, now) ==> KeyOf(a) in r.values)
            && (Showable(s, a, now) && KeyOf(a) in s.index ==>
              KeyOf(a) in r.index && r.index[KeyOf(a)] == s.index[KeyOf(a)])
  {
    hide ParseKey, MailKey, EntryOf;
    if keys != [] {
      ListedKeepsMail(s, channel, now, keys[..|keys| - 1], a);
      KeyParses(a);
    }
  }

  /** Every value has a readable reward. */
  predicate Readable(s: Store) {
    forall k :: k in s.values ==>
      s.values[k].acts.Some? && FirstGold(s.values[k].acts.value).Some?
        && FirstGold(s.values[k].acts.value).value.gift.Some?
  }

  /** In a store where everything can be read, listing changes nothing. */
  lemma {:induction false} ListedOfReadable(s: Store, channel: string, now: int, keys: seq<string>)
    requires Readable(s) && forall k :: k in keys ==> ParseKey(k).Some?
    ensures Listed(s, channel, now, keys) == s
  {
    hide ParseKey, KeyOf, FirstGold, Props;
    if keys != [] {
      assert keys[|keys| - 1] in keys;
      assert forall k :: k in keys[..|keys| - 1] ==> k in keys;
      ListedOfReadable(s, channel, now, keys[..|keys| - 1]);
    }
  }

  lemma SentReadable(base: Option<seq<Activity>>, items: map<string, Int32>, beginAt: int)
    ensures FirstGold(SentActs(base, items, beginAt)) == Some(RewardOf(items, beginAt))
  {
    NonGoldSplit(if base.Some? then base.value else [], RewardOf(items, beginAt));
  }

  lemma {:induction false} RunsAreReadable(ops: seq<Op>)
    ensures Readable(AfterAll(ops))
  {
    hide MailKey, GlobalKey, SentActs, Props;
    if ops != [] {
      var front, op := ops[..|ops| - 1], ops[|ops| - 1];
      RunsAreReadable(front);
      if op.Send? {
        SentReadable(op.base, op.items, op.beginAt);
      } else if op.SendGlobal? {
        SentReadable(op.base, op.items, op.beginAt);
      }
    }
  }

  /** After any run of sends and removals, listing is only the cleaning of expired keys. */
  lemma ListAfterRun(ops: seq<Op>, channel: string, now: int, keys: seq<string>)
    requires InTime(ops) && ValidPart(channel) && Range(Cleaned(AfterAll(ops), now).index, now, keys)
    ensures Listed(Cleaned(AfterAll(ops), now), channel, now, keys) == After(AfterAll(ops), ListAll(channel, now))
  {
    hide ParseKey, AfterAll, InTime, KeyOf, FirstGold;
    StoreFollowsRun(ops);
    RunsAreReadable(ops);
    var c := Cleaned(AfterAll(ops), now);
    forall k | k in keys ensures ParseKey(k).Some? {
      assert k in c.index;
    }
    ListedOfReadable(c, channel, now, keys);
  }
}
