/** The weekly pool: which catalog entries may be used. Random draws are parameters: two numbers
    and one rearrangement per shuffle. */
module WeekPool {
  import opened Results
  import opened WeekClock

  datatype CatItem = CatItem(id: int, nick: string, star: int, head: int, kind: int, sex: int, icon: int, quality: int)

  datatype PoolItem = PoolItem(id: int, nick: string, star: int, graded: bool,
                               head: int, kind: int, sex: int, icon: int, quality: int)

  datatype Catalog = Catalog(chars: seq<CatItem>, equips: seq<CatItem>, skills: seq<CatItem>, neis: seq<CatItem>)

  datatype Pool = Pool(weekId: int, begin: int, end: int, equipGrade: int, skillGrade: int, neiGrade: int,
                       chars: seq<PoolItem>, equips: seq<PoolItem>, skills: seq<PoolItem>, neis: seq<PoolItem>)

  const PLAIN_COUNT := 14
  const GRADED_MAX := 4
  const CHAR_COUNT := 12
  const FIRST_WEEK := 20745

  const FIXED_CHARS: seq<int> := [912, 201, 203, 91203, 202, 208, 283, 282, 280, 286, 285, 284]

  /** The draws of one category. */
  datatype Draws = Draws(grade: nat, count: nat,
                         featured: seq<CatItem> -> seq<CatItem>, plain: seq<CatItem> -> seq<CatItem>,
                         mixed: seq<PoolItem> -> seq<PoolItem>)

  ghost predicate Shuffles<T(!new)>(f: seq<T> -> seq<T>) {
    forall s: seq<T> :: multiset(f(s)) == multiset(s)
  }

  ghost predicate FairDraws(d: Draws) {
    Shuffles(d.featured) && Shuffles(d.plain) && Shuffles(d.mixed)
  }

  /** Everything the catalog says of an item is copied. */
  function ToPool(item: CatItem, graded: bool): (p: PoolItem)
    ensures p.id == item.id && p.nick == item.nick && p.star == item.star && p.graded == graded
    ensures p.head == item.head && p.kind == item.kind && p.sex == item.sex
    ensures p.icon == item.icon && p.quality == item.quality
  {
    PoolItem(item.id, item.nick, item.star, graded, item.head, item.kind, item.sex, item.icon, item.quality)
  }

  function Min(a: int, b: int): int {
    if a < b then a else b
  }

  /** The source starts from 99. */
  function LowStar(items: seq<CatItem>): int {
    if items == [] then 99 else Min(LowStar(items[..|items| - 1]), items[|items| - 1].star)
  }

  function MinStar(items: seq<CatItem>): int {
    if items == [] then 0 else LowStar(items)
  }

  function OfStar(items: seq<CatItem>, star: int): seq<CatItem> {
    if items == [] then []
    else
      var last := items[|items| - 1];
      OfStar(items[..|items| - 1], star) + if last.star == star then [last] else []
  }

  /** Stars from 1 to `upTo`, other than the lowest, that some entry has. */
  function Options(items: seq<CatItem>, upTo: nat): seq<int> {
    if upTo == 0 then []
    else Options(items, upTo - 1) + if upTo != MinStar(items) && OfStar(items, upTo) != [] then [upTo] else []
  }

  function Grade(items: seq<CatItem>, draw: nat): int {
    var options := Options(items, 6);
    if options == [] then 0 else options[draw % |options|]
  }

  function Take<T>(s: seq<T>, n: int): seq<T>
    requires n >= 0
  {
    if n < |s| then s[..n] else s
  }

  function AllToPool(items: seq<CatItem>, graded: bool): (out: seq<PoolItem>)
    ensures |out| == |items|
  {
    seq(|items|, i requires 0 <= i < |items| => ToPool(items[i], graded))
  }

  /** Up to four entries of one higher star, and up to fourteen of the lowest, mixed. */
  function Category(items: seq<CatItem>, d: Draws): seq<PoolItem> {
    var grade := Grade(items, d.grade);
    var featured := if grade > 0 then OfStar(items, grade) else [];
    var plain := OfStar(items, MinStar(items));
    var n := if grade == 0 then 0 else 1 + d.count % GRADED_MAX;
    d.mixed(AllToPool(Take(d.featured(featured), n), true) + AllToPool(Take(d.plain(plain), PLAIN_COUNT), false))
  }

  /** What the pool's consumers rely on: at most four graded entries, all of one star strictly above
      the plain star, and every entry from the catalog, used no more often than it occurs there. */
  ghost predicate CategoryParts(items: seq<CatItem>, out: seq<PoolItem>, grade: int, featured: seq<CatItem>,
      plain: seq<CatItem>) {
    && multiset(out) == multiset(AllToPool(featured, true)) + multiset(AllToPool(plain, false))
    && |featured| <= GRADED_MAX && |plain| <= PLAIN_COUNT
    && multiset(featured) + multiset(plain) <= multiset(items)
    && (featured != [] ==> MinStar(items) < grade && 0 < grade <= 6)
    && (forall x :: x in featured ==> x.star == grade)
    && (forall x :: x in plain ==> x.star == MinStar(items))
  }

  ghost predicate CategoryOk(items: seq<CatItem>, out: seq<PoolItem>) {
    exists grade, featured, plain :: CategoryParts(items, out, grade, featured, plain)
  }

  lemma {:induction false} LowStarBelow(items: seq<CatItem>)
    ensures forall x :: x in items ==> LowStar(items) <= x.star
  {
    if items != [] {
      var init := items[..|items| - 1];
      LowStarBelow(init);
      assert items == init + [items[|items| - 1]];
    }
  }

  lemma {:induction false} OfStarMembers(items: seq<CatItem>, star: int)
    ensures forall x :: x in OfStar(items, star) <==> x in items && x.star == star
    ensures multiset(OfStar(items, star)) <= multiset(items)
  {
    if items != [] {
      var init := items[..|items| - 1];
      OfStarMembers(init, star);
      assert items == init + [items[|items| - 1]];
    }
  }

  lemma {:induction false} OptionsRange(items: seq<CatItem>, upTo: nat)
    requires upTo <= 6
    ensures forall o :: o in Options(items, upTo) ==> 1 <= o <= upTo && o != MinStar(items) && OfStar(items, o) != []
  {
    if upTo > 0 {
      OptionsRange(items, upTo - 1);
    }
  }

  /** A drawn grade is a star of the catalog strictly above its lowest. */
  lemma GradeAboveLow(items: seq<CatItem>, draw: nat)
    ensures Grade(items, draw) == 0 || (MinStar(items) < Grade(items, draw) <= 6
          && OfStar(items, Grade(items, draw)) != [])
    ensures Grade(items, draw) >= 0
  {
    var g := Grade(items, draw);
    OptionsRange(items, 6);
    if Options(items, 6) != [] {
      assert g in Options(items, 6);
      OfStarMembers(items, g);
      LowStarBelow(items);
      assert OfStar(items, g)[0] in items;
    }
  }

  lemma TakeSub<T>(s: seq<T>, n: int)
    requires n >= 0
    ensures multiset(Take(s, n)) <= multiset(s) && |Take(s, n)| <= n
  {
    if n < |s| {
      assert s == s[..n] + s[n..];
    }
  }

  lemma ShuffledTake(pool: seq<CatItem>, f: seq<CatItem> -> seq<CatItem>, n: int) returns (part: seq<CatItem>)
    requires Shuffles(f) && n >= 0
    ensures part == Take(f(pool), n) && |part| <= n && multiset(part) <= multiset(pool)
    ensures forall x :: x in part ==> x in pool
  {
    part := Take(f(pool), n);
    TakeSub(f(pool), n);
    assert multiset(f(pool)) == multiset(pool);
    forall x | x in part ensures x in pool {
      assert x in multiset(part) && x in multiset(pool);
    }
  }

  lemma MixedParts(f: seq<PoolItem> -> seq<PoolItem>, featured: seq<CatItem>, plain: seq<CatItem>)
    requires Shuffles(f)
    ensures multiset(f(AllToPool(featured, true) + AllToPool(plain, false)))
            == multiset(AllToPool(featured, true)) + multiset(AllToPool(plain, false))
  {
    hide AllToPool;
    var parts := AllToPool(featured, true) + AllToPool(plain, false);
    assert multiset(f(parts)) == multiset(parts);
  }

  lemma CategoryIsOk(items: seq<CatItem>, d: Draws)
    requires FairDraws(d)
    ensures CategoryOk(items, Category(items, d))
  {
    hide Grade, OfStar, MinStar, Options;
    var grade := Grade(items, d.grade);
    GradeAboveLow(items, d.grade);
    var stars := if grade > 0 then OfStar(items, grade) else [];
    var low := OfStar(items, MinStar(items));
    OfStarMembers(items, grade);
    OfStarMembers(items, MinStar(items));
    var featured := ShuffledTake(stars, d.featured, if grade == 0 then 0 else 1 + d.count % GRADED_MAX);
    var plain := ShuffledTake(low, d.plain, PLAIN_COUNT);
    MixedParts(d.mixed, featured, plain);
    assert Category(items, d) == d.mixed(AllToPool(featured, true) + AllToPool(plain, false));
    hide Shuffles, AllToPool, Take, Category;
    DisjointSub(featured, plain, items);
    assert CategoryParts(items, Category(items, d), grade, featured, plain);
  }

  lemma DisjointSub(a: seq<CatItem>, b: seq<CatItem>, items: seq<CatItem>)
    requires multiset(a) <= multiset(items) && multiset(b) <= multiset(items)
    requires forall x :: x in a ==> x !in b
    ensures multiset(a) + multiset(b) <= multiset(items)
  {
    forall x: CatItem ensures (multiset(a) + multiset(b))[x] <= multiset(items)[x] {
      if x in a { assert x !in multiset(b); }
    }
  }

  /** The lowest star there is, unless all are above 99. */
  lemma {:induction false} LowStarIs(items: seq<CatItem>)
    ensures LowStar(items) == 99 || exists x :: x in items && x.star == LowStar(items)
    ensures LowStar(items) <= 99 && forall x :: x in items ==> LowStar(items) <= x.star
  {
    LowStarBelow(items);
    if items != [] {
      var front, last := items[..|items| - 1], items[|items| - 1];
      LowStarIs(front);
      assert items == front + [last] && last in items;
    }
  }

  lemma {:induction false} OptionsAre(items: seq<CatItem>, upTo: nat)
    ensures forall o :: o in Options(items, upTo) <==> 1 <= o <= upTo && o != MinStar(items) && OfStar(items, o) != []
  {
    hide MinStar, OfStar;
    if upTo > 0 {
      OptionsAre(items, upTo - 1);
    }
  }

  /** A grade is drawn exactly when the catalog has a star from 1 to 6 other than its lowest. */
  lemma GradeDrawnIff(items: seq<CatItem>, draw: nat)
    ensures Grade(items, draw) != 0 <==>
              exists x :: x in items && 1 <= x.star <= 6 && x.star != MinStar(items)
  {
    OptionsAre(items, 6);
    GradeAboveLow(items, draw);
    var options := Options(items, 6);
    if x :| x in items && 1 <= x.star <= 6 && x.star != MinStar(items) {
      OfStarMembers(items, x.star);
      assert x.star in options;
      assert options[draw % |options|] in options;
    }
    if Grade(items, draw) != 0 {
      OfStarMembers(items, Grade(items, draw));
      assert OfStar(items, Grade(items, draw))[0] in items;
      assert options[draw % |options|] in options;
    }
  }

  lemma TakeSize<T>(s: seq<T>, n: int)
    requires n >= 0
    ensures |Take(s, n)| == if n < |s| then n else |s|
  {}

  lemma ShuffleSize(f: seq<CatItem> -> seq<CatItem>, s: seq<CatItem>)
    requires Shuffles(f)
    ensures |f(s)| == |s|
  {
    assert multiset(f(s)) == multiset(s);
    assert |multiset(f(s))| == |multiset(s)|;
  }

  /** How many entries a category has: all of the lowest star up to fourteen, and, if there is a higher
      star to draw, as many of it as the draw says, one to four, unless the catalog has fewer. */
  lemma CategoryCounts(items: seq<CatItem>, d: Draws)
    requires FairDraws(d)
    ensures var out := Category(items, d);
            var low := |OfStar(items, MinStar(items))|;
            var high := |OfStar(items, Grade(items, d.grade))|;
            && |out| - |Graded(out)| == (if low < 14 then low else 14)
            && (if exists x :: x in items && 1 <= x.star <= 6 && x.star != MinStar(items) then
                  |Graded(out)| == (if high < 1 + d.count % 4 then high else 1 + d.count % 4) && Graded(out) != []
                else Graded(out) == [])
  {
    hide Options, OfStar, MinStar;
    var grade := Grade(items, d.grade);
    GradeDrawnIff(items, d.grade);
    GradeAboveLow(items, d.grade);
    hide Grade, Graded, Shuffles;
    var stars := if grade > 0 then OfStar(items, grade) else [];
    var low := OfStar(items, MinStar(items));
    var n := if grade == 0 then 0 else 1 + d.count % GRADED_MAX;
    ShuffleSize(d.featured, stars);
    ShuffleSize(d.plain, low);
    var featured, plain := Take(d.featured(stars), n), Take(d.plain(low), PLAIN_COUNT);
    TakeSize(d.featured(stars), n);
    TakeSize(d.plain(low), PLAIN_COUNT);
    MixedParts(d.mixed, featured, plain);
    var out := Category(items, d);
    var f, p := AllToPool(featured, true), AllToPool(plain, false);
    assert multiset(out) == multiset(f) + multiset(p);
    assert |out| == |f| + |p| by { assert |multiset(out)| == |multiset(f)| + |multiset(p)|; }
    GradedCount(out, f, p);
  }

  // ---- what refresh_pool checks and what the pool advertises

  function Graded(items: seq<PoolItem>): seq<PoolItem> {
    if items == [] then []
    else
      var last := items[|items| - 1];
      Graded(items[..|items| - 1]) + if last.graded then [last] else []
  }

  /** At most four graded items, all of one star; otherwise the refresh throws. */
  predicate RefreshAccepts(items: seq<PoolItem>) {
    && |Graded(items)| <= GRADED_MAX
    && forall i :: 0 <= i < |Graded(items)| ==> Graded(items)[i].star == Graded(items)[0].star
  }

  /** The star of the first graded item, or zero. */
  function FeaturedGrade(items: seq<PoolItem>): int {
    if items == [] then 0 else if items[0].graded then items[0].star else FeaturedGrade(items[1..])
  }

  lemma {:induction false} GradedMembers(items: seq<PoolItem>)
    ensures forall x :: multiset(Graded(items))[x] == if x.graded then multiset(items)[x] else 0
  {
    if items != [] {
      var init := items[..|items| - 1];
      GradedMembers(init);
      assert items == init + [items[|items| - 1]];
    }
  }

  lemma {:induction false} FeaturedGradeMeaning(items: seq<PoolItem>)
    ensures (exists x :: x in items && x.graded && x.star == FeaturedGrade(items))
            || (FeaturedGrade(items) == 0 && forall x :: x in items ==> !x.graded)
  {
    if items != [] && !items[0].graded {
      FeaturedGradeMeaning(items[1..]);
      assert forall x :: x in items <==> x == items[0] || x in items[1..];
    } else if items != [] {
      assert items[0] in items;
    }
  }

  lemma PoolMembers(items: seq<CatItem>, graded: bool, star: int)
    requires forall y :: y in items ==> y.star == star
    ensures forall x :: x in AllToPool(items, graded) ==> x.graded == graded && x.star == star && items != []
  {
    forall x | x in AllToPool(items, graded) ensures x.graded == graded && x.star == star && items != [] {
      var i :| 0 <= i < |items| && AllToPool(items, graded)[i] == x;
      assert items[i] in items;
    }
  }

  /** Entries of a drawn category, by kind. */
  lemma CategoryMembers(items: seq<CatItem>, out: seq<PoolItem>, grade: int, featured: seq<CatItem>,
      plain: seq<CatItem>)
    requires CategoryParts(items, out, grade, featured, plain)
    ensures forall x :: x in out ==>
              if x.graded then x.star == grade && MinStar(items) < grade && 0 < grade else x.star == MinStar(items)
    ensures |Graded(out)| <= GRADED_MAX
  {
    hide MinStar;
    var f, p := AllToPool(featured, true), AllToPool(plain, false);
    PoolMembers(featured, true, grade);
    PoolMembers(plain, false, MinStar(items));
    forall x | x in out ensures x in f || x in p {
      assert x in multiset(out);
    }
    GradedCount(out, f, p);
  }

  /** A drawn category always passes the refresh; graded entries share one star strictly above every
      plain entry's, and the advertised grade is that star, or 0 exactly when none is graded. */
  lemma CategoryAdvertised(items: seq<CatItem>, d: Draws)
    requires FairDraws(d)
    ensures var out := Category(items, d);
            && RefreshAccepts(out)
            && (forall x :: x in out ==> if x.graded then x.star == FeaturedGrade(out) > MinStar(items)
              else x.star == MinStar(items))
            && (FeaturedGrade(out) == 0 <==> forall x :: x in out ==> !x.graded)
  {
    CategoryIsOk(items, d);
    var out := Category(items, d);
    hide Category, MinStar, FeaturedGrade;
    var grade, featured, plain :| CategoryParts(items, out, grade, featured, plain);
    CategoryMembers(items, out, grade, featured, plain);
    hide CategoryParts;
    GradedStars(out, grade);
    FeaturedGradeMeaning(out);
  }

  lemma GradedStars(out: seq<PoolItem>, grade: int)
    requires forall x :: x in out && x.graded ==> x.star == grade
    ensures forall i :: 0 <= i < |Graded(out)| ==> Graded(out)[i].star == grade
  {
    GradedMembers(out);
    forall i | 0 <= i < |Graded(out)| ensures Graded(out)[i].star == grade {
      assert Graded(out)[i] in multiset(Graded(out));
      assert Graded(out)[i] in multiset(out);
    }
  }

  lemma GradedCount(out: seq<PoolItem>, f: seq<PoolItem>, p: seq<PoolItem>)
    requires multiset(out) == multiset(f) + multiset(p)
    requires (forall x :: x in f ==> x.graded) && (forall x :: x in p ==> !x.graded)
    ensures |Graded(out)| == |f|
  {
    GradedMembers(out);
    assert multiset(Graded(out)) == multiset(f) by {
      forall x: PoolItem ensures multiset(Graded(out))[x] == multiset(f)[x] {
        if x.graded { assert x !in multiset(p); } else { assert x !in multiset(f); }
      }
    }
    assert |multiset(Graded(out))| == |multiset(f)|;
  }

  // ---- persons

  predicate Usable(item: CatItem) {
    item.id > 0 && item.nick != ""
  }

  predicate Clashes(out: seq<PoolItem>, item: CatItem) {
    exists p :: p in out && (p.id == item.id || p.nick == item.nick)
  }

  function TryAdd(out: seq<PoolItem>, item: CatItem): seq<PoolItem> {
    if Usable(item) && !Clashes(out, item) then out + [ToPool(item, false)] else out
  }

  function FirstWithId(items: seq<CatItem>, id: int): Option<CatItem> {
    if items == [] then None else if items[0].id == id then Some(items[0]) else FirstWithId(items[1..], id)
  }

  /** After the first `k` ids of the fixed line-up. */
  function FixedUpTo(items: seq<CatItem>, k: nat): seq<PoolItem>
    requires k <= |FIXED_CHARS|
  {
    if k == 0 then []
    else
      var out := FixedUpTo(items, k - 1);
      if |out| >= CHAR_COUNT then out
      else
        match FirstWithId(items, FIXED_CHARS[k - 1])
        case Some(item) => TryAdd(out, item)
        case None => out
  }

  /** Usable entries that clash with nobody chosen so far. */
  function Spare(items: seq<CatItem>, out: seq<PoolItem>): seq<CatItem> {
    if items == [] then []
    else
      var last := items[|items| - 1];
      Spare(items[..|items| - 1], out) + if Usable(last) && !Clashes(out, last) then [last] else []
  }

  /** After the first `k` spares. */
  function Fill(out: seq<PoolItem>, spares: seq<CatItem>, k: nat): seq<PoolItem>
    requires k <= |spares|
  {
    if k == 0 then out
    else
      var before := Fill(out, spares, k - 1);
      if |before| >= CHAR_COUNT then before else TryAdd(before, spares[k - 1])
  }

  function Chars(items: seq<CatItem>, shuffle: seq<CatItem> -> seq<CatItem>): seq<PoolItem> {
    var fixed := FixedUpTo(items, |FIXED_CHARS|);
    if |fixed| >= CHAR_COUNT then fixed
    else
      var spares := shuffle(Spare(items, fixed));
      Fill(fixed, spares, |spares|)
  }

  predicate FromCatalog(items: seq<CatItem>, p: PoolItem) {
    exists y :: y in items && Usable(y) && p == ToPool(y, false)
  }

  /** At most twelve usable catalog persons, no two sharing an id or a nick. */
  ghost predicate WellChosen(items: seq<CatItem>, out: seq<PoolItem>) {
    && |out| <= CHAR_COUNT
    && (forall p :: p in out ==> FromCatalog(items, p))
    && (forall i, j :: 0 <= i < j < |out| ==> out[i].id != out[j].id && out[i].nick != out[j].nick)
  }

  lemma TryAddKeeps(items: seq<CatItem>, out: seq<PoolItem>, item: CatItem)
    requires WellChosen(items, out) && |out| < CHAR_COUNT && item in items
    ensures WellChosen(items, TryAdd(out, item))
    ensures Usable(item) ==> Clashes(TryAdd(out, item), item)
    ensures forall x :: Clashes(out, x) ==> Clashes(TryAdd(out, item), x)
  {
    var next := TryAdd(out, item);
    if next != out {
      assert FromCatalog(items, ToPool(item, false));
      assert next[|out|] in next;
    }
    forall x | Clashes(out, x) ensures Clashes(next, x) {
      var p :| p in out && (p.id == x.id || p.nick == x.nick);
      assert p in next;
    }
    forall i, j | 0 <= i < j < |next| ensures next[i].id != next[j].id && next[i].nick != next[j].nick {
      assert next[i] in out;
    }
  }

  lemma {:induction false} FirstWithIdMember(items: seq<CatItem>, id: int)
    ensures FirstWithId(items, id).Some? ==> FirstWithId(items, id).value in items
  {
    if items != [] {
      FirstWithIdMember(items[1..], id);
    }
  }

  lemma {:induction false} FixedWellChosen(items: seq<CatItem>, k: nat)
    requires k <= |FIXED_CHARS|
    ensures WellChosen(items, FixedUpTo(items, k))
  {
    hide WellChosen, TryAdd, Clashes;
    if k > 0 {
      FixedWellChosen(items, k - 1);
      var before := FixedUpTo(items, k - 1);
      FirstWithIdMember(items, FIXED_CHARS[k - 1]);
      if |before| < CHAR_COUNT && FirstWithId(items, FIXED_CHARS[k - 1]).Some? {
        TryAddKeeps(items, before, FirstWithId(items, FIXED_CHARS[k - 1]).value);
      }
    } else {
      NobodyWellChosen(items);
    }
  }

  lemma NobodyWellChosen(items: seq<CatItem>)
    ensures WellChosen(items, [])
  {}

  lemma {:induction false} FillWellChosen(items: seq<CatItem>, out: seq<PoolItem>, spares: seq<CatItem>, k: nat)
    requires WellChosen(items, out) && k <= |spares| && forall x :: x in spares ==> x in items
    ensures WellChosen(items, Fill(out, spares, k))
    ensures forall x :: Clashes(out, x) ==> Clashes(Fill(out, spares, k), x)
    ensures |Fill(out, spares, k)| < CHAR_COUNT ==>
              forall i :: 0 <= i < k && Usable(spares[i]) ==> Clashes(Fill(out, spares, k), spares[i])
  {
    hide WellChosen, TryAdd, Clashes, Usable;
    if k > 0 {
      FillWellChosen(items, out, spares, k - 1);
      var before := Fill(out, spares, k - 1);
      if |before| < CHAR_COUNT {
        TryAddKeeps(items, before, spares[k - 1]);
      }
    }
  }

  lemma {:induction false} SpareMembers(items: seq<CatItem>, out: seq<PoolItem>)
    ensures forall x :: x in Spare(items, out) <==> x in items && Usable(x) && !Clashes(out, x)
  {
    hide Usable, Clashes;
    if items != [] {
      var init := items[..|items| - 1];
      SpareMembers(init, out);
      assert items == init + [items[|items| - 1]];
    }
  }

  /** Whatever the shuffle: at most twelve persons with distinct ids and nicks, and if fewer, then
      every usable person of the catalog clashes with a chosen one. */
  lemma CharsWellChosen(items: seq<CatItem>, shuffle: seq<CatItem> -> seq<CatItem>)
    requires Shuffles(shuffle)
    ensures WellChosen(items, Chars(items, shuffle))
    ensures |Chars(items, shuffle)| < CHAR_COUNT ==>
              forall x :: x in items && Usable(x) ==> Clashes(Chars(items, shuffle), x)
  {
    hide WellChosen, Clashes, Usable, Fill, FixedUpTo, Spare;
    var fixed := FixedUpTo(items, |FIXED_CHARS|);
    FixedWellChosen(items, |FIXED_CHARS|);
    if |fixed| < CHAR_COUNT {
      var spare := Spare(items, fixed);
      var spares := shuffle(spare);
      SpareMembers(items, fixed);
      assert multiset(spares) == multiset(spare);
      forall x ensures x in spares <==> x in spare {
        assert x in multiset(spares) <==> x in multiset(spare);
      }
      FillWellChosen(items, fixed, spares, |spares|);
      var out := Fill(fixed, spares, |spares|);
      if |out| < CHAR_COUNT {
        forall x | x in items && Usable(x) ensures Clashes(out, x) {
          if !Clashes(fixed, x) {
            var i :| 0 <= i < |spares| && spares[i] == x;
          }
        }
      }
    }
  }

  // ---- the whole pool

  /** Entries for a given list of ids, all plain; a missing id throws. */
  function ByIds(items: seq<CatItem>, ids: seq<int>): Result<seq<PoolItem>> {
    if ids == [] then Success([])
    else
      var init :- ByIds(items, ids[..|ids| - 1]);
      match FirstWithId(items, ids[|ids| - 1])
      case Some(item) => Success(init + [ToPool(item, false)])
      case None => Failure("first period id missing")
  }

  const FIRST_SKILLS: seq<int> := [
    3218, 3212, 3207, 3126, 202607176, 3134, 3013, 3029, 3015, 913103, 3214, 3204,
    3213, 20260102, 3122, 3118, 202606191, 202605221, 202606064, 3024, 3028, 3203, 3103, 3003]
  const FIRST_NEIS: seq<int> := [
    3851, 3829, 3835, 202606054, 3808, 1157, 20260766, 202606196, 203801, 203800, 3000005, 3810]
  const FIRST_EQUIPS: seq<int> := [
    20265226, 20265312, 5118, 194002, 5310, 5820, 204006, 204004, 5413, 20265209,
    204003, 20266202, 5819, 20265222, 204007, 5215, 20265213, 20265221, 5848, 5218]

  datatype WeekDraws = WeekDraws(chars: seq<CatItem> -> seq<CatItem>, equips: Draws, skills: Draws, neis: Draws)

  ghost predicate FairWeek(d: WeekDraws) {
    Shuffles(d.chars) && FairDraws(d.equips) && FairDraws(d.skills) && FairDraws(d.neis)
  }

  function Listed(items: seq<CatItem>, ids: seq<int>, d: Draws, week: int): Result<seq<PoolItem>> {
    if week == FIRST_WEEK then ByIds(items, ids) else Success(Category(items, d))
  }

  function BuildWeekPool(cat: Catalog, week: int, d: WeekDraws): Result<Pool> {
    var chars := Chars(cat.chars, d.chars);
    var equips :- Listed(cat.equips, FIRST_EQUIPS, d.equips, week);
    var skills :- Listed(cat.skills, FIRST_SKILLS, d.skills, week);
    var neis :- Listed(cat.neis, FIRST_NEIS, d.neis, week);
    Success(Pool(week, WeekBegin(week), WeekEnd(week), FeaturedGrade(equips), FeaturedGrade(skills),
                 FeaturedGrade(neis), chars, equips, skills, neis))
  }

  lemma {:induction false} ByIdsPlain(items: seq<CatItem>, ids: seq<int>)
    ensures ByIds(items, ids).Success? ==>
              (|ByIds(items, ids).value| == |ids|
               && forall i :: 0 <= i < |ids| ==>
                 ByIds(items, ids).value[i].id == ids[i] && !ByIds(items, ids).value[i].graded)
    ensures ByIds(items, ids).Success? <==> forall i :: 0 <= i < |ids| ==> FirstWithId(items, ids[i]).Some?
  {
    if ids != [] {
      var init := ids[..|ids| - 1];
      ByIdsPlain(items, init);
      FirstWithIdIs(items, ids[|ids| - 1]);
      assert forall i :: 0 <= i < |init| ==> init[i] == ids[i];
    }
  }

  lemma {:induction false} FirstWithIdIs(items: seq<CatItem>, id: int)
    ensures FirstWithId(items, id).Some? ==> FirstWithId(items, id).value.id == id
    ensures FirstWithId(items, id).None? ==> forall x :: x in items ==> x.id != id
  {
    if items != [] {
      FirstWithIdIs(items[1..], id);
    }
  }

  lemma {:induction false} NoneGraded(items: seq<PoolItem>)
    requires forall x :: x in items ==> !x.graded
    ensures Graded(items) == [] && FeaturedGrade(items) == 0
  {
    FeaturedGradeMeaning(items);
    if items != [] {
      NoneGraded(items[..|items| - 1]);
    }
  }

  /** What one advertised category promises. */
  ghost predicate Advertised(items: seq<PoolItem>, grade: int) {
    && RefreshAccepts(items)
    && (forall x :: x in items && x.graded ==> x.star == grade)
    && (forall x, y :: x in items && y in items && x.graded && !y.graded ==> x.star > y.star)
    && (grade == 0 <==> forall x :: x in items ==> !x.graded)
  }

  lemma ListedAdvertised(items: seq<CatItem>, ids: seq<int>, d: Draws, week: int)
    requires FairDraws(d)
    ensures match Listed(items, ids, d, week)
            case Success(out) => Advertised(out, FeaturedGrade(out))
            case Failure(_) => true
  {
    hide Category;
    if week == FIRST_WEEK {
      ByIdsPlain(items, ids);
      if ByIds(items, ids).Success? {
        var out := ByIds(items, ids).value;
        forall x | x in out ensures !x.graded {
          var i :| 0 <= i < |out| && out[i] == x;
        }
        NoneGraded(out);
      }
    } else {
      CategoryAdvertised(items, d);
    }
  }

  /** Every pool that is built passes the refresh and advertises the truth, whatever the catalog and
      the draws; its persons are well chosen and its interval is the week's. */
  lemma BuiltPoolIsSound(cat: Catalog, week: int, d: WeekDraws)
    requires FairWeek(d)
    ensures match BuildWeekPool(cat, week, d)
            case Failure(_) => week == FIRST_WEEK
            case Success(pool) =>
              && Advertised(pool.equips, pool.equipGrade) && Advertised(pool.skills, pool.skillGrade)
              && Advertised(pool.neis, pool.neiGrade)
              && WellChosen(cat.chars, pool.chars)
              && (|pool.chars| < CHAR_COUNT ==> forall x :: x in cat.chars && Usable(x) ==> Clashes(pool.chars, x))
              && pool.begin == WeekBegin(pool.weekId) && pool.end == pool.begin + 604800
  {
    hide Advertised, WellChosen, Usable, Clashes, Chars, Category, ByIds, FeaturedGrade;
    CharsWellChosen(cat.chars, d.chars);
    ListedAdvertised(cat.equips, FIRST_EQUIPS, d.equips, week);
    ListedAdvertised(cat.skills, FIRST_SKILLS, d.skills, week);
    ListedAdvertised(cat.neis, FIRST_NEIS, d.neis, week);
  }

  // ---- the loops of the source

  method MinStarOf(items: seq<CatItem>) returns (r: int)
    ensures r == MinStar(items)
  {
    var star := 99;
    var i := 0;
    while i < |items|
      invariant 0 <= i <= |items|
      invariant star == LowStar(items[..i])
    {
      assert items[..i + 1][..i] == items[..i];
      star := Min(star, items[i].star);
      i := i + 1;
    }
    assert items[..i] == items;
    r := if items == [] then 0 else star;
  }

  method CountStar(items: seq<CatItem>, star: int) returns (count: nat)
    ensures count == |OfStar(items, star)|
  {
    count := 0;
    var i := 0;
    while i < |items|
      invariant 0 <= i <= |items|
      invariant count == |OfStar(items[..i], star)|
    {
      assert items[..i + 1][..i] == items[..i];
      if items[i].star == star {
        count := count + 1;
      }
      i := i + 1;
    }
    assert items[..i] == items;
  }

  method RollGrade(items: seq<CatItem>, draw: nat) returns (grade: int)
    ensures grade == Grade(items, draw)
  {
    var low := MinStarOf(items);
    hide MinStar, OfStar;
    var options: seq<int> := [];
    var star := 1;
    while star <= 6
      invariant 1 <= star <= 7
      invariant options == Options(items, star - 1)
    {
      var count := CountStar(items, star);
      if star != low && count > 0 {
        options := options + [star];
      }
      star := star + 1;
    }
    grade := if options == [] then 0 else options[draw % |options|];
  }

  /** One pass sorts the entries into featured and plain ones. */
  method SortByStar(items: seq<CatItem>, low: int, grade: int) returns (featured: seq<CatItem>, plain: seq<CatItem>)
    requires grade != low || grade <= 0
    ensures featured == if grade > 0 then OfStar(items, grade) else []
    ensures plain == OfStar(items, low)
  {
    featured, plain := [], [];
    var i := 0;
    while i < |items|
      invariant 0 <= i <= |items|
      invariant featured == if grade > 0 then OfStar(items[..i], grade) else []
      invariant plain == OfStar(items[..i], low)
    {
      assert items[..i + 1][..i] == items[..i];
      if grade > 0 && items[i].star == grade {
        featured := featured + [items[i]];
      } else if items[i].star == low {
        plain := plain + [items[i]];
      }
      i := i + 1;
    }
    assert items[..i] == items;
  }

  method AppendTaken(out: seq<PoolItem>, items: seq<CatItem>, n: int, graded: bool) returns (r: seq<PoolItem>)
    requires n >= 0
    ensures r == out + AllToPool(Take(items, n), graded)
  {
    r := out;
    var count := Min(n, |items|);
    var i := 0;
    while i < count
      invariant 0 <= i <= count
      invariant r == out + AllToPool(items[..i], graded)
    {
      assert AllToPool(items[..i + 1], graded) == AllToPool(items[..i], graded) + [ToPool(items[i], graded)];
      r := r + [ToPool(items[i], graded)];
      i := i + 1;
    }
    assert items[..i] == Take(items, n);
  }

  method PickCategory(items: seq<CatItem>, d: Draws) returns (out: seq<PoolItem>)
    ensures out == Category(items, d)
  {
    var low := MinStarOf(items);
    var grade := RollGrade(items, d.grade);
    GradeAboveLow(items, d.grade);
    var gradedN := if grade == 0 then 0 else 1 + d.count % GRADED_MAX;
    var featured, plain := SortByStar(items, low, grade);
    out := AppendTaken([], d.featured(featured), gradedN, true);
    out := AppendTaken(out, d.plain(plain), PLAIN_COUNT, false);
    ghost var graded := AllToPool(Take(d.featured(featured), gradedN), true);
    assert [] + graded == graded;
    out := d.mixed(out);
  }

  function Ids(out: seq<PoolItem>): set<int> {
    set p | p in out :: p.id
  }

  function Nicks(out: seq<PoolItem>): set<string> {
    set p | p in out :: p.nick
  }

  lemma ClashMeaning(out: seq<PoolItem>, item: CatItem)
    ensures Clashes(out, item) <==> item.id in Ids(out) || item.nick in Nicks(out)
  {}

  method AddIfFree(out: seq<PoolItem>, usedIds: set<int>, usedNicks: set<string>, item: CatItem)
    returns (r: seq<PoolItem>, ids: set<int>, nicks: set<string>)
    requires usedIds == Ids(out) && usedNicks == Nicks(out)
    ensures r == TryAdd(out, item) && ids == Ids(r) && nicks == Nicks(r)
  {
    r, ids, nicks := out, usedIds, usedNicks;
    ClashMeaning(out, item);
    if item.id <= 0 || item.id in usedIds || item.nick == "" || item.nick in usedNicks {
      return;
    }
    ids := ids + {item.id};
    nicks := nicks + {item.nick};
    r := out + [ToPool(item, false)];
    assert Ids(r) == Ids(out) + {item.id} && Nicks(r) == Nicks(out) + {item.nick};
  }

  method FindFirst(items: seq<CatItem>, id: int) returns (r: Option<CatItem>)
    ensures r == FirstWithId(items, id)
  {
    var i := 0;
    while i < |items|
      invariant 0 <= i <= |items|
      invariant FirstWithId(items, id) == FirstWithId(items[i..], id)
    {
      if items[i].id == id {
        return Some(items[i]);
      }
      assert items[i..][1..] == items[i + 1..];
      i := i + 1;
    }
    r := None;
  }

  method PickChars(items: seq<CatItem>, shuffle: seq<CatItem> -> seq<CatItem>) returns (out: seq<PoolItem>)
    ensures out == Chars(items, shuffle)
  {
    hide TryAdd, Clashes, Ids, Nicks, FirstWithId;
    var ids: set<int>, nicks: set<string> := {}, {};
    out := [];
    NobodyUsed();
    var k := 0;
    while k < |FIXED_CHARS|
      invariant 0 <= k <= |FIXED_CHARS|
      invariant out == FixedUpTo(items, k) && ids == Ids(out) && nicks == Nicks(out)
    {
      if |out| < CHAR_COUNT {
        var found := FindFirst(items, FIXED_CHARS[k]);
        if found.Some? {
          out, ids, nicks := AddIfFree(out, ids, nicks, found.value);
        }
      }
      k := k + 1;
    }
    if |out| >= CHAR_COUNT {
      return;
    }
    var copy := CollectSpare(items, out, ids, nicks);
    var spares := shuffle(copy);
    ghost var fixed := out;
    k := 0;
    while k < |spares|
      invariant 0 <= k <= |spares|
      invariant out == Fill(fixed, spares, k) && ids == Ids(out) && nicks == Nicks(out)
    {
      if |out| < CHAR_COUNT {
        out, ids, nicks := AddIfFree(out, ids, nicks, spares[k]);
      }
      k := k + 1;
    }
  }

  lemma NobodyUsed()
    ensures Ids([]) == {} && Nicks([]) == {}
  {}

  method CollectSpare(items: seq<CatItem>, out: seq<PoolItem>, ids: set<int>, nicks: set<string>)
    returns (copy: seq<CatItem>)
    requires ids == Ids(out) && nicks == Nicks(out)
    ensures copy == Spare(items, out)
  {
    copy := [];
    var i := 0;
    while i < |items|
      invariant 0 <= i <= |items|
      invariant copy == Spare(items[..i], out)
    {
      assert items[..i + 1][..i] == items[..i];
      ClashMeaning(out, items[i]);
      if items[i].id > 0 && items[i].nick != "" && items[i].id !in ids && items[i].nick !in nicks {
        copy := copy + [items[i]];
      }
      i := i + 1;
    }
    assert items[..i] == items;
  }

  method PickIds(items: seq<CatItem>, ids: seq<int>) returns (r: Result<seq<PoolItem>>)
    ensures r == ByIds(items, ids)
  {
    var out: seq<PoolItem> := [];
    var i := 0;
    while i < |ids|
      invariant 0 <= i <= |ids|
      invariant ByIds(items, ids[..i]) == Success(out)
    {
      var found := FindFirst(items, ids[i]);
      assert ids[..i + 1][..i] == ids[..i];
      if found.None? {
        ByIdsPlain(items, ids);
        ByIdsFails(items, ids);
        return Failure("first period id missing");
      }
      out := out + [ToPool(found.value, false)];
      i := i + 1;
    }
    assert ids[..i] == ids;
    r := Success(out);
  }

  lemma {:induction false} ByIdsFails(items: seq<CatItem>, ids: seq<int>)
    ensures ByIds(items, ids).Failure? ==> ByIds(items, ids) == Failure("first period id missing")
  {
    if ids != [] {
      ByIdsFails(items, ids[..|ids| - 1]);
    }
  }

  method AdvertisedGrade(items: seq<PoolItem>) returns (grade: int)
    ensures grade == FeaturedGrade(items)
  {
    var i := 0;
    while i < |items|
      invariant 0 <= i <= |items|
      invariant FeaturedGrade(items) == FeaturedGrade(items[i..])
    {
      if items[i].graded {
        return items[i].star;
      }
      assert items[i..][1..] == items[i + 1..];
      i := i + 1;
    }
    grade := 0;
  }

  /** The check on refreshing: it accepts exactly what `RefreshAccepts` says; a graded star of zero
      would not be noticed, but drawn stars are positive. */
  method CheckGraded(items: seq<PoolItem>) returns (ok: bool)
    requires forall x :: x in items && x.graded ==> x.star != 0
    ensures ok <==> RefreshAccepts(items)
  {
    var count, star := 0, 0;
    var i := 0;
    while i < |items|
      invariant 0 <= i <= |items|
      invariant count == |Graded(items[..i])|
      invariant star == if count == 0 then 0 else Graded(items[..i])[0].star
      invariant count > 0 ==> star != 0
      invariant forall j :: 0 <= j < count ==> Graded(items[..i])[j].star == star
      invariant Graded(items[..i]) <= Graded(items)
    {
      GradedGrows(items, i);
      assert items[..i + 1][..i] == items[..i];
      assert items[i] in items;
      if items[i].graded {
        count := count + 1;
        if star == 0 {
          star := items[i].star;
        } else if items[i].star != star {
          assert Graded(items)[count - 1].star != Graded(items)[0].star;
          return false;
        }
      }
      i := i + 1;
    }
    assert items[..i] == items;
    ok := count <= GRADED_MAX;
  }

  lemma {:induction false} GradedGrows(items: seq<PoolItem>, i: nat)
    requires i < |items|
    ensures Graded(items[..i + 1]) <= Graded(items)
    decreases |items|
  {
    if i + 1 < |items| {
      GradedGrows(items[..|items| - 1], i);
      assert items[..|items| - 1][..i + 1] == items[..i + 1];
    } else {
      assert items[..i + 1] == items;
    }
  }
}
