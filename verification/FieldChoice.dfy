/** Which fields of a large object are shown: the ranking of its entries, the small facts
    taken first, and the large ones that share what is left. */
module FieldChoice {
  import opened Options
  import opened Json
  import opened JsonSize
  import opened KeyOrder
  import opened BoundedJson
  import opened ObjectFit

  datatype Entry = Entry(key: string, size: nat)

  function KeyCost(key: string): nat { StringSize(key) + 2 }

  function Runes(s: string): seq<nat> { seq(|s|, i requires 0 <= i < |s| => s[i] as int) }

  /** Byte order of two UTF-8 strings, which is their code point order. */
  predicate RuneLess(a: string, b: string) { Before(Runes(a), Runes(b)) }

  function Rank(priority: Priority, key: string): int {
    if priority.Some? then priority.value(key) else 0
  }

  predicate ByRank(priority: Priority, a: Entry, b: Entry) {
    if Rank(priority, a.key) != Rank(priority, b.key) then Rank(priority, a.key) < Rank(priority, b.key)
    else if a.size != b.size then a.size < b.size
    else RuneLess(a.key, b.key)
  }

  predicate BySize(a: Entry, b: Entry) {
    if a.size != b.size then a.size > b.size else RuneLess(a.key, b.key)
  }

  function RankOrder(priority: Priority): (Entry, Entry) -> bool {
    (a: Entry, b: Entry) => ByRank(priority, a, b)
  }

  lemma RunesInjective(a: string, b: string)
    requires Runes(a) == Runes(b)
    ensures a == b
  {
    assert |a| == |Runes(a)| && |b| == |Runes(b)|;
    forall i | 0 <= i < |a|
      ensures a[i] == b[i]
    {
      assert Runes(a)[i] == Runes(b)[i];
    }
  }

  lemma RuneLessIsStrictTotal()
    ensures StrictTotal(RuneLess)
  {
    forall a: string
      ensures !RuneLess(a, a)
    {
      BeforeIrreflexive(Runes(a));
    }
    forall a: string, b: string | a != b
      ensures RuneLess(a, b) || RuneLess(b, a)
    {
      if Runes(a) == Runes(b) { RunesInjective(a, b); }
      BeforeTotal(Runes(a), Runes(b));
    }
    forall a: string, b: string, c: string | RuneLess(a, b) && RuneLess(b, c)
      ensures RuneLess(a, c)
    {
      BeforeTransitive(Runes(a), Runes(b), Runes(c));
    }
  }

  /** Both orders are total, so any correct sort ranks the entries the same way. */
  lemma EntryOrdersAreStrictTotal(priority: Priority)
    ensures StrictTotal(RankOrder(priority)) && StrictTotal(BySize)
  {
    RuneLessIsStrictTotal();
  }

  lemma RankingIsUnique(priority: Priority, a: seq<Entry>, b: seq<Entry>)
    requires multiset(a) == multiset(b)
    ensures Sorted(a, RankOrder(priority)) == Sorted(b, RankOrder(priority)) && Sorted(a, BySize) == Sorted(b, BySize)
  {
    EntryOrdersAreStrictTotal(priority);
    SortsAgree(a, b, RankOrder(priority));
    SortsAgree(a, b, BySize);
  }

  lemma SortsAgree(a: seq<Entry>, b: seq<Entry>, less: (Entry, Entry) -> bool)
    requires StrictTotal(less) && multiset(a) == multiset(b)
    ensures Sorted(a, less) == Sorted(b, less)
  {
    SortedHolds(a, less);
    SortedHolds(b, less);
    SortedOrdered(a, less);
    SortedOrdered(b, less);
    OrderedUnique(Sorted(a, less), Sorted(b, less), less);
  }

  function AllEntries(j: Json): set<Entry>
    requires j.Obj?
  {
    set k | k in j.fields :: Entry(k, EntryCost(k, j.fields[k]))
  }

  /** Some entries of the object, each at most once. */
  ghost predicate EntriesOf(j: Json, entries: seq<Entry>)
    requires j.Obj?
  {
    multiset(entries) <= multiset(AllEntries(j))
  }

  lemma EntryIsField(j: Json, entries: seq<Entry>, i: nat)
    requires j.Obj? && EntriesOf(j, entries) && i < |entries|
    ensures entries[i].key in j.fields && entries[i].size == EntryCost(entries[i].key, j.fields[entries[i].key])
  {
    assert entries[i] in multiset(entries);
  }

  lemma TwiceCounts(entries: seq<Entry>, a: nat, b: nat)
    requires a < b < |entries| && entries[a] == entries[b]
    ensures 2 <= multiset(entries)[entries[a]]
  {
    var e := entries[a];
    assert entries == entries[..b] + [e] + entries[b + 1..];
    assert entries[..b] == entries[..a] + [e] + entries[a + 1..b];
  }

  lemma EntriesDiffer(j: Json, entries: seq<Entry>, a: nat, b: nat)
    requires j.Obj? && EntriesOf(j, entries) && a < b < |entries|
    ensures entries[a].key != entries[b].key
  {
    EntryIsField(j, entries, a);
    EntryIsField(j, entries, b);
    if entries[a] == entries[b] {
      TwiceCounts(entries, a, b);
    }
  }

  lemma PartOfEntries(j: Json, entries: seq<Entry>, part: seq<Entry>)
    requires j.Obj? && EntriesOf(j, entries) && multiset(part) <= multiset(entries)
    ensures EntriesOf(j, part)
  {
  }

  lemma PrefixPart(entries: seq<Entry>, n: nat)
    requires n <= |entries|
    ensures multiset(entries[..n]) <= multiset(entries)
  {
    assert entries == entries[..n] + entries[n..];
  }

  // ----------------------------------------------------------------- ranking

  function EntryOf(j: Json, k: string): Entry
    requires j.Obj? && k in j.fields
  {
    Entry(k, EntryCost(k, j.fields[k]))
  }

  function EntryList(j: Json, keys: set<string>): seq<Entry>
    requires j.Obj? && keys <= j.fields.Keys
  {
    if keys == {} then []
    else
      var k := LeastKey(keys);
      EntryList(j, keys - {k}) + [EntryOf(j, k)]
  }

  lemma {:induction false} EntryListHolds(j: Json, keys: set<string>)
    requires j.Obj? && keys <= j.fields.Keys
    ensures multiset(EntryList(j, keys)) == multiset(set k | k in keys :: EntryOf(j, k))
  {
    if keys != {} {
      var k := LeastKey(keys);
      var rest := set x | x in keys - {k} :: EntryOf(j, x);
      EntryListHolds(j, keys - {k});
      assert EntryOf(j, k) !in rest;
      assert (set x | x in keys :: EntryOf(j, x)) == rest + {EntryOf(j, k)};
    }
  }

  /** The entries in rank order. */
  function Ranking(j: Json, priority: Priority): seq<Entry>
    requires j.Obj?
  {
    Sorted(EntryList(j, j.fields.Keys), RankOrder(priority))
  }

  /** Any walk of the map ranks its entries the same way. */
  lemma AnyWalkRanks(j: Json, priority: Priority, walk: seq<Entry>)
    requires j.Obj? && multiset(walk) == multiset(AllEntries(j))
    ensures Sorted(walk, RankOrder(priority)) == Ranking(j, priority)
  {
    var keys := j.fields.Keys;
    EntryListHolds(j, keys);
    assert (set k | k in keys :: EntryOf(j, k)) == AllEntries(j);
    RankingIsUnique(priority, walk, EntryList(j, keys));
  }

  lemma RankingHolds(j: Json, priority: Priority)
    requires j.Obj?
    ensures multiset(Ranking(j, priority)) == multiset(AllEntries(j)) && Ordered(Ranking(j, priority), RankOrder(priority))
  {
    var keys := j.fields.Keys;
    EntryListHolds(j, keys);
    assert (set k | k in keys :: EntryOf(j, k)) == AllEntries(j);
    SortedHolds(EntryList(j, keys), RankOrder(priority));
    EntryOrdersAreStrictTotal(priority);
    SortedOrdered(EntryList(j, keys), RankOrder(priority));
  }

  /** A ranked list of all entries is the ranking. */
  lemma OnlyRanking(j: Json, priority: Priority, entries: seq<Entry>)
    requires j.Obj? && multiset(entries) == multiset(AllEntries(j)) && Ordered(entries, RankOrder(priority))
    ensures entries == Ranking(j, priority)
  {
    RankingHolds(j, priority);
    EntryOrdersAreStrictTotal(priority);
    OrderedUnique(entries, Ranking(j, priority), RankOrder(priority));
  }

  // ------------------------------------------------------------- small facts

  datatype Picked = Picked(keys: set<string>, used: int)

  /** The small facts are taken greedily, in rank order, while half the budget lasts. */
  function TakeSmall(p: Picked, e: Entry, limit: int): Picked {
    if e.size > SMALL_ENTRY_BYTES || p.used + e.size > limit then p else Picked(p.keys + {e.key}, p.used + e.size)
  }

  function SmallOf(entries: seq<Entry>, n: nat, limit: int): Picked
    requires n <= |entries|
  {
    if n == 0 then Picked({}, 2) else TakeSmall(SmallOf(entries, n - 1, limit), entries[n - 1], limit)
  }

  lemma {:induction false} SmallAreEarlier(entries: seq<Entry>, n: nat, limit: int, k: string)
    requires n <= |entries| && k in SmallOf(entries, n, limit).keys
    ensures exists i :: 0 <= i < n && entries[i].key == k
  {
    if k in SmallOf(entries, n - 1, limit).keys {
      SmallAreEarlier(entries, n - 1, limit, k);
    } else {
      assert entries[n - 1].key == k;
    }
  }

  lemma NextIsNew(j: Json, entries: seq<Entry>, n: nat, limit: int)
    requires j.Obj? && EntriesOf(j, entries) && n < |entries|
    ensures entries[n].key !in SmallOf(entries, n, limit).keys
  {
    if entries[n].key in SmallOf(entries, n, limit).keys {
      SmallAreEarlier(entries, n, limit, entries[n].key);
      var i :| 0 <= i < n && entries[i].key == entries[n].key;
      EntriesDiffer(j, entries, i, n);
    }
  }

  /** The used counter is the weight of what was picked. */
  ghost predicate Weighs(j: Json, p: Picked, limit: int)
    requires j.Obj?
  {
    p.keys <= j.fields.Keys && p.used == 2 + Weight(Restrict(j.fields, p.keys)) && p.used <= Max(2, limit)
  }

  lemma RestrictMore(fields: Fields, keys: set<string>, k: string)
    requires k in fields && k !in keys
    ensures Weight(Restrict(fields, keys + {k})) == Weight(Restrict(fields, keys)) + EntryCost(k, fields[k])
  {
    assert Restrict(fields, keys + {k}) == Restrict(fields, keys)[k := fields[k]];
    WeightAdds(Restrict(fields, keys), k, fields[k]);
  }

  lemma NothingWeighs(fields: Fields)
    ensures Weight(Restrict(fields, {})) == 0
  {
    assert Restrict(fields, {}) == map[];
  }

  lemma TakeWeighs(j: Json, p: Picked, e: Entry, limit: int)
    requires j.Obj? && Weighs(j, p, limit) && e.key in j.fields && e.key !in p.keys && e.size == EntryCost(e.key, j.fields[e.key])
    ensures Weighs(j, TakeSmall(p, e, limit), limit)
  {
    RestrictMore(j.fields, p.keys, e.key);
  }

  lemma {:induction false} SmallWeight(j: Json, entries: seq<Entry>, n: nat, limit: int)
    requires j.Obj? && EntriesOf(j, entries) && n <= |entries|
    ensures Weighs(j, SmallOf(entries, n, limit), limit)
  {
    if n == 0 {
      NothingWeighs(j.fields);
    } else {
      SmallWeight(j, entries, n - 1, limit);
      NextIsNew(j, entries, n - 1, limit);
      EntryIsField(j, entries, n - 1);
      TakeWeighs(j, SmallOf(entries, n - 1, limit), entries[n - 1], limit);
    }
  }

  /** An entry is picked at its turn or never. */
  lemma {:induction false} PickedAtItsTurn(j: Json, entries: seq<Entry>, n: nat, limit: int, i: nat)
    requires j.Obj? && EntriesOf(j, entries) && i < n <= |entries|
    ensures entries[i].key in SmallOf(entries, n, limit).keys <==>
            entries[i].size <= SMALL_ENTRY_BYTES && SmallOf(entries, i, limit).used + entries[i].size <= limit
  {
    if i == n - 1 {
      NextIsNew(j, entries, i, limit);
    } else {
      PickedAtItsTurn(j, entries, n - 1, limit, i);
      EntriesDiffer(j, entries, i, n - 1);
    }
  }

  /** The bytes of the braces and of those among the first entries that are in `keys`. */
  function Spent(entries: seq<Entry>, n: nat, keys: set<string>): nat
    requires n <= |entries|
  {
    if n == 0 then 2 else Spent(entries, n - 1, keys) + if entries[n - 1].key in keys then entries[n - 1].size else 0
  }

  lemma {:induction false} UsedIsSpent(j: Json, entries: seq<Entry>, i: nat, n: nat, limit: int)
    requires j.Obj? && EntriesOf(j, entries) && i <= n <= |entries|
    ensures SmallOf(entries, i, limit).used == Spent(entries, i, SmallOf(entries, n, limit).keys)
  {
    if i > 0 {
      UsedIsSpent(j, entries, i - 1, n, limit);
      PickedAtItsTurn(j, entries, n, limit, i - 1);
    }
  }

  // ------------------------------------------------------------- large facts

  function WithoutKeys(entries: seq<Entry>, keys: set<string>): seq<Entry> {
    if entries == [] then []
    else
      var e := entries[|entries| - 1];
      WithoutKeys(entries[..|entries| - 1], keys) + if e.key in keys then [] else [e]
  }

  lemma {:induction false} WithoutKeysPart(entries: seq<Entry>, keys: set<string>)
    ensures multiset(WithoutKeys(entries, keys)) <= multiset(entries)
  {
    if entries != [] {
      var front := entries[..|entries| - 1];
      WithoutKeysPart(front, keys);
      assert entries == front + [entries[|entries| - 1]];
    }
  }

  lemma {:induction false} WithoutKeysAvoid(entries: seq<Entry>, keys: set<string>, i: nat)
    requires i < |WithoutKeys(entries, keys)|
    ensures WithoutKeys(entries, keys)[i].key !in keys
  {
    var front := entries[..|entries| - 1];
    if i < |WithoutKeys(front, keys)| { WithoutKeysAvoid(front, keys, i); }
  }

  /** The largest of the entries not taken, at most eight. */
  function LargeOf(entries: seq<Entry>, keys: set<string>): seq<Entry> {
    var rest := Sorted(WithoutKeys(entries, keys), BySize);
    if |rest| > MAX_LARGE_ENTRIES then rest[..MAX_LARGE_ENTRIES] else rest
  }

  lemma LargeArePart(entries: seq<Entry>, keys: set<string>)
    ensures multiset(LargeOf(entries, keys)) <= multiset(entries)
    ensures forall i :: 0 <= i < |LargeOf(entries, keys)| ==> LargeOf(entries, keys)[i].key !in keys
  {
    var rest := WithoutKeys(entries, keys);
    WithoutKeysPart(entries, keys);
    SortedHolds(rest, BySize);
    var sorted := Sorted(rest, BySize);
    if |sorted| > MAX_LARGE_ENTRIES { PrefixPart(sorted, MAX_LARGE_ENTRIES); }
    forall i | 0 <= i < |LargeOf(entries, keys)|
      ensures LargeOf(entries, keys)[i].key !in keys
    {
      assert sorted[i] in multiset(rest);
      var k :| 0 <= k < |rest| && rest[k] == sorted[i];
      WithoutKeysAvoid(entries, keys, k);
    }
  }

  lemma {:induction false} WithoutKeysKeeps(entries: seq<Entry>, keys: set<string>, i: nat)
    requires i < |entries| && entries[i].key !in keys
    ensures entries[i] in WithoutKeys(entries, keys)
  {
    var front := entries[..|entries| - 1];
    if i < |front| { WithoutKeysKeeps(front, keys, i); }
  }

  /** The largest entries outside `keys`: in order of size, eight or all of them, and none
      that is passed over is larger. */
  ghost predicate Largest(entries: seq<Entry>, keys: set<string>, large: seq<Entry>) {
    && Ordered(large, BySize) && (forall a, b :: 0 <= a < b < |large| ==> large[a].size >= large[b].size)
    && (forall e :: e in large ==> e in entries && e.key !in keys)
    && |large| <= 8
    && forall e :: e in entries && e.key !in keys && e !in large ==>
         |large| == 8 && forall l :: l in large ==> BySize(l, e) && l.size >= e.size
  }

  lemma LargeAreOutside(entries: seq<Entry>, keys: set<string>, e: Entry)
    requires e in LargeOf(entries, keys)
    ensures e in entries && e.key !in keys
  {
    LargeArePart(entries, keys);
    assert e in multiset(LargeOf(entries, keys));
  }

  lemma OthersAreSmaller(entries: seq<Entry>, keys: set<string>, e: Entry)
    requires e in entries && e.key !in keys && e !in LargeOf(entries, keys)
    ensures |LargeOf(entries, keys)| == 8 && forall l :: l in LargeOf(entries, keys) ==> BySize(l, e)
  {
    var rest := WithoutKeys(entries, keys);
    var i :| 0 <= i < |entries| && entries[i] == e;
    WithoutKeysKeeps(entries, keys, i);
    SortedHolds(rest, BySize);
    EntryOrdersAreStrictTotal(None);
    SortedOrdered(rest, BySize);
    assert e in multiset(Sorted(rest, BySize));
    LaterIsSmaller(Sorted(rest, BySize), LargeOf(entries, keys), e);
  }

  lemma LargeIsLargest(entries: seq<Entry>, keys: set<string>)
    ensures Largest(entries, keys, LargeOf(entries, keys))
  {
    var large := LargeOf(entries, keys);
    EntryOrdersAreStrictTotal(None);
    SortedOrdered(WithoutKeys(entries, keys), BySize);
    forall e | e in large
      ensures e in entries && e.key !in keys
    {
      LargeAreOutside(entries, keys, e);
    }
    forall e | e in entries && e.key !in keys && e !in large
      ensures |large| == 8 && forall l :: l in large ==> BySize(l, e)
    {
      OthersAreSmaller(entries, keys, e);
    }
  }

  lemma LaterIsSmaller(sorted: seq<Entry>, large: seq<Entry>, e: Entry)
    requires Ordered(sorted, BySize) && e in sorted && e !in large
    requires large == if |sorted| > MAX_LARGE_ENTRIES then sorted[..MAX_LARGE_ENTRIES] else sorted
    ensures |large| == 8 && forall l :: l in large ==> BySize(l, e)
  {
    var k :| 0 <= k < |sorted| && sorted[k] == e;
    assert k >= |large|;
  }

  // -------------------------------------------------------------- the choice

  /** The small facts of an object, as they are. */
  function SmallKeys(j: Json, budget: int, priority: Priority): set<string>
    requires j.Obj?
  {
    var entries := Ranking(j, priority);
    SmallOf(entries, |entries|, Max(0, budget / 2)).keys
  }

  function SmallFields(j: Json, budget: int, priority: Priority): Fields
    requires j.Obj?
  {
    Restrict(j.fields, SmallKeys(j, budget, priority))
  }

  function LargeEntries(j: Json, budget: int, priority: Priority): seq<Entry>
    requires j.Obj?
  {
    LargeOf(Ranking(j, priority), SmallKeys(j, budget, priority))
  }

  /** The small facts exactly: the entry at any rank is kept as it is if and only if it has
      at most 512 bytes and fits half the budget beside the kept ones ranked before it. */
  lemma SmallFactsAreGreedy(j: Json, budget: int, priority: Priority, i: nat)
    requires j.Obj? && i < |Ranking(j, priority)|
    ensures var r, keys := Ranking(j, priority), SmallKeys(j, budget, priority);
            r[i].key in keys <==> r[i].size <= 512 && Spent(r, i, keys) + r[i].size <= Max(0, budget / 2)
  {
    var r := Ranking(j, priority);
    RankingHolds(j, priority);
    PickedAtItsTurn(j, r, |r|, Max(0, budget / 2), i);
    UsedIsSpent(j, r, i, |r|, Max(0, budget / 2));
  }

  /** The ranking: by priority, then small before large. */
  lemma RankedThenBySize(j: Json, priority: Priority, a: nat, b: nat)
    requires j.Obj? && a < b < |Ranking(j, priority)|
    ensures var x, y := Ranking(j, priority)[a], Ranking(j, priority)[b];
            Rank(priority, x.key) < Rank(priority, y.key) || (Rank(priority, x.key) == Rank(priority, y.key) && x.size <= y.size)
  {
    RankingHolds(j, priority);
    var x, y := Ranking(j, priority)[a], Ranking(j, priority)[b];
    assert RankOrder(priority)(x, y) || x == y;
  }

  /** The large facts exactly: the eight largest of the entries that are not small facts. */
  lemma LargeFactsAreLargest(j: Json, budget: int, priority: Priority)
    requires j.Obj?
    ensures multiset(Ranking(j, priority)) == multiset(AllEntries(j))
    ensures Largest(Ranking(j, priority), SmallKeys(j, budget, priority), LargeEntries(j, budget, priority))
  {
    RankingHolds(j, priority);
    LargeIsLargest(Ranking(j, priority), SmallKeys(j, budget, priority));
  }

  /** The fields kept so far and the bytes they use. */
  datatype Keeping = Keeping(fields: Fields, used: int)

  function Keep(fields: Fields): Keeping { Keeping(fields, 2 + Weight(fields)) }

  /** What is left for large facts once the marker's reserve is set aside. */
  function Room(budget: int, kept: Keeping): int {
    budget - Min(CONTAINER_OVERHEAD, budget / 3) - kept.used
  }

  /** The large facts share the room equally: `left` of them are still to come. */
  function ShareOf(room: int, left: nat, key: string): int
    requires 0 < left
  {
    Max(64, room / left - KeyCost(key))
  }

  /** The share is the most that each of those to come could have beside its key, if that is
      above the floor of 64. */
  lemma ShareIsEqual(room: int, left: nat, key: string)
    requires 0 < left
    ensures var s := ShareOf(room, left, key);
            && 64 <= s
            && room < left * (s + KeyCost(key) + 1)
            && (64 < s ==> left * (s + KeyCost(key)) <= room)
  {
    var q := room / left;
    assert room == left * q + room % left;
    var s := ShareOf(room, left, key);
    assert q <= s + KeyCost(key);
    assert left * q <= left * (s + KeyCost(key));
  }

  /** The share of the large entry `i`. */
  function Share(budget: int, kept: Keeping, large: seq<Entry>, i: nat): int
    requires i < |large|
  {
    ShareOf(Room(budget, kept), |large| - i, large[i].key)
  }

  /** A summary is kept if the room holds it. */
  function Taken(budget: int, kept: Keeping, key: string, v: Json): Keeping {
    if EntryCost(key, v) > Room(budget, kept) then kept
    else Keeping(kept.fields[key := v], kept.used + EntryCost(key, v))
  }

  /** The small facts leave the reserve free. */
  lemma SmallHasRoom(j: Json, budget: int, priority: Priority)
    requires j.Obj? && CONTAINER_OVERHEAD <= budget
    ensures SmallFields(j, budget, priority).Keys == SmallKeys(j, budget, priority) <= j.fields.Keys
    ensures 0 <= Room(budget, Keep(SmallFields(j, budget, priority)))
  {
    RankingHolds(j, priority);
    var entries := Ranking(j, priority);
    SmallWeight(j, entries, |entries|, Max(0, budget / 2));
    RestrictKeys(j.fields, SmallKeys(j, budget, priority));
  }

  /** Fields of the object to which entries from `i` on are still to be added. */
  ghost predicate Open(j: Json, large: seq<Entry>, i: nat, kept: Keeping, budget: int)
    requires j.Obj?
  {
    && kept == Keep(kept.fields) && kept.fields.Keys <= j.fields.Keys && 0 <= Room(budget, kept)
    && (forall a :: i <= a < |large| ==> large[a].key in j.fields && large[a].key !in kept.fields)
    && (forall a, b :: 0 <= a < b < |large| ==> large[a].key != large[b].key)
  }

  lemma StartsOpen(j: Json, budget: int, priority: Priority)
    requires j.Obj? && CONTAINER_OVERHEAD <= budget
    ensures Open(j, LargeEntries(j, budget, priority), 0, Keep(SmallFields(j, budget, priority)), budget)
  {
    var entries, keys, large := Ranking(j, priority), SmallKeys(j, budget, priority), LargeEntries(j, budget, priority);
    SmallHasRoom(j, budget, priority);
    RankingHolds(j, priority);
    LargeArePart(entries, keys);
    PartOfEntries(j, entries, large);
    forall a | 0 <= a < |large|
      ensures large[a].key in j.fields && large[a].key !in SmallFields(j, budget, priority)
    {
      EntryIsField(j, large, a);
    }
    forall a, b | 0 <= a < b < |large|
      ensures large[a].key != large[b].key
    {
      EntriesDiffer(j, large, a, b);
    }
  }

  /** Nothing is lost. */
  ghost predicate Grows(kept: Fields, more: Fields) {
    kept.Keys <= more.Keys && forall k :: k in kept ==> more[k] == kept[k]
  }

  lemma StaysOpen(j: Json, large: seq<Entry>, i: nat, kept: Keeping, budget: int, v: Json)
    requires j.Obj? && i < |large| && Open(j, large, i, kept, budget)
    ensures Open(j, large, i + 1, Taken(budget, kept, large[i].key, v), budget)
    ensures Grows(kept.fields, Taken(budget, kept, large[i].key, v).fields)
  {
    WeightAdds(kept.fields, large[i].key, v);
  }

  lemma GrowsOn(a: Fields, b: Fields, c: Fields)
    requires Grows(a, b) && Grows(b, c)
    ensures Grows(a, c)
  {
  }
}
