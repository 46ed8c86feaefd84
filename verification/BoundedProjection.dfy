/** The recursive projection itself: budgets are split over items and fields, and a
    shown object sheds its largest fields until it fits. */
module BoundedProjection {
  import opened Options
  import opened Json
  import opened JsonSize
  import opened KeyOrder
  import opened BoundedJson
  import opened Observation
  import opened JsonEncoding
  import opened EncodedBudget
  import opened ObjectFit
  import opened Shedding
  import opened FieldChoice
  import opened ProjectionResults

  // ------------------------------------------------------- ranking the entries

  method ListEntries(j: Json) returns (entries: seq<Entry>)
    requires j.Obj?
    ensures multiset(entries) == multiset(AllEntries(j))
  {
    ghost var done: set<Entry> := {};
    var rest := j.fields.Keys;
    entries := [];
    while rest != {}
      invariant rest <= j.fields.Keys
      invariant multiset(entries) == multiset(done)
      invariant done == set k | k in j.fields.Keys - rest :: Entry(k, EntryCost(k, j.fields[k]))
    {
      var k :| k in rest;
      var e := Entry(k, EntryCost(k, j.fields[k]));
      assert e !in done;
      entries, rest, done := entries + [e], rest - {k}, done + {e};
    }
    assert done == AllEntries(j);
  }

  method RankEntries(j: Json, priority: Priority) returns (entries: seq<Entry>)
    requires j.Obj?
    ensures entries == Ranking(j, priority)
  {
    var walk := ListEntries(j);
    AnyWalkRanks(j, priority, walk);
    entries := Sorted(walk, RankOrder(priority));
  }

  ghost predicate Copied(j: Json, kept: Fields)
    requires j.Obj?
  {
    forall k :: k in kept ==> k in j.fields && kept[k] == j.fields[k]
  }

  lemma TakeField(j: Json, kept: Fields, k: string)
    requires j.Obj? && Copied(j, kept) && k in j.fields
    ensures Copied(j, kept[k := j.fields[k]])
  {
  }

  lemma OneMoreKey(kept: Fields, k: string, v: Json)
    ensures kept[k := v].Keys == kept.Keys + {k}
  {
  }

  method SelectSmall(j: Json, entries: seq<Entry>, budget: int) returns (kept: Fields, used: int)
    requires j.Obj? && EntriesOf(j, entries)
    ensures kept.Keys == SmallOf(entries, |entries|, Max(0, budget / 2)).keys && Copied(j, kept)
    ensures used == 2 + Weight(kept) && used <= Max(2, budget / 2)
  {
    kept, used := map[], 2;
    var smallLimit := Max(0, budget / 2);
    ghost var picked := Picked({}, 2);
    for i := 0 to |entries|
      invariant picked == SmallOf(entries, i, smallLimit) && picked == Picked(kept.Keys, used)
      invariant Copied(j, kept) && used == 2 + Weight(kept) && used <= Max(2, smallLimit)
    {
      var e := entries[i];
      EntryIsField(j, entries, i);
      NextIsNew(j, entries, i, smallLimit);
      picked := TakeSmall(picked, e, smallLimit);
      if e.size > SMALL_ENTRY_BYTES || used + e.size > smallLimit {
        continue;
      }
      TakeField(j, kept, e.key);
      OneMoreKey(kept, e.key, j.fields[e.key]);
      WeightAdds(kept, e.key, j.fields[e.key]);
      kept, used := kept[e.key := j.fields[e.key]], used + e.size;
    }
  }

  method Unselected(entries: seq<Entry>, kept: Fields) returns (large: seq<Entry>)
    ensures large == LargeOf(entries, kept.Keys)
  {
    large := [];
    for i := 0 to |entries|
      invariant large == WithoutKeys(entries[..i], kept.Keys)
    {
      assert entries[..i + 1][..i] == entries[..i];
      if entries[i].key !in kept {
        large := large + [entries[i]];
      }
    }
    assert entries[..|entries|] == entries;
    large := Sorted(large, BySize);
    if |large| > MAX_LARGE_ENTRIES {
      large := large[..MAX_LARGE_ENTRIES];
    }
  }

  // ------------------------------------------------------------ the recursion

  method ProjectValue(j: Json, budget: int, priority: Priority, hash: Hash) returns (out: Json)
    ensures Result(j, budget, priority, hash, out)
    ensures Size(j) <= budget ==> out == j
    ensures budget < Size(j) ==> Bounded(j, out, budget, hash)
    ensures Faithful(j, out, hash) && Observes(j, out, hash)
    decreases j, 7
  {
    if Size(j) <= budget {
      return j;
    }
    out := SummarizeValue(j, budget, priority, hash);
    ResultIsBounded(j, budget, priority, hash, out);
    FaithfulObserves(j, out, hash);
  }

  method SummarizeValue(j: Json, budget: int, priority: Priority, hash: Hash) returns (out: Json)
    requires budget < Size(j)
    ensures Result(j, budget, priority, hash, out)
    decreases j, 6
  {
    match j
    case Str(s) =>
      out := SummarizeString(s, budget, hash);
    case Arr(_) =>
      out := SummarizeArray(j, budget, priority, hash);
    case Obj(_) =>
      out := ProjectObject(j, budget, priority, hash);
    case _ =>
      out := CutScalar(j, budget, hash);
  }

  method ProjectItems(j: Json, from: nat, count: nat, budget: int, priority: Priority, hash: Hash) returns (shown: seq<Json>)
    requires j.Arr? && from + count <= |j.items|
    ensures |shown| == count && Items(j, from, budget, priority, hash, shown)
    decreases j, 2
  {
    shown := [];
    for i := 0 to count
      invariant |shown| == i && Items(j, from, budget, priority, hash, shown)
    {
      var item := ProjectValue(j.items[from + i], budget, priority, hash);
      ItemsMore(j, from, budget, priority, hash, shown, item);
      shown := shown + [item];
    }
  }

  /** The samples of a non-empty array. */
  method SampleItems(j: Json, itemBudget: int, priority: Priority, hash: Hash) returns (head: seq<Json>, tail: seq<Json>)
    requires j.Arr? && j.items != []
    ensures Samples(j, itemBudget, priority, hash, head, tail)
    decreases j, 3, 0
  {
    var n := |j.items|;
    var headCount := Min(2, n);
    var tailCount := Min(2, Max(0, n - headCount));
    head := ProjectItems(j, 0, headCount, itemBudget, priority, hash);
    tail := ProjectItems(j, n - tailCount, tailCount, itemBudget, priority, hash);
  }

  method SummarizeArray(j: Json, budget: int, priority: Priority, hash: Hash) returns (out: Json)
    requires j.Arr?
    ensures ArrayResult(j, budget, priority, hash, out) && Bounded(j, out, budget, hash)
    decreases j, 5
  {
    if budget > CONTAINER_OVERHEAD && |j.items| > 0 {
      var head, tail := SampleItems(j, Max(64, (budget - CONTAINER_OVERHEAD) / 4), priority, hash);
      out := FitCut(ArrayDetail(j, head, tail, hash), budget);
    } else {
      out := FitCut(ArrayMarker(j, hash), budget);
    }
    ArrayResultIsBounded(j, budget, priority, hash, out);
  }

  /** One large entry's turn: its summary within its share, kept if the reserve stays free. */
  method AddOne(j: Json, key: string, kept: Fields, used: int, left: nat, budget: int, priority: Priority, hash: Hash)
    returns (more: Fields, moreUsed: int)
    requires j.Obj? && key in j.fields && 0 < left && 64 < Room(budget, Keeping(kept, used))
    ensures AddsOne(j, key, ShareOf(Room(budget, Keeping(kept, used)), left, key), budget, priority, hash,
                    Keeping(kept, used), Keeping(more, moreUsed))
    decreases j, 1
  {
    var reserve := Min(CONTAINER_OVERHEAD, budget / 3);
    var available := budget - reserve - used;
    var candidate := ProjectValue(j.fields[key], ShareOf(available, left, key), priority, hash);
    var cost := EntryCost(key, candidate);
    if used + cost + reserve > budget {
      more, moreUsed := kept, used;
    } else {
      more, moreUsed := kept[key := candidate], used + cost;
    }
    assert Keeping(more, moreUsed) == Taken(budget, Keeping(kept, used), key, candidate);
  }

  method AddNext(j: Json, ghost start: Keeping, large: seq<Entry>, i: nat, kept: Fields, used: int, budget: int, priority: Priority, hash: Hash)
    returns (more: Fields, moreUsed: int)
    requires j.Obj? && i < |large| && large[i].key in j.fields && 64 < Room(budget, Keeping(kept, used))
    requires Adds(j, start, large, i, budget, priority, hash, Keeping(kept, used))
    ensures Adds(j, start, large, i + 1, budget, priority, hash, Keeping(more, moreUsed))
    decreases j, 2
  {
    more, moreUsed := AddOne(j, large[i].key, kept, used, |large| - i, budget, priority, hash);
    AddsMore(j, start, large, i, budget, priority, hash, Keeping(kept, used), Keeping(more, moreUsed));
  }

  method AddLarge(j: Json, large: seq<Entry>, small: Fields, smallUsed: int, budget: int, priority: Priority, hash: Hash)
    returns (kept: Fields, used: int)
    requires j.Obj? && Open(j, large, 0, Keeping(small, smallUsed), budget)
    ensures Adds(j, Keeping(small, smallUsed), large, |large|, budget, priority, hash, Keeping(kept, used))
    decreases j, 3
  {
    ghost var start := Keeping(small, smallUsed);
    kept, used := small, smallUsed;
    for index := 0 to |large|
      invariant Adds(j, start, large, index, budget, priority, hash, Keeping(kept, used))
    {
      if budget - Min(CONTAINER_OVERHEAD, budget / 3) - used <= 64 {
        AddsNoMore(j, start, large, index, budget, priority, hash, Keeping(kept, used));
        return;
      }
      assert large[index].key in j.fields;
      kept, used := AddNext(j, start, large, index, kept, used, budget, priority, hash);
    }
  }

  lemma SmallIs(j: Json, budget: int, priority: Priority, small: Fields)
    requires j.Obj? && small.Keys == SmallKeys(j, budget, priority) && Copied(j, small)
    ensures small == SmallFields(j, budget, priority)
  {
  }

  lemma UsedIsWeight(j: Json, budget: int, priority: Priority, hash: Hash, kept: Fields, used: int)
    requires j.Obj? && CONTAINER_OVERHEAD <= budget
    requires var large := LargeEntries(j, budget, priority);
             Adds(j, Keep(SmallFields(j, budget, priority)), large, |large|, budget, priority, hash, Keeping(kept, used))
    ensures Keeping(kept, used) == Keep(kept) && Chosen(j, budget, priority, hash, kept)
  {
    var large := LargeEntries(j, budget, priority);
    StartsOpen(j, budget, priority);
    AddsStaysOpen(j, Keep(SmallFields(j, budget, priority)), large, |large|, budget, priority, hash, Keeping(kept, used));
  }

  /** The fields chosen before the marker is added leave its reserve free. */
  method SelectFields(j: Json, budget: int, priority: Priority, hash: Hash) returns (kept: Fields)
    requires j.Obj? && CONTAINER_OVERHEAD <= budget
    ensures Chosen(j, budget, priority, hash, kept)
    ensures kept.Keys <= j.fields.Keys && Keeps(j, kept, hash) && Grows(SmallFields(j, budget, priority), kept)
    ensures Size(Obj(kept)) + Min(CONTAINER_OVERHEAD, budget / 3) <= budget
    decreases j, 4
  {
    var entries := RankEntries(j, priority);
    RankingHolds(j, priority);
    var small, used := SelectSmall(j, entries, budget);
    SmallIs(j, budget, priority, small);
    var large := Unselected(entries, small);
    StartsOpen(j, budget, priority);
    kept, used := AddLarge(j, large, small, used, budget, priority, hash);
    UsedIsWeight(j, budget, priority, hash, kept, used);
    ChosenHolds(j, budget, priority, hash, kept);
    ChosenIsFaithful(j, budget, priority, hash, kept);
  }

  lemma LeftIsResult(j: Json, selected: Fields, left: Keys, budget: int, hash: Hash)
    requires j.Obj? && Outcomes(j, selected, budget, hash, Shows(left))
    ensures ResultOf(j, selected, budget, hash, LeftOf(j, selected, left, hash))
  {
  }

  method ProjectObject(j: Json, budget: int, priority: Priority, hash: Hash) returns (out: Json)
    requires j.Obj?
    ensures ObjectResult(j, budget, priority, hash, out) && Bounded(j, out, budget, hash)
    decreases j, 5
  {
    if budget < CONTAINER_OVERHEAD {
      out := CutContainer(j, budget, hash);
    } else {
      var kept := SelectFields(j, budget, priority, hash);
      var fitted, left := FitObject(j, kept, budget, hash);
      if fitted.Some? {
        LeftIsResult(j, kept, left, budget, hash);
        out := fitted.value;
      } else {
        out := CutContainer(j, budget, hash);
      }
      assert ResultOf(j, kept, budget, hash, out);
    }
    ObjectResultIsBounded(j, budget, priority, hash, out);
  }

  // --------------------------------------------------------------- top level

  datatype ProjectError = BudgetNotPositive | InvalidJson | BudgetTooSmall

  /** `Verbatim` returns the input bytes, `Projection` an encoding of the value. */
  datatype Outcome = Verbatim | Projection(shown: Json) | Failed(error: ProjectError)

  function MinimalMarker(rawBytes: nat, digest: string): Fields {
    map["type" := Str("json"), "reason" := EXHAUSTED, "original_bytes" := Count(rawBytes), "sha256" := Str(digest)]
  }

  method MinimalProjection(rawBytes: nat, digest: string, budget: int) returns (r: Outcome)
    ensures r == Failed(BudgetTooSmall) <==> budget < 19
    ensures r.Projection? ==> Size(r.shown) <= budget
    ensures r.Failed? ==> r == Failed(BudgetTooSmall)
  {
    var minimal := Cut(Obj(MinimalMarker(rawBytes, digest)));
    TypedCutSize(MinimalMarker(rawBytes, digest));
    BareSize();
    if Size(minimal) <= budget {
      return Projection(minimal);
    }
    if Size(BARE) > budget {
      return Failed(BudgetTooSmall);
    }
    return Projection(BARE);
  }

  /** `parsed` is None for text that is not JSON.  On JSON with a positive budget the
      projection fails exactly when the budget is below the bare cut and neither the
      text nor its re-encoding fits; whatever it returns fits and is faithful. */
  method Project(rawBytes: nat, parsed: Option<Json>, digest: string, budget: int, priority: Priority, hash: Hash)
    returns (r: Outcome)
    ensures r == Failed(BudgetNotPositive) <==> budget <= 0
    ensures r == Failed(InvalidJson) <==> 0 < budget && parsed.None?
    ensures r == Failed(BudgetTooSmall) <==>
              0 < budget < 19 && parsed.Some? && budget < rawBytes && budget < Size(parsed.value)
    ensures r == Verbatim <==> 0 < budget && parsed.Some? && rawBytes <= budget
    ensures r.Projection? ==> Size(r.shown) <= budget && Faithful(parsed.value, r.shown, hash)
    ensures r.Projection? ==> parsed.Some? && Result(parsed.value, budget, priority, hash, r.shown)
    ensures r.Projection? ==> Observes(parsed.value, r.shown, hash)
    ensures r.Projection? && Decoded(parsed.value) ==> Bytes(Encoded(r.shown)) <= budget
  {
    if budget <= 0 {
      return Failed(BudgetNotPositive);
    }
    if parsed.None? {
      return Failed(InvalidJson);
    }
    if rawBytes <= budget {
      return Verbatim;
    }
    var projected := ProjectValue(parsed.value, budget, priority, hash);
    if Size(projected) <= budget {
      if Decoded(parsed.value) { ShownBytes(parsed.value, projected, hash); }
      return Projection(projected);
    }
    r := MinimalProjection(rawBytes, digest, budget);
  }
}
