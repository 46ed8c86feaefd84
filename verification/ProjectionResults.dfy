/** Everything projecting a value may come to.  Map order decides nothing but which field
    is shed on a tie, so the possible results are a relation; each of them is a true
    observation, and there is only one unless a tie splits. */
module ProjectionResults {
  import opened Json
  import opened JsonSize
  import opened BoundedJson
  import opened Shedding
  import opened ObjectFit
  import opened FieldChoice

  ghost predicate Result(j: Json, budget: int, priority: Priority, hash: Hash, out: Json)
    decreases j, 4
  {
    if Size(j) <= budget then out == j
    else
      match j
      case Str(s) => out == SummarizeString(s, budget, hash)
      case Arr(_) => ArrayResult(j, budget, priority, hash, out)
      case Obj(_) => ObjectResult(j, budget, priority, hash, out)
      case _ => out == CutScalar(j, budget, hash)
  }

  function ItemBudget(budget: int): int { Max(64, (budget - CONTAINER_OVERHEAD) / 4) }

  /** An array is shown by its first two and last two items, each summarized, if they fit. */
  ghost predicate ArrayResult(j: Json, budget: int, priority: Priority, hash: Hash, out: Json)
    requires j.Arr?
    decreases j, 3
  {
    if budget <= CONTAINER_OVERHEAD || j.items == [] then out == FitCut(ArrayMarker(j, hash), budget)
    else exists head, tail :: Samples(j, ItemBudget(budget), priority, hash, head, tail) &&
                              out == FitCut(ArrayDetail(j, head, tail, hash), budget)
  }

  ghost predicate Samples(j: Json, budget: int, priority: Priority, hash: Hash, head: seq<Json>, tail: seq<Json>)
    requires j.Arr?
    decreases j, 2
  {
    var n := |j.items|;
    && |head| == Min(2, n) && |tail| == Min(2, n - |head|) && |head| + |tail| <= n
    && Items(j, 0, budget, priority, hash, head) && Items(j, n - |tail|, budget, priority, hash, tail)
  }

  /** Consecutive items, each projected. */
  ghost predicate Items(j: Json, from: nat, budget: int, priority: Priority, hash: Hash, shown: seq<Json>)
    requires j.Arr? && from + |shown| <= |j.items|
    decreases j, 1, |shown|
  {
    shown != [] ==>
      var last := |shown| - 1;
      && Items(j, from, budget, priority, hash, shown[..last])
      && Result(j.items[from + last], budget, priority, hash, shown[last])
  }

  lemma ItemsMore(j: Json, from: nat, budget: int, priority: Priority, hash: Hash, shown: seq<Json>, item: Json)
    requires j.Arr? && from + |shown| < |j.items| && Items(j, from, budget, priority, hash, shown)
    requires Result(j.items[from + |shown|], budget, priority, hash, item)
    ensures Items(j, from, budget, priority, hash, shown + [item])
  {
    var more := shown + [item];
    assert more[..|shown|] == shown && more[|shown|] == item;
  }

  lemma ItemsLast(j: Json, from: nat, budget: int, priority: Priority, hash: Hash, shown: seq<Json>, last: nat)
    requires j.Arr? && from + |shown| <= |j.items| && Items(j, from, budget, priority, hash, shown) && |shown| == last + 1
    ensures Items(j, from, budget, priority, hash, shown[..last])
    ensures Result(j.items[from + last], budget, priority, hash, shown[last])
  {
  }

  /** An object is shown by what shedding leaves of the fields chosen. */
  ghost predicate ObjectResult(j: Json, budget: int, priority: Priority, hash: Hash, out: Json)
    requires j.Obj?
    decreases j, 3
  {
    if budget < CONTAINER_OVERHEAD then out == CutContainer(j, budget, hash)
    else exists selected: Fields :: Chosen(j, budget, priority, hash, selected) && ResultOf(j, selected, budget, hash, out)
  }

  /** The fields chosen before any is shed: the small facts, and of the large ones, in turn,
      each whose summary the room still holds. */
  ghost predicate Chosen(j: Json, budget: int, priority: Priority, hash: Hash, selected: Fields)
    requires j.Obj?
    decreases j, 2
  {
    var large := LargeEntries(j, budget, priority);
    Adds(j, Keep(SmallFields(j, budget, priority)), large, |large|, budget, priority, hash, Keep(selected))
  }

  /** What may be kept after the first `n` large entries. */
  ghost predicate Adds(j: Json, small: Keeping, large: seq<Entry>, n: nat, budget: int, priority: Priority, hash: Hash, kept: Keeping)
    requires j.Obj? && n <= |large|
    decreases j, 1, n, 0
  {
    if n == 0 then kept == small else AddsAfter(j, small, large, n - 1, budget, priority, hash, kept)
  }

  ghost predicate AddsAfter(j: Json, small: Keeping, large: seq<Entry>, i: nat, budget: int, priority: Priority, hash: Hash, kept: Keeping)
    requires j.Obj? && i < |large|
    decreases j, 1, i, 1
  {
    exists before: Keeping ::
      && Adds(j, small, large, i, budget, priority, hash, before)
      && AddsOne(j, large[i].key, Share(budget, before, large, i), budget, priority, hash, before, kept)
  }

  /** A large entry is passed over only if its summary exceeds the room, or 64 bytes or
      fewer are left. */
  ghost predicate AddsOne(j: Json, key: string, share: int, budget: int, priority: Priority, hash: Hash, kept: Keeping, more: Keeping)
    requires j.Obj?
    decreases j, 0
  {
    if Room(budget, kept) <= 64 then more == kept
    else key in j.fields && exists v :: Result(j.fields[key], share, priority, hash, v) && more == Taken(budget, kept, key, v)
  }

  /** What a selection comes to: what shedding leaves of it, or the container cut. */
  ghost predicate ResultOf(j: Json, selected: Fields, budget: int, hash: Hash, out: Json)
    requires j.Obj?
  {
    || (Outcomes(j, selected, budget, hash, GaveUp) && out == CutContainer(j, budget, hash))
    || exists left :: Outcomes(j, selected, budget, hash, Shows(left)) && out == LeftOf(j, selected, left, hash)
  }

  // ------------------------------------------------------------ what is chosen

  lemma Preceding(j: Json, small: Keeping, large: seq<Entry>, i: nat, budget: int, priority: Priority, hash: Hash, kept: Keeping)
    returns (before: Keeping)
    requires j.Obj? && i < |large| && Adds(j, small, large, i + 1, budget, priority, hash, kept)
    ensures Adds(j, small, large, i, budget, priority, hash, before)
    ensures AddsOne(j, large[i].key, Share(budget, before, large, i), budget, priority, hash, before, kept)
  {
    assert AddsAfter(j, small, large, i, budget, priority, hash, kept);
    before :| Adds(j, small, large, i, budget, priority, hash, before) &&
              AddsOne(j, large[i].key, Share(budget, before, large, i), budget, priority, hash, before, kept);
  }

  /** The summary an entry's turn came to. */
  lemma Summary(j: Json, key: string, share: int, budget: int, priority: Priority, hash: Hash, kept: Keeping, more: Keeping) returns (v: Json)
    requires j.Obj? && 64 < Room(budget, kept) && AddsOne(j, key, share, budget, priority, hash, kept, more)
    ensures key in j.fields && more == Taken(budget, kept, key, v) && Result(j.fields[key], share, priority, hash, v)
  {
    v :| Result(j.fields[key], share, priority, hash, v) && more == Taken(budget, kept, key, v);
  }

  lemma OneStaysOpen(j: Json, large: seq<Entry>, i: nat, share: int, budget: int, priority: Priority, hash: Hash, kept: Keeping, more: Keeping)
    requires j.Obj? && i < |large| && Open(j, large, i, kept, budget)
    requires AddsOne(j, large[i].key, share, budget, priority, hash, kept, more)
    ensures Open(j, large, i + 1, more, budget) && Grows(kept.fields, more.fields)
  {
    if 64 < Room(budget, kept) {
      var v := Summary(j, large[i].key, share, budget, priority, hash, kept, more);
      StaysOpen(j, large, i, kept, budget, v);
    }
  }

  /** What adding keeps: the small facts as they are, the reserve, and the later entries for
      later. */
  lemma {:induction false} AddsStaysOpen(j: Json, small: Keeping, large: seq<Entry>, n: nat, budget: int, priority: Priority, hash: Hash,
                                         kept: Keeping)
    requires j.Obj? && n <= |large| && Open(j, large, 0, small, budget)
    requires Adds(j, small, large, n, budget, priority, hash, kept)
    ensures Open(j, large, n, kept, budget) && Grows(small.fields, kept.fields)
    decreases n
  {
    if n == 0 {
      assert kept == small;
    } else {
      var i := n - 1;
      var before := Preceding(j, small, large, i, budget, priority, hash, kept);
      AddsStaysOpen(j, small, large, i, budget, priority, hash, before);
      OneStaysOpen(j, large, i, Share(budget, before, large, i), budget, priority, hash, before, kept);
      GrowsOn(small.fields, before.fields, kept.fields);
    }
  }

  lemma AddsMore(j: Json, small: Keeping, large: seq<Entry>, i: nat, budget: int, priority: Priority, hash: Hash, kept: Keeping, more: Keeping)
    requires j.Obj? && i < |large| && Adds(j, small, large, i, budget, priority, hash, kept)
    requires AddsOne(j, large[i].key, Share(budget, kept, large, i), budget, priority, hash, kept, more)
    ensures Adds(j, small, large, i + 1, budget, priority, hash, more)
  {
    assert AddsAfter(j, small, large, i, budget, priority, hash, more);
  }

  lemma IdleTurn(j: Json, key: string, share: int, budget: int, priority: Priority, hash: Hash, kept: Keeping)
    requires j.Obj? && Room(budget, kept) <= 64
    ensures AddsOne(j, key, share, budget, priority, hash, kept, kept)
  {
  }

  /** Once 64 bytes or fewer are left nothing more is added. */
  lemma {:induction false} AddsNoMore(j: Json, small: Keeping, large: seq<Entry>, i: nat, budget: int, priority: Priority, hash: Hash, kept: Keeping)
    requires j.Obj? && i <= |large| && Adds(j, small, large, i, budget, priority, hash, kept) && Room(budget, kept) <= 64
    ensures Adds(j, small, large, |large|, budget, priority, hash, kept)
    decreases |large| - i
  {
    if i < |large| {
      IdleTurn(j, large[i].key, Share(budget, kept, large, i), budget, priority, hash, kept);
      AddsMore(j, small, large, i, budget, priority, hash, kept, kept);
      AddsNoMore(j, small, large, i + 1, budget, priority, hash, kept);
    }
  }

  /** Whatever is chosen holds every small fact as it is and leaves the reserve free. */
  lemma ChosenHolds(j: Json, budget: int, priority: Priority, hash: Hash, selected: Fields)
    requires j.Obj? && CONTAINER_OVERHEAD <= budget && Chosen(j, budget, priority, hash, selected)
    ensures Grows(SmallFields(j, budget, priority), selected) && selected.Keys <= j.fields.Keys
    ensures Size(Obj(selected)) + Min(CONTAINER_OVERHEAD, budget / 3) <= budget
  {
    var large := LargeEntries(j, budget, priority);
    StartsOpen(j, budget, priority);
    AddsStaysOpen(j, Keep(SmallFields(j, budget, priority)), large, |large|, budget, priority, hash, Keep(selected));
    SizeIsWeight(selected);
  }

  // -------------------------------------------------------- small facts survive

  lemma WholeIsShown(j: Json, selected: Fields, budget: int, hash: Hash, out: Json)
    requires j.Obj? && selected.Keys in FitsIn(j, selected, budget, hash) && ResultOf(j, selected, budget, hash, out)
    ensures out == LeftOf(j, selected, selected.Keys, hash)
  {
    var cost, fits := CostIn(selected), FitsIn(j, selected, budget, hash);
    if Outcomes(j, selected, budget, hash, GaveUp) { FitsAtOnce(cost, fits, selected.Keys, GaveUp); }
    var left :| Outcomes(j, selected, budget, hash, Shows(left)) && out == LeftOf(j, selected, left, hash);
    FitsAtOnce(cost, fits, selected.Keys, Shows(left));
  }

  lemma LeftWhole(selected: Fields, key: string, marker: nat -> Json, n: nat)
    requires key !in selected
    ensures Grows(selected, Left(selected, key, marker, n, selected.Keys).fields)
  {
  }

  /** While the marker stays within its reserve nothing is shed, and every small fact is
      shown as it is, whatever order the map is walked in. */
  lemma SmallFactsSurvive(j: Json, selected: Fields, budget: int, priority: Priority, hash: Hash, out: Json, omitted: nat)
    requires j.Obj? && CONTAINER_OVERHEAD <= budget && Chosen(j, budget, priority, hash, selected)
    requires ResultOf(j, selected, budget, hash, out) && |selected.Keys| + omitted == |j.fields|
    requires EntryCost(MarkerKey(j.fields, CUT_KEY), MarkerOf(j, hash)(omitted)) <= Min(CONTAINER_OVERHEAD, budget / 3)
    ensures out.Obj? && Grows(selected, out.fields) && Grows(SmallFields(j, budget, priority), out.fields)
  {
    var key, marker := MarkerKey(j.fields, CUT_KEY), MarkerOf(j, hash);
    ChosenHolds(j, budget, priority, hash, selected);
    RoomSuffices(selected, key, marker, |j.fields|, budget, omitted);
    WholeIsShown(j, selected, budget, hash, out);
    LeftWhole(selected, key, marker, |j.fields|);
    GrowsOn(SmallFields(j, budget, priority), selected, out.fields);
  }

  // ------------------------------------------------- every result is faithful

  lemma MirrorsLast(j: Json, from: nat, shown: seq<Json>, hash: Hash, last: nat)
    requires j.Arr? && from + |shown| <= |j.items| && |shown| == last + 1
    requires Mirrors(j, from, shown[..last], hash) && Faithful(j.items[from + last], shown[last], hash)
    ensures Mirrors(j, from, shown, hash)
  {
  }

  lemma {:induction false} ItemsMirror(j: Json, from: nat, budget: int, priority: Priority, hash: Hash, shown: seq<Json>)
    requires j.Arr? && from + |shown| <= |j.items| && Items(j, from, budget, priority, hash, shown)
    ensures Mirrors(j, from, shown, hash)
    decreases j, 1, |shown|
  {
    if shown != [] {
      var last := |shown| - 1;
      ItemsLast(j, from, budget, priority, hash, shown, last);
      ItemsMirror(j, from, budget, priority, hash, shown[..last]);
      ResultIsFaithful(j.items[from + last], budget, priority, hash, shown[last]);
      MirrorsLast(j, from, shown, hash, last);
    }
  }

  lemma HeadIsFaithful(j: Json, budget: int, priority: Priority, hash: Hash, head: seq<Json>, tail: seq<Json>)
    requires j.Arr? && Samples(j, budget, priority, hash, head, tail)
    ensures Mirrors(j, 0, head, hash)
    decreases j, 2
  {
    ItemsMirror(j, 0, budget, priority, hash, head);
  }

  lemma TailIsFaithful(j: Json, budget: int, priority: Priority, hash: Hash, head: seq<Json>, tail: seq<Json>)
    requires j.Arr? && Samples(j, budget, priority, hash, head, tail)
    ensures |tail| <= |j.items| && Mirrors(j, |j.items| - |tail|, tail, hash)
    decreases j, 2
  {
    ItemsMirror(j, |j.items| - |tail|, budget, priority, hash, tail);
  }

  lemma ArrayResultIsBounded(j: Json, budget: int, priority: Priority, hash: Hash, out: Json)
    requires j.Arr? && ArrayResult(j, budget, priority, hash, out)
    ensures Bounded(j, out, budget, hash)
    decreases j, 3
  {
    if budget <= CONTAINER_OVERHEAD || j.items == [] {
      ArrayIsBounded(j, budget, hash);
    } else {
      var head, tail :| Samples(j, ItemBudget(budget), priority, hash, head, tail) &&
                        out == FitCut(ArrayDetail(j, head, tail, hash), budget);
      HeadIsFaithful(j, ItemBudget(budget), priority, hash, head, tail);
      TailIsFaithful(j, ItemBudget(budget), priority, hash, head, tail);
      DetailIsBounded(j, head, tail, budget, hash);
    }
  }

  lemma KeepMore(j: Json, kept: Fields, k: string, v: Json, hash: Hash)
    requires j.Obj? && kept.Keys <= j.fields.Keys && Keeps(j, kept, hash) && k in j.fields && Faithful(j.fields[k], v, hash)
    ensures kept[k := v].Keys <= j.fields.Keys && Keeps(j, kept[k := v], hash)
  {
    var more := kept[k := v];
    FewerKeys(more, j.fields);
  }

  lemma OneKeeps(j: Json, key: string, share: int, budget: int, priority: Priority, hash: Hash, kept: Keeping, more: Keeping)
    requires j.Obj? && AddsOne(j, key, share, budget, priority, hash, kept, more)
    requires kept.fields.Keys <= j.fields.Keys && Keeps(j, kept.fields, hash)
    ensures more.fields.Keys <= j.fields.Keys && Keeps(j, more.fields, hash)
    decreases j, 0
  {
    if 64 < Room(budget, kept) {
      var v := Summary(j, key, share, budget, priority, hash, kept, more);
      ResultIsFaithful(j.fields[key], share, priority, hash, v);
      KeepMore(j, kept.fields, key, v, hash);
    }
  }

  lemma {:induction false} AddsKeeps(j: Json, small: Keeping, large: seq<Entry>, n: nat, budget: int, priority: Priority, hash: Hash, kept: Keeping)
    requires j.Obj? && n <= |large| && Adds(j, small, large, n, budget, priority, hash, kept)
    requires small.fields.Keys <= j.fields.Keys && Keeps(j, small.fields, hash)
    ensures kept.fields.Keys <= j.fields.Keys && Keeps(j, kept.fields, hash)
    decreases j, 1, n
  {
    if 0 < n {
      var i := n - 1;
      var before := Preceding(j, small, large, i, budget, priority, hash, kept);
      AddsKeeps(j, small, large, i, budget, priority, hash, before);
      OneKeeps(j, large[i].key, Share(budget, before, large, i), budget, priority, hash, before, kept);
    }
  }

  lemma SmallAreKept(j: Json, budget: int, priority: Priority, hash: Hash)
    requires j.Obj? && CONTAINER_OVERHEAD <= budget
    ensures SmallFields(j, budget, priority).Keys <= j.fields.Keys && Keeps(j, SmallFields(j, budget, priority), hash)
  {
    SmallHasRoom(j, budget, priority);
    FewerKeys(SmallFields(j, budget, priority), j.fields);
  }

  lemma ChosenIsFaithful(j: Json, budget: int, priority: Priority, hash: Hash, selected: Fields)
    requires j.Obj? && CONTAINER_OVERHEAD <= budget && Chosen(j, budget, priority, hash, selected)
    ensures Keeps(j, selected, hash)
    decreases j, 2
  {
    var large := LargeEntries(j, budget, priority);
    SmallAreKept(j, budget, priority, hash);
    AddsKeeps(j, Keep(SmallFields(j, budget, priority)), large, |large|, budget, priority, hash, Keep(selected));
  }

  lemma ShownIsNotBare(j: Json, kept: Fields, omitted: nat, hash: Hash)
    requires j.Obj?
    ensures Shown(j, kept, omitted, hash) != BARE
  {
    var key, out := MarkerKey(j.fields, CUT_KEY), Shown(j, kept, omitted, hash);
    assert out.fields[key].Obj?;
    assert key in BARE.fields ==> BARE.fields[key] == Bool(true);
  }

  lemma LeftIsBounded(j: Json, selected: Fields, left: Keys, budget: int, hash: Hash)
    requires j.Obj? && selected.Keys <= j.fields.Keys && Keeps(j, selected, hash)
    requires left in FitsIn(j, selected, budget, hash) && 19 <= budget
    ensures Bounded(j, LeftOf(j, selected, left, hash), budget, hash)
  {
    SubsetSize(left, selected.Keys);
    SubsetSize(selected.Keys, j.fields.Keys);
    var omitted: nat := |j.fields| - |left|;
    ShownIsLeft(j, selected, left, hash, omitted);
    ShownAsObject(j, selected, left, hash, omitted);
    ShownIsNotBare(j, Restrict(selected, left), omitted, hash);
  }

  lemma {:induction false} ShownFits(cost: string -> nat, fits: iset<Keys>, s: Keys, left: Keys)
    requires Sheds(cost, fits, s, Shows(left))
    ensures left in fits
    decreases |s|
  {
    if s !in fits {
      var k :| Top(cost, s, k) && k != "" && Sheds(cost, fits, s - {k}, Shows(left));
      ShownFits(cost, fits, s - {k}, left);
    }
  }

  lemma ResultOfIsBounded(j: Json, selected: Fields, budget: int, hash: Hash, out: Json)
    requires j.Obj? && selected.Keys <= j.fields.Keys && Keeps(j, selected, hash) && 19 <= budget
    requires ResultOf(j, selected, budget, hash, out)
    ensures Bounded(j, out, budget, hash)
  {
    if Outcomes(j, selected, budget, hash, GaveUp) && out == CutContainer(j, budget, hash) {
      ContainerIsBounded(j, budget, hash);
    } else {
      var left :| Outcomes(j, selected, budget, hash, Shows(left)) && out == LeftOf(j, selected, left, hash);
      ShownFits(CostIn(selected), FitsIn(j, selected, budget, hash), selected.Keys, left);
      LeftIsBounded(j, selected, left, budget, hash);
    }
  }

  lemma ObjectResultIsBounded(j: Json, budget: int, priority: Priority, hash: Hash, out: Json)
    requires j.Obj? && ObjectResult(j, budget, priority, hash, out)
    ensures Bounded(j, out, budget, hash)
    decreases j, 3
  {
    if budget < CONTAINER_OVERHEAD {
      ContainerIsBounded(j, budget, hash);
    } else {
      var selected: Fields :| Chosen(j, budget, priority, hash, selected) && ResultOf(j, selected, budget, hash, out);
      ChosenHolds(j, budget, priority, hash, selected);
      ChosenIsFaithful(j, budget, priority, hash, selected);
      ResultOfIsBounded(j, selected, budget, hash, out);
    }
  }

  /** Every result for a value too large for its budget fits, unless the budget is below the
      bare cut, says only what is true of the value, and is the bare cut only as a last
      resort. */
  lemma ResultIsBounded(j: Json, budget: int, priority: Priority, hash: Hash, out: Json)
    requires Result(j, budget, priority, hash, out) && budget < Size(j)
    ensures Bounded(j, out, budget, hash)
    decreases j, 4
  {
    match j
    case Str(s) => StringIsBounded(s, budget, hash);
    case Arr(_) => ArrayResultIsBounded(j, budget, priority, hash, out);
    case Obj(_) => ObjectResultIsBounded(j, budget, priority, hash, out);
    case _ => ScalarIsBounded(j, budget, hash);
  }

  lemma ResultIsFaithful(j: Json, budget: int, priority: Priority, hash: Hash, out: Json)
    requires Result(j, budget, priority, hash, out)
    ensures Faithful(j, out, hash)
    decreases j, 5
  {
    if budget < Size(j) { ResultIsBounded(j, budget, priority, hash, out); }
  }
}
