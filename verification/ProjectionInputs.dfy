/** Small objects on which the projection falls short of what is said of it: eight fields
    that use up the marker's own keys make the marker a byte too long for its reserve, so a
    field has to go. */
module ProjectionInputs {
  import opened Options
  import opened Json
  import opened JsonSize
  import opened KeyOrder
  import opened BoundedJson
  import opened Shedding
  import opened ObjectFit
  import opened MarkerCost
  import opened FieldChoice
  import opened FieldList
  import opened ProjectionResults
  import opened OneResult

  const ZERO: Json := Num("0")

  const NO_PRIORITY: Priority := None

  function CutName(i: nat): string { if i == 0 then CUT_KEY else CutName(i - 1) + "_" }

  function Cuts(n: nat): seq<Field> { if n == 0 then [] else Cuts(n - 1) + [Field(CutName(n - 1), ZERO)] }

  /** Eight marker keys, two fields to choose between, and one under a long key. */
  function Crowd(p: Field, q: Field, long: string): seq<Field> { Cuts(8) + [p, q, Field(long, ZERO)] }

  function EntryFor(f: Field): Entry { Entry(f.key, CostOf(f)) }

  /** `p` ranks before `q`, and together they fill half the budget of 512 and the room the
      reserve leaves. */
  predicate Crowded(p: Field, q: Field, long: string) {
    && |long| == 200 && Plain(long)
    && |p.key| <= 2 && |q.key| <= 2 && p.key != q.key
    && 22 < CostOf(p) && CostOf(p) + CostOf(q) == 192 && ByRank(NO_PRIORITY, EntryFor(p), EntryFor(q))
  }

  lemma CutKeyIsPlain()
    ensures Plain(CUT_KEY) && |CUT_KEY| == 10
  {
    var key := CUT_KEY;
    assert forall i :: 0 <= i < |key| ==> Cost(key[i]) == 1;
  }

  lemma {:induction false} CutNameIs(i: nat)
    ensures |CutName(i)| == 10 + i && Plain(CutName(i)) && StringSize(CutName(i)) == 12 + i
  {
    if i == 0 { CutKeyIsPlain(); } else { CutNameIs(i - 1); }
    PlainSize(CutName(i));
  }

  lemma {:induction false} CutsAre(n: nat)
    ensures |Cuts(n)| == n && forall i :: 0 <= i < n ==> Cuts(n)[i] == Field(CutName(i), ZERO)
  {
    if 0 < n { CutsAre(n - 1); }
  }

  lemma CutCost(i: nat)
    ensures CostOf(Field(CutName(i), ZERO)) == 15 + i
  {
    CutNameIs(i);
  }

  lemma {:induction false} CutsSum(n: nat)
    ensures 2 * Sum(Cuts(n)) == n * (n + 29)
  {
    if 0 < n {
      CutsSum(n - 1);
      CutCost(n - 1);
      assert Cuts(n)[..|Cuts(n)| - 1] == Cuts(n - 1);
      assert n * (n + 29) == (n - 1) * (n - 1 + 29) + 2 * (n + 14);
    }
  }

  /** What the list holds, place by place. */
  ghost predicate Places(list: seq<Field>, p: Field, q: Field, long: string) {
    && |list| == 11 && (forall i :: 0 <= i < 8 ==> list[i] == Field(CutName(i), ZERO))
    && list[8] == p && list[9] == q && list[10] == Field(long, ZERO)
  }

  lemma CrowdPlaces(p: Field, q: Field, long: string)
    ensures Places(Crowd(p, q, long), p, q, long) && Crowd(p, q, long)[..8] == Cuts(8)
  {
    CutsAre(8);
  }

  lemma LongCost(long: string)
    requires |long| == 200 && Plain(long)
    ensures CostOf(Field(long, ZERO)) == 205
  {
    PlainSize(long);
  }

  lemma CrowdCosts(list: seq<Field>, p: Field, q: Field, long: string, i: nat)
    requires Places(list, p, q, long) && Crowded(p, q, long) && i < 11
    ensures i < 8 ==> CostOf(list[i]) == 15 + i && |list[i].key| == 10 + i
    ensures i == 10 ==> CostOf(list[i]) == 205
  {
    if i < 8 {
      CutCost(i);
      CutNameIs(i);
    }
    LongCost(long);
  }

  lemma CrowdIsDistinct(list: seq<Field>, p: Field, q: Field, long: string)
    requires Places(list, p, q, long) && Crowded(p, q, long)
    ensures Distinct(list)
  {
    forall a, b | 0 <= a < b < |list|
      ensures list[a].key != list[b].key
    {
      CrowdCosts(list, p, q, long, a);
      CrowdCosts(list, p, q, long, b);
    }
  }

  lemma RanksBefore(list: seq<Field>, p: Field, q: Field, long: string, a: nat, b: nat)
    requires Places(list, p, q, long) && Crowded(p, q, long) && a < b < 11
    ensures ByRank(NO_PRIORITY, EntryFor(list[a]), EntryFor(list[b]))
  {
    CrowdCosts(list, p, q, long, a);
    CrowdCosts(list, p, q, long, b);
  }

  lemma CrowdIsOrdered(list: seq<Field>, p: Field, q: Field, long: string)
    requires Places(list, p, q, long) && Crowded(p, q, long)
    ensures Ordered(Entries(list), RankOrder(NO_PRIORITY))
  {
    forall a, b | 0 <= a < b < |list|
      ensures ByRank(NO_PRIORITY, Entries(list)[a], Entries(list)[b])
    {
      RanksBefore(list, p, q, long, a, b);
    }
  }

  lemma EightCuts(p: Field, q: Field, long: string)
    ensures Sum(Crowd(p, q, long)[..8]) == 148
  {
    CrowdPlaces(p, q, long);
    CutsSum(8);
  }

  lemma CrowdSums(list: seq<Field>, p: Field, q: Field, long: string)
    requires Places(list, p, q, long) && Crowded(p, q, long) && Sum(list[..8]) == 148
    ensures Sum(list[..9]) == 148 + CostOf(p) && Sum(list[..10]) == 340 && Sum(list) == 545
  {
    SumOneMore(list, 8);
    SumOneMore(list, 9);
    SumOneMore(list, 10);
    assert list[..11] == list;
    LongCost(long);
  }

  // ---------------------------------------------------------- what is chosen

  lemma CrowdSmall(list: seq<Field>, p: Field, q: Field, long: string)
    requires Places(list, p, q, long) && Crowded(p, q, long) && Sum(list[..8]) == 148
    ensures SmallOf(Entries(list), 9, 256) == Picked(KeysOf(list[..9]), 150 + CostOf(p))
  {
    CrowdSums(list, p, q, long);
    CrowdIsDistinct(list, p, q, long);
    forall i | 0 <= i < 9
      ensures CostOf(list[i]) <= SMALL_ENTRY_BYTES
    {
      CrowdCosts(list, p, q, long, i);
    }
    SmallFront(list, 9, 256);
  }

  /** The two last fields do not fit half the budget. */
  lemma LastTwoAreLarge(entries: seq<Entry>, keys: set<string>, used: int)
    requires |entries| == 11 && SmallOf(entries, 9, 256) == Picked(keys, used)
    requires 256 < used + entries[9].size && 256 < used + entries[10].size
    ensures SmallOf(entries, |entries|, 256).keys == keys
  {
    assert SmallOf(entries, 10, 256) == Picked(keys, used);
  }

  lemma CrowdSmallKeys(list: seq<Field>, p: Field, q: Field, long: string)
    requires Places(list, p, q, long) && Crowded(p, q, long) && Sum(list[..8]) == 148
    ensures SmallKeys(Obj(FieldsOf(list)), 512, NO_PRIORITY) == KeysOf(list[..9])
    ensures Ranking(Obj(FieldsOf(list)), NO_PRIORITY) == Entries(list)
  {
    CrowdIsDistinct(list, p, q, long);
    CrowdIsOrdered(list, p, q, long);
    ListIsRanking(list, NO_PRIORITY);
    CrowdSmall(list, p, q, long);
    CrowdCosts(list, p, q, long, 10);
    LastTwoAreLarge(Entries(list), KeysOf(list[..9]), 150 + CostOf(p));
  }

  lemma NotInFront(list: seq<Field>, n: nat, i: nat)
    requires Distinct(list) && n <= i < |list|
    ensures list[i].key !in KeysOf(list[..n])
  {
  }

  lemma CrowdLarge(list: seq<Field>, p: Field, q: Field, long: string)
    requires Places(list, p, q, long) && Crowded(p, q, long)
    ensures LargeOf(Entries(list), KeysOf(list[..9])) == [Entry(long, 205), EntryFor(q)]
  {
    var keys := KeysOf(list[..9]);
    CrowdIsDistinct(list, p, q, long);
    forall i | 0 <= i < 9
      ensures list[i].key in keys
    {
      assert list[..9][i].key in keys;
    }
    WithoutFront(list, keys, 9);
    NotInFront(list, 9, 9);
    NotInFront(list, 9, 10);
    CrowdCosts(list, p, q, long, 10);
    LargerFirst(Entries(list), keys, 9);
  }

  /** A field whose value fits the share but not the room is passed over. */
  lemma PassedOver(j: Json, key: string, share: int, budget: int, priority: Priority, hash: Hash, kept: Keeping)
    requires j.Obj? && key in j.fields && Size(j.fields[key]) <= share && Room(budget, kept) < EntryCost(key, j.fields[key])
    ensures AddsOne(j, key, share, budget, priority, hash, kept, kept)
  {
    assert Result(j.fields[key], share, priority, hash, j.fields[key]);
  }

  /** One that fits both is taken as it is. */
  lemma TakenWhole(j: Json, key: string, share: int, budget: int, priority: Priority, hash: Hash, kept: Keeping)
    requires j.Obj? && key in j.fields && Size(j.fields[key]) <= share
    requires 64 < Room(budget, kept) && EntryCost(key, j.fields[key]) <= Room(budget, kept)
    ensures AddsOne(j, key, share, budget, priority, hash, kept, Taken(budget, kept, key, j.fields[key]))
  {
    assert Result(j.fields[key], share, priority, hash, j.fields[key]);
  }

  lemma TwoTurns(j: Json, small: Keeping, large: seq<Entry>, long: string, q: Field, priority: Priority, hash: Hash)
    requires j.Obj? && large == [Entry(long, 205), EntryFor(q)]
    requires long in j.fields && j.fields[long] == ZERO && q.key in j.fields && j.fields[q.key] == q.value
    requires EntryCost(long, ZERO) == 205 && 64 < CostOf(q) < 205 && Room(512, small) == CostOf(q)
    ensures Adds(j, small, large, |large|, 512, priority, hash, Keeping(small.fields[q.key := q.value], small.used + CostOf(q)))
  {
    PassedOver(j, long, Share(512, small, large, 0), 512, priority, hash, small);
    AddsMore(j, small, large, 0, 512, priority, hash, small, small);
    TakenWhole(j, q.key, Share(512, small, large, 1), 512, priority, hash, small);
    AddsMore(j, small, large, 1, 512, priority, hash, small, Taken(512, small, q.key, q.value));
  }

  lemma CrowdPieces(list: seq<Field>, p: Field, q: Field, long: string)
    requires Places(list, p, q, long) && Crowded(p, q, long) && Sum(list[..8]) == 148
    ensures SmallFields(Obj(FieldsOf(list)), 512, NO_PRIORITY) == FieldsOf(list[..9])
    ensures LargeEntries(Obj(FieldsOf(list)), 512, NO_PRIORITY) == [Entry(long, 205), EntryFor(q)]
  {
    CrowdIsDistinct(list, p, q, long);
    CrowdSmallKeys(list, p, q, long);
    CrowdLarge(list, p, q, long);
    RestrictFront(list, 9);
  }

  lemma CrowdRoom(list: seq<Field>, p: Field, q: Field, long: string)
    requires Places(list, p, q, long) && Crowded(p, q, long) && Sum(list[..8]) == 148
    ensures Room(512, Keep(FieldsOf(list[..9]))) == CostOf(q)
  {
    CrowdIsDistinct(list, p, q, long);
    FieldsHold(list[..9]);
    CrowdSums(list, p, q, long);
  }

  lemma CrowdAdds(list: seq<Field>, p: Field, q: Field, long: string, small: Keeping, large: seq<Entry>, end: Keeping, hash: Hash)
    requires Places(list, p, q, long) && Crowded(p, q, long) && large == [Entry(long, 205), EntryFor(q)]
    requires Room(512, small) == CostOf(q) && end == Keeping(small.fields[q.key := q.value], small.used + CostOf(q))
    ensures Adds(Obj(FieldsOf(list)), small, large, |large|, 512, NO_PRIORITY, hash, end)
  {
    CrowdIsDistinct(list, p, q, long);
    FieldAt(list, 9);
    FieldAt(list, 10);
    LongCost(long);
    TwoTurns(Obj(FieldsOf(list)), small, large, long, q, NO_PRIORITY, hash);
  }

  /** All but the long field are chosen. */
  lemma CrowdChosen(list: seq<Field>, p: Field, q: Field, long: string, hash: Hash)
    requires Places(list, p, q, long) && Crowded(p, q, long) && Sum(list[..8]) == 148
    ensures Chosen(Obj(FieldsOf(list)), 512, NO_PRIORITY, hash, FieldsOf(list[..10]))
  {
    CrowdPieces(list, p, q, long);
    CrowdRoom(list, p, q, long);
    CrowdIsDistinct(list, p, q, long);
    KeepOneMore(list, 9);
    CrowdAdds(list, p, q, long, Keep(FieldsOf(list[..9])), LargeEntries(Obj(FieldsOf(list)), 512, NO_PRIORITY),
              Keep(FieldsOf(list[..10])), hash);
  }

  // ----------------------------------------------------------- what is shed

  lemma {:induction false} MarkerKeyFrom(fields: Fields, i: nat, n: nat)
    requires i <= n && CutName(n) !in fields && forall a :: i <= a < n ==> CutName(a) in fields
    ensures MarkerKey(fields, CutName(i)) == CutName(n)
    decreases n - i
  {
    if i < n {
      MarkerKeyFrom(fields, i + 1, n);
      assert CutName(i + 1) == CutName(i) + "_";
    }
  }

  lemma CutsAreUsed(list: seq<Field>, p: Field, q: Field, long: string, a: nat)
    requires Places(list, p, q, long) && Crowded(p, q, long) && a < 8
    ensures CutName(a) in FieldsOf(list)
  {
    CrowdIsDistinct(list, p, q, long);
    FieldAt(list, a);
  }

  lemma NextCutIsFree(list: seq<Field>, p: Field, q: Field, long: string, n: nat)
    requires Places(list, p, q, long) && Crowded(p, q, long) && n == 8
    ensures CutName(n) !in FieldsOf(list)
  {
    CrowdIsDistinct(list, p, q, long);
    FieldsHold(list);
    CutNameIs(n);
    if CutName(n) in KeysOf(list) {
      var i :| 0 <= i < |list| && list[i].key == CutName(n);
      CrowdCosts(list, p, q, long, i);
    }
  }

  lemma CrowdMarkerKey(list: seq<Field>, p: Field, q: Field, long: string, n: nat)
    requires Places(list, p, q, long) && Crowded(p, q, long) && n == 8
    ensures MarkerKey(FieldsOf(list), CUT_KEY) == CutName(n)
  {
    NextCutIsFree(list, p, q, long, n);
    forall a | 0 <= a < n
      ensures CutName(a) in FieldsOf(list)
    {
      CutsAreUsed(list, p, q, long, a);
    }
    MarkerKeyFrom(FieldsOf(list), 0, n);
  }

  lemma CrowdSize(list: seq<Field>, p: Field, q: Field, long: string)
    requires Places(list, p, q, long) && Crowded(p, q, long) && Sum(list[..8]) == 148
    ensures Size(Obj(FieldsOf(list))) == 546 && |FieldsOf(list)| == 11
  {
    CrowdIsDistinct(list, p, q, long);
    FieldsHold(list);
    CrowdSums(list, p, q, long);
    SizeIsWeight(FieldsOf(list));
  }

  /** The marker takes two bytes more than its reserve. */
  lemma CrowdMarker(list: seq<Field>, p: Field, q: Field, long: string, omitted: nat, hash: Hash)
    requires Places(list, p, q, long) && Crowded(p, q, long) && Sum(list[..8]) == 148 && Digests(hash) && omitted < 10
    ensures EntryCost(MarkerKey(FieldsOf(list), CUT_KEY), MarkerOf(Obj(FieldsOf(list)), hash)(omitted)) == 172
  {
    var j := Obj(FieldsOf(list));
    CrowdSize(list, p, q, long);
    var n: nat :| n == 8;
    CrowdMarkerKey(list, p, q, long, n);
    CutNameIs(n);
    MarkerEntry(j, CutName(n), omitted, hash);
    Digits(Size(j));
    Digits(|j.fields|);
    Digits(omitted);
  }

  /** What is shown of the fields `s` takes their weight and 173 bytes. */
  lemma CrowdLeft(list: seq<Field>, p: Field, q: Field, long: string, selected: Fields, s: Keys, hash: Hash)
    requires Places(list, p, q, long) && Crowded(p, q, long) && Sum(list[..8]) == 148 && Digests(hash)
    requires selected.Keys <= FieldsOf(list).Keys && 1 < |s| <= 11
    ensures Size(LeftOf(Obj(FieldsOf(list)), selected, s, hash)) == 173 + Weight(Restrict(selected, s))
  {
    var j := Obj(FieldsOf(list));
    var omitted: nat := 11 - |s|;
    CrowdSize(list, p, q, long);
    CrowdMarker(list, p, q, long, omitted, hash);
    assert MarkerKey(j.fields, CUT_KEY) !in selected;
    SizeOfLeft(selected, MarkerKey(j.fields, CUT_KEY), MarkerOf(j, hash), |j.fields|, s, omitted);
  }

  /** The fields chosen do not fit with the marker, but without any one of them they do. */
  lemma CrowdOverflows(list: seq<Field>, p: Field, q: Field, long: string, selected: Fields, hash: Hash, k: string)
    requires Places(list, p, q, long) && Crowded(p, q, long) && Sum(list[..8]) == 148 && Digests(hash)
    requires selected.Keys <= FieldsOf(list).Keys && |selected| == 10 && Weight(selected) == 340 && k in selected
    ensures selected.Keys !in FitsIn(Obj(FieldsOf(list)), selected, 512, hash)
    ensures selected.Keys - {k} in FitsIn(Obj(FieldsOf(list)), selected, 512, hash)
  {
    var all := selected.Keys;
    assert |all| == |selected|;
    assert |all - {k}| == 9;
    assert Restrict(selected, all) == selected;
    CrowdLeft(list, p, q, long, selected, all, hash);
    CrowdLeft(list, p, q, long, selected, all - {k}, hash);
    WeightWithout(selected, all, k);
  }

  lemma CrowdSelected(list: seq<Field>, p: Field, q: Field, long: string)
    requires Places(list, p, q, long) && Crowded(p, q, long) && Sum(list[..8]) == 148
    ensures var selected := FieldsOf(list[..10]);
            && selected.Keys == KeysOf(list[..10]) <= FieldsOf(list).Keys && |selected| == 10 && Weight(selected) == 340
            && p.key in selected && q.key in selected && selected[p.key] == p.value && selected[q.key] == q.value
  {
    CrowdIsDistinct(list, p, q, long);
    CrowdSums(list, p, q, long);
    FieldsHold(list[..10]);
    FieldsHold(list);
    FieldAt(list[..10], 8);
    FieldAt(list[..10], 9);
    forall k | k in KeysOf(list[..10])
      ensures k in KeysOf(list)
    {
      var i :| 0 <= i < 10 && list[..10][i].key == k;
      assert list[i].key == k;
    }
  }

  /** No field chosen costs more than `q`, and no other as much unless `p` does. */
  lemma CrowdTop(list: seq<Field>, p: Field, q: Field, long: string, k: string)
    requires Places(list, p, q, long) && Crowded(p, q, long) && k in KeysOf(list[..10]) && k in FieldsOf(list[..10])
    ensures CostIn(FieldsOf(list[..10]))(k) <= CostOf(q)
    ensures k != q.key && k != p.key ==> CostIn(FieldsOf(list[..10]))(k) < CostOf(p)
  {
    CrowdIsDistinct(list, p, q, long);
    var i :| 0 <= i < 10 && list[..10][i].key == k;
    FieldAt(list[..10], i);
    CrowdCosts(list, p, q, long, i);
  }

  lemma GoesAtOnce(j: Json, selected: Fields, budget: int, hash: Hash, x: string)
    requires j.Obj? && x in selected && x != "" && Top(CostIn(selected), selected.Keys, x)
    requires selected.Keys !in FitsIn(j, selected, budget, hash) && selected.Keys - {x} in FitsIn(j, selected, budget, hash)
    ensures Outcomes(j, selected, budget, hash, Shows(selected.Keys - {x}))
  {
    ShedOne(CostIn(selected), FitsIn(j, selected, budget, hash), selected.Keys, x, Shows(selected.Keys - {x}));
  }

  lemma CrowdSheds(list: seq<Field>, p: Field, q: Field, long: string, selected: Fields, hash: Hash, x: string)
    requires Places(list, p, q, long) && Crowded(p, q, long) && Sum(list[..8]) == 148 && Digests(hash)
    requires selected == FieldsOf(list[..10]) && x in selected && x != "" && Top(CostIn(selected), selected.Keys, x)
    ensures Outcomes(Obj(FieldsOf(list)), selected, 512, hash, Shows(selected.Keys - {x}))
  {
    CrowdSelected(list, p, q, long);
    CrowdOverflows(list, p, q, long, selected, hash, x);
    GoesAtOnce(Obj(FieldsOf(list)), selected, 512, hash, x);
  }

  /** Where `x` is the costliest field chosen and not the one with the empty key, it may go. */
  lemma MayGo(list: seq<Field>, p: Field, q: Field, long: string, hash: Hash, x: string)
    requires Places(list, p, q, long) && Crowded(p, q, long) && Sum(list[..8]) == 148 && Digests(hash)
    requires x in FieldsOf(list[..10]) && x != "" && Top(CostIn(FieldsOf(list[..10])), FieldsOf(list[..10]).Keys, x)
    ensures var j, selected := Obj(FieldsOf(list)), FieldsOf(list[..10]);
            Result(j, 512, NO_PRIORITY, hash, LeftOf(j, selected, selected.Keys - {x}, hash))
  {
    var j, selected := Obj(FieldsOf(list)), FieldsOf(list[..10]);
    CrowdSheds(list, p, q, long, selected, hash, x);
    CrowdChosen(list, p, q, long, hash);
    CrowdSize(list, p, q, long);
    ComesIsResult(j, 512, NO_PRIORITY, hash, selected, Shows(selected.Keys - {x}));
  }

  /** Either of two fields of equal cost may be the one not shown. */
  lemma TieHasTwo(list: seq<Field>, p: Field, q: Field, long: string, hash: Hash)
    requires Places(list, p, q, long) && Crowded(p, q, long) && Sum(list[..8]) == 148 && Digests(hash)
    requires p.key != "" && q.key != "" && CostOf(p) == CostOf(q)
    ensures var j, selected := Obj(FieldsOf(list)), FieldsOf(list[..10]);
            && Result(j, 512, NO_PRIORITY, hash, LeftOf(j, selected, selected.Keys - {p.key}, hash))
            && Result(j, 512, NO_PRIORITY, hash, LeftOf(j, selected, selected.Keys - {q.key}, hash))
  {
    var selected := FieldsOf(list[..10]);
    CrowdSelected(list, p, q, long);
    forall k | k in selected
      ensures CostIn(selected)(k) <= CostOf(q)
    {
      CrowdTop(list, p, q, long, k);
    }
    MayGo(list, p, q, long, hash, p.key);
    MayGo(list, p, q, long, hash, q.key);
  }

  lemma LeftDiffer(j: Json, selected: Fields, x: string, y: string, hash: Hash)
    requires j.Obj? && selected.Keys <= j.fields.Keys && x in selected && y in selected && x != y
    ensures LeftOf(j, selected, selected.Keys - {x}, hash) != LeftOf(j, selected, selected.Keys - {y}, hash)
  {
    LeftKeys(j, selected, selected.Keys - {x}, hash);
    LeftKeys(j, selected, selected.Keys - {y}, hash);
    assert MarkerKey(j.fields, CUT_KEY) != x;
    assert y in LeftOf(j, selected, selected.Keys - {x}, hash).fields;
  }

  lemma ShortKeys()
    ensures StringSize("") == 2 && StringSize("x1") == 4 && StringSize("x2") == 4 && RuneLess("x1", "x2")
  {
    var one, two := "x1", "x2";
    assert forall i :: 0 <= i < |one| ==> Cost(one[i]) == 1;
    PlainCosts(one);
    assert forall i :: 0 <= i < |two| ==> Cost(two[i]) == 1;
    PlainCosts(two);
    assert Runes(one)[1..][0] < Runes(two)[1..][0];
  }

  function Text(key: string, text: string): Field { Field(key, Str(text)) }

  lemma TextCost(key: string, text: string)
    requires Plain(text)
    ensures CostOf(Text(key, text)) == StringSize(key) + |text| + 4
  {
    PlainSize(text);
  }

  /** An object of eleven fields: those of `Crowd`, with two texts to choose between. */
  function Twins(a: string, b: string, long: string): seq<Field> { Crowd(Text("x1", a), Text("x2", b), long) }

  lemma TwinsAreCrowded(a: string, b: string, long: string)
    requires Plain(a) && |a| == 88 && Plain(b) && |b| == 88 && Plain(long) && |long| == 200
    ensures Crowded(Text("x1", a), Text("x2", b), long) && CostOf(Text("x1", a)) == CostOf(Text("x2", b))
  {
    ShortKeys();
    TextCost("x1", a);
    TextCost("x2", b);
  }

  /** For any two plain texts of 88 characters and any plain key of 200: an object of 546
      bytes that within 512 has two results, the one without x1 and the one without x2. */
  lemma TwinsHaveTwoResults(a: string, b: string, long: string, hash: Hash)
    requires Plain(a) && |a| == 88 && Plain(b) && |b| == 88 && Plain(long) && |long| == 200 && Digests(hash)
    ensures var j, selected := Obj(FieldsOf(Twins(a, b, long))), FieldsOf(Twins(a, b, long)[..10]);
            && Size(j) == 546 && Chosen(j, 512, NO_PRIORITY, hash, selected)
            && Result(j, 512, NO_PRIORITY, hash, LeftOf(j, selected, selected.Keys - {"x1"}, hash))
            && Result(j, 512, NO_PRIORITY, hash, LeftOf(j, selected, selected.Keys - {"x2"}, hash))
            && LeftOf(j, selected, selected.Keys - {"x1"}, hash) != LeftOf(j, selected, selected.Keys - {"x2"}, hash)
  {
    var p, q, list := Text("x1", a), Text("x2", b), Twins(a, b, long);
    TwinsAreCrowded(a, b, long);
    CrowdPlaces(p, q, long);
    EightCuts(p, q, long);
    CrowdSize(list, p, q, long);
    CrowdChosen(list, p, q, long, hash);
    TieHasTwo(list, p, q, long, hash);
    CrowdSelected(list, p, q, long);
    LeftDiffer(Obj(FieldsOf(list)), FieldsOf(list[..10]), "x1", "x2", hash);
  }

  // --------------------------------------------------------- the empty key

  /** Where the costliest field is the one with the empty key, nothing is ever shown. */
  lemma NeverShown(cost: string -> nat, fits: iset<Keys>, all: Keys, out: Outcome)
    requires all !in fits && "" in all && (forall k :: k in all && k != "" ==> cost(k) < cost("")) && Sheds(cost, fits, all, out)
    ensures out == GaveUp
  {
  }

  /** Numbers and texts are settled, so the fields chosen are the only ones. */
  lemma ScalarsAreSettled(j: Json, small: Keeping, large: seq<Entry>, hash: Hash)
    requires j.Obj?
    requires forall i :: 0 <= i < |large| ==> large[i].key in j.fields && (j.fields[large[i].key].Str? || j.fields[large[i].key].Num?)
    ensures AllSettled(j, small, large, 512, NO_PRIORITY, hash)
  {
  }

  lemma CrowdScalars(list: seq<Field>, p: Field, q: Field, long: string, large: seq<Entry>, hash: Hash)
    requires Places(list, p, q, long) && Crowded(p, q, long) && q.value.Str? && large == [Entry(long, 205), EntryFor(q)]
    ensures AllSettled(Obj(FieldsOf(list)), Keep(FieldsOf(list[..9])), large, 512, NO_PRIORITY, hash)
  {
    CrowdIsDistinct(list, p, q, long);
    FieldAt(list, 9);
    FieldAt(list, 10);
    ScalarsAreSettled(Obj(FieldsOf(list)), Keep(FieldsOf(list[..9])), large, hash);
  }

  lemma CrowdIsSettled(list: seq<Field>, p: Field, q: Field, long: string, hash: Hash)
    requires Places(list, p, q, long) && Crowded(p, q, long) && Sum(list[..8]) == 148 && q.value.Str?
    ensures ChildrenSettled(Obj(FieldsOf(list)), 512, NO_PRIORITY, hash)
  {
    CrowdPieces(list, p, q, long);
    CrowdScalars(list, p, q, long, LargeEntries(Obj(FieldsOf(list)), 512, NO_PRIORITY), hash);
  }

  function Unnamed(text: string, other: string, long: string): seq<Field> { Crowd(Text("x2", other), Text("", text), long) }

  lemma UnnamedIsCrowded(text: string, other: string, long: string)
    requires Plain(text) && |text| == 91 && Plain(other) && |other| == 87 && Plain(long) && |long| == 200
    ensures Crowded(Text("x2", other), Text("", text), long)
    ensures CostOf(Text("x2", other)) == 95 && CostOf(Text("", text)) == 97
  {
    ShortKeys();
    TextCost("", text);
    TextCost("x2", other);
  }

  lemma OnlyGivesUp(list: seq<Field>, p: Field, q: Field, long: string, selected: Fields, hash: Hash, out: Outcome)
    requires Places(list, p, q, long) && Crowded(p, q, long) && Sum(list[..8]) == 148 && Digests(hash)
    requires q.key == "" && CostOf(p) < CostOf(q) && selected == FieldsOf(list[..10])
    requires Outcomes(Obj(FieldsOf(list)), selected, 512, hash, out)
    ensures out == GaveUp
  {
    CrowdSelected(list, p, q, long);
    CrowdOverflows(list, p, q, long, selected, hash, "");
    forall k | k in selected && k != ""
      ensures CostIn(selected)(k) < CostIn(selected)("")
    {
      CrowdTop(list, p, q, long, k);
    }
    NeverShown(CostIn(selected), FitsIn(Obj(FieldsOf(list)), selected, 512, hash), selected.Keys, out);
  }

  lemma OnlyTheCut(list: seq<Field>, p: Field, q: Field, long: string, hash: Hash, out: Json)
    requires Places(list, p, q, long) && Crowded(p, q, long) && Sum(list[..8]) == 148 && Digests(hash)
    requires q.key == "" && CostOf(p) < CostOf(q) && q.value.Str?
    requires Result(Obj(FieldsOf(list)), 512, NO_PRIORITY, hash, out)
    ensures out == CutContainer(Obj(FieldsOf(list)), 512, hash)
  {
    var j, selected := Obj(FieldsOf(list)), FieldsOf(list[..10]);
    CrowdSize(list, p, q, long);
    var s := SelectionOf(j, 512, NO_PRIORITY, hash, out);
    CrowdIsSettled(list, p, q, long, hash);
    CrowdChosen(list, p, q, long, hash);
    ChosenAgree(j, 512, NO_PRIORITY, hash, s, selected);
    var x := OutcomeOf(j, s, 512, hash, out);
    OnlyGivesUp(list, p, q, long, selected, hash, x);
  }

  lemma AllResultsAreTheCut(list: seq<Field>, p: Field, q: Field, long: string, hash: Hash)
    requires Places(list, p, q, long) && Crowded(p, q, long) && Sum(list[..8]) == 148 && Digests(hash)
    requires q.key == "" && CostOf(p) < CostOf(q) && q.value.Str?
    ensures var j := Obj(FieldsOf(list));
            forall out :: Result(j, 512, NO_PRIORITY, hash, out) ==> out == CutContainer(j, 512, hash)
  {
    var j := Obj(FieldsOf(list));
    forall out | Result(j, 512, NO_PRIORITY, hash, out)
      ensures out == CutContainer(j, 512, hash)
    {
      OnlyTheCut(list, p, q, long, hash, out);
    }
  }

  lemma WouldFit(list: seq<Field>, p: Field, q: Field, long: string, hash: Hash)
    requires Places(list, p, q, long) && Crowded(p, q, long) && Sum(list[..8]) == 148 && Digests(hash)
    ensures var j, selected := Obj(FieldsOf(list)), FieldsOf(list[..10]);
            Size(j) == 546 && Size(LeftOf(j, selected, selected.Keys - {q.key}, hash)) <= 512
  {
    CrowdSize(list, p, q, long);
    CrowdSelected(list, p, q, long);
    CrowdOverflows(list, p, q, long, FieldsOf(list[..10]), hash, q.key);
  }

  /** For any plain texts of 91 and 87 characters and any plain key of 200: an object of 546
      bytes whose only result within 512 is the container cut, although the fields chosen
      without the unnamed one would fit. */
  lemma UnnamedIsNeverShed(text: string, other: string, long: string, hash: Hash)
    requires Plain(text) && |text| == 91 && Plain(other) && |other| == 87 && Plain(long) && |long| == 200 && Digests(hash)
    ensures var j, selected := Obj(FieldsOf(Unnamed(text, other, long))), FieldsOf(Unnamed(text, other, long)[..10]);
            && Size(j) == 546 && Chosen(j, 512, NO_PRIORITY, hash, selected)
            && Size(LeftOf(j, selected, selected.Keys - {""}, hash)) <= 512
            && forall out :: Result(j, 512, NO_PRIORITY, hash, out) ==> out == CutContainer(j, 512, hash)
  {
    var p, q, list := Text("x2", other), Text("", text), Unnamed(text, other, long);
    UnnamedIsCrowded(text, other, long);
    CrowdPlaces(p, q, long);
    EightCuts(p, q, long);
    CrowdChosen(list, p, q, long, hash);
    WouldFit(list, p, q, long, hash);
    AllResultsAreTheCut(list, p, q, long, hash);
  }
}
