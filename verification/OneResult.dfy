/** When a projection has one result.  Every object visited must be one whose fitting no
    tie splits; ordinary values always are, within any budget. */
module OneResult {
  import opened Json
  import opened JsonSize
  import opened BoundedJson
  import opened Shedding
  import opened ObjectFit
  import opened MarkerCost
  import opened FieldChoice
  import opened ProjectionResults

  /** The items an array is sampled by. */
  predicate Sampled(n: nat, i: nat) { i < 2 || n <= i + 2 }

  /** No tie splits in any object visited. */
  ghost predicate Settled(j: Json, budget: int, priority: Priority, hash: Hash)
    decreases j, 3
  {
    Size(j) <= budget ||
    match j
    case Arr(_) =>
      budget <= CONTAINER_OVERHEAD || ItemsSettled(j, ItemBudget(budget), priority, hash)
    case Obj(_) =>
      budget < CONTAINER_OVERHEAD || (ChildrenSettled(j, budget, priority, hash) && ChosenUntied(j, budget, priority, hash))
    case _ => true
  }

  ghost predicate ItemsSettled(j: Json, budget: int, priority: Priority, hash: Hash)
    requires j.Arr?
    decreases j, 2
  {
    forall i :: 0 <= i < |j.items| && Sampled(|j.items|, i) ==> Settled(j.items[i], budget, priority, hash)
  }

  ghost predicate ChosenUntied(j: Json, budget: int, priority: Priority, hash: Hash)
    requires j.Obj?
  {
    forall selected: Fields :: Chosen(j, budget, priority, hash, selected) ==> Untied(j, selected, budget, hash)
  }

  /** Each large field is settled within any share it may be given. */
  ghost predicate ChildrenSettled(j: Json, budget: int, priority: Priority, hash: Hash)
    requires j.Obj?
    decreases j, 2
  {
    AllSettled(j, Keep(SmallFields(j, budget, priority)), LargeEntries(j, budget, priority), budget, priority, hash)
  }

  ghost predicate AllSettled(j: Json, small: Keeping, large: seq<Entry>, budget: int, priority: Priority, hash: Hash)
    requires j.Obj?
    decreases j, 1
  {
    forall i, kept: Keeping :: 0 <= i < |large| && Adds(j, small, large, i, budget, priority, hash, kept) && 64 < Room(budget, kept) ==>
      large[i].key in j.fields && Settled(j.fields[large[i].key], Share(budget, kept, large, i), priority, hash)
  }

  // -------------------------------------------------------------- uniqueness

  lemma SettledAt(j: Json, p: nat, budget: int, priority: Priority, hash: Hash)
    requires j.Arr? && p < |j.items| && Sampled(|j.items|, p) && ItemsSettled(j, budget, priority, hash)
    ensures Settled(j.items[p], budget, priority, hash)
  {
  }

  lemma LastAgrees(j: Json, from: nat, budget: int, priority: Priority, hash: Hash, a: seq<Json>, b: seq<Json>, last: nat)
    requires j.Arr? && |a| == |b| == last + 1 && from + |a| <= |j.items| && Sampled(|j.items|, from + last)
    requires Items(j, from, budget, priority, hash, a) && Items(j, from, budget, priority, hash, b)
    requires ItemsSettled(j, budget, priority, hash)
    ensures a[last] == b[last]
    decreases j, 0
  {
    ItemsLast(j, from, budget, priority, hash, a, last);
    ItemsLast(j, from, budget, priority, hash, b, last);
    SettledAt(j, from + last, budget, priority, hash);
    ResultIsUnique(j.items[from + last], budget, priority, hash, a[last], b[last]);
  }

  lemma FrontIsItems(j: Json, from: nat, budget: int, priority: Priority, hash: Hash, a: seq<Json>, last: nat)
    requires j.Arr? && |a| == last + 1 && from + |a| <= |j.items| && Items(j, from, budget, priority, hash, a)
    ensures Items(j, from, budget, priority, hash, a[..last])
  {
  }

  lemma SameSequence<T>(a: seq<T>, b: seq<T>, last: nat)
    requires |a| == |b| == last + 1 && a[..last] == b[..last] && a[last] == b[last]
    ensures a == b
  {
    assert a == a[..last] + [a[last]] && b == b[..last] + [b[last]];
  }

  lemma {:induction false} ItemsAgree(j: Json, from: nat, budget: int, priority: Priority, hash: Hash, a: seq<Json>, b: seq<Json>)
    requires j.Arr? && |a| == |b| && from + |a| <= |j.items| && (from + |a| <= 2 || |j.items| <= from + 2)
    requires Items(j, from, budget, priority, hash, a) && Items(j, from, budget, priority, hash, b)
    requires ItemsSettled(j, budget, priority, hash)
    ensures a == b
    decreases j, 1, |a|
  {
    if a != [] {
      var last := |a| - 1;
      FrontIsItems(j, from, budget, priority, hash, a, last);
      FrontIsItems(j, from, budget, priority, hash, b, last);
      LastAgrees(j, from, budget, priority, hash, a, b, last);
      ItemsAgree(j, from, budget, priority, hash, a[..last], b[..last]);
      SameSequence(a, b, last);
    }
  }

  lemma HeadItems(j: Json, budget: int, priority: Priority, hash: Hash, head: seq<Json>, tail: seq<Json>)
    requires j.Arr? && Samples(j, budget, priority, hash, head, tail)
    ensures |head| == Min(2, |j.items|) && Items(j, 0, budget, priority, hash, head)
  {
  }

  lemma TailItems(j: Json, budget: int, priority: Priority, hash: Hash, head: seq<Json>, tail: seq<Json>, from: nat)
    requires j.Arr? && Samples(j, budget, priority, hash, head, tail) && from == |j.items| - Min(2, |j.items| - Min(2, |j.items|))
    ensures from + |tail| == |j.items| && Items(j, from, budget, priority, hash, tail)
  {
  }

  lemma HeadsAgree(j: Json, budget: int, priority: Priority, hash: Hash, h: seq<Json>, t: seq<Json>, p: seq<Json>, q: seq<Json>)
    requires j.Arr? && Samples(j, budget, priority, hash, h, t) && Samples(j, budget, priority, hash, p, q)
    requires ItemsSettled(j, budget, priority, hash)
    ensures h == p
    decreases j, 2
  {
    HeadItems(j, budget, priority, hash, h, t);
    HeadItems(j, budget, priority, hash, p, q);
    ItemsAgree(j, 0, budget, priority, hash, h, p);
  }

  lemma TailsAgree(j: Json, budget: int, priority: Priority, hash: Hash, h: seq<Json>, t: seq<Json>, p: seq<Json>, q: seq<Json>)
    requires j.Arr? && Samples(j, budget, priority, hash, h, t) && Samples(j, budget, priority, hash, p, q)
    requires ItemsSettled(j, budget, priority, hash)
    ensures t == q
    decreases j, 2
  {
    var from := |j.items| - Min(2, |j.items| - Min(2, |j.items|));
    TailItems(j, budget, priority, hash, h, t, from);
    TailItems(j, budget, priority, hash, p, q, from);
    ItemsAgree(j, from, budget, priority, hash, t, q);
  }

  lemma SamplesOf(j: Json, budget: int, priority: Priority, hash: Hash, out: Json) returns (head: seq<Json>, tail: seq<Json>)
    requires j.Arr? && CONTAINER_OVERHEAD < budget && j.items != [] && ArrayResult(j, budget, priority, hash, out)
    ensures Samples(j, ItemBudget(budget), priority, hash, head, tail)
    ensures |head| + |tail| <= |j.items| && out == FitCut(ArrayDetail(j, head, tail, hash), budget)
  {
    head, tail :| Samples(j, ItemBudget(budget), priority, hash, head, tail) &&
                  out == FitCut(ArrayDetail(j, head, tail, hash), budget);
  }

  lemma ArrayAgrees(j: Json, budget: int, priority: Priority, hash: Hash, a: Json, b: Json)
    requires j.Arr? && (CONTAINER_OVERHEAD < budget ==> ItemsSettled(j, ItemBudget(budget), priority, hash))
    requires ArrayResult(j, budget, priority, hash, a) && ArrayResult(j, budget, priority, hash, b)
    ensures a == b
    decreases j, 3
  {
    if CONTAINER_OVERHEAD < budget && j.items != [] {
      var h, t := SamplesOf(j, budget, priority, hash, a);
      var p, q := SamplesOf(j, budget, priority, hash, b);
      HeadsAgree(j, ItemBudget(budget), priority, hash, h, t, p, q);
      TailsAgree(j, ItemBudget(budget), priority, hash, h, t, p, q);
    }
  }

  lemma OneAgrees(j: Json, key: string, share: int, budget: int, priority: Priority, hash: Hash, kept: Keeping, a: Keeping, b: Keeping)
    requires j.Obj?
    requires AddsOne(j, key, share, budget, priority, hash, kept, a) && AddsOne(j, key, share, budget, priority, hash, kept, b)
    requires 64 < Room(budget, kept) ==> key in j.fields && Settled(j.fields[key], share, priority, hash)
    ensures a == b
    decreases j, 0
  {
    if 64 < Room(budget, kept) {
      var v := Summary(j, key, share, budget, priority, hash, kept, a);
      var w := Summary(j, key, share, budget, priority, hash, kept, b);
      ResultIsUnique(j.fields[key], share, priority, hash, v, w);
    }
  }

  lemma {:induction false} AddsAgree(j: Json, small: Keeping, large: seq<Entry>, n: nat, budget: int, priority: Priority, hash: Hash,
                                     a: Keeping, b: Keeping)
    requires j.Obj? && n <= |large| && AllSettled(j, small, large, budget, priority, hash)
    requires Adds(j, small, large, n, budget, priority, hash, a) && Adds(j, small, large, n, budget, priority, hash, b)
    ensures a == b
    decreases j, 1, n
  {
    if 0 < n {
      var i := n - 1;
      var x := Preceding(j, small, large, i, budget, priority, hash, a);
      var y := Preceding(j, small, large, i, budget, priority, hash, b);
      AddsAgree(j, small, large, i, budget, priority, hash, x, y);
      OneAgrees(j, large[i].key, Share(budget, x, large, i), budget, priority, hash, x, a, b);
    }
  }

  lemma ChosenAgree(j: Json, budget: int, priority: Priority, hash: Hash, a: Fields, b: Fields)
    requires j.Obj? && ChildrenSettled(j, budget, priority, hash)
    requires Chosen(j, budget, priority, hash, a) && Chosen(j, budget, priority, hash, b)
    ensures a == b
    decreases j, 2
  {
    var large := LargeEntries(j, budget, priority);
    AddsAgree(j, Keep(SmallFields(j, budget, priority)), large, |large|, budget, priority, hash, Keep(a), Keep(b));
  }

  /** What an outcome of shedding comes to. */
  function Comes(j: Json, selected: Fields, budget: int, hash: Hash, out: Outcome): Json
    requires j.Obj?
  {
    match out
    case GaveUp => CutContainer(j, budget, hash)
    case Shows(left) => LeftOf(j, selected, left, hash)
  }

  lemma OutcomeOf(j: Json, selected: Fields, budget: int, hash: Hash, a: Json) returns (out: Outcome)
    requires j.Obj? && ResultOf(j, selected, budget, hash, a)
    ensures Outcomes(j, selected, budget, hash, out) && a == Comes(j, selected, budget, hash, out)
  {
    if Outcomes(j, selected, budget, hash, GaveUp) && a == CutContainer(j, budget, hash) {
      out := GaveUp;
    } else {
      var left :| Outcomes(j, selected, budget, hash, Shows(left)) && a == LeftOf(j, selected, left, hash);
      out := Shows(left);
    }
  }

  lemma FitsAgree(j: Json, selected: Fields, budget: int, hash: Hash, a: Json, b: Json)
    requires j.Obj? && selected.Keys <= j.fields.Keys && Untied(j, selected, budget, hash)
    requires ResultOf(j, selected, budget, hash, a) && ResultOf(j, selected, budget, hash, b)
    ensures a == b
  {
    ResultIsForcedIff(j, selected, budget, hash);
    var x := OutcomeOf(j, selected, budget, hash, a);
    var y := OutcomeOf(j, selected, budget, hash, b);
    assert x == y;
  }

  lemma SelectionOf(j: Json, budget: int, priority: Priority, hash: Hash, out: Json) returns (selected: Fields)
    requires j.Obj? && CONTAINER_OVERHEAD <= budget < Size(j) && Result(j, budget, priority, hash, out)
    ensures Chosen(j, budget, priority, hash, selected) && ResultOf(j, selected, budget, hash, out)
  {
    assert ObjectResult(j, budget, priority, hash, out);
    selected :| Chosen(j, budget, priority, hash, selected) && ResultOf(j, selected, budget, hash, out);
  }

  lemma ObjectAgrees(j: Json, budget: int, priority: Priority, hash: Hash, a: Json, b: Json)
    requires j.Obj? && budget < Size(j) && Settled(j, budget, priority, hash)
    requires Result(j, budget, priority, hash, a) && Result(j, budget, priority, hash, b)
    ensures a == b
    decreases j, 3
  {
    if CONTAINER_OVERHEAD <= budget {
      var s := SelectionOf(j, budget, priority, hash, a);
      var t := SelectionOf(j, budget, priority, hash, b);
      ChosenAgree(j, budget, priority, hash, s, t);
      ChosenHolds(j, budget, priority, hash, s);
      FitsAgree(j, s, budget, hash, a, b);
    }
  }

  /** One result, whatever order the maps are walked in, where no tie splits. */
  lemma ResultIsUnique(j: Json, budget: int, priority: Priority, hash: Hash, a: Json, b: Json)
    requires Settled(j, budget, priority, hash)
    requires Result(j, budget, priority, hash, a) && Result(j, budget, priority, hash, b)
    ensures a == b
    decreases j, 4
  {
    if budget < Size(j) {
      match j
      case Arr(_) => ArrayAgrees(j, budget, priority, hash, a, b);
      case Obj(_) => ObjectAgrees(j, budget, priority, hash, a, b);
      case _ =>
    }
  }

  // ------------------------------------------------------ only where none splits

  lemma LeftKeys(j: Json, selected: Fields, s: Keys, hash: Hash)
    requires j.Obj? && selected.Keys <= j.fields.Keys && s <= selected.Keys
    ensures LeftOf(j, selected, s, hash).Obj?
    ensures LeftOf(j, selected, s, hash).fields.Keys == s + {MarkerKey(j.fields, CUT_KEY)}
  {
    RestrictKeys(selected, s);
  }

  /** No marker in the object mentions a word. */
  ghost predicate Silent(out: Json, word: string) {
    out.Obj? && forall k :: k in out.fields ==> out.fields[k].Obj? ==> word !in out.fields[k].fields
  }

  lemma CutIsSilent(marker: Fields, budget: int, word: string)
    requires word !in marker
    ensures Silent(FitCut(marker, budget), word)
  {
    assert Silent(Cut(Obj(marker)), word) && Silent(Cut(Obj(marker - DETAILS)), word) && Silent(BARE, word);
  }

  lemma ContainerCountsNothing(j: Json, hash: Hash)
    requires j.Obj?
    ensures "omitted_keys" !in ContainerMarker(j, hash)
  {
  }

  lemma LeftCounts(j: Json, selected: Fields, s: Keys, hash: Hash)
    requires j.Obj?
    ensures !Silent(LeftOf(j, selected, s, hash), "omitted_keys")
  {
    var key, out := MarkerKey(j.fields, CUT_KEY), LeftOf(j, selected, s, hash);
    assert key in out.fields && out.fields[key].Obj? && "omitted_keys" in out.fields[key].fields;
  }

  lemma LeftIsNoCut(j: Json, selected: Fields, s: Keys, budget: int, hash: Hash)
    requires j.Obj?
    ensures LeftOf(j, selected, s, hash) != CutContainer(j, budget, hash)
  {
    LeftCounts(j, selected, s, hash);
    ContainerCountsNothing(j, hash);
    CutIsSilent(ContainerMarker(j, hash), budget, "omitted_keys");
  }

  /** Different outcomes come to different results. */
  lemma ComesDiffer(j: Json, selected: Fields, budget: int, hash: Hash, x: Outcome, y: Outcome)
    requires j.Obj? && selected.Keys <= j.fields.Keys && x != y
    requires x.Shows? ==> x.keys <= selected.Keys
    requires y.Shows? ==> y.keys <= selected.Keys
    ensures Comes(j, selected, budget, hash, x) != Comes(j, selected, budget, hash, y)
  {
    if x.Shows? && y.Shows? {
      LeftKeys(j, selected, x.keys, hash);
      LeftKeys(j, selected, y.keys, hash);
      assert MarkerKey(j.fields, CUT_KEY) !in selected.Keys;
    } else if x.Shows? {
      LeftIsNoCut(j, selected, x.keys, budget, hash);
    } else {
      LeftIsNoCut(j, selected, y.keys, budget, hash);
    }
  }

  lemma ComesIsResult(j: Json, budget: int, priority: Priority, hash: Hash, selected: Fields, x: Outcome)
    requires j.Obj? && CONTAINER_OVERHEAD <= budget < Size(j) && Chosen(j, budget, priority, hash, selected)
    requires Outcomes(j, selected, budget, hash, x)
    ensures Result(j, budget, priority, hash, Comes(j, selected, budget, hash, x))
    ensures x.Shows? ==> x.keys <= selected.Keys
  {
    var out := Comes(j, selected, budget, hash, x);
    if x.Shows? { ShownFits(CostIn(selected), FitsIn(j, selected, budget, hash), selected.Keys, x.keys); }
    assert ResultOf(j, selected, budget, hash, out);
    assert ObjectResult(j, budget, priority, hash, out);
  }

  lemma TwoOutcomes(j: Json, selected: Fields, budget: int, hash: Hash) returns (x: Outcome, y: Outcome)
    requires j.Obj? && selected.Keys <= j.fields.Keys && !Untied(j, selected, budget, hash)
    ensures Outcomes(j, selected, budget, hash, x) && Outcomes(j, selected, budget, hash, y) && x != y
  {
    ResultIsForcedIff(j, selected, budget, hash);
    var cost, fits := CostIn(selected), FitsIn(j, selected, budget, hash);
    x, y :| Sheds(cost, fits, selected.Keys, x) && Sheds(cost, fits, selected.Keys, y) && x != y;
  }

  lemma TieHasTwoResults(j: Json, budget: int, priority: Priority, hash: Hash, selected: Fields) returns (a: Json, b: Json)
    requires j.Obj? && CONTAINER_OVERHEAD <= budget < Size(j) && Chosen(j, budget, priority, hash, selected)
    requires !Untied(j, selected, budget, hash)
    ensures Result(j, budget, priority, hash, a) && Result(j, budget, priority, hash, b) && a != b
  {
    ChosenHolds(j, budget, priority, hash, selected);
    var x, y := TwoOutcomes(j, selected, budget, hash);
    ComesIsResult(j, budget, priority, hash, selected, x);
    ComesIsResult(j, budget, priority, hash, selected, y);
    ComesDiffer(j, selected, budget, hash, x, y);
    a, b := Comes(j, selected, budget, hash, x), Comes(j, selected, budget, hash, y);
  }

  ghost predicate HasOneResult(j: Json, budget: int, priority: Priority, hash: Hash) {
    forall a, b :: Result(j, budget, priority, hash, a) && Result(j, budget, priority, hash, b) ==> a == b
  }

  /** An object whose large fields are settled has one result if and only if no tie splits
      the fields chosen. */
  lemma ObjectHasOneResultIff(j: Json, budget: int, priority: Priority, hash: Hash, selected: Fields)
    requires j.Obj? && CONTAINER_OVERHEAD <= budget < Size(j) && ChildrenSettled(j, budget, priority, hash)
    requires Chosen(j, budget, priority, hash, selected)
    ensures HasOneResult(j, budget, priority, hash) <==> Untied(j, selected, budget, hash)
  {
    if Untied(j, selected, budget, hash) {
      forall s: Fields | Chosen(j, budget, priority, hash, s)
        ensures Untied(j, s, budget, hash)
      {
        ChosenAgree(j, budget, priority, hash, s, selected);
      }
      forall a, b | Result(j, budget, priority, hash, a) && Result(j, budget, priority, hash, b)
        ensures a == b
      {
        ResultIsUnique(j, budget, priority, hash, a, b);
      }
    } else {
      var a, b := TieHasTwoResults(j, budget, priority, hash, selected);
    }
  }

  // ---------------------------------------------------------- ordinary values

  /** Nothing is shed from a selection that fits whole, so no tie splits it. */
  lemma WholeIsUntied(j: Json, selected: Fields, budget: int, hash: Hash)
    requires j.Obj? && selected.Keys <= j.fields.Keys && selected.Keys in FitsIn(j, selected, budget, hash)
    ensures Untied(j, selected, budget, hash)
  {
    var cost, fits := CostIn(selected), FitsIn(j, selected, budget, hash);
    forall x, y | Sheds(cost, fits, selected.Keys, x) && Sheds(cost, fits, selected.Keys, y)
      ensures x == y
    {
      FitsAtOnce(cost, fits, selected.Keys, x);
      FitsAtOnce(cost, fits, selected.Keys, y);
    }
    ResultIsForcedIff(j, selected, budget, hash);
  }

  /** A value with no object that uses the marker's own key or has a thousand fields. */
  predicate Ordinary(j: Json) {
    match j
    case Arr(items) => forall i :: 0 <= i < |items| ==> Ordinary(items[i])
    case Obj(fields) => CUT_KEY !in fields && |fields| < 1000 && forall k :: k in fields ==> Ordinary(fields[k])
    case _ => true
  }

  /** The marker of an ordinary object below a megabyte stays within its reserve. */
  lemma OrdinaryMarker(j: Json, omitted: nat, hash: Hash)
    requires j.Obj? && Ordinary(j) && Size(j) < 1000000 && omitted <= |j.fields| && Digests(hash)
    ensures EntryCost(MarkerKey(j.fields, CUT_KEY), MarkerOf(j, hash)(omitted)) <= 170
  {
    MarkerEntry(j, CUT_KEY, omitted, hash);
    CutKeySize();
    SixDigits(Size(j));
    Digits(|j.fields|);
    Digits(omitted);
  }

  lemma OrdinaryIsUntied(j: Json, budget: int, priority: Priority, hash: Hash, selected: Fields)
    requires j.Obj? && Ordinary(j) && Size(j) < 1000000 && Digests(hash)
    requires CONTAINER_OVERHEAD <= budget && Chosen(j, budget, priority, hash, selected)
    ensures Untied(j, selected, budget, hash)
  {
    ChosenHolds(j, budget, priority, hash, selected);
    SubsetSize(selected.Keys, j.fields.Keys);
    var omitted: nat := |j.fields| - |selected.Keys|;
    OrdinaryMarker(j, omitted, hash);
    RoomSuffices(selected, MarkerKey(j.fields, CUT_KEY), MarkerOf(j, hash), |j.fields|, budget, omitted);
    WholeIsUntied(j, selected, budget, hash);
  }

  lemma {:induction false} ItemWithin(items: seq<Json>, i: nat)
    requires i < |items|
    ensures Size(items[i]) <= ItemsSize(items)
    decreases i
  {
    if 0 < i { ItemWithin(items[1..], i - 1); }
  }

  lemma OrdinaryItems(j: Json, budget: int, priority: Priority, hash: Hash)
    requires j.Arr? && Ordinary(j) && Size(j) < 1000000 && Digests(hash)
    ensures ItemsSettled(j, budget, priority, hash)
    decreases j, 2
  {
    forall i | 0 <= i < |j.items|
      ensures Settled(j.items[i], budget, priority, hash)
    {
      ItemWithin(j.items, i);
      OrdinaryIsSettled(j.items[i], budget, priority, hash);
    }
  }

  lemma OrdinaryField(j: Json, key: string, budget: int, priority: Priority, hash: Hash)
    requires j.Obj? && Ordinary(j) && Size(j) < 1000000 && Digests(hash) && key in j.fields
    ensures Settled(j.fields[key], budget, priority, hash)
    decreases j, 0
  {
    ObjectExceedsField(j, key);
    OrdinaryIsSettled(j.fields[key], budget, priority, hash);
  }

  lemma OrdinaryFields(j: Json, small: Keeping, large: seq<Entry>, budget: int, priority: Priority, hash: Hash)
    requires j.Obj? && Ordinary(j) && Size(j) < 1000000 && Digests(hash) && Open(j, large, 0, small, budget)
    ensures AllSettled(j, small, large, budget, priority, hash)
    decreases j, 1
  {
    forall i, kept: Keeping | 0 <= i < |large| && Adds(j, small, large, i, budget, priority, hash, kept) && 64 < Room(budget, kept)
      ensures large[i].key in j.fields && Settled(j.fields[large[i].key], Share(budget, kept, large, i), priority, hash)
    {
      OrdinaryField(j, large[i].key, Share(budget, kept, large, i), priority, hash);
    }
  }

  lemma OrdinaryObject(j: Json, budget: int, priority: Priority, hash: Hash)
    requires j.Obj? && Ordinary(j) && Size(j) < 1000000 && Digests(hash) && CONTAINER_OVERHEAD <= budget
    ensures ChildrenSettled(j, budget, priority, hash) && ChosenUntied(j, budget, priority, hash)
    decreases j, 2
  {
    StartsOpen(j, budget, priority);
    OrdinaryFields(j, Keep(SmallFields(j, budget, priority)), LargeEntries(j, budget, priority), budget, priority, hash);
    forall selected: Fields | Chosen(j, budget, priority, hash, selected)
      ensures Untied(j, selected, budget, hash)
    {
      OrdinaryIsUntied(j, budget, priority, hash, selected);
    }
  }

  lemma OrdinaryIsSettled(j: Json, budget: int, priority: Priority, hash: Hash)
    requires Ordinary(j) && Size(j) < 1000000 && Digests(hash)
    ensures Settled(j, budget, priority, hash)
    decreases j, 3
  {
    match j
    case Arr(_) => OrdinaryItems(j, ItemBudget(budget), priority, hash);
    case Obj(_) => if CONTAINER_OVERHEAD <= budget { OrdinaryObject(j, budget, priority, hash); }
    case _ =>
  }

  /** What a caller can check beforehand: an ordinary value below a megabyte has one result
      within every budget and under every priority. */
  lemma OrdinaryHasOneResult(j: Json, budget: int, priority: Priority, hash: Hash)
    requires Ordinary(j) && Size(j) < 1000000 && Digests(hash)
    ensures HasOneResult(j, budget, priority, hash)
  {
    OrdinaryIsSettled(j, budget, priority, hash);
    forall a, b | Result(j, budget, priority, hash, a) && Result(j, budget, priority, hash, b)
      ensures a == b
    {
      ResultIsUnique(j, budget, priority, hash, a, b);
    }
  }
}
