/** Fitting an object into its budget: fields are shed, largest first, and counted in the
    marker, until the encoding fits. */
module ObjectFit {
  import opened Options
  import opened Json
  import opened JsonSize
  import opened BoundedJson
  import opened Observation
  import opened Shedding

  lemma FewerKeys(a: Fields, b: Fields)
    requires a.Keys <= b.Keys
    ensures |a| <= |b|
  {
    SubsetSize(a.Keys, b.Keys);
    assert |a| == |a.Keys| && |b| == |b.Keys|;
  }

  function Restrict(fields: Fields, s: Keys): Fields { map k | k in s && k in fields :: fields[k] }

  /** What is shown when the fields `s` of the selection are left of `n`: those fields, and
      under `key` the marker that counts the others. */
  function Left(selected: Fields, key: string, marker: nat -> Json, n: nat, s: Keys): Json {
    Obj(Restrict(selected, s)[key := marker(if |s| <= n then n - |s| else 0)])
  }

  function CostIn(selected: Fields): string -> nat {
    (k: string) => if k in selected then EntryCost(k, selected[k]) else 0
  }

  function MarkerOf(j: Json, hash: Hash): nat -> Json
    requires j.Obj?
  {
    (omitted: nat) => ObjectMarker(j, omitted, hash)
  }

  // ------------------------------------------------------------------- sizes

  lemma {:induction false} DecimalGrows(n: nat)
    ensures |Decimal(n)| <= |Decimal(n + 1)| <= |Decimal(n)| + 1
  {
    if 10 <= n {
      if (n + 1) / 10 != n / 10 {
        assert (n + 1) / 10 == n / 10 + 1;
        DecimalGrows(n / 10);
      }
    } else if n == 9 {
      assert |Decimal(1)| == 1;
    }
  }

  lemma MarkerSize(j: Json, omitted: nat, hash: Hash)
    requires j.Obj?
    ensures Size(ObjectMarker(j, omitted, hash)) ==
            Weight(ObjectBase(j, hash)) + StringSize("omitted_keys") + 3 + |Decimal(omitted)|
  {
    var base := ObjectBase(j, hash);
    assert "omitted_keys" !in base;
    WeightAdds(base, "omitted_keys", Count(omitted));
    SizeIsWeight(base["omitted_keys" := Count(omitted)]);
  }

  lemma RestrictKeys(selected: Fields, s: Keys)
    requires s <= selected.Keys
    ensures Restrict(selected, s).Keys == s && |Restrict(selected, s)| == |s|
  {
    assert Restrict(selected, s).Keys == s;
    assert |Restrict(selected, s)| == |Restrict(selected, s).Keys|;
  }

  lemma WeightWithout(selected: Fields, s: Keys, k: string)
    requires s <= selected.Keys && k in s
    ensures Weight(Restrict(selected, s)) == EntryCost(k, selected[k]) + Weight(Restrict(selected, s - {k}))
  {
    var less := Restrict(selected, s - {k});
    assert Restrict(selected, s) == less[k := selected[k]];
    WeightAdds(less, k, selected[k]);
  }

  lemma MarkedSize(out: Json, kept: Fields, key: string, marker: Json)
    requires key !in kept && out == Obj(kept[key := marker])
    ensures Size(out) == 1 + Weight(kept) + EntryCost(key, marker)
  {
    WeightAdds(kept, key, marker);
    SizeIsWeight(kept[key := marker]);
  }

  lemma LeftAt(selected: Fields, key: string, marker: nat -> Json, n: nat, s: Keys, m: nat)
    requires |s| + m == n
    ensures Left(selected, key, marker, n, s) == Obj(Restrict(selected, s)[key := marker(m)])
  {
    assert (if |s| <= n then n - |s| else 0) == m;
  }

  lemma SizeOfLeft(selected: Fields, key: string, marker: nat -> Json, n: nat, s: Keys, m: nat)
    requires key !in selected && |s| + m == n
    ensures Size(Left(selected, key, marker, n, s)) == 1 + Weight(Restrict(selected, s)) + EntryCost(key, marker(m))
  {
    LeftAt(selected, key, marker, n, s, m);
    MarkedSize(Left(selected, key, marker, n, s), Restrict(selected, s), key, marker(m));
  }

  /** The marker's encoding grows by at most one byte with each omission. */
  ghost predicate Modest(marker: nat -> Json) {
    forall m: nat, p: nat | p == m + 1 :: Size(marker(m)) <= Size(marker(p)) <= Size(marker(m)) + 1
  }

  lemma MarkerGrows(j: Json, m: nat, hash: Hash)
    requires j.Obj?
    ensures Size(ObjectMarker(j, m, hash)) <= Size(ObjectMarker(j, m + 1, hash)) <= Size(ObjectMarker(j, m, hash)) + 1
  {
    MarkerSize(j, m, hash);
    MarkerSize(j, m + 1, hash);
    DecimalGrows(m);
  }

  lemma MarkerIsModest(j: Json, hash: Hash)
    requires j.Obj?
    ensures Modest(MarkerOf(j, hash))
  {
    var marker := MarkerOf(j, hash);
    forall m: nat, p: nat | p == m + 1
      ensures Size(marker(m)) <= Size(marker(p)) <= Size(marker(m)) + 1
    {
      MarkerGrows(j, m, hash);
    }
  }

  /** Shedding a field always helps: its cost outweighs a longer count of omissions. */
  lemma ShedShrinks(selected: Fields, key: string, marker: nat -> Json, n: nat, s: Keys, k: string)
    requires key !in selected && |selected.Keys| <= n && Modest(marker) && s <= selected.Keys && k in s
    ensures Size(Left(selected, key, marker, n, s - {k})) < Size(Left(selected, key, marker, n, s))
  {
    SubsetSize(s, selected.Keys);
    var m: nat := n - |s|;
    assert |s - {k}| == |s| - 1;
    SizeOfLeft(selected, key, marker, n, s, m);
    SizeOfLeft(selected, key, marker, n, s - {k}, m + 1);
    WeightWithout(selected, s, k);
  }

  lemma {:induction false} FewerIsSmaller(selected: Fields, key: string, marker: nat -> Json, n: nat, s: Keys, t: Keys)
    requires key !in selected && |selected.Keys| <= n && Modest(marker) && s <= t <= selected.Keys
    ensures Size(Left(selected, key, marker, n, s)) <= Size(Left(selected, key, marker, n, t))
    decreases |t|
  {
    if s != t {
      assert t == s + (t - s);
      var k :| k in t - s;
      ShedShrinks(selected, key, marker, n, t, k);
      FewerIsSmaller(selected, key, marker, n, s, t - {k});
    }
  }

  lemma CheaperIsSmaller(selected: Fields, key: string, marker: nat -> Json, n: nat, s: Keys, a: string, t: Keys, b: string)
    requires key !in selected && |selected.Keys| <= n && s <= selected.Keys && t <= selected.Keys
    requires a in s && b in t && s - {a} == t - {b} && EntryCost(a, selected[a]) <= EntryCost(b, selected[b])
    ensures Size(Left(selected, key, marker, n, s)) <= Size(Left(selected, key, marker, n, t))
  {
    SubsetSize(s, selected.Keys);
    assert |s - {a}| == |s| - 1 && |t - {b}| == |t| - 1;
    var m: nat := n - |s|;
    SizeOfLeft(selected, key, marker, n, s, m);
    SizeOfLeft(selected, key, marker, n, t, m);
    WeightWithout(selected, s, a);
    WeightWithout(selected, t, b);
  }

  /** The parts of the selection that fit with their marker. */
  ghost function Fitting(selected: Fields, key: string, marker: nat -> Json, n: nat, budget: int): iset<Keys> {
    iset s: Keys | s <= selected.Keys && Size(Left(selected, key, marker, n, s)) <= budget
  }

  lemma FittingIsMonotone(selected: Fields, key: string, marker: nat -> Json, n: nat, budget: int)
    requires key !in selected && |selected.Keys| <= n && Modest(marker)
    ensures Monotone(Fitting(selected, key, marker, n, budget), selected.Keys)
  {
    var fits := Fitting(selected, key, marker, n, budget);
    forall s, t | s <= t <= selected.Keys && t in fits
      ensures s in fits
    {
      FewerIsSmaller(selected, key, marker, n, s, t);
    }
  }

  lemma FittingSwaps(selected: Fields, key: string, marker: nat -> Json, n: nat, budget: int)
    requires key !in selected && |selected.Keys| <= n && Modest(marker)
    ensures Swaps(CostIn(selected), Fitting(selected, key, marker, n, budget), selected.Keys)
  {
    var cost, fits, all := CostIn(selected), Fitting(selected, key, marker, n, budget), selected.Keys;
    forall s, t, a, b | s <= all && t <= all && a in s && b in t && s - {a} == t - {b} && cost(a) <= cost(b) && t in fits
      ensures s in fits
    {
      CheaperIsSmaller(selected, key, marker, n, s, a, t, b);
    }
  }

  /** A selection that leaves room for its marker fits whole. */
  lemma RoomSuffices(selected: Fields, key: string, marker: nat -> Json, n: nat, budget: int, m: nat)
    requires key !in selected && |selected.Keys| + m == n
    requires Size(Obj(selected)) + EntryCost(key, marker(m)) <= budget
    ensures selected.Keys in Fitting(selected, key, marker, n, budget)
  {
    SizeOfLeft(selected, key, marker, n, selected.Keys, m);
    assert Restrict(selected, selected.Keys) == selected;
    SizeIsWeight(selected);
  }

  // --------------------------------------------------------------- the object

  /** The parts of a selection of `j`'s fields that fit the budget with the marker. */
  ghost function FitsIn(j: Json, selected: Fields, budget: int, hash: Hash): iset<Keys>
    requires j.Obj?
  {
    Fitting(selected, MarkerKey(j.fields, CUT_KEY), MarkerOf(j, hash), |j.fields|, budget)
  }

  function LeftOf(j: Json, selected: Fields, s: Keys, hash: Hash): Json
    requires j.Obj?
  {
    Left(selected, MarkerKey(j.fields, CUT_KEY), MarkerOf(j, hash), |j.fields|, s)
  }

  lemma FieldsAreLawful(j: Json, selected: Fields, budget: int, hash: Hash)
    requires j.Obj? && selected.Keys <= j.fields.Keys
    ensures Lawful(CostIn(selected), FitsIn(j, selected, budget, hash), selected.Keys)
  {
    var key, marker, n := MarkerKey(j.fields, CUT_KEY), MarkerOf(j, hash), |j.fields|;
    MarkerIsModest(j, hash);
    SubsetSize(selected.Keys, j.fields.Keys);
    FittingIsMonotone(selected, key, marker, n, budget);
    FittingSwaps(selected, key, marker, n, budget);
  }

  /** Every outcome of shedding a selection of `j`'s fields. */
  ghost predicate Outcomes(j: Json, selected: Fields, budget: int, hash: Hash, out: Outcome)
    requires j.Obj?
  {
    Sheds(CostIn(selected), FitsIn(j, selected, budget, hash), selected.Keys, out)
  }

  /** Fitting can give up if and only if the fields no costlier than the one with the
      empty key are too large together; with no empty key, if and only if the marker
      alone is. */
  lemma GivesUpExactly(j: Json, selected: Fields, budget: int, hash: Hash)
    requires j.Obj? && selected.Keys <= j.fields.Keys
    ensures Outcomes(j, selected, budget, hash, GaveUp) <==>
            budget < Size(LeftOf(j, selected, Stop(CostIn(selected), selected.Keys), hash))
  {
    FieldsAreLawful(j, selected, budget, hash);
    GivesUpIff(CostIn(selected), FitsIn(j, selected, budget, hash), selected.Keys);
    assert Stop(CostIn(selected), selected.Keys) <= selected.Keys;
  }

  /** Fitting can succeed if and only if the empty-key field fits with the fields strictly
      cheaper; with no empty key, if and only if the marker alone fits. */
  lemma SucceedsExactly(j: Json, selected: Fields, budget: int, hash: Hash)
    requires j.Obj? && selected.Keys <= j.fields.Keys
    ensures (exists left :: Outcomes(j, selected, budget, hash, Shows(left))) <==>
            Size(LeftOf(j, selected, Floor(CostIn(selected), selected.Keys), hash)) <= budget
  {
    FieldsAreLawful(j, selected, budget, hash);
    ShowsSomeIff(CostIn(selected), FitsIn(j, selected, budget, hash), selected.Keys);
    assert Floor(CostIn(selected), selected.Keys) <= selected.Keys;
  }

  /** Two objects a fitting may return show equally many fields, and differ only in
      fields of equal cost. */
  lemma ShownFieldsAgree(j: Json, selected: Fields, budget: int, hash: Hash, a: Keys, b: Keys)
    requires j.Obj? && selected.Keys <= j.fields.Keys
    requires Outcomes(j, selected, budget, hash, Shows(a)) && Outcomes(j, selected, budget, hash, Shows(b))
    ensures |a| == |b| && forall x, y | x in a - b && y in b - a :: CostIn(selected)(x) == CostIn(selected)(y)
  {
    var cost, fits := CostIn(selected), FitsIn(j, selected, budget, hash);
    FieldsAreLawful(j, selected, budget, hash);
    ShownIsFinal(cost, fits, selected.Keys, selected.Keys, a);
    ShownIsFinal(cost, fits, selected.Keys, selected.Keys, b);
    ShownCountIsForced(cost, fits, selected.Keys, a, b);
  }

  /** A field `r` that fits with the strictly cheaper fields of the selection, but not
      with all that cost no more, at least as costly as the field with the empty key. */
  predicate SplitsAt(j: Json, selected: Fields, budget: int, hash: Hash, r: string)
    requires j.Obj?
  {
    var cost, all := CostIn(selected), selected.Keys;
    && r in selected && ("" in selected ==> cost("") <= cost(r))
    && Size(LeftOf(j, selected, AndCheaper(cost, all, r), hash)) <= budget
    && budget < Size(LeftOf(j, selected, UpTo(cost, all, r), hash))
  }

  /** What the selection, the budget and the digests decide before anything is shed. */
  predicate Untied(j: Json, selected: Fields, budget: int, hash: Hash)
    requires j.Obj?
  {
    forall r :: r in selected ==> !SplitsAt(j, selected, budget, hash, r)
  }

  lemma SplitsAtIff(j: Json, selected: Fields, budget: int, hash: Hash, r: string)
    requires j.Obj?
    ensures Splits(CostIn(selected), FitsIn(j, selected, budget, hash), selected.Keys, r) <==>
            r in selected && SplitsAt(j, selected, budget, hash, r)
  {
    var cost, all := CostIn(selected), selected.Keys;
    assert AndCheaper(cost, all, r) <= all && UpTo(cost, all, r) <= all;
  }

  /** The outcome of fitting does not depend on map order. */
  ghost predicate OneFit(j: Json, selected: Fields, budget: int, hash: Hash)
    requires j.Obj?
  {
    OneOutcome(CostIn(selected), FitsIn(j, selected, budget, hash), selected.Keys)
  }

  /** It does not if and only if no tie splits. */
  lemma ResultIsForcedIff(j: Json, selected: Fields, budget: int, hash: Hash)
    requires j.Obj? && selected.Keys <= j.fields.Keys
    ensures OneFit(j, selected, budget, hash) <==> Untied(j, selected, budget, hash)
  {
    FieldsAreLawful(j, selected, budget, hash);
    OneOutcomeIff(CostIn(selected), FitsIn(j, selected, budget, hash), selected.Keys);
    forall r
      ensures Splits(CostIn(selected), FitsIn(j, selected, budget, hash), selected.Keys, r) <==>
              r in selected && SplitsAt(j, selected, budget, hash, r)
    {
      SplitsAtIff(j, selected, budget, hash, r);
    }
  }

  // ----------------------------------------------------------------- methods

  predicate IsLargest(kept: Fields, k: string) {
    k in kept && forall x :: x in kept ==> EntryCost(x, kept[x]) <= EntryCost(k, kept[k])
  }

  /** The largest field by cost; which one on a tie depends on the walk.  The empty
      string stands for "none". */
  method LargestField(kept: Fields) returns (largest: string)
    ensures kept == map[] ==> largest == ""
    ensures kept != map[] ==> IsLargest(kept, largest)
  {
    largest := "";
    var largestSize: int := -1;
    var rest := kept.Keys;
    while rest != {}
      invariant rest <= kept.Keys
      invariant largestSize == -1 ==> rest == kept.Keys && largest == ""
      invariant largestSize != -1 ==> largest in kept && largestSize == EntryCost(largest, kept[largest])
      invariant forall k :: k in kept && k !in rest ==> EntryCost(k, kept[k]) <= largestSize
    {
      var k :| k in rest;
      rest := rest - {k};
      if EntryCost(k, kept[k]) > largestSize {
        largest, largestSize := k, EntryCost(k, kept[k]);
      }
    }
    if kept != map[] {
      assert kept.Keys != {};
    }
  }

  lemma LargestIsTop(selected: Fields, s: Keys, k: string)
    requires s <= selected.Keys && IsLargest(Restrict(selected, s), k)
    ensures Top(CostIn(selected), s, k)
  {
    var kept, cost := Restrict(selected, s), CostIn(selected);
    forall x | x in s
      ensures cost(x) <= cost(k)
    {
      assert x in kept;
    }
  }

  lemma MarkerAt(j: Json, m: nat, hash: Hash)
    requires j.Obj?
    ensures MarkerOf(j, hash)(m) == ObjectMarker(j, m, hash)
  {
  }

  lemma ShownIsLeft(j: Json, selected: Fields, s: Keys, hash: Hash, m: nat)
    requires j.Obj? && |s| + m == |j.fields|
    ensures Shown(j, Restrict(selected, s), m, hash) == LeftOf(j, selected, s, hash)
  {
    LeftAt(selected, MarkerKey(j.fields, CUT_KEY), MarkerOf(j, hash), |j.fields|, s, m);
    MarkerAt(j, m, hash);
  }

  lemma RestrictKeeps(j: Json, selected: Fields, s: Keys, hash: Hash)
    requires j.Obj? && selected.Keys <= j.fields.Keys && s <= selected.Keys && Keeps(j, selected, hash)
    ensures Keeps(j, Restrict(selected, s), hash)
  {
    RestrictKeys(selected, s);
    FewerKeys(Restrict(selected, s), j.fields);
  }

  ghost predicate Leads(cost: string -> nat, fits: iset<Keys>, from: Keys, to: Keys) {
    forall out :: Sheds(cost, fits, to, out) ==> Sheds(cost, fits, from, out)
  }

  lemma LeadsOn(cost: string -> nat, fits: iset<Keys>, from: Keys, to: Keys, k: string)
    requires Leads(cost, fits, from, to) && to !in fits && Top(cost, to, k) && k != ""
    ensures Leads(cost, fits, from, to - {k})
  {
    forall out | Sheds(cost, fits, to - {k}, out)
      ensures Sheds(cost, fits, from, out)
    {
      ShedOne(cost, fits, to, k, out);
    }
  }

  /** What one look at the remaining fields comes to. */
  lemma StopsHere(cost: string -> nat, fits: iset<Keys>, from: Keys, to: Keys)
    requires Leads(cost, fits, from, to)
    ensures to in fits ==> Sheds(cost, fits, from, Shows(to))
    ensures to !in fits && (to == {} || Top(cost, to, "")) ==> Sheds(cost, fits, from, GaveUp)
  {
    assert to in fits ==> Sheds(cost, fits, to, Shows(to));
    assert to !in fits && (to == {} || Top(cost, to, "")) ==> Sheds(cost, fits, to, GaveUp);
  }

  lemma FitsExactly(j: Json, selected: Fields, budget: int, hash: Hash, s: Keys, m: nat)
    requires j.Obj? && s <= selected.Keys && |s| + m == |j.fields|
    ensures s in FitsIn(j, selected, budget, hash) <==> Size(Shown(j, Restrict(selected, s), m, hash)) <= budget
    ensures Shown(j, Restrict(selected, s), m, hash) == LeftOf(j, selected, s, hash)
  {
    ShownIsLeft(j, selected, s, hash, m);
  }

  lemma ShownAsObject(j: Json, selected: Fields, s: Keys, hash: Hash, m: nat)
    requires j.Obj? && selected.Keys <= j.fields.Keys && s <= selected.Keys && Keeps(j, selected, hash)
    requires |s| + m == |j.fields|
    ensures ObjectShown(j, Restrict(selected, s), Shown(j, Restrict(selected, s), m, hash), hash)
  {
    RestrictKeeps(j, selected, s, hash);
    RestrictKeys(selected, s);
  }

  lemma WithoutOne(selected: Fields, s: Keys, k: string)
    requires s <= selected.Keys && k in s
    ensures Restrict(selected, s) - {k} == Restrict(selected, s - {k}) && |s - {k}| == |s| - 1
  {
  }

  /** Shed the largest field and count it, until the object fits.  `left` are the fields
      shown; giving up is one of the outcomes too. */
  method FitObject(j: Json, selected: Fields, budget: int, hash: Hash) returns (r: Option<Json>, ghost left: Keys)
    requires j.Obj? && selected.Keys <= j.fields.Keys && Keeps(j, selected, hash)
    ensures r.None? ==> Outcomes(j, selected, budget, hash, GaveUp)
    ensures r.Some? ==> Outcomes(j, selected, budget, hash, Shows(left)) && left <= selected.Keys
    ensures r.Some? ==> r.value == LeftOf(j, selected, left, hash) && Size(r.value) <= budget
    ensures r.Some? ==> ObjectShown(j, Restrict(selected, left), r.value, hash)
    ensures r.Some? ==> TellsFields(j, r.value, MarkerKey(j.fields, CUT_KEY), hash)
  {
    ghost var cost, fits := CostIn(selected), FitsIn(j, selected, budget, hash);
    var kept := selected;
    left := selected.Keys;
    assert kept == Restrict(selected, left);
    var omitted: nat := |j.fields| - |selected|;
    while true
      invariant left <= selected.Keys && kept == Restrict(selected, left)
      invariant |left| + omitted == |j.fields|
      invariant Leads(cost, fits, selected.Keys, left)
      decreases |left|
    {
      FitsExactly(j, selected, budget, hash, left, omitted);
      StopsHere(cost, fits, selected.Keys, left);
      var out := Shown(j, kept, omitted, hash);
      if Size(out) <= budget {
        ShownAsObject(j, selected, left, hash, omitted);
        ObjectShownTells(j, Restrict(selected, left), out, hash);
        return Some(out), left;
      }
      var largest := LargestField(kept);
      RestrictKeys(selected, left);
      if kept != map[] { LargestIsTop(selected, left, largest); }
      if largest == "" {
        return None, left;
      }
      LeadsOn(cost, fits, selected.Keys, left, largest);
      WithoutOne(selected, left, largest);
      kept, omitted, left := kept - {largest}, omitted + 1, left - {largest};
    }
  }
}
