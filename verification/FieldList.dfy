/** Objects given as a list of their fields in rank order: what they weigh, and which of
    their fields are small. */
module FieldList {
  import opened Json
  import opened JsonSize
  import opened KeyOrder
  import opened BoundedJson
  import opened ObjectFit
  import opened FieldChoice

  datatype Field = Field(key: string, value: Json)

  function CostOf(f: Field): nat { EntryCost(f.key, f.value) }

  function FieldsOf(list: seq<Field>): Fields {
    if list == [] then map[]
    else
      var f := list[|list| - 1];
      FieldsOf(list[..|list| - 1])[f.key := f.value]
  }

  function KeysOf(list: seq<Field>): set<string> { set i | 0 <= i < |list| :: list[i].key }

  function Sum(list: seq<Field>): nat {
    if list == [] then 0 else Sum(list[..|list| - 1]) + CostOf(list[|list| - 1])
  }

  function Entries(list: seq<Field>): seq<Entry> {
    seq(|list|, i requires 0 <= i < |list| => Entry(list[i].key, CostOf(list[i])))
  }

  ghost predicate Distinct(list: seq<Field>) {
    forall a, b :: 0 <= a < b < |list| ==> list[a].key != list[b].key
  }

  lemma LastIsNew(list: seq<Field>)
    requires list != [] && Distinct(list)
    ensures list[|list| - 1].key !in KeysOf(list[..|list| - 1]) && Distinct(list[..|list| - 1])
    ensures KeysOf(list) == KeysOf(list[..|list| - 1]) + {list[|list| - 1].key}
  {
    var last, front := |list| - 1, list[..|list| - 1];
    forall k | k in KeysOf(list)
      ensures k in KeysOf(front) + {list[last].key}
    {
      var i :| 0 <= i < |list| && list[i].key == k;
      if i < last { assert front[i].key == k; }
    }
    forall k | k in KeysOf(front)
      ensures k in KeysOf(list) && k != list[last].key
    {
      var i :| 0 <= i < last && front[i].key == k;
      assert list[i].key == k;
    }
    assert list[last].key in KeysOf(list);
  }

  lemma {:induction false} FieldsHold(list: seq<Field>)
    requires Distinct(list)
    ensures FieldsOf(list).Keys == KeysOf(list) && |FieldsOf(list)| == |list| && Weight(FieldsOf(list)) == Sum(list)
  {
    if list == [] {
      assert Weight(map[]) == 0;
    } else {
      var front, f := list[..|list| - 1], list[|list| - 1];
      LastIsNew(list);
      FieldsHold(front);
      WeightAdds(FieldsOf(front), f.key, f.value);
      assert |FieldsOf(list).Keys| == |KeysOf(front)| + 1;
      assert |FieldsOf(list)| == |FieldsOf(list).Keys| && |FieldsOf(front)| == |FieldsOf(front).Keys|;
    }
  }

  lemma {:induction false} FieldAt(list: seq<Field>, i: nat)
    requires Distinct(list) && i < |list|
    ensures list[i].key in FieldsOf(list) && FieldsOf(list)[list[i].key] == list[i].value
    decreases |list|
  {
    if i < |list| - 1 {
      LastIsNew(list);
      FieldAt(list[..|list| - 1], i);
    }
  }

  lemma OneMoreEntry(s: seq<Entry>, all: set<Entry>, e: Entry)
    requires multiset(s) == multiset(all) && e !in all
    ensures multiset(s + [e]) == multiset(all + {e})
  {
  }

  lemma EntriesSplit(list: seq<Field>)
    requires list != []
    ensures var f := list[|list| - 1];
            Entries(list) == Entries(list[..|list| - 1]) + [Entry(f.key, CostOf(f))]
  {
  }

  lemma EntriesStep(list: seq<Field>)
    requires list != [] && Distinct(list)
    requires multiset(Entries(list[..|list| - 1])) == multiset(AllEntries(Obj(FieldsOf(list[..|list| - 1]))))
    ensures multiset(Entries(list)) == multiset(AllEntries(Obj(FieldsOf(list))))
  {
    var fields, f := FieldsOf(list[..|list| - 1]), list[|list| - 1];
    LastIsNew(list);
    FieldsHold(list[..|list| - 1]);
    EntriesMore(fields, f);
    OneMoreEntry(Entries(list[..|list| - 1]), AllEntries(Obj(fields)), Entry(f.key, CostOf(f)));
    EntriesSplit(list);
  }

  lemma {:induction false} EntriesHold(list: seq<Field>)
    requires Distinct(list)
    ensures multiset(Entries(list)) == multiset(AllEntries(Obj(FieldsOf(list))))
  {
    if list == [] {
      assert AllEntries(Obj(map[])) == {};
    } else {
      EntriesHold(list[..|list| - 1]);
      EntriesStep(list);
    }
  }

  lemma EntriesMore(fields: Fields, f: Field)
    requires f.key !in fields
    ensures var e := Entry(f.key, CostOf(f));
            e !in AllEntries(Obj(fields)) && AllEntries(Obj(fields[f.key := f.value])) == AllEntries(Obj(fields)) + {e}
  {
    var all, more, e := AllEntries(Obj(fields)), fields[f.key := f.value], Entry(f.key, CostOf(f));
    forall x | x in all + {e}
      ensures x in AllEntries(Obj(more))
    {
      assert x.key in more && x.size == EntryCost(x.key, more[x.key]);
    }
  }

  /** Listed by rank: the list is the ranking of its object. */
  lemma ListIsRanking(list: seq<Field>, priority: Priority)
    requires Distinct(list) && Ordered(Entries(list), RankOrder(priority))
    ensures Ranking(Obj(FieldsOf(list)), priority) == Entries(list)
  {
    EntriesHold(list);
    OnlyRanking(Obj(FieldsOf(list)), priority, Entries(list));
  }

  lemma Fronts(list: seq<Field>, n: nat)
    requires n < |list|
    ensures list[..n + 1][..n] == list[..n] && list[..n + 1][n] == list[n]
  {
  }

  lemma SumOneMore(list: seq<Field>, n: nat)
    requires n < |list|
    ensures Sum(list[..n + 1]) == Sum(list[..n]) + CostOf(list[n])
  {
    Fronts(list, n);
  }

  lemma KeepOneMore(list: seq<Field>, n: nat)
    requires Distinct(list) && n < |list|
    ensures Keep(FieldsOf(list[..n + 1])) ==
            Keeping(FieldsOf(list[..n])[list[n].key := list[n].value], Keep(FieldsOf(list[..n])).used + CostOf(list[n]))
  {
    Fronts(list, n);
    LastIsNew(list[..n + 1]);
    FieldsHold(list[..n]);
    WeightAdds(FieldsOf(list[..n]), list[n].key, list[n].value);
  }

  lemma {:induction false} FrontSums(list: seq<Field>, n: nat, m: nat)
    requires n <= m <= |list|
    ensures Sum(list[..n]) <= Sum(list[..m])
    decreases m
  {
    if n < m {
      Fronts(list, m - 1);
      FrontSums(list, n, m - 1);
    }
  }

  /** As long as they fit, small fields are taken. */
  lemma {:induction false} SmallFront(list: seq<Field>, n: nat, limit: int)
    requires Distinct(list) && n <= |list| && 2 + Sum(list[..n]) <= limit
    requires forall i :: 0 <= i < n ==> CostOf(list[i]) <= SMALL_ENTRY_BYTES
    ensures SmallOf(Entries(list), n, limit) == Picked(KeysOf(list[..n]), 2 + Sum(list[..n]))
  {
    if 0 < n {
      Fronts(list, n - 1);
      FrontSums(list, n - 1, n);
      SmallFront(list, n - 1, limit);
      LastIsNew(list[..n]);
    }
  }

  lemma RestrictIs(fields: Fields, part: Fields)
    requires forall k :: k in part ==> k in fields && fields[k] == part[k]
    ensures Restrict(fields, part.Keys) == part
  {
  }

  lemma FrontAgrees(list: seq<Field>, n: nat, k: string)
    requires Distinct(list) && n <= |list| && k in KeysOf(list[..n])
    ensures k in FieldsOf(list) && k in FieldsOf(list[..n]) && FieldsOf(list)[k] == FieldsOf(list[..n])[k]
  {
    var i :| 0 <= i < n && list[..n][i].key == k;
    FieldAt(list, i);
    FieldAt(list[..n], i);
  }

  lemma RestrictFront(list: seq<Field>, n: nat)
    requires Distinct(list) && n <= |list|
    ensures Restrict(FieldsOf(list), KeysOf(list[..n])) == FieldsOf(list[..n])
  {
    FieldsHold(list[..n]);
    forall k | k in KeysOf(list[..n])
      ensures k in FieldsOf(list) && k in FieldsOf(list[..n]) && FieldsOf(list)[k] == FieldsOf(list[..n])[k]
    {
      FrontAgrees(list, n, k);
    }
    RestrictIs(FieldsOf(list), FieldsOf(list[..n]));
  }

  lemma {:induction false} WithoutFront(list: seq<Field>, keys: set<string>, n: nat)
    requires n <= |list| && forall i :: 0 <= i < n ==> list[i].key in keys
    ensures WithoutKeys(Entries(list)[..n], keys) == []
  {
    if 0 < n {
      WithoutFront(list, keys, n - 1);
      assert Entries(list)[..n][..n - 1] == Entries(list)[..n - 1];
    }
  }

  lemma TwoSorted(a: Entry, b: Entry)
    requires a.size < b.size
    ensures Sorted([a, b], BySize) == [b, a]
  {
    var rest := [a, b];
    assert rest[..1] == [a] && [a][..0] == [];
    assert Sorted([a], BySize) == [a];
    assert BySize(b, a);
    assert Inserted([a], b, BySize) == [b, a];
  }

  lemma WithoutOneMore(entries: seq<Entry>, keys: set<string>, n: nat)
    requires n < |entries| && entries[n].key !in keys
    ensures WithoutKeys(entries[..n + 1], keys) == WithoutKeys(entries[..n], keys) + [entries[n]]
  {
    var more := entries[..n + 1];
    assert more[..n] == entries[..n] && more[n] == entries[n];
  }

  /** Two entries left over are visited the larger first. */
  lemma LargerFirst(entries: seq<Entry>, keys: set<string>, n: nat)
    requires |entries| == n + 2 && WithoutKeys(entries[..n], keys) == []
    requires entries[n].key !in keys && entries[n + 1].key !in keys && entries[n].size < entries[n + 1].size
    ensures LargeOf(entries, keys) == [entries[n + 1], entries[n]]
  {
    WithoutOneMore(entries, keys, n);
    WithoutOneMore(entries, keys, n + 1);
    assert entries[..n + 2] == entries;
    assert WithoutKeys(entries, keys) == [entries[n], entries[n + 1]];
    TwoSorted(entries[n], entries[n + 1]);
  }
}
