/** How many bytes the encoder spends on a value, and whole-character samples of a
    string. */
module JsonSize {
  import opened Json
  import opened KeyOrder

  /** UTF-8 bytes of one character. */
  function Width(c: char): (n: nat)
    ensures 1 <= n <= 4
  {
    if c < '\U{80}' then 1 else if c < '\U{800}' then 2 else if c < '\U{10000}' then 3 else 4
  }

  function Bytes(s: string): nat {
    if s == [] then 0 else Width(s[0]) + Bytes(s[1..])
  }

  /** Bytes of one character inside an encoded string, HTML escaping on. */
  function Cost(c: char): (n: nat)
    ensures 1 <= n
  {
    if c == '\"' || c == '\\' || c == '\U{8}' || c == '\U{C}' || c == '\n' || c == '\r' || c == '\t' then 2
    else if c < ' ' || c == '<' || c == '>' || c == '&' || c == '\U{2028}' || c == '\U{2029}' then 6
    else Width(c)
  }

  function Costs(s: string): nat {
    if s == [] then 0 else Cost(s[0]) + Costs(s[1..])
  }

  function StringSize(s: string): (n: nat)
    ensures 2 <= n
  {
    2 + Costs(s)
  }

  function Size(j: Json): (n: nat)
    decreases j, 1, 0
  {
    match j
    case Null => 4
    case Bool(b) => if b then 4 else 5
    case Num(l) => |l|
    case Str(s) => StringSize(s)
    case Arr(items) => 2 + ItemsSize(items)
    case Obj(fields) => 2 + FieldsSize(j, SortedKeys(fields.Keys))
  }

  function ItemsSize(items: seq<Json>): nat
    decreases items, 0, 0
  {
    if items == [] then 0
    else Size(items[0]) + if |items| == 1 then 0 else 1 + ItemsSize(items[1..])
  }

  function FieldSize(o: Json, k: string): nat
    requires o.Obj? && k in o.fields
    decreases o, 0, 0
  {
    StringSize(k) + 1 + Size(o.fields[k])
  }

  function FieldsSize(o: Json, ks: seq<string>): nat
    requires o.Obj? && forall i :: 0 <= i < |ks| ==> ks[i] in o.fields
    decreases o, 0, |ks| + 1
  {
    if ks == [] then 0
    else FieldSize(o, ks[0]) + if |ks| == 1 then 0 else 1 + FieldsSize(o, ks[1..])
  }

  lemma {:induction false} PlainCosts(s: string)
    requires forall i :: 0 <= i < |s| ==> Cost(s[i]) == 1
    ensures Costs(s) == |s|
  {
    if s != [] { PlainCosts(s[1..]); }
  }

  lemma {:induction false} FieldWithin(o: Json, ks: seq<string>, i: nat)
    requires o.Obj? && (forall j :: 0 <= j < |ks| ==> ks[j] in o.fields) && i < |ks|
    ensures FieldSize(o, ks[i]) <= FieldsSize(o, ks)
    decreases i
  {
    if i > 0 { FieldWithin(o, ks[1..], i - 1); }
  }

  lemma ObjectExceedsField(o: Json, k: string)
    requires o.Obj? && k in o.fields
    ensures 2 + FieldSize(o, k) <= Size(o)
  {
    var ks := SortedKeys(o.fields.Keys);
    assert k in ks;
    var i :| 0 <= i < |ks| && ks[i] == k;
    FieldWithin(o, ks, i);
  }

  lemma OneFieldSize(k: string, v: Json)
    ensures Size(Obj(map[k := v])) == 2 + StringSize(k) + 1 + Size(v)
  {
    var o := Obj(map[k := v]);
    var ks := SortedKeys(o.fields.Keys);
    assert o.fields.Keys == {k};
    assert |ks| == 1 by {
      assert |multiset(ks)| == |ks| && multiset(ks) == multiset({k});
    }
    assert ks[0] == k;
    assert FieldsSize(o, ks) == FieldSize(o, k);
  }

  // ------------------------------------------------------- fields add up

  /** What a field adds to an object: its key, colon, value and one separator. */
  function EntryCost(key: string, v: Json): nat { StringSize(key) + 1 + Size(v) + 1 }

  function Total(fields: map<string, Json>, ks: seq<string>): nat
    requires forall i :: 0 <= i < |ks| ==> ks[i] in fields
  {
    if ks == [] then 0 else EntryCost(ks[0], fields[ks[0]]) + Total(fields, ks[1..])
  }

  /** The cost of all fields together. */
  function Weight(fields: map<string, Json>): nat { Total(fields, SortedKeys(fields.Keys)) }

  lemma {:induction false} FieldsAreTotal(o: Json, ks: seq<string>)
    requires o.Obj? && ks != [] && forall i :: 0 <= i < |ks| ==> ks[i] in o.fields
    ensures FieldsSize(o, ks) + 1 == Total(o.fields, ks)
    decreases |ks|
  {
    if |ks| > 1 {
      FieldsAreTotal(o, ks[1..]);
    } else {
      assert Total(o.fields, ks[1..]) == 0;
    }
  }

  lemma SizeIsWeight(fields: map<string, Json>)
    ensures Size(Obj(fields)) == if fields == map[] then 2 else 1 + Weight(fields)
  {
    var ks := SortedKeys(fields.Keys);
    if fields == map[] {
      assert fields.Keys == {};
      assert ks == [];
    } else {
      assert fields.Keys != {};
      assert ks != [] by {
        var k :| k in fields;
        assert k in ks;
      }
      FieldsAreTotal(Obj(fields), ks);
    }
  }

  lemma {:induction false} TotalRemoves(fields: map<string, Json>, ks: seq<string>, i: nat)
    requires i < |ks| && forall j :: 0 <= j < |ks| ==> ks[j] in fields
    ensures Total(fields, ks) == EntryCost(ks[i], fields[ks[i]]) + Total(fields, ks[..i] + ks[i + 1..])
    decreases i
  {
    if i == 0 {
      assert ks[..0] + ks[1..] == ks[1..];
    } else {
      TotalRemoves(fields, ks[1..], i - 1);
      var less := ks[..i] + ks[i + 1..];
      assert less[1..] == ks[1..][..i - 1] + ks[1..][i..];
      assert less[0] == ks[0];
    }
  }

  lemma RemovedCounts(ks: seq<string>, i: nat)
    requires i < |ks|
    ensures multiset(ks[..i] + ks[i + 1..]) == multiset(ks) - multiset{ks[i]}
  {
    assert ks == ks[..i] + [ks[i]] + ks[i + 1..];
  }

  lemma PermutedKeys(fields: map<string, Json>, ks: seq<string>, ls: seq<string>)
    requires multiset(ks) == multiset(ls) && forall j :: 0 <= j < |ks| ==> ks[j] in fields
    ensures forall j :: 0 <= j < |ls| ==> ls[j] in fields
    ensures |ls| == |ks|
  {
    assert |multiset(ks)| == |ks| && |multiset(ls)| == |ls|;
    forall j | 0 <= j < |ls|
      ensures ls[j] in fields
    {
      assert ls[j] in multiset(ks);
    }
  }

  lemma MatchFirst(ks: seq<string>, ls: seq<string>) returns (i: nat)
    requires multiset(ks) == multiset(ls) && ks != []
    ensures i < |ls| && ls[i] == ks[0] && multiset(ks[1..]) == multiset(ls[..i] + ls[i + 1..])
  {
    assert ks[0] in multiset(ls);
    i :| 0 <= i < |ls| && ls[i] == ks[0];
    RemovedCounts(ks, 0);
    RemovedCounts(ls, i);
    assert ks[..0] + ks[1..] == ks[1..];
  }

  lemma {:induction false} TotalPermutes(fields: map<string, Json>, ks: seq<string>, ls: seq<string>)
    requires multiset(ks) == multiset(ls)
    requires forall j :: 0 <= j < |ks| ==> ks[j] in fields
    requires forall j :: 0 <= j < |ls| ==> ls[j] in fields
    ensures Total(fields, ks) == Total(fields, ls)
    decreases |ks|
  {
    PermutedKeys(fields, ks, ls);
    if ks != [] {
      var i := MatchFirst(ks, ls);
      TotalRemoves(fields, ls, i);
      TotalPermutes(fields, ks[1..], ls[..i] + ls[i + 1..]);
    }
  }

  lemma {:induction false} TotalAgrees(a: map<string, Json>, b: map<string, Json>, ks: seq<string>)
    requires forall i :: 0 <= i < |ks| ==> ks[i] in a && ks[i] in b && a[ks[i]] == b[ks[i]]
    ensures Total(a, ks) == Total(b, ks)
  {
    if ks != [] { TotalAgrees(a, b, ks[1..]); }
  }

  lemma TotalAdds(fields: map<string, Json>, ks: seq<string>, ls: seq<string>, k: string, v: Json)
    requires k !in fields && (forall i :: 0 <= i < |ks| ==> ks[i] in fields)
    requires multiset(ls) == multiset([k] + ks)
    ensures forall i :: 0 <= i < |ls| ==> ls[i] in fields[k := v]
    ensures Total(fields[k := v], ls) == EntryCost(k, v) + Total(fields, ks)
  {
    var more := fields[k := v];
    PermutedKeys(more, [k] + ks, ls);
    TotalPermutes(more, [k] + ks, ls);
    assert ([k] + ks)[1..] == ks;
    TotalAgrees(more, fields, ks);
  }

  lemma KeysWithOneMore(keys: set<string>, k: string)
    requires k !in keys
    ensures multiset(SortedKeys(keys + {k})) == multiset([k] + SortedKeys(keys))
  {
  }

  /** Adding a field adds exactly its cost. */
  lemma WeightAdds(fields: map<string, Json>, k: string, v: Json)
    requires k !in fields
    ensures Weight(fields[k := v]) == EntryCost(k, v) + Weight(fields)
  {
    assert fields[k := v].Keys == fields.Keys + {k};
    KeysWithOneMore(fields.Keys, k);
    TotalAdds(fields, SortedKeys(fields.Keys), SortedKeys(fields.Keys + {k}), k, v);
  }

  // ----------------------------------------------------------------- samples

  /** Characters of the longest prefix within `budget` bytes. */
  function HeadLength(s: string, budget: int): (n: nat)
    ensures n <= |s|
  {
    if s == [] || Width(s[0]) > budget then 0 else 1 + HeadLength(s[1..], budget - Width(s[0]))
  }

  function Head(s: string, budget: nat): string { s[..HeadLength(s, budget)] }

  /** Characters dropped before the longest suffix within `budget` bytes. */
  function TailStart(s: string, budget: nat): (n: nat)
    ensures n <= |s|
  {
    if s == [] || Bytes(s) <= budget then 0 else 1 + TailStart(s[1..], budget)
  }

  function Tail(s: string, budget: nat): string { s[TailStart(s, budget)..] }

  lemma {:induction false} BytesSplit(s: string, n: nat)
    requires n <= |s|
    ensures Bytes(s) == Bytes(s[..n]) + Bytes(s[n..])
  {
    if n == 0 {
      assert s[..n] == [] && s[n..] == s;
    } else {
      BytesSplit(s[1..], n - 1);
      assert s[..n][1..] == s[1..][..n - 1] && s[1..][n - 1..] == s[n..];
    }
  }

  lemma {:induction false} HeadFits(s: string, budget: nat)
    ensures Bytes(Head(s, budget)) <= budget
    ensures HeadLength(s, budget) < |s| ==> budget < Bytes(s[..HeadLength(s, budget) + 1])
  {
    var n := HeadLength(s, budget);
    if 0 < n {
      HeadFits(s[1..], budget - Width(s[0]));
      assert s[..n][1..] == s[1..][..n - 1];
      if n < |s| { assert s[..n + 1][1..] == s[1..][..n]; }
    } else if s != [] {
      assert s[..1][1..] == [];
    }
  }

  lemma {:induction false} TailFits(s: string, budget: nat)
    ensures Bytes(Tail(s, budget)) <= budget
    ensures 0 < TailStart(s, budget) ==> budget < Bytes(s[TailStart(s, budget) - 1..])
  {
    if Bytes(s) <= budget {
      assert s[0..] == s;
    } else {
      var n := TailStart(s[1..], budget);
      TailFits(s[1..], budget);
      assert s[1..][n..] == s[n + 1..];
      if 0 < n { assert s[1..][n - 1..] == s[n..]; } else { assert s[0..] == s; }
    }
  }

  lemma {:induction false} MoreBytes(s: string, n: nat, m: nat)
    requires n <= m <= |s|
    ensures Bytes(s[..n]) <= Bytes(s[..m])
    ensures n < m ==> Bytes(s[..n]) < Bytes(s[..m])
  {
    BytesSplit(s[..m], n);
    assert s[..m][..n] == s[..n];
    if n < m { assert s[..m][n..] != []; }
  }

  /** Head, tail and the omitted bytes account for the whole string: either the samples
      leave a middle of exactly that many bytes, or they meet and nothing is omitted. */
  lemma SamplesAccount(s: string, budget: nat)
    ensures var h, t := HeadLength(s, budget), TailStart(s, budget);
            var omitted := Bytes(s) - Bytes(Head(s, budget)) - Bytes(Tail(s, budget));
            if h <= t then omitted == Bytes(s[h..t]) else omitted < 0
  {
    var h, t := HeadLength(s, budget), TailStart(s, budget);
    BytesSplit(s, t);
    if h <= t {
      BytesSplit(s[..t], h);
      assert s[..t][..h] == s[..h] && s[..t][h..] == s[h..t];
    } else {
      MoreBytes(s, t, h);
    }
  }
}
