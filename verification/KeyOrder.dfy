/** Property order of RFC 8785 section 3.2.3: keys compare as sequences of UTF-16
    code units.  The order is a strict total one, so sorting a map's keys gives the
    same sequence whatever order the map was walked in. */
module KeyOrder {

  // ------------------------------------------------------------------- order

  function CharUnits(c: char): (u: seq<nat>)
    ensures 1 <= |u| <= 2
  {
    var n := c as int;
    if n < 0x10000 then [n] else [0xD800 + (n - 0x10000) / 0x400, 0xDC00 + (n - 0x10000) % 0x400]
  }

  function Units(s: string): seq<nat> {
    if s == [] then [] else CharUnits(s[0]) + Units(s[1..])
  }

  lemma CharUnitsInjective(a: char, b: char, x: seq<nat>, y: seq<nat>)
    requires CharUnits(a) + x == CharUnits(b) + y
    ensures a == b && x == y
  {
    var u, v := CharUnits(a), CharUnits(b);
    assert (u + x)[0] == u[0] && (v + y)[0] == v[0];
    if |u| == 2 && |v| == 2 {
      assert (u + x)[1] == u[1] && (v + y)[1] == v[1];
    }
    assert |u| == |v| && a == b;
    assert (u + x)[|u|..] == x && (v + y)[|v|..] == y;
  }

  lemma {:induction false} UnitsInjective(a: string, b: string)
    requires Units(a) == Units(b)
    ensures a == b
  {
    if a != [] && b != [] {
      CharUnitsInjective(a[0], b[0], Units(a[1..]), Units(b[1..]));
      UnitsInjective(a[1..], b[1..]);
      assert a == [a[0]] + a[1..] && b == [b[0]] + b[1..];
    }
  }

  predicate Before(x: seq<nat>, y: seq<nat>) {
    if y == [] then false
    else if x == [] then true
    else if x[0] != y[0] then x[0] < y[0]
    else Before(x[1..], y[1..])
  }

  predicate Less(a: string, b: string) { Before(Units(a), Units(b)) }

  lemma {:induction false} BeforeIrreflexive(x: seq<nat>)
    ensures !Before(x, x)
  {
    if x != [] { BeforeIrreflexive(x[1..]); }
  }

  lemma {:induction false} BeforeTransitive(x: seq<nat>, y: seq<nat>, z: seq<nat>)
    requires Before(x, y) && Before(y, z)
    ensures Before(x, z)
  {
    if x != [] && x[0] == y[0] == z[0] {
      BeforeTransitive(x[1..], y[1..], z[1..]);
    }
  }

  lemma {:induction false} BeforeTotal(x: seq<nat>, y: seq<nat>)
    requires x != y
    ensures Before(x, y) || Before(y, x)
  {
    if x != [] && y != [] && x[0] == y[0] {
      assert x == [x[0]] + x[1..] && y == [y[0]] + y[1..];
      BeforeTotal(x[1..], y[1..]);
    }
  }

  ghost predicate StrictTotal<T(!new)>(less: (T, T) -> bool) {
    && (forall a :: !less(a, a))
    && (forall a, b :: a != b ==> less(a, b) || less(b, a))
    && (forall a, b, c :: less(a, b) && less(b, c) ==> less(a, c))
  }

  lemma LessIsStrictTotal()
    ensures StrictTotal(Less)
  {
    forall a: string
      ensures !Less(a, a)
    {
      BeforeIrreflexive(Units(a));
    }
    forall a: string, b: string | a != b
      ensures Less(a, b) || Less(b, a)
    {
      if Units(a) == Units(b) { UnitsInjective(a, b); }
      BeforeTotal(Units(a), Units(b));
    }
    forall a: string, b: string, c: string | Less(a, b) && Less(b, c)
      ensures Less(a, c)
    {
      BeforeTransitive(Units(a), Units(b), Units(c));
    }
  }

  method JcsStringLess(a: string, b: string) returns (r: bool)
    ensures r == Less(a, b)
  {
    var aa, bb := Units(a), Units(b);
    var i := 0;
    while i < |aa| && i < |bb|
      invariant 0 <= i <= |aa| && i <= |bb|
      invariant Before(aa, bb) == Before(aa[i..], bb[i..])
    {
      if aa[i] != bb[i] {
        return aa[i] < bb[i];
      }
      assert aa[i..][1..] == aa[i + 1..] && bb[i..][1..] == bb[i + 1..];
      i := i + 1;
    }
    return |aa| < |bb|;
  }

  // -------------------------------------------------------------------- sort

  /** One pass of insertion sort: `x` sinks left past every greater element. */
  function Inserted<T(==)>(s: seq<T>, x: T, less: (T, T) -> bool): (r: seq<T>)
    ensures |r| == |s| + 1
  {
    if s == [] || !less(x, s[|s| - 1]) then s + [x]
    else Inserted(s[..|s| - 1], x, less) + [s[|s| - 1]]
  }

  function Sorted<T(==)>(s: seq<T>, less: (T, T) -> bool): (r: seq<T>)
    ensures |r| == |s|
  {
    if s == [] then [] else Inserted(Sorted(s[..|s| - 1], less), s[|s| - 1], less)
  }

  ghost predicate Ordered<T(!new)>(s: seq<T>, less: (T, T) -> bool) {
    forall i, j :: 0 <= i < j < |s| ==> less(s[i], s[j]) || s[i] == s[j]
  }

  lemma {:induction false} InsertedHolds<T>(s: seq<T>, x: T, less: (T, T) -> bool)
    ensures multiset(Inserted(s, x, less)) == multiset(s) + multiset{x}
  {
    if s != [] && less(x, s[|s| - 1]) {
      InsertedHolds(s[..|s| - 1], x, less);
      assert s == s[..|s| - 1] + [s[|s| - 1]];
    }
  }

  lemma {:induction false} SortedHolds<T>(s: seq<T>, less: (T, T) -> bool)
    ensures multiset(Sorted(s, less)) == multiset(s)
  {
    if s != [] {
      SortedHolds(s[..|s| - 1], less);
      InsertedHolds(Sorted(s[..|s| - 1], less), s[|s| - 1], less);
      assert s == s[..|s| - 1] + [s[|s| - 1]];
    }
  }

  lemma OrderedAppend<T(!new)>(s: seq<T>, x: T, less: (T, T) -> bool)
    requires Ordered(s, less) && forall y :: y in s ==> less(y, x) || y == x
    ensures Ordered(s + [x], less)
  {
  }

  lemma {:induction false} InsertedOrdered<T(!new)>(s: seq<T>, x: T, less: (T, T) -> bool)
    requires StrictTotal(less) && Ordered(s, less)
    ensures Ordered(Inserted(s, x, less), less)
  {
    if s == [] {
    } else {
      var last, front := s[|s| - 1], s[..|s| - 1];
      forall y | y in s
        ensures less(y, last) || y == last
      {
        var i :| 0 <= i < |s| && s[i] == y;
      }
      if less(x, last) {
        InsertedOrdered(front, x, less);
        InsertedHolds(front, x, less);
        forall y | y in Inserted(front, x, less)
          ensures less(y, last) || y == last
        {
          assert y in multiset(Inserted(front, x, less));
        }
        OrderedAppend(Inserted(front, x, less), last, less);
      } else {
        OrderedAppend(s, x, less);
      }
    }
  }

  lemma {:induction false} SortedOrdered<T(!new)>(s: seq<T>, less: (T, T) -> bool)
    requires StrictTotal(less)
    ensures Ordered(Sorted(s, less), less)
  {
    if s != [] {
      SortedOrdered(s[..|s| - 1], less);
      InsertedOrdered(Sorted(s[..|s| - 1], less), s[|s| - 1], less);
    }
  }

  lemma LastIsGreatest<T(!new)>(s: seq<T>, x: T, less: (T, T) -> bool)
    requires Ordered(s, less) && x in s
    ensures less(x, s[|s| - 1]) || x == s[|s| - 1]
  {
    var i :| 0 <= i < |s| && s[i] == x;
  }

  lemma SameLast<T(!new)>(s: seq<T>, t: seq<T>, less: (T, T) -> bool)
    requires StrictTotal(less) && Ordered(s, less) && Ordered(t, less) && multiset(s) == multiset(t)
    requires s != [] && t != []
    ensures s[|s| - 1] == t[|t| - 1]
  {
    var x, y := s[|s| - 1], t[|t| - 1];
    assert x in multiset(t) && y in multiset(s);
    LastIsGreatest(s, y, less);
    LastIsGreatest(t, x, less);
  }

  lemma FrontCounts<T>(s: seq<T>)
    requires s != []
    ensures multiset(s[..|s| - 1]) == multiset(s) - multiset{s[|s| - 1]}
  {
    assert s == s[..|s| - 1] + [s[|s| - 1]];
  }

  lemma SameFront<T>(s: seq<T>, t: seq<T>)
    requires multiset(s) == multiset(t) && s != [] && t != [] && s[|s| - 1] == t[|t| - 1]
    ensures multiset(s[..|s| - 1]) == multiset(t[..|t| - 1])
  {
    FrontCounts(s);
    FrontCounts(t);
  }

  /** An ordered arrangement of given elements is unique. */
  lemma {:induction false} OrderedUnique<T(!new)>(s: seq<T>, t: seq<T>, less: (T, T) -> bool)
    requires StrictTotal(less) && Ordered(s, less) && Ordered(t, less) && multiset(s) == multiset(t)
    ensures s == t
    decreases |s|
  {
    assert |multiset(s)| == |s| && |multiset(t)| == |t|;
    if s != [] {
      SameLast(s, t, less);
      SameFront(s, t);
      var a, b := s[..|s| - 1], t[..|t| - 1];
      OrderedUnique(a, b, less);
      assert s == a + [s[|s| - 1]] && t == b + [t[|t| - 1]];
    }
  }

  /** Two walks of the same map sort to the same key sequence. */
  lemma WalkOrderIsIrrelevant(ks: seq<string>, ls: seq<string>)
    requires multiset(ks) == multiset(ls)
    ensures Sorted(ks, Less) == Sorted(ls, Less) && Ordered(Sorted(ks, Less), Less)
  {
    LessIsStrictTotal();
    SortedHolds(ks, Less);
    SortedHolds(ls, Less);
    SortedOrdered(ks, Less);
    SortedOrdered(ls, Less);
    OrderedUnique(Sorted(ks, Less), Sorted(ls, Less), Less);
  }

  // ---------------------------------------------------------------- key sets

  predicate Least(keys: set<string>, k: string) {
    k in keys && forall x :: x in keys ==> x == k || Less(k, x)
  }

  lemma {:induction false} LeastExists(keys: set<string>) returns (k: string)
    requires keys != {}
    ensures Least(keys, k)
  {
    LessIsStrictTotal();
    var x :| x in keys;
    var rest := keys - {x};
    if rest == {} {
      assert keys == {x};
      k := x;
    } else {
      k := LeastExists(rest);
      assert keys == rest + {x};
      if Less(x, k) { k := x; }
    }
  }

  lemma LeastIsUnique(keys: set<string>)
    requires keys != {}
    ensures exists k :: Least(keys, k)
    ensures forall a, b :: Least(keys, a) && Least(keys, b) ==> a == b
  {
    var k := LeastExists(keys);
    LessIsStrictTotal();
  }

  function LeastKey(keys: set<string>): (k: string)
    requires keys != {}
    ensures Least(keys, k)
  {
    LeastIsUnique(keys);
    var k :| k in keys && Least(keys, k);
    k
  }

  /** The keys of an object in property order. */
  function SortedKeys(keys: set<string>): (ks: seq<string>)
    ensures multiset(ks) == multiset(keys)
    ensures forall k :: k in ks <==> k in keys
  {
    if keys == {} then []
    else
      var k := LeastKey(keys);
      assert keys == {k} + (keys - {k});
      [k] + SortedKeys(keys - {k})
  }

  lemma {:induction false} SortedKeysOrdered(keys: set<string>)
    ensures Ordered(SortedKeys(keys), Less)
  {
    if keys != {} {
      var k := LeastKey(keys);
      SortedKeysOrdered(keys - {k});
      var rest := SortedKeys(keys - {k});
      forall j | 0 <= j < |rest|
        ensures Less(k, rest[j])
      {
        assert rest[j] in rest;
      }
    }
  }

  lemma OnceEach(ks: seq<string>, keys: set<string>, i: nat, j: nat)
    requires multiset(ks) == multiset(keys) && i < j < |ks|
    ensures ks[i] != ks[j]
  {
    var a := ks[..j];
    assert ks == a + [ks[j]] + ks[j + 1..];
    assert a[i] == ks[i] && ks[i] in multiset(a);
    assert multiset(ks)[ks[j]] >= multiset(a)[ks[j]] + 1 && multiset(ks)[ks[j]] <= 1;
  }

  /** No two keys are equal, so the order is strict. */
  lemma SortedKeysAscend(keys: set<string>)
    ensures var ks := SortedKeys(keys); forall i, j :: 0 <= i < j < |ks| ==> Less(ks[i], ks[j])
  {
    SortedKeysOrdered(keys);
    var ks := SortedKeys(keys);
    forall i, j | 0 <= i < j < |ks|
      ensures Less(ks[i], ks[j])
    {
      OnceEach(ks, keys, i, j);
    }
  }

  /** Sorting any walk of a key set, one visit per key, gives its property order. */
  lemma AnyWalkSorts(walk: seq<string>, keys: set<string>)
    requires multiset(walk) == multiset(keys)
    ensures Sorted(walk, Less) == SortedKeys(keys)
  {
    LessIsStrictTotal();
    SortedHolds(walk, Less);
    SortedOrdered(walk, Less);
    SortedKeysOrdered(keys);
    OrderedUnique(Sorted(walk, Less), SortedKeys(keys), Less);
  }

  // ------------------------------------------------------------ in-place sort

  /** Where the inner loop stands: `x` has sunk to position `j` of `s`. */
  function Sunk<T>(s: seq<T>, x: T, j: nat): (r: seq<T>)
    requires j <= |s|
    ensures |r| == |s| + 1
  {
    s[..j] + [x] + s[j..]
  }

  lemma SunkStep<T>(s: seq<T>, x: T, j: nat)
    requires 0 < j <= |s|
    ensures Sunk(s, x, j)[j := s[j - 1]][j - 1 := x] == Sunk(s, x, j - 1)
    ensures Sunk(s, x, j)[j] == x && Sunk(s, x, j)[j - 1] == s[j - 1]
  {
  }

  lemma {:induction false} InsertedSplits<T>(s: seq<T>, x: T, less: (T, T) -> bool, j: nat)
    requires j <= |s| && forall k :: j <= k < |s| ==> less(x, s[k])
    requires j == 0 || !less(x, s[j - 1])
    ensures Inserted(s, x, less) == Sunk(s, x, j)
    decreases |s|
  {
    if j < |s| {
      InsertedSplits(s[..|s| - 1], x, less, j);
    }
  }

  method SlicesSort(values: array<string>)
    modifies values
    ensures values[..] == Sorted(old(values[..]), Less)
  {
    ghost var was := values[..];
    if values.Length == 0 {
      return;
    }
    var i := 1;
    assert was[..1] == [was[0]] && was[..1][..0] == [];
    while i < values.Length
      invariant 1 <= i <= values.Length
      invariant values[..i] == Sorted(was[..i], Less)
      invariant values[i..] == was[i..]
    {
      assert values[i + 1..] == values[i..][1..] && was[i + 1..] == was[i..][1..];
      assert values[i] == was[i..][0];
      Sink(values, i, Sorted(was[..i], Less));
      assert was[..i + 1][..i] == was[..i] && was[..i + 1][i] == was[i];
      i := i + 1;
    }
    assert was[..i] == was && values[..i] == values[..];
  }

  /** The inner loop: adjacent swaps until the element meets one not greater. */
  method Sink(values: array<string>, i: nat, ghost s: seq<string>)
    requires i < values.Length && values[..i] == s
    modifies values
    ensures values[..i + 1] == Inserted(s, old(values[i]), Less)
    ensures values[i + 1..] == old(values[i + 1..])
  {
    var j := i;
    ghost var x := values[i];
    assert values[..i + 1] == Sunk(s, x, i);
    while j > 0
      invariant 0 <= j <= i
      invariant values[..i + 1] == Sunk(s, x, j)
      invariant values[i + 1..] == old(values[i + 1..])
      invariant forall k :: j <= k < i ==> Less(x, s[k])
    {
      SunkStep(s, x, j);
      assert values[..i + 1][j] == values[j] && values[..i + 1][j - 1] == values[j - 1];
      var less := JcsStringLess(values[j], values[j - 1]);
      if !less {
        break;
      }
      ghost var before := values[..i + 1];
      values[j], values[j - 1] := values[j - 1], values[j];
      assert values[..i + 1] == before[j := s[j - 1]][j - 1 := x];
      j := j - 1;
    }
    InsertedSplits(s, x, Less, j);
  }
}
