/** Shedding the largest field until what is left fits.  Which field goes on a tie
    depends on the order the map is walked in, and the field with the empty key cannot
    be shed: meeting it gives up. */
module Shedding {

  type Keys = set<string>

  datatype Outcome = GaveUp | Shows(keys: Keys)

  ghost predicate Top(cost: string -> nat, s: Keys, k: string) {
    k in s && forall x :: x in s ==> cost(x) <= cost(k)
  }

  /** Everything shedding from `s` may come to. */
  ghost predicate Sheds(cost: string -> nat, fits: iset<Keys>, s: Keys, out: Outcome)
    decreases |s|
  {
    if s in fits then out == Shows(s)
    else if s == {} then out == GaveUp
    else exists k :: Top(cost, s, k) && if k == "" then out == GaveUp else Sheds(cost, fits, s - {k}, out)
  }

  /** What sizes obey: less fits when more does, and so does a cheaper swap. */
  ghost predicate Monotone(fits: iset<Keys>, all: Keys) {
    forall s, t :: s <= t <= all && t in fits ==> s in fits
  }

  ghost predicate Swaps(cost: string -> nat, fits: iset<Keys>, all: Keys) {
    forall s, t, a, b | s <= all && t <= all && a in s && b in t && s - {a} == t - {b} && cost(a) <= cost(b) && t in fits
      :: s in fits
  }

  ghost predicate Lawful(cost: string -> nat, fits: iset<Keys>, all: Keys) {
    Monotone(fits, all) && Swaps(cost, fits, all)
  }

  lemma Shrinks(fits: iset<Keys>, all: Keys, s: Keys, t: Keys)
    requires Monotone(fits, all) && s <= t <= all && t in fits
    ensures s in fits
  {
  }

  lemma Swap(cost: string -> nat, fits: iset<Keys>, all: Keys, s: Keys, a: string, t: Keys, b: string)
    requires Swaps(cost, fits, all) && s <= all && t <= all
    requires a in s && b in t && s - {a} == t - {b} && cost(a) <= cost(b) && t in fits
    ensures s in fits
  {
  }

  lemma {:induction false} TopExists(cost: string -> nat, s: Keys) returns (k: string)
    requires s != {}
    ensures Top(cost, s, k)
  {
    var first :| first in s;
    var rest := s - {first};
    assert s == rest + {first};
    k := first;
    if rest != {} {
      var x := TopExists(cost, rest);
      if cost(first) < cost(x) { k := x; }
    }
  }

  lemma ShedOne(cost: string -> nat, fits: iset<Keys>, s: Keys, k: string, out: Outcome)
    requires s !in fits && Top(cost, s, k) && k != "" && Sheds(cost, fits, s - {k}, out)
    ensures Sheds(cost, fits, s, out)
  {
  }

  lemma FitsAtOnce(cost: string -> nat, fits: iset<Keys>, s: Keys, out: Outcome)
    requires s in fits && Sheds(cost, fits, s, out)
    ensures out == Shows(s)
  {
  }

  // ------------------------------------------------------------- final cuts

  /** Everything shed costs at least as much as everything kept. */
  ghost predicate Lower(cost: string -> nat, s: Keys, kept: Keys) {
    kept <= s && forall r, k | r in s - kept && k in kept :: cost(k) <= cost(r)
  }

  /** A cut that fits, keeps the empty key, and to which no shed field could return. */
  ghost predicate FinalCut(cost: string -> nat, fits: iset<Keys>, s: Keys, kept: Keys) {
    && Lower(cost, s, kept)
    && ("" in s ==> "" in kept)
    && kept in fits
    && forall r :: r in s - kept ==> kept + {r} !in fits
  }

  lemma LastNeverReturns(cost: string -> nat, fits: iset<Keys>, all: Keys, s: Keys, kept: Keys, k: string)
    requires Lawful(cost, fits, all) && s <= all && s !in fits && Top(cost, s, k)
    requires FinalCut(cost, fits, s - {k}, kept)
    ensures kept + {k} !in fits
  {
    if kept == s - {k} {
      assert kept + {k} == s;
    } else {
      assert s - {k} - kept != {};
      var r :| r in s - {k} - kept;
      assert kept + {r} !in fits;
      if kept + {k} in fits {
        assert kept + {r} - {r} == kept && kept + {k} - {k} == kept;
        Swap(cost, fits, all, kept + {r}, r, kept + {k}, k);
      }
    }
  }

  lemma ShedKeepsFinal(cost: string -> nat, fits: iset<Keys>, all: Keys, s: Keys, k: string, kept: Keys)
    requires Lawful(cost, fits, all) && s <= all && s !in fits && Top(cost, s, k) && k != ""
    requires FinalCut(cost, fits, s - {k}, kept)
    ensures FinalCut(cost, fits, s, kept)
  {
    LastNeverReturns(cost, fits, all, s, kept, k);
    forall r | r in s - kept
      ensures kept + {r} !in fits
    {
      if r != k { assert r in s - {k} - kept; }
    }
  }

  lemma {:induction false} ShownIsFinal(cost: string -> nat, fits: iset<Keys>, all: Keys, s: Keys, kept: Keys)
    requires Lawful(cost, fits, all) && s <= all && Sheds(cost, fits, s, Shows(kept))
    ensures FinalCut(cost, fits, s, kept)
    decreases |s|
  {
    if s !in fits {
      var k :| Top(cost, s, k) && k != "" && Sheds(cost, fits, s - {k}, Shows(kept));
      ShownIsFinal(cost, fits, all, s - {k}, kept);
      ShedKeepsFinal(cost, fits, all, s, k, kept);
    }
  }

  lemma FinalStep(cost: string -> nat, fits: iset<Keys>, all: Keys, s: Keys, kept: Keys, k: string)
    requires Lawful(cost, fits, all) && s <= all && FinalCut(cost, fits, s, kept) && Top(cost, s - kept, k)
    ensures s !in fits && Top(cost, s, k) && k != "" && FinalCut(cost, fits, s - {k}, kept)
  {
    assert kept + {k} !in fits;
    if s in fits { Shrinks(fits, all, kept + {k}, s); }
    forall r | r in s - {k} - kept
      ensures kept + {r} !in fits
    {
      assert r in s - kept;
    }
  }

  lemma {:induction false} FinalIsShown(cost: string -> nat, fits: iset<Keys>, all: Keys, s: Keys, kept: Keys)
    requires Lawful(cost, fits, all) && s <= all && FinalCut(cost, fits, s, kept)
    ensures Sheds(cost, fits, s, Shows(kept))
    decreases |s|
  {
    if kept != s {
      assert s == kept + (s - kept);
      var k := TopExists(cost, s - kept);
      FinalStep(cost, fits, all, s, kept, k);
      FinalIsShown(cost, fits, all, s - {k}, kept);
      ShedOne(cost, fits, s, k, Shows(kept));
    }
  }

  /** What shedding can show is exactly the final cuts. */
  lemma ShowsIff(cost: string -> nat, fits: iset<Keys>, all: Keys, kept: Keys)
    requires Lawful(cost, fits, all)
    ensures Sheds(cost, fits, all, Shows(kept)) <==> FinalCut(cost, fits, all, kept)
  {
    if Sheds(cost, fits, all, Shows(kept)) { ShownIsFinal(cost, fits, all, all, kept); }
    if FinalCut(cost, fits, all, kept) { FinalIsShown(cost, fits, all, all, kept); }
  }

  // ------------------------------------------------------- what ties decide

  /** Trading equal costs, a larger set that fits makes room for one more. */
  lemma {:induction false} Exchange(cost: string -> nat, fits: iset<Keys>, all: Keys, a: Keys, b: Keys) returns (r: string)
    requires Lawful(cost, fits, all) && a <= all && b <= all && b in fits && |a| < |b|
    requires forall x, y | x in a - b && y in b - a :: cost(x) == cost(y)
    ensures r in b - a && a + {r} in fits
    decreases |a - b|
  {
    SmallerMisses(a, b);
    var y :| y in b - a;
    if a <= b {
      r := y;
      Shrinks(fits, all, a + {y}, b);
    } else {
      var x :| x in a && x !in b;
      var c := b - {y} + {x};
      assert c - {x} == b - {y};
      Swap(cost, fits, all, c, x, b, y);
      Traded(a, b, x, y);
      r := Exchange(cost, fits, all, a, c);
    }
  }

  lemma Traded(a: Keys, b: Keys, x: string, y: string)
    requires x in a - b && y in b - a
    ensures var c := b - {y} + {x};
            |c| == |b| && a - c == a - b - {x} && c - a == b - a - {y} && |a - c| < |a - b|
  {
    var c := b - {y} + {x};
    assert a - b == (a - c) + {x};
    assert c == (b - {y}) + {x} && b == (b - {y}) + {y};
  }

  lemma SubsetSize(a: Keys, b: Keys)
    requires a <= b
    ensures |a| <= |b|
  {
    assert b == a + (b - a);
  }

  lemma SmallerMisses(a: Keys, b: Keys)
    requires |a| < |b|
    ensures b - a != {}
  {
    if b <= a {
      SubsetSize(b, a);
    } else {
      var x :| x in b && x !in a;
      assert x in b - a;
    }
  }

  lemma CrossCosts(cost: string -> nat, s: Keys, a: Keys, b: Keys, x: string, y: string)
    requires Lower(cost, s, a) && Lower(cost, s, b) && x in a - b && y in b - a
    ensures cost(x) == cost(y)
  {
  }

  /** Ties never change how many fields are shown, only which of equal cost. */
  lemma ShownCountIsForced(cost: string -> nat, fits: iset<Keys>, all: Keys, a: Keys, b: Keys)
    requires Lawful(cost, fits, all) && FinalCut(cost, fits, all, a) && FinalCut(cost, fits, all, b)
    ensures |a| == |b|
    ensures forall x, y | x in a - b && y in b - a :: cost(x) == cost(y)
  {
    forall x, y | x in a - b && y in b - a
      ensures cost(x) == cost(y)
    {
      CrossCosts(cost, all, a, b, x, y);
    }
    if |a| < |b| {
      var r := Exchange(cost, fits, all, a, b);
    } else if |b| < |a| {
      var r := Exchange(cost, fits, all, b, a);
    }
  }

  /** No field shed costs the same as a field kept. */
  ghost predicate Clean(cost: string -> nat, s: Keys, kept: Keys) {
    forall r, k | r in s - kept && k in kept :: cost(k) < cost(r)
  }

  /** Swapping a kept field for a shed one of equal cost gives another final cut. */
  lemma SwapIsFinal(cost: string -> nat, fits: iset<Keys>, all: Keys, kept: Keys, k: string, r: string)
    requires Lawful(cost, fits, all) && FinalCut(cost, fits, all, kept)
    requires k in kept && r in all - kept && cost(k) == cost(r) && k != ""
    ensures FinalCut(cost, fits, all, kept - {k} + {r})
  {
    var other := kept - {k} + {r};
    assert other - {r} == kept - {k};
    Swap(cost, fits, all, other, r, kept, k);
    forall x | x in all - other
      ensures other + {x} !in fits
    {
      if x == k {
        assert other + {x} == kept + {r};
      } else if other + {x} in fits {
        assert other + {x} - {r} == kept + {x} - {k};
        Swap(cost, fits, all, kept + {x}, k, other + {x}, r);
      }
    }
  }

  // ------------------------------------------------------------- giving up

  /** The fields no costlier than `r`. */
  function UpTo(cost: string -> nat, s: Keys, r: string): Keys {
    set k | k in s && cost(k) <= cost(r)
  }

  /** `r` and the strictly cheaper fields. */
  function AndCheaper(cost: string -> nat, s: Keys, r: string): Keys {
    set k | k in s && (k == r || cost(k) < cost(r))
  }

  /** The largest set whose failing to fit lets shedding give up. */
  function Stop(cost: string -> nat, s: Keys): Keys {
    if "" in s then UpTo(cost, s, "") else {}
  }

  /** The least it can be brought down to. */
  function Floor(cost: string -> nat, s: Keys): Keys {
    if "" in s then AndCheaper(cost, s, "") else {}
  }

  lemma {:induction false} GivesUpOnlyIf(cost: string -> nat, fits: iset<Keys>, all: Keys, s: Keys)
    requires Lawful(cost, fits, all) && s <= all && Sheds(cost, fits, s, GaveUp)
    ensures Stop(cost, s) !in fits
    decreases |s|
  {
    if s != {} {
      var k :| Top(cost, s, k) && (k == "" || Sheds(cost, fits, s - {k}, GaveUp));
      if k == "" {
        assert Stop(cost, s) == s;
      } else {
        GivesUpOnlyIf(cost, fits, all, s - {k});
        assert Stop(cost, s - {k}) <= Stop(cost, s) <= all;
      }
    }
  }

  lemma {:induction false} GivesUpIf(cost: string -> nat, fits: iset<Keys>, all: Keys, s: Keys)
    requires Lawful(cost, fits, all) && s <= all && Stop(cost, s) !in fits
    ensures Sheds(cost, fits, s, GaveUp)
    decreases |s|
  {
    assert Stop(cost, s) <= s;
    assert s !in fits;
    if s != {} {
      var k := TopExists(cost, s);
      if "" in s && cost(k) <= cost("") {
        assert Top(cost, s, "");
      } else {
        assert Stop(cost, s - {k}) == Stop(cost, s);
        GivesUpIf(cost, fits, all, s - {k});
        ShedOne(cost, fits, s, k, GaveUp);
      }
    }
  }

  /** When it can give up: with the empty key present, if and only if that field and all
      fields no costlier do not fit together; without it, if and only if nothing fits. */
  lemma GivesUpIff(cost: string -> nat, fits: iset<Keys>, all: Keys)
    requires Lawful(cost, fits, all)
    ensures Sheds(cost, fits, all, GaveUp) <==> Stop(cost, all) !in fits
  {
    if Sheds(cost, fits, all, GaveUp) { GivesUpOnlyIf(cost, fits, all, all); }
    if Stop(cost, all) !in fits { GivesUpIf(cost, fits, all, all); }
  }

  lemma {:induction false} ShowsSomeIf(cost: string -> nat, fits: iset<Keys>, all: Keys, s: Keys) returns (kept: Keys)
    requires Lawful(cost, fits, all) && s <= all && Floor(cost, s) in fits
    ensures Sheds(cost, fits, s, Shows(kept))
    decreases |s|
  {
    if s in fits {
      kept := s;
    } else {
      var rest := s - Floor(cost, s);
      assert rest == {} ==> Floor(cost, s) == s;
      var k := TopExists(cost, rest);
      assert Top(cost, s, k);
      assert Floor(cost, s - {k}) == Floor(cost, s);
      kept := ShowsSomeIf(cost, fits, all, s - {k});
      ShedOne(cost, fits, s, k, Shows(kept));
    }
  }

  /** When it can succeed: if and only if the empty-key field fits with the fields
      strictly cheaper.  In between, a tie with the empty key decides. */
  lemma ShowsSomeIff(cost: string -> nat, fits: iset<Keys>, all: Keys)
    requires Lawful(cost, fits, all)
    ensures (exists kept :: Sheds(cost, fits, all, Shows(kept))) <==> Floor(cost, all) in fits
  {
    if Floor(cost, all) in fits {
      var kept := ShowsSomeIf(cost, fits, all, all);
    }
    if exists kept :: Sheds(cost, fits, all, Shows(kept)) {
      var kept :| Sheds(cost, fits, all, Shows(kept));
      ShownIsFinal(cost, fits, all, all, kept);
      assert Floor(cost, all) <= kept;
    }
  }

  // -------------------------------------------------------------- uniqueness

  lemma CleanIsForced(cost: string -> nat, fits: iset<Keys>, all: Keys, kept: Keys, out: Outcome)
    requires Lawful(cost, fits, all) && FinalCut(cost, fits, all, kept) && Clean(cost, all, kept)
    requires Sheds(cost, fits, all, out)
    ensures out == Shows(kept)
  {
    match out
    case GaveUp =>
      assert Stop(cost, all) <= kept;
      Shrinks(fits, all, Stop(cost, all), kept);
      GivesUpOnlyIf(cost, fits, all, all);
    case Shows(other) =>
      ShownIsFinal(cost, fits, all, all, other);
      ShownCountIsForced(cost, fits, all, kept, other);
      SameSizeDiffer(kept, other);
  }

  lemma SameSizeDiffer(a: Keys, b: Keys)
    requires |a| == |b|
    ensures a == b || (a - b != {} && b - a != {})
  {
    assert a == (a * b) + (a - b) && b == (a * b) + (b - a);
  }

  lemma TieIsOpen(cost: string -> nat, fits: iset<Keys>, all: Keys, kept: Keys) returns (out: Outcome)
    requires Lawful(cost, fits, all) && FinalCut(cost, fits, all, kept) && !Clean(cost, all, kept)
    ensures Sheds(cost, fits, all, out) && out != Shows(kept)
  {
    var r, k :| r in all - kept && k in kept && cost(k) >= cost(r);
    if k == "" {
      assert kept + {r} <= Stop(cost, all) && kept + {r} !in fits;
      GivesUpIf(cost, fits, all, all);
      out := GaveUp;
    } else {
      SwapIsFinal(cost, fits, all, kept, k, r);
      FinalIsShown(cost, fits, all, all, kept - {k} + {r});
      out := Shows(kept - {k} + {r});
    }
  }

  ghost predicate Forced(cost: string -> nat, fits: iset<Keys>, all: Keys, kept: Keys) {
    forall out :: Sheds(cost, fits, all, out) ==> out == Shows(kept)
  }

  lemma CleanForces(cost: string -> nat, fits: iset<Keys>, all: Keys, kept: Keys)
    requires Lawful(cost, fits, all) && FinalCut(cost, fits, all, kept) && Clean(cost, all, kept)
    ensures Forced(cost, fits, all, kept)
  {
    forall out | Sheds(cost, fits, all, out)
      ensures out == Shows(kept)
    {
      CleanIsForced(cost, fits, all, kept, out);
    }
  }

  /** The outcome is fixed, whatever order the map is walked in, if and only if no field
      shed costs the same as a field kept.  A tie that is shed whole decides nothing. */
  lemma OutcomeIsForcedIff(cost: string -> nat, fits: iset<Keys>, all: Keys, kept: Keys)
    requires Lawful(cost, fits, all) && FinalCut(cost, fits, all, kept)
    ensures Forced(cost, fits, all, kept) <==> Clean(cost, all, kept)
  {
    if Clean(cost, all, kept) {
      CleanForces(cost, fits, all, kept);
    } else {
      var out := TieIsOpen(cost, fits, all, kept);
    }
  }

  // --------------------------------------------------- seen before shedding

  /** A tie that splits: `r` fits with the strictly cheaper fields, but not with all that
      cost no more.  Ties below the empty key are never reached. */
  ghost predicate Splits(cost: string -> nat, fits: iset<Keys>, all: Keys, r: string) {
    && r in all && ("" in all ==> cost("") <= cost(r))
    && AndCheaper(cost, all, r) in fits && UpTo(cost, all, r) !in fits
  }

  ghost predicate OneOutcome(cost: string -> nat, fits: iset<Keys>, all: Keys) {
    forall a, b :: Sheds(cost, fits, all, a) && Sheds(cost, fits, all, b) ==> a == b
  }

  lemma KeptHoldsCheaper(cost: string -> nat, all: Keys, kept: Keys, x: string)
    requires Lower(cost, all, kept) && x in kept
    ensures AndCheaper(cost, all, x) <= kept
  {
  }

  lemma KeptIsUpTo(cost: string -> nat, all: Keys, kept: Keys, r: string)
    requires Lower(cost, all, kept) && r in all - kept
    ensures kept + {r} <= UpTo(cost, all, r)
  {
  }

  /** Two different sets shown differ in a tie that splits. */
  lemma DifferenceSplits(cost: string -> nat, fits: iset<Keys>, all: Keys, a: Keys, b: Keys) returns (r: string)
    requires Lawful(cost, fits, all) && FinalCut(cost, fits, all, a) && FinalCut(cost, fits, all, b) && a != b
    ensures Splits(cost, fits, all, r)
  {
    ShownCountIsForced(cost, fits, all, a, b);
    SameSizeDiffer(a, b);
    r :| r in a - b;
    KeptHoldsCheaper(cost, all, a, r);
    Shrinks(fits, all, AndCheaper(cost, all, r), a);
    KeptIsUpTo(cost, all, b, r);
    if UpTo(cost, all, r) in fits { Shrinks(fits, all, b + {r}, UpTo(cost, all, r)); }
  }

  lemma OpenSplits(cost: string -> nat, fits: iset<Keys>, all: Keys, x: Outcome, y: Outcome) returns (r: string)
    requires Lawful(cost, fits, all) && Sheds(cost, fits, all, x) && Sheds(cost, fits, all, y) && x != y
    ensures Splits(cost, fits, all, r)
  {
    if x.Shows? && y.Shows? {
      ShownIsFinal(cost, fits, all, all, x.keys);
      ShownIsFinal(cost, fits, all, all, y.keys);
      r := DifferenceSplits(cost, fits, all, x.keys, y.keys);
    } else {
      GivesUpIff(cost, fits, all);
      ShowsSomeIff(cost, fits, all);
      r := "";
    }
  }

  lemma CleanStaysBelow(cost: string -> nat, all: Keys, kept: Keys, t: string, r: string)
    requires kept <= all && Clean(cost, all, kept) && t in all - kept && r in all && cost(t) <= cost(r)
    ensures r !in kept && kept + {r} <= AndCheaper(cost, all, r)
  {
  }

  /** A final cut goes through the middle of a tie that splits. */
  lemma CutsTheTie(cost: string -> nat, fits: iset<Keys>, all: Keys, kept: Keys, r: string)
    requires Lawful(cost, fits, all) && FinalCut(cost, fits, all, kept) && Splits(cost, fits, all, r)
    ensures !Clean(cost, all, kept)
  {
    var upTo := UpTo(cost, all, r);
    if upTo <= kept {
      Shrinks(fits, all, upTo, kept);
    } else if Clean(cost, all, kept) {
      var t :| t in upTo && t !in kept;
      CleanStaysBelow(cost, all, kept, t, r);
      assert r in all - kept;
      Shrinks(fits, all, kept + {r}, AndCheaper(cost, all, r));
    }
  }

  /** The outcome does not depend on map order if and only if no tie splits. */
  lemma OneOutcomeIff(cost: string -> nat, fits: iset<Keys>, all: Keys)
    requires Lawful(cost, fits, all)
    ensures OneOutcome(cost, fits, all) <==> forall r :: !Splits(cost, fits, all, r)
  {
    if !OneOutcome(cost, fits, all) {
      var x, y :| Sheds(cost, fits, all, x) && Sheds(cost, fits, all, y) && x != y;
      var r := OpenSplits(cost, fits, all, x, y);
    }
    forall r | Splits(cost, fits, all, r)
      ensures !OneOutcome(cost, fits, all)
    {
      SplitIsOpen(cost, fits, all, r);
    }
  }

  lemma FloorFits(cost: string -> nat, fits: iset<Keys>, all: Keys, r: string)
    requires Lawful(cost, fits, all) && Splits(cost, fits, all, r)
    ensures Floor(cost, all) in fits
  {
    var least, floor := AndCheaper(cost, all, r), Floor(cost, all);
    if "" in all && cost("") == cost(r) {
      assert floor - {""} == least - {r};
      Swap(cost, fits, all, floor, "", least, r);
    } else {
      Shrinks(fits, all, floor, least);
    }
  }

  lemma SplitIsOpen(cost: string -> nat, fits: iset<Keys>, all: Keys, r: string)
    requires Lawful(cost, fits, all) && Splits(cost, fits, all, r)
    ensures !OneOutcome(cost, fits, all)
  {
    FloorFits(cost, fits, all, r);
    var kept := ShowsSomeIf(cost, fits, all, all);
    ShownIsFinal(cost, fits, all, all, kept);
    CutsTheTie(cost, fits, all, kept, r);
    var out := TieIsOpen(cost, fits, all, kept);
  }

  // ------------------------------------------------------------- a whole tie

  /** A tie met on the way decides nothing if both of it must go. */
  lemma WholeTieIsForced(cost: string -> nat, fits: iset<Keys>, a: string, b: string)
    requires Lawful(cost, fits, {a, b}) && a != b && a != "" && b != "" && cost(a) == cost(b)
    requires {a} !in fits && {} in fits
    ensures Top(cost, {a, b}, a) && Top(cost, {a, b}, b) && {a, b} !in fits
    ensures Forced(cost, fits, {a, b}, {})
  {
    var all := {a, b};
    if all in fits { Shrinks(fits, all, {a}, all); }
    if {b} in fits {
      assert {a} - {a} == {b} - {b};
      Swap(cost, fits, all, {a}, a, {b}, b);
    }
    assert {} + {a} == {a} && {} + {b} == {b};
    assert FinalCut(cost, fits, all, {});
    CleanForces(cost, fits, all, {});
  }
}
