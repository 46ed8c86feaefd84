/** Canonical JSON text (RFC 8785): one text per value, whatever order its objects are
    walked in, and one value per text. */
module Canonical {
  import opened Options
  import opened Json
  import opened KeyOrder
  import opened CanonicalString

  /** A finite binary64 value; both zeros are one value. */
  type Float = nat

  /** Number parsing and formatting, taken from the language's library. */
  datatype Numbers = Numbers(parse: string -> Option<Float>, format: Float -> string) {
    ghost predicate Sound() {
      && (forall f :: NumberText(format(f)))
      && (forall f, g :: format(f) == format(g) ==> f == g)
    }

    /** What is formatted parses back: the shortest text that does is the one printed. */
    ghost predicate Exact() {
      forall f: Float :: parse(format(f)) == Some(f)
    }
  }

  predicate NumberChar(c: char) { ('0' <= c <= '9') || c == '+' || c == '-' || c == '.' || c == 'e' }

  predicate NumberText(t: string) { t != [] && forall i :: 0 <= i < |t| ==> NumberChar(t[i]) }

  // -------------------------------------------------------------------- text

  /** Every number is finite: the printer fails on any other. */
  predicate Printable(j: Json, num: Numbers) {
    match j
    case Num(l) => num.parse(l).Some?
    case Arr(items) => forall i :: 0 <= i < |items| ==> Printable(items[i], num)
    case Obj(fields) => forall k :: k in fields ==> Printable(fields[k], num)
    case _ => true
  }

  function Text(j: Json, num: Numbers): string
    requires Printable(j, num)
    decreases j, 1, 0
  {
    match j
    case Null => "null"
    case Bool(b) => if b then "true" else "false"
    case Num(l) => num.format(num.parse(l).value)
    case Str(s) => StringText(s)
    case Arr(items) => "[" + Items(items, num) + "]"
    case Obj(fields) => "{" + Members(j, SortedKeys(fields.Keys), num) + "}"
  }

  function Items(items: seq<Json>, num: Numbers): string
    requires forall i :: 0 <= i < |items| ==> Printable(items[i], num)
    decreases items, 0, 0
  {
    if items == [] then []
    else if |items| == 1 then Text(items[0], num)
    else Text(items[0], num) + ("," + Items(items[1..], num))
  }

  function Member(o: Json, k: string, num: Numbers): string
    requires o.Obj? && k in o.fields && Printable(o, num)
    decreases o, 0, 0
  {
    StringText(k) + (":" + Text(o.fields[k], num))
  }

  function Members(o: Json, ks: seq<string>, num: Numbers): string
    requires o.Obj? && Printable(o, num) && forall i :: 0 <= i < |ks| ==> ks[i] in o.fields
    decreases o, 0, |ks| + 1
  {
    if ks == [] then []
    else if |ks| == 1 then Member(o, ks[0], num)
    else Member(o, ks[0], num) + ("," + Members(o, ks[1..], num))
  }

  // -------------------------------------------------------------- same value

  /** The same value: objects as maps, numbers by what they parse to. */
  predicate Same(a: Json, b: Json, num: Numbers) {
    match a
    case Num(l) => b.Num? && num.parse(l) == num.parse(b.lexeme)
    case Arr(items) =>
      b.Arr? && |items| == |b.items| && forall i :: 0 <= i < |items| ==> Same(items[i], b.items[i], num)
    case Obj(fields) =>
      b.Obj? && fields.Keys == b.fields.Keys && forall k :: k in fields ==> Same(fields[k], b.fields[k], num)
    case _ => a == b
  }

  // -------------------------------------------------------- text to value

  /** What may follow a value inside a document. */
  predicate Ends(x: string) { x == [] || x[0] == ',' || x[0] == ']' || x[0] == '}' }

  datatype Shape = NullShape | BoolShape | NumShape | StrShape | ArrShape | ObjShape | NoShape

  function ShapeAt(c: char): Shape {
    if c == 'n' then NullShape
    else if c == 't' || c == 'f' then BoolShape
    else if NumberChar(c) then NumShape
    else if c == '\"' then StrShape
    else if c == '[' then ArrShape
    else if c == '{' then ObjShape
    else NoShape
  }

  function ShapeOf(j: Json): (r: Shape)
    ensures r != NoShape
  {
    match j
    case Null => NullShape
    case Bool(_) => BoolShape
    case Num(_) => NumShape
    case Str(_) => StrShape
    case Arr(_) => ArrShape
    case Obj(_) => ObjShape
  }

  lemma FirstOf(open: string, body: string, close: string)
    requires open != []
    ensures open + body + close != [] && (open + body + close)[0] == open[0]
  {
  }

  /** The first character tells what kind of value follows. */
  lemma TextStarts(j: Json, num: Numbers)
    requires num.Sound() && Printable(j, num)
    ensures Text(j, num) != [] && ShapeAt(Text(j, num)[0]) == ShapeOf(j)
  {
    match j
    case Null =>
    case Bool(_) =>
    case Num(l) => assert NumberText(num.format(num.parse(l).value));
    case Str(_) =>
    case Arr(items) => FirstOf("[", Items(items, num), "]");
    case Obj(fields) => FirstOf("{", Members(j, SortedKeys(fields.Keys), num), "}");
  }

  lemma SameShape(a: Json, x: string, b: Json, y: string, num: Numbers)
    requires num.Sound() && Printable(a, num) && Printable(b, num) && Text(a, num) + x == Text(b, num) + y
    ensures ShapeOf(a) == ShapeOf(b)
  {
    TextStarts(a, num);
    TextStarts(b, num);
    assert (Text(a, num) + x)[0] == Text(a, num)[0];
    assert (Text(b, num) + y)[0] == Text(b, num)[0];
  }

  lemma NumberStops(t: string, x: string, u: string, y: string)
    requires NumberText(u) && Ends(x) && t + x == u + y
    ensures |u| <= |t|
  {
    assert |t| < |u| ==> (u + y)[|t|] == u[|t|];
    assert |t| < |t + x| ==> (t + x)[|t|] == x[0];
  }

  lemma NumberDecides(t: string, x: string, u: string, y: string)
    requires NumberText(t) && NumberText(u) && Ends(x) && Ends(y) && t + x == u + y
    ensures t == u && x == y
  {
    NumberStops(t, x, u, y);
    NumberStops(u, y, t, x);
    CancelFixed(t, x, u, y);
  }

  lemma Cancel(p: string, x: string, y: string)
    requires p + x == p + y
    ensures x == y
  {
    assert (p + x)[|p|..] == x && (p + y)[|p|..] == y;
  }

  lemma CancelFixed(p: string, x: string, q: string, y: string)
    requires |p| == |q| && p + x == q + y
    ensures p == q && x == y
  {
    assert (p + x)[..|p|] == p && (q + y)[..|q|] == q;
    Cancel(p, x, y);
  }

  lemma BoolDecides(a: bool, x: string, b: bool, y: string)
    requires (if a then "true" else "false") + x == (if b then "true" else "false") + y
    ensures a == b && x == y
  {
    var t, u := if a then "true" else "false", if b then "true" else "false";
    assert (t + x)[0] == t[0] && (u + y)[0] == u[0];
    Cancel(t, x, y);
  }

  lemma Bracketed(open: string, body: string, close: string, x: string)
    ensures (open + body + close) + x == open + (body + (close + x))
  {
  }

  /** What follows the first item of a non-empty list, up to `u`. */
  function AfterItem(items: seq<Json>, u: string, num: Numbers): string
    requires items != [] && forall i :: 0 <= i < |items| ==> Printable(items[i], num)
  {
    if |items| == 1 then u else "," + (Items(items[1..], num) + u)
  }

  lemma ItemsUnfold(items: seq<Json>, u: string, num: Numbers)
    requires items != [] && forall i :: 0 <= i < |items| ==> Printable(items[i], num)
    ensures Items(items, num) + u == Text(items[0], num) + AfterItem(items, u, num)
  {
    if |items| > 1 {
      Assoc(Text(items[0], num), "," + Items(items[1..], num), u);
      Assoc(",", Items(items[1..], num), u);
    }
  }

  lemma ItemsStart(items: seq<Json>, u: string, num: Numbers)
    requires num.Sound() && items != [] && forall i :: 0 <= i < |items| ==> Printable(items[i], num)
    ensures Items(items, num) + u != [] && (Items(items, num) + u)[0] != ']'
  {
    ItemsUnfold(items, u, num);
    TextStarts(items[0], num);
    assert (Text(items[0], num) + AfterItem(items, u, num))[0] == Text(items[0], num)[0];
  }

  function AfterMember(o: Json, ks: seq<string>, u: string, num: Numbers): string
    requires o.Obj? && Printable(o, num) && ks != [] && forall i :: 0 <= i < |ks| ==> ks[i] in o.fields
  {
    if |ks| == 1 then u else "," + (Members(o, ks[1..], num) + u)
  }

  lemma MembersUnfold(o: Json, ks: seq<string>, u: string, num: Numbers)
    requires o.Obj? && Printable(o, num) && ks != [] && forall i :: 0 <= i < |ks| ==> ks[i] in o.fields
    ensures Members(o, ks, num) + u ==
            StringText(ks[0]) + (":" + (Text(o.fields[ks[0]], num) + AfterMember(o, ks, u, num)))
  {
    var key, value, rest := StringText(ks[0]), Text(o.fields[ks[0]], num), AfterMember(o, ks, u, num);
    assert Members(o, ks, num) + u == (key + (":" + value)) + rest by {
      if |ks| > 1 {
        Assoc(Member(o, ks[0], num), "," + Members(o, ks[1..], num), u);
        Assoc(",", Members(o, ks[1..], num), u);
      }
    }
    Assoc(key, ":" + value, rest);
    Assoc(":", value, rest);
  }

  lemma {:induction false} TextDecides(a: Json, x: string, b: Json, y: string, num: Numbers)
    requires num.Sound() && Printable(a, num) && Printable(b, num)
    requires Text(a, num) + x == Text(b, num) + y && Ends(x) && Ends(y)
    ensures Same(a, b, num) && x == y
    decreases a, 1, 0
  {
    SameShape(a, x, b, y, num);
    match a
    case Null => Cancel("null", x, y);
    case Bool(v) => BoolDecides(v, x, b.b, y);
    case Num(l) => NumberDecides(Text(a, num), x, Text(b, num), y);
    case Str(s) => StringTextDecides(s, x, b.s, y);
    case Arr(items) =>
      Bracketed("[", Items(items, num), "]", x);
      Bracketed("[", Items(b.items, num), "]", y);
      Cancel("[", Items(items, num) + ("]" + x), Items(b.items, num) + ("]" + y));
      ItemsDecide(items, "]" + x, b.items, "]" + y, num);
      Cancel("]", x, y);
    case Obj(fields) =>
      ObjectDecides(a, x, b, y, num);
  }

  lemma {:induction false} ObjectDecides(a: Json, x: string, b: Json, y: string, num: Numbers)
    requires num.Sound() && a.Obj? && b.Obj? && Printable(a, num) && Printable(b, num)
    requires Text(a, num) + x == Text(b, num) + y
    ensures Same(a, b, num) && x == y
    decreases a, 0, |a.fields| + 2
  {
    var ks, ls := SortedKeys(a.fields.Keys), SortedKeys(b.fields.Keys);
    Bracketed("{", Members(a, ks, num), "}", x);
    Bracketed("{", Members(b, ls, num), "}", y);
    Cancel("{", Members(a, ks, num) + ("}" + x), Members(b, ls, num) + ("}" + y));
    assert |ks| == |a.fields| by {
      assert |multiset(ks)| == |ks|;
    }
    MembersDecide(a, ks, "}" + x, b, ls, "}" + y, num);
    Cancel("}", x, y);
    forall k | k in a.fields
      ensures k in b.fields && Same(a.fields[k], b.fields[k], num)
    {
      var i :| 0 <= i < |ks| && ks[i] == k;
    }
  }

  lemma {:induction false} ItemsDecide(s: seq<Json>, u: string, t: seq<Json>, v: string, num: Numbers)
    requires num.Sound()
    requires forall i :: 0 <= i < |s| ==> Printable(s[i], num)
    requires forall i :: 0 <= i < |t| ==> Printable(t[i], num)
    requires u != [] && v != [] && u[0] == v[0] == ']'
    requires Items(s, num) + u == Items(t, num) + v
    ensures |s| == |t| && (forall i :: 0 <= i < |s| ==> Same(s[i], t[i], num)) && u == v
    decreases s, 0, 0
  {
    if s != [] { ItemsUnfold(s, u, num); ItemsStart(s, u, num); }
    if t != [] { ItemsUnfold(t, v, num); ItemsStart(t, v, num); }
    if s != [] && t != [] {
      TextDecides(s[0], AfterItem(s, u, num), t[0], AfterItem(t, v, num), num);
      if |s| > 1 && |t| > 1 {
        Cancel(",", Items(s[1..], num) + u, Items(t[1..], num) + v);
        ItemsDecide(s[1..], u, t[1..], v, num);
        forall i | 0 <= i < |s|
          ensures Same(s[i], t[i], num)
        {
          if i > 0 { assert s[i] == s[1..][i - 1] && t[i] == t[1..][i - 1]; }
        }
      }
    } else {
      assert Items([], num) + u == u && Items([], num) + v == v;
    }
  }

  lemma {:induction false} MembersDecide(
    a: Json, ks: seq<string>, u: string, b: Json, ls: seq<string>, v: string, num: Numbers)
    requires num.Sound() && a.Obj? && b.Obj? && Printable(a, num) && Printable(b, num)
    requires forall i :: 0 <= i < |ks| ==> ks[i] in a.fields
    requires forall i :: 0 <= i < |ls| ==> ls[i] in b.fields
    requires u != [] && v != [] && u[0] == v[0] == '}'
    requires Members(a, ks, num) + u == Members(b, ls, num) + v
    ensures ks == ls && u == v
    ensures forall i :: 0 <= i < |ks| ==> Same(a.fields[ks[i]], b.fields[ks[i]], num)
    decreases a, 0, |ks|
  {
    if ks != [] { MembersUnfold(a, ks, u, num); }
    if ls != [] { MembersUnfold(b, ls, v, num); }
    if ks != [] && ls != [] {
      MemberDecides(a, ks, u, b, ls, v, num);
      if |ks| > 1 && |ls| > 1 {
        Cancel(",", Members(a, ks[1..], num) + u, Members(b, ls[1..], num) + v);
        MembersDecide(a, ks[1..], u, b, ls[1..], v, num);
        assert ks == [ks[0]] + ks[1..] && ls == [ls[0]] + ls[1..];
        forall i | 0 <= i < |ks|
          ensures Same(a.fields[ks[i]], b.fields[ks[i]], num)
        {
          if i > 0 { assert ks[i] == ks[1..][i - 1]; }
        }
      }
    } else {
      assert Members(a, [], num) + u == u && Members(b, [], num) + v == v;
    }
  }

  lemma {:induction false} MemberDecides(
    a: Json, ks: seq<string>, u: string, b: Json, ls: seq<string>, v: string, num: Numbers)
    requires num.Sound() && a.Obj? && b.Obj? && Printable(a, num) && Printable(b, num)
    requires ks != [] && ls != []
    requires forall i :: 0 <= i < |ks| ==> ks[i] in a.fields
    requires forall i :: 0 <= i < |ls| ==> ls[i] in b.fields
    requires Ends(u) && Ends(v)
    requires Members(a, ks, num) + u == Members(b, ls, num) + v
    ensures ks[0] == ls[0] && AfterMember(a, ks, u, num) == AfterMember(b, ls, v, num)
    ensures Same(a.fields[ks[0]], b.fields[ks[0]], num)
    decreases a, 0, 0
  {
    MembersUnfold(a, ks, u, num);
    MembersUnfold(b, ls, v, num);
    var x := Text(a.fields[ks[0]], num) + AfterMember(a, ks, u, num);
    var y := Text(b.fields[ls[0]], num) + AfterMember(b, ls, v, num);
    StringTextDecides(ks[0], ":" + x, ls[0], ":" + y);
    Cancel(":", x, y);
    TextDecides(a.fields[ks[0]], AfterMember(a, ks, u, num), b.fields[ls[0]], AfterMember(b, ls, v, num), num);
  }

  // -------------------------------------------------------- value to text

  lemma {:induction false} SamePrints(a: Json, b: Json, num: Numbers)
    requires Same(a, b, num) && Printable(a, num)
    ensures Printable(b, num) && Text(a, num) == Text(b, num)
    decreases a, 1, 0
  {
    match a
    case Null =>
    case Bool(_) =>
    case Num(_) =>
    case Str(_) =>
    case Arr(items) =>
      forall i | 0 <= i < |items|
        ensures Printable(b.items[i], num) && Text(items[i], num) == Text(b.items[i], num)
      {
        SamePrints(items[i], b.items[i], num);
      }
      SameItemsPrint(items, b.items, num);
    case Obj(fields) =>
      forall k | k in fields
        ensures Printable(b.fields[k], num) && Text(fields[k], num) == Text(b.fields[k], num)
      {
        SamePrints(fields[k], b.fields[k], num);
      }
      SameMembersPrint(a, b, SortedKeys(fields.Keys), num);
  }

  lemma {:induction false} SameItemsPrint(s: seq<Json>, t: seq<Json>, num: Numbers)
    requires |s| == |t|
    requires forall i :: 0 <= i < |s| ==> Printable(s[i], num) && Printable(t[i], num) && Text(s[i], num) == Text(t[i], num)
    ensures Items(s, num) == Items(t, num)
  {
    if |s| > 1 {
      SameItemsPrint(s[1..], t[1..], num);
    }
  }

  lemma {:induction false} SameMembersPrint(a: Json, b: Json, ks: seq<string>, num: Numbers)
    requires a.Obj? && b.Obj? && Printable(a, num) && Printable(b, num)
    requires forall i :: 0 <= i < |ks| ==> ks[i] in a.fields && ks[i] in b.fields &&
                                           Text(a.fields[ks[i]], num) == Text(b.fields[ks[i]], num)
    ensures Members(a, ks, num) == Members(b, ks, num)
  {
    if |ks| > 1 {
      SameMembersPrint(a, b, ks[1..], num);
    }
  }

  /** Equal canonical text means equal values, and the other way round. */
  lemma CanonicalIff(a: Json, b: Json, num: Numbers)
    requires num.Sound() && Printable(a, num) && Printable(b, num)
    ensures Text(a, num) == Text(b, num) <==> Same(a, b, num)
  {
    if Text(a, num) == Text(b, num) {
      assert Text(a, num) + [] == Text(b, num) + [];
      TextDecides(a, [], b, [], num);
    } else if Same(a, b, num) {
      SamePrints(a, b, num);
    }
  }

  // ------------------------------------------------------------- the printer

  lemma {:induction false} ItemsSnoc(items: seq<Json>, x: Json, num: Numbers)
    requires items != [] && Printable(x, num) && forall i :: 0 <= i < |items| ==> Printable(items[i], num)
    ensures Items(items + [x], num) == Items(items, num) + ("," + Text(x, num))
  {
    var more := items[1..];
    assert (items + [x])[1..] == more + [x];
    if more == [] {
      assert Items([x], num) == Text(x, num);
      assert more + [x] == [x];
    } else {
      ItemsSnoc(more, x, num);
      Assoc(",", Items(more, num), "," + Text(x, num));
      Assoc(Text(items[0], num), "," + Items(more, num), "," + Text(x, num));
    }
  }

  lemma {:induction false} MembersSnoc(o: Json, ks: seq<string>, k: string, num: Numbers)
    requires o.Obj? && Printable(o, num) && ks != [] && k in o.fields
    requires forall i :: 0 <= i < |ks| ==> ks[i] in o.fields
    ensures Members(o, ks + [k], num) == Members(o, ks, num) + ("," + Member(o, k, num))
    decreases |ks|
  {
    var more := ks[1..];
    assert (ks + [k])[1..] == more + [k];
    if more == [] {
      assert Members(o, [k], num) == Member(o, k, num);
      assert more + [k] == [k];
    } else {
      MembersSnoc(o, more, k, num);
      Assoc(",", Members(o, more, num), "," + Member(o, k, num));
      Assoc(Member(o, ks[0], num), "," + Members(o, more, num), "," + Member(o, k, num));
    }
  }

  method AppendJsonString(s: string) returns (t: string)
    ensures t == StringText(s)
  {
    PipelinePrintsPieces(s);
    t := PipelineText(s);
  }

  /** Walk a map in no particular order, as a range over it does. */
  method WalkKeys(fields: map<string, Json>) returns (keys: seq<string>)
    ensures multiset(keys) == multiset(fields.Keys)
  {
    var rest := fields.Keys;
    keys := [];
    while rest != {}
      invariant multiset(keys) + multiset(rest) == multiset(fields.Keys)
    {
      var k :| k in rest;
      assert rest == (rest - {k}) + {k};
      keys, rest := keys + [k], rest - {k};
    }
  }

  method KeysInOrder(fields: map<string, Json>) returns (keys: seq<string>)
    ensures keys == SortedKeys(fields.Keys)
  {
    var walk := WalkKeys(fields);
    var values := new string[|walk|](i requires 0 <= i < |walk| => walk[i]);
    assert values[..] == walk;
    SlicesSort(values);
    AnyWalkSorts(walk, fields.Keys);
    keys := values[..];
  }

  /** None stands for the invalid-request error. */
  method AppendCanonical(j: Json, num: Numbers) returns (r: Option<string>)
    ensures r == if Printable(j, num) then Some(Text(j, num)) else None
    decreases j, 3
  {
    match j
    case Null => r := Some("null");
    case Bool(b) => r := Some(if b then "true" else "false");
    case Str(s) =>
      var t := AppendJsonString(s);
      r := Some(t);
    case Num(l) =>
      var f := num.parse(l);
      r := if f.None? then None else Some(num.format(f.value));
    case Arr(_) =>
      r := AppendArray(j, num);
    case Obj(_) =>
      r := AppendObject(j, num);
  }

  method AppendArray(j: Json, num: Numbers) returns (r: Option<string>)
    requires j.Arr?
    ensures r == if Printable(j, num) then Some(Text(j, num)) else None
    decreases j, 0
  {
    var items := j.items;
    var out := "";
    for i := 0 to |items|
      invariant forall k :: 0 <= k < i ==> Printable(items[k], num)
      invariant out == Items(items[..i], num)
    {
      var text := AppendCanonical(items[i], num);
      if text.None? {
        return None;
      }
      assert items[..i + 1] == items[..i] + [items[i]];
      if i > 0 {
        ItemsSnoc(items[..i], items[i], num);
        out := out + ("," + text.value);
      } else {
        assert items[..i + 1] == [items[i]];
        out := text.value;
      }
    }
    assert items[..|items|] == items;
    r := Some("[" + out + "]");
  }

  method AppendMember(j: Json, k: string, num: Numbers) returns (r: Option<string>)
    requires j.Obj? && k in j.fields
    ensures r.Some? <==> Printable(j.fields[k], num)
    ensures Printable(j, num) ==> r == Some(Member(j, k, num))
    decreases j, 0
  {
    var key := AppendJsonString(k);
    var text := AppendCanonical(j.fields[k], num);
    if text.None? {
      return None;
    }
    r := Some(key + (":" + text.value));
  }

  method AppendMembers(j: Json, keys: seq<string>, num: Numbers) returns (r: Option<string>)
    requires j.Obj? && forall i :: 0 <= i < |keys| ==> keys[i] in j.fields
    ensures r.Some? <==> forall i :: 0 <= i < |keys| ==> Printable(j.fields[keys[i]], num)
    ensures Printable(j, num) ==> r == Some(Members(j, keys, num))
    decreases j, 1
  {
    var out := "";
    for i := 0 to |keys|
      invariant forall k :: 0 <= k < i ==> Printable(j.fields[keys[k]], num)
      invariant Printable(j, num) ==> out == Members(j, keys[..i], num)
    {
      var text := AppendMember(j, keys[i], num);
      if text.None? {
        return None;
      }
      assert keys[..i + 1] == keys[..i] + [keys[i]];
      if i > 0 {
        if Printable(j, num) { MembersSnoc(j, keys[..i], keys[i], num); }
        out := out + ("," + text.value);
      } else {
        assert keys[..i + 1] == [keys[i]];
        out := text.value;
      }
    }
    assert keys[..|keys|] == keys;
    r := Some(out);
  }

  method AppendObject(j: Json, num: Numbers) returns (r: Option<string>)
    requires j.Obj?
    ensures r == if Printable(j, num) then Some(Text(j, num)) else None
    decreases j, 2
  {
    var keys := KeysInOrder(j.fields);
    var members := AppendMembers(j, keys, num);
    if members.None? {
      return None;
    }
    forall k | k in j.fields
      ensures Printable(j.fields[k], num)
    {
      assert k in keys;
    }
    r := Some("{" + members.value + "}");
  }
}
