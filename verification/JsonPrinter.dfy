/** Printing a value with its keys in property order, whatever way strings and numbers are
    written, and reading it back. */
module JsonPrinter {
  import opened Options
  import opened Json
  import opened KeyOrder
  import opened JsonReader

  /** How strings (with their quotes) and numbers are written. */
  datatype Style = Style(text: string -> string, number: string -> string)

  function Print(j: Json, style: Style): string
    decreases j, 1, 0
  {
    match j
    case Null => "null"
    case Bool(b) => if b then "true" else "false"
    case Num(l) => style.number(l)
    case Str(s) => style.text(s)
    case Arr(items) => "[" + (PrintItems(items, style) + "]")
    case Obj(fields) => "{" + (PrintMembers(j, SortedKeys(fields.Keys), style) + "}")
  }

  function PrintItems(items: seq<Json>, style: Style): string
    decreases items, 0, 0
  {
    if items == [] then []
    else Print(items[0], style) + if |items| == 1 then [] else "," + PrintItems(items[1..], style)
  }

  function PrintMember(o: Json, k: string, style: Style): string
    requires o.Obj? && k in o.fields
    decreases o, 0, 0
  {
    style.text(k) + (":" + Print(o.fields[k], style))
  }

  function PrintMembers(o: Json, ks: seq<string>, style: Style): string
    requires o.Obj? && forall i :: 0 <= i < |ks| ==> ks[i] in o.fields
    decreases o, 0, |ks| + 1
  {
    if ks == [] then []
    else PrintMember(o, ks[0], style) + if |ks| == 1 then [] else "," + PrintMembers(o, ks[1..], style)
  }

  // ------------------------------------------------------------ what is needed

  predicate Quoted(t: string) { t != [] && t[0] == '\"' }

  ghost predicate ReadsBack(style: Style, s: string) {
    Quoted(style.text(s)) && forall x :: ReadString(style.text(s)[1..] + x) == Some((s, x))
  }

  ghost predicate Unreadable(style: Style, s: string) {
    Quoted(style.text(s)) && forall x :: ReadString(style.text(s)[1..] + x) == None
  }

  /** Strings are written readably if and only if they are clean. */
  ghost predicate Writes(style: Style, clean: string -> bool) {
    forall s :: if clean(s) then ReadsBack(style, s) else Unreadable(style, s)
  }

  predicate IsNumber(t: string) { t != [] && forall i :: 0 <= i < |t| ==> NumberChar(t[i]) }

  /** Every number of the value is written as a number that stands for it. */
  ghost predicate Numeric(j: Json, style: Style, agree: (string, string) -> bool) {
    match j
    case Num(l) => IsNumber(style.number(l)) && agree(style.number(l), l)
    case Arr(items) => forall i :: 0 <= i < |items| ==> Numeric(items[i], style, agree)
    case Obj(fields) => forall k :: k in fields ==> Numeric(fields[k], style, agree)
    case _ => true
  }

  predicate AllClean(j: Json, clean: string -> bool) {
    match j
    case Str(s) => clean(s)
    case Arr(items) => forall i :: 0 <= i < |items| ==> AllClean(items[i], clean)
    case Obj(fields) => forall k :: k in fields ==> clean(k) && AllClean(fields[k], clean)
    case _ => true
  }

  /** What may follow a value. */
  predicate Ends(x: string) { x == [] || x[0] == ',' || x[0] == ']' || x[0] == '}' }

  // ------------------------------------------------------------------- reading

  lemma Assoc(a: string, b: string, c: string)
    ensures (a + b) + c == a + (b + c)
  {
  }

  lemma Leads(a: string, b: string)
    requires a != []
    ensures (a + b)[0] == a[0] && (a + b)[|a|..] == b && a <= a + b
  {
  }

  lemma {:induction false} NumberReads(t: string, x: string)
    requires (forall i :: 0 <= i < |t| ==> NumberChar(t[i])) && Ends(x)
    ensures NumberLength(t + x) == |t|
  {
    if t == [] {
      assert t + x == x;
    } else {
      NumberReads(t[1..], x);
      assert (t + x)[1..] == t[1..] + x && (t + x)[0] == t[0];
    }
  }

  /** A number at the start of a text is read to its end. */
  lemma NumberIsRead(t: string, x: string)
    requires IsNumber(t) && Ends(x)
    ensures ReadValue(t + x) == Some((DNum(t), x))
  {
    NumberReads(t, x);
    Leads(t, x);
    assert NumberChar(t[0]);
    assert (t + x)[..|t|] == t;
  }

  lemma WordIsRead(word: string, x: string, d: Doc)
    requires word != []
    ensures ReadWord(word + x, word, d) == Some((d, x))
  {
    Leads(word, x);
  }

  lemma StringIsRead(s: string, x: string, style: Style, clean: string -> bool)
    requires Writes(style, clean)
    ensures ReadValue(style.text(s) + x) == if clean(s) then Some((DStr(s), x)) else None
  {
    var t := style.text(s);
    assert if clean(s) then ReadsBack(style, s) else Unreadable(style, s);
    Leads(t, x);
    assert (t + x)[1..] == t[1..] + x;
  }

  lemma PrintStarts(j: Json, style: Style, clean: string -> bool, agree: (string, string) -> bool)
    requires Writes(style, clean) && Numeric(j, style, agree)
    ensures Print(j, style) != [] && Print(j, style)[0] != ']' && Print(j, style)[0] != '}'
  {
    match j
    case Num(l) => assert NumberChar(style.number(l)[0]);
    case Str(s) => assert if clean(s) then ReadsBack(style, s) else Unreadable(style, s);
    case Arr(items) => Leads("[", PrintItems(items, style) + "]");
    case Obj(fields) => Leads("{", PrintMembers(j, SortedKeys(fields.Keys), style) + "}");
    case _ =>
  }

  /** What the reader makes of the text of `j` followed by `x`. */
  ghost predicate Outcome(r: Option<(Doc, string)>, j: Json, x: string, clean: string -> bool, agree: (string, string) -> bool) {
    if AllClean(j, clean) then r.Some? && r.value.1 == x && Means(r.value.0, j, agree) else r.None?
  }

  ghost predicate ItemsOutcome(r: Option<(seq<Doc>, string)>, items: seq<Json>, x: string, clean: string -> bool, agree: (string, string) -> bool) {
    if forall i :: 0 <= i < |items| ==> AllClean(items[i], clean) then
      && r.Some? && r.value.1 == x && |r.value.0| == |items|
      && forall i :: 0 <= i < |items| ==> Means(r.value.0[i], items[i], agree)
    else r.None?
  }

  predicate KeyClean(o: Json, k: string, clean: string -> bool)
    requires o.Obj? && k in o.fields
  {
    clean(k) && AllClean(o.fields[k], clean)
  }

  ghost predicate MembersOutcome(r: Option<(seq<Member>, string)>, o: Json, ks: seq<string>, x: string, clean: string -> bool,
                                 agree: (string, string) -> bool)
    requires o.Obj? && forall i :: 0 <= i < |ks| ==> ks[i] in o.fields
  {
    if forall i :: 0 <= i < |ks| ==> KeyClean(o, ks[i], clean) then
      && r.Some? && r.value.1 == x && |r.value.0| == |ks|
      && forall i :: 0 <= i < |ks| ==> r.value.0[i].key == ks[i] && Means(r.value.0[i].value, o.fields[ks[i]], agree)
    else r.None?
  }

  /** One step of the reader over a list. */
  lemma ItemsStep(t: string, after: string)
    requires match ReadValue(t) case Some((_, rest)) => rest == "," + after case None => true
    ensures var d, r := ReadValue(t), ReadItems(after);
            ReadItems(t) == if d.None? || r.None? then None else Some(([d.value.0] + r.value.0, r.value.1))
  {
    Leads(",", after);
  }

  lemma ItemsEnd(t: string, x: string)
    requires match ReadValue(t) case Some((_, rest)) => rest == "]" + x case None => true
    ensures var d := ReadValue(t); ReadItems(t) == if d.None? then None else Some(([d.value.0], x))
  {
    Leads("]", x);
  }

  lemma MembersStep(t: string, after: string)
    requires match ReadMember(t) case Some((_, rest)) => rest == "," + after case None => true
    ensures var d, r := ReadMember(t), ReadMembers(after);
            ReadMembers(t) == if d.None? || r.None? then None else Some(([d.value.0] + r.value.0, r.value.1))
  {
    Leads(",", after);
  }

  lemma MembersEnd(t: string, x: string)
    requires match ReadMember(t) case Some((_, rest)) => rest == "}" + x case None => true
    ensures var d := ReadMember(t); ReadMembers(t) == if d.None? then None else Some(([d.value.0], x))
  {
    Leads("}", x);
  }

  /** Brackets around something that is not empty. */
  lemma ArrayStep(t: string)
    requires t != [] && t[0] != ']'
    ensures var r := ReadItems(t); ReadValue("[" + t) == if r.None? then None else Some((DArr(r.value.0), r.value.1))
  {
    var u := "[" + t;
    assert u[0] == '[' && u[1..] == t && u[1] == t[0];
  }

  lemma ObjectStep(t: string)
    requires t != [] && t[0] != '}'
    ensures var r := ReadMembers(t); ReadValue("{" + t) == if r.None? then None else Some((DObj(r.value.0), r.value.1))
  {
    var u := "{" + t;
    assert u[0] == '{' && u[1..] == t && u[1] == t[0];
  }

  lemma EmptyPair(open: string, close: string, x: string)
    requires |open| == |close| == 1
    ensures (open + (close + x))[0] == open[0] && (open + (close + x))[1] == close[0] && (open + (close + x))[2..] == x
  {
  }

  lemma {:induction false} PrintReads(j: Json, x: string, style: Style, clean: string -> bool, agree: (string, string) -> bool)
    requires Writes(style, clean) && Numeric(j, style, agree) && Ends(x)
    ensures Outcome(ReadValue(Print(j, style) + x), j, x, clean, agree)
    decreases j, 2, 0
  {
    match j
    case Null => WordIsRead("null", x, DNull);
    case Bool(b) =>
      if b { WordIsRead("true", x, DBool(true)); } else { WordIsRead("false", x, DBool(false)); }
    case Num(l) => NumberIsRead(style.number(l), x);
    case Str(s) => StringIsRead(s, x, style, clean);
    case Arr(_) => ArrayReads(j, x, style, clean, agree);
    case Obj(_) => ObjectReads(j, x, style, clean, agree);
  }

  lemma Enclosed(open: string, body: string, close: string, x: string)
    ensures open + (body + close) + x == open + (body + (close + x))
  {
  }

  lemma {:induction false} ArrayReads(j: Json, x: string, style: Style, clean: string -> bool, agree: (string, string) -> bool)
    requires j.Arr? && Writes(style, clean) && Numeric(j, style, agree)
    ensures Outcome(ReadValue(Print(j, style) + x), j, x, clean, agree)
    decreases j, 1, 0
  {
    var body := PrintItems(j.items, style);
    var t := body + ("]" + x);
    Enclosed("[", body, "]", x);
    if j.items == [] {
      assert t == "]" + x;
      EmptyPair("[", "]", x);
    } else {
      ItemsRead(j.items, x, style, clean, agree);
      PrintStarts(j.items[0], style, clean, agree);
      assert t[0] == Print(j.items[0], style)[0];
      ArrayStep(t);
    }
  }

  lemma ItemsUnfold(items: seq<Json>, style: Style, u: string)
    requires items != []
    ensures PrintItems(items, style) + u ==
            Print(items[0], style) + if |items| == 1 then u else "," + (PrintItems(items[1..], style) + u)
  {
  }

  lemma {:induction false} ItemsRead(items: seq<Json>, x: string, style: Style, clean: string -> bool, agree: (string, string) -> bool)
    requires items != [] && Writes(style, clean) && forall i :: 0 <= i < |items| ==> Numeric(items[i], style, agree)
    ensures ItemsOutcome(ReadItems(PrintItems(items, style) + ("]" + x)), items, x, clean, agree)
    decreases items, 0, 0
  {
    var t := PrintItems(items, style) + ("]" + x);
    ItemsUnfold(items, style, "]" + x);
    if |items| == 1 {
      PrintReads(items[0], "]" + x, style, clean, agree);
      ItemsEnd(t, x);
    } else {
      var after := PrintItems(items[1..], style) + ("]" + x);
      PrintReads(items[0], "," + after, style, clean, agree);
      ItemsRead(items[1..], x, style, clean, agree);
      ItemsStep(t, after);
      ItemsJoin(items, x, clean, agree, ReadValue(t), ReadItems(after));
    }
  }

  lemma ItemsJoin(items: seq<Json>, x: string, clean: string -> bool, agree: (string, string) -> bool,
                  d: Option<(Doc, string)>, r: Option<(seq<Doc>, string)>)
    requires 1 < |items| && ItemsOutcome(r, items[1..], x, clean, agree)
    requires d.Some? <==> AllClean(items[0], clean)
    requires d.Some? ==> Means(d.value.0, items[0], agree)
    ensures ItemsOutcome(if d.None? || r.None? then None else Some(([d.value.0] + r.value.0, r.value.1)), items, x, clean, agree)
  {
    var rest := items[1..];
    assert forall i :: 0 < i < |items| ==> items[i] == rest[i - 1];
    assert (forall i :: 0 <= i < |items| ==> AllClean(items[i], clean)) <==>
           AllClean(items[0], clean) && forall i :: 0 <= i < |rest| ==> AllClean(rest[i], clean) by {
      if forall i :: 0 <= i < |items| ==> AllClean(items[i], clean) {
        forall i | 0 <= i < |rest|
          ensures AllClean(rest[i], clean)
        {
          assert rest[i] == items[i + 1];
        }
      }
    }
  }

  lemma TextIsQuoted(style: Style, clean: string -> bool, k: string)
    requires Writes(style, clean)
    ensures Quoted(style.text(k))
  {
    assert if clean(k) then ReadsBack(style, k) else Unreadable(style, k);
  }

  lemma MembersStart(o: Json, ks: seq<string>, style: Style, u: string)
    requires o.Obj? && ks != [] && (forall i :: 0 <= i < |ks| ==> ks[i] in o.fields) && Quoted(style.text(ks[0]))
    ensures Quoted(PrintMembers(o, ks, style) + u)
  {
    Leads(style.text(ks[0]), ":" + Print(o.fields[ks[0]], style));
  }

  lemma {:induction false} ObjectReads(j: Json, x: string, style: Style, clean: string -> bool, agree: (string, string) -> bool)
    requires j.Obj? && Writes(style, clean) && Numeric(j, style, agree)
    ensures Outcome(ReadValue(Print(j, style) + x), j, x, clean, agree)
    decreases j, 1, 0
  {
    var ks := SortedKeys(j.fields.Keys);
    var body := PrintMembers(j, ks, style);
    var t := body + ("}" + x);
    Enclosed("{", body, "}", x);
    if ks == [] {
      assert t == "}" + x;
      EmptyPair("{", "}", x);
      NoFields(j);
    } else {
      MembersRead(j, ks, x, style, clean, agree);
      TextIsQuoted(style, clean, ks[0]);
      MembersStart(j, ks, style, "}" + x);
      ObjectStep(t);
      ObjectMeans(j, ks, x, clean, agree, ReadMembers(t));
    }
  }

  lemma NoFields(j: Json)
    requires j.Obj? && SortedKeys(j.fields.Keys) == []
    ensures j.fields.Keys == {}
  {
    if k :| k in j.fields.Keys { assert k in SortedKeys(j.fields.Keys); }
  }

  lemma CleanByKeys(j: Json, ks: seq<string>, clean: string -> bool)
    requires j.Obj? && (forall k :: k in ks <==> k in j.fields) && forall i :: 0 <= i < |ks| ==> ks[i] in j.fields
    ensures AllClean(j, clean) <==> forall i :: 0 <= i < |ks| ==> KeyClean(j, ks[i], clean)
  {
    if forall i :: 0 <= i < |ks| ==> KeyClean(j, ks[i], clean) {
      forall k | k in j.fields
        ensures clean(k) && AllClean(j.fields[k], clean)
      {
        var i :| 0 <= i < |ks| && ks[i] == k;
        assert KeyClean(j, ks[i], clean);
      }
    }
  }

  lemma MembersAscend(members: seq<Member>, keys: set<string>)
    requires var ks := SortedKeys(keys); |members| == |ks| && forall i :: 0 <= i < |ks| ==> members[i].key == ks[i]
    ensures KeysAscend(members)
  {
    SortedKeysAscend(keys);
    var ks := SortedKeys(keys);
    forall i, k | 0 <= i < k < |members|
      ensures Less(members[i].key, members[k].key)
    {
      assert members[i].key == ks[i] && members[k].key == ks[k];
    }
  }

  lemma MembersAreMeant(j: Json, ks: seq<string>, members: seq<Member>, agree: (string, string) -> bool)
    requires j.Obj? && |members| == |ks| && forall i :: 0 <= i < |ks| ==> ks[i] in j.fields
    requires forall i :: 0 <= i < |ks| ==> members[i].key == ks[i] && Means(members[i].value, j.fields[ks[i]], agree)
    ensures MembersMean(members, j, agree)
  {
    forall i | 0 <= i < |members|
      ensures members[i].key in j.fields && Means(members[i].value, j.fields[members[i].key], agree)
    {
      assert members[i].key == ks[i];
    }
  }

  lemma ObjectIsMeant(j: Json, members: seq<Member>, agree: (string, string) -> bool)
    requires j.Obj? && KeysAscend(members) && KeysIn(members) == j.fields.Keys && MembersMean(members, j, agree)
    ensures Means(DObj(members), j, agree)
  {
  }

  lemma ObjectMeans(j: Json, ks: seq<string>, x: string, clean: string -> bool, agree: (string, string) -> bool, r: Option<(seq<Member>, string)>)
    requires j.Obj? && ks == SortedKeys(j.fields.Keys) && MembersOutcome(r, j, ks, x, clean, agree)
    ensures Outcome(if r.None? then None else Some((DObj(r.value.0), r.value.1)), j, x, clean, agree)
  {
    CleanByKeys(j, ks, clean);
    if r.Some? {
      MembersAscend(r.value.0, j.fields.Keys);
      KeysRead(r.value.0, ks, j.fields.Keys);
      MembersAreMeant(j, ks, r.value.0, agree);
      ObjectIsMeant(j, r.value.0, agree);
    }
  }

  lemma KeysRead(members: seq<Member>, ks: seq<string>, keys: set<string>)
    requires |members| == |ks| && (forall i :: 0 <= i < |ks| ==> members[i].key == ks[i]) && forall k :: k in ks <==> k in keys
    ensures KeysIn(members) == keys
  {
    forall k | k in keys
      ensures k in KeysIn(members)
    {
      var i :| 0 <= i < |ks| && ks[i] == k;
      assert members[i].key == k;
    }
  }

  lemma MembersUnfold(o: Json, ks: seq<string>, style: Style, u: string)
    requires o.Obj? && ks != [] && forall i :: 0 <= i < |ks| ==> ks[i] in o.fields
    ensures PrintMembers(o, ks, style) + u ==
            PrintMember(o, ks[0], style) + if |ks| == 1 then u else "," + (PrintMembers(o, ks[1..], style) + u)
  {
  }

  lemma {:induction false} MembersRead(o: Json, ks: seq<string>, x: string, style: Style, clean: string -> bool, agree: (string, string) -> bool)
    requires o.Obj? && ks != [] && Writes(style, clean) && Numeric(o, style, agree) && forall i :: 0 <= i < |ks| ==> ks[i] in o.fields
    ensures MembersOutcome(ReadMembers(PrintMembers(o, ks, style) + ("}" + x)), o, ks, x, clean, agree)
    decreases o, 0, |ks| + 1
  {
    var t := PrintMembers(o, ks, style) + ("}" + x);
    MembersUnfold(o, ks, style, "}" + x);
    if |ks| == 1 {
      MemberReads(o, ks[0], "}" + x, style, clean, agree);
      MembersEnd(t, x);
    } else {
      var after := PrintMembers(o, ks[1..], style) + ("}" + x);
      MemberReads(o, ks[0], "," + after, style, clean, agree);
      MembersRead(o, ks[1..], x, style, clean, agree);
      MembersStep(t, after);
      MembersJoin(o, ks, x, clean, agree, ReadMember(t), ReadMembers(after));
    }
  }

  lemma MembersJoin(o: Json, ks: seq<string>, x: string, clean: string -> bool, agree: (string, string) -> bool,
                    m: Option<(Member, string)>, r: Option<(seq<Member>, string)>)
    requires o.Obj? && 1 < |ks| && forall i :: 0 <= i < |ks| ==> ks[i] in o.fields
    requires MembersOutcome(r, o, ks[1..], x, clean, agree)
    requires m.Some? <==> KeyClean(o, ks[0], clean)
    requires m.Some? ==> m.value.0.key == ks[0] && Means(m.value.0.value, o.fields[ks[0]], agree)
    ensures MembersOutcome(if m.None? || r.None? then None else Some(([m.value.0] + r.value.0, r.value.1)), o, ks, x, clean, agree)
  {
    var rest := ks[1..];
    assert forall i :: 0 < i < |ks| ==> ks[i] == rest[i - 1];
    assert (forall i :: 0 <= i < |ks| ==> KeyClean(o, ks[i], clean)) <==>
           KeyClean(o, ks[0], clean) && forall i :: 0 <= i < |rest| ==> KeyClean(o, rest[i], clean) by {
      if forall i :: 0 <= i < |ks| ==> KeyClean(o, ks[i], clean) {
        forall i | 0 <= i < |rest|
          ensures KeyClean(o, rest[i], clean)
        {
          assert rest[i] == ks[i + 1];
        }
      }
    }
  }

  /** One member: its key, a colon and its value. */
  lemma MemberStep(text: string, k: string, value: string, x: string, readable: bool)
    requires Quoted(text) && ReadString(text[1..] + (":" + (value + x))) == if readable then Some((k, ":" + (value + x))) else None
    ensures var r := ReadValue(value + x);
            ReadMember(text + (":" + (value + x))) ==
            if !readable || r.None? then None else Some((Member(k, r.value.0), r.value.1))
  {
    var t := ":" + (value + x);
    assert (text + t)[0] == text[0] && (text + t)[1..] == text[1..] + t;
    assert t[1..] == value + x;
  }

  lemma KeyIsRead(style: Style, clean: string -> bool, k: string, x: string)
    requires Writes(style, clean)
    ensures Quoted(style.text(k)) && ReadString(style.text(k)[1..] + x) == if clean(k) then Some((k, x)) else None
  {
    assert if clean(k) then ReadsBack(style, k) else Unreadable(style, k);
  }

  lemma MemberUnfold(o: Json, k: string, style: Style, x: string)
    requires o.Obj? && k in o.fields
    ensures PrintMember(o, k, style) + x == style.text(k) + (":" + (Print(o.fields[k], style) + x))
  {
  }

  lemma {:induction false} MemberReads(o: Json, k: string, x: string, style: Style, clean: string -> bool, agree: (string, string) -> bool)
    requires o.Obj? && k in o.fields && Writes(style, clean) && Numeric(o, style, agree) && Ends(x)
    ensures var r := ReadMember(PrintMember(o, k, style) + x);
            && (r.Some? <==> KeyClean(o, k, clean))
            && (r.Some? ==> r.value.1 == x && r.value.0.key == k && Means(r.value.0.value, o.fields[k], agree))
    decreases o, 0, 0
  {
    var value := Print(o.fields[k], style);
    MemberUnfold(o, k, style, x);
    KeyIsRead(style, clean, k, ":" + (value + x));
    MemberStep(style.text(k), k, value, x, clean(k));
    PrintReads(o.fields[k], x, style, clean, agree);
  }

  /** The text of a value reads back as that value, its members in property order, if and
      only if every string of it is clean; otherwise it is not JSON at all. */
  lemma TextReadsBackIff(j: Json, style: Style, clean: string -> bool, agree: (string, string) -> bool)
    requires Writes(style, clean) && Numeric(j, style, agree)
    ensures var r := ReadText(Print(j, style));
            if AllClean(j, clean) then r.Some? && Means(r.value, j, agree) else r.None?
  {
    assert Print(j, style) + [] == Print(j, style);
    PrintReads(j, [], style, clean, agree);
  }
}
