/** Canonical text is JSON for the value it was printed from: a reader that knows nothing of
    the printer gets that value back, members in property order. */
module CanonicalReads {
  import opened Options
  import opened Json
  import opened KeyOrder
  import opened JsonReader
  import P = JsonPrinter
  import S = CanonicalString
  import C = Canonical

  predicate Clean(s: string) { !S.SpellsEscape(s) }

  function NumberOf(num: C.Numbers): string -> string {
    (l: string) => if num.parse(l).Some? then num.format(num.parse(l).value) else []
  }

  function Canon(num: C.Numbers): P.Style { P.Style(S.StringText, NumberOf(num)) }

  /** Two number texts that parse to the same number. */
  function SameNumber(num: C.Numbers): (string, string) -> bool {
    (a: string, b: string) => num.parse(a).Some? && num.parse(a) == num.parse(b)
  }

  // ----------------------------------------------------------------- strings

  lemma HexReads(n: nat)
    requires n < 16
    ensures HexValue(S.Hex(n)) == Some(n)
  {
  }

  lemma ControlReads(c: char, x: string)
    requires c < ' '
    ensures ReadChar(['\\', 'u', '0', '0', S.Hex(c as int / 16), S.Hex(c as int % 16)] + x) == Some((c, 6))
  {
    var t := ['\\', 'u', '0', '0', S.Hex(c as int / 16), S.Hex(c as int % 16)] + x;
    HexReads(c as int / 16);
    HexReads(c as int % 16);
    assert t[2] == '0' && t[3] == '0' && t[4] == S.Hex(c as int / 16) && t[5] == S.Hex(c as int % 16);
    assert (c as int / 16) * 16 + c as int % 16 == c as int;
  }

  lemma CharReads(c: char, x: string)
    ensures ReadChar(S.RfcChar(c) + x) == Some((c, |S.RfcChar(c)|))
  {
    var w := S.RfcChar(c);
    var t := w + x;
    assert t[0] == w[0];
    if |w| == 2 {
      assert t[1] == w[1];
    } else if |w| == 6 {
      ControlReads(c, x);
    }
  }

  lemma Steps(w: string, c: char, rest: string)
    requires w != [] && ReadChar(w + rest) == Some((c, |w|))
    ensures ReadString(w + rest) == match ReadString(rest) case None => None case Some((s, end)) => Some(([c] + s, end))
  {
    assert (w + rest)[|w|..] == rest;
  }

  lemma MangledStops(c: char, rest: string)
    requires c == S.LS || c == S.PS
    ensures ReadString(['\\', c] + rest) == None
  {
    var t := ['\\', c] + rest;
    assert t[0] == '\\' && t[1] == c;
  }

  /** The text of a string reads back as the string if and only if it spells no escape. */
  lemma {:induction false} BodyReads(s: string, x: string)
    ensures ReadString(S.Body(s) + ("\"" + x)) == if Clean(s) then Some((s, x)) else None
    decreases |s|
  {
    if s == [] {
      assert S.Body(s) + ("\"" + x) == "\"" + x && ("\"" + x)[1..] == x;
    } else {
      S.BodyUnfolds(s, "\"" + x);
      assert s[0..] == s;
      if S.LS_ESCAPE <= s || S.PS_ESCAPE <= s {
        MangledStops(S.Piece(s)[1], S.Body(s[6..]) + ("\"" + x));
      } else {
        var rest := s[1..];
        BodyReads(rest, x);
        CharReads(s[0], S.Body(rest) + ("\"" + x));
        Steps(S.RfcChar(s[0]), s[0], S.Body(rest) + ("\"" + x));
        if S.SpellsEscape(s) { S.SpelledPastFirst(s); }
        if S.SpellsEscape(rest) { S.SpelledLater(s, 1); }
        assert [s[0]] + rest == s;
      }
    }
  }

  lemma CanonWrites(num: C.Numbers)
    ensures P.Writes(Canon(num), Clean)
  {
    var style := Canon(num);
    forall s
      ensures if Clean(s) then P.ReadsBack(style, s) else P.Unreadable(style, s)
    {
      var t := style.text(s);
      assert t == S.StringText(s);
      forall x
        ensures ReadString(t[1..] + x) == if Clean(s) then Some((s, x)) else None
      {
        BodyReads(s, x);
        assert t[1..] + x == S.Body(s) + ("\"" + x);
      }
    }
  }

  // ------------------------------------------------------------- the printer

  lemma {:induction false} NumbersAgree(j: Json, num: C.Numbers)
    requires num.Sound() && num.Exact() && C.Printable(j, num)
    ensures P.Numeric(j, Canon(num), SameNumber(num))
  {
    match j
    case Num(l) => assert C.NumberText(num.format(num.parse(l).value));
    case Arr(items) =>
      forall i | 0 <= i < |items|
        ensures P.Numeric(items[i], Canon(num), SameNumber(num))
      {
        NumbersAgree(items[i], num);
      }
    case Obj(fields) =>
      forall k | k in fields
        ensures P.Numeric(fields[k], Canon(num), SameNumber(num))
      {
        NumbersAgree(fields[k], num);
      }
    case _ =>
  }

  lemma {:induction false} TextIsPrint(j: Json, num: C.Numbers)
    requires C.Printable(j, num)
    ensures C.Text(j, num) == P.Print(j, Canon(num))
    decreases j, 1, 0
  {
    match j
    case Arr(items) =>
      ItemsArePrint(items, num);
    case Obj(fields) =>
      MembersArePrint(j, SortedKeys(fields.Keys), num);
    case _ =>
  }

  lemma {:induction false} ItemsArePrint(items: seq<Json>, num: C.Numbers)
    requires forall i :: 0 <= i < |items| ==> C.Printable(items[i], num)
    ensures C.Items(items, num) == P.PrintItems(items, Canon(num))
    decreases items, 0, 0
  {
    if items != [] {
      TextIsPrint(items[0], num);
      if |items| > 1 { ItemsArePrint(items[1..], num); }
    }
  }

  lemma {:induction false} MembersArePrint(o: Json, ks: seq<string>, num: C.Numbers)
    requires o.Obj? && C.Printable(o, num) && forall i :: 0 <= i < |ks| ==> ks[i] in o.fields
    ensures C.Members(o, ks, num) == P.PrintMembers(o, ks, Canon(num))
    decreases o, 0, |ks|
  {
    if ks != [] {
      TextIsPrint(o.fields[ks[0]], num);
      if |ks| > 1 { MembersArePrint(o, ks[1..], num); }
    }
  }

  /** Read back, canonical text is the value, each object's members in ascending UTF-16
      order, if and only if no string or key of it spells an escape; otherwise the text is
      not JSON. */
  lemma CanonicalReadsBackIff(j: Json, num: C.Numbers)
    requires num.Sound() && num.Exact() && C.Printable(j, num)
    ensures var r := ReadText(C.Text(j, num));
            if P.AllClean(j, Clean) then r.Some? && Means(r.value, j, SameNumber(num)) else r.None?
  {
    TextIsPrint(j, num);
    NumbersAgree(j, num);
    CanonWrites(num);
    P.TextReadsBackIff(j, Canon(num), Clean, SameNumber(num));
  }
}
