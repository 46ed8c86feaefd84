/** The bytes the encoder writes for a value, HTML escaping on: `Size` counts them, and a
    reader gets the value back. */
module JsonEncoding {
  import opened Options
  import opened Json
  import opened JsonSize
  import opened KeyOrder
  import opened JsonReader
  import opened JsonPrinter

  function HexDigit(n: nat): char
    requires n < 16
  {
    "0123456789abcdef"[n]
  }

  function UnicodeEscape(n: nat): string
    requires n < 0x10000
  {
    ['\\', 'u', HexDigit(n / 0x1000), HexDigit(n / 0x100 % 16), HexDigit(n / 16 % 16), HexDigit(n % 16)]
  }

  function EncodedChar(c: char): (t: string)
    ensures t != []
  {
    if c == '\"' then "\\\""
    else if c == '\\' then "\\\\"
    else if c == '\U{8}' then "\\b"
    else if c == '\U{C}' then "\\f"
    else if c == '\n' then "\\n"
    else if c == '\r' then "\\r"
    else if c == '\t' then "\\t"
    else if c < ' ' || c == '<' || c == '>' || c == '&' || c == '\U{2028}' || c == '\U{2029}' then UnicodeEscape(c as int)
    else [c]
  }

  function EncodedBody(s: string): string {
    if s == [] then [] else EncodedChar(s[0]) + EncodedBody(s[1..])
  }

  function EncodedString(s: string): string { "\"" + (EncodedBody(s) + "\"") }

  /** Number lexemes are written as they are. */
  function Html(): Style { Style(EncodedString, (l: string) => l) }

  function Encoded(j: Json): string { Print(j, Html()) }

  predicate SameLexeme(a: string, b: string) { a == b }

  /** A decoded value: its number lexemes are number texts. */
  predicate Decoded(j: Json) {
    match j
    case Num(l) => IsNumber(l)
    case Arr(items) => forall i :: 0 <= i < |items| ==> Decoded(items[i])
    case Obj(fields) => forall k :: k in fields ==> Decoded(fields[k])
    case _ => true
  }

  predicate Anything(s: string) { true }

  // ------------------------------------------------------------------ reading

  lemma HexDigitReads(n: nat)
    requires n < 16
    ensures HexValue(HexDigit(n)) == Some(n)
  {
  }

  lemma FourDigits(n: nat)
    requires n < 0x10000
    ensures ((n / 0x1000 * 16 + n / 0x100 % 16) * 16 + n / 16 % 16) * 16 + n % 16 == n
  {
  }

  lemma FourHexReads(i: nat, j: nat, k: nat, l: nat, c: char)
    requires i < 16 && j < 16 && k < 16 && l < 16 && ((i * 16 + j) * 16 + k) * 16 + l == c as int < 0xD800
    ensures FourHex(HexDigit(i), HexDigit(j), HexDigit(k), HexDigit(l)) == Some(c)
  {
    HexDigitReads(i);
    HexDigitReads(j);
    HexDigitReads(k);
    HexDigitReads(l);
  }

  lemma EscapedReads(a: char, b: char, c: char, d: char, x: string, r: char)
    requires FourHex(a, b, c, d) == Some(r)
    ensures ReadChar(['\\', 'u', a, b, c, d] + x) == Some((r, 6))
  {
    var t := ['\\', 'u', a, b, c, d] + x;
    assert t[0] == '\\' && t[1] == 'u' && t[2] == a && t[3] == b && t[4] == c && t[5] == d;
  }

  lemma EscapeReads(c: char, x: string)
    requires (c as int) < 0xD800
    ensures ReadChar(UnicodeEscape(c as int) + x) == Some((c, 6))
  {
    var n := c as int;
    FourDigits(n);
    FourHexReads(n / 0x1000, n / 0x100 % 16, n / 16 % 16, n % 16, c);
    EscapedReads(HexDigit(n / 0x1000), HexDigit(n / 0x100 % 16), HexDigit(n / 16 % 16), HexDigit(n % 16), x, c);
  }

  lemma EncodedCharReads(c: char, x: string)
    ensures ReadChar(EncodedChar(c) + x) == Some((c, |EncodedChar(c)|))
  {
    var w := EncodedChar(c);
    var t := w + x;
    assert t[0] == w[0];
    if |w| == 2 {
      assert t[1] == w[1];
    } else if |w| == 6 {
      EscapeReads(c, x);
    }
  }

  lemma ReadsOn(w: string, c: char, rest: string)
    requires w != [] && ReadChar(w + rest) == Some((c, |w|))
    ensures ReadString(w + rest) == match ReadString(rest) case None => None case Some((s, end)) => Some(([c] + s, end))
  {
    assert (w + rest)[|w|..] == rest;
  }

  lemma {:induction false} EncodedBodyReads(s: string, x: string)
    ensures ReadString(EncodedBody(s) + ("\"" + x)) == Some((s, x))
  {
    if s == [] {
      assert EncodedBody(s) + ("\"" + x) == "\"" + x && ("\"" + x)[1..] == x;
    } else {
      var rest := EncodedBody(s[1..]) + ("\"" + x);
      EncodedBodyReads(s[1..], x);
      EncodedCharReads(s[0], rest);
      ReadsOn(EncodedChar(s[0]), s[0], rest);
      Assoc(EncodedChar(s[0]), EncodedBody(s[1..]), "\"" + x);
      assert [s[0]] + s[1..] == s;
    }
  }

  lemma HtmlWrites()
    ensures Writes(Html(), Anything)
  {
    forall s
      ensures ReadsBack(Html(), s)
    {
      var t := EncodedString(s);
      assert Html().text(s) == t;
      forall x
        ensures ReadString(t[1..] + x) == Some((s, x))
      {
        EncodedBodyReads(s, x);
        assert t[1..] + x == EncodedBody(s) + ("\"" + x);
      }
    }
  }

  lemma {:induction false} DecodedIsNumeric(j: Json)
    requires Decoded(j)
    ensures Numeric(j, Html(), SameLexeme) && AllClean(j, Anything)
  {
    match j
    case Arr(items) =>
      forall i | 0 <= i < |items|
        ensures Numeric(items[i], Html(), SameLexeme) && AllClean(items[i], Anything)
      {
        DecodedIsNumeric(items[i]);
      }
    case Obj(fields) =>
      forall k | k in fields
        ensures Numeric(fields[k], Html(), SameLexeme) && AllClean(fields[k], Anything)
      {
        DecodedIsNumeric(fields[k]);
      }
    case _ =>
  }

  // ------------------------------------------------------------------ counting

  lemma BytesAdd(a: string, b: string)
    ensures Bytes(a + b) == Bytes(a) + Bytes(b)
  {
    BytesSplit(a + b, |a|);
    assert (a + b)[..|a|] == a && (a + b)[|a|..] == b;
  }

  lemma {:induction false} AsciiBytes(t: string)
    requires forall i :: 0 <= i < |t| ==> t[i] < '\U{80}'
    ensures Bytes(t) == |t|
  {
    if t != [] { AsciiBytes(t[1..]); }
  }

  lemma CharBytes(c: char)
    ensures Bytes(EncodedChar(c)) == Cost(c)
  {
    var w := EncodedChar(c);
    if w[0] == '\\' {
      AsciiBytes(w);
    } else {
      assert w[1..] == [];
    }
  }

  lemma {:induction false} BodyBytes(s: string)
    ensures Bytes(EncodedBody(s)) == Costs(s)
  {
    if s != [] {
      BodyBytes(s[1..]);
      CharBytes(s[0]);
      BytesAdd(EncodedChar(s[0]), EncodedBody(s[1..]));
    }
  }

  lemma StringBytes(s: string)
    ensures Bytes(EncodedString(s)) == StringSize(s)
  {
    BodyBytes(s);
    AsciiBytes("\"");
    BytesAdd(EncodedBody(s), "\"");
    BytesAdd("\"", EncodedBody(s) + "\"");
  }

  lemma Wrapped(open: string, body: string, close: string)
    requires |open| == |close| == 1 && open[0] < '\U{80}' && close[0] < '\U{80}'
    ensures Bytes(open + (body + close)) == 2 + Bytes(body)
  {
    AsciiBytes(open);
    AsciiBytes(close);
    BytesAdd(body, close);
    BytesAdd(open, body + close);
  }

  lemma NumberBytes(t: string)
    requires IsNumber(t)
    ensures Bytes(t) == |t|
  {
    AsciiBytes(t);
  }

  lemma {:induction false} SizeIsBytes(j: Json)
    requires Decoded(j)
    ensures Bytes(Encoded(j)) == Size(j)
    decreases j, 1, 0
  {
    match j
    case Null => AsciiBytes("null");
    case Bool(b) => AsciiBytes(if b then "true" else "false");
    case Num(l) => NumberBytes(l);
    case Str(s) => StringBytes(s);
    case Arr(items) =>
      ItemsBytes(items);
      Wrapped("[", PrintItems(items, Html()), "]");
    case Obj(fields) =>
      MembersBytes(j, SortedKeys(fields.Keys));
      Wrapped("{", PrintMembers(j, SortedKeys(fields.Keys), Html()), "}");
  }

  lemma CommaBytes(a: string, b: string)
    ensures Bytes(a + ("," + b)) == Bytes(a) + 1 + Bytes(b)
  {
    AsciiBytes(",");
    BytesAdd(",", b);
    BytesAdd(a, "," + b);
  }

  lemma {:induction false} ItemsBytes(items: seq<Json>)
    requires forall i :: 0 <= i < |items| ==> Decoded(items[i])
    ensures Bytes(PrintItems(items, Html())) == ItemsSize(items)
    decreases items, 0, 0
  {
    if items != [] {
      var first := Print(items[0], Html());
      SizeIsBytes(items[0]);
      if |items| > 1 {
        ItemsBytes(items[1..]);
        CommaBytes(first, PrintItems(items[1..], Html()));
      } else {
        assert PrintItems(items, Html()) == first + [] == first;
      }
    }
  }

  lemma MemberBytes(o: Json, k: string)
    requires o.Obj? && k in o.fields && Decoded(o)
    ensures Bytes(PrintMember(o, k, Html())) == FieldSize(o, k)
    decreases o, 0, 0
  {
    SizeIsBytes(o.fields[k]);
    StringBytes(k);
    AsciiBytes(":");
    BytesAdd(":", Print(o.fields[k], Html()));
    BytesAdd(EncodedString(k), ":" + Print(o.fields[k], Html()));
  }

  lemma {:induction false} MembersBytes(o: Json, ks: seq<string>)
    requires o.Obj? && Decoded(o) && forall i :: 0 <= i < |ks| ==> ks[i] in o.fields
    ensures Bytes(PrintMembers(o, ks, Html())) == FieldsSize(o, ks)
    decreases o, 0, |ks| + 1
  {
    if ks != [] {
      var first := PrintMember(o, ks[0], Html());
      MemberBytes(o, ks[0]);
      if |ks| > 1 {
        MembersBytes(o, ks[1..]);
        CommaBytes(first, PrintMembers(o, ks[1..], Html()));
      } else {
        assert PrintMembers(o, ks, Html()) == first + [] == first;
      }
    }
  }

  /** `Size` is the number of bytes of an encoding that reads back as the value. */
  lemma SizeCountsTheEncoding(j: Json)
    requires Decoded(j)
    ensures Bytes(Encoded(j)) == Size(j)
    ensures ReadText(Encoded(j)).Some? && Means(ReadText(Encoded(j)).value, j, SameLexeme)
  {
    SizeIsBytes(j);
    HtmlWrites();
    DecodedIsNumeric(j);
    TextReadsBackIff(j, Html(), Anything, SameLexeme);
  }
}
