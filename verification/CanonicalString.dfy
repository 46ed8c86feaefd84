/** Canonical string text.  The Go encoder escapes U+2028 and U+2029; the canonical
    printer rewrites those escapes back to the raw characters with two textual
    replacements over the encoded string. */
module CanonicalString {

  const LS: char := '\U{2028}'
  const PS: char := '\U{2029}'
  const LS_ESCAPE: string := "\\u2028"
  const PS_ESCAPE: string := "\\u2029"

  function Hex(n: int): char
    requires 0 <= n < 16
  {
    "0123456789abcdef"[n]
  }

  /** How the encoder (HTML escaping off) writes one character. */
  function GoChar(c: char): (t: string)
    ensures t != []
  {
    if c == '\"' then "\\\""
    else if c == '\\' then "\\\\"
    else if c == '\U{8}' then "\\b"
    else if c == '\U{C}' then "\\f"
    else if c == '\n' then "\\n"
    else if c == '\r' then "\\r"
    else if c == '\t' then "\\t"
    else if c < ' ' then ['\\', 'u', '0', '0', Hex(c as int / 16), Hex(c as int % 16)]
    else if c == LS then LS_ESCAPE
    else if c == PS then PS_ESCAPE
    else [c]
  }

  /** Section 3.2.2.2 of RFC 8785: only the quote, the backslash and control
      characters are escaped. */
  function RfcChar(c: char): (t: string)
    ensures t != []
  {
    if c == LS || c == PS then [c] else GoChar(c)
  }

  function GoEscape(s: string): string {
    if s == [] then [] else GoChar(s[0]) + GoEscape(s[1..])
  }

  /** Replace every non-overlapping occurrence, left to right. */
  function ReplaceAll(t: string, pattern: string, c: char): string
    requires pattern != []
  {
    if t == [] then []
    else if pattern <= t then [c] + ReplaceAll(t[|pattern|..], pattern, c)
    else [t[0]] + ReplaceAll(t[1..], pattern, c)
  }

  /** The printer's own pipeline: encode (with the encoder's newline), replace twice,
      trim. */
  function PipelineText(s: string): string {
    var encoded := "\"" + GoEscape(s) + "\"\n";
    var b := ReplaceAll(ReplaceAll(encoded, LS_ESCAPE, LS), PS_ESCAPE, PS);
    if b == [] then [] else b[..|b| - 1]
  }

  // ------------------------------------------------- one piece at a time

  /** What `s` begins with: how many characters one step consumes. */
  function Taken(s: string): (n: nat)
    requires s != []
    ensures 1 <= n <= |s|
  {
    if LS_ESCAPE <= s || PS_ESCAPE <= s then 6 else 1
  }

  function Piece(s: string): (t: string)
    requires s != []
    ensures t != []
  {
    if LS_ESCAPE <= s then ['\\', LS]
    else if PS_ESCAPE <= s then ['\\', PS]
    else RfcChar(s[0])
  }

  /** The text between the quotes. */
  function Body(s: string): string {
    if s == [] then [] else Piece(s) + Body(s[Taken(s)..])
  }

  function StringText(s: string): (t: string)
    ensures t != [] && t[0] == '\"'
  {
    "\"" + Body(s) + "\""
  }

  lemma PieceDecides(s: string, x: string, t: string, y: string)
    requires s != [] && t != [] && Piece(s) + x == Piece(t) + y
    ensures Piece(s) == Piece(t) && x == y
  {
    var p, q := Piece(s), Piece(t);
    assert (p + x)[0] == p[0] && (q + y)[0] == q[0];
    if p[0] == '\\' {
      assert (p + x)[1] == p[1] && (q + y)[1] == q[1];
      if p[1] == 'u' {
        assert (p + x)[4] == p[4] && (q + y)[4] == q[4];
        assert (p + x)[5] == p[5] && (q + y)[5] == q[5];
      }
    }
    assert |p| == |q|;
    assert (p + x)[..|p|] == p && (q + y)[..|q|] == q;
    assert (p + x)[|p|..] == x && (q + y)[|q|..] == y;
  }

  lemma ControlDecides(a: char, b: char)
    requires a < ' ' && b < ' ' && Hex(a as int / 16) == Hex(b as int / 16) && Hex(a as int % 16) == Hex(b as int % 16)
    ensures a == b
  {
    assert a as int / 16 == b as int / 16;
    assert a as int % 16 == b as int % 16;
  }

  lemma RfcCharDecides(a: char, b: char)
    requires RfcChar(a) == RfcChar(b)
    ensures a == b
  {
    var p, q := RfcChar(a), RfcChar(b);
    if |p| == 6 {
      assert p[4] == q[4] && p[5] == q[5];
      ControlDecides(a, b);
    } else if |p| == 2 {
      assert p[1] == q[1];
    } else {
      assert p[0] == q[0];
    }
  }

  lemma EqualPiecesTakeTheSame(s: string, t: string)
    requires s != [] && t != [] && Piece(s) == Piece(t)
    ensures Taken(s) == Taken(t) && s[..Taken(s)] == t[..Taken(t)]
  {
    if Taken(s) == 1 && Taken(t) == 1 {
      RfcCharDecides(s[0], t[0]);
      assert s[..1] == [s[0]] && t[..1] == [t[0]];
    } else {
      assert Piece(s)[1] == Piece(t)[1];
    }
  }

  lemma PieceIsNotAQuote(s: string)
    requires s != []
    ensures Piece(s)[0] != '\"'
  {
  }

  lemma BodyUnfolds(s: string, u: string)
    requires s != []
    ensures Body(s) + u == Piece(s) + (Body(s[Taken(s)..]) + u)
    ensures (Body(s) + u)[0] != '\"'
  {
    PieceIsNotAQuote(s);
    assert Body(s) + u == Piece(s) + (Body(s[Taken(s)..]) + u);
  }

  lemma Rejoin(s: string, n: nat, t: string, m: nat)
    requires n <= |s| && m <= |t| && s[..n] == t[..m] && s[n..] == t[m..]
    ensures s == t
  {
    assert s == s[..n] + s[n..] && t == t[..m] + t[m..];
  }

  /** String text determines the string, whatever follows the closing quote. */
  lemma {:induction false} BodyDecides(s: string, u: string, t: string, v: string)
    requires u != [] && v != [] && u[0] == v[0] == '\"'
    requires Body(s) + u == Body(t) + v
    ensures s == t && u == v
    decreases |s|
  {
    if s == [] || t == [] {
      if t != [] { BodyUnfolds(t, v); }
      if s != [] { BodyUnfolds(s, u); }
      assert Body([]) + u == u && Body([]) + v == v;
    } else {
      BodyUnfolds(s, u);
      BodyUnfolds(t, v);
      var ss, tt := s[Taken(s)..], t[Taken(t)..];
      PieceDecides(s, Body(ss) + u, t, Body(tt) + v);
      EqualPiecesTakeTheSame(s, t);
      BodyDecides(ss, u, tt, v);
      Rejoin(s, Taken(s), t, Taken(t));
    }
  }

  lemma StringTextSplits(s: string, x: string)
    ensures (StringText(s) + x)[1..] == Body(s) + ("\"" + x)
  {
    var b := Body(s);
    assert ("\"" + b + "\"" + x)[1..] == b + ("\"" + x);
  }

  lemma StringTextDecides(s: string, x: string, t: string, y: string)
    requires StringText(s) + x == StringText(t) + y
    ensures s == t && x == y
  {
    StringTextSplits(s, x);
    StringTextSplits(t, y);
    BodyDecides(s, "\"" + x, t, "\"" + y);
    assert ("\"" + x)[1..] == x && ("\"" + y)[1..] == y;
  }

  // ------------------------------------------- the pipeline prints the pieces

  function HalfChar(c: char): (t: string)
    ensures t != []
  {
    if c == LS then [c] else GoChar(c)
  }

  /** The text after the first replacement only. */
  function Half(s: string): string {
    if s == [] then []
    else if LS_ESCAPE <= s then ['\\', LS] + Half(s[6..])
    else HalfChar(s[0]) + Half(s[1..])
  }

  lemma GoEscapeCons(c: char, s: string)
    ensures GoEscape([c] + s) == GoChar(c) + GoEscape(s)
  {
    assert ([c] + s)[1..] == s;
  }

  lemma HalfCons(c: char, s: string)
    requires !(LS_ESCAPE <= [c] + s)
    ensures Half([c] + s) == HalfChar(c) + Half(s)
  {
    assert ([c] + s)[1..] == s;
  }

  lemma BodyCons(c: char, s: string)
    requires !(LS_ESCAPE <= [c] + s) && !(PS_ESCAPE <= [c] + s)
    ensures Body([c] + s) == RfcChar(c) + Body(s)
  {
    assert ([c] + s)[1..] == s;
  }

  lemma Assoc(a: string, b: string, c: string)
    ensures (a + b) + c == a + (b + c)
  {
  }

  lemma CopiesOne(ch: char, rest: string, pattern: string, c: char)
    requires pattern != [] && !(pattern <= [ch] + rest)
    ensures ReplaceAll([ch] + rest, pattern, c) == [ch] + ReplaceAll(rest, pattern, c)
  {
    assert ([ch] + rest)[1..] == rest;
  }

  /** A run of characters in which no pattern can begin is copied. */
  lemma {:induction false} Copies(t: string, rest: string, pattern: string, c: char)
    requires pattern != [] && pattern[0] == '\\'
    requires forall i :: 0 <= i < |t| ==> t[i] != '\\'
    ensures ReplaceAll(t + rest, pattern, c) == t + ReplaceAll(rest, pattern, c)
  {
    if t == [] {
      assert t + rest == rest;
    } else {
      var more := t[1..];
      Copies(more, rest, pattern, c);
      assert t + rest == [t[0]] + (more + rest);
      CopiesOne(t[0], more + rest, pattern, c);
      assert t == [t[0]] + more;
    }
  }

  /** A backslash that does not begin the pattern is copied, and so is what cannot. */
  lemma CopiesEscape(t: string, rest: string, pattern: string, c: char)
    requires pattern != [] && pattern[0] == '\\' && t != []
    requires t[0] == '\\' && !(pattern <= t + rest)
    requires forall i :: 1 <= i < |t| ==> t[i] != '\\'
    ensures ReplaceAll(t + rest, pattern, c) == t + ReplaceAll(rest, pattern, c)
  {
    var more := t[1..];
    Copies(more, rest, pattern, c);
    assert t + rest == [t[0]] + (more + rest);
    CopiesOne(t[0], more + rest, pattern, c);
    assert t == [t[0]] + more;
  }

  lemma Replaces(rest: string, pattern: string, c: char)
    requires pattern != []
    ensures ReplaceAll(pattern + rest, pattern, c) == [c] + ReplaceAll(rest, pattern, c)
  {
    assert (pattern + rest)[|pattern|..] == rest;
  }

  predicate PlainChar(c: char) { ' ' <= c && c != '\"' && c != '\\' && c != LS && c != PS }

  predicate Plain(w: string) { forall i :: 0 <= i < |w| ==> PlainChar(w[i]) }

  const TAIL: string := "\"\n"

  lemma PlainChars(c: char)
    requires PlainChar(c)
    ensures GoChar(c) == HalfChar(c) == RfcChar(c) == [c]
  {
  }

  lemma {:induction false} PlainIsKept(w: string, s: string)
    requires Plain(w)
    ensures GoEscape(w + s) == w + GoEscape(s)
  {
    if w == [] {
      assert w + s == s;
    } else {
      var c, more := w[0], w[1..];
      PlainIsKept(more, s);
      assert w == [c] + more;
      Assoc([c], more, s);
      GoEscapeCons(c, more + s);
      PlainChars(c);
      Assoc([c], more, GoEscape(s));
    }
  }

  lemma {:induction false} PlainIsHalved(w: string, s: string)
    requires Plain(w)
    ensures Half(w + s) == w + Half(s)
  {
    if w == [] {
      assert w + s == s;
    } else {
      var c, more := w[0], w[1..];
      PlainIsHalved(more, s);
      assert w == [c] + more;
      Assoc([c], more, s);
      assert ([c] + (more + s))[0] == c && LS_ESCAPE[0] == '\\';
      HalfCons(c, more + s);
      PlainChars(c);
      Assoc([c], more, Half(s));
    }
  }

  lemma PrefixTail(p: string, t: string)
    requires p != [] && t != [] && p[0] == t[0]
    ensures p <= t <==> p[1..] <= t[1..]
  {
    assert p == [p[0]] + p[1..] && t == [t[0]] + t[1..];
  }

  lemma FirstChar(c: char, w: char)
    requires PlainChar(w) && c != w
    ensures GoChar(c)[0] != w && HalfChar(c)[0] != w
  {
  }

  /** A plain word leads the encoded text exactly when it leads the string. */
  lemma {:induction false} PlainLeads(w: string, s: string)
    requires Plain(w)
    ensures w <= GoEscape(s) + TAIL <==> w <= s
  {
    if w != [] {
      var g := GoEscape(s) + TAIL;
      if s == [] {
        assert g[0] == '\"';
      } else {
        var rest := s[1..];
        assert s == [s[0]] + rest;
        GoEscapeCons(s[0], rest);
        Assoc(GoChar(s[0]), GoEscape(rest), TAIL);
        if s[0] == w[0] {
          PlainChars(s[0]);
          PlainLeads(w[1..], rest);
          assert g[1..] == GoEscape(rest) + TAIL;
          PrefixTail(w, s);
          PrefixTail(w, g);
        } else {
          FirstChar(s[0], w[0]);
          assert g[0] == GoChar(s[0])[0];
        }
      }
    }
  }

  lemma {:induction false} PlainLeadsHalf(w: string, s: string)
    requires Plain(w)
    ensures w <= Half(s) + TAIL <==> w <= s
  {
    if w != [] {
      var h := Half(s) + TAIL;
      if s == [] {
        assert h[0] == '\"';
      } else if LS_ESCAPE <= s {
        assert h[0] == '\\' && s[0] == '\\';
      } else {
        var rest := s[1..];
        assert s == [s[0]] + rest;
        HalfCons(s[0], rest);
        Assoc(HalfChar(s[0]), Half(rest), TAIL);
        if s[0] == w[0] {
          PlainChars(s[0]);
          PlainLeadsHalf(w[1..], rest);
          assert h[1..] == Half(rest) + TAIL;
          PrefixTail(w, s);
          PrefixTail(w, h);
        } else {
          FirstChar(s[0], w[0]);
          assert h[0] == HalfChar(s[0])[0];
        }
      }
    }
  }

  /** An escaped backslash passes a replacement unless the pattern's word follows. */
  lemma BackslashPasses(rest: string, word: string, pattern: string, c: char)
    requires pattern == "\\" + word && word != [] && word[0] != '\\' && !(word <= rest)
    ensures ReplaceAll("\\\\" + rest, pattern, c) == "\\\\" + ReplaceAll(rest, pattern, c)
  {
    var t := "\\" + rest;
    assert pattern[1..] == word && t[1..] == rest;
    PrefixTail(pattern, t);
    CopiesOne('\\', rest, pattern, c);
    assert pattern[1] == word[0] && (['\\'] + t)[1] == '\\';
    CopiesOne('\\', t, pattern, c);
    assert "\\\\" + rest == ['\\'] + t;
  }

  lemma DoubleBackslash(word: string, rest: string)
    ensures "\\\\" + word + rest == ['\\'] + (("\\" + word) + rest)
  {
  }

  /** An escaped backslash followed by the pattern's word loses its second half. */
  lemma BackslashIsEaten(rest: string, word: string, pattern: string, c: char)
    requires pattern == "\\" + word && word != [] && word[0] != '\\'
    ensures ReplaceAll("\\\\" + word + rest, pattern, c) == ['\\', c] + ReplaceAll(rest, pattern, c)
  {
    Replaces(rest, pattern, c);
    var t := pattern + rest;
    assert pattern[1] == word[0] && (['\\'] + t)[1] == t[0] == '\\';
    CopiesOne('\\', t, pattern, c);
    DoubleBackslash(word, rest);
    Assoc(['\\'], [c], ReplaceAll(rest, pattern, c));
  }

  lemma OtherEscapePasses(ch: char, rest: string, pattern: string, c: char)
    requires pattern == LS_ESCAPE || pattern == PS_ESCAPE
    requires ch != '\\' && GoChar(ch) != pattern
    ensures ReplaceAll(GoChar(ch) + rest, pattern, c) == GoChar(ch) + ReplaceAll(rest, pattern, c)
  {
    var t := GoChar(ch);
    if t[0] == '\\' {
      assert (t + rest)[1] == t[1];
      if t[1] == 'u' {
        assert (t + rest)[2] == t[2] && (t + rest)[5] == t[5];
      }
      CopiesEscape(t, rest, pattern, c);
    } else {
      Copies(t, rest, pattern, c);
    }
  }

  /** Replacing a pattern in the text of a backslash and what follows it. */
  lemma BackslashStep(rest: string, g: string, h: string, word: string, pattern: string, c: char)
    requires pattern == "\\" + word && word != [] && word[0] != '\\'
    requires ReplaceAll(g, pattern, c) == h && (word <= g <==> word <= rest) && !(pattern <= "\\" + rest)
    ensures ReplaceAll("\\\\" + g, pattern, c) == "\\\\" + h
  {
    PrefixTail(pattern, "\\" + rest);
    assert pattern[1..] == word && ("\\" + rest)[1..] == rest;
    BackslashPasses(g, word, pattern, c);
  }

  lemma EscapedJoins(word: string, text: string)
    ensures "\\\\" + (word + text) + TAIL == "\\\\" + word + (text + TAIL)
  {
  }

  lemma SpelledText(word: string, rest: string)
    requires Plain(word)
    ensures GoEscape(['\\'] + (word + rest)) + TAIL == "\\\\" + word + (GoEscape(rest) + TAIL)
  {
    GoEscapeCons('\\', word + rest);
    PlainIsKept(word, rest);
    EscapedJoins(word, GoEscape(rest));
  }

  lemma SpelledHalf(word: string, rest: string)
    requires Plain(word) && !(LS_ESCAPE <= ['\\'] + (word + rest))
    ensures Half(['\\'] + (word + rest)) + TAIL == "\\\\" + word + (Half(rest) + TAIL)
  {
    HalfCons('\\', word + rest);
    PlainIsHalved(word, rest);
    EscapedJoins(word, Half(rest));
  }

  lemma FirstSpelled(rest: string, h: string)
    requires ReplaceAll(GoEscape(rest) + TAIL, LS_ESCAPE, LS) == h
    ensures ReplaceAll(GoEscape(LS_ESCAPE + rest) + TAIL, LS_ESCAPE, LS) == ['\\', LS] + h
  {
    assert LS_ESCAPE + rest == ['\\'] + ("u2028" + rest);
    SpelledText("u2028", rest);
    BackslashIsEaten(GoEscape(rest) + TAIL, "u2028", LS_ESCAPE, LS);
  }

  lemma FirstOther(ch: char, rest: string, g: string, h: string)
    requires ReplaceAll(g, LS_ESCAPE, LS) == h && ("u2028" <= g <==> "u2028" <= rest)
    requires !(LS_ESCAPE <= [ch] + rest)
    ensures ReplaceAll(GoChar(ch) + g, LS_ESCAPE, LS) == HalfChar(ch) + h
  {
    if ch == '\\' {
      BackslashStep(rest, g, h, "u2028", LS_ESCAPE, LS);
    } else if ch == LS {
      Replaces(g, LS_ESCAPE, LS);
    } else {
      OtherEscapePasses(ch, g, LS_ESCAPE, LS);
    }
  }

  lemma {:induction false} FirstReplacement(s: string)
    ensures ReplaceAll(GoEscape(s) + TAIL, LS_ESCAPE, LS) == Half(s) + TAIL
    decreases |s|
  {
    if s == [] {
      Copies(TAIL, [], LS_ESCAPE, LS);
      assert GoEscape(s) + TAIL == TAIL + [] && Half(s) + TAIL == TAIL;
    } else if LS_ESCAPE <= s {
      var rest := s[6..];
      FirstReplacement(rest);
      FirstSpelled(rest, Half(rest) + TAIL);
      assert s == LS_ESCAPE + rest;
      Assoc(['\\', LS], Half(rest), TAIL);
    } else {
      var c, rest := s[0], s[1..];
      FirstReplacement(rest);
      PlainLeads("u2028", rest);
      assert s == [c] + rest;
      FirstOther(c, rest, GoEscape(rest) + TAIL, Half(rest) + TAIL);
      GoEscapeCons(c, rest);
      HalfCons(c, rest);
      Assoc(GoChar(c), GoEscape(rest), TAIL);
      Assoc(HalfChar(c), Half(rest), TAIL);
    }
  }

  lemma SecondSpelled(rest: string, b: string)
    requires ReplaceAll(Half(rest) + TAIL, PS_ESCAPE, PS) == b
    ensures ReplaceAll(Half(PS_ESCAPE + rest) + TAIL, PS_ESCAPE, PS) == ['\\', PS] + b
  {
    assert PS_ESCAPE + rest == ['\\'] + ("u2029" + rest);
    assert (PS_ESCAPE + rest)[5] == '9' && LS_ESCAPE[5] == '8';
    SpelledHalf("u2029", rest);
    BackslashIsEaten(Half(rest) + TAIL, "u2029", PS_ESCAPE, PS);
  }

  /** What the first replacement produced for a spelled escape stays. */
  lemma SecondKeeps(h: string, b: string)
    requires ReplaceAll(h, PS_ESCAPE, PS) == b
    ensures ReplaceAll(['\\', LS] + h, PS_ESCAPE, PS) == ['\\', LS] + b
  {
    assert (['\\', LS] + h)[1] == LS && PS_ESCAPE[1] == 'u';
    CopiesEscape(['\\', LS], h, PS_ESCAPE, PS);
  }

  lemma SecondOther(ch: char, rest: string, h: string, b: string)
    requires ReplaceAll(h, PS_ESCAPE, PS) == b && ("u2029" <= h <==> "u2029" <= rest)
    requires !(PS_ESCAPE <= [ch] + rest)
    ensures ReplaceAll(HalfChar(ch) + h, PS_ESCAPE, PS) == RfcChar(ch) + b
  {
    if ch == '\\' {
      BackslashStep(rest, h, b, "u2029", PS_ESCAPE, PS);
    } else if ch == LS {
      Copies([LS], h, PS_ESCAPE, PS);
    } else if ch == PS {
      Replaces(h, PS_ESCAPE, PS);
    } else {
      OtherEscapePasses(ch, h, PS_ESCAPE, PS);
    }
  }

  lemma SecondSpelledStep(s: string)
    requires LS_ESCAPE <= s || PS_ESCAPE <= s
    requires ReplaceAll(Half(s[6..]) + TAIL, PS_ESCAPE, PS) == Body(s[6..]) + TAIL
    ensures ReplaceAll(Half(s) + TAIL, PS_ESCAPE, PS) == Body(s) + TAIL
  {
    var rest := s[6..];
    Assoc(Piece(s), Body(rest), TAIL);
    if LS_ESCAPE <= s {
      SecondKeeps(Half(rest) + TAIL, Body(rest) + TAIL);
      Assoc(['\\', LS], Half(rest), TAIL);
    } else {
      SecondSpelled(rest, Body(rest) + TAIL);
      assert s == PS_ESCAPE + rest;
    }
  }

  lemma {:induction false} SecondReplacement(s: string)
    ensures ReplaceAll(Half(s) + TAIL, PS_ESCAPE, PS) == Body(s) + TAIL
    decreases |s|
  {
    if s == [] {
      Copies(TAIL, [], PS_ESCAPE, PS);
      assert Half(s) + TAIL == TAIL + [] && Body(s) + TAIL == TAIL;
    } else if LS_ESCAPE <= s || PS_ESCAPE <= s {
      SecondReplacement(s[6..]);
      SecondSpelledStep(s);
    } else {
      var c, rest := s[0], s[1..];
      SecondReplacement(rest);
      PlainLeadsHalf("u2029", rest);
      assert s == [c] + rest;
      SecondOther(c, rest, Half(rest) + TAIL, Body(rest) + TAIL);
      HalfCons(c, rest);
      BodyCons(c, rest);
      Assoc(HalfChar(c), Half(rest), TAIL);
      Assoc(RfcChar(c), Body(rest), TAIL);
    }
  }

  lemma PipelinePrintsPieces(s: string)
    ensures PipelineText(s) == StringText(s)
  {
    var g := GoEscape(s) + TAIL;
    assert "\"" + GoEscape(s) + "\"\n" == "\"" + g;
    Copies("\"", g, LS_ESCAPE, LS);
    FirstReplacement(s);
    Copies("\"", Half(s) + TAIL, PS_ESCAPE, PS);
    SecondReplacement(s);
    var b := "\"" + (Body(s) + TAIL);
    assert b[..|b| - 1] == StringText(s);
  }

  // --------------------------------------------- where it leaves RFC 8785

  function RfcBody(s: string): string {
    if s == [] then [] else RfcChar(s[0]) + RfcBody(s[1..])
  }

  /** The string itself spells one of the two escapes somewhere. */
  predicate SpellsEscape(s: string) {
    exists i | 0 <= i <= |s| :: LS_ESCAPE <= s[i..] || PS_ESCAPE <= s[i..]
  }

  lemma RfcCons(c: char, s: string)
    ensures RfcBody([c] + s) == RfcChar(c) + RfcBody(s)
  {
    assert ([c] + s)[1..] == s;
  }

  lemma {:induction false} PlainRfc(w: string, s: string)
    requires Plain(w)
    ensures RfcBody(w + s) == w + RfcBody(s)
  {
    if w == [] {
      assert w + s == s;
    } else {
      var c, more := w[0], w[1..];
      PlainRfc(more, s);
      assert w == [c] + more;
      Assoc([c], more, s);
      RfcCons(c, more + s);
      PlainChars(c);
      Assoc([c], more, RfcBody(s));
    }
  }

  lemma SpelledLater(s: string, n: nat)
    requires n <= |s| && SpellsEscape(s[n..])
    ensures SpellsEscape(s)
  {
    var i :| 0 <= i <= |s[n..]| && (LS_ESCAPE <= s[n..][i..] || PS_ESCAPE <= s[n..][i..]);
    assert s[n..][i..] == s[n + i..];
  }

  lemma SpelledPastFirst(s: string)
    requires s != [] && SpellsEscape(s) && !(LS_ESCAPE <= s) && !(PS_ESCAPE <= s)
    ensures SpellsEscape(s[1..])
  {
    var i :| 0 <= i <= |s| && (LS_ESCAPE <= s[i..] || PS_ESCAPE <= s[i..]);
    assert s[0..] == s;
    assert s[1..][i - 1..] == s[i..];
  }

  /** The printed text is never longer than the RFC text, and shorter exactly when the
      string spells an escape. */
  lemma {:induction false} PiecesAgainstRfc(s: string)
    ensures |Body(s)| <= |RfcBody(s)|
    ensures SpellsEscape(s) ==> |Body(s)| < |RfcBody(s)|
    ensures !SpellsEscape(s) ==> Body(s) == RfcBody(s)
    decreases |s|
  {
    if s == [] {
    } else if LS_ESCAPE <= s || PS_ESCAPE <= s {
      var word, rest := s[1..6], s[6..];
      assert s == "\\" + (word + rest);
      PlainRfc(word, rest);
      PiecesAgainstRfc(rest);
      assert s[0..] == s;
    } else {
      PiecesAgainstRfc(s[1..]);
      if SpellsEscape(s) { SpelledPastFirst(s); }
      if SpellsEscape(s[1..]) { SpelledLater(s, 1); }
    }
  }

  /** The printer meets RFC 8785 on a string if and only if the string does not itself
      contain a backslash followed by u2028 or u2029. */
  lemma MatchesRfcIff(s: string)
    ensures StringText(s) == "\"" + RfcBody(s) + "\"" <==> !SpellsEscape(s)
  {
    PiecesAgainstRfc(s);
    if StringText(s) == "\"" + RfcBody(s) + "\"" {
      assert |StringText(s)| == |Body(s)| + 2;
    }
  }

  /** The six characters backslash u 2 0 2 8 print as a backslash and a raw U+2028,
      which is not a JSON string at all. */
  lemma SpelledEscapeIsMangled()
    ensures PipelineText("\\u2028") == ['\"', '\\', LS, '\"']
  {
    var s := "\\u2028";
    PipelinePrintsPieces(s);
    assert s[6..] == [];
  }
}
