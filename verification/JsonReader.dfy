/** A reader of JSON text without insignificant whitespace (RFC 8259), and what a document
    it reads means.  It knows no printer. */
module JsonReader {
  import opened Options
  import opened Json
  import opened KeyOrder

  /** What was read: object members keep the order they were written in. */
  datatype Doc =
    | DNull
    | DBool(b: bool)
    | DNum(lexeme: string)
    | DStr(s: string)
    | DArr(items: seq<Doc>)
    | DObj(members: seq<Member>)

  datatype Member = Member(key: string, value: Doc)

  // ----------------------------------------------------------------- strings

  function HexValue(c: char): (n: Option<nat>)
    ensures n.Some? ==> n.value < 16
  {
    if '0' <= c <= '9' then Some(c as int - '0' as int)
    else if 'a' <= c <= 'f' then Some(c as int - 'a' as int + 10)
    else if 'A' <= c <= 'F' then Some(c as int - 'A' as int + 10)
    else None
  }

  /** The character of four hexadecimal digits; half a surrogate pair is none. */
  function FourHex(a: char, b: char, c: char, d: char): Option<char> {
    match (HexValue(a), HexValue(b), HexValue(c), HexValue(d))
    case (Some(i), Some(j), Some(k), Some(l)) =>
      var n := ((i * 16 + j) * 16 + k) * 16 + l;
      if n < 0xD800 || 0xDFFF < n then Some(n as char) else None
    case _ => None
  }

  /** The character a two-character escape stands for. */
  function ShortEscape(c: char): Option<char> {
    match c
    case '\"' => Some('\"')
    case '\\' => Some('\\')
    case '/' => Some('/')
    case 'b' => Some('\U{8}')
    case 'f' => Some('\U{C}')
    case 'n' => Some('\n')
    case 'r' => Some('\r')
    case 't' => Some('\t')
    case _ => None
  }

  /** One character of a string, and how many characters it was written with. */
  function ReadChar(t: string): (r: Option<(char, nat)>)
    requires t != []
    ensures r.Some? ==> 0 < r.value.1 <= |t|
  {
    if t[0] == '\"' || t[0] < ' ' then None
    else if t[0] != '\\' then Some((t[0], 1))
    else if |t| < 2 then None
    else if t[1] == 'u' then
      if |t| < 6 then None
      else
        match FourHex(t[2], t[3], t[4], t[5])
        case Some(c) => Some((c, 6))
        case None => None
    else
      match ShortEscape(t[1])
      case Some(c) => Some((c, 2))
      case None => None
  }

  /** The rest of a string after its opening quote, and what follows its closing one. */
  function ReadString(t: string): (r: Option<(string, string)>)
    ensures r.Some? ==> |r.value.1| < |t|
    decreases |t|
  {
    if t == [] then None
    else if t[0] == '\"' then Some(([], t[1..]))
    else
      match ReadChar(t)
      case None => None
      case Some((c, n)) =>
        match ReadString(t[n..])
        case None => None
        case Some((s, rest)) => Some(([c] + s, rest))
  }

  // ------------------------------------------------------------------ values

  predicate NumberChar(c: char) { ('0' <= c <= '9') || c == '+' || c == '-' || c == '.' || c == 'e' || c == 'E' }

  /** How many characters of a number the text starts with. */
  function NumberLength(t: string): (n: nat)
    ensures n <= |t|
  {
    if t != [] && NumberChar(t[0]) then 1 + NumberLength(t[1..]) else 0
  }

  function ReadWord(t: string, word: string, d: Doc): (r: Option<(Doc, string)>)
    requires word != []
    ensures r.Some? ==> |r.value.1| < |t|
  {
    if word <= t then Some((d, t[|word|..])) else None
  }

  /** A value at the start of the text, and what follows it. */
  function ReadValue(t: string): (r: Option<(Doc, string)>)
    ensures r.Some? ==> |r.value.1| < |t|
    decreases |t|, 1
  {
    if t == [] then None
    else if t[0] == 'n' then ReadWord(t, "null", DNull)
    else if t[0] == 't' then ReadWord(t, "true", DBool(true))
    else if t[0] == 'f' then ReadWord(t, "false", DBool(false))
    else if t[0] == '\"' then
      match ReadString(t[1..])
      case None => None
      case Some((s, rest)) => Some((DStr(s), rest))
    else if t[0] == '[' then
      if |t| > 1 && t[1] == ']' then Some((DArr([]), t[2..]))
      else
        match ReadItems(t[1..])
        case None => None
        case Some((items, rest)) => Some((DArr(items), rest))
    else if t[0] == '{' then
      if |t| > 1 && t[1] == '}' then Some((DObj([]), t[2..]))
      else
        match ReadMembers(t[1..])
        case None => None
        case Some((members, rest)) => Some((DObj(members), rest))
    else
      var n := NumberLength(t);
      if n == 0 then None else Some((DNum(t[..n]), t[n..]))
  }

  /** Values separated by commas up to the closing bracket. */
  function ReadItems(t: string): (r: Option<(seq<Doc>, string)>)
    ensures r.Some? ==> |r.value.1| < |t|
    decreases |t|, 2
  {
    match ReadValue(t)
    case None => None
    case Some((d, rest)) =>
      if rest == [] then None
      else if rest[0] == ']' then Some(([d], rest[1..]))
      else if rest[0] != ',' then None
      else
        match ReadItems(rest[1..])
        case None => None
        case Some((items, end)) => Some(([d] + items, end))
  }

  function ReadMember(t: string): (r: Option<(Member, string)>)
    ensures r.Some? ==> |r.value.1| < |t|
    decreases |t|, 2
  {
    if t == [] || t[0] != '\"' then None
    else
      match ReadString(t[1..])
      case None => None
      case Some((k, rest)) =>
        if rest == [] || rest[0] != ':' then None
        else
          match ReadValue(rest[1..])
          case None => None
          case Some((d, end)) => Some((Member(k, d), end))
  }

  function ReadMembers(t: string): (r: Option<(seq<Member>, string)>)
    ensures r.Some? ==> |r.value.1| < |t|
    decreases |t|, 3
  {
    match ReadMember(t)
    case None => None
    case Some((m, rest)) =>
      if rest == [] then None
      else if rest[0] == '}' then Some(([m], rest[1..]))
      else if rest[0] != ',' then None
      else
        match ReadMembers(rest[1..])
        case None => None
        case Some((members, end)) => Some(([m] + members, end))
  }

  /** A whole text that is one value. */
  function ReadText(t: string): Option<Doc> {
    match ReadValue(t)
    case Some((d, rest)) => if rest == [] then Some(d) else None
    case None => None
  }

  // ----------------------------------------------------------------- meaning

  /** Keys in strictly ascending order of their UTF-16 code units. */
  ghost predicate KeysAscend(members: seq<Member>) {
    forall i, k :: 0 <= i < k < |members| ==> Less(members[i].key, members[k].key)
  }

  function KeysIn(members: seq<Member>): set<string> { set i | 0 <= i < |members| :: members[i].key }

  /** The document says the value, with its members in property order; `agree` says which
      number texts stand for the same number. */
  ghost predicate Means(d: Doc, j: Json, agree: (string, string) -> bool)
    decreases j, 1
  {
    match j
    case Null => d == DNull
    case Bool(b) => d == DBool(b)
    case Num(l) => d.DNum? && agree(d.lexeme, l)
    case Str(s) => d == DStr(s)
    case Arr(items) => d.DArr? && |d.items| == |items| && forall i :: 0 <= i < |items| ==> Means(d.items[i], items[i], agree)
    case Obj(fields) => d.DObj? && KeysAscend(d.members) && KeysIn(d.members) == fields.Keys && MembersMean(d.members, j, agree)
  }

  ghost predicate MembersMean(members: seq<Member>, j: Json, agree: (string, string) -> bool)
    requires j.Obj?
    decreases j, 0
  {
    forall i :: 0 <= i < |members| ==> members[i].key in j.fields && Means(members[i].value, j.fields[members[i].key], agree)
  }
}
