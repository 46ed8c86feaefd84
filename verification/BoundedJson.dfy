/** A bounded observation of a JSON value: small facts are kept, large ones replaced by
    typed summaries until the encoding fits the byte budget. */
module BoundedJson {
  import opened Options
  import opened Json
  import opened JsonSize

  const SAMPLE_BYTES := 128
  const SMALL_ENTRY_BYTES := 512
  const CONTAINER_OVERHEAD := 512
  const MAX_LARGE_ENTRIES := 8
  const CUT_KEY: string := "$atoll_cut"
  const EXHAUSTED: Json := Str("projection_budget_exhausted")

  type Fields = map<string, Json>

  /** The digests, as functions of what is hashed: a string's bytes, or the encoding of
      a value. */
  datatype Hash = Hash(text: string -> string, value: Json -> string)

  type Priority = Option<string -> int>

  function Decimal(n: nat): string {
    if n < 10 then ["0123456789"[n]] else Decimal(n / 10) + ["0123456789"[n % 10]]
  }

  function Count(n: nat): Json { Num(Decimal(n)) }

  function Cut(marker: Json): Json { Obj(map[CUT_KEY := marker]) }

  const BARE: Json := Cut(Bool(true))

  function Min(a: int, b: int): int { if a < b then a else b }

  function Max(a: int, b: int): int { if a < b then b else a }

  // ----------------------------------------------------------------- markers

  function StringBase(s: string, hash: Hash): Fields {
    map["type" := Str("string"), "original_bytes" := Count(Bytes(s)), "sha256" := Str(hash.text(s))]
  }

  function StringSamples(s: string): Fields {
    var head, tail := Head(s, SAMPLE_BYTES), Tail(s, SAMPLE_BYTES);
    map["head" := Str(head), "tail" := Str(tail),
        "omitted_bytes" := Count(Max(0, Bytes(s) - Bytes(head) - Bytes(tail)))]
  }

  function StringMarker(s: string, samples: bool, hash: Hash): Fields {
    if samples then StringBase(s, hash) + StringSamples(s) else StringBase(s, hash)
  }

  function ScalarText(j: Json): string {
    match j
    case Num(l) => l
    case Bool(b) => if b then "true" else "false"
    case _ => "null"
  }

  function ScalarBase(j: Json, hash: Hash): Fields {
    map["type" := Str("scalar"), "original_bytes" := Count(Size(j)), "sha256" := Str(hash.value(j))]
  }

  function ScalarSamples(j: Json): Fields {
    map["head" := Str(Head(ScalarText(j), SAMPLE_BYTES)), "tail" := Str(Tail(ScalarText(j), SAMPLE_BYTES))]
  }

  function ScalarMarker(j: Json, samples: bool, hash: Hash): Fields {
    if samples then ScalarBase(j, hash) + ScalarSamples(j) else ScalarBase(j, hash)
  }

  function ArrayMarker(j: Json, hash: Hash): Fields
    requires j.Arr?
  {
    map["type" := Str("array"), "original_bytes" := Count(Size(j)), "original_items" := Count(|j.items|),
        "sha256" := Str(hash.value(j))]
  }

  function ObjectBase(j: Json, hash: Hash): Fields
    requires j.Obj?
  {
    map["type" := Str("object"), "original_bytes" := Count(Size(j)), "original_keys" := Count(|j.fields|),
        "sha256" := Str(hash.value(j))]
  }

  function ObjectMarker(j: Json, omitted: nat, hash: Hash): Json
    requires j.Obj?
  {
    Obj(ObjectBase(j, hash)["omitted_keys" := Count(omitted)])
  }

  function ContainerMarker(j: Json, hash: Hash): Fields
    requires j.Obj?
  {
    map["type" := Str("object"), "original_bytes" := Count(Size(j)), "original_keys" := Count(|j.fields|),
        "sha256" := Str(hash.value(j)), "reason" := EXHAUSTED]
  }

  const DETAILS: set<string> := {"head", "tail", "omitted_bytes", "omitted_items"}

  const BASE: set<string> := {"type", "original_bytes", "original_items", "original_keys", "sha256", "reason"}

  lemma BaseIsKept()
    ensures BASE !! DETAILS
  {
    forall k | k in BASE
      ensures k !in DETAILS
    {
      assert k[0] != 'h';
      assert |k| < 13 ==> k != "omitted_bytes" && k != "omitted_items";
      assert |k| >= 13 ==> k[1] == 'r';
      assert k[0] == 't' ==> k[1] == 'y';
    }
  }

  function FirstThatFits(full: Json, slim: Json, bare: Json, budget: int): Json {
    if Size(full) <= budget then full else if Size(slim) <= budget then slim else bare
  }

  function FitCut(marker: Fields, budget: int): Json {
    FirstThatFits(Cut(Obj(marker)), Cut(Obj(marker - DETAILS)), BARE, budget)
  }

  lemma CutKeySize()
    ensures StringSize(CUT_KEY) == 12
  {
    var key := CUT_KEY;
    assert forall i :: 0 <= i < |key| ==> Cost(key[i]) == 1;
    PlainCosts(key);
  }

  lemma TypeKeySize()
    ensures StringSize("type") == 6
  {
    var key := "type";
    assert forall i :: 0 <= i < |key| ==> Cost(key[i]) == 1;
    PlainCosts(key);
  }

  lemma CutSize(marker: Json)
    ensures Size(Cut(marker)) == 15 + Size(marker)
  {
    OneFieldSize(CUT_KEY, marker);
    CutKeySize();
  }

  lemma BareSize()
    ensures Size(BARE) == 19
  {
    CutSize(Bool(true));
  }

  lemma TypedSize(marker: Fields)
    requires "type" in marker
    ensures 9 <= Size(Obj(marker))
  {
    ObjectExceedsField(Obj(marker), "type");
    TypeKeySize();
  }

  /** No cut that names its type is as small as the bare one. */
  lemma TypedCutSize(marker: Fields)
    requires "type" in marker
    ensures 19 < Size(Cut(Obj(marker)))
  {
    CutSize(Obj(marker));
    TypedSize(marker);
  }

  lemma SmallestFits(full: Json, slim: Json, bare: Json, budget: int)
    requires 19 < Size(full) && 19 < Size(slim) && Size(bare) == 19
    ensures Size(FirstThatFits(full, slim, bare, budget)) <= budget <==> 19 <= budget
  {
    var out := FirstThatFits(full, slim, bare, budget);
    if Size(full) <= budget {
      assert out == full;
    } else if Size(slim) <= budget {
      assert out == slim;
    } else {
      assert out == bare;
    }
  }

  lemma FitCutFits(marker: Fields, budget: int)
    requires "type" in marker
    ensures Size(FitCut(marker, budget)) <= budget <==> 19 <= budget
  {
    TypedCutSize(marker);
    assert "type" in marker - DETAILS;
    TypedCutSize(marker - DETAILS);
    BareSize();
    SmallestFits(Cut(Obj(marker)), Cut(Obj(marker - DETAILS)), BARE, budget);
  }

  ghost function AsLong(fields: Fields, key: string): set<string> {
    set k | k in fields && |key| <= |k|
  }

  lemma FewerAsLong(fields: Fields, key: string)
    requires key in fields
    ensures AsLong(fields, key + "_") < AsLong(fields, key)
  {
    assert key in AsLong(fields, key) && key !in AsLong(fields, key + "_");
  }

  /** The marker key of a shown object never collides with a field. */
  function MarkerKey(fields: Fields, key: string): (r: string)
    ensures r !in fields && key <= r
    decreases AsLong(fields, key)
  {
    if key !in fields then key
    else
      FewerAsLong(fields, key);
      MarkerKey(fields, key + "_")
  }

  // ------------------------------------------------------- true observations

  /** A cut that quotes nothing but the value's own measurements. */
  predicate PlainCut(v: Json, out: Json, hash: Hash) {
    match v
    case Str(s) => out == Cut(Obj(StringMarker(s, true, hash))) || out == Cut(Obj(StringMarker(s, false, hash)))
    case Arr(_) => out == Cut(Obj(ArrayMarker(v, hash)))
    case Obj(_) => out == Cut(Obj(ContainerMarker(v, hash)))
    case _ => out == Cut(Obj(ScalarMarker(v, true, hash))) || out == Cut(Obj(ScalarMarker(v, false, hash)))
  }

  function ArraySamples(v: Json, head: seq<Json>, tail: seq<Json>): Fields
    requires v.Arr? && |head| + |tail| <= |v.items|
  {
    map["head" := Arr(head), "tail" := Arr(tail), "omitted_items" := Count(|v.items| - |head| - |tail|)]
  }

  function ArrayDetail(v: Json, head: seq<Json>, tail: seq<Json>, hash: Hash): Fields
    requires v.Arr? && |head| + |tail| <= |v.items|
  {
    ArrayMarker(v, hash) + ArraySamples(v, head, tail)
  }

  /** Whatever a bounded observation shows is true of the original: fields keep their
      key, items their place, sizes, counts and digests are the original's, and what
      is left out is counted. */
  ghost predicate Faithful(v: Json, out: Json, hash: Hash)
    decreases v, 2
  {
    || out == v || out == BARE || PlainCut(v, out, hash)
    || (v.Arr? && exists head, tail :: ArrayShown(v, head, tail, out, hash))
    || (v.Obj? && exists kept: Fields :: ObjectShown(v, kept, out, hash))
  }

  ghost predicate ArrayShown(v: Json, head: seq<Json>, tail: seq<Json>, out: Json, hash: Hash)
    requires v.Arr?
    decreases v, 1
  {
    && |head| + |tail| <= |v.items|
    && Mirrors(v, 0, head, hash)
    && Mirrors(v, |v.items| - |tail|, tail, hash)
    && out == Cut(Obj(ArrayDetail(v, head, tail, hash)))
  }

  /** Consecutive items, each shown faithfully. */
  ghost predicate Mirrors(v: Json, from: nat, shown: seq<Json>, hash: Hash)
    requires v.Arr?
    decreases v, 0, |shown|
  {
    && from + |shown| <= |v.items|
    && (shown != [] ==>
          var last := |shown| - 1;
          Mirrors(v, from, shown[..last], hash) && Faithful(v.items[from + last], shown[last], hash))
  }

  /** An object shown with some of its fields and a marker that counts the others. */
  ghost predicate ObjectShown(v: Json, kept: Fields, out: Json, hash: Hash)
    requires v.Obj?
    decreases v, 1
  {
    && Keeps(v, kept, hash)
    && out == Shown(v, kept, |v.fields| - |kept|, hash)
  }

  ghost predicate Keeps(v: Json, kept: Fields, hash: Hash)
    requires v.Obj?
    decreases v, 0
  {
    && |kept| <= |v.fields|
    && forall k :: k in kept ==> k in v.fields && Faithful(v.fields[k], kept[k], hash)
  }

  function Shown(v: Json, kept: Fields, omitted: nat, hash: Hash): Json
    requires v.Obj?
  {
    Obj(kept[MarkerKey(v.fields, CUT_KEY) := ObjectMarker(v, omitted, hash)])
  }

  // --------------------------------------------------------------- summaries

  function SummarizeString(s: string, budget: int, hash: Hash): Json {
    FitCut(StringMarker(s, budget > CONTAINER_OVERHEAD, hash), budget)
  }

  function CutScalar(j: Json, budget: int, hash: Hash): Json {
    FitCut(ScalarMarker(j, budget > CONTAINER_OVERHEAD, hash), budget)
  }

  function CutContainer(j: Json, budget: int, hash: Hash): Json
    requires j.Obj?
  {
    FitCut(ContainerMarker(j, hash), budget)
  }

  /** Dropping the details of a marker leaves its base. */
  lemma Slims(base: Fields, details: Fields)
    requires base.Keys <= BASE && details.Keys <= DETAILS
    ensures (base + details) - DETAILS == base
  {
    BaseIsKept();
  }

  /** A value too large for its budget is replaced by something that fits, unless the
      budget is below the bare cut. */
  ghost predicate Bounded(v: Json, out: Json, budget: int, hash: Hash) {
    && Faithful(v, out, hash)
    && (Size(out) <= budget <==> 19 <= budget)
    && (out == BARE ==> budget < Size(Cut(Obj(BaseOf(v, hash)))))
  }

  /** The least a cut can say of a value and still name its type. */
  function BaseOf(v: Json, hash: Hash): Fields {
    match v
    case Str(s) => StringBase(s, hash)
    case Arr(_) => ArrayMarker(v, hash)
    case Obj(_) => ContainerMarker(v, hash)
    case _ => ScalarBase(v, hash)
  }

  /** The bare cut is chosen only when the typed one does not fit. */
  lemma BareIsLast(full: Json, slim: Json, bare: Json, budget: int)
    requires full != bare && slim != bare && FirstThatFits(full, slim, bare, budget) == bare
    ensures budget < Size(slim)
  {
  }

  lemma TypedIsNotBare(marker: Fields)
    ensures Cut(Obj(marker)) != BARE
  {
    assert Cut(Obj(marker)).fields[CUT_KEY] == Obj(marker);
    assert BARE.fields[CUT_KEY] == Bool(true);
  }

  lemma CutIsBounded(v: Json, base: Fields, details: Fields, budget: int, hash: Hash)
    requires "type" in base && base.Keys <= BASE && details.Keys <= DETAILS
    requires base == BaseOf(v, hash)
    requires Faithful(v, Cut(Obj(base)), hash) && Faithful(v, Cut(Obj(base + details)), hash)
    ensures Bounded(v, FitCut(base + details, budget), budget, hash)
  {
    FitCutFits(base + details, budget);
    Slims(base, details);
    TypedIsNotBare(base);
    TypedIsNotBare(base + details);
    if FitCut(base + details, budget) == BARE {
      BareIsLast(Cut(Obj(base + details)), Cut(Obj(base)), BARE, budget);
    }
  }

  lemma StringIsBounded(s: string, budget: int, hash: Hash)
    ensures Bounded(Str(s), SummarizeString(s, budget, hash), budget, hash)
  {
    var base := StringBase(s, hash);
    var more: Fields := if budget > CONTAINER_OVERHEAD then StringSamples(s) else map[];
    assert StringMarker(s, budget > CONTAINER_OVERHEAD, hash) == base + more;
    CutIsBounded(Str(s), base, more, budget, hash);
  }

  lemma ScalarIsBounded(j: Json, budget: int, hash: Hash)
    requires j.Null? || j.Bool? || j.Num?
    ensures Bounded(j, CutScalar(j, budget, hash), budget, hash)
  {
    var base := ScalarBase(j, hash);
    var more: Fields := if budget > CONTAINER_OVERHEAD then ScalarSamples(j) else map[];
    assert ScalarMarker(j, budget > CONTAINER_OVERHEAD, hash) == base + more;
    CutIsBounded(j, base, more, budget, hash);
  }

  lemma CutsDiffer(base: Fields, details: Fields)
    requires "head" in details && base.Keys <= BASE
    ensures Cut(Obj(base + details)) != Cut(Obj(base)) && Cut(Obj(base + details)) != BARE
  {
    TypedIsNotBare(base + details);
    assert "head" in (base + details).Keys && "head" !in base.Keys;
    assert Cut(Obj(base + details)).fields[CUT_KEY] == Obj(base + details);
    assert Cut(Obj(base)).fields[CUT_KEY] == Obj(base);
  }

  lemma DetailsShownIff(base: Fields, details: Fields, budget: int)
    requires base.Keys <= BASE && details.Keys <= DETAILS && "head" in details
    ensures FitCut(base + details, budget) == Cut(Obj(base + details)) <==> Size(Cut(Obj(base + details))) <= budget
    ensures FitCut(base, budget) != Cut(Obj(base + details))
  {
    CutsDiffer(base, details);
    Slims(base, details);
    assert base + map[] == base;
    Slims(base, map[]);
  }

  /** A string is sampled at both ends if and only if the budget is above 512 bytes and the
      samples fit. */
  lemma StringSampledIff(s: string, budget: int, hash: Hash)
    ensures var sampled := Cut(Obj(StringMarker(s, true, hash)));
            SummarizeString(s, budget, hash) == sampled <==> 512 < budget && Size(sampled) <= budget
  {
    DetailsShownIff(StringBase(s, hash), StringSamples(s), budget);
  }

  /** And so is a scalar. */
  lemma ScalarSampledIff(j: Json, budget: int, hash: Hash)
    requires j.Null? || j.Bool? || j.Num?
    ensures var sampled := Cut(Obj(ScalarMarker(j, true, hash)));
            CutScalar(j, budget, hash) == sampled <==> 512 < budget && Size(sampled) <= budget
  {
    DetailsShownIff(ScalarBase(j, hash), ScalarSamples(j), budget);
  }

  lemma ContainerIsBounded(j: Json, budget: int, hash: Hash)
    requires j.Obj?
    ensures Bounded(j, CutContainer(j, budget, hash), budget, hash)
  {
    var base := ContainerMarker(j, hash);
    assert base + map[] == base;
    CutIsBounded(j, base, map[], budget, hash);
  }

  lemma ArrayIsBounded(j: Json, budget: int, hash: Hash)
    requires j.Arr?
    ensures Bounded(j, FitCut(ArrayMarker(j, hash), budget), budget, hash)
  {
    var base := ArrayMarker(j, hash);
    assert base + map[] == base;
    CutIsBounded(j, base, map[], budget, hash);
  }

  lemma DetailIsBounded(j: Json, head: seq<Json>, tail: seq<Json>, budget: int, hash: Hash)
    requires j.Arr? && |head| + |tail| <= |j.items|
    requires ArrayShown(j, head, tail, Cut(Obj(ArrayDetail(j, head, tail, hash))), hash)
    ensures Bounded(j, FitCut(ArrayDetail(j, head, tail, hash), budget), budget, hash)
  {
    CutIsBounded(j, ArrayMarker(j, hash), ArraySamples(j, head, tail), budget, hash);
  }
}
