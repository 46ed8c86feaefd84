/** What a bounded observation tells, field by field, in terms of the original alone: sizes,
    counts and digests are the original's, samples are true prefixes and suffixes, and what
    is shown and what is left out add up. */
module Observation {
  import opened Json
  import opened JsonSize
  import opened BoundedJson

  // ----------------------------------------------------------------- numbers

  /** Reading a decimal number. */
  function DecimalValue(t: string): nat {
    if t == [] then 0
    else
      var c := t[|t| - 1];
      DecimalValue(t[..|t| - 1]) * 10 + if '0' <= c <= '9' then c as int - '0' as int else 0
  }

  lemma {:induction false} DecimalReads(n: nat)
    ensures DecimalValue(Decimal(n)) == n && Decimal(n) != [] && forall i :: 0 <= i < |Decimal(n)| ==> '0' <= Decimal(n)[i] <= '9'
  {
    var t := Decimal(n);
    if n < 10 {
      assert t[..0] == [];
    } else {
      DecimalReads(n / 10);
      assert t[..|t| - 1] == Decimal(n / 10);
    }
  }

  predicate Says(m: Fields, key: string, n: nat) {
    key in m && m[key].Num? && DecimalValue(m[key].lexeme) == n
  }

  predicate Has(m: Fields, key: string, text: string) { key in m && m[key] == Str(text) }

  lemma CountSays(m: Fields, key: string, n: nat)
    requires key in m && m[key] == Count(n)
    ensures Says(m, key, n)
  {
    DecimalReads(n);
  }

  // ----------------------------------------------------------------- what is told

  predicate IsBare(out: Json) { out == Obj(map["$atoll_cut" := Bool(true)]) }

  predicate IsCut(out: Json) { out.Obj? && out.fields.Keys == {"$atoll_cut"} && out.fields["$atoll_cut"].Obj? }

  function Marker(out: Json): Fields
    requires IsCut(out)
  {
    out.fields["$atoll_cut"].fields
  }

  predicate IsSuffix(t: string, s: string) { |t| <= |s| && s[|s| - |t|..] == t }

  /** True samples of a text. */
  predicate TellsSamples(m: Fields, s: string) {
    && "head" in m && m["head"].Str? && m["head"].s <= s
    && "tail" in m && m["tail"].Str? && IsSuffix(m["tail"].s, s)
  }

  predicate TellsString(s: string, m: Fields, hash: Hash) {
    && Has(m, "type", "string") && Says(m, "original_bytes", Bytes(s)) && Has(m, "sha256", hash.text(s))
    && ("head" in m ==>
          TellsSamples(m, s) && Says(m, "omitted_bytes", Max(0, Bytes(s) - Bytes(m["head"].s) - Bytes(m["tail"].s))))
  }

  predicate TellsScalar(v: Json, m: Fields, hash: Hash) {
    && Has(m, "type", "scalar") && Says(m, "original_bytes", Size(v)) && Has(m, "sha256", hash.value(v))
    && ("head" in m ==> TellsSamples(m, ScalarText(v)))
  }

  predicate TellsContainer(v: Json, m: Fields, hash: Hash)
    requires v.Obj?
  {
    && Has(m, "type", "object") && Says(m, "original_bytes", Size(v)) && Says(m, "original_keys", |v.fields|)
    && Has(m, "sha256", hash.value(v)) && Has(m, "reason", "projection_budget_exhausted")
  }

  predicate TellsArray(v: Json, m: Fields, hash: Hash)
    requires v.Arr?
  {
    && Has(m, "type", "array") && Says(m, "original_bytes", Size(v)) && Says(m, "original_items", |v.items|)
    && Has(m, "sha256", hash.value(v))
  }

  /** Head and tail are observations of the first and the last items, and the others are
      counted. */
  ghost predicate TellsItems(v: Json, m: Fields, hash: Hash)
    requires v.Arr?
    decreases v, 1
  {
    "head" in m ==>
      && m["head"].Arr? && "tail" in m && m["tail"].Arr?
      && var head, tail := m["head"].items, m["tail"].items;
         && |head| + |tail| <= |v.items| && Says(m, "omitted_items", |v.items| - |head| - |tail|)
         && (forall i :: 0 <= i < |head| ==> Observes(v.items[i], head[i], hash))
         && (forall i, k | 0 <= i < |tail| && k == |v.items| - |tail| + i :: Observes(v.items[k], tail[i], hash))
  }

  /** A shown object: one field more than the fields kept, and its counts add up. */
  ghost predicate TellsFields(v: Json, out: Json, key: string, hash: Hash)
    requires v.Obj?
    decreases v, 1
  {
    && out.Obj? && key in out.fields && key !in v.fields && "$atoll_cut" <= key
    && (forall k :: k in out.fields && k != key ==> k in v.fields && Observes(v.fields[k], out.fields[k], hash))
    && TellsCounts(v, out, key, hash)
  }

  predicate TellsCounts(v: Json, out: Json, key: string, hash: Hash)
    requires v.Obj? && out.Obj? && key in out.fields
  {
    && out.fields[key].Obj? && |out.fields| - 1 <= |v.fields|
    && var m := out.fields[key].fields;
       && Has(m, "type", "object") && Says(m, "original_bytes", Size(v)) && Has(m, "sha256", hash.value(v))
       && Says(m, "original_keys", |v.fields|) && Says(m, "omitted_keys", |v.fields| - (|out.fields| - 1))
  }

  ghost predicate Observes(v: Json, out: Json, hash: Hash)
    decreases v, 2
  {
    || out == v || IsBare(out)
    || (IsCut(out) && TellsCut(v, Marker(out), hash))
    || (v.Obj? && exists key :: TellsFields(v, out, key, hash))
  }

  ghost predicate TellsCut(v: Json, m: Fields, hash: Hash)
    decreases v, 2, 0
  {
    match v
    case Str(s) => TellsString(s, m, hash)
    case Arr(_) => TellsArray(v, m, hash) && TellsItems(v, m, hash)
    case Obj(_) => TellsContainer(v, m, hash)
    case _ => TellsScalar(v, m, hash)
  }

  // ------------------------------------------------------- the markers are true

  lemma HeadIsPrefix(s: string, budget: nat)
    ensures Head(s, budget) <= s && IsSuffix(Tail(s, budget), s)
  {
  }

  lemma BaseTells(s: string, hash: Hash)
    ensures TellsString(s, StringBase(s, hash), hash)
  {
    var m := StringBase(s, hash);
    CountSays(m, "original_bytes", Bytes(s));
    assert "head" !in m;
  }

  /** The keys of a marker's base are none of the details'. */
  lemma KeptKeys(base: Fields, m: Fields)
    requires m.Keys <= base.Keys + DETAILS && forall k :: k in base && k !in DETAILS ==> k in m && m[k] == base[k]
    ensures forall k :: k in BASE && k in base ==> k in m && m[k] == base[k]
  {
    BaseIsKept();
  }

  /** What a marker said it still says with details added. */
  lemma StringKeepsTelling(s: string, base: Fields, m: Fields, hash: Hash)
    requires TellsString(s, base, hash) && forall k :: k in BASE && k in base ==> k in m && m[k] == base[k]
    ensures Has(m, "type", "string") && Says(m, "original_bytes", Bytes(s)) && Has(m, "sha256", hash.text(s))
  {
    assert "type" in BASE && "original_bytes" in BASE && "sha256" in BASE;
  }

  function SampleFields(head: string, tail: string, n: nat): Fields {
    map["head" := Str(head), "tail" := Str(tail), "omitted_bytes" := Count(n)]
  }

  lemma SamplesTell(base: Fields, s: string, head: string, tail: string, n: nat)
    requires head <= s && IsSuffix(tail, s)
    ensures var m := base + SampleFields(head, tail, n);
            TellsSamples(m, s) && m["head"].s == head && m["tail"].s == tail && Says(m, "omitted_bytes", n)
  {
    var m := base + SampleFields(head, tail, n);
    assert m["head"] == Str(head) && m["tail"] == Str(tail);
    CountSays(m, "omitted_bytes", n);
  }

  lemma StringDetailsTell(s: string, base: Fields, head: string, tail: string, n: nat, hash: Hash)
    requires TellsString(s, base, hash) && head <= s && IsSuffix(tail, s) && n == Max(0, Bytes(s) - Bytes(head) - Bytes(tail))
    ensures TellsString(s, base + SampleFields(head, tail, n), hash)
  {
    var m := base + SampleFields(head, tail, n);
    KeptKeys(base, m);
    StringKeepsTelling(s, base, m, hash);
    SamplesTell(base, s, head, tail, n);
  }

  lemma StringTells(s: string, samples: bool, hash: Hash)
    ensures TellsString(s, StringMarker(s, samples, hash), hash)
  {
    BaseTells(s, hash);
    if samples {
      var base, head, tail := StringBase(s, hash), Head(s, SAMPLE_BYTES), Tail(s, SAMPLE_BYTES);
      var n: nat := Max(0, Bytes(s) - Bytes(head) - Bytes(tail));
      HeadIsPrefix(s, SAMPLE_BYTES);
      StringDetailsTell(s, base, head, tail, n, hash);
      assert StringMarker(s, samples, hash) == base + SampleFields(head, tail, n);
    }
  }

  lemma ScalarBaseTells(v: Json, hash: Hash)
    ensures TellsScalar(v, ScalarBase(v, hash), hash) && "head" !in ScalarBase(v, hash)
  {
    CountSays(ScalarBase(v, hash), "original_bytes", Size(v));
  }

  lemma ScalarDetailsTell(v: Json, base: Fields, head: string, tail: string, hash: Hash)
    requires TellsScalar(v, base, hash) && "head" !in base && head <= ScalarText(v) && IsSuffix(tail, ScalarText(v))
    ensures TellsScalar(v, base + map["head" := Str(head), "tail" := Str(tail)], hash)
  {
    var m := base + map["head" := Str(head), "tail" := Str(tail)];
    KeptKeys(base, m);
    assert m["head"] == Str(head) && m["tail"] == Str(tail);
  }

  lemma ScalarTells(v: Json, samples: bool, hash: Hash)
    ensures TellsScalar(v, ScalarMarker(v, samples, hash), hash)
  {
    ScalarBaseTells(v, hash);
    HeadIsPrefix(ScalarText(v), SAMPLE_BYTES);
    if samples {
      ScalarDetailsTell(v, ScalarBase(v, hash), Head(ScalarText(v), SAMPLE_BYTES), Tail(ScalarText(v), SAMPLE_BYTES), hash);
    }
  }

  lemma ContainerTells(v: Json, hash: Hash)
    requires v.Obj?
    ensures TellsContainer(v, ContainerMarker(v, hash), hash)
  {
    var m := ContainerMarker(v, hash);
    CountSays(m, "original_bytes", Size(v));
    CountSays(m, "original_keys", |v.fields|);
  }

  lemma ArrayTells(v: Json, hash: Hash)
    requires v.Arr?
    ensures TellsArray(v, ArrayMarker(v, hash), hash) && "head" !in ArrayMarker(v, hash)
  {
    var m := ArrayMarker(v, hash);
    CountSays(m, "original_bytes", Size(v));
    CountSays(m, "original_items", |v.items|);
  }

  lemma ArrayDetailsTell(v: Json, base: Fields, head: seq<Json>, tail: seq<Json>, hash: Hash)
    requires v.Arr? && TellsArray(v, base, hash) && "head" !in base && |head| + |tail| <= |v.items|
    requires forall i :: 0 <= i < |head| ==> Observes(v.items[i], head[i], hash)
    requires forall i, k | 0 <= i < |tail| && k == |v.items| - |tail| + i :: Observes(v.items[k], tail[i], hash)
    ensures var m := base + ArraySamples(v, head, tail);
            TellsArray(v, m, hash) && TellsItems(v, m, hash)
  {
    var m := base + ArraySamples(v, head, tail);
    KeptKeys(base, m);
    assert m["head"] == Arr(head) && m["tail"] == Arr(tail);
    CountSays(m, "omitted_items", |v.items| - |head| - |tail|);
  }

  lemma ObjectTells(v: Json, omitted: nat, hash: Hash)
    requires v.Obj?
    ensures var m := ObjectMarker(v, omitted, hash).fields;
            && Has(m, "type", "object") && Says(m, "original_bytes", Size(v)) && Has(m, "sha256", hash.value(v))
            && Says(m, "original_keys", |v.fields|) && Says(m, "omitted_keys", omitted)
  {
    var m := ObjectMarker(v, omitted, hash).fields;
    CountSays(m, "original_bytes", Size(v));
    CountSays(m, "original_keys", |v.fields|);
    CountSays(m, "omitted_keys", omitted);
  }

  // ------------------------------------------------------- every faithful value

  lemma CutTells(v: Json, m: Fields, hash: Hash)
    requires TellsCut(v, m, hash)
    ensures Observes(v, Cut(Obj(m)), hash)
  {
    assert Cut(Obj(m)).fields.Keys == {"$atoll_cut"};
  }

  lemma PlainCutTells(v: Json, out: Json, hash: Hash)
    requires PlainCut(v, out, hash)
    ensures Observes(v, out, hash)
  {
    match v
    case Str(s) =>
      StringTells(s, true, hash);
      StringTells(s, false, hash);
      if out == Cut(Obj(StringMarker(s, true, hash))) { CutTells(v, StringMarker(s, true, hash), hash); }
      else { CutTells(v, StringMarker(s, false, hash), hash); }
    case Arr(_) =>
      ArrayTells(v, hash);
      CutTells(v, ArrayMarker(v, hash), hash);
    case Obj(_) =>
      ContainerTells(v, hash);
      CutTells(v, ContainerMarker(v, hash), hash);
    case _ =>
      ScalarTells(v, true, hash);
      ScalarTells(v, false, hash);
      if out == Cut(Obj(ScalarMarker(v, true, hash))) { CutTells(v, ScalarMarker(v, true, hash), hash); }
      else { CutTells(v, ScalarMarker(v, false, hash), hash); }
  }

  lemma MirrorsLast(v: Json, from: nat, shown: seq<Json>, hash: Hash, last: nat)
    requires v.Arr? && Mirrors(v, from, shown, hash) && |shown| == last + 1
    ensures Mirrors(v, from, shown[..last], hash) && from + last < |v.items| && Faithful(v.items[from + last], shown[last], hash)
  {
  }

  lemma {:induction false} MirrorsAt(v: Json, from: nat, shown: seq<Json>, hash: Hash, i: nat, k: nat)
    requires v.Arr? && Mirrors(v, from, shown, hash) && i < |shown| && k == from + i
    ensures k < |v.items| && Faithful(v.items[k], shown[i], hash)
    decreases |shown|
  {
    var last := |shown| - 1;
    MirrorsLast(v, from, shown, hash, last);
    if i < last {
      var front := shown[..last];
      assert front[i] == shown[i];
      MirrorsAt(v, from, front, hash, i, k);
    }
  }

  lemma MirrorsObserve(v: Json, from: nat, shown: seq<Json>, hash: Hash, i: nat, k: nat)
    requires v.Arr? && Mirrors(v, from, shown, hash) && i < |shown| && k == from + i
    ensures k < |v.items| && Observes(v.items[k], shown[i], hash)
    decreases v, 0
  {
    MirrorsAt(v, from, shown, hash, i, k);
    FaithfulObserves(v.items[k], shown[i], hash);
  }

  lemma ArrayShownTells(v: Json, head: seq<Json>, tail: seq<Json>, out: Json, hash: Hash)
    requires v.Arr? && ArrayShown(v, head, tail, out, hash)
    ensures Observes(v, out, hash)
    decreases v, 1
  {
    forall i | 0 <= i < |head|
      ensures Observes(v.items[i], head[i], hash)
    {
      MirrorsObserve(v, 0, head, hash, i, i);
    }
    forall i, k | 0 <= i < |tail| && k == |v.items| - |tail| + i
      ensures Observes(v.items[k], tail[i], hash)
    {
      MirrorsObserve(v, |v.items| - |tail|, tail, hash, i, k);
    }
    ArrayTells(v, hash);
    ArrayDetailsTell(v, ArrayMarker(v, hash), head, tail, hash);
    CutTells(v, ArrayDetail(v, head, tail, hash), hash);
  }

  lemma ShownCounts(v: Json, kept: Fields, hash: Hash)
    requires v.Obj? && kept.Keys <= v.fields.Keys && |kept| <= |v.fields|
    ensures TellsCounts(v, Shown(v, kept, |v.fields| - |kept|, hash), MarkerKey(v.fields, CUT_KEY), hash)
  {
    var key, omitted := MarkerKey(v.fields, CUT_KEY), |v.fields| - |kept|;
    var out := Shown(v, kept, omitted, hash);
    OneMoreField(kept, key, ObjectMarker(v, omitted, hash));
    ObjectTells(v, omitted, hash);
  }

  lemma OneMoreField(kept: Fields, key: string, m: Json)
    requires key !in kept
    ensures |kept[key := m]| == |kept| + 1
  {
    assert kept[key := m].Keys == kept.Keys + {key};
    assert |kept[key := m]| == |kept[key := m].Keys| && |kept| == |kept.Keys|;
  }

  lemma ObjectShownTells(v: Json, kept: Fields, out: Json, hash: Hash)
    requires v.Obj? && ObjectShown(v, kept, out, hash)
    ensures TellsFields(v, out, MarkerKey(v.fields, CUT_KEY), hash)
    decreases v, 1
  {
    var key := MarkerKey(v.fields, CUT_KEY);
    forall k | k in kept
      ensures k in v.fields && Observes(v.fields[k], kept[k], hash)
    {
      FaithfulObserves(v.fields[k], kept[k], hash);
    }
    ShownCounts(v, kept, hash);
  }

  /** Whatever is faithful is an observation. */
  lemma FaithfulObserves(v: Json, out: Json, hash: Hash)
    requires Faithful(v, out, hash)
    ensures Observes(v, out, hash)
    decreases v, 2
  {
    if out == v || out == BARE {
    } else if PlainCut(v, out, hash) {
      PlainCutTells(v, out, hash);
    } else if v.Arr? {
      var head, tail :| ArrayShown(v, head, tail, out, hash);
      ArrayShownTells(v, head, tail, out, hash);
    } else {
      var kept: Fields :| ObjectShown(v, kept, out, hash);
      ObjectShownTells(v, kept, out, hash);
    }
  }
}
