/** A faithful observation of a decoded value encodes to as many bytes as `Size` says. */
module EncodedBudget {
  import opened Json
  import opened JsonSize
  import opened BoundedJson
  import opened JsonReader
  import opened JsonEncoding
  import opened Observation

  lemma CountDecodes(n: nat)
    ensures Decoded(Count(n))
  {
    DecimalReads(n);
  }

  predicate Flat(m: Fields) { forall k :: k in m ==> Decoded(m[k]) }

  lemma StringMarkerIsFlat(s: string, samples: bool, hash: Hash)
    ensures Flat(StringMarker(s, samples, hash))
  {
    CountDecodes(Bytes(s));
    CountDecodes(Max(0, Bytes(s) - Bytes(Head(s, SAMPLE_BYTES)) - Bytes(Tail(s, SAMPLE_BYTES))));
    assert Flat(StringBase(s, hash)) && Flat(StringSamples(s));
  }

  lemma ScalarMarkerIsFlat(v: Json, samples: bool, hash: Hash)
    ensures Flat(ScalarMarker(v, samples, hash))
  {
    CountDecodes(Size(v));
    assert Flat(ScalarBase(v, hash)) && Flat(ScalarSamples(v));
  }

  lemma ArrayMarkerIsFlat(v: Json, hash: Hash)
    requires v.Arr?
    ensures Flat(ArrayMarker(v, hash))
  {
    CountDecodes(Size(v));
    CountDecodes(|v.items|);
  }

  lemma ContainerMarkerIsFlat(v: Json, hash: Hash)
    requires v.Obj?
    ensures Flat(ContainerMarker(v, hash))
  {
    CountDecodes(Size(v));
    CountDecodes(|v.fields|);
  }

  lemma ObjectMarkerDecodes(v: Json, omitted: nat, hash: Hash)
    requires v.Obj?
    ensures Decoded(ObjectMarker(v, omitted, hash))
  {
    CountDecodes(Size(v));
    CountDecodes(|v.fields|);
    CountDecodes(omitted);
    assert Flat(ObjectBase(v, hash));
  }

  lemma CutDecodes(m: Fields)
    requires Flat(m)
    ensures Decoded(Cut(Obj(m)))
  {
    assert Decoded(Obj(m));
  }

  lemma PlainCutDecodes(v: Json, out: Json, hash: Hash)
    requires PlainCut(v, out, hash)
    ensures Decoded(out)
  {
    match v
    case Str(s) =>
      StringMarkerIsFlat(s, true, hash);
      StringMarkerIsFlat(s, false, hash);
      CutDecodes(StringMarker(s, true, hash));
      CutDecodes(StringMarker(s, false, hash));
    case Arr(_) =>
      ArrayMarkerIsFlat(v, hash);
      CutDecodes(ArrayMarker(v, hash));
    case Obj(_) =>
      ContainerMarkerIsFlat(v, hash);
      CutDecodes(ContainerMarker(v, hash));
    case _ =>
      ScalarMarkerIsFlat(v, true, hash);
      ScalarMarkerIsFlat(v, false, hash);
      CutDecodes(ScalarMarker(v, true, hash));
      CutDecodes(ScalarMarker(v, false, hash));
  }

  lemma MirrorsDecode(v: Json, from: nat, shown: seq<Json>, hash: Hash)
    requires v.Arr? && Decoded(v) && Mirrors(v, from, shown, hash)
    ensures Decoded(Arr(shown))
    decreases v, 0
  {
    forall i | 0 <= i < |shown|
      ensures Decoded(shown[i])
    {
      MirrorsAt(v, from, shown, hash, i, from + i);
      FaithfulDecodes(v.items[from + i], shown[i], hash);
    }
  }

  lemma SamplesAreFlat(v: Json, head: seq<Json>, tail: seq<Json>)
    requires v.Arr? && |head| + |tail| <= |v.items| && Decoded(Arr(head)) && Decoded(Arr(tail))
    ensures Flat(ArraySamples(v, head, tail))
  {
    CountDecodes(|v.items| - |head| - |tail|);
  }

  lemma ArrayShownDecodes(v: Json, head: seq<Json>, tail: seq<Json>, out: Json, hash: Hash)
    requires v.Arr? && Decoded(v) && ArrayShown(v, head, tail, out, hash)
    ensures Decoded(out)
    decreases v, 1
  {
    MirrorsDecode(v, 0, head, hash);
    MirrorsDecode(v, |v.items| - |tail|, tail, hash);
    ArrayMarkerIsFlat(v, hash);
    SamplesAreFlat(v, head, tail);
    CutDecodes(ArrayDetail(v, head, tail, hash));
  }

  lemma ObjectShownDecodes(v: Json, kept: Fields, out: Json, hash: Hash)
    requires v.Obj? && Decoded(v) && ObjectShown(v, kept, out, hash)
    ensures Decoded(out)
    decreases v, 1
  {
    forall k | k in kept
      ensures Decoded(kept[k])
    {
      FaithfulDecodes(v.fields[k], kept[k], hash);
    }
    ObjectMarkerDecodes(v, |v.fields| - |kept|, hash);
  }

  lemma FaithfulDecodes(v: Json, out: Json, hash: Hash)
    requires Decoded(v) && Faithful(v, out, hash)
    ensures Decoded(out)
    decreases v, 2
  {
    if out == v || out == BARE {
    } else if PlainCut(v, out, hash) {
      PlainCutDecodes(v, out, hash);
    } else if v.Arr? {
      var head, tail :| ArrayShown(v, head, tail, out, hash);
      ArrayShownDecodes(v, head, tail, out, hash);
    } else {
      var kept: Fields :| ObjectShown(v, kept, out, hash);
      ObjectShownDecodes(v, kept, out, hash);
    }
  }

  /** What is shown of a decoded value encodes to exactly the bytes counted, and reads back
      as what is shown. */
  lemma ShownBytes(v: Json, out: Json, hash: Hash)
    requires Decoded(v) && Faithful(v, out, hash)
    ensures Bytes(Encoded(out)) == Size(out)
    ensures ReadText(Encoded(out)).Some? && Means(ReadText(Encoded(out)).value, out, SameLexeme)
  {
    FaithfulDecodes(v, out, hash);
    SizeCountsTheEncoding(out);
  }
}
