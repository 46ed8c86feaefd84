/** What the marker of a shown object costs, to the byte. */
module MarkerCost {
  import opened Json
  import opened JsonSize
  import opened BoundedJson
  import opened ObjectFit

  predicate Plain(s: string) { forall i :: 0 <= i < |s| ==> Cost(s[i]) == 1 }

  /** A SHA-256 digest in hexadecimal: 64 characters, none of which is escaped. */
  predicate IsDigest(s: string) { |s| == 64 && Plain(s) }

  ghost predicate Digests(hash: Hash) {
    forall j: Json :: IsDigest(hash.value(j))
  }

  lemma PlainSize(s: string)
    requires Plain(s)
    ensures StringSize(s) == |s| + 2
  {
    PlainCosts(s);
  }

  lemma ObjectWord()
    ensures StringSize("object") == 8
  {
    var word := "object";
    assert forall i :: 0 <= i < |word| ==> Cost(word[i]) == 1;
    PlainCosts(word);
  }

  lemma BytesWord()
    ensures StringSize("original_bytes") == 16
  {
    var word := "original_bytes";
    assert forall i :: 0 <= i < |word| ==> Cost(word[i]) == 1;
    PlainCosts(word);
  }

  lemma KeysWord()
    ensures StringSize("original_keys") == 15
  {
    var word := "original_keys";
    assert forall i :: 0 <= i < |word| ==> Cost(word[i]) == 1;
    PlainCosts(word);
  }

  lemma OmittedWord()
    ensures StringSize("omitted_keys") == 14
  {
    var word := "omitted_keys";
    assert forall i :: 0 <= i < |word| ==> Cost(word[i]) == 1;
    PlainCosts(word);
  }

  lemma DigestWord()
    ensures StringSize("sha256") == 8
  {
    var word := "sha256";
    assert forall i :: 0 <= i < |word| ==> Cost(word[i]) == 1;
    PlainCosts(word);
  }

  lemma TwoFields(a: string, p: Json, b: string, q: Json)
    requires a != b
    ensures Weight(map[a := p, b := q]) == EntryCost(a, p) + EntryCost(b, q)
  {
    var none: Fields := map[];
    assert Weight(none) == 0;
    WeightAdds(none, a, p);
    WeightAdds(none[a := p], b, q);
    assert none[a := p][b := q] == map[a := p, b := q];
  }

  lemma ThreeFields(a: string, p: Json, b: string, q: Json, c: string, r: Json)
    requires a != b && a != c && b != c
    ensures Weight(map[a := p, b := q, c := r]) == EntryCost(a, p) + EntryCost(b, q) + EntryCost(c, r)
  {
    var two: Fields := map[a := p, b := q];
    TwoFields(a, p, b, q);
    WeightAdds(two, c, r);
    assert two[c := r] == map[a := p, b := q, c := r];
  }

  lemma FourFields(a: string, p: Json, b: string, q: Json, c: string, r: Json, d: string, s: Json)
    requires a != b && a != c && a != d && b != c && b != d && c != d
    ensures Weight(map[a := p, b := q, c := r, d := s]) == EntryCost(a, p) + EntryCost(b, q) + EntryCost(c, r) + EntryCost(d, s)
  {
    var three: Fields := map[a := p, b := q, c := r];
    ThreeFields(a, p, b, q, c, r);
    WeightAdds(three, d, s);
    assert three[d := s] == map[a := p, b := q, c := r, d := s];
  }

  lemma BaseWeight(j: Json, hash: Hash)
    requires j.Obj? && IsDigest(hash.value(j))
    ensures Weight(ObjectBase(j, hash)) == 127 + |Decimal(Size(j))| + |Decimal(|j.fields|)|
  {
    TypeKeySize();
    ObjectWord();
    BytesWord();
    KeysWord();
    DigestWord();
    PlainSize(hash.value(j));
    FourFields("type", Str("object"), "original_bytes", Count(Size(j)), "original_keys", Count(|j.fields|),
               "sha256", Str(hash.value(j)));
  }

  /** The marker's entry: 146 bytes, its key and the digits of three counts. */
  lemma MarkerEntry(j: Json, key: string, omitted: nat, hash: Hash)
    requires j.Obj? && IsDigest(hash.value(j))
    ensures EntryCost(key, ObjectMarker(j, omitted, hash)) ==
            StringSize(key) + 146 + |Decimal(Size(j))| + |Decimal(|j.fields|)| + |Decimal(omitted)|
  {
    MarkerSize(j, omitted, hash);
    BaseWeight(j, hash);
    OmittedWord();
  }

  lemma Digits(n: nat)
    ensures n < 10 ==> |Decimal(n)| == 1
    ensures 10 <= n < 100 ==> |Decimal(n)| == 2
    ensures 100 <= n < 1000 ==> |Decimal(n)| == 3
  {
    if 10 <= n { assert |Decimal(n)| == |Decimal(n / 10)| + 1; }
    if 100 <= n { assert |Decimal(n / 10)| == |Decimal(n / 10 / 10)| + 1; }
  }

  lemma SixDigits(n: nat)
    requires n < 1000000
    ensures |Decimal(n)| <= 6
  {
    if 10 <= n { assert |Decimal(n)| == |Decimal(n / 10)| + 1; }
    if 100 <= n { assert |Decimal(n / 10)| == |Decimal(n / 10 / 10)| + 1; }
    if 1000 <= n { assert |Decimal(n / 10 / 10)| == |Decimal(n / 10 / 10 / 10)| + 1; }
    Digits(n / 10 / 10 / 10);
  }
}
