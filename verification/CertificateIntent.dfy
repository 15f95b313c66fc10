/**
 * Do two models differ in certificate intent only (`certificateIntentOnly` in
 * src/control/plane.ts)?
 */
module CertificateIntent {
  import opened Wrappers
  import opened CanonicalJson

  datatype AcmeIntent = AcmeIntent(account: string, domains: seq<string>)

  datatype Certificate = Certificate(
    key: string, materialRef: Option<string>, chainDigest: Option<string>, keyDigest: Option<string>,
    acme: Option<AcmeIntent>)

  /** A model: its certificates, and everything else as one JSON object. */
  datatype Model = Model(rest: Json, certificates: seq<Certificate>)

  predicate IsModel(m: Model) { IsJson(m.rest) }

  // ------------------------------------------------------------------ the parts of the comparison

  function TextField(key: string, value: Option<string>): Field {
    Field(key, if value.Some? then Str(value.value) else Undefined)
  }

  /** A certificate as JSON, without its `acme` field. */
  function WithoutAcme(c: Certificate): Json {
    Obj([Field("key", Str(c.key)), TextField("materialRef", c.materialRef),
         TextField("chainDigest", c.chainDigest), TextField("keyDigest", c.keyDigest)])
  }

  function Bare(c: Certificate): Certificate { c.(acme := None) }

  /** `new Map(cs.map((c) => [c.key, c]))`: the last certificate of a key counts. */
  function ByKey(cs: seq<Certificate>): map<string, Certificate> {
    if cs == [] then map[] else ByKey(cs[..|cs| - 1])[cs[|cs| - 1].key := cs[|cs| - 1]]
  }

  function Find(cs: map<string, Certificate>, k: string): Option<Certificate> { if k in cs then Some(cs[k]) else None }

  predicate HasMaterial(c: Option<Certificate>) { c.Some? && c.value.materialRef.Some? }

  /** One turn of the loop over the keys: does this key allow the verdict? */
  predicate KeyAgrees(b: map<string, Certificate>, a: map<string, Certificate>, k: string) {
    var x, y := Find(b, k), Find(a, k);
    && HasMaterial(x) == HasMaterial(y)
    && (HasMaterial(x) && HasMaterial(y) ==> Canonical(WithoutAcme(x.value)) == Canonical(WithoutAcme(y.value)))
  }

  predicate IntentOnly(before: Model, after: Model) {
    var b, a := ByKey(before.certificates), ByKey(after.certificates);
    && Canonical(before.rest) == Canonical(after.rest)
    && forall k | k in b.Keys + a.Keys :: KeyAgrees(b, a, k)
  }

  // ------------------------------------------------------------------ what it should mean

  /** What reaches a generation: the certificates with material, without their intent, and the rest. */
  datatype Material = Material(rest: Json, certificates: map<string, Certificate>)

  function MaterialOf(m: Model): Material {
    var cs := ByKey(m.certificates);
    Material(Norm(m.rest), map k | k in cs && cs[k].materialRef.Some? :: Bare(cs[k]))
  }

  lemma {:induction false} KeysAreTheirOwn(cs: seq<Certificate>, k: string)
    requires k in ByKey(cs)
    ensures ByKey(cs)[k].key == k
    decreases |cs|
  {
    if k != cs[|cs| - 1].key { KeysAreTheirOwn(cs[..|cs| - 1], k); }
  }

  // ------------------------------------------------------------------ certificates compare field by field

  /** The fields of the normal form. */
  function Shown(c: Certificate): seq<Field> { NormFields(WithoutAcme(c).fields) }

  lemma ShownIs(c: Certificate, f: Field)
    ensures f in Shown(c) <==>
      || f == Field("key", Str(c.key))
      || (c.materialRef.Some? && f == Field("materialRef", Str(c.materialRef.value)))
      || (c.chainDigest.Some? && f == Field("chainDigest", Str(c.chainDigest.value)))
      || (c.keyDigest.Some? && f == Field("keyDigest", Str(c.keyDigest.value)))
  {
    var fs := WithoutAcme(c).fields;
    var k, m, d, e := fs[0], fs[1], fs[2], fs[3];
    assert fs[1..] == [m, d, e] && [m, d, e][1..] == [d, e] && [d, e][1..] == [e] && [e][1..] == [];
    assert NormFields([e]) == if e.value.Undefined? then [] else [e];
    assert NormFields([d, e]) == (if d.value.Undefined? then [] else [d]) + NormFields([e]);
    assert NormFields([m, d, e]) == (if m.value.Undefined? then [] else [m]) + NormFields([d, e]);
    assert NormFields(fs) == [k] + NormFields([m, d, e]);
  }

  lemma SameTextSameFields(x: Certificate, y: Certificate)
    requires Norm(WithoutAcme(x)) == Norm(WithoutAcme(y))
    ensures forall f :: f in Shown(x) <==> f in Shown(y)
  {
    SortKeepsFields(Shown(x));
    SortKeepsFields(Shown(y));
  }

  /** Two certificates have the same canonical text without `acme` exactly when nothing but `acme` differs. */
  lemma BareComparesExactly(x: Certificate, y: Certificate)
    ensures Canonical(WithoutAcme(x)) == Canonical(WithoutAcme(y)) <==> Bare(x) == Bare(y)
  {
    hide Canonical, Norm;
    CanonicalIsInjective(WithoutAcme(x), WithoutAcme(y));
    if Norm(WithoutAcme(x)) == Norm(WithoutAcme(y)) {
      SameTextSameFields(x, y);
      FieldsTell(x, y);
    }
    assert Bare(x) == Bare(y) ==> WithoutAcme(x) == WithoutAcme(y);
  }

  lemma FieldsTell(x: Certificate, y: Certificate)
    requires forall f :: f in Shown(x) <==> f in Shown(y)
    ensures Bare(x) == Bare(y)
  {
    hide Shown;
    OneField(x, y, "key", Str(x.key));
    if x.materialRef.Some? { OneField(x, y, "materialRef", Str(x.materialRef.value)); }
    if y.materialRef.Some? { OneField(x, y, "materialRef", Str(y.materialRef.value)); }
    if x.chainDigest.Some? { OneField(x, y, "chainDigest", Str(x.chainDigest.value)); }
    if y.chainDigest.Some? { OneField(x, y, "chainDigest", Str(y.chainDigest.value)); }
    if x.keyDigest.Some? { OneField(x, y, "keyDigest", Str(x.keyDigest.value)); }
    if y.keyDigest.Some? { OneField(x, y, "keyDigest", Str(y.keyDigest.value)); }
  }

  lemma OneField(x: Certificate, y: Certificate, key: string, v: Json)
    requires forall f :: f in Shown(x) <==> f in Shown(y)
    ensures Field(key, v) in Shown(x) <==> Field(key, v) in Shown(y)
    ensures key == "key" || key == "materialRef" || key == "chainDigest" || key == "keyDigest" ==>
      (Field(key, v) in Shown(x) <==>
         || (key == "key" && v == Str(x.key))
         || (key == "materialRef" && x.materialRef.Some? && v == Str(x.materialRef.value))
         || (key == "chainDigest" && x.chainDigest.Some? && v == Str(x.chainDigest.value))
         || (key == "keyDigest" && x.keyDigest.Some? && v == Str(x.keyDigest.value)))
    ensures key == "key" || key == "materialRef" || key == "chainDigest" || key == "keyDigest" ==>
      (Field(key, v) in Shown(y) <==>
         || (key == "key" && v == Str(y.key))
         || (key == "materialRef" && y.materialRef.Some? && v == Str(y.materialRef.value))
         || (key == "chainDigest" && y.chainDigest.Some? && v == Str(y.chainDigest.value))
         || (key == "keyDigest" && y.keyDigest.Some? && v == Str(y.keyDigest.value)))
  {
    hide Shown;
    ShownIs(x, Field(key, v));
    ShownIs(y, Field(key, v));
  }

  // ------------------------------------------------------------------ the theorem

  /**
   * The models differ in certificate intent only exactly when they become equal once
   * certificates without material and all `acme` fields are dropped.
   */
  lemma IntentOnlyIsSameMaterial(before: Model, after: Model)
    requires IsModel(before) && IsModel(after)
    ensures IntentOnly(before, after) <==> MaterialOf(before) == MaterialOf(after)
  {
    hide Canonical, Norm, ByKey, WithoutAcme;
    CanonicalIsInjective(before.rest, after.rest);
    var b, a := ByKey(before.certificates), ByKey(after.certificates);
    forall k ensures KeyAgrees(b, a, k) <==> KeySame(MaterialOf(before).certificates, MaterialOf(after).certificates, k) {
      if k in b && k in a { BareComparesExactly(b[k], a[k]); }
    }
    if MaterialOf(before).certificates == MaterialOf(after).certificates {
      forall k ensures KeySame(MaterialOf(before).certificates, MaterialOf(after).certificates, k) {}
    }
    if forall k | k in b.Keys + a.Keys :: KeyAgrees(b, a, k) {
      forall k ensures KeySame(MaterialOf(before).certificates, MaterialOf(after).certificates, k) {
        if k in b.Keys + a.Keys { assert KeyAgrees(b, a, k); }
      }
      AllSame(MaterialOf(before).certificates, MaterialOf(after).certificates);
    }
  }

  predicate KeySame(m: map<string, Certificate>, n: map<string, Certificate>, k: string) {
    (k in m <==> k in n) && (k in m && k in n ==> m[k] == n[k])
  }

  lemma AllSame(m: map<string, Certificate>, n: map<string, Certificate>)
    requires forall k :: KeySame(m, n, k)
    ensures m == n
  {
    forall k ensures k in m <==> k in n { assert KeySame(m, n, k); }
    forall k | k in m ensures m[k] == n[k] { assert KeySame(m, n, k); }
  }

  /** So it is an equivalence: a chain of such edits is one such edit, and undoing one is one. */
  lemma IntentOnlyIsEquivalence(x: Model, y: Model, z: Model)
    requires IsModel(x) && IsModel(y) && IsModel(z)
    ensures IntentOnly(x, x)
    ensures IntentOnly(x, y) ==> IntentOnly(y, x)
    ensures IntentOnly(x, y) && IntentOnly(y, z) ==> IntentOnly(x, z)
  {
    hide IntentOnly, MaterialOf;
    IntentOnlyIsSameMaterial(x, x);
    IntentOnlyIsSameMaterial(x, y);
    IntentOnlyIsSameMaterial(y, x);
    IntentOnlyIsSameMaterial(y, z);
    IntentOnlyIsSameMaterial(x, z);
  }

  // ------------------------------------------------------------------ as it runs

  /** The loop over the keys of both sides, leaving at the first one that disagrees. */
  method CertificateIntentOnly(before: Model, after: Model) returns (only: bool)
    ensures only <==> IntentOnly(before, after)
  {
    hide Canonical, KeyAgrees;
    if Canonical(before.rest) != Canonical(after.rest) { return false; }
    var b, a := ByKey(before.certificates), ByKey(after.certificates);
    var rest := b.Keys + a.Keys;
    while rest != {}
      invariant rest <= b.Keys + a.Keys
      invariant forall k | k in b.Keys + a.Keys && k !in rest :: KeyAgrees(b, a, k)
      decreases rest
    {
      var k :| k in rest;
      rest := rest - {k};
      if !KeyAgrees(b, a, k) { return false; }
    }
    return true;
  }
}
