/** Reading a JSON object that must have exactly the expected fields (packages/backup/src/canonical.ts:71-106):
    the copy is insensitive to field order and loses nothing. */
module JsonRecords {
  import opened Wrappers
  import opened CanonicalJson
  import opened CanonicalJsonProofs

  predicate HasField(fields: seq<Field>, key: string) { exists i :: 0 <= i < |fields| && fields[i].key == key }

  function Lookup(fields: seq<Field>, key: string): (v: Json)
    requires HasField(fields, key)
  {
    if fields[0].key == key then fields[0].value else Lookup(fields[1..], key)
  }

  /** `exactObject`: the values of the expected fields, in the expected order. */
  function ExactObject(v: Json, keys: seq<string>): Option<seq<Json>>
  {
    if v.JObj? && |v.fields| == |keys| && forall i :: 0 <= i < |keys| ==> HasField(v.fields, keys[i]) then
      Some(seq(|keys|, i requires 0 <= i < |keys| => Lookup(v.fields, keys[i])))
    else None
  }

  function Zip(keys: seq<string>, values: seq<Json>): (r: seq<Field>)
    requires |keys| == |values|
    ensures |r| == |keys|
  {
    seq(|keys|, i requires 0 <= i < |keys| => Field(keys[i], values[i]))
  }

  ghost predicate DistinctNames(keys: seq<string>) { forall i, j :: 0 <= i < j < |keys| ==> keys[i] != keys[j] }

  lemma {:induction false} LookupFinds(fields: seq<Field>, key: string)
    requires HasField(fields, key)
    ensures Field(key, Lookup(fields, key)) in fields
  {
    if fields[0].key == key {
      assert fields[0] == Field(key, Lookup(fields, key));
    } else {
      var i :| 0 <= i < |fields| && fields[i].key == key;
      assert fields[1..][i - 1].key == key;
      LookupFinds(fields[1..], key);
    }
  }

  lemma LookupIs(fields: seq<Field>, f: Field)
    requires DistinctKeys(fields) && f in fields
    ensures HasField(fields, f.key) && Lookup(fields, f.key) == f.value
  {
    var i :| 0 <= i < |fields| && fields[i] == f;
    LookupFinds(fields, f.key);
    SameKeySameField(fields, f, Field(f.key, Lookup(fields, f.key)));
  }

  lemma SameValueReflexive(v: Json)
    requires Proper(v)
    ensures SameValue(v, v)
  {
    PrintInjective(v, v);
  }

  lemma SameValueTransitive(u: Json, v: Json, w: Json)
    requires Proper(u) && Proper(v) && Proper(w) && SameValue(u, v) && SameValue(v, w)
    ensures SameValue(u, w)
  {
    hide Proper, SameValue;
    PrintInjective(u, v);
    PrintInjective(v, w);
    PrintInjective(u, w);
  }

  lemma ZipProper(keys: seq<string>, values: seq<Json>)
    requires |keys| == |values| && DistinctNames(keys) && forall i :: 0 <= i < |values| ==> Proper(values[i])
    ensures Proper(JObj(Zip(keys, values))) && DistinctKeys(Zip(keys, values))
  {
    forall f | f in Zip(keys, values) ensures Proper(f.value) {}
  }

  /** The two records agree field by field. */
  lemma ZipSame(keys: seq<string>, values: seq<Json>, others: seq<Json>)
    requires |keys| == |values| == |others| && forall i :: 0 <= i < |values| ==> SameValue(values[i], others[i])
    ensures SameValue(JObj(Zip(keys, values)), JObj(Zip(keys, others)))
  {
    forall f | f in Zip(keys, values) ensures exists g :: g in Zip(keys, others) && g.key == f.key && SameValue(f.value, g.value) {
      var i :| 0 <= i < |keys| && Zip(keys, values)[i] == f;
      assert Zip(keys, others)[i] in Zip(keys, others);
    }
  }

  lemma ValuesProper(v: Json, keys: seq<string>, values: seq<Json>)
    requires Proper(v) && ExactObject(v, keys) == Some(values)
    ensures |values| == |keys| && forall i :: 0 <= i < |values| ==> Proper(values[i])
  {
    forall i | 0 <= i < |values| ensures Proper(values[i]) { LookupFinds(v.fields, keys[i]); }
  }

  /** Nothing of the object is lost in the copy. */
  lemma ExactMeans(v: Json, keys: seq<string>, values: seq<Json>)
    requires Proper(v) && DistinctNames(keys) && ExactObject(v, keys) == Some(values)
    ensures |values| == |keys| && (forall i :: 0 <= i < |values| ==> Proper(values[i]))
    ensures SameValue(JObj(Zip(keys, values)), v)
  {
    ValuesProper(v, keys, values);
    var zipped := Zip(keys, values);
    forall f | f in zipped ensures exists g :: g in v.fields && g.key == f.key && SameValue(f.value, g.value) {
      var i :| 0 <= i < |keys| && zipped[i] == f;
      LookupFinds(v.fields, keys[i]);
      SameValueReflexive(values[i]);
      assert Field(keys[i], values[i]) in v.fields;
    }
  }

  /** An object that is the record up to field order is copied to the record's values. */
  lemma ExactSame(v: Json, keys: seq<string>, values: seq<Json>) returns (copied: seq<Json>)
    requires Proper(v) && DistinctNames(keys) && |keys| == |values| && (forall i :: 0 <= i < |values| ==> Proper(values[i]))
    requires SameValue(JObj(Zip(keys, values)), v)
    ensures ExactObject(v, keys) == Some(copied) && |copied| == |keys|
    ensures forall i :: 0 <= i < |keys| ==> Proper(copied[i]) && SameValue(values[i], copied[i])
  {
    var record := JObj(Zip(keys, values));
    assert v.JObj? && |v.fields| == |keys| && DistinctKeys(v.fields);
    forall i | 0 <= i < |keys| ensures HasField(v.fields, keys[i]) && SameValue(values[i], Lookup(v.fields, keys[i])) {
      FieldCopied(v, keys, values, i);
    }
    copied := seq(|keys|, i requires 0 <= i < |keys| => Lookup(v.fields, keys[i]));
    ValuesProper(v, keys, copied);
  }

  lemma FieldCopied(v: Json, keys: seq<string>, values: seq<Json>, i: nat)
    requires v.JObj? && DistinctKeys(v.fields) && |keys| == |values| && i < |keys| && SameValue(JObj(Zip(keys, values)), v)
    ensures HasField(v.fields, keys[i]) && SameValue(values[i], Lookup(v.fields, keys[i]))
  {
    var f := Zip(keys, values)[i];
    assert f in Zip(keys, values);
    var g := Matching(JObj(Zip(keys, values)), v, f);
    LookupIs(v.fields, g);
  }
}
