/** Each reader of the archive's envelope accepts exactly one record: the one the value prints, whatever
    the order of its fields (packages/backup/src/archive.ts:458-631). */
module ArchiveRecords {
  import opened Wrappers
  import opened CanonicalJson
  import opened CanonicalJsonProofs
  import opened JsonRecords
  import opened Archive

  // ---------------------------------------------------------------- field names

  lemma SmallKeysDistinct()
    ensures DistinctNames(DESCRIPTOR_KEYS) && DistinctNames(EVENT_STATE_KEYS) && DistinctNames(SESSION_KEYS) && DistinctNames(SIGNER_KEYS)
    ensures DistinctNames(ENVELOPE_KEYS)
  {}

  lemma CheckpointKeysDistinct()
    ensures DistinctNames(CHECKPOINT_KEYS)
  {}

  lemma ReleaseKeysDistinct()
    ensures DistinctNames(RELEASE_KEYS)
  {}

  lemma ManifestKeysDistinct()
    ensures DistinctNames(MANIFEST_KEYS)
  {}

  // ---------------------------------------------------------------- flat records

  predicate Leaf(v: Json) { !v.JArr? && !v.JObj? }

  ghost predicate Flat(values: seq<Json>) { forall i :: 0 <= i < |values| ==> Leaf(values[i]) }

  lemma SameLeaf(v: Json, w: Json)
    requires Leaf(v) && SameValue(v, w)
    ensures v == w
  {}

  lemma LeafProper(v: Json)
    requires Leaf(v)
    ensures Proper(v)
  {}

  lemma FlatProper(keys: seq<string>, values: seq<Json>)
    requires |keys| == |values| && DistinctNames(keys) && Flat(values)
    ensures Proper(JObj(Zip(keys, values)))
  {
    hide Proper;
    forall i | 0 <= i < |values| ensures Proper(values[i]) { LeafProper(values[i]); }
    ZipProper(keys, values);
  }

  /** A flat record is read back field for field, and only from an object that is that record. */
  lemma FlatRead(v: Json, keys: seq<string>, values: seq<Json>)
    requires Proper(v) && DistinctNames(keys) && |keys| == |values| && Flat(values)
    ensures ExactObject(v, keys) == Some(values) <==> SameValue(JObj(Zip(keys, values)), v)
  {
    hide ExactObject, SameValue, Proper, DistinctNames;
    if SameValue(JObj(Zip(keys, values)), v) {
      forall i | 0 <= i < |values| ensures Proper(values[i]) { LeafProper(values[i]); }
      var copied := ExactSame(v, keys, values);
      forall i | 0 <= i < |values| ensures copied[i] == values[i] { SameLeaf(values[i], copied[i]); }
      assert copied == values;
    }
    if ExactObject(v, keys) == Some(values) { ExactMeans(v, keys, values); }
  }

  lemma ExactLength(v: Json, keys: seq<string>)
    ensures ExactObject(v, keys).Some? ==> |ExactObject(v, keys).value| == |keys|
  {}

  lemma DescriptorRead(v: Json, definition: Definition, d: Descriptor)
    requires Proper(v)
    ensures ParseDescriptor(v, definition) == Some(d) <==> DescriptorOk(d, definition) && SameValue(DescriptorJson(d), v)
  {
    hide ExactObject, SameValue, Proper, DistinctNames, DescriptorOk, Zip;
    SmallKeysDistinct();
    FlatRead(v, DESCRIPTOR_KEYS, DescriptorValues(d));
    ExactLength(v, DESCRIPTOR_KEYS);
    if ParseDescriptor(v, definition) == Some(d) { assert ExactObject(v, DESCRIPTOR_KEYS).value == DescriptorValues(d); }
  }

  function CheckpointJson(c: Checkpoint): Json { JObj(Zip(CHECKPOINT_KEYS, CheckpointValues(c))) }
  function EventStateJson(e: EventState): Json { JObj(Zip(EVENT_STATE_KEYS, EventStateValues(e))) }
  function ReleaseJson(r: Release): Json { JObj(Zip(RELEASE_KEYS, ReleaseValues(r))) }
  function SessionJson(s: Session): Json { JObj(Zip(SESSION_KEYS, SessionValues(s))) }
  function SignerJson(s: Signer): Json { JObj(Zip(SIGNER_KEYS, SignerValues(s))) }

  lemma CheckpointRead(v: Json, c: Checkpoint)
    requires Proper(v)
    ensures ParseCheckpoint(v) == Some(c) <==> CheckpointOk(c) && SameValue(CheckpointJson(c), v)
  {
    hide ExactObject, SameValue, Proper, DistinctNames, CheckpointOk, Zip;
    CheckpointKeysDistinct();
    FlatRead(v, CHECKPOINT_KEYS, CheckpointValues(c));
    ExactLength(v, CHECKPOINT_KEYS);
    if ParseCheckpoint(v) == Some(c) { assert ExactObject(v, CHECKPOINT_KEYS).value == CheckpointValues(c); }
  }

  lemma EventStateRead(v: Json, e: EventState)
    requires Proper(v)
    ensures ParseEventState(v) == Some(e) <==> EventStateOk(e) && SameValue(EventStateJson(e), v)
  {
    hide ExactObject, SameValue, Proper, DistinctNames, EventStateOk, Zip;
    SmallKeysDistinct();
    FlatRead(v, EVENT_STATE_KEYS, EventStateValues(e));
    ExactLength(v, EVENT_STATE_KEYS);
    if ParseEventState(v) == Some(e) { assert ExactObject(v, EVENT_STATE_KEYS).value == EventStateValues(e); }
  }

  lemma ReleaseRead(v: Json, r: Release)
    requires Proper(v)
    ensures ParseRelease(v) == Some(r) <==> ReleaseOk(r) && SameValue(ReleaseJson(r), v)
  {
    hide ExactObject, SameValue, Proper, DistinctNames, ReleaseOk, Zip;
    ReleaseKeysDistinct();
    FlatRead(v, RELEASE_KEYS, ReleaseValues(r));
    ExactLength(v, RELEASE_KEYS);
    if ParseRelease(v) == Some(r) { assert ExactObject(v, RELEASE_KEYS).value == ReleaseValues(r); }
  }

  lemma SessionRead(v: Json, s: Session)
    requires Proper(v)
    ensures ParseSession(v) == Some(s) <==> SessionOk(s) && SameValue(SessionJson(s), v)
  {
    hide ExactObject, SameValue, Proper, DistinctNames, SessionOk, Zip;
    SmallKeysDistinct();
    FlatRead(v, SESSION_KEYS, SessionValues(s));
    ExactLength(v, SESSION_KEYS);
    if ParseSession(v) == Some(s) { assert ExactObject(v, SESSION_KEYS).value == SessionValues(s); }
  }

  lemma SignerRead(v: Json, s: Signer)
    requires Proper(v)
    ensures ParseSigner(v) == Some(s) <==> SignerOk(s) && SameValue(SignerJson(s), v)
  {
    hide ExactObject, SameValue, Proper, DistinctNames, SignerOk, Zip;
    SmallKeysDistinct();
    FlatRead(v, SIGNER_KEYS, SignerValues(s));
    ExactLength(v, SIGNER_KEYS);
    if ParseSigner(v) == Some(s) { assert ExactObject(v, SIGNER_KEYS).value == SignerValues(s); }
  }

  // ---------------------------------------------------------------- the manifest

  ghost predicate DescriptorsMatch(ds: seq<Descriptor>, items: seq<Json>)
    requires |ds| <= |DEFINITIONS|
  {
    && |ds| == |items|
    && forall i :: 0 <= i < |ds| ==> DescriptorOk(ds[i], DEFINITIONS[i]) && SameValue(DescriptorJson(ds[i]), items[i])
  }

  lemma {:induction false} DescriptorsReadBack(items: seq<Json>)
    requires |items| <= |DEFINITIONS| && (forall i :: 0 <= i < |items| ==> Proper(items[i])) && ParseDescriptors(items).Some?
    ensures |ParseDescriptors(items).value| <= |DEFINITIONS| && DescriptorsMatch(ParseDescriptors(items).value, items)
    ensures TotalBytes(ParseDescriptors(items).value) <= MAX_TOTAL_ARTIFACT_BYTES
  {
    hide ParseDescriptor, DescriptorOk, SameValue, Proper, DescriptorJson;
    if items == [] {
    } else {
      var n := |items| - 1;
      DescriptorsReadBack(items[..n]);
      var front, d := ParseDescriptors(items[..n]).value, ParseDescriptor(items[n], DEFINITIONS[n]).value;
      DescriptorRead(items[n], DEFINITIONS[n], d);
      assert (front + [d])[..n] == front;
    }
  }

  lemma ReadOneMore(items: seq<Json>, front: seq<Descriptor>, d: Descriptor)
    requires 0 < |items| <= |DEFINITIONS| && ParseDescriptors(items[..|items| - 1]) == Some(front)
    requires ParseDescriptor(items[|items| - 1], DEFINITIONS[|items| - 1]) == Some(d) && TotalBytes(front) + d.sizeBytes <= MAX_TOTAL_ARTIFACT_BYTES
    ensures ParseDescriptors(items) == Some(front + [d])
  {
    hide ParseDescriptor, TotalBytes;
  }

  lemma MatchFront(ds: seq<Descriptor>, items: seq<Json>)
    requires 0 < |ds| <= |DEFINITIONS| && DescriptorsMatch(ds, items)
    ensures DescriptorsMatch(ds[..|ds| - 1], items[..|items| - 1])
    ensures DescriptorOk(ds[|ds| - 1], DEFINITIONS[|ds| - 1]) && SameValue(DescriptorJson(ds[|ds| - 1]), items[|ds| - 1])
  {
    hide DescriptorOk, SameValue, DescriptorJson;
  }

  lemma {:induction false} DescriptorsReadForth(items: seq<Json>, ds: seq<Descriptor>)
    requires |items| <= |DEFINITIONS| && (forall i :: 0 <= i < |items| ==> Proper(items[i])) && |ds| == |items|
    requires DescriptorsMatch(ds, items) && TotalBytes(ds) <= MAX_TOTAL_ARTIFACT_BYTES
    ensures ParseDescriptors(items) == Some(ds)
  {
    hide ParseDescriptor, DescriptorOk, SameValue, Proper, DescriptorJson, DescriptorsMatch;
    if items == [] {
      assert ds == [];
    } else {
      hide ParseDescriptors;
      var n := |items| - 1;
      MatchFront(ds, items);
      DescriptorPositive(ds[n], DEFINITIONS[n]);
      DescriptorsReadForth(items[..n], ds[..n]);
      DescriptorRead(items[n], DEFINITIONS[n], ds[n]);
      ReadOneMore(items, ds[..n], ds[n]);
      assert ds == ds[..n] + [ds[n]];
    }
  }

  /** The running total is checked at every descriptor, which is no more than checking the whole total. */
  lemma DescriptorsRead(items: seq<Json>, ds: seq<Descriptor>)
    requires |items| <= |DEFINITIONS| && forall i :: 0 <= i < |items| ==> Proper(items[i])
    ensures ParseDescriptors(items) == Some(ds)
            <==> |ds| <= |DEFINITIONS| && DescriptorsMatch(ds, items) && TotalBytes(ds) <= MAX_TOTAL_ARTIFACT_BYTES
  {
    hide Proper, TotalBytes, ParseDescriptors, DescriptorJson, DescriptorOk, SameValue;
    if ParseDescriptors(items).Some? { DescriptorsReadBack(items); }
    if |ds| <= |DEFINITIONS| && DescriptorsMatch(ds, items) && TotalBytes(ds) <= MAX_TOTAL_ARTIFACT_BYTES { DescriptorsReadForth(items, ds); }
  }

  lemma DescriptorPositive(d: Descriptor, definition: Definition)
    requires DescriptorOk(d, definition)
    ensures d.sizeBytes >= 1
  {}

  lemma SameArrays(items: seq<Json>, w: Json)
    ensures SameValue(JArr(items), w) <==> w.JArr? && |items| == |w.items| && forall i :: 0 <= i < |items| ==> SameValue(items[i], w.items[i])
  {}

  lemma ArtifactsRead(ds: seq<Descriptor>, w: Json)
    requires Proper(w) && |ds| == |DEFINITIONS|
    ensures ArtifactsOk(ds) && SameValue(DescriptorsJson(ds), w)
            <==> w.JArr? && |w.items| == |DEFINITIONS| && ParseDescriptors(w.items) == Some(ds)
  {
    ItemsProper(w);
    hide ParseDescriptor, DescriptorOk, SameValue, Proper, DescriptorJson, ParseDescriptors;
    SameArrays(seq(|ds|, i requires 0 <= i < |ds| => DescriptorJson(ds[i])), w);
    if w.JArr? && |w.items| == |DEFINITIONS| { DescriptorsRead(w.items, ds); }
  }

  lemma ItemsProper(w: Json)
    requires Proper(w)
    ensures w.JArr? ==> forall i :: 0 <= i < |w.items| ==> Proper(w.items[i])
  {}

  lemma CompanionsRead(w: Json)
    ensures SameValue(COMPANIONS, w) <==> w == COMPANIONS
  {
    if SameValue(COMPANIONS, w) { assert w.items == COMPANIONS.items; }
  }

  ghost predicate ValuesMatch(values: seq<Json>, x: seq<Json>)
  {
    |values| == |x| && forall i :: 0 <= i < |values| ==> SameValue(values[i], x[i])
  }

  ghost predicate AllProper(x: seq<Json>) { forall i :: 0 <= i < |x| ==> Proper(x[i]) }

  /** The fields that hold records, one by one. */
  ghost predicate RecordsMatch(m: Manifest, x: seq<Json>)
    requires |x| == |MANIFEST_KEYS|
  {
    && SameValue(DescriptorsJson(m.artifacts), x[1]) && SameValue(CheckpointJson(m.checkpoint), x[4])
    && SameValue(EventStateJson(m.eventState), x[7]) && SameValue(ReleaseJson(m.release), x[10]) && SameValue(COMPANIONS, x[11])
    && SameValue(SessionJson(m.session), x[13]) && SameValue(SignerJson(m.signer), x[14])
  }

  /** The fields that hold strings and numbers. */
  predicate LeavesMatch(m: Manifest, x: seq<Json>)
    requires |x| == |MANIFEST_KEYS|
  {
    && x[0] == JNum(7) && x[2] == JStr(m.backupId) && x[3] == JStr("rsi.sanitized-state-evidence-component")
    && x[5] == JStr("observer-sanitized-state-evidence") && x[6] == JStr(m.createdAt) && x[8] == JStr(m.profile)
    && x[9] == JStr("evidence-only") && x[12] == JStr(m.retention) && x[15] == JNum(m.totalArtifactBytes) && x[16] == JNum(2)
  }

  lemma LeafSame(v: Json, w: Json)
    requires Leaf(v)
    ensures SameValue(v, w) <==> v == w
  {}

  lemma ManifestMatch(m: Manifest, x: seq<Json>)
    requires |x| == |MANIFEST_KEYS|
    ensures ValuesMatch(ManifestValues(m), x) <==> RecordsMatch(m, x) && LeavesMatch(m, x)
  {
    hide SameValue, DescriptorsJson, Zip;
    var values := ManifestValues(m);
    LeafSame(values[0], x[0]); LeafSame(values[2], x[2]); LeafSame(values[3], x[3]); LeafSame(values[5], x[5]); LeafSame(values[6], x[6]);
    LeafSame(values[8], x[8]); LeafSame(values[9], x[9]); LeafSame(values[12], x[12]); LeafSame(values[15], x[15]); LeafSame(values[16], x[16]);
  }

  /** The parts of a manifest are each read back. */
  ghost predicate PartsRead(m: Manifest, x: seq<Json>)
    requires |x| == |MANIFEST_KEYS|
  {
    && x[1].JArr? && |x[1].items| == |DEFINITIONS| && ParseDescriptors(x[1].items) == Some(m.artifacts)
    && ParseCheckpoint(x[4]) == Some(m.checkpoint) && ParseEventState(x[7]) == Some(m.eventState) && ParseRelease(x[10]) == Some(m.release)
    && x[11] == COMPANIONS && ParseSession(x[13]) == Some(m.session) && ParseSigner(x[14]) == Some(m.signer)
  }

  ghost predicate PartsOk(m: Manifest)
  {
    && ArtifactsOk(m.artifacts) && CheckpointOk(m.checkpoint) && EventStateOk(m.eventState) && ReleaseOk(m.release) && SessionOk(m.session)
    && SignerOk(m.signer)
  }

  lemma PartsAreRead(m: Manifest, x: seq<Json>)
    requires |x| == |MANIFEST_KEYS| && AllProper(x) && |m.artifacts| == |DEFINITIONS|
    ensures PartsRead(m, x) <==> PartsOk(m) && RecordsMatch(m, x)
  {
    hide SameValue, Proper, ParseDescriptors, ParseCheckpoint, ParseEventState, ParseRelease, ParseSession, ParseSigner;
    hide ArtifactsOk, CheckpointOk, EventStateOk, ReleaseOk, SessionOk, SignerOk;
    hide CheckpointJson, EventStateJson, ReleaseJson, SessionJson, SignerJson, DescriptorsJson;
    ArtifactsRead(m.artifacts, x[1]);
    CheckpointRead(x[4], m.checkpoint);
    EventStateRead(x[7], m.eventState);
    ReleaseRead(x[10], m.release);
    CompanionsRead(x[11]);
    SessionRead(x[13], m.session);
    SignerRead(x[14], m.signer);
  }

  lemma ReadsParts(m: Manifest, x: seq<Json>)
    requires |x| == |MANIFEST_KEYS|
    ensures ReadManifest(x) == Some(m) <==> ManifestOk(m) && LeavesMatch(m, x) && PartsRead(m, x)
  {
    hide ManifestOk, ParseDescriptors, ParseCheckpoint, ParseEventState, ParseRelease, ParseSession, ParseSigner;
  }

  lemma ManifestParts(m: Manifest)
    requires ManifestOk(m)
    ensures PartsOk(m) && |m.artifacts| == |DEFINITIONS|
  {
    hide CheckpointOk, EventStateOk, ReleaseOk, SessionOk, SignerOk, DescriptorOk;
  }

  /** Reading the fields of a manifest finds exactly the manifest that is printed there. */
  lemma FieldsRead(m: Manifest, x: seq<Json>)
    requires |x| == |MANIFEST_KEYS| && AllProper(x)
    ensures ReadManifest(x) == Some(m) <==> ManifestOk(m) && ValuesMatch(ManifestValues(m), x)
  {
    hide ManifestOk, ReadManifest, PartsRead, LeavesMatch, RecordsMatch, PartsOk, AllProper, ValuesMatch, ManifestValues;
    ReadsParts(m, x);
    ManifestMatch(m, x);
    if ManifestOk(m) {
      ManifestParts(m);
      PartsAreRead(m, x);
    }
  }

  lemma RecordsProper(m: Manifest)
    ensures Proper(CheckpointJson(m.checkpoint)) && Proper(EventStateJson(m.eventState)) && Proper(ReleaseJson(m.release))
    ensures Proper(SessionJson(m.session)) && Proper(SignerJson(m.signer)) && Proper(COMPANIONS)
  {
    SmallKeysDistinct();
    CheckpointKeysDistinct();
    ReleaseKeysDistinct();
    hide Proper, DistinctNames, Zip;
    FlatProper(CHECKPOINT_KEYS, CheckpointValues(m.checkpoint));
    FlatProper(EVENT_STATE_KEYS, EventStateValues(m.eventState));
    FlatProper(RELEASE_KEYS, ReleaseValues(m.release));
    FlatProper(SESSION_KEYS, SessionValues(m.session));
    FlatProper(SIGNER_KEYS, SignerValues(m.signer));
    CompanionsProper();
  }

  lemma CompanionsProper()
    ensures Proper(COMPANIONS)
  {}

  lemma DescriptorsProper(ds: seq<Descriptor>)
    ensures Proper(DescriptorsJson(ds))
  {
    hide Zip;
    SmallKeysDistinct();
    forall x | x in DescriptorsJson(ds).items ensures Proper(x) {
      var i :| 0 <= i < |ds| && x == DescriptorJson(ds[i]);
      FlatProper(DESCRIPTOR_KEYS, DescriptorValues(ds[i]));
    }
  }

  lemma ManifestProper(m: Manifest)
    ensures AllProper(ManifestValues(m)) && Proper(ManifestJson(m))
  {
    hide Proper, DistinctNames, Zip, DescriptorsJson;
    RecordsProper(m);
    DescriptorsProper(m.artifacts);
    var values := ManifestValues(m);
    forall i | 0 <= i < |values| ensures Proper(values[i]) {
      if Leaf(values[i]) { LeafProper(values[i]); }
    }
    ManifestKeysDistinct();
    ZipProper(MANIFEST_KEYS, values);
  }

  /** A record with proper values is the object up to field order exactly when its copied values match. */
  lemma RecordRead(v: Json, keys: seq<string>, values: seq<Json>)
    requires Proper(v) && DistinctNames(keys) && |keys| == |values| && AllProper(values)
    ensures SameValue(JObj(Zip(keys, values)), v)
            <==> ExactObject(v, keys).Some? && AllProper(ExactObject(v, keys).value) && ValuesMatch(values, ExactObject(v, keys).value)
  {
    hide SameValue, Proper, DistinctNames, ExactObject, Zip;
    if SameValue(JObj(Zip(keys, values)), v) { var x := ExactSame(v, keys, values); }
    if ExactObject(v, keys).Some? && ValuesMatch(values, ExactObject(v, keys).value) {
      var x := ExactObject(v, keys).value;
      ExactMeans(v, keys, x);
      ZipSame(keys, values, x);
      ZipProper(keys, values);
      ZipProper(keys, x);
      SameValueTransitive(JObj(Zip(keys, values)), JObj(Zip(keys, x)), v);
    }
  }

  lemma ManifestRead(v: Json, m: Manifest)
    requires Proper(v)
    ensures ParseManifest(v) == Some(m) <==> ManifestOk(m) && SameValue(ManifestJson(m), v)
  {
    hide SameValue, Proper, DistinctNames, ExactObject, Zip, ReadManifest, ManifestOk, ManifestValues, AllProper, ValuesMatch;
    ManifestKeysDistinct();
    ManifestProper(m);
    RecordRead(v, MANIFEST_KEYS, ManifestValues(m));
    ExactLength(v, MANIFEST_KEYS);
    if ExactObject(v, MANIFEST_KEYS).Some? {
      CopyProper(v, MANIFEST_KEYS);
      FieldsRead(m, ExactObject(v, MANIFEST_KEYS).value);
    }
  }

  lemma CopyProper(v: Json, keys: seq<string>)
    requires Proper(v) && ExactObject(v, keys).Some?
    ensures AllProper(ExactObject(v, keys).value)
  {
    ValuesProper(v, keys, ExactObject(v, keys).value);
  }

  predicate EnvelopeOk(e: Envelope) { ManifestOk(e.manifest) && SignatureOk(e.signature) }

  lemma EnvelopeProper(e: Envelope)
    ensures Proper(EnvelopeJson(e)) && AllProper([ManifestJson(e.manifest), JStr(e.signature)])
  {
    hide Proper, DistinctNames, ManifestJson, Zip;
    ManifestProper(e.manifest);
    LeafProper(JStr(e.signature));
    SmallKeysDistinct();
    ZipProper(ENVELOPE_KEYS, [ManifestJson(e.manifest), JStr(e.signature)]);
  }

  /** The envelope reader accepts a value exactly when it is a valid envelope, and finds that envelope. */
  lemma EnvelopeRead(v: Json, e: Envelope)
    requires Proper(v)
    ensures ParseEnvelope(v) == Some(e) <==> EnvelopeOk(e) && SameValue(EnvelopeJson(e), v)
  {
    hide SameValue, Proper, DistinctNames, ExactObject, Zip, ParseManifest, ManifestOk, ManifestJson, AllProper, SignatureOk;
    SmallKeysDistinct();
    EnvelopeProper(e);
    var values := [ManifestJson(e.manifest), JStr(e.signature)];
    RecordRead(v, ENVELOPE_KEYS, values);
    ExactLength(v, ENVELOPE_KEYS);
    if ExactObject(v, ENVELOPE_KEYS).Some? {
      var x := ExactObject(v, ENVELOPE_KEYS).value;
      CopyProper(v, ENVELOPE_KEYS);
      FirstProper(x);
      ManifestRead(x[0], e.manifest);
      LeafSame(values[1], x[1]);
      assert ValuesMatch(values, x) <==> SameValue(values[0], x[0]) && SameValue(values[1], x[1]);
    }
  }

  lemma FirstProper(x: seq<Json>)
    requires AllProper(x) && |x| > 0
    ensures Proper(x[0])
  {}
}
