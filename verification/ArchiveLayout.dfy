/** What the bytes of an accepted archive are, offset by offset, and what its envelope says, name by name
    (packages/backup/src/archive.ts:175-295, 415-454). */
module ArchiveLayout {
  import opened Wrappers
  import opened CanonicalJson
  import opened JsonRecords
  import opened Archive
  import opened ArchiveRecords
  import opened ArchiveProofs

  /** The object has this value under this name, and no other under it. */
  predicate Says(v: Json, name: string, value: Json)
  {
    && v.JObj? && (exists i :: 0 <= i < |v.fields| && v.fields[i] == Field(name, value))
    && forall i :: 0 <= i < |v.fields| && v.fields[i].key == name ==> v.fields[i].value == value
  }

  lemma ZipSays(keys: seq<string>, values: seq<Json>, i: nat)
    requires |keys| == |values| && i < |keys| && DistinctNames(keys)
    ensures Says(JObj(Zip(keys, values)), keys[i], values[i])
  {
    var v := JObj(Zip(keys, values));
    assert v.fields[i] == Field(keys[i], values[i]);
  }

  /** Every value under its name. */
  ghost predicate SaysAll(v: Json, keys: seq<string>, values: seq<Json>)
    requires |keys| == |values|
  {
    forall i :: 0 <= i < |keys| ==> Says(v, keys[i], values[i])
  }

  lemma AllSaid(keys: seq<string>, values: seq<Json>)
    requires |keys| == |values| && DistinctNames(keys)
    ensures SaysAll(JObj(Zip(keys, values)), keys, values)
  {
    hide Says, Zip, DistinctNames;
    forall i | 0 <= i < |keys| ensures Says(JObj(Zip(keys, values)), keys[i], values[i]) { ZipSays(keys, values, i); }
  }

  lemma DescriptorSays(d: Descriptor)
    ensures var v := DescriptorJson(d);
            && Says(v, "mediaType", JStr(d.mediaType)) && Says(v, "path", JStr(d.path)) && Says(v, "role", JStr(d.role))
            && Says(v, "sha256", JStr(d.sha256)) && Says(v, "sizeBytes", JNum(d.sizeBytes)) && v.JObj? && |v.fields| == 5
  {
    hide Says;
    SmallKeysDistinct();
    AllSaid(DESCRIPTOR_KEYS, DescriptorValues(d));
    var (v, k, x) := (DescriptorJson(d), DESCRIPTOR_KEYS, DescriptorValues(d));
    assert Says(v, k[0], x[0]) && Says(v, k[1], x[1]) && Says(v, k[2], x[2]) && Says(v, k[3], x[3]) && Says(v, k[4], x[4]);
  }

  /** A checkpoint record. */
  predicate IsCheckpoint(v: Json, c: Checkpoint)
  {
    && Says(v, "checkpointHash", JStr(c.checkpointHash)) && Says(v, "journalSequence", JNum(c.journalSequence)) && Says(v, "keyId", JStr(c.keyId))
    && Says(v, "publicKeyFingerprintSha256", JStr(c.fingerprint)) && Says(v, "storeHeadHash", JStr(c.storeHeadHash))
    && Says(v, "storeHeadSequence", JNum(c.storeHeadSequence)) && Says(v, "storeId", JStr(c.storeId)) && v.JObj? && |v.fields| == 7
  }

  lemma CheckpointSays(c: Checkpoint)
    ensures IsCheckpoint(JObj(Zip(CHECKPOINT_KEYS, CheckpointValues(c))), c)
  {
    hide Says;
    CheckpointKeysDistinct();
    AllSaid(CHECKPOINT_KEYS, CheckpointValues(c));
    var (v, k, x) := (JObj(Zip(CHECKPOINT_KEYS, CheckpointValues(c))), CHECKPOINT_KEYS, CheckpointValues(c));
    assert Says(v, k[0], x[0]) && Says(v, k[1], x[1]) && Says(v, k[2], x[2]) && Says(v, k[3], x[3]) && Says(v, k[4], x[4]) && Says(v, k[5], x[5])
           && Says(v, k[6], x[6]);
  }

  predicate IsEventState(v: Json, e: EventState)
  {
    && Says(v, "eventCount", JNum(e.eventCount)) && Says(v, "headHash", JStr(e.headHash)) && Says(v, "headSequence", JNum(e.headSequence))
    && Says(v, "storeId", JStr(e.storeId)) && v.JObj? && |v.fields| == 4
  }

  predicate IsSession(v: Json, s: Session)
  {
    Says(v, "id", JStr(s.id)) && Says(v, "state", JStr(s.state)) && Says(v, "stateAt", JStr(s.stateAt)) && v.JObj? && |v.fields| == 3
  }

  predicate IsSigner(v: Json, s: Signer)
  {
    && Says(v, "algorithm", JStr("Ed25519")) && Says(v, "keyId", JStr(s.keyId)) && Says(v, "publicKeyFingerprintSha256", JStr(s.fingerprint))
    && v.JObj? && |v.fields| == 3
  }

  predicate IsRelease(v: Json, r: Release)
  {
    && Says(v, "commitSha", JStr(r.commitSha)) && Says(v, "configSetSha256", JStr(r.configSetSha256)) && Says(v, "keyId", JStr(r.keyId))
    && Says(v, "publicKeyFingerprintSha256", JStr(r.fingerprint)) && Says(v, "releaseManifestSha256", JStr(r.manifestSha256))
    && Says(v, "releaseVersion", JStr(r.version)) && v.JObj? && |v.fields| == 6
  }

  lemma EventStateSays(e: EventState)
    ensures IsEventState(JObj(Zip(EVENT_STATE_KEYS, EventStateValues(e))), e)
  {
    hide Says;
    SmallKeysDistinct();
    AllSaid(EVENT_STATE_KEYS, EventStateValues(e));
    var (v, k, x) := (JObj(Zip(EVENT_STATE_KEYS, EventStateValues(e))), EVENT_STATE_KEYS, EventStateValues(e));
    assert Says(v, k[0], x[0]) && Says(v, k[1], x[1]) && Says(v, k[2], x[2]) && Says(v, k[3], x[3]);
  }

  lemma SessionSays(s: Session)
    ensures IsSession(JObj(Zip(SESSION_KEYS, SessionValues(s))), s)
  {
    hide Says;
    SmallKeysDistinct();
    AllSaid(SESSION_KEYS, SessionValues(s));
    var (v, k, x) := (JObj(Zip(SESSION_KEYS, SessionValues(s))), SESSION_KEYS, SessionValues(s));
    assert Says(v, k[0], x[0]) && Says(v, k[1], x[1]) && Says(v, k[2], x[2]);
  }

  lemma SignerSays(s: Signer)
    ensures IsSigner(JObj(Zip(SIGNER_KEYS, SignerValues(s))), s)
  {
    hide Says;
    SmallKeysDistinct();
    AllSaid(SIGNER_KEYS, SignerValues(s));
    var (v, k, x) := (JObj(Zip(SIGNER_KEYS, SignerValues(s))), SIGNER_KEYS, SignerValues(s));
    assert Says(v, k[0], x[0]) && Says(v, k[1], x[1]) && Says(v, k[2], x[2]);
  }

  lemma ReleaseSays(r: Release)
    ensures IsRelease(JObj(Zip(RELEASE_KEYS, ReleaseValues(r))), r)
  {
    hide Says;
    ReleaseKeysDistinct();
    AllSaid(RELEASE_KEYS, ReleaseValues(r));
    var (v, k, x) := (JObj(Zip(RELEASE_KEYS, ReleaseValues(r))), RELEASE_KEYS, ReleaseValues(r));
    assert Says(v, k[0], x[0]) && Says(v, k[1], x[1]) && Says(v, k[2], x[2]) && Says(v, k[3], x[3]) && Says(v, k[4], x[4]) && Says(v, k[5], x[5]);
  }

  predicate IsArtifactList(v: Json, ds: seq<Descriptor>)
  {
    && v.JArr? && |v.items| == |ds|
    && forall i :: 0 <= i < |ds| ==>
         && Says(v.items[i], "mediaType", JStr(ds[i].mediaType)) && Says(v.items[i], "path", JStr(ds[i].path)) && Says(v.items[i], "role", JStr(ds[i].role))
         && Says(v.items[i], "sha256", JStr(ds[i].sha256)) && Says(v.items[i], "sizeBytes", JNum(ds[i].sizeBytes))
         && v.items[i].JObj? && |v.items[i].fields| == 5
  }

  lemma ArtifactsSay(ds: seq<Descriptor>)
    ensures IsArtifactList(DescriptorsJson(ds), ds)
  {
    hide Says, DescriptorJson;
    forall i | 0 <= i < |ds|
      ensures var v := DescriptorJson(ds[i]);
              && v.JObj? && Says(v, "mediaType", JStr(ds[i].mediaType)) && Says(v, "path", JStr(ds[i].path)) && Says(v, "role", JStr(ds[i].role))
              && Says(v, "sha256", JStr(ds[i].sha256)) && Says(v, "sizeBytes", JNum(ds[i].sizeBytes)) && v.JObj? && |v.fields| == 5
    {
      DescriptorSays(ds[i]);
      SaysIsObject(DescriptorJson(ds[i]), "role", JStr(ds[i].role));
    }
  }

  lemma SaysIsObject(v: Json, name: string, value: Json)
    requires Says(v, name, value)
    ensures v.JObj?
  {}

  /** A manifest record: twelve fields of its own, three fixed names and two fixed numbers. */
  ghost predicate IsManifest(v: Json, m: Manifest)
  {
    && Says(v, "version", JNum(2)) && Says(v, "artifactCount", JNum(7)) && Says(v, "backupType", JStr("rsi.sanitized-state-evidence-component"))
    && Says(v, "componentScope", JStr("observer-sanitized-state-evidence")) && Says(v, "recoveryCompleteness", JStr("evidence-only"))
    && Says(v, "requiredCompanionArtifacts", JArr([JStr("sanitized-event-archive"), JStr("signed-release-bundle")]))
    && Says(v, "backupId", JStr(m.backupId)) && Says(v, "createdAt", JStr(m.createdAt)) && Says(v, "profile", JStr(m.profile))
    && Says(v, "retention", JStr(m.retention)) && Says(v, "totalArtifactBytes", JNum(m.totalArtifactBytes))
    && v.JObj? && |v.fields| == 17
    && (exists x :: Says(v, "artifacts", x) && IsArtifactList(x, m.artifacts)) && (exists x :: Says(v, "checkpoint", x) && IsCheckpoint(x, m.checkpoint))
    && (exists x :: Says(v, "eventStateEvidence", x) && IsEventState(x, m.eventState)) && (exists x :: Says(v, "release", x) && IsRelease(x, m.release))
    && (exists x :: Says(v, "session", x) && IsSession(x, m.session)) && exists x :: Says(v, "signer", x) && IsSigner(x, m.signer)
  }

  lemma ManifestPlain(m: Manifest)
    ensures var v := ManifestJson(m);
            && Says(v, "version", JNum(2)) && Says(v, "artifactCount", JNum(7)) && Says(v, "backupType", JStr("rsi.sanitized-state-evidence-component"))
            && Says(v, "componentScope", JStr("observer-sanitized-state-evidence")) && Says(v, "recoveryCompleteness", JStr("evidence-only"))
            && Says(v, "requiredCompanionArtifacts", JArr([JStr("sanitized-event-archive"), JStr("signed-release-bundle")]))
            && Says(v, "backupId", JStr(m.backupId)) && Says(v, "createdAt", JStr(m.createdAt)) && Says(v, "profile", JStr(m.profile))
            && Says(v, "retention", JStr(m.retention)) && Says(v, "totalArtifactBytes", JNum(m.totalArtifactBytes))
            && v.JObj? && |v.fields| == 17
  {
    hide Says, DescriptorsJson, CheckpointValues, EventStateValues, ReleaseValues, SessionValues, SignerValues;
    ManifestKeysDistinct();
    AllSaid(MANIFEST_KEYS, ManifestValues(m));
    var (v, k, x) := (ManifestJson(m), MANIFEST_KEYS, ManifestValues(m));
    assert Says(v, k[0], x[0]) && Says(v, k[2], x[2]) && Says(v, k[3], x[3]) && Says(v, k[5], x[5]) && Says(v, k[6], x[6]) && Says(v, k[8], x[8]);
    assert Says(v, k[9], x[9]) && Says(v, k[11], x[11]) && Says(v, k[12], x[12]) && Says(v, k[15], x[15]) && Says(v, k[16], x[16]);
  }

  lemma ManifestNested(m: Manifest)
    ensures var v := ManifestJson(m);
            && Says(v, "artifacts", DescriptorsJson(m.artifacts)) && Says(v, "checkpoint", JObj(Zip(CHECKPOINT_KEYS, CheckpointValues(m.checkpoint))))
            && Says(v, "eventStateEvidence", JObj(Zip(EVENT_STATE_KEYS, EventStateValues(m.eventState))))
            && Says(v, "release", JObj(Zip(RELEASE_KEYS, ReleaseValues(m.release)))) && Says(v, "session", JObj(Zip(SESSION_KEYS, SessionValues(m.session))))
            && Says(v, "signer", JObj(Zip(SIGNER_KEYS, SignerValues(m.signer))))
  {
    hide Says, DescriptorsJson, CheckpointValues, EventStateValues, ReleaseValues, SessionValues, SignerValues;
    ManifestKeysDistinct();
    AllSaid(MANIFEST_KEYS, ManifestValues(m));
    var (v, k, x) := (ManifestJson(m), MANIFEST_KEYS, ManifestValues(m));
    assert Says(v, k[1], x[1]) && Says(v, k[4], x[4]) && Says(v, k[7], x[7]) && Says(v, k[10], x[10]) && Says(v, k[13], x[13]) && Says(v, k[14], x[14]);
  }

  lemma ManifestSays(m: Manifest)
    ensures IsManifest(ManifestJson(m), m)
  {
    hide Says, ManifestJson, DescriptorsJson, CheckpointValues, EventStateValues, ReleaseValues, SessionValues, SignerValues, Zip, IsArtifactList,
      IsCheckpoint, IsEventState, IsRelease, IsSession, IsSigner;
    ManifestPlain(m);
    ManifestNested(m);
    ArtifactsSay(m.artifacts);
    CheckpointSays(m.checkpoint);
    EventStateSays(m.eventState);
    ReleaseSays(m.release);
    SessionSays(m.session);
    SignerSays(m.signer);
  }

  ghost predicate IsEnvelope(v: Json, e: Envelope)
  {
    && Says(v, "signature", JStr(e.signature)) && v.JObj? && |v.fields| == 2
    && exists x :: Says(v, "manifest", x) && IsManifest(x, e.manifest)
  }

  /** The signed envelope says, name by name, what is in the manifest. */
  lemma EnvelopeSays(e: Envelope)
    ensures IsEnvelope(EnvelopeJson(e), e)
  {
    hide Says, ManifestJson, IsManifest;
    SmallKeysDistinct();
    var (v, k, x) := (EnvelopeJson(e), ENVELOPE_KEYS, [ManifestJson(e.manifest), JStr(e.signature)]);
    AllSaid(k, x);
    assert Says(v, k[0], x[0]) && Says(v, k[1], x[1]);
    ManifestSays(e.manifest);
  }

  // ---------------------------------------------------------------- offsets

  /** A number of four bytes, the most significant first. */
  function BigEndian(a: byte, b: byte, c: byte, d: byte): int { ((a as int * 256 + b as int) * 256 + c as int) * 256 + d as int }

  /** Where the n-th artifact begins. */
  function Offset(ds: seq<Descriptor>, start: int, n: nat): int
    requires n <= |ds|
  {
    if n == 0 then start else Offset(ds, start, n - 1) + ds[n - 1].sizeBytes
  }

  /** Byte by byte: the ten letters of the format, the length of the envelope, its ASCII text, behind a byte-order mark
      or not, and then the seven artifacts one after another to the end. */
  ghost predicate LaidOut(bytes: seq<byte>, text: string, ds: seq<Descriptor>, artifacts: Artifacts)
  {
    && |bytes| >= 14
    && bytes[..10] == [82, 83, 73, 66, 65, 67, 75, 85, 80, 49]
    && var length := BigEndian(bytes[10], bytes[11], bytes[12], bytes[13]);
       && 14 + length <= |bytes|
       && (IsText(bytes[14..14 + length], text)
           || (length >= 3 && bytes[14..17] == [0xEF, 0xBB, 0xBF] && IsText(bytes[17..14 + length], text)))
       && LieFrom(bytes, ds, 14 + length, artifacts)
  }

  /** One after another from there to the end. */
  predicate LieFrom(bytes: seq<byte>, ds: seq<Descriptor>, start: int, artifacts: Artifacts)
  {
    (forall n :: 0 <= n < |ds| ==> LiesAt(bytes, ds, start, n, artifacts)) && Offset(ds, start, |ds|) == |bytes|
  }

  predicate IsText(bytes: seq<byte>, text: string)
  {
    |bytes| == |text| && forall i :: 0 <= i < |bytes| ==> bytes[i] as int == text[i] as int
  }

  predicate LiesAt(bytes: seq<byte>, ds: seq<Descriptor>, start: int, n: nat, artifacts: Artifacts)
    requires n < |ds|
  {
    && ds[n].role in artifacts && 0 <= Offset(ds, start, n) <= Offset(ds, start, n) + ds[n].sizeBytes <= |bytes|
    && bytes[Offset(ds, start, n)..Offset(ds, start, n) + ds[n].sizeBytes] == artifacts[ds[n].role]
  }

  lemma NumberIsBigEndian(n: int)
    requires 0 <= n < 0x1_0000_0000
    ensures var w := WriteUInt32(n); |w| == 4 && BigEndian(w[0], w[1], w[2], w[3]) == n
  {
    NumberRead(n);
  }

  lemma {:induction false} OffsetShift(ds: seq<Descriptor>, start: int, n: nat)
    requires ds != [] && n < |ds|
    ensures Offset(ds, start, n + 1) == Offset(ds[1..], start + ds[0].sizeBytes, n)
  {
    if n > 0 { OffsetShift(ds, start, n - 1); }
  }

  /** Artifacts laid one after another lie where their sizes say. */
  lemma {:induction false} ConcatenatedLies(bytes: seq<byte>, start: nat, ds: seq<Descriptor>, artifacts: Artifacts)
    requires start <= |bytes| && bytes[start..] == Concatenated(ByRole(ds, artifacts))
    requires forall n :: 0 <= n < |ds| ==> ds[n].role in artifacts && |artifacts[ds[n].role]| == ds[n].sizeBytes
    ensures LieFrom(bytes, ds, start, artifacts)
    decreases |ds|
  {
    if ds != [] {
      var first, rest := artifacts[ds[0].role], ByRole(ds[1..], artifacts);
      assert ByRole(ds, artifacts) == [first] + rest;
      ConcatenatedMore(first, rest);
      SplitAt(bytes, start, first, Concatenated(rest));
      ConcatenatedLies(bytes, start + |first|, ds[1..], artifacts);
      hide ByRole, Concatenated, Offset;
      forall n | 0 <= n < |ds| ensures LiesAt(bytes, ds, start, n, artifacts) { LiesLater(bytes, ds, start, n, artifacts); }
      OffsetShift(ds, start, |ds| - 1);
    }
  }

  lemma LiesLater(bytes: seq<byte>, ds: seq<Descriptor>, start: nat, n: nat, artifacts: Artifacts)
    requires n < |ds| && ds[0].role in artifacts && start + ds[0].sizeBytes <= |bytes| && ds[0].sizeBytes >= 0
    requires bytes[start..start + ds[0].sizeBytes] == artifacts[ds[0].role]
    requires n > 0 ==> LiesAt(bytes, ds[1..], start + ds[0].sizeBytes, n - 1, artifacts)
    ensures LiesAt(bytes, ds, start, n, artifacts)
  {
    if n > 0 { OffsetShift(ds, start, n - 1); }
  }

  lemma HeaderLies(bytes: seq<byte>, envelope: seq<byte>, rest: seq<byte>)
    requires |envelope| < 0x1_0000_0000 && bytes == MAGIC + WriteUInt32(|envelope|) + envelope + rest
    ensures |bytes| >= 14 && bytes[..10] == [82, 83, 73, 66, 65, 67, 75, 85, 80, 49]
    ensures BigEndian(bytes[10], bytes[11], bytes[12], bytes[13]) == |envelope| && 14 + |envelope| <= |bytes|
    ensures bytes[14..14 + |envelope|] == envelope && bytes[14 + |envelope|..] == rest
  {
    NumberIsBigEndian(|envelope|);
    hide WriteUInt32, BigEndian;
    var number := WriteUInt32(|envelope|);
    assert bytes[10] == number[0] && bytes[11] == number[1] && bytes[12] == number[2] && bytes[13] == number[3];
  }

  lemma EnvelopeIsText(e: Envelope)
    requires EnvelopeOk(e)
    ensures IsText(EnvelopeBytes(e), Print(EnvelopeJson(e)))
  {
    hide EnvelopeOk, EnvelopeJson, Print, Serializable;
    EnvelopePrints(e);
  }

  lemma HeldArtifacts(ds: seq<Descriptor>, artifacts: Artifacts, sha: seq<byte> -> string)
    requires Holds(ds, artifacts, sha)
    ensures forall n :: 0 <= n < |ds| ==>
              ds[n].role in artifacts && |artifacts[ds[n].role]| == ds[n].sizeBytes && sha(artifacts[ds[n].role]) == ds[n].sha256
  {}

  lemma PlainLaidOut(bytes: seq<byte>, e: Envelope, artifacts: Artifacts, sha: seq<byte> -> string)
    requires EnvelopeOk(e) && Holds(e.manifest.artifacts, artifacts, sha)
    requires bytes == Framed(EnvelopeBytes(e), InOrder(artifacts)) || bytes == Framed(Marked(e), InOrder(artifacts))
    ensures LaidOut(bytes, Print(EnvelopeJson(e)), e.manifest.artifacts, artifacts)
  {
    hide EnvelopeOk, EnvelopeBytes, Holds, EnvelopeJson, Print, InOrder, Concatenated, WriteUInt32, BigEndian, LieFrom, ByRole, IsText;
    var ds, plain := e.manifest.artifacts, EnvelopeBytes(e);
    var envelope := if bytes == Framed(plain, InOrder(artifacts)) then plain else Marked(e);
    DescriptorsOrdered(e);
    HeaderLies(bytes, envelope, Concatenated(InOrder(artifacts)));
    HeldArtifacts(ds, artifacts, sha);
    ConcatenatedLies(bytes, 14 + |envelope|, ds, artifacts);
    EnvelopeIsText(e);
    if envelope != plain {
      assert bytes[14..17] == envelope[..3] == BYTE_ORDER_MARK;
      assert bytes[17..14 + |envelope|] == envelope[3..] == plain;
    }
  }

  /** An accepted archive is laid out as stated, its envelope is the canonical text of a record that says, name by name,
      what the manifest holds, and every artifact has the digest that the manifest gives for it. */
  lemma AcceptedIsLaidOut(bytes: seq<byte>, parse: string -> Option<Json>, sha: seq<byte> -> string, e: Envelope, artifacts: Artifacts)
    requires IsJsonParser(parse) && Decode(bytes, parse, sha) == Some((e, artifacts))
    ensures LaidOut(bytes, Print(EnvelopeJson(e)), e.manifest.artifacts, artifacts) && IsEnvelope(EnvelopeJson(e), e)
    ensures forall n :: 0 <= n < |e.manifest.artifacts| ==>
              var d := e.manifest.artifacts[n]; d.role in artifacts && sha(artifacts[d.role]) == d.sha256
  {
    hide IsJsonParser, Decode, EnvelopeOk, Holds, EnvelopeJson, Print, LaidOut, IsEnvelope, InOrder, Concatenated, WriteUInt32;
    DecodeIs(bytes, parse, sha, e, artifacts);
    PlainLaidOut(bytes, e, artifacts, sha);
    EnvelopeSays(e);
    HeldArtifacts(e.manifest.artifacts, artifacts, sha);
  }
}
