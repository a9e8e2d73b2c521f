/** The signed backup archive: a framed manifest envelope followed by seven artifacts
    (packages/backup/src/archive.ts, schema.ts:328-348). SHA-256 and the JSON parser are parameters. */
module Archive {
  import opened Hex
  import opened Order
  import opened Wrappers
  import opened CanonicalJson
  import opened JsonRecords

  type byte = b: int | 0 <= b < 256

  const MAX_ARCHIVE_BYTES: int := 5 * 1024 * 1024
  const MAX_TOTAL_ARTIFACT_BYTES: int := 4 * 1024 * 1024
  const MAX_ENVELOPE_BYTES: int := 128 * 1024
  const MAX_JSON_ARTIFACT_BYTES: int := 64 * 1024
  const MAX_JOURNAL_BYTES: int := 2 * 1024 * 1024

  datatype Definition = Definition(mediaType: string, path: string, role: string, maximumBytes: int)

  const DEFINITIONS: seq<Definition> := [
    Definition("application/json", "event-state-evidence.v1.json", "event-state-evidence", MAX_JSON_ARTIFACT_BYTES),
    Definition("application/x-ndjson", "checkpoint-journal.v1.jsonl", "checkpoint-journal", MAX_JOURNAL_BYTES),
    Definition("application/json", "checkpoint-head.v1.json", "checkpoint-head", MAX_JSON_ARTIFACT_BYTES),
    Definition("application/json", "public-keys.v1.json", "public-keys", MAX_JSON_ARTIFACT_BYTES),
    Definition("application/json", "config-schema-hashes.v1.json", "config-schema-hashes", MAX_JSON_ARTIFACT_BYTES),
    Definition("application/json", "recovery-evidence.v1.json", "recovery-evidence", MAX_JSON_ARTIFACT_BYTES),
    Definition("application/json", "release-evidence.v1.json", "release-evidence", MAX_JSON_ARTIFACT_BYTES)]

  datatype Descriptor = Descriptor(mediaType: string, path: string, role: string, sha256: string, sizeBytes: int)
  datatype Checkpoint = Checkpoint(checkpointHash: string, journalSequence: int, keyId: string, fingerprint: string, storeHeadHash: string,
                                   storeHeadSequence: int, storeId: string)
  datatype EventState = EventState(eventCount: int, headHash: string, headSequence: int, storeId: string)
  datatype Release = Release(commitSha: string, configSetSha256: string, keyId: string, fingerprint: string, manifestSha256: string, version: string)
  datatype Session = Session(id: string, state: string, stateAt: string)
  datatype Signer = Signer(keyId: string, fingerprint: string)
  datatype Manifest = Manifest(
    artifacts: seq<Descriptor>, backupId: string, checkpoint: Checkpoint, createdAt: string, eventState: EventState, profile: string,
    release: Release, retention: string, session: Session, signer: Signer, totalArtifactBytes: int)
  datatype Envelope = Envelope(manifest: Manifest, signature: string)

  // ---------------------------------------------------------------- validators

  predicate Alphanumeric(c: char) { Digit(c) || 'a' <= c <= 'z' || 'A' <= c <= 'Z' }

  predicate UuidOk(s: string)
  {
    && |s| == 36
    && forall i :: 0 <= i < 36 ==>
         if i == 8 || i == 13 || i == 18 || i == 23 then s[i] == '-'
         else if i == 14 then s[i] == '4'
         else if i == 19 then s[i] in "89ab"
         else LowerHex(s[i])
  }

  function Number(s: string, at: nat, digits: nat): int
    requires at + digits <= |s| && forall i :: at <= i < at + digits ==> Digit(s[i])
    decreases digits
  {
    if digits == 0 then 0 else Number(s, at, digits - 1) * 10 + (s[at + digits - 1] as int - '0' as int)
  }

  function DaysIn(year: int, month: int): int
  {
    if month == 2 then (if year % 4 == 0 && (year % 100 != 0 || year % 400 == 0) then 29 else 28)
    else if month in {4, 6, 9, 11} then 30 else 31
  }

  /** A canonical UTC timestamp with milliseconds, of a day that exists. */
  predicate TimestampOk(s: string)
  {
    && |s| == 24 && s[4] == '-' && s[7] == '-' && s[10] == 'T' && s[13] == ':' && s[16] == ':' && s[19] == '.' && s[23] == 'Z'
    && (forall i :: 0 <= i < 23 && i !in {4, 7, 10, 13, 16, 19} ==> Digit(s[i]))
    && 1 <= Number(s, 5, 2) <= 12 && 1 <= Number(s, 8, 2) <= DaysIn(Number(s, 0, 4), Number(s, 5, 2))
    && Number(s, 11, 2) <= 23 && Number(s, 14, 2) <= 59 && Number(s, 17, 2) <= 59
  }

  function Lower(c: char): char { if 'A' <= c <= 'Z' then (c as int + 32) as char else c }

  function LowerAll(s: string): string { seq(|s|, i requires 0 <= i < |s| => Lower(s[i])) }

  predicate Contains(s: string, word: string)
  {
    word <= s || (s != [] && Contains(s[1..], word))
  }

  const SENSITIVE_WORDS: seq<string> := [
    "secret", "token", "password", "credential", "private", "bearer", "apikey", "api_key", "api-key", "mnemonic", "seed", "sk_live", "xox",
    "ghp_", "http:", "https:", "@"]

  predicate Sensitive(s: string)
  {
    exists i :: 0 <= i < |SENSITIVE_WORDS| && Contains(LowerAll(s), SENSITIVE_WORDS[i])
  }

  predicate IdentifierOk(s: string)
  {
    && 1 <= |s| <= 128 && Alphanumeric(s[0]) && Alphanumeric(s[|s| - 1])
    && (forall i :: 0 <= i < |s| ==> Alphanumeric(s[i]) || s[i] in "._:/-")
    && !Sensitive(s)
  }

  /** The characters and length of a version; its dotted grammar is not modelled. */
  predicate SemverOk(s: string)
  {
    5 <= |s| <= 128 && (forall i :: 0 <= i < |s| ==> Alphanumeric(s[i]) || s[i] in ".+-") && !Sensitive(s)
  }

  /** 64 bytes in unpadded base64url, with no stray bits in the last character. */
  predicate SignatureOk(s: string)
  {
    |s| == 86 && (forall i :: 0 <= i < 86 ==> Alphanumeric(s[i]) || s[i] in "-_") && s[85] in "AQgw"
  }

  predicate SafePositive(n: int) { 1 <= n <= MAX_SAFE_INTEGER }

  predicate CheckpointOk(c: Checkpoint)
  {
    && HashOk(c.checkpointHash) && SafePositive(c.journalSequence) && IdentifierOk(c.keyId) && HashOk(c.fingerprint)
    && HashOk(c.storeHeadHash) && SafePositive(c.storeHeadSequence) && IdentifierOk(c.storeId)
  }

  predicate EventStateOk(e: EventState)
  {
    SafePositive(e.eventCount) && HashOk(e.headHash) && SafePositive(e.headSequence) && IdentifierOk(e.storeId)
  }

  predicate ReleaseOk(r: Release)
  {
    && HexOk(r.commitSha, 40) && HashOk(r.configSetSha256) && IdentifierOk(r.keyId) && HashOk(r.fingerprint)
    && HashOk(r.manifestSha256) && SemverOk(r.version)
  }

  predicate SessionOk(s: Session)
  {
    UuidOk(s.id) && (s.state == "accepted" || s.state == "acceptance-ready" || s.state == "locally-verified") && TimestampOk(s.stateAt)
  }

  predicate SignerOk(s: Signer) { IdentifierOk(s.keyId) && HashOk(s.fingerprint) }

  predicate DescriptorOk(d: Descriptor, definition: Definition)
  {
    && d.mediaType == definition.mediaType && d.path == definition.path && d.role == definition.role
    && HashOk(d.sha256) && SafePositive(d.sizeBytes) && d.sizeBytes <= definition.maximumBytes
  }

  function TotalBytes(ds: seq<Descriptor>): int
  {
    if ds == [] then 0 else TotalBytes(ds[..|ds| - 1]) + ds[|ds| - 1].sizeBytes
  }

  predicate ArtifactsOk(ds: seq<Descriptor>)
  {
    && |ds| == |DEFINITIONS| && (forall i :: 0 <= i < |ds| ==> DescriptorOk(ds[i], DEFINITIONS[i])) && TotalBytes(ds) <= MAX_TOTAL_ARTIFACT_BYTES
  }

  /** Everything but the artifacts. */
  predicate DraftOk(m: Manifest)
  {
    && UuidOk(m.backupId) && CheckpointOk(m.checkpoint) && TimestampOk(m.createdAt) && EventStateOk(m.eventState)
    && (m.profile == "canary" || m.profile == "production-observer") && ReleaseOk(m.release)
    && (m.retention == "month-end-365d" || m.retention == "session-30d") && SessionOk(m.session) && SignerOk(m.signer)
  }

  predicate ManifestOk(m: Manifest)
  {
    && DraftOk(m) && ArtifactsOk(m.artifacts) && m.totalArtifactBytes == TotalBytes(m.artifacts) && SafePositive(m.totalArtifactBytes)
    && !Less(m.createdAt, m.session.stateAt)
  }

  // ---------------------------------------------------------------- the envelope as JSON

  const DESCRIPTOR_KEYS: seq<string> := ["mediaType", "path", "role", "sha256", "sizeBytes"]
  const CHECKPOINT_KEYS: seq<string> := [
    "checkpointHash", "journalSequence", "keyId", "publicKeyFingerprintSha256", "storeHeadHash", "storeHeadSequence", "storeId"]
  const EVENT_STATE_KEYS: seq<string> := ["eventCount", "headHash", "headSequence", "storeId"]
  const RELEASE_KEYS: seq<string> := [
    "commitSha", "configSetSha256", "keyId", "publicKeyFingerprintSha256", "releaseManifestSha256", "releaseVersion"]
  const SESSION_KEYS: seq<string> := ["id", "state", "stateAt"]
  const SIGNER_KEYS: seq<string> := ["algorithm", "keyId", "publicKeyFingerprintSha256"]
  const MANIFEST_KEYS: seq<string> := [
    "artifactCount", "artifacts", "backupId", "backupType", "checkpoint", "componentScope", "createdAt", "eventStateEvidence", "profile",
    "recoveryCompleteness", "release", "requiredCompanionArtifacts", "retention", "session", "signer", "totalArtifactBytes", "version"]
  const ENVELOPE_KEYS: seq<string> := ["manifest", "signature"]

  const COMPANIONS: Json := JArr([JStr("sanitized-event-archive"), JStr("signed-release-bundle")])

  function DescriptorValues(d: Descriptor): (r: seq<Json>)
    ensures |r| == 5
  {
    [JStr(d.mediaType), JStr(d.path), JStr(d.role), JStr(d.sha256), JNum(d.sizeBytes)]
  }

  function DescriptorJson(d: Descriptor): Json { JObj(Zip(DESCRIPTOR_KEYS, DescriptorValues(d))) }

  function CheckpointValues(c: Checkpoint): (r: seq<Json>)
    ensures |r| == 7
  {
    [JStr(c.checkpointHash), JNum(c.journalSequence), JStr(c.keyId), JStr(c.fingerprint), JStr(c.storeHeadHash), JNum(c.storeHeadSequence),
     JStr(c.storeId)]
  }

  function EventStateValues(e: EventState): (r: seq<Json>)
    ensures |r| == 4
  {
    [JNum(e.eventCount), JStr(e.headHash), JNum(e.headSequence), JStr(e.storeId)]
  }

  function ReleaseValues(r: Release): (v: seq<Json>)
    ensures |v| == 6
  {
    [JStr(r.commitSha), JStr(r.configSetSha256), JStr(r.keyId), JStr(r.fingerprint), JStr(r.manifestSha256), JStr(r.version)]
  }

  function SessionValues(s: Session): (r: seq<Json>)
    ensures |r| == 3
  {
    [JStr(s.id), JStr(s.state), JStr(s.stateAt)]
  }

  function SignerValues(s: Signer): (r: seq<Json>)
    ensures |r| == 3
  {
    [JStr("Ed25519"), JStr(s.keyId), JStr(s.fingerprint)]
  }

  function DescriptorsJson(ds: seq<Descriptor>): Json
  {
    JArr(seq(|ds|, i requires 0 <= i < |ds| => DescriptorJson(ds[i])))
  }

  function ManifestValues(m: Manifest): (r: seq<Json>)
    ensures |r| == 17
  {
    [JNum(7), DescriptorsJson(m.artifacts), JStr(m.backupId), JStr("rsi.sanitized-state-evidence-component"),
     JObj(Zip(CHECKPOINT_KEYS, CheckpointValues(m.checkpoint))), JStr("observer-sanitized-state-evidence"), JStr(m.createdAt),
     JObj(Zip(EVENT_STATE_KEYS, EventStateValues(m.eventState))), JStr(m.profile), JStr("evidence-only"),
     JObj(Zip(RELEASE_KEYS, ReleaseValues(m.release))), COMPANIONS, JStr(m.retention), JObj(Zip(SESSION_KEYS, SessionValues(m.session))),
     JObj(Zip(SIGNER_KEYS, SignerValues(m.signer))), JNum(m.totalArtifactBytes), JNum(2)]
  }

  function ManifestJson(m: Manifest): Json { JObj(Zip(MANIFEST_KEYS, ManifestValues(m))) }

  function EnvelopeJson(e: Envelope): Json { JObj(Zip(ENVELOPE_KEYS, [ManifestJson(e.manifest), JStr(e.signature)])) }

  // ---------------------------------------------------------------- reading the envelope

  function ParseDescriptor(v: Json, definition: Definition): Option<Descriptor>
  {
    match ExactObject(v, DESCRIPTOR_KEYS)
    case None => None
    case Some(x) =>
      if x[0].JStr? && x[1].JStr? && x[2].JStr? && x[3].JStr? && x[4].JNum? then
        var d := Descriptor(x[0].s, x[1].s, x[2].s, x[3].s, x[4].n);
        if DescriptorOk(d, definition) then Some(d) else None
      else None
  }

  function ParseCheckpoint(v: Json): Option<Checkpoint>
  {
    match ExactObject(v, CHECKPOINT_KEYS)
    case None => None
    case Some(x) =>
      if x[0].JStr? && x[1].JNum? && x[2].JStr? && x[3].JStr? && x[4].JStr? && x[5].JNum? && x[6].JStr? then
        var c := Checkpoint(x[0].s, x[1].n, x[2].s, x[3].s, x[4].s, x[5].n, x[6].s);
        if CheckpointOk(c) then Some(c) else None
      else None
  }

  function ParseEventState(v: Json): Option<EventState>
  {
    match ExactObject(v, EVENT_STATE_KEYS)
    case None => None
    case Some(x) =>
      if x[0].JNum? && x[1].JStr? && x[2].JNum? && x[3].JStr? then
        var e := EventState(x[0].n, x[1].s, x[2].n, x[3].s);
        if EventStateOk(e) then Some(e) else None
      else None
  }

  function ParseRelease(v: Json): Option<Release>
  {
    match ExactObject(v, RELEASE_KEYS)
    case None => None
    case Some(x) =>
      if x[0].JStr? && x[1].JStr? && x[2].JStr? && x[3].JStr? && x[4].JStr? && x[5].JStr? then
        var r := Release(x[0].s, x[1].s, x[2].s, x[3].s, x[4].s, x[5].s);
        if ReleaseOk(r) then Some(r) else None
      else None
  }

  function ParseSession(v: Json): Option<Session>
  {
    match ExactObject(v, SESSION_KEYS)
    case None => None
    case Some(x) =>
      if x[0].JStr? && x[1].JStr? && x[2].JStr? then
        var s := Session(x[0].s, x[1].s, x[2].s);
        if SessionOk(s) then Some(s) else None
      else None
  }

  function ParseSigner(v: Json): Option<Signer>
  {
    match ExactObject(v, SIGNER_KEYS)
    case None => None
    case Some(x) =>
      if x[0] == JStr("Ed25519") && x[1].JStr? && x[2].JStr? then
        var s := Signer(x[1].s, x[2].s);
        if SignerOk(s) then Some(s) else None
      else None
  }

  /** The descriptors in definition order, with a running total. */
  function ParseDescriptors(items: seq<Json>): Option<seq<Descriptor>>
    requires |items| <= |DEFINITIONS|
  {
    if items == [] then Some([])
    else
      match ParseDescriptors(items[..|items| - 1])
      case None => None
      case Some(ds) =>
        match ParseDescriptor(items[|items| - 1], DEFINITIONS[|items| - 1])
        case None => None
        case Some(d) => if TotalBytes(ds) + d.sizeBytes > MAX_TOTAL_ARTIFACT_BYTES then None else Some(ds + [d])
  }

  /** `parseManifest`, from the values of the manifest's fields. */
  function ReadManifest(x: seq<Json>): Option<Manifest>
    requires |x| == |MANIFEST_KEYS|
  {
    if x[0] != JNum(7) || x[3] != JStr("rsi.sanitized-state-evidence-component") || x[5] != JStr("observer-sanitized-state-evidence")
       || x[9] != JStr("evidence-only") || x[16] != JNum(2) || x[11] != COMPANIONS then None
    else if !x[1].JArr? || |x[1].items| != |DEFINITIONS| || !x[2].JStr? || !x[6].JStr? || !x[8].JStr? || !x[12].JStr? || !x[15].JNum? then None
    else
      var artifacts, checkpoint, eventState := ParseDescriptors(x[1].items), ParseCheckpoint(x[4]), ParseEventState(x[7]);
      var release, session, signer := ParseRelease(x[10]), ParseSession(x[13]), ParseSigner(x[14]);
      if artifacts.None? || checkpoint.None? || eventState.None? || release.None? || session.None? || signer.None? then None
      else
        var m := Manifest(artifacts.value, x[2].s, checkpoint.value, x[6].s, eventState.value, x[8].s, release.value, x[12].s, session.value,
                          signer.value, x[15].n);
        if ManifestOk(m) then Some(m) else None
  }

  function ParseManifest(v: Json): Option<Manifest>
  {
    match ExactObject(v, MANIFEST_KEYS)
    case None => None
    case Some(x) => ReadManifest(x)
  }

  function ParseEnvelope(v: Json): Option<Envelope>
  {
    match ExactObject(v, ENVELOPE_KEYS)
    case None => None
    case Some(x) =>
      if !x[1].JStr? || !SignatureOk(x[1].s) then None
      else
        match ParseManifest(x[0])
        case None => None
        case Some(m) => Some(Envelope(m, x[1].s))
  }

  // ---------------------------------------------------------------- bytes and text

  const MAGIC: seq<byte> := [0x52, 0x53, 0x49, 0x42, 0x41, 0x43, 0x4B, 0x55, 0x50, 0x31]
  const BYTE_ORDER_MARK: seq<byte> := [0xEF, 0xBB, 0xBF]

  predicate Ascii(text: string) { forall i :: 0 <= i < |text| ==> text[i] < 128 as char }

  function AsciiBytes(text: string): (r: seq<byte>)
    requires Ascii(text)
    ensures |r| == |text|
  {
    seq(|text|, i requires 0 <= i < |text| => text[i] as int)
  }

  predicate AsciiOnly(bytes: seq<byte>) { forall i :: 0 <= i < |bytes| ==> bytes[i] < 128 }

  function AsciiText(bytes: seq<byte>): (r: string)
    requires AsciiOnly(bytes)
    ensures |r| == |bytes|
  {
    seq(|bytes|, i requires 0 <= i < |bytes| => bytes[i] as char)
  }

  /** The decoder drops a leading byte-order mark; text outside ASCII is refused here, as no valid
      envelope holds any. */
  function DecodeText(bytes: seq<byte>): Option<string>
  {
    var body := if BYTE_ORDER_MARK <= bytes then bytes[3..] else bytes;
    if AsciiOnly(body) then Some(AsciiText(body)) else None
  }

  function WriteUInt32(n: int): seq<byte>
    requires 0 <= n < 0x1_0000_0000
  {
    [n / 0x100_0000, n / 0x1_0000 % 256, n / 256 % 256, n % 256]
  }

  function ReadUInt32(bytes: seq<byte>): int
    requires |bytes| == 4
  {
    bytes[0] as int * 0x100_0000 + bytes[1] as int * 0x1_0000 + bytes[2] as int * 256 + bytes[3] as int
  }

  /** What a JSON parser does on canonical text: finds the value printed there, if there is one. */
  ghost predicate IsJsonParser(parse: string -> Option<Json>)
  {
    && (forall text :: parse(text).Some? ==> Proper(parse(text).value))
    && (forall v :: Proper(v) && Canonical(v).Some? ==> parse(Canonical(v).value).Some? && Canonical(parse(Canonical(v).value).value) == Canonical(v))
  }

  /** `parseCanonicalJson`. */
  function ParseCanonicalJson(bytes: seq<byte>, parse: string -> Option<Json>): Option<Json>
  {
    if |bytes| == 0 || |bytes| > MAX_JSON_ARTIFACT_BYTES then None
    else
      match DecodeText(bytes)
      case None => None
      case Some(text) =>
        match parse(text)
        case None => None
        case Some(v) => if Canonical(v) == Some(text) then Some(v) else None
  }

  /** The envelope in the bytes behind the header. */
  function ReadEnvelope(bytes: seq<byte>, parse: string -> Option<Json>): Option<Envelope>
  {
    match ParseCanonicalJson(bytes, parse)
    case None => None
    case Some(v) => ParseEnvelope(v)
  }

  // ---------------------------------------------------------------- framing

  type Artifacts = map<string, seq<byte>>

  function Concatenated(artifacts: seq<seq<byte>>): seq<byte>
  {
    if artifacts == [] then [] else artifacts[0] + Concatenated(artifacts[1..])
  }

  function Framed(envelope: seq<byte>, artifacts: seq<seq<byte>>): seq<byte>
    requires |envelope| <= MAX_ENVELOPE_BYTES
  {
    MAGIC + WriteUInt32(|envelope|) + envelope + Concatenated(artifacts)
  }

  function InOrder(artifacts: Artifacts): seq<seq<byte>>
  {
    seq(|DEFINITIONS|, i requires 0 <= i < |DEFINITIONS| => if DEFINITIONS[i].role in artifacts then artifacts[DEFINITIONS[i].role] else [])
  }

  function DescriptorsOf(artifacts: seq<seq<byte>>, sha: seq<byte> -> string): seq<Descriptor>
    requires |artifacts| <= |DEFINITIONS|
  {
    seq(|artifacts|, i requires 0 <= i < |artifacts| =>
      Descriptor(DEFINITIONS[i].mediaType, DEFINITIONS[i].path, DEFINITIONS[i].role, sha(artifacts[i]), |artifacts[i]|))
  }

  predicate WithinRoleBounds(artifacts: seq<seq<byte>>)
    requires |artifacts| == |DEFINITIONS|
  {
    forall i :: 0 <= i < |artifacts| ==> 1 <= |artifacts[i]| <= DEFINITIONS[i].maximumBytes
  }

  /** `encodeSignedArchive`, from validated data: the manifest it signs, and the bytes. */
  function Encode(draft: Manifest, artifacts: seq<seq<byte>>, signature: string, sha: seq<byte> -> string): Option<(Envelope, seq<byte>)>
    requires DraftOk(draft) && |artifacts| == |DEFINITIONS|
  {
    if !WithinRoleBounds(artifacts) then None
    else
      var descriptors := DescriptorsOf(artifacts, sha);
      var total := TotalBytes(descriptors);
      if total > MAX_TOTAL_ARTIFACT_BYTES || Less(draft.createdAt, draft.session.stateAt) || !SignatureOk(signature) then None
      else
        var envelope := Envelope(draft.(artifacts := descriptors, totalArtifactBytes := total), signature);
        match Canonical(EnvelopeJson(envelope))
        case None => None
        case Some(text) =>
          if !Ascii(text) || |text| > MAX_ENVELOPE_BYTES then None
          else
            var bytes := Framed(AsciiBytes(text), artifacts);
            if |bytes| > MAX_ARCHIVE_BYTES then None else Some((envelope, bytes))
  }

  /** The artifacts cut out of the bytes behind the envelope, one descriptor after another. */
  function Cut(bytes: seq<byte>, offset: nat, ds: seq<Descriptor>, sha: seq<byte> -> string): Option<Artifacts>
    decreases |ds|
  {
    if ds == [] then (if offset == |bytes| then Some(map[]) else None)
    else
      var d := ds[0];
      if d.sizeBytes < 0 || offset + d.sizeBytes > |bytes| then None
      else
        var artifact := bytes[offset..offset + d.sizeBytes];
        if sha(artifact) != d.sha256 then None
        else
          match Cut(bytes, offset + d.sizeBytes, ds[1..], sha)
          case None => None
          case Some(rest) => Some(map[d.role := artifact] + rest)
  }

  /** `decodeArchive`. */
  function Decode(bytes: seq<byte>, parse: string -> Option<Json>, sha: seq<byte> -> string): Option<(Envelope, Artifacts)>
  {
    if |bytes| < 14 || bytes[..10] != MAGIC then None
    else
      var length := ReadUInt32(bytes[10..14]);
      if length == 0 || length > MAX_ENVELOPE_BYTES || 14 + length > |bytes| then None
      else
        match ReadEnvelope(bytes[14..14 + length], parse)
        case None => None
        case Some(envelope) =>
          match Cut(bytes, 14 + length, envelope.manifest.artifacts, sha)
          case None => None
          case Some(artifacts) => Some((envelope, artifacts))
  }

  /** The loop of `decodeArchive`: an offset that advances over the descriptors and a map that fills. */
  method CutArtifacts(bytes: seq<byte>, start: nat, ds: seq<Descriptor>, sha: seq<byte> -> string) returns (r: Option<Artifacts>)
    ensures r == Cut(bytes, start, ds, sha)
  {
    var offset: nat := start;
    var artifactBytes: Artifacts := map[];
    var i := 0;
    assert ds[0..] == ds;
    JoinedNone(Cut(bytes, start, ds, sha));
    while i < |ds|
      invariant 0 <= i <= |ds|
      invariant Joined(artifactBytes, Cut(bytes, offset, ds[i..], sha)) == Cut(bytes, start, ds, sha)
    {
      assert ds[i..][0] == ds[i] && ds[i..][1..] == ds[i + 1..];
      if ds[i].sizeBytes < 0 || offset + ds[i].sizeBytes > |bytes| { return None; }
      var artifact := bytes[offset..offset + ds[i].sizeBytes];
      if sha(artifact) != ds[i].sha256 { return None; }
      JoinedMore(artifactBytes, ds[i].role, artifact, Cut(bytes, offset + ds[i].sizeBytes, ds[i + 1..], sha));
      artifactBytes := artifactBytes[ds[i].role := artifact];
      offset := offset + ds[i].sizeBytes;
      i := i + 1;
    }
    assert ds[i..] == [];
    if offset != |bytes| { return None; }
    assert artifactBytes + map[] == artifactBytes;
    r := Some(artifactBytes);
  }

  /** `decodeArchive` as it runs. */
  method DecodeArchive(bytes: seq<byte>, parse: string -> Option<Json>, sha: seq<byte> -> string) returns (r: Option<(Envelope, Artifacts)>)
    ensures r == Decode(bytes, parse, sha)
  {
    hide ParseEnvelope, ParseCanonicalJson, Cut;
    if |bytes| < 14 || bytes[..10] != MAGIC { return None; }
    var length := ReadUInt32(bytes[10..14]);
    if length == 0 || length > MAX_ENVELOPE_BYTES || 14 + length > |bytes| { return None; }
    var value := ParseCanonicalJson(bytes[14..14 + length], parse);
    if value.None? { return None; }
    var envelope := ParseEnvelope(value.value);
    if envelope.None? { return None; }
    var artifacts := CutArtifacts(bytes, 14 + length, envelope.value.manifest.artifacts, sha);
    if artifacts.None? { return None; }
    r := Some((envelope.value, artifacts.value));
  }

  function Joined(before: Artifacts, rest: Option<Artifacts>): Option<Artifacts>
  {
    if rest.None? then None else Some(before + rest.value)
  }

  lemma JoinedMore(before: Artifacts, role: string, artifact: seq<byte>, rest: Option<Artifacts>)
    ensures rest.Some? ==> Joined(before, Some(map[role := artifact] + rest.value)) == Joined(before[role := artifact], rest)
  {
    if rest.Some? { assert before + (map[role := artifact] + rest.value) == before[role := artifact] + rest.value; }
  }

  lemma JoinedNone(rest: Option<Artifacts>)
    ensures Joined(map[], rest) == rest
  {
    if rest.Some? { assert map[] + rest.value == rest.value; }
  }
}
