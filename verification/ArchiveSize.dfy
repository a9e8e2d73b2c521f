/** Every valid envelope is short ASCII text: it fits the 64 KiB the decoder reads, although the encoder
    would allow 128 KiB. */
module ArchiveSize {
  import opened Hex
  import opened CanonicalJson
  import opened CanonicalJsonProofs
  import opened JsonRecords
  import opened Archive
  import opened ArchiveRecords

  const ENVELOPE_TEXT_BOUND: nat := 48022

  // ---------------------------------------------------------------- plain text

  /** Printed as it is inside quotes. */
  predicate PlainChar(c: char) { ' ' <= c < 128 as char && c != '"' && c != '\\' }

  predicate Plain(s: string, bound: nat) { |s| <= bound && forall c :: c in s ==> PlainChar(c) }

  ghost predicate PlainKeys(keys: seq<string>, bound: nat) { forall i :: 0 <= i < |keys| ==> Plain(keys[i], bound) }

  lemma {:induction false} PlainEscapes(s: string, bound: nat)
    requires Plain(s, bound)
    ensures EscapeAll(s) == s
  {
    if s == [] {
    } else {
      PlainEscapes(s[1..], bound);
      assert PlainChar(s[0]) && Escape(s[0]) == [s[0]];
      assert s == [s[0]] + s[1..];
    }
  }

  lemma PlainQuotes(s: string, bound: nat)
    requires Plain(s, bound)
    ensures Ascii(Quote(s)) && |Quote(s)| <= bound + 2
  {
    PlainEscapes(s, bound);
    forall i | 0 <= i < |s| ensures s[i] < 128 as char { assert s[i] in s; }
  }

  function Power10(k: nat): nat { if k == 0 then 1 else 10 * Power10(k - 1) }

  lemma Powers()
    ensures Power10(1) == 10 && Power10(16) == 10000000000000000
  {
    assert Power10(2) == 100;
    assert Power10(4) == 10000;
    assert Power10(6) == 1000000;
    assert Power10(8) == 100000000;
    assert Power10(10) == 10000000000;
    assert Power10(12) == 1000000000000;
    assert Power10(14) == 100000000000000;
  }

  lemma {:induction false} DigitsShort(n: nat, k: nat)
    requires 1 <= k && n < Power10(k)
    ensures Ascii(Digits(n)) && |Digits(n)| <= k
  {
    if n >= 10 {
      Powers();
      DigitsShort(n / 10, k - 1);
    }
  }

  // ---------------------------------------------------------------- printed values

  /** The value prints, in ASCII, within the bound. */
  ghost predicate Compact(v: Json, depth: nat, bound: nat)
  {
    Serializable(v, depth, MAX_CANONICAL_DEPTH) && Ascii(Print(v)) && |Print(v)| <= bound
  }

  ghost predicate AllCompact(vs: seq<Json>, depth: nat, bound: nat) { forall i :: 0 <= i < |vs| ==> Compact(vs[i], depth, bound) }

  lemma CompactString(s: string, depth: nat, bound: nat)
    requires Plain(s, bound) && depth <= MAX_CANONICAL_DEPTH
    ensures Compact(JStr(s), depth, bound + 2)
  {
    PlainQuotes(s, bound);
  }

  lemma CompactNumber(n: int, depth: nat)
    requires 0 <= n <= MAX_SAFE_INTEGER && depth <= MAX_CANONICAL_DEPTH
    ensures Compact(JNum(n), depth, 16)
  {
    Powers();
    DigitsShort(n, 16);
  }

  lemma CompactWider(v: Json, depth: nat, bound: nat, wider: nat)
    requires Compact(v, depth, bound) && bound <= wider
    ensures Compact(v, depth, wider)
  {}

  ghost predicate ShortPieces(pieces: seq<string>, bound: nat) { forall i :: 0 <= i < |pieces| ==> Ascii(pieces[i]) && |pieces[i]| <= bound }

  lemma {:induction false} JoinShort(pieces: seq<string>, bound: nat)
    requires ShortPieces(pieces, bound)
    ensures Ascii(Join(pieces)) && |Join(pieces)| <= |pieces| * (bound + 1)
  {
    if |pieces| > 1 { JoinShort(pieces[1..], bound); }
  }

  lemma CompactArray(items: seq<Json>, depth: nat, bound: nat)
    requires AllCompact(items, depth + 1, bound) && depth < MAX_CANONICAL_DEPTH
    ensures Compact(JArr(items), depth, 2 + |items| * (bound + 1))
  {
    PrintArr(items);
    hide Print, Ascii;
    JoinShort(Pieces(items), bound);
    AsciiWraps('[', Join(Pieces(items)), ']');
  }

  lemma AsciiWraps(open: char, text: string, close: char)
    requires Ascii(text) && open < 128 as char && close < 128 as char
    ensures Ascii([open] + text + [close])
  {}

  lemma FieldShort(f: Field, depth: nat, keyBound: nat, bound: nat)
    requires Plain(f.key, keyBound) && Compact(f.value, depth, bound)
    ensures Ascii(FieldText(f)) && |FieldText(f)| <= keyBound + 3 + bound
  {
    PlainQuotes(f.key, keyBound);
  }

  lemma CompactObject(keys: seq<string>, values: seq<Json>, depth: nat, keyBound: nat, bound: nat)
    requires |keys| == |values| && PlainKeys(keys, keyBound) && AllCompact(values, depth + 1, bound) && depth < MAX_CANONICAL_DEPTH
    ensures Compact(JObj(Zip(keys, values)), depth, 2 + |keys| * (keyBound + bound + 4))
  {
    var fields := Zip(keys, values);
    PrintObj(fields);
    var pieces := FieldPieces(Sorted(fields));
    forall i | 0 <= i < |pieces| ensures Ascii(pieces[i]) && |pieces[i]| <= keyBound + 3 + bound {
      assert Sorted(fields)[i] in fields;
      FieldShort(Sorted(fields)[i], depth + 1, keyBound, bound);
    }
    hide Print, Ascii, Compact, Plain, Sorted;
    JoinShort(pieces, keyBound + 3 + bound);
    ObjectCompact(keys, values, depth, bound, Join(pieces));
  }

  lemma ObjectCompact(keys: seq<string>, values: seq<Json>, depth: nat, bound: nat, text: string)
    requires |keys| == |values| && AllCompact(values, depth + 1, bound) && depth < MAX_CANONICAL_DEPTH && Ascii(text)
    requires Print(JObj(Zip(keys, values))) == ['{'] + text + ['}']
    ensures Compact(JObj(Zip(keys, values)), depth, 2 + |text|)
  {
    hide Print;
    AsciiWraps('{', text, '}');
    var v := JObj(Zip(keys, values));
    assert Serializable(v, depth, MAX_CANONICAL_DEPTH) by {
      forall i | 0 <= i < |v.fields| ensures Serializable(v.fields[i].value, depth + 1, MAX_CANONICAL_DEPTH) {
        assert v.fields[i].value == values[i];
      }
    }
  }

  // ---------------------------------------------------------------- the names

  lemma PlainDescriptorKeys()
    ensures PlainKeys(DESCRIPTOR_KEYS, 9) && PlainKeys(ENVELOPE_KEYS, 9)
  {}

  lemma PlainEventStateKeys()
    ensures PlainKeys(EVENT_STATE_KEYS, 26) && PlainKeys(SESSION_KEYS, 26)
  {}

  lemma PlainSignerKeys()
    ensures PlainKeys(SIGNER_KEYS, 26)
  {}

  lemma PlainCheckpointKeys()
    ensures PlainKeys(CHECKPOINT_KEYS, 26)
  {}

  lemma PlainReleaseKeys()
    ensures PlainKeys(RELEASE_KEYS, 26)
  {}

  lemma PlainManifestStart()
    ensures PlainKeys(MANIFEST_KEYS[..6], 26)
  {}

  lemma PlainManifestMiddle()
    ensures PlainKeys(MANIFEST_KEYS[6..11], 26)
  {}

  lemma PlainManifestEnd()
    ensures PlainKeys(MANIFEST_KEYS[11..], 26)
  {}

  lemma PlainManifestKeys()
    ensures PlainKeys(MANIFEST_KEYS, 26)
  {
    PlainManifestStart();
    PlainManifestMiddle();
    PlainManifestEnd();
    hide Plain;
    PlainParts(MANIFEST_KEYS, 6, 11, 26);
  }

  lemma PlainParts(keys: seq<string>, i: nat, j: nat, bound: nat)
    requires i <= j <= |keys| && PlainKeys(keys[..i], bound) && PlainKeys(keys[i..j], bound) && PlainKeys(keys[j..], bound)
    ensures PlainKeys(keys, bound)
  {
    hide Plain;
    forall k | 0 <= k < |keys| ensures Plain(keys[k], bound) {
      if k < i { assert keys[k] == keys[..i][k]; } else if k < j { assert keys[k] == keys[i..j][k - i]; } else { assert keys[k] == keys[j..][k - j]; }
    }
  }

  const MEDIA_TYPES: seq<string> := ["application/json", "application/x-ndjson"]
  const PATHS: seq<string> := [
    "event-state-evidence.v1.json", "checkpoint-journal.v1.jsonl", "checkpoint-head.v1.json", "public-keys.v1.json",
    "config-schema-hashes.v1.json", "recovery-evidence.v1.json", "release-evidence.v1.json"]
  const ROLES: seq<string> := [
    "event-state-evidence", "checkpoint-journal", "checkpoint-head", "public-keys", "config-schema-hashes", "recovery-evidence",
    "release-evidence"]
  const FIXED: seq<string> := [
    "rsi.sanitized-state-evidence-component", "observer-sanitized-state-evidence", "evidence-only", "sanitized-event-archive",
    "signed-release-bundle", "Ed25519"]
  const CHOICES: seq<string> := [
    "canary", "production-observer", "month-end-365d", "session-30d", "accepted", "acceptance-ready", "locally-verified"]

  lemma PlainPathsStart()
    ensures PlainKeys(PATHS[..2], 64)
  {}

  lemma PlainPathsMiddle()
    ensures PlainKeys(PATHS[2..5], 64)
  {}

  lemma PlainPathsEnd()
    ensures PlainKeys(PATHS[5..], 64)
  {}

  lemma PlainPaths()
    ensures PlainKeys(PATHS, 64)
  {
    PlainPathsStart();
    PlainPathsMiddle();
    PlainPathsEnd();
    hide Plain;
    PlainParts(PATHS, 2, 5, 64);
  }

  lemma PlainRolesStart()
    ensures PlainKeys(ROLES[..3], 64)
  {}

  lemma PlainRolesMiddle()
    ensures PlainKeys(ROLES[3..5], 64)
  {}

  lemma PlainRolesEnd()
    ensures PlainKeys(ROLES[5..], 64)
  {}

  lemma PlainRoles()
    ensures PlainKeys(ROLES, 64)
  {
    PlainRolesStart();
    PlainRolesMiddle();
    PlainRolesEnd();
    hide Plain;
    PlainParts(ROLES, 3, 5, 64);
  }

  lemma PlainFixedStart()
    ensures PlainKeys(FIXED[..1], 64)
  {}

  lemma PlainFixedMiddle()
    ensures PlainKeys(FIXED[1..2], 64)
  {}

  lemma PlainFixedEnd()
    ensures PlainKeys(FIXED[2..], 64)
  {}

  lemma PlainFixed()
    ensures PlainKeys(FIXED, 64)
  {
    PlainFixedStart();
    PlainFixedMiddle();
    PlainFixedEnd();
    hide Plain;
    PlainParts(FIXED, 1, 2, 64);
  }

  lemma PlainMediaTypes()
    ensures PlainKeys(MEDIA_TYPES, 64)
  {}

  lemma PlainChoices()
    ensures PlainKeys(CHOICES, 64)
  {}

  // ---------------------------------------------------------------- valid fields

  lemma PlainHex(s: string, length: nat)
    requires HexOk(s, length)
    ensures Plain(s, length)
  {}

  lemma PlainUuid(s: string)
    requires UuidOk(s)
    ensures Plain(s, 64)
  {
    forall c | c in s ensures PlainChar(c) { var i :| 0 <= i < |s| && s[i] == c; }
  }

  lemma PlainTimestamp(s: string)
    requires TimestampOk(s)
    ensures Plain(s, 64)
  {
    forall c | c in s ensures PlainChar(c) {
      var i :| 0 <= i < |s| && s[i] == c;
      assert i == 23 || i in {4, 7, 10, 13, 16, 19} || Digit(s[i]);
    }
  }

  lemma PlainIdentifier(s: string)
    requires IdentifierOk(s)
    ensures Plain(s, 128)
  {}

  lemma PlainSemver(s: string)
    requires SemverOk(s)
    ensures Plain(s, 128)
  {}

  lemma PlainSignature(s: string)
    requires SignatureOk(s)
    ensures Plain(s, 86)
  {}

  lemma PlainWider(s: string, bound: nat, wider: nat)
    requires Plain(s, bound) && bound <= wider
    ensures Plain(s, wider)
  {}

  lemma PlainName(s: string, names: seq<string>, i: nat)
    requires PlainKeys(names, 64) && i < |names| && s == names[i]
    ensures Plain(s, 64)
  {}

  // ---------------------------------------------------------------- records

  /** A string at most 128 long, or a natural number: what the flat records hold. */
  ghost predicate PlainLeaf(v: Json, bound: nat) {
    (v.JStr? && Plain(v.s, bound)) || (v.JNum? && 0 <= v.n <= MAX_SAFE_INTEGER)
  }

  lemma CompactLeaf(v: Json, depth: nat, bound: nat)
    requires PlainLeaf(v, bound) && 14 <= bound && depth <= MAX_CANONICAL_DEPTH
    ensures Compact(v, depth, bound + 2)
  {
    hide Compact, Plain;
    if v.JStr? {
      CompactString(v.s, depth, bound);
    } else {
      CompactNumber(v.n, depth);
      CompactWider(v, depth, 16, bound + 2);
    }
  }

  lemma CompactFlat(keys: seq<string>, values: seq<Json>, depth: nat, keyBound: nat, bound: nat)
    requires |keys| == |values| && PlainKeys(keys, keyBound) && (forall i :: 0 <= i < |values| ==> PlainLeaf(values[i], bound))
    requires 14 <= bound && depth < MAX_CANONICAL_DEPTH
    ensures Compact(JObj(Zip(keys, values)), depth, 2 + |keys| * (keyBound + bound + 6))
  {
    hide Compact, PlainKeys, PlainLeaf, Zip;
    forall i | 0 <= i < |values| ensures Compact(values[i], depth + 1, bound + 2) { CompactLeaf(values[i], depth + 1, bound); }
    CompactObject(keys, values, depth, keyBound, bound + 2);
  }

  lemma DescriptorCompact(d: Descriptor, i: nat)
    requires i < |DEFINITIONS| && DescriptorOk(d, DEFINITIONS[i])
    ensures Compact(DescriptorJson(d), 3, 397)
  {
    PlainMediaTypes();
    PlainPaths();
    PlainRoles();
    PlainDescriptorKeys();
    hide Compact, Plain, PlainKeys, Zip, HexOk;
    PlainName(d.mediaType, MEDIA_TYPES, if i == 1 then 1 else 0);
    PlainName(d.path, PATHS, i);
    PlainName(d.role, ROLES, i);
    PlainHex(d.sha256, 64);
    CompactFlat(DESCRIPTOR_KEYS, DescriptorValues(d), 3, 9, 64);
  }

  lemma PlainDigest(s: string)
    requires HashOk(s)
    ensures Plain(s, 128)
  {
    PlainHex(s, 64);
    PlainWider(s, 64, 128);
  }

  lemma CheckpointCompact(c: Checkpoint)
    requires CheckpointOk(c)
    ensures Compact(CheckpointJson(c), 2, 2788)
  {
    PlainCheckpointKeys();
    hide Compact, Plain, PlainKeys, Zip, HexOk, IdentifierOk;
    PlainDigest(c.checkpointHash);
    PlainDigest(c.fingerprint);
    PlainDigest(c.storeHeadHash);
    PlainIdentifier(c.keyId);
    PlainIdentifier(c.storeId);
    CompactFlat(CHECKPOINT_KEYS, CheckpointValues(c), 2, 26, 128);
    CompactWider(CheckpointJson(c), 2, 1122, 2788);
  }

  lemma EventStateCompact(e: EventState)
    requires EventStateOk(e)
    ensures Compact(EventStateJson(e), 2, 2788)
  {
    PlainEventStateKeys();
    hide Compact, Plain, PlainKeys, Zip, HexOk, IdentifierOk;
    PlainDigest(e.headHash);
    PlainIdentifier(e.storeId);
    CompactFlat(EVENT_STATE_KEYS, EventStateValues(e), 2, 26, 128);
    CompactWider(EventStateJson(e), 2, 642, 2788);
  }

  lemma ReleaseCompact(r: Release)
    requires ReleaseOk(r)
    ensures Compact(ReleaseJson(r), 2, 2788)
  {
    PlainReleaseKeys();
    hide Compact, Plain, PlainKeys, Zip, HexOk, IdentifierOk, SemverOk;
    PlainHex(r.commitSha, 40);
    PlainWider(r.commitSha, 40, 128);
    PlainDigest(r.configSetSha256);
    PlainDigest(r.fingerprint);
    PlainDigest(r.manifestSha256);
    PlainIdentifier(r.keyId);
    PlainSemver(r.version);
    CompactFlat(RELEASE_KEYS, ReleaseValues(r), 2, 26, 128);
    CompactWider(ReleaseJson(r), 2, 962, 2788);
  }

  lemma SessionCompact(s: Session)
    requires SessionOk(s)
    ensures Compact(SessionJson(s), 2, 2788)
  {
    PlainEventStateKeys();
    PlainChoices();
    hide Compact, Plain, PlainKeys, Zip, UuidOk, TimestampOk;
    PlainUuid(s.id);
    PlainTimestamp(s.stateAt);
    PlainName(s.state, CHOICES, if s.state == CHOICES[4] then 4 else if s.state == CHOICES[5] then 5 else 6);
    CompactFlat(SESSION_KEYS, SessionValues(s), 2, 26, 64);
    CompactWider(SessionJson(s), 2, 290, 2788);
  }

  lemma SignerCompact(s: Signer)
    requires SignerOk(s)
    ensures Compact(SignerJson(s), 2, 2788)
  {
    PlainSignerKeys();
    PlainFixed();
    hide Compact, Plain, PlainKeys, Zip, HexOk, IdentifierOk;
    PlainName(FIXED[5], FIXED, 5);
    PlainWider(FIXED[5], 64, 128);
    PlainDigest(s.fingerprint);
    PlainIdentifier(s.keyId);
    CompactFlat(SIGNER_KEYS, SignerValues(s), 2, 26, 128);
    CompactWider(SignerJson(s), 2, 482, 2788);
  }

  lemma CompanionsCompact()
    ensures Compact(COMPANIONS, 2, 2788)
  {
    PlainFixed();
    hide Compact, Plain, PlainKeys;
    PlainName(FIXED[3], FIXED, 3);
    PlainName(FIXED[4], FIXED, 4);
    CompactString(FIXED[3], 3, 64);
    CompactString(FIXED[4], 3, 64);
    CompactArray(COMPANIONS.items, 2, 66);
    CompactWider(COMPANIONS, 2, 136, 2788);
  }

  lemma ArtifactsCompact(ds: seq<Descriptor>)
    requires ArtifactsOk(ds)
    ensures Compact(DescriptorsJson(ds), 2, 2788)
  {
    hide Compact, DescriptorOk, DescriptorJson;
    forall i | 0 <= i < |ds| ensures Compact(DescriptorJson(ds[i]), 3, 397) { DescriptorCompact(ds[i], i); }
    CompactArray(DescriptorsJson(ds).items, 2, 397);
  }

  lemma FixedCompact()
    ensures forall i :: 0 <= i < 3 ==> Compact(JStr(FIXED[i]), 2, 2788)
  {
    PlainFixed();
    hide Compact, Plain, PlainKeys;
    forall i | 0 <= i < 3 ensures Compact(JStr(FIXED[i]), 2, 2788) { PlainName(FIXED[i], FIXED, i); ShortString(FIXED[i]); }
  }

  lemma ShortString(s: string)
    requires Plain(s, 64)
    ensures Compact(JStr(s), 2, 2788)
  {
    CompactString(s, 2, 64);
    hide Compact;
    CompactWider(JStr(s), 2, 66, 2788);
  }

  lemma ShortNumber(n: int)
    requires 0 <= n <= MAX_SAFE_INTEGER
    ensures Compact(JNum(n), 2, 2788)
  {
    CompactNumber(n, 2);
    hide Compact;
    CompactWider(JNum(n), 2, 16, 2788);
  }

  lemma LeavesCompact(m: Manifest)
    requires ManifestOk(m)
    ensures Compact(JNum(7), 2, 2788) && Compact(JStr(m.backupId), 2, 2788) && Compact(JStr(m.createdAt), 2, 2788)
    ensures Compact(JStr(m.profile), 2, 2788) && Compact(JStr(m.retention), 2, 2788) && Compact(JNum(m.totalArtifactBytes), 2, 2788)
    ensures Compact(JNum(2), 2, 2788)
  {
    PlainChoices();
    hide Compact, Plain, PlainKeys, UuidOk, TimestampOk, CheckpointOk, EventStateOk, ReleaseOk, SessionOk, SignerOk, ArtifactsOk;
    PlainUuid(m.backupId);
    PlainTimestamp(m.createdAt);
    PlainName(m.profile, CHOICES, if m.profile == CHOICES[0] then 0 else 1);
    PlainName(m.retention, CHOICES, if m.retention == CHOICES[2] then 2 else 3);
    ShortString(m.backupId);
    ShortString(m.createdAt);
    ShortString(m.profile);
    ShortString(m.retention);
    ShortNumber(7);
    ShortNumber(2);
    ShortNumber(m.totalArtifactBytes);
  }

  lemma ManifestCompact(m: Manifest)
    requires ManifestOk(m)
    ensures Compact(ManifestJson(m), 1, 47908)
  {
    hide Compact, Zip, PlainKeys, ManifestOk, DescriptorsJson, CheckpointOk, EventStateOk, ReleaseOk, SessionOk, SignerOk, ArtifactsOk;
    ManifestParts(m);
    LeavesCompact(m);
    FixedCompact();
    assert Compact(JStr(FIXED[0]), 2, 2788) && Compact(JStr(FIXED[1]), 2, 2788) && Compact(JStr(FIXED[2]), 2, 2788);
    ArtifactsCompact(m.artifacts);
    CheckpointCompact(m.checkpoint);
    EventStateCompact(m.eventState);
    ReleaseCompact(m.release);
    CompanionsCompact();
    SessionCompact(m.session);
    SignerCompact(m.signer);
    PlainManifestKeys();
    assert AllCompact(ManifestValues(m), 2, 2788);
    CompactObject(MANIFEST_KEYS, ManifestValues(m), 1, 26, 2788);
  }

  /** The two fields of an envelope, in whichever order they sort. */
  lemma PairJoined(a: Field, b: Field)
    requires a != b
    ensures |Join(FieldPieces(Sorted([a, b])))| == |FieldText(a)| + |FieldText(b)| + 1
    ensures Ascii(FieldText(a)) && Ascii(FieldText(b)) ==> Ascii(Join(FieldPieces(Sorted([a, b]))))
  {
    hide Sorted, FieldText;
    var s := Sorted([a, b]);
    assert a in s && b in s && (s[0] in [a, b]) && s[1] in [a, b];
    var pieces := FieldPieces(s);
    assert Join(pieces) == pieces[0] + [','] + pieces[1] by { assert pieces[1..] == [pieces[1]]; }
  }

  lemma EnvelopeParts(e: Envelope)
    requires EnvelopeOk(e)
    ensures Compact(ManifestJson(e.manifest), 1, 47908) && Compact(JStr(e.signature), 1, 88)
  {
    hide ManifestOk, SignatureOk, ManifestJson, Compact, Plain;
    ManifestCompact(e.manifest);
    PlainSignature(e.signature);
    CompactString(e.signature, 1, 86);
  }

  lemma EnvelopeFields(e: Envelope)
    ensures Zip(ENVELOPE_KEYS, [ManifestJson(e.manifest), JStr(e.signature)])
            == [Field(ENVELOPE_KEYS[0], ManifestJson(e.manifest)), Field(ENVELOPE_KEYS[1], JStr(e.signature))]
  {
    hide ManifestJson;
  }

  lemma EnvelopeCompact(e: Envelope)
    requires EnvelopeOk(e)
    ensures Compact(EnvelopeJson(e), 0, ENVELOPE_TEXT_BOUND)
  {
    var a, b := Field(ENVELOPE_KEYS[0], ManifestJson(e.manifest)), Field(ENVELOPE_KEYS[1], JStr(e.signature));
    PlainDescriptorKeys();
    EnvelopeParts(e);
    EnvelopeFields(e);
    EnvelopeSerializable([a.value, b.value]);
    PrintObj([a, b]);
    hide ManifestJson, Print, Sorted, Plain, FieldText, Zip, Serializable, EnvelopeOk;
    NameText(a, 8, 47908);
    NameText(b, 9, 88);
    PairJoined(a, b);
    AsciiWraps('{', Join(FieldPieces(Sorted([a, b]))), '}');
  }

  lemma NameText(f: Field, length: nat, bound: nat)
    requires |f.key| == length && Plain(f.key, 9) && Compact(f.value, 1, bound)
    ensures Ascii(FieldText(f)) && |FieldText(f)| <= length + 3 + bound
  {
    PlainExact(f.key, length);
    FieldShort(f, 1, length, bound);
  }

  lemma PlainExact(s: string, length: nat)
    requires |s| == length && Plain(s, 9)
    ensures Plain(s, length)
  {}

  lemma EnvelopeSerializable(values: seq<Json>)
    requires |values| == 2 && Compact(values[0], 1, 47908) && Compact(values[1], 1, 88)
    ensures Serializable(JObj(Zip(ENVELOPE_KEYS, values)), 0, MAX_CANONICAL_DEPTH)
  {
    hide Print;
    var fields := Zip(ENVELOPE_KEYS, values);
    forall i | 0 <= i < |fields| ensures Serializable(fields[i].value, 1, MAX_CANONICAL_DEPTH) {
      assert fields[i].value == values[i] && (i == 0 || i == 1);
    }
  }
}
