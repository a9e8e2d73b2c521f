/** Decoding undoes encoding, and an accepted archive is exactly the re-encoding of what it decodes to,
    unless its envelope starts with a byte-order mark. */
module ArchiveProofs {
  import opened Hex
  import opened Order
  import opened Wrappers
  import opened CanonicalJson
  import opened CanonicalJsonProofs
  import opened JsonReader
  import opened JsonReaderProofs
  import opened JsonRecords
  import opened Archive
  import opened ArchiveRecords
  import opened ArchiveSize

  /** The reader of `JsonReader` is a parser as decoding needs one. */
  lemma ReaderIsJsonParser()
    ensures IsJsonParser(Read)
  {
    ReaderParses();
    hide Read;
  }

  // ---------------------------------------------------------------- the envelope's bytes

  lemma EnvelopePrints(e: Envelope)
    requires EnvelopeOk(e)
    ensures Canonical(EnvelopeJson(e)).Some?
    ensures Ascii(Canonical(EnvelopeJson(e)).value) && 0 < |Canonical(EnvelopeJson(e)).value| <= ENVELOPE_TEXT_BOUND
  {
    EnvelopeCompact(e);
    hide Serializable, EnvelopeOk, Zip;
    ObjectNotEmpty(EnvelopeJson(e));
  }

  lemma ObjectNotEmpty(v: Json)
    requires v.JObj?
    ensures |Print(v)| > 0
  {
    PrintObj(v.fields);
  }

  function EnvelopeBytes(e: Envelope): (r: seq<byte>)
    requires EnvelopeOk(e)
    ensures 0 < |r| <= ENVELOPE_TEXT_BOUND
  {
    EnvelopePrints(e);
    AsciiBytes(Canonical(EnvelopeJson(e)).value)
  }

  /** ASCII text is read from its own bytes, with or without a byte-order mark in front, and from no others. */
  lemma TextRead(bytes: seq<byte>, text: string)
    requires Ascii(text)
    ensures DecodeText(bytes) == Some(text) <==> bytes == AsciiBytes(text) || bytes == BYTE_ORDER_MARK + AsciiBytes(text)
  {
    var plain := AsciiBytes(text);
    var marked := BYTE_ORDER_MARK + plain;
    AsciiRead(text);
    assert plain != [] ==> plain[0] < 128;
    assert !(BYTE_ORDER_MARK <= plain);
    assert marked[3..] == plain;
    if DecodeText(bytes) == Some(text) {
      var body := if BYTE_ORDER_MARK <= bytes then bytes[3..] else bytes;
      BytesRead(body);
      assert body == plain;
      if BYTE_ORDER_MARK <= bytes { assert bytes == BYTE_ORDER_MARK + bytes[3..]; }
    }
  }

  lemma AsciiRead(text: string)
    requires Ascii(text)
    ensures AsciiOnly(AsciiBytes(text))
    ensures AsciiText(AsciiBytes(text)) == text
  {}

  lemma BytesRead(body: seq<byte>)
    requires AsciiOnly(body)
    ensures Ascii(AsciiText(body)) && AsciiBytes(AsciiText(body)) == body
  {}

  /** What the JSON parser is trusted with. */
  lemma ParserFinds(parse: string -> Option<Json>, v: Json)
    requires IsJsonParser(parse) && Proper(v) && Canonical(v).Some?
    ensures parse(Canonical(v).value).Some? && Proper(parse(Canonical(v).value).value)
    ensures Canonical(parse(Canonical(v).value).value) == Canonical(v) && SameValue(v, parse(Canonical(v).value).value)
  {
    hide Proper, Canonical, SameValue;
    CanonicalInjective(v, parse(Canonical(v).value).value);
  }

  lemma ParserProper(parse: string -> Option<Json>, text: string)
    requires IsJsonParser(parse) && parse(text).Some?
    ensures Proper(parse(text).value)
  {}

  /** An envelope is read exactly from its canonical bytes, with or without a byte-order mark. */
  lemma EnvelopeBytesRead(bytes: seq<byte>, parse: string -> Option<Json>, e: Envelope)
    requires IsJsonParser(parse)
    ensures ReadEnvelope(bytes, parse) == Some(e)
            <==> EnvelopeOk(e) && (bytes == EnvelopeBytes(e) || bytes == BYTE_ORDER_MARK + EnvelopeBytes(e))
  {
    hide IsJsonParser, Proper, Canonical, SameValue, DecodeText, EnvelopeOk, EnvelopeJson, ParseEnvelope, Ascii, AsciiBytes;
    if ReadEnvelope(bytes, parse) == Some(e) {
      var text := DecodeText(bytes).value;
      var v := parse(text).value;
      ParserProper(parse, text);
      EnvelopeRead(v, e);
      EnvelopeProper(e);
      CanonicalInjective(EnvelopeJson(e), v);
      EnvelopePrints(e);
      TextRead(bytes, text);
    }
    if EnvelopeOk(e) && (bytes == EnvelopeBytes(e) || bytes == BYTE_ORDER_MARK + EnvelopeBytes(e)) {
      EnvelopePrints(e);
      EnvelopeProper(e);
      var text := Canonical(EnvelopeJson(e)).value;
      TextRead(bytes, text);
      ParserFinds(parse, EnvelopeJson(e));
      EnvelopeRead(parse(text).value, e);
    }
  }

  // ---------------------------------------------------------------- the artifacts

  ghost predicate DistinctRoles(ds: seq<Descriptor>) { forall i, j :: 0 <= i < j < |ds| ==> ds[i].role != ds[j].role }

  ghost function RoleSet(ds: seq<Descriptor>): set<string> { set i | 0 <= i < |ds| :: ds[i].role }

  function ByRole(ds: seq<Descriptor>, artifacts: Artifacts): (r: seq<seq<byte>>)
    ensures |r| == |ds|
  {
    seq(|ds|, i requires 0 <= i < |ds| => if ds[i].role in artifacts then artifacts[ds[i].role] else [])
  }

  /** One artifact for every descriptor, of the stated size and digest, and no others. */
  ghost predicate Holds(ds: seq<Descriptor>, artifacts: Artifacts, sha: seq<byte> -> string)
  {
    && artifacts.Keys == RoleSet(ds)
    && forall i :: 0 <= i < |ds| ==> ds[i].role in artifacts && |artifacts[ds[i].role]| == ds[i].sizeBytes && sha(artifacts[ds[i].role]) == ds[i].sha256
  }

  lemma FirstRoleAlone(ds: seq<Descriptor>)
    requires ds != [] && DistinctRoles(ds)
    ensures ds[0].role !in RoleSet(ds[1..])
  {
    forall i | 0 <= i < |ds[1..]| ensures ds[1..][i].role != ds[0].role { assert ds[1..][i] == ds[i + 1]; }
  }

  lemma HoldsMore(ds: seq<Descriptor>, artifact: seq<byte>, rest: Artifacts, sha: seq<byte> -> string)
    requires ds != [] && DistinctRoles(ds) && Holds(ds[1..], rest, sha) && |artifact| == ds[0].sizeBytes && sha(artifact) == ds[0].sha256
    ensures Holds(ds, map[ds[0].role := artifact] + rest, sha)
    ensures ByRole(ds, map[ds[0].role := artifact] + rest) == [artifact] + ByRole(ds[1..], rest)
  {
    var artifacts := map[ds[0].role := artifact] + rest;
    FirstRoleAlone(ds);
    forall i | 0 < i < |ds|
      ensures ds[i].role in rest && ds[i].role in artifacts && artifacts[ds[i].role] == rest[ds[i].role]
      ensures |artifacts[ds[i].role]| == ds[i].sizeBytes && sha(artifacts[ds[i].role]) == ds[i].sha256
    {
      assert ds[1..][i - 1] == ds[i];
    }
    RoleSetMore(ds);
    assert artifacts.Keys == {ds[0].role} + rest.Keys;
  }

  lemma RoleSetMore(ds: seq<Descriptor>)
    requires ds != []
    ensures RoleSet(ds) == {ds[0].role} + RoleSet(ds[1..])
  {
    forall r | r in RoleSet(ds) ensures r in {ds[0].role} + RoleSet(ds[1..]) {
      var i :| 0 <= i < |ds| && ds[i].role == r;
      if i > 0 { assert ds[1..][i - 1].role == r; }
    }
    forall r | r in RoleSet(ds[1..]) ensures r in RoleSet(ds) {
      var i :| 0 <= i < |ds[1..]| && ds[1..][i].role == r;
      assert ds[i + 1].role == r;
    }
  }

  lemma HoldsLess(ds: seq<Descriptor>, artifacts: Artifacts, sha: seq<byte> -> string)
    requires ds != [] && DistinctRoles(ds) && Holds(ds, artifacts, sha)
    ensures Holds(ds[1..], artifacts - {ds[0].role}, sha)
    ensures artifacts == map[ds[0].role := artifacts[ds[0].role]] + (artifacts - {ds[0].role})
    ensures ByRole(ds, artifacts) == [artifacts[ds[0].role]] + ByRole(ds[1..], artifacts - {ds[0].role})
  {
    RoleSetMore(ds);
    var rest := artifacts - {ds[0].role};
    FirstRoleAlone(ds);
    assert rest.Keys == RoleSet(ds[1..]);
    forall i | 0 <= i < |ds[1..]|
      ensures ds[1..][i].role in rest && rest[ds[1..][i].role] == artifacts[ds[i + 1].role]
      ensures |rest[ds[1..][i].role]| == ds[1..][i].sizeBytes && sha(rest[ds[1..][i].role]) == ds[1..][i].sha256
    {
      assert ds[1..][i] == ds[i + 1];
    }
  }

  predicate Sized(ds: seq<Descriptor>) { forall i :: 0 <= i < |ds| ==> ds[i].sizeBytes >= 0 }

  lemma {:induction false} CutFinds(bytes: seq<byte>, offset: nat, ds: seq<Descriptor>, sha: seq<byte> -> string, artifacts: Artifacts)
    requires offset <= |bytes| && DistinctRoles(ds) && Sized(ds) && Cut(bytes, offset, ds, sha) == Some(artifacts)
    ensures Holds(ds, artifacts, sha) && bytes[offset..] == Concatenated(ByRole(ds, artifacts))
    decreases |ds|
  {
    hide *;
    if ds == [] {
      CutNone(bytes, offset, ds, sha, artifacts);
    } else {
      LessDistinct(ds);
      var end := offset + ds[0].sizeBytes;
      CutStep(bytes, offset, ds, sha, artifacts);
      var artifact, rest := bytes[offset..end], Cut(bytes, end, ds[1..], sha).value;
      CutFinds(bytes, end, ds[1..], sha, rest);
      HoldsMore(ds, artifact, rest, sha);
      ConcatenatedMore(artifact, ByRole(ds[1..], rest));
      SliceJoin(bytes, offset, end);
    }
  }

  lemma SliceJoin(bytes: seq<byte>, from: nat, to: nat)
    requires from <= to <= |bytes|
    ensures bytes[from..] == bytes[from..to] + bytes[to..]
  {}

  lemma CutStep(bytes: seq<byte>, offset: nat, ds: seq<Descriptor>, sha: seq<byte> -> string, artifacts: Artifacts)
    requires offset <= |bytes| && ds != [] && ds[0].sizeBytes >= 0
    ensures Cut(bytes, offset, ds, sha) == Some(artifacts)
            <==> && offset + ds[0].sizeBytes <= |bytes| && sha(bytes[offset..offset + ds[0].sizeBytes]) == ds[0].sha256
                 && Cut(bytes, offset + ds[0].sizeBytes, ds[1..], sha).Some?
                 && artifacts == map[ds[0].role := bytes[offset..offset + ds[0].sizeBytes]] + Cut(bytes, offset + ds[0].sizeBytes, ds[1..], sha).value
  {}

  lemma {:induction false} CutReaches(bytes: seq<byte>, offset: nat, ds: seq<Descriptor>, sha: seq<byte> -> string, artifacts: Artifacts)
    requires offset <= |bytes| && DistinctRoles(ds) && Sized(ds)
    requires Holds(ds, artifacts, sha) && bytes[offset..] == Concatenated(ByRole(ds, artifacts))
    ensures Cut(bytes, offset, ds, sha) == Some(artifacts)
    decreases |ds|
  {
    hide *;
    if ds == [] {
      CutNone(bytes, offset, ds, sha, artifacts);
    } else {
      LessDistinct(ds);
      HoldsFirst(ds, artifacts, sha);
      HoldsLess(ds, artifacts, sha);
      var artifact, rest := artifacts[ds[0].role], artifacts - {ds[0].role};
      ConcatenatedMore(artifact, ByRole(ds[1..], rest));
      SplitAt(bytes, offset, artifact, Concatenated(ByRole(ds[1..], rest)));
      CutReaches(bytes, offset + |artifact|, ds[1..], sha, rest);
      CutStep(bytes, offset, ds, sha, artifacts);
    }
  }

  /** Cutting finds the artifacts exactly where they are all that is left of the bytes. */
  lemma CutIs(bytes: seq<byte>, offset: nat, ds: seq<Descriptor>, sha: seq<byte> -> string, artifacts: Artifacts)
    requires offset <= |bytes| && DistinctRoles(ds) && Sized(ds)
    ensures Cut(bytes, offset, ds, sha) == Some(artifacts)
            <==> Holds(ds, artifacts, sha) && bytes[offset..] == Concatenated(ByRole(ds, artifacts))
  {
    hide Holds, DistinctRoles, Sized, Concatenated, ByRole, Cut;
    if Cut(bytes, offset, ds, sha) == Some(artifacts) { CutFinds(bytes, offset, ds, sha, artifacts); }
    if Holds(ds, artifacts, sha) && bytes[offset..] == Concatenated(ByRole(ds, artifacts)) { CutReaches(bytes, offset, ds, sha, artifacts); }
  }

  lemma CutNone(bytes: seq<byte>, offset: nat, ds: seq<Descriptor>, sha: seq<byte> -> string, artifacts: Artifacts)
    requires offset <= |bytes| && ds == []
    ensures Cut(bytes, offset, ds, sha) == Some(artifacts)
            <==> Holds(ds, artifacts, sha) && bytes[offset..] == Concatenated(ByRole(ds, artifacts))
  {
    assert RoleSet(ds) == {};
    assert artifacts.Keys == {} <==> artifacts == map[];
  }

  lemma LessDistinct(ds: seq<Descriptor>)
    requires ds != [] && DistinctRoles(ds) && Sized(ds)
    ensures DistinctRoles(ds[1..]) && Sized(ds[1..]) && ds[0].sizeBytes >= 0
  {}

  lemma HoldsFirst(ds: seq<Descriptor>, artifacts: Artifacts, sha: seq<byte> -> string)
    requires ds != [] && Holds(ds, artifacts, sha)
    ensures ds[0].role in artifacts && |artifacts[ds[0].role]| == ds[0].sizeBytes && sha(artifacts[ds[0].role]) == ds[0].sha256
  {}

  lemma ConcatenatedMore(first: seq<byte>, rest: seq<seq<byte>>)
    ensures Concatenated([first] + rest) == first + Concatenated(rest)
  {
    assert ([first] + rest)[1..] == rest;
  }

  lemma SplitAt(bytes: seq<byte>, offset: nat, first: seq<byte>, rest: seq<byte>)
    requires offset <= |bytes| && bytes[offset..] == first + rest
    ensures offset + |first| <= |bytes| && bytes[offset..offset + |first|] == first && bytes[offset + |first|..] == rest
  {
    assert bytes[offset..][..|first|] == first;
    assert bytes[offset..][|first|..] == rest;
  }

  // ---------------------------------------------------------------- the archive

  lemma NumberRead(n: int)
    requires 0 <= n < 0x1_0000_0000
    ensures ReadUInt32(WriteUInt32(n)) == n
  {
    Split(n, 256);
    Split(n / 256, 256);
    Split(n / 0x1_0000, 256);
    assert n / 256 / 256 == n / 0x1_0000 && n / 0x1_0000 / 256 == n / 0x100_0000;
  }

  lemma Split(n: int, d: int)
    requires d > 0
    ensures n == n / d * d + n % d
  {}

  lemma NumberWritten(bytes: seq<byte>)
    requires |bytes| == 4
    ensures 0 <= ReadUInt32(bytes) < 0x1_0000_0000 && WriteUInt32(ReadUInt32(bytes)) == bytes
  {
    var n := ReadUInt32(bytes);
    assert n / 256 == bytes[0] as int * 0x1_0000 + bytes[1] as int * 256 + bytes[2] as int;
    assert n / 0x1_0000 == bytes[0] as int * 256 + bytes[1] as int;
  }

  /** The parts the decoder sees in an archive. */
  ghost predicate Parted(bytes: seq<byte>, envelope: seq<byte>, rest: seq<byte>)
  {
    && |bytes| >= 14 && bytes[..10] == MAGIC && ReadUInt32(bytes[10..14]) == |envelope| && 14 + |envelope| <= |bytes|
    && bytes[14..14 + |envelope|] == envelope && bytes[14 + |envelope|..] == rest
  }

  lemma PartedIs(bytes: seq<byte>, envelope: seq<byte>, rest: seq<byte>)
    requires |envelope| < 0x1_0000_0000
    ensures Parted(bytes, envelope, rest) <==> bytes == MAGIC + WriteUInt32(|envelope|) + envelope + rest
  {
    NumberRead(|envelope|);
    hide ReadUInt32, WriteUInt32;
    var number := WriteUInt32(|envelope|);
    FourBytes(|envelope|);
    if Parted(bytes, envelope, rest) {
      NumberWritten(bytes[10..14]);
      assert bytes == bytes[..10] + bytes[10..14] + bytes[14..14 + |envelope|] + bytes[14 + |envelope|..];
    }
    var whole := MAGIC + number + envelope + rest;
    assert whole[..10] == MAGIC && whole[10..14] == number && whole[14..14 + |envelope|] == envelope && whole[14 + |envelope|..] == rest;
  }

  lemma FourBytes(n: int)
    requires 0 <= n < 0x1_0000_0000
    ensures |WriteUInt32(n)| == 4
  {}

  lemma RolesDistinct()
    ensures forall i, j :: 0 <= i < j < |DEFINITIONS| ==> DEFINITIONS[i].role != DEFINITIONS[j].role
  {
    hide Digit;
    assert |DEFINITIONS[0].role| == 20 && |DEFINITIONS[1].role| == 18 && |DEFINITIONS[2].role| == 15 && |DEFINITIONS[3].role| == 11;
    assert |DEFINITIONS[4].role| == 20 && |DEFINITIONS[5].role| == 17 && |DEFINITIONS[6].role| == 16;
    assert DEFINITIONS[0].role[0] == 'e' && DEFINITIONS[4].role[0] == 'c';
  }

  lemma DescriptorsOrdered(e: Envelope)
    requires EnvelopeOk(e)
    ensures DistinctRoles(e.manifest.artifacts) && Sized(e.manifest.artifacts)
    ensures forall artifacts: Artifacts :: ByRole(e.manifest.artifacts, artifacts) == InOrder(artifacts)
  {
    RolesDistinct();
    hide DraftOk, SignatureOk, HexOk;
    var ds := e.manifest.artifacts;
    assert forall i :: 0 <= i < |ds| ==> ds[i].role == DEFINITIONS[i].role && ds[i].sizeBytes >= 0;
  }

  function Marked(e: Envelope): (r: seq<byte>)
    requires EnvelopeOk(e)
    ensures |r| <= ENVELOPE_TEXT_BOUND + 3
  {
    BYTE_ORDER_MARK + EnvelopeBytes(e)
  }

  /** The decoder accepts exactly the framings of a valid envelope, plain or marked, with artifacts of the
      stated sizes and digests and nothing behind them. */
  lemma DecodeIs(bytes: seq<byte>, parse: string -> Option<Json>, sha: seq<byte> -> string, e: Envelope, artifacts: Artifacts)
    requires IsJsonParser(parse)
    ensures Decode(bytes, parse, sha) == Some((e, artifacts))
            <==> EnvelopeOk(e) && Holds(e.manifest.artifacts, artifacts, sha)
                 && (bytes == Framed(EnvelopeBytes(e), InOrder(artifacts)) || bytes == Framed(Marked(e), InOrder(artifacts)))
  {
    hide IsJsonParser, ReadEnvelope, EnvelopeOk, EnvelopeBytes, Holds, Cut, ReadUInt32, WriteUInt32, InOrder, ByRole, Concatenated;
    if Decode(bytes, parse, sha) == Some((e, artifacts)) {
      NumberWritten(bytes[10..14]);
      var n := ReadUInt32(bytes[10..14]);
      var envelope := bytes[14..14 + n];
      EnvelopeBytesRead(envelope, parse, e);
      DescriptorsOrdered(e);
      CutIs(bytes, 14 + n, e.manifest.artifacts, sha, artifacts);
      PartedIs(bytes, envelope, Concatenated(InOrder(artifacts)));
    }
    if EnvelopeOk(e) && Holds(e.manifest.artifacts, artifacts, sha) {
      if bytes == Framed(EnvelopeBytes(e), InOrder(artifacts)) { DecodesFramed(bytes, parse, sha, e, artifacts, EnvelopeBytes(e)); }
      if bytes == Framed(Marked(e), InOrder(artifacts)) { DecodesFramed(bytes, parse, sha, e, artifacts, Marked(e)); }
    }
  }

  lemma DecodesFramed(bytes: seq<byte>, parse: string -> Option<Json>, sha: seq<byte> -> string, e: Envelope, artifacts: Artifacts, envelope: seq<byte>)
    requires IsJsonParser(parse) && EnvelopeOk(e) && Holds(e.manifest.artifacts, artifacts, sha)
    requires envelope == EnvelopeBytes(e) || envelope == Marked(e)
    requires bytes == Framed(envelope, InOrder(artifacts))
    ensures Decode(bytes, parse, sha) == Some((e, artifacts))
  {
    hide IsJsonParser, ReadEnvelope, EnvelopeOk, EnvelopeBytes, Holds, Cut, ReadUInt32, WriteUInt32, InOrder, ByRole, Concatenated;
    PartedIs(bytes, envelope, Concatenated(InOrder(artifacts)));
    EnvelopeBytesRead(envelope, parse, e);
    DescriptorsOrdered(e);
    CutIs(bytes, 14 + |envelope|, e.manifest.artifacts, sha, artifacts);
  }

  // ---------------------------------------------------------------- encoding and decoding

  /** An envelope the encoder signs is one the decoder accepts. */
  lemma DescriptorsOfOk(artifacts: seq<seq<byte>>, sha: seq<byte> -> string)
    requires |artifacts| == |DEFINITIONS| && WithinRoleBounds(artifacts) && (forall b :: HashOk(sha(b)))
    requires TotalBytes(DescriptorsOf(artifacts, sha)) <= MAX_TOTAL_ARTIFACT_BYTES
    ensures ArtifactsOk(DescriptorsOf(artifacts, sha)) && SafePositive(TotalBytes(DescriptorsOf(artifacts, sha)))
  {
    hide HexOk;
    var ds := DescriptorsOf(artifacts, sha);
    forall i | 0 <= i < |ds| ensures DescriptorOk(ds[i], DEFINITIONS[i]) { assert |artifacts[i]| >= 1; }
    TotalPositive(ds);
  }

  lemma {:induction false} TotalPositive(ds: seq<Descriptor>)
    requires forall i :: 0 <= i < |ds| ==> ds[i].sizeBytes >= 1
    ensures TotalBytes(ds) >= |ds|
  {
    if ds == [] {
    } else {
      TotalPositive(ds[..|ds| - 1]);
    }
  }

  function SignedEnvelope(draft: Manifest, artifacts: seq<seq<byte>>, signature: string, sha: seq<byte> -> string): Envelope
    requires |artifacts| <= |DEFINITIONS|
  {
    var ds := DescriptorsOf(artifacts, sha);
    Envelope(draft.(artifacts := ds, totalArtifactBytes := TotalBytes(ds)), signature)
  }

  predicate Encodable(draft: Manifest, artifacts: seq<seq<byte>>, signature: string, sha: seq<byte> -> string)
    requires |artifacts| == |DEFINITIONS|
  {
    && WithinRoleBounds(artifacts) && TotalBytes(DescriptorsOf(artifacts, sha)) <= MAX_TOTAL_ARTIFACT_BYTES
    && !Less(draft.createdAt, draft.session.stateAt) && SignatureOk(signature)
  }

  lemma SignedOk(draft: Manifest, artifacts: seq<seq<byte>>, signature: string, sha: seq<byte> -> string)
    requires DraftOk(draft) && |artifacts| == |DEFINITIONS| && (forall b :: HashOk(sha(b))) && Encodable(draft, artifacts, signature, sha)
    ensures EnvelopeOk(SignedEnvelope(draft, artifacts, signature, sha))
  {
    DescriptorsOfOk(artifacts, sha);
    hide UuidOk, CheckpointOk, TimestampOk, EventStateOk, ReleaseOk, SessionOk, SignerOk, SignatureOk, ArtifactsOk, DescriptorsOf, TotalBytes, Less;
  }

  lemma {:induction false} ConcatenatedLength(artifacts: seq<seq<byte>>, sha: seq<byte> -> string)
    requires |artifacts| <= |DEFINITIONS|
    ensures |Concatenated(artifacts)| == TotalBytes(DescriptorsOf(artifacts, sha))
  {
    if artifacts == [] {
    } else {
      var n := |artifacts| - 1;
      ConcatenatedLength(artifacts[..n], sha);
      assert DescriptorsOf(artifacts, sha)[..n] == DescriptorsOf(artifacts[..n], sha);
      ConcatenatedLast(artifacts);
    }
  }

  lemma {:induction false} ConcatenatedLast(artifacts: seq<seq<byte>>)
    requires artifacts != []
    ensures |Concatenated(artifacts)| == |Concatenated(artifacts[..|artifacts| - 1])| + |artifacts[|artifacts| - 1]|
  {
    if |artifacts| > 1 {
      ConcatenatedLast(artifacts[1..]);
      assert artifacts[1..][..|artifacts| - 2] == artifacts[..|artifacts| - 1][1..];
    }
  }

  /** The encoder fails on nothing but the sizes, the creation time and the signature: its bounds on the
      envelope and on the whole archive never strike. */
  lemma EncodeIs(draft: Manifest, artifacts: seq<seq<byte>>, signature: string, sha: seq<byte> -> string)
    requires DraftOk(draft) && |artifacts| == |DEFINITIONS| && (forall b :: HashOk(sha(b)))
    ensures Encode(draft, artifacts, signature, sha).Some? <==> Encodable(draft, artifacts, signature, sha)
    ensures Encodable(draft, artifacts, signature, sha) ==>
              && EnvelopeOk(SignedEnvelope(draft, artifacts, signature, sha))
              && Encode(draft, artifacts, signature, sha)
                 == Some((SignedEnvelope(draft, artifacts, signature, sha),
                          Framed(EnvelopeBytes(SignedEnvelope(draft, artifacts, signature, sha)), artifacts)))
  {
    hide DraftOk, WithinRoleBounds, SignatureOk, EnvelopeOk, Less, EnvelopeJson, Canonical, Ascii, DescriptorsOf, TotalBytes, Concatenated;
    hide HexOk, AsciiBytes, WriteUInt32;
    if Encodable(draft, artifacts, signature, sha) {
      SignedOk(draft, artifacts, signature, sha);
      var e := SignedEnvelope(draft, artifacts, signature, sha);
      EnvelopePrints(e);
      ConcatenatedLength(artifacts, sha);
      FourBytes(|EnvelopeBytes(e)|);
    }
  }

  /** The artifacts by role. */
  function Named(artifacts: seq<seq<byte>>): Artifacts
    requires |artifacts| <= |DEFINITIONS|
  {
    if artifacts == [] then map[]
    else Named(artifacts[..|artifacts| - 1])[DEFINITIONS[|artifacts| - 1].role := artifacts[|artifacts| - 1]]
  }

  lemma {:induction false} NamedAt(artifacts: seq<seq<byte>>)
    requires |artifacts| <= |DEFINITIONS|
    requires forall i, j :: 0 <= i < j < |DEFINITIONS| ==> DEFINITIONS[i].role != DEFINITIONS[j].role
    ensures forall i :: 0 <= i < |artifacts| ==> DEFINITIONS[i].role in Named(artifacts) && Named(artifacts)[DEFINITIONS[i].role] == artifacts[i]
    ensures Named(artifacts).Keys == set i | 0 <= i < |artifacts| :: DEFINITIONS[i].role
  {
    if artifacts == [] {
    } else {
      NamedAt(artifacts[..|artifacts| - 1]);
    }
  }

  lemma NamedHolds(draft: Manifest, artifacts: seq<seq<byte>>, signature: string, sha: seq<byte> -> string)
    requires |artifacts| == |DEFINITIONS|
    ensures Holds(SignedEnvelope(draft, artifacts, signature, sha).manifest.artifacts, Named(artifacts), sha)
    ensures InOrder(Named(artifacts)) == artifacts
  {
    RolesDistinct();
    var ds := SignedEnvelope(draft, artifacts, signature, sha).manifest.artifacts;
    NamedAt(artifacts);
    assert forall i :: 0 <= i < |ds| ==> ds[i].role == DEFINITIONS[i].role;
    assert Named(artifacts).Keys == RoleSet(ds);
  }

  /** Decoding an encoded archive returns the same envelope and the same seven artifacts. */
  lemma RoundTrip(draft: Manifest, artifacts: seq<seq<byte>>, signature: string, parse: string -> Option<Json>, sha: seq<byte> -> string)
    requires DraftOk(draft) && |artifacts| == |DEFINITIONS| && (forall b :: HashOk(sha(b))) && IsJsonParser(parse)
    requires Encode(draft, artifacts, signature, sha).Some?
    ensures Decode(Encode(draft, artifacts, signature, sha).value.1, parse, sha)
            == Some((Encode(draft, artifacts, signature, sha).value.0, Named(artifacts)))
  {
    EncodeIs(draft, artifacts, signature, sha);
    NamedHolds(draft, artifacts, signature, sha);
    hide *;
    var e := SignedEnvelope(draft, artifacts, signature, sha);
    DecodesFramed(Encode(draft, artifacts, signature, sha).value.1, parse, sha, e, Named(artifacts), EnvelopeBytes(e));
  }

  predicate HasMark(bytes: seq<byte>) { |bytes| >= 17 && bytes[14..17] == BYTE_ORDER_MARK }

  /** An accepted byte string is the re-encoding of what it decodes to, bit for bit and with nothing
      behind it, exactly when its envelope does not start with a byte-order mark. */
  lemma ReEncoding(bytes: seq<byte>, parse: string -> Option<Json>, sha: seq<byte> -> string, e: Envelope, artifacts: Artifacts)
    requires IsJsonParser(parse) && Decode(bytes, parse, sha) == Some((e, artifacts))
    ensures EnvelopeOk(e) && Holds(e.manifest.artifacts, artifacts, sha)
    ensures bytes == Framed(EnvelopeBytes(e), InOrder(artifacts)) <==> !HasMark(bytes)
    ensures HasMark(bytes) ==> bytes == Framed(Marked(e), InOrder(artifacts)) && |bytes| == |Framed(EnvelopeBytes(e), InOrder(artifacts))| + 3
  {
    hide IsJsonParser, Decode, EnvelopeOk, Holds, InOrder, Concatenated, EnvelopeJson, Canonical;
    DecodeIs(bytes, parse, sha, e, artifacts);
    var plain, marked := Framed(EnvelopeBytes(e), InOrder(artifacts)), Framed(Marked(e), InOrder(artifacts));
    FourBytes(|EnvelopeBytes(e)|);
    FourBytes(|Marked(e)|);
    EnvelopeStarts(e);
    assert plain[14] == EnvelopeBytes(e)[0];
    assert marked[14..17] == BYTE_ORDER_MARK;
  }

  lemma EnvelopeStarts(e: Envelope)
    requires EnvelopeOk(e)
    ensures EnvelopeBytes(e)[0] < 128
  {
    hide EnvelopeOk, EnvelopeJson, Canonical;
    EnvelopePrints(e);
  }

  /** Every encoded archive has a second, longer form that decodes to the same: re-encoding a decoded
      archive does not always give its bytes back. */
  lemma MarkedArchive(draft: Manifest, artifacts: seq<seq<byte>>, signature: string, parse: string -> Option<Json>, sha: seq<byte> -> string)
    returns (marked: seq<byte>)
    requires DraftOk(draft) && |artifacts| == |DEFINITIONS| && (forall b :: HashOk(sha(b))) && IsJsonParser(parse)
    requires Encode(draft, artifacts, signature, sha).Some?
    ensures marked != Encode(draft, artifacts, signature, sha).value.1 && HasMark(marked)
    ensures Decode(marked, parse, sha) == Decode(Encode(draft, artifacts, signature, sha).value.1, parse, sha)
  {
    RoundTrip(draft, artifacts, signature, parse, sha);
    EncodeIs(draft, artifacts, signature, sha);
    NamedHolds(draft, artifacts, signature, sha);
    var e := SignedEnvelope(draft, artifacts, signature, sha);
    marked := Framed(Marked(e), artifacts);
    FourBytes(|Marked(e)|);
    MarkShows(e, artifacts, marked);
    hide *;
    DecodesFramed(marked, parse, sha, e, Named(artifacts), Marked(e));
  }

  lemma MarkShows(e: Envelope, artifacts: seq<seq<byte>>, marked: seq<byte>)
    requires EnvelopeOk(e) && marked == Framed(Marked(e), artifacts)
    ensures HasMark(marked) && marked != Framed(EnvelopeBytes(e), artifacts)
  {
    hide EnvelopeOk, EnvelopeBytes, Concatenated;
    FourBytes(|Marked(e)|);
    FourBytes(|EnvelopeBytes(e)|);
    EnvelopeStarts(e);
    assert Framed(EnvelopeBytes(e), artifacts)[14] == EnvelopeBytes(e)[0];
    assert marked[14..17] == BYTE_ORDER_MARK;
  }
}
