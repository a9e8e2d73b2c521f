/** A concrete archive: it can be encoded, so its marked form refutes that every accepted archive is the
    re-encoding of what it decodes to. */
module ArchiveSample {
  import opened Hex
  import opened Order
  import opened Wrappers
  import opened CanonicalJson
  import opened Archive
  import opened ArchiveRecords
  import opened ArchiveProofs

  function Repeated<T>(x: T, n: nat): (r: seq<T>)
    ensures |r| == n && forall i :: 0 <= i < n ==> r[i] == x
  {
    seq(n, _ => x)
  }

  const DIGEST: string := Repeated('0', 64)
  const UUID: string := "00000000-0000-4000-8000-000000000000"
  const TIME: string := "2024-01-01T00:00:00.000Z"
  const NAME: string := "0"
  const VERSION: string := "0.0.0"
  const SIGNATURE: string := Repeated('A', 86)

  const DRAFT: Manifest := Manifest(
    [], UUID, Checkpoint(DIGEST, 1, NAME, DIGEST, DIGEST, 1, NAME), TIME, EventState(1, DIGEST, 1, NAME), "canary",
    Release(Repeated('0', 40), DIGEST, NAME, DIGEST, DIGEST, VERSION), "session-30d", Session(UUID, "accepted", TIME), Signer(NAME, DIGEST), 1)

  const ARTIFACTS: seq<seq<byte>> := Repeated([0], 7)

  function Sha(bytes: seq<byte>): string { DIGEST }

  ghost predicate Prints(v: Json, text: string) { Proper(v) && Canonical(v) == Some(text) }

  /** A parser that finds whatever prints as the text. */
  ghost function Parse(text: string): Option<Json>
  {
    if exists v :: Prints(v, text) then
      var v :| Prints(v, text);
      Some(v)
    else None
  }

  lemma ParseParses()
    ensures IsJsonParser(Parse)
  {
    hide Proper, Canonical;
    forall text | Parse(text).Some? ensures Proper(Parse(text).value) {}
    forall v | Proper(v) && Canonical(v).Some?
      ensures Parse(Canonical(v).value).Some? && Canonical(Parse(Canonical(v).value).value) == Canonical(v)
    {
      assert Prints(v, Canonical(v).value);
    }
  }

  lemma {:induction false} NotContained(s: string, word: string)
    requires word != [] && forall i :: 0 <= i < |s| ==> s[i] != word[0]
    ensures !Contains(s, word)
  {
    if s == [] {
    } else {
      assert !(word <= s) by { assert s[0] != word[0]; }
      assert forall i :: 0 <= i < |s[1..]| ==> s[1..][i] == s[i + 1];
      NotContained(s[1..], word);
    }
  }

  lemma NotSensitive(s: string)
    requires forall i :: 0 <= i < |s| ==> s[i] in "0."
    ensures !Sensitive(s)
  {
    forall i | 0 <= i < |SENSITIVE_WORDS| ensures !Contains(LowerAll(s), SENSITIVE_WORDS[i]) {
      FirstLetters(i);
      NotContained(LowerAll(s), SENSITIVE_WORDS[i]);
    }
  }

  lemma FirstLetters(i: nat)
    requires i < |SENSITIVE_WORDS|
    ensures SENSITIVE_WORDS[i] != [] && SENSITIVE_WORDS[i][0] !in "0."
  {}

  lemma TimeShape()
    ensures |TIME| == 24 && TIME[4] == '-' && TIME[7] == '-' && TIME[10] == 'T' && TIME[13] == ':' && TIME[16] == ':'
    ensures TIME[19] == '.' && TIME[23] == 'Z' && forall i :: 0 <= i < 23 && i !in {4, 7, 10, 13, 16, 19} ==> Digit(TIME[i])
  {}

  lemma TwoDigits(s: string, at: nat)
    requires at + 2 <= |s| && forall i :: at <= i < at + 2 ==> Digit(s[i])
    ensures Number(s, at, 2) == (s[at] as int - '0' as int) * 10 + (s[at + 1] as int - '0' as int)
  {
    assert Number(s, at, 1) == s[at] as int - '0' as int by { assert Number(s, at, 0) == 0; }
  }

  lemma TimeOk()
    ensures TimestampOk(TIME)
  {
    TimeShape();
    TwoDigits(TIME, 5);
    TwoDigits(TIME, 8);
    TwoDigits(TIME, 11);
    TwoDigits(TIME, 14);
    TwoDigits(TIME, 17);
    hide Number;
  }

  lemma UuidIsOk()
    ensures UuidOk(UUID)
  {}

  lemma NamesOk()
    ensures IdentifierOk(NAME) && SemverOk(VERSION)
  {
    NotSensitive(NAME);
    NotSensitive(VERSION);
  }

  lemma DraftIsOk()
    ensures DraftOk(DRAFT)
  {
    UuidIsOk();
    NamesOk();
    TimeOk();
    hide Sensitive, TimestampOk, UuidOk, IdentifierOk, SemverOk;
    assert HashOk(DIGEST) && HexOk(DRAFT.release.commitSha, 40);
  }

  lemma SampleFits()
    ensures |ARTIFACTS| == |DEFINITIONS| && WithinRoleBounds(ARTIFACTS) && (forall b :: HashOk(Sha(b))) && SignatureOk(SIGNATURE)
    ensures DRAFT.createdAt == DRAFT.session.stateAt
  {
    hide DraftOk;
  }

  lemma SampleEncodes()
    ensures DraftOk(DRAFT) && |ARTIFACTS| == |DEFINITIONS| && Encode(DRAFT, ARTIFACTS, SIGNATURE, Sha).Some?
  {
    DraftIsOk();
    SampleFits();
    LessIrreflexive(DRAFT.createdAt);
    SampleTotal(ARTIFACTS, 7);
    EncodeIs(DRAFT, ARTIFACTS, SIGNATURE, Sha);
    hide DraftOk, Encode, DescriptorsOf, TotalBytes, WithinRoleBounds, SignatureOk, Less, Framed, SignedEnvelope;
  }

  lemma {:induction false} SampleTotal(artifacts: seq<seq<byte>>, n: nat)
    requires |artifacts| == n <= 7 && forall i :: 0 <= i < n ==> artifacts[i] == [0]
    ensures TotalBytes(DescriptorsOf(artifacts, Sha)) == n
  {
    if n == 0 {
    } else {
      SampleTotal(artifacts[..n - 1], n - 1);
      assert DescriptorsOf(artifacts, Sha)[..n - 1] == DescriptorsOf(artifacts[..n - 1], Sha);
    }
  }

  /** An accepted archive that is not the re-encoding of what it decodes to. */
  lemma NotEveryArchiveIsItsReEncoding() returns (bytes: seq<byte>, e: Envelope, artifacts: Artifacts)
    ensures IsJsonParser(Parse) && Decode(bytes, Parse, Sha) == Some((e, artifacts)) && EnvelopeOk(e)
    ensures bytes != Framed(EnvelopeBytes(e), InOrder(artifacts))
  {
    ParseParses();
    SampleEncodes();
    SampleFits();
    hide *;
    RoundTrip(DRAFT, ARTIFACTS, SIGNATURE, Parse, Sha);
    bytes := MarkedArchive(DRAFT, ARTIFACTS, SIGNATURE, Parse, Sha);
    e, artifacts := Encode(DRAFT, ARTIFACTS, SIGNATURE, Sha).value.0, Named(ARTIFACTS);
    ReEncoding(bytes, Parse, Sha, e, artifacts);
  }
}
