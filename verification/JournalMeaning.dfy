/** What an accepted checkpoint journal is, entry against every other entry, and what its records say, name by name
    (packages/backup/src/schema.ts:594-724). */
module JournalMeaning {
  import opened Order
  import opened Wrappers
  import opened CanonicalJson
  import opened CheckpointJournal
  import opened ArchiveLayout

  /** The record that is signed. */
  predicate IsPayload(v: Json, p: Payload)
  {
    && Says(v, "checkpointType", JStr("rsi.store.head")) && Says(v, "version", JNum(1)) && Says(v, "createdAt", JStr(p.createdAt))
    && Says(v, "journalSequence", JNum(p.journalSequence)) && Says(v, "keyId", JStr(p.keyId))
    && Says(v, "previousCheckpointHash", JStr(p.previousCheckpointHash)) && Says(v, "storeHeadHash", JStr(p.storeHeadHash))
    && Says(v, "storeHeadSequence", JNum(p.storeHeadSequence)) && Says(v, "storeId", JStr(p.storeId)) && v.JObj? && |v.fields| == 9
  }

  /** The record whose digest is the checkpoint's hash. */
  predicate IsSigned(v: Json, p: Payload, signature: string)
  {
    Says(v, "payload", PayloadJson(p)) && Says(v, "signature", JStr(signature)) && v.JObj? && |v.fields| == 2
  }

  lemma PayloadSays(p: Payload)
    ensures IsPayload(PayloadJson(p), p)
  {
    hide Says;
    PayloadKeysDistinct();
    AllSaid(PAYLOAD_KEYS, PayloadValues(p));
    var (v, k, x) := (PayloadJson(p), PAYLOAD_KEYS, PayloadValues(p));
    assert Says(v, k[0], x[0]) && Says(v, k[1], x[1]) && Says(v, k[2], x[2]) && Says(v, k[3], x[3]) && Says(v, k[4], x[4]);
    assert Says(v, k[5], x[5]) && Says(v, k[6], x[6]) && Says(v, k[7], x[7]) && Says(v, k[8], x[8]);
  }

  lemma SignedSays(p: Payload, signature: string)
    ensures IsSigned(SignedJson(p, signature), p, signature)
  {
    hide Says, PayloadJson;
    PayloadKeysDistinct();
    var (v, k, x) := (SignedJson(p, signature), SIGNED_KEYS, [PayloadJson(p), JStr(signature)]);
    AllSaid(k, x);
    assert Says(v, k[0], x[0]) && Says(v, k[1], x[1]);
  }

  /** The digest of the signed record of an entry. */
  function Sealed(e: Entry, c: Context): string { c.digest(Print(SignedJson(e.payload, e.signature))) }

  /** One entry: numbered from one, of this key and store, from no later than the session, with the digest of its record
      and a signature on its payload. */
  predicate EntryFits(entries: seq<Entry>, i: nat, c: Context)
    requires i < |entries|
  {
    var p := entries[i].payload;
    && p.journalSequence == i + 1 && p.keyId == c.keyId && p.storeId == c.head.storeId && p.storeHeadSequence >= 1
    && (p.createdAt == c.sessionStateAt || Less(p.createdAt, c.sessionStateAt))
    && entries[i].checkpointHash == Sealed(entries[i], c) && c.verify(Print(PayloadJson(p)), entries[i].signature)
  }

  /** Any two entries: the later one is no earlier in time and covers more of the store, and the next one names the
      digest of the one before it. */
  predicate PairFits(entries: seq<Entry>, i: nat, j: nat, c: Context)
    requires i < j < |entries|
  {
    var (p, q) := (entries[i].payload, entries[j].payload);
    && p.storeHeadSequence < q.storeHeadSequence && (p.createdAt == q.createdAt || Less(p.createdAt, q.createdAt))
    && (j == i + 1 ==> q.previousCheckpointHash == Sealed(entries[i], c))
  }

  ghost predicate JournalIs(entries: seq<Entry>, c: Context)
  {
    && |entries| > 0
    && (forall i :: 0 <= i < |entries| ==> EntryFits(entries, i, c))
    && (forall i, j :: 0 <= i < j < |entries| ==> PairFits(entries, i, j, c))
    && entries[0].payload.previousCheckpointHash == "0000000000000000000000000000000000000000000000000000000000000000"
    && entries[|entries| - 1].payload.storeHeadHash == c.head.headHash && entries[|entries| - 1].payload.storeHeadSequence == c.head.headSequence
  }

  predicate NotAfter(a: string, b: string) { a == b || Less(a, b) }

  lemma NotAfterIs(a: string, b: string)
    ensures NotAfter(a, b) <==> !Less(b, a)
  {
    LessTotal(a, b);
    LessIrreflexive(a);
    if Less(a, b) && Less(b, a) { LessTransitive(a, b, a); }
    hide Less;
  }

  lemma NotAfterTransitive(a: string, b: string, c: string)
    requires NotAfter(a, b) && NotAfter(b, c)
    ensures NotAfter(a, c)
  {
    if Less(a, b) && Less(b, c) { LessTransitive(a, b, c); }
    hide Less;
  }

  // ---------------------------------------------------------------- neighbours and pairs

  ghost predicate Sound(entries: seq<Entry>, c: Context) { forall i :: 0 <= i < |entries| ==> EntryFault(entries, i, c) == None }

  lemma FaultlessIs(entries: seq<Entry>, i: nat, c: Context)
    requires i < |entries|
    ensures EntryFault(entries, i, c) == None <==>
              && entries[i].payload.journalSequence == i + 1 && entries[i].payload.keyId == c.keyId && entries[i].payload.storeId == c.head.storeId
              && NotAfter(entries[i].payload.createdAt, c.sessionStateAt) && entries[i].checkpointHash == Sealed(entries[i], c)
              && c.verify(Print(PayloadJson(entries[i].payload)), entries[i].signature)
              && entries[i].payload.previousCheckpointHash == PreviousHash(entries, i)
              && PreviousStoreSequence(entries, i) < entries[i].payload.storeHeadSequence
              && (i > 0 ==> NotAfter(entries[i - 1].payload.createdAt, entries[i].payload.createdAt))
  {
    hide Less, Print, PayloadJson, SignedJson, NotAfter, PreviousHash, PreviousStoreSequence;
    NotAfterIs(entries[i].payload.createdAt, c.sessionStateAt);
    if i > 0 { NotAfterIs(entries[i - 1].payload.createdAt, entries[i].payload.createdAt); }
  }

  lemma {:induction false} PairsFit(entries: seq<Entry>, i: nat, j: nat, c: Context)
    requires Sound(entries, c) && i < j < |entries|
    ensures PairFits(entries, i, j, c)
    decreases j
  {
    hide Less, Print, PayloadJson, SignedJson, EntryFault;
    FaultlessIs(entries, j, c);
    FaultlessIs(entries, j - 1, c);
    if i < j - 1 {
      PairsFit(entries, i, j - 1, c);
      NotAfterTransitive(entries[i].payload.createdAt, entries[j - 1].payload.createdAt, entries[j].payload.createdAt);
    }
  }

  lemma {:induction false} SequencePositive(entries: seq<Entry>, i: nat, c: Context)
    requires Sound(entries, c) && i < |entries|
    ensures entries[i].payload.storeHeadSequence >= 1
  {
    hide Less, Print, PayloadJson, SignedJson, EntryFault;
    FaultlessIs(entries, i, c);
    if i > 0 { SequencePositive(entries, i - 1, c); }
  }

  lemma SoundFits(entries: seq<Entry>, i: nat, c: Context)
    requires Sound(entries, c) && i < |entries|
    ensures EntryFits(entries, i, c) && (i == 0 ==> entries[0].payload.previousCheckpointHash == GENESIS_HASH)
  {
    hide Less, Print, PayloadJson, SignedJson, EntryFault;
    FaultlessIs(entries, i, c);
    SequencePositive(entries, i, c);
  }

  lemma FitsSound(entries: seq<Entry>, i: nat, c: Context)
    requires JournalIs(entries, c) && i < |entries|
    ensures EntryFault(entries, i, c) == None
  {
    hide Less, Print, PayloadJson, SignedJson, EntryFault;
    FaultlessIs(entries, i, c);
    assert EntryFits(entries, i, c);
    if i > 0 {
      assert PairFits(entries, i - 1, i, c);
      assert EntryFits(entries, i - 1, c);
    }
  }

  /** A journal is accepted if and only if every entry fits, every two entries fit together, the first follows nothing
      and the last is the event head. */
  lemma AcceptedIs(entries: seq<Entry>, c: Context)
    ensures Accepted(entries, c) <==> JournalIs(entries, c)
  {
    hide Less, Print, PayloadJson, SignedJson, EntryFault, EntryFits, PairFits;
    if Accepted(entries, c) {
      assert Sound(entries, c);
      forall i | 0 <= i < |entries| ensures EntryFits(entries, i, c) { SoundFits(entries, i, c); }
      forall i, j | 0 <= i < j < |entries| ensures PairFits(entries, i, j, c) { PairsFit(entries, i, j, c); }
      SoundFits(entries, 0, c);
      }
    if JournalIs(entries, c) {
      forall i | 0 <= i < |entries| ensures EntryFault(entries, i, c) == None { FitsSound(entries, i, c); }
    }
  }
}
