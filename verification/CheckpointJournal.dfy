/** The hash-linked checkpoint journal of a backup (packages/backup/src/schema.ts:594-724). The digest of
    a text is a parameter, taken to be free of collisions where the tail hash must pin the journal. */
module CheckpointJournal {
  import opened Order
  import opened Wrappers
  import opened CanonicalJson
  import opened CanonicalJsonProofs
  import opened JsonRecords

  datatype Payload = Payload(createdAt: string, journalSequence: int, keyId: string, previousCheckpointHash: string, storeHeadHash: string,
                             storeHeadSequence: int, storeId: string)
  datatype Entry = Entry(checkpointHash: string, payload: Payload, signature: string)
  datatype EventHead = EventHead(headHash: string, headSequence: int, storeId: string)
  datatype Fault = Linkage | BadSignature | BadHash | WrongHead

  /** What the journal is checked against, with the signature check and the digest. */
  datatype Context = Context(keyId: string, head: EventHead, sessionStateAt: string, verify: (string, string) -> bool, digest: string -> string)

  const GENESIS_HASH: string := "0000000000000000000000000000000000000000000000000000000000000000"
  const PAYLOAD_KEYS: seq<string> := [
    "checkpointType", "createdAt", "journalSequence", "keyId", "previousCheckpointHash", "storeHeadHash", "storeHeadSequence", "storeId", "version"]
  const SIGNED_KEYS: seq<string> := ["payload", "signature"]

  function PayloadValues(p: Payload): (r: seq<Json>)
    ensures |r| == 9
  {
    [JStr("rsi.store.head"), JStr(p.createdAt), JNum(p.journalSequence), JStr(p.keyId), JStr(p.previousCheckpointHash), JStr(p.storeHeadHash),
     JNum(p.storeHeadSequence), JStr(p.storeId), JNum(1)]
  }

  function PayloadJson(p: Payload): Json { JObj(Zip(PAYLOAD_KEYS, PayloadValues(p))) }

  function SignedJson(p: Payload, signature: string): Json { JObj(Zip(SIGNED_KEYS, [PayloadJson(p), JStr(signature)])) }

  function HashOf(e: Entry, digest: string -> string): string { digest(Print(SignedJson(e.payload, e.signature))) }

  // ---------------------------------------------------------------- the rules

  function PreviousHash(entries: seq<Entry>, i: nat): string
    requires i <= |entries|
  {
    if i == 0 then GENESIS_HASH else entries[i - 1].checkpointHash
  }

  function PreviousStoreSequence(entries: seq<Entry>, i: nat): int
    requires i <= |entries|
  {
    if i == 0 then 0 else entries[i - 1].payload.storeHeadSequence
  }

  predicate Linked(entries: seq<Entry>, i: nat, c: Context)
    requires i < |entries|
  {
    var p := entries[i].payload;
    && p.journalSequence == i + 1 && p.previousCheckpointHash == PreviousHash(entries, i) && PreviousStoreSequence(entries, i) < p.storeHeadSequence
    && p.keyId == c.keyId && p.storeId == c.head.storeId && (i > 0 ==> !Less(p.createdAt, entries[i - 1].payload.createdAt))
    && !Less(c.sessionStateAt, p.createdAt)
  }

  /** The first rule an entry breaks, in the order they are checked. */
  function EntryFault(entries: seq<Entry>, i: nat, c: Context): Option<Fault>
    requires i < |entries|
  {
    if !Linked(entries, i, c) then Some(Linkage)
    else if !c.verify(Print(PayloadJson(entries[i].payload)), entries[i].signature) then Some(BadSignature)
    else if HashOf(entries[i], c.digest) != entries[i].checkpointHash then Some(BadHash)
    else None
  }

  predicate SoundUpTo(entries: seq<Entry>, n: nat, c: Context)
    requires n <= |entries|
  {
    forall i :: 0 <= i < n ==> EntryFault(entries, i, c) == None
  }

  predicate TailIsHead(entries: seq<Entry>, c: Context)
    requires |entries| > 0
  {
    var p := entries[|entries| - 1].payload;
    p.storeHeadHash == c.head.headHash && p.storeHeadSequence == c.head.headSequence
  }

  predicate Accepted(entries: seq<Entry>, c: Context)
  {
    |entries| > 0 && SoundUpTo(entries, |entries|, c) && TailIsHead(entries, c)
  }

  /** `validateCheckpointJournal`: it reports the first fault of the first faulty entry, then a tail that is
      not the event head, and accepts nothing else. */
  method ValidateCheckpointJournal(entries: seq<Entry>, c: Context) returns (fault: Option<Fault>)
    requires |entries| > 0
    ensures fault == None <==> Accepted(entries, c)
    ensures fault == Some(WrongHead) <==> SoundUpTo(entries, |entries|, c) && !TailIsHead(entries, c)
    ensures fault.Some? && fault.value != WrongHead
            ==> exists i :: 0 <= i < |entries| && SoundUpTo(entries, i, c) && EntryFault(entries, i, c) == fault
  {
    hide PayloadJson, HashOf, Print;
    var previousHash := GENESIS_HASH;
    var previousStoreSequence := 0;
    var previousTimestamp: Option<string> := None;
    var index := 0;
    while index < |entries|
      invariant 0 <= index <= |entries|
      invariant SoundUpTo(entries, index, c)
      invariant previousHash == PreviousHash(entries, index) && previousStoreSequence == PreviousStoreSequence(entries, index)
      invariant previousTimestamp == if index == 0 then None else Some(entries[index - 1].payload.createdAt)
    {
      var entry := entries[index];
      if entry.payload.journalSequence != index + 1 || entry.payload.previousCheckpointHash != previousHash
         || entry.payload.storeHeadSequence <= previousStoreSequence || entry.payload.keyId != c.keyId || entry.payload.storeId != c.head.storeId
         || (previousTimestamp.Some? && Less(entry.payload.createdAt, previousTimestamp.value)) || Less(c.sessionStateAt, entry.payload.createdAt) {
        assert EntryFault(entries, index, c) == Some(Linkage);
        return Some(Linkage);
      }
      if !c.verify(Print(PayloadJson(entry.payload)), entry.signature) {
        assert EntryFault(entries, index, c) == Some(BadSignature);
        return Some(BadSignature);
      }
      if HashOf(entry, c.digest) != entry.checkpointHash {
        assert EntryFault(entries, index, c) == Some(BadHash);
        return Some(BadHash);
      }
      previousHash, previousStoreSequence, previousTimestamp :=
        entry.checkpointHash, entry.payload.storeHeadSequence, Some(entry.payload.createdAt);
      index := index + 1;
    }
    if !TailIsHead(entries, c) { return Some(WrongHead); }
    fault := None;
  }

  // ---------------------------------------------------------------- what acceptance means

  ghost predicate CollisionFree(digest: string -> string) { forall a, b :: digest(a) == digest(b) ==> a == b }

  lemma PayloadKeysDistinct()
    ensures DistinctNames(PAYLOAD_KEYS) && DistinctNames(SIGNED_KEYS)
  {}

  lemma PayloadProper(p: Payload, signature: string)
    ensures Proper(PayloadJson(p)) && DistinctKeys(Zip(PAYLOAD_KEYS, PayloadValues(p)))
    ensures Proper(SignedJson(p, signature)) && DistinctKeys(Zip(SIGNED_KEYS, [PayloadJson(p), JStr(signature)]))
  {
    hide Zip, DistinctNames, DistinctKeys;
    PayloadKeysDistinct();
    ZipProper(PAYLOAD_KEYS, PayloadValues(p));
    hide PayloadJson;
    assert Proper(PayloadJson(p));
    ZipProper(SIGNED_KEYS, [PayloadJson(p), JStr(signature)]);
  }

  lemma SameRecordValues(keys: seq<string>, values: seq<Json>, others: seq<Json>, i: nat)
    requires |keys| == |values| == |others| && i < |keys| && DistinctKeys(Zip(keys, others))
    requires SameValue(JObj(Zip(keys, values)), JObj(Zip(keys, others)))
    ensures SameValue(values[i], others[i])
  {
    SameFields(Zip(keys, values), Zip(keys, others), i);
  }

  lemma SamePayload(p: Payload, q: Payload)
    requires SameValue(PayloadJson(p), PayloadJson(q))
    ensures p == q
  {
    PayloadProper(q, "");
    hide Zip, DistinctKeys;
    var v, w := PayloadValues(p), PayloadValues(q);
    forall i: nat | i < 9 ensures SameValue(v[i], w[i]) { hide SameValue; SameRecordValues(PAYLOAD_KEYS, v, w, i); }
    assert SameValue(v[1], w[1]) && SameValue(v[2], w[2]) && SameValue(v[3], w[3]) && SameValue(v[4], w[4]);
    assert SameValue(v[5], w[5]) && SameValue(v[6], w[6]) && SameValue(v[7], w[7]);
  }

  /** Entries with the same valid hash are the same entry. */
  lemma SameHashSameEntry(e: Entry, f: Entry, digest: string -> string)
    requires CollisionFree(digest) && HashOf(e, digest) == e.checkpointHash && HashOf(f, digest) == f.checkpointHash
    requires e.checkpointHash == f.checkpointHash
    ensures e == f
  {
    hide Zip, DistinctKeys, Proper, Print, SameValue, PayloadJson;
    PayloadProper(e.payload, e.signature);
    PayloadProper(f.payload, f.signature);
    PrintInjective(SignedJson(e.payload, e.signature), SignedJson(f.payload, f.signature));
    var v, w := [PayloadJson(e.payload), JStr(e.signature)], [PayloadJson(f.payload), JStr(f.signature)];
    SameRecordValues(SIGNED_KEYS, v, w, 0);
    SameRecordValues(SIGNED_KEYS, v, w, 1);
    SamePayload(e.payload, f.payload);
    SameString(e.signature, f.signature);
  }

  lemma SameString(a: string, b: string)
    requires SameValue(JStr(a), JStr(b))
    ensures a == b
  {}

  lemma SoundAt(entries: seq<Entry>, i: nat, c: Context)
    requires Accepted(entries, c) && i < |entries|
    ensures Linked(entries, i, c) && HashOf(entries[i], c.digest) == entries[i].checkpointHash
    ensures c.verify(Print(PayloadJson(entries[i].payload)), entries[i].signature)
  {
    hide Linked, HashOf, PayloadJson, Print;
    assert EntryFault(entries, i, c) == None;
  }

  /** A checkpoint hash pins everything up to its entry: wherever it occurs in another accepted journal,
      it occurs at the same place behind the same entries. */
  lemma {:induction false} HashPinsPrefix(a: seq<Entry>, b: seq<Entry>, c: Context, d: Context, i: nat, j: nat)
    requires CollisionFree(c.digest) && d.digest == c.digest && Accepted(a, c) && Accepted(b, d)
    requires i < |a| && j < |b| && a[i].checkpointHash == b[j].checkpointHash
    ensures i == j && a[..i + 1] == b[..j + 1]
    decreases i
  {
    hide Accepted, HashOf, CollisionFree, Print, PayloadJson, Less, PreviousStoreSequence;
    SoundAt(a, i, c);
    SoundAt(b, j, d);
    SameHashSameEntry(a[i], b[j], c.digest);
    if i == 0 {
      assert a[..i + 1] == [a[i]] && b[..j + 1] == [b[j]];
    } else {
      HashPinsPrefix(a, b, c, d, i - 1, j - 1);
      assert a[..i + 1] == a[..i] + [a[i]] && b[..j + 1] == b[..j] + [b[j]];
    }
  }

  /** Two accepted journals with the same tail hash are the same journal. */
  lemma TailHashDetermines(a: seq<Entry>, b: seq<Entry>, c: Context, d: Context)
    requires CollisionFree(c.digest) && d.digest == c.digest && Accepted(a, c) && Accepted(b, d)
    requires a[|a| - 1].checkpointHash == b[|b| - 1].checkpointHash
    ensures a == b
  {
    hide Accepted, CollisionFree;
    NotEmpty(a, c);
    NotEmpty(b, d);
    HashPinsPrefix(a, b, c, d, |a| - 1, |b| - 1);
    assert a[..|a|] == a && b[..|b|] == b;
  }

  lemma NotEmpty(a: seq<Entry>, c: Context)
    requires Accepted(a, c)
    ensures |a| > 0
  {}

  /** Store sequences strictly increase, creation times never decrease, and neither passes the event head
      or the session's state time. */
  lemma {:induction false} SequencesIncrease(entries: seq<Entry>, c: Context, i: nat, j: nat)
    requires Accepted(entries, c) && i <= j < |entries|
    ensures i < j ==> entries[i].payload.storeHeadSequence < entries[j].payload.storeHeadSequence
    ensures 0 < entries[i].payload.storeHeadSequence <= c.head.headSequence
    ensures !Less(entries[j].payload.createdAt, entries[i].payload.createdAt) && !Less(c.sessionStateAt, entries[j].payload.createdAt)
    decreases |entries| - i
  {
    hide Less, HashOf, PayloadJson, Print;
    SoundAt(entries, i, c);
    SoundAt(entries, j, c);
    if i == j { LessIrreflexive(entries[i].payload.createdAt); }
    if i + 1 < |entries| {
      SoundAt(entries, i + 1, c);
      SequencesIncrease(entries, c, i + 1, if i < j then j else i + 1);
      if i < j {
        if Less(entries[j].payload.createdAt, entries[i].payload.createdAt) {
          LessChain(entries[j].payload.createdAt, entries[i].payload.createdAt, entries[i + 1].payload.createdAt);
        }
      }
      PositiveSequence(entries, c, i);
    } else {
      PositiveSequence(entries, c, i);
    }
  }

  /** Below something that is not above a third is below the third. */
  lemma LessChain(x: string, y: string, z: string)
    requires Less(x, y) && !Less(z, y)
    ensures Less(x, z)
  {
    LessTotal(y, z);
    if Less(y, z) { LessTransitive(x, y, z); }
  }

  lemma {:induction false} PositiveSequence(entries: seq<Entry>, c: Context, i: nat)
    requires Accepted(entries, c) && i < |entries|
    ensures entries[i].payload.storeHeadSequence > 0
  {
    hide Less, HashOf, PayloadJson, Print;
    SoundAt(entries, i, c);
    if i == 0 {
    } else {
      PositiveSequence(entries, c, i - 1);
    }
  }
}
