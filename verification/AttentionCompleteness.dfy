/** What is previewed can be recorded: no check behind an answered preview refuses a command that was authorized for
    it and made in time (packages/attention/src/history.ts:406-545). */
module AttentionCompleteness {
  import opened Wrappers
  import opened Attention
  import opened AttentionFacts
  import opened AttentionRows
  import opened AttentionTime
  import opened AttentionLog
  import opened AttentionHistory
  import opened AttentionDigests

  // ---------------------------------------------------------------- a recorded bundle is always found

  lemma RefreshOfRecord(state: Replayed, k: nat)
    requires Remembered(state) && k < |state.records|
    ensures state.records[k].payload.BatchPayload?
    ensures state.records[k].head.refreshId == RefreshId(BundleId(state.records[k].payload.sourceFacts))
  {
    hide Replay, ReplayRecords, PayloadOk, Judged, Follows, Fresh, HeadOf, ChainOk;
    var log :| ChainOk(log) && Replay(log) == Done(state);
    ReplayParts(log, state);
    ReplayedRecordsFit(state.historyId, log[1..], state.records);
    assert RecordFits(state.historyId, state.records, k);
    JudgedRefresh(state.records[..k], state.records[k].payload);
  }

  lemma JudgedRefresh(before: seq<Record>, p: Payload)
    requires p.BatchPayload? && PayloadOk(p) && Judged(before, p)
    ensures p.result.binding.refreshId == RefreshId(BundleId(p.sourceFacts))
  {
    hide Stored, DecisionOf, AssessmentOk, BundleOk, FactsOk, WithinCap, RefreshId, BundleId, FactsOf;
    StoredIds(p.sourceFacts, FactsOf(before), p.result.binding.evaluatedAt);
  }

  predicate IsRecorded(records: seq<Record>, b: Bundle)
  {
    exists k :: 0 <= k < |records| && records[k].payload.BatchPayload? && records[k].payload.sourceFacts == b
  }

  lemma RecordedElsewhere(records: seq<Record>, b: Bundle)
    requires records != []
    ensures IsRecorded(records, b) <==> (records[0].payload.BatchPayload? && records[0].payload.sourceFacts == b) || IsRecorded(records[1..], b)
  {
    var rest := records[1..];
    if k :| 0 <= k < |records| && records[k].payload.BatchPayload? && records[k].payload.sourceFacts == b {
      if k > 0 { assert rest[k - 1] == records[k]; }
    }
    if k :| 0 <= k < |rest| && rest[k].payload.BatchPayload? && rest[k].payload.sourceFacts == b { assert records[k + 1] == rest[k]; }
  }

  lemma {:induction false} FoundExactly(records: seq<Record>, b: Bundle)
    requires forall k :: 0 <= k < |records| ==>
               records[k].payload.BatchPayload? && records[k].head.refreshId == RefreshId(BundleId(records[k].payload.sourceFacts))
    ensures ExistingResult(records, b).Done?
    ensures ExistingResult(records, b).value.Some? <==> IsRecorded(records, b)
  {
    hide RefreshId, BundleId, IsRecorded;
    if records != [] {
      var r := records[0];
      RecordedElsewhere(records, b);
      if r.head.refreshId == RefreshId(BundleId(b)) {
        RefreshIdInjective(BundleId(r.payload.sourceFacts), BundleId(b));
        BundleIdInjective(r.payload.sourceFacts, b);
      } else {
        FoundExactly(records[1..], b);
      }
    } else {
      NothingRecorded(b);
    }
  }

  lemma NothingRecorded(b: Bundle)
    ensures !IsRecorded([], b)
  {}

  /** On a replayed log no bundle is ever taken for another: it is found exactly if it is recorded, and the refusal for
      a reused identity never strikes. */
  lemma IdentityIsNeverReused(state: Replayed, b: Bundle)
    requires Remembered(state)
    ensures ExistingResult(state.records, b).Done?
    ensures ExistingResult(state.records, b).value.Some? <==> IsRecorded(state.records, b)
  {
    hide RefreshId, BundleId, Remembered, ExistingResult, IsRecorded;
    forall k | 0 <= k < |state.records|
      ensures state.records[k].payload.BatchPayload? && state.records[k].head.refreshId == RefreshId(BundleId(state.records[k].payload.sourceFacts))
    {
      RefreshOfRecord(state, k);
    }
    FoundExactly(state.records, b);
  }

  // ---------------------------------------------------------------- from preview to record

  /** The handle stands as a preview left it: the bundle is not yet recorded, the preview shows what it should, and its
      lease is held. */
  ghost predicate JustPreviewed(h: RecordedAttentionHistory, state: Replayed, b: Bundle, context: Context, p: PreviewBinding, a: Assessment,
                                expiresAt: real)
    reads h, h.store
  {
    && h.Valid() && !h.closed && Replay(h.store.events) == Done(state) && h.identity == Some((state.genesisHash, state.historyId))
    && ExistingResult(state.records, b) == Done(None) && context.processInstanceId == h.processInstanceId
    && Previewable(b, context, state) && Shows(b, context, state, p.previewId, p, a)
    && p.previewId in h.leases && h.leases[p.previewId].binding == p && h.leases[p.previewId].expiresAt == expiresAt
  }

  /** An authorization for exactly what was previewed. */
  predicate AuthorizedFor(authorization: Authorization, p: PreviewBinding, context: Context)
  {
    && authorization.owned && authorization.research && authorization.actionId == ActionId(p)
    && authorization.processInstanceId == context.processInstanceId && authorization.requestedRevision == context.modeRevision
  }

  /** An authorized command for a preview whose lease still runs gets past every first check. */
  lemma PreviewBegins(h: RecordedAttentionHistory, state: Replayed, b: Bundle, context: Context, p: PreviewBinding, a: Assessment, expiresAt: real,
                      authorization: Authorization, now: real, receiptsOk: bool)
    requires JustPreviewed(h, state, b, context, p, a, expiresAt) && AuthorizedFor(authorization, p, context)
    requires Readable(h.lastMonotonic, now) && now < expiresAt && (state.records == [] || receiptsOk)
    ensures h.MayBegin(b, p, authorization, now, receiptsOk)
  {
    hide Replay, ExistingResult, Previewable, Shows, Readable, StandsBy, RefreshId, BundleId, HeadOf;
    ShowsParts(b, context, state, p.previewId, p, a);
    assert ContextOf(p) == context;
    StillStands(b, context, p, state, a);
  }

  lemma StillStands(b: Bundle, context: Context, p: PreviewBinding, state: Replayed, a: Assessment)
    requires Previewable(b, context, state) && Shows(b, context, state, p.previewId, p, a) && ContextOf(p) == context
    ensures StandsBy(b, p, state)
  {
    hide Previewable, Shows, StandsBy;
    StandsIsBy(b, p, state, a);
  }

  /** A pending command commits when its receipt fits, the lease runs at both readings, and the checkpoint is before
      the deadline with no boundary of the bundle passed since the preview. */
  lemma PendingCommits(h: RecordedAttentionHistory, p: Pending, receipt: Receipt, checkpointAt: Time, now: real, later: real)
    requires h.Valid() && !h.closed && PendingOk(p) && Replay(h.store.events) == Done(p.verified)
    requires LiveLease(h.leases, h.lastMonotonic, p.expected, now) && LiveLease(h.leases, Some(now), p.expected, later)
    requires ReceiptFits(p, receipt, checkpointAt) && checkpointAt < p.expected.deadline && OnTheSameSide(p, checkpointAt)
    ensures h.MayCommit(p, receipt, checkpointAt, now, later)
  {
    hide Replay, PendingOk, LiveLease, ReceiptFits, OnTheSameSide, Stored, DecisionOf, FactsOf;
    NeverReclassified(p, checkpointAt);
  }

  /** The times of one undisturbed command: four clock readings within the lease, and a checkpoint behind the receipt. */
  datatype Times = Times(previewed: real, begun: real, locked: real, committed: real, checkedAt: Time, checkpointAt: Time)

  predicate InTime(t: Times, last: Option<real>, context: Context)
  {
    && Readable(last, t.previewed) && t.previewed + LEASE_TTL <= MAX_MONOTONIC
    && t.previewed <= t.begun <= t.locked <= t.committed < t.previewed + LEASE_TTL
    && CanonicalTime(t.checkedAt) && CanonicalTime(t.checkpointAt)
    && context.evaluatedAt <= t.checkedAt <= t.checkpointAt < context.evaluatedAt + PREVIEW_TTL
  }

  /** A receipt that no record of the log has used. */
  predicate Unused(records: seq<Record>, authorizationId: string, eventHash: string, eventSequence: int)
  {
    && eventSequence >= 1 && (Latest(records).Some? ==> Latest(records).value.authorization.eventSequence < eventSequence)
    && forall i :: 0 <= i < |records| && records[i].payload.BatchPayload? ==>
         && records[i].payload.result.authorization.authorizationId != authorizationId
         && records[i].payload.result.authorization.eventHash != eventHash
  }

  lemma FitsReceipt(p: Pending, state: Replayed, context: Context, r: Receipt, t: Times, last: Option<real>)
    requires p.verified == state && ContextOf(p.expected) == context && InTime(t, last, context)
    requires Unused(state.records, r.authorizationId, r.eventHash, r.eventSequence)
    requires r == Receipt(ActionId(p.expected), r.authorizationId, t.checkedAt, r.eventHash, r.eventSequence, context.modeRevision,
                          context.processInstanceId)
    ensures ReceiptFits(p, r, t.checkpointAt)
  {
    hide Latest;
  }

  lemma CheckpointFits(p: Pending, state: Replayed, b: Bundle, context: Context, t: Times, last: Option<real>, a: Assessment)
    requires p.verified == state && p.sourceFacts == b && Shows(b, context, state, p.expected.previewId, p.expected, a)
    requires InTime(t, last, context) && SameSide(b, FactsOf(state.records), context.evaluatedAt, t.checkpointAt)
    ensures t.checkpointAt < p.expected.deadline && OnTheSameSide(p, t.checkpointAt)
  {
    hide Shows, SameSide, FactsOf, HeadOf, RefreshId, BundleId;
    ShowsParts(b, context, state, p.expected.previewId, p.expected, a);
  }

  /** Once something is recorded, the log verifies for its handle exactly if the receipts are vouched for. */
  lemma VerifiesIff(h: RecordedAttentionHistory, result: RecordResult, receiptsOk: bool)
    requires Replay(h.store.events).Done? && Latest(Replay(h.store.events).value.records) == Some(result)
    requires h.identity == Some((Replay(h.store.events).value.genesisHash, Replay(h.store.events).value.historyId))
    ensures h.Verifies(receiptsOk) <==> receiptsOk
  {
    hide Replay;
  }

  lemma LeaseRuns(leases: map<string, Lease>, last: Option<real>, p: PreviewBinding, t: Times, context: Context)
    requires InTime(t, last, context) && p.previewId in leases && leases[p.previewId].binding == p && leases[p.previewId].expiresAt == t.previewed + LEASE_TTL
    ensures Readable(Some(t.previewed), t.begun) && t.begun < t.previewed + LEASE_TTL
    ensures LiveLease(leases, Some(t.begun), p, t.locked) && LiveLease(leases, Some(t.locked), p, t.committed)
  {}

  lemma CanPreview(h: RecordedAttentionHistory, state: Replayed, b: Bundle, context: Context, previewId: string, now: real, receiptsOk: bool)
    requires h.Valid() && !h.closed && Replay(h.store.events) == Done(state) && h.Verifies(receiptsOk)
    requires ExistingResult(state.records, b) == Done(None) && context.processInstanceId == h.processInstanceId
    requires Previewable(b, context, state) && LeaseFree(h.leases, h.lastMonotonic, previewId, now)
    ensures h.MayPreview(b, context, previewId, now, receiptsOk)
  {
    hide Replay, ExistingResult, Previewable, LeaseFree;
  }

  /** A preview of a bundle that is not yet recorded is answered with a new preview. */
  method PreviewNew(h: RecordedAttentionHistory, b: Bundle, context: Context, previewId: string, now: real, vouched: bool, ghost state: Replayed)
    returns (p: PreviewBinding, a: Assessment)
    requires h.Valid() && ChainOk(h.store.events) && !h.closed && Replay(h.store.events) == Done(state) && h.Verifies(vouched)
    requires ExistingResult(state.records, b) == Done(None) && context.processInstanceId == h.processInstanceId
    requires Previewable(b, context, state) && LeaseFree(h.leases, h.lastMonotonic, previewId, now)
    modifies h
    ensures JustPreviewed(h, state, b, context, p, a, now + LEASE_TTL)
    ensures p.previewId == previewId && ContextOf(p) == context && h.lastMonotonic == Some(now)
  {
    hide Replay, ExistingResult, Previewable, Shows, Pruned, LeaseFree, FactsOf, Latest, ChainOk, HoldsResult, HeadOf, RefreshId, BundleId, ContextOf;
    CanPreview(h, state, b, context, previewId, now, vouched);
    var preview := h.Preview(b, context, previewId, now, vouched);
    p, a := preview.value.binding, preview.value.assessment;
    ShowsParts(b, context, state, previewId, p, a);
  }

  /** And the command that was authorized for it may be committed. */
  method BeginPreviewed(h: RecordedAttentionHistory, b: Bundle, context: Context, p: PreviewBinding, authorization: Authorization, now: real,
                        vouched: bool, ghost state: Replayed, ghost a: Assessment, ghost expiresAt: real) returns (pending: Pending)
    requires JustPreviewed(h, state, b, context, p, a, expiresAt) && AuthorizedFor(authorization, p, context) && ChainOk(h.store.events)
    requires Readable(h.lastMonotonic, now) && now < expiresAt && (state.records == [] || vouched)
    modifies h
    ensures h.Valid() && !h.closed && PendingOk(pending) && pending.verified == state && pending.sourceFacts == b && pending.expected == p
    ensures h.leases == old(h.leases) && h.lastMonotonic == Some(now) && h.identity == Some((state.genesisHash, state.historyId))
  {
    hide Replay, ExistingResult, Previewable, Shows, LiveLease, FactsOf, ChainOk, PendingOk, HoldsResult, HeadOf, ContextOf, Readable,
      RecordedAttentionHistory.MayBegin, RecordedAttentionHistory.Verifies, AuthorizedFor;
    PreviewBegins(h, state, b, context, p, a, expiresAt, authorization, now, vouched);
    var begun := h.Begin(b, p, authorization, now, vouched);
    pending := begun.value.pending;
  }

  /** And its commit appends; the result is handed out if the receipts are vouched for. */
  method CommitAndFinish(h: RecordedAttentionHistory, p: Pending, receipt: Receipt, checkpointAt: Time, now: real, later: real, receiptsOk: bool)
    returns (r: Reply<RecordResult>)
    requires h.Valid() && ChainOk(h.store.events) && !h.closed && PendingOk(p) && Replay(h.store.events) == Done(p.verified)
    requires h.identity == Some((p.verified.genesisHash, p.verified.historyId))
    requires LiveLease(h.leases, h.lastMonotonic, p.expected, now) && LiveLease(h.leases, Some(now), p.expected, later)
    requires ReceiptFits(p, receipt, checkpointAt) && checkpointAt < p.expected.deadline && OnTheSameSide(p, checkpointAt)
    modifies h, h.store
    ensures h.Valid() && ChainOk(h.store.events) && p.expected.previewId !in h.leases
    ensures |h.store.events| == |old(h.store.events)| + 1 && old(h.store.events) <= h.store.events
    ensures Replay(h.store.events).Done? && Latest(Replay(h.store.events).value.records).Some?
    ensures var result := Latest(Replay(h.store.events).value.records).value; result.binding == p.expected && result.checkpointAt == checkpointAt
    ensures r.Done? <==> receiptsOk
    ensures r.Done? ==> Latest(Replay(h.store.events).value.records) == Some(r.value)
  {
    hide Replay, LiveLease, FactsOf, ChainOk, PendingOk, Latest, ReceiptFits, OnTheSameSide, RecordedAttentionHistory.MayCommit,
      RecordedAttentionHistory.Verifies;
    PendingCommits(h, p, receipt, checkpointAt, now, later);
    var committed := h.Commit(p, receipt, checkpointAt, now, later);
    VerifiesIff(h, committed.value, receiptsOk);
    r := h.Finish(p, committed.value, receiptsOk);
  }

  /** Preview, authorize, record: where a new bundle can be previewed and nothing else touches the store, the log gets
      exactly one record, of exactly what was previewed, and the result is handed out if the receipts are vouched for. */
  method RecordUndisturbed(h: RecordedAttentionHistory, b: Bundle, context: Context, previewId: string, authorizationId: string, eventHash: string,
                           eventSequence: int, t: Times, vouched: bool, receiptsOk: bool, ghost state: Replayed) returns (r: Reply<RecordResult>)
    requires h.Valid() && ChainOk(h.store.events) && !h.closed && Replay(h.store.events) == Done(state) && h.Verifies(vouched)
    requires ExistingResult(state.records, b) == Done(None) && context.processInstanceId == h.processInstanceId
    requires Previewable(b, context, state) && LeaseFree(h.leases, h.lastMonotonic, previewId, t.previewed)
    requires InTime(t, h.lastMonotonic, context) && SameSide(b, FactsOf(state.records), context.evaluatedAt, t.checkpointAt)
    requires Unused(state.records, authorizationId, eventHash, eventSequence)
    modifies h, h.store
    ensures h.Valid() && ChainOk(h.store.events) && previewId !in h.leases
    ensures |h.store.events| == |old(h.store.events)| + 1 && old(h.store.events) <= h.store.events
    ensures Replay(h.store.events).Done? && Latest(Replay(h.store.events).value.records).Some?
    ensures var result := Latest(Replay(h.store.events).value.records).value;
            ContextOf(result.binding) == context && result.binding.previewId == previewId && result.checkpointAt == t.checkpointAt
    ensures r.Done? <==> receiptsOk
    ensures r.Done? ==> Latest(Replay(h.store.events).value.records) == Some(r.value)
  {
    hide Replay, ExistingResult, Previewable, Shows, Readable, LiveLease, LeaseFree, SameSide, InTime, Unused, FactsOf, Latest, ChainOk, PendingOk,
      ReceiptFits, HeadOf, RefreshId, BundleId, ContextOf, Pruned;
    ghost var last := h.lastMonotonic;
    var p, a := PreviewNew(h, b, context, previewId, t.previewed, vouched, state);
    LeaseRuns(h.leases, last, p, t, context);
    ghost var expiresAt := t.previewed + LEASE_TTL;
    var authorization := Authorization(true, ActionId(p), context.processInstanceId, context.modeRevision, true);
    var pending := BeginPreviewed(h, b, context, p, authorization, t.begun, vouched, state, a, expiresAt);
    var receipt := Receipt(ActionId(p), authorizationId, t.checkedAt, eventHash, eventSequence, context.modeRevision, context.processInstanceId);
    FitsReceipt(pending, state, context, receipt, t, last);
    CheckpointFits(pending, state, b, context, t, last, a);
    r := CommitAndFinish(h, pending, receipt, t.checkpointAt, t.locked, t.committed, receiptsOk);
  }
}
