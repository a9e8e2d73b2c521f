/** A handle on the recorded-attention log: previews under lease, records under an exclusive
    transaction, and a replay cache (packages/attention/src/history.ts). `record` is split where another
    handle may run in between: `Begin`, `Commit` (one exclusive transaction) and `Finish`. */
module AttentionHistory {
  import opened Wrappers
  import opened Attention
  import opened AttentionFacts
  import opened Assessor
  import opened AttentionRows
  import opened AttentionTime
  import opened AttentionLog

  const MAX_LEASES: nat := 1_000
  const LEASE_TTL: real := 30_000.0
  const MAX_MONOTONIC: real := 9_007_199_254_740_991.0

  datatype Context = Context(processInstanceId: string, modeRevision: int, evaluatedAt: Time)
  datatype Lease = Lease(actionId: ActionId, binding: PreviewBinding, expiresAt: real)
  datatype Preview = NewPreview(binding: PreviewBinding, assessment: Assessment) | AlreadyRecorded(result: RecordResult)
  datatype Authorization = Authorization(owned: bool, actionId: ActionId, processInstanceId: string, requestedRevision: int, research: bool)
  datatype Pending = Pending(sourceFacts: Bundle, expected: PreviewBinding, verified: Replayed, assessment: Assessment)
  datatype Begun = Recorded(result: RecordResult) | Ready(pending: Pending)

  // ---------------------------------------------------------------- previews

  function Latest(records: seq<Record>): Option<RecordResult>
  {
    if records == [] || !records[|records| - 1].payload.BatchPayload? then None else Some(records[|records| - 1].payload.result)
  }

  function BindingFor(state: Replayed, context: Context, previewId: string, result: Result): PreviewBinding
  {
    PreviewBinding(state.historyId, previewId, result.assessment.bundleId, result.assessment.refreshId, HeadOf(state.records),
            context.processInstanceId, context.modeRevision, context.evaluatedAt, context.evaluatedAt + PREVIEW_TTL,
            DecisionOf(result.assessment, result.nextFacts))
  }

  /** `buildPreview`. */
  ghost function BuildPreview(b: Bundle, context: Context, state: Replayed, previewId: string): Reply<Preview>
  {
    var latest := Latest(state.records);
    if |state.records| >= MAX_HISTORY then Refused(HistoryFull)
    else if latest.Some? && context.evaluatedAt < latest.value.checkpointAt then Refused(ClockRegressed)
    else if context.evaluatedAt + PREVIEW_TTL > MAX_TIME then Refused(TimeInvalid)
    else
      match Stored(b, FactsOf(state.records), context.evaluatedAt)
      case None => Refused(InputInvalid)
      case Some(result) =>
        var binding := BindingFor(state, context, previewId, result);
        if !BindingOk(binding) then Refused(InputInvalid) else Done(NewPreview(binding, result.assessment))
  }

  /** `#recomputePreview`. */
  ghost function RecomputePreview(b: Bundle, expected: PreviewBinding, state: Replayed): Reply<Preview>
  {
    if expected.historyId != state.historyId then Refused(HistoryMismatch)
    else if expected.auditHead != HeadOf(state.records) then Refused(PreviewStale)
    else BuildPreview(b, Context(expected.processInstanceId, expected.modeRevision, expected.evaluatedAt), state, expected.previewId)
  }

  /** `existingResult`: the first record of the bundle's refresh. */
  function ExistingResult(records: seq<Record>, b: Bundle): Reply<Option<RecordResult>>
  {
    if records == [] then Done(None)
    else
      var r := records[0];
      if r.head.refreshId == RefreshId(BundleId(b)) && r.payload.BatchPayload? then
        if r.payload.sourceFacts != b then Refused(IdentityReused) else Done(Some(r.payload.result))
      else ExistingResult(records[1..], b)
  }

  lemma {:induction false} NoExisting(records: seq<Record>, b: Bundle, k: nat)
    requires ExistingResult(records, b) == Done(None) && k < |records| && records[k].payload.BatchPayload?
    ensures records[k].head.refreshId != RefreshId(BundleId(b))
  {
    hide BundleId, RefreshId;
    if k == 0 {
    } else {
      NoExisting(records[1..], b, k - 1);
    }
  }

  /** The log holds this result for exactly this bundle. */
  predicate HoldsResult(records: seq<Record>, b: Bundle, result: RecordResult)
  {
    exists k :: 0 <= k < |records| && records[k].payload.BatchPayload? && records[k].payload.result == result && records[k].payload.sourceFacts == b
  }

  lemma {:induction false} ExistingIsRecorded(records: seq<Record>, b: Bundle, result: RecordResult)
    requires ExistingResult(records, b) == Done(Some(result))
    ensures HoldsResult(records, b, result)
  {
    var r := records[0];
    if r.head.refreshId == RefreshId(BundleId(b)) && r.payload.BatchPayload? {
      assert records[0].payload.result == result;
    } else {
      ExistingIsRecorded(records[1..], b, result);
      var k :| 0 <= k < |records[1..]| && records[1..][k].payload.BatchPayload? && records[1..][k].payload.result == result
               && records[1..][k].payload.sourceFacts == b;
      assert records[k + 1] == records[1..][k];
    }
  }

  // ---------------------------------------------------------------- what a handle may remember

  /** A replay that was true of some log. */
  ghost predicate Remembered(r: Replayed)
  {
    exists log :: ChainOk(log) && Replay(log) == Done(r)
  }

  /** A remembered replay whose head is the store's head is the replay of the store. */
  lemma RememberedIsCurrent(r: Replayed, events: seq<Event>)
    requires Remembered(r) && ChainOk(events) && r.headHash == LastHash(events)
    ensures Replay(events) == Done(r)
  {
    hide Replay, ChainOk;
    var log :| ChainOk(log) && Replay(log) == Done(r);
    ReplayParts(log, r);
    HeadDetermines(log, events);
  }

  /** Computed again, the preview is the one that was shown. */
  ghost predicate StillPreviewed(p: Pending)
  {
    RecomputePreview(p.sourceFacts, p.expected, p.verified) == Done(NewPreview(p.expected, p.assessment))
  }

  /** What was checked before a commit may be attempted. */
  ghost predicate PendingOk(p: Pending)
  {
    && Remembered(p.verified) && ExistingResult(p.verified.records, p.sourceFacts) == Done(None)
    && StillPreviewed(p)
  }

  /** The preview computed again is the one expected. */
  ghost predicate Recomputes(b: Bundle, expected: PreviewBinding, state: Replayed)
  {
    && RecomputePreview(b, expected, state).Done? && RecomputePreview(b, expected, state).value.NewPreview?
    && RecomputePreview(b, expected, state).value.binding == expected
  }

  /** Assessed at the checkpoint, the bundle is decided otherwise than it was previewed. */
  ghost predicate Reclassified(p: Pending, checkpointAt: Time)
  {
    var final := Stored(p.sourceFacts, FactsOf(p.verified.records), checkpointAt);
    final.Some? && DecisionOf(final.value.assessment, final.value.nextFacts) != p.expected.decision
  }

  lemma PendingPreviewed(p: Pending)
    requires PendingOk(p)
    ensures StillPreviewed(p)
  {}

  /** No boundary of the bundle lies between the preview and the checkpoint. */
  predicate OnTheSameSide(p: Pending, checkpointAt: Time)
  {
    CanonicalTime(checkpointAt) && SameSide(p.sourceFacts, FactsOf(p.verified.records), p.expected.evaluatedAt, checkpointAt)
  }

  lemma StoredIds(b: Bundle, facts: Facts, at: Time)
    requires Stored(b, facts, at).Some?
    ensures var a := Stored(b, facts, at).value.assessment;
            a.bundleId == BundleId(b) && a.refreshId == RefreshId(BundleId(b)) && a.evaluatedAt == at && a.predecessorId == facts.head
  {
    hide AssessmentOk, FactsOk, BundleOk, AllRows, Diagnostics, SummaryOfX, BaseContext, RowLess, MarketplaceUsable, BundleId, RefreshId, NextFacts;
  }

  lemma StoredAssessed(b: Bundle, facts: Facts, at: Time)
    requires Stored(b, facts, at).Some?
    ensures BundleOk(b) && FactsOk(facts) && WithinCap(facts) && CanonicalTime(at)
    ensures Assess(b, facts, at) == Stored(b, facts, at) == Some(Result(AssessmentOf(b, facts, at), NextFacts(b, facts, at)))
  {
    hide BundleOk, FactsOk, WithinCap, AssessmentOk, AssessmentOf, NextFacts;
  }

  lemma PreviewStored(p: Pending)
    requires StillPreviewed(p)
    ensures Stored(p.sourceFacts, FactsOf(p.verified.records), p.expected.evaluatedAt).Some?
  {
    hide Stored, DecisionOf, BindingOk;
  }

  /** What the second assessment of a commit is for: between two times on the same side of every boundary of the
      bundle it finds nothing new. The final assessment exists and its decision is the one that was previewed. */
  lemma NeverReclassified(p: Pending, checkpointAt: Time)
    requires PendingOk(p) && OnTheSameSide(p, checkpointAt)
    ensures Stored(p.sourceFacts, FactsOf(p.verified.records), checkpointAt).Some? && !Reclassified(p, checkpointAt)
  {
    hide Stored, DecisionOf, SameSide, BundleOk, FactsOk, WithinCap, Assess, AssessmentOf, NextFacts, Remembered, RecomputePreview,
      ExistingResult, CanonicalTime;
    var (b, facts, at) := (p.sourceFacts, FactsOf(p.verified.records), p.expected.evaluatedAt);
    PreviewStored(p);
    StoredAssessed(b, facts, at);
    PreviewSays(p, p.verified, Stored(b, facts, at).value);
    RefusalsAreConstant(b, facts, at, checkpointAt);
    StoredIs(b, facts, checkpointAt);
    StoredAssessed(b, facts, checkpointAt);
    DecisionsAreConstant(b, facts, at, checkpointAt);
  }

  lemma StoredIs(b: Bundle, facts: Facts, at: Time)
    requires BundleOk(b) && FactsOk(facts) && WithinCap(facts) && CanonicalTime(at)
    ensures Stored(b, facts, at) == Assess(b, facts, at)
  {
    hide BundleOk, FactsOk, WithinCap, Assess;
  }

  // ---------------------------------------------------------------- what a preview shows

  /** A preview can be computed: there is room, the clock has not gone back, the deadline is a time, the revision is
      positive, and the bundle is assessed. */
  ghost predicate Previewable(b: Bundle, context: Context, state: Replayed)
  {
    && |state.records| < MAX_HISTORY && context.modeRevision >= 1 && context.evaluatedAt + PREVIEW_TTL <= MAX_TIME
    && (Latest(state.records).Some? ==> Latest(state.records).value.checkpointAt <= context.evaluatedAt)
    && Stored(b, FactsOf(state.records), context.evaluatedAt).Some?
  }

  /** What is handed out: the history and head of the log, the process, revision and time of the context, the bundle's
      identifiers, the assessment and the decision on it. */
  ghost predicate Shows(b: Bundle, context: Context, state: Replayed, previewId: string, p: PreviewBinding, a: Assessment)
  {
    var stored := Stored(b, FactsOf(state.records), context.evaluatedAt);
    && p.historyId == state.historyId && p.auditHead == HeadOf(state.records) && p.previewId == previewId
    && p.processInstanceId == context.processInstanceId && p.modeRevision == context.modeRevision
    && p.evaluatedAt == context.evaluatedAt && p.deadline == context.evaluatedAt + PREVIEW_TTL
    && p.bundleId == BundleId(b) && p.refreshId == RefreshId(BundleId(b))
    && stored.Some? && a == stored.value.assessment && p.decision == DecisionOf(stored.value.assessment, stored.value.nextFacts)
  }

  function ContextOf(p: PreviewBinding): Context { Context(p.processInstanceId, p.modeRevision, p.evaluatedAt) }

  /** The binding is one that a preview of this bundle on this log would show. */
  ghost predicate Stands(b: Bundle, expected: PreviewBinding, state: Replayed, a: Assessment)
  {
    Previewable(b, ContextOf(expected), state) && Shows(b, ContextOf(expected), state, expected.previewId, expected, a)
  }

  /** The head of a replayed log is one that a binding may carry, and the facts remember its refresh. */
  lemma HeadFits(state: Replayed)
    requires Remembered(state)
    ensures HeadOf(state.records).Some? ==> HeadOf(state.records).value.sequence >= 1
    ensures FactsOf(state.records).head == if HeadOf(state.records).None? then None else Some(HeadOf(state.records).value.refreshId)
  {
    hide Replay, ReplayRecords, PayloadOk, Judged, Follows, Fresh, ChainOk;
    var log :| ChainOk(log) && Replay(log) == Done(state);
    ReplayParts(log, state);
    ReplayedRecordsFit(state.historyId, log[1..], state.records);
    if state.records != [] {
      var k := |state.records| - 1;
      assert RecordFits(state.historyId, state.records, k);
      JudgedHead(state.records[..k], state.records[k].payload);
    }
  }

  lemma JudgedHead(before: seq<Record>, p: Payload)
    requires p.BatchPayload? && PayloadOk(p) && Judged(before, p)
    ensures p.nextFacts.head == Some(p.result.binding.refreshId)
  {
    hide Stored, DecisionOf, AssessmentOk, BundleOk, FactsOk, WithinCap, RefreshId, BundleId, FactsOf;
    StoredIds(p.sourceFacts, FactsOf(before), p.result.binding.evaluatedAt);
    StoredHead(p.sourceFacts, FactsOf(before), p.result.binding.evaluatedAt);
  }

  lemma StoredHead(b: Bundle, facts: Facts, at: Time)
    requires Stored(b, facts, at).Some?
    ensures Stored(b, facts, at).value.nextFacts.head == Some(RefreshId(BundleId(b)))
  {
    hide BundleOk, FactsOk, WithinCap, AssessmentOk, AssessmentOf, RefreshId, BundleId, NextWindow, NextLatestX, NextView;
  }

  lemma BindingFits(p: PreviewBinding)
    requires CanonicalTime(p.evaluatedAt) && p.deadline == p.evaluatedAt + PREVIEW_TTL
    requires p.auditHead.Some? ==> p.auditHead.value.sequence >= 1
    ensures BindingOk(p) <==> p.modeRevision >= 1 && p.evaluatedAt + PREVIEW_TTL <= MAX_TIME
  {}

  lemma BindingShows(b: Bundle, context: Context, state: Replayed, previewId: string, result: Result)
    requires Stored(b, FactsOf(state.records), context.evaluatedAt) == Some(result)
    ensures Shows(b, context, state, previewId, BindingFor(state, context, previewId, result), result.assessment)
  {
    hide Stored, DecisionOf, FactsOf, HeadOf, RefreshId, BundleId;
    StoredIds(b, FactsOf(state.records), context.evaluatedAt);
  }

  /** Exactly the previews that can be computed are, and they show what they should. */
  lemma BuiltShows(b: Bundle, context: Context, state: Replayed, previewId: string)
    requires Remembered(state)
    ensures var r := BuildPreview(b, context, state, previewId);
            && (r.Done? <==> Previewable(b, context, state))
            && (r.Done? ==> r.value.NewPreview? && Shows(b, context, state, previewId, r.value.binding, r.value.assessment))
  {
    hide Remembered, Stored, DecisionOf, FactsOf, HeadOf, Latest, Shows, BindingFor, BindingOk, RefreshId, BundleId, BundleOk, FactsOk, WithinCap,
      Assess, AssessmentOf, NextFacts, CanonicalTime;
    HeadFits(state);
    var facts := FactsOf(state.records);
    if Stored(b, facts, context.evaluatedAt).Some? {
      var result := Stored(b, facts, context.evaluatedAt).value;
      var binding := BindingFor(state, context, previewId, result);
      StoredAssessed(b, facts, context.evaluatedAt);
      BindingShows(b, context, state, previewId, result);
      ShowsParts(b, context, state, previewId, binding, result.assessment);
      BindingFits(binding);
    }
  }

  lemma ShowsParts(b: Bundle, context: Context, state: Replayed, previewId: string, p: PreviewBinding, a: Assessment)
    requires Shows(b, context, state, previewId, p, a)
    ensures p.historyId == state.historyId && p.auditHead == HeadOf(state.records) && p.previewId == previewId && ContextOf(p) == context
    ensures p.deadline == context.evaluatedAt + PREVIEW_TTL && p.refreshId == RefreshId(BundleId(b))
  {
    hide Stored, DecisionOf, FactsOf, HeadOf, RefreshId, BundleId;
  }

  /** What is shown determines what is handed out. */
  lemma ShownIsOne(b: Bundle, context: Context, state: Replayed, p: PreviewBinding, a: Assessment, q: PreviewBinding, c: Assessment)
    requires Shows(b, context, state, p.previewId, p, a) && Shows(b, context, state, p.previewId, q, c)
    ensures p == q && a == c
  {
    hide Stored, DecisionOf, FactsOf, HeadOf, RefreshId, BundleId;
  }

  /** Computed again, a preview is the expected one exactly when it still stands. */
  lemma RecomputesIff(b: Bundle, expected: PreviewBinding, state: Replayed, a: Assessment)
    requires Remembered(state)
    ensures RecomputePreview(b, expected, state) == Done(NewPreview(expected, a)) <==> Stands(b, expected, state, a)
  {
    hide BuildPreview, Remembered, Stored, DecisionOf, FactsOf, RefreshId, BundleId, Shows, Previewable;
    var context := ContextOf(expected);
    BuiltShows(b, context, state, expected.previewId);
    ShowsHead(b, context, state, expected, a);
    var r := BuildPreview(b, context, state, expected.previewId);
    if r.Done? && Shows(b, context, state, expected.previewId, expected, a) {
      ShownIsOne(b, context, state, expected, a, r.value.binding, r.value.assessment);
    }
  }

  lemma ShowsHead(b: Bundle, context: Context, state: Replayed, p: PreviewBinding, a: Assessment)
    ensures Shows(b, context, state, p.previewId, p, a) ==> p.historyId == state.historyId && p.auditHead == HeadOf(state.records)
  {
    hide Stored, DecisionOf, FactsOf, HeadOf, RefreshId, BundleId;
  }

  /** The assessment of the bundle on this log, at the time of the binding. */
  ghost predicate StandsBy(b: Bundle, expected: PreviewBinding, state: Replayed)
  {
    Stored(b, FactsOf(state.records), expected.evaluatedAt).Some?
    && Stands(b, expected, state, Stored(b, FactsOf(state.records), expected.evaluatedAt).value.assessment)
  }

  lemma StandsIsBy(b: Bundle, expected: PreviewBinding, state: Replayed, a: Assessment)
    requires Stands(b, expected, state, a)
    ensures StandsBy(b, expected, state)
  {
    hide Stored, DecisionOf, FactsOf, HeadOf, Latest, RefreshId, BundleId;
  }

  lemma RecomputesIs(b: Bundle, expected: PreviewBinding, state: Replayed)
    requires Remembered(state)
    ensures Recomputes(b, expected, state) <==> StandsBy(b, expected, state)
  {
    hide RecomputePreview, Remembered, Stored, FactsOf, Stands;
    RecomputedIsNew(b, expected, state);
    if Recomputes(b, expected, state) {
      var a := RecomputePreview(b, expected, state).value.assessment;
      RecomputesIff(b, expected, state, a);
      StandsIsBy(b, expected, state, a);
    }
    if StandsBy(b, expected, state) { RecomputesIff(b, expected, state, Stored(b, FactsOf(state.records), expected.evaluatedAt).value.assessment); }
  }

  /** The payload that a commit appends. */
  function PayloadOf(p: Pending, assessed: Result, receipt: Receipt, checkpointAt: Time): Payload
  {
    BatchPayload(RecordResult(p.expected, assessed.assessment, receipt, checkpointAt), p.sourceFacts, assessed.nextFacts)
  }

  predicate ReceiptReused(records: seq<Record>, receipt: Receipt)
  {
    || (exists i :: 0 <= i < |records| && SameReceipt(records[i].payload, receipt))
    || receipt.eventSequence <= (if Latest(records).Some? then Latest(records).value.authorization.eventSequence else 0)
  }

  /** What a preview recomputed under the lock says about the event to append. */
  lemma PreviewSays(p: Pending, current: Replayed, assessed: Result)
    requires RecomputePreview(p.sourceFacts, p.expected, current) == Done(NewPreview(p.expected, p.assessment))
    requires Stored(p.sourceFacts, FactsOf(current.records), p.expected.evaluatedAt) == Some(assessed)
    ensures |current.records| < MAX_HISTORY && p.expected.historyId == current.historyId && p.expected.auditHead == HeadOf(current.records)
    ensures p.expected.decision == DecisionOf(assessed.assessment, assessed.nextFacts)
    ensures p.expected.refreshId == RefreshId(BundleId(p.sourceFacts))
    ensures Latest(current.records).Some? ==> p.expected.evaluatedAt >= Latest(current.records).value.checkpointAt
  {
    hide Stored, DecisionOf, BindingOk, HeadOf, FactsOf, Latest, RefreshId, BundleId;
    StoredIds(p.sourceFacts, FactsOf(current.records), p.expected.evaluatedAt);
  }

  /** Every check of a commit together is what replay asks of the appended event. */
  lemma CommitChecks(p: Pending, current: Replayed, assessed: Result, final: Result, receipt: Receipt, checkpointAt: Time, e: Event)
    requires PendingOk(p) && p.verified == current
    requires Stored(p.sourceFacts, FactsOf(current.records), p.expected.evaluatedAt) == Some(assessed)
    requires Stored(p.sourceFacts, FactsOf(current.records), checkpointAt) == Some(final)
    requires DecisionOf(final.assessment, final.nextFacts) == p.expected.decision
    requires !ReceiptReused(current.records, receipt)
    requires PayloadOk(PayloadOf(p, assessed, receipt, checkpointAt))
    requires e.eventType == BatchEvent && e.aggregateId == AGGREGATE_ID && e.eventId == BatchId(p.expected.refreshId)
    requires e.idempotencyKey == e.eventId && e.occurredAt == checkpointAt && e.sequence == |current.records| + 2
    requires e.payload == PayloadOf(p, assessed, receipt, checkpointAt)
    ensures CheckRecord(current.historyId, current.records, e).Done?
  {
    hide Stored, PayloadOk, DecisionOf, Remembered, RecomputePreview, HeadOf, FactsOf, RefreshId, BundleId;
    PreviewSays(p, current, assessed);
    ActionBound(e.payload);
    CommitFollows(p, current, assessed, receipt, checkpointAt);
  }

  lemma ActionBound(p: Payload)
    requires p.BatchPayload? && PayloadOk(p)
    ensures p.result.authorization.actionId == ActionId(p.result.binding) && p.result.checkpointAt < p.result.binding.deadline
  {
    hide AssessmentOk, BundleOk, FactsOk;
  }

  lemma CommitFollows(p: Pending, current: Replayed, assessed: Result, receipt: Receipt, checkpointAt: Time)
    requires PendingOk(p) && p.verified == current && !ReceiptReused(current.records, receipt)
    requires p.expected.refreshId == RefreshId(BundleId(p.sourceFacts))
    requires Latest(current.records).Some? ==> p.expected.evaluatedAt >= Latest(current.records).value.checkpointAt
    ensures var r := RecordResult(p.expected, assessed.assessment, receipt, checkpointAt);
            Follows(current.records, r) && Fresh(current.records, r)
  {
    hide RecomputePreview, RefreshId, BundleId, Replay;
    var r := RecordResult(p.expected, assessed.assessment, receipt, checkpointAt);
    forall i | 0 <= i < |current.records| ensures !Same(current.records[i].payload, r) {
      if current.records[i].payload.BatchPayload? {
        NoExisting(current.records, p.sourceFacts, i);
        RecordHeads(current, i);
        assert !SameReceipt(current.records[i].payload, receipt);
      }
    }
  }

  lemma RecordHeads(r: Replayed, k: nat)
    requires Remembered(r) && k < |r.records| && r.records[k].payload.BatchPayload?
    ensures r.records[k].head.refreshId == r.records[k].payload.result.binding.refreshId
  {
    hide Replay, ReplayRecords, PayloadOk, Judged, Follows, Fresh, HeadOf;
    var log :| ChainOk(log) && Replay(log) == Done(r);
    ReplayParts(log, r);
    ReplayedRecordsFit(r.historyId, log[1..], r.records);
    assert RecordFits(r.historyId, r.records, k);
  }

  // ---------------------------------------------------------------- the store and the handle

  /** The store that several handles share; a transaction is one method on it. */
  class EventStore {
    var events: seq<Event>

    constructor ()
      ensures events == []
    {
      events := [];
    }

    method Append(eventType: EventType, eventId: string, occurredAt: Time, payload: Payload)
      requires ChainOk(events)
      modifies this
      ensures events == Appended(old(events), eventType, eventId, occurredAt, payload) && ChainOk(events)
    {
      ChainAppended(events, eventType, eventId, occurredAt, payload);
      events := events + [Event(|events| + 1, eventType, AGGREGATE_ID, eventId, eventId, occurredAt, payload, LastHash(events))];
    }
  }

  /** Live leases, pruned of those that have run out. */
  function Pruned(leases: map<string, Lease>, now: real): map<string, Lease>
  {
    map id | id in leases && now < leases[id].expiresAt :: leases[id]
  }

  /** A reading that the monotonic clock may give next. */
  predicate Readable(last: Option<real>, now: real) { 0.0 <= now <= MAX_MONOTONIC && (last.Some? ==> last.value <= now) }

  /** The binding holds a lease that still runs at this reading. */
  predicate LiveLease(leases: map<string, Lease>, last: Option<real>, expected: PreviewBinding, now: real)
  {
    && expected.previewId in leases && leases[expected.previewId].binding == expected
    && Readable(last, now) && now < leases[expected.previewId].expiresAt
  }

  /** A lease can be taken at this reading. */
  predicate LeaseFree(leases: map<string, Lease>, last: Option<real>, previewId: string, now: real)
  {
    && Readable(last, now) && now + LEASE_TTL <= MAX_MONOTONIC
    && |Pruned(leases, now)| < MAX_LEASES && previewId !in Pruned(leases, now)
  }

  /** The runtime's authorization is for exactly this preview, in this process. */
  predicate Authorizes(a: Authorization, expected: PreviewBinding, processInstanceId: string)
  {
    && a.owned && a.research && a.actionId == ActionId(expected) && a.requestedRevision == expected.modeRevision
    && a.processInstanceId == processInstanceId == expected.processInstanceId
  }

  /** Leases are bound to their previews and none outlives its window from the last clock reading. */
  ghost predicate LeasesFit(leases: map<string, Lease>, lastMonotonic: Option<real>)
  {
    && |leases| <= MAX_LEASES
    && forall id :: id in leases ==>
         && leases[id].binding.previewId == id && leases[id].actionId == ActionId(leases[id].binding)
         && lastMonotonic.Some? && leases[id].expiresAt <= lastMonotonic.value + LEASE_TTL
  }

  lemma LaterReading(leases: map<string, Lease>, last: Option<real>, now: real)
    requires LeasesFit(leases, last) && (last.Some? ==> last.value <= now)
    ensures LeasesFit(leases, Some(now)) && LeasesFit(Pruned(leases, now), Some(now))
  {
    FewerLeases(leases, Pruned(leases, now));
  }

  class RecordedAttentionHistory {
    const store: EventStore
    const processInstanceId: string
    const assess: (Bundle, Facts, Time) -> Option<Result>
    const parses: Payload -> bool
    var cached: Option<Replayed>
    var closed: bool
    var identity: Option<(EventHash, string)>
    var lastMonotonic: Option<real>
    var leases: map<string, Lease>

    /** The assessor and the event schema are those modelled elsewhere. */
    ghost predicate Assessing()
    {
      (forall b, f, t :: assess(b, f, t) == Stored(b, f, t)) && (forall p :: parses(p) == PayloadOk(p))
    }

    ghost predicate LeasesOk()
      reads this`leases, this`lastMonotonic
    {
      LeasesFit(leases, lastMonotonic)
    }

    ghost predicate Valid()
      reads this
    {
      && Assessing() && LeasesOk()
      && (cached.Some? ==> Remembered(cached.value))
      && (closed ==> cached.None? && leases == map[])
    }

    /** The store replays, to the history this handle knows, and its receipts are vouched for. */
    ghost predicate Verifies(receiptsOk: bool)
      reads this, store
    {
      var replayed := Replay(store.events);
      && replayed.Done? && (replayed.value.records == [] || receiptsOk)
      && (identity.None? || identity == Some((replayed.value.genesisHash, replayed.value.historyId)))
    }

    /** When a preview is answered. */
    ghost predicate MayPreview(b: Bundle, context: Context, previewId: string, now: real, receiptsOk: bool)
      reads this, store
    {
      && !closed && Verifies(receiptsOk)
      && var state := Replay(store.events).value;
         var existing := ExistingResult(state.records, b);
         && existing.Done?
         && (existing.value.None? ==>
               && context.processInstanceId == processInstanceId && Previewable(b, context, state)
               && LeaseFree(leases, lastMonotonic, previewId, now))
    }

    /** When a command gets past its first checks. */
    ghost predicate MayBegin(b: Bundle, expected: PreviewBinding, authorization: Authorization, now: real, receiptsOk: bool)
      reads this, store
    {
      && !closed && Verifies(receiptsOk)
      && var state := Replay(store.events).value;
         var existing := ExistingResult(state.records, b);
         && existing.Done?
         && (existing.value.Some? ==> existing.value.value.binding == expected)
         && (existing.value.None? ==>
               && StandsBy(b, expected, state) && Authorizes(authorization, expected, processInstanceId)
               && LiveLease(leases, lastMonotonic, expected, now))
    }

    /** When a pending command commits: the handle is open, the log is the one that was verified, the lease runs
        at both readings, the receipt is new and for this preview, and the decision is still the one previewed. */
    ghost predicate MayCommit(p: Pending, receipt: Receipt, checkpointAt: Time, now: real, later: real)
      reads this, store
    {
      && !closed && Replay(store.events) == Done(p.verified)
      && LiveLease(leases, lastMonotonic, p.expected, now) && LiveLease(leases, Some(now), p.expected, later)
      && Timely(p, receipt, checkpointAt)
    }

    constructor (store: EventStore, processInstanceId: string, assess: (Bundle, Facts, Time) -> Option<Result>, parses: Payload -> bool)
      requires (forall b, f, t :: assess(b, f, t) == Stored(b, f, t)) && (forall p :: parses(p) == PayloadOk(p))
      ensures Valid() && this.store == store && this.processInstanceId == processInstanceId && !closed
      ensures cached.None? && identity.None? && lastMonotonic.None? && leases == map[]
    {
      this.store := store;
      this.processInstanceId := processInstanceId;
      this.assess := assess;
      this.parses := parses;
      cached, closed, identity, lastMonotonic, leases := None, false, None, None, map[];
    }

    /** `initializeEmptyHistory`: only an empty store gets a genesis event. */
    static method InitializeEmptyHistory(store: EventStore, historyId: string, initializedAt: Time)
      requires ChainOk(store.events)
      modifies store
      ensures ChainOk(store.events)
      ensures old(store.events) != [] ==> store.events == old(store.events)
      ensures old(store.events) == [] ==> |store.events| == 1 && Replay(store.events).Done? && Replay(store.events).value.records == []
    {
      hide ChainOk, Replay;
      if store.events != [] { return; }
      store.Append(GenesisEvent, GenesisId(historyId), initializedAt, GenesisPayload(historyId, initializedAt));
      GenesisReplays(store.events, historyId, initializedAt);
    }

    /** `open`: a store that does not replay, or whose receipts the runtime does not vouch for, opens no history. */
    static method Open(store: EventStore, processInstanceId: string, assess: (Bundle, Facts, Time) -> Option<Result>, parses: Payload -> bool,
                       historyId: string, initializedAt: Time, receiptsOk: bool) returns (r: Reply<RecordedAttentionHistory>)
      requires ChainOk(store.events)
      requires (forall b, f, t :: assess(b, f, t) == Stored(b, f, t)) && (forall p :: parses(p) == PayloadOk(p))
      modifies store
      ensures ChainOk(store.events)
      ensures old(store.events) != [] ==> store.events == old(store.events)
      ensures old(store.events) == [] ==> r.Done? && |store.events| == 1
      ensures r.Done? <==> Replay(store.events).Done? && (Replay(store.events).value.records == [] || receiptsOk)
      ensures Replay(store.events).Refused? ==> r.Refused? && r.error == Replay(store.events).error
      ensures r.Done? ==>
                && fresh(r.value) && r.value.Valid() && r.value.store == store && r.value.processInstanceId == processInstanceId
                && !r.value.closed && r.value.leases == map[] && r.value.cached == Some(Replay(store.events).value)
    {
      hide ChainOk, Replay, Stored, PayloadOk, Remembered;
      InitializeEmptyHistory(store, historyId, initializedAt);
      var history := new RecordedAttentionHistory(store, processInstanceId, assess, parses);
      var verified := history.VerifiedReplay(receiptsOk);
      if verified.Refused? { return Refused(verified.error); }
      r := Done(history);
    }

    // -------------------------------------------------------------- replay and its cache

    /** `replay`: one pass over the log, remembering what was used. */
    method ReplayStore() returns (r: Reply<Replayed>)
      requires Assessing()
      ensures r == Replay(store.events)
    {
      hide CheckRecord, ParseGenesis, Assessing;
      var events := store.events;
      if |events| > MAX_HISTORY + 1 { return Refused(HistoryFull); }
      var genesis := ParseGenesis(events);
      if genesis.Refused? { return Refused(genesis.error); }
      GenesisIsThere(events);
      var batches := events[1..];
      var records: seq<Record> := [];
      var i := 0;
      while i < |batches|
        invariant 0 <= i <= |batches| && ReplayRecords(genesis.value, batches[..i]) == Done(records)
      {
        assert batches[..i + 1][..i] == batches[..i];
        var checked := CheckEvent(genesis.value, records, batches[i]);
        if checked.Refused? {
          RefusedOnward(genesis.value, batches, i + 1);
          return Refused(checked.error);
        }
        records := checked.value;
        i := i + 1;
      }
      assert batches[..i] == batches;
      r := Done(Replayed(EventHash(events[0]), genesis.value, LastHash(events), events[|events| - 1].sequence, records));
    }

    method CheckEvent(historyId: string, records: seq<Record>, e: Event) returns (r: Reply<seq<Record>>)
      requires Assessing()
      ensures r == CheckRecord(historyId, records, e)
    {
      hide Stored, PayloadOk, DecisionFits, EnvelopeFits, Follows, Fresh;
      if e.eventType == LegacyBatchEvent { return Refused(HistoryUnsupported); }
      if e.eventType == GenesisEvent || !parses(e.payload) { return Refused(HistoryInconsistent); }
      PayloadIsBatch(e.payload);
      var recomputed := assess(e.payload.sourceFacts, FactsOf(records), e.payload.result.binding.evaluatedAt);
      var checkpointed := assess(e.payload.sourceFacts, FactsOf(records), e.payload.result.checkpointAt);
      if recomputed.None? || checkpointed.None? { return Refused(InputInvalid); }
      if !EnvelopeFits(historyId, records, e) || !DecisionFits(e.payload, recomputed.value, checkpointed.value)
         || !Follows(records, e.payload.result) || !Fresh(records, e.payload.result) {
        return Refused(HistoryInconsistent);
      }
      r := Done(records + [RecordOf(e)]);
    }

    /** `#replayUnderLock`: the cache is used only while the store's head is the one it was made at, and
        then it is the full replay. */
    method ReplayUnderLock() returns (r: Reply<Replayed>)
      requires Valid() && ChainOk(store.events)
      ensures r == Replay(store.events)
    {
      hide Replay, ChainOk, Remembered, Assessing, LeasesOk;
      if cached.Some? {
        var genesis := ParseGenesis(store.events);
        if genesis.Done? {
          GenesisIsThere(store.events);
          var c := cached.value;
          if EventHash(store.events[0]) == c.genesisHash && genesis.value == c.historyId && LastHash(store.events) == c.headHash
             && store.events[|store.events| - 1].sequence == c.headSequence {
            RememberedIsCurrent(c, store.events);
            return Done(c);
          }
        }
      }
      r := ReplayStore();
    }

    /** `#verifiedReplay`; the runtime's check of persisted receipts is an input. */
    method VerifiedReplay(receiptsOk: bool) returns (r: Reply<Replayed>)
      requires Valid() && ChainOk(store.events)
      modifies this`cached, this`identity
      ensures LeasesOk() && Assessing() && (cached.Some? ==> Remembered(cached.value)) && (!closed ==> Valid())
      ensures r.Done? ==> Replay(store.events) == r && cached == Some(r.value) && identity == Some((r.value.genesisHash, r.value.historyId))
      ensures r.Refused? ==> cached == old(cached) && identity == old(identity)
      ensures r.Done? ==> old(identity).None? || old(identity) == identity
      ensures r.Done? <==> old(Verifies(receiptsOk))
      ensures Replay(store.events).Refused? ==> r.Refused? && r.error == Replay(store.events).error
    {
      hide Replay, ChainOk, LeasesOk, Assessing, Remembered;
      r := ReplayUnderLock();
      if r.Refused? { return; }
      var state := r.value;
      if identity.Some? && identity.value != (state.genesisHash, state.historyId) { return Refused(HistoryChanged); }
      if state.records != [] && !receiptsOk { return Refused(ReceiptsInvalid); }
      identity := Some((state.genesisHash, state.historyId));
      cached := Some(state);
      NowRemembered(store.events, state);
    }

    // -------------------------------------------------------------- the monotonic clock and leases

    method ReadMonotonicClock(value: real) returns (r: Reply<real>)
      modifies this`lastMonotonic
      ensures r.Done? <==> Readable(old(lastMonotonic), value)
      ensures r.Done? ==> r.value == value && lastMonotonic == Some(value)
      ensures r.Refused? ==> lastMonotonic == old(lastMonotonic) && (r.error == MonotonicClockInvalid || r.error == MonotonicClockRegressed)
    {
      if value < 0.0 || value > MAX_MONOTONIC { return Refused(MonotonicClockInvalid); }
      if lastMonotonic.Some? && value < lastMonotonic.value { return Refused(MonotonicClockRegressed); }
      lastMonotonic := Some(value);
      r := Done(value);
    }

    /** `#reserveLeaseWindow`: expired leases go, and a full table refuses. */
    method ReserveLeaseWindow(now: real) returns (r: Reply<real>)
      requires LeasesOk()
      modifies this`lastMonotonic, this`leases
      ensures LeasesOk()
      ensures r.Done? <==> Readable(old(lastMonotonic), now) && now + LEASE_TTL <= MAX_MONOTONIC && |Pruned(old(leases), now)| < MAX_LEASES
      ensures r.Done? ==> r.value == now + LEASE_TTL && leases == Pruned(old(leases), now) && |leases| < MAX_LEASES && lastMonotonic == Some(now)
      ensures leases == old(leases) || leases == Pruned(old(leases), now)
    {
      hide LeasesFit, Pruned;
      var reading := ReadMonotonicClock(now);
      if reading.Refused? { return Refused(reading.error); }
      LaterReading(leases, old(lastMonotonic), now);
      PruneLeases(now);
      if |leases| >= MAX_LEASES { return Refused(PreviewCapacityReached); }
      if now + LEASE_TTL > MAX_MONOTONIC { return Refused(MonotonicClockInvalid); }
      r := Done(now + LEASE_TTL);
    }

    method PruneLeases(now: real)
      modifies this`leases
      ensures leases == Pruned(old(leases), now)
    {
      var rest := leases.Keys;
      while rest != {}
        invariant rest <= leases.Keys
        invariant leases == map id | id in old(leases) && (id in rest || now < old(leases)[id].expiresAt) :: old(leases)[id]
        decreases |rest|
      {
        var id :| id in rest;
        rest := rest - {id};
        if now >= leases[id].expiresAt { leases := leases - {id}; }
      }
    }

    /** `#assertLiveLease`: a lease past its window is dropped. */
    method AssertLiveLease(expected: PreviewBinding, now: real) returns (error: Option<Error>)
      requires LeasesOk()
      modifies this`lastMonotonic, this`leases
      ensures LeasesOk()
      ensures error.None? <==> LiveLease(old(leases), old(lastMonotonic), expected, now)
      ensures error.None? ==> lastMonotonic == Some(now)
      ensures error != Some(ClassificationChanged)
      ensures error.None? ==>
                && leases == old(leases) && expected.previewId in leases && leases[expected.previewId].binding == expected
                && now < leases[expected.previewId].expiresAt
      ensures error == Some(PreviewExpired) ==> leases == old(leases) - {expected.previewId}
      ensures error.Some? && error != Some(PreviewExpired) ==> leases == old(leases)
    {
      if expected.previewId !in leases { return Some(LeaseMissing); }
      var lease := leases[expected.previewId];
      if lease.binding != expected || lease.actionId != ActionId(expected) { return Some(LeaseMismatch); }
      var reading := ReadMonotonicClock(now);
      if reading.Refused? { return Some(reading.error); }
      if now >= lease.expiresAt {
        FewerLeases(leases, leases - {expected.previewId});
        leases := leases - {expected.previewId};
        return Some(PreviewExpired);
      }
      error := None;
    }

    // -------------------------------------------------------------- preview

    method Build(b: Bundle, context: Context, state: Replayed, previewId: string) returns (r: Reply<Preview>)
      requires Assessing()
      ensures r == BuildPreview(b, context, state, previewId)
    {
      hide Stored, PayloadOk;
      var latest := Latest(state.records);
      if |state.records| >= MAX_HISTORY { return Refused(HistoryFull); }
      if latest.Some? && context.evaluatedAt < latest.value.checkpointAt { return Refused(ClockRegressed); }
      if context.evaluatedAt + PREVIEW_TTL > MAX_TIME { return Refused(TimeInvalid); }
      var result := assess(b, FactsOf(state.records), context.evaluatedAt);
      if result.None? { return Refused(InputInvalid); }
      var binding := BindingFor(state, context, previewId, result.value);
      if !BindingOk(binding) { return Refused(InputInvalid); }
      r := Done(NewPreview(binding, result.value.assessment));
    }

    method Recompute(b: Bundle, expected: PreviewBinding, state: Replayed) returns (r: Reply<Preview>)
      requires Assessing()
      ensures r == RecomputePreview(b, expected, state)
    {
      hide BuildPreview, Assessing;
      if expected.historyId != state.historyId { return Refused(HistoryMismatch); }
      if expected.auditHead != HeadOf(state.records) { return Refused(PreviewStale); }
      r := Build(b, Context(expected.processInstanceId, expected.modeRevision, expected.evaluatedAt), state, expected.previewId);
    }

    /** `preview`: a recorded bundle is answered from the log; otherwise a lease of 30 seconds is taken. */
    method Preview(b: Bundle, context: Context, previewId: string, now: real, receiptsOk: bool) returns (r: Reply<Preview>)
      requires Valid() && ChainOk(store.events)
      modifies this
      ensures Valid()
      ensures r.Done? <==> old(MayPreview(b, context, previewId, now, receiptsOk))
      ensures r.Done? && r.value.AlreadyRecorded? ==>
                leases == old(leases) && Replay(store.events).Done?
                && ExistingResult(Replay(store.events).value.records, b) == Done(Some(r.value.result))
                && HoldsResult(Replay(store.events).value.records, b, r.value.result)
      ensures r.Done? && r.value.NewPreview? ==>
                && Replay(store.events).Done? && ExistingResult(Replay(store.events).value.records, b) == Done(None)
                && Shows(b, context, Replay(store.events).value, previewId, r.value.binding, r.value.assessment)
                && leases == Pruned(old(leases), now)[previewId := Lease(ActionId(r.value.binding), r.value.binding, now + LEASE_TTL)]
                && previewId !in Pruned(old(leases), now) && lastMonotonic == Some(now)
      ensures r.Done? ==> identity == Some((Replay(store.events).value.genesisHash, Replay(store.events).value.historyId)) && closed == old(closed)
      ensures r.Refused? ==> leases == old(leases) || leases == Pruned(old(leases), now)
    {
      hide Replay, ChainOk, Assessing, Remembered, ExistingResult, BuildPreview, LeasesOk, Pruned, HoldsResult, Previewable, Shows, LeaseFree;
      if closed { return Refused(HistoryUnavailable); }
      var verified := VerifiedReplay(receiptsOk);
      if verified.Refused? { return Refused(verified.error); }
      var existing := ExistingResult(verified.value.records, b);
      if existing.Refused? { return Refused(existing.error); }
      if existing.value.Some? {
        ExistingIsRecorded(verified.value.records, b, existing.value.value);
        return Done(AlreadyRecorded(existing.value.value));
      }
      if context.processInstanceId != processInstanceId { return Refused(AuthorityMismatch); }
      BuiltShows(b, context, verified.value, previewId);
      r := Build(b, context, verified.value, previewId);
      if r.Refused? { return; }
      ShowsParts(b, context, verified.value, previewId, r.value.binding, r.value.assessment);
      var refusal := TakeLease(r.value.binding, now);
      if refusal.Some? { return Refused(refusal.value); }
    }

    /** A lease of 30 seconds on a preview not leased before. */
    method TakeLease(binding: PreviewBinding, now: real) returns (refusal: Option<Error>)
      requires LeasesOk()
      modifies this`lastMonotonic, this`leases
      ensures LeasesOk()
      ensures refusal.None? <==> LeaseFree(old(leases), old(lastMonotonic), binding.previewId, now)
      ensures refusal.None? ==>
                && binding.previewId !in Pruned(old(leases), now)
                && leases == Pruned(old(leases), now)[binding.previewId := Lease(ActionId(binding), binding, now + LEASE_TTL)]
                && lastMonotonic == Some(now)
      ensures refusal.Some? ==> leases == old(leases) || leases == Pruned(old(leases), now)
    {
      var window := ReserveLeaseWindow(now);
      if window.Refused? { return Some(window.error); }
      if binding.previewId in leases { return Some(PreviewIdCollision); }
      leases := leases[binding.previewId := Lease(ActionId(binding), binding, window.value)];
      refusal := None;
    }

    // -------------------------------------------------------------- record, in three parts

    /** `record` up to the authorization: a repeat returns what is stored. */
    method Begin(b: Bundle, expected: PreviewBinding, authorization: Authorization, now: real, receiptsOk: bool) returns (r: Reply<Begun>)
      requires Valid() && ChainOk(store.events)
      modifies this
      ensures Valid()
      ensures r.Done? <==> old(MayBegin(b, expected, authorization, now, receiptsOk))
      ensures r.Done? && r.value.Recorded? ==>
                && leases == old(leases) && r.value.result.binding == expected && Replay(store.events).Done?
                && ExistingResult(Replay(store.events).value.records, b) == Done(Some(r.value.result))
                && HoldsResult(Replay(store.events).value.records, b, r.value.result)
      ensures r.Done? && r.value.Ready? ==>
                && PendingOk(r.value.pending) && r.value.pending.sourceFacts == b && r.value.pending.expected == expected
                && authorization.owned && authorization.actionId == ActionId(expected) && expected.previewId in leases
                && authorization.requestedRevision == expected.modeRevision && authorization.processInstanceId == expected.processInstanceId
                && Replay(store.events) == Done(r.value.pending.verified) && leases == old(leases) && lastMonotonic == Some(now)
                && identity == Some((r.value.pending.verified.genesisHash, r.value.pending.verified.historyId))
      ensures closed == old(closed)
    {
      hide Replay, ChainOk, Assessing, LeasesOk, Remembered, ExistingResult, RecomputePreview, HoldsResult, Verifies, LiveLease, LeasesFit, Stored, FactsOf,
        StandsBy;
      if closed { return Refused(HistoryUnavailable); }
      var verified := VerifiedReplay(receiptsOk);
      if verified.Refused? { return Refused(verified.error); }
      var existing := ExistingResult(verified.value.records, b);
      if existing.Refused? { return Refused(existing.error); }
      if existing.value.Some? {
        if existing.value.value.binding != expected { return Refused(PreviewMismatch); }
        ExistingIsRecorded(verified.value.records, b, existing.value.value);
        return Done(Recorded(existing.value.value));
      }
      RecomputesIs(b, expected, verified.value);
      var preview := Recompute(b, expected, verified.value);
      if preview.Refused? { return Refused(preview.error); }
      RecomputedIsNew(b, expected, verified.value);
      if preview.value.binding != expected { return Refused(PreviewMismatch); }
      if !authorization.owned || authorization.actionId != ActionId(expected) || authorization.processInstanceId != processInstanceId
         || authorization.processInstanceId != expected.processInstanceId || authorization.requestedRevision != expected.modeRevision
         || !authorization.research {
        return Refused(AuthorityMismatch);
      }
      var error := AssertLiveLease(expected, now);
      if error.Some? { return Refused(error.value); }
      r := Done(Ready(Pending(b, expected, verified.value, preview.value.assessment)));
    }

    /** The log under the lock is the one that was verified. */
    method CheckCurrent(p: Pending) returns (error: Option<Error>)
      requires Valid() && ChainOk(store.events) && PendingOk(p)
      ensures error.None? <==> !closed && Replay(store.events) == Done(p.verified)
      ensures error != Some(ClassificationChanged)
    {
      ReplayErrors(store.events);
      hide Replay, ChainOk, Assessing, LeasesOk, Remembered, PendingOk;
      if closed { return Some(HistoryUnavailable); }
      var replayed := ReplayUnderLock();
      if replayed.Refused? { return Some(replayed.error); }
      var current := replayed.value;
      if current.genesisHash != p.verified.genesisHash || current.historyId != p.verified.historyId || current.headHash != p.verified.headHash
         || current.headSequence != p.verified.headSequence {
        return Some(PreviewStale);
      }
      PendingIsCurrent(p, current, store.events);
      error := None;
    }

    /** The preview computed again under the lock is the one that was verified. */
    method CheckPreview(p: Pending) returns (error: Option<Error>)
      requires Assessing()
      ensures error.None? <==> StillPreviewed(p)
      ensures error.Some? ==> error.value == PreviewMismatch
    {
      hide RecomputePreview;
      var preview := Recompute(p.sourceFacts, p.expected, p.verified);
      error := if preview == Done(NewPreview(p.expected, p.assessment)) then None else Some(PreviewMismatch);
    }

    /** The checks of a commit, all made again under the lock. */
    method CheckCommit(p: Pending, receipt: Receipt, checkpointAt: Time, now: real, later: real) returns (r: Reply<Payload>)
      requires Valid() && ChainOk(store.events) && PendingOk(p)
      modifies this`lastMonotonic, this`leases
      ensures Valid()
      ensures r.Done? <==> old(MayCommit(p, receipt, checkpointAt, now, later)) && StillPreviewed(p)
      ensures r == Refused(ClassificationChanged) ==> Reclassified(p, checkpointAt)
      ensures r.Done? ==>
                && Replay(store.events) == Done(p.verified) && Committable(p, p.verified, receipt, checkpointAt, r.value)
                && leases == old(leases) && p.expected.previewId in leases && leases[p.expected.previewId].binding == p.expected
                && later < leases[p.expected.previewId].expiresAt
    {
      hide Replay, ChainOk, Assessing, LeasesOk, Remembered, PendingOk, Committable, Acceptable, LiveLease, StillPreviewed, Reclassified, Timely;
      AcceptableIff(p, receipt, checkpointAt);
      var error := CheckCurrent(p);
      if error.Some? { return Refused(error.value); }
      error := AssertLiveLease(p.expected, now);
      if error.Some? { return Refused(error.value); }
      error := CheckPreview(p);
      if error.Some? { return Refused(error.value); }
      var payload := JudgeCommit(p, p.verified, receipt, checkpointAt);
      if payload.Refused? { return Refused(payload.error); }
      error := AssertLiveLease(p.expected, later);
      if error.Some? { return Refused(error.value); }
      r := Done(payload.value);
    }

    /** The commit: one exclusive transaction that checks everything again and appends one event. */
    method Commit(p: Pending, receipt: Receipt, checkpointAt: Time, now: real, later: real) returns (r: Reply<RecordResult>)
      requires Valid() && ChainOk(store.events) && PendingOk(p)
      modifies this, store
      ensures Valid() && ChainOk(store.events)
      ensures r.Done? <==> old(MayCommit(p, receipt, checkpointAt, now, later))
      ensures r == Refused(ClassificationChanged) ==> Reclassified(p, checkpointAt)
      ensures OnTheSameSide(p, checkpointAt) ==> r != Refused(ClassificationChanged)
      ensures old(Replay(store.events)).Done? ==> Replay(store.events).Done?
      ensures r.Refused? ==> store.events == old(store.events)
      ensures r.Done? ==>
                && old(Replay(store.events)) == Done(p.verified) && |store.events| == |old(store.events)| + 1
                && old(store.events) <= store.events && r.value.binding == p.expected && r.value.checkpointAt == checkpointAt
                && Replay(store.events).Done? && Latest(Replay(store.events).value.records) == Some(r.value)
      ensures r.Done? ==>
                && p.expected.previewId in old(leases) && old(leases)[p.expected.previewId].binding == p.expected
                && later < old(leases)[p.expected.previewId].expiresAt && checkpointAt < p.expected.deadline
      ensures r.Done? ==>
                && Replay(store.events).value.genesisHash == p.verified.genesisHash && Replay(store.events).value.historyId == p.verified.historyId
                && leases == old(leases)
      ensures closed == old(closed) && identity == old(identity)
    {
      hide Replay, ChainOk, Assessing, LeasesOk, Remembered, Appended, PendingOk, Committable, Latest, BatchId, MayCommit, StillPreviewed,
        Reclassified, OnTheSameSide, LeasesFit, LiveLease, Acceptable, Timely, Verifies, FactsOf, Stored, RecomputePreview;
      PendingPreviewed(p);
      if OnTheSameSide(p, checkpointAt) { NeverReclassified(p, checkpointAt); }
      var payload := CheckCommit(p, receipt, checkpointAt, now, later);
      if payload.Refused? { return Refused(payload.error); }
      ghost var before := store.events;
      InTime(p, receipt, checkpointAt, payload.value);
      store.Append(BatchEvent, BatchId(p.expected.refreshId), checkpointAt, payload.value);
      CommittedReplays(p, p.verified, before, store.events, receipt, checkpointAt, payload.value);
      r := Done(payload.value.result);
    }

    /** Reuse, deadline, final classification and schema: the payload that may be appended. */
    method JudgeCommit(p: Pending, current: Replayed, receipt: Receipt, checkpointAt: Time) returns (r: Reply<Payload>)
      requires Assessing()
      ensures r.Done? <==> Acceptable(p, current, receipt, checkpointAt)
      ensures current == p.verified && r == Refused(ClassificationChanged) ==> Reclassified(p, checkpointAt)
      ensures r.Done? ==> Committable(p, current, receipt, checkpointAt, r.value)
    {
      hide Stored, PayloadOk, ReceiptReused, DecisionOf;
      var assessed := assess(p.sourceFacts, FactsOf(current.records), p.expected.evaluatedAt);
      if assessed.None? { return Refused(InputInvalid); }
      if ReceiptReused(current.records, receipt) { return Refused(AuthorizationReused); }
      if checkpointAt >= p.expected.deadline { return Refused(PreviewExpired); }
      var final := assess(p.sourceFacts, FactsOf(current.records), checkpointAt);
      if final.None? { return Refused(InputInvalid); }
      if DecisionOf(final.value.assessment, final.value.nextFacts) != p.expected.decision { return Refused(ClassificationChanged); }
      var payload := PayloadOf(p, assessed.value, receipt, checkpointAt);
      if !parses(payload) { return Refused(InputInvalid); }
      r := Done(payload);
    }

    /** After the commit: the lease is gone and the log ends with what was recorded. */
    method Finish(p: Pending, result: RecordResult, receiptsOk: bool) returns (r: Reply<RecordResult>)
      requires Valid() && ChainOk(store.events) && !closed
      modifies this
      ensures Valid() && p.expected.previewId !in leases && leases == old(leases) - {p.expected.previewId}
      ensures r.Done? ==> r.value == result && Replay(store.events).Done? && Latest(Replay(store.events).value.records) == Some(result)
      ensures r.Done? <==> old(Verifies(receiptsOk)) && Latest(Replay(store.events).value.records) == Some(result)
    {
      hide Replay, ChainOk, Assessing, Remembered;
      FewerLeases(leases, leases - {p.expected.previewId});
      leases := leases - {p.expected.previewId};
      var verified := VerifiedReplay(receiptsOk);
      if verified.Refused? { return Refused(verified.error); }
      if Latest(verified.value.records) != Some(result) { return Refused(HistoryChanged); }
      r := Done(result);
    }

    method Close()
      requires Valid()
      modifies this
      ensures Valid() && closed && leases == map[]
    {
      hide Assessing, Remembered;
      leases, cached, closed := map[], None, true;
    }
  }

  // ---------------------------------------------------------------- what the methods rely on

  lemma GenesisReplays(events: seq<Event>, historyId: string, initializedAt: Time)
    requires events == Appended([], GenesisEvent, GenesisId(historyId), initializedAt, GenesisPayload(historyId, initializedAt))
    ensures Replay(events).Done? && |events| == 1 && Replay(events).value.records == []
  {
    hide CheckRecord;
    assert events[1..] == [];
  }

  lemma {:induction false} RecordErrors(historyId: string, batches: seq<Event>)
    ensures ReplayRecords(historyId, batches) != Refused(ClassificationChanged)
  {
    hide Stored, PayloadOk, DecisionFits, EnvelopeFits, Follows, Fresh;
    if batches == [] {
    } else {
      RecordErrors(historyId, batches[..|batches| - 1]);
    }
  }

  lemma ReplayErrors(events: seq<Event>)
    ensures Replay(events) != Refused(ClassificationChanged)
  {
    hide ReplayRecords;
    if events != [] && ParseGenesis(events).Done? { RecordErrors(ParseGenesis(events).value, events[1..]); }
  }

  lemma GenesisIsThere(events: seq<Event>)
    requires ParseGenesis(events).Done?
    ensures events != []
  {}

  lemma {:induction false} RefusedOnward(historyId: string, batches: seq<Event>, n: nat)
    requires n <= |batches| && ReplayRecords(historyId, batches[..n]).Refused?
    ensures ReplayRecords(historyId, batches) == ReplayRecords(historyId, batches[..n])
    decreases |batches| - n
  {
    hide CheckRecord;
    if n == |batches| {
      assert batches[..n] == batches;
    } else {
      assert batches[..n + 1][..n] == batches[..n];
      RefusedOnward(historyId, batches, n + 1);
    }
  }

  lemma NowRemembered(events: seq<Event>, state: Replayed)
    requires ChainOk(events) && Replay(events) == Done(state)
    ensures Remembered(state)
  {
    hide Replay, ChainOk;
  }

  lemma FewerLeases(before: map<string, Lease>, after: map<string, Lease>)
    requires after.Keys <= before.Keys
    ensures |after| <= |before|
  {
    assert before.Keys == after.Keys + (before.Keys - after.Keys);
    assert |after| == |after.Keys| && |before| == |before.Keys|;
  }

  lemma BuiltIsNew(b: Bundle, context: Context, state: Replayed, previewId: string)
    ensures BuildPreview(b, context, state, previewId).Done? ==>
              BuildPreview(b, context, state, previewId).value.NewPreview?
              && BuildPreview(b, context, state, previewId).value.binding.previewId == previewId
  {
    hide Stored, BindingOk, DecisionOf;
  }

  lemma RecomputedIsNew(b: Bundle, expected: PreviewBinding, state: Replayed)
    ensures RecomputePreview(b, expected, state).Done? ==> RecomputePreview(b, expected, state).value.NewPreview?
  {
    hide BuildPreview;
    BuiltIsNew(b, Context(expected.processInstanceId, expected.modeRevision, expected.evaluatedAt), state, expected.previewId);
  }

  lemma PendingIsCurrent(p: Pending, current: Replayed, events: seq<Event>)
    requires PendingOk(p) && ChainOk(events) && Replay(events) == Done(current) && current.headHash == p.verified.headHash
    ensures p.verified == current
  {
    hide Replay, ChainOk, Remembered, RecomputePreview, ExistingResult;
    ReplayParts(events, current);
    RememberedIsCurrent(p.verified, events);
  }

  /** The receipt is new, the deadline ahead, the final decision the one previewed, and the payload well formed. */
  ghost predicate Acceptable(p: Pending, current: Replayed, receipt: Receipt, checkpointAt: Time)
  {
    var assessed := Stored(p.sourceFacts, FactsOf(current.records), p.expected.evaluatedAt);
    var final := Stored(p.sourceFacts, FactsOf(current.records), checkpointAt);
    && assessed.Some? && !ReceiptReused(current.records, receipt) && checkpointAt < p.expected.deadline
    && final.Some? && DecisionOf(final.value.assessment, final.value.nextFacts) == p.expected.decision
    && PayloadOk(PayloadOf(p, assessed.value, receipt, checkpointAt))
  }

  /** The receipt is for this preview, in its process and at its revision, was checked between the preview and the
      checkpoint, and no record of the log has its authorization, its event or a later sequence. */
  predicate ReceiptFits(p: Pending, receipt: Receipt, checkpointAt: Time)
  {
    var records := p.verified.records;
    && receipt.actionId == ActionId(p.expected) && receipt.processInstanceId == p.expected.processInstanceId
    && receipt.modeRevision == p.expected.modeRevision
    && CanonicalTime(receipt.checkedAt) && p.expected.evaluatedAt <= receipt.checkedAt <= checkpointAt
    && receipt.eventSequence >= 1 && (Latest(records).Some? ==> Latest(records).value.authorization.eventSequence < receipt.eventSequence)
    && forall i :: 0 <= i < |records| && records[i].payload.BatchPayload? ==>
         && records[i].payload.result.authorization.authorizationId != receipt.authorizationId
         && records[i].payload.result.authorization.eventHash != receipt.eventHash
  }

  /** The receipt fits, the deadline is ahead, and the bundle is decided at the checkpoint as it was previewed. */
  ghost predicate Timely(p: Pending, receipt: Receipt, checkpointAt: Time)
  {
    var final := Stored(p.sourceFacts, FactsOf(p.verified.records), checkpointAt);
    && ReceiptFits(p, receipt, checkpointAt) && checkpointAt < p.expected.deadline
    && final.Some? && DecisionOf(final.value.assessment, final.value.nextFacts) == p.expected.decision
  }

  lemma ReusedIff(p: Pending, receipt: Receipt)
    requires receipt.eventSequence >= 1
    ensures !ReceiptReused(p.verified.records, receipt) <==>
              (Latest(p.verified.records).Some? ==> Latest(p.verified.records).value.authorization.eventSequence < receipt.eventSequence)
              && forall i :: 0 <= i < |p.verified.records| && p.verified.records[i].payload.BatchPayload? ==>
                   p.verified.records[i].payload.result.authorization.authorizationId != receipt.authorizationId
                   && p.verified.records[i].payload.result.authorization.eventHash != receipt.eventHash
  {
    hide Latest;
  }

  /** The payload of a standing preview is well formed as soon as its receipt and times fit. */
  lemma PayloadFits(p: Pending, stored: Result, receipt: Receipt, checkpointAt: Time)
    requires Stands(p.sourceFacts, p.expected, p.verified, p.assessment) && Remembered(p.verified)
    requires Stored(p.sourceFacts, FactsOf(p.verified.records), p.expected.evaluatedAt) == Some(stored)
    requires CanonicalTime(checkpointAt) && checkpointAt < p.expected.deadline
    ensures PayloadOk(PayloadOf(p, stored, receipt, checkpointAt)) <==>
              && receipt.actionId == ActionId(p.expected) && receipt.processInstanceId == p.expected.processInstanceId
              && receipt.modeRevision == p.expected.modeRevision
              && CanonicalTime(receipt.checkedAt) && p.expected.evaluatedAt <= receipt.checkedAt <= checkpointAt
              && receipt.eventSequence >= 1
  {
    hide Remembered, Stored, DecisionOf, FactsOf, HeadOf, Latest, RefreshId, BundleId, BundleOk, FactsOk, WithinCap, AssessmentOk, AssessmentOf,
      NextFacts, CanonicalTime, BindingOk;
    HeadFits(p.verified);
    StoredIds(p.sourceFacts, FactsOf(p.verified.records), p.expected.evaluatedAt);
    StoredAssessed(p.sourceFacts, FactsOf(p.verified.records), p.expected.evaluatedAt);
    BindingFits(p.expected);
  }

  /** Of a pending command, the payload passes every check exactly when the receipt fits and the decision is kept. */
  lemma AcceptableIff(p: Pending, receipt: Receipt, checkpointAt: Time)
    requires PendingOk(p)
    ensures Acceptable(p, p.verified, receipt, checkpointAt) <==> Timely(p, receipt, checkpointAt)
  {
    hide Remembered, Stored, DecisionOf, FactsOf, HeadOf, Latest, RecomputePreview, ExistingResult, PayloadOk, PayloadOf, ReceiptReused, Stands,
      CanonicalTime, BundleOk, FactsOk, WithinCap, Assess, AssessmentOf, NextFacts;
    RecomputesIff(p.sourceFacts, p.expected, p.verified, p.assessment);
    PreviewStored(p);
    var stored := Stored(p.sourceFacts, FactsOf(p.verified.records), p.expected.evaluatedAt).value;
    if Stored(p.sourceFacts, FactsOf(p.verified.records), checkpointAt).Some? && checkpointAt < p.expected.deadline {
      StoredAssessed(p.sourceFacts, FactsOf(p.verified.records), checkpointAt);
      PayloadFits(p, stored, receipt, checkpointAt);
      if receipt.eventSequence >= 1 { ReusedIff(p, receipt); }
    }
  }

  /** The payload passed every check of the commit. */
  ghost predicate Committable(p: Pending, current: Replayed, receipt: Receipt, checkpointAt: Time, payload: Payload)
  {
    && Acceptable(p, current, receipt, checkpointAt)
    && payload == PayloadOf(p, Stored(p.sourceFacts, FactsOf(current.records), p.expected.evaluatedAt).value, receipt, checkpointAt)
  }

  lemma InTime(p: Pending, receipt: Receipt, checkpointAt: Time, payload: Payload)
    requires Committable(p, p.verified, receipt, checkpointAt, payload)
    ensures payload.BatchPayload? && checkpointAt < p.expected.deadline
  {
    hide Stored, PayloadOk, ReceiptReused, DecisionOf;
  }

  /** A committed event extends the log to one that replays, and ends with it. */
  lemma CommittedReplays(p: Pending, current: Replayed, before: seq<Event>, after: seq<Event>, receipt: Receipt, checkpointAt: Time, payload: Payload)
    requires PendingOk(p) && p.verified == current && Replay(before) == Done(current)
    requires Committable(p, current, receipt, checkpointAt, payload)
    requires after == Appended(before, BatchEvent, BatchId(p.expected.refreshId), checkpointAt, payload)
    ensures before <= after && |after| == |before| + 1 && Replay(after).Done?
    ensures payload.BatchPayload? && Latest(Replay(after).value.records) == Some(payload.result)
    ensures current.records < Replay(after).value.records
    ensures payload.result.binding == p.expected && payload.result.checkpointAt == checkpointAt
    ensures Replay(after).value.genesisHash == current.genesisHash && Replay(after).value.historyId == current.historyId
  {
    hide Stored, PayloadOk, ReceiptReused, DecisionOf, Remembered, RecomputePreview, ExistingResult, Replay, CheckRecord, BatchId;
    var assessed := Stored(p.sourceFacts, FactsOf(current.records), p.expected.evaluatedAt).value;
    var final := Stored(p.sourceFacts, FactsOf(current.records), checkpointAt).value;
    ReplayParts(before, current);
    var e := after[|before|];
    CommitChecks(p, current, assessed, final, receipt, checkpointAt, e);
    RoomForOne(p, current, assessed);
    AppendReplays(before, current, after);
    CheckedLast(current, e);
  }

  lemma RoomForOne(p: Pending, current: Replayed, assessed: Result)
    requires PendingOk(p) && p.verified == current
    requires Stored(p.sourceFacts, FactsOf(current.records), p.expected.evaluatedAt) == Some(assessed)
    ensures |current.records| < MAX_HISTORY
  {
    hide Stored, Remembered, RecomputePreview, ExistingResult;
    PreviewSays(p, current, assessed);
  }

  lemma CheckedLast(current: Replayed, e: Event)
    requires CheckRecord(current.historyId, current.records, e).Done?
    ensures e.payload.BatchPayload? && Latest(CheckRecord(current.historyId, current.records, e).value) == Some(e.payload.result)
    ensures current.records < CheckRecord(current.historyId, current.records, e).value
  {
    hide Stored, DecisionFits, EnvelopeFits, Follows, Fresh, AssessmentOk, FactsOk, BundleOk;
  }

  // ---------------------------------------------------------------- logs written by any handles

  /** One commit attempt, by whatever handle. */
  datatype Attempt = Attempt(pending: Pending, receipt: Receipt, checkpointAt: Time, payload: Payload)

  ghost predicate Commits(events: seq<Event>, a: Attempt)
  {
    && PendingOk(a.pending) && Replay(events) == Done(a.pending.verified)
    && Committable(a.pending, a.pending.verified, a.receipt, a.checkpointAt, a.payload)
  }

  /** The log after one attempt. */
  ghost function Written(events: seq<Event>, a: Attempt): seq<Event>
  {
    if Commits(events, a) then Appended(events, BatchEvent, BatchId(a.pending.expected.refreshId), a.checkpointAt, a.payload) else events
  }

  ghost function WrittenAll(events: seq<Event>, attempts: seq<Attempt>): seq<Event>
  {
    if attempts == [] then events else Written(WrittenAll(events, attempts[..|attempts| - 1]), attempts[|attempts| - 1])
  }

  /** Write/replay agreement: from an accepted log, however the commits of several handles interleave,
      the log is accepted by replay, only ever grows, and stays a chain. */
  lemma {:induction false} EveryWrittenLogReplays(events: seq<Event>, attempts: seq<Attempt>)
    requires ChainOk(events) && Replay(events).Done?
    ensures var log := WrittenAll(events, attempts); ChainOk(log) && Replay(log).Done? && events <= log
  {
    hide ChainOk, Replay, Commits, Appended, BatchId;
    if attempts == [] {
    } else {
      var front, a := attempts[..|attempts| - 1], attempts[|attempts| - 1];
      EveryWrittenLogReplays(events, front);
      WrittenReplays(WrittenAll(events, front), a);
    }
  }

  lemma WrittenReplays(log: seq<Event>, a: Attempt)
    requires ChainOk(log) && Replay(log).Done?
    ensures ChainOk(Written(log, a)) && Replay(Written(log, a)).Done? && log <= Written(log, a)
  {
    hide ChainOk, Replay, PendingOk, Committable, BatchId, Appended;
    if Commits(log, a) {
      var id := BatchId(a.pending.expected.refreshId);
      ChainAppended(log, BatchEvent, id, a.checkpointAt, a.payload);
      CommittedReplays(a.pending, a.pending.verified, log, Appended(log, BatchEvent, id, a.checkpointAt, a.payload), a.receipt, a.checkpointAt, a.payload);
    }
  }

  /** Once a preview's refresh is in the log, no attempt with that binding appends anything. */
  lemma RecordedOnce(events: seq<Event>, state: Replayed, k: nat, a: Attempt)
    requires Replay(events) == Done(state) && k < |state.records| && state.records[k].payload.BatchPayload?
    requires state.records[k].payload.result.binding.refreshId == a.pending.expected.refreshId
    ensures Written(events, a) == events
  {
    hide Replay, Committable, BatchId, Appended, Remembered, RecomputePreview, ExistingResult;
    if Commits(events, a) {
      RecordHeads(state, k);
      NoExisting(state.records, a.pending.sourceFacts, k);
      ExpectedRefresh(a, state);
    }
  }

  lemma ExpectedRefresh(a: Attempt, state: Replayed)
    requires PendingOk(a.pending) && a.pending.verified == state && Committable(a.pending, state, a.receipt, a.checkpointAt, a.payload)
    ensures a.pending.expected.refreshId == RefreshId(BundleId(a.pending.sourceFacts))
  {
    hide Stored, PayloadOk, ReceiptReused, DecisionOf, Remembered, RecomputePreview, ExistingResult, RefreshId, BundleId;
    PreviewSays(a.pending, state, Stored(a.pending.sourceFacts, FactsOf(state.records), a.pending.expected.evaluatedAt).value);
  }

  // ---------------------------------------------------------------- one binding, one append

  /** The refresh is in the log. */
  ghost predicate InLog(log: seq<Event>, refreshId: string)
  {
    && Replay(log).Done?
    && exists k :: 0 <= k < |Replay(log).value.records| && Replay(log).value.records[k].payload.BatchPayload?
                   && Replay(log).value.records[k].payload.result.binding.refreshId == refreshId
  }

  lemma InLogStays(log: seq<Event>, a: Attempt, refreshId: string)
    requires ChainOk(log) && InLog(log, refreshId)
    ensures InLog(Written(log, a), refreshId)
  {
    hide ChainOk, Replay, PendingOk, Committable, BatchId, Appended;
    if Commits(log, a) {
      var after := Appended(log, BatchEvent, BatchId(a.pending.expected.refreshId), a.checkpointAt, a.payload);
      CommittedReplays(a.pending, a.pending.verified, log, after, a.receipt, a.checkpointAt, a.payload);
      var before, records := Replay(log).value.records, Replay(after).value.records;
      var k :| 0 <= k < |before| && before[k].payload.BatchPayload? && before[k].payload.result.binding.refreshId == refreshId;
      assert records[k] == before[k];
    }
  }

  lemma AppendedIsInLog(log: seq<Event>, a: Attempt)
    requires ChainOk(log) && Written(log, a) != log
    ensures InLog(Written(log, a), a.pending.expected.refreshId)
  {
    hide ChainOk, Replay, PendingOk, Committable, BatchId, Appended;
    var after := Appended(log, BatchEvent, BatchId(a.pending.expected.refreshId), a.checkpointAt, a.payload);
    CommittedReplays(a.pending, a.pending.verified, log, after, a.receipt, a.checkpointAt, a.payload);
    var records := Replay(after).value.records;
    LatestIsLast(records, a.payload.result);
    assert records[|records| - 1].payload.result.binding.refreshId == a.pending.expected.refreshId;
  }

  lemma LatestIsLast(records: seq<Record>, result: RecordResult)
    requires Latest(records) == Some(result)
    ensures |records| > 0 && records[|records| - 1].payload.BatchPayload? && records[|records| - 1].payload.result == result
  {}

  lemma InLogRefuses(log: seq<Event>, a: Attempt)
    requires InLog(log, a.pending.expected.refreshId)
    ensures Written(log, a) == log
  {
    hide Replay, Written;
    var state := Replay(log).value;
    var k :| 0 <= k < |state.records| && state.records[k].payload.BatchPayload?
             && state.records[k].payload.result.binding.refreshId == a.pending.expected.refreshId;
    RecordedOnce(log, state, k, a);
  }

  lemma {:induction false} InLogOnward(events: seq<Event>, attempts: seq<Attempt>, m: nat, n: nat, refreshId: string)
    requires ChainOk(events) && Replay(events).Done? && m <= n <= |attempts| && InLog(WrittenAll(events, attempts[..m]), refreshId)
    ensures InLog(WrittenAll(events, attempts[..n]), refreshId)
    decreases n - m
  {
    hide ChainOk, Replay, InLog, Written;
    if m < n {
      assert attempts[..m + 1][..m] == attempts[..m];
      EveryWrittenLogReplays(events, attempts[..m]);
      InLogStays(WrittenAll(events, attempts[..m]), attempts[m], refreshId);
      InLogOnward(events, attempts, m + 1, n, refreshId);
    }
  }

  /** Over a whole run of commit attempts by any handles, a binding, and so the lease taken for it, leads to at
      most one append: once an attempt has appended, no later attempt for the same refresh does. */
  lemma BindingAppendsOnce(events: seq<Event>, attempts: seq<Attempt>, m: nat, n: nat)
    requires ChainOk(events) && Replay(events).Done? && m < n < |attempts|
    requires attempts[m].pending.expected.refreshId == attempts[n].pending.expected.refreshId
    requires WrittenAll(events, attempts[..m + 1]) != WrittenAll(events, attempts[..m])
    ensures WrittenAll(events, attempts[..n + 1]) == WrittenAll(events, attempts[..n])
  {
    hide ChainOk, Replay, InLog, Written;
    assert attempts[..m + 1][..m] == attempts[..m] && attempts[..n + 1][..n] == attempts[..n];
    EveryWrittenLogReplays(events, attempts[..m]);
    AppendedIsInLog(WrittenAll(events, attempts[..m]), attempts[m]);
    InLogOnward(events, attempts, m + 1, n, attempts[m].pending.expected.refreshId);
    InLogRefuses(WrittenAll(events, attempts[..n]), attempts[n]);
  }
}
