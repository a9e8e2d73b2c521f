/** The recorded-attention log: an append-only hash chain of one genesis event and recorded batches, and
    the replay that accepts it (packages/attention/src/history.ts:147-220, history-schemas.ts). Digests
    are ideal: an event's hash is the event, an action identifier is the binding it was derived from. */
module AttentionLog {
  import opened Wrappers
  import opened Attention
  import opened AttentionFacts
  import opened AttentionRows
  import opened AttentionTime
  import opened AttentionHistoryRefinement

  const PREVIEW_TTL: Time := 30_000
  const MAX_HISTORY: nat := 1_000
  const AGGREGATE_ID: string := "attention:recorded-base"

  datatype EventType = GenesisEvent | BatchEvent | LegacyBatchEvent | OtherEvent
  datatype EventHash = ZeroHash | EventHash(event: Event)
  datatype Event = Event(
    sequence: int, eventType: EventType, aggregateId: string, eventId: string, idempotencyKey: string, occurredAt: Time,
    payload: Payload, previous: EventHash)

  datatype Payload =
    | GenesisPayload(historyId: string, initializedAt: Time)
    | BatchPayload(result: RecordResult, sourceFacts: Bundle, nextFacts: Facts)
    | UnknownPayload

  datatype Head = Head(refreshId: string, eventHash: EventHash, sequence: int)
  datatype PreviewBinding = PreviewBinding(
    historyId: string, previewId: string, bundleId: string, refreshId: string, auditHead: Option<Head>, processInstanceId: string,
    modeRevision: int, evaluatedAt: Time, deadline: Time, decision: Decision)
  datatype ActionId = ActionId(binding: PreviewBinding)
  datatype Receipt = Receipt(
    actionId: ActionId, authorizationId: string, checkedAt: Time, eventHash: string, eventSequence: int, modeRevision: int,
    processInstanceId: string)
  datatype RecordResult = RecordResult(binding: PreviewBinding, assessment: Assessment, authorization: Receipt, checkpointAt: Time)

  datatype Record = Record(head: Head, payload: Payload)
  datatype Replayed = Replayed(genesisHash: EventHash, historyId: string, headHash: EventHash, headSequence: int, records: seq<Record>)

  datatype Reply<+T> = Done(value: T) | Refused(error: Error)
  datatype Error =
    | HistoryFull | HistoryInconsistent | HistoryUnsupported | HistoryChanged | HistoryMismatch | HistoryUnavailable
    | InputInvalid | ClockRegressed | TimeInvalid | PreviewStale | PreviewMismatch | PreviewExpired | PreviewCapacityReached
    | PreviewIdCollision | LeaseMissing | LeaseMismatch | MonotonicClockInvalid | MonotonicClockRegressed | AuthorityMismatch
    | AuthorizationReused | ClassificationChanged | IdentityReused | ReceiptsInvalid | CommitMissing

  // ---------------------------------------------------------------- the store's contract

  /** Sequences are consecutive and every event holds the hash of the one before it. */
  ghost predicate ChainOk(events: seq<Event>)
  {
    forall i :: 0 <= i < |events| ==> Linked(events, i)
  }

  predicate Linked(events: seq<Event>, i: nat)
    requires i < |events|
  {
    events[i].sequence == i + 1 && events[i].previous == if i == 0 then ZeroHash else EventHash(events[i - 1])
  }

  function LastHash(events: seq<Event>): EventHash { if events == [] then ZeroHash else EventHash(events[|events| - 1]) }

  /** `store.append`. */
  function Appended(events: seq<Event>, eventType: EventType, eventId: string, occurredAt: Time, payload: Payload): seq<Event>
  {
    events + [Event(|events| + 1, eventType, AGGREGATE_ID, eventId, eventId, occurredAt, payload, LastHash(events))]
  }

  // ---------------------------------------------------------------- schemas

  predicate BindingOk(b: PreviewBinding)
  {
    && CanonicalTime(b.evaluatedAt) && CanonicalTime(b.deadline) && b.deadline - b.evaluatedAt == PREVIEW_TTL
    && b.modeRevision >= 1 && (b.auditHead.Some? ==> b.auditHead.value.sequence >= 1)
  }

  /** The refinement that binds a result to its preview and authorization. */
  predicate ResultBound(r: RecordResult)
  {
    && r.assessment.bundleId == r.binding.bundleId && r.assessment.refreshId == r.binding.refreshId
    && r.assessment.predecessorId == (if r.binding.auditHead.None? then None else Some(r.binding.auditHead.value.refreshId))
    && r.assessment.evaluatedAt == r.binding.evaluatedAt
    && r.authorization.actionId == ActionId(r.binding)
    && r.authorization.processInstanceId == r.binding.processInstanceId && r.authorization.modeRevision == r.binding.modeRevision
    && r.binding.evaluatedAt <= r.authorization.checkedAt <= r.checkpointAt < r.binding.deadline
  }

  /** `AttentionRecordedEventSchema`. */
  ghost predicate PayloadOk(p: Payload)
  {
    && p.BatchPayload? && BindingOk(p.result.binding) && ResultBound(p.result)
    && AssessmentOk(p.result.assessment) && CanonicalTime(p.result.checkpointAt) && CanonicalTime(p.result.authorization.checkedAt)
    && p.result.authorization.eventSequence >= 1
    && BundleOk(p.sourceFacts) && FactsOk(p.nextFacts) && WithinCap(p.nextFacts)
  }

  /** `assessStoredRecordedAttention`: refuses inputs outside their schemas. */
  ghost function Stored(b: Bundle, facts: Facts, at: Time): Option<Result>
  {
    if BundleOk(b) && FactsOk(facts) && WithinCap(facts) && CanonicalTime(at) then Assess(b, facts, at) else None
  }

  // ---------------------------------------------------------------- replay

  function HeadOf(records: seq<Record>): Option<Head> { if records == [] then None else Some(records[|records| - 1].head) }

  function FactsAfter(p: Payload): Facts { if p.BatchPayload? then p.nextFacts else EMPTY_FACTS }

  function FactsOf(records: seq<Record>): Facts { if records == [] then EMPTY_FACTS else FactsAfter(records[|records| - 1].payload) }

  function BatchId(refreshId: string): string { "attention-batch-v2:" + refreshId }
  function GenesisId(historyId: string): string { "attention-history-v1:" + historyId }

  /** What an event must agree with besides the assessor. */
  predicate EnvelopeFits(historyId: string, records: seq<Record>, e: Event)
    requires e.payload.BatchPayload?
  {
    var binding, result := e.payload.result.binding, e.payload.result;
    && e.eventType == BatchEvent && e.aggregateId == AGGREGATE_ID
    && e.eventId == BatchId(binding.refreshId) && e.idempotencyKey == BatchId(binding.refreshId)
    && e.occurredAt == result.checkpointAt && e.sequence == |records| + 2
    && binding.historyId == historyId && binding.auditHead == HeadOf(records)
    && result.authorization.actionId == ActionId(binding)
  }

  /** The recomputed assessments agree with what was stored and previewed. */
  predicate DecisionFits(p: Payload, recomputed: Result, checkpointed: Result)
    requires p.BatchPayload?
  {
    && recomputed == Result(p.result.assessment, p.nextFacts)
    && DecisionOf(recomputed.assessment, recomputed.nextFacts) == p.result.binding.decision
    && DecisionOf(checkpointed.assessment, checkpointed.nextFacts) == p.result.binding.decision
  }

  /** Time and authorization order against the previous record. */
  predicate Follows(records: seq<Record>, r: RecordResult)
  {
    records == [] || !records[|records| - 1].payload.BatchPayload? ||
    (var prior := records[|records| - 1].payload.result;
     r.binding.evaluatedAt >= prior.checkpointAt && r.authorization.eventSequence > prior.authorization.eventSequence)
  }

  predicate Same(a: Payload, r: RecordResult)
  {
    a.BatchPayload? && (a.result.binding.refreshId == r.binding.refreshId || SameReceipt(a, r.authorization))
  }

  predicate SameReceipt(a: Payload, r: Receipt)
  {
    a.BatchPayload? && (a.result.authorization.authorizationId == r.authorizationId || a.result.authorization.eventHash == r.eventHash)
  }

  /** No refresh, authorization or receipt is used twice. */
  predicate Fresh(records: seq<Record>, r: RecordResult)
  {
    forall i :: 0 <= i < |records| ==> !Same(records[i].payload, r)
  }

  function RecordOf(e: Event): Record
    requires e.payload.BatchPayload?
  {
    Record(Head(e.payload.result.binding.refreshId, EventHash(e), e.sequence), e.payload)
  }

  /** One batch event against the records before it. */
  ghost function CheckRecord(historyId: string, records: seq<Record>, e: Event): Reply<seq<Record>>
  {
    if e.eventType == LegacyBatchEvent then Refused(HistoryUnsupported)
    else if e.eventType == GenesisEvent || !PayloadOk(e.payload) then Refused(HistoryInconsistent)
    else
      var recomputed := Stored(e.payload.sourceFacts, FactsOf(records), e.payload.result.binding.evaluatedAt);
      var checkpointed := Stored(e.payload.sourceFacts, FactsOf(records), e.payload.result.checkpointAt);
      if recomputed.None? || checkpointed.None? then Refused(InputInvalid)
      else if !EnvelopeFits(historyId, records, e) || !DecisionFits(e.payload, recomputed.value, checkpointed.value)
              || !Follows(records, e.payload.result) || !Fresh(records, e.payload.result)
      then Refused(HistoryInconsistent)
      else Done(records + [RecordOf(e)])
  }

  /** `parseGenesis`: the history's identity. */
  function ParseGenesis(events: seq<Event>): Reply<string>
  {
    if events == [] then Refused(HistoryInconsistent)
    else
      var g := events[0];
      if g.eventType == LegacyBatchEvent then Refused(HistoryUnsupported)
      else if g.eventType != GenesisEvent || !g.payload.GenesisPayload? || g.aggregateId != AGGREGATE_ID || g.sequence != 1 || g.previous != ZeroHash
              || g.eventId != GenesisId(g.payload.historyId) || g.idempotencyKey != GenesisId(g.payload.historyId)
              || g.occurredAt != g.payload.initializedAt
      then Refused(HistoryInconsistent)
      else Done(g.payload.historyId)
  }

  ghost function ReplayRecords(historyId: string, batches: seq<Event>): Reply<seq<Record>>
  {
    if batches == [] then Done([])
    else
      match ReplayRecords(historyId, batches[..|batches| - 1])
      case Refused(e) => Refused(e)
      case Done(records) => CheckRecord(historyId, records, batches[|batches| - 1])
  }

  ghost function Replay(events: seq<Event>): Reply<Replayed>
  {
    if |events| > MAX_HISTORY + 1 then Refused(HistoryFull)
    else
      match ParseGenesis(events)
      case Refused(e) => Refused(e)
      case Done(historyId) =>
        match ReplayRecords(historyId, events[1..])
        case Refused(e) => Refused(e)
        case Done(records) => Done(Replayed(EventHash(events[0]), historyId, LastHash(events), events[|events| - 1].sequence, records))
  }

  // ---------------------------------------------------------------- the head determines the log

  /** Two chains with the same head are the same chain. */
  lemma {:induction false} HeadDetermines(a: seq<Event>, b: seq<Event>)
    requires ChainOk(a) && ChainOk(b) && LastHash(a) == LastHash(b)
    ensures a == b
    decreases |a|
  {
    if a == [] {
    } else {
      var m, n := |a| - 1, |b| - 1;
      assert Linked(a, m) && Linked(b, n);
      ChainPrefix(a, m);
      ChainPrefix(b, n);
      HeadDetermines(a[..m], b[..n]);
      assert a == a[..m] + [a[m]] && b == b[..n] + [b[n]];
    }
  }

  lemma ChainPrefix(events: seq<Event>, n: nat)
    requires ChainOk(events) && n <= |events|
    ensures ChainOk(events[..n])
    ensures n > 0 ==> LastHash(events[..n]) == EventHash(events[n - 1])
  {
    forall i | 0 <= i < n ensures Linked(events[..n], i) { assert Linked(events, i); }
  }

  lemma ChainAppended(events: seq<Event>, eventType: EventType, eventId: string, occurredAt: Time, payload: Payload)
    requires ChainOk(events)
    ensures ChainOk(Appended(events, eventType, eventId, occurredAt, payload))
  {
    var more := Appended(events, eventType, eventId, occurredAt, payload);
    forall i | 0 <= i < |more| ensures Linked(more, i) {
      if i < |events| { assert Linked(events, i); }
    }
  }

  // ---------------------------------------------------------------- what an accepted log means

  /** Recomputed at its evaluation and at its checkpoint, the batch is the decision that was previewed. */
  ghost predicate Judged(before: seq<Record>, p: Payload)
    requires p.BatchPayload?
  {
    var recomputed := Stored(p.sourceFacts, FactsOf(before), p.result.binding.evaluatedAt);
    var checkpointed := Stored(p.sourceFacts, FactsOf(before), p.result.checkpointAt);
    recomputed.Some? && checkpointed.Some? && DecisionFits(p, recomputed.value, checkpointed.value)
  }

  /** One accepted batch: everything replay checked about it. */
  ghost predicate RecordFits(historyId: string, records: seq<Record>, k: nat)
    requires k < |records|
  {
    var p, before := records[k].payload, records[..k];
    && p.BatchPayload? && PayloadOk(p) && Judged(before, p)
    && p.result.binding.historyId == historyId && p.result.binding.auditHead == HeadOf(before)
    && Follows(before, p.result) && Fresh(before, p.result)
    && records[k].head.refreshId == p.result.binding.refreshId && records[k].head.sequence == k + 2
  }

  lemma FitsBefore(historyId: string, records: seq<Record>, last: Record, k: nat)
    requires k < |records| && RecordFits(historyId, records, k)
    ensures RecordFits(historyId, records + [last], k)
  {
    hide PayloadOk, Judged, Follows, Fresh, HeadOf;
    assert (records + [last])[..k] == records[..k];
  }

  lemma {:induction false} ReplayedRecordsFit(historyId: string, batches: seq<Event>, records: seq<Record>)
    requires ReplayRecords(historyId, batches) == Done(records)
    ensures |records| == |batches|
    ensures forall k :: 0 <= k < |records| ==> RecordFits(historyId, records, k)
  {
    hide RecordFits, CheckRecord;
    if batches == [] {
    } else {
      var front, e := batches[..|batches| - 1], batches[|batches| - 1];
      var before := ReplayRecords(historyId, front).value;
      ReplayedRecordsFit(historyId, front, before);
      CheckedFits(historyId, before, e, records);
      forall k | 0 <= k < |records| ensures RecordFits(historyId, records, k) {
        if k < |before| { FitsBefore(historyId, before, records[|before|], k); }
      }
    }
  }

  lemma PayloadIsBatch(p: Payload)
    requires PayloadOk(p)
    ensures p.BatchPayload?
  {
    hide AssessmentOk, BundleOk, FactsOk, ResultBound;
  }

  lemma CheckedFits(historyId: string, before: seq<Record>, e: Event, records: seq<Record>)
    requires CheckRecord(historyId, before, e) == Done(records)
    ensures |records| == |before| + 1 && records == before + [records[|before|]] && RecordFits(historyId, records, |before|)
  {
    hide PayloadOk, Stored, DecisionFits, Follows, Fresh, HeadOf, FactsOf;
    assert PayloadOk(e.payload);
    PayloadIsBatch(e.payload);
    assert records == before + [RecordOf(e)];
    assert records[..|before|] == before;
    assert Judged(before, e.payload);
  }

  // ---------------------------------------------------------------- writing agrees with replaying

  /** A batch that the checks accept extends an accepted log to an accepted log. */
  lemma AppendReplays(events: seq<Event>, state: Replayed, next: seq<Event>)
    requires Replay(events) == Done(state) && |next| == |events| + 1 && next[..|events|] == events
    requires |state.records| < MAX_HISTORY
    requires CheckRecord(state.historyId, state.records, next[|events|]).Done?
    ensures var records := CheckRecord(state.historyId, state.records, next[|events|]).value;
            Replay(next) == Done(Replayed(state.genesisHash, state.historyId, LastHash(next), next[|events|].sequence, records))
  {
    hide CheckRecord;
    ReplayedRecordsCount(state.historyId, events[1..], state.records);
    assert next[0] == events[0];
    assert next[1..][..|events| - 1] == events[1..] && next[1..][|events| - 1] == next[|events|];
  }

  lemma ReplayedRecordsCount(historyId: string, batches: seq<Event>, records: seq<Record>)
    requires ReplayRecords(historyId, batches) == Done(records)
    ensures |records| == |batches|
  {
    ReplayedRecordsFit(historyId, batches, records);
  }

  lemma ReplayParts(events: seq<Event>, state: Replayed)
    requires Replay(events) == Done(state)
    ensures events != [] && |state.records| == |events| - 1 && ReplayRecords(state.historyId, events[1..]) == Done(state.records)
    ensures state.headHash == LastHash(events) && state.genesisHash == EventHash(events[0]) && ParseGenesis(events) == Done(state.historyId)
  {
    hide ReplayRecords;
    ReplayedRecordsCount(state.historyId, events[1..], state.records);
  }

  // ---------------------------------------------------------------- exactly-once

  /** In an accepted log every refresh, authorization and receipt occurs once, authorizations are in
      sequence, and no batch was evaluated before the previous one's checkpoint. */
  lemma EveryBatchOnce(events: seq<Event>, state: Replayed, i: nat, j: nat)
    requires Replay(events) == Done(state) && i < j < |state.records|
    ensures state.records[i].payload.BatchPayload? && state.records[j].payload.BatchPayload?
    ensures var (a, b) := (state.records[i].payload.result, state.records[j].payload.result);
            && a.binding.refreshId != b.binding.refreshId
            && a.authorization.authorizationId != b.authorization.authorizationId && a.authorization.eventHash != b.authorization.eventHash
            && a.authorization.eventSequence < b.authorization.eventSequence && a.checkpointAt <= b.binding.evaluatedAt
  {
    ReplayParts(events, state);
    ReplayedRecordsFit(state.historyId, events[1..], state.records);
    OnceInOrder(state.historyId, state.records, i, j);
  }

  lemma {:induction false} OnceInOrder(historyId: string, records: seq<Record>, i: nat, j: nat)
    requires i < j < |records| && forall k :: 0 <= k < |records| ==> RecordFits(historyId, records, k)
    ensures records[i].payload.BatchPayload? && records[j].payload.BatchPayload?
    ensures var (a, b) := (records[i].payload.result, records[j].payload.result);
            && a.binding.refreshId != b.binding.refreshId
            && a.authorization.authorizationId != b.authorization.authorizationId && a.authorization.eventHash != b.authorization.eventHash
            && a.authorization.eventSequence < b.authorization.eventSequence && a.checkpointAt <= b.binding.evaluatedAt
    decreases j
  {
    hide RecordFits, Same;
    BatchAt(historyId, records, i);
    BatchAt(historyId, records, j);
    FollowsPrevious(historyId, records, j);
    FreshFrom(historyId, records, i, j);
    DifferentReceipts(records[i].payload, records[j].payload.result);
    if i < j - 1 {
      OnceInOrder(historyId, records, i, j - 1);
      BatchAt(historyId, records, j - 1);
    }
  }

  lemma DifferentReceipts(a: Payload, r: RecordResult)
    requires a.BatchPayload? && !Same(a, r)
    ensures a.result.binding.refreshId != r.binding.refreshId
    ensures a.result.authorization.authorizationId != r.authorization.authorizationId
    ensures a.result.authorization.eventHash != r.authorization.eventHash
  {}

  lemma BatchAt(historyId: string, records: seq<Record>, k: nat)
    requires k < |records| && RecordFits(historyId, records, k)
    ensures records[k].payload.BatchPayload?
    ensures records[k].payload.result.binding.evaluatedAt <= records[k].payload.result.checkpointAt < records[k].payload.result.binding.deadline
  {
    hide Judged, Fresh, Follows, AssessmentOk, BundleOk, FactsOk;
  }

  lemma FollowsPrevious(historyId: string, records: seq<Record>, k: nat)
    requires 0 < k < |records| && RecordFits(historyId, records, k) && RecordFits(historyId, records, k - 1)
    ensures records[k].payload.BatchPayload? && records[k - 1].payload.BatchPayload?
    ensures records[k - 1].payload.result.authorization.eventSequence < records[k].payload.result.authorization.eventSequence
    ensures records[k - 1].payload.result.checkpointAt <= records[k].payload.result.binding.evaluatedAt
  {
    hide Judged, Fresh, PayloadOk, HeadOf;
    assert records[..k][k - 1] == records[k - 1];
  }

  lemma FreshFrom(historyId: string, records: seq<Record>, i: nat, j: nat)
    requires i < j < |records| && RecordFits(historyId, records, i) && RecordFits(historyId, records, j)
    ensures records[i].payload.BatchPayload? && records[j].payload.BatchPayload?
    ensures !Same(records[i].payload, records[j].payload.result)
  {
    hide Judged, Follows, PayloadOk, Same, HeadOf;
    assert records[..j][i] == records[i];
  }

  // ---------------------------------------------------------------- the fold

  /** The bundles of a log, each with the time it was evaluated. */
  function VisitsOf(records: seq<Record>): seq<Visit>
  {
    if records == [] then []
    else
      var p := records[|records| - 1].payload;
      VisitsOf(records[..|records| - 1]) + (if p.BatchPayload? then [Visit(p.sourceFacts, p.result.binding.evaluatedAt)] else [])
  }

  /** The stored facts are the assessor folded over the stored bundles. */
  lemma {:induction false} FactsAreFolded(historyId: string, records: seq<Record>)
    requires forall k :: 0 <= k < |records| ==> RecordFits(historyId, records, k)
    ensures FactsOf(records) == Fold(VisitsOf(records))
    ensures |VisitsOf(records)| == |records|
    ensures forall k :: 0 <= k < |records| ==> BundleOk(VisitsOf(records)[k].bundle)
  {
    hide RecordFits, Fold, FactsOf, BundleOk;
    if records == [] {
      NoFacts();
    } else {
      var front, n := records[..|records| - 1], |records| - 1;
      forall k | 0 <= k < n ensures RecordFits(historyId, front, k) { FitsPrefix(historyId, records, n, k); }
      FactsAreFolded(historyId, front);
      FoldStep(historyId, records, VisitsOf(front));
    }
  }

  lemma NoFacts()
    ensures FactsOf([]) == Fold([])
  {}

  lemma FitsPrefix(historyId: string, records: seq<Record>, n: nat, k: nat)
    requires k < n <= |records| && RecordFits(historyId, records, k)
    ensures RecordFits(historyId, records[..n], k)
  {
    hide PayloadOk, Judged, Follows, Fresh, HeadOf;
    assert records[..n][..k] == records[..k];
  }

  lemma FoldStep(historyId: string, records: seq<Record>, visits: seq<Visit>)
    requires records != [] && RecordFits(historyId, records, |records| - 1)
    requires FactsOf(records[..|records| - 1]) == Fold(visits)
    ensures var p := records[|records| - 1].payload;
            p.BatchPayload? && BundleOk(p.sourceFacts) && Fold(visits + [Visit(p.sourceFacts, p.result.binding.evaluatedAt)]) == FactsOf(records)
  {
    var p := records[|records| - 1].payload;
    var visit := Visit(p.sourceFacts, p.result.binding.evaluatedAt);
    assert Stored(p.sourceFacts, Fold(visits), p.result.binding.evaluatedAt) == Some(Result(p.result.assessment, p.nextFacts));
    hide PayloadOk, DecisionFits, Follows, Fresh, Assess, Windows;
    WindowsMore(visits, visit);
    hide Fold;
  }

  /** Whatever the log holds, its facts are those of its bundles' history: first bindings, first
      sights, disjoint collections. */
  lemma LogIsFaithful(events: seq<Event>, state: Replayed)
    requires Replay(events) == Done(state)
    ensures Faithful(FactsOf(state.records), Windows(VisitsOf(state.records)))
  {
    hide Faithful, RecordFits, ReplayRecords, Replay, Windows, VisitsOf;
    ReplayParts(events, state);
    ReplayedRecordsFit(state.historyId, events[1..], state.records);
    FactsAreFolded(state.historyId, state.records);
    FoldIsFaithful(VisitsOf(state.records));
  }
}
