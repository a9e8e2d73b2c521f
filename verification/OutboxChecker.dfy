/** What `verifyIntegrityInternal` accepts (packages/alerts/src/alert-outbox.ts:1540-1791), stated
    as a predicate over the tables. */
module OutboxChecker {
  import opened Wrappers
  import opened OutboxModel

  datatype Numbered = Numbered(attempt: int, body: AttemptBody)

  /** The fields of an audit row that its delivery's history is checked against. */
  datatype Core = Core(eventType: EventType, plane: Plane, attempt: Option<int>, state: DeliveryState,
                       retryable: Option<bool>, at: Time)

  function CoreOf(body: AuditBody): Core
  {
    Core(body.eventType, body.plane, body.attempt, body.state, body.retryable, body.occurredAt)
  }

  /** The attempts of one delivery, in attempt order. */
  function Related(db: Db, id: DeliveryId): seq<Numbered>
  {
    (if AttemptKey(id, 1) in db.attempts then [Numbered(1, db.attempts[AttemptKey(id, 1)].body)] else []) +
    (if AttemptKey(id, 2) in db.attempts then [Numbered(2, db.attempts[AttemptKey(id, 2)].body)] else [])
  }

  /** The audit rows of one delivery, in sequence order. */
  function EventsOf(audit: seq<AuditRow>, id: DeliveryId): seq<Core>
  {
    if audit == [] then []
    else
      var last := audit[|audit| - 1].body;
      EventsOf(audit[..|audit| - 1], id) + (if last.id == id then [CoreOf(last)] else [])
  }

  function Transition(body: AttemptBody): Time
  {
    if body.finishedAt.Some? then body.finishedAt.value else body.startedAt
  }

  predicate StateMatches(delivery: DeliveryBody, related: seq<Numbered>)
  {
    match delivery.state
    case Pending =>
      && (related != [] ==> related[|related| - 1].body.result == Some(Pending))
      && forall i :: 0 <= i < |related| ==> related[i].body.state != Running
    case InFlight =>
      && related != []
      && related[|related| - 1].body.state == Running
      && delivery.active == Some(related[|related| - 1].attempt)
    case Delivered =>
      && related != []
      && related[|related| - 1].body.state == Succeeded
      && related[|related| - 1].body.result == Some(Delivered)
    case Exhausted =>
      && related != []
      && (related[|related| - 1].body.state == Failed || related[|related| - 1].body.state == Crashed)
      && related[|related| - 1].body.result == Some(Exhausted)
  }

  predicate StartsInTime(delivery: DeliveryBody, related: seq<Numbered>, i: nat)
    requires i < |related|
  {
    related[i].body.startedAt >= (if i == 0 then delivery.queuedAt else Transition(related[i - 1].body))
  }

  predicate HistoryOk(delivery: DeliveryBody, related: seq<Numbered>)
  {
    && |related| == delivery.attemptCount
    && (forall i :: 0 <= i < |related| ==> related[i].attempt == i + 1)
    && (forall i :: 0 <= i < |related| ==> StartsInTime(delivery, related, i))
    && StateMatches(delivery, related)
    && (related != [] ==> delivery.updatedAt == Transition(related[|related| - 1].body))
  }

  function LastMac(audit: seq<AuditRow>): Mac { if audit == [] then GenesisMac else audit[|audit| - 1].mac }

  predicate AuditRowOk(db: Db, i: nat)
    requires i < |db.audit|
  {
    var body := db.audit[i].body;
    && body.sequence == i + 1
    && body.previous == LastMac(db.audit[..i])
    && AuditShapeOk(body)
    && (i > 0 ==> body.occurredAt >= db.audit[i - 1].body.occurredAt)
    && body.id in db.deliveries
    && db.deliveries[body.id].body.plane == body.plane
    && body.occurredAt >= db.deliveries[body.id].body.queuedAt
    && (body.eventType == QueuedEvent ==> body.occurredAt == db.deliveries[body.id].body.queuedAt)
    && db.audit[i].mac == AuditMac(body)
  }

  function Filter(events: seq<Core>, eventType: EventType, attempt: Option<int>): seq<Core>
  {
    if events == [] then []
    else
      (if events[0].eventType == eventType && (attempt.None? || events[0].attempt == attempt) then [events[0]] else []) +
      Filter(events[1..], eventType, attempt)
  }

  function TerminalType(state: AttemptState): EventType
  {
    match state case Succeeded => CompletedEvent case Crashed => RecoveredEvent case _ => FailedEvent
  }

  predicate AttemptCovered(attempt: Numbered, events: seq<Core>)
  {
    var claimed := Filter(events, ClaimedEvent, Some(attempt.attempt));
    && |claimed| == 1
    && claimed[0].at == attempt.body.startedAt
    && claimed[0].state == InFlight
    && (attempt.body.finishedAt.Some? ==>
          var terminal := Filter(events, TerminalType(attempt.body.state), Some(attempt.attempt));
          && |terminal| == 1
          && Some(terminal[0].at) == attempt.body.finishedAt
          && Some(terminal[0].state) == attempt.body.result
          && terminal[0].retryable == attempt.body.retryable)
  }

  function ExpectedEvents(related: seq<Numbered>): int
  {
    if related == [] then 1
    else ExpectedEvents(related[..|related| - 1]) + (if related[|related| - 1].body.finishedAt.Some? then 2 else 1)
  }

  /** Every audit event of a delivery is accounted for by its rows, and the other way around. */
  predicate CoverageOk(delivery: DeliveryBody, related: seq<Numbered>, events: seq<Core>)
  {
    var queued := Filter(events, QueuedEvent, None);
    && |queued| == 1
    && queued[0].at == delivery.queuedAt
    && queued[0].plane == delivery.plane
    && (forall i :: 0 <= i < |related| ==> AttemptCovered(related[i], events))
    && |events| == ExpectedEvents(related)
  }

  predicate MetadataOk(db: Db, profile: Profile)
  {
    && db.meta.profile == profile
    && db.meta.headSequence >= 0
    && db.meta.keyCheck == KeyCheckMac(profile)
    && db.meta.stateMac == FullStateMac(db)
    && db.meta.metadataMac == MetadataRowMac(db.meta)
  }

  predicate HeadOk(db: Db)
  {
    db.meta.headSequence == |db.audit| && db.meta.headMac == LastMac(db.audit)
  }

  ghost predicate RowsOk(db: Db, profile: Profile)
  {
    && (forall id :: id in db.deliveries ==> DeliveryRowOk(profile, id, db.deliveries[id]))
    && (forall k :: k in db.attempts ==> AttemptRowOk(profile, k, db.attempts[k]))
  }

  ghost predicate HistoriesOk(db: Db)
  {
    && (forall id :: id in db.deliveries ==> HistoryOk(db.deliveries[id].body, Related(db, id)))
    && (forall k :: k in db.attempts ==> k.id in db.deliveries)
  }

  ghost predicate AuditOk(db: Db)
  {
    forall i :: 0 <= i < |db.audit| ==> AuditRowOk(db, i)
  }

  ghost predicate CoveragesOk(db: Db)
  {
    forall id :: id in db.deliveries ==>
      CoverageOk(db.deliveries[id].body, Related(db, id), EventsOf(db.audit, id))
  }

  /** The report of the integrity check has no errors. */
  ghost predicate Accepts(db: Db, profile: Profile)
  {
    && MetadataOk(db, profile)
    && RowsOk(db, profile)
    && HistoriesOk(db)
    && AuditOk(db)
    && HeadOk(db)
    && CoveragesOk(db)
  }
}
