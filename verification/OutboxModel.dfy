/** The alert outbox's tables, keyed digests and transactions
    (packages/alerts/src/alert-outbox.ts). Keyed digests are ideal: a digest is the value it was
    computed from. Sealed text opens exactly under the associated data it was sealed with. */
module OutboxModel {
  import opened Order
  import opened Wrappers

  type Time = int

  const MAX_ATTEMPTS: int := 2

  datatype Result<+T> = Ok(value: T) | Err(error: Error)
  datatype Error = Validation | AlertConflict | DeliveryConflict | InvalidTransition | Integrity

  datatype Profile = Dev | Canary | ProductionObserver
  datatype Plane = Healthchecks | Resend
  datatype DeliveryState = Pending | InFlight | Delivered | Exhausted
  datatype AttemptState = Running | Succeeded | Failed | Crashed
  datatype EventType = QueuedEvent | ClaimedEvent | CompletedEvent | FailedEvent | RecoveredEvent

  datatype Alert = Alert(incidentId: string, incidentCode: string, occurredAt: Time, profile: Profile, sessionId: string)

  /** The keyed digest of the four values that identify a delivery. */
  datatype DeliveryId = DeliveryId(plane: Plane, incidentId: string, sessionId: string, profile: Profile)

  datatype Aad = PayloadAad(profile: Profile, plane: Plane, id: DeliveryId) | ProviderAad(profile: Profile, id: DeliveryId, attempt: int)
  datatype Sealed<+T> = Sealed(aad: Aad, plaintext: T)

  datatype Mac =
    | GenesisMac
    | KeyCheckMac(profile: Profile)
    | PayloadBinding(alert: Alert, id: DeliveryId)
    | ProviderBinding(id: DeliveryId, attempt: int, message: string)
    | DeliveryMac(id: DeliveryId, delivery: DeliveryBody)
    | AttemptMac(key: AttemptKey, attemptRow: AttemptBody)
    | AuditMac(event: AuditBody)
    | StateMac(profile: Profile, headSequence: int, headMac: Mac, keyCheck: Mac,
               deliveries: map<DeliveryId, DeliveryRow>, attempts: map<AttemptKey, AttemptRow>, audit: seq<AuditRow>)
    | MetadataMac(profile: Profile, headSequence: int, headMac: Mac, keyCheck: Mac, stateMac: Mac)
    | HeadMac(profile: Profile, auditSequence: int, auditMac: Mac)

  datatype DeliveryBody = DeliveryBody(
    profile: Profile, plane: Plane, binding: Mac, payload: Sealed<Alert>, state: DeliveryState,
    attemptCount: int, active: Option<int>, queuedAt: Time, updatedAt: Time)
  datatype DeliveryRow = DeliveryRow(body: DeliveryBody, mac: Mac)

  datatype AttemptKey = AttemptKey(id: DeliveryId, attempt: int)
  datatype AttemptBody = AttemptBody(
    state: AttemptState, startedAt: Time, finishedAt: Option<Time>, retryable: Option<bool>,
    result: Option<DeliveryState>, providerBinding: Option<Mac>, provider: Option<Sealed<string>>)
  datatype AttemptRow = AttemptRow(body: AttemptBody, mac: Mac)

  datatype AuditBody = AuditBody(
    sequence: int, eventType: EventType, id: DeliveryId, plane: Plane, attempt: Option<int>,
    state: DeliveryState, retryable: Option<bool>, occurredAt: Time, previous: Mac)
  datatype AuditRow = AuditRow(body: AuditBody, mac: Mac)

  datatype Metadata = Metadata(
    profile: Profile, headSequence: int, headMac: Mac, keyCheck: Mac, stateMac: Mac, metadataMac: Mac)

  datatype Db = Db(
    meta: Metadata, deliveries: map<DeliveryId, DeliveryRow>, attempts: map<AttemptKey, AttemptRow>, audit: seq<AuditRow>)

  datatype Receipt = Receipt(
    attempts: int, id: DeliveryId, plane: Plane, profile: Profile, queuedAt: Time, state: DeliveryState, updatedAt: Time)
  datatype Claim = Claim(alert: Alert, attempt: int, claimedAt: Time, id: DeliveryId, plane: Plane)
  datatype Recovery = Recovery(exhausted: int, recoveredAt: Time, retryReady: int)
  datatype TrustedHead = TrustedHead(profile: Profile, auditSequence: int, auditMac: Mac, headMac: Mac)

  // ---------------------------------------------------------------- rows

  function IdFor(plane: Plane, alert: Alert, profile: Profile): DeliveryId
  {
    DeliveryId(plane, alert.incidentId, alert.sessionId, profile)
  }

  function Open<T>(aad: Aad, sealed: Sealed<T>): Option<T>
  {
    if sealed.aad == aad then Some(sealed.plaintext) else None
  }

  function SignDelivery(id: DeliveryId, body: DeliveryBody): DeliveryRow { DeliveryRow(body, DeliveryMac(id, body)) }
  function SignAttempt(key: AttemptKey, body: AttemptBody): AttemptRow { AttemptRow(body, AttemptMac(key, body)) }
  function SignAudit(body: AuditBody): AuditRow { AuditRow(body, AuditMac(body)) }

  function DecryptAlert(id: DeliveryId, body: DeliveryBody): Option<Alert>
  {
    Open(PayloadAad(body.profile, body.plane, id), body.payload)
  }

  /** `decryptProviderMessageId`: all fields absent, or all present and bound to this attempt. */
  function DecryptProvider(profile: Profile, key: AttemptKey, body: AttemptBody): Result<Option<string>>
  {
    if body.providerBinding.None? && body.provider.None? then Ok(None)
    else if body.providerBinding.None? || body.provider.None? then Err(Integrity)
    else
      match Open(ProviderAad(profile, key.id, key.attempt), body.provider.value)
      case None => Err(Integrity)
      case Some(message) =>
        if body.providerBinding.value == ProviderBinding(key.id, key.attempt, message) then Ok(Some(message))
        else Err(Integrity)
  }

  /** `assertDeliveryRow`. */
  predicate DeliveryRowOk(profile: Profile, id: DeliveryId, row: DeliveryRow)
  {
    var body := row.body;
    && row.mac == DeliveryMac(id, body)
    && body.profile == profile
    && body.queuedAt <= body.updatedAt
    && match DecryptAlert(id, body)
       case None => false
       case Some(alert) =>
         && alert.profile == profile
         && alert.occurredAt <= body.queuedAt
         && IdFor(body.plane, alert, profile) == id
         && body.binding == PayloadBinding(alert, id)
         && 0 <= body.attemptCount <= 2
         && (body.state == InFlight ==> body.active == Some(body.attemptCount) && body.attemptCount != 0)
         && (body.state != InFlight ==> body.active == None)
         && (body.state == Delivered || body.state == Exhausted ==> body.attemptCount != 0)
  }

  predicate ProviderAbsent(body: AttemptBody) { body.providerBinding.None? && body.provider.None? }

  /** `assertAttemptRow`. */
  predicate AttemptRowOk(profile: Profile, key: AttemptKey, row: AttemptRow)
  {
    var body := row.body;
    && row.mac == AttemptMac(key, body)
    && (key.attempt == 1 || key.attempt == 2)
    && if body.state == Running then
         body.finishedAt.None? && body.retryable.None? && body.result.None? && ProviderAbsent(body)
       else
         && body.finishedAt.Some?
         && body.startedAt <= body.finishedAt.value
         && if body.state == Succeeded then
              body.retryable.None? && body.result == Some(Delivered) && DecryptProvider(profile, key, body).Ok?
            else
              && body.retryable.Some?
              && (body.result == Some(Pending) || body.result == Some(Exhausted))
              && ProviderAbsent(body)
              && (body.result == Some(Pending) ==> key.attempt == 1 && body.retryable == Some(true))
              && (key.attempt == 2 ==> body.result == Some(Exhausted))
  }

  /** `parseAuditRow`. */
  predicate AuditShapeOk(body: AuditBody)
  {
    && (body.attempt.Some? ==> body.attempt.value == 1 || body.attempt.value == 2)
    && match body.eventType
       case QueuedEvent => body.attempt.None? && body.state == Pending && body.retryable.None?
       case ClaimedEvent => body.attempt.Some? && body.state == InFlight && body.retryable.None?
       case CompletedEvent => body.attempt.Some? && body.state == Delivered && body.retryable.None?
       case _ => body.attempt.Some? && (body.state == Pending || body.state == Exhausted) && body.retryable.Some?
  }

  // ---------------------------------------------------------------- sealing and the audit chain

  function FullStateMac(db: Db): Mac
  {
    StateMac(db.meta.profile, db.meta.headSequence, db.meta.headMac, db.meta.keyCheck, db.deliveries, db.attempts, db.audit)
  }

  function MetadataRowMac(meta: Metadata): Mac
  {
    MetadataMac(meta.profile, meta.headSequence, meta.headMac, meta.keyCheck, meta.stateMac)
  }

  /** `sealState`. */
  function Seal(db: Db): Db
  {
    var meta := db.meta.(stateMac := FullStateMac(db));
    db.(meta := meta.(metadataMac := MetadataRowMac(meta)))
  }

  function EmptyDb(profile: Profile): Db
  {
    Seal(Db(Metadata(profile, 0, GenesisMac, KeyCheckMac(profile), GenesisMac, GenesisMac), map[], map[], []))
  }

  /** `appendAudit`: refused when time would move backward. */
  function AppendAudit(db: Db, eventType: EventType, id: DeliveryId, plane: Plane, attempt: Option<int>,
                       state: DeliveryState, retryable: Option<bool>, at: Time): Result<Db>
  {
    if db.audit != [] && at < db.audit[|db.audit| - 1].body.occurredAt then Err(Validation)
    else
      var sequence := db.meta.headSequence + 1;
      var row := SignAudit(AuditBody(sequence, eventType, id, plane, attempt, state, retryable, at, db.meta.headMac));
      Ok(db.(audit := db.audit + [row], meta := db.meta.(headSequence := sequence, headMac := row.mac)))
  }

  // ---------------------------------------------------------------- what each transaction does

  function ToReceipt(profile: Profile, id: DeliveryId, row: DeliveryRow): Result<Receipt>
  {
    if !DeliveryRowOk(profile, id, row) then Err(Integrity)
    else Ok(Receipt(row.body.attemptCount, id, row.body.plane, row.body.profile, row.body.queuedAt, row.body.state, row.body.updatedAt))
  }

  /** `receiptAtAttemptResult`: the receipt as of the end of one attempt, whatever happened since. */
  function ReceiptAt(id: DeliveryId, delivery: DeliveryRow, key: AttemptKey, attempt: AttemptRow): Result<Receipt>
  {
    if attempt.body.finishedAt.None? || attempt.body.result.None? || attempt.body.result.value == InFlight then Err(Integrity)
    else Ok(Receipt(key.attempt, id, delivery.body.plane, delivery.body.profile, delivery.body.queuedAt,
                    attempt.body.result.value, attempt.body.finishedAt.value))
  }

  function QueueRows(db: Db, profile: Profile, id: DeliveryId, plane: Plane, alert: Alert, queuedAt: Time): Db
  {
    var body := DeliveryBody(profile, plane, PayloadBinding(alert, id), Sealed(PayloadAad(profile, plane, id), alert),
                             Pending, 0, None, queuedAt, queuedAt);
    db.(deliveries := db.deliveries[id := SignDelivery(id, body)])
  }

  function Enqueue(db: Db, profile: Profile, plane: Plane, alert: Alert, queuedAt: Time): Result<(Db, Receipt)>
  {
    if alert.profile != profile || queuedAt < alert.occurredAt then Err(Validation)
    else
      var id := IdFor(plane, alert, profile);
      if id in db.deliveries then
        var row := db.deliveries[id];
        match DecryptAlert(id, row.body)
        case None => Err(Integrity)
        case Some(existing) =>
          if row.body.plane != plane || row.body.profile != alert.profile || row.body.queuedAt != queuedAt || existing != alert
          then Err(AlertConflict)
          else
            match ToReceipt(profile, id, row)
            case Err(e) => Err(e)
            case Ok(receipt) => Ok((db, receipt))
      else
        var queued := QueueRows(db, profile, id, plane, alert, queuedAt);
        match AppendAudit(queued, QueuedEvent, id, plane, None, Pending, None, queuedAt)
        case Err(e) => Err(e)
        case Ok(next) =>
          match ToReceipt(profile, id, next.deliveries[id])
          case Err(e) => Err(e)
          case Ok(receipt) => Ok((next, receipt))
  }

  function ProfileRank(p: Profile): int { match p case Dev => 0 case Canary => 1 case ProductionObserver => 2 }
  function PlaneRank(p: Plane): int { match p case Healthchecks => 0 case Resend => 1 }

  /** A total order of delivery identifiers. */
  predicate IdLess(a: DeliveryId, b: DeliveryId)
  {
    if a.incidentId != b.incidentId then Less(a.incidentId, b.incidentId)
    else if a.sessionId != b.sessionId then Less(a.sessionId, b.sessionId)
    else if a.plane != b.plane then PlaneRank(a.plane) < PlaneRank(b.plane)
    else ProfileRank(a.profile) < ProfileRank(b.profile)
  }

  predicate Before(at: Time, id: DeliveryId, at': Time, id': DeliveryId)
  {
    at < at' || (at == at' && IdLess(id, id'))
  }

  /** `ORDER BY queued_at, delivery_id LIMIT 1` over the pending deliveries of one plane. */
  ghost predicate IsFirstPending(db: Db, profile: Profile, plane: Plane, id: DeliveryId)
  {
    && IsPending(db, profile, plane, id)
    && forall other :: IsPending(db, profile, plane, other) && other != id ==>
         Before(db.deliveries[id].body.queuedAt, id, db.deliveries[other].body.queuedAt, other)
  }

  predicate IsPending(db: Db, profile: Profile, plane: Plane, id: DeliveryId)
  {
    id in db.deliveries && db.deliveries[id].body.profile == profile && db.deliveries[id].body.plane == plane
    && db.deliveries[id].body.state == Pending
  }

  ghost function FirstPending(db: Db, profile: Profile, plane: Plane): Option<DeliveryId>
  {
    if id :| IsFirstPending(db, profile, plane, id) then Some(id) else None
  }

  function StartRows(db: Db, id: DeliveryId, attempt: int, at: Time): Db
    requires id in db.deliveries
  {
    var key := AttemptKey(id, attempt);
    var body := db.deliveries[id].body.(active := Some(attempt), attemptCount := attempt, state := InFlight, updatedAt := at);
    db.(attempts := db.attempts[key := SignAttempt(key, AttemptBody(Running, at, None, None, None, None, None))],
        deliveries := db.deliveries[id := SignDelivery(id, body)])
  }

  /** Claiming the given delivery; `AttemptsKey` already present is a primary-key violation. */
  function ClaimAt(db: Db, profile: Profile, plane: Plane, id: DeliveryId, claimedAt: Time): Result<(Db, Claim)>
    requires id in db.deliveries
  {
    var row := db.deliveries[id];
    if !DeliveryRowOk(profile, id, row) then Err(Integrity)
    else if claimedAt < row.body.updatedAt then Err(Validation)
    else
      var attempt := row.body.attemptCount + 1;
      if attempt != 1 && attempt != 2 then Err(Integrity)
      else if AttemptKey(id, attempt) in db.attempts then Err(Integrity)
      else
        var started := StartRows(db, id, attempt, claimedAt);
        match AppendAudit(started, ClaimedEvent, id, plane, Some(attempt), InFlight, None, claimedAt)
        case Err(e) => Err(e)
        case Ok(next) =>
          match DecryptAlert(id, next.deliveries[id].body)
          case None => Err(Integrity)
          case Some(alert) => Ok((next, Claim(alert, attempt, claimedAt, id, plane)))
  }

  function FinishRows(db: Db, key: AttemptKey, state: AttemptState, at: Time, retryable: Option<bool>,
                      result: DeliveryState, binding: Option<Mac>, provider: Option<Sealed<string>>): Db
    requires key.id in db.deliveries && key in db.attempts
  {
    var attempt := db.attempts[key].body.(
      state := state, finishedAt := Some(at), retryable := retryable, result := Some(result),
      providerBinding := binding, provider := provider);
    var delivery := db.deliveries[key.id].body.(active := None, state := result, updatedAt := at);
    db.(attempts := db.attempts[key := SignAttempt(key, attempt)],
        deliveries := db.deliveries[key.id := SignDelivery(key.id, delivery)])
  }

  /** `requireDeliveryRow`, `requireAttemptRow` and their authentication. */
  function RequireRows(db: Db, profile: Profile, key: AttemptKey): Result<(DeliveryRow, AttemptRow)>
  {
    if key.id !in db.deliveries then Err(DeliveryConflict)
    else if !DeliveryRowOk(profile, key.id, db.deliveries[key.id]) then Err(Integrity)
    else if key !in db.attempts then Err(DeliveryConflict)
    else if !AttemptRowOk(profile, key, db.attempts[key]) then Err(Integrity)
    else Ok((db.deliveries[key.id], db.attempts[key]))
  }

  /** `assertActiveAttempt`. */
  predicate Active(delivery: DeliveryRow, attempt: AttemptRow, expected: int)
  {
    delivery.body.state == InFlight && delivery.body.active == Some(expected)
    && delivery.body.attemptCount == expected && attempt.body.state == Running
  }

  function EncryptProvider(profile: Profile, key: AttemptKey, message: Option<string>): (Option<Mac>, Option<Sealed<string>>)
  {
    match message
    case None => (None, None)
    case Some(m) => (Some(ProviderBinding(key.id, key.attempt, m)), Some(Sealed(ProviderAad(profile, key.id, key.attempt), m)))
  }

  function Complete(db: Db, profile: Profile, key: AttemptKey, at: Time, message: Option<string>): Result<(Db, Receipt)>
  {
    match RequireRows(db, profile, key)
    case Err(e) => Err(e)
    case Ok((delivery, attempt)) =>
      if attempt.body.state == Succeeded then
        if attempt.body.finishedAt != Some(at) || DecryptProvider(profile, key, attempt.body) != Ok(message)
        then Err(DeliveryConflict)
        else
          match ReceiptAt(key.id, delivery, key, attempt)
          case Err(e) => Err(e)
          case Ok(receipt) => Ok((db, receipt))
      else if !Active(delivery, attempt, key.attempt) then Err(InvalidTransition)
      else if at < attempt.body.startedAt then Err(Validation)
      else
        var (binding, provider) := EncryptProvider(profile, key, message);
        Finish(db, key, Succeeded, CompletedEvent, at, None, Delivered, binding, provider)
  }

  /** Closes an attempt, moves its delivery on, and audits it. */
  function Finish(db: Db, key: AttemptKey, state: AttemptState, event: EventType, at: Time, retryable: Option<bool>,
                  result: DeliveryState, binding: Option<Mac>, provider: Option<Sealed<string>>): Result<(Db, Receipt)>
    requires key.id in db.deliveries && key in db.attempts
  {
    var finished := FinishRows(db, key, state, at, retryable, result, binding, provider);
    match AppendAudit(finished, event, key.id, db.deliveries[key.id].body.plane, Some(key.attempt), result, retryable, at)
    case Err(e) => Err(e)
    case Ok(next) =>
      match ReceiptAt(key.id, db.deliveries[key.id], key, next.attempts[key])
      case Err(e) => Err(e)
      case Ok(receipt) => Ok((next, receipt))
  }

  function Fail(db: Db, profile: Profile, key: AttemptKey, at: Time, retryable: bool): Result<(Db, Receipt)>
  {
    match RequireRows(db, profile, key)
    case Err(e) => Err(e)
    case Ok((delivery, attempt)) =>
      if attempt.body.state == Failed then
        if attempt.body.finishedAt != Some(at) || attempt.body.retryable != Some(retryable) then Err(DeliveryConflict)
        else
          match ReceiptAt(key.id, delivery, key, attempt)
          case Err(e) => Err(e)
          case Ok(receipt) => Ok((db, receipt))
      else if !Active(delivery, attempt, key.attempt) then Err(InvalidTransition)
      else if at < attempt.body.startedAt then Err(Validation)
      else
        var result := if retryable && key.attempt < MAX_ATTEMPTS then Pending else Exhausted;
        Finish(db, key, Failed, FailedEvent, at, Some(retryable), result, None, None)
  }

  // ---------------------------------------------------------------- recovery

  predicate IsInFlight(db: Db, profile: Profile, id: DeliveryId)
  {
    id in db.deliveries && db.deliveries[id].body.profile == profile && db.deliveries[id].body.state == InFlight
  }

  ghost function InFlightIds(db: Db, profile: Profile): set<DeliveryId>
  {
    set id | id in db.deliveries && IsInFlight(db, profile, id)
  }

  /** `ORDER BY updated_at, delivery_id` over a set of deliveries. */
  ghost predicate InOrder(db: Db, ids: seq<DeliveryId>)
    requires forall id :: id in ids ==> id in db.deliveries
  {
    forall i, j :: 0 <= i < j < |ids| ==>
      Before(db.deliveries[ids[i]].body.updatedAt, ids[i], db.deliveries[ids[j]].body.updatedAt, ids[j])
  }

  ghost predicate IsRecoveryOrder(db: Db, profile: Profile, ids: seq<DeliveryId>)
  {
    && (forall id :: id in ids <==> IsInFlight(db, profile, id))
    && InOrder(db, ids)
  }

  ghost function RecoveryOrder(db: Db, profile: Profile): seq<DeliveryId>
  {
    if ids :| IsRecoveryOrder(db, profile, ids) then ids else []
  }

  /** One crashed attempt: retry once, then exhausted. */
  function RecoverOne(db: Db, profile: Profile, id: DeliveryId, at: Time): Result<(Db, Receipt)>
    requires id in db.deliveries
  {
    var active := db.deliveries[id].body.active;
    if active != Some(1) && active != Some(2) then Err(Integrity)
    else
      var key := AttemptKey(id, active.value);
      if key !in db.attempts then Err(DeliveryConflict)
      else if !AttemptRowOk(profile, key, db.attempts[key]) then Err(Integrity)
      else
        var again := key.attempt < MAX_ATTEMPTS;
        Finish(db, key, Crashed, RecoveredEvent, at, Some(again), if again then Pending else Exhausted, None, None)
  }

  function Tally(recovery: Recovery, receipt: Receipt): Recovery
  {
    if receipt.state == Pending then recovery.(retryReady := recovery.retryReady + 1)
    else recovery.(exhausted := recovery.exhausted + 1)
  }

  function RecoverEach(db: Db, profile: Profile, ids: seq<DeliveryId>, at: Time, recovery: Recovery): Result<(Db, Recovery)>
    decreases |ids|
  {
    if ids == [] then Ok((db, recovery))
    else if ids[0] !in db.deliveries then Err(Integrity)
    else
      match RecoverOne(db, profile, ids[0], at)
      case Err(e) => Err(e)
      case Ok((next, receipt)) =>
        RecoverEach(next, profile, ids[1..], at, Tally(recovery, receipt))
  }

  /** The first delivery that cannot be recovered at this time decides the error. */
  function Refusal(db: Db, profile: Profile, ids: seq<DeliveryId>, at: Time): Option<Error>
  {
    if ids == [] then None
    else if ids[0] !in db.deliveries || !DeliveryRowOk(profile, ids[0], db.deliveries[ids[0]]) then Some(Integrity)
    else if at < db.deliveries[ids[0]].body.updatedAt then Some(Validation)
    else Refusal(db, profile, ids[1..], at)
  }

  ghost function Recover(db: Db, profile: Profile, at: Time): Result<(Db, Recovery)>
  {
    var ids := RecoveryOrder(db, profile);
    match Refusal(db, profile, ids, at)
    case Some(e) => Err(e)
    case None => RecoverEach(db, profile, ids, at, Recovery(0, at, 0))
  }
}
