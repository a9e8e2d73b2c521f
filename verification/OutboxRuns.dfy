/** Runs of the outbox: every transaction keeps the tables in step with the audit chain, and never
    fails its own integrity checks. */
module OutboxRuns {
  import opened Wrappers
  import opened OutboxModel
  import opened OutboxChecker
  import opened OutboxHistory
  import opened OutboxInvariant
  import opened OutboxSoundness

  datatype Op =
    | EnqueueOp(plane: Plane, alert: Alert, at: Time)
    | ClaimOp(plane: Plane, at: Time)
    | CompleteOp(key: AttemptKey, at: Time, message: Option<string>)
    | FailOp(key: AttemptKey, at: Time, retryable: bool)
    | RecoverOp(at: Time)

  datatype Reply = Receipted(receipt: Receipt) | Claimed(claim: Option<Claim>) | Recovered(recovery: Recovery)

  ghost function ClaimNext(db: Db, profile: Profile, plane: Plane, at: Time): Result<(Db, Option<Claim>)>
  {
    match FirstPending(db, profile, plane)
    case None => Ok((db, None))
    case Some(id) =>
      match ClaimAt(db, profile, plane, id, at)
      case Err(e) => Err(e)
      case Ok((next, claim)) => Ok((next, Some(claim)))
  }

  function Replied(r: Result<(Db, Receipt)>): Result<(Db, Reply)>
  {
    match r case Err(e) => Err(e) case Ok((next, receipt)) => Ok((next, Receipted(receipt)))
  }

  ghost function Apply(db: Db, profile: Profile, op: Op): Result<(Db, Reply)>
  {
    match op
    case EnqueueOp(plane, alert, at) => Replied(Enqueue(db, profile, plane, alert, at))
    case CompleteOp(key, at, message) => Replied(Complete(db, profile, key, at, message))
    case FailOp(key, at, retryable) => Replied(Fail(db, profile, key, at, retryable))
    case ClaimOp(plane, at) =>
      (match ClaimNext(db, profile, plane, at) case Err(e) => Err(e) case Ok((next, claim)) => Ok((next, Claimed(claim))))
    case RecoverOp(at) =>
      (match Recover(db, profile, at) case Err(e) => Err(e) case Ok((next, recovery)) => Ok((next, Recovered(recovery))))
  }

  /** What `enqueue` refuses before it opens a transaction. */
  predicate OutOfBounds(profile: Profile, op: Op)
  {
    op.EnqueueOp? && (op.alert.profile != profile || op.at < op.alert.occurredAt)
  }

  /** `transaction`: check, operate, seal, check again; any failure rolls back. */
  ghost function Transact(db: Db, profile: Profile, op: Op): (Db, Result<Reply>)
  {
    if OutOfBounds(profile, op) then (db, Err(Validation))
    else if !Accepts(db, profile) then (db, Err(Integrity))
    else
      match Apply(db, profile, op)
      case Err(e) => (db, Err(e))
      case Ok((next, reply)) =>
        if !Accepts(Seal(next), profile) then (db, Err(Integrity)) else (Seal(next), Ok(reply))
  }

  ghost function Run(db: Db, profile: Profile, ops: seq<Op>): Db
    decreases |ops|
  {
    if ops == [] then db else Run(Transact(db, profile, ops[0]).0, profile, ops[1..])
  }

  // ---------------------------------------------------------------- what later states keep of earlier ones

  /** What identifies a delivery and when it was queued never changes. */
  predicate SameDelivery(a: DeliveryRow, b: DeliveryRow)
  {
    && a.body.plane == b.body.plane && a.body.profile == b.body.profile && a.body.queuedAt == b.body.queuedAt
    && a.body.payload == b.body.payload && a.body.binding == b.body.binding
  }

  ghost predicate DeliveriesGrow(a: map<DeliveryId, DeliveryRow>, b: map<DeliveryId, DeliveryRow>)
  {
    forall id :: id in a ==> id in b && SameDelivery(a[id], b[id])
  }

  ghost predicate AttemptsGrow(a: map<AttemptKey, AttemptRow>, b: map<AttemptKey, AttemptRow>)
  {
    && (forall k :: k in a ==> k in b)
    && forall k :: k in a && a[k].body.finishedAt.Some? ==> b[k] == a[k]
  }

  /** Nothing audited is forgotten, no queued alert changes, no closed attempt changes. */
  ghost predicate Grows(db: Db, next: Db)
  {
    db.audit <= next.audit && DeliveriesGrow(db.deliveries, next.deliveries) && AttemptsGrow(db.attempts, next.attempts)
  }

  lemma GrowsTransitive(a: Db, b: Db, c: Db)
    requires Grows(a, b) && Grows(b, c)
    ensures Grows(a, c)
  {
    assert a.audit <= c.audit;
    assert DeliveriesGrow(a.deliveries, c.deliveries);
    assert AttemptsGrow(a.attempts, c.attempts);
  }

  // ---------------------------------------------------------------- facts read off a consistent state

  lemma ConsistentRows(db: Db, profile: Profile)
    requires Consistent(db, profile)
    ensures RowsOk(db, profile)
  {
    RowsAccepted(db, profile, Rebuild(db.audit));
  }

  lemma ConsistentDelivery(db: Db, profile: Profile, id: DeliveryId)
    requires Consistent(db, profile) && id in db.deliveries
    ensures DeliveryRowOk(profile, id, db.deliveries[id])
    ensures db.deliveries[id].body.plane == id.plane && db.deliveries[id].body.profile == profile
  {
    ConsistentRows(db, profile);
    DeliverySays(profile, id, db.deliveries[id], Rebuild(db.audit)[id]);
  }

  lemma ConsistentAttempt(db: Db, profile: Profile, key: AttemptKey)
    requires Consistent(db, profile) && key in db.attempts
    ensures AttemptRowOk(profile, key, db.attempts[key]) && key.id in db.deliveries
  {
    ConsistentRows(db, profile);
  }

  lemma PendingRoom(db: Db, profile: Profile, id: DeliveryId)
    requires Consistent(db, profile) && id in db.deliveries && db.deliveries[id].body.state == Pending
    ensures 0 <= db.deliveries[id].body.attemptCount < MAX_ATTEMPTS
    ensures AttemptKey(id, db.deliveries[id].body.attemptCount + 1) !in db.attempts
  {
    PendingRoomIn(db, profile, id, Rebuild(db.audit));
  }

  lemma PendingRoomIn(db: Db, profile: Profile, id: DeliveryId, lives: Lives)
    requires Holds(db, profile, lives) && id in db.deliveries && db.deliveries[id].body.state == Pending
    ensures 0 <= db.deliveries[id].body.attemptCount < MAX_ATTEMPTS
    ensures AttemptKey(id, db.deliveries[id].body.attemptCount + 1) !in db.attempts
  {
    PendingLife(db, profile, id, lives);
  }

  lemma InFlightActive(db: Db, profile: Profile, id: DeliveryId, n: int)
    requires Consistent(db, profile) && id in db.deliveries && db.deliveries[id].body.state == InFlight
    requires n == db.deliveries[id].body.attemptCount
    ensures (n == 1 || n == 2) && AttemptKey(id, n) in db.attempts
    ensures db.deliveries[id].body.active == Some(n)
    ensures db.attempts[AttemptKey(id, n)].body.finishedAt.None?
    ensures db.attempts[AttemptKey(id, n)].body.startedAt == db.deliveries[id].body.updatedAt
  {
    InFlightActiveIn(db, profile, id, n, Rebuild(db.audit));
  }

  lemma InFlightActiveIn(db: Db, profile: Profile, id: DeliveryId, n: int, lives: Lives)
    requires Holds(db, profile, lives) && id in db.deliveries && db.deliveries[id].body.state == InFlight
    requires n == db.deliveries[id].body.attemptCount
    ensures (n == 1 || n == 2) && AttemptKey(id, n) in db.attempts
    ensures db.deliveries[id].body.active == Some(n)
    ensures db.attempts[AttemptKey(id, n)].body.finishedAt.None?
    ensures db.attempts[AttemptKey(id, n)].body.startedAt == db.deliveries[id].body.updatedAt
  {
    InFlightRow(profile, id, db.deliveries[id], lives[id]);
    assert AttemptKey(id, n) in db.attempts;
    hide DeliveryFits, AttemptFits, LegalLife, AttemptsFit, DeliveriesFit, Legal;
    InFlightLife(db, profile, AttemptKey(id, n), lives);
  }

  lemma InFlightRow(profile: Profile, id: DeliveryId, row: DeliveryRow, life: Life)
    requires DeliveryFits(profile, id, row, life) && LegalLife(life) && row.body.state == InFlight
    ensures 1 <= |life.tries| <= MAX_ATTEMPTS && row.body.attemptCount == |life.tries|
    ensures row.body.active == Some(|life.tries|) && row.body.updatedAt == LastStart(life)
  {
    InFlightEnds(life);
  }

  // ---------------------------------------------------------------- each operation

  lemma AppendFacts(db: Db, eventType: EventType, id: DeliveryId, plane: Plane, attempt: Option<int>,
                    state: DeliveryState, retryable: Option<bool>, at: Time, r: Result<Db>)
    requires r == AppendAudit(db, eventType, id, plane, attempt, state, retryable, at)
    ensures r.Err? ==> r.error == Validation
    ensures r.Ok? ==> db.audit <= r.value.audit && r.value.deliveries == db.deliveries && r.value.attempts == db.attempts
  {}

  /** An operation moved a consistent outbox on to another one. */
  ghost predicate Advances(db: Db, next: Db, profile: Profile)
  {
    Consistent(next, profile) && Grows(db, next)
  }

  lemma GrowsOver(db: Db, mid: Db, next: Db)
    requires Grows(db, mid) && mid.audit <= next.audit && next.deliveries == mid.deliveries && next.attempts == mid.attempts
    ensures Grows(db, next)
  {}

  lemma GrowsSelf(db: Db)
    ensures Grows(db, db)
  {}

  lemma QueueGrows(db: Db, profile: Profile, id: DeliveryId, plane: Plane, alert: Alert, at: Time)
    requires id !in db.deliveries
    ensures Grows(db, QueueRows(db, profile, id, plane, alert, at))
    ensures id in QueueRows(db, profile, id, plane, alert, at).deliveries
  {}

  lemma EnqueueStep(db: Db, profile: Profile, plane: Plane, alert: Alert, at: Time, r: Result<(Db, Receipt)>)
    requires Consistent(db, profile) && r == Enqueue(db, profile, plane, alert, at)
    ensures r.Err? ==> r.error == Validation || r.error == AlertConflict
    ensures r.Ok? ==> Advances(db, r.value.0, profile)
    ensures r.Ok? && IdFor(plane, alert, profile) in db.deliveries ==> r.value.0 == db
  {
    hide DeliveryRowOk, Consistent, AppendAudit, Grows, QueueRows;
    var id := IdFor(plane, alert, profile);
    if alert.profile == profile && at >= alert.occurredAt {
      if id in db.deliveries {
        ConsistentDelivery(db, profile, id);
        Decrypts(profile, id, db.deliveries[id]);
        GrowsSelf(db);
      } else {
        var queued := QueueRows(db, profile, id, plane, alert, at);
        QueueGrows(db, profile, id, plane, alert, at);
        var appended := AppendAudit(queued, QueuedEvent, id, plane, None, Pending, None, at);
        AppendFacts(queued, QueuedEvent, id, plane, None, Pending, None, at, appended);
        if appended.Ok? {
          var next := appended.value;
          QueueKeeps(db, profile, plane, alert, at, next);
          ConsistentDelivery(next, profile, id);
          GrowsOver(db, queued, next);
        }
      }
    }
  }

  lemma Decrypts(profile: Profile, id: DeliveryId, row: DeliveryRow)
    requires DeliveryRowOk(profile, id, row)
    ensures DecryptAlert(id, row.body).Some?
  {}

  lemma StartGrows(db: Db, profile: Profile, id: DeliveryId, attempt: int, at: Time)
    requires id in db.deliveries && AttemptKey(id, attempt) !in db.attempts
    ensures Grows(db, StartRows(db, id, attempt, at))
    ensures id in StartRows(db, id, attempt, at).deliveries
  {}

  lemma ClaimStep(db: Db, profile: Profile, plane: Plane, id: DeliveryId, at: Time, r: Result<(Db, Claim)>)
    requires Consistent(db, profile) && IsPending(db, profile, plane, id) && r == ClaimAt(db, profile, plane, id, at)
    ensures r.Err? ==> r.error == Validation
    ensures r.Ok? ==> Advances(db, r.value.0, profile)
  {
    hide DeliveryRowOk, Consistent, AppendAudit, Grows, StartRows, DecryptAlert;
    ConsistentDelivery(db, profile, id);
    PendingRoom(db, profile, id);
    var attempt := db.deliveries[id].body.attemptCount + 1;
    if at >= db.deliveries[id].body.updatedAt {
      var started := StartRows(db, id, attempt, at);
      StartGrows(db, profile, id, attempt, at);
      var appended := AppendAudit(started, ClaimedEvent, id, plane, Some(attempt), InFlight, None, at);
      AppendFacts(started, ClaimedEvent, id, plane, Some(attempt), InFlight, None, at, appended);
      if appended.Ok? {
        var next := appended.value;
        StartKeeps(db, profile, id, attempt, at, next);
        ConsistentDelivery(next, profile, id);
        Decrypts(profile, id, next.deliveries[id]);
        GrowsOver(db, started, next);
      }
    }
  }

  /** The rows are those of the attempt's end, and the receipt is read off them. */
  ghost predicate Ends(db: Db, next: Db, receipt: Receipt, key: AttemptKey, end: End, binding: Option<Mac>, provider: Option<Sealed<string>>)
    requires key.id in db.deliveries && key in db.attempts
  {
    var rows := FinishRows(db, key, end.state, end.at, end.retryable, end.result, binding, provider);
    && next.deliveries == rows.deliveries && next.attempts == rows.attempts
    && ReceiptAt(key.id, db.deliveries[key.id], key, next.attempts[key]) == Ok(receipt)
  }

  lemma FinishFacts(db: Db, key: AttemptKey, end: End, binding: Option<Mac>, provider: Option<Sealed<string>>)
    requires key.id in db.deliveries && key in db.attempts && db.attempts[key].body.finishedAt.None? && end.result != InFlight
    ensures var rows := FinishRows(db, key, end.state, end.at, end.retryable, end.result, binding, provider);
            && Grows(db, rows) && key in rows.attempts
            && ReceiptAt(key.id, db.deliveries[key.id], key, rows.attempts[key]).Ok?
  {}

  lemma FinishIs(db: Db, key: AttemptKey, end: End, binding: Option<Mac>, provider: Option<Sealed<string>>, appended: Result<Db>)
    requires key.id in db.deliveries && key in db.attempts && db.deliveries[key.id].body.plane == key.id.plane
    requires appended == AppendAudit(FinishRows(db, key, end.state, end.at, end.retryable, end.result, binding, provider), TerminalType(end.state),
                                     key.id, key.id.plane, Some(key.attempt), end.result, end.retryable, end.at)
    ensures var r := Finish(db, key, end.state, TerminalType(end.state), end.at, end.retryable, end.result, binding, provider);
            match appended
            case Err(e) => r == Err(e)
            case Ok(next) =>
              match ReceiptAt(key.id, db.deliveries[key.id], key, next.attempts[key])
              case Err(e) => r == Err(e)
              case Ok(receipt) => r == Ok((next, receipt))
  {
    hide FinishRows, ReceiptAt, TerminalType;
  }

  lemma FinishEnds(db: Db, next: Db, receipt: Receipt, key: AttemptKey, end: End, binding: Option<Mac>, provider: Option<Sealed<string>>, finished: Db)
    requires key.id in db.deliveries && key in db.attempts && key in finished.attempts
    requires finished == FinishRows(db, key, end.state, end.at, end.retryable, end.result, binding, provider)
    requires next.deliveries == finished.deliveries && next.attempts == finished.attempts
    requires ReceiptAt(key.id, db.deliveries[key.id], key, finished.attempts[key]) == Ok(receipt)
    ensures Ends(db, next, receipt, key, end, binding, provider)
  {
    hide FinishRows, ReceiptAt;
  }

  lemma FinishAdvances(db: Db, profile: Profile, key: AttemptKey, end: End, binding: Option<Mac>, provider: Option<Sealed<string>>,
                       finished: Db, next: Db)
    requires Consistent(db, profile) && Finishable(db, profile, key, end, binding, provider)
    requires finished == FinishRows(db, key, end.state, end.at, end.retryable, end.result, binding, provider) && Grows(db, finished)
    requires AppendAudit(finished, TerminalType(end.state), key.id, key.id.plane, Some(key.attempt), end.result, end.retryable, end.at) == Ok(next)
    ensures Advances(db, next, profile)
    ensures next.deliveries == finished.deliveries && next.attempts == finished.attempts
  {
    hide DeliveryRowOk, Consistent, AppendAudit, Grows, FinishRows, Finishable, TerminalType;
    AppendFacts(finished, TerminalType(end.state), key.id, key.id.plane, Some(key.attempt), end.result, end.retryable, end.at, Ok(next));
    FinishKeeps(db, profile, key, end, binding, provider, next);
    GrowsOver(db, finished, next);
  }

  lemma FinishStep(db: Db, profile: Profile, key: AttemptKey, end: End, binding: Option<Mac>, provider: Option<Sealed<string>>,
                   r: Result<(Db, Receipt)>)
    requires Consistent(db, profile) && Finishable(db, profile, key, end, binding, provider)
    requires db.attempts[key].body.finishedAt.None? && 1 <= key.attempt <= MAX_ATTEMPTS
    requires r == Finish(db, key, end.state, TerminalType(end.state), end.at, end.retryable, end.result, binding, provider)
    ensures r.Err? ==> r.error == Validation
    ensures r.Ok? ==> Advances(db, r.value.0, profile) && Ends(db, r.value.0, r.value.1, key, end, binding, provider)
  {
    assert key.id in db.deliveries && LegalEnd(key.attempt, end);
    hide DeliveryRowOk, Consistent, AppendAudit, Grows, FinishRows, ReceiptAt, Finishable, LegalEnd, TerminalType, AuditShapeOk, Finish, Advances, Ends;
    ConsistentDelivery(db, profile, key.id);
    LegalEndResult(key.id, key.attempt, end);
    FinishFacts(db, key, end, binding, provider);
    var finished := FinishRows(db, key, end.state, end.at, end.retryable, end.result, binding, provider);
    var appended := AppendAudit(finished, TerminalType(end.state), key.id, key.id.plane, Some(key.attempt), end.result, end.retryable, end.at);
    FinishIs(db, key, end, binding, provider, appended);
    if appended.Ok? {
      FinishAdvances(db, profile, key, end, binding, provider, finished, appended.value);
      FinishEnds(db, appended.value, r.value.1, key, end, binding, provider, finished);
    } else {
      AppendFacts(finished, TerminalType(end.state), key.id, key.id.plane, Some(key.attempt), end.result, end.retryable, end.at, appended);
    }
  }

  /** The attempt was completed at this time with this provider message. */
  predicate CompletedAs(db: Db, profile: Profile, key: AttemptKey, at: Time, message: Option<string>)
  {
    && key in db.attempts && key.id in db.deliveries
    && db.attempts[key].body.state == Succeeded && db.attempts[key].body.finishedAt == Some(at)
    && DecryptProvider(profile, key, db.attempts[key].body) == Ok(message)
  }

  /** The attempt failed at this time with this verdict. */
  predicate FailedAs(db: Db, key: AttemptKey, at: Time, retryable: bool)
  {
    && key in db.attempts && key.id in db.deliveries
    && db.attempts[key].body.state == Failed && db.attempts[key].body.finishedAt == Some(at)
    && db.attempts[key].body.retryable == Some(retryable)
  }

  /** The receipt of a closed attempt, as any later state reads it. */
  predicate ReceiptIs(db: Db, key: AttemptKey, receipt: Receipt)
  {
    && key in db.attempts && key.id in db.deliveries
    && ReceiptAt(key.id, db.deliveries[key.id], key, db.attempts[key]) == Ok(receipt)
  }

  lemma EndsCompleted(db: Db, next: Db, receipt: Receipt, profile: Profile, key: AttemptKey, at: Time, message: Option<string>)
    requires key.id in db.deliveries && key in db.attempts
    requires var (binding, provider) := EncryptProvider(profile, key, message);
             Ends(db, next, receipt, key, End(Succeeded, at, None, Delivered), binding, provider)
    ensures CompletedAs(next, profile, key, at, message) && ReceiptIs(next, key, receipt)
  {}

  lemma EndsFailed(db: Db, next: Db, receipt: Receipt, key: AttemptKey, at: Time, retryable: bool, result: DeliveryState)
    requires key.id in db.deliveries && key in db.attempts
    requires Ends(db, next, receipt, key, End(Failed, at, Some(retryable), result), None, None)
    ensures FailedAs(next, key, at, retryable) && ReceiptIs(next, key, receipt)
  {}

  lemma ActiveRuns(db: Db, profile: Profile, key: AttemptKey)
    requires Consistent(db, profile) && key.id in db.deliveries && key in db.attempts
    requires Active(db.deliveries[key.id], db.attempts[key], key.attempt)
    ensures 1 <= key.attempt <= MAX_ATTEMPTS && db.attempts[key].body.finishedAt.None?
    ensures db.attempts[key].body.startedAt == db.deliveries[key.id].body.updatedAt
  {
    hide Consistent;
    InFlightActive(db, profile, key.id, key.attempt);
  }

  lemma CompleteStep(db: Db, profile: Profile, key: AttemptKey, at: Time, message: Option<string>, r: Result<(Db, Receipt)>)
    requires Consistent(db, profile) && r == Complete(db, profile, key, at, message)
    ensures r.Err? ==> r.error != Integrity
    ensures r.Ok? ==> Advances(db, r.value.0, profile) && CompletedAs(r.value.0, profile, key, at, message) && ReceiptIs(r.value.0, key, r.value.1)
    ensures r.Ok? && key in db.attempts && db.attempts[key].body.state == Succeeded ==> r.value.0 == db
  {
    hide Consistent, Grows, DeliveryRowOk, AttemptRowOk, Finish, DecryptProvider, Ends;
    if key.id in db.deliveries {
      ConsistentDelivery(db, profile, key.id);
      if key in db.attempts {
        ConsistentAttempt(db, profile, key);
        var delivery, attempt := db.deliveries[key.id], db.attempts[key];
        if attempt.body.state == Succeeded {
          SucceededReceipt(profile, key, delivery, attempt);
          GrowsSelf(db);
        } else if Active(delivery, attempt, key.attempt) && at >= attempt.body.startedAt {
          ActiveRuns(db, profile, key);
          var (binding, provider) := EncryptProvider(profile, key, message);
          EncryptedOpens(profile, key, message, attempt.body);
          FinishStep(db, profile, key, End(Succeeded, at, None, Delivered), binding, provider, r);
          if r.Ok? { EndsCompleted(db, r.value.0, r.value.1, profile, key, at, message); }
        }
      }
    }
  }

  lemma EncryptedOpens(profile: Profile, key: AttemptKey, message: Option<string>, body: AttemptBody)
    ensures var (binding, provider) := EncryptProvider(profile, key, message);
            DecryptProvider(profile, key, body.(providerBinding := binding, provider := provider)) == Ok(message)
  {}

  lemma SucceededReceipt(profile: Profile, key: AttemptKey, delivery: DeliveryRow, attempt: AttemptRow)
    requires AttemptRowOk(profile, key, attempt) && (attempt.body.state == Succeeded || attempt.body.state == Failed)
    ensures ReceiptAt(key.id, delivery, key, attempt).Ok?
  {}

  lemma FailStep(db: Db, profile: Profile, key: AttemptKey, at: Time, retryable: bool, r: Result<(Db, Receipt)>)
    requires Consistent(db, profile) && r == Fail(db, profile, key, at, retryable)
    ensures r.Err? ==> r.error != Integrity
    ensures r.Ok? ==> Advances(db, r.value.0, profile) && FailedAs(r.value.0, key, at, retryable) && ReceiptIs(r.value.0, key, r.value.1)
    ensures r.Ok? && key in db.attempts && db.attempts[key].body.state == Failed ==> r.value.0 == db
  {
    hide Consistent, Grows, DeliveryRowOk, AttemptRowOk, Finish, Ends;
    if key.id in db.deliveries {
      ConsistentDelivery(db, profile, key.id);
      if key in db.attempts {
        ConsistentAttempt(db, profile, key);
        var delivery, attempt := db.deliveries[key.id], db.attempts[key];
        if attempt.body.state == Failed {
          SucceededReceipt(profile, key, delivery, attempt);
          GrowsSelf(db);
        } else if Active(delivery, attempt, key.attempt) && at >= attempt.body.startedAt {
          ActiveRuns(db, profile, key);
          var result := if retryable && key.attempt < MAX_ATTEMPTS then Pending else Exhausted;
          FinishStep(db, profile, key, End(Failed, at, Some(retryable), result), None, None, r);
          if r.Ok? { EndsFailed(db, r.value.0, r.value.1, key, at, retryable, result); }
        }
      }
    }
  }
}
