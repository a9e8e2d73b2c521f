/** What every transaction answers, exactly: in terms of the stored rows and the time of the last audit event, for every
    outbox that holds what its chain tells. */
module OutboxAnswers {
  import opened Wrappers
  import opened OutboxModel
  import opened OutboxChecker
  import opened OutboxHistory
  import opened OutboxInvariant
  import opened OutboxRuns
  import opened OutboxRecovery
  import opened OutboxTheorems

  /** No audited event is later. */
  predicate InTurn(db: Db, at: Time) { db.audit != [] ==> at >= db.audit[|db.audit| - 1].body.occurredAt }

  lemma AppendsInTurn(db: Db, eventType: EventType, id: DeliveryId, plane: Plane, attempt: Option<int>,
                      state: DeliveryState, retryable: Option<bool>, at: Time)
    ensures var r := AppendAudit(db, eventType, id, plane, attempt, state, retryable, at);
            if InTurn(db, at) then r.Ok? && r.value.deliveries == db.deliveries && r.value.attempts == db.attempts
            else r == Err(Validation)
  {}

  // ---------------------------------------------------------------- enqueue

  /** The receipt of a delivery as its row stands. */
  function ReceiptNow(id: DeliveryId, body: DeliveryBody): Receipt
  {
    Receipt(body.attemptCount, id, body.plane, body.profile, body.queuedAt, body.state, body.updatedAt)
  }

  /** A delivery as it is queued. */
  function QueuedBody(profile: Profile, plane: Plane, id: DeliveryId, alert: Alert, at: Time): DeliveryBody
  {
    DeliveryBody(profile, plane, PayloadBinding(alert, id), Sealed(PayloadAad(profile, plane, id), alert), Pending, 0, None, at, at)
  }

  /** The answer to an enqueue: a new alert is queued, a repeat is acknowledged as things stand, and an identity reused
      for anything else is a conflict. */
  ghost predicate EnqueueAnswer(db: Db, profile: Profile, plane: Plane, alert: Alert, at: Time, next: Db, reply: Result<Reply>)
  {
    var id := DeliveryId(plane, alert.incidentId, alert.sessionId, profile);
    if alert.profile != profile || at < alert.occurredAt then next == db && reply == Err(Validation)
    else if id in db.deliveries then
      var body := db.deliveries[id].body;
      && next == db
      && reply == if body.payload.plaintext == alert && body.queuedAt == at then Ok(Receipted(ReceiptNow(id, body))) else Err(AlertConflict)
    else if !InTurn(db, at) then next == db && reply == Err(Validation)
    else
      && next.deliveries == db.deliveries[id := SignDelivery(id, QueuedBody(profile, plane, id, alert, at))] && next.attempts == db.attempts
      && reply == Ok(Receipted(Receipt(0, id, plane, profile, at, Pending, at)))
  }

  lemma RowSays(profile: Profile, id: DeliveryId, row: DeliveryRow)
    requires DeliveryRowOk(profile, id, row)
    ensures DecryptAlert(id, row.body) == Some(row.body.payload.plaintext)
    ensures row.body.profile == profile && row.body.payload.plaintext.profile == profile
    ensures ToReceipt(profile, id, row) == Ok(ReceiptNow(id, row.body))
  {}

  lemma RepeatAnswers(db: Db, profile: Profile, plane: Plane, alert: Alert, at: Time, r: Result<(Db, Receipt)>)
    requires Consistent(db, profile) && r == Enqueue(db, profile, plane, alert, at)
    requires alert.profile == profile && at >= alert.occurredAt && IdFor(plane, alert, profile) in db.deliveries
    ensures var (id, body) := (IdFor(plane, alert, profile), db.deliveries[IdFor(plane, alert, profile)].body);
            r == if body.payload.plaintext == alert && body.queuedAt == at then Ok((db, ReceiptNow(id, body))) else Err(AlertConflict)
  {
    hide Consistent, DeliveryRowOk, DecryptAlert, ToReceipt;
    var id := IdFor(plane, alert, profile);
    ConsistentDelivery(db, profile, id);
    RowSays(profile, id, db.deliveries[id]);
  }

  lemma QueuedRowOk(profile: Profile, plane: Plane, alert: Alert, at: Time)
    requires alert.profile == profile && at >= alert.occurredAt
    ensures var id := IdFor(plane, alert, profile);
            DeliveryRowOk(profile, id, SignDelivery(id, QueuedBody(profile, plane, id, alert, at)))
  {}

  lemma FirstAnswers(db: Db, profile: Profile, plane: Plane, alert: Alert, at: Time, r: Result<(Db, Receipt)>)
    requires Consistent(db, profile) && r == Enqueue(db, profile, plane, alert, at)
    requires alert.profile == profile && at >= alert.occurredAt && IdFor(plane, alert, profile) !in db.deliveries
    ensures !InTurn(db, at) ==> r == Err(Validation)
    ensures InTurn(db, at) ==>
              var id := IdFor(plane, alert, profile);
              && r.Ok? && r.value.1 == Receipt(0, id, plane, profile, at, Pending, at)
              && r.value.0.deliveries == db.deliveries[id := SignDelivery(id, QueuedBody(profile, plane, id, alert, at))]
              && r.value.0.attempts == db.attempts
  {
    hide Consistent, DeliveryRowOk, DecryptAlert, AppendAudit;
    var id := IdFor(plane, alert, profile);
    QueuedRowOk(profile, plane, alert, at);
    RowSays(profile, id, SignDelivery(id, QueuedBody(profile, plane, id, alert, at)));
    var queued := QueueRows(db, profile, id, plane, alert, at);
    AppendsInTurn(queued, QueuedEvent, id, plane, None, Pending, None, at);
    hide ToReceipt;
  }

  lemma EnqueueAnswers(db: Db, profile: Profile, plane: Plane, alert: Alert, at: Time)
    requires Inv(db, profile)
    ensures var (next, reply) := Transact(db, profile, EnqueueOp(plane, alert, at));
            EnqueueAnswer(db, profile, plane, alert, at, next, reply)
  {
    hide Inv, Transact, Consistent, Enqueue, Seal, MetadataOk, Accepts, InTurn, Grows, ReceiptNow, QueuedBody;
    InvConsistent(db, profile);
    TransactStep(db, profile, EnqueueOp(plane, alert, at));
    var r := Enqueue(db, profile, plane, alert, at);
    SealAgain(db, profile);
    if alert.profile != profile || at < alert.occurredAt {
      BoundsAnswer(db, profile, plane, alert, at);
    } else if IdFor(plane, alert, profile) in db.deliveries {
      RepeatAnswers(db, profile, plane, alert, at, r);
    } else {
      FirstAnswers(db, profile, plane, alert, at, r);
      if r.Ok? { SealKeepsRows(r.value.0); }
    }
  }

  lemma BoundsAnswer(db: Db, profile: Profile, plane: Plane, alert: Alert, at: Time)
    requires alert.profile != profile || at < alert.occurredAt
    ensures Enqueue(db, profile, plane, alert, at) == Err(Validation)
  {}

  // ---------------------------------------------------------------- claim

  /** A delivery on its next attempt. */
  function StartedBody(body: DeliveryBody, at: Time): DeliveryBody
  {
    body.(state := InFlight, attemptCount := body.attemptCount + 1, active := Some(body.attemptCount + 1), updatedAt := at)
  }

  /** The answer to a claim: nothing when nothing is pending on the plane, and otherwise the first pending delivery, on
      its next attempt. */
  ghost predicate ClaimAnswer(db: Db, profile: Profile, plane: Plane, at: Time, next: Db, reply: Result<Reply>)
  {
    if forall id :: !IsPending(db, profile, plane, id) then next == db && reply == Ok(Claimed(None))
    else
      exists id :: IsFirstPending(db, profile, plane, id) &&
        var body := db.deliveries[id].body;
        var key := AttemptKey(id, body.attemptCount + 1);
        if at < body.updatedAt || !InTurn(db, at) then next == db && reply == Err(Validation)
        else
          && next.deliveries == db.deliveries[id := SignDelivery(id, StartedBody(body, at))]
          && key !in db.attempts
          && next.attempts == db.attempts[key := SignAttempt(key, AttemptBody(Running, at, None, None, None, None, None))]
          && reply == Ok(Claimed(Some(Claim(body.payload.plaintext, key.attempt, at, id, plane))))
  }

  lemma StartedOpens(profile: Profile, id: DeliveryId, row: DeliveryRow, at: Time)
    requires DeliveryRowOk(profile, id, row)
    ensures DecryptAlert(id, StartedBody(row.body, at)) == Some(row.body.payload.plaintext)
  {}

  lemma ClaimAtAnswers(db: Db, profile: Profile, plane: Plane, id: DeliveryId, at: Time, r: Result<(Db, Claim)>)
    requires Consistent(db, profile) && IsPending(db, profile, plane, id) && r == ClaimAt(db, profile, plane, id, at)
    ensures var body := db.deliveries[id].body;
            var key := AttemptKey(id, body.attemptCount + 1);
            if at < body.updatedAt || !InTurn(db, at) then r == Err(Validation)
            else
              && r.Ok? && r.value.1 == Claim(body.payload.plaintext, key.attempt, at, id, plane)
              && r.value.0.deliveries == db.deliveries[id := SignDelivery(id, StartedBody(body, at))]
              && key !in db.attempts
              && r.value.0.attempts == db.attempts[key := SignAttempt(key, AttemptBody(Running, at, None, None, None, None, None))]
  {
    hide Consistent, DeliveryRowOk, AppendAudit, DecryptAlert;
    ConsistentDelivery(db, profile, id);
    PendingRoom(db, profile, id);
    StartedOpens(profile, id, db.deliveries[id], at);
    var attempt := db.deliveries[id].body.attemptCount + 1;
    AppendsInTurn(StartRows(db, id, attempt, at), ClaimedEvent, id, plane, Some(attempt), InFlight, None, at);
  }

  lemma ClaimAnswers(db: Db, profile: Profile, plane: Plane, at: Time)
    requires Inv(db, profile)
    ensures var (next, reply) := Transact(db, profile, ClaimOp(plane, at)); ClaimAnswer(db, profile, plane, at, next, reply)
  {
    hide Inv, Transact, Consistent, ClaimAt, Seal, MetadataOk, Accepts, InTurn, Grows, IsPending, FirstPending, StartedBody, IsFirstPending;
    InvConsistent(db, profile);
    TransactStep(db, profile, ClaimOp(plane, at));
    SealAgain(db, profile);
    FirstPendingExists(db, profile, plane);
    if FirstPending(db, profile, plane).Some? {
      var id := FirstPending(db, profile, plane).value;
      FirstIsPending(db, profile, plane, id);
      var r := ClaimAt(db, profile, plane, id, at);
      ClaimAtAnswers(db, profile, plane, id, at, r);
      if r.Ok? { SealKeepsRows(r.value.0); }
    }
  }

  // ---------------------------------------------------------------- complete and fail

  /** The receipt of an attempt that has ended, whatever happened since. */
  function EndReceipt(key: AttemptKey, delivery: DeliveryBody, result: DeliveryState, at: Time): Receipt
  {
    Receipt(key.attempt, key.id, delivery.plane, delivery.profile, delivery.queuedAt, result, at)
  }

  /** The tables after an attempt has ended. */
  ghost predicate EndsAs(db: Db, next: Db, key: AttemptKey, attempt: AttemptBody, result: DeliveryState, at: Time)
    requires key.id in db.deliveries
  {
    && next.attempts == db.attempts[key := SignAttempt(key, attempt)]
    && next.deliveries == db.deliveries[key.id := SignDelivery(key.id, db.deliveries[key.id].body.(state := result, active := None, updatedAt := at))]
  }

  /** A provider message as it is kept: sealed for this attempt and bound to it. */
  function Kept(profile: Profile, key: AttemptKey, message: Option<string>): (Option<Mac>, Option<Sealed<string>>)
  {
    if message.None? then (None, None)
    else (Some(ProviderBinding(key.id, key.attempt, message.value)), Some(Sealed(ProviderAad(profile, key.id, key.attempt), message.value)))
  }

  predicate Known(db: Db, key: AttemptKey) { key.id in db.deliveries && key in db.attempts }

  /** The answer to a completion: the running attempt is delivered, a repeat is acknowledged as the first time, and an
      attempt that ended otherwise stays as it is. */
  ghost predicate CompleteAnswer(db: Db, profile: Profile, key: AttemptKey, at: Time, message: Option<string>, next: Db, reply: Result<Reply>)
  {
    if !Known(db, key) then next == db && reply == Err(DeliveryConflict)
    else
      var (delivery, attempt) := (db.deliveries[key.id].body, db.attempts[key].body);
      var (binding, provider) := Kept(profile, key, message);
      if attempt.state == Succeeded then
        && next == db
        && reply == if attempt.finishedAt == Some(at) && attempt.providerBinding == binding && attempt.provider == provider
                    then Ok(Receipted(EndReceipt(key, delivery, Delivered, at))) else Err(DeliveryConflict)
      else if attempt.state != Running then next == db && reply == Err(InvalidTransition)
      else if at < attempt.startedAt || !InTurn(db, at) then next == db && reply == Err(Validation)
      else
        && EndsAs(db, next, key, AttemptBody(Succeeded, attempt.startedAt, Some(at), None, Some(Delivered), binding, provider), Delivered, at)
        && reply == Ok(Receipted(EndReceipt(key, delivery, Delivered, at)))
  }

  /** What a failed attempt leaves behind: another try after a retryable first one, and nothing more otherwise. */
  function FailedAfter(key: AttemptKey, retryable: bool): DeliveryState { if retryable && key.attempt == 1 then Pending else Exhausted }

  ghost predicate FailAnswer(db: Db, profile: Profile, key: AttemptKey, at: Time, retryable: bool, next: Db, reply: Result<Reply>)
  {
    if !Known(db, key) then next == db && reply == Err(DeliveryConflict)
    else
      var (delivery, attempt) := (db.deliveries[key.id].body, db.attempts[key].body);
      if attempt.state == Failed then
        && next == db
        && reply == if attempt.finishedAt == Some(at) && attempt.retryable == Some(retryable)
                    then Ok(Receipted(EndReceipt(key, delivery, FailedAfter(key, retryable), at))) else Err(DeliveryConflict)
      else if attempt.state != Running then next == db && reply == Err(InvalidTransition)
      else if at < attempt.startedAt || !InTurn(db, at) then next == db && reply == Err(Validation)
      else
        && EndsAs(db, next, key, AttemptBody(Failed, attempt.startedAt, Some(at), Some(retryable), Some(FailedAfter(key, retryable)), None, None),
                  FailedAfter(key, retryable), at)
        && reply == Ok(Receipted(EndReceipt(key, delivery, FailedAfter(key, retryable), at)))
  }

  /** An attempt runs exactly while its delivery is on it, and a closed one shows how it ended. */
  ghost predicate Settled(profile: Profile, key: AttemptKey, delivery: DeliveryRow, attempt: AttemptRow)
  {
    && 1 <= key.attempt <= MAX_ATTEMPTS
    && (Active(delivery, attempt, key.attempt) <==> attempt.body.state == Running)
    && (attempt.body.state == Running ==> attempt.body == AttemptBody(Running, attempt.body.startedAt, None, None, None, None, None))
    && (attempt.body.state == Failed ==>
          && attempt.body.finishedAt.Some? && attempt.body.retryable.Some?
          && attempt.body.result == Some(FailedAfter(key, attempt.body.retryable.value)))
    && (attempt.body.state == Succeeded ==>
          && attempt.body.finishedAt.Some? && attempt.body.result == Some(Delivered)
          && exists message :: (attempt.body.providerBinding, attempt.body.provider) == Kept(profile, key, message))
  }

  lemma RunsWhileActive(db: Db, profile: Profile, key: AttemptKey)
    requires Consistent(db, profile) && Known(db, key)
    ensures Settled(profile, key, db.deliveries[key.id], db.attempts[key])
  {
    var lives := Rebuild(db.audit);
    HoldsAt(db, profile, key, lives);
    hide Holds, Rebuild, LegalLife, DeliveryFits, AttemptFits, Settled;
    LifeRuns(profile, key, db.deliveries[key.id], db.attempts[key], lives[key.id]);
  }

  lemma HoldsAt(db: Db, profile: Profile, key: AttemptKey, lives: Lives)
    requires Holds(db, profile, lives) && Known(db, key)
    ensures key.id in lives && LegalLife(lives[key.id]) && DeliveryFits(profile, key.id, db.deliveries[key.id], lives[key.id])
    ensures 1 <= key.attempt <= |lives[key.id].tries|
    ensures AttemptFits(profile, key, db.attempts[key], lives[key.id].tries[key.attempt - 1])
  {
    hide LegalLife, DeliveryFits, AttemptFits, ChainOk, TrailsFit, Counted;
  }

  lemma LifeRuns(profile: Profile, key: AttemptKey, delivery: DeliveryRow, attempt: AttemptRow, life: Life)
    requires LegalLife(life) && DeliveryFits(profile, key.id, delivery, life) && 1 <= key.attempt <= |life.tries|
    requires AttemptFits(profile, key, attempt, life.tries[key.attempt - 1])
    ensures Settled(profile, key, delivery, attempt)
  {
    var t := life.tries[key.attempt - 1];
    assert t.end.Some? ==> LegalEnd(key.attempt, t.end.value);
    if t.end.None? { assert key.attempt == |life.tries|; }
    if attempt.body.state == Succeeded { KeptOpens(profile, key, attempt.body); }
  }

  lemma KeptOpens(profile: Profile, key: AttemptKey, body: AttemptBody)
    requires DecryptProvider(profile, key, body).Ok?
    ensures exists message :: (body.providerBinding, body.provider) == Kept(profile, key, message)
  {
    var message := DecryptProvider(profile, key, body).value;
    assert (body.providerBinding, body.provider) == Kept(profile, key, message);
  }

  lemma KeptMeans(profile: Profile, key: AttemptKey, body: AttemptBody, message: Option<string>)
    requires exists kept :: (body.providerBinding, body.provider) == Kept(profile, key, kept)
    ensures DecryptProvider(profile, key, body) == Ok(message) <==> (body.providerBinding, body.provider) == Kept(profile, key, message)
    ensures EncryptProvider(profile, key, message) == Kept(profile, key, message)
  {}

  /** Ending the running attempt, at a time that is in turn. */
  lemma FinishAnswers(db: Db, key: AttemptKey, end: End, binding: Option<Mac>, provider: Option<Sealed<string>>, r: Result<(Db, Receipt)>)
    requires Known(db, key) && end.result != InFlight
    requires db.attempts[key].body == AttemptBody(Running, db.attempts[key].body.startedAt, None, None, None, None, None)
    requires r == Finish(db, key, end.state, TerminalType(end.state), end.at, end.retryable, end.result, binding, provider)
    ensures !InTurn(db, end.at) ==> r == Err(Validation)
    ensures InTurn(db, end.at) ==>
              && r.Ok? && r.value.1 == EndReceipt(key, db.deliveries[key.id].body, end.result, end.at)
              && EndsAs(db, r.value.0, key, AttemptBody(end.state, db.attempts[key].body.startedAt, Some(end.at), end.retryable, Some(end.result),
                                                        binding, provider), end.result, end.at)
  {
    hide AppendAudit;
    var finished := FinishRows(db, key, end.state, end.at, end.retryable, end.result, binding, provider);
    AppendsInTurn(finished, TerminalType(end.state), key.id, db.deliveries[key.id].body.plane, Some(key.attempt), end.result, end.retryable, end.at);
  }

  lemma RowsKnown(db: Db, profile: Profile, key: AttemptKey)
    requires Consistent(db, profile)
    ensures Known(db, key) ==> RequireRows(db, profile, key) == Ok((db.deliveries[key.id], db.attempts[key]))
    ensures !Known(db, key) ==> RequireRows(db, profile, key) == Err(DeliveryConflict)
  {
    hide Consistent, DeliveryRowOk, AttemptRowOk;
    if key.id in db.deliveries { ConsistentDelivery(db, profile, key.id); }
    if key in db.attempts { ConsistentAttempt(db, profile, key); }
  }

  lemma CompleteRowAnswers(db: Db, profile: Profile, key: AttemptKey, at: Time, message: Option<string>, r: Result<(Db, Receipt)>)
    requires Consistent(db, profile) && r == Complete(db, profile, key, at, message)
    ensures match r
            case Err(e) => CompleteAnswer(db, profile, key, at, message, db, Err(e))
            case Ok((next, receipt)) => CompleteAnswer(db, profile, key, at, message, next, Ok(Receipted(receipt))) &&
                                        (Known(db, key) && db.attempts[key].body.state == Succeeded ==> next == db)
  {
    hide Consistent, RequireRows, Active, Finish, DecryptProvider, EncryptProvider, Kept, EndsAs, InTurn;
    RowsKnown(db, profile, key);
    if Known(db, key) {
      var attempt := db.attempts[key];
      RunsWhileActive(db, profile, key);
      if attempt.body.state == Succeeded { KeptMeans(profile, key, attempt.body, message); }
      if attempt.body.state == Running {
        KeptAlike(profile, key, message);
        var (binding, provider) := Kept(profile, key, message);
        var end := End(Succeeded, at, None, Delivered);
        FinishAnswers(db, key, end, binding, provider, Finish(db, key, Succeeded, CompletedEvent, at, None, Delivered, binding, provider));
      }
    }
  }

  lemma KeptAlike(profile: Profile, key: AttemptKey, message: Option<string>)
    ensures EncryptProvider(profile, key, message) == Kept(profile, key, message)
  {}

  lemma FailRowAnswers(db: Db, profile: Profile, key: AttemptKey, at: Time, retryable: bool, r: Result<(Db, Receipt)>)
    requires Consistent(db, profile) && r == Fail(db, profile, key, at, retryable)
    ensures match r
            case Err(e) => FailAnswer(db, profile, key, at, retryable, db, Err(e))
            case Ok((next, receipt)) => FailAnswer(db, profile, key, at, retryable, next, Ok(Receipted(receipt)))
  {
    hide Consistent, RequireRows, Active, Finish, EndsAs, InTurn;
    RowsKnown(db, profile, key);
    if Known(db, key) {
      RunsWhileActive(db, profile, key);
      if db.attempts[key].body.state == Running {
        var end := End(Failed, at, Some(retryable), FailedAfter(key, retryable));
        FinishAnswers(db, key, end, None, None, Finish(db, key, Failed, FailedEvent, at, Some(retryable), end.result, None, None));
      }
    }
  }

  lemma CompleteAnswers(db: Db, profile: Profile, key: AttemptKey, at: Time, message: Option<string>)
    requires Inv(db, profile)
    ensures var (next, reply) := Transact(db, profile, CompleteOp(key, at, message)); CompleteAnswer(db, profile, key, at, message, next, reply)
  {
    hide Inv, Transact, Consistent, Complete, Seal, MetadataOk, Accepts, Grows;
    InvConsistent(db, profile);
    TransactStep(db, profile, CompleteOp(key, at, message));
    var r := Complete(db, profile, key, at, message);
    CompleteRowAnswers(db, profile, key, at, message, r);
    if r.Ok? {
      SealKeepsRows(r.value.0);
      CompleteResealed(db, profile, key, at, message, r.value.0, Ok(Receipted(r.value.1)));
    }
  }

  /** The answer speaks of rows alone, so sealing changes nothing in it. */
  lemma CompleteResealed(db: Db, profile: Profile, key: AttemptKey, at: Time, message: Option<string>, next: Db, reply: Result<Reply>)
    requires CompleteAnswer(db, profile, key, at, message, next, reply) && MetadataOk(db, profile)
    ensures CompleteAnswer(db, profile, key, at, message, Seal(next), reply)
  {
    SealKeepsRows(next);
    SealAgain(db, profile);
    hide Seal, MetadataOk, Kept, InTurn, Known;
  }

  lemma FailAnswers(db: Db, profile: Profile, key: AttemptKey, at: Time, retryable: bool)
    requires Inv(db, profile)
    ensures var (next, reply) := Transact(db, profile, FailOp(key, at, retryable)); FailAnswer(db, profile, key, at, retryable, next, reply)
  {
    hide Inv, Transact, Consistent, Fail, Seal, MetadataOk, Accepts, Grows;
    InvConsistent(db, profile);
    TransactStep(db, profile, FailOp(key, at, retryable));
    var r := Fail(db, profile, key, at, retryable);
    FailRowAnswers(db, profile, key, at, retryable, r);
    if r.Ok? {
      SealKeepsRows(r.value.0);
      FailResealed(db, profile, key, at, retryable, r.value.0, Ok(Receipted(r.value.1)));
    }
  }

  lemma FailResealed(db: Db, profile: Profile, key: AttemptKey, at: Time, retryable: bool, next: Db, reply: Result<Reply>)
    requires FailAnswer(db, profile, key, at, retryable, next, reply) && MetadataOk(db, profile)
    ensures FailAnswer(db, profile, key, at, retryable, Seal(next), reply)
  {
    SealKeepsRows(next);
    SealAgain(db, profile);
    hide Seal, MetadataOk, InTurn, Known;
  }

  // ---------------------------------------------------------------- recover

  lemma AppendStaysInTurn(db: Db, eventType: EventType, id: DeliveryId, plane: Plane, attempt: Option<int>,
                          state: DeliveryState, retryable: Option<bool>, at: Time)
    requires InTurn(db, at)
    ensures InTurn(AppendAudit(db, eventType, id, plane, attempt, state, retryable, at).value, at)
  {}

  lemma RecoverOneAnswers(db: Db, profile: Profile, id: DeliveryId, at: Time, r: Result<(Db, Receipt)>)
    requires Consistent(db, profile) && IsInFlight(db, profile, id) && r == RecoverOne(db, profile, id, at)
    ensures r.Ok? <==> InTurn(db, at)
    ensures r.Ok? ==> InTurn(r.value.0, at)
  {
    hide Consistent, AttemptRowOk, AppendAudit, InTurn, Settled;
    var n := db.deliveries[id].body.attemptCount;
    var key := AttemptKey(id, n);
    InFlightActive(db, profile, id, n);
    ConsistentAttempt(db, profile, key);
    RunningBody(db, profile, key);
    var end := CrashEnd(n, at);
    FinishAnswers(db, key, end, None, None, Finish(db, key, Crashed, RecoveredEvent, at, end.retryable, end.result, None, None));
    var finished := FinishRows(db, key, Crashed, at, end.retryable, end.result, None, None);
    if InTurn(db, at) {
      SameTurn(db, finished, at);
      AppendStaysInTurn(finished, RecoveredEvent, id, db.deliveries[id].body.plane, Some(n), end.result, end.retryable, at);
    }
  }

  lemma SameTurn(db: Db, other: Db, at: Time)
    requires db.audit == other.audit
    ensures InTurn(db, at) <==> InTurn(other, at)
  {}

  lemma RunningBody(db: Db, profile: Profile, key: AttemptKey)
    requires Consistent(db, profile) && Known(db, key) && db.attempts[key].body.finishedAt.None?
    ensures db.attempts[key].body == AttemptBody(Running, db.attempts[key].body.startedAt, None, None, None, None, None)
  {
    hide Consistent;
    RunsWhileActive(db, profile, key);
    ConsistentAttempt(db, profile, key);
  }

  lemma {:induction false} RecoverEachAnswers(db: Db, profile: Profile, ids: seq<DeliveryId>, at: Time, recovery: Recovery, r: Result<(Db, Recovery)>)
    requires Consistent(db, profile) && Recoverable(db, profile, ids, at) && r == RecoverEach(db, profile, ids, at, recovery)
    ensures r.Ok? <==> ids == [] || InTurn(db, at)
    decreases |ids|
  {
    hide Consistent, RecoverOne, RecoversOnly, Recoverable, Grows, RecoverEach, IsInFlight, InTurn;
    if ids == [] {
      RecoverNone(db, profile, ids, at, recovery);
    } else {
      FirstRecoverable(db, profile, ids, at);
      var one := RecoverOne(db, profile, ids[0], at);
      RecoverEachCons(db, profile, ids, at, recovery, one);
      RecoverOneStep(db, profile, ids[0], at, one);
      RecoverOneAnswers(db, profile, ids[0], at, one);
      if one.Ok? {
        RecoverRest(db, one.value.0, profile, ids, at);
        RecoverEachAnswers(one.value.0, profile, ids[1..], at, Tally(recovery, one.value.1), r);
      }
    }
  }

  /** Recovery goes through exactly when its time is in turn behind the chain and behind every running attempt, or when
      nothing runs. */
  ghost predicate MayRecover(db: Db, profile: Profile, at: Time)
  {
    && (forall id :: IsInFlight(db, profile, id) ==> at >= db.deliveries[id].body.updatedAt)
    && (InFlightIds(db, profile) != {} ==> InTurn(db, at))
  }

  lemma RecoverRowAnswers(db: Db, profile: Profile, at: Time, r: Result<(Db, Recovery)>)
    requires Consistent(db, profile) && r == Recover(db, profile, at)
    ensures r.Ok? <==> MayRecover(db, profile, at)
    ensures r.Err? ==> r.error == Validation
  {
    hide Consistent, DeliveryRowOk, RecoverEach, IsRecoveryOrder, RecoveryOrder, Recoverable, Refusal, InTurn, IsInFlight;
    RecoverStep(db, profile, at, r);
    forall id | IsInFlight(db, profile, id) ensures id in db.deliveries { InFlightKnown(db, profile, id); }
    forall id | IsInFlight(db, profile, id) ensures DeliveryRowOk(profile, id, db.deliveries[id]) {
      ConsistentDelivery(db, profile, id);
    }
    var ids := RecoveryOrder(db, profile);
    RecoveryOrderExists(db, profile);
    OrderDistinct(db, profile, ids);
    OrderedIds(db, profile, ids);
    forall id | id in ids ensures id in db.deliveries { InFlightKnown(db, profile, id); }
    RefusalMeans(db, profile, ids, at);
    if Refusal(db, profile, ids, at).Some? { RefusalIs(db, profile, ids, at); }
    NoneInFlight(db, profile, ids);
    if Refusal(db, profile, ids, at).None? {
      OrderRecoverable(db, profile, ids, at);
      RecoverEachAnswers(db, profile, ids, at, Recovery(0, at, 0), r);
    }
  }

  lemma InFlightKnown(db: Db, profile: Profile, id: DeliveryId)
    requires IsInFlight(db, profile, id)
    ensures id in db.deliveries
  {}

  lemma NoneInFlight(db: Db, profile: Profile, ids: seq<DeliveryId>)
    requires forall id :: id in ids <==> IsInFlight(db, profile, id)
    ensures ids == [] <==> InFlightIds(db, profile) == {}
  {
    if ids != [] { assert ids[0] in ids && ids[0] in InFlightIds(db, profile); }
    if InFlightIds(db, profile) != {} {
      var id :| id in InFlightIds(db, profile);
      assert id in ids;
    }
  }

  lemma {:induction false} RefusalIs(db: Db, profile: Profile, ids: seq<DeliveryId>, at: Time)
    requires forall id :: id in ids ==> id in db.deliveries
    requires Refusal(db, profile, ids, at).Some? && Refusal(db, profile, ids, at).value == Validation
    ensures exists id :: id in ids && at < db.deliveries[id].body.updatedAt
  {
    hide DeliveryRowOk;
    if at < db.deliveries[ids[0]].body.updatedAt {
      assert ids[0] in ids;
    } else {
      RefusalIs(db, profile, ids[1..], at);
      var id :| id in ids[1..] && at < db.deliveries[id].body.updatedAt;
      assert id in ids;
    }
  }

  /** A delivery whose running attempt crashed. */
  function CrashedBody(body: DeliveryBody, at: Time): DeliveryBody
  {
    body.(state := if body.attemptCount == 1 then Pending else Exhausted, active := None, updatedAt := at)
  }

  lemma CrashedIs(db: Db, profile: Profile, id: DeliveryId, at: Time)
    requires Consistent(db, profile) && IsInFlight(db, profile, id)
    ensures OutboxRecovery.Recovered(db.deliveries[id].body, at) == CrashedBody(db.deliveries[id].body, at)
  {
    hide Consistent;
    InFlightActive(db, profile, id, db.deliveries[id].body.attemptCount);
  }

  /** Every answer of recovery: it closes what runs and counts it, or is refused and changes nothing. */
  lemma RecoverAnswers(db: Db, profile: Profile, at: Time)
    requires Inv(db, profile)
    ensures var (next, reply) := Transact(db, profile, RecoverOp(at));
            if MayRecover(db, profile, at) then
              && next.deliveries.Keys == db.deliveries.Keys
              && (forall id :: id in db.deliveries ==>
                    next.deliveries[id].body == if IsInFlight(db, profile, id) then CrashedBody(db.deliveries[id].body, at) else db.deliveries[id].body)
              && reply == Ok(Reply.Recovered(Recovery(|InFlightOn(db, profile, 2)|, at, |InFlightOn(db, profile, 1)|)))
            else next == db && reply == Err(Validation)
  {
    hide Inv, Transact, Consistent, Recover, Seal, MetadataOk, Accepts, Grows, MayRecover, InFlightOn, OutboxRecovery.Recovered, CrashedAt,
      IsInFlight, CrashedBody;
    InvConsistent(db, profile);
    TransactStep(db, profile, RecoverOp(at));
    var r := Recover(db, profile, at);
    RecoverRowAnswers(db, profile, at, r);
    RecoverStep(db, profile, at, r);
    if r.Ok? {
      SealKeepsRows(r.value.0);
      forall id | IsInFlight(db, profile, id) ensures OutboxRecovery.Recovered(db.deliveries[id].body, at) == CrashedBody(db.deliveries[id].body, at) {
        CrashedIs(db, profile, id, at);
      }
    }
  }

  // ---------------------------------------------------------------- a repeated enqueue

  lemma QueuedStays(db: Db, later: Db, id: DeliveryId)
    requires Grows(db, later) && id in db.deliveries
    ensures id in later.deliveries && later.deliveries[id].body.payload == db.deliveries[id].body.payload
    ensures later.deliveries[id].body.queuedAt == db.deliveries[id].body.queuedAt
  {}

  lemma AcceptedQueued(db: Db, profile: Profile, plane: Plane, alert: Alert, at: Time, next: Db, reply: Result<Reply>)
    requires EnqueueAnswer(db, profile, plane, alert, at, next, reply) && reply.Ok?
    ensures var id := DeliveryId(plane, alert.incidentId, alert.sessionId, profile);
            && alert.profile == profile && at >= alert.occurredAt && id in next.deliveries
            && next.deliveries[id].body.payload.plaintext == alert && next.deliveries[id].body.queuedAt == at
  {}

  lemma RowTells(db: Db, profile: Profile, id: DeliveryId)
    requires Inv(db, profile) && id in db.deliveries
    ensures var lives := Rebuild(db.audit);
            id in lives
            && ReceiptNow(id, db.deliveries[id].body)
               == Receipt(|lives[id].tries|, id, id.plane, profile, lives[id].queuedAt, StateOf(lives[id]), UpdatedAt(lives[id]))
  {
    hide Inv, Consistent, Holds, Rebuild, ToldBy;
    InvConsistent(db, profile);
    ConsistentDelivery(db, profile, id);
    InvTold(db, profile, id);
  }

  lemma InvTold(db: Db, profile: Profile, id: DeliveryId)
    requires Inv(db, profile) && id in db.deliveries
    ensures var lives := Rebuild(db.audit);
            && id in lives && db.deliveries[id].body.state == StateOf(lives[id]) && db.deliveries[id].body.attemptCount == |lives[id].tries|
            && db.deliveries[id].body.queuedAt == lives[id].queuedAt && db.deliveries[id].body.updatedAt == UpdatedAt(lives[id])
  {
    hide Rebuild, Holds, MetadataOk;
    HoldsTold(db, profile, Rebuild(db.audit));
  }

  /** Once an enqueue was accepted, any later enqueue under the same identity, whatever happened in between, changes
      nothing: the same alert with the same time is acknowledged with what the audit chain tells at that moment, and
      anything else is a conflict. */
  lemma EnqueueIsIdempotent(db: Db, profile: Profile, plane: Plane, alert: Alert, at: Time, ops: seq<Op>, again: Alert, at': Time)
    requires Inv(db, profile) && Transact(db, profile, EnqueueOp(plane, alert, at)).1.Ok?
    requires again.incidentId == alert.incidentId && again.sessionId == alert.sessionId && again.profile == profile && at' >= again.occurredAt
    ensures var later := Run(Transact(db, profile, EnqueueOp(plane, alert, at)).0, profile, ops);
            var id := DeliveryId(plane, alert.incidentId, alert.sessionId, profile);
            var lives := Rebuild(later.audit);
            && id in lives
            && Transact(later, profile, EnqueueOp(plane, again, at'))
               == (later,
                   if again == alert && at' == at
                   then Ok(Receipted(Receipt(|lives[id].tries|, id, plane, profile, at, StateOf(lives[id]), UpdatedAt(lives[id]))))
                   else Err(AlertConflict))
  {
    hide Inv, Transact, Run, Grows, Rebuild, EnqueueAnswer, ReceiptNow;
    var (next, reply) := Transact(db, profile, EnqueueOp(plane, alert, at));
    EnqueueAnswers(db, profile, plane, alert, at);
    AcceptedQueued(db, profile, plane, alert, at, next, reply);
    TransactStep(db, profile, EnqueueOp(plane, alert, at));
    var later := Run(next, profile, ops);
    RunStep(next, profile, ops);
    var id := DeliveryId(plane, alert.incidentId, alert.sessionId, profile);
    QueuedStays(next, later, id);
    EnqueueAnswers(later, profile, plane, again, at');
    RepeatIs(later, profile, plane, again, at', id);
    RowTells(later, profile, id);
    InvTold(later, profile, id);
  }

  lemma RepeatIs(db: Db, profile: Profile, plane: Plane, alert: Alert, at: Time, id: DeliveryId)
    requires id == DeliveryId(plane, alert.incidentId, alert.sessionId, profile) && id in db.deliveries
    requires alert.profile == profile && at >= alert.occurredAt
    requires EnqueueAnswer(db, profile, plane, alert, at, Transact(db, profile, EnqueueOp(plane, alert, at)).0,
                           Transact(db, profile, EnqueueOp(plane, alert, at)).1)
    ensures var body := db.deliveries[id].body;
            Transact(db, profile, EnqueueOp(plane, alert, at))
            == (db, if body.payload.plaintext == alert && body.queuedAt == at then Ok(Receipted(ReceiptNow(id, body))) else Err(AlertConflict))
  {
    hide Transact, ReceiptNow;
  }
}
