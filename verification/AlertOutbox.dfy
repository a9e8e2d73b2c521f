/** The outbox object (packages/alerts/src/alert-outbox.ts): its methods rewrite the tables row by row
    inside one exclusive transaction, and are proved to do exactly what `Transact` says. */
module AlertOutboxObject {
  import opened Order
  import opened Wrappers
  import opened OutboxModel
  import opened OutboxChecker
  import opened OutboxInvariant
  import opened OutboxRuns
  import opened OutboxRecovery
  import opened OutboxIntegrity
  import opened OutboxTheorems

  class AlertOutbox {
    const profile: Profile
    var meta: Metadata
    var deliveries: map<DeliveryId, DeliveryRow>
    var attempts: map<AttemptKey, AttemptRow>
    var audit: seq<AuditRow>

    function State(): Db
      reads this
    {
      Db(meta, deliveries, attempts, audit)
    }

    constructor (profile: Profile)
      ensures this.profile == profile && State() == EmptyDb(profile)
    {
      this.profile := profile;
      meta := Metadata(profile, 0, GenesisMac, KeyCheckMac(profile), GenesisMac, GenesisMac);
      deliveries, attempts, audit := map[], map[], [];
      new;
      SealState();
    }

    // -------------------------------------------------------------- transactions

    method SealState()
      modifies this`meta
      ensures State() == Seal(old(State()))
    {
      var stateMac := FullStateMac(State());
      meta := meta.(stateMac := stateMac);
      meta := meta.(metadataMac := MetadataRowMac(meta));
    }

    method Restore(db: Db)
      modifies this
      ensures State() == db
    {
      meta, deliveries, attempts, audit := db.meta, db.deliveries, db.attempts, db.audit;
    }

    /** Seals and checks what an operation left behind; rolls back if the check fails. */
    method Commit(before: Db) returns (committed: bool)
      modifies this
      ensures committed == Accepts(Seal(old(State())), profile)
      ensures State() == if committed then Seal(old(State())) else before
    {
      hide Accepts, Seal;
      SealState();
      committed := VerifyIntegrityInternal(State(), profile);
      if !committed { Restore(before); }
    }

    method AppendAuditRow(eventType: EventType, id: DeliveryId, plane: Plane, attempt: Option<int>,
                          state: DeliveryState, retryable: Option<bool>, at: Time) returns (error: Option<Error>)
      modifies this`meta, this`audit
      ensures match AppendAudit(old(State()), eventType, id, plane, attempt, state, retryable, at)
              case Err(e) => error == Some(e) && State() == old(State())
              case Ok(next) => error == None && State() == next
    {
      if audit != [] && at < audit[|audit| - 1].body.occurredAt { return Some(Validation); }
      var sequence := meta.headSequence + 1;
      var row := SignAudit(AuditBody(sequence, eventType, id, plane, attempt, state, retryable, at, meta.headMac));
      audit := audit + [row];
      meta := meta.(headSequence := sequence, headMac := row.mac);
      return None;
    }

    // -------------------------------------------------------------- enqueue

    method EnqueueRow(plane: Plane, alert: Alert, queuedAt: Time) returns (r: Result<Receipt>)
      requires alert.profile == profile && queuedAt >= alert.occurredAt
      modifies this
      ensures match OutboxModel.Enqueue(old(State()), profile, plane, alert, queuedAt)
              case Err(e) => r == Err(e)
              case Ok((next, receipt)) => State() == next && r == Ok(receipt)
    {
      hide DeliveryRowOk, AppendAudit;
      var id := IdFor(plane, alert, profile);
      if id in deliveries {
        var existing := deliveries[id];
        var plaintext := DecryptAlert(id, existing.body);
        if plaintext.None? { return Err(Integrity); }
        if existing.body.plane != plane || existing.body.profile != alert.profile || existing.body.queuedAt != queuedAt || plaintext.value != alert {
          return Err(AlertConflict);
        }
        return ToReceipt(profile, id, existing);
      }
      var row := SignDelivery(id, DeliveryBody(profile, plane, PayloadBinding(alert, id), Sealed(PayloadAad(profile, plane, id), alert),
                                               Pending, 0, None, queuedAt, queuedAt));
      deliveries := deliveries[id := row];
      var error := AppendAuditRow(QueuedEvent, id, plane, None, Pending, None, queuedAt);
      if error.Some? { return Err(error.value); }
      r := ToReceipt(profile, id, deliveries[id]);
    }

    method Enqueue(plane: Plane, alert: Alert, queuedAt: Time) returns (r: Result<Receipt>)
      modifies this
      ensures var (next, reply) := Transact(old(State()), profile, EnqueueOp(plane, alert, queuedAt));
              State() == next && match reply case Err(e) => r == Err(e) case Ok(answer) => r.Ok? && answer == Receipted(r.value)
      ensures Inv(old(State()), profile) ==> Inv(State(), profile) && r != Err(Integrity)
    {
      hide Accepts, Seal, OutboxModel.Enqueue, Inv;
      Keeps(State(), profile, EnqueueOp(plane, alert, queuedAt));
      if alert.profile != profile || queuedAt < alert.occurredAt { return Err(Validation); }
      var before := State();
      var valid := VerifyIntegrityInternal(before, profile);
      if !valid { return Err(Integrity); }
      r := EnqueueRow(plane, alert, queuedAt);
      if r.Err? {
        Restore(before);
      } else {
        var committed := Commit(before);
        if !committed { r := Err(Integrity); }
      }
    }

    // -------------------------------------------------------------- claim

    method FindFirstPending(plane: Plane) returns (first: Option<DeliveryId>)
      ensures first == FirstPending(State(), profile, plane)
    {
      hide IsPending, Before;
      first := None;
      var rest := deliveries.Keys;
      while rest != {}
        invariant rest <= deliveries.Keys
        invariant FirstAmong(State(), profile, plane, deliveries.Keys - rest, first)
        decreases |rest|
      {
        var id :| id in rest;
        ghost var seen := deliveries.Keys - rest;
        rest := rest - {id};
        assert deliveries.Keys - rest == seen + {id};
        FirstAmongMore(State(), profile, plane, seen, first, id);
        if IsPending(State(), profile, plane, id)
           && (first.None? || Before(deliveries[id].body.queuedAt, id, deliveries[first.value].body.queuedAt, first.value)) {
          first := Some(id);
        }
      }
      FirstAmongAll(State(), profile, plane, first);
    }

    method ClaimRow(plane: Plane, claimedAt: Time) returns (r: Result<Option<Claim>>)
      modifies this
      ensures match ClaimNext(old(State()), profile, plane, claimedAt)
              case Err(e) => r == Err(e)
              case Ok((next, claim)) => State() == next && r == Ok(claim)
    {
      hide DeliveryRowOk, AppendAudit, FirstPending, DecryptAlert;
      var first := FindFirstPending(plane);
      if first.None? { return Ok(None); }
      var id := first.value;
      FirstPendingExists(State(), profile, plane);
      FirstIsPending(State(), profile, plane, id);
      var row := deliveries[id];
      if !DeliveryRowOk(profile, id, row) { return Err(Integrity); }
      if claimedAt < row.body.updatedAt { return Err(Validation); }
      var attempt := row.body.attemptCount + 1;
      if attempt != 1 && attempt != 2 { return Err(Integrity); }
      var key := AttemptKey(id, attempt);
      if key in attempts { return Err(Integrity); }
      attempts := attempts[key := SignAttempt(key, AttemptBody(Running, claimedAt, None, None, None, None, None))];
      deliveries := deliveries[id := SignDelivery(id, row.body.(active := Some(attempt), attemptCount := attempt, state := InFlight, updatedAt := claimedAt))];
      var error := AppendAuditRow(ClaimedEvent, id, plane, Some(attempt), InFlight, None, claimedAt);
      if error.Some? { return Err(error.value); }
      var alert := DecryptAlert(id, deliveries[id].body);
      if alert.None? { return Err(Integrity); }
      return Ok(Some(OutboxModel.Claim.Claim(alert.value, attempt, claimedAt, id, plane)));
    }

    method Claim(plane: Plane, claimedAt: Time) returns (r: Result<Option<Claim>>)
      modifies this
      ensures var (next, reply) := Transact(old(State()), profile, ClaimOp(plane, claimedAt));
              State() == next && match reply case Err(e) => r == Err(e) case Ok(answer) => r.Ok? && answer == Claimed(r.value)
      ensures Inv(old(State()), profile) ==> Inv(State(), profile) && r != Err(Integrity)
    {
      hide Accepts, Seal, ClaimNext, Inv;
      Keeps(State(), profile, ClaimOp(plane, claimedAt));
      var before := State();
      var valid := VerifyIntegrityInternal(before, profile);
      if !valid { return Err(Integrity); }
      r := ClaimRow(plane, claimedAt);
      if r.Err? {
        Restore(before);
      } else {
        var committed := Commit(before);
        if !committed { r := Err(Integrity); }
      }
    }

    // -------------------------------------------------------------- complete and fail

    /** Closes an attempt, moves its delivery on, and audits it. */
    method FinishRow(key: AttemptKey, state: AttemptState, event: EventType, at: Time, retryable: Option<bool>,
                     result: DeliveryState, binding: Option<Mac>, provider: Option<Sealed<string>>) returns (r: Result<Receipt>)
      requires key.id in deliveries && key in attempts
      modifies this
      ensures match Finish(old(State()), key, state, event, at, retryable, result, binding, provider)
              case Err(e) => r == Err(e)
              case Ok((next, receipt)) => State() == next && r == Ok(receipt)
    {
      hide AppendAudit, ReceiptAt;
      var delivery, attempt := deliveries[key.id], attempts[key];
      attempts := attempts[key := SignAttempt(key, attempt.body.(state := state, finishedAt := Some(at), retryable := retryable,
                                                                 result := Some(result), providerBinding := binding, provider := provider))];
      deliveries := deliveries[key.id := SignDelivery(key.id, delivery.body.(active := None, state := result, updatedAt := at))];
      var rows := attempts[key];
      var error := AppendAuditRow(event, key.id, delivery.body.plane, Some(key.attempt), result, retryable, at);
      if error.Some? { return Err(error.value); }
      r := ReceiptAt(key.id, delivery, key, rows);
    }

    method CompleteRow(key: AttemptKey, at: Time, message: Option<string>) returns (r: Result<Receipt>)
      modifies this
      ensures match OutboxModel.Complete(old(State()), profile, key, at, message)
              case Err(e) => r == Err(e)
              case Ok((next, receipt)) => State() == next && r == Ok(receipt)
    {
      hide DeliveryRowOk, AttemptRowOk, Finish, ReceiptAt, DecryptProvider, EncryptProvider;
      var rows := RequireRows(State(), profile, key);
      if rows.Err? { return Err(rows.error); }
      var (delivery, attempt) := rows.value;
      if attempt.body.state == Succeeded {
        if attempt.body.finishedAt != Some(at) || DecryptProvider(profile, key, attempt.body) != Ok(message) { return Err(DeliveryConflict); }
        return ReceiptAt(key.id, delivery, key, attempt);
      }
      if !Active(delivery, attempt, key.attempt) { return Err(InvalidTransition); }
      if at < attempt.body.startedAt { return Err(Validation); }
      var (binding, provider) := EncryptProvider(profile, key, message);
      r := FinishRow(key, Succeeded, CompletedEvent, at, None, Delivered, binding, provider);
    }

    method Complete(key: AttemptKey, at: Time, message: Option<string>) returns (r: Result<Receipt>)
      modifies this
      ensures var (next, reply) := Transact(old(State()), profile, CompleteOp(key, at, message));
              State() == next && match reply case Err(e) => r == Err(e) case Ok(answer) => r.Ok? && answer == Receipted(r.value)
      ensures Inv(old(State()), profile) ==> Inv(State(), profile) && r != Err(Integrity)
    {
      hide Accepts, Seal, OutboxModel.Complete, Inv;
      Keeps(State(), profile, CompleteOp(key, at, message));
      var before := State();
      var valid := VerifyIntegrityInternal(before, profile);
      if !valid { return Err(Integrity); }
      r := CompleteRow(key, at, message);
      if r.Err? {
        Restore(before);
      } else {
        var committed := Commit(before);
        if !committed { r := Err(Integrity); }
      }
    }

    method FailRow(key: AttemptKey, at: Time, retryable: bool) returns (r: Result<Receipt>)
      modifies this
      ensures match OutboxModel.Fail(old(State()), profile, key, at, retryable)
              case Err(e) => r == Err(e)
              case Ok((next, receipt)) => State() == next && r == Ok(receipt)
    {
      hide DeliveryRowOk, AttemptRowOk, Finish, ReceiptAt;
      var rows := RequireRows(State(), profile, key);
      if rows.Err? { return Err(rows.error); }
      var (delivery, attempt) := rows.value;
      if attempt.body.state == Failed {
        if attempt.body.finishedAt != Some(at) || attempt.body.retryable != Some(retryable) { return Err(DeliveryConflict); }
        return ReceiptAt(key.id, delivery, key, attempt);
      }
      if !Active(delivery, attempt, key.attempt) { return Err(InvalidTransition); }
      if at < attempt.body.startedAt { return Err(Validation); }
      var result := if retryable && key.attempt < MAX_ATTEMPTS then Pending else Exhausted;
      r := FinishRow(key, Failed, FailedEvent, at, Some(retryable), result, None, None);
    }

    method Fail(key: AttemptKey, at: Time, retryable: bool) returns (r: Result<Receipt>)
      modifies this
      ensures var (next, reply) := Transact(old(State()), profile, FailOp(key, at, retryable));
              State() == next && match reply case Err(e) => r == Err(e) case Ok(answer) => r.Ok? && answer == Receipted(r.value)
      ensures Inv(old(State()), profile) ==> Inv(State(), profile) && r != Err(Integrity)
    {
      hide Accepts, Seal, OutboxModel.Fail, Inv;
      Keeps(State(), profile, FailOp(key, at, retryable));
      var before := State();
      var valid := VerifyIntegrityInternal(before, profile);
      if !valid { return Err(Integrity); }
      r := FailRow(key, at, retryable);
      if r.Err? {
        Restore(before);
      } else {
        var committed := Commit(before);
        if !committed { r := Err(Integrity); }
      }
    }

    // -------------------------------------------------------------- recover

    method ListInFlight() returns (ids: seq<DeliveryId>)
      ensures ids == RecoveryOrder(State(), profile)
    {
      ids := [];
      var rest := deliveries.Keys;
      while rest != {}
        invariant rest <= deliveries.Keys
        invariant forall id :: id in ids <==> id !in rest && IsInFlight(State(), profile, id)
        invariant forall i, j :: 0 <= i < j < |ids| ==> ids[i] != ids[j]
        decreases |rest|
      {
        var id :| id in rest;
        rest := rest - {id};
        if IsInFlight(State(), profile, id) { ids := ids + [id]; }
      }
      var times := map id | id in deliveries :: deliveries[id].body.updatedAt;
      SortedOrder(State(), profile, ids, times);
      ids := Sort(ids, ByTime(times));
    }

    method RecoverRows(at: Time) returns (r: Result<Recovery>)
      modifies this
      ensures match OutboxModel.Recover(old(State()), profile, at)
              case Err(e) => r == Err(e)
              case Ok((next, recovery)) => State() == next && r == Ok(recovery)
    {
      hide DeliveryRowOk, AttemptRowOk, RecoverOne, RecoveryOrder;
      ghost var before := State();
      var ids := ListInFlight();
      var i := 0;
      while i < |ids|
        invariant 0 <= i <= |ids|
        invariant State() == before
        invariant Refusal(before, profile, ids, at) == Refusal(before, profile, ids[i..], at)
      {
        var id := ids[i];
        assert ids[i..][0] == id && ids[i..][1..] == ids[i + 1..];
        if id !in deliveries || !DeliveryRowOk(profile, id, deliveries[id]) { return Err(Integrity); }
        if at < deliveries[id].body.updatedAt { return Err(Validation); }
        i := i + 1;
      }
      assert ids[i..] == [];
      var recovery := Recovery(0, at, 0);
      i := 0;
      assert ids[0..] == ids;
      while i < |ids|
        invariant 0 <= i <= |ids|
        invariant RecoverEach(before, profile, ids, at, Recovery(0, at, 0)) == RecoverEach(State(), profile, ids[i..], at, recovery)
      {
        var id := ids[i];
        assert ids[i..][0] == id && ids[i..][1..] == ids[i + 1..];
        if id !in deliveries { return Err(Integrity); }
        var one := RecoverRow(id, at);
        if one.Err? { return Err(one.error); }
        recovery := Tally(recovery, one.value);
        i := i + 1;
      }
      assert ids[i..] == [];
      r := Ok(recovery);
    }

    method RecoverRow(id: DeliveryId, at: Time) returns (r: Result<Receipt>)
      requires id in deliveries
      modifies this
      ensures match RecoverOne(old(State()), profile, id, at)
              case Err(e) => r == Err(e)
              case Ok((next, receipt)) => State() == next && r == Ok(receipt)
    {
      hide AttemptRowOk, Finish;
      var active := deliveries[id].body.active;
      if active != Some(1) && active != Some(2) { return Err(Integrity); }
      var key := AttemptKey(id, active.value);
      if key !in attempts { return Err(DeliveryConflict); }
      if !AttemptRowOk(profile, key, attempts[key]) { return Err(Integrity); }
      var again := key.attempt < MAX_ATTEMPTS;
      r := FinishRow(key, Crashed, RecoveredEvent, at, Some(again), if again then Pending else Exhausted, None, None);
    }

    method Recover(at: Time) returns (r: Result<Recovery>)
      modifies this
      ensures var (next, reply) := Transact(old(State()), profile, RecoverOp(at));
              State() == next && match reply case Err(e) => r == Err(e) case Ok(answer) => r.Ok? && answer == Recovered(r.value)
      ensures Inv(old(State()), profile) ==> Inv(State(), profile) && r != Err(Integrity)
    {
      hide Accepts, Seal, OutboxModel.Recover, Inv;
      Keeps(State(), profile, RecoverOp(at));
      var before := State();
      var valid := VerifyIntegrityInternal(before, profile);
      if !valid { return Err(Integrity); }
      r := RecoverRows(at);
      if r.Err? {
        Restore(before);
      } else {
        var committed := Commit(before);
        if !committed { r := Err(Integrity); }
      }
    }

    // -------------------------------------------------------------- heads

    method AssertTrustedHeadPrefix(head: TrustedHead) returns (ok: bool)
      ensures ok == AcceptHead(State(), profile, head)
    {
      if head.profile != profile || head.headMac != HeadMac(head.profile, head.auditSequence, head.auditMac)
         || head.auditSequence > meta.headSequence {
        return false;
      }
      if head.auditSequence == 0 { return head.auditMac == GenesisMac; }
      var i := 0;
      while i < |audit|
        invariant 0 <= i <= |audit|
        invariant forall j :: 0 <= j < i ==> !(audit[j].body.sequence == head.auditSequence && audit[j].mac == head.auditMac)
      {
        if audit[i].body.sequence == head.auditSequence && audit[i].mac == head.auditMac { return true; }
        i := i + 1;
      }
      ok := false;
    }
  }

  // ---------------------------------------------------------------- what the loops rely on

  lemma Keeps(db: Db, profile: Profile, op: Op)
    ensures Inv(db, profile) ==> Inv(Transact(db, profile, op).0, profile) && Transact(db, profile, op).1 != Err(Integrity)
  {
    hide Inv, Transact;
    if Inv(db, profile) { TransactStep(db, profile, op); }
  }

  /** The first pending delivery among those seen. */
  ghost predicate FirstAmong(db: Db, profile: Profile, plane: Plane, seen: set<DeliveryId>, first: Option<DeliveryId>)
  {
    match first
    case None => forall id :: id in seen ==> !IsPending(db, profile, plane, id)
    case Some(f) =>
      && f in seen && f in db.deliveries && IsPending(db, profile, plane, f)
      && forall id :: id in seen && id in db.deliveries && IsPending(db, profile, plane, id) && id != f ==>
           Before(db.deliveries[f].body.queuedAt, f, db.deliveries[id].body.queuedAt, id)
  }

  lemma BeforeOrder(at: Time, a: DeliveryId, at': Time, b: DeliveryId, at'': Time, c: DeliveryId)
    ensures Before(at, a, at', b) && Before(at', b, at'', c) ==> Before(at, a, at'', c)
    ensures a != b ==> Before(at, a, at', b) || Before(at', b, at, a)
    ensures !Before(at, a, at, a)
  {
    IdLessTotal(a, b);
    IdLessIrreflexive(a);
    if IdLess(a, b) && IdLess(b, c) { IdLessTransitive(a, b, c); }
  }

  lemma FirstAmongMore(db: Db, profile: Profile, plane: Plane, seen: set<DeliveryId>, first: Option<DeliveryId>, id: DeliveryId)
    requires FirstAmong(db, profile, plane, seen, first) && id in db.deliveries && id !in seen
    ensures var better := IsPending(db, profile, plane, id)
                          && (first.None? || Before(db.deliveries[id].body.queuedAt, id, db.deliveries[first.value].body.queuedAt, first.value));
            FirstAmong(db, profile, plane, seen + {id}, if better then Some(id) else first)
  {
    hide Before, IsPending;
    if first.Some? {
      var f := first.value;
      forall other | other in db.deliveries {
        BeforeOrder(db.deliveries[id].body.queuedAt, id, db.deliveries[f].body.queuedAt, f, db.deliveries[other].body.queuedAt, other);
      }
    }
  }

  lemma FirstAmongAll(db: Db, profile: Profile, plane: Plane, first: Option<DeliveryId>)
    requires FirstAmong(db, profile, plane, db.deliveries.Keys, first)
    ensures first == FirstPending(db, profile, plane)
  {
    FirstPendingExists(db, profile, plane);
    var found := FirstPending(db, profile, plane);
    if first.Some? && found.Some? && first != found {
      var f, g := first.value, found.value;
      BeforeOrder(db.deliveries[f].body.queuedAt, f, db.deliveries[g].body.queuedAt, g, db.deliveries[f].body.queuedAt, f);
    }
  }

  /** The sorted list of the in-flight deliveries is the recovery order. */
  lemma SortedOrder(db: Db, profile: Profile, ids: seq<DeliveryId>, times: map<DeliveryId, Time>)
    requires forall id :: id in ids <==> IsInFlight(db, profile, id)
    requires forall i, j :: 0 <= i < j < |ids| ==> ids[i] != ids[j]
    requires times == map id | id in db.deliveries :: db.deliveries[id].body.updatedAt
    ensures Sort(ids, ByTime(times)) == RecoveryOrder(db, profile)
  {
    hide RecoveryOrder, Before;
    var order := ByTime(times);
    forall i, j | 0 <= i < j < |ids| ensures order(ids[i], ids[j]) || order(ids[j], ids[i]) {
      assert ids[i] in ids && ids[j] in ids;
      BeforeOrder(times[ids[i]], ids[i], times[ids[j]], ids[j], times[ids[i]], ids[i]);
    }
    ByTimeTransitive(times);
    SortIncreasing(ids, order);
    SortMembers(ids, order);
    RecoveryOrderExists(db, profile);
    var found := RecoveryOrder(db, profile);
    OrderByTime(db, profile, found, times);
    forall a ensures !order(a, a) { if a in times { BeforeOrder(times[a], a, times[a], a, times[a], a); } }
    IncreasingUnique(Sort(ids, order), found, order);
  }

  lemma OrderByTime(db: Db, profile: Profile, ids: seq<DeliveryId>, times: map<DeliveryId, Time>)
    requires IsRecoveryOrder(db, profile, ids)
    requires times == map id | id in db.deliveries :: db.deliveries[id].body.updatedAt
    ensures Increasing(ids, ByTime(times))
    ensures forall id :: id in ids <==> IsInFlight(db, profile, id)
  {
    forall i, j | 0 <= i < j < |ids| ensures ByTime(times)(ids[i], ids[j]) {
      assert ids[i] in ids && ids[j] in ids;
    }
  }
}
