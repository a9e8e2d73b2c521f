/** What holds of every run of the outbox that starts from an empty database. */
module OutboxTheorems {
  import opened Wrappers
  import opened OutboxModel
  import opened OutboxChecker
  import opened OutboxHistory
  import opened OutboxInvariant
  import opened OutboxSoundness
  import opened OutboxRuns
  import opened OutboxRecovery

  // ---------------------------------------------------------------- sealing

  lemma SealedHolds(db: Db, profile: Profile, lives: Lives)
    requires Holds(db, profile, lives)
    ensures Holds(Seal(db), profile, lives) && MetadataOk(Seal(db), profile) && Seal(db).audit == db.audit
  {
    hide ChainOk, Legal, DeliveriesFit, AttemptsFit, TrailsFit;
  }

  lemma SealedInv(db: Db, profile: Profile)
    requires Consistent(db, profile)
    ensures Inv(Seal(db), profile) && Accepts(Seal(db), profile)
  {
    hide Holds, Rebuild, MetadataOk, Seal, Accepts;
    SealedHolds(db, profile, Rebuild(db.audit));
    InvAccepted(Seal(db), profile);
  }

  lemma SealAgain(db: Db, profile: Profile)
    requires MetadataOk(db, profile)
    ensures Seal(db) == db
  {}

  lemma SealGrows(db: Db, next: Db)
    requires Grows(db, next)
    ensures Grows(db, Seal(next))
  {
    hide DeliveriesGrow, AttemptsGrow;
  }

  lemma EmptyInv(profile: Profile)
    ensures Inv(EmptyDb(profile), profile)
  {
    var db := Db(Metadata(profile, 0, GenesisMac, KeyCheckMac(profile), GenesisMac, GenesisMac), map[], map[], []);
    assert Finished(db.attempts) == {};
    assert Holds(db, profile, map[]);
    SealedInv(db, profile);
  }

  // ---------------------------------------------------------------- one transaction

  lemma ClaimNextStep(db: Db, profile: Profile, plane: Plane, at: Time, r: Result<(Db, Option<Claim>)>)
    requires Consistent(db, profile) && r == ClaimNext(db, profile, plane, at)
    ensures r.Err? ==> r.error == Validation
    ensures r.Ok? ==> Advances(db, r.value.0, profile)
  {
    hide Consistent, ClaimAt, IsPending, FirstPending, Grows;
    FirstPendingExists(db, profile, plane);
    match FirstPending(db, profile, plane) {
      case None => GrowsSelf(db);
      case Some(id) =>
        FirstIsPending(db, profile, plane, id);
        ClaimStep(db, profile, plane, id, at, ClaimAt(db, profile, plane, id, at));
    }
  }

  lemma FirstIsPending(db: Db, profile: Profile, plane: Plane, id: DeliveryId)
    requires IsFirstPending(db, profile, plane, id)
    ensures IsPending(db, profile, plane, id) && id in db.deliveries
  {}

  lemma ApplyStep(db: Db, profile: Profile, op: Op, r: Result<(Db, Reply)>)
    requires Consistent(db, profile) && r == Apply(db, profile, op)
    ensures r.Err? ==> r.error != Integrity
    ensures r.Ok? ==> Advances(db, r.value.0, profile)
  {
    hide Consistent, Enqueue, ClaimNext, Complete, Fail, Recover, Advances;
    match op {
      case EnqueueOp(plane, alert, at) => EnqueueStep(db, profile, plane, alert, at, Enqueue(db, profile, plane, alert, at));
      case ClaimOp(plane, at) => ClaimNextStep(db, profile, plane, at, ClaimNext(db, profile, plane, at));
      case CompleteOp(key, at, message) => CompleteStep(db, profile, key, at, message, Complete(db, profile, key, at, message));
      case FailOp(key, at, retryable) => FailStep(db, profile, key, at, retryable, Fail(db, profile, key, at, retryable));
      case RecoverOp(at) => RecoverStep(db, profile, at, Recover(db, profile, at));
    }
  }

  lemma InvConsistent(db: Db, profile: Profile)
    requires Inv(db, profile)
    ensures Consistent(db, profile) && MetadataOk(db, profile) && Accepts(db, profile)
  {
    InvAccepted(db, profile);
  }

  lemma OutOfBoundsFails(db: Db, profile: Profile, op: Op)
    ensures OutOfBounds(profile, op) ==> Apply(db, profile, op) == Err(Validation)
  {}

  /** A transaction keeps the invariant, forgets nothing, and never fails an integrity check: whatever
      it answers is what the operation itself answered. */
  lemma TransactStep(db: Db, profile: Profile, op: Op)
    requires Inv(db, profile)
    ensures var (next, reply) := Transact(db, profile, op);
            && Inv(next, profile) && Grows(db, next)
            && reply != Err(Integrity)
            && match Apply(db, profile, op)
               case Err(e) => next == db && reply == Err(e)
               case Ok((applied, answer)) => next == Seal(applied) && reply == Ok(answer)
  {
    hide Inv, Consistent, Apply, Accepts, Grows, Seal, MetadataOk;
    InvConsistent(db, profile);
    var r := Apply(db, profile, op);
    ApplyStep(db, profile, op, r);
    OutOfBoundsFails(db, profile, op);
    GrowsSelf(db);
    if r.Ok? {
      SealedInv(r.value.0, profile);
      SealGrows(db, r.value.0);
    }
  }

  // ---------------------------------------------------------------- whole runs

  lemma {:induction false} RunStep(db: Db, profile: Profile, ops: seq<Op>)
    requires Inv(db, profile)
    ensures Inv(Run(db, profile, ops), profile) && Grows(db, Run(db, profile, ops))
    decreases |ops|
  {
    hide Inv, Transact, Grows;
    if ops == [] {
      GrowsSelf(db);
    } else {
      var next := Transact(db, profile, ops[0]).0;
      TransactStep(db, profile, ops[0]);
      RunStep(next, profile, ops[1..]);
      GrowsTransitive(db, next, Run(next, profile, ops[1..]));
    }
  }

  /** The integrity check accepts every state any run reaches, and no transaction on such a state ever
      reports an integrity failure, neither before nor after its operation. */
  lemma CheckerAcceptsEveryRun(profile: Profile, ops: seq<Op>, op: Op)
    ensures var db := Run(EmptyDb(profile), profile, ops);
            Accepts(db, profile) && Transact(db, profile, op).1 != Err(Integrity)
  {
    hide Inv, Transact, Grows, Run, EmptyDb, Accepts;
    EmptyInv(profile);
    RunStep(EmptyDb(profile), profile, ops);
    var db := Run(EmptyDb(profile), profile, ops);
    InvConsistent(db, profile);
    TransactStep(db, profile, op);
  }

  // ---------------------------------------------------------------- event sourcing

  /** Everything the rows say about times, states and attempts, read from the audit chain alone. */
  ghost predicate ToldBy(db: Db, lives: Lives)
  {
    && db.deliveries.Keys == lives.Keys
    && (forall id :: id in lives ==>
          var (row, life) := (db.deliveries[id].body, lives[id]);
          && row.state == StateOf(life) && row.attemptCount == |life.tries| && row.queuedAt == life.queuedAt
          && row.updatedAt == UpdatedAt(life)
          && row.active == if StateOf(life) == InFlight then Some(|life.tries|) else None)
    && (forall k :: k in db.attempts <==> k.id in lives && 1 <= k.attempt <= |lives[k.id].tries|)
    && (forall k :: k in db.attempts ==> Mirrors(db.attempts[k].body, lives[k.id].tries[k.attempt - 1]))
  }

  lemma DeliveryTold(profile: Profile, id: DeliveryId, row: DeliveryRow, life: Life)
    requires DeliveryFits(profile, id, row, life)
    ensures row.body.state == StateOf(life) && row.body.attemptCount == |life.tries| && row.body.queuedAt == life.queuedAt
    ensures row.body.updatedAt == UpdatedAt(life)
    ensures row.body.active == if StateOf(life) == InFlight then Some(|life.tries|) else None
  {}

  lemma HoldsTold(db: Db, profile: Profile, lives: Lives)
    requires Holds(db, profile, lives)
    ensures ToldBy(db, lives)
  {
    forall id | id in lives
      ensures db.deliveries[id].body.state == StateOf(lives[id]) && db.deliveries[id].body.attemptCount == |lives[id].tries|
      ensures db.deliveries[id].body.queuedAt == lives[id].queuedAt && db.deliveries[id].body.updatedAt == UpdatedAt(lives[id])
      ensures db.deliveries[id].body.active == if StateOf(lives[id]) == InFlight then Some(|lives[id].tries|) else None
    {
      DeliveryTold(profile, id, db.deliveries[id], lives[id]);
    }
    forall k | k in db.attempts ensures Mirrors(db.attempts[k].body, lives[k.id].tries[k.attempt - 1]) {
      AttemptMirrors(profile, k, db.attempts[k], lives[k.id].tries[k.attempt - 1]);
    }
  }

  lemma FewEvents(life: Life)
    requires LegalLife(life)
    ensures EventCount(life) <= 5
  {}

  lemma TrailsBounded(audit: seq<AuditRow>, lives: Lives)
    requires Legal(lives) && TrailsFit(audit, lives)
    ensures forall id :: |EventsOf(audit, id)| <= 5
  {
    forall id ensures |EventsOf(audit, id)| <= 5 {
      assert EventsOf(audit, id) == if id in lives then Trail(id.plane, lives[id]) else [];
      if id in lives { FewEvents(lives[id]); }
    }
  }

  lemma HoldsBounded(db: Db, profile: Profile, lives: Lives)
    requires Holds(db, profile, lives)
    ensures forall id :: |EventsOf(db.audit, id)| <= 5
    ensures forall k :: k in db.attempts ==> k.attempt == 1 || k.attempt == 2
    ensures |db.audit| == |db.deliveries| + |db.attempts| + |Finished(db.attempts)|
  {
    hide ChainOk, DeliveriesFit, TrailsFit, EventsOf;
    TrailsBounded(db.audit, lives);
  }

  /** In every reachable state the audit chain alone tells the rows; it has one event for each delivery,
      attempt and finished attempt; and no delivery has more than five events or two attempts. */
  lemma AuditTellsTheRows(profile: Profile, ops: seq<Op>)
    ensures var db := Run(EmptyDb(profile), profile, ops);
            && ToldBy(db, Rebuild(db.audit))
            && |db.audit| == |db.deliveries| + |db.attempts| + |Finished(db.attempts)|
            && (forall id :: |EventsOf(db.audit, id)| <= 5)
            && (forall k :: k in db.attempts ==> k.attempt == 1 || k.attempt == 2)
  {
    hide Run, EmptyDb, Holds, Rebuild, MetadataOk;
    EmptyInv(profile);
    RunStep(EmptyDb(profile), profile, ops);
    var db := Run(EmptyDb(profile), profile, ops);
    HoldsTold(db, profile, Rebuild(db.audit));
    HoldsBounded(db, profile, Rebuild(db.audit));
  }

  // ---------------------------------------------------------------- acknowledgements

  lemma ClosedStays(db: Db, later: Db, key: AttemptKey)
    requires Grows(db, later) && key in db.attempts && db.attempts[key].body.finishedAt.Some? && key.id in db.deliveries
    ensures key in later.attempts && later.attempts[key] == db.attempts[key]
    ensures key.id in later.deliveries && SameDelivery(db.deliveries[key.id], later.deliveries[key.id])
  {}

  lemma ReceiptStays(db: Db, later: Db, key: AttemptKey, receipt: Receipt)
    requires ReceiptIs(db, key, receipt) && key in later.attempts && later.attempts[key] == db.attempts[key]
    requires key.id in later.deliveries && SameDelivery(db.deliveries[key.id], later.deliveries[key.id])
    ensures ReceiptIs(later, key, receipt)
  {}

  lemma CompleteAgain(db: Db, profile: Profile, key: AttemptKey, at: Time, message: Option<string>, receipt: Receipt)
    requires Consistent(db, profile) && CompletedAs(db, profile, key, at, message) && ReceiptIs(db, key, receipt)
    ensures Complete(db, profile, key, at, message) == Ok((db, receipt))
  {
    hide Consistent, DeliveryRowOk, AttemptRowOk, Finish, DecryptProvider;
    ConsistentDelivery(db, profile, key.id);
    ConsistentAttempt(db, profile, key);
  }

  lemma FailAgain(db: Db, profile: Profile, key: AttemptKey, at: Time, retryable: bool, receipt: Receipt)
    requires Consistent(db, profile) && FailedAs(db, key, at, retryable) && ReceiptIs(db, key, receipt)
    ensures Fail(db, profile, key, at, retryable) == Ok((db, receipt))
  {
    hide Consistent, DeliveryRowOk, AttemptRowOk, Finish;
    ConsistentDelivery(db, profile, key.id);
    ConsistentAttempt(db, profile, key);
  }

  lemma SealKeepsRows(db: Db)
    ensures Seal(db).deliveries == db.deliveries && Seal(db).attempts == db.attempts && Seal(db).audit == db.audit
  {}

  /** Completing an attempt again, after anything at all has happened since, returns the first receipt
      and changes nothing. */
  lemma CompletionIsIdempotent(db: Db, profile: Profile, key: AttemptKey, at: Time, message: Option<string>, ops: seq<Op>)
    requires Inv(db, profile) && Transact(db, profile, CompleteOp(key, at, message)).1.Ok?
    ensures var (next, reply) := Transact(db, profile, CompleteOp(key, at, message));
            var later := Run(next, profile, ops);
            Transact(later, profile, CompleteOp(key, at, message)) == (later, reply)
  {
    hide Inv, Transact, Consistent, Complete, Grows, Run, Seal, MetadataOk, CompletedAs, ReceiptIs, Accepts;
    var op := CompleteOp(key, at, message);
    var (next, reply) := Transact(db, profile, op);
    InvConsistent(db, profile);
    TransactStep(db, profile, op);
    var r := Complete(db, profile, key, at, message);
    CompleteStep(db, profile, key, at, message, r);
    var (applied, receipt) := r.value;
    SealKeepsRows(applied);
    var later := Run(next, profile, ops);
    RunStep(next, profile, ops);
    CompletedStays(applied, next, later, profile, key, at, message, receipt);
    InvConsistent(later, profile);
    CompleteAgain(later, profile, key, at, message, receipt);
    TransactStep(later, profile, op);
    SealAgain(later, profile);
  }

  lemma CompletedStays(applied: Db, next: Db, later: Db, profile: Profile, key: AttemptKey, at: Time, message: Option<string>, receipt: Receipt)
    requires CompletedAs(applied, profile, key, at, message) && ReceiptIs(applied, key, receipt)
    requires next.deliveries == applied.deliveries && next.attempts == applied.attempts && Grows(next, later)
    ensures CompletedAs(later, profile, key, at, message) && ReceiptIs(later, key, receipt)
  {
    ClosedStays(next, later, key);
    ReceiptStays(next, later, key, receipt);
  }

  lemma FailedStays(applied: Db, next: Db, later: Db, key: AttemptKey, at: Time, retryable: bool, receipt: Receipt)
    requires FailedAs(applied, key, at, retryable) && ReceiptIs(applied, key, receipt)
    requires next.deliveries == applied.deliveries && next.attempts == applied.attempts && Grows(next, later)
    ensures FailedAs(later, key, at, retryable) && ReceiptIs(later, key, receipt)
  {
    ClosedStays(next, later, key);
    ReceiptStays(next, later, key, receipt);
  }

  /** Failing an attempt again returns the first receipt and changes nothing, even when the delivery has
      been claimed, delivered or exhausted since. */
  lemma FailureIsIdempotent(db: Db, profile: Profile, key: AttemptKey, at: Time, retryable: bool, ops: seq<Op>)
    requires Inv(db, profile) && Transact(db, profile, FailOp(key, at, retryable)).1.Ok?
    ensures var (next, reply) := Transact(db, profile, FailOp(key, at, retryable));
            var later := Run(next, profile, ops);
            Transact(later, profile, FailOp(key, at, retryable)) == (later, reply)
  {
    hide Inv, Transact, Consistent, Fail, Grows, Run, Seal, MetadataOk, FailedAs, ReceiptIs, Accepts;
    var op := FailOp(key, at, retryable);
    var (next, reply) := Transact(db, profile, op);
    InvConsistent(db, profile);
    TransactStep(db, profile, op);
    var r := Fail(db, profile, key, at, retryable);
    FailStep(db, profile, key, at, retryable, r);
    var (applied, receipt) := r.value;
    SealKeepsRows(applied);
    var later := Run(next, profile, ops);
    RunStep(next, profile, ops);
    FailedStays(applied, next, later, key, at, retryable, receipt);
    InvConsistent(later, profile);
    FailAgain(later, profile, key, at, retryable, receipt);
    TransactStep(later, profile, op);
    SealAgain(later, profile);
  }

  lemma CrashedRefuses(db: Db, profile: Profile, key: AttemptKey, crashedAt: Time, at: Time, message: Option<string>, retryable: bool)
    requires Consistent(db, profile) && CrashedAt(db, key, crashedAt)
    ensures Complete(db, profile, key, at, message) == Err(InvalidTransition)
    ensures Fail(db, profile, key, at, retryable) == Err(InvalidTransition)
  {
    hide Consistent, DeliveryRowOk, AttemptRowOk, Finish, DecryptProvider;
    ConsistentAttempt(db, profile, key);
    ConsistentDelivery(db, profile, key.id);
  }

  /** An attempt that recovery closed can never be completed or failed, whatever happens later. */
  lemma RecoveredStaysClosed(db: Db, profile: Profile, id: DeliveryId, recoveredAt: Time, ops: seq<Op>,
                             at: Time, message: Option<string>, retryable: bool)
    requires Inv(db, profile) && IsInFlight(db, profile, id) && Transact(db, profile, RecoverOp(recoveredAt)).1.Ok?
    ensures var key := AttemptKey(id, db.deliveries[id].body.attemptCount);
            var later := Run(Transact(db, profile, RecoverOp(recoveredAt)).0, profile, ops);
            && Transact(later, profile, CompleteOp(key, at, message)) == (later, Err(InvalidTransition))
            && Transact(later, profile, FailOp(key, at, retryable)) == (later, Err(InvalidTransition))
  {
    hide Inv, Transact, Consistent, Complete, Fail, Recover, Grows, Run, Seal, MetadataOk, Accepts, CrashedAt, InFlightIds;
    var key := AttemptKey(id, db.deliveries[id].body.attemptCount);
    InvConsistent(db, profile);
    TransactStep(db, profile, RecoverOp(recoveredAt));
    var next := Transact(db, profile, RecoverOp(recoveredAt)).0;
    var r := Recover(db, profile, recoveredAt);
    RecoverStep(db, profile, recoveredAt, r);
    SealKeepsRows(r.value.0);
    var later := Run(next, profile, ops);
    RunStep(next, profile, ops);
    InvConsistent(next, profile);
    CrashStays(r.value.0, next, later, profile, key, recoveredAt);
    InvConsistent(later, profile);
    CrashedRefuses(later, profile, key, recoveredAt, at, message, retryable);
    TransactStep(later, profile, CompleteOp(key, at, message));
    TransactStep(later, profile, FailOp(key, at, retryable));
  }

  lemma CrashStays(applied: Db, next: Db, later: Db, profile: Profile, key: AttemptKey, at: Time)
    requires CrashedAt(applied, key, at) && next.attempts == applied.attempts && Grows(next, later)
    requires Consistent(next, profile)
    ensures CrashedAt(later, key, at)
  {
    hide Consistent;
    ConsistentAttempt(next, profile, key);
    ClosedStays(next, later, key);
  }

  // ---------------------------------------------------------------- claims

  lemma ClaimTells(db: Db, profile: Profile, plane: Plane, at: Time, next: Db, claim: Claim)
    requires Consistent(db, profile) && ClaimNext(db, profile, plane, at) == Ok((next, Some(claim)))
    ensures IsFirstPending(db, profile, plane, claim.id) && claim.plane == plane && claim.claimedAt == at
    ensures claim.alert == db.deliveries[claim.id].body.payload.plaintext
    ensures claim.attempt == db.deliveries[claim.id].body.attemptCount + 1
    ensures AttemptKey(claim.id, claim.attempt) !in db.attempts && AttemptKey(claim.id, claim.attempt) in next.attempts
  {
    hide Consistent, DeliveryRowOk, FirstPending, IsFirstPending;
    FirstPendingExists(db, profile, plane);
    var id := FirstPending(db, profile, plane).value;
    FirstIsPending(db, profile, plane, id);
  }

  /** A claim hands out the alert that was queued, however much happened in between. */
  lemma ClaimHandsOutWhatWasQueued(db: Db, profile: Profile, plane: Plane, alert: Alert, queuedAt: Time, ops: seq<Op>, at: Time, claim: Claim)
    requires Inv(db, profile) && Transact(db, profile, EnqueueOp(plane, alert, queuedAt)).1.Ok?
    requires var later := Run(Transact(db, profile, EnqueueOp(plane, alert, queuedAt)).0, profile, ops);
             Transact(later, profile, ClaimOp(plane, at)).1 == Ok(Claimed(Some(claim)))
    requires claim.id == IdFor(plane, alert, profile)
    ensures claim.alert == alert
  {
    hide Inv, Transact, Consistent, Enqueue, ClaimNext, Grows, Run, Seal, MetadataOk, Accepts, IsFirstPending;
    var queue := EnqueueOp(plane, alert, queuedAt);
    InvConsistent(db, profile);
    TransactStep(db, profile, queue);
    var next := Transact(db, profile, queue).0;
    var applied := Enqueue(db, profile, plane, alert, queuedAt).value.0;
    SealKeepsRows(applied);
    QueuedPayload(db, profile, plane, alert, queuedAt, applied);
    var later := Run(next, profile, ops);
    RunStep(next, profile, ops);
    InvConsistent(later, profile);
    TransactStep(later, profile, ClaimOp(plane, at));
    ClaimTells(later, profile, plane, at, ClaimNext(later, profile, plane, at).value.0, claim);
    PayloadStays(next, later, claim.id);
  }

  lemma QueuedPayload(db: Db, profile: Profile, plane: Plane, alert: Alert, at: Time, next: Db)
    requires Enqueue(db, profile, plane, alert, at).Ok? && Enqueue(db, profile, plane, alert, at).value.0 == next
    ensures IdFor(plane, alert, profile) in next.deliveries
    ensures next.deliveries[IdFor(plane, alert, profile)].body.payload.plaintext == alert
  {
    hide DeliveryRowOk;
  }

  lemma PayloadStays(db: Db, later: Db, id: DeliveryId)
    requires Grows(db, later) && id in db.deliveries
    ensures id in later.deliveries && later.deliveries[id].body.payload == db.deliveries[id].body.payload
  {}

  lemma AttemptStays(db: Db, later: Db, key: AttemptKey)
    requires Grows(db, later) && key in db.attempts
    ensures key in later.attempts
  {}

  /** No attempt is handed out twice. */
  lemma AttemptsAreClaimedOnce(db: Db, profile: Profile, plane: Plane, at: Time, ops: seq<Op>, plane': Plane, at': Time, claim: Claim, claim': Claim)
    requires Inv(db, profile) && Transact(db, profile, ClaimOp(plane, at)).1 == Ok(Claimed(Some(claim)))
    requires var later := Run(Transact(db, profile, ClaimOp(plane, at)).0, profile, ops);
             Transact(later, profile, ClaimOp(plane', at')).1 == Ok(Claimed(Some(claim')))
    ensures claim.id != claim'.id || claim.attempt != claim'.attempt
  {
    hide Inv, Transact, Consistent, ClaimNext, Grows, Run, Seal, MetadataOk, Accepts, IsFirstPending;
    InvConsistent(db, profile);
    TransactStep(db, profile, ClaimOp(plane, at));
    var next := Transact(db, profile, ClaimOp(plane, at)).0;
    var applied := ClaimNext(db, profile, plane, at).value.0;
    ClaimTells(db, profile, plane, at, applied, claim);
    SealKeepsRows(applied);
    var later := Run(next, profile, ops);
    RunStep(next, profile, ops);
    AttemptStays(next, later, AttemptKey(claim.id, claim.attempt));
    InvConsistent(later, profile);
    TransactStep(later, profile, ClaimOp(plane', at'));
    ClaimTells(later, profile, plane', at', ClaimNext(later, profile, plane', at').value.0, claim');
  }

  // ---------------------------------------------------------------- trusted heads

  /** `currentTrustedHead`. */
  function HeadOf(db: Db): TrustedHead
  {
    TrustedHead(db.meta.profile, db.meta.headSequence, db.meta.headMac,
                HeadMac(db.meta.profile, db.meta.headSequence, db.meta.headMac))
  }

  /** `assertTrustedHeadPrefix`. */
  predicate AcceptHead(db: Db, profile: Profile, head: TrustedHead)
  {
    && head.profile == profile
    && head.headMac == HeadMac(head.profile, head.auditSequence, head.auditMac)
    && head.auditSequence <= db.meta.headSequence
    && if head.auditSequence == 0 then head.auditMac == GenesisMac
       else exists i :: 0 <= i < |db.audit| && db.audit[i].body.sequence == head.auditSequence && db.audit[i].mac == head.auditMac
  }

  lemma {:induction false} SameMacSamePrefix(a: seq<AuditRow>, b: seq<AuditRow>, n: nat)
    requires ChainOk(a) && ChainOk(b) && n <= |a| && n <= |b|
    requires n == 0 || a[n - 1].mac == b[n - 1].mac
    ensures a[..n] == b[..n]
  {
    if n == 0 {
    } else {
      SameMacSamePrefix(a, b, n - 1);
      assert a[..n] == a[..n - 1] + [a[n - 1]] && b[..n] == b[..n - 1] + [b[n - 1]];
    }
  }

  lemma SequenceAt(audit: seq<AuditRow>, i: nat)
    requires ChainOk(audit) && i < |audit|
    ensures audit[i].body.sequence == i + 1
  {}

  /** A head taken at one state is accepted at another exactly when the audit chain it pins is a prefix. */
  lemma HeadsPinPrefixes(earlier: Db, db: Db, profile: Profile)
    requires Inv(earlier, profile) && Inv(db, profile)
    ensures AcceptHead(db, profile, HeadOf(earlier)) <==> earlier.audit <= db.audit
  {
    hide Rebuild, ChainOk, Legal, DeliveriesFit, AttemptsFit, TrailsFit, Counted, MetadataOk, AcceptHead, HeadOf;
    HeadsPin(earlier, db, profile, |earlier.audit|);
  }

  lemma HeadsPin(earlier: Db, db: Db, profile: Profile, n: nat)
    requires ChainOk(earlier.audit) && ChainOk(db.audit) && HeadOk(earlier) && HeadOk(db) && n == |earlier.audit|
    requires earlier.meta.profile == profile
    ensures AcceptHead(db, profile, HeadOf(earlier)) <==> earlier.audit <= db.audit
  {
    hide ChainOk;
    if AcceptHead(db, profile, HeadOf(earlier)) {
      if n > 0 {
        var i :| 0 <= i < |db.audit| && db.audit[i].body.sequence == n && db.audit[i].mac == earlier.audit[n - 1].mac;
        SequenceAt(db.audit, i);
      }
      SameMacSamePrefix(earlier.audit, db.audit, n);
      assert earlier.audit == earlier.audit[..n];
    }
    if earlier.audit <= db.audit && n > 0 {
      assert db.audit[n - 1] == earlier.audit[n - 1];
      SequenceAt(db.audit, n - 1);
    }
  }

  /** A head taken in any run is accepted ever after. */
  lemma RunsKeepTheirHeads(profile: Profile, ops: seq<Op>, more: seq<Op>)
    ensures var db := Run(EmptyDb(profile), profile, ops);
            AcceptHead(Run(db, profile, more), profile, HeadOf(db))
  {
    hide Inv, Run, EmptyDb, AcceptHead, HeadOf;
    EmptyInv(profile);
    RunStep(EmptyDb(profile), profile, ops);
    var db := Run(EmptyDb(profile), profile, ops);
    RunStep(db, profile, more);
    HeadsPinPrefixes(db, Run(db, profile, more), profile);
  }
}
