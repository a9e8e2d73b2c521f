/** The invariant of the outbox: the tables are exactly what the audit chain tells. */
module OutboxInvariant {
  import opened Wrappers
  import opened OutboxModel
  import opened OutboxChecker
  import opened OutboxHistory

  ghost predicate ChainOk(audit: seq<AuditRow>)
  {
    forall i :: 0 <= i < |audit| ==>
      && audit[i].body.sequence == i + 1
      && audit[i].body.previous == (if i == 0 then GenesisMac else audit[i - 1].mac)
      && AuditShapeOk(audit[i].body)
      && (i > 0 ==> audit[i].body.occurredAt >= audit[i - 1].body.occurredAt)
      && audit[i].mac == AuditMac(audit[i].body)
  }

  ghost predicate Legal(lives: Lives) { forall id :: id in lives ==> LegalLife(lives[id]) }

  ghost predicate DeliveriesFit(deliveries: map<DeliveryId, DeliveryRow>, profile: Profile, lives: Lives)
  {
    && deliveries.Keys == lives.Keys
    && forall id :: id in lives ==> DeliveryFits(profile, id, deliveries[id], lives[id])
  }

  ghost predicate AttemptsFit(attempts: map<AttemptKey, AttemptRow>, profile: Profile, lives: Lives)
  {
    && (forall k :: k in attempts <==> k.id in lives && 1 <= k.attempt <= |lives[k.id].tries|)
    && forall k :: k in attempts ==> AttemptFits(profile, k, attempts[k], lives[k.id].tries[k.attempt - 1])
  }

  ghost predicate TrailsFit(audit: seq<AuditRow>, lives: Lives)
    requires Legal(lives)
  {
    forall id :: EventsOf(audit, id) == if id in lives then Trail(id.plane, lives[id]) else []
  }

  ghost function Finished(attempts: map<AttemptKey, AttemptRow>): set<AttemptKey>
  {
    set k | k in attempts && attempts[k].body.finishedAt.Some?
  }

  ghost predicate Counted(db: Db)
  {
    |db.audit| == |db.deliveries| + |db.attempts| + |Finished(db.attempts)|
  }

  /** The tables hold exactly what these lives say; everything but the seals over the metadata row. */
  ghost predicate Holds(db: Db, profile: Profile, lives: Lives)
  {
    && db.meta.profile == profile
    && db.meta.keyCheck == KeyCheckMac(profile)
    && HeadOk(db)
    && ChainOk(db.audit)
    && Legal(lives)
    && DeliveriesFit(db.deliveries, profile, lives)
    && AttemptsFit(db.attempts, profile, lives)
    && TrailsFit(db.audit, lives)
    && Counted(db)
  }

  /** The tables hold exactly what the audit chain tells. */
  ghost predicate Consistent(db: Db, profile: Profile)
  {
    Holds(db, profile, Rebuild(db.audit))
  }

  ghost predicate Inv(db: Db, profile: Profile)
  {
    Consistent(db, profile) && MetadataOk(db, profile)
  }

  // ---------------------------------------------------------------- one audit event

  lemma RebuildAppend(audit: seq<AuditRow>, row: AuditRow)
    ensures Rebuild(audit + [row]) == Tell(Rebuild(audit), row.body)
  {
    assert (audit + [row])[..|audit|] == audit;
  }

  lemma EventsAppend(audit: seq<AuditRow>, row: AuditRow, id: DeliveryId)
    ensures EventsOf(audit + [row], id) == EventsOf(audit, id) + (if row.body.id == id then [CoreOf(row.body)] else [])
  {
    assert (audit + [row])[..|audit|] == audit;
  }

  lemma ChainAppend(db: Db, next: Db, eventType: EventType, id: DeliveryId, plane: Plane, attempt: Option<int>,
                    state: DeliveryState, retryable: Option<bool>, at: Time)
    requires HeadOk(db) && ChainOk(db.audit)
    requires AppendAudit(db, eventType, id, plane, attempt, state, retryable, at) == Ok(next)
    requires AuditShapeOk(AuditBody(0, eventType, id, plane, attempt, state, retryable, at, GenesisMac))
    ensures HeadOk(next) && ChainOk(next.audit)
    ensures next.deliveries == db.deliveries && next.attempts == db.attempts
    ensures next.meta.profile == db.meta.profile && next.meta.keyCheck == db.meta.keyCheck
    ensures |next.audit| == |db.audit| + 1
    ensures var row := next.audit[|db.audit|];
            && next.audit == db.audit + [row] && row.body.id == id
            && CoreOf(row.body) == Core(eventType, plane, attempt, state, retryable, at)
  {}

  /** A trail grows by the event that is told. */
  lemma TrailExtends(plane: Plane, life: Life, life': Life, core: Core)
    requires LegalLife(life) && LegalLife(life')
    requires EventCount(life') == EventCount(life) + 1
    requires EventAt(plane, life', EventCount(life)) == core
    requires forall j :: 0 <= j < EventCount(life) ==> EventAt(plane, life', j) == EventAt(plane, life, j)
    ensures Trail(plane, life') == Trail(plane, life) + [core]
  {}

  lemma TrailsExtend(audit: seq<AuditRow>, row: AuditRow, lives: Lives, life': Life)
    requires Legal(lives) && LegalLife(life') && TrailsFit(audit, lives)
    requires row.body.id in lives
    requires Trail(row.body.id.plane, life') == Trail(row.body.id.plane, lives[row.body.id]) + [CoreOf(row.body)]
    ensures Legal(lives[row.body.id := life']) && TrailsFit(audit + [row], lives[row.body.id := life'])
  {
    var lives' := lives[row.body.id := life'];
    assert Legal(lives');
    hide EventsOf, LegalLife;
    forall id ensures EventsOf(audit + [row], id) == if id in lives' then Trail(id.plane, lives'[id]) else [] {
      EventsAppend(audit, row, id);
    }
  }

  lemma TrailsStart(audit: seq<AuditRow>, row: AuditRow, lives: Lives, at: Time)
    requires Legal(lives) && TrailsFit(audit, lives)
    requires row.body.id !in lives
    requires CoreOf(row.body) == Core(QueuedEvent, row.body.id.plane, None, Pending, None, at)
    ensures Legal(lives[row.body.id := Life(at, [])])
    ensures TrailsFit(audit + [row], lives[row.body.id := Life(at, [])])
  {
    var lives' := lives[row.body.id := Life(at, [])];
    assert LegalLife(Life(at, []));
    assert Legal(lives');
    assert forall plane :: Trail(plane, Life(at, [])) == [Core(QueuedEvent, plane, None, Pending, None, at)];
    hide EventsOf, LegalLife, Trail, Legal;
    forall id ensures EventsOf(audit + [row], id) == if id in lives' then Trail(id.plane, lives'[id]) else [] {
      EventsAppend(audit, row, id);
      if id == row.body.id {
        assert EventsOf(audit, id) == [];
        assert Trail(id.plane, Life(at, [])) == [CoreOf(row.body)];
      }
    }
  }

  lemma Assemble(db: Db, next: Db, profile: Profile, lives: Lives, lives': Lives)
    requires Holds(db, profile, lives)
    requires next.meta.profile == db.meta.profile && next.meta.keyCheck == db.meta.keyCheck
    requires HeadOk(next) && ChainOk(next.audit) && Counted(next)
    requires Legal(lives') && TrailsFit(next.audit, lives')
    requires DeliveriesFit(next.deliveries, profile, lives') && AttemptsFit(next.attempts, profile, lives')
    ensures Holds(next, profile, lives')
  {}

  /** One more event told keeps the tables in step with the whole chain. */
  lemma Retell(db: Db, next: Db, profile: Profile, lives': Lives)
    requires Holds(next, profile, lives') && |next.audit| == |db.audit| + 1
    requires next.audit == db.audit + [next.audit[|db.audit|]]
    requires Tell(Rebuild(db.audit), next.audit[|db.audit|].body) == lives'
    ensures Consistent(next, profile)
  {
    RebuildAppend(db.audit, next.audit[|db.audit|]);
  }

  // ---------------------------------------------------------------- the three row changes

  lemma QueueKeeps(db: Db, profile: Profile, plane: Plane, alert: Alert, at: Time, next: Db)
    requires Consistent(db, profile)
    requires alert.profile == profile && alert.occurredAt <= at
    requires IdFor(plane, alert, profile) !in db.deliveries
    requires AppendAudit(QueueRows(db, profile, IdFor(plane, alert, profile), plane, alert, at), QueuedEvent,
                         IdFor(plane, alert, profile), plane, None, Pending, None, at) == Ok(next)
    ensures Consistent(next, profile)
  {
    hide Rebuild, Tell, Holds;
    assert Holds(db, profile, Rebuild(db.audit));
    QueueHolds(db, profile, plane, alert, at, next, Rebuild(db.audit));
    Retell(db, next, profile, Rebuild(db.audit)[IdFor(plane, alert, profile) := Life(at, [])]);
  }

  lemma QueueHolds(db: Db, profile: Profile, plane: Plane, alert: Alert, at: Time, next: Db, lives: Lives)
    requires Holds(db, profile, lives)
    requires alert.profile == profile && alert.occurredAt <= at
    requires IdFor(plane, alert, profile) !in db.deliveries
    requires AppendAudit(QueueRows(db, profile, IdFor(plane, alert, profile), plane, alert, at), QueuedEvent,
                         IdFor(plane, alert, profile), plane, None, Pending, None, at) == Ok(next)
    ensures |next.audit| == |db.audit| + 1 && next.audit == db.audit + [next.audit[|db.audit|]]
    ensures var lives' := lives[IdFor(plane, alert, profile) := Life(at, [])];
            Holds(next, profile, lives') && Tell(lives, next.audit[|db.audit|].body) == lives'
  {
    var id := IdFor(plane, alert, profile);
    assert id !in lives;
    QueueTold(lives, id, at);
    hide Legal, DeliveriesFit, AttemptsFit, TrailsFit, Counted, ChainOk, HeadOk, EventsOf, LegalLife, Trail, Tell;
    ChainAppend(QueueRows(db, profile, id, plane, alert, at), next, QueuedEvent, id, plane, None, Pending, None, at);
    TrailsStart(db.audit, next.audit[|db.audit|], lives, at);
    QueueDeliveriesFit(db, profile, plane, alert, at, lives);
    QueueAttemptsFit(db, profile, id, at, lives);
    QueueCounted(db, profile, plane, alert, at, next);
    Assemble(db, next, profile, lives, lives[id := Life(at, [])]);
  }

  lemma QueueTold(lives: Lives, id: DeliveryId, at: Time)
    ensures forall e: AuditBody :: e.eventType == QueuedEvent && e.id == id && e.occurredAt == at ==> Tell(lives, e) == lives[id := Life(at, [])]
  {}

  lemma QueueCounted(db: Db, profile: Profile, plane: Plane, alert: Alert, at: Time, next: Db)
    requires Counted(db) && IdFor(plane, alert, profile) !in db.deliveries
    requires next.deliveries == QueueRows(db, profile, IdFor(plane, alert, profile), plane, alert, at).deliveries
    requires next.attempts == db.attempts && |next.audit| == |db.audit| + 1
    ensures Counted(next)
  {}

  lemma QueueDeliveriesFit(db: Db, profile: Profile, plane: Plane, alert: Alert, at: Time, lives: Lives)
    requires DeliveriesFit(db.deliveries, profile, lives)
    requires alert.profile == profile && alert.occurredAt <= at
    ensures var id := IdFor(plane, alert, profile);
            DeliveriesFit(QueueRows(db, profile, id, plane, alert, at).deliveries, profile, lives[id := Life(at, [])])
  {}

  lemma QueueAttemptsFit(db: Db, profile: Profile, id: DeliveryId, at: Time, lives: Lives)
    requires AttemptsFit(db.attempts, profile, lives) && id !in lives
    ensures AttemptsFit(db.attempts, profile, lives[id := Life(at, [])])
  {}

  function Started(life: Life, at: Time): Life { life.(tries := life.tries + [Try(at, None)]) }

  lemma PendingHasRoom(life: Life)
    requires LegalLife(life) && StateOf(life) == Pending
    ensures |life.tries| < MAX_ATTEMPTS
  {}

  lemma StartedLegal(plane: Plane, life: Life, attempt: int, at: Time)
    requires LegalLife(life) && StateOf(life) == Pending && at >= UpdatedAt(life) && attempt == |life.tries| + 1
    ensures attempt <= MAX_ATTEMPTS
    ensures LegalLife(Started(life, at))
    ensures Trail(plane, Started(life, at)) == Trail(plane, life) + [Core(ClaimedEvent, plane, Some(attempt), InFlight, None, at)]
  {
    var life' := Started(life, at);
    forall i | 0 <= i < |life'.tries| ensures life'.tries[i].startedAt >= Floor(life', i) {
      if i < |life.tries| { assert life.tries[i].startedAt >= Floor(life, i) == Floor(life', i); }
    }
    PendingHasRoom(life);
    assert EventCount(life') == EventCount(life) + 1;
    TrailExtends(plane, life, life', Core(ClaimedEvent, plane, Some(attempt), InFlight, None, at));
  }

  /** A pending delivery's life has room for another attempt. */
  lemma PendingLife(db: Db, profile: Profile, id: DeliveryId, lives: Lives)
    requires Legal(lives) && DeliveriesFit(db.deliveries, profile, lives)
    requires id in db.deliveries && db.deliveries[id].body.state == Pending
    ensures id in lives && StateOf(lives[id]) == Pending && |lives[id].tries| < MAX_ATTEMPTS
    ensures db.deliveries[id].body.attemptCount == |lives[id].tries|
    ensures db.deliveries[id].body.updatedAt == UpdatedAt(lives[id])
  {
    DeliverySays(profile, id, db.deliveries[id], lives[id]);
    PendingHasRoom(lives[id]);
  }

  lemma StartKeeps(db: Db, profile: Profile, id: DeliveryId, attempt: int, at: Time, next: Db)
    requires Consistent(db, profile) && id in db.deliveries
    requires db.deliveries[id].body.state == Pending && attempt == db.deliveries[id].body.attemptCount + 1
    requires at >= db.deliveries[id].body.updatedAt
    requires AppendAudit(StartRows(db, id, attempt, at), ClaimedEvent, id, id.plane, Some(attempt), InFlight, None, at) == Ok(next)
    ensures Consistent(next, profile)
  {
    hide Rebuild, Tell, Holds;
    StartHolds(db, profile, id, attempt, at, next, Rebuild(db.audit));
    Retell(db, next, profile, Rebuild(db.audit)[id := Started(Rebuild(db.audit)[id], at)]);
  }

  lemma StartHolds(db: Db, profile: Profile, id: DeliveryId, attempt: int, at: Time, next: Db, lives: Lives)
    requires Holds(db, profile, lives) && id in db.deliveries
    requires db.deliveries[id].body.state == Pending && attempt == db.deliveries[id].body.attemptCount + 1
    requires at >= db.deliveries[id].body.updatedAt
    requires AppendAudit(StartRows(db, id, attempt, at), ClaimedEvent, id, id.plane, Some(attempt), InFlight, None, at) == Ok(next)
    ensures |next.audit| == |db.audit| + 1 && next.audit == db.audit + [next.audit[|db.audit|]]
    ensures id in lives
    ensures var lives' := lives[id := Started(lives[id], at)];
            Holds(next, profile, lives') && Tell(lives, next.audit[|db.audit|].body) == lives'
  {
    PendingLife(db, profile, id, lives);
    var lives' := lives[id := Started(lives[id], at)];
    ChainAppend(StartRows(db, id, attempt, at), next, ClaimedEvent, id, id.plane, Some(attempt), InFlight, None, at);
    StartTold(db.audit, next.audit[|db.audit|], lives, id, attempt, at);
    assert DeliveriesFit(next.deliveries, profile, lives') by { StartDeliveriesFit(db, profile, id, attempt, at, lives); }
    assert AttemptsFit(next.attempts, profile, lives') && Counted(next) by {
      StartAttemptsFit(db, profile, id, attempt, at, lives);
      StartCounted(db, id, attempt, at, next);
    }
    Assemble(db, next, profile, lives, lives');
  }

  lemma TellStart(lives: Lives, e: AuditBody, id: DeliveryId, at: Time)
    requires id in lives && e.id == id && e.eventType == ClaimedEvent && e.occurredAt == at
    ensures Tell(lives, e) == lives[id := Started(lives[id], at)]
  {}

  lemma StartTold(audit: seq<AuditRow>, row: AuditRow, lives: Lives, id: DeliveryId, attempt: int, at: Time)
    requires Legal(lives) && TrailsFit(audit, lives)
    requires id in lives && StateOf(lives[id]) == Pending && at >= UpdatedAt(lives[id])
    requires row.body.id == id && attempt == |lives[id].tries| + 1
    requires CoreOf(row.body) == Core(ClaimedEvent, id.plane, Some(attempt), InFlight, None, at)
    ensures |lives[id].tries| < MAX_ATTEMPTS
    ensures var lives' := lives[id := Started(lives[id], at)];
            Legal(lives') && Tell(lives, row.body) == lives' && TrailsFit(audit + [row], lives')
  {
    TellStart(lives, row.body, id, at);
    assert LegalLife(lives[id]);
    hide Tell, Started, Legal, LegalLife, TrailsFit, Trail, EventsOf;
    StartedLegal(id.plane, lives[id], attempt, at);
    TrailsExtend(audit, row, lives, Started(lives[id], at));
  }

  lemma StartDeliveriesFit(db: Db, profile: Profile, id: DeliveryId, attempt: int, at: Time, lives: Lives)
    requires DeliveriesFit(db.deliveries, profile, lives) && id in lives && attempt == |lives[id].tries| + 1
    ensures DeliveriesFit(StartRows(db, id, attempt, at).deliveries, profile, lives[id := Started(lives[id], at)])
  {}

  lemma StartAttemptsFit(db: Db, profile: Profile, id: DeliveryId, attempt: int, at: Time, lives: Lives)
    requires id in db.deliveries && id in lives && attempt == |lives[id].tries| + 1
    requires AttemptsFit(db.attempts, profile, lives)
    ensures AttemptsFit(StartRows(db, id, attempt, at).attempts, profile, lives[id := Started(lives[id], at)])
    ensures AttemptKey(id, attempt) !in db.attempts
  {}

  lemma StartCounted(db: Db, id: DeliveryId, attempt: int, at: Time, next: Db)
    requires Counted(db) && id in db.deliveries && AttemptKey(id, attempt) !in db.attempts
    requires next.deliveries == StartRows(db, id, attempt, at).deliveries
    requires next.attempts == StartRows(db, id, attempt, at).attempts && |next.audit| == |db.audit| + 1
    ensures Counted(next)
  {
    assert next.deliveries.Keys == db.deliveries.Keys;
    assert Finished(next.attempts) == Finished(db.attempts);
  }

  /** How `Finish` is called: an active attempt, ended in one of the legal ways. */
  ghost predicate Finishable(db: Db, profile: Profile, key: AttemptKey, end: End, binding: Option<Mac>, provider: Option<Sealed<string>>)
  {
    && key.id in db.deliveries && key in db.attempts
    && db.deliveries[key.id].body.state == InFlight
    && db.deliveries[key.id].body.attemptCount == key.attempt
    && LegalEnd(key.attempt, end)
    && db.attempts[key].body.startedAt <= end.at
    && (end.state != Succeeded ==> binding.None? && provider.None?)
    && DecryptProvider(profile, key, db.attempts[key].body.(providerBinding := binding, provider := provider)).Ok?
  }

  /** An in-flight delivery's life ends with the attempt that is running. */
  lemma InFlightLife(db: Db, profile: Profile, key: AttemptKey, lives: Lives)
    requires Legal(lives) && DeliveriesFit(db.deliveries, profile, lives) && AttemptsFit(db.attempts, profile, lives)
    requires key.id in db.deliveries && key in db.attempts
    requires db.deliveries[key.id].body.state == InFlight && db.deliveries[key.id].body.attemptCount == key.attempt
    ensures key.id in lives && 1 <= key.attempt == |lives[key.id].tries| && StateOf(lives[key.id]) == InFlight
    ensures db.attempts[key].body.startedAt == LastStart(lives[key.id])
    ensures db.attempts[key].body.finishedAt.None?
  {
    assert LegalLife(lives[key.id]);
    assert DeliveryFits(profile, key.id, db.deliveries[key.id], lives[key.id]);
    assert AttemptFits(profile, key, db.attempts[key], lives[key.id].tries[key.attempt - 1]);
    hide LegalLife, DeliveryFits, AttemptFits, DeliveriesFit, AttemptsFit, Legal;
    RunningAttempt(profile, key, db.deliveries[key.id], db.attempts[key], lives[key.id]);
  }

  lemma RunningAttempt(profile: Profile, key: AttemptKey, delivery: DeliveryRow, attempt: AttemptRow, life: Life)
    requires DeliveryFits(profile, key.id, delivery, life) && LegalLife(life)
    requires delivery.body.state == InFlight && delivery.body.attemptCount == key.attempt
    requires 1 <= key.attempt <= |life.tries| && AttemptFits(profile, key, attempt, life.tries[key.attempt - 1])
    ensures life.tries != [] && StateOf(life) == InFlight && key.attempt == |life.tries|
    ensures attempt.body.startedAt == LastStart(life)
    ensures attempt.body.finishedAt.None?
  {
    DeliverySays(profile, key.id, delivery, life);
    AttemptSays(profile, key, attempt, life.tries[key.attempt - 1]);
    InFlightEnds(life);
  }

  lemma InFlightEnds(life: Life)
    requires LegalLife(life) && StateOf(life) == InFlight
    ensures life.tries != [] && life.tries[|life.tries| - 1].end.None?
  {
  }

  lemma DeliverySays(profile: Profile, id: DeliveryId, row: DeliveryRow, life: Life)
    requires DeliveryFits(profile, id, row, life)
    ensures row.body.state == StateOf(life) && row.body.attemptCount == |life.tries|
    ensures row.body.queuedAt == life.queuedAt && row.body.updatedAt == UpdatedAt(life)
    ensures row.body.plane == id.plane && row.body.profile == profile
  {}

  lemma AttemptSays(profile: Profile, key: AttemptKey, row: AttemptRow, t: Try)
    requires AttemptFits(profile, key, row, t)
    ensures row.body.startedAt == t.startedAt
    ensures row.body.finishedAt == (if t.end.Some? then Some(t.end.value.at) else None)
  {}

  lemma LegalEndResult(id: DeliveryId, n: int, end: End)
    requires LegalEnd(n, end) && 1 <= n <= MAX_ATTEMPTS
    ensures end.state != Running && end.result != InFlight
    ensures AuditShapeOk(AuditBody(0, TerminalType(end.state), id, id.plane, Some(n), end.result, end.retryable, end.at, GenesisMac))
  {}

  lemma FinishKeeps(db: Db, profile: Profile, key: AttemptKey, end: End, binding: Option<Mac>, provider: Option<Sealed<string>>, next: Db)
    requires Consistent(db, profile) && Finishable(db, profile, key, end, binding, provider)
    requires AppendAudit(FinishRows(db, key, end.state, end.at, end.retryable, end.result, binding, provider),
                         TerminalType(end.state), key.id, key.id.plane, Some(key.attempt), end.result, end.retryable, end.at) == Ok(next)
    ensures Consistent(next, profile)
  {
    hide Rebuild, Tell, Holds;
    FinishHolds(db, profile, key, end, binding, provider, next, Rebuild(db.audit));
    Retell(db, next, profile, Rebuild(db.audit)[key.id := Ended(Rebuild(db.audit)[key.id], end)]);
  }

  lemma FinishHolds(db: Db, profile: Profile, key: AttemptKey, end: End, binding: Option<Mac>,
                    provider: Option<Sealed<string>>, next: Db, lives: Lives)
    requires Holds(db, profile, lives) && Finishable(db, profile, key, end, binding, provider)
    requires AppendAudit(FinishRows(db, key, end.state, end.at, end.retryable, end.result, binding, provider),
                         TerminalType(end.state), key.id, key.id.plane, Some(key.attempt), end.result, end.retryable, end.at) == Ok(next)
    ensures |next.audit| == |db.audit| + 1 && next.audit == db.audit + [next.audit[|db.audit|]]
    ensures key.id in lives && lives[key.id].tries != []
    ensures var lives' := lives[key.id := Ended(lives[key.id], end)];
            Holds(next, profile, lives') && Tell(lives, next.audit[|db.audit|].body) == lives'
  {
    InFlightLife(db, profile, key, lives);
    LegalEndResult(key.id, key.attempt, end);
    ChainAppend(FinishRows(db, key, end.state, end.at, end.retryable, end.result, binding, provider), next,
                TerminalType(end.state), key.id, key.id.plane, Some(key.attempt), end.result, end.retryable, end.at);
    FinishFits(db, profile, key, end, binding, provider, next.audit[|db.audit|], lives, lives[key.id]);
    FinishCounted(db, key, end, binding, provider, next);
    Assemble(db, next, profile, lives, lives[key.id := Ended(lives[key.id], end)]);
  }

  lemma FinishFits(db: Db, profile: Profile, key: AttemptKey, end: End, binding: Option<Mac>,
                   provider: Option<Sealed<string>>, row: AuditRow, lives: Lives, life: Life)
    requires Legal(lives) && TrailsFit(db.audit, lives)
    requires DeliveriesFit(db.deliveries, profile, lives) && AttemptsFit(db.attempts, profile, lives)
    requires Finishable(db, profile, key, end, binding, provider)
    requires key.id in lives && life == lives[key.id] && row.body.id == key.id
    requires CoreOf(row.body) == Core(TerminalType(end.state), key.id.plane, Some(key.attempt), end.result, end.retryable, end.at)
    ensures life.tries != []
    ensures var lives' := lives[key.id := Ended(life, end)];
            var next := FinishRows(db, key, end.state, end.at, end.retryable, end.result, binding, provider);
            && Legal(lives') && TrailsFit(db.audit + [row], lives') && Tell(lives, row.body) == lives'
            && DeliveriesFit(next.deliveries, profile, lives') && AttemptsFit(next.attempts, profile, lives')
  {
    InFlightLife(db, profile, key, lives);
    LegalEndResult(key.id, key.attempt, end);
    FinishTold(db.audit, row, lives, key.id, life, key.attempt, end);
    FinishDeliveriesFit(db, profile, key, end, binding, provider, lives);
    FinishAttemptsFit(db, profile, key, end, binding, provider, lives);
  }

  lemma EndStateOf(state: AttemptState)
    requires state != Running
    ensures EndState(TerminalType(state)) == state
  {}

  lemma TellFinish(lives: Lives, e: AuditBody, id: DeliveryId, end: End)
    requires id in lives && lives[id].tries != [] && e.id == id
    requires end.state != Running && e.eventType == TerminalType(end.state)
    requires e.occurredAt == end.at && e.retryable == end.retryable && e.state == end.result
    ensures Tell(lives, e) == lives[id := Ended(lives[id], end)]
  {
    EndStateOf(end.state);
  }

  lemma FinishTold(audit: seq<AuditRow>, row: AuditRow, lives: Lives, id: DeliveryId, life: Life, attempt: int, end: End)
    requires Legal(lives) && TrailsFit(audit, lives) && id in lives && lives[id] == life
    requires StateOf(life) == InFlight && LegalEnd(attempt, end)
    requires row.body.id == id && attempt == |life.tries|
    requires life.tries != [] && end.at >= LastStart(life)
    requires CoreOf(row.body) == Core(TerminalType(end.state), id.plane, Some(attempt), end.result, end.retryable, end.at)
    ensures Legal(lives[id := Ended(life, end)])
    ensures TrailsFit(audit + [row], lives[id := Ended(life, end)])
    ensures Tell(lives, row.body) == lives[id := Ended(life, end)]
  {
    assert LegalLife(life);
    assert end.state != Running;
    hide TrailsFit, LegalLife, LegalEnd, Legal, Trail, EventsOf;
    InFlightEnds(life);
    TellFinish(lives, row.body, id, end);
    hide Tell, Ended;
    EndedLegal(id.plane, life, attempt, end);
    TrailsExtend(audit, row, lives, Ended(life, end));
  }

  lemma FinishDeliveriesFit(db: Db, profile: Profile, key: AttemptKey, end: End, binding: Option<Mac>,
                            provider: Option<Sealed<string>>, lives: Lives)
    requires DeliveriesFit(db.deliveries, profile, lives) && key.id in lives && key in db.attempts
    requires lives[key.id].tries != [] && end.result != InFlight
    ensures DeliveriesFit(FinishRows(db, key, end.state, end.at, end.retryable, end.result, binding, provider).deliveries, profile,
                          lives[key.id := Ended(lives[key.id], end)])
  {}

  lemma FinishAttemptsFit(db: Db, profile: Profile, key: AttemptKey, end: End, binding: Option<Mac>,
                          provider: Option<Sealed<string>>, lives: Lives)
    requires AttemptsFit(db.attempts, profile, lives) && Finishable(db, profile, key, end, binding, provider)
    requires key.id in lives && key.attempt == |lives[key.id].tries|
    ensures AttemptsFit(FinishRows(db, key, end.state, end.at, end.retryable, end.result, binding, provider).attempts, profile,
                        lives[key.id := Ended(lives[key.id], end)])
  {
    var attempts' := FinishRows(db, key, end.state, end.at, end.retryable, end.result, binding, provider).attempts;
    var lives' := lives[key.id := Ended(lives[key.id], end)];
    var t := lives[key.id].tries[key.attempt - 1];
    assert AttemptFits(profile, key, db.attempts[key], t);
    EndFits(profile, key, db.attempts[key], t, end, binding, provider);
    forall k | k in attempts' ensures AttemptFits(profile, k, attempts'[k], lives'[k.id].tries[k.attempt - 1]) {
      if k != key { assert k in db.attempts; }
    }
  }

  lemma EndFits(profile: Profile, key: AttemptKey, row: AttemptRow, t: Try, end: End, binding: Option<Mac>, provider: Option<Sealed<string>>)
    requires AttemptFits(profile, key, row, t)
    requires end.state != Succeeded ==> binding.None? && provider.None?
    requires DecryptProvider(profile, key, row.body.(providerBinding := binding, provider := provider)).Ok?
    ensures var body := row.body.(state := end.state, finishedAt := Some(end.at), retryable := end.retryable,
                                  result := Some(end.result), providerBinding := binding, provider := provider);
            AttemptFits(profile, key, SignAttempt(key, body), t.(end := Some(end)))
  {}

  lemma FinishCounted(db: Db, key: AttemptKey, end: End, binding: Option<Mac>, provider: Option<Sealed<string>>, next: Db)
    requires Counted(db) && key.id in db.deliveries && key in db.attempts && db.attempts[key].body.finishedAt.None?
    requires next.deliveries == FinishRows(db, key, end.state, end.at, end.retryable, end.result, binding, provider).deliveries
    requires next.attempts == FinishRows(db, key, end.state, end.at, end.retryable, end.result, binding, provider).attempts
    requires |next.audit| == |db.audit| + 1
    ensures Counted(next)
  {
    assert next.deliveries.Keys == db.deliveries.Keys;
    assert next.attempts.Keys == db.attempts.Keys;
    assert Finished(next.attempts) == Finished(db.attempts) + {key};
  }

  function Ended(life: Life, end: End): Life
    requires life.tries != []
  {
    life.(tries := life.tries[|life.tries| - 1 := life.tries[|life.tries| - 1].(end := Some(end))])
  }

  lemma EndedLegal(plane: Plane, life: Life, attempt: int, end: End)
    requires LegalLife(life) && life.tries != [] && life.tries[|life.tries| - 1].end.None? && attempt == |life.tries|
    requires LegalEnd(attempt, end) && end.at >= LastStart(life)
    ensures LegalLife(Ended(life, end))
    ensures Trail(plane, Ended(life, end))
            == Trail(plane, life) + [Core(TerminalType(end.state), plane, Some(attempt), end.result, end.retryable, end.at)]
  {
    var life' := Ended(life, end);
    forall i | 0 <= i < |life'.tries| ensures life'.tries[i].startedAt >= Floor(life', i) {
      assert life.tries[i].startedAt >= Floor(life, i) == Floor(life', i);
    }
    TrailExtends(plane, life, life', Core(TerminalType(end.state), plane, Some(attempt), end.result, end.retryable, end.at));
  }
}
