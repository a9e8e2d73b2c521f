/** The integrity check accepts whatever the invariant describes. */
module OutboxSoundness {
  import opened Wrappers
  import opened OutboxModel
  import opened OutboxChecker
  import opened OutboxHistory
  import opened OutboxInvariant

  /** A stored attempt says the same as the attempt told by the chain. */
  predicate Mirrors(body: AttemptBody, t: Try)
  {
    body.startedAt == t.startedAt &&
    match t.end
    case None => body.state == Running && body.finishedAt == None && body.retryable == None && body.result == None
    case Some(end) =>
      body.state == end.state && body.finishedAt == Some(end.at) && body.retryable == end.retryable && body.result == Some(end.result)
  }

  ghost predicate AllMirror(related: seq<Numbered>, life: Life)
  {
    && |related| == |life.tries|
    && forall i :: 0 <= i < |related| ==> related[i].attempt == i + 1 && Mirrors(related[i].body, life.tries[i])
  }

  lemma AttemptMirrors(profile: Profile, key: AttemptKey, row: AttemptRow, t: Try)
    requires AttemptFits(profile, key, row, t)
    ensures Mirrors(row.body, t)
  {}

  lemma RelatedMirror(db: Db, profile: Profile, id: DeliveryId, lives: Lives)
    requires AttemptsFit(db.attempts, profile, lives) && id in lives && LegalLife(lives[id])
    ensures AllMirror(Related(db, id), lives[id])
  {
    var k1, k2 := AttemptKey(id, 1), AttemptKey(id, 2);
    var n := |lives[id].tries|;
    assert k1 in db.attempts <==> 1 <= n;
    assert k2 in db.attempts <==> 2 <= n;
    if k1 in db.attempts { AttemptMirrors(profile, k1, db.attempts[k1], lives[id].tries[0]); }
    if k2 in db.attempts { AttemptMirrors(profile, k2, db.attempts[k2], lives[id].tries[1]); }
  }

  // ---------------------------------------------------------------- rows

  lemma LegalLifeEnds(life: Life)
    requires LegalLife(life)
    ensures StateOf(life) == InFlight ==> life.tries != [] && life.tries[|life.tries| - 1].end.None?
    ensures UpdatedAt(life) >= life.queuedAt
    ensures forall i :: 0 <= i < |life.tries| ==> life.tries[i].startedAt >= life.queuedAt && LastChange(life.tries[i]) >= life.tries[i].startedAt
  {
    if |life.tries| > 0 { assert life.tries[0].startedAt >= Floor(life, 0); }
    if |life.tries| > 1 { assert life.tries[1].startedAt >= Floor(life, 1); }
  }

  lemma DeliveryAccepted(profile: Profile, id: DeliveryId, row: DeliveryRow, life: Life)
    requires DeliveryFits(profile, id, row, life) && LegalLife(life)
    ensures DeliveryRowOk(profile, id, row)
  {
    LegalLifeEnds(life);
  }

  lemma AttemptAccepted(profile: Profile, key: AttemptKey, row: AttemptRow, life: Life)
    requires LegalLife(life) && 1 <= key.attempt <= |life.tries|
    requires AttemptFits(profile, key, row, life.tries[key.attempt - 1])
    ensures AttemptRowOk(profile, key, row)
  {
    var t := life.tries[key.attempt - 1];
    if t.end.Some? { EndAccepted(profile, key, row, t, t.end.value); }
  }

  lemma EndAccepted(profile: Profile, key: AttemptKey, row: AttemptRow, t: Try, end: End)
    requires AttemptFits(profile, key, row, t) && t.end == Some(end) && 1 <= key.attempt <= MAX_ATTEMPTS
    requires LegalEnd(key.attempt, end) && end.at >= t.startedAt
    ensures AttemptRowOk(profile, key, row)
  {}

  lemma RowsAccepted(db: Db, profile: Profile, lives: Lives)
    requires Legal(lives) && DeliveriesFit(db.deliveries, profile, lives) && AttemptsFit(db.attempts, profile, lives)
    ensures RowsOk(db, profile)
  {
    forall id | id in db.deliveries ensures DeliveryRowOk(profile, id, db.deliveries[id]) {
      DeliveryAccepted(profile, id, db.deliveries[id], lives[id]);
    }
    forall k | k in db.attempts ensures AttemptRowOk(profile, k, db.attempts[k]) {
      AttemptAccepted(profile, k, db.attempts[k], lives[k.id]);
    }
  }

  // ---------------------------------------------------------------- attempt histories

  lemma HistoryAccepted(profile: Profile, id: DeliveryId, row: DeliveryRow, related: seq<Numbered>, life: Life)
    requires DeliveryFits(profile, id, row, life) && LegalLife(life) && AllMirror(related, life)
    ensures HistoryOk(row.body, related)
  {
    DeliverySays(profile, id, row, life);
    forall i | 0 <= i < |related| ensures StartsInTime(row.body, related, i) {
      assert life.tries[i].startedAt >= Floor(life, i);
      if i > 0 { assert Mirrors(related[i - 1].body, life.tries[i - 1]); }
    }
    StateAccepted(row.body, related, life);
  }

  lemma StateAccepted(body: DeliveryBody, related: seq<Numbered>, life: Life)
    requires LegalLife(life) && AllMirror(related, life)
    requires body.state == StateOf(life)
    requires body.state == InFlight ==> body.active == Some(|life.tries|)
    ensures StateMatches(body, related)
  {
    LegalLifeEnds(life);
    if related != [] {
      var last := related[|related| - 1];
      assert Mirrors(last.body, life.tries[|life.tries| - 1]);
      if body.state == Pending {
        forall i | 0 <= i < |related| ensures related[i].body.state != Running {
          assert Mirrors(related[i].body, life.tries[i]);
        }
      }
    }
  }

  // ---------------------------------------------------------------- audit coverage

  lemma {:induction false} FilterOne(events: seq<Core>, eventType: EventType, attempt: Option<int>, i: nat)
    requires i < |events|
    requires forall j :: 0 <= j < |events| ==>
               (j == i <==> events[j].eventType == eventType && (attempt.None? || events[j].attempt == attempt))
    ensures Filter(events, eventType, attempt) == [events[i]]
  {
    if i == 0 {
      FilterNone(events[1..], eventType, attempt);
    } else {
      FilterOne(events[1..], eventType, attempt, i - 1);
    }
  }

  lemma {:induction false} FilterNone(events: seq<Core>, eventType: EventType, attempt: Option<int>)
    requires forall j :: 0 <= j < |events| ==>
               !(events[j].eventType == eventType && (attempt.None? || events[j].attempt == attempt))
    ensures Filter(events, eventType, attempt) == []
  {
    if events == [] {
    } else {
      FilterNone(events[1..], eventType, attempt);
    }
  }

  lemma TerminalIsTerminal(n: int, end: End)
    requires LegalEnd(n, end)
    ensures TerminalType(end.state) != QueuedEvent && TerminalType(end.state) != ClaimedEvent
  {}

  lemma TrailTypes(plane: Plane, life: Life, j: nat)
    requires LegalLife(life) && j < EventCount(life)
    ensures EventAt(plane, life, j).eventType == QueuedEvent <==> j == 0
    ensures EventAt(plane, life, j).eventType == ClaimedEvent <==> j % 2 == 1
    ensures j > 0 ==> EventAt(plane, life, j).attempt == Some((j + 1) / 2)
  {
    if j > 0 && j % 2 == 0 {
      var n := (j + 1) / 2;
      TerminalIsTerminal(n, life.tries[n - 1].end.value);
    }
  }

  lemma QueuedOnce(plane: Plane, life: Life)
    requires LegalLife(life)
    ensures Filter(Trail(plane, life), QueuedEvent, None) == [Core(QueuedEvent, plane, None, Pending, None, life.queuedAt)]
  {
    forall j | 0 <= j < EventCount(life) ensures Trail(plane, life)[j].eventType == QueuedEvent <==> j == 0 { TrailTypes(plane, life, j); }
    FilterOne(Trail(plane, life), QueuedEvent, None, 0);
  }

  lemma ClaimedOnce(plane: Plane, life: Life, n: int)
    requires LegalLife(life) && 1 <= n <= |life.tries|
    ensures Filter(Trail(plane, life), ClaimedEvent, Some(n))
            == [Core(ClaimedEvent, plane, Some(n), InFlight, None, life.tries[n - 1].startedAt)]
  {
    var at := 2 * n - 1;
    forall j | 0 <= j < EventCount(life)
      ensures j == at <==> Trail(plane, life)[j].eventType == ClaimedEvent && Trail(plane, life)[j].attempt == Some(n)
    {
      TrailTypes(plane, life, j);
    }
    FilterOne(Trail(plane, life), ClaimedEvent, Some(n), at);
  }

  lemma FinishedOnce(plane: Plane, life: Life, n: int, end: End)
    requires LegalLife(life) && 1 <= n <= |life.tries| && life.tries[n - 1].end == Some(end)
    ensures Filter(Trail(plane, life), TerminalType(end.state), Some(n))
            == [Core(TerminalType(end.state), plane, Some(n), end.result, end.retryable, end.at)]
  {
    var at := 2 * n;
    TerminalIsTerminal(n, end);
    forall j | 0 <= j < EventCount(life)
      ensures j == at <==> Trail(plane, life)[j].eventType == TerminalType(end.state) && Trail(plane, life)[j].attempt == Some(n)
    {
      TrailTypes(plane, life, j);
    }
    FilterOne(Trail(plane, life), TerminalType(end.state), Some(n), at);
  }

  lemma CountAccepted(related: seq<Numbered>, life: Life)
    requires LegalLife(life) && AllMirror(related, life)
    ensures ExpectedEvents(related) == EventCount(life)
  {
    if |related| == 0 {
    } else if |related| == 1 {
      assert related[..0] == [];
      assert Mirrors(related[0].body, life.tries[0]);
    } else {
      assert related[..1][..0] == [] && related[..1][0] == related[0];
      assert Mirrors(related[0].body, life.tries[0]) && Mirrors(related[1].body, life.tries[1]);
      assert ExpectedEvents(related[..1]) == 3;
    }
  }

  lemma CoverageAccepted(profile: Profile, id: DeliveryId, row: DeliveryRow, related: seq<Numbered>, life: Life)
    requires DeliveryFits(profile, id, row, life) && LegalLife(life) && AllMirror(related, life)
    ensures CoverageOk(row.body, related, Trail(id.plane, life))
  {
    DeliverySays(profile, id, row, life);
    QueuedOnce(id.plane, life);
    CountAccepted(related, life);
    forall i | 0 <= i < |related| ensures AttemptCovered(related[i], Trail(id.plane, life)) {
      var n := related[i].attempt;
      assert Mirrors(related[i].body, life.tries[i]);
      ClaimedOnce(id.plane, life, n);
      if life.tries[i].end.Some? { FinishedOnce(id.plane, life, n, life.tries[i].end.value); }
    }
  }

  // ---------------------------------------------------------------- the audit chain

  /** Every event of a delivery appears in its trail. */
  lemma {:induction false} EventInTrail(audit: seq<AuditRow>, i: nat)
    requires i < |audit|
    ensures CoreOf(audit[i].body) in EventsOf(audit, audit[i].body.id)
  {
    if i < |audit| - 1 { EventInTrail(audit[..|audit| - 1], i); }
  }

  lemma TrailTimes(plane: Plane, life: Life, core: Core)
    requires LegalLife(life) && core in Trail(plane, life)
    ensures core.at >= life.queuedAt && core.plane == plane
    ensures core.eventType == QueuedEvent ==> core.at == life.queuedAt
  {
    var j :| 0 <= j < EventCount(life) && Trail(plane, life)[j] == core;
    TrailTypes(plane, life, j);
    LegalLifeEnds(life);
  }

  /** A chained row is accepted when its delivery agrees with it. */
  lemma RowAccepted(db: Db, i: nat)
    requires ChainOk(db.audit) && i < |db.audit| && db.audit[i].body.id in db.deliveries
    requires var (body, delivery) := (db.audit[i].body, db.deliveries[db.audit[i].body.id].body);
             && delivery.plane == body.plane && body.occurredAt >= delivery.queuedAt
             && (body.eventType == QueuedEvent ==> body.occurredAt == delivery.queuedAt)
    ensures AuditRowOk(db, i)
  {
    var body := db.audit[i].body;
    assert body.sequence == i + 1 && AuditShapeOk(body);
    assert i > 0 ==> db.audit[..i][i - 1] == db.audit[i - 1];
  }

  lemma EventKnown(audit: seq<AuditRow>, lives: Lives, i: nat)
    requires Legal(lives) && TrailsFit(audit, lives) && i < |audit|
    ensures audit[i].body.id in lives
    ensures CoreOf(audit[i].body) in Trail(audit[i].body.id.plane, lives[audit[i].body.id])
  {
    hide LegalLife, EventsOf, Trail;
    var id := audit[i].body.id;
    EventInTrail(audit, i);
    assert EventsOf(audit, id) == if id in lives then Trail(id.plane, lives[id]) else [];
  }

  /** What a delivery's row says beside one of its events. */
  lemma EventTold(audit: seq<AuditRow>, profile: Profile, lives: Lives, i: nat, row: DeliveryRow)
    requires Legal(lives) && TrailsFit(audit, lives) && i < |audit| && audit[i].body.id in lives
    requires DeliveryFits(profile, audit[i].body.id, row, lives[audit[i].body.id])
    ensures var body := audit[i].body;
            && row.body.plane == body.plane && body.occurredAt >= row.body.queuedAt
            && (body.eventType == QueuedEvent ==> body.occurredAt == row.body.queuedAt)
  {
    hide DeliveryFits, LegalLife, Trail, TrailsFit;
    var body := audit[i].body;
    EventKnown(audit, lives, i);
    TrailTimes(body.id.plane, lives[body.id], CoreOf(body));
    DeliverySays(profile, body.id, row, lives[body.id]);
  }

  lemma AuditAccepted(db: Db, profile: Profile, lives: Lives)
    requires ChainOk(db.audit) && Legal(lives) && TrailsFit(db.audit, lives) && DeliveriesFit(db.deliveries, profile, lives)
    ensures AuditOk(db)
  {
    hide AuditRowOk, ChainOk, Legal, TrailsFit, DeliveryFits;
    forall i | 0 <= i < |db.audit| ensures AuditRowOk(db, i) {
      EventKnown(db.audit, lives, i);
      EventTold(db.audit, profile, lives, i, db.deliveries[db.audit[i].body.id]);
      RowAccepted(db, i);
    }
  }

  /** The integrity check has no errors on a consistent, sealed outbox. */
  lemma InvAccepted(db: Db, profile: Profile)
    requires Inv(db, profile)
    ensures Accepts(db, profile)
  {
    hide Accepts;
    HoldsAccepted(db, profile, Rebuild(db.audit));
  }

  lemma HoldsAccepted(db: Db, profile: Profile, lives: Lives)
    requires Holds(db, profile, lives) && MetadataOk(db, profile)
    ensures Accepts(db, profile)
  {
    RowsAccepted(db, profile, lives);
    AuditAccepted(db, profile, lives);
    forall id | id in db.deliveries
      ensures HistoryOk(db.deliveries[id].body, Related(db, id))
      ensures CoverageOk(db.deliveries[id].body, Related(db, id), EventsOf(db.audit, id))
    {
      RelatedMirror(db, profile, id, lives);
      HistoryAccepted(profile, id, db.deliveries[id], Related(db, id), lives[id]);
      CoverageAccepted(profile, id, db.deliveries[id], Related(db, id), lives[id]);
    }
  }
}
