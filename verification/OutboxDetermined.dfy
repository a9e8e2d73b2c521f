/** What the integrity check leaves open: given the audit chain, accepted tables are determined up to
    the text of the sealed alerts and messages and the update time of a delivery never attempted. */
module OutboxDetermined {
  import opened Wrappers
  import opened OutboxModel
  import opened OutboxChecker

  // ---------------------------------------------------------------- every event is accounted for

  predicate IsClaimOf(a: Numbered, e: Core) { e.eventType == ClaimedEvent && e.attempt == Some(a.attempt) }

  predicate IsEndOf(a: Numbered, e: Core)
  {
    a.body.finishedAt.Some? && e.eventType == TerminalType(a.body.state) && e.attempt == Some(a.attempt)
  }

  /** In how many ways an event is accounted for by a delivery's rows. */
  function Account(related: seq<Numbered>, e: Core): nat
  {
    if related == [] then if e.eventType == QueuedEvent then 1 else 0
    else
      var last := related[|related| - 1];
      Account(related[..|related| - 1], e) + (if IsClaimOf(last, e) || IsEndOf(last, e) then 1 else 0)
  }

  function Accounted(related: seq<Numbered>, events: seq<Core>): nat
  {
    if events == [] then 0 else Account(related, events[0]) + Accounted(related, events[1..])
  }

  /** The number of events that the coverage check finds for the rows. */
  function Found(related: seq<Numbered>, events: seq<Core>): nat
  {
    if related == [] then |Filter(events, QueuedEvent, None)|
    else
      var last := related[|related| - 1];
      Found(related[..|related| - 1], events) + |Filter(events, ClaimedEvent, Some(last.attempt))| +
      (if last.body.finishedAt.Some? then |Filter(events, TerminalType(last.body.state), Some(last.attempt))| else 0)
  }

  lemma {:induction false} FoundNone(related: seq<Numbered>)
    ensures Found(related, []) == 0
  {
    if related == [] {
    } else {
      FoundNone(related[..|related| - 1]);
    }
  }

  lemma {:induction false} FoundCons(related: seq<Numbered>, events: seq<Core>)
    requires events != []
    ensures Found(related, events) == Account(related, events[0]) + Found(related, events[1..])
  {
    if related == [] {
    } else {
      FoundCons(related[..|related| - 1], events);
    }
  }

  lemma {:induction false} AccountedIsFound(related: seq<Numbered>, events: seq<Core>)
    ensures Accounted(related, events) == Found(related, events)
  {
    if events == [] {
      FoundNone(related);
    } else {
      FoundCons(related, events);
      AccountedIsFound(related, events[1..]);
    }
  }

  ghost predicate InSequence(related: seq<Numbered>)
  {
    forall i :: 0 <= i < |related| ==> related[i].attempt == i + 1
  }

  lemma {:induction false} AccountOnce(related: seq<Numbered>, e: Core)
    requires InSequence(related)
    ensures Account(related, e) <= 1
    ensures e.eventType == QueuedEvent ==> Account(related, e) == 1
    ensures e.eventType != QueuedEvent && (e.attempt.None? || e.attempt.value > |related|) ==> Account(related, e) == 0
  {
    if related == [] {
    } else {
      AccountOnce(related[..|related| - 1], e);
    }
  }

  /** An event that is accounted for belongs to the attempt it names. */
  lemma {:induction false} AccountMeans(related: seq<Numbered>, e: Core)
    requires InSequence(related) && Account(related, e) == 1 && e.eventType != QueuedEvent
    ensures e.attempt.Some? && 1 <= e.attempt.value <= |related|
    ensures var a := related[e.attempt.value - 1]; IsClaimOf(a, e) || IsEndOf(a, e)
  {
    if related == [] {
    } else if !IsClaimOf(related[|related| - 1], e) && !IsEndOf(related[|related| - 1], e) {
      AccountMeans(related[..|related| - 1], e);
    }
  }

  lemma {:induction false} AllAccounted(related: seq<Numbered>, events: seq<Core>)
    requires InSequence(related)
    ensures Accounted(related, events) <= |events|
    ensures Accounted(related, events) == |events| ==> forall e :: e in events ==> Account(related, e) == 1
  {
    if events == [] {
    } else {
      AccountOnce(related, events[0]);
      AllAccounted(related, events[1..]);
      if Accounted(related, events) == |events| {
        forall e | e in events ensures Account(related, e) == 1 { if e != events[0] { assert e in events[1..]; } }
      }
    }
  }

  lemma {:induction false} CoverageFinds(related: seq<Numbered>, events: seq<Core>)
    requires |Filter(events, QueuedEvent, None)| == 1
    requires forall i :: 0 <= i < |related| ==> AttemptCovered(related[i], events)
    ensures Found(related, events) == ExpectedEvents(related)
  {
    if related == [] {
    } else {
      assert AttemptCovered(related[|related| - 1], events);
      CoverageFinds(related[..|related| - 1], events);
    }
  }

  lemma CoverageAccounts(delivery: DeliveryBody, related: seq<Numbered>, events: seq<Core>)
    requires CoverageOk(delivery, related, events) && InSequence(related)
    ensures forall e :: e in events ==> Account(related, e) == 1
  {
    CoverageFinds(related, events);
    AccountedIsFound(related, events);
    AllAccounted(related, events);
  }

  lemma {:induction false} FilterIn(events: seq<Core>, eventType: EventType, attempt: Option<int>, e: Core)
    requires e in Filter(events, eventType, attempt)
    ensures e in events && e.eventType == eventType && (attempt.None? || e.attempt == attempt)
  {
    if events == [] {
    } else if e in Filter(events[1..], eventType, attempt) {
      FilterIn(events[1..], eventType, attempt, e);
    }
  }

  // ---------------------------------------------------------------- the same events, the same attempts

  /** Attempts agree on everything but the sealed provider message. */
  predicate SameAttempt(a: AttemptBody, b: AttemptBody)
  {
    a.state == b.state && a.startedAt == b.startedAt && a.finishedAt == b.finishedAt && a.retryable == b.retryable && a.result == b.result
  }

  /** What `assertAttemptRow` says of the fields that end an attempt. */
  predicate EndShapeOk(a: AttemptBody)
  {
    && (a.state == Running <==> a.finishedAt.None?)
    && (a.state == Running ==> a.retryable.None? && a.result.None?)
    && (a.state == Succeeded <==> a.result == Some(Delivered))
  }

  ghost predicate AllShapesOk(related: seq<Numbered>) { forall i :: 0 <= i < |related| ==> EndShapeOk(related[i].body) }

  /** Where one list of attempts has a claim or an end, so has the other. */
  lemma OneWay(d: DeliveryBody, r: seq<Numbered>, d': DeliveryBody, r': seq<Numbered>, events: seq<Core>, i: nat)
    requires CoverageOk(d, r, events) && CoverageOk(d', r', events)
    requires InSequence(r) && InSequence(r') && i < |r|
    ensures i < |r'| && r[i].body.startedAt == r'[i].body.startedAt
    ensures r[i].body.finishedAt.Some? ==>
              r'[i].body.finishedAt.Some? && TerminalType(r'[i].body.state) == TerminalType(r[i].body.state)
  {
    CoverageAccounts(d', r', events);
    hide Account, CoverageOk;
    Covered(d, r, events, i);
    var claim := Filter(events, ClaimedEvent, Some(i + 1))[0];
    FilterIn(events, ClaimedEvent, Some(i + 1), claim);
    AccountMeans(r', claim);
    Covered(d', r', events, i);
    if r[i].body.finishedAt.Some? {
      var t := TerminalType(r[i].body.state);
      var end := Filter(events, t, Some(i + 1))[0];
      FilterIn(events, t, Some(i + 1), end);
      AccountMeans(r', end);
    }
  }

  lemma Covered(d: DeliveryBody, r: seq<Numbered>, events: seq<Core>, i: nat)
    requires CoverageOk(d, r, events) && InSequence(r) && i < |r|
    ensures AttemptCovered(r[i], events) && r[i].attempt == i + 1
  {}

  lemma SameEnds(a: Numbered, b: Numbered, events: seq<Core>)
    requires AttemptCovered(a, events) && AttemptCovered(b, events) && a.attempt == b.attempt
    requires EndShapeOk(a.body) && EndShapeOk(b.body) && a.body.startedAt == b.body.startedAt
    requires a.body.finishedAt.Some? <==> b.body.finishedAt.Some?
    requires a.body.finishedAt.Some? ==> TerminalType(a.body.state) == TerminalType(b.body.state)
    ensures SameAttempt(a.body, b.body)
  {}

  ghost predicate SameAttempts(r: seq<Numbered>, r': seq<Numbered>)
  {
    |r| == |r'| && forall i :: 0 <= i < |r| ==> r[i].attempt == r'[i].attempt && SameAttempt(r[i].body, r'[i].body)
  }

  lemma EventsDetermine(d: DeliveryBody, r: seq<Numbered>, d': DeliveryBody, r': seq<Numbered>, events: seq<Core>)
    requires CoverageOk(d, r, events) && CoverageOk(d', r', events)
    requires InSequence(r) && InSequence(r') && AllShapesOk(r) && AllShapesOk(r')
    ensures SameAttempts(r, r')
  {
    hide CoverageOk, SameAttempt, EndShapeOk, AttemptCovered;
    if |r| < |r'| { OneWay(d', r', d, r, events, |r|); }
    if |r'| < |r| { OneWay(d, r, d', r', events, |r'|); }
    forall i | 0 <= i < |r| ensures SameAttempt(r[i].body, r'[i].body) {
      OneWay(d, r, d', r', events, i);
      OneWay(d', r', d, r, events, i);
      Covered(d, r, events, i);
      Covered(d', r', events, i);
      SameEnds(r[i], r'[i], events);
    }
  }

  // ---------------------------------------------------------------- the same events, the same tables

  /** Deliveries agree on everything but the sealed alert and, before the first attempt, the update time. */
  predicate SameProgress(a: DeliveryBody, b: DeliveryBody)
  {
    && a.profile == b.profile && a.plane == b.plane && a.state == b.state && a.attemptCount == b.attemptCount
    && a.active == b.active && a.queuedAt == b.queuedAt
    && (a.attemptCount != 0 ==> a.updatedAt == b.updatedAt)
  }

  ghost predicate SameTold(db: Db, other: Db)
  {
    && db.deliveries.Keys == other.deliveries.Keys && db.attempts.Keys == other.attempts.Keys
    && (forall id :: id in db.deliveries ==> SameProgress(db.deliveries[id].body, other.deliveries[id].body))
    && (forall k :: k in db.attempts ==> SameAttempt(db.attempts[k].body, other.attempts[k].body))
  }

  lemma StateDetermined(d: DeliveryBody, r: seq<Numbered>, d': DeliveryBody, r': seq<Numbered>)
    requires StateMatches(d, r) && StateMatches(d', r') && SameAttempts(r, r') && AllShapesOk(r) && AllShapesOk(r')
    ensures d.state == d'.state
  {
    if r != [] { assert SameAttempt(r[|r| - 1].body, r'[|r| - 1].body) && EndShapeOk(r[|r| - 1].body); }
  }

  lemma ProgressDetermined(profile: Profile, id: DeliveryId, row: DeliveryRow, r: seq<Numbered>, row': DeliveryRow, r': seq<Numbered>, events: seq<Core>)
    requires DeliveryRowOk(profile, id, row) && DeliveryRowOk(profile, id, row')
    requires HistoryOk(row.body, r) && HistoryOk(row'.body, r') && AllShapesOk(r) && AllShapesOk(r')
    requires CoverageOk(row.body, r, events) && CoverageOk(row'.body, r', events)
    ensures SameAttempts(r, r') && SameProgress(row.body, row'.body)
  {
    EventsDetermine(row.body, r, row'.body, r', events);
    StateDetermined(row.body, r, row'.body, r');
    if r != [] { assert SameAttempt(r[|r| - 1].body, r'[|r| - 1].body); }
  }

  lemma {:induction false} EventsName(audit: seq<AuditRow>, id: DeliveryId)
    requires EventsOf(audit, id) != []
    ensures exists i :: 0 <= i < |audit| && audit[i].body.id == id
  {
    if audit == [] {
    } else if audit[|audit| - 1].body.id != id {
      EventsName(audit[..|audit| - 1], id);
      var i :| 0 <= i < |audit| - 1 && audit[..|audit| - 1][i].body.id == id;
      assert audit[i].body.id == id;
    }
  }

  /** Every delivery of the one is named in the chain, so the other has it. */
  lemma DeliveryKnown(db: Db, other: Db, profile: Profile, id: DeliveryId)
    requires CoveragesOk(db) && AuditOk(other) && db.audit == other.audit && id in db.deliveries
    ensures id in other.deliveries
  {
    assert CoverageOk(db.deliveries[id].body, Related(db, id), EventsOf(db.audit, id));
    assert EventsOf(db.audit, id) != [];
    EventsName(db.audit, id);
    var i :| 0 <= i < |other.audit| && other.audit[i].body.id == id;
    assert AuditRowOk(other, i);
  }

  lemma AttemptShape(profile: Profile, key: AttemptKey, row: AttemptRow)
    requires AttemptRowOk(profile, key, row)
    ensures EndShapeOk(row.body) && (key.attempt == 1 || key.attempt == 2)
  {}

  /** The attempts of a delivery, read by number. */
  lemma RelatedAt(db: Db, profile: Profile, id: DeliveryId)
    requires RowsOk(db, profile) && InSequence(Related(db, id))
    ensures AllShapesOk(Related(db, id))
    ensures forall n :: AttemptKey(id, n) in db.attempts <==> 1 <= n <= |Related(db, id)|
    ensures forall n :: AttemptKey(id, n) in db.attempts ==> Related(db, id)[n - 1].body == db.attempts[AttemptKey(id, n)].body
  {
    forall k | k in db.attempts ensures EndShapeOk(db.attempts[k].body) && (k.attempt == 1 || k.attempt == 2) {
      AttemptShape(profile, k, db.attempts[k]);
    }
    var k1, k2 := AttemptKey(id, 1), AttemptKey(id, 2);
    assert Related(db, id) != [] ==> Related(db, id)[0].attempt == 1;
    assert k2 in db.attempts ==> k1 in db.attempts;
  }

  lemma DeliveryDetermined(db: Db, other: Db, profile: Profile, id: DeliveryId)
    requires Accepts(db, profile) && Accepts(other, profile) && db.audit == other.audit
    requires id in db.deliveries && id in other.deliveries
    ensures SameProgress(db.deliveries[id].body, other.deliveries[id].body)
    ensures forall n :: AttemptKey(id, n) in db.attempts <==> AttemptKey(id, n) in other.attempts
    ensures forall n :: AttemptKey(id, n) in db.attempts ==>
              SameAttempt(db.attempts[AttemptKey(id, n)].body, other.attempts[AttemptKey(id, n)].body)
  {
    hide DeliveryRowOk, AttemptRowOk, MetadataOk, AuditOk, CoverageOk, StateMatches, StartsInTime, EventsOf, SameAttempt, SameProgress;
    RelatedAt(db, profile, id);
    RelatedAt(other, profile, id);
    ProgressDetermined(profile, id, db.deliveries[id], Related(db, id), other.deliveries[id], Related(other, id), EventsOf(db.audit, id));
  }

  lemma ToldAlike(db: Db, other: Db, profile: Profile)
    requires Accepts(db, profile) && Accepts(other, profile) && db.audit == other.audit
    ensures SameTold(db, other)
  {
    hide DeliveryRowOk, AttemptRowOk, MetadataOk, AuditOk, CoveragesOk, HistoryOk, RowsOk, SameAttempt, SameProgress;
    forall id ensures id in db.deliveries <==> id in other.deliveries {
      if id in db.deliveries { DeliveryKnown(db, other, profile, id); }
      if id in other.deliveries { DeliveryKnown(other, db, profile, id); }
    }
    forall id | id in db.deliveries ensures SameProgress(db.deliveries[id].body, other.deliveries[id].body) {
      DeliveryDetermined(db, other, profile, id);
    }
    forall k ensures k in db.attempts <==> k in other.attempts
      ensures k in db.attempts ==> SameAttempt(db.attempts[k].body, other.attempts[k].body)
    {
      if k.id in db.deliveries {
        DeliveryDetermined(db, other, profile, k.id);
        assert k == AttemptKey(k.id, k.attempt);
      }
    }
  }

  // ---------------------------------------------------------------- and nothing more

  lemma RelatedAlike(db: Db, other: Db, id: DeliveryId)
    requires SameTold(db, other)
    ensures SameAttempts(Related(db, id), Related(other, id))
  {
    hide SameAttempt, SameProgress;
    var k1, k2 := AttemptKey(id, 1), AttemptKey(id, 2);
    assert k1 in db.attempts <==> k1 in other.attempts;
    assert k2 in db.attempts <==> k2 in other.attempts;
  }

  lemma {:induction false} ExpectedAlike(r: seq<Numbered>, r': seq<Numbered>)
    requires SameAttempts(r, r')
    ensures ExpectedEvents(r) == ExpectedEvents(r')
  {
    if r == [] {
    } else {
      assert SameAttempt(r[|r| - 1].body, r'[|r| - 1].body);
      ExpectedAlike(r[..|r| - 1], r'[..|r| - 1]);
    }
  }

  lemma CoverageAlike(d: DeliveryBody, r: seq<Numbered>, d': DeliveryBody, r': seq<Numbered>, events: seq<Core>)
    requires CoverageOk(d, r, events) && SameAttempts(r, r') && SameProgress(d, d')
    ensures CoverageOk(d', r', events)
  {
    ExpectedAlike(r, r');
    forall i | 0 <= i < |r'| ensures AttemptCovered(r'[i], events) {
      assert AttemptCovered(r[i], events) && SameAttempt(r[i].body, r'[i].body);
    }
  }

  lemma HistoryAlike(d: DeliveryBody, r: seq<Numbered>, d': DeliveryBody, r': seq<Numbered>)
    requires HistoryOk(d, r) && SameAttempts(r, r') && SameProgress(d, d')
    ensures HistoryOk(d', r')
  {
    forall i | 0 <= i < |r'| ensures StartsInTime(d', r', i) {
      assert StartsInTime(d, r, i) && SameAttempt(r[i].body, r'[i].body);
      if i > 0 { assert SameAttempt(r[i - 1].body, r'[i - 1].body); }
    }
    StateAlike(d, r, d', r');
    if r != [] { assert SameAttempt(r[|r| - 1].body, r'[|r| - 1].body); }
  }

  lemma StateAlike(d: DeliveryBody, r: seq<Numbered>, d': DeliveryBody, r': seq<Numbered>)
    requires StateMatches(d, r) && SameAttempts(r, r') && SameProgress(d, d')
    ensures StateMatches(d', r')
  {
    forall i | 0 <= i < |r| ensures r[i].body.state == r'[i].body.state && r[i].body.result == r'[i].body.result {
      assert SameAttempt(r[i].body, r'[i].body);
    }
  }

  lemma AuditAlike(db: Db, other: Db)
    requires AuditOk(db) && SameTold(db, other) && db.audit == other.audit
    ensures AuditOk(other)
  {
    forall i | 0 <= i < |other.audit| ensures AuditRowOk(other, i) {
      assert AuditRowOk(db, i);
      var id := db.audit[i].body.id;
      assert SameProgress(db.deliveries[id].body, other.deliveries[id].body);
    }
  }

  lemma AcceptedAlike(db: Db, other: Db, profile: Profile)
    requires Accepts(db, profile) && SameTold(db, other) && db.audit == other.audit
    requires RowsOk(other, profile) && MetadataOk(other, profile) && HeadOk(other)
    ensures Accepts(other, profile)
  {
    hide DeliveryRowOk, AttemptRowOk, MetadataOk, CoverageOk, HistoryOk, RowsOk, EventsOf, AuditOk, Related, HeadOk, SameAttempt, SameProgress;
    AuditAlike(db, other);
    forall id | id in other.deliveries
      ensures HistoryOk(other.deliveries[id].body, Related(other, id))
      ensures CoverageOk(other.deliveries[id].body, Related(other, id), EventsOf(other.audit, id))
    {
      RelatedAlike(db, other, id);
      HistoryAlike(db.deliveries[id].body, Related(db, id), other.deliveries[id].body, Related(other, id));
      CoverageAlike(db.deliveries[id].body, Related(db, id), other.deliveries[id].body, Related(other, id), EventsOf(db.audit, id));
    }
  }

  /** Which tables the check accepts under a chain it has accepted: exactly those whose rows and seals are
      authentic one by one and that tell the same deliveries and attempts, in the same states, at the same times. */
  lemma ChainDeterminesAccepted(db: Db, other: Db, profile: Profile)
    requires Accepts(db, profile) && db.audit == other.audit
    ensures Accepts(other, profile) <==>
            SameTold(db, other) && RowsOk(other, profile) && MetadataOk(other, profile) && HeadOk(other)
  {
    hide RowsOk, MetadataOk, HeadOk, SameTold, AuditOk, HistoriesOk, CoveragesOk;
    if Accepts(other, profile) { ToldAlike(db, other, profile); }
    if SameTold(db, other) && RowsOk(other, profile) && MetadataOk(other, profile) && HeadOk(other) { AcceptedAlike(db, other, profile); }
  }
}
