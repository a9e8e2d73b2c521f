/** Two outboxes that the integrity check accepts though their chains are not told: attempts that overlap, and a
    delivery that is completed twice. Only a holder of the keys can seal such tables. */
module OutboxSamples {
  import opened Wrappers
  import opened OutboxModel
  import opened OutboxChecker
  import opened OutboxHistory
  import opened OutboxInvariant
  import opened OutboxSoundness
  import opened OutboxRuns
  import opened OutboxToldChain
  import opened OutboxExact

  const ALERT: Alert := Alert("incident", "code", 0, Dev, "session")
  const ID: DeliveryId := IdFor(Resend, ALERT, Dev)
  const FIRST: AttemptKey := AttemptKey(ID, 1)
  const SECOND: AttemptKey := AttemptKey(ID, 2)

  /** The next row of a chain about the one delivery. */
  function Next(sequence: int, e: Core, previous: Mac): AuditRow
  {
    SignAudit(AuditBody(sequence, e.eventType, ID, e.plane, e.attempt, e.state, e.retryable, e.at, previous))
  }

  function Chained(events: seq<Core>): (r: seq<AuditRow>)
    ensures |r| == |events|
  {
    if events == [] then []
    else
      var front := Chained(events[..|events| - 1]);
      front + [Next(|events|, events[|events| - 1], LastMac(front))]
  }

  /** The sealed tables of one delivery with two attempts. */
  function Tables(delivery: DeliveryBody, first: AttemptBody, second: AttemptBody, events: seq<Core>): Db
  {
    var audit := Chained(events);
    Seal(Db(Metadata(Dev, |audit|, LastMac(audit), KeyCheckMac(Dev), GenesisMac, GenesisMac),
            map[ID := SignDelivery(ID, delivery)], map[FIRST := SignAttempt(FIRST, first), SECOND := SignAttempt(SECOND, second)], audit))
  }

  function Delivery(state: DeliveryState, active: Option<int>, updatedAt: Time): DeliveryBody
  {
    DeliveryBody(Dev, Resend, PayloadBinding(ALERT, ID), Sealed(PayloadAad(Dev, Resend, ID), ALERT), state, 2, active, 0, updatedAt)
  }

  // ---------------------------------------------------------------- chains of one delivery

  lemma {:induction false} ChainedAt(events: seq<Core>, i: nat)
    requires i < |events|
    ensures var audit := Chained(events); audit[i] == Next(i + 1, events[i], LastMac(audit[..i])) && Chained(events[..i]) == audit[..i]
  {
    var front := events[..|events| - 1];
    if i == |events| - 1 {
      assert Chained(events)[..i] == Chained(front);
    } else {
      ChainedAt(front, i);
      assert Chained(events)[..i] == Chained(front)[..i] && front[..i] == events[..i];
    }
  }

  lemma {:induction false} ChainedEvents(events: seq<Core>)
    ensures EventsOf(Chained(events), ID) == events
  {
    if events == [] {
    } else {
      var (front, last) := (events[..|events| - 1], events[|events| - 1]);
      ChainedEvents(front);
      EventsAppend(Chained(front), Next(|events|, last, LastMac(Chained(front))), ID);
      assert front + [last] == events;
    }
  }

  /** What the check asks of the events one by one. */
  predicate EventOk(events: seq<Core>, i: nat)
    requires i < |events|
  {
    var e := events[i];
    && AuditShapeOk(AuditBody(0, e.eventType, ID, e.plane, e.attempt, e.state, e.retryable, e.at, GenesisMac))
    && e.plane == Resend && e.at >= 0 && (e.eventType == QueuedEvent ==> e.at == 0)
    && (i > 0 ==> e.at >= events[i - 1].at)
  }

  lemma TablesAudit(delivery: DeliveryBody, first: AttemptBody, second: AttemptBody, events: seq<Core>)
    requires delivery.queuedAt == 0 && delivery.plane == Resend && forall i :: 0 <= i < |events| ==> EventOk(events, i)
    ensures AuditOk(Tables(delivery, first, second, events)) && HeadOk(Tables(delivery, first, second, events))
  {
    var db := Tables(delivery, first, second, events);
    assert db.audit == Chained(events);
    assert ID in db.deliveries && db.deliveries[ID].body == delivery;
    forall i | 0 <= i < |db.audit| ensures AuditRowOk(db, i) {
      ChainedAt(events, i);
      assert EventOk(events, i);
      if i > 0 { ChainedAt(events, i - 1); }
      hide Chained;
    }
  }

  lemma TablesRelated(delivery: DeliveryBody, first: AttemptBody, second: AttemptBody, events: seq<Core>)
    ensures Related(Tables(delivery, first, second, events), ID) == [Numbered(1, first), Numbered(2, second)]
  {
    hide Chained;
  }

  lemma TablesSealed(delivery: DeliveryBody, first: AttemptBody, second: AttemptBody, events: seq<Core>)
    ensures MetadataOk(Tables(delivery, first, second, events), Dev)
  {
    hide Chained;
  }

  lemma TablesRows(delivery: DeliveryBody, first: AttemptBody, second: AttemptBody, events: seq<Core>)
    requires DeliveryRowOk(Dev, ID, SignDelivery(ID, delivery))
    requires AttemptRowOk(Dev, FIRST, SignAttempt(FIRST, first)) && AttemptRowOk(Dev, SECOND, SignAttempt(SECOND, second))
    ensures RowsOk(Tables(delivery, first, second, events), Dev)
  {
    hide Chained, DeliveryRowOk, AttemptRowOk;
  }

  /** The check accepts one delivery when it accepts its rows and events. */
  lemma TablesAccepted(delivery: DeliveryBody, first: AttemptBody, second: AttemptBody, events: seq<Core>)
    requires DeliveryRowOk(Dev, ID, SignDelivery(ID, delivery)) && delivery.queuedAt == 0 && delivery.plane == Resend
    requires AttemptRowOk(Dev, FIRST, SignAttempt(FIRST, first)) && AttemptRowOk(Dev, SECOND, SignAttempt(SECOND, second))
    requires forall i :: 0 <= i < |events| ==> EventOk(events, i)
    requires HistoryOk(delivery, [Numbered(1, first), Numbered(2, second)])
    requires CoverageOk(delivery, [Numbered(1, first), Numbered(2, second)], events)
    ensures Accepts(Tables(delivery, first, second, events), Dev)
  {
    hide Tables, Chained, EventOk, HistoryOk, CoverageOk, RowsOk, AuditOk, HeadOk, MetadataOk, EventsOf, Related, DeliveryRowOk, AttemptRowOk;
    TablesAre(delivery, first, second, events);
    TablesAudit(delivery, first, second, events);
    TablesRelated(delivery, first, second, events);
    TablesSealed(delivery, first, second, events);
    TablesRows(delivery, first, second, events);
    ChainedEvents(events);
  }

  lemma TablesAre(delivery: DeliveryBody, first: AttemptBody, second: AttemptBody, events: seq<Core>)
    ensures var db := Tables(delivery, first, second, events);
            && db.audit == Chained(events) && db.deliveries.Keys == {ID} && db.deliveries[ID].body == delivery
            && forall k :: k in db.attempts ==> k.id == ID
  {
    hide Chained;
  }

  lemma TablesUntouched(delivery: DeliveryBody, first: AttemptBody, second: AttemptBody, events: seq<Core>)
    requires delivery.attemptCount == 2
    ensures UntouchedAsQueued(Tables(delivery, first, second, events)) && Tables(delivery, first, second, events).audit == Chained(events)
  {
    hide Chained;
  }

  /** The chain breaks at an event that does not continue the life told before it. */
  lemma {:induction false} Breaks(events: seq<Core>, i: nat, life: Life)
    requires i < |events| && LifeIn(Rebuild(Chained(events[..i])), ID) == Some(life) && !Continues(Resend, Some(life), events[i])
    ensures !ToldChain(Chained(events))
  {
    ChainedAt(events, i);
    hide Continues, Chained, Rebuild;
    assert CoreOf(Chained(events)[i].body) == events[i];
    assert !EventContinues(Chained(events), i);
  }

  lemma LifeAfter(events: seq<Core>, e: Core, more: seq<Core>, life: Option<Life>)
    requires LifeIn(Rebuild(Chained(events)), ID) == life && more == events + [e]
    ensures e.eventType == QueuedEvent ==> LifeIn(Rebuild(Chained(more)), ID) == Some(Life(e.at, []))
    ensures e.eventType == ClaimedEvent && life.Some? ==> LifeIn(Rebuild(Chained(more)), ID) == Some(Started(life.value, e.at))
    ensures e.eventType != QueuedEvent && e.eventType != ClaimedEvent && life.Some? && life.value.tries != []
            ==> LifeIn(Rebuild(Chained(more)), ID) == Some(Ended(life.value, EndSaid(e)))
  {
    hide Rebuild;
    assert more[..|events|] == events;
    RebuildAppend(Chained(events), Next(|events| + 1, e, LastMac(Chained(events))));
  }

  lemma NothingTold()
    ensures LifeIn(Rebuild(Chained([])), ID) == None
  {}

  lemma Unwritten(db: Db, ops: seq<Op>)
    requires !ToldChain(db.audit)
    ensures db != Run(EmptyDb(Dev), Dev, ops)
  {
    hide *;
    if db == Run(EmptyDb(Dev), Dev, ops) { AcceptedUnderRun(Dev, ops, db); }
  }

  // ---------------------------------------------------------------- attempts that overlap

  const QUEUED: Core := Core(QueuedEvent, Resend, None, Pending, None, 0)

  function Claimed(attempt: int, at: Time): Core { Core(ClaimedEvent, Resend, Some(attempt), InFlight, None, at) }

  function Completed(attempt: int, at: Time): Core { Core(CompletedEvent, Resend, Some(attempt), Delivered, None, at) }

  const RUNNING: AttemptBody := AttemptBody(Running, 0, None, None, None, None, None)
  const OVERLAP_EVENTS: seq<Core> := [QUEUED, Claimed(1, 0), Claimed(2, 0)]
  /** A delivery whose second attempt was claimed while its first still ran. */
  const OVERLAP_DB: Db := Tables(Delivery(InFlight, Some(2), 0), RUNNING, RUNNING, OVERLAP_EVENTS)

  lemma OverlapCovered(r: seq<Numbered>)
    requires r == [Numbered(1, RUNNING), Numbered(2, RUNNING)]
    ensures CoverageOk(Delivery(InFlight, Some(2), 0), r, OVERLAP_EVENTS)
  {
    FilterOne(OVERLAP_EVENTS, QueuedEvent, None, 0);
    FilterOne(OVERLAP_EVENTS, ClaimedEvent, Some(1), 1);
    FilterOne(OVERLAP_EVENTS, ClaimedEvent, Some(2), 2);
    assert r[..1] == [r[0]] && r[..1][..0] == [];
    assert ExpectedEvents(r[..1]) == 2;
  }

  /** The life after the first claim. */
  lemma ClaimedOnceTold()
    ensures LifeIn(Rebuild(Chained([QUEUED, Claimed(1, 0)])), ID) == Some(Life(0, [Try(0, None)]))
  {
    hide Chained, Rebuild;
    NothingTold();
    LifeAfter([], QUEUED, [QUEUED], None);
    LifeAfter([QUEUED], Claimed(1, 0), [QUEUED, Claimed(1, 0)], Some(Life(0, [])));
    assert Started(Life(0, []), 0).tries == [Try(0, None)];
  }

  lemma OverlapBreaks()
    ensures !ToldChain(Chained(OVERLAP_EVENTS))
  {
    hide Chained, Rebuild, ToldChain;
    ClaimedOnceTold();
    assert OVERLAP_EVENTS[..2] == [QUEUED, Claimed(1, 0)];
    Breaks(OVERLAP_EVENTS, 2, Life(0, [Try(0, None)]));
  }

  /** The check never asks that one attempt ends before the next begins: it accepts these tables, which no run
      leaves behind. */
  lemma OverlapIsAccepted(ops: seq<Op>)
    ensures Accepts(OVERLAP_DB, Dev) && UntouchedAsQueued(OVERLAP_DB) && !ToldChain(OVERLAP_DB.audit)
    ensures OVERLAP_DB != Run(EmptyDb(Dev), Dev, ops)
  {
    var (delivery, r) := (Delivery(InFlight, Some(2), 0), [Numbered(1, RUNNING), Numbered(2, RUNNING)]);
    OverlapCovered(r);
    OverlapBreaks();
    assert HistoryOk(delivery, r);
    TablesUntouched(delivery, RUNNING, RUNNING, OVERLAP_EVENTS);
    hide Chained, Tables, HistoryOk, CoverageOk, ToldChain, Accepts, UntouchedAsQueued;
    TablesAccepted(delivery, RUNNING, RUNNING, OVERLAP_EVENTS);
    Unwritten(OVERLAP_DB, ops);
  }

  // ---------------------------------------------------------------- a delivery that is completed twice

  function Finished(from: Time, to: Time): AttemptBody { AttemptBody(Succeeded, from, Some(to), None, Some(Delivered), None, None) }

  const TWICE_EVENTS: seq<Core> := [QUEUED, Claimed(1, 0), Completed(1, 1), Claimed(2, 1), Completed(2, 2)]
  /** A delivery claimed again after it was delivered, and delivered again. */
  const TWICE_DB: Db := Tables(Delivery(Delivered, None, 2), Finished(0, 1), Finished(1, 2), TWICE_EVENTS)

  lemma TwiceCovered(r: seq<Numbered>)
    requires r == [Numbered(1, Finished(0, 1)), Numbered(2, Finished(1, 2))]
    ensures CoverageOk(Delivery(Delivered, None, 2), r, TWICE_EVENTS)
  {
    FilterOne(TWICE_EVENTS, QueuedEvent, None, 0);
    FilterOne(TWICE_EVENTS, ClaimedEvent, Some(1), 1);
    FilterOne(TWICE_EVENTS, CompletedEvent, Some(1), 2);
    FilterOne(TWICE_EVENTS, ClaimedEvent, Some(2), 3);
    FilterOne(TWICE_EVENTS, CompletedEvent, Some(2), 4);
    assert r[..1] == [r[0]] && r[..1][..0] == [];
    assert ExpectedEvents(r[..1]) == 3;
  }

  lemma TwiceBreaks()
    ensures !ToldChain(Chained(TWICE_EVENTS))
  {
    hide Chained, Rebuild, ToldChain;
    var life := Life(0, [Try(0, None)]);
    ClaimedOnceTold();
    LifeAfter([QUEUED, Claimed(1, 0)], Completed(1, 1), [QUEUED, Claimed(1, 0), Completed(1, 1)], Some(life));
    assert TWICE_EVENTS[..3] == [QUEUED, Claimed(1, 0), Completed(1, 1)];
    Breaks(TWICE_EVENTS, 3, Ended(life, EndSaid(Completed(1, 1))));
  }

  /** The check never asks that only a pending delivery is claimed: it accepts these tables too, in which nothing
      overlaps and every attempt has ended, and no run leaves them behind. */
  lemma TwiceIsAccepted(ops: seq<Op>)
    ensures Accepts(TWICE_DB, Dev) && UntouchedAsQueued(TWICE_DB) && !ToldChain(TWICE_DB.audit)
    ensures TWICE_DB != Run(EmptyDb(Dev), Dev, ops)
  {
    var (delivery, r) := (Delivery(Delivered, None, 2), [Numbered(1, Finished(0, 1)), Numbered(2, Finished(1, 2))]);
    TwiceCovered(r);
    TwiceBreaks();
    assert HistoryOk(delivery, r);
    TablesUntouched(delivery, Finished(0, 1), Finished(1, 2), TWICE_EVENTS);
    hide Chained, Tables, HistoryOk, CoverageOk, ToldChain, Accepts, UntouchedAsQueued;
    TablesAccepted(delivery, Finished(0, 1), Finished(1, 2), TWICE_EVENTS);
    Unwritten(TWICE_DB, ops);
  }
}
