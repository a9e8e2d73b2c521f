/** Exactly when tables hold what their audit chain tells: the integrity check accepts them, their chain is told
    event by event, and the one field that the check forgets is as it was left. */
module OutboxExact {
  import opened Wrappers
  import opened OutboxModel
  import opened OutboxChecker
  import opened OutboxHistory
  import opened OutboxInvariant
  import opened OutboxSoundness
  import opened OutboxRuns
  import opened OutboxTheorems
  import opened OutboxDetermined
  import opened OutboxToldChain

  /** A delivery that was never attempted has not been updated either. */
  ghost predicate UntouchedAsQueued(db: Db)
  {
    forall id :: id in db.deliveries && db.deliveries[id].body.attemptCount == 0 ==>
      db.deliveries[id].body.updatedAt == db.deliveries[id].body.queuedAt
  }

  lemma DeliveryFitsAlike(profile: Profile, id: DeliveryId, row: DeliveryRow, row': DeliveryRow, life: Life)
    requires DeliveryFits(profile, id, row, life) && DeliveryRowOk(profile, id, row') && SameProgress(row.body, row'.body)
    requires row'.body.attemptCount == 0 ==> row'.body.updatedAt == row'.body.queuedAt
    ensures DeliveryFits(profile, id, row', life)
  {}

  lemma AttemptFitsAlike(profile: Profile, key: AttemptKey, row: AttemptRow, row': AttemptRow, t: Try)
    requires AttemptFits(profile, key, row, t) && AttemptRowOk(profile, key, row') && SameAttempt(row.body, row'.body)
    ensures AttemptFits(profile, key, row', t)
  {}

  lemma HoldsUntouched(db: Db, profile: Profile, lives: Lives)
    requires Holds(db, profile, lives)
    ensures UntouchedAsQueued(db)
  {
    forall id | id in db.deliveries && db.deliveries[id].body.attemptCount == 0
      ensures db.deliveries[id].body.updatedAt == db.deliveries[id].body.queuedAt
    {
      DeliverySays(profile, id, db.deliveries[id], lives[id]);
    }
  }

  // ---------------------------------------------------------------- rows under a legal life

  function RowsFor(life: Life): seq<Numbered>
  {
    seq(|life.tries|, i requires 0 <= i < |life.tries| => Numbered(i + 1, AttemptOf(life.tries[i], None, None)))
  }

  lemma RowsForFit(life: Life)
    requires LegalLife(life)
    ensures AllMirror(RowsFor(life), life) && AllShapesOk(RowsFor(life))
  {}

  lemma MirrorsAlike(r: seq<Numbered>, r': seq<Numbered>, life: Life)
    requires AllMirror(r, life) && SameAttempts(r, r')
    ensures AllMirror(r', life)
  {
    forall i | 0 <= i < |r'| ensures Mirrors(r'[i].body, life.tries[i]) {
      assert Mirrors(r[i].body, life.tries[i]) && SameAttempt(r[i].body, r'[i].body);
    }
  }

  /** The alert of an authentic row fits the life whose trail the row is covered by. */
  lemma AlertTold(profile: Profile, id: DeliveryId, row: DeliveryRow, r: seq<Numbered>, life: Life)
    requires DeliveryRowOk(profile, id, row) && LegalLife(life) && CoverageOk(row.body, r, Trail(id.plane, life))
    ensures AlertFits(profile, id, row.body.payload.plaintext, life)
  {
    QueuedOnce(id.plane, life);
  }

  /** Rows that the check accepts beside the trail of a legal life say what that life says. */
  lemma RowTold(profile: Profile, id: DeliveryId, row: DeliveryRow, r: seq<Numbered>, life: Life)
    requires DeliveryRowOk(profile, id, row) && HistoryOk(row.body, r) && AllShapesOk(r)
    requires LegalLife(life) && CoverageOk(row.body, r, Trail(id.plane, life))
    requires row.body.attemptCount == 0 ==> row.body.updatedAt == row.body.queuedAt
    ensures DeliveryFits(profile, id, row, life) && AllMirror(r, life)
  {
    AlertTold(profile, id, row, r, life);
    var (rows, like) := (RowsFor(life), SignDelivery(id, DeliveryOf(profile, id, row.body.payload.plaintext, life)));
    assert DeliveryFits(profile, id, like, life);
    hide DeliveryRowOk, HistoryOk, CoverageOk, LegalLife, DeliveryFits, DeliveryOf, AlertFits, AllMirror, AllShapesOk, RowsFor, Trail,
      SameProgress, SameAttempts;
    RowsForFit(life);
    DeliveryAccepted(profile, id, like, life);
    HistoryAccepted(profile, id, like, rows, life);
    CoverageAccepted(profile, id, like, rows, life);
    ProgressDetermined(profile, id, like, rows, row, r, Trail(id.plane, life));
    DeliveryFitsAlike(profile, id, like, row, life);
    MirrorsAlike(rows, r, life);
  }

  lemma AttemptTold(profile: Profile, key: AttemptKey, row: AttemptRow, t: Try)
    requires AttemptRowOk(profile, key, row) && Mirrors(row.body, t)
    ensures AttemptFits(profile, key, row, t)
  {}

  // ---------------------------------------------------------------- tables under a told chain

  lemma NamedInChain(db: Db, profile: Profile, lives: Lives, id: DeliveryId)
    requires AuditOk(db) && CoveragesOk(db) && Legal(lives) && TrailsFit(db.audit, lives)
    ensures id in db.deliveries <==> id in lives
  {
    hide Legal, TrailsFit, AuditRowOk, EventsOf, LegalLife, Trail;
    TrailAt(db.audit, lives, id);
    if id in db.deliveries {
      assert CoverageOk(db.deliveries[id].body, Related(db, id), EventsOf(db.audit, id));
      assert Filter(EventsOf(db.audit, id), QueuedEvent, None) != [];
    }
    if id in lives {
      EventsName(db.audit, id);
      var i :| 0 <= i < |db.audit| && db.audit[i].body.id == id;
      assert AuditRowOk(db, i);
      NamedKnown(db, i);
    }
  }

  lemma NamedKnown(db: Db, i: nat)
    requires i < |db.audit| && AuditRowOk(db, i)
    ensures db.audit[i].body.id in db.deliveries
  {}

  /** One delivery and its attempts, under the life its events tell. */
  lemma DeliveryTold(db: Db, profile: Profile, lives: Lives, id: DeliveryId)
    requires Accepts(db, profile) && UntouchedAsQueued(db) && Legal(lives) && TrailsFit(db.audit, lives)
    requires id in db.deliveries && id in lives
    ensures DeliveryFits(profile, id, db.deliveries[id], lives[id])
    ensures forall n :: AttemptKey(id, n) in db.attempts <==> 1 <= n <= |lives[id].tries|
    ensures forall n :: AttemptKey(id, n) in db.attempts ==>
              AttemptFits(profile, AttemptKey(id, n), db.attempts[AttemptKey(id, n)], lives[id].tries[n - 1])
  {
    hide DeliveryRowOk, AttemptRowOk, MetadataOk, AuditOk, HeadOk, CoverageOk, StateMatches, StartsInTime, EventsOf, Legal, TrailsFit, Mirrors,
      AttemptFits, DeliveryFits, LegalLife, Trail, Related, EndShapeOk;
    TrailAt(db.audit, lives, id);
    RelatedAt(db, profile, id);
    RowTold(profile, id, db.deliveries[id], Related(db, id), lives[id]);
    forall n | AttemptKey(id, n) in db.attempts
      ensures 1 <= n <= |lives[id].tries|
      ensures AttemptFits(profile, AttemptKey(id, n), db.attempts[AttemptKey(id, n)], lives[id].tries[n - 1])
    {
      AttemptTold(profile, AttemptKey(id, n), db.attempts[AttemptKey(id, n)], lives[id].tries[n - 1]);
    }
  }

  lemma TablesTold(db: Db, profile: Profile, lives: Lives)
    requires Accepts(db, profile) && UntouchedAsQueued(db) && Legal(lives) && TrailsFit(db.audit, lives)
    ensures DeliveriesFit(db.deliveries, profile, lives) && AttemptsFit(db.attempts, profile, lives)
  {
    hide MetadataOk, AuditOk, HeadOk, RowsOk, HistoryOk, CoveragesOk, UntouchedAsQueued, Legal, TrailsFit, AttemptFits, DeliveryFits;
    forall id ensures id in db.deliveries <==> id in lives { NamedInChain(db, profile, lives, id); }
    forall id | id in lives ensures DeliveryFits(profile, id, db.deliveries[id], lives[id]) { DeliveryTold(db, profile, lives, id); }
    forall k ensures k in db.attempts <==> k.id in lives && 1 <= k.attempt <= |lives[k.id].tries|
      ensures k in db.attempts ==> AttemptFits(profile, k, db.attempts[k], lives[k.id].tries[k.attempt - 1])
    {
      assert k == AttemptKey(k.id, k.attempt);
      if k.id in lives { DeliveryTold(db, profile, lives, k.id); }
    }
  }

  lemma KeysTold(db: Db, profile: Profile, lives: Lives)
    requires AttemptsFit(db.attempts, profile, lives)
    ensures TryKeys(lives) == db.attempts.Keys && EndedKeys(lives) == Finished(db.attempts)
  {
    hide AttemptFits;
    forall k ensures k in TryKeys(lives) <==> k in db.attempts { assert k == AttemptKey(k.id, k.attempt); }
    forall k | k in db.attempts ensures k in EndedKeys(lives) <==> k in Finished(db.attempts) {
      AttemptSays(profile, k, db.attempts[k], lives[k.id].tries[k.attempt - 1]);
    }
  }

  lemma CountTold(db: Db, profile: Profile, lives: Lives)
    requires |db.audit| == Things(lives) && DeliveriesFit(db.deliveries, profile, lives) && AttemptsFit(db.attempts, profile, lives)
    ensures Counted(db)
  {
    KeysTold(db, profile, lives);
    hide DeliveryFits, AttemptsFit, Finished, TryKeys, EndedKeys;
    assert |lives| == |lives.Keys| == |db.deliveries|;
    assert |db.attempts| == |db.attempts.Keys|;
  }

  lemma RowChained(db: Db, i: nat)
    requires i < |db.audit| && AuditRowOk(db, i)
    ensures db.audit[i].body.sequence == i + 1 && AuditShapeOk(db.audit[i].body) && db.audit[i].mac == AuditMac(db.audit[i].body)
    ensures db.audit[i].body.previous == (if i == 0 then GenesisMac else db.audit[i - 1].mac)
    ensures i > 0 ==> db.audit[i].body.occurredAt >= db.audit[i - 1].body.occurredAt
  {}

  lemma ChainAccepted(db: Db)
    requires AuditOk(db)
    ensures ChainOk(db.audit)
  {
    forall i | 0 <= i < |db.audit| { RowChained(db, i); }
    assert forall i :: 0 <= i < |db.audit| ==> AuditRowOk(db, i);
    assert forall i :: 0 <= i < |db.audit| ==> db.audit[i].body.previous == (if i == 0 then GenesisMac else db.audit[i - 1].mac);
    assert ChainOk(db.audit);
  }

  lemma AcceptedHolds(db: Db, profile: Profile)
    requires Accepts(db, profile) && UntouchedAsQueued(db) && ToldChain(db.audit)
    ensures Inv(db, profile)
  {
    var lives := Rebuild(db.audit);
    hide RowsOk, HistoriesOk, AuditOk, CoveragesOk, FullStateMac, MetadataRowMac, ChainOk, Legal, TrailsFit, DeliveriesFit, AttemptsFit, Counted,
      Rebuild, ToldChain, UntouchedAsQueued, Things;
    ToldIsLegal(db.audit);
    TablesTold(db, profile, lives);
    ToldCount(db.audit);
    CountTold(db, profile, lives);
    ChainAccepted(db);
  }

  lemma HoldsTold(db: Db, profile: Profile, lives: Lives)
    requires Holds(db, profile, lives)
    ensures ToldChain(db.audit)
  {
    hide ChainOk, DeliveriesFit, AttemptsFit, Counted;
    FittingIsTold(db.audit, lives);
  }

  /** For all tables: they hold exactly what their audit chain tells if and only if the integrity check accepts
      them, every event of the chain continues the life its delivery has had so far, and a delivery never
      attempted has its queue time as its update time. */
  lemma AcceptedIsTold(db: Db, profile: Profile)
    ensures Inv(db, profile) <==> Accepts(db, profile) && UntouchedAsQueued(db) && ToldChain(db.audit)
  {
    if Inv(db, profile) {
      InvAccepted(db, profile);
      hide Accepts, MetadataOk, Holds, Rebuild, UntouchedAsQueued, ToldChain;
      HoldsUntouched(db, profile, Rebuild(db.audit));
      HoldsTold(db, profile, Rebuild(db.audit));
    } else if Accepts(db, profile) && UntouchedAsQueued(db) && ToldChain(db.audit) {
      hide *;
      AcceptedHolds(db, profile);
    }
  }

  // ---------------------------------------------------------------- under a chain that a run wrote

  /** Every chain that a run writes is told, so under it the update time of a delivery never attempted is all
      that the check forgets. */
  lemma AcceptedUnderRun(profile: Profile, ops: seq<Op>, other: Db)
    requires other.audit == Run(EmptyDb(profile), profile, ops).audit
    ensures ToldChain(other.audit)
    ensures Inv(other, profile) <==> Accepts(other, profile) && UntouchedAsQueued(other)
  {
    hide *;
    EmptyInv(profile);
    RunStep(EmptyDb(profile), profile, ops);
    AcceptedIsTold(Run(EmptyDb(profile), profile, ops), profile);
    AcceptedIsTold(other, profile);
  }

  /** The tables with one delivery's update time replaced, signed and sealed anew. */
  function Restamped(db: Db, id: DeliveryId, at: Time): Db
    requires id in db.deliveries
  {
    Seal(db.(deliveries := db.deliveries[id := SignDelivery(id, db.deliveries[id].body.(updatedAt := at))]))
  }

  lemma RestampedRow(profile: Profile, id: DeliveryId, row: DeliveryRow, at: Time)
    requires DeliveryRowOk(profile, id, row) && at >= row.body.queuedAt && row.body.attemptCount == 0
    ensures var restamped := SignDelivery(id, row.body.(updatedAt := at));
            DeliveryRowOk(profile, id, restamped) && SameProgress(row.body, restamped.body)
  {}

  lemma OneRowReplaced(db: Db, other: Db, profile: Profile, id: DeliveryId, row: DeliveryRow)
    requires RowsOk(db, profile) && id in db.deliveries
    requires DeliveryRowOk(profile, id, row) && SameProgress(db.deliveries[id].body, row.body)
    requires other.deliveries == db.deliveries[id := row] && other.attempts == db.attempts
    ensures SameTold(db, other) && RowsOk(other, profile)
  {
    hide DeliveryRowOk, AttemptRowOk, SameProgress, SameAttempt;
    forall k | k in db.attempts ensures SameAttempt(db.attempts[k].body, other.attempts[k].body) { SameAttemptItself(db.attempts[k].body); }
    forall k | k in db.deliveries ensures SameProgress(db.deliveries[k].body, other.deliveries[k].body) {
      if k != id { SameProgressItself(db.deliveries[k].body); }
    }
  }

  lemma SameAttemptItself(a: AttemptBody)
    ensures SameAttempt(a, a)
  {}

  lemma SameProgressItself(d: DeliveryBody)
    ensures SameProgress(d, d)
  {}

  lemma RestampedAccepted(db: Db, profile: Profile, id: DeliveryId, at: Time)
    requires Accepts(db, profile) && id in db.deliveries && db.deliveries[id].body.attemptCount == 0
    requires at > db.deliveries[id].body.queuedAt
    ensures Accepts(Restamped(db, id, at), profile) && !UntouchedAsQueued(Restamped(db, id, at))
  {
    hide HistoriesOk, AuditOk, CoveragesOk, SameTold, DeliveryRowOk, AttemptRowOk, SameProgress;
    var other := Restamped(db, id, at);
    assert id in other.deliveries && other.deliveries[id].body.attemptCount == 0;
    RestampedRow(profile, id, db.deliveries[id], at);
    OneRowReplaced(db, other, profile, id, SignDelivery(id, db.deliveries[id].body.(updatedAt := at)));
    ChainDeterminesAccepted(db, other, profile);
  }

  /** A delivery queued and never attempted can be given any later update time: the tables are accepted
      again, though no run leaves them behind. */
  lemma UpdateTimeIsForgotten(profile: Profile, ops: seq<Op>, db: Db, id: DeliveryId, at: Time)
    requires db == Run(EmptyDb(profile), profile, ops)
    requires id in db.deliveries && db.deliveries[id].body.attemptCount == 0 && at > db.deliveries[id].body.queuedAt
    ensures Accepts(Restamped(db, id, at), profile)
    ensures forall more :: Restamped(db, id, at) != Run(EmptyDb(profile), profile, more)
  {
    hide *;
    EmptyInv(profile);
    RunStep(EmptyDb(profile), profile, ops);
    InvAccepted(db, profile);
    RestampedAccepted(db, profile, id, at);
    forall more ensures Restamped(db, id, at) != Run(EmptyDb(profile), profile, more) {
      RunStep(EmptyDb(profile), profile, more);
      AcceptedUnderRun(profile, more, Run(EmptyDb(profile), profile, more));
    }
  }
}
