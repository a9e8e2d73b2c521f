/** Crash recovery: every attempt in flight is closed, in a fixed order, and nothing else moves. */
module OutboxRecovery {
  import opened Order
  import opened Wrappers
  import opened OutboxModel
  import opened OutboxHistory
  import opened OutboxInvariant
  import opened OutboxRuns

  // ---------------------------------------------------------------- the orders of the two queries

  lemma IdLessTotal(a: DeliveryId, b: DeliveryId)
    ensures a == b || IdLess(a, b) || IdLess(b, a)
  {
    LessTotal(a.incidentId, b.incidentId);
    LessTotal(a.sessionId, b.sessionId);
  }

  lemma IdLessTransitive(a: DeliveryId, b: DeliveryId, c: DeliveryId)
    requires IdLess(a, b) && IdLess(b, c)
    ensures IdLess(a, c)
  {
    if Less(a.incidentId, b.incidentId) && Less(b.incidentId, c.incidentId) { LessTransitive(a.incidentId, b.incidentId, c.incidentId); }
    if Less(a.sessionId, b.sessionId) && Less(b.sessionId, c.sessionId) { LessTransitive(a.sessionId, b.sessionId, c.sessionId); }
    LessOrder();
  }

  lemma IdLessIrreflexive(a: DeliveryId)
    ensures !IdLess(a, a)
  {}

  /** Delivery order by a time read off the rows, then by identifier. */
  function ByTime(times: map<DeliveryId, Time>): (DeliveryId, DeliveryId) -> bool
  {
    (a, b) => a in times && b in times && Before(times[a], a, times[b], b)
  }

  lemma ByTimeTransitive(times: map<DeliveryId, Time>)
    ensures Transitive(ByTime(times))
  {
    forall a, b, c | ByTime(times)(a, b) && ByTime(times)(b, c) ensures ByTime(times)(a, c) {
      if IdLess(a, b) && IdLess(b, c) { IdLessTransitive(a, b, c); }
    }
  }

  /** Any set of deliveries can be listed in time order. */
  lemma Listed(ids: set<DeliveryId>, times: map<DeliveryId, Time>) returns (r: seq<DeliveryId>)
    requires ids <= times.Keys
    ensures (forall id :: id in r <==> id in ids) && |r| == |ids| && Increasing(r, ByTime(times))
  {
    var l := Listing(ids);
    forall i, j | 0 <= i < j < |l| ensures ByTime(times)(l[i], l[j]) || ByTime(times)(l[j], l[i]) { IdLessTotal(l[i], l[j]); }
    ByTimeTransitive(times);
    SortIncreasing(l, ByTime(times));
    SortMembers(l, ByTime(times));
    r := Sort(l, ByTime(times));
  }

  lemma RecoveryOrderExists(db: Db, profile: Profile)
    ensures IsRecoveryOrder(db, profile, RecoveryOrder(db, profile))
  {
    var times := map id | id in db.deliveries :: db.deliveries[id].body.updatedAt;
    var r := Listed(InFlightIds(db, profile), times);
    forall i, j | 0 <= i < j < |r|
      ensures Before(db.deliveries[r[i]].body.updatedAt, r[i], db.deliveries[r[j]].body.updatedAt, r[j])
    {
      assert ByTime(times)(r[i], r[j]);
    }
    assert IsRecoveryOrder(db, profile, r);
  }

  /** The claim query finds a delivery exactly when one is pending on the plane: the first in queue order. */
  lemma FirstPendingExists(db: Db, profile: Profile, plane: Plane)
    ensures match FirstPending(db, profile, plane)
            case None => forall id :: !IsPending(db, profile, plane, id)
            case Some(id) => IsFirstPending(db, profile, plane, id)
  {
    var ids := set id | id in db.deliveries && IsPending(db, profile, plane, id);
    var times := map id | id in db.deliveries :: db.deliveries[id].body.queuedAt;
    var r := Listed(ids, times);
    if r != [] {
      forall other | IsPending(db, profile, plane, other) && other != r[0]
        ensures Before(db.deliveries[r[0]].body.queuedAt, r[0], db.deliveries[other].body.queuedAt, other)
      {
        assert other in ids;
        var k :| 0 <= k < |r| && r[k] == other;
        assert ByTime(times)(r[0], r[k]);
      }
      assert r[0] in ids;
      assert IsFirstPending(db, profile, plane, r[0]);
    } else {
      forall id ensures !IsPending(db, profile, plane, id) { assert id in ids <==> IsPending(db, profile, plane, id); }
    }
  }

  // ---------------------------------------------------------------- recovering one attempt after another

  /** A first attempt that crashed is tried again, a second one was the last. */
  function Aftermath(n: int): DeliveryState { if n < MAX_ATTEMPTS then Pending else Exhausted }

  /** The attempt was closed by recovery. */
  predicate CrashedAt(db: Db, key: AttemptKey, at: Time)
  {
    && key in db.attempts
    && var body := db.attempts[key].body;
       && body.state == Crashed && body.finishedAt == Some(at)
       && body.retryable == Some(key.attempt < MAX_ATTEMPTS) && body.result == Some(Aftermath(key.attempt))
  }

  /** A delivery after the crash of the attempt it was on. */
  function Recovered(body: DeliveryBody, at: Time): DeliveryBody
  {
    body.(state := Aftermath(body.attemptCount), active := None, updatedAt := at)
  }

  function CrashEnd(n: int, at: Time): End
  {
    End(Crashed, at, Some(n < MAX_ATTEMPTS), Aftermath(n))
  }

  /** What recovering one delivery changes. */
  ghost predicate RecoversOnly(db: Db, next: Db, id: DeliveryId, at: Time)
    requires id in db.deliveries
  {
    && next.deliveries.Keys == db.deliveries.Keys
    && (forall other :: other in db.deliveries && other != id ==> next.deliveries[other] == db.deliveries[other])
    && next.deliveries[id].body == Recovered(db.deliveries[id].body, at)
    && CrashedAt(next, AttemptKey(id, db.deliveries[id].body.attemptCount), at)
  }

  lemma CrashEnds(db: Db, next: Db, receipt: Receipt, key: AttemptKey, at: Time)
    requires key.id in db.deliveries && key in db.attempts && key.attempt == db.deliveries[key.id].body.attemptCount
    requires Ends(db, next, receipt, key, CrashEnd(key.attempt, at), None, None)
    ensures RecoversOnly(db, next, key.id, at)
    ensures receipt.state == Pending <==> key.attempt < MAX_ATTEMPTS
  {}

  lemma CrashFinishable(db: Db, profile: Profile, key: AttemptKey, at: Time)
    requires key.id in db.deliveries && key in db.attempts && db.deliveries[key.id].body.state == InFlight
    requires key.attempt == db.deliveries[key.id].body.attemptCount && db.attempts[key].body.startedAt <= at
    ensures Finishable(db, profile, key, CrashEnd(key.attempt, at), None, None)
  {}

  lemma RecoverOneStep(db: Db, profile: Profile, id: DeliveryId, at: Time, r: Result<(Db, Receipt)>)
    requires Consistent(db, profile) && IsInFlight(db, profile, id) && at >= db.deliveries[id].body.updatedAt
    requires r == RecoverOne(db, profile, id, at)
    ensures r.Err? ==> r.error == Validation
    ensures r.Ok? ==> Advances(db, r.value.0, profile) && RecoversOnly(db, r.value.0, id, at)
    ensures 1 <= db.deliveries[id].body.attemptCount <= MAX_ATTEMPTS
    ensures r.Ok? ==> (r.value.1.state == Pending <==> db.deliveries[id].body.attemptCount < MAX_ATTEMPTS)
  {
    hide Consistent, Grows, DeliveryRowOk, AttemptRowOk, Finish, Ends, RecoversOnly, Finishable;
    var key := AttemptKey(id, db.deliveries[id].body.attemptCount);
    InFlightActive(db, profile, id, key.attempt);
    ConsistentAttempt(db, profile, key);
    CrashFinishable(db, profile, key, at);
    FinishStep(db, profile, key, CrashEnd(key.attempt, at), None, None, r);
    if r.Ok? { CrashEnds(db, r.value.0, r.value.1, key, at); }
  }

  /** What recovering a list of deliveries changes. */
  ghost predicate RecoversAll(db: Db, next: Db, ids: seq<DeliveryId>, at: Time)
    requires forall id :: id in ids ==> id in db.deliveries
  {
    && next.deliveries.Keys == db.deliveries.Keys
    && (forall other :: other in db.deliveries && other !in ids ==> next.deliveries[other] == db.deliveries[other])
    && (forall id :: id in ids ==> next.deliveries[id].body == Recovered(db.deliveries[id].body, at))
    && (forall id :: id in ids ==> CrashedAt(next, AttemptKey(id, db.deliveries[id].body.attemptCount), at))
  }

  ghost predicate Recoverable(db: Db, profile: Profile, ids: seq<DeliveryId>, at: Time)
  {
    && (forall id :: id in ids ==> IsInFlight(db, profile, id) && at >= db.deliveries[id].body.updatedAt)
    && (forall i, j :: 0 <= i < j < |ids| ==> ids[i] != ids[j])
  }

  lemma RecoverRest(db: Db, mid: Db, profile: Profile, ids: seq<DeliveryId>, at: Time)
    requires ids != [] && ids[0] in db.deliveries && Recoverable(db, profile, ids, at) && RecoversOnly(db, mid, ids[0], at)
    ensures Recoverable(mid, profile, ids[1..], at)
  {
    forall id | id in ids[1..] ensures IsInFlight(mid, profile, id) && at >= mid.deliveries[id].body.updatedAt {
      assert id in ids && id != ids[0];
    }
  }

  lemma RecoverMore(db: Db, mid: Db, next: Db, profile: Profile, ids: seq<DeliveryId>, at: Time)
    requires ids != [] && ids[0] in db.deliveries && Recoverable(db, profile, ids, at) && RecoversOnly(db, mid, ids[0], at)
    requires Recoverable(mid, profile, ids[1..], at) && RecoversAll(mid, next, ids[1..], at)
    requires AttemptsGrow(mid.attempts, next.attempts)
    ensures RecoversAll(db, next, ids, at)
  {
    assert ids[0] !in ids[1..];
    assert forall id :: id in ids <==> id == ids[0] || id in ids[1..];
  }

  /** How many deliveries of the list are on their n-th attempt. */
  function OnAttempt(db: Db, ids: seq<DeliveryId>, n: int): nat
  {
    if ids == [] then 0
    else (if ids[0] in db.deliveries && db.deliveries[ids[0]].body.attemptCount == n then 1 else 0) + OnAttempt(db, ids[1..], n)
  }

  lemma NoneOnAttempt(db: Db, ids: seq<DeliveryId>)
    requires ids == []
    ensures forall n :: OnAttempt(db, ids, n) == 0
  {}

  lemma OnAttemptCons(db: Db, ids: seq<DeliveryId>, n: int)
    requires ids != [] && ids[0] in db.deliveries
    ensures OnAttempt(db, ids, n) == (if db.deliveries[ids[0]].body.attemptCount == n then 1 else 0) + OnAttempt(db, ids[1..], n)
  {}

  lemma {:induction false} SameOnAttempt(db: Db, mid: Db, ids: seq<DeliveryId>, n: int)
    requires forall id :: id in ids ==> id in db.deliveries && id in mid.deliveries && mid.deliveries[id] == db.deliveries[id]
    ensures OnAttempt(mid, ids, n) == OnAttempt(db, ids, n)
  {
    if ids == [] {
    } else {
      assert ids[0] in ids;
      SameOnAttempt(db, mid, ids[1..], n);
    }
  }

  lemma RestUntouched(db: Db, mid: Db, profile: Profile, ids: seq<DeliveryId>, at: Time)
    requires ids != [] && ids[0] in db.deliveries && Recoverable(db, profile, ids, at) && RecoversOnly(db, mid, ids[0], at)
    ensures forall id :: id in ids[1..] ==> id in db.deliveries && id in mid.deliveries && mid.deliveries[id] == db.deliveries[id]
  {
    forall id | id in ids[1..] ensures id in db.deliveries && id in mid.deliveries && mid.deliveries[id] == db.deliveries[id] {
      assert id in ids && id != ids[0];
    }
  }

  /** The deliveries in flight that are on their n-th attempt. */
  ghost function InFlightOn(db: Db, profile: Profile, n: int): set<DeliveryId>
  {
    set id | id in db.deliveries && IsInFlight(db, profile, id) && db.deliveries[id].body.attemptCount == n
  }

  lemma {:induction false} OnAttemptCount(db: Db, ids: seq<DeliveryId>, n: int, s: set<DeliveryId>)
    requires forall i, j :: 0 <= i < j < |ids| ==> ids[i] != ids[j]
    requires forall id :: id in s <==> id in ids && id in db.deliveries && db.deliveries[id].body.attemptCount == n
    ensures OnAttempt(db, ids, n) == |s|
  {
    if ids == [] {
      assert s == {};
    } else {
      var rest := s - {ids[0]};
      forall id ensures id in rest <==> id in ids[1..] && id in db.deliveries && db.deliveries[id].body.attemptCount == n {
        assert id in ids <==> id == ids[0] || id in ids[1..];
      }
      OnAttemptCount(db, ids[1..], n, rest);
      assert ids[0] in ids;
      if ids[0] in s { assert s == rest + {ids[0]}; } else { assert s == rest; }
    }
  }

  lemma {:induction false} RecoverEachStep(db: Db, profile: Profile, ids: seq<DeliveryId>, at: Time, recovery: Recovery, r: Result<(Db, Recovery)>)
    requires Consistent(db, profile) && Recoverable(db, profile, ids, at)
    requires r == RecoverEach(db, profile, ids, at, recovery)
    ensures r.Err? ==> r.error == Validation
    ensures r.Ok? ==> Advances(db, r.value.0, profile) && RecoversAll(db, r.value.0, ids, at)
    ensures r.Ok? ==> r.value.1.retryReady == recovery.retryReady + OnAttempt(db, ids, 1)
    ensures r.Ok? ==> r.value.1.exhausted == recovery.exhausted + OnAttempt(db, ids, MAX_ATTEMPTS)
    ensures r.Ok? ==> r.value.1.recoveredAt == recovery.recoveredAt
    decreases |ids|
  {
    hide Consistent, RecoverOne, RecoversOnly, RecoversAll, Recoverable, Grows, RecoverEach, IsInFlight, OnAttempt;
    if ids == [] {
      RecoverNone(db, profile, ids, at, recovery);
      NoneOnAttempt(db, ids);
    } else {
      FirstRecoverable(db, profile, ids, at);
      OnAttemptCons(db, ids, 1);
      OnAttemptCons(db, ids, MAX_ATTEMPTS);
      var one := RecoverOne(db, profile, ids[0], at);
      RecoverEachCons(db, profile, ids, at, recovery, one);
      RecoverOneStep(db, profile, ids[0], at, one);
      if one.Ok? {
        var (mid, receipt) := one.value;
        RecoverRest(db, mid, profile, ids, at);
        RestUntouched(db, mid, profile, ids, at);
        SameOnAttempt(db, mid, ids[1..], 1);
        SameOnAttempt(db, mid, ids[1..], MAX_ATTEMPTS);
        RecoverEachStep(mid, profile, ids[1..], at, Tally(recovery, receipt), r);
        if r.Ok? {
          var next := r.value.0;
          GrowsAttempts(mid, next);
          RecoverMore(db, mid, next, profile, ids, at);
          GrowsTransitive(db, mid, next);
        }
      }
    }
  }

  lemma RecoverNone(db: Db, profile: Profile, ids: seq<DeliveryId>, at: Time, recovery: Recovery)
    requires Recoverable(db, profile, ids, at) && ids == []
    ensures RecoverEach(db, profile, ids, at, recovery) == Ok((db, recovery))
    ensures Grows(db, db) && RecoversAll(db, db, ids, at)
  {}

  lemma RecoverEachCons(db: Db, profile: Profile, ids: seq<DeliveryId>, at: Time, recovery: Recovery, one: Result<(Db, Receipt)>)
    requires ids != [] && ids[0] in db.deliveries
    requires one == RecoverOne(db, profile, ids[0], at)
    ensures one.Err? ==> RecoverEach(db, profile, ids, at, recovery) == Err(one.error)
    ensures one.Ok? ==>
              RecoverEach(db, profile, ids, at, recovery)
              == RecoverEach(one.value.0, profile, ids[1..], at, Tally(recovery, one.value.1))
  {
    hide RecoverOne;
  }

  lemma FirstRecoverable(db: Db, profile: Profile, ids: seq<DeliveryId>, at: Time)
    requires ids != [] && Recoverable(db, profile, ids, at)
    ensures ids[0] in ids && IsInFlight(db, profile, ids[0]) && at >= db.deliveries[ids[0]].body.updatedAt
  {}

  lemma GrowsAttempts(db: Db, next: Db)
    requires Grows(db, next)
    ensures AttemptsGrow(db.attempts, next.attempts)
  {}

  lemma OrderDistinct(db: Db, profile: Profile, ids: seq<DeliveryId>)
    requires IsRecoveryOrder(db, profile, ids)
    ensures forall i, j :: 0 <= i < j < |ids| ==> ids[i] != ids[j]
    ensures forall n :: OnAttempt(db, ids, n) == |InFlightOn(db, profile, n)|
  {
    LessOrder();
    forall i, j | 0 <= i < j < |ids| ensures ids[i] != ids[j] {
      assert ids[i] in ids && ids[j] in ids;
      assert Before(db.deliveries[ids[i]].body.updatedAt, ids[i], db.deliveries[ids[j]].body.updatedAt, ids[j]);
    }
    forall n ensures OnAttempt(db, ids, n) == |InFlightOn(db, profile, n)| { OnAttemptCount(db, ids, n, InFlightOn(db, profile, n)); }
  }

  /** Recovery closes every running attempt and touches nothing else. A delivery on its first attempt is
      pending again and counted as ready to retry, one on its second is exhausted and counted as such. */
  lemma RecoverStep(db: Db, profile: Profile, at: Time, r: Result<(Db, Recovery)>)
    requires Consistent(db, profile) && r == Recover(db, profile, at)
    ensures r.Err? ==> r.error == Validation
    ensures r.Ok? ==>
              && Advances(db, r.value.0, profile) && r.value.0.deliveries.Keys == db.deliveries.Keys
              && (forall id :: !IsInFlight(r.value.0, profile, id))
              && (forall id :: IsInFlight(db, profile, id) ==>
                    && id in r.value.0.deliveries
                    && r.value.0.deliveries[id].body == Recovered(db.deliveries[id].body, at)
                    && CrashedAt(r.value.0, AttemptKey(id, db.deliveries[id].body.attemptCount), at))
              && (forall id :: id in db.deliveries && !IsInFlight(db, profile, id) ==>
                    id in r.value.0.deliveries && r.value.0.deliveries[id] == db.deliveries[id])
              && r.value.1.recoveredAt == at
              && r.value.1.retryReady == |InFlightOn(db, profile, 1)|
              && r.value.1.exhausted == |InFlightOn(db, profile, MAX_ATTEMPTS)|
              && InFlightOn(db, profile, 1) + InFlightOn(db, profile, MAX_ATTEMPTS) == InFlightIds(db, profile)
  {
    hide Consistent, DeliveryRowOk, RecoverEach, IsRecoveryOrder, RecoveryOrder, Recoverable, RecoversAll, Grows, Refusal,
      OnAttempt, Recovered, CrashedAt;
    forall id | IsInFlight(db, profile, id) ensures DeliveryRowOk(profile, id, db.deliveries[id]) { ConsistentDelivery(db, profile, id); }
    InFlightParts(db, profile);
    var ids := RecoveryOrder(db, profile);
    RecoveryOrderExists(db, profile);
    OrderDistinct(db, profile, ids);
    OrderedIds(db, profile, ids);
    RefusalMeans(db, profile, ids, at);
    if Refusal(db, profile, ids, at).None? {
      OrderRecoverable(db, profile, ids, at);
      RecoverEachStep(db, profile, ids, at, Recovery(0, at, 0), r);
      if r.Ok? { AllRecovered(db, r.value.0, profile, ids, at); }
    }
  }

  lemma InFlightParts(db: Db, profile: Profile)
    requires Consistent(db, profile)
    ensures InFlightOn(db, profile, 1) + InFlightOn(db, profile, MAX_ATTEMPTS) == InFlightIds(db, profile)
  {
    hide Consistent;
    forall id | id in InFlightIds(db, profile) ensures id in InFlightOn(db, profile, 1) + InFlightOn(db, profile, MAX_ATTEMPTS) {
      InFlightActive(db, profile, id, db.deliveries[id].body.attemptCount);
    }
  }

  lemma OrderedIds(db: Db, profile: Profile, ids: seq<DeliveryId>)
    requires IsRecoveryOrder(db, profile, ids)
    ensures forall id :: id in ids <==> IsInFlight(db, profile, id)
  {}

  lemma {:induction false} RefusalMeans(db: Db, profile: Profile, ids: seq<DeliveryId>, at: Time)
    requires forall id :: id in ids ==> id in db.deliveries && DeliveryRowOk(profile, id, db.deliveries[id])
    ensures match Refusal(db, profile, ids, at)
            case Some(e) => e == Validation
            case None => forall id :: id in ids ==> at >= db.deliveries[id].body.updatedAt
  {
    hide DeliveryRowOk;
    if ids == [] {
    } else {
      assert ids[0] in ids;
      RefusalMeans(db, profile, ids[1..], at);
    }
  }

  lemma OrderRecoverable(db: Db, profile: Profile, ids: seq<DeliveryId>, at: Time)
    requires IsRecoveryOrder(db, profile, ids)
    requires forall i, j :: 0 <= i < j < |ids| ==> ids[i] != ids[j]
    requires forall id :: IsInFlight(db, profile, id) ==> at >= db.deliveries[id].body.updatedAt
    ensures Recoverable(db, profile, ids, at)
  {}

  lemma AllRecovered(db: Db, next: Db, profile: Profile, ids: seq<DeliveryId>, at: Time)
    requires IsRecoveryOrder(db, profile, ids) && RecoversAll(db, next, ids, at)
    ensures next.deliveries.Keys == db.deliveries.Keys
    ensures forall id :: !IsInFlight(next, profile, id)
    ensures forall id :: IsInFlight(db, profile, id) ==>
              && id in next.deliveries && next.deliveries[id].body == Recovered(db.deliveries[id].body, at)
              && CrashedAt(next, AttemptKey(id, db.deliveries[id].body.attemptCount), at)
    ensures forall id :: id in db.deliveries && !IsInFlight(db, profile, id) ==>
              id in next.deliveries && next.deliveries[id] == db.deliveries[id]
  {
    forall id ensures !IsInFlight(next, profile, id) {
      if id in db.deliveries && id !in ids { assert next.deliveries[id] == db.deliveries[id]; }
    }
  }
}
