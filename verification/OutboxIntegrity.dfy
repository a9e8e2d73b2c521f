/** The loops of the integrity check (packages/alerts/src/alert-outbox.ts:1540-1791), each proved to
    report no error exactly when its part of `Accepts` holds. */
module OutboxIntegrity {
  import opened Order
  import opened Wrappers
  import opened OutboxModel
  import opened OutboxChecker
  import opened OutboxRecovery

  function Entry<T>(groups: map<DeliveryId, seq<T>>, id: DeliveryId): seq<T>
  {
    if id in groups then groups[id] else []
  }

  method CheckMetadata(db: Db, profile: Profile) returns (errors: nat)
    ensures errors == 0 <==> MetadataOk(db, profile)
  {
    errors := 0;
    if db.meta.profile != profile { errors := errors + 1; }
    if db.meta.headSequence < 0 { errors := errors + 1; }
    if db.meta.keyCheck != KeyCheckMac(profile) { errors := errors + 1; }
    if db.meta.stateMac != FullStateMac(db) { errors := errors + 1; }
    if db.meta.metadataMac != MetadataRowMac(db.meta) { errors := errors + 1; }
  }

  method CheckDeliveryRows(deliveries: map<DeliveryId, DeliveryRow>, profile: Profile)
      returns (valid: map<DeliveryId, DeliveryRow>, errors: nat)
    ensures errors == 0 <==> forall id :: id in deliveries ==> DeliveryRowOk(profile, id, deliveries[id])
    ensures errors == 0 ==> valid == deliveries
  {
    hide DeliveryRowOk;
    valid, errors := map[], 0;
    var rest := deliveries.Keys;
    while rest != {}
      invariant rest <= deliveries.Keys
      invariant errors == 0 <==> forall id :: id in deliveries && id !in rest ==> DeliveryRowOk(profile, id, deliveries[id])
      invariant errors == 0 ==> valid.Keys == deliveries.Keys - rest
      invariant forall id :: id in valid ==> id in deliveries && valid[id] == deliveries[id]
      decreases |rest|
    {
      var id :| id in rest;
      rest := rest - {id};
      if DeliveryRowOk(profile, id, deliveries[id]) {
        valid := valid[id := deliveries[id]];
      } else {
        errors := errors + 1;
      }
    }
  }

  // ---------------------------------------------------------------- grouping the attempts

  /** `ORDER BY delivery_id, attempt`. */
  predicate KeyLess(a: AttemptKey, b: AttemptKey)
  {
    if a.id == b.id then a.attempt < b.attempt else IdLess(a.id, b.id)
  }

  lemma KeyLessOrder(keys: seq<AttemptKey>)
    requires forall i, j :: 0 <= i < j < |keys| ==> keys[i] != keys[j]
    ensures Transitive(KeyLess) && Comparable(keys, KeyLess)
  {
    forall a, b, c | KeyLess(a, b) && KeyLess(b, c) ensures KeyLess(a, c) { KeyLessTransitive(a, b, c); }
    forall i, j | 0 <= i < j < |keys| ensures KeyLess(keys[i], keys[j]) || KeyLess(keys[j], keys[i]) {
      IdLessTotal(keys[i].id, keys[j].id);
    }
  }

  lemma KeyLessTransitive(a: AttemptKey, b: AttemptKey, c: AttemptKey)
    requires KeyLess(a, b) && KeyLess(b, c)
    ensures KeyLess(a, c)
  {
    hide IdLess;
    if a.id != b.id && b.id != c.id {
      IdLessTransitive(a.id, b.id, c.id);
      IdLessIrreflexive(a.id);
    }
  }

  method ReadAttemptKeys(attempts: map<AttemptKey, AttemptRow>) returns (keys: seq<AttemptKey>)
    ensures forall k :: k in keys <==> k in attempts
    ensures Increasing(keys, KeyLess)
  {
    hide KeyLess;
    keys := [];
    var rest := attempts.Keys;
    while rest != {}
      invariant rest <= attempts.Keys
      invariant forall k :: k in keys <==> k in attempts && k !in rest
      invariant forall i, j :: 0 <= i < j < |keys| ==> keys[i] != keys[j]
      decreases |rest|
    {
      var k :| k in rest;
      rest := rest - {k};
      keys := keys + [k];
    }
    KeyLessOrder(keys);
    SortIncreasing(keys, KeyLess);
    SortMembers(keys, KeyLess);
    keys := Sort(keys, KeyLess);
  }

  /** The attempts of one delivery among the rows read so far. */
  function GroupOf(keys: seq<AttemptKey>, attempts: map<AttemptKey, AttemptRow>, id: DeliveryId): seq<Numbered>
    requires forall k :: k in keys ==> k in attempts
  {
    if keys == [] then []
    else
      var k := keys[|keys| - 1];
      GroupOf(keys[..|keys| - 1], attempts, id) + (if k.id == id then [Numbered(k.attempt, attempts[k].body)] else [])
  }

  function Have(keys: seq<AttemptKey>, attempts: map<AttemptKey, AttemptRow>, k: AttemptKey): seq<Numbered>
    requires forall k :: k in keys ==> k in attempts
  {
    if k in keys then [Numbered(k.attempt, attempts[k].body)] else []
  }

  lemma {:induction false} GroupIsRelated(keys: seq<AttemptKey>, attempts: map<AttemptKey, AttemptRow>, id: DeliveryId)
    requires forall k :: k in keys ==> k in attempts
    requires forall k :: k in keys ==> k.attempt == 1 || k.attempt == 2
    requires Increasing(keys, KeyLess)
    ensures GroupOf(keys, attempts, id) == Have(keys, attempts, AttemptKey(id, 1)) + Have(keys, attempts, AttemptKey(id, 2))
  {
    if keys == [] {
    } else {
      var front, k := keys[..|keys| - 1], keys[|keys| - 1];
      GroupIsRelated(front, attempts, id);
      assert forall x :: x in keys <==> x in front || x == k;
      forall x | x in front ensures KeyLess(x, k) && x != k {
        var i :| 0 <= i < |front| && front[i] == x;
        assert KeyLess(keys[i], keys[|keys| - 1]);
        KeyLessIrreflexive(k);
      }
      if k == AttemptKey(id, 1) { assert !KeyLess(AttemptKey(id, 2), k); }
    }
  }

  lemma KeyLessIrreflexive(k: AttemptKey)
    ensures !KeyLess(k, k)
  {}

  lemma AttemptNumber(profile: Profile, key: AttemptKey, row: AttemptRow)
    requires AttemptRowOk(profile, key, row)
    ensures key.attempt == 1 || key.attempt == 2
  {}

  lemma GroupIsRelatedTo(keys: seq<AttemptKey>, db: Db, profile: Profile, id: DeliveryId)
    requires (forall k :: k in keys <==> k in db.attempts) && Increasing(keys, KeyLess)
    requires forall k :: k in db.attempts ==> AttemptRowOk(profile, k, db.attempts[k])
    ensures GroupOf(keys, db.attempts, id) == Related(db, id)
  {
    hide AttemptRowOk, KeyLess;
    forall k | k in keys ensures k.attempt == 1 || k.attempt == 2 { AttemptNumber(profile, k, db.attempts[k]); }
    GroupIsRelated(keys, db.attempts, id);
  }

  /** The map groups the rows read so far. */
  ghost predicate Groups(groups: map<DeliveryId, seq<Numbered>>, keys: seq<AttemptKey>, attempts: map<AttemptKey, AttemptRow>, i: nat)
    requires i <= |keys| && forall k :: k in keys ==> k in attempts
  {
    forall id :: Entry(groups, id) == GroupOf(keys[..i], attempts, id)
  }

  lemma GroupNone(keys: seq<AttemptKey>, attempts: map<AttemptKey, AttemptRow>)
    requires forall k :: k in keys ==> k in attempts
    ensures Groups(map[], keys, attempts, 0)
  {}

  lemma GroupPush(keys: seq<AttemptKey>, attempts: map<AttemptKey, AttemptRow>, i: nat, groups: map<DeliveryId, seq<Numbered>>)
    requires i < |keys| && (forall k :: k in keys ==> k in attempts) && Groups(groups, keys, attempts, i)
    ensures var k := keys[i];
            Groups(groups[k.id := Entry(groups, k.id) + [Numbered(k.attempt, attempts[k].body)]], keys, attempts, i + 1)
  {
    var k := keys[i];
    var groups' := groups[k.id := Entry(groups, k.id) + [Numbered(k.attempt, attempts[k].body)]];
    forall id ensures Entry(groups', id) == GroupOf(keys[..i + 1], attempts, id) {
      assert Entry(groups, id) == GroupOf(keys[..i], attempts, id);
      assert keys[..i + 1][..i] == keys[..i];
    }
  }

  lemma GroupsAll(groups: map<DeliveryId, seq<Numbered>>, keys: seq<AttemptKey>, db: Db, profile: Profile)
    requires (forall k :: k in keys <==> k in db.attempts) && Increasing(keys, KeyLess) && Groups(groups, keys, db.attempts, |keys|)
    requires forall k :: k in db.attempts ==> AttemptRowOk(profile, k, db.attempts[k])
    ensures forall id :: Entry(groups, id) == Related(db, id)
  {
    hide KeyLess, AttemptRowOk, Related, Entry;
    assert keys[..|keys|] == keys;
    forall id ensures Entry(groups, id) == Related(db, id) {
      assert Entry(groups, id) == GroupOf(keys[..|keys|], db.attempts, id);
      GroupIsRelatedTo(keys, db, profile, id);
    }
  }

  /** Attempt rows, grouped by delivery in attempt order; rows that fail authentication are grouped too. */
  method CheckAttemptRows(db: Db, profile: Profile) returns (byDelivery: map<DeliveryId, seq<Numbered>>, errors: nat)
    ensures errors == 0 <==> forall k :: k in db.attempts ==> AttemptRowOk(profile, k, db.attempts[k])
    ensures forall id :: id in byDelivery <==> exists k :: k in db.attempts && k.id == id
    ensures errors == 0 ==> forall id :: Entry(byDelivery, id) == Related(db, id)
  {
    hide KeyLess, AttemptRowOk, GroupOf, Groups, Entry;
    var keys := ReadAttemptKeys(db.attempts);
    byDelivery, errors := map[], 0;
    var i := 0;
    GroupNone(keys, db.attempts);
    while i < |keys|
      invariant 0 <= i <= |keys|
      invariant errors == 0 <==> forall j :: 0 <= j < i ==> AttemptRowOk(profile, keys[j], db.attempts[keys[j]])
      invariant Groups(byDelivery, keys, db.attempts, i)
      invariant forall id :: id in byDelivery <==> exists j :: 0 <= j < i && keys[j].id == id
    {
      var key := keys[i];
      if !AttemptRowOk(profile, key, db.attempts[key]) { errors := errors + 1; }
      GroupPush(keys, db.attempts, i, byDelivery);
      byDelivery := byDelivery[key.id := Entry(byDelivery, key.id) + [Numbered(key.attempt, db.attempts[key].body)]];
      i := i + 1;
    }
    forall id ensures id in byDelivery <==> exists k :: k in db.attempts && k.id == id {
      if k :| k in db.attempts && k.id == id { assert k in keys; }
    }
    if errors == 0 {
      forall k | k in db.attempts ensures AttemptRowOk(profile, k, db.attempts[k]) { assert k in keys; }
      GroupsAll(byDelivery, keys, db, profile);
    } else {
      var j :| 0 <= j < |keys| && !AttemptRowOk(profile, keys[j], db.attempts[keys[j]]);
      assert keys[j] in keys;
    }
  }

  // ---------------------------------------------------------------- one delivery's attempts

  method CheckHistory(delivery: DeliveryBody, related: seq<Numbered>) returns (errors: nat)
    ensures errors == 0 <==> HistoryOk(delivery, related)
  {
    if |related| != delivery.attemptCount { return 1; }
    errors := 0;
    var index := 0;
    while index < |related|
      invariant 0 <= index <= |related|
      invariant errors == 0 <==> forall i :: 0 <= i < index ==> related[i].attempt == i + 1
    {
      if related[index].attempt != index + 1 { errors := errors + 1; }
      index := index + 1;
    }
    var late, priorTransitionAt := 0, delivery.queuedAt;
    index := 0;
    while index < |related|
      invariant 0 <= index <= |related| && late >= 0
      invariant priorTransitionAt == if index == 0 then delivery.queuedAt else Transition(related[index - 1].body)
      invariant late == 0 <==> forall i :: 0 <= i < index ==> StartsInTime(delivery, related, i)
    {
      assert related[index].body.startedAt >= priorTransitionAt <==> StartsInTime(delivery, related, index);
      if related[index].body.startedAt < priorTransitionAt { late := late + 1; }
      priorTransitionAt := Transition(related[index].body);
      index := index + 1;
    }
    var mismatched := CheckLatest(delivery, related);
    errors := errors + late + mismatched;
  }

  /** The delivery's state and update time against its latest attempt. */
  method CheckLatest(delivery: DeliveryBody, related: seq<Numbered>) returns (errors: nat)
    ensures errors == 0 <==>
            StateMatches(delivery, related) && (related != [] ==> delivery.updatedAt == Transition(related[|related| - 1].body))
  {
    errors := 0;
    var latest := if related == [] then None else Some(related[|related| - 1]);
    match delivery.state {
      case Pending =>
        if (latest.Some? && latest.value.body.result != Some(Pending)) || (exists i :: 0 <= i < |related| && related[i].body.state == Running) {
          errors := errors + 1;
        }
      case InFlight =>
        if latest.None? || latest.value.body.state != Running || Some(latest.value.attempt) != delivery.active { errors := errors + 1; }
      case Delivered =>
        if latest.None? || latest.value.body.state != Succeeded || latest.value.body.result != Some(Delivered) { errors := errors + 1; }
      case Exhausted =>
        if latest.None? || (latest.value.body.state != Failed && latest.value.body.state != Crashed) || latest.value.body.result != Some(Exhausted) {
          errors := errors + 1;
        }
    }
    if latest.Some? && delivery.updatedAt != Transition(latest.value.body) { errors := errors + 1; }
  }

  method CheckHistories(deliveries: map<DeliveryId, DeliveryRow>, valid: map<DeliveryId, DeliveryRow>, byDelivery: map<DeliveryId, seq<Numbered>>)
      returns (errors: nat)
    ensures errors == 0 <==>
            && (forall id :: id in deliveries ==> HistoryOk(deliveries[id].body, Entry(byDelivery, id)))
            && (forall id :: id in byDelivery ==> id in valid)
  {
    hide HistoryOk;
    errors := 0;
    var rest := deliveries.Keys;
    while rest != {}
      invariant rest <= deliveries.Keys
      invariant errors == 0 <==> forall id :: id in deliveries && id !in rest ==> HistoryOk(deliveries[id].body, Entry(byDelivery, id))
      decreases |rest|
    {
      var id :| id in rest;
      rest := rest - {id};
      var e := CheckHistory(deliveries[id].body, Entry(byDelivery, id));
      errors := errors + e;
    }
    if exists id :: id in byDelivery && id !in valid { errors := errors + 1; }
  }

  // ---------------------------------------------------------------- the audit chain

  method CheckAudit(db: Db) returns (errors: nat, previousMac: Mac)
    ensures errors == 0 <==> AuditOk(db)
    ensures errors == 0 ==> previousMac == LastMac(db.audit)
  {
    errors, previousMac := 0, GenesisMac;
    var previousTime: Option<Time> := None;
    var index := 0;
    while index < |db.audit|
      invariant 0 <= index <= |db.audit|
      invariant errors == 0 <==> forall i :: 0 <= i < index ==> AuditRowOk(db, i)
      invariant errors == 0 ==> previousMac == LastMac(db.audit[..index])
      invariant errors == 0 ==> previousTime == if index == 0 then None else Some(db.audit[index - 1].body.occurredAt)
    {
      var row := db.audit[index];
      var ok := AuditRowHolds(db, row, index, previousMac, previousTime);
      assert errors == 0 ==> (ok <==> AuditRowOk(db, index));
      assert db.audit[..index + 1][index] == row;
      if ok {
        previousMac, previousTime := row.mac, Some(row.body.occurredAt);
      } else {
        errors := errors + 1;
      }
      index := index + 1;
    }
    assert db.audit[..index] == db.audit;
  }

  /** One audit row against the walk so far. */
  predicate AuditRowHolds(db: Db, row: AuditRow, index: nat, previousMac: Mac, previousTime: Option<Time>)
  {
    && row.body.sequence == index + 1 && row.body.previous == previousMac
    && AuditShapeOk(row.body)
    && (previousTime.Some? ==> row.body.occurredAt >= previousTime.value)
    && row.body.id in db.deliveries && db.deliveries[row.body.id].body.plane == row.body.plane
    && row.body.occurredAt >= db.deliveries[row.body.id].body.queuedAt
    && (row.body.eventType == QueuedEvent ==> row.body.occurredAt == db.deliveries[row.body.id].body.queuedAt)
    && row.mac == AuditMac(row.body)
  }

  method GroupAudit(audit: seq<AuditRow>) returns (byDelivery: map<DeliveryId, seq<Core>>)
    ensures forall id :: Entry(byDelivery, id) == EventsOf(audit, id)
  {
    byDelivery := map[];
    var i := 0;
    while i < |audit|
      invariant 0 <= i <= |audit|
      invariant forall id :: Entry(byDelivery, id) == EventsOf(audit[..i], id)
    {
      var body := audit[i].body;
      assert audit[..i + 1][..i] == audit[..i] && audit[..i + 1][i] == audit[i];
      byDelivery := byDelivery[body.id := Entry(byDelivery, body.id) + [CoreOf(body)]];
      i := i + 1;
    }
    assert audit[..i] == audit;
  }

  method CheckCoverage(delivery: DeliveryBody, related: seq<Numbered>, events: seq<Core>) returns (errors: nat)
    ensures errors == 0 <==> CoverageOk(delivery, related, events)
  {
    hide AttemptCovered, Filter;
    errors := 0;
    var queued := Filter(events, QueuedEvent, None);
    if |queued| != 1 || queued[0].at != delivery.queuedAt || queued[0].plane != delivery.plane { errors := errors + 1; }
    ghost var queueOk := errors == 0;
    var expectedEventCount := 1;
    var i := 0;
    while i < |related|
      invariant 0 <= i <= |related|
      invariant expectedEventCount == ExpectedEvents(related[..i])
      invariant errors == 0 <==> queueOk && forall j :: 0 <= j < i ==> AttemptCovered(related[j], events)
    {
      if !AttemptCovered(related[i], events) { errors := errors + 1; }
      assert related[..i + 1][..i] == related[..i] && related[..i + 1][i] == related[i];
      expectedEventCount := expectedEventCount + 1;
      if related[i].body.finishedAt.Some? { expectedEventCount := expectedEventCount + 1; }
      i := i + 1;
    }
    assert related[..i] == related;
    if |events| != expectedEventCount { errors := errors + 1; }
  }

  method CheckCoverages(valid: map<DeliveryId, DeliveryRow>, byDelivery: map<DeliveryId, seq<Numbered>>, events: map<DeliveryId, seq<Core>>)
      returns (errors: nat)
    ensures errors == 0 <==> forall id :: id in valid ==> CoverageOk(valid[id].body, Entry(byDelivery, id), Entry(events, id))
  {
    hide CoverageOk;
    errors := 0;
    var rest := valid.Keys;
    while rest != {}
      invariant rest <= valid.Keys
      invariant errors == 0 <==> forall id :: id in valid && id !in rest ==> CoverageOk(valid[id].body, Entry(byDelivery, id), Entry(events, id))
      decreases |rest|
    {
      var id :| id in rest;
      rest := rest - {id};
      var e := CheckCoverage(valid[id].body, Entry(byDelivery, id), Entry(events, id));
      errors := errors + e;
    }
  }

  /** `verifyIntegrityInternal`: the report is valid exactly when the tables are acceptable. */
  method VerifyIntegrityInternal(db: Db, profile: Profile) returns (valid: bool)
    ensures valid <==> Accepts(db, profile)
  {
    hide MetadataOk, DeliveryRowOk, AttemptRowOk, HistoryOk, AuditOk, CoverageOk, HeadOk;
    var metadataErrors := CheckMetadata(db, profile);
    var validDeliveries, rowErrors := CheckDeliveryRows(db.deliveries, profile);
    var attemptsByDelivery, attemptErrors := CheckAttemptRows(db, profile);
    var historyErrors := CheckHistories(db.deliveries, validDeliveries, attemptsByDelivery);
    var auditErrors, previousMac := CheckAudit(db.(deliveries := validDeliveries));
    var headOk := db.meta.headSequence == |db.audit| && db.meta.headMac == previousMac;
    var auditByDelivery := GroupAudit(db.audit);
    var coverageErrors := CheckCoverages(validDeliveries, attemptsByDelivery, auditByDelivery);
    valid := metadataErrors + rowErrors + attemptErrors + historyErrors + auditErrors + coverageErrors == 0 && headOk;
    if rowErrors == 0 {
      assert db.(deliveries := validDeliveries) == db;
      assert auditErrors == 0 ==> (headOk <==> HeadOk(db)) by { HeadMeans(db); }
    }
  }

  lemma HeadMeans(db: Db)
    ensures HeadOk(db) <==> db.meta.headSequence == |db.audit| && db.meta.headMac == LastMac(db.audit)
  {}
}
