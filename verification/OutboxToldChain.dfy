/** What an audit chain says for its own sake: a told chain is one in which every event continues the
    life that its delivery has had so far. */
module OutboxToldChain {
  import opened Wrappers
  import opened OutboxModel
  import opened OutboxChecker
  import opened OutboxHistory
  import opened OutboxInvariant

  function LifeIn(lives: Lives, id: DeliveryId): Option<Life> { if id in lives then Some(lives[id]) else None }

  function EndSaid(e: Core): End { End(EndState(e.eventType), e.at, e.retryable, e.state) }

  /** A delivery is queued once; only a pending one is claimed, for its next attempt; and only the running
      attempt ends, in one of the legal ways. */
  predicate Continues(plane: Plane, life: Option<Life>, e: Core)
  {
    && e.plane == plane
    && match e.eventType
       case QueuedEvent => life.None? && e.attempt.None? && e.state == Pending && e.retryable.None?
       case ClaimedEvent =>
         && life.Some? && StateOf(life.value) == Pending && e.at >= UpdatedAt(life.value)
         && e.attempt == Some(|life.value.tries| + 1) && e.state == InFlight && e.retryable.None?
       case _ =>
         && life.Some? && life.value.tries != [] && life.value.tries[|life.value.tries| - 1].end.None?
         && e.attempt == Some(|life.value.tries|) && e.at >= LastStart(life.value)
         && LegalEnd(|life.value.tries|, EndSaid(e))
  }

  predicate EventContinues(audit: seq<AuditRow>, i: nat)
    requires i < |audit|
  {
    Continues(audit[i].body.id.plane, LifeIn(Rebuild(audit[..i]), audit[i].body.id), CoreOf(audit[i].body))
  }

  /** Every event of the chain continues the life its delivery has had so far. */
  predicate ToldChain(audit: seq<AuditRow>)
  {
    forall i :: 0 <= i < |audit| ==> EventContinues(audit, i)
  }

  lemma ToldMore(audit: seq<AuditRow>, row: AuditRow)
    ensures ToldChain(audit + [row])
            <==> ToldChain(audit) && Continues(row.body.id.plane, LifeIn(Rebuild(audit), row.body.id), CoreOf(row.body))
  {
    hide Continues;
    var all := audit + [row];
    assert all[..|audit|] == audit;
    forall i | 0 <= i < |audit| ensures EventContinues(all, i) <==> EventContinues(audit, i) {
      assert all[..i] == audit[..i] && all[i] == audit[i];
    }
    if ToldChain(all) { assert EventContinues(all, |audit|); }
  }

  // ---------------------------------------------------------------- a told chain tells legal lives

  lemma QueueContinues(audit: seq<AuditRow>, row: AuditRow, lives: Lives)
    requires Legal(lives) && TrailsFit(audit, lives) && row.body.eventType == QueuedEvent
    requires Continues(row.body.id.plane, LifeIn(lives, row.body.id), CoreOf(row.body))
    ensures Legal(Tell(lives, row.body)) && TrailsFit(audit + [row], Tell(lives, row.body))
    ensures Tell(lives, row.body) == lives[row.body.id := Life(row.body.occurredAt, [])] && row.body.id !in lives
  {
    assert row.body.id !in lives;
    hide Legal, TrailsFit;
    TrailsStart(audit, row, lives, row.body.occurredAt);
  }

  lemma ClaimContinues(audit: seq<AuditRow>, row: AuditRow, lives: Lives)
    requires Legal(lives) && TrailsFit(audit, lives) && row.body.eventType == ClaimedEvent
    requires Continues(row.body.id.plane, LifeIn(lives, row.body.id), CoreOf(row.body))
    ensures Legal(Tell(lives, row.body)) && TrailsFit(audit + [row], Tell(lives, row.body))
    ensures row.body.id in lives && Tell(lives, row.body) == lives[row.body.id := Started(lives[row.body.id], row.body.occurredAt)]
  {
    hide Legal, TrailsFit;
    var id := row.body.id;
    TellStart(lives, row.body, id, row.body.occurredAt);
    hide Tell, Started;
    StartTold(audit, row, lives, id, |lives[id].tries| + 1, row.body.occurredAt);
  }

  lemma EndContinues(audit: seq<AuditRow>, row: AuditRow, lives: Lives)
    requires Legal(lives) && TrailsFit(audit, lives) && row.body.eventType != QueuedEvent && row.body.eventType != ClaimedEvent
    requires Continues(row.body.id.plane, LifeIn(lives, row.body.id), CoreOf(row.body))
    ensures Legal(Tell(lives, row.body)) && TrailsFit(audit + [row], Tell(lives, row.body))
    ensures var id := row.body.id;
            && id in lives && lives[id].tries != [] && lives[id].tries[|lives[id].tries| - 1].end.None?
            && Tell(lives, row.body) == lives[id := Ended(lives[id], EndSaid(CoreOf(row.body)))]
  {
    hide Legal, TrailsFit, Tell, Ended;
    var id := row.body.id;
    FinishTold(audit, row, lives, id, lives[id], |lives[id].tries|, EndSaid(CoreOf(row.body)));
  }

  lemma {:induction false} ToldIsLegal(audit: seq<AuditRow>)
    requires ToldChain(audit)
    ensures Legal(Rebuild(audit)) && TrailsFit(audit, Rebuild(audit))
  {
    if audit == [] {
    } else {
      var (front, row) := (audit[..|audit| - 1], audit[|audit| - 1]);
      assert audit == front + [row];
      ToldMore(front, row);
      RebuildAppend(front, row);
      ToldIsLegal(front);
      hide Legal, TrailsFit, Rebuild, Tell, Continues;
      match row.body.eventType {
        case QueuedEvent => QueueContinues(front, row, Rebuild(front));
        case ClaimedEvent => ClaimContinues(front, row, Rebuild(front));
        case _ => EndContinues(front, row, Rebuild(front));
      }
    }
  }

  // ---------------------------------------------------------------- legal lives are told by their trails

  /** The life before its last event. */
  function Before(life: Life): Option<Life>
  {
    if life.tries == [] then None
    else
      var last := life.tries[|life.tries| - 1];
      if last.end.Some? then Some(life.(tries := life.tries[|life.tries| - 1 := last.(end := None)]))
      else Some(life.(tries := life.tries[..|life.tries| - 1]))
  }

  /** The last event of a life. */
  function LastEvent(plane: Plane, life: Life): Core
  {
    if life.tries == [] then Core(QueuedEvent, plane, None, Pending, None, life.queuedAt)
    else
      var (n, last) := (|life.tries|, life.tries[|life.tries| - 1]);
      match last.end
      case None => Core(ClaimedEvent, plane, Some(n), InFlight, None, last.startedAt)
      case Some(end) => Core(TerminalType(end.state), plane, Some(n), end.result, end.retryable, end.at)
  }

  lemma BeforeLegal(life: Life)
    requires LegalLife(life) && Before(life).Some?
    ensures LegalLife(Before(life).value)
  {
    var before := Before(life).value;
    forall i | 0 <= i < |before.tries| ensures before.tries[i].startedAt >= Floor(before, i) {
      assert life.tries[i].startedAt >= Floor(life, i) == Floor(before, i);
    }
  }

  lemma BeforeEnd(plane: Plane, life: Life)
    requires LegalLife(life) && life.tries != [] && life.tries[|life.tries| - 1].end.Some?
    ensures var before := Before(life).value;
            && LegalLife(before) && Trail(plane, life) == Trail(plane, before) + [LastEvent(plane, life)]
            && Continues(plane, Some(before), LastEvent(plane, life))
            && before.tries != [] && Ended(before, EndSaid(LastEvent(plane, life))) == life
  {
    var before := Before(life).value;
    var end := life.tries[|life.tries| - 1].end.value;
    BeforeLegal(life);
    assert EndSaid(LastEvent(plane, life)) == end;
    assert Ended(before, end) == life;
    hide LegalLife;
    EndedLegal(plane, before, |life.tries|, end);
  }

  lemma BeforeClaim(plane: Plane, life: Life)
    requires LegalLife(life) && life.tries != [] && life.tries[|life.tries| - 1].end.None?
    ensures var before := Before(life).value;
            && LegalLife(before) && Trail(plane, life) == Trail(plane, before) + [LastEvent(plane, life)]
            && Continues(plane, Some(before), LastEvent(plane, life))
            && Started(before, LastStart(life)) == life
  {
    var before := Before(life).value;
    BeforeLegal(life);
    assert before.tries + [life.tries[|life.tries| - 1]] == life.tries;
    assert LastStart(life) >= Floor(life, |before.tries|);
    assert StateOf(before) == Pending && LastStart(life) >= UpdatedAt(before);
    hide LegalLife;
    StartedLegal(plane, before, |life.tries|, LastStart(life));
  }

  /** A legal life is its last event told after the life before it. */
  lemma LifeRetold(lives: Lives, e: AuditBody, life: Life)
    requires LegalLife(life) && CoreOf(e) == LastEvent(e.id.plane, life)
    requires LifeIn(lives, e.id) == Before(life)
    ensures Continues(e.id.plane, Before(life), CoreOf(e))
    ensures Tell(lives, e) == lives[e.id := life]
    ensures Before(life).Some? ==> LegalLife(Before(life).value)
    ensures Trail(e.id.plane, life)
            == (if Before(life).Some? then Trail(e.id.plane, Before(life).value) else []) + [CoreOf(e)]
  {
    if life.tries == [] {
      assert life == Life(life.queuedAt, []);
      assert Trail(e.id.plane, life) == [CoreOf(e)];
    } else if life.tries[|life.tries| - 1].end.None? {
      BeforeClaim(e.id.plane, life);
      hide LegalLife, Trail;
      TellStart(lives, e, e.id, LastStart(life));
    } else {
      BeforeEnd(e.id.plane, life);
      LastIsTerminal(e.id.plane, life);
      hide LegalLife, Trail;
      TellFinish(lives, e, e.id, EndSaid(CoreOf(e)));
    }
  }

  lemma LastIsTerminal(plane: Plane, life: Life)
    requires LegalLife(life) && life.tries != [] && life.tries[|life.tries| - 1].end.Some?
    ensures var e := LastEvent(plane, life); e.eventType == TerminalType(EndSaid(e).state) && EndSaid(e).state != Running
  {}

  /** The lives before the last event. */
  function LivesBefore(lives: Lives, id: DeliveryId): Lives
    requires id in lives
  {
    match Before(lives[id]) case None => lives - {id} case Some(life) => lives[id := life]
  }

  lemma LastOfTrail(plane: Plane, life: Life)
    requires LegalLife(life)
    ensures |Trail(plane, life)| > 0 && Trail(plane, life)[|Trail(plane, life)| - 1] == LastEvent(plane, life)
  {}

  lemma TrailAt(audit: seq<AuditRow>, lives: Lives, id: DeliveryId)
    requires Legal(lives) && TrailsFit(audit, lives)
    ensures id !in lives ==> EventsOf(audit, id) == []
    ensures id in lives ==> LegalLife(lives[id]) && EventsOf(audit, id) == Trail(id.plane, lives[id]) != []
  {
    hide LegalLife, EventsOf, EventAt;
    assert EventsOf(audit, id) == if id in lives then Trail(id.plane, lives[id]) else [];
  }

  lemma LastFits(front: seq<AuditRow>, row: AuditRow, lives: Lives)
    requires Legal(lives) && TrailsFit(front + [row], lives)
    ensures var (id, core) := (row.body.id, CoreOf(row.body));
            && id in lives && LegalLife(lives[id]) && core == LastEvent(id.plane, lives[id])
            && Trail(id.plane, lives[id]) == EventsOf(front, id) + [core]
  {
    hide Legal, TrailsFit, LegalLife, Trail, EventsOf, LastEvent;
    EventsAppend(front, row, row.body.id);
    TrailAt(front + [row], lives, row.body.id);
    LastOfTrail(row.body.id.plane, lives[row.body.id]);
  }

  lemma FrontFits(front: seq<AuditRow>, row: AuditRow, lives: Lives, before: Lives)
    requires Legal(lives) && TrailsFit(front + [row], lives) && row.body.id in lives && before == LivesBefore(lives, row.body.id)
    requires var (id, life) := (row.body.id, Before(lives[row.body.id]));
             && (life.Some? ==> LegalLife(life.value))
             && EventsOf(front, id) == if life.Some? then Trail(id.plane, life.value) else []
    ensures Legal(before) && TrailsFit(front, before)
  {
    hide LegalLife, Trail, EventsOf, Before;
    forall other ensures EventsOf(front, other) == if other in before then Trail(other.plane, before[other]) else [] {
      if other != row.body.id {
        EventsAppend(front, row, other);
        hide Legal, TrailsFit;
        TrailAt(front + [row], lives, other);
      }
    }
  }

  lemma SameFront<T>(a: seq<T>, b: seq<T>, x: T)
    requires a + [x] == b + [x]
    ensures a == b
  {
    assert (a + [x])[..|a|] == a && (b + [x])[..|b|] == b;
  }

  lemma LivesBeforeAt(lives: Lives, id: DeliveryId)
    requires id in lives
    ensures LifeIn(LivesBefore(lives, id), id) == Before(lives[id])
    ensures LivesBefore(lives, id)[id := lives[id]] == lives
  {
    hide Before;
  }

  lemma FitsBefore(front: seq<AuditRow>, row: AuditRow, lives: Lives)
    requires Legal(lives) && TrailsFit(front + [row], lives)
    ensures row.body.id in lives
    ensures var before := LivesBefore(lives, row.body.id);
            && Legal(before) && TrailsFit(front, before)
            && Continues(row.body.id.plane, LifeIn(before, row.body.id), CoreOf(row.body)) && Tell(before, row.body) == lives
  {
    hide *;
    LastFits(front, row, lives);
    var id := row.body.id;
    var (life, before) := (lives[id], LivesBefore(lives, id));
    LivesBeforeAt(lives, id);
    LifeRetold(before, row.body, life);
    SameFront(EventsOf(front, id), if Before(life).Some? then Trail(id.plane, Before(life).value) else [], CoreOf(row.body));
    FrontFits(front, row, lives, before);
  }

  /** Legal lives whose trails are the chain are the lives the chain tells, event by event. */
  lemma {:induction false} FittingIsTold(audit: seq<AuditRow>, lives: Lives)
    requires Legal(lives) && TrailsFit(audit, lives)
    ensures ToldChain(audit) && Rebuild(audit) == lives
  {
    if audit == [] {
      NoTrailNoLife(lives);
    } else {
      var (front, row) := (audit[..|audit| - 1], audit[|audit| - 1]);
      assert audit == front + [row];
      FitsBefore(front, row, lives);
      FittingIsTold(front, LivesBefore(lives, row.body.id));
      ToldMore(front, row);
      RebuildAppend(front, row);
    }
  }

  lemma NoTrailNoLife(lives: Lives)
    requires Legal(lives) && TrailsFit([], lives)
    ensures lives == map[]
  {
    forall id ensures id !in lives { TrailAt([], lives, id); }
  }

  /** A chain is told exactly when it is the trails of legal lives, and those are then the lives it tells. */
  lemma ToldChainIs(audit: seq<AuditRow>)
    ensures ToldChain(audit) <==> Legal(Rebuild(audit)) && TrailsFit(audit, Rebuild(audit))
  {
    hide Legal, TrailsFit, Rebuild;
    if ToldChain(audit) { ToldIsLegal(audit); }
    if Legal(Rebuild(audit)) && TrailsFit(audit, Rebuild(audit)) { FittingIsTold(audit, Rebuild(audit)); }
  }

  // ---------------------------------------------------------------- one event for each thing told

  ghost function TryKeys(lives: Lives): set<AttemptKey>
  {
    set id, n | id in lives && 1 <= n <= |lives[id].tries| :: AttemptKey(id, n)
  }

  ghost function EndedKeys(lives: Lives): set<AttemptKey>
  {
    set k | k in TryKeys(lives) && lives[k.id].tries[k.attempt - 1].end.Some?
  }

  lemma KeysQueued(lives: Lives, id: DeliveryId, at: Time)
    requires id !in lives
    ensures TryKeys(lives[id := Life(at, [])]) == TryKeys(lives) && EndedKeys(lives[id := Life(at, [])]) == EndedKeys(lives)
  {}

  lemma KeysStarted(lives: Lives, id: DeliveryId, at: Time)
    requires id in lives
    ensures var (next, key) := (lives[id := Started(lives[id], at)], AttemptKey(id, |lives[id].tries| + 1));
            TryKeys(next) == TryKeys(lives) + {key} && EndedKeys(next) == EndedKeys(lives) && key !in TryKeys(lives)
  {
    var (next, key) := (lives[id := Started(lives[id], at)], AttemptKey(id, |lives[id].tries| + 1));
    forall k ensures k in TryKeys(next) <==> k in TryKeys(lives) + {key} {
      assert k == AttemptKey(k.id, k.attempt);
    }
    assert forall k :: k in TryKeys(lives) ==> k in TryKeys(next) && next[k.id].tries[k.attempt - 1] == lives[k.id].tries[k.attempt - 1];
  }

  lemma KeysEnded(lives: Lives, id: DeliveryId, end: End)
    requires id in lives && lives[id].tries != [] && lives[id].tries[|lives[id].tries| - 1].end.None?
    ensures var (next, key) := (lives[id := Ended(lives[id], end)], AttemptKey(id, |lives[id].tries|));
            TryKeys(next) == TryKeys(lives) && EndedKeys(next) == EndedKeys(lives) + {key} && key !in EndedKeys(lives)
  {
    var (next, key) := (lives[id := Ended(lives[id], end)], AttemptKey(id, |lives[id].tries|));
    assert key in TryKeys(lives);
    assert TryKeys(next) == TryKeys(lives);
    forall k | k in TryKeys(lives) && k != key ensures next[k.id].tries[k.attempt - 1] == lives[k.id].tries[k.attempt - 1] {
      assert k == AttemptKey(k.id, k.attempt);
    }
  }

  ghost function Things(lives: Lives): nat { |lives| + |TryKeys(lives)| + |EndedKeys(lives)| }

  lemma OneMoreLife(lives: Lives, id: DeliveryId, at: Time)
    requires id !in lives
    ensures Things(lives[id := Life(at, [])]) == Things(lives) + 1
  {
    KeysQueued(lives, id, at);
  }

  lemma OneMoreTry(lives: Lives, id: DeliveryId, at: Time)
    requires id in lives
    ensures Things(lives[id := Started(lives[id], at)]) == Things(lives) + 1
  {
    KeysStarted(lives, id, at);
    hide TryKeys, EndedKeys, Started;
    assert lives[id := Started(lives[id], at)].Keys == lives.Keys;
  }

  lemma OneMoreEnd(lives: Lives, id: DeliveryId, end: End)
    requires id in lives && lives[id].tries != [] && lives[id].tries[|lives[id].tries| - 1].end.None?
    ensures Things(lives[id := Ended(lives[id], end)]) == Things(lives) + 1
  {
    KeysEnded(lives, id, end);
    hide TryKeys, EndedKeys, Ended;
    assert lives[id := Ended(lives[id], end)].Keys == lives.Keys;
  }

  /** A told chain has one event for each delivery, attempt and ended attempt. */
  lemma {:induction false} ToldCount(audit: seq<AuditRow>)
    requires ToldChain(audit)
    ensures |audit| == Things(Rebuild(audit))
  {
    if audit == [] {
      assert TryKeys(map[]) == {} && EndedKeys(map[]) == {};
    } else {
      var (front, row) := (audit[..|audit| - 1], audit[|audit| - 1]);
      assert audit == front + [row];
      ToldMore(front, row);
      RebuildAppend(front, row);
      ToldCount(front);
      ToldIsLegal(front);
      hide Legal, TrailsFit, Rebuild, Tell, Continues, Things, Started, Ended;
      var (lives, id) := (Rebuild(front), row.body.id);
      match row.body.eventType {
        case QueuedEvent =>
          QueueContinues(front, row, lives);
          OneMoreLife(lives, id, row.body.occurredAt);
        case ClaimedEvent =>
          ClaimContinues(front, row, lives);
          OneMoreTry(lives, id, row.body.occurredAt);
        case _ =>
          EndContinues(front, row, lives);
          OneMoreEnd(lives, id, EndSaid(CoreOf(row.body)));
      }
    }
  }
}
