/** The audit chain as an event log: each delivery's life is rebuilt from it alone. */
module OutboxHistory {
  import opened Wrappers
  import opened OutboxModel
  import opened OutboxChecker

  /** How an attempt ended. */
  datatype End = End(state: AttemptState, at: Time, retryable: Option<bool>, result: DeliveryState)
  datatype Try = Try(startedAt: Time, end: Option<End>)
  datatype Life = Life(queuedAt: Time, tries: seq<Try>)

  type Lives = map<DeliveryId, Life>

  function EndState(eventType: EventType): AttemptState
  {
    match eventType case CompletedEvent => Succeeded case RecoveredEvent => Crashed case _ => Failed
  }

  /** The effect of one audit event on the lives told so far. */
  function Tell(lives: Lives, e: AuditBody): Lives
  {
    if e.eventType == QueuedEvent then lives[e.id := Life(e.occurredAt, [])]
    else if e.id !in lives then lives
    else if e.eventType == ClaimedEvent then
      lives[e.id := lives[e.id].(tries := lives[e.id].tries + [Try(e.occurredAt, None)])]
    else
      var tries := lives[e.id].tries;
      if tries == [] then lives
      else
        var last := tries[|tries| - 1].(end := Some(End(EndState(e.eventType), e.occurredAt, e.retryable, e.state)));
        lives[e.id := lives[e.id].(tries := tries[|tries| - 1 := last])]
  }

  function Rebuild(audit: seq<AuditRow>): Lives
  {
    if audit == [] then map[] else Tell(Rebuild(audit[..|audit| - 1]), audit[|audit| - 1].body)
  }

  // ---------------------------------------------------------------- what a life says about the rows

  function StateOf(life: Life): DeliveryState
  {
    if life.tries == [] then Pending
    else
      match life.tries[|life.tries| - 1].end
      case None => InFlight
      case Some(end) => end.result
  }

  function UpdatedAt(life: Life): Time
  {
    if life.tries == [] then life.queuedAt else LastChange(life.tries[|life.tries| - 1])
  }

  function LastStart(life: Life): Time
    requires life.tries != []
  {
    life.tries[|life.tries| - 1].startedAt
  }

  function LastChange(t: Try): Time { if t.end.Some? then t.end.value.at else t.startedAt }

  function DeliveryOf(profile: Profile, id: DeliveryId, alert: Alert, life: Life): DeliveryBody
  {
    DeliveryBody(profile, id.plane, PayloadBinding(alert, id), Sealed(PayloadAad(profile, id.plane, id), alert),
                 StateOf(life), |life.tries|, if StateOf(life) == InFlight then Some(|life.tries|) else None,
                 life.queuedAt, UpdatedAt(life))
  }

  function AttemptOf(t: Try, binding: Option<Mac>, provider: Option<Sealed<string>>): AttemptBody
  {
    match t.end
    case None => AttemptBody(Running, t.startedAt, None, None, None, binding, provider)
    case Some(end) => AttemptBody(end.state, t.startedAt, Some(end.at), end.retryable, Some(end.result), binding, provider)
  }

  predicate AlertFits(profile: Profile, id: DeliveryId, alert: Alert, life: Life)
  {
    alert.profile == profile && alert.occurredAt <= life.queuedAt && IdFor(id.plane, alert, profile) == id
  }

  predicate DeliveryFits(profile: Profile, id: DeliveryId, row: DeliveryRow, life: Life)
  {
    var alert := row.body.payload.plaintext;
    AlertFits(profile, id, alert, life) && row == SignDelivery(id, DeliveryOf(profile, id, alert, life))
  }

  predicate AttemptFits(profile: Profile, key: AttemptKey, row: AttemptRow, t: Try)
  {
    && row == SignAttempt(key, AttemptOf(t, row.body.providerBinding, row.body.provider))
    && DecryptProvider(profile, key, row.body).Ok?
    && (row.body.state != Succeeded ==> ProviderAbsent(row.body))
  }

  // ---------------------------------------------------------------- legal lives

  /** The ways attempt number `n` may end. */
  predicate LegalEnd(n: int, end: End)
  {
    match end.state
    case Running => false
    case Succeeded => end.retryable == None && end.result == Delivered
    case Failed => end.retryable.Some? && end.result == if end.retryable.value && n < MAX_ATTEMPTS then Pending else Exhausted
    case Crashed => end.retryable == Some(n < MAX_ATTEMPTS) && end.result == if n < MAX_ATTEMPTS then Pending else Exhausted
  }

  /** The last change before attempt `i` (from zero) starts. */
  function Floor(life: Life, i: nat): Time
    requires i <= |life.tries|
  {
    if i == 0 then life.queuedAt else LastChange(life.tries[i - 1])
  }

  ghost predicate LegalLife(life: Life)
  {
    && |life.tries| <= MAX_ATTEMPTS
    && (forall i :: 0 <= i < |life.tries| ==> life.tries[i].startedAt >= Floor(life, i))
    && (forall i :: 0 <= i < |life.tries| && life.tries[i].end.Some? ==>
          LegalEnd(i + 1, life.tries[i].end.value) && life.tries[i].end.value.at >= life.tries[i].startedAt)
    && (forall i :: 0 <= i < |life.tries| - 1 ==> life.tries[i].end.Some? && life.tries[i].end.value.result == Pending)
  }

  // ---------------------------------------------------------------- the events a life leaves behind

  function EventCount(life: Life): nat
  {
    if life.tries == [] then 1
    else if life.tries[|life.tries| - 1].end.Some? then 1 + 2 * |life.tries|
    else 2 * |life.tries|
  }


  function EventAt(plane: Plane, life: Life, j: nat): Core
    requires LegalLife(life)
    requires j < EventCount(life)
  {
    if j == 0 then Core(QueuedEvent, plane, None, Pending, None, life.queuedAt)
    else
      var n := (j + 1) / 2;
      var t := life.tries[n - 1];
      if j % 2 == 1 then Core(ClaimedEvent, plane, Some(n), InFlight, None, t.startedAt)
      else
        Core(TerminalType(t.end.value.state), plane, Some(n), t.end.value.result, t.end.value.retryable, t.end.value.at)
  }

  /** The full audit trail of a delivery with this life. */
  ghost function Trail(plane: Plane, life: Life): (r: seq<Core>)
    requires LegalLife(life)
    ensures |r| == EventCount(life)
  {
    seq(EventCount(life), j requires 0 <= j < EventCount(life) => EventAt(plane, life, j))
  }
}
