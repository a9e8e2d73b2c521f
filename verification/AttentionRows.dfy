/** Rows, diagnostics and the assessment, with the refinements of their schemas
    (packages/attention/src/assess.ts:192-258, 606-767, 900-975; schemas.ts:343-657). */
module AttentionRows {
  import opened Order
  import opened Wrappers
  import opened Attention
  import opened AttentionFacts
  import opened Assessor

  datatype Subject = Resolved(identity: Identity) | Unresolved(candidateId: string)
  datatype Presence = Observed(rank: int) | Departed(previousRank: int)
  datatype NoComparison = FirstObservation | PredecessorExpired | DifferentStream | IdentityUnresolved
  datatype Comparison = NotObserved | NotComparable(reason: NoComparison) | Compared(previousRank: int, delta: int)
  datatype Scorecard = Scorecard(rank: int, upwardMovement: int, socialPresence: int, total: int, observedClusters: int, countedClusters: int)
  datatype Outcome = Review(priority: int) | Watch(watchReasons: seq<WatchReason>, priority: int) | Rejected(reasons: seq<HardReason>)

  datatype Row = Row(
    rowId: string, subject: Subject, slug: string, presence: Presence, comparison: Comparison, scorecard: Option<Scorecard>,
    evidenceIds: seq<string>, assessedAt: Time, expiresAt: Time, bundleId: string, missingChecks: seq<MissingCheck>,
    notes: seq<Note>, outcome: Outcome, nextAction: NextAction)

  datatype Diagnostic = Diagnostic(evidenceId: string, code: DiagnosticCode)
  datatype MarketplaceSummary = MarketplaceSummary(acquiredAt: Time, validUntil: Time, candidateCount: int, hasNextPage: bool, usable: bool,
                                                   priorWindow: Option<string>)
  datatype XSummary = XIsAbsent | XObserved(acquiredAt: Time, validUntil: Time, postCount: int, usableClusters: int, hasNextPage: bool)

  datatype Assessment = Assessment(
    bundleId: string, refreshId: string, predecessorId: Option<string>, evaluatedAt: Time, rows: seq<Row>,
    marketplace: MarketplaceSummary, x: XSummary, base: BaseSummary, diagnostics: seq<Diagnostic>)

  // ---------------------------------------------------------------- scores and outcomes

  function Min(a: int, b: int): int { if a <= b then a else b }
  function Max(a: int, b: int): int { if a >= b then a else b }

  function FindRow(rows: seq<PriorRow>, id: string): Option<PriorRow>
  {
    if rows == [] then None else if rows[0].identity.collectionId == id then Some(rows[0]) else FindRow(rows[1..], id)
  }

  /** `rankComparison`. */
  function RankComparison(s: State, facts: Facts, acquiredAt: Time): Comparison
  {
    if s.identity.None? then NotComparable(IdentityUnresolved)
    else
      match facts.window
      case None => NotComparable(FirstObservation)
      case Some(w) =>
        match FindRow(w.rows, s.identity.value.collectionId)
        case None => NotComparable(FirstObservation)
        case Some(previous) =>
          if acquiredAt >= w.validUntil then NotComparable(PredecessorExpired)
          else if acquiredAt <= w.acquiredAt then NotComparable(FirstObservation)
          else Compared(previous.rank, previous.rank - s.candidate.rank)
  }

  function Movement(c: Comparison): int { if c.Compared? then Min(10, 2 * Max(0, c.delta)) else 0 }

  function Score(s: State, c: Comparison): Scorecard
  {
    var rank := 4 * (11 - s.candidate.rank);
    var counted := Min(2, |s.unexpired|);
    Scorecard(rank, Movement(c), counted * 5, rank + Movement(c) + counted * 5, |s.observed|, counted)
  }

  function OutcomeOf(s: State, total: int): Outcome
  {
    var hard := Ordered(s.hard, HARD_REASONS);
    var watch := s.watch + if hard == [] && s.watch == {} && total < 36 then {AttentionBelowThreshold} else {};
    var orderedWatch := Ordered(watch, WATCH_REASONS);
    if hard != [] then Rejected(hard) else if orderedWatch != [] then Watch(orderedWatch, total) else Review(total)
  }

  /** `chooseNextAction`. */
  function ChooseNextAction(outcome: Outcome): NextAction
  {
    match outcome
    case Review(_) => ManuallyReviewIdentityAndSources
    case Rejected(reasons) =>
      if reasons == [] then ResolveCollectionIdentity
      else
        var primary := reasons[0];
        if primary in {PostContentConflict, InstructionContent, WalletConnectionSolicitation, UnlimitedApprovalSolicitation,
                       GuaranteedReturnClaim, DeceptiveLinkIndicator} then InspectQuarantinedIndicatorsOffline
        else if primary in {SocialTimeRegression, SocialFuture} then SupplyFreshSocialEvidence
        else if primary in {MarketplaceTimeInvalid, MarketplaceFuture, MarketplaceStale} then SupplyNewRecordedRankWindow
        else ResolveCollectionIdentity
    case Watch(reasons, _) =>
      if reasons == [] then ContinueRecordedObservation
      else
        match reasons[0]
        case AssessmentExpired => SupplyNewRecordedRankWindow
        case IdentityChanged => ResolveCollectionIdentity
        case MissingX => SupplyBoundedSocialEvidence
        case NoBoundX => SupplyBoundedSocialEvidence
        case StaleX => SupplyFreshSocialEvidence
        case LinksUnchecked => ReviewRecordedLinksOffline
        case _ => ContinueRecordedObservation
  }

  function BaselineMissingChecks(baseUsable: bool, hasLink: bool): seq<MissingCheck>
  {
    Ordered({AuthenticatedProvenance, IndependentXAuthors, XPostCreationTimes, CollectionContractChecks, CollectionSecurityReview,
             TokenOrderChecks} +
            (if baseUsable then {} else {BaseHeadContext}) + (if hasLink then {LinkDestinationChecks} else {}), MISSING_CHECKS)
  }

  /** The least of a limit and some times. */
  ghost function Earliest(limit: Time, times: set<Time>): (m: Time)
    ensures m == limit || m in times
    ensures m <= limit && forall t :: t in times ==> m <= t
    decreases |times|
  {
    if times == {} then limit
    else
      var t := Pick(times);
      var rest := Earliest(limit, times - {t});
      assert times == (times - {t}) + {t};
      if t < rest then t else rest
  }

  // ---------------------------------------------------------------- rows

  function SubjectOf(s: State): Subject
  {
    if s.identity.None? then Unresolved(s.candidateId) else Resolved(s.identity.value)
  }

  predicate HasIdentityConflict(s: State) { s.hard * IDENTITY_HARD_REASONS != {} }

  function RowIdOf(s: State): string
  {
    if s.identity.None? || HasIdentityConflict(s) then s.candidateId else s.identity.value.collectionId
  }

  ghost function ObservedRow(s: State, b: Bundle, facts: Facts, at: Time): Row
  {
    var comparison := RankComparison(s, facts, b.marketplace.acquiredAt);
    var score := Score(s, comparison);
    var outcome := OutcomeOf(s, score.total);
    Row(RowIdOf(s), SubjectOf(s), s.candidate.slug, Observed(s.candidate.rank), comparison, Some(score), SortedStrings(s.evidence), at,
        Earliest(b.marketplace.validUntil, s.unexpired.Values), BundleId(b),
        BaselineMissingChecks(BaseContext(b.base, at).BaseIsUsable?, LinksUnchecked in s.watch || DeceptiveLinkIndicator in s.hard),
        Ordered(s.notes, NOTES), outcome, ChooseNextAction(outcome))
  }

  ghost function ObservedRows(states: seq<State>, b: Bundle, facts: Facts, at: Time): (r: seq<Row>)
    ensures |r| == |states|
  {
    seq(|states|, i requires 0 <= i < |states| => ObservedRow(states[i], b, facts, at))
  }

  function CurrentIds(states: seq<State>): set<string>
  {
    set i | 0 <= i < |states| && states[i].identity.Some? :: states[i].identity.value.collectionId
  }

  function DepartureNotes(b: Bundle, at: Time): set<Note>
  {
    {NoSafeVerdict} + (if b.marketplace.hasNextPage then {PartialMarketplaceWindow} else {}) +
    (if b.x.RecordedPosts? && b.x.hasNextPage then {PartialXWindow} else {}) +
    (if BaseContext(b.base, at).BaseIsUsable? then {BaseContextOnly} else {})
  }

  ghost function DepartureRow(row: PriorRow, b: Bundle, at: Time): Row
  {
    var outcome := Watch([LeftWindow], 0);
    Row(row.identity.collectionId, Resolved(row.identity), row.slug, Departed(row.rank), NotObserved, None,
        SortedStrings({row.evidenceId, RankEvidenceId(b.marketplace, BundleId(b))}), at, b.marketplace.validUntil, BundleId(b),
        BaselineMissingChecks(BaseContext(b.base, at).BaseIsUsable?, false), Ordered(DepartureNotes(b, at), NOTES), outcome,
        ChooseNextAction(outcome))
  }

  ghost function DepartureRows(rows: seq<PriorRow>, current: set<string>, b: Bundle, at: Time): seq<Row>
  {
    if rows == [] then []
    else
      (if rows[0].identity.collectionId in current then [] else [DepartureRow(rows[0], b, at)]) +
      DepartureRows(rows[1..], current, b, at)
  }

  function KindOrder(o: Outcome): int { match o case Review(_) => 0 case Watch(_, _) => 1 case Rejected(_) => 2 }

  /** `compareRows`, as strictly before. */
  predicate RowLess(a: Row, b: Row)
  {
    if KindOrder(a.outcome) != KindOrder(b.outcome) then KindOrder(a.outcome) < KindOrder(b.outcome)
    else if a.outcome.Rejected? && b.outcome.Rejected? then
      var i := if a.outcome.reasons == [] then -1 else IndexOf(HARD_REASONS, a.outcome.reasons[0]);
      var j := if b.outcome.reasons == [] then -1 else IndexOf(HARD_REASONS, b.outcome.reasons[0]);
      if i != j then i < j else Less(a.rowId, b.rowId)
    else
      var p := if a.outcome.Rejected? then -1 else a.outcome.priority;
      var q := if b.outcome.Rejected? then -1 else b.outcome.priority;
      var k := if a.presence.Observed? then a.presence.rank else 9007199254740991;
      var l := if b.presence.Observed? then b.presence.rank else 9007199254740991;
      if p != q then q < p else if k != l then k < l else Less(a.rowId, b.rowId)
  }

  ghost function AllRows(b: Bundle, facts: Facts, at: Time): seq<Row>
  {
    var states := Assessed(b, facts, at);
    ObservedRows(states, b, facts, at) +
    (if MarketplaceUsable(b.marketplace, facts, at) && facts.window.Some?
     then DepartureRows(facts.window.value.rows, CurrentIds(states), b, at) else [])
  }

  // ---------------------------------------------------------------- diagnostics and summaries

  ghost function SocialDiagnostics(socials: seq<Social>, bundleId: string): seq<Diagnostic>
  {
    if socials == [] then []
    else
      var s := socials[|socials| - 1];
      var code := if s.conflict || s.post.hard != [] then HostileUnboundSocial else UnboundSocial;
      SocialDiagnostics(socials[..|socials| - 1], bundleId) +
      (if s.matched == [] then [Diagnostic(SocialDiagnosticId(bundleId, s.post, code), code)] else [])
  }

  function BaseDiagnostics(b: BaseSource, at: Time, bundleId: string): seq<Diagnostic>
  {
    match b
    case BaseAbsent => []
    case ReportedHead(chainId, acquiredAt, blockTimestamp) =>
      match BaseContext(b, at)
      case BaseIsInvalid => [Diagnostic(InvalidBaseDiagnosticId(bundleId, chainId, acquiredAt, blockTimestamp), InvalidBaseContext)]
      case BaseIsStale(_, validUntil, _) =>
        [Diagnostic(StaleBaseDiagnosticId(bundleId, acquiredAt, validUntil, blockTimestamp), StaleBaseContext)]
      case _ => []
  }

  const DIAGNOSTIC_CODES: seq<DiagnosticCode> := [UnboundSocial, HostileUnboundSocial, InvalidBaseContext, StaleBaseContext]

  predicate DiagnosticLess(a: Diagnostic, b: Diagnostic)
  {
    var i, j := IndexOf(DIAGNOSTIC_CODES, a.code), IndexOf(DIAGNOSTIC_CODES, b.code);
    if i != j then i < j else Less(a.evidenceId, b.evidenceId)
  }

  ghost function Diagnostics(b: Bundle, facts: Facts, at: Time): seq<Diagnostic>
  {
    var all := Sort(SocialDiagnostics(SocialsOf(b, facts, at), BundleId(b)) + BaseDiagnostics(b.base, at, BundleId(b)), DiagnosticLess);
    if |all| <= 10 then all else all[..10]
  }

  /** The clusters that count for some collection. */
  ghost function UsableClusters(socials: seq<Social>, at: Time): set<string>
  {
    set i | 0 <= i < |socials| && socials[i].attributable.Some? && UsablePost(socials[i], at) :: socials[i].post.cluster
  }

  ghost function SummaryFrom(x: XSource, socials: seq<Social>, at: Time): XSummary
  {
    match x
    case XAbsent => XIsAbsent
    case RecordedPosts(acquiredAt, hasNextPage, posts) =>
      XObserved(acquiredAt, Earliest(acquiredAt + SOCIAL_VALIDITY, set i | 0 <= i < |socials| :: socials[i].validUntil), |posts|,
                |UsableClusters(socials, at)|, hasNextPage)
  }

  ghost function SummaryOfX(b: Bundle, facts: Facts, at: Time): XSummary { SummaryFrom(b.x, SocialsOf(b, facts, at), at) }

  /** The assessment before its schema is consulted. */
  ghost function AssessmentOf(b: Bundle, facts: Facts, at: Time): Assessment
  {
    var bundleId, m := BundleId(b), b.marketplace;
    Assessment(
      bundleId, RefreshId(bundleId), facts.head, at, Sort(AllRows(b, facts, at), RowLess),
      MarketplaceSummary(m.acquiredAt, m.validUntil, |m.candidates|, m.hasNextPage, MarketplaceUsable(m, facts, at),
                         if facts.window.None? then None else Some(facts.window.value.evidenceId)),
      SummaryOfX(b, facts, at), BaseContext(b.base, at), Diagnostics(b, facts, at))
  }

  // ---------------------------------------------------------------- the schemas

  function CandidateIdOfIdentity(slug: string, id: Identity): string
  {
    CandidateId(slug, seq(|id.contracts|, i requires 0 <= i < |id.contracts| => Contract(BASE_CHAIN_ID, id.contracts[i])))
  }

  predicate ResolvedConflict(row: Row)
  {
    row.subject.Resolved? && row.outcome.Rejected? && exists r :: r in row.outcome.reasons && r in RESOLVED_IDENTITY_CONFLICT_REASONS
  }

  function ExpectedRowId(row: Row): string
  {
    if row.subject.Unresolved? then row.subject.candidateId
    else if ResolvedConflict(row) then CandidateIdOfIdentity(row.slug, row.subject.identity)
    else row.subject.identity.collectionId
  }

  predicate ScorecardOk(c: Scorecard)
  {
    && 0 <= c.rank <= 40 && 0 <= c.upwardMovement <= 10 && 0 <= c.socialPresence <= 10 && 0 <= c.total <= 60
    && 0 <= c.observedClusters <= 10 && 0 <= c.countedClusters <= 2
    && c.total == c.rank + c.upwardMovement + c.socialPresence
  }

  predicate OutcomeOk(o: Outcome)
  {
    match o
    case Review(priority) => 36 <= priority <= 60
    case Watch(reasons, priority) => 1 <= |reasons| <= |WATCH_REASONS| && EnumOrdered(reasons, WATCH_REASONS) && 0 <= priority <= 60
    case Rejected(reasons) => 1 <= |reasons| <= |HARD_REASONS| && EnumOrdered(reasons, HARD_REASONS)
  }

  predicate ComparisonOk(c: Comparison)
  {
    c.Compared? ==> 1 <= c.previousRank <= 10 && -9 <= c.delta <= 9
  }

  predicate RankOk(p: Presence) { if p.Observed? then 1 <= p.rank <= 10 else 1 <= p.previousRank <= 10 }

  predicate DepartureShapeOk(row: Row)
  {
    row.scorecard.None? && row.comparison.NotObserved? && row.outcome == Watch([LeftWindow], 0)
  }

  predicate ObservedShapeOk(row: Row)
    requires row.presence.Observed?
  {
    && row.scorecard.Some?
    && row.scorecard.value.rank == 4 * (11 - row.presence.rank)
    && row.scorecard.value.upwardMovement == Movement(row.comparison)
    && row.scorecard.value.socialPresence == row.scorecard.value.countedClusters * 5
    && row.scorecard.value.countedClusters <= row.scorecard.value.observedClusters
    && !row.comparison.NotObserved?
    && (row.comparison.Compared? ==> row.comparison.delta == row.comparison.previousRank - row.presence.rank)
    && !(row.outcome.Watch? && LeftWindow in row.outcome.watchReasons)
  }

  predicate PriorityOk(row: Row)
  {
    && (row.outcome.Review? ==>
          row.scorecard.Some? && row.scorecard.value.total == row.outcome.priority
          && row.scorecard.value.socialPresence != 0 && row.scorecard.value.countedClusters != 0)
    && (row.outcome.Watch? && row.presence.Observed? && AssessmentExpired !in row.outcome.watchReasons ==>
          row.scorecard.Some? && row.outcome.priority == row.scorecard.value.total)
    && (row.outcome.Watch? && AssessmentExpired in row.outcome.watchReasons ==> row.outcome.priority == 0)
  }

  predicate ExpiryOk(row: Row)
  {
    row.expiresAt <= row.assessedAt && row.presence.Observed? ==> row.outcome.Rejected? && MarketplaceStale in row.outcome.reasons
  }

  ghost predicate SubjectOk(s: Subject) { s.Resolved? ==> IdentityOk(s.identity) }

  ghost predicate ListsOk(row: Row)
  {
    && |row.evidenceIds| <= 11 && Increasing(row.evidenceIds, Less)
    && |row.missingChecks| <= |MISSING_CHECKS| && EnumOrdered(row.missingChecks, MISSING_CHECKS)
    && |row.notes| <= |NOTES| && EnumOrdered(row.notes, NOTES)
  }

  /** `AssessmentRowSchema`. */
  ghost predicate RowOk(row: Row)
  {
    && SubjectOk(row.subject) && SlugOk(row.slug) && RankOk(row.presence) && ComparisonOk(row.comparison)
    && (row.scorecard.Some? ==> ScorecardOk(row.scorecard.value)) && OutcomeOk(row.outcome)
    && CanonicalTime(row.assessedAt) && CanonicalTime(row.expiresAt)
    && row.rowId == ExpectedRowId(row)
    && ListsOk(row)
    && (row.subject.Unresolved? ==> row.outcome.Rejected?)
    && (if row.presence.Departed? then DepartureShapeOk(row) else ObservedShapeOk(row))
    && PriorityOk(row) && ExpiryOk(row)
  }

  ghost function RowIds(rows: seq<Row>): set<string> { set r | r in rows :: r.rowId }

  ghost predicate DiagnosticsOk(diagnostics: seq<Diagnostic>)
  {
    && |diagnostics| <= 10
    && (forall i, j :: 0 <= i < j < |diagnostics| ==> diagnostics[i] != diagnostics[j])
    && (forall i :: 0 < i < |diagnostics| ==> diagnostics[i - 1] == diagnostics[i] || DiagnosticLess(diagnostics[i - 1], diagnostics[i]))
  }

  ghost predicate SummariesOk(a: Assessment)
  {
    && SourceTime(a.marketplace.acquiredAt, MARKETPLACE_VALIDITY) && CanonicalTime(a.marketplace.validUntil)
    && 0 <= a.marketplace.candidateCount <= 10
    && (a.x.XObserved? ==> SourceTime(a.x.acquiredAt, SOCIAL_VALIDITY) && CanonicalTime(a.x.validUntil)
                           && 0 <= a.x.postCount <= 10 && 0 <= a.x.usableClusters <= 10)
    && (a.base.BaseIsUsable? || a.base.BaseIsStale? ==>
          SourceTime(a.base.acquiredAt, BASE_CONTEXT_VALIDITY) && CanonicalTime(a.base.validUntil) && CanonicalTime(a.base.blockTimestamp))
  }

  /** `CollectionAttentionAssessmentSchema`. */
  ghost predicate AssessmentOk(a: Assessment)
  {
    && CanonicalTime(a.evaluatedAt)
    && |a.rows| <= 20
    && (forall i :: 0 <= i < |a.rows| ==> RowOk(a.rows[i]) && a.rows[i].assessedAt == a.evaluatedAt && a.rows[i].bundleId == a.bundleId)
    && |RowIds(a.rows)| == |a.rows|
    && SummariesOk(a)
    && DiagnosticsOk(a.diagnostics)
  }

  datatype Result = Result(assessment: Assessment, nextFacts: Facts)

  /** `assessValidatedRecordedAttention`: an assessment and next facts that pass their schemas, or a refusal. */
  ghost function Assess(b: Bundle, facts: Facts, at: Time): Option<Result>
  {
    var assessment, next := AssessmentOf(b, facts, at), NextFacts(b, facts, at);
    if AssessmentOk(assessment) && FactsOk(next) && WithinCap(next) then Some(Result(assessment, next)) else None
  }
}
