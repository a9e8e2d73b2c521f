/** The rows of an assessment, told by the bundle, the retained facts and the time alone: what each row says, which
    rows there are, and in what order (packages/attention/src/assess.ts:606-767, 900-1010). */
module AttentionRowMeaning {
  import opened Order
  import opened Wrappers
  import opened Attention
  import opened AttentionIds
  import opened AttentionFacts
  import opened Assessor
  import opened AttentionAdvance
  import opened AttentionRows
  import opened AttentionTotality
  import opened AttentionMeaning
  import AttentionStored
  import AttentionTime

  // ---------------------------------------------------------------- comparison and score

  /** The n-th row of the retained window is the candidate's collection. */
  predicate Listed(b: Bundle, facts: Facts, i: nat, n: nat)
    requires i < |b.marketplace.candidates|
  {
    && Named(b.marketplace.candidates[i]) && facts.window.Some? && n < |facts.window.value.rows|
    && facts.window.value.rows[n].identity.collectionId == CollectionId(Addresses(b.marketplace.candidates[i].contracts))
  }

  /** The retained window is older than this one and had not run out when this one was acquired. */
  predicate FreshPredecessor(b: Bundle, facts: Facts)
  {
    facts.window.Some? && facts.window.value.acquiredAt < b.marketplace.acquiredAt < facts.window.value.validUntil
  }

  predicate SomeListed(b: Bundle, facts: Facts, i: nat)
    requires i < |b.marketplace.candidates|
  {
    exists n :: 0 <= n < |PriorRows(facts)| && Listed(b, facts, i, n)
  }

  function PriorRows(facts: Facts): seq<PriorRow> { if facts.window.None? then [] else facts.window.value.rows }

  predicate ComparisonIs(b: Bundle, facts: Facts, i: nat, c: Comparison)
    requires i < |b.marketplace.candidates|
  {
    && (c.Compared? <==> SomeListed(b, facts, i) && FreshPredecessor(b, facts))
    && (c == NotComparable(IdentityUnresolved) <==> !Named(b.marketplace.candidates[i]))
    && (c == NotComparable(PredecessorExpired) <==> SomeListed(b, facts, i) && facts.window.value.validUntil <= b.marketplace.acquiredAt)
    && (c == NotComparable(FirstObservation) <==>
          && Named(b.marketplace.candidates[i])
          && (SomeListed(b, facts, i) ==>
                b.marketplace.acquiredAt < facts.window.value.validUntil && b.marketplace.acquiredAt <= facts.window.value.acquiredAt))
    && (c.Compared? ==> forall n :: 0 <= n < |PriorRows(facts)| && Listed(b, facts, i, n) ==>
          c.previousRank == PriorRows(facts)[n].rank && c.delta == PriorRows(facts)[n].rank - b.marketplace.candidates[i].rank)
  }

  /** Four points a rank, two a rank climbed up to ten, and five for each of at most two clusters that count. */
  predicate ScoreIs(b: Bundle, facts: Facts, at: Time, i: nat, score: Scorecard)
    requires i < |b.marketplace.candidates|
  {
    var rank := b.marketplace.candidates[i].rank;
    && score.rank == 44 - 4 * rank
    && (forall n :: 0 <= n < |PriorRows(facts)| && Listed(b, facts, i, n) && FreshPredecessor(b, facts) ==>
          score.upwardMovement == Climb(PriorRows(facts)[n].rank - rank))
    && (!(SomeListed(b, facts, i) && FreshPredecessor(b, facts)) ==> score.upwardMovement == 0)
    && score.observedClusters == |SeenClusters(b, i)|
    && score.countedClusters == (if |CountingClusters(b, facts, at, i)| > 2 then 2 else |CountingClusters(b, facts, at, i)|)
    && score.socialPresence == 5 * score.countedClusters
    && score.total == score.rank + score.upwardMovement + score.socialPresence
  }

  function Climb(ranks: int): int { if ranks <= 0 then 0 else if ranks >= 5 then 10 else 2 * ranks }

  lemma {:induction false} FoundRow(rows: seq<PriorRow>, id: string, n: nat)
    ensures FindRow(rows, id).Some? ==> exists k :: 0 <= k < |rows| && rows[k] == FindRow(rows, id).value && rows[k].identity.collectionId == id
    ensures n < |rows| && rows[n].identity.collectionId == id ==> FindRow(rows, id).Some?
  {
    if rows != [] && rows[0].identity.collectionId != id {
      FoundRow(rows[1..], id, if n > 0 then n - 1 else 0);
      if FindRow(rows[1..], id).Some? {
        var k :| 0 <= k < |rows[1..]| && rows[1..][k] == FindRow(rows[1..], id).value && rows[1..][k].identity.collectionId == id;
        assert rows[k + 1] == rows[1..][k];
      }
    } else if rows != [] {
      assert rows[0] == FindRow(rows, id).value;
    }
  }

  lemma WindowUnique(facts: Facts, m: nat, n: nat)
    requires FactsOk(facts) && facts.window.Some? && m < |facts.window.value.rows| && n < |facts.window.value.rows|
    requires facts.window.value.rows[m].identity.collectionId == facts.window.value.rows[n].identity.collectionId
    ensures m == n
  {
    assert WindowOk(facts.window, ViewOf(facts));
    hide ViewOf, IdentityOk, SlugOk;
  }

  /** What the listing of a candidate's collection comes to. */
  lemma FoundIsListed(b: Bundle, facts: Facts, i: nat, id: string)
    requires FactsOk(facts) && i < |b.marketplace.candidates| && Named(b.marketplace.candidates[i]) && facts.window.Some?
    requires id == CollectionId(Addresses(b.marketplace.candidates[i].contracts))
    ensures FindRow(facts.window.value.rows, id).Some? <==> SomeListed(b, facts, i)
    ensures FindRow(facts.window.value.rows, id).Some? ==>
              forall n :: 0 <= n < |PriorRows(facts)| && Listed(b, facts, i, n) ==> PriorRows(facts)[n] == FindRow(facts.window.value.rows, id).value
  {
    hide FactsOk, Named, CollectionId, FindRow;
    var rows := facts.window.value.rows;
    FoundRow(rows, id, 0);
    if SomeListed(b, facts, i) {
      var n :| 0 <= n < |PriorRows(facts)| && Listed(b, facts, i, n);
      FoundRow(rows, id, n);
    }
    if FindRow(rows, id).Some? {
      var k :| 0 <= k < |rows| && rows[k] == FindRow(rows, id).value && rows[k].identity.collectionId == id;
      assert Listed(b, facts, i, k);
      forall n | 0 <= n < |PriorRows(facts)| && Listed(b, facts, i, n) ensures rows[n] == rows[k] { WindowUnique(facts, n, k); }
    }
  }

  /** A row is compared exactly where it should be, with the rank that its collection had. */
  lemma ComparisonIsExact(b: Bundle, facts: Facts, i: nat, s: State)
    requires FactsOk(facts) && i < |b.marketplace.candidates| && s.candidate == b.marketplace.candidates[i]
    requires s.identity.Some? <==> Named(s.candidate)
    requires Named(s.candidate) ==> s.identity.value.collectionId == CollectionId(Addresses(s.candidate.contracts))
    ensures ComparisonIs(b, facts, i, RankComparison(s, facts, b.marketplace.acquiredAt))
  {
    hide FactsOk, Named, CollectionId, FindRow, Listed;
    ListedIsNamed(b, facts, i);
    if s.identity.Some? && facts.window.Some? { FoundIsListed(b, facts, i, s.identity.value.collectionId); }
  }

  lemma ListedIsNamed(b: Bundle, facts: Facts, i: nat)
    requires i < |b.marketplace.candidates|
    ensures SomeListed(b, facts, i) ==> Named(b.marketplace.candidates[i]) && facts.window.Some?
  {
    hide Named, CollectionId;
  }

  lemma ScoreIsExact(b: Bundle, facts: Facts, at: Time, i: nat, s: State, c: Comparison)
    requires i < |b.marketplace.candidates| && s.candidate == b.marketplace.candidates[i] && ComparisonIs(b, facts, i, c)
    requires s.observed == SeenClusters(b, i) && s.unexpired.Keys == CountingClusters(b, facts, at, i)
    ensures ScoreIs(b, facts, at, i, Score(s, c))
  {
    hide Listed, FreshPredecessor, SeenClusters, CountingClusters;
    assert |s.unexpired| == |s.unexpired.Keys|;
  }

  // ---------------------------------------------------------------- outcome

  predicate SomeSpeaks(b: Bundle, facts: Facts, at: Time, i: nat)
    requires i < |b.marketplace.candidates|
  {
    exists r: HardReason :: SpeaksAgainst(b, facts, at, i, r)
  }

  predicate SomeCalls(b: Bundle, facts: Facts, at: Time, i: nat)
    requires i < |b.marketplace.candidates|
  {
    exists w: WatchReason :: CallsForCaution(b, facts, at, i, w)
  }

  /** Rejected for everything that speaks against the candidate; else watched for everything that calls for caution,
      or for a score under 36 where nothing else does; else put up for review. */
  ghost predicate OutcomeIs(b: Bundle, facts: Facts, at: Time, i: nat, total: int, o: Outcome)
    requires i < |b.marketplace.candidates|
  {
    match o
    case Rejected(reasons) =>
      && SomeSpeaks(b, facts, at, i) && EnumOrdered(reasons, HARD_REASONS)
      && forall r :: r in reasons <==> SpeaksAgainst(b, facts, at, i, r)
    case Watch(reasons, priority) =>
      && !SomeSpeaks(b, facts, at, i) && (SomeCalls(b, facts, at, i) || total < 36) && priority == total && EnumOrdered(reasons, WATCH_REASONS)
      && forall w :: w in reasons <==>
           CallsForCaution(b, facts, at, i, w) || (w == AttentionBelowThreshold && total < 36 && !SomeCalls(b, facts, at, i))
    case Review(priority) => !SomeSpeaks(b, facts, at, i) && !SomeCalls(b, facts, at, i) && total >= 36 && priority == total
  }

  lemma OutcomeIsExact(b: Bundle, facts: Facts, at: Time, i: nat, s: State, total: int)
    requires i < |b.marketplace.candidates|
    requires forall r :: r in s.hard <==> SpeaksAgainst(b, facts, at, i, r)
    requires forall w :: w in s.watch <==> CallsForCaution(b, facts, at, i, w)
    ensures OutcomeIs(b, facts, at, i, total, OutcomeOf(s, total))
  {
    hide Ordered, EnumOrdered, SpeaksAgainst, CallsForCaution;
    HardOrdered(s.hard);
    var watch := s.watch + if s.hard == {} && s.watch == {} && total < 36 then {AttentionBelowThreshold} else {};
    WatchOrdered(watch);
    assert s.hard == {} <==> !SomeSpeaks(b, facts, at, i) by { if s.hard != {} { var r := Pick(s.hard); } }
    assert s.watch == {} <==> !SomeCalls(b, facts, at, i) by { if s.watch != {} { var w := Pick(s.watch); } }
    if Ordered(watch, WATCH_REASONS) == [] { assert watch == {}; }
  }

  /** What to do about the first reason a candidate is rejected for. */
  function ForReason(r: HardReason): NextAction
  {
    match r
    case PostContentConflict => InspectQuarantinedIndicatorsOffline
    case InstructionContent => InspectQuarantinedIndicatorsOffline
    case WalletConnectionSolicitation => InspectQuarantinedIndicatorsOffline
    case UnlimitedApprovalSolicitation => InspectQuarantinedIndicatorsOffline
    case GuaranteedReturnClaim => InspectQuarantinedIndicatorsOffline
    case DeceptiveLinkIndicator => InspectQuarantinedIndicatorsOffline
    case SocialTimeRegression => SupplyFreshSocialEvidence
    case SocialFuture => SupplyFreshSocialEvidence
    case MarketplaceTimeInvalid => SupplyNewRecordedRankWindow
    case MarketplaceFuture => SupplyNewRecordedRankWindow
    case MarketplaceStale => SupplyNewRecordedRankWindow
    case UnsupportedChain => ResolveCollectionIdentity
    case ZeroContract => ResolveCollectionIdentity
    case DuplicateContract => ResolveCollectionIdentity
    case OverlappingContractGroups => ResolveCollectionIdentity
    case SlugRebound => ResolveCollectionIdentity
    case IdentityContinuityConflict => ResolveCollectionIdentity
    case AmbiguousSocialIdentity => ResolveCollectionIdentity
    case SocialAddressConflict => ResolveCollectionIdentity
  }

  function ForCaution(w: WatchReason): NextAction
  {
    match w
    case AssessmentExpired => SupplyNewRecordedRankWindow
    case LeftWindow => ContinueRecordedObservation
    case IdentityChanged => ResolveCollectionIdentity
    case MissingX => SupplyBoundedSocialEvidence
    case NoBoundX => SupplyBoundedSocialEvidence
    case StaleX => SupplyFreshSocialEvidence
    case LinksUnchecked => ReviewRecordedLinksOffline
    case AttentionBelowThreshold => ContinueRecordedObservation
  }

  predicate ActionIs(o: Outcome, action: NextAction)
  {
    match o
    case Review(_) => action == ManuallyReviewIdentityAndSources
    case Rejected(reasons) => reasons != [] && action == ForReason(reasons[0])
    case Watch(reasons, _) => reasons != [] && action == ForCaution(reasons[0])
  }

  lemma ActionIsExact(b: Bundle, facts: Facts, at: Time, i: nat, total: int, o: Outcome)
    requires i < |b.marketplace.candidates| && OutcomeIs(b, facts, at, i, total, o)
    ensures ActionIs(o, ChooseNextAction(o))
  {
    hide EnumOrdered, SpeaksAgainst, CallsForCaution;
    match o
    case Rejected(reasons) =>
      var r: HardReason :| SpeaksAgainst(b, facts, at, i, r);
      assert r in reasons;
    case Watch(reasons, _) =>
      if w: WatchReason :| CallsForCaution(b, facts, at, i, w) { assert w in reasons; } else { assert AttentionBelowThreshold in reasons; }
    case Review(_) =>
  }

  // ---------------------------------------------------------------- the rest of a row

  /** Something is wrong with what the candidate is. */
  predicate IdentityInDoubt(b: Bundle, facts: Facts, at: Time, i: nat)
    requires i < |b.marketplace.candidates|
  {
    || SpeaksAgainst(b, facts, at, i, UnsupportedChain) || SpeaksAgainst(b, facts, at, i, ZeroContract) || SpeaksAgainst(b, facts, at, i, DuplicateContract)
    || SpeaksAgainst(b, facts, at, i, OverlappingContractGroups) || SpeaksAgainst(b, facts, at, i, SlugRebound)
    || SpeaksAgainst(b, facts, at, i, IdentityContinuityConflict)
  }

  /** Under what identifier, and about what, the row is. */
  predicate HeadingIs(b: Bundle, facts: Facts, at: Time, i: nat, row: Row)
    requires i < |b.marketplace.candidates|
  {
    var c := b.marketplace.candidates[i];
    && row.rowId == (if Named(c) && !IdentityInDoubt(b, facts, at, i) then CollectionId(Addresses(c.contracts)) else CandidateId(c.slug, c.contracts))
    && row.subject == (if Named(c) then Resolved(Identity(CollectionId(Addresses(c.contracts)), Addresses(c.contracts)))
                       else Unresolved(CandidateId(c.slug, c.contracts)))
    && row.slug == c.slug && row.presence == Observed(c.rank) && row.assessedAt == at && row.bundleId == BundleId(b)
  }

  ghost predicate ChecksAre(missing: seq<MissingCheck>, base: BaseSource, at: Time, linked: bool)
  {
    && EnumOrdered(missing, MISSING_CHECKS)
    && forall m :: m in missing <==>
         match m
         case BaseHeadContext => !BaseIsFresh(base, at)
         case LinkDestinationChecks => linked
         case _ => true
  }

  /** The row lasts as long as its window and every cluster that counts. */
  predicate LastsUntil(b: Bundle, facts: Facts, at: Time, i: nat, t: Time)
    requires i < |b.marketplace.candidates|
  {
    && t <= b.marketplace.validUntil && (t == b.marketplace.validUntil || EndsCounting(b, facts, at, i, t))
    && forall k :: 0 <= k < |AttentionStored.PostsOf(b.x)| && Counts(b, facts, at, i, k) && b.x.RecordedPosts? ==>
         t <= AttentionTime.ClusterExpiry(AttentionStored.PostsOf(b.x)[k], facts, b.x.acquiredAt)
  }

  /** Everything that an observed row says. */
  ghost predicate RowIs(b: Bundle, facts: Facts, at: Time, i: nat, row: Row)
    requires i < |b.marketplace.candidates|
  {
    && HeadingIs(b, facts, at, i, row) && ComparisonIs(b, facts, i, row.comparison)
    && row.scorecard.Some? && ScoreIs(b, facts, at, i, row.scorecard.value)
    && OutcomeIs(b, facts, at, i, row.scorecard.value.total, row.outcome) && ActionIs(row.outcome, row.nextAction)
    && LastsUntil(b, facts, at, i, row.expiresAt)
    && ChecksAre(row.missingChecks, b.base, at,
                 CallsForCaution(b, facts, at, i, LinksUnchecked) || SpeaksAgainst(b, facts, at, i, DeceptiveLinkIndicator))
    && EnumOrdered(row.notes, NOTES) && (forall n :: n in row.notes <==> IsNoted(b, facts, at, i, n))
    && Increasing(row.evidenceIds, Less) && (forall e :: e in row.evidenceIds <==> IsEvidence(b, facts, at, i, e))
  }

  ghost predicate IsEvidence(b: Bundle, facts: Facts, at: Time, i: nat, e: string)
    requires i < |b.marketplace.candidates|
  {
    || e == RankEvidenceId(b.marketplace, BundleId(b))
    || exists k :: 0 <= k < |AttentionStored.PostsOf(b.x)| && Touching(b, i, k) && k < |SocialsOf(b, facts, at)|
                   && e == SocialsOf(b, facts, at)[k].evidenceId
  }

  lemma DoubtIs(b: Bundle, facts: Facts, at: Time, i: nat, s: State)
    requires i < |b.marketplace.candidates| && forall r :: r in s.hard <==> SpeaksAgainst(b, facts, at, i, r)
    ensures HasIdentityConflict(s) <==> IdentityInDoubt(b, facts, at, i)
  {
    hide SpeaksAgainst;
    if r :| r in s.hard * IDENTITY_HARD_REASONS { assert IdentityInDoubt(b, facts, at, i); }
    if IdentityInDoubt(b, facts, at, i) {
      var r :| r in IDENTITY_HARD_REASONS && SpeaksAgainst(b, facts, at, i, r);
      assert r in s.hard * IDENTITY_HARD_REASONS;
    }
  }

  lemma HeadingIsExact(b: Bundle, facts: Facts, at: Time, i: nat, s: State, row: Row)
    requires i < |b.marketplace.candidates| && forall r :: r in s.hard <==> SpeaksAgainst(b, facts, at, i, r)
    requires var c := b.marketplace.candidates[i];
             && s.candidate == c && s.candidateId == CandidateId(c.slug, c.contracts) && s.identity == IdentityOf(c)
    requires row.rowId == RowIdOf(s) && row.subject == SubjectOf(s) && row.slug == s.candidate.slug && row.presence == Observed(s.candidate.rank)
    requires row.assessedAt == at && row.bundleId == BundleId(b)
    ensures HeadingIs(b, facts, at, i, row)
  {
    hide SpeaksAgainst, IdentityReasons, Named, CollectionId, CandidateId, BundleId, HasIdentityConflict, IdentityInDoubt;
    NamedIs(s.candidate);
    DoubtIs(b, facts, at, i, s);
  }

  lemma {:induction false} EveryCheck(m: MissingCheck)
    ensures m in MISSING_CHECKS
  {
    match m
    case AuthenticatedProvenance => assert MISSING_CHECKS[0] == m;
    case IndependentXAuthors => assert MISSING_CHECKS[1] == m;
    case XPostCreationTimes => assert MISSING_CHECKS[2] == m;
    case CollectionContractChecks => assert MISSING_CHECKS[3] == m;
    case CollectionSecurityReview => assert MISSING_CHECKS[4] == m;
    case TokenOrderChecks => assert MISSING_CHECKS[5] == m;
    case BaseHeadContext => assert MISSING_CHECKS[6] == m;
    case LinkDestinationChecks => assert MISSING_CHECKS[7] == m;
  }

  lemma EveryNote(n: Note)
    ensures n in NOTES
  {
    match n
    case PartialMarketplaceWindow => assert NOTES[0] == n;
    case PartialXWindow => assert NOTES[1] == n;
    case CopiesCapped => assert NOTES[2] == n;
    case AuthorsUnknown => assert NOTES[3] == n;
    case BaseContextOnly => assert NOTES[4] == n;
    case BaseContextStale => assert NOTES[5] == n;
    case SlugChanged => assert NOTES[6] == n;
    case NoSafeVerdict => assert NOTES[7] == n;
  }

  lemma ChecksOrdered(checks: set<MissingCheck>)
    ensures var r := Ordered(checks, MISSING_CHECKS); EnumOrdered(r, MISSING_CHECKS) && forall m :: m in r <==> m in checks
  {
    hide Ordered, EnumOrdered;
    OrderedMembers(checks, MISSING_CHECKS);
    OrderedIsOrdered(checks, MISSING_CHECKS);
    forall m ensures m in Ordered(checks, MISSING_CHECKS) <==> m in checks { EveryCheck(m); }
  }

  lemma ChecksAreExact(base: BaseSource, at: Time, linked: bool)
    ensures ChecksAre(BaselineMissingChecks(BaseContext(base, at).BaseIsUsable?, linked), base, at, linked)
  {
    hide Ordered, EnumOrdered, BaseContext, BaseIsFresh;
    BaseIs(base, at);
    var usable := BaseContext(base, at).BaseIsUsable?;
    var values := {AuthenticatedProvenance, IndependentXAuthors, XPostCreationTimes, CollectionContractChecks, CollectionSecurityReview,
             TokenOrderChecks} +
            (if usable then {} else {BaseHeadContext}) + (if linked then {LinkDestinationChecks} else {});
    ChecksOrdered(values);
    var missing := BaselineMissingChecks(usable, linked);
    assert missing == Ordered(values, MISSING_CHECKS);
    forall m
      ensures m in missing <==>
                match m
                case BaseHeadContext => !BaseIsFresh(base, at)
                case LinkDestinationChecks => linked
                case _ => true
    {
      match m
      case BaseHeadContext => assert m in values <==> !usable;
      case LinkDestinationChecks => assert m in values <==> linked;
      case _ => assert m in values;
    }
  }

  lemma NotesOrdered(notes: set<Note>)
    ensures var r := Ordered(notes, NOTES); EnumOrdered(r, NOTES) && forall n :: n in r <==> n in notes
  {
    hide Ordered, EnumOrdered;
    OrderedMembers(notes, NOTES);
    OrderedIsOrdered(notes, NOTES);
    forall n ensures n in Ordered(notes, NOTES) <==> n in notes { EveryNote(n); }
  }

  lemma LastsExactly(b: Bundle, facts: Facts, at: Time, i: nat, times: set<Time>)
    requires i < |b.marketplace.candidates| && Expiries(b, facts, at, i, times)
    ensures LastsUntil(b, facts, at, i, Earliest(b.marketplace.validUntil, times))
  {
    hide Counts, EndsCounting, AttentionTime.ClusterExpiry;
    var t := Earliest(b.marketplace.validUntil, times);
    forall k | 0 <= k < |AttentionStored.PostsOf(b.x)| && Counts(b, facts, at, i, k) && b.x.RecordedPosts?
      ensures t <= AttentionTime.ClusterExpiry(AttentionStored.PostsOf(b.x)[k], facts, b.x.acquiredAt)
    {
      assert RunsOutIn(b, facts, k, times);
      var v :| v in times && IsExpiry(b, facts, k, v);
    }
  }

  /** Part by part, the row of a state. */
  lemma RowParts(s: State, b: Bundle, facts: Facts, at: Time)
    ensures var row := ObservedRow(s, b, facts, at);
            && row.rowId == RowIdOf(s) && row.subject == SubjectOf(s) && row.slug == s.candidate.slug && row.presence == Observed(s.candidate.rank)
            && row.comparison == RankComparison(s, facts, b.marketplace.acquiredAt) && row.scorecard == Some(Score(s, row.comparison))
            && row.evidenceIds == SortedStrings(s.evidence) && row.assessedAt == at && row.bundleId == BundleId(b)
            && row.expiresAt == Earliest(b.marketplace.validUntil, s.unexpired.Values)
            && row.missingChecks == BaselineMissingChecks(BaseContext(b.base, at).BaseIsUsable?, LinksUnchecked in s.watch || DeceptiveLinkIndicator in s.hard)
            && row.notes == Ordered(s.notes, NOTES) && row.outcome == OutcomeOf(s, row.scorecard.value.total)
            && row.nextAction == ChooseNextAction(row.outcome)
  {
    hide RankComparison, Score, OutcomeOf, ChooseNextAction, BaselineMissingChecks, BaseContext, Ordered, BundleId, RowIdOf, SubjectOf, SortedStrings;
  }

  /** All that the state of a candidate says, in terms of the inputs. */
  ghost predicate StateIs(b: Bundle, facts: Facts, at: Time, i: nat, s: State)
    requires i < |b.marketplace.candidates|
  {
    var c := b.marketplace.candidates[i];
    && s.candidate == c && s.candidateId == CandidateId(c.slug, c.contracts) && s.identity == IdentityOf(c)
    && (forall r :: r in s.hard <==> SpeaksAgainst(b, facts, at, i, r))
    && (forall w :: w in s.watch <==> CallsForCaution(b, facts, at, i, w))
    && (forall n :: n in s.notes <==> IsNoted(b, facts, at, i, n))
    && (forall e :: e in s.evidence <==> IsEvidence(b, facts, at, i, e))
    && s.observed == SeenClusters(b, i) && s.unexpired.Keys == CountingClusters(b, facts, at, i) && Expiries(b, facts, at, i, s.unexpired.Values)
  }

  lemma AssessedIs(b: Bundle, facts: Facts, at: Time, i: nat)
    requires FactsOk(facts) && i < |b.marketplace.candidates|
    ensures StateIs(b, facts, at, i, Assessed(b, facts, at)[i])
  {
    hide FactsOk, Assessed, Absorbed, SpeaksAgainst, CallsForCaution, IsNoted, IsEvidence, SeenClusters, CountingClusters, TouchingPosts, SomeTouching,
      Expiries, CandidateId, IdentityOf, IdentityReasons, CurrentConflicts, MarketplaceReasons, Continued, Posts;
    var s := Assessed(b, facts, at)[i];
    AssessedKeeps(b, facts, at, i);
    forall r ensures r in s.hard <==> SpeaksAgainst(b, facts, at, i, r) { ReasonsAreExact(b, facts, at, i, r); }
    forall w ensures w in s.watch <==> CallsForCaution(b, facts, at, i, w) { CautionsAreExact(b, facts, at, i, w); }
    forall n ensures n in s.notes <==> IsNoted(b, facts, at, i, n) { NotesAreExact(b, facts, at, i, n); }
    forall e ensures e in s.evidence <==> IsEvidence(b, facts, at, i, e) { EvidenceFor(b, facts, at, i, e); }
    ClustersAreExact(b, facts, at, i);
    ExpiriesAreExact(b, facts, at, i);
  }

  lemma EvidenceFor(b: Bundle, facts: Facts, at: Time, i: nat, e: string)
    requires FactsOk(facts) && i < |b.marketplace.candidates|
    ensures e in Assessed(b, facts, at)[i].evidence <==> IsEvidence(b, facts, at, i, e)
  {
    hide FactsOk, Assessed, SocialsOf, Touching, RankEvidenceId, BundleId;
    EvidenceIsExact(b, facts, at, i, e);
  }

  lemma IdentityNamed(s: State)
    requires s.identity == IdentityOf(s.candidate)
    ensures s.identity.Some? <==> Named(s.candidate)
    ensures Named(s.candidate) ==> s.identity.value.collectionId == CollectionId(Addresses(s.candidate.contracts))
  {
    NamedIs(s.candidate);
    hide Named, IdentityReasons, CollectionId;
  }

  /** The row of every candidate says exactly what the bundle, the facts and the time say about it. */
  lemma RowIsExact(b: Bundle, facts: Facts, at: Time, i: nat)
    requires FactsOk(facts) && i < |b.marketplace.candidates|
    ensures RowIs(b, facts, at, i, ObservedRow(Assessed(b, facts, at)[i], b, facts, at))
  {
    hide FactsOk, Assessed, ObservedRow, SpeaksAgainst, CallsForCaution, IsNoted, IsEvidence, SeenClusters, CountingClusters, Expiries, CandidateId,
      IdentityOf, IdentityReasons, Named, ScoreIs, ComparisonIs, OutcomeIs, ActionIs, HeadingIs, LastsUntil, ChecksAre, EnumOrdered, Ordered, CollectionId,
      RankComparison, Score, OutcomeOf, ChooseNextAction, BaselineMissingChecks, BaseContext, BundleId, RowIdOf, SubjectOf, Less;
    var s, row := Assessed(b, facts, at)[i], ObservedRow(Assessed(b, facts, at)[i], b, facts, at);
    AssessedIs(b, facts, at, i);
    RowParts(s, b, facts, at);
    IdentityNamed(s);
    HeadingIsExact(b, facts, at, i, s, row);
    ComparisonIsExact(b, facts, i, s);
    ScoreIsExact(b, facts, at, i, s, row.comparison);
    OutcomeIsExact(b, facts, at, i, s, row.scorecard.value.total);
    ActionIsExact(b, facts, at, i, row.scorecard.value.total, row.outcome);
    LastsExactly(b, facts, at, i, s.unexpired.Values);
    ChecksAreExact(b.base, at, LinksUnchecked in s.watch || DeceptiveLinkIndicator in s.hard);
    NotesOrdered(s.notes);
  }
}
