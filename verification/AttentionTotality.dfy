/** When an assessment passes its own schemas, told by the states behind its rows. */
module AttentionTotality {
  import opened Order
  import opened Wrappers
  import opened Attention
  import opened AttentionIds
  import opened AttentionFacts
  import opened Assessor
  import opened AttentionAdvance
  import opened AttentionRows

  /** Identity reasons that a resolved candidate cannot have of its own. */
  const CANDIDATE_ONLY_REASONS: set<HardReason> := {UnsupportedChain, ZeroContract, DuplicateContract}

  /** The row of this state passes its schema. */
  predicate Admissible(s: State)
  {
    && (s.identity.Some? && s.hard * CANDIDATE_ONLY_REASONS != {} ==> s.hard * RESOLVED_IDENTITY_CONFLICT_REASONS != {})
    && (s.hard == {} ==> s.watch * {LeftWindow, AssessmentExpired} == {})
  }

  // ---------------------------------------------------------------- vocabularies are complete

  lemma EveryHardReason(r: HardReason)
    ensures r in HARD_REASONS
  {
    match r
    case PostContentConflict => assert HARD_REASONS[0] == r;
    case SocialTimeRegression => assert HARD_REASONS[1] == r;
    case UnsupportedChain => assert HARD_REASONS[2] == r;
    case ZeroContract => assert HARD_REASONS[3] == r;
    case DuplicateContract => assert HARD_REASONS[4] == r;
    case OverlappingContractGroups => assert HARD_REASONS[5] == r;
    case SlugRebound => assert HARD_REASONS[6] == r;
    case IdentityContinuityConflict => assert HARD_REASONS[7] == r;
    case AmbiguousSocialIdentity => assert HARD_REASONS[8] == r;
    case SocialAddressConflict => assert HARD_REASONS[9] == r;
    case InstructionContent => assert HARD_REASONS[10] == r;
    case WalletConnectionSolicitation => assert HARD_REASONS[11] == r;
    case UnlimitedApprovalSolicitation => assert HARD_REASONS[12] == r;
    case GuaranteedReturnClaim => assert HARD_REASONS[13] == r;
    case DeceptiveLinkIndicator => assert HARD_REASONS[14] == r;
    case MarketplaceTimeInvalid => assert HARD_REASONS[15] == r;
    case MarketplaceFuture => assert HARD_REASONS[16] == r;
    case MarketplaceStale => assert HARD_REASONS[17] == r;
    case SocialFuture => assert HARD_REASONS[18] == r;
  }

  lemma EveryWatchReason(r: WatchReason)
    ensures r in WATCH_REASONS
  {
    match r
    case AssessmentExpired => assert WATCH_REASONS[0] == r;
    case LeftWindow => assert WATCH_REASONS[1] == r;
    case IdentityChanged => assert WATCH_REASONS[2] == r;
    case MissingX => assert WATCH_REASONS[3] == r;
    case NoBoundX => assert WATCH_REASONS[4] == r;
    case StaleX => assert WATCH_REASONS[5] == r;
    case LinksUnchecked => assert WATCH_REASONS[6] == r;
    case AttentionBelowThreshold => assert WATCH_REASONS[7] == r;
  }

  lemma HardOrdered(values: set<HardReason>)
    ensures var r := Ordered(values, HARD_REASONS);
            && (forall x :: x in r <==> x in values) && (r == [] <==> values == {}) && |r| <= |HARD_REASONS| && EnumOrdered(r, HARD_REASONS)
  {
    hide Ordered, EnumOrdered;
    OrderedMembers(values, HARD_REASONS);
    OrderedIsOrdered(values, HARD_REASONS);
    forall x ensures x in Ordered(values, HARD_REASONS) <==> x in values { EveryHardReason(x); }
    EmptyAlike(Ordered(values, HARD_REASONS), values);
  }

  lemma WatchOrdered(values: set<WatchReason>)
    ensures var r := Ordered(values, WATCH_REASONS);
            && (forall x :: x in r <==> x in values) && (r == [] <==> values == {}) && |r| <= |WATCH_REASONS| && EnumOrdered(r, WATCH_REASONS)
  {
    hide Ordered, EnumOrdered;
    OrderedMembers(values, WATCH_REASONS);
    OrderedIsOrdered(values, WATCH_REASONS);
    forall x ensures x in Ordered(values, WATCH_REASONS) <==> x in values { EveryWatchReason(x); }
    EmptyAlike(Ordered(values, WATCH_REASONS), values);
  }

  lemma EmptyAlike<T>(xs: seq<T>, s: set<T>)
    requires forall x :: x in xs <==> x in s
    ensures xs == [] <==> s == {}
  {
    if xs != [] { assert xs[0] in s; }
  }

  // ---------------------------------------------------------------- what the social pass leaves in a state

  ghost predicate Bounded(s: State, at: Time, n: nat)
  {
    && s.unexpired.Keys <= s.observed && |s.observed| <= n && |s.evidence| <= n + 1 && |s.matched| <= n
    && forall c :: c in s.unexpired ==> s.unexpired[c] > at && CanonicalTime(s.unexpired[c])
  }

  lemma {:induction false} AbsorbAllBounded(s: State, socials: seq<Social>, at: Time)
    requires s.identity.Some? && s.unexpired == map[] && s.observed == {} && |s.evidence| <= 1 && s.matched == []
    requires forall i :: 0 <= i < |socials| ==> CanonicalTime(socials[i].validUntil)
    ensures Bounded(AbsorbAll(s, socials, at), at, |socials|)
  {
    if socials == [] {
    } else {
      var front, last := socials[..|socials| - 1], socials[|socials| - 1];
      AbsorbAllBounded(s, front, at);
      hide SocialReasons;
      AbsorbBounded(AbsorbAll(s, front, at), last, at, |front|);
    }
  }

  lemma OneMore<T>(s: set<T>, x: T)
    ensures |s + {x}| <= |s| + 1
  {
    if x in s { assert s + {x} == s; }
  }

  lemma UsableUnexpired(social: Social, at: Time)
    requires UsablePost(social, at)
    ensures social.validUntil > at
  {}

  lemma AbsorbCounts(s: State, social: Social, at: Time, n: nat)
    requires s.identity.Some? && s.unexpired.Keys <= s.observed && |s.observed| <= n && |s.evidence| <= n + 1 && |s.matched| <= n
    ensures var t := Absorb(s, social, at);
            t.unexpired.Keys <= t.observed && |t.observed| <= n + 1 && |t.evidence| <= n + 2 && |t.matched| <= n + 1
  {
    hide SocialReasons, UsablePost;
    OneMore(s.observed, social.post.cluster);
    OneMore(s.evidence, social.evidenceId);
  }

  lemma AbsorbTimes(s: State, social: Social, at: Time)
    requires s.identity.Some? && CanonicalTime(social.validUntil)
    requires forall c :: c in s.unexpired ==> s.unexpired[c] > at && CanonicalTime(s.unexpired[c])
    ensures var t := Absorb(s, social, at); forall c :: c in t.unexpired ==> t.unexpired[c] > at && CanonicalTime(t.unexpired[c])
  {
    if UsablePost(social, at) { UsableUnexpired(social, at); }
    hide SocialReasons, UsablePost, CanonicalTime;
  }

  lemma AbsorbBounded(s: State, social: Social, at: Time, n: nat)
    requires s.identity.Some? && Bounded(s, at, n) && CanonicalTime(social.validUntil)
    ensures Bounded(Absorb(s, social, at), at, n + 1)
  {
    hide Absorb, CanonicalTime;
    AbsorbCounts(s, social, at, n);
    AbsorbTimes(s, social, at);
  }

  /** Every clean row has a fresh bound post behind it. */
  predicate Attended(s: State) { s.hard == {} && s.watch == {} ==> s.unexpired.Keys != {} }

  lemma SocialBounded(states: seq<State>, i: nat, x: XSource, socials: seq<Social>, at: Time)
    requires i < |states| && (x.RecordedPosts? ==> |socials| <= 10) && (x.XAbsent? ==> socials == [])
    requires states[i].unexpired == map[] && states[i].observed == {} && |states[i].evidence| <= 1 && states[i].matched == []
    requires states[i].identity.None? ==> states[i].hard != {}
    requires forall i :: 0 <= i < |socials| ==> CanonicalTime(socials[i].validUntil)
    ensures Bounded(WithSocial(states, i, x, socials, at), at, 10) && Attended(WithSocial(states, i, x, socials, at))
  {
    hide IsCurrent, Remark, Bounded, Attended;
    UnabsorbedBounded(states[i], at);
    if states[i].identity.Some? && !x.XAbsent? {
      AbsorbAllBounded(states[i], socials, at);
      hide AbsorbAll;
      var before := if IsCurrent(states, i) then AbsorbAll(states[i], socials, at) else states[i];
      if x.RecordedPosts? && IsCurrent(states, i) { BoundedWider(before, at, |socials|); }
      RemarkAttended(before);
      RemarkBounded(before, at);
    } else if x.XAbsent? {
      MissingAttended(states[i]);
    } else {
      HardAttended(states[i]);
    }
  }

  lemma UnabsorbedBounded(s: State, at: Time)
    requires s.unexpired == map[] && s.observed == {} && |s.evidence| <= 1 && s.matched == []
    ensures Bounded(s, at, 10) && Bounded(s.(watch := s.watch + {MissingX}), at, 10)
  {}

  lemma BoundedWider(s: State, at: Time, n: nat)
    requires Bounded(s, at, n) && n <= 10
    ensures Bounded(s, at, 10)
  {}

  lemma RemarkBounded(s: State, at: Time)
    requires s.identity.Some? && Bounded(s, at, 10)
    ensures Bounded(Remark(s), at, 10)
  {
    hide CanonicalTime, Posts;
  }

  lemma MissingAttended(s: State)
    ensures Attended(s.(watch := s.watch + {MissingX}))
  {
    assert MissingX in s.(watch := s.watch + {MissingX}).watch;
  }

  lemma HardAttended(s: State)
    requires s.hard != {}
    ensures Attended(s)
  {}

  lemma RemarkAttended(s: State)
    requires s.identity.Some?
    ensures Attended(Remark(s))
    ensures s.matched == [] ==> NoBoundX in Remark(s).watch
  {
    var r := Remark(s);
    if s.matched == [] { assert NoBoundX in r.watch; }
    else if s.unexpired.Keys == {} && SocialFuture !in s.hard { assert StaleX in r.watch; }
  }

  /** All that a row's schema needs of the state behind it. */
  ghost predicate WellState(s: State, b: Bundle, facts: Facts, at: Time)
  {
    && CandidateOk(s.candidate) && s.candidateId == CandidateId(s.candidate.slug, s.candidate.contracts)
    && s.identity == IdentityOf(s.candidate) && IdentityReasons(s.candidate) <= s.hard
    && MarketplaceReasons(b.marketplace, facts, at) <= s.hard
    && Bounded(s, at, 10) && Attended(s)
  }

  lemma CleanBeforeSocial(b: Bundle, facts: Facts, at: Time, i: nat)
    requires i < |b.marketplace.candidates|
    ensures var s := Prepared(b, facts, at)[i];
            s.unexpired == map[] && s.observed == {} && |s.evidence| == 1 && s.matched == []
  {
    PreparedAt(b, facts, at, i);
    hide Prepared, CurrentConflicts, MarketplaceReasons, Continued, SlugMoved, Renamed, IdentityReasons, IdentityOf;
  }

  lemma UnresolvedRejected(b: Bundle, facts: Facts, at: Time, i: nat)
    requires i < |b.marketplace.candidates|
    ensures Prepared(b, facts, at)[i].identity.None? ==> Prepared(b, facts, at)[i].hard != {}
  {
    PreparedAt(b, facts, at, i);
    hide Prepared, CurrentConflicts, MarketplaceReasons, Continued, SlugMoved, Renamed, IdentityReasons;
  }

  lemma SocialTimes(b: Bundle, facts: Facts, at: Time, socials: seq<Social>)
    requires BundleOk(b) && FactsOk(facts) && socials == SocialsOf(b, facts, at)
    ensures b.x.RecordedPosts? ==> |socials| <= 10
    ensures b.x.XAbsent? ==> socials == []
    ensures forall i :: 0 <= i < |socials| ==> CanonicalTime(socials[i].validUntil)
  {
    assert FirstSeenOk(ViewOf(facts), facts.latestX);
    hide Prepared, ViewOf, BundleId, HasUnknown, MatchedIds, Conflicting, FactsOk, MarketplaceOk, BaseOk, PostOk, SocialEvidenceId;
  }

  lemma PagesKeep(s: State, x: XSource, base: BaseSummary, at: Time)
    ensures Bounded(s, at, 10) ==> Bounded(WithPages(s, x, base), at, 10)
    ensures Attended(s) ==> Attended(WithPages(s, x, base))
  {}

  lemma AssessedWell(b: Bundle, facts: Facts, at: Time, i: nat)
    requires BundleOk(b) && FactsOk(facts) && i < |b.marketplace.candidates|
    ensures WellState(Assessed(b, facts, at)[i], b, facts, at)
  {
    assert CandidateOk(b.marketplace.candidates[i]);
    hide Assessed, Prepared, SocialsOf, BundleOk, FactsOk, CandidateOk, IdentityOf, IdentityReasons, MarketplaceReasons, CandidateId,
      CurrentConflicts, Continued, WithSocial, WithPages, Bounded, Attended;
    AssessedKeeps(b, facts, at, i);
    AssessedAt(b, facts, at, i);
    CleanBeforeSocial(b, facts, at, i);
    UnresolvedRejected(b, facts, at, i);
    var socials := SocialsOf(b, facts, at);
    SocialTimes(b, facts, at, socials);
    SocialBounded(Prepared(b, facts, at), i, b.x, socials, at);
    PagesKeep(WithSocial(Prepared(b, facts, at), i, b.x, socials, at), b.x, BaseContext(b.base, at), at);
  }

  // ---------------------------------------------------------------- one observed row

  lemma SubsetSize<T>(a: set<T>, b: set<T>)
    requires a <= b
    ensures |a| <= |b|
  {
    assert b == a + (b - a);
  }

  lemma {:induction false} FindRowFinds(rows: seq<PriorRow>, id: string)
    ensures FindRow(rows, id).Some? ==> FindRow(rows, id).value in rows
  {
    if rows == [] {
    } else {
      FindRowFinds(rows[1..], id);
    }
  }

  lemma ComparisonFits(s: State, facts: Facts, acquiredAt: Time)
    requires FactsOk(facts) && CandidateOk(s.candidate)
    ensures var c := RankComparison(s, facts, acquiredAt);
            ComparisonOk(c) && !c.NotObserved? && (c.Compared? ==> c.delta == c.previousRank - s.candidate.rank)
  {
    assert WindowOk(facts.window, ViewOf(facts));
    if facts.window.Some? && s.identity.Some? { FindRowFinds(facts.window.value.rows, s.identity.value.collectionId); }
    hide FactsOk, ViewOf, IdentityOk, SlugOk;
  }

  lemma ScoreFits(s: State, c: Comparison, at: Time)
    requires CandidateOk(s.candidate) && Bounded(s, at, 10)
    ensures ScorecardOk(Score(s, c)) && Score(s, c).countedClusters <= Score(s, c).observedClusters && Score(s, c).total >= 4
    ensures s.unexpired.Keys != {} ==> Score(s, c).countedClusters > 0
  {
    SubsetSize(s.unexpired.Keys, s.observed);
    assert |s.unexpired| == |s.unexpired.Keys|;
  }

  /** The outcome of a state, spelt out. */
  lemma OutcomeMeans(s: State, total: int)
    ensures var o := OutcomeOf(s, total);
            && (o.Rejected? <==> s.hard != {})
            && (o.Rejected? ==> forall r :: r in o.reasons <==> r in s.hard)
            && (o.Watch? ==> o.priority == total && forall r :: r != AttentionBelowThreshold ==> (r in o.watchReasons <==> r in s.watch))
            && (o.Review? <==> s.hard == {} && s.watch == {} && total >= 36)
            && (o.Review? ==> o.priority == total)
            && (0 <= total <= 60 ==> OutcomeOk(o))
  {
    hide Ordered, EnumOrdered;
    HardOrdered(s.hard);
    var watch := s.watch + if s.hard == {} && s.watch == {} && total < 36 then {AttentionBelowThreshold} else {};
    WatchOrdered(watch);
    if Ordered(watch, WATCH_REASONS) == [] { assert watch == {}; }
  }

  lemma ContractsOfIdentity(c: Candidate)
    requires IdentityOf(c).Some?
    ensures CandidateIdOfIdentity(c.slug, IdentityOf(c).value) == CandidateId(c.slug, c.contracts)
  {
    var id := IdentityOf(c).value;
    var rebuilt := seq(|id.contracts|, i requires 0 <= i < |id.contracts| => Contract(BASE_CHAIN_ID, id.contracts[i]));
    assert rebuilt == c.contracts;
  }

  lemma IdentityReasonSplit(hard: set<HardReason>)
    ensures hard * IDENTITY_HARD_REASONS != {} <==>
            hard * CANDIDATE_ONLY_REASONS != {} || hard * RESOLVED_IDENTITY_CONFLICT_REASONS != {}
  {
    assert hard * IDENTITY_HARD_REASONS == hard * CANDIDATE_ONLY_REASONS + hard * RESOLVED_IDENTITY_CONFLICT_REASONS;
  }

  /** The row identifier is the expected one exactly when candidate-only reasons come with a resolved conflict. */
  lemma RowIdFits(s: State, row: Row, total: int)
    requires s.candidateId == CandidateId(s.candidate.slug, s.candidate.contracts) && s.identity == IdentityOf(s.candidate)
    requires row.rowId == RowIdOf(s) && row.subject == SubjectOf(s) && row.slug == s.candidate.slug && row.outcome == OutcomeOf(s, total)
    ensures row.rowId == ExpectedRowId(row) <==>
            (s.identity.Some? && s.hard * CANDIDATE_ONLY_REASONS != {} ==> s.hard * RESOLVED_IDENTITY_CONFLICT_REASONS != {})
  {
    hide CandidateId, CollectionId, IdentityReasons, Ordered;
    if s.identity.Some? {
      var c := s.candidate;
      OutcomeMeans(s, total);
      ContractsOfIdentity(c);
      CandidateIsNotCollection(c.slug, c.contracts, Addresses(c.contracts));
      IdentityReasonSplit(s.hard);
      ConflictShown(s, row);
    }
  }

  lemma ConflictShown(s: State, row: Row)
    requires row.subject.Resolved? && (row.outcome.Rejected? <==> s.hard != {})
    requires row.outcome.Rejected? ==> forall r :: r in row.outcome.reasons <==> r in s.hard
    ensures ResolvedConflict(row) <==> s.hard * RESOLVED_IDENTITY_CONFLICT_REASONS != {}
  {
    if r :| r in s.hard * RESOLVED_IDENTITY_CONFLICT_REASONS {
      assert r in row.outcome.reasons && r in RESOLVED_IDENTITY_CONFLICT_REASONS;
    }
    if ResolvedConflict(row) {
      var r :| r in row.outcome.reasons && r in RESOLVED_IDENTITY_CONFLICT_REASONS;
      assert r in s.hard * RESOLVED_IDENTITY_CONFLICT_REASONS;
    }
  }

  lemma ListsFrom(row: Row, evidence: set<string>, notes: set<Note>, baseUsable: bool, hasLink: bool)
    requires row.evidenceIds == SortedStrings(evidence) && |evidence| <= 11 && row.notes == Ordered(notes, NOTES)
    requires row.missingChecks == BaselineMissingChecks(baseUsable, hasLink)
    ensures ListsOk(row)
  {
    hide Ordered, EnumOrdered, BaselineMissingChecks, Less;
    OrderedMembers(notes, NOTES);
    OrderedIsOrdered(notes, NOTES);
    ChecksFit(baseUsable, hasLink);
  }

  lemma ListsFit(s: State, b: Bundle, facts: Facts, at: Time)
    requires Bounded(s, at, 10)
    ensures ListsOk(ObservedRow(s, b, facts, at))
  {
    hide Ordered, OutcomeOf, ChooseNextAction, RankComparison, BaseContext, Earliest, BundleId, BaselineMissingChecks, ListsOk, Score, RowIdOf,
      SubjectOf;
    ListsFrom(ObservedRow(s, b, facts, at), s.evidence, s.notes, BaseContext(b.base, at).BaseIsUsable?,
              LinksUnchecked in s.watch || DeceptiveLinkIndicator in s.hard);
  }

  lemma ChecksFit(baseUsable: bool, hasLink: bool)
    ensures var c := BaselineMissingChecks(baseUsable, hasLink); |c| <= |MISSING_CHECKS| && EnumOrdered(c, MISSING_CHECKS)
  {
    hide Ordered, EnumOrdered;
    var values := {AuthenticatedProvenance, IndependentXAuthors, XPostCreationTimes, CollectionContractChecks, CollectionSecurityReview,
             TokenOrderChecks} +
            (if baseUsable then {} else {BaseHeadContext}) + (if hasLink then {LinkDestinationChecks} else {});
    OrderedMembers(values, MISSING_CHECKS);
    OrderedIsOrdered(values, MISSING_CHECKS);
  }

  /** The shape and priority of an observed row fit exactly when its caution reasons do. */
  lemma ShapeFits(s: State, row: Row, facts: Facts, at: Time, acquiredAt: Time)
    requires FactsOk(facts) && CandidateOk(s.candidate) && Bounded(s, at, 10) && Attended(s)
    requires row.presence == Observed(s.candidate.rank) && row.comparison == RankComparison(s, facts, acquiredAt)
    requires row.scorecard == Some(Score(s, row.comparison)) && row.outcome == OutcomeOf(s, row.scorecard.value.total)
    ensures ScorecardOk(row.scorecard.value) && OutcomeOk(row.outcome) && ComparisonOk(row.comparison) && RankOk(row.presence)
    ensures ObservedShapeOk(row) && PriorityOk(row) <==> (s.hard == {} ==> s.watch * {LeftWindow, AssessmentExpired} == {})
  {
    ComparisonFits(s, facts, acquiredAt);
    ScoreFits(s, row.comparison, at);
    OutcomeMeans(s, row.scorecard.value.total);
    hide FactsOk, RankComparison, OutcomeOf, OutcomeOk, Bounded, SlugOk;
    CautionSplit(s.watch);
  }

  lemma CautionSplit(watch: set<WatchReason>)
    ensures watch * {LeftWindow, AssessmentExpired} == {} <==> LeftWindow !in watch && AssessmentExpired !in watch
  {
    if LeftWindow in watch { assert LeftWindow in watch * {LeftWindow, AssessmentExpired}; }
    if AssessmentExpired in watch { assert AssessmentExpired in watch * {LeftWindow, AssessmentExpired}; }
  }

  lemma ExpiryFits(s: State, row: Row, b: Bundle, facts: Facts, at: Time, total: int)
    requires Bounded(s, at, 10) && MarketplaceReasons(b.marketplace, facts, at) <= s.hard && CanonicalTime(b.marketplace.validUntil)
    requires row.assessedAt == at && row.expiresAt == Earliest(b.marketplace.validUntil, s.unexpired.Values) && row.outcome == OutcomeOf(s, total)
    ensures ExpiryOk(row) && CanonicalTime(row.expiresAt)
  {
    OutcomeMeans(s, total);
    hide OutcomeOf;
    if row.expiresAt in s.unexpired.Values {
      var c :| c in s.unexpired && s.unexpired[c] == row.expiresAt;
    } else if row.expiresAt <= at {
      assert MarketplaceStale in MarketplaceReasons(b.marketplace, facts, at);
    }
  }

  lemma SubjectFits(s: State)
    requires CandidateOk(s.candidate) && s.identity == IdentityOf(s.candidate) && IdentityReasons(s.candidate) <= s.hard
    ensures SubjectOk(SubjectOf(s)) && (s.identity.None? ==> s.hard != {})
  {
    if s.identity.Some? { DerivedIdentityOk(s.candidate); }
  }

  /** An observed row passes its schema exactly when its state is admissible. */
  lemma ObservedRowFits(s: State, b: Bundle, facts: Facts, at: Time)
    requires WellState(s, b, facts, at) && FactsOk(facts) && CanonicalTime(b.marketplace.validUntil) && CanonicalTime(at)
    ensures RowOk(ObservedRow(s, b, facts, at)) <==> Admissible(s)
  {
    var row := ObservedRow(s, b, facts, at);
    assert SlugOk(s.candidate.slug);
    var total := row.scorecard.value.total;
    hide FactsOk, CandidateOk, IdentityOf, IdentityReasons, MarketplaceReasons, CandidateId, Bounded, Attended, RankComparison, Score, OutcomeOf,
      Earliest, ListsOk, BaselineMissingChecks, Ordered, SubjectOk, ExpectedRowId, RowIdOf, SubjectOf, ObservedShapeOk, PriorityOk, ExpiryOk,
      ScorecardOk, OutcomeOk, ComparisonOk, RankOk, SlugOk, ChooseNextAction, BundleId;
    SubjectFits(s);
    ListsFit(s, b, facts, at);
    ShapeFits(s, row, facts, at, b.marketplace.acquiredAt);
    ExpiryFits(s, row, b, facts, at, total);
    RowIdFits(s, row, total);
    OutcomeMeans(s, total);
    UnresolvedSubject(s);
  }

  lemma UnresolvedSubject(s: State)
    ensures SubjectOf(s).Unresolved? <==> s.identity.None?
  {}

  // ---------------------------------------------------------------- departures

  lemma PairSize(a: string, b: string)
    ensures |{a, b}| <= 2
  {
    if a == b { assert {a, b} == {a}; }
  }

  lemma DepartureListsFit(row: PriorRow, b: Bundle, at: Time)
    ensures ListsOk(DepartureRow(row, b, at))
  {
    hide Ordered, BaseContext, BundleId, RankEvidenceId, BaselineMissingChecks, ListsOk, DepartureNotes, ChooseNextAction;
    PairSize(row.evidenceId, RankEvidenceId(b.marketplace, BundleId(b)));
    ListsFrom(DepartureRow(row, b, at), {row.evidenceId, RankEvidenceId(b.marketplace, BundleId(b))}, DepartureNotes(b, at),
              BaseContext(b.base, at).BaseIsUsable?, false);
  }

  lemma LeftWindowOutcome()
    ensures OutcomeOk(Watch([LeftWindow], 0))
  {
    EveryWatchReason(LeftWindow);
    IndexOfMember(WATCH_REASONS, LeftWindow);
    hide IndexOf;
  }

  lemma DepartureRowFits(row: PriorRow, b: Bundle, at: Time)
    requires IdentityOk(row.identity) && SlugOk(row.slug) && 1 <= row.rank <= 10
    requires CanonicalTime(at) && CanonicalTime(b.marketplace.validUntil)
    ensures RowOk(DepartureRow(row, b, at))
  {
    hide ListsOk, OutcomeOk, SlugOk, IdentityOk, BundleId, BaselineMissingChecks, Ordered, BaseContext, RankEvidenceId, Less, SortedStrings;
    DepartureListsFit(row, b, at);
    LeftWindowOutcome();
  }

  /** Departures are rows of the previous window that no current candidate continues. */
  lemma {:induction false} DepartureRowsAre(rows: seq<PriorRow>, current: set<string>, b: Bundle, at: Time)
    ensures |DepartureRows(rows, current, b, at)| <= |rows|
    ensures forall r :: r in DepartureRows(rows, current, b, at) ==>
              exists i :: 0 <= i < |rows| && rows[i].identity.collectionId !in current && r == DepartureRow(rows[i], b, at)
    ensures (forall i, j :: 0 <= i < j < |rows| ==> rows[i].identity.collectionId != rows[j].identity.collectionId) ==>
              DistinctIds(DepartureRows(rows, current, b, at))
  {
    hide DepartureRow;
    if rows == [] {
    } else {
      var rest := DepartureRows(rows[1..], current, b, at);
      DepartureRowsAre(rows[1..], current, b, at);
      forall r | r in DepartureRows(rows, current, b, at)
        ensures exists i :: 0 <= i < |rows| && rows[i].identity.collectionId !in current && r == DepartureRow(rows[i], b, at)
      {
        if r in rest {
          var i :| 0 <= i < |rows[1..]| && rows[1..][i].identity.collectionId !in current && r == DepartureRow(rows[1..][i], b, at);
          assert rows[i + 1] == rows[1..][i];
        } else {
          assert r == DepartureRow(rows[0], b, at);
        }
      }
      if forall i, j :: 0 <= i < j < |rows| ==> rows[i].identity.collectionId != rows[j].identity.collectionId {
        forall k | 0 <= k < |rest| ensures rest[k].rowId != rows[0].identity.collectionId {
          assert rest[k] in rest;
          var i :| 0 <= i < |rows[1..]| && rows[1..][i].identity.collectionId !in current && rest[k] == DepartureRow(rows[1..][i], b, at);
          DepartureId(rows[1..][i], b, at);
          assert rows[1..][i] == rows[i + 1];
        }
        DepartureId(rows[0], b, at);
      }
    }
  }

  lemma DepartureId(row: PriorRow, b: Bundle, at: Time)
    ensures DepartureRow(row, b, at).rowId == row.identity.collectionId
  {
    hide BundleId, RankEvidenceId, BaselineMissingChecks, Ordered, BaseContext;
  }

  ghost predicate DistinctIds(rows: seq<Row>)
  {
    forall i, j :: 0 <= i < j < |rows| ==> rows[i].rowId != rows[j].rowId
  }

  lemma {:induction false} DistinctCount(rows: seq<Row>)
    requires DistinctIds(rows)
    ensures |RowIds(rows)| == |rows|
  {
    if rows == [] {
    } else {
      var front, last := rows[..|rows| - 1], rows[|rows| - 1];
      DistinctCount(front);
      forall r | r in front ensures r.rowId != last.rowId {
        var i :| 0 <= i < |front| && front[i] == r;
        assert rows[i] == r;
      }
      assert rows == front + [last];
      RowIdsMore(front, last);
    }
  }

  lemma RowIdsMore(front: seq<Row>, last: Row)
    ensures RowIds(front + [last]) == RowIds(front) + {last.rowId}
  {
    var rows := front + [last];
    forall r ensures r in rows <==> r in front || r == last {}
    forall id ensures id in RowIds(rows) <==> id in RowIds(front) || id == last.rowId {
      if id in RowIds(rows) { var r :| r in rows && r.rowId == id; }
      if id in RowIds(front) { var r :| r in front && r.rowId == id; assert r in rows; }
      if id == last.rowId { assert last in rows; }
    }
  }

  // ---------------------------------------------------------------- distinct rows

  lemma CandidatesDiffer(b: Bundle, i: nat, j: nat)
    requires MarketplaceOk(b.marketplace) && i < j < |b.marketplace.candidates|
    ensures var (c, d) := (b.marketplace.candidates[i], b.marketplace.candidates[j]); c.slug != d.slug || c.contracts != d.contracts
  {
    var c, d := b.marketplace.candidates[i], b.marketplace.candidates[j];
    assert CandidateKey(c) != CandidateKey(d);
  }

  lemma ObservedIdsDiffer(b: Bundle, facts: Facts, at: Time, i: nat, j: nat, s: State, t: State)
    requires BundleOk(b) && i < j < |b.marketplace.candidates|
    requires s == Assessed(b, facts, at)[i] && t == Assessed(b, facts, at)[j]
    ensures RowIdOf(s) != RowIdOf(t)
  {
    var c, d := b.marketplace.candidates[i], b.marketplace.candidates[j];
    CandidatesDiffer(b, i, j);
    hide Assessed, CandidateId, CollectionId, IdentityReasons, CurrentConflicts, Continued, MarketplaceReasons, CandidateOk, BundleOk;
    AssessedKeeps(b, facts, at, i);
    AssessedKeeps(b, facts, at, j);
    CandidateIsNotCollection(c.slug, c.contracts, Addresses(d.contracts));
    CandidateIsNotCollection(d.slug, d.contracts, Addresses(c.contracts));
    if CandidateId(c.slug, c.contracts) == CandidateId(d.slug, d.contracts) {
      CandidateIdInjective(c.slug, c.contracts, d.slug, d.contracts);
    }
    if IdentityUsable(s) && IdentityUsable(t) { UsableApart(b, facts, at, i, j); }
    UsableMeans(s);
    UsableMeans(t);
    hide IdentityUsable, HasIdentityConflict;
  }

  lemma UsableMeans(s: State)
    ensures IdentityUsable(s) <==> s.identity.Some? && !HasIdentityConflict(s)
  {}

  /** An observed row is named by its candidate, or by a collection that is in the current window. */
  lemma ObservedIdIs(b: Bundle, facts: Facts, at: Time, i: nat, id: Identity)
    requires i < |b.marketplace.candidates| && IdentityOk(id) && id.collectionId !in CurrentIds(Assessed(b, facts, at))
    ensures RowIdOf(Assessed(b, facts, at)[i]) != id.collectionId
  {
    hide Assessed, CandidateId, CollectionId, IdentityReasons, CurrentConflicts, Continued, MarketplaceReasons, IdentityOf;
    AssessedKeeps(b, facts, at, i);
    var c := b.marketplace.candidates[i];
    CandidateIsNotCollection(c.slug, c.contracts, id.contracts);
  }

  lemma ObservedDiffer(b: Bundle, facts: Facts, at: Time, states: seq<State>, i: nat, j: nat)
    requires BundleOk(b) && states == Assessed(b, facts, at) && i < j < |b.marketplace.candidates|
    ensures ObservedRow(states[i], b, facts, at).rowId != ObservedRow(states[j], b, facts, at).rowId
  {
    hide Assessed, BundleOk, ObservedRow, RowIdOf;
    ObservedIdsDiffer(b, facts, at, i, j, states[i], states[j]);
    ObservedId(states[i], b, facts, at);
    ObservedId(states[j], b, facts, at);
  }

  lemma DepartedDiffer(b: Bundle, facts: Facts, at: Time, states: seq<State>, i: nat, r: Row, rows: seq<PriorRow>, departed: seq<Row>)
    requires states == Assessed(b, facts, at) && i < |b.marketplace.candidates|
    requires departed == DepartureRows(rows, CurrentIds(states), b, at) && r in departed && forall j :: 0 <= j < |rows| ==> IdentityOk(rows[j].identity)
    ensures ObservedRow(states[i], b, facts, at).rowId != r.rowId
  {
    hide Assessed, ObservedRow, RowIdOf, CurrentIds, IdentityOk, DepartureRow, DepartureRows;
    DepartureRowsAre(rows, CurrentIds(states), b, at);
    var j :| 0 <= j < |rows| && rows[j].identity.collectionId !in CurrentIds(states) && r == DepartureRow(rows[j], b, at);
    ObservedIdIs(b, facts, at, i, rows[j].identity);
    ObservedId(states[i], b, facts, at);
    DepartureId(rows[j], b, at);
  }

  lemma WindowBounds(b: Bundle, facts: Facts)
    requires BundleOk(b) && FactsOk(facts)
    ensures |b.marketplace.candidates| <= 10
    ensures facts.window.Some? ==> var rows := facts.window.value.rows;
              && |rows| <= 10 && (forall j :: 0 <= j < |rows| ==> IdentityOk(rows[j].identity))
              && (forall i, j :: 0 <= i < j < |rows| ==> rows[i].identity.collectionId != rows[j].identity.collectionId)
  {
    assert WindowOk(facts.window, ViewOf(facts));
    hide IdentityOk, SlugOk;
  }

  lemma AllIdsDiffer(b: Bundle, facts: Facts, at: Time)
    requires BundleOk(b) && FactsOk(facts)
    ensures DistinctIds(AllRows(b, facts, at)) && |AllRows(b, facts, at)| <= 20
  {
    hide Assessed, FactsOk, BundleOk, ObservedRow, RowIdOf, CurrentIds, IdentityOk, SlugOk, MarketplaceUsable, DepartureRow, DepartureRows;
    WindowBounds(b, facts);
    var states := Assessed(b, facts, at);
    var observed := ObservedRows(states, b, facts, at);
    forall i, j | 0 <= i < j < |observed| ensures observed[i].rowId != observed[j].rowId { ObservedDiffer(b, facts, at, states, i, j); }
    if MarketplaceUsable(b.marketplace, facts, at) && facts.window.Some? {
      var rows := facts.window.value.rows;
      var departed := DepartureRows(rows, CurrentIds(states), b, at);
      DepartureRowsAre(rows, CurrentIds(states), b, at);
      forall i, k | 0 <= i < |observed| && 0 <= k < |departed| ensures observed[i].rowId != departed[k].rowId {
        DepartedDiffer(b, facts, at, states, i, departed[k], rows, departed);
      }
    }
  }

  lemma ObservedId(s: State, b: Bundle, facts: Facts, at: Time)
    ensures ObservedRow(s, b, facts, at).rowId == RowIdOf(s)
  {
    hide RowIdOf, BundleId, RankComparison, Score, OutcomeOf, Earliest, BaselineMissingChecks, Ordered, BaseContext, SubjectOf;
  }

  // ---------------------------------------------------------------- diagnostics

  lemma DiagnosticLessOrder()
    ensures Transitive(DiagnosticLess)
  {
    forall a, b, c | DiagnosticLess(a, b) && DiagnosticLess(b, c) ensures DiagnosticLess(a, c) {
      if Less(a.evidenceId, b.evidenceId) && Less(b.evidenceId, c.evidenceId) { LessTransitive(a.evidenceId, b.evidenceId, c.evidenceId); }
    }
  }

  lemma DiagnosticsCompare(a: Diagnostic, b: Diagnostic)
    requires a != b
    ensures DiagnosticLess(a, b) || DiagnosticLess(b, a)
  {
    LessTotal(a.evidenceId, b.evidenceId);
    CodesDiffer(a.code, b.code);
  }

  lemma CodesDiffer(a: DiagnosticCode, b: DiagnosticCode)
    ensures IndexOf(DIAGNOSTIC_CODES, a) == IndexOf(DIAGNOSTIC_CODES, b) ==> a == b
  {
    EveryCode(a);
    EveryCode(b);
    IndexOfMember(DIAGNOSTIC_CODES, a);
    IndexOfMember(DIAGNOSTIC_CODES, b);
    hide IndexOf;
  }

  lemma EveryCode(c: DiagnosticCode)
    ensures c in DIAGNOSTIC_CODES
  {
    match c
    case UnboundSocial => assert DIAGNOSTIC_CODES[0] == c;
    case HostileUnboundSocial => assert DIAGNOSTIC_CODES[1] == c;
    case InvalidBaseContext => assert DIAGNOSTIC_CODES[2] == c;
    case StaleBaseContext => assert DIAGNOSTIC_CODES[3] == c;
  }

  /** A diagnostic about this post. */
  predicate IsAbout(d: Diagnostic, bundleId: string, p: Post) { d.evidenceId == SocialDiagnosticId(bundleId, p, d.code) }

  ghost predicate IsAboutSome(d: Diagnostic, bundleId: string, socials: seq<Social>)
  {
    exists i :: 0 <= i < |socials| && IsAbout(d, bundleId, socials[i].post)
  }

  lemma AboutMore(d: Diagnostic, bundleId: string, front: seq<Social>, s: Social)
    ensures IsAboutSome(d, bundleId, front) || IsAbout(d, bundleId, s.post) ==> IsAboutSome(d, bundleId, front + [s])
  {
    hide IsAbout;
    if i :| 0 <= i < |front| && IsAbout(d, bundleId, front[i].post) { assert (front + [s])[i] == front[i]; }
    if IsAbout(d, bundleId, s.post) { assert (front + [s])[|front|] == s; }
  }

  lemma AboutOnePost(d: Diagnostic, bundleId: string, p: Post, q: Post)
    requires IsAbout(d, bundleId, p) && IsAbout(d, bundleId, q)
    ensures p.postIdHash == q.postIdHash
  {
    SocialDiagnosticInjective(bundleId, p, d.code, q, d.code);
  }

  lemma {:induction false} SocialDiagnosticsAre(socials: seq<Social>, bundleId: string, ds: seq<Diagnostic>)
    requires forall i, j :: 0 <= i < j < |socials| ==> socials[i].post.postIdHash != socials[j].post.postIdHash
    requires ds == SocialDiagnostics(socials, bundleId)
    ensures forall i, j :: 0 <= i < j < |ds| ==> ds[i] != ds[j]
    ensures forall i :: 0 <= i < |ds| ==> IsAboutSome(ds[i], bundleId, socials)
  {
    hide SocialDiagnosticId;
    if socials == [] {
    } else {
      var front, s := socials[..|socials| - 1], socials[|socials| - 1];
      var before := SocialDiagnostics(front, bundleId);
      SocialDiagnosticsAre(front, bundleId, before);
      var code := if s.conflict || s.post.hard != [] then HostileUnboundSocial else UnboundSocial;
      var d := Diagnostic(SocialDiagnosticId(bundleId, s.post, code), code);
      assert IsAbout(d, bundleId, s.post);
      assert ds == before + (if s.matched == [] then [d] else []);
      hide IsAbout, IsAboutSome, SocialDiagnostics;
      assert socials == front + [s];
      AboutMore(d, bundleId, front, s);
      forall k | 0 <= k < |front| ensures front[k].post.postIdHash != s.post.postIdHash {
        assert front[k] == socials[k] && s == socials[|socials| - 1];
      }
      forall i | 0 <= i < |before| ensures before[i] != d && IsAboutSome(before[i], bundleId, socials) {
        AboutMore(before[i], bundleId, front, s);
        NotAboutLast(before[i], bundleId, front, s);
      }
    }
  }

  lemma NotAboutLast(d: Diagnostic, bundleId: string, front: seq<Social>, s: Social)
    requires IsAboutSome(d, bundleId, front) && forall i :: 0 <= i < |front| ==> front[i].post.postIdHash != s.post.postIdHash
    ensures !IsAbout(d, bundleId, s.post)
  {
    var i :| 0 <= i < |front| && IsAbout(d, bundleId, front[i].post);
    if IsAbout(d, bundleId, s.post) { AboutOnePost(d, bundleId, front[i].post, s.post); }
  }

  /** The kind of evidence shows in the domain of its digest. */
  lemma SocialDomain(bundleId: string, p: Post, code: DiagnosticCode)
    ensures |SocialDiagnosticId(bundleId, p, code)| > 14 && SocialDiagnosticId(bundleId, p, code)[14] == 's'
  {
    hide CanonicalJson.Print, CodeName;
  }

  lemma BaseDomain(bundleId: string, d: Diagnostic, b: BaseSource, at: Time)
    requires d in BaseDiagnostics(b, at, bundleId)
    ensures |d.evidenceId| > 14 && d.evidenceId[14] == 'b'
  {
    hide CanonicalJson.Print, CanonicalJson.Digits, BaseContext;
  }

  lemma SocialIsNotBase(bundleId: string, p: Post, d: Diagnostic, b: BaseSource, at: Time)
    requires d in BaseDiagnostics(b, at, bundleId)
    ensures !IsAbout(d, bundleId, p)
  {
    hide SocialDiagnosticId, BaseDiagnostics;
    SocialDomain(bundleId, p, d.code);
    BaseDomain(bundleId, d, b, at);
  }

  lemma DiagnosticsFit(b: Bundle, facts: Facts, at: Time)
    requires BundleOk(b)
    ensures DiagnosticsOk(Diagnostics(b, facts, at))
  {
    hide SocialsOf, BundleId, BundleOk, SocialDiagnostics, BaseDiagnostics, DiagnosticLess, DiagnosticsOk;
    var socials := SocialsOf(b, facts, at);
    DistinctPosts(b, facts, at, socials);
    var all := SocialDiagnostics(socials, BundleId(b)) + BaseDiagnostics(b.base, at, BundleId(b));
    DiagnosticsDistinct(socials, BundleId(b), b.base, at, all);
    SortedDiagnostics(all);
  }

  lemma DistinctPosts(b: Bundle, facts: Facts, at: Time, socials: seq<Social>)
    requires BundleOk(b) && socials == SocialsOf(b, facts, at)
    ensures forall i, j :: 0 <= i < j < |socials| ==> socials[i].post.postIdHash != socials[j].post.postIdHash
  {
    if b.x.RecordedPosts? { SocialsRead(b, facts, at, socials); } else { hide Prepared; }
  }

  lemma DiagnosticsDistinct(socials: seq<Social>, bundleId: string, b: BaseSource, at: Time, all: seq<Diagnostic>)
    requires forall i, j :: 0 <= i < j < |socials| ==> socials[i].post.postIdHash != socials[j].post.postIdHash
    requires all == SocialDiagnostics(socials, bundleId) + BaseDiagnostics(b, at, bundleId)
    ensures forall i, j :: 0 <= i < j < |all| ==> all[i] != all[j]
  {
    var ds, es := SocialDiagnostics(socials, bundleId), BaseDiagnostics(b, at, bundleId);
    SocialDiagnosticsAre(socials, bundleId, ds);
    assert |es| <= 1;
    hide SocialDiagnosticId, SocialDiagnostics, BaseDiagnostics, IsAbout;
    forall i, j | 0 <= i < |ds| && 0 <= j < |es| ensures ds[i] != es[j] {
      assert es[j] in es;
      assert IsAboutSome(ds[i], bundleId, socials);
      var k :| 0 <= k < |socials| && IsAbout(ds[i], bundleId, socials[k].post);
      SocialIsNotBase(bundleId, socials[k].post, es[j], b, at);
    }
  }

  lemma SortedDiagnostics(all: seq<Diagnostic>)
    requires forall i, j :: 0 <= i < j < |all| ==> all[i] != all[j]
    ensures var sorted := Sort(all, DiagnosticLess); DiagnosticsOk(if |sorted| <= 10 then sorted else sorted[..10])
  {
    hide DiagnosticLess;
    DiagnosticLessOrder();
    forall i, j | 0 <= i < j < |all| ensures DiagnosticLess(all[i], all[j]) || DiagnosticLess(all[j], all[i]) { DiagnosticsCompare(all[i], all[j]); }
    SortIncreasing(all, DiagnosticLess);
    var sorted := Sort(all, DiagnosticLess);
    forall i, j | 0 <= i < j < |sorted| ensures sorted[i] != sorted[j] {
      assert DiagnosticLess(sorted[i], sorted[j]);
      DiagnosticIrreflexive(sorted[i]);
    }
  }

  lemma DiagnosticIrreflexive(d: Diagnostic)
    ensures !DiagnosticLess(d, d)
  {
    LessIrreflexive(d.evidenceId);
  }

  // ---------------------------------------------------------------- the whole assessment

  lemma {:induction false} ImageSize(socials: seq<Social>, at: Time, n: nat)
    requires n <= |socials|
    ensures |set i | 0 <= i < n && socials[i].attributable.Some? && UsablePost(socials[i], at) :: socials[i].post.cluster| <= n
  {
    if n == 0 {
    } else {
      ImageSize(socials, at, n - 1);
      var before := set i | 0 <= i < n - 1 && socials[i].attributable.Some? && UsablePost(socials[i], at) :: socials[i].post.cluster;
      var now := set i | 0 <= i < n && socials[i].attributable.Some? && UsablePost(socials[i], at) :: socials[i].post.cluster;
      assert now <= before + {socials[n - 1].post.cluster};
      SubsetSize(now, before + {socials[n - 1].post.cluster});
    }
  }

  lemma XSummaryFits(b: Bundle, facts: Facts, at: Time, socials: seq<Social>)
    requires BundleOk(b) && FactsOk(facts) && socials == SocialsOf(b, facts, at)
    ensures var x := SummaryOfX(b, facts, at);
            x.XObserved? ==> SourceTime(x.acquiredAt, SOCIAL_VALIDITY) && CanonicalTime(x.validUntil)
                             && 0 <= x.postCount <= 10 && 0 <= x.usableClusters <= 10
  {
    SocialTimes(b, facts, at, socials);
    hide SocialsOf, FactsOk, MarketplaceOk, BaseOk, PostOk, Prepared, UsablePost;
    if b.x.RecordedPosts? { ImageSize(socials, at, |socials|); }
  }

  lemma BaseSummaryFits(b: BaseSource, at: Time)
    requires BaseOk(b)
    ensures var s := BaseContext(b, at);
            s.BaseIsUsable? || s.BaseIsStale? ==>
              SourceTime(s.acquiredAt, BASE_CONTEXT_VALIDITY) && CanonicalTime(s.validUntil) && CanonicalTime(s.blockTimestamp)
  {}

  lemma SummariesFit(b: Bundle, facts: Facts, at: Time)
    requires BundleOk(b) && FactsOk(facts)
    ensures SummariesOk(AssessmentOf(b, facts, at))
  {
    XSummaryFits(b, facts, at, SocialsOf(b, facts, at));
    BaseSummaryFits(b.base, at);
    hide FactsOk, SummaryOfX, AllRows, Diagnostics, BaseContext, XOk, BaseOk, MarketplaceUsable, BundleId, CandidateOk, CandidateKey;
  }

  lemma RowIdsOfSort(rows: seq<Row>)
    ensures RowIds(Sort(rows, RowLess)) == RowIds(rows)
  {
    hide RowLess;
    SortMembers(rows, RowLess);
  }

  lemma RowStamps(s: State, row: PriorRow, b: Bundle, facts: Facts, at: Time)
    ensures ObservedRow(s, b, facts, at).assessedAt == at && ObservedRow(s, b, facts, at).bundleId == BundleId(b)
    ensures DepartureRow(row, b, at).assessedAt == at && DepartureRow(row, b, at).bundleId == BundleId(b)
  {
    hide BundleId, RankComparison, Score, OutcomeOf, Earliest, BaselineMissingChecks, Ordered, BaseContext, SubjectOf, RowIdOf;
  }

  ghost predicate Stamped(row: Row, b: Bundle, at: Time) { row.assessedAt == at && row.bundleId == BundleId(b) }

  lemma PriorsFit(b: Bundle, facts: Facts)
    requires BundleOk(b) && FactsOk(facts)
    ensures CanonicalTime(b.marketplace.validUntil)
    ensures facts.window.Some? ==> var rows := facts.window.value.rows;
              forall j :: 0 <= j < |rows| ==> IdentityOk(rows[j].identity) && SlugOk(rows[j].slug) && 1 <= rows[j].rank <= 10
  {
    assert WindowOk(facts.window, ViewOf(facts));
    hide IdentityOk, SlugOk, CanonicalTime;
  }

  /** Every row passes its schema exactly when every state is admissible; departures always do. */
  lemma RowsFit(b: Bundle, facts: Facts, at: Time, rows: seq<Row>)
    requires BundleOk(b) && FactsOk(facts) && CanonicalTime(at) && rows == AllRows(b, facts, at)
    ensures (forall r :: r in rows ==> RowOk(r)) <==> forall i :: 0 <= i < |b.marketplace.candidates| ==> Admissible(Assessed(b, facts, at)[i])
    ensures forall r :: r in rows ==> Stamped(r, b, at)
  {
    var states := Assessed(b, facts, at);
    hide Assessed, FactsOk, BundleOk, ObservedRow, CurrentIds, IdentityOk, SlugOk, MarketplaceUsable, DepartureRow, DepartureRows, RowOk, Admissible,
      WellState, BundleId, ViewOf, CanonicalTime;
    PriorsFit(b, facts);
    var observed := ObservedRows(states, b, facts, at);
    forall i | 0 <= i < |states| ensures (RowOk(observed[i]) <==> Admissible(states[i])) && Stamped(observed[i], b, at) && observed[i] in rows {
      AssessedWell(b, facts, at, i);
      ObservedRowFits(states[i], b, facts, at);
      RowStamps(states[i], PriorRow(Identity("", []), "", 0, ""), b, facts, at);
      assert rows[i] == observed[i];
    }
    forall r | r in rows ensures Stamped(r, b, at) && (r in observed || RowOk(r)) {
      if r !in observed {
        var prior := facts.window.value.rows;
        DepartureRowsAre(prior, CurrentIds(states), b, at);
        var j :| 0 <= j < |prior| && prior[j].identity.collectionId !in CurrentIds(states) && r == DepartureRow(prior[j], b, at);
        DepartureRowFits(prior[j], b, at);
        RowStamps(Initial(Candidate(0, "", []), ""), prior[j], b, facts, at);
      }
    }
  }

  lemma AssessmentParts(b: Bundle, facts: Facts, at: Time, a: Assessment)
    requires a == AssessmentOf(b, facts, at)
    ensures a.rows == Sort(AllRows(b, facts, at), RowLess) && a.evaluatedAt == at && a.bundleId == BundleId(b)
    ensures a.diagnostics == Diagnostics(b, facts, at)
  {
    hide AllRows, RowLess, Diagnostics, SummaryOfX, BaseContext, MarketplaceUsable, BundleId;
  }

  /** An assessment passes its schema exactly when every state does. */
  lemma StatesDecide(b: Bundle, facts: Facts, at: Time)
    requires BundleOk(b) && FactsOk(facts) && CanonicalTime(at)
    ensures AssessmentOk(AssessmentOf(b, facts, at)) <==>
            forall i :: 0 <= i < |b.marketplace.candidates| ==> Admissible(Assessed(b, facts, at)[i])
  {
    hide Assessed, FactsOk, BundleOk, AllRows, RowOk, Admissible, Diagnostics, SummariesOk, DiagnosticsOk, RowLess, BundleId, RowIds, AssessmentOf,
      Stamped, DistinctIds;
    var rows := AllRows(b, facts, at);
    var a := AssessmentOf(b, facts, at);
    RowsFit(b, facts, at, rows);
    AllIdsDiffer(b, facts, at);
    SummariesFit(b, facts, at);
    DiagnosticsFit(b, facts, at);
    DistinctCount(rows);
    RowIdsOfSort(rows);
    SortMembers(rows, RowLess);
    AssessmentParts(b, facts, at, a);
    AssessmentFrom(a, rows, b, at);
  }

  lemma AssessmentFrom(a: Assessment, rows: seq<Row>, b: Bundle, at: Time)
    requires (forall r :: r in a.rows <==> r in rows) && (forall r :: r in rows ==> Stamped(r, b, at)) && a.evaluatedAt == at && a.bundleId == BundleId(b)
    requires |a.rows| <= 20 && |RowIds(a.rows)| == |a.rows| && SummariesOk(a) && DiagnosticsOk(a.diagnostics) && CanonicalTime(at)
    ensures AssessmentOk(a) <==> forall r :: r in rows ==> RowOk(r)
  {
    hide RowOk, SummariesOk, DiagnosticsOk, RowIds, BundleId;
    SortedRows(a.rows, rows);
    forall i | 0 <= i < |a.rows| ensures Stamped(a.rows[i], b, at) { assert a.rows[i] in a.rows; }
  }

  lemma SortedRows(sorted: seq<Row>, rows: seq<Row>)
    requires forall r :: r in sorted <==> r in rows
    ensures (forall i :: 0 <= i < |sorted| ==> RowOk(sorted[i])) <==> (forall r :: r in rows ==> RowOk(r))
  {
    hide RowOk;
    if forall i :: 0 <= i < |sorted| ==> RowOk(sorted[i]) {
      forall r | r in rows ensures RowOk(r) { assert r in sorted; }
    }
    if forall r :: r in rows ==> RowOk(r) {
      forall i | 0 <= i < |sorted| ensures RowOk(sorted[i]) { assert sorted[i] in sorted; }
    }
  }

  /** A bundle is assessed exactly when every state passes and the facts fit. */
  lemma AssessedWhenAdmissible(b: Bundle, facts: Facts, at: Time)
    requires BundleOk(b) && FactsOk(facts) && CanonicalTime(at)
    ensures Assess(b, facts, at).Some? <==>
              (forall i :: 0 <= i < |b.marketplace.candidates| ==> Admissible(Assessed(b, facts, at)[i])) && WithinCap(NextFacts(b, facts, at))
  {
    hide BundleOk, FactsOk, AssessmentOk, AssessmentOf, NextFacts, WithinCap, Admissible, Assessed;
    StatesDecide(b, facts, at);
    NextFactsOk(b, facts, at);
  }
}
