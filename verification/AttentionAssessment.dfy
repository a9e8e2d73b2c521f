/** A whole assessment, told by the bundle, the retained facts and the time alone: which rows it has and in what order,
    the departures, the summaries and the diagnostics (packages/attention/src/assess.ts:122-259, 688-739, 900-975). */
module AttentionAssessment {
  import opened Order
  import opened Wrappers
  import opened Attention
  import opened AttentionIds
  import opened AttentionFacts
  import opened Assessor
  import opened AttentionAdvance
  import opened AttentionRows
  import opened AttentionTotality
  import opened AttentionMeaning
  import opened AttentionRowMeaning
  import AttentionStored
  import AttentionTime

  // ---------------------------------------------------------------- departures

  /** The window is newer than the retained one, from the past, and has not run out. */
  predicate WindowCurrent(b: Bundle, facts: Facts, at: Time)
  {
    && (facts.window.Some? ==> facts.window.value.acquiredAt < b.marketplace.acquiredAt)
    && b.marketplace.acquiredAt <= at < b.marketplace.validUntil
  }

  /** The n-th collection of the retained window is not in this one. */
  predicate Left(b: Bundle, facts: Facts, at: Time, n: nat)
  {
    && WindowCurrent(b, facts, at) && n < |PriorRows(facts)|
    && forall i :: 0 <= i < |b.marketplace.candidates| ==> !Listed(b, facts, i, n)
  }

  /** Everything that the row of a collection that left says. */
  ghost predicate DepartureIs(b: Bundle, facts: Facts, at: Time, n: nat, row: Row)
  {
    && n < |PriorRows(facts)|
    && var prior := PriorRows(facts)[n];
       && row.rowId == prior.identity.collectionId && row.subject == Resolved(prior.identity) && row.slug == prior.slug
       && row.presence == Departed(prior.rank) && row.comparison == NotObserved && row.scorecard == None
       && row.assessedAt == at && row.expiresAt == b.marketplace.validUntil && row.bundleId == BundleId(b)
       && row.outcome == Watch([LeftWindow], 0) && row.nextAction == ContinueRecordedObservation
       && ChecksAre(row.missingChecks, b.base, at, false)
       && EnumOrdered(row.notes, NOTES) && (forall m :: m in row.notes <==> NotedOnLeaving(b, at, m))
       && Increasing(row.evidenceIds, Less)
       && forall e :: e in row.evidenceIds <==> e == prior.evidenceId || e == RankEvidenceId(b.marketplace, BundleId(b))
  }

  predicate NotedOnLeaving(b: Bundle, at: Time, n: Note)
  {
    match n
    case NoSafeVerdict => true
    case PartialMarketplaceWindow => b.marketplace.hasNextPage
    case PartialXWindow => b.x.RecordedPosts? && b.x.hasNextPage
    case BaseContextOnly => BaseIsFresh(b.base, at)
    case _ => false
  }

  lemma DepartureNoted(b: Bundle, at: Time, n: Note)
    ensures n in DepartureNotes(b, at) <==> NotedOnLeaving(b, at, n)
  {
    BaseIs(b.base, at);
    hide BaseContext, BaseIsFresh;
  }

  lemma DepartureIsExact(b: Bundle, facts: Facts, at: Time, n: nat)
    requires n < |PriorRows(facts)|
    ensures DepartureIs(b, facts, at, n, DepartureRow(PriorRows(facts)[n], b, at))
  {
    hide Ordered, EnumOrdered, BaseContext, BundleId, RankEvidenceId, BaselineMissingChecks, DepartureNotes, SortedStrings, Less, ChecksAre, NotedOnLeaving;
    ChecksAreExact(b.base, at, false);
    NotesOrdered(DepartureNotes(b, at));
    forall m ensures m in DepartureNotes(b, at) <==> NotedOnLeaving(b, at, m) { DepartureNoted(b, at, m); }
  }

  lemma CurrentIs(b: Bundle, facts: Facts, at: Time)
    ensures MarketplaceUsable(b.marketplace, facts, at) <==> WindowCurrent(b, facts, at)
  {
    if MarketplaceUsable(b.marketplace, facts, at) {
      MarketplaceReason(b.marketplace, facts, at, MarketplaceTimeInvalid);
      MarketplaceReason(b.marketplace, facts, at, MarketplaceFuture);
      MarketplaceReason(b.marketplace, facts, at, MarketplaceStale);
    }
  }

  /** Exactly the collections of the window that no candidate names are not current. */
  lemma LeftIs(b: Bundle, facts: Facts, at: Time, n: nat)
    requires n < |PriorRows(facts)|
    ensures PriorRows(facts)[n].identity.collectionId in CurrentIds(Assessed(b, facts, at)) <==>
              exists i :: 0 <= i < |b.marketplace.candidates| && Listed(b, facts, i, n)
  {
    hide Assessed, Listed;
    var id, states := PriorRows(facts)[n].identity.collectionId, Assessed(b, facts, at);
    forall i | 0 <= i < |states| ensures (states[i].identity.Some? && states[i].identity.value.collectionId == id) <==> Listed(b, facts, i, n) {
      ListedIs(b, facts, at, i, n);
    }
    if id in CurrentIds(states) {
      var i :| 0 <= i < |states| && states[i].identity.Some? && states[i].identity.value.collectionId == id;
      assert Listed(b, facts, i, n);
    }
  }

  lemma ListedIs(b: Bundle, facts: Facts, at: Time, i: nat, n: nat)
    requires i < |b.marketplace.candidates| && n < |PriorRows(facts)|
    ensures var s := Assessed(b, facts, at)[i];
            s.identity.Some? && s.identity.value.collectionId == PriorRows(facts)[n].identity.collectionId <==> Listed(b, facts, i, n)
  {
    hide Assessed, IdentityReasons, CurrentConflicts, MarketplaceReasons, Continued, CandidateId, IdentityOf, Named, CollectionId;
    AssessedKeeps(b, facts, at, i);
    IdentityNamed(Assessed(b, facts, at)[i]);
  }

  /** A departure row for every row left, and no other. */
  lemma {:induction false} DeparturesAre(rows: seq<PriorRow>, current: set<string>, b: Bundle, at: Time)
    ensures forall r :: r in DepartureRows(rows, current, b, at) <==>
              exists n :: 0 <= n < |rows| && rows[n].identity.collectionId !in current && r == DepartureRow(rows[n], b, at)
  {
    hide DepartureRow;
    if rows != [] {
      DeparturesAre(rows[1..], current, b, at);
      forall r
        ensures r in DepartureRows(rows, current, b, at) <==>
                  exists n :: 0 <= n < |rows| && rows[n].identity.collectionId !in current && r == DepartureRow(rows[n], b, at)
      {
        DepartureMore(rows, current, b, at, r);
      }
    }
  }

  lemma DepartureMore(rows: seq<PriorRow>, current: set<string>, b: Bundle, at: Time, r: Row)
    requires rows != []
    ensures (exists n :: 0 <= n < |rows| && rows[n].identity.collectionId !in current && r == DepartureRow(rows[n], b, at)) <==>
              || (rows[0].identity.collectionId !in current && r == DepartureRow(rows[0], b, at))
              || exists n :: 0 <= n < |rows[1..]| && rows[1..][n].identity.collectionId !in current && r == DepartureRow(rows[1..][n], b, at)
  {
    hide DepartureRow;
    var rest := rows[1..];
    if n :| 0 <= n < |rows| && rows[n].identity.collectionId !in current && r == DepartureRow(rows[n], b, at) {
      if n > 0 { assert rest[n - 1] == rows[n]; }
    }
    if n :| 0 <= n < |rest| && rest[n].identity.collectionId !in current && r == DepartureRow(rest[n], b, at) { assert rows[n + 1] == rest[n]; }
  }

  // ---------------------------------------------------------------- which rows there are

  /** The row is some candidate's. */
  ghost predicate OfCandidate(b: Bundle, facts: Facts, at: Time, row: Row)
  {
    exists i :: 0 <= i < |b.marketplace.candidates| && RowIs(b, facts, at, i, row)
  }

  /** The row is that of some collection that left. */
  ghost predicate OfLeft(b: Bundle, facts: Facts, at: Time, row: Row)
  {
    exists n :: 0 <= n < |PriorRows(facts)| && Left(b, facts, at, n) && DepartureIs(b, facts, at, n, row)
  }

  ghost predicate RowsAre(b: Bundle, facts: Facts, at: Time, rows: seq<Row>)
  {
    && (forall r :: r in rows ==> OfCandidate(b, facts, at, r) || OfLeft(b, facts, at, r))
    && (forall i :: 0 <= i < |b.marketplace.candidates| ==> HasRowOf(b, facts, at, i, rows))
    && (forall n :: 0 <= n < |PriorRows(facts)| && Left(b, facts, at, n) ==> HasDepartureOf(b, facts, at, n, rows))
    && DistinctIds(rows)
  }

  ghost predicate HasRowOf(b: Bundle, facts: Facts, at: Time, i: nat, rows: seq<Row>)
    requires i < |b.marketplace.candidates|
  {
    exists r :: r in rows && RowIs(b, facts, at, i, r)
  }

  ghost predicate HasDepartureOf(b: Bundle, facts: Facts, at: Time, n: nat, rows: seq<Row>) { exists r :: r in rows && DepartureIs(b, facts, at, n, r) }

  /** What the rows are before they are sorted. */
  ghost predicate RowsFrom(b: Bundle, facts: Facts, at: Time, rows: seq<Row>)
  {
    forall r :: r in rows <==>
      || (exists i :: 0 <= i < |b.marketplace.candidates| && r == ObservedRow(Assessed(b, facts, at)[i], b, facts, at))
      || exists n :: 0 <= n < |PriorRows(facts)| && Left(b, facts, at, n) && r == DepartureRow(PriorRows(facts)[n], b, at)
  }

  lemma ObservedMembers(b: Bundle, facts: Facts, at: Time, r: Row)
    ensures r in ObservedRows(Assessed(b, facts, at), b, facts, at) <==>
              exists i :: 0 <= i < |b.marketplace.candidates| && r == ObservedRow(Assessed(b, facts, at)[i], b, facts, at)
  {
    hide Assessed, ObservedRow;
    var rows := ObservedRows(Assessed(b, facts, at), b, facts, at);
    if i :| 0 <= i < |b.marketplace.candidates| && r == ObservedRow(Assessed(b, facts, at)[i], b, facts, at) { assert rows[i] == r; }
  }

  lemma DepartedMembers(b: Bundle, facts: Facts, at: Time, r: Row)
    ensures (MarketplaceUsable(b.marketplace, facts, at) && facts.window.Some?
             && r in DepartureRows(facts.window.value.rows, CurrentIds(Assessed(b, facts, at)), b, at)) <==>
              exists n :: 0 <= n < |PriorRows(facts)| && Left(b, facts, at, n) && r == DepartureRow(PriorRows(facts)[n], b, at)
  {
    hide Assessed, DepartureRow, MarketplaceUsable, CurrentIds, WindowCurrent, Listed;
    CurrentIs(b, facts, at);
    var current := CurrentIds(Assessed(b, facts, at));
    DeparturesAre(PriorRows(facts), current, b, at);
    forall n | 0 <= n < |PriorRows(facts)|
      ensures PriorRows(facts)[n].identity.collectionId in current <==> exists i :: 0 <= i < |b.marketplace.candidates| && Listed(b, facts, i, n)
    {
      LeftIs(b, facts, at, n);
    }
  }

  lemma AllRowsFrom(b: Bundle, facts: Facts, at: Time)
    ensures RowsFrom(b, facts, at, AllRows(b, facts, at))
  {
    hide Assessed, DepartureRow, ObservedRow, MarketplaceUsable, CurrentIds, Left, PriorRows;
    forall r
      ensures r in AllRows(b, facts, at) <==>
                || (exists i :: 0 <= i < |b.marketplace.candidates| && r == ObservedRow(Assessed(b, facts, at)[i], b, facts, at))
                || exists n :: 0 <= n < |PriorRows(facts)| && Left(b, facts, at, n) && r == DepartureRow(PriorRows(facts)[n], b, at)
    {
      ObservedMembers(b, facts, at, r);
      DepartedMembers(b, facts, at, r);
      hide ObservedRows, DepartureRows;
    }
  }

  lemma RowsSay(b: Bundle, facts: Facts, at: Time, rows: seq<Row>)
    requires FactsOk(facts) && RowsFrom(b, facts, at, rows) && DistinctIds(rows)
    ensures RowsAre(b, facts, at, rows)
  {
    hide FactsOk, Assessed, DepartureRow, ObservedRow, Left, RowIs, DepartureIs, PriorRows, DistinctIds;
    forall r | r in rows ensures OfCandidate(b, facts, at, r) || OfLeft(b, facts, at, r) {
      if i :| 0 <= i < |b.marketplace.candidates| && r == ObservedRow(Assessed(b, facts, at)[i], b, facts, at) {
        RowIsExact(b, facts, at, i);
      } else {
        var n :| 0 <= n < |PriorRows(facts)| && Left(b, facts, at, n) && r == DepartureRow(PriorRows(facts)[n], b, at);
        DepartureIsExact(b, facts, at, n);
      }
    }
    forall i | 0 <= i < |b.marketplace.candidates| ensures HasRowOf(b, facts, at, i, rows) {
      RowIsExact(b, facts, at, i);
      assert ObservedRow(Assessed(b, facts, at)[i], b, facts, at) in rows;
    }
    forall n | 0 <= n < |PriorRows(facts)| && Left(b, facts, at, n) ensures HasDepartureOf(b, facts, at, n, rows) {
      DepartureIsExact(b, facts, at, n);
      assert DepartureRow(PriorRows(facts)[n], b, at) in rows;
    }
  }

  // ---------------------------------------------------------------- in what order

  predicate Earlier(r: HardReason, s: HardReason)
  {
    exists i, j :: 0 <= i < j < |HARD_REASONS| && HARD_REASONS[i] == r && HARD_REASONS[j] == s
  }

  /** Observed before departed, and by rank. */
  predicate HigherUp(p: Presence, q: Presence)
  {
    p.Observed? && (q.Departed? || p.rank < q.rank)
  }

  predicate Level(p: Presence, q: Presence) { (p.Departed? && q.Departed?) || (p.Observed? && q.Observed? && p.rank == q.rank) }

  /** Reviews, then watched rows, then rejected ones; by priority, then by rank, and rejected ones by their first reason. */
  predicate Precedes(a: Row, b: Row)
  {
    match a.outcome
    case Review(p) =>
      if b.outcome.Review? then
        p > b.outcome.priority
        || (p == b.outcome.priority && (HigherUp(a.presence, b.presence) || (Level(a.presence, b.presence) && Less(a.rowId, b.rowId))))
      else true
    case Watch(_, p) =>
      if b.outcome.Watch? then
        p > b.outcome.priority
        || (p == b.outcome.priority && (HigherUp(a.presence, b.presence) || (Level(a.presence, b.presence) && Less(a.rowId, b.rowId))))
      else b.outcome.Rejected?
    case Rejected(reasons) =>
      && b.outcome.Rejected? && reasons != [] && b.outcome.reasons != []
      && (Earlier(reasons[0], b.outcome.reasons[0]) || (reasons[0] == b.outcome.reasons[0] && Less(a.rowId, b.rowId)))
  }

  lemma EarlierIs(r: HardReason, s: HardReason)
    ensures Earlier(r, s) <==> IndexOf(HARD_REASONS, r) < IndexOf(HARD_REASONS, s)
    ensures IndexOf(HARD_REASONS, r) == IndexOf(HARD_REASONS, s) ==> r == s
  {
    EveryHardReason(r);
    EveryHardReason(s);
    IndexOfMember(HARD_REASONS, r);
    IndexOfMember(HARD_REASONS, s);
    hide IndexOf;
    var i, j := IndexOf(HARD_REASONS, r), IndexOf(HARD_REASONS, s);
    if Earlier(r, s) {
      var k, l :| 0 <= k < l < |HARD_REASONS| && HARD_REASONS[k] == r && HARD_REASONS[l] == s;
      ReasonOnce(i, k);
      ReasonOnce(j, l);
    }
  }

  lemma ReasonOnce(i: nat, j: nat)
    requires i < |HARD_REASONS| && j < |HARD_REASONS| && HARD_REASONS[i] == HARD_REASONS[j]
    ensures i == j
  {}

  predicate Shaped(row: Row)
  {
    (row.outcome.Rejected? ==> row.outcome.reasons != []) && (row.presence.Observed? ==> row.presence.rank < 9007199254740991)
  }

  lemma PrecedesIs(a: Row, b: Row)
    requires Shaped(a) && Shaped(b)
    ensures RowLess(a, b) <==> Precedes(a, b)
  {
    hide Less, IndexOf, Earlier;
    if a.outcome.Rejected? && b.outcome.Rejected? {
      EarlierIs(a.outcome.reasons[0], b.outcome.reasons[0]);
      EarlierIs(b.outcome.reasons[0], a.outcome.reasons[0]);
    }
  }

  lemma RowsTransitive(a: Row, b: Row, c: Row)
    requires RowLess(a, b) && RowLess(b, c)
    ensures RowLess(a, c)
  {
    hide Less, IndexOf;
    if Less(a.rowId, b.rowId) && Less(b.rowId, c.rowId) { LessTransitive(a.rowId, b.rowId, c.rowId); }
  }

  lemma RowLessOrder()
    ensures Transitive(RowLess)
  {
    hide RowLess;
    forall a, b, c | RowLess(a, b) && RowLess(b, c) ensures RowLess(a, c) { RowsTransitive(a, b, c); }
  }

  lemma RowsCompare(a: Row, b: Row)
    requires a.rowId != b.rowId
    ensures RowLess(a, b) || RowLess(b, a)
  {
    hide Less, IndexOf;
    LessTotal(a.rowId, b.rowId);
  }

  ghost predicate InOrder(rows: seq<Row>) { forall p, q :: 0 <= p < q < |rows| ==> Precedes(rows[p], rows[q]) }

  lemma SortedInOrder(rows: seq<Row>, sorted: seq<Row>)
    requires sorted == Sort(rows, RowLess) && DistinctIds(rows) && forall r :: r in rows ==> Shaped(r)
    ensures InOrder(sorted) && DistinctIds(sorted)
  {
    hide RowLess, Precedes, Shaped, Sort;
    RowLessOrder();
    forall i, j | 0 <= i < j < |rows| ensures RowLess(rows[i], rows[j]) || RowLess(rows[j], rows[i]) { RowsCompare(rows[i], rows[j]); }
    SortIncreasing(rows, RowLess);
    SortMembers(rows, RowLess);
    forall p, q | 0 <= p < q < |sorted| ensures Precedes(sorted[p], sorted[q]) && sorted[p].rowId != sorted[q].rowId {
      assert sorted[p] in rows && sorted[q] in rows;
      PrecedesIs(sorted[p], sorted[q]);
      if sorted[p] == sorted[q] { SamePlace(sorted[p], sorted[q]); }
      PlacesDiffer(rows, sorted[p], sorted[q]);
    }
  }

  lemma PlacesDiffer(rows: seq<Row>, a: Row, b: Row)
    requires DistinctIds(rows) && a in rows && b in rows && a != b
    ensures a.rowId != b.rowId
  {
    var i :| 0 <= i < |rows| && rows[i] == a;
    var j :| 0 <= j < |rows| && rows[j] == b;
    assert i < j || j < i;
  }

  lemma SamePlace(a: Row, b: Row)
    requires Shaped(a) && a == b
    ensures !RowLess(a, b)
  {
    LessIrreflexive(a.rowId);
  }

  lemma RowIsShaped(b: Bundle, facts: Facts, at: Time, i: nat, row: Row)
    requires i < |b.marketplace.candidates| && RowIs(b, facts, at, i, row) && b.marketplace.candidates[i].rank <= 10
    ensures Shaped(row)
  {
    hide ComparisonIs, ScoreIs, OutcomeIs, LastsUntil, ChecksAre, EnumOrdered, Increasing, IsNoted, IsEvidence, CallsForCaution, SpeaksAgainst, Named,
      IdentityInDoubt, BundleId, CollectionId, CandidateId;
  }

  lemma DepartureIsShaped(b: Bundle, facts: Facts, at: Time, n: nat, row: Row)
    requires DepartureIs(b, facts, at, n, row)
    ensures Shaped(row)
  {
    hide ChecksAre, EnumOrdered, Increasing, BundleId, RankEvidenceId, NotedOnLeaving;
  }

  lemma RankFits(b: Bundle, i: nat)
    requires BundleOk(b) && i < |b.marketplace.candidates|
    ensures b.marketplace.candidates[i].rank <= 10
  {
    assert CandidateOk(b.marketplace.candidates[i]);
    hide SlugOk, AddressOk, ContractsSorted, CandidateKey, XOk, BaseOk;
  }

  lemma AllShaped(b: Bundle, facts: Facts, at: Time, rows: seq<Row>)
    requires BundleOk(b) && FactsOk(facts) && RowsFrom(b, facts, at, rows)
    ensures forall r :: r in rows ==> Shaped(r)
  {
    hide FactsOk, BundleOk, Assessed, DepartureRow, ObservedRow, Left, RowIs, DepartureIs, PriorRows, Shaped;
    forall r | r in rows ensures Shaped(r) {
      if i :| 0 <= i < |b.marketplace.candidates| && r == ObservedRow(Assessed(b, facts, at)[i], b, facts, at) {
        RowIsExact(b, facts, at, i);
        RankFits(b, i);
        RowIsShaped(b, facts, at, i, r);
      } else {
        var n :| 0 <= n < |PriorRows(facts)| && Left(b, facts, at, n) && r == DepartureRow(PriorRows(facts)[n], b, at);
        DepartureIsExact(b, facts, at, n);
        DepartureIsShaped(b, facts, at, n, r);
      }
    }
  }

  lemma SortedFrom(b: Bundle, facts: Facts, at: Time, rows: seq<Row>)
    requires RowsFrom(b, facts, at, rows)
    ensures RowsFrom(b, facts, at, Sort(rows, RowLess))
  {
    hide RowLess, Assessed, DepartureRow, ObservedRow, Left, PriorRows;
    SortMembers(rows, RowLess);
  }

  /** The rows of an assessment are exactly one for each candidate and one for each collection of the retained window
      that a current window no longer lists, each saying what the inputs say about it, in order. */
  lemma RowsAreExact(b: Bundle, facts: Facts, at: Time)
    requires BundleOk(b) && FactsOk(facts)
    ensures RowsAre(b, facts, at, AssessmentOf(b, facts, at).rows) && InOrder(AssessmentOf(b, facts, at).rows)
  {
    hide BundleOk, FactsOk, AssessmentOf, AllRows, RowsFrom, RowsAre, InOrder, DistinctIds, RowLess, Shaped;
    var rows := AllRows(b, facts, at);
    AssessmentParts(b, facts, at, AssessmentOf(b, facts, at));
    AllRowsFrom(b, facts, at);
    AllShaped(b, facts, at, rows);
    AllIdsDiffer(b, facts, at);
    SortedInOrder(rows, Sort(rows, RowLess));
    SortedFrom(b, facts, at, rows);
    RowsSay(b, facts, at, Sort(rows, RowLess));
  }

  // ---------------------------------------------------------------- diagnostics

  /** The post mentions no collection of the window. */
  predicate Unbound(b: Bundle, p: Post)
  {
    forall j :: 0 <= j < |b.marketplace.candidates| && Named(b.marketplace.candidates[j]) ==> !AttentionStored.Touches(p, b.marketplace.candidates[j])
  }

  /** What there is to report besides rows: posts about nothing in the window, and a reported head that is invalid or old. */
  predicate IsReported(b: Bundle, facts: Facts, at: Time, d: Diagnostic)
  {
    match d.code
    case UnboundSocial => exists k :: 0 <= k < |AttentionStored.PostsOf(b.x)| && ReportsPost(b, facts, k, d, false)
    case HostileUnboundSocial => exists k :: 0 <= k < |AttentionStored.PostsOf(b.x)| && ReportsPost(b, facts, k, d, true)
    case InvalidBaseContext =>
      && b.base.ReportedHead? && !BaseIsTimely(b.base, at)
      && d.evidenceId == InvalidBaseDiagnosticId(BundleId(b), b.base.chainId, b.base.acquiredAt, b.base.blockTimestamp)
    case StaleBaseContext =>
      && BaseIsTimely(b.base, at) && !BaseIsFresh(b.base, at)
      && d.evidenceId == StaleBaseDiagnosticId(BundleId(b), b.base.acquiredAt, b.base.acquiredAt + 120_000, b.base.blockTimestamp)
  }

  predicate ReportsPost(b: Bundle, facts: Facts, k: nat, d: Diagnostic, hostile: bool)
  {
    && k < |AttentionStored.PostsOf(b.x)| && Unbound(b, AttentionStored.PostsOf(b.x)[k])
    && hostile == (BoundOtherwise(AttentionStored.PostsOf(b.x)[k], facts) || AttentionStored.PostsOf(b.x)[k].hard != [])
    && d.evidenceId == SocialDiagnosticId(BundleId(b), AttentionStored.PostsOf(b.x)[k], d.code)
  }

  /** By kind, then by identifier. */
  predicate ReportedBefore(d: Diagnostic, e: Diagnostic)
  {
    if d.code == e.code then Less(d.evidenceId, e.evidenceId)
    else d.code.UnboundSocial? || (d.code.HostileUnboundSocial? && !e.code.UnboundSocial?) || (d.code.InvalidBaseContext? && e.code.StaleBaseContext?)
  }

  lemma ReportedBeforeIs(d: Diagnostic, e: Diagnostic)
    ensures DiagnosticLess(d, e) <==> ReportedBefore(d, e)
  {
    hide Less;
  }

  /** The first ten of everything that is reported. */
  ghost predicate DiagnosticsAre(b: Bundle, facts: Facts, at: Time, diagnostics: seq<Diagnostic>)
  {
    exists all: seq<Diagnostic> ::
      && (forall d :: d in all <==> IsReported(b, facts, at, d))
      && (forall i, j :: 0 <= i < j < |all| ==> ReportedBefore(all[i], all[j]))
      && diagnostics == if |all| <= 10 then all else all[..10]
  }

  lemma UnboundIs(b: Bundle, facts: Facts, at: Time, k: nat)
    requires FactsOk(facts) && b.x.RecordedPosts? && k < |b.x.posts|
    ensures |SocialsOf(b, facts, at)| == |b.x.posts|
    ensures var (s, p) := (SocialsOf(b, facts, at)[k], b.x.posts[k]);
            && s.post == p && s.conflict == BoundOtherwise(p, facts) && (s.matched == [] <==> Unbound(b, p))
  {
    var states, p, candidates := Prepared(b, facts, at), b.x.posts[k], b.marketplace.candidates;
    hide FactsOk, SocialsOf, Prepared, BoundOtherwise, Conflicting, ViewOf, Unbound, HasUnknown;
    AttentionStored.SocialIs(b, facts, at, k);
    BoundOtherwiseIs(p, facts);
    UnmatchedIs(b, facts, at, p);
    var s := SocialsOf(b, facts, at)[k];
    assert s.matched == [] <==> MatchedIds(p, states) == {} by {
      if s.matched != [] { assert s.matched[0] in MatchedIds(p, states); }
      if MatchedIds(p, states) != {} { var id := Pick(MatchedIds(p, states)); assert id in s.matched; }
    }
  }

  lemma UnmatchedIs(b: Bundle, facts: Facts, at: Time, p: Post)
    ensures MatchedIds(p, Prepared(b, facts, at)) == {} <==> Unbound(b, p)
  {
    var states, candidates := Prepared(b, facts, at), b.marketplace.candidates;
    AttentionStored.PreparedFrom(b, facts, at);
    forall j | 0 <= j < |candidates| ensures Mentions(p, states[j]) <==> Named(candidates[j]) && AttentionStored.Touches(p, candidates[j]) {
      AttentionStored.MentionsIs(p, states[j]);
      NamedIs(candidates[j]);
    }
    hide Prepared, Named, AttentionStored.Touches, AttentionStored.FromCandidates;
    hide Mentions;
    if !Unbound(b, p) {
      var j :| 0 <= j < |candidates| && Named(candidates[j]) && AttentionStored.Touches(p, candidates[j]);
      assert states[j].identity.value.collectionId in MatchedIds(p, states);
    }
  }

  /** The diagnostic of one post that matches nothing. */
  predicate Diagnoses(s: Social, bundleId: string, d: Diagnostic)
  {
    && s.matched == [] && (d.code.HostileUnboundSocial? || d.code.UnboundSocial?)
    && (d.code.HostileUnboundSocial? <==> s.conflict || s.post.hard != []) && d.evidenceId == SocialDiagnosticId(bundleId, s.post, d.code)
  }

  lemma {:induction false} SocialDiagnosed(socials: seq<Social>, bundleId: string, d: Diagnostic)
    ensures d in SocialDiagnostics(socials, bundleId) <==> exists k :: 0 <= k < |socials| && Diagnoses(socials[k], bundleId, d)
  {
    hide SocialDiagnosticId;
    if socials != [] {
      var front, s := socials[..|socials| - 1], socials[|socials| - 1];
      SocialDiagnosed(front, bundleId, d);
      if k :| 0 <= k < |front| && Diagnoses(front[k], bundleId, d) { assert socials[k] == front[k]; }
      if k :| 0 <= k < |socials| && Diagnoses(socials[k], bundleId, d) {
        if k < |front| { assert front[k] == socials[k]; }
      }
    }
  }

  lemma PostReported(b: Bundle, facts: Facts, at: Time, k: nat, d: Diagnostic)
    requires FactsOk(facts) && b.x.RecordedPosts? && k < |b.x.posts|
    ensures |SocialsOf(b, facts, at)| == |b.x.posts|
    ensures Diagnoses(SocialsOf(b, facts, at)[k], BundleId(b), d) <==>
              (d.code.UnboundSocial? && ReportsPost(b, facts, k, d, false)) || (d.code.HostileUnboundSocial? && ReportsPost(b, facts, k, d, true))
  {
    hide FactsOk, SocialsOf, BoundOtherwise, Unbound, SocialDiagnosticId, BundleId;
    UnboundIs(b, facts, at, k);
  }

  lemma NoSocials(b: Bundle, facts: Facts, at: Time)
    requires b.x.XAbsent?
    ensures SocialsOf(b, facts, at) == []
  {
    hide Prepared;
  }

  /** Exactly the posts about nothing in the window are reported. */
  lemma PostsReported(b: Bundle, facts: Facts, at: Time, d: Diagnostic)
    requires FactsOk(facts)
    ensures d in SocialDiagnostics(SocialsOf(b, facts, at), BundleId(b)) <==>
              (d.code.UnboundSocial? || d.code.HostileUnboundSocial?) && IsReported(b, facts, at, d)
  {
    hide FactsOk, SocialsOf, BoundOtherwise, Unbound, SocialDiagnosticId, BundleId, SocialDiagnostics, Diagnoses, ReportsPost, BaseIsTimely, BaseIsFresh;
    var socials := SocialsOf(b, facts, at);
    SocialDiagnosed(socials, BundleId(b), d);
    if b.x.RecordedPosts? {
      AttentionStored.EveryPostRead(b, facts, at);
      forall k | 0 <= k < |b.x.posts|
        ensures Diagnoses(socials[k], BundleId(b), d) <==>
                  (d.code.UnboundSocial? && ReportsPost(b, facts, k, d, false)) || (d.code.HostileUnboundSocial? && ReportsPost(b, facts, k, d, true))
      {
        PostReported(b, facts, at, k, d);
      }
      if IsReported(b, facts, at, d) && d.code.UnboundSocial? {
        var k :| 0 <= k < |AttentionStored.PostsOf(b.x)| && ReportsPost(b, facts, k, d, false);
        assert Diagnoses(socials[k], BundleId(b), d);
      }
      if IsReported(b, facts, at, d) && d.code.HostileUnboundSocial? {
        var k :| 0 <= k < |AttentionStored.PostsOf(b.x)| && ReportsPost(b, facts, k, d, true);
        assert Diagnoses(socials[k], BundleId(b), d);
      }
      if k :| 0 <= k < |socials| && Diagnoses(socials[k], BundleId(b), d) {
        assert ReportsPost(b, facts, k, d, d.code.HostileUnboundSocial?);
      }
    } else {
      NoSocials(b, facts, at);
    }
  }

  lemma BaseReported(b: Bundle, facts: Facts, at: Time, d: Diagnostic)
    ensures d in BaseDiagnostics(b.base, at, BundleId(b)) <==>
              (d.code.InvalidBaseContext? || d.code.StaleBaseContext?) && IsReported(b, facts, at, d)
  {
    hide BundleId, InvalidBaseDiagnosticId, StaleBaseDiagnosticId, ReportsPost;
  }

  lemma AllReported(b: Bundle, facts: Facts, at: Time, all: seq<Diagnostic>, d: Diagnostic)
    requires FactsOk(facts) && all == SocialDiagnostics(SocialsOf(b, facts, at), BundleId(b)) + BaseDiagnostics(b.base, at, BundleId(b))
    ensures d in Sort(all, DiagnosticLess) <==> IsReported(b, facts, at, d)
  {
    hide FactsOk, SocialsOf, SocialDiagnostics, BaseDiagnostics, BundleId, IsReported, DiagnosticLess, Sort;
    SortMembers(all, DiagnosticLess);
    PostsReported(b, facts, at, d);
    BaseReported(b, facts, at, d);
  }

  lemma ReportsInOrder(all: seq<Diagnostic>)
    requires forall i, j :: 0 <= i < j < |all| ==> all[i] != all[j]
    ensures var sorted := Sort(all, DiagnosticLess); forall i, j :: 0 <= i < j < |sorted| ==> ReportedBefore(sorted[i], sorted[j])
  {
    hide DiagnosticLess, ReportedBefore, Sort;
    DiagnosticLessOrder();
    forall i, j | 0 <= i < j < |all| ensures DiagnosticLess(all[i], all[j]) || DiagnosticLess(all[j], all[i]) { DiagnosticsCompare(all[i], all[j]); }
    SortIncreasing(all, DiagnosticLess);
    var sorted := Sort(all, DiagnosticLess);
    forall i, j | 0 <= i < j < |sorted| ensures ReportedBefore(sorted[i], sorted[j]) { ReportedBeforeIs(sorted[i], sorted[j]); }
  }

  lemma FirstTen(b: Bundle, facts: Facts, at: Time, all: seq<Diagnostic>)
    requires all == SocialDiagnostics(SocialsOf(b, facts, at), BundleId(b)) + BaseDiagnostics(b.base, at, BundleId(b))
    ensures var sorted := Sort(all, DiagnosticLess); AssessmentOf(b, facts, at).diagnostics == if |sorted| <= 10 then sorted else sorted[..10]
  {
    hide SocialsOf, SocialDiagnostics, BaseDiagnostics, BundleId, DiagnosticLess, Sort, AssessmentOf;
    AssessmentParts(b, facts, at, AssessmentOf(b, facts, at));
  }

  /** An assessment reports the first ten of what there is to report. */
  lemma DiagnosticsAreExact(b: Bundle, facts: Facts, at: Time)
    requires BundleOk(b) && FactsOk(facts)
    ensures DiagnosticsAre(b, facts, at, AssessmentOf(b, facts, at).diagnostics)
  {
    hide BundleOk, FactsOk, SocialsOf, SocialDiagnostics, BaseDiagnostics, BundleId, IsReported, DiagnosticLess, ReportedBefore, Sort, AssessmentOf;
    var all := SocialDiagnostics(SocialsOf(b, facts, at), BundleId(b)) + BaseDiagnostics(b.base, at, BundleId(b));
    DistinctPosts(b, facts, at, SocialsOf(b, facts, at));
    DiagnosticsDistinct(SocialsOf(b, facts, at), BundleId(b), b.base, at, all);
    FirstTen(b, facts, at, all);
    ReportsInOrder(all);
    forall d ensures d in Sort(all, DiagnosticLess) <==> IsReported(b, facts, at, d) { AllReported(b, facts, at, all, d); }
  }

  // ---------------------------------------------------------------- summaries

  predicate CountsForSome(b: Bundle, facts: Facts, at: Time, k: nat)
  {
    exists i :: 0 <= i < |b.marketplace.candidates| && Counts(b, facts, at, i, k)
  }

  function ClustersThatCount(b: Bundle, facts: Facts, at: Time): set<string>
  {
    set k | 0 <= k < |AttentionStored.PostsOf(b.x)| && CountsForSome(b, facts, at, k) :: AttentionStored.PostsOf(b.x)[k].cluster
  }

  /** The window's posts last as long as the oldest of their clusters. */
  predicate WindowLasts(b: Bundle, facts: Facts, t: Time)
    requires b.x.RecordedPosts?
  {
    && t <= b.x.acquiredAt + 7_200_000
    && (forall k :: 0 <= k < |b.x.posts| ==> t <= AttentionTime.ClusterExpiry(b.x.posts[k], facts, b.x.acquiredAt))
    && (t == b.x.acquiredAt + 7_200_000 || exists k :: 0 <= k < |b.x.posts| && t == AttentionTime.ClusterExpiry(b.x.posts[k], facts, b.x.acquiredAt))
  }

  predicate SummaryIs(b: Bundle, facts: Facts, at: Time, x: XSummary)
  {
    match b.x
    case XAbsent => x == XIsAbsent
    case RecordedPosts(acquiredAt, hasNextPage, posts) =>
      && x.XObserved? && x.acquiredAt == acquiredAt && x.hasNextPage == hasNextPage && x.postCount == |posts|
      && WindowLasts(b, facts, x.validUntil) && x.usableClusters == |ClustersThatCount(b, facts, at)|
  }

  predicate BaseSummaryIs(b: BaseSource, at: Time, s: BaseSummary)
  {
    match b
    case BaseAbsent => s == BaseIsAbsent
    case ReportedHead(_, acquiredAt, blockTimestamp) =>
      if !BaseIsTimely(b, at) then s == BaseIsInvalid
      else if BaseIsFresh(b, at) then s == BaseIsUsable(acquiredAt, acquiredAt + 120_000, blockTimestamp)
      else s == BaseIsStale(acquiredAt, acquiredAt + 120_000, blockTimestamp)
  }

  /** Everything but rows and diagnostics. */
  predicate HeaderIs(b: Bundle, facts: Facts, at: Time, a: Assessment)
  {
    var m := b.marketplace;
    && a.bundleId == BundleId(b) && a.refreshId == RefreshId(BundleId(b)) && a.predecessorId == facts.head && a.evaluatedAt == at
    && a.marketplace.acquiredAt == m.acquiredAt && a.marketplace.validUntil == m.validUntil && a.marketplace.candidateCount == |m.candidates|
    && a.marketplace.hasNextPage == m.hasNextPage && a.marketplace.usable == WindowCurrent(b, facts, at)
    && (a.marketplace.priorWindow.Some? <==> facts.window.Some?)
    && (facts.window.Some? ==> a.marketplace.priorWindow.value == facts.window.value.evidenceId)
    && SummaryIs(b, facts, at, a.x) && BaseSummaryIs(b.base, at, a.base)
  }

  /** The last candidate of a collection. */
  lemma {:induction false} LastOfCollection(candidates: seq<Candidate>, j: nat) returns (i: nat)
    requires j < |candidates| && Named(candidates[j])
    ensures j <= i < |candidates| && AttentionStored.Latest(candidates, i) && AttentionStored.SameCollection(candidates[j], candidates[i])
    decreases |candidates| - j
  {
    hide Named, IdentityReasons;
    NamedIs(candidates[j]);
    if AttentionStored.Latest(candidates, j) {
      i := j;
    } else {
      var l :| j < l < |candidates| && AttentionStored.SameCollection(candidates[j], candidates[l]);
      NamedIs(candidates[l]);
      i := LastOfCollection(candidates, l);
    }
  }

  lemma CountsIsUsable(b: Bundle, facts: Facts, at: Time, i: nat, k: nat)
    requires FactsOk(facts) && i < |b.marketplace.candidates| && Counts(b, facts, at, i, k)
    ensures k < |SocialsOf(b, facts, at)| && SocialsOf(b, facts, at)[k].attributable.Some? && UsablePost(SocialsOf(b, facts, at)[k], at)
    ensures SocialsOf(b, facts, at)[k].post == AttentionStored.PostsOf(b.x)[k]
  {
    hide FactsOk, SocialsOf, Named, AttentionStored.Latest, UsablePost, CollectionId, BoundOtherwise, AttentionTime.ClusterExpiry, AttentionStored.Touches,
      AttentionStored.Ambiguous, AttentionStored.PartlyUnknown;
    LatestIsNamed(b.marketplace.candidates, i);
    ReadAt(b, facts, at, i, CollectionId(Addresses(b.marketplace.candidates[i].contracts)), SocialsOf(b, facts, at), k);
  }

  /** A post that is attributed to a collection is bound to the last candidate of it. */
  lemma UsableIsCounted(b: Bundle, facts: Facts, at: Time, k: nat)
    requires FactsOk(facts) && b.x.RecordedPosts? && k < |b.x.posts| == |SocialsOf(b, facts, at)|
    requires SocialsOf(b, facts, at)[k].attributable.Some? && UsablePost(SocialsOf(b, facts, at)[k], at)
    ensures CountsForSome(b, facts, at, k)
  {
    hide FactsOk, SocialsOf, Named, AttentionStored.Latest, UsablePost, CollectionId, Prepared, IdentityReasons, Counts, AttentionStored.SameCollection,
      AttentionStored.Touches;
    var s, states, candidates := SocialsOf(b, facts, at)[k], Prepared(b, facts, at), b.marketplace.candidates;
    var j := Attributed(b, facts, at, k);
    var i := LastOfCollection(candidates, j);
    CollectionShared(candidates[j], candidates[i]);
    LatestIsNamed(candidates, i);
    ReadAt(b, facts, at, i, CollectionId(Addresses(candidates[i].contracts)), SocialsOf(b, facts, at), k);
  }

  lemma CollectionShared(c: Candidate, d: Candidate)
    requires AttentionStored.SameCollection(c, d)
    ensures CollectionId(Addresses(c.contracts)) == CollectionId(Addresses(d.contracts))
  {
    hide CollectionId, IdentityReasons;
  }

  lemma MatchedFrom(p: Post, states: seq<State>, candidates: seq<Candidate>, id: string) returns (j: nat)
    requires AttentionStored.FromCandidates(states, candidates) && id in MatchedIds(p, states)
    ensures j < |candidates| && Named(candidates[j]) && id == CollectionId(Addresses(candidates[j].contracts))
  {
    hide CollectionId, IdentityReasons, Named;
    j :| 0 <= j < |states| && Mentions(p, states[j]) && states[j].identity.Some? && states[j].identity.value.collectionId == id;
    NamedIs(candidates[j]);
  }

  lemma Attributed(b: Bundle, facts: Facts, at: Time, k: nat) returns (j: nat)
    requires b.x.RecordedPosts? && k < |b.x.posts| == |SocialsOf(b, facts, at)| && SocialsOf(b, facts, at)[k].attributable.Some?
    ensures j < |b.marketplace.candidates| && Named(b.marketplace.candidates[j])
    ensures var (s, id) := (SocialsOf(b, facts, at)[k], CollectionId(Addresses(b.marketplace.candidates[j].contracts)));
            s.attributable == Some(id) && id in s.matched
  {
    hide SocialsOf, Prepared, CollectionId, Conflicting, ViewOf, HasUnknown, AttentionTime.ClusterExpiry, MatchedIds, IdentityReasons, Named,
      AttentionStored.FromCandidates, Regressing;
    var s, states := SocialsOf(b, facts, at)[k], Prepared(b, facts, at);
    SocialParts(b, facts, at, k);
    AttentionStored.SocialIs(b, facts, at, k);
    AttentionStored.PreparedFrom(b, facts, at);
    j := MatchedFrom(b.x.posts[k], states, b.marketplace.candidates, s.matched[0]);
  }

  lemma UsableClustersAre(b: Bundle, facts: Facts, at: Time)
    requires FactsOk(facts) && b.x.RecordedPosts?
    ensures UsableClusters(SocialsOf(b, facts, at), at) == ClustersThatCount(b, facts, at)
  {
    hide FactsOk, SocialsOf, UsablePost, Counts, CountsForSome;
    var socials := SocialsOf(b, facts, at);
    AttentionStored.EveryPostRead(b, facts, at);
    forall k | 0 <= k < |socials|
      ensures socials[k].post == b.x.posts[k] && (socials[k].attributable.Some? && UsablePost(socials[k], at) <==> CountsForSome(b, facts, at, k))
    {
      UsableIffCounted(b, facts, at, k);
    }
    forall c ensures c in UsableClusters(socials, at) <==> c in ClustersThatCount(b, facts, at) {
      if c in UsableClusters(socials, at) {
        var k :| 0 <= k < |socials| && socials[k].attributable.Some? && UsablePost(socials[k], at) && socials[k].post.cluster == c;
        assert CountsForSome(b, facts, at, k);
      }
      if c in ClustersThatCount(b, facts, at) {
        var k :| 0 <= k < |AttentionStored.PostsOf(b.x)| && CountsForSome(b, facts, at, k) && AttentionStored.PostsOf(b.x)[k].cluster == c;
        assert socials[k].post.cluster == c;
      }
    }
  }

  lemma UsableIffCounted(b: Bundle, facts: Facts, at: Time, k: nat)
    requires FactsOk(facts) && b.x.RecordedPosts? && k < |b.x.posts| == |SocialsOf(b, facts, at)|
    ensures var s := SocialsOf(b, facts, at)[k];
            s.post == b.x.posts[k] && (s.attributable.Some? && UsablePost(s, at) <==> CountsForSome(b, facts, at, k))
  {
    hide FactsOk, SocialsOf, UsablePost, Counts, Unbound, BoundOtherwise;
    UnboundIs(b, facts, at, k);
    if SocialsOf(b, facts, at)[k].attributable.Some? && UsablePost(SocialsOf(b, facts, at)[k], at) { UsableIsCounted(b, facts, at, k); }
    if CountsForSome(b, facts, at, k) {
      var i :| 0 <= i < |b.marketplace.candidates| && Counts(b, facts, at, i, k);
      CountsIsUsable(b, facts, at, i, k);
    }
  }

  lemma SummaryLasts(b: Bundle, facts: Facts, at: Time, socials: seq<Social>)
    requires b.x.RecordedPosts? && |socials| == |b.x.posts|
    requires forall k :: 0 <= k < |socials| ==> socials[k].validUntil == AttentionTime.ClusterExpiry(b.x.posts[k], facts, b.x.acquiredAt)
    ensures WindowLasts(b, facts, Earliest(b.x.acquiredAt + SOCIAL_VALIDITY, set i | 0 <= i < |socials| :: socials[i].validUntil))
  {
    hide AttentionTime.ClusterExpiry;
    var times := set i | 0 <= i < |socials| :: socials[i].validUntil;
    var t := Earliest(b.x.acquiredAt + SOCIAL_VALIDITY, times);
    forall k | 0 <= k < |socials| ensures t <= socials[k].validUntil { assert socials[k].validUntil in times; }
  }

  lemma SummaryIsExact(b: Bundle, facts: Facts, at: Time)
    requires FactsOk(facts)
    ensures SummaryIs(b, facts, at, SummaryOfX(b, facts, at))
  {
    hide FactsOk, SocialsOf, UsableClusters, ClustersThatCount, WindowLasts, AttentionTime.ClusterExpiry, Earliest;
    if b.x.RecordedPosts? {
      var socials := SocialsOf(b, facts, at);
      AttentionStored.EveryPostRead(b, facts, at);
      forall k | 0 <= k < |socials| ensures socials[k].validUntil == AttentionTime.ClusterExpiry(b.x.posts[k], facts, b.x.acquiredAt) {
        SocialParts(b, facts, at, k);
      }
      SummaryLasts(b, facts, at, socials);
      UsableClustersAre(b, facts, at);
    }
  }

  lemma BaseSummaryIsExact(b: BaseSource, at: Time)
    ensures BaseSummaryIs(b, at, BaseContext(b, at))
  {}

  lemma HeaderParts(b: Bundle, facts: Facts, at: Time)
    ensures var (a, m) := (AssessmentOf(b, facts, at), b.marketplace);
            && a.bundleId == BundleId(b) && a.refreshId == RefreshId(BundleId(b)) && a.predecessorId == facts.head && a.evaluatedAt == at
            && a.marketplace == MarketplaceSummary(m.acquiredAt, m.validUntil, |m.candidates|, m.hasNextPage, MarketplaceUsable(m, facts, at),
                                                   if facts.window.None? then None else Some(facts.window.value.evidenceId))
            && a.x == SummaryOfX(b, facts, at) && a.base == BaseContext(b.base, at)
  {
    hide AllRows, RowLess, Diagnostics, SummaryOfX, BaseContext, MarketplaceUsable, BundleId, RefreshId, Sort;
  }

  lemma HeaderIsExact(b: Bundle, facts: Facts, at: Time)
    requires FactsOk(facts)
    ensures HeaderIs(b, facts, at, AssessmentOf(b, facts, at))
  {
    hide FactsOk, AssessmentOf, SummaryIs, BaseSummaryIs, SummaryOfX, BaseContext, MarketplaceUsable, WindowCurrent, BundleId, RefreshId;
    HeaderParts(b, facts, at);
    SummaryIsExact(b, facts, at);
    BaseSummaryIsExact(b.base, at);
    CurrentIs(b, facts, at);
  }

  /** The whole assessment says exactly what the bundle, the facts and the time say. */
  lemma AssessmentIsExact(b: Bundle, facts: Facts, at: Time)
    requires BundleOk(b) && FactsOk(facts)
    ensures var a := AssessmentOf(b, facts, at);
            && HeaderIs(b, facts, at, a) && RowsAre(b, facts, at, a.rows) && InOrder(a.rows) && DiagnosticsAre(b, facts, at, a.diagnostics)
  {
    hide BundleOk, FactsOk, AssessmentOf, HeaderIs, RowsAre, InOrder, DiagnosticsAre;
    HeaderIsExact(b, facts, at);
    RowsAreExact(b, facts, at);
    DiagnosticsAreExact(b, facts, at);
  }
}
