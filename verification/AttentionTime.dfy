/** Decisions are piecewise constant in time: two evaluation times on the same side of every acquisition
    and expiry give the same decision (packages/attention/src/history-schemas.ts:275-308). */
module AttentionTime {
  import opened Order
  import opened Attention
  import opened AttentionFacts
  import opened Assessor
  import opened AttentionAdvance
  import opened AttentionRows
  import opened AttentionTotality

  /** A row without the time it was assessed, and whether it had expired by then. */
  datatype DecisionRow = DecisionRow(row: Row, expired: bool)
  datatype Decision = Decision(assessment: Assessment, rows: seq<DecisionRow>, nextFacts: Facts)

  /** Everything `decisionHash` covers; the digest is ideal, so it is the value itself. */
  function DecisionOf(a: Assessment, next: Facts): Decision
  {
    Decision(a.(evaluatedAt := 0, rows := []),
             seq(|a.rows|, i requires 0 <= i < |a.rows| => DecisionRow(a.rows[i].(assessedAt := 0), a.evaluatedAt >= a.rows[i].expiresAt)), next)
  }

  predicate SameSideOf(s: Time, t: Time, boundary: Time) { s >= boundary <==> t >= boundary }

  /** When a cluster stops counting. */
  function ClusterExpiry(p: Post, facts: Facts, acquiredAt: Time): Time
  {
    FirstSeenAt(p, ViewOf(facts), acquiredAt) + SOCIAL_VALIDITY
  }

  /** On the same side of every source acquisition, window expiry, cluster expiry and base expiry. */
  predicate SameSide(b: Bundle, facts: Facts, s: Time, t: Time)
  {
    && SameSideOf(s, t, b.marketplace.acquiredAt) && SameSideOf(s, t, b.marketplace.validUntil)
    && (b.x.RecordedPosts? ==>
          SameSideOf(s, t, b.x.acquiredAt) &&
          forall i :: 0 <= i < |b.x.posts| ==> SameSideOf(s, t, ClusterExpiry(b.x.posts[i], facts, b.x.acquiredAt)))
    && (b.base.ReportedHead? ==>
          SameSideOf(s, t, b.base.acquiredAt) && SameSideOf(s, t, b.base.acquiredAt + BASE_CONTEXT_VALIDITY))
  }

  // ---------------------------------------------------------------- the passes

  lemma MarketplaceSame(b: Bundle, facts: Facts, s: Time, t: Time)
    requires SameSide(b, facts, s, t)
    ensures MarketplaceReasons(b.marketplace, facts, s) == MarketplaceReasons(b.marketplace, facts, t)
    ensures MarketplaceUsable(b.marketplace, facts, s) == MarketplaceUsable(b.marketplace, facts, t)
    ensures BaseContext(b.base, s) == BaseContext(b.base, t)
    ensures Admitted(b.x, facts, s) == Admitted(b.x, facts, t)
  {
    hide ClusterExpiry;
  }

  lemma PreparedSame(b: Bundle, facts: Facts, s: Time, t: Time)
    requires SameSide(b, facts, s, t)
    ensures Prepared(b, facts, s) == Prepared(b, facts, t)
  {
    hide SameSide, Prepared, MarketplaceReasons, WithHistory, CurrentConflicts;
    MarketplaceSame(b, facts, s, t);
    forall i | 0 <= i < |b.marketplace.candidates| ensures Prepared(b, facts, s)[i] == Prepared(b, facts, t)[i] {
      PreparedAt(b, facts, s, i);
      PreparedAt(b, facts, t, i);
    }
  }

  lemma SocialSame(p: Post, x: XSource, states: seq<State>, facts: Facts, s: Time, t: Time, bundleId: string)
    requires x.RecordedPosts? && SameSideOf(s, t, x.acquiredAt)
    ensures SocialOf(p, x, states, facts, s, bundleId) == SocialOf(p, x, states, facts, t, bundleId)
  {
    hide MatchedIds, HasUnknown, Conflicting, FirstSeenAt, ViewOf, SocialEvidenceId, Regressing, Ordered;
  }

  lemma SocialsSame(b: Bundle, facts: Facts, s: Time, t: Time, socials: seq<Social>)
    requires SameSide(b, facts, s, t) && socials == SocialsOf(b, facts, s)
    ensures socials == SocialsOf(b, facts, t)
    ensures forall i :: 0 <= i < |socials| ==> SameSideOf(s, t, socials[i].validUntil)
  {
    PreparedSame(b, facts, s, t);
    if b.x.RecordedPosts? {
      assert SameSideOf(s, t, b.x.acquiredAt);
      forall i | 0 <= i < |b.x.posts| ensures SameSideOf(s, t, ClusterExpiry(b.x.posts[i], facts, b.x.acquiredAt)) {}
      hide SameSide, Prepared, SocialOf, BundleId;
      forall i | 0 <= i < |b.x.posts|
        ensures SocialsOf(b, facts, s)[i] == SocialsOf(b, facts, t)[i] && SameSideOf(s, t, SocialsOf(b, facts, s)[i].validUntil)
      {
        SocialSame(b.x.posts[i], b.x, Prepared(b, facts, s), facts, s, t, BundleId(b));
        SocialExpiry(b.x.posts[i], b.x, Prepared(b, facts, s), facts, s, BundleId(b));
      }
    }
  }

  lemma SocialExpiry(p: Post, x: XSource, states: seq<State>, facts: Facts, s: Time, bundleId: string)
    requires x.RecordedPosts?
    ensures SocialOf(p, x, states, facts, s, bundleId).validUntil == ClusterExpiry(p, facts, x.acquiredAt)
  {
    hide MatchedIds, HasUnknown, Conflicting, FirstSeenAt, ViewOf, SocialEvidenceId, Regressing, Ordered;
  }

  lemma {:induction false} AbsorbAllSame(state: State, socials: seq<Social>, s: Time, t: Time)
    requires state.identity.Some? && forall i :: 0 <= i < |socials| ==> SameSideOf(s, t, socials[i].validUntil)
    ensures AbsorbAll(state, socials, s) == AbsorbAll(state, socials, t)
  {
    hide SocialReasons;
    if socials == [] {
    } else {
      AbsorbAllSame(state, socials[..|socials| - 1], s, t);
    }
  }

  lemma AssessedSame(b: Bundle, facts: Facts, s: Time, t: Time)
    requires SameSide(b, facts, s, t)
    ensures Assessed(b, facts, s) == Assessed(b, facts, t)
  {
    hide SameSide, Assessed, Prepared, SocialsOf, BaseContext, WithPages, SameSideOf;
    MarketplaceSame(b, facts, s, t);
    PreparedSame(b, facts, s, t);
    var socials := SocialsOf(b, facts, s);
    SocialsSame(b, facts, s, t, socials);
    var states := Prepared(b, facts, s);
    forall i | 0 <= i < |b.marketplace.candidates| ensures Assessed(b, facts, s)[i] == Assessed(b, facts, t)[i] {
      AssessedAt(b, facts, s, i);
      AssessedAt(b, facts, t, i);
      WithSocialSame(states, i, b.x, socials, s, t);
    }
  }

  lemma WithSocialSame(states: seq<State>, i: nat, x: XSource, socials: seq<Social>, s: Time, t: Time)
    requires i < |states| && forall i :: 0 <= i < |socials| ==> SameSideOf(s, t, socials[i].validUntil)
    ensures WithSocial(states, i, x, socials, s) == WithSocial(states, i, x, socials, t)
  {
    hide AbsorbAll, Remark, SameSideOf, IsCurrent;
    if states[i].identity.Some? { AbsorbAllSame(states[i], socials, s, t); }
  }

  // ---------------------------------------------------------------- rows

  /** The same rows, assessed at another time. */
  function Restamped(rows: seq<Row>, at: Time): (r: seq<Row>)
    ensures |r| == |rows|
  {
    seq(|rows|, i requires 0 <= i < |rows| => rows[i].(assessedAt := at))
  }

  lemma ObservedRestamped(state: State, b: Bundle, facts: Facts, s: Time, t: Time)
    requires BaseContext(b.base, s) == BaseContext(b.base, t)
    ensures ObservedRow(state, b, facts, t) == ObservedRow(state, b, facts, s).(assessedAt := t)
  {
    hide RankComparison, Score, OutcomeOf, Earliest, BaselineMissingChecks, Ordered, BaseContext, SubjectOf, RowIdOf, ChooseNextAction, BundleId;
  }

  lemma DepartureRestamped(row: PriorRow, b: Bundle, s: Time, t: Time)
    requires BaseContext(b.base, s) == BaseContext(b.base, t)
    ensures DepartureRow(row, b, t) == DepartureRow(row, b, s).(assessedAt := t)
  {
    hide BaselineMissingChecks, Ordered, BaseContext, BundleId, RankEvidenceId, ChooseNextAction;
  }

  lemma {:induction false} DeparturesRestamped(rows: seq<PriorRow>, current: set<string>, b: Bundle, s: Time, t: Time)
    requires BaseContext(b.base, s) == BaseContext(b.base, t)
    ensures DepartureRows(rows, current, b, t) == Restamped(DepartureRows(rows, current, b, s), t)
  {
    hide DepartureRow, BaseContext;
    if rows == [] {
    } else {
      DeparturesRestamped(rows[1..], current, b, s, t);
      DepartureRestamped(rows[0], b, s, t);
    }
  }

  lemma RowsRestamped(b: Bundle, facts: Facts, s: Time, t: Time)
    requires SameSide(b, facts, s, t)
    ensures AllRows(b, facts, t) == Restamped(AllRows(b, facts, s), t)
  {
    hide SameSide, Assessed, ObservedRow, DepartureRows, BaseContext, CurrentIds, MarketplaceUsable;
    MarketplaceSame(b, facts, s, t);
    AssessedSame(b, facts, s, t);
    var states := Assessed(b, facts, s);
    forall i | 0 <= i < |states| ensures ObservedRows(states, b, facts, t)[i] == Restamped(ObservedRows(states, b, facts, s), t)[i] {
      ObservedRestamped(states[i], b, facts, s, t);
    }
    assert ObservedRows(states, b, facts, t) == Restamped(ObservedRows(states, b, facts, s), t);
    if MarketplaceUsable(b.marketplace, facts, s) && facts.window.Some? {
      DeparturesRestamped(facts.window.value.rows, CurrentIds(states), b, s, t);
    }
  }

  lemma {:induction false} InsertRestamped(row: Row, rows: seq<Row>, at: Time)
    ensures Insert(row.(assessedAt := at), Restamped(rows, at), RowLess) == Restamped(Insert(row, rows, RowLess), at)
  {
    hide RowLess, Restamped;
    var row', rows' := row.(assessedAt := at), Restamped(rows, at);
    if rows == [] {
      RestampedParts([], row, at);
      assert [row] + [] == [row];
    } else {
      RowLessRestamped(row, rows[0], at);
      RestampedParts(rows, row, at);
      RestampedParts(rows[1..], rows[0], at);
      assert rows == [rows[0]] + rows[1..];
      if !RowLess(row, rows[0]) {
        InsertRestamped(row, rows[1..], at);
        RestampedParts(Insert(row, rows[1..], RowLess), rows[0], at);
        assert rows'[1..] == Restamped(rows[1..], at);
      }
    }
  }

  lemma RestampedParts(rows: seq<Row>, row: Row, at: Time)
    ensures Restamped([row] + rows, at) == [row.(assessedAt := at)] + Restamped(rows, at)
    ensures rows == [] ==> Restamped(rows, at) == []
    ensures rows != [] ==> Restamped(rows, at)[0] == rows[0].(assessedAt := at)
  {}

  lemma RowLessRestamped(a: Row, b: Row, at: Time)
    ensures RowLess(a.(assessedAt := at), b.(assessedAt := at)) == RowLess(a, b)
  {}

  /** The order of rows does not look at when they were assessed. */
  lemma {:induction false} SortRestamped(rows: seq<Row>, at: Time)
    ensures Sort(Restamped(rows, at), RowLess) == Restamped(Sort(rows, RowLess), at)
  {
    hide RowLess;
    if rows == [] {
    } else {
      var front, last := rows[..|rows| - 1], rows[|rows| - 1];
      SortRestamped(front, at);
      assert Restamped(rows, at)[..|rows| - 1] == Restamped(front, at);
      InsertRestamped(last, Sort(front, RowLess), at);
    }
  }

  // ---------------------------------------------------------------- expiry

  ghost predicate Expiring(state: State, socials: seq<Social>)
  {
    forall c :: c in state.unexpired ==> exists i :: 0 <= i < |socials| && state.unexpired[c] == socials[i].validUntil
  }

  lemma {:induction false} AbsorbAllExpiring(state: State, socials: seq<Social>, at: Time, n: nat)
    requires state.identity.Some? && state.unexpired == map[] && n <= |socials|
    ensures Expiring(AbsorbAll(state, socials[..n], at), socials)
  {
    hide SocialReasons;
    if n == 0 {
    } else {
      AbsorbAllExpiring(state, socials, at, n - 1);
      assert socials[..n][..n - 1] == socials[..n - 1];
      var before := AbsorbAll(state, socials[..n - 1], at);
      var after := Absorb(before, socials[n - 1], at);
      forall c | c in after.unexpired ensures exists i :: 0 <= i < |socials| && after.unexpired[c] == socials[i].validUntil {
        if after.unexpired[c] != socials[n - 1].validUntil { assert c in before.unexpired && after.unexpired[c] == before.unexpired[c]; }
      }
    }
  }

  lemma AssessedExpiring(b: Bundle, facts: Facts, at: Time, i: nat)
    requires i < |b.marketplace.candidates|
    ensures Expiring(Assessed(b, facts, at)[i], SocialsOf(b, facts, at))
  {
    hide Assessed, Prepared, SocialsOf, BaseContext;
    var states, socials := Prepared(b, facts, at), SocialsOf(b, facts, at);
    AssessedAt(b, facts, at, i);
    CleanBeforeSocial(b, facts, at, i);
    if states[i].identity.Some? {
      AbsorbAllExpiring(states[i], socials, at, |socials|);
      assert socials[..|socials|] == socials;
    }
    hide AbsorbAll, IsCurrent;
  }

  lemma ExpiryAt(state: State, b: Bundle, facts: Facts, at: Time)
    ensures ObservedRow(state, b, facts, at).expiresAt == Earliest(b.marketplace.validUntil, state.unexpired.Values)
  {
    hide RankComparison, Score, OutcomeOf, Earliest, BaselineMissingChecks, Ordered, BaseContext, SubjectOf, RowIdOf, ChooseNextAction, BundleId;
  }

  lemma RowsExpireAtBoundaries(b: Bundle, facts: Facts, s: Time, t: Time, rows: seq<Row>)
    requires SameSide(b, facts, s, t) && rows == AllRows(b, facts, s)
    ensures forall r :: r in rows ==> SameSideOf(s, t, r.expiresAt)
  {
    assert SameSideOf(s, t, b.marketplace.validUntil);
    hide SameSide, Assessed, ObservedRow, DepartureRows, CurrentIds, MarketplaceUsable, SocialsOf, DepartureRow;
    var states, socials := Assessed(b, facts, s), SocialsOf(b, facts, s);
    var observed := ObservedRows(states, b, facts, s);
    SocialsSame(b, facts, s, t, socials);
    forall i | 0 <= i < |states| ensures SameSideOf(s, t, observed[i].expiresAt) {
      AssessedExpiring(b, facts, s, i);
      ExpiryAt(states[i], b, facts, s);
      if observed[i].expiresAt in states[i].unexpired.Values {
        var c :| c in states[i].unexpired && states[i].unexpired[c] == observed[i].expiresAt;
        var k :| 0 <= k < |socials| && states[i].unexpired[c] == socials[k].validUntil;
      }
    }
    forall r | r in rows ensures SameSideOf(s, t, r.expiresAt) {
      if r !in observed {
        var prior := facts.window.value.rows;
        DepartureRowsAre(prior, CurrentIds(states), b, s);
        var j :| 0 <= j < |prior| && prior[j].identity.collectionId !in CurrentIds(states) && r == DepartureRow(prior[j], b, s);
        DepartureExpiry(prior[j], b, s);
      }
    }
  }

  lemma DepartureExpiry(row: PriorRow, b: Bundle, at: Time)
    ensures DepartureRow(row, b, at).expiresAt == b.marketplace.validUntil
  {
    hide BaselineMissingChecks, Ordered, BaseContext, BundleId, RankEvidenceId, ChooseNextAction;
  }

  // ---------------------------------------------------------------- the decision

  lemma NextFactsSame(b: Bundle, facts: Facts, s: Time, t: Time)
    requires SameSide(b, facts, s, t)
    ensures NextFacts(b, facts, s) == NextFacts(b, facts, t)
  {
    hide SameSide, Assessed, SocialsOf, FactsFrom, RegisterAll, AdmitAll, UsableStates, RowsOf, ViewOf, MarketplaceUsable, Admitted, BundleId;
    MarketplaceSame(b, facts, s, t);
    AssessedSame(b, facts, s, t);
    SocialsSame(b, facts, s, t, SocialsOf(b, facts, s));
  }

  lemma {:induction false} UsableClustersSame(socials: seq<Social>, s: Time, t: Time)
    requires forall i :: 0 <= i < |socials| ==> SameSideOf(s, t, socials[i].validUntil)
    ensures UsableClusters(socials, s) == UsableClusters(socials, t)
  {
    forall i | 0 <= i < |socials| ensures UsablePost(socials[i], s) == UsablePost(socials[i], t) {}
  }

  lemma SummarySame(b: Bundle, facts: Facts, s: Time, t: Time)
    requires SameSide(b, facts, s, t)
    ensures SummaryOfX(b, facts, s) == SummaryOfX(b, facts, t)
  {
    hide SameSide, SocialsOf, Prepared, UsableClusters, Earliest;
    PreparedSame(b, facts, s, t);
    SocialsSame(b, facts, s, t, SocialsOf(b, facts, s));
    if b.x.RecordedPosts? { UsableClustersSame(SocialsOf(b, facts, s), s, t); }
  }

  lemma DiagnosticsSame(b: Bundle, facts: Facts, s: Time, t: Time)
    requires SameSide(b, facts, s, t)
    ensures Diagnostics(b, facts, s) == Diagnostics(b, facts, t)
  {
    hide SameSide, SocialsOf, SocialDiagnostics, BaseContext, DiagnosticLess, BundleId;
    MarketplaceSame(b, facts, s, t);
    SocialsSame(b, facts, s, t, SocialsOf(b, facts, s));
  }

  lemma AssessmentsRestamped(b: Bundle, facts: Facts, s: Time, t: Time)
    requires SameSide(b, facts, s, t)
    ensures var (a, c) := (AssessmentOf(b, facts, s), AssessmentOf(b, facts, t));
            c == a.(evaluatedAt := t, rows := Restamped(a.rows, t))
  {
    hide SameSide, AllRows, SummaryOfX, Diagnostics, BaseContext, RowLess, MarketplaceUsable, BundleId, Restamped;
    MarketplaceSame(b, facts, s, t);
    SummarySame(b, facts, s, t);
    DiagnosticsSame(b, facts, s, t);
    RowsRestamped(b, facts, s, t);
    SortRestamped(AllRows(b, facts, s), t);
  }

  lemma RestampedDecision(a: Assessment, c: Assessment, next: Facts, t: Time)
    requires c == a.(evaluatedAt := t, rows := Restamped(a.rows, t))
    requires forall r :: r in a.rows ==> SameSideOf(a.evaluatedAt, t, r.expiresAt)
    ensures DecisionOf(a, next) == DecisionOf(c, next)
  {
    forall i | 0 <= i < |a.rows| ensures DecisionOf(a, next).rows[i] == DecisionOf(c, next).rows[i] { assert a.rows[i] in a.rows; }
  }

  /** Two evaluation times on the same side of every boundary give the same decision, next facts included. */
  lemma DecisionsAreConstant(b: Bundle, facts: Facts, s: Time, t: Time)
    requires SameSide(b, facts, s, t)
    ensures DecisionOf(AssessmentOf(b, facts, s), NextFacts(b, facts, s)) == DecisionOf(AssessmentOf(b, facts, t), NextFacts(b, facts, t))
  {
    hide SameSide, AllRows, AssessmentOf, NextFacts, DecisionOf, RowLess, Restamped;
    AssessmentsRestamped(b, facts, s, t);
    NextFactsSame(b, facts, s, t);
    var rows := AllRows(b, facts, s);
    RowsExpireAtBoundaries(b, facts, s, t, rows);
    SortMembers(rows, RowLess);
    AssessmentParts(b, facts, s, AssessmentOf(b, facts, s));
    RestampedDecision(AssessmentOf(b, facts, s), AssessmentOf(b, facts, t), NextFacts(b, facts, s), t);
  }

  /** And a bundle is assessed at both times or at neither. */
  lemma RefusalsAreConstant(b: Bundle, facts: Facts, s: Time, t: Time)
    requires SameSide(b, facts, s, t) && BundleOk(b) && FactsOk(facts) && CanonicalTime(s) && CanonicalTime(t)
    ensures Assess(b, facts, s).Some? <==> Assess(b, facts, t).Some?
  {
    hide SameSide, BundleOk, FactsOk, Assess, Assessed, NextFacts, Admissible, WithinCap;
    AssessedWhenAdmissible(b, facts, s);
    AssessedWhenAdmissible(b, facts, t);
    AssessedSame(b, facts, s, t);
    NextFactsSame(b, facts, s, t);
  }
}
