/** What stands behind a row that is put up for review. */
module AttentionReview {
  import opened Order
  import opened Wrappers
  import opened Attention
  import opened AttentionFacts
  import opened Assessor
  import opened AttentionAdvance
  import opened AttentionRows
  import opened AttentionTotality
  import opened AttentionMeaning
  import opened AttentionRowMeaning

  /** A clean, current, unexpired post about this collection and no other. */
  predicate Backs(s: Social, id: string, at: Time)
  {
    s.attributable == Some(id) && UsablePost(s, at)
  }

  ghost predicate Backed(state: State, socials: seq<Social>, at: Time)
  {
    state.identity.Some? &&
    forall c :: c in state.unexpired ==> exists i :: 0 <= i < |socials| && Backs(socials[i], state.identity.value.collectionId, at)
  }

  lemma {:induction false} AbsorbAllBacked(state: State, socials: seq<Social>, at: Time, n: nat)
    requires state.identity.Some? && state.unexpired == map[] && n <= |socials|
    ensures Backed(AbsorbAll(state, socials[..n], at), socials, at)
  {
    hide SocialReasons, UsablePost;
    if n == 0 {
    } else {
      AbsorbAllBacked(state, socials, at, n - 1);
      assert socials[..n][..n - 1] == socials[..n - 1];
      var before := AbsorbAll(state, socials[..n - 1], at);
      var id := state.identity.value.collectionId;
      var after := Absorb(before, socials[n - 1], at);
      forall c | c in after.unexpired ensures exists i :: 0 <= i < |socials| && Backs(socials[i], id, at) {
        if c !in before.unexpired { assert Backs(socials[n - 1], id, at); }
      }
    }
  }

  lemma AssessedBacked(b: Bundle, facts: Facts, at: Time, i: nat)
    requires i < |b.marketplace.candidates| && Assessed(b, facts, at)[i].identity.Some?
    ensures Backed(Assessed(b, facts, at)[i], SocialsOf(b, facts, at), at)
  {
    hide Assessed, Prepared, SocialsOf, BaseContext;
    var states, socials := Prepared(b, facts, at), SocialsOf(b, facts, at);
    AssessedAt(b, facts, at, i);
    CleanBeforeSocial(b, facts, at, i);
    if states[i].identity.Some? {
      AbsorbAllBacked(states[i], socials, at, |socials|);
      assert socials[..|socials|] == socials;
    }
    hide AbsorbAll, IsCurrent;
  }

  /** A candidate is put up for review only if it is a resolved collection with no identity conflict, in a
      current rank window, and some post of the window is clean, unexpired, in time, bound to it alone and not in
      conflict with what the post said before. Its priority is its score, which is at least 36: rank, the ranks climbed
      since a retained window that had not run out, and the clusters that count. */
  lemma ReviewIsBacked(b: Bundle, facts: Facts, at: Time, i: nat)
    requires BundleOk(b) && FactsOk(facts) && i < |b.marketplace.candidates|
    requires ObservedRow(Assessed(b, facts, at)[i], b, facts, at).outcome.Review?
    ensures var (s, row) := (Assessed(b, facts, at)[i], ObservedRow(Assessed(b, facts, at)[i], b, facts, at));
            && s.identity.Some? && Continued(s.identity.value, facts.known) && MarketplaceUsable(b.marketplace, facts, at)
            && CurrentConflicts(InitialOf(b), i) == {} && row.scorecard.value.total >= 36
            && row.outcome.priority == row.scorecard.value.total && ScoreIs(b, facts, at, i, row.scorecard.value)
            && ComparisonIs(b, facts, i, row.comparison)
            && exists k :: 0 <= k < |SocialsOf(b, facts, at)| && Backs(SocialsOf(b, facts, at)[k], s.identity.value.collectionId, at)
  {
    hide RowIs, ScoreIs, ComparisonIs;
    ReviewScored(b, facts, at, i);
    hide Assessed, SocialsOf, BundleOk, FactsOk, Backed, Backs, OutcomeOf, Score, RankComparison, CurrentConflicts, MarketplaceReasons, Continued,
      IdentityReasons, CandidateId, BundleId, Earliest, BaselineMissingChecks, Ordered, BaseContext, RowIdOf, SubjectOf, ChooseNextAction, CandidateOk,
      Bounded;
    var s := Assessed(b, facts, at)[i];
    AssessedKeeps(b, facts, at, i);
    AssessedWell(b, facts, at, i);
    OutcomeMeans(s, ObservedRow(s, b, facts, at).scorecard.value.total);
    AssessedBacked(b, facts, at, i);
    SomeBacking(s, SocialsOf(b, facts, at), at);
  }

  lemma ReviewScored(b: Bundle, facts: Facts, at: Time, i: nat)
    requires FactsOk(facts) && i < |b.marketplace.candidates|
    requires ObservedRow(Assessed(b, facts, at)[i], b, facts, at).outcome.Review?
    ensures var row := ObservedRow(Assessed(b, facts, at)[i], b, facts, at);
            && row.scorecard.Some? && row.outcome.priority == row.scorecard.value.total && ScoreIs(b, facts, at, i, row.scorecard.value)
            && ComparisonIs(b, facts, i, row.comparison)
  {
    hide FactsOk, Assessed, ObservedRow, ScoreIs, ComparisonIs, HeadingIs, LastsUntil, ChecksAre, EnumOrdered, SomeSpeaks, SomeCalls, SpeaksAgainst,
      CallsForCaution, IsNoted, IsEvidence, Increasing;
    RowIsExact(b, facts, at, i);
  }

  lemma SomeBacking(s: State, socials: seq<Social>, at: Time)
    requires Backed(s, socials, at) && s.unexpired.Keys != {}
    ensures exists k :: 0 <= k < |socials| && Backs(socials[k], s.identity.value.collectionId, at)
  {
    hide Backs;
    var c := Pick(s.unexpired.Keys);
    assert c in s.unexpired;
  }
}
