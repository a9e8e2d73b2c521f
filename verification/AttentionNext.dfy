/** The facts retained after a bundle, told by the bundle, the facts before and the time alone: the rank window, the
    known collections and the slugs they were seen under (packages/attention/src/assess.ts:769-898). What happens to
    posts and clusters is said over whole histories in `AttentionHistoryRefinement`. */
module AttentionNext {
  import opened Order
  import opened Wrappers
  import opened Tables
  import opened Attention
  import opened AttentionFacts
  import opened Assessor
  import opened AttentionAdvance
  import AttentionClosure
  import opened AttentionMeaning
  import opened AttentionRowMeaning
  import opened AttentionAssessment

  /** The candidate is a collection and nothing is wrong with what it is. */
  predicate Identified(b: Bundle, facts: Facts, at: Time, i: nat)
    requires i < |b.marketplace.candidates|
  {
    Named(b.marketplace.candidates[i]) && !IdentityInDoubt(b, facts, at, i)
  }

  function IdentityFor(c: Candidate): Identity { Identity(CollectionId(Addresses(c.contracts)), Addresses(c.contracts)) }

  predicate IsIdentified(b: Bundle, facts: Facts, at: Time, collectionId: string)
  {
    exists i :: 0 <= i < |b.marketplace.candidates| && Identified(b, facts, at, i) && IdentityFor(b.marketplace.candidates[i]).collectionId == collectionId
  }

  predicate IsKnownNow(b: Bundle, facts: Facts, at: Time, k: Known)
  {
    exists i :: 0 <= i < |b.marketplace.candidates| && Identified(b, facts, at, i)
                && k == Known(IdentityFor(b.marketplace.candidates[i]), b.marketplace.candidates[i].slug)
  }

  predicate IsAssociatedNow(b: Bundle, facts: Facts, at: Time, a: Association)
  {
    exists i :: 0 <= i < |b.marketplace.candidates| && Identified(b, facts, at, i)
                && a == Association(b.marketplace.candidates[i].slug, IdentityFor(b.marketplace.candidates[i]).collectionId)
  }

  predicate IsRankedNow(b: Bundle, facts: Facts, at: Time, r: PriorRow)
  {
    exists i :: 0 <= i < |b.marketplace.candidates| && Identified(b, facts, at, i)
                && r == PriorRow(IdentityFor(b.marketplace.candidates[i]), b.marketplace.candidates[i].slug, b.marketplace.candidates[i].rank,
                                 RankEvidenceId(b.marketplace, BundleId(b)))
  }

  /** A current window replaces the retained one, with a row for each identified candidate, by rank. */
  ghost predicate WindowIs(b: Bundle, facts: Facts, at: Time, w: RankWindow)
  {
    && w.evidenceId == RankEvidenceId(b.marketplace, BundleId(b)) && w.acquiredAt == b.marketplace.acquiredAt && w.validUntil == b.marketplace.validUntil
    && (forall r :: r in w.rows <==> IsRankedNow(b, facts, at, r))
    && forall p, q :: 0 <= p < q < |w.rows| ==> w.rows[p].rank < w.rows[q].rank
  }

  /** What a bundle leaves of the retained collections. */
  ghost predicate CollectionsAre(b: Bundle, facts: Facts, at: Time, next: Facts)
  {
    if WindowCurrent(b, facts, at) then
      && next.window.Some? && WindowIs(b, facts, at, next.window.value)
      && (forall k :: k in next.known <==> IsKnownNow(b, facts, at, k) || (k in facts.known && !IsIdentified(b, facts, at, k.identity.collectionId)))
      && forall a :: a in next.associations <==> a in facts.associations || IsAssociatedNow(b, facts, at, a)
    else next.window == facts.window && next.known == facts.known && next.associations == facts.associations
  }

  // ---------------------------------------------------------------- registering, entry by entry

  ghost predicate HaveIdentities(usable: seq<State>) { forall i :: 0 <= i < |usable| ==> usable[i].identity.Some? }

  function KnownBy(s: State): Known
    requires s.identity.Some?
  {
    Known(s.identity.value, s.candidate.slug)
  }

  function AssociationBy(s: State): Association
    requires s.identity.Some?
  {
    Association(s.candidate.slug, s.identity.value.collectionId)
  }

  lemma {:induction false} RegisteredKey(v: View, usable: seq<State>, k: string)
    requires HaveIdentities(usable)
    ensures var w := RegisterAll(v, usable);
            && ((forall i :: 0 <= i < |usable| ==> usable[i].identity.value.collectionId != k) ==>
                  (k in w.known <==> k in v.known) && (k in w.known ==> w.known[k] == v.known[k]))
            && ((exists i :: 0 <= i < |usable| && usable[i].identity.value.collectionId == k) ==>
                  k in w.known && exists i :: 0 <= i < |usable| && usable[i].identity.value.collectionId == k && w.known[k] == KnownBy(usable[i]))
  {
    if usable != [] {
      var front, last := usable[..|usable| - 1], usable[|usable| - 1];
      RegisteredKey(v, front, k);
      var w, u := RegisterAll(v, usable), RegisterAll(v, front);
      assert w == Register(u, last);
      if last.identity.value.collectionId == k {
        assert w.known[k] == KnownBy(usable[|usable| - 1]);
      } else if i :| 0 <= i < |usable| && usable[i].identity.value.collectionId == k {
        assert front[i].identity.value.collectionId == k;
        var j :| 0 <= j < |front| && front[j].identity.value.collectionId == k && u.known[k] == KnownBy(front[j]);
        assert usable[j] == front[j];
      }
    }
  }

  lemma {:induction false} RegisteredSlug(v: View, usable: seq<State>, k: string)
    requires HaveIdentities(usable)
    ensures var w := RegisterAll(v, usable);
            && ((forall i :: 0 <= i < |usable| ==> AssociationKey(AssociationBy(usable[i])) != k) ==>
                  (k in w.associations <==> k in v.associations) && (k in w.associations ==> w.associations[k] == v.associations[k]))
            && ((exists i :: 0 <= i < |usable| && AssociationKey(AssociationBy(usable[i])) == k) ==>
                  k in w.associations
                  && exists i :: 0 <= i < |usable| && AssociationKey(AssociationBy(usable[i])) == k && w.associations[k] == AssociationBy(usable[i]))
  {
    hide AssociationKey;
    if usable != [] {
      var front, last := usable[..|usable| - 1], usable[|usable| - 1];
      RegisteredSlug(v, front, k);
      var w, u := RegisterAll(v, usable), RegisterAll(v, front);
      assert w == Register(u, last);
      if AssociationKey(AssociationBy(last)) == k {
        assert w.associations[k] == AssociationBy(usable[|usable| - 1]);
      } else if i :| 0 <= i < |usable| && AssociationKey(AssociationBy(usable[i])) == k {
        assert AssociationKey(AssociationBy(front[i])) == k;
        var j :| 0 <= j < |front| && AssociationKey(AssociationBy(front[j])) == k && u.associations[k] == AssociationBy(front[j]);
        assert usable[j] == front[j];
      }
    }
  }

  lemma KeysOfAssociations(a: Association, b: Association)
    requires SlugOk(a.slug) && SlugOk(b.slug) && AssociationKey(a) == AssociationKey(b)
    ensures a == b
  {
    hide AssociationLess, SlugOk, AssociationKey, Less;
    AssociationsComparable(a, b);
    LessIrreflexive(AssociationKey(a));
    if AssociationLess(a, b) { AssociationOrdersAgree(a, b); }
    if AssociationLess(b, a) { AssociationOrdersAgree(b, a); }
  }

  // ---------------------------------------------------------------- the usable states are the identified candidates

  lemma UsableIs(b: Bundle, facts: Facts, at: Time, i: nat)
    requires FactsOk(facts) && i < |b.marketplace.candidates|
    ensures var (s, c) := (Assessed(b, facts, at)[i], b.marketplace.candidates[i]);
            && (IdentityUsable(s) <==> Identified(b, facts, at, i)) && s.candidate == c
            && (Identified(b, facts, at, i) ==> s.identity == Some(IdentityFor(c)))
  {
    hide FactsOk, Assessed, IdentityInDoubt, CollectionId, IdentityReasons, CurrentConflicts, MarketplaceReasons, Continued, CandidateId, Named,
      SpeaksAgainst, CallsForCaution, IsNoted, IsEvidence, SeenClusters, CountingClusters, Expiries;
    AssessedIs(b, facts, at, i);
    NamedIs(b.marketplace.candidates[i]);
    DoubtIs(b, facts, at, i, Assessed(b, facts, at)[i]);
  }

  lemma {:induction false} UsableMember(states: seq<State>, s: State)
    ensures s in UsableStates(states) <==> s in states && IdentityUsable(s)
  {
    hide IdentityUsable;
    if states != [] {
      var front, last := states[..|states| - 1], states[|states| - 1];
      UsableMember(front, s);
      assert states == front + [last];
    }
  }

  /** Some usable state is this candidate's. */
  lemma UsableCandidate(b: Bundle, facts: Facts, at: Time, s: State)
    requires FactsOk(facts)
    ensures s in UsableStates(Assessed(b, facts, at)) <==>
              exists i :: 0 <= i < |b.marketplace.candidates| && Identified(b, facts, at, i) && s == Assessed(b, facts, at)[i]
  {
    hide FactsOk, Assessed, Identified, IdentityUsable, UsableStates;
    UsableMember(Assessed(b, facts, at), s);
    if s in UsableStates(Assessed(b, facts, at)) {
      var i :| 0 <= i < |Assessed(b, facts, at)| && Assessed(b, facts, at)[i] == s;
      UsableIs(b, facts, at, i);
    }
    if i :| 0 <= i < |b.marketplace.candidates| && Identified(b, facts, at, i) && s == Assessed(b, facts, at)[i] {
      UsableIs(b, facts, at, i);
    }
  }

  /** The usable states and what they stand for. */
  ghost predicate StandFor(b: Bundle, facts: Facts, at: Time, usable: seq<State>)
  {
    && HaveIdentities(usable) && Separate(usable)
    && (forall n :: 0 <= n < |usable| ==> StandsForSome(b, facts, at, usable[n]))
    && forall i :: 0 <= i < |b.marketplace.candidates| && Identified(b, facts, at, i) ==> IsStoodFor(b, i, usable)
  }

  predicate StandsForSome(b: Bundle, facts: Facts, at: Time, s: State)
  {
    exists i :: 0 <= i < |b.marketplace.candidates| && Identified(b, facts, at, i) && StandsFor(s, b.marketplace.candidates[i])
  }

  predicate IsStoodFor(b: Bundle, i: nat, usable: seq<State>)
    requires i < |b.marketplace.candidates|
  {
    exists n :: 0 <= n < |usable| && StandsFor(usable[n], b.marketplace.candidates[i])
  }

  predicate StandsFor(s: State, c: Candidate) { s.candidate == c && s.identity == Some(IdentityFor(c)) }

  lemma UsableStandFor(b: Bundle, facts: Facts, at: Time, usable: seq<State>)
    requires BundleOk(b) && FactsOk(facts) && usable == UsableStates(Assessed(b, facts, at))
    ensures StandFor(b, facts, at, usable)
  {
    hide BundleOk, FactsOk, Assessed, Identified, UsableStates, Separate, Continued, IdentityFor;
    UsableSeparate(b, facts, at, usable);
    SeparateHasIdentities(usable);
    forall n | 0 <= n < |usable| ensures StandsForSome(b, facts, at, usable[n]) {
      UsableCandidate(b, facts, at, usable[n]);
      var i :| 0 <= i < |b.marketplace.candidates| && Identified(b, facts, at, i) && usable[n] == Assessed(b, facts, at)[i];
      UsableIs(b, facts, at, i);
    }
    forall i | 0 <= i < |b.marketplace.candidates| && Identified(b, facts, at, i) ensures IsStoodFor(b, i, usable) {
      UsableIs(b, facts, at, i);
      UsableCandidate(b, facts, at, Assessed(b, facts, at)[i]);
      var n :| 0 <= n < |usable| && usable[n] == Assessed(b, facts, at)[i];
      assert StandsFor(usable[n], b.marketplace.candidates[i]);
    }
  }

  lemma IdsApart(usable: seq<State>, m: nat, n: nat)
    requires HaveIdentities(usable) && Separate(usable) && m < |usable| && n < |usable|
    requires usable[m].identity.value.collectionId == usable[n].identity.value.collectionId
    ensures m == n
  {
    hide IdentityOk, SlugOk, ContractsOverlap;
    assert m < n ==> Apart(usable[m], usable[n]);
    assert n < m ==> Apart(usable[n], usable[m]);
  }

  lemma IdentifiedAmong(b: Bundle, facts: Facts, at: Time, usable: seq<State>, key: string)
    requires StandFor(b, facts, at, usable)
    ensures IsIdentified(b, facts, at, key) <==> exists n :: 0 <= n < |usable| && usable[n].identity.value.collectionId == key
  {
    hide Identified, Separate, IdentityFor;
    if IsIdentified(b, facts, at, key) {
      var j :| 0 <= j < |b.marketplace.candidates| && Identified(b, facts, at, j) && IdentityFor(b.marketplace.candidates[j]).collectionId == key;
      assert IsStoodFor(b, j, usable);
    }
    if n :| 0 <= n < |usable| && usable[n].identity.value.collectionId == key { assert StandsForSome(b, facts, at, usable[n]); }
  }

  lemma KnownAmong(b: Bundle, facts: Facts, at: Time, usable: seq<State>, k: Known)
    requires StandFor(b, facts, at, usable)
    ensures IsKnownNow(b, facts, at, k) <==> exists n :: 0 <= n < |usable| && KnownBy(usable[n]) == k
  {
    hide Identified, Separate, IdentityFor;
    if IsKnownNow(b, facts, at, k) {
      var j :| 0 <= j < |b.marketplace.candidates| && Identified(b, facts, at, j)
               && k == Known(IdentityFor(b.marketplace.candidates[j]), b.marketplace.candidates[j].slug);
      assert IsStoodFor(b, j, usable);
      var n :| 0 <= n < |usable| && StandsFor(usable[n], b.marketplace.candidates[j]);
      assert KnownBy(usable[n]) == k;
    }
    if n :| 0 <= n < |usable| && KnownBy(usable[n]) == k { assert StandsForSome(b, facts, at, usable[n]); }
  }

  /** The entry of one collection. */
  lemma KnownAfter(b: Bundle, facts: Facts, at: Time, v: View, usable: seq<State>, k: Known)
    requires StandFor(b, facts, at, usable) && Keyed(v.known, KnownKey) && Keyed(RegisterAll(v, usable).known, KnownKey)
    ensures k in RegisterAll(v, usable).known.Values <==>
              IsKnownNow(b, facts, at, k) || (k in v.known.Values && !IsIdentified(b, facts, at, k.identity.collectionId))
  {
    hide Separate, RegisterAll, IsKnownNow, IsIdentified, StandsForSome, IsStoodFor;
    var key, w := k.identity.collectionId, RegisterAll(v, usable);
    RegisteredKey(v, usable, key);
    IdentifiedAmong(b, facts, at, usable, key);
    KnownAmong(b, facts, at, usable, k);
    assert k in w.known.Values <==> key in w.known && w.known[key] == k;
    assert k in v.known.Values <==> key in v.known && v.known[key] == k;
    if l :| 0 <= l < |usable| && usable[l].identity.value.collectionId == key && key in w.known && w.known[key] == KnownBy(usable[l]) {
      forall n | 0 <= n < |usable| && KnownBy(usable[n]) == k ensures n == l { IdsApart(usable, l, n); }
    }
  }

  ghost predicate SlugsOk(associations: map<string, Association>) { forall k :: k in associations ==> SlugOk(associations[k].slug) }

  lemma AssociatedAfter(b: Bundle, facts: Facts, at: Time, v: View, usable: seq<State>, a: Association)
    requires StandFor(b, facts, at, usable) && Keyed(v.associations, AssociationKey) && Keyed(RegisterAll(v, usable).associations, AssociationKey)
    requires SlugsOk(v.associations) && SlugsOk(RegisterAll(v, usable).associations)
    ensures a in RegisterAll(v, usable).associations.Values <==> a in v.associations.Values || IsAssociatedNow(b, facts, at, a)
  {
    hide Identified, Separate, RegisterAll, IdentityFor, AssociationKey, SlugOk;
    var key, w := AssociationKey(a), RegisterAll(v, usable);
    RegisteredSlug(v, usable, key);
    assert a in w.associations.Values <==> key in w.associations && w.associations[key] == a;
    assert a in v.associations.Values <==> key in v.associations && v.associations[key] == a;
    if n :| 0 <= n < |usable| && AssociationKey(AssociationBy(usable[n])) == key {
      var l :| 0 <= l < |usable| && AssociationKey(AssociationBy(usable[l])) == key && w.associations[key] == AssociationBy(usable[l]);
      assert StandsForSome(b, facts, at, usable[l]);
      var i :| 0 <= i < |b.marketplace.candidates| && Identified(b, facts, at, i) && StandsFor(usable[l], b.marketplace.candidates[i]);
      assert IsAssociatedNow(b, facts, at, AssociationBy(usable[l]));
      if a in v.associations.Values { KeysOfAssociations(a, AssociationBy(usable[l])); }
      if IsAssociatedNow(b, facts, at, a) { AssociatedSlug(b, facts, at, usable, a); KeysOfAssociations(a, AssociationBy(usable[l])); }
    } else if IsAssociatedNow(b, facts, at, a) {
      AssociatedSlug(b, facts, at, usable, a);
    }
  }

  lemma AssociatedSlug(b: Bundle, facts: Facts, at: Time, usable: seq<State>, a: Association)
    requires StandFor(b, facts, at, usable) && IsAssociatedNow(b, facts, at, a)
    ensures SlugOk(a.slug) && exists n :: 0 <= n < |usable| && AssociationBy(usable[n]) == a
  {
    hide Identified, IdentityFor, SlugOk, Apart, IdentityOk;
    var j :| 0 <= j < |b.marketplace.candidates| && Identified(b, facts, at, j)
             && a == Association(b.marketplace.candidates[j].slug, IdentityFor(b.marketplace.candidates[j]).collectionId);
    assert IsStoodFor(b, j, usable);
    var n :| 0 <= n < |usable| && StandsFor(usable[n], b.marketplace.candidates[j]);
    assert AssociationBy(usable[n]) == a;
  }

  // ---------------------------------------------------------------- the next window

  function RowBy(s: State, evidence: string): PriorRow
    requires s.identity.Some?
  {
    PriorRow(s.identity.value, s.candidate.slug, s.candidate.rank, evidence)
  }

  lemma RowsByUsable(usable: seq<State>, evidence: string, r: PriorRow)
    requires HaveIdentities(usable)
    ensures |RowsOf(usable, evidence)| == |usable| && forall n :: 0 <= n < |usable| ==> RowsOf(usable, evidence)[n] == RowBy(usable[n], evidence)
    ensures r in RowsOf(usable, evidence) <==> exists n :: 0 <= n < |usable| && RowBy(usable[n], evidence) == r
  {}

  lemma RankedAmong(b: Bundle, facts: Facts, at: Time, usable: seq<State>, evidence: string, r: PriorRow)
    requires StandFor(b, facts, at, usable) && evidence == RankEvidenceId(b.marketplace, BundleId(b))
    ensures IsRankedNow(b, facts, at, r) <==> exists n :: 0 <= n < |usable| && RowBy(usable[n], evidence) == r
  {
    hide Identified, Separate, IdentityFor, RankEvidenceId, BundleId;
    if IsRankedNow(b, facts, at, r) {
      var j :| 0 <= j < |b.marketplace.candidates| && Identified(b, facts, at, j)
               && r == PriorRow(IdentityFor(b.marketplace.candidates[j]), b.marketplace.candidates[j].slug, b.marketplace.candidates[j].rank, evidence);
      assert IsStoodFor(b, j, usable);
      var n :| 0 <= n < |usable| && StandsFor(usable[n], b.marketplace.candidates[j]);
      assert RowBy(usable[n], evidence) == r;
    }
    if n :| 0 <= n < |usable| && RowBy(usable[n], evidence) == r { assert StandsForSome(b, facts, at, usable[n]); }
  }

  lemma RankedAfter(b: Bundle, facts: Facts, at: Time, usable: seq<State>, r: PriorRow)
    requires StandFor(b, facts, at, usable)
    ensures r in RowsOf(usable, RankEvidenceId(b.marketplace, BundleId(b))) <==> IsRankedNow(b, facts, at, r)
  {
    hide Separate, RankEvidenceId, BundleId, StandsForSome, IsStoodFor, RowsOf, IsRankedNow, RowBy;
    var evidence := RankEvidenceId(b.marketplace, BundleId(b));
    RowsByUsable(usable, evidence, r);
    RankedAmong(b, facts, at, usable, evidence, r);
  }

  lemma {:induction false} RanksIncrease(candidates: seq<Candidate>, i: nat, j: nat)
    requires i < j < |candidates| && forall k :: 0 < k < |candidates| ==> candidates[k - 1].rank < candidates[k].rank
    ensures candidates[i].rank < candidates[j].rank
    decreases j
  {
    if i < j - 1 { RanksIncrease(candidates, i, j - 1); }
  }

  lemma CandidateRanks(b: Bundle)
    requires BundleOk(b)
    ensures forall k :: 0 < k < |b.marketplace.candidates| ==> b.marketplace.candidates[k - 1].rank < b.marketplace.candidates[k].rank
  {
    hide CandidateOk, CandidateKey, XOk, BaseOk;
  }

  lemma UsableByRank(b: Bundle, facts: Facts, at: Time, usable: seq<State>)
    requires BundleOk(b) && usable == UsableStates(Assessed(b, facts, at))
    ensures forall p, q :: 0 <= p < q < |usable| ==> usable[p].candidate.rank < usable[q].candidate.rank
  {
    hide BundleOk, Assessed, UsableStates, IdentityUsable;
    CandidateRanks(b);
    var idx := UsableAt(Assessed(b, facts, at));
    forall p, q | 0 <= p < q < |usable| ensures usable[p].candidate.rank < usable[q].candidate.rank {
      CandidateOf(b, facts, at, idx[p]);
      CandidateOf(b, facts, at, idx[q]);
      RanksIncrease(b.marketplace.candidates, idx[p], idx[q]);
    }
  }

  lemma CandidateOf(b: Bundle, facts: Facts, at: Time, i: nat)
    requires i < |b.marketplace.candidates|
    ensures Assessed(b, facts, at)[i].candidate == b.marketplace.candidates[i]
  {
    hide Assessed, IdentityReasons, CurrentConflicts, MarketplaceReasons, Continued, CandidateId, IdentityOf;
    AssessedKeeps(b, facts, at, i);
  }

  lemma WindowAfter(b: Bundle, facts: Facts, at: Time, usable: seq<State>, w: RankWindow)
    requires BundleOk(b) && FactsOk(facts) && usable == UsableStates(Assessed(b, facts, at))
    requires w == RankWindow(RankEvidenceId(b.marketplace, BundleId(b)), b.marketplace.acquiredAt, b.marketplace.validUntil,
                             RowsOf(usable, RankEvidenceId(b.marketplace, BundleId(b))))
    ensures WindowIs(b, facts, at, w)
  {
    hide BundleOk, FactsOk, Assessed, UsableStates, IsRankedNow, RankEvidenceId, BundleId, StandFor, RowsOf;
    UsableStandFor(b, facts, at, usable);
    UsableByRank(b, facts, at, usable);
    forall r ensures r in w.rows <==> IsRankedNow(b, facts, at, r) { RankedAfter(b, facts, at, usable, r); }
    RowRanks(b, facts, at, usable, RankEvidenceId(b.marketplace, BundleId(b)));
  }

  lemma RowRanks(b: Bundle, facts: Facts, at: Time, usable: seq<State>, evidence: string)
    requires StandFor(b, facts, at, usable) && forall p, q :: 0 <= p < q < |usable| ==> usable[p].candidate.rank < usable[q].candidate.rank
    ensures var rows := RowsOf(usable, evidence); forall p, q :: 0 <= p < q < |rows| ==> rows[p].rank < rows[q].rank
  {
    hide Separate, StandsForSome, IsStoodFor, Identified;
  }

  // ---------------------------------------------------------------- the next tables

  lemma TableEntries(f: Facts)
    requires FactsOk(f)
    ensures forall k :: k in f.known <==> k in ViewOf(f).known.Values
    ensures forall a :: a in f.associations <==> a in ViewOf(f).associations.Values
    ensures f.known == Table(ViewOf(f).known) && f.associations == Table(ViewOf(f).associations)
    ensures SlugsOk(ViewOf(f).associations)
  {
    IndexMembers(f.known, KnownKey);
    IndexMembers(f.associations, AssociationKey);
    TableOfIndex(f.known, KnownKey);
    TableOfIndex(f.associations, AssociationKey);
    hide Index, Table, SocialFactsOk, HashesOk, WindowOk, SlugOk, IdentityOk;
  }

  lemma ViewAfter(b: Bundle, facts: Facts, at: Time)
    requires BundleOk(b) && FactsOk(facts)
    ensures var (v, w) := (ViewOf(NextFacts(b, facts, at)), Registered(b, facts, at));
            v.known == w.known && v.associations == w.associations && CollectionKeyed(w)
  {
    hide BundleOk, FactsOk, NextFacts, ViewOf, NextView, AdmitAll, Registered, SocialsOf, CollectionKeyed, CollectionsOk, SocialFactsOk,
      AttentionClosure.SocialKeyed, WindowOk,
      NextWindow;
    NextFactsOk(b, facts, at);
    NextViewIs(b, facts, at);
    AdmitAllKnown(Registered(b, facts, at), SocialsOf(b, facts, at));
    RegisteredOk(b, facts, at, Registered(b, facts, at));
  }

  lemma KeyedBefore(facts: Facts)
    requires FactsOk(facts)
    ensures CollectionKeyed(ViewOf(facts))
  {
    ViewKeyed(facts);
    hide ViewOf;
  }

  /** Every entry of the next tables. */
  lemma EntriesAfter(b: Bundle, facts: Facts, at: Time, next: Facts, k: Known, a: Association)
    requires BundleOk(b) && FactsOk(facts) && next == NextFacts(b, facts, at) && MarketplaceUsable(b.marketplace, facts, at)
    ensures k in next.known <==> IsKnownNow(b, facts, at, k) || (k in facts.known && !IsIdentified(b, facts, at, k.identity.collectionId))
    ensures a in next.associations <==> a in facts.associations || IsAssociatedNow(b, facts, at, a)
  {
    hide BundleOk, FactsOk, NextFacts, ViewOf, NextView, Assessed, UsableStates, RegisterAll, IsKnownNow, IsIdentified, IsAssociatedNow, StandFor,
      MarketplaceUsable, Keyed, SlugsOk;
    var v, usable := ViewOf(facts), UsableStates(Assessed(b, facts, at));
    NextFactsOk(b, facts, at);
    ViewAfter(b, facts, at);
    KeyedBefore(facts);
    TableEntries(facts);
    TableEntries(next);
    UsableStandFor(b, facts, at, usable);
    KnownAfter(b, facts, at, v, usable, k);
    AssociatedAfter(b, facts, at, v, usable, a);
  }

  /** What becomes of the retained collections, exactly. */
  lemma CollectionsAreExact(b: Bundle, facts: Facts, at: Time)
    requires BundleOk(b) && FactsOk(facts)
    ensures CollectionsAre(b, facts, at, NextFacts(b, facts, at))
    ensures NextFacts(b, facts, at).head == Some(RefreshId(BundleId(b)))
  {
    hide BundleOk, FactsOk, NextFacts, ViewOf, Assessed, UsableStates, RegisterAll, IsKnownNow, IsIdentified, IsAssociatedNow, MarketplaceUsable, WindowIs,
      WindowCurrent, RowsOf, RankEvidenceId, BundleId, RefreshId, CollectionKeyed, SlugsOk;
    var next := NextFacts(b, facts, at);
    CurrentIs(b, facts, at);
    NextFactsWindow(b, facts, at);
    NextHead(b, facts, at);
    if WindowCurrent(b, facts, at) {
      WindowAfter(b, facts, at, UsableStates(Assessed(b, facts, at)), NextWindow(b, facts, at).value);
      forall k ensures k in next.known <==> IsKnownNow(b, facts, at, k) || (k in facts.known && !IsIdentified(b, facts, at, k.identity.collectionId)) {
        EntriesAfter(b, facts, at, next, k, Association("", ""));
      }
      forall a ensures a in next.associations <==> a in facts.associations || IsAssociatedNow(b, facts, at, a) {
        EntriesAfter(b, facts, at, next, Known(Identity("", []), ""), a);
      }
    } else {
      NextFactsOk(b, facts, at);
      ViewAfter(b, facts, at);
      TableEntries(facts);
      TableEntries(next);
    }
  }

  lemma NextHead(b: Bundle, facts: Facts, at: Time)
    ensures NextFacts(b, facts, at).head == Some(RefreshId(BundleId(b)))
  {
    hide NextWindow, NextView, NextLatestX, RefreshId, BundleId, Table, Sort;
  }
}
