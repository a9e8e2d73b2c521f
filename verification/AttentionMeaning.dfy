/** What the passes over a window leave of each candidate, told by the bundle, the retained facts and the time alone:
    every reason, caution and note, and the clusters that were seen and that count
    (packages/attention/src/assess.ts:261-538). */
module AttentionMeaning {
  import opened Order
  import opened Wrappers
  import opened Tables
  import opened Attention
  import opened AttentionIds
  import opened AttentionFacts
  import opened Assessor
  import opened AttentionAdvance
  import opened AttentionTotality
  import opened AttentionStored
  import opened AttentionTime

  // ---------------------------------------------------------------- posts

  /** The post was bound to another cluster before. */
  predicate BoundOtherwise(p: Post, facts: Facts)
  {
    exists n :: 0 <= n < |facts.bindings| && facts.bindings[n].post == p.postIdHash && facts.bindings[n].cluster != p.cluster
  }

  predicate GoesBack(x: XSource, facts: Facts) { x.RecordedPosts? && facts.latestX.Some? && x.acquiredAt < facts.latestX.value }

  predicate Premature(x: XSource, at: Time) { x.RecordedPosts? && x.acquiredAt > at }

  /** What one post that mentions a candidate says against it. */
  predicate PostSays(b: Bundle, facts: Facts, at: Time, i: nat, p: Post, r: HardReason)
    requires i < |b.marketplace.candidates|
  {
    || r in p.hard
    || match r
       case PostContentConflict => BoundOtherwise(p, facts)
       case SocialTimeRegression => GoesBack(b.x, facts)
       case SocialFuture => Premature(b.x, at)
       case AmbiguousSocialIdentity => Ambiguous(p, b.marketplace.candidates, i)
       case SocialAddressConflict => !Ambiguous(p, b.marketplace.candidates, i) && PartlyUnknown(p, b.marketplace.candidates)
       case _ => false
  }

  /** The k-th post mentions the candidate, which is the last of its collection. */
  predicate Touching(b: Bundle, i: nat, k: nat)
    requires i < |b.marketplace.candidates|
  {
    k < |PostsOf(b.x)| && Latest(b.marketplace.candidates, i) && Touches(PostsOf(b.x)[k], b.marketplace.candidates[i])
  }

  /** It mentions nothing else. */
  predicate Bound(b: Bundle, i: nat, k: nat)
    requires i < |b.marketplace.candidates|
  {
    Touching(b, i, k) && !Ambiguous(PostsOf(b.x)[k], b.marketplace.candidates, i) && !PartlyUnknown(PostsOf(b.x)[k], b.marketplace.candidates)
  }

  /** And it counts: nothing speaks against it and its cluster has not run out. */
  predicate Counts(b: Bundle, facts: Facts, at: Time, i: nat, k: nat)
    requires i < |b.marketplace.candidates|
  {
    && Bound(b, i, k) && PostsOf(b.x)[k].hard == [] && !BoundOtherwise(PostsOf(b.x)[k], facts) && !GoesBack(b.x, facts) && !Premature(b.x, at)
    && b.x.RecordedPosts? && at < ClusterExpiry(PostsOf(b.x)[k], facts, b.x.acquiredAt)
  }

  function SeenClusters(b: Bundle, i: nat): set<string>
    requires i < |b.marketplace.candidates|
  {
    set k | 0 <= k < |PostsOf(b.x)| && Bound(b, i, k) :: PostsOf(b.x)[k].cluster
  }

  function CountingClusters(b: Bundle, facts: Facts, at: Time, i: nat): set<string>
    requires i < |b.marketplace.candidates|
  {
    set k | 0 <= k < |PostsOf(b.x)| && Counts(b, facts, at, i, k) :: PostsOf(b.x)[k].cluster
  }

  function TouchingPosts(b: Bundle, i: nat): set<string>
    requires i < |b.marketplace.candidates|
  {
    set k | 0 <= k < |PostsOf(b.x)| && Touching(b, i, k) :: PostsOf(b.x)[k].postIdHash
  }

  // ---------------------------------------------------------------- candidates

  /** The candidate's contracts name a collection: they are on Base, none is the zero address, and none comes twice. */
  predicate Named(c: Candidate)
  {
    && (forall n :: 0 <= n < |c.contracts| ==> c.contracts[n].chainId == BASE_CHAIN_ID && c.contracts[n].address != ZERO_ADDRESS)
    && forall n, l :: 0 <= n < l < |c.contracts| ==> c.contracts[n] != c.contracts[l]
  }

  lemma NamedIs(c: Candidate)
    ensures Named(c) <==> AttentionStored.Resolved(c)
  {
    if Named(c) { assert IdentityReasons(c) == {}; }
    if !Named(c) {
      if n :| 0 <= n < |c.contracts| && c.contracts[n].chainId != BASE_CHAIN_ID {
        assert UnsupportedChain in IdentityReasons(c);
      } else if n :| 0 <= n < |c.contracts| && c.contracts[n].address == ZERO_ADDRESS {
        assert ZeroContract in IdentityReasons(c);
      } else {
        assert DuplicateContract in IdentityReasons(c);
      }
    }
  }

  /** The two candidates stand for the same thing: one collection, or one unresolved group under one slug. */
  predicate SameSubject(c: Candidate, d: Candidate)
  {
    SameCollection(c, d) || (!Named(c) && !Named(d) && c.slug == d.slug && c.contracts == d.contracts)
  }

  predicate Overlaps(candidates: seq<Candidate>, i: nat)
    requires i < |candidates|
  {
    exists j, m, n :: 0 <= j < |candidates| && j != i && 0 <= m < |candidates[i].contracts| && 0 <= n < |candidates[j].contracts|
                      && candidates[i].contracts[m] == candidates[j].contracts[n] && candidates[i].contracts[m].chainId == BASE_CHAIN_ID
  }

  predicate SlugShared(candidates: seq<Candidate>, i: nat)
    requires i < |candidates|
  {
    exists j :: 0 <= j < |candidates| && candidates[j].slug == candidates[i].slug && !SameSubject(candidates[i], candidates[j])
  }

  /** The slug was some collection's before, but never this one's. */
  predicate Moved(c: Candidate, facts: Facts)
  {
    && (exists n :: 0 <= n < |facts.associations| && facts.associations[n].slug == c.slug)
    && forall n :: 0 <= n < |facts.associations| && facts.associations[n].slug == c.slug
                   ==> facts.associations[n].collectionId != CollectionId(Addresses(c.contracts))
  }

  /** The collection was last known under another slug. */
  predicate RenamedSince(c: Candidate, facts: Facts)
  {
    exists n :: 0 <= n < |facts.known| && facts.known[n].identity.collectionId == CollectionId(Addresses(c.contracts)) && facts.known[n].latestSlug != c.slug
  }

  /** What speaks against the candidate before any post is read. */
  predicate OwnReason(b: Bundle, facts: Facts, at: Time, i: nat, r: HardReason)
    requires i < |b.marketplace.candidates|
  {
    var m, c := b.marketplace, b.marketplace.candidates[i];
    match r
    case UnsupportedChain => exists n :: 0 <= n < |c.contracts| && c.contracts[n].chainId != BASE_CHAIN_ID
    case ZeroContract => exists n :: 0 <= n < |c.contracts| && c.contracts[n].address == ZERO_ADDRESS
    case DuplicateContract => exists n, l :: 0 <= n < l < |c.contracts| && c.contracts[n] == c.contracts[l]
    case OverlappingContractGroups => Overlaps(m.candidates, i)
    case SlugRebound => SlugShared(m.candidates, i)
    case IdentityContinuityConflict => Named(c) && Discontinued(c, facts.known)
    case MarketplaceTimeInvalid => facts.window.Some? && m.acquiredAt <= facts.window.value.acquiredAt
    case MarketplaceFuture => m.acquiredAt > at
    case MarketplaceStale => at >= m.validUntil
    case _ => false
  }

  /** What speaks against the candidate in the end. */
  predicate SpeaksAgainst(b: Bundle, facts: Facts, at: Time, i: nat, r: HardReason)
    requires i < |b.marketplace.candidates|
  {
    OwnReason(b, facts, at, i, r) || exists k :: 0 <= k < |PostsOf(b.x)| && Touching(b, i, k) && PostSays(b, facts, at, i, PostsOf(b.x)[k], r)
  }

  predicate SomeTouching(b: Bundle, i: nat)
    requires i < |b.marketplace.candidates|
  {
    exists k :: 0 <= k < |PostsOf(b.x)| && Touching(b, i, k)
  }

  /** What calls for caution about the candidate, but for a score below the threshold. */
  predicate CallsForCaution(b: Bundle, facts: Facts, at: Time, i: nat, w: WatchReason)
    requires i < |b.marketplace.candidates|
  {
    var c := b.marketplace.candidates[i];
    || (exists k :: 0 <= k < |PostsOf(b.x)| && Touching(b, i, k) && w in PostsOf(b.x)[k].watch)
    || match w
       case IdentityChanged => Named(c) && Moved(c, facts)
       case MissingX => b.x.XAbsent?
       case NoBoundX => b.x.RecordedPosts? && Named(c) && !SomeTouching(b, i)
       case StaleX => SomeTouching(b, i) && CountingClusters(b, facts, at, i) == {} && !SpeaksAgainst(b, facts, at, i, SocialFuture)
       case _ => false
  }

  /** What is noted about the candidate. */
  predicate IsNoted(b: Bundle, facts: Facts, at: Time, i: nat, n: Note)
    requires i < |b.marketplace.candidates|
  {
    var c := b.marketplace.candidates[i];
    match n
    case NoSafeVerdict => true
    case PartialMarketplaceWindow => b.marketplace.hasNextPage
    case PartialXWindow => b.x.RecordedPosts? && b.x.hasNextPage
    case SlugChanged => Named(c) && RenamedSince(c, facts)
    case AuthorsUnknown => SomeTouching(b, i)
    case CopiesCapped => |SeenClusters(b, i)| < |TouchingPosts(b, i)| || |SeenClusters(b, i)| > 2
    case BaseContextOnly => BaseIsFresh(b.base, at)
    case BaseContextStale => BaseIsTimely(b.base, at) && !BaseIsFresh(b.base, at)
  }

  /** The reported head is Base's, from the past, and its block is at most two hours older than the report. */
  predicate BaseIsTimely(base: BaseSource, at: Time)
  {
    base.ReportedHead? && base.chainId == 8453 && base.acquiredAt <= at && 0 <= base.acquiredAt - base.blockTimestamp <= 7_200_000
  }

  predicate BaseIsFresh(base: BaseSource, at: Time) { BaseIsTimely(base, at) && at < base.acquiredAt + 120_000 }

  // ---------------------------------------------------------------- before the posts

  lemma OverlapsIs(candidates: seq<Candidate>, states: seq<State>, i: nat)
    requires i < |candidates| == |states| && forall j :: 0 <= j < |states| ==> states[j].candidate == candidates[j]
    ensures Overlapped(states, i) <==> Overlaps(candidates, i)
  {
    if Overlaps(candidates, i) {
      var j, m, n :| 0 <= j < |candidates| && j != i && 0 <= m < |candidates[i].contracts| && 0 <= n < |candidates[j].contracts|
                     && candidates[i].contracts[m] == candidates[j].contracts[n] && candidates[i].contracts[m].chainId == BASE_CHAIN_ID;
      assert SharesBaseAddress(states[i].candidate, states[j].candidate);
    }
    if Overlapped(states, i) {
      var j :| 0 <= j < |states| && j != i && SharesBaseAddress(states[i].candidate, states[j].candidate);
      var m, n :| 0 <= m < |candidates[i].contracts| && 0 <= n < |candidates[j].contracts| && candidates[i].contracts[m].chainId == BASE_CHAIN_ID
                  && candidates[i].contracts[m] == candidates[j].contracts[n];
    }
  }

  lemma SubjectsSame(s: State, t: State)
    requires s.identity == IdentityOf(s.candidate) && t.identity == IdentityOf(t.candidate)
    requires s.candidateId == CandidateId(s.candidate.slug, s.candidate.contracts) && t.candidateId == CandidateId(t.candidate.slug, t.candidate.contracts)
    ensures IdentityKey(s) == IdentityKey(t) <==> SameSubject(s.candidate, t.candidate)
  {
    hide IdentityReasons, CollectionId, CandidateId, Named;
    var c, d := s.candidate, t.candidate;
    NamedIs(c);
    NamedIs(d);
    if Named(c) {
      KeysSame(s, t);
    } else if Named(d) {
      CandidateIsNotCollection(c.slug, c.contracts, Addresses(d.contracts));
    } else if CandidateId(c.slug, c.contracts) == CandidateId(d.slug, d.contracts) {
      CandidateIdInjective(c.slug, c.contracts, d.slug, d.contracts);
    }
  }

  lemma InitialConflicts(b: Bundle, i: nat)
    requires i < |b.marketplace.candidates|
    ensures |InitialOf(b)| == |b.marketplace.candidates|
    ensures Overlapped(InitialOf(b), i) <==> Overlaps(b.marketplace.candidates, i)
    ensures Rebound(InitialOf(b), i) <==> SlugShared(b.marketplace.candidates, i)
  {
    var states, candidates := InitialOf(b), b.marketplace.candidates;
    forall j | 0 <= j < |candidates|
      ensures states[j].candidate == candidates[j] && (IdentityKey(states[i]) == IdentityKey(states[j]) <==> SameSubject(candidates[i], candidates[j]))
    {
      InitialAt(b, i);
      InitialAt(b, j);
      hide InitialOf, SameSubject, IdentityKey;
      SubjectsSame(states[i], states[j]);
    }
    InitialAt(b, i);
    hide InitialOf, SameSubject, IdentityKey, Overlapped, Overlaps;
    OverlapsIs(candidates, states, i);
  }

  lemma RenamedIs(c: Candidate, facts: Facts)
    requires FactsOk(facts) && Named(c)
    ensures Renamed(IdentityOf(c).value, c.slug, facts.known) <==> RenamedSince(c, facts)
  {
    NamedIs(c);
    hide CollectionId, IdentityReasons, Named, CollectionsOk, SocialFactsOk, HashesOk, WindowOk, Index;
    IndexMembers(facts.known, KnownKey);
    var byId, id := Index(facts.known, KnownKey), CollectionId(Addresses(c.contracts));
    if id in byId {
      assert byId[id] in facts.known;
      var n :| 0 <= n < |facts.known| && facts.known[n] == byId[id];
      forall l | 0 <= l < |facts.known| && facts.known[l].identity.collectionId == id ensures facts.known[l] == byId[id] {
        assert facts.known[l] in facts.known;
      }
    }
    forall l | 0 <= l < |facts.known| && facts.known[l].identity.collectionId == id ensures id in byId { assert facts.known[l] in facts.known; }
  }

  lemma ReasonsOfIdentity(c: Candidate, r: HardReason)
    ensures r in IdentityReasons(c) <==>
              match r
              case UnsupportedChain => exists n :: 0 <= n < |c.contracts| && c.contracts[n].chainId != BASE_CHAIN_ID
              case ZeroContract => exists n :: 0 <= n < |c.contracts| && c.contracts[n].address == ZERO_ADDRESS
              case DuplicateContract => exists n, l :: 0 <= n < l < |c.contracts| && c.contracts[n] == c.contracts[l]
              case _ => false
  {}

  /** The state before the posts, as the passes make it. */
  lemma PreparedParts(s: State, c: Candidate, facts: Facts, m: Marketplace, at: Time, conflicts: set<HardReason>)
    requires s.candidate == c && s.identity == IdentityOf(c) && s.hard == IdentityReasons(c) && s.watch == {} && s.notes == {NoSafeVerdict}
    ensures var t := WithMarketplace(WithHistory(s.(hard := s.hard + conflicts), facts), m, facts, at);
            && t.hard == IdentityReasons(c) + conflicts + MarketplaceReasons(m, facts, at)
                         + (if IdentityOf(c).Some? && !Continued(IdentityOf(c).value, facts.known) then {IdentityContinuityConflict} else {})
            && t.watch == (if IdentityOf(c).Some? && SlugMoved(IdentityOf(c).value, c.slug, facts.associations) then {IdentityChanged} else {})
            && t.notes == {NoSafeVerdict} + (if m.hasNextPage then {PartialMarketplaceWindow} else {})
                          + (if IdentityOf(c).Some? && Renamed(IdentityOf(c).value, c.slug, facts.known) then {SlugChanged} else {})
            && t.evidence == s.evidence
  {
    hide IdentityReasons, IdentityOf, Continued, SlugMoved, Renamed, MarketplaceReasons;
  }

  lemma InitialNotes(b: Bundle, i: nat)
    requires i < |b.marketplace.candidates|
    ensures InitialOf(b)[i].notes == {NoSafeVerdict} && InitialOf(b)[i].evidence == {RankEvidenceId(b.marketplace, BundleId(b))}
  {
    hide IdentityReasons, CollectionId, CandidateId, RankEvidenceId, BundleId;
  }

  /** The state of the i-th candidate before the posts, part by part. */
  lemma PreparedSets(b: Bundle, facts: Facts, at: Time, i: nat)
    requires i < |b.marketplace.candidates|
    ensures var (t, c, m) := (Prepared(b, facts, at)[i], b.marketplace.candidates[i], b.marketplace);
            && t.hard == IdentityReasons(c) + CurrentConflicts(InitialOf(b), i) + MarketplaceReasons(m, facts, at)
                         + (if IdentityOf(c).Some? && !Continued(IdentityOf(c).value, facts.known) then {IdentityContinuityConflict} else {})
            && t.watch == (if IdentityOf(c).Some? && SlugMoved(IdentityOf(c).value, c.slug, facts.associations) then {IdentityChanged} else {})
            && t.notes == {NoSafeVerdict} + (if m.hasNextPage then {PartialMarketplaceWindow} else {})
                          + (if IdentityOf(c).Some? && Renamed(IdentityOf(c).value, c.slug, facts.known) then {SlugChanged} else {})
            && t.evidence == {RankEvidenceId(m, BundleId(b))}
  {
    hide Prepared, InitialOf, IdentityReasons, IdentityOf, CurrentConflicts, Continued, SlugMoved, Renamed, MarketplaceReasons, WithHistory,
      WithMarketplace, RankEvidenceId, BundleId, CandidateId;
    InitialAt(b, i);
    InitialNotes(b, i);
    PreparedAt(b, facts, at, i);
    PreparedParts(InitialOf(b)[i], b.marketplace.candidates[i], facts, b.marketplace, at, CurrentConflicts(InitialOf(b), i));
  }

  lemma ConflictReasons(b: Bundle, i: nat, r: HardReason)
    requires i < |b.marketplace.candidates|
    ensures |InitialOf(b)| == |b.marketplace.candidates|
    ensures r in CurrentConflicts(InitialOf(b), i) <==>
              (r == OverlappingContractGroups && Overlaps(b.marketplace.candidates, i)) || (r == SlugRebound && SlugShared(b.marketplace.candidates, i))
  {
    hide InitialOf, Overlapped, Rebound, Overlaps, SlugShared;
    InitialConflicts(b, i);
  }

  lemma MarketplaceReason(m: Marketplace, facts: Facts, at: Time, r: HardReason)
    ensures r in MarketplaceReasons(m, facts, at) <==>
              match r
              case MarketplaceTimeInvalid => facts.window.Some? && m.acquiredAt <= facts.window.value.acquiredAt
              case MarketplaceFuture => m.acquiredAt > at
              case MarketplaceStale => at >= m.validUntil
              case _ => false
  {}

  /** The reasons before the posts. */
  lemma PreparedReason(b: Bundle, facts: Facts, at: Time, i: nat, r: HardReason)
    requires FactsOk(facts) && i < |b.marketplace.candidates|
    ensures r in Prepared(b, facts, at)[i].hard <==> OwnReason(b, facts, at, i, r)
  {
    hide Prepared, InitialOf, IdentityReasons, CurrentConflicts, MarketplaceReasons, Continued, SlugMoved, Renamed, Discontinued, Overlaps, SlugShared,
      Named, FactsOk, RankEvidenceId, BundleId, CollectionId;
    var c := b.marketplace.candidates[i];
    PreparedSets(b, facts, at, i);
    ReasonsOfIdentity(c, r);
    ConflictReasons(b, i, r);
    MarketplaceReason(b.marketplace, facts, at, r);
    NamedIs(c);
    if Named(c) { ContinuedIs(c, facts); }
  }

  lemma MovedIs(c: Candidate, facts: Facts)
    requires Named(c)
    ensures IdentityOf(c).Some? && (SlugMoved(IdentityOf(c).value, c.slug, facts.associations) <==> Moved(c, facts))
  {
    NamedIs(c);
    hide IdentityReasons, Named, CollectionId;
  }

  lemma PreparedCaution(b: Bundle, facts: Facts, at: Time, i: nat, w: WatchReason)
    requires i < |b.marketplace.candidates|
    ensures w in Prepared(b, facts, at)[i].watch <==> w == IdentityChanged && Named(b.marketplace.candidates[i]) && Moved(b.marketplace.candidates[i], facts)
  {
    hide Prepared, InitialOf, IdentityReasons, CurrentConflicts, MarketplaceReasons, Continued, SlugMoved, Renamed, Named, Moved, RankEvidenceId,
      BundleId, CollectionId;
    PreparedSets(b, facts, at, i);
    NamedIs(b.marketplace.candidates[i]);
    if Named(b.marketplace.candidates[i]) { MovedIs(b.marketplace.candidates[i], facts); }
  }

  lemma PreparedNote(b: Bundle, facts: Facts, at: Time, i: nat, n: Note)
    requires FactsOk(facts) && i < |b.marketplace.candidates|
    ensures n in Prepared(b, facts, at)[i].notes <==>
              || n == NoSafeVerdict || (n == PartialMarketplaceWindow && b.marketplace.hasNextPage)
              || (n == SlugChanged && Named(b.marketplace.candidates[i]) && RenamedSince(b.marketplace.candidates[i], facts))
  {
    hide Prepared, InitialOf, IdentityReasons, CurrentConflicts, MarketplaceReasons, Continued, SlugMoved, Renamed, RenamedSince, Named, FactsOk,
      RankEvidenceId, BundleId, CollectionId;
    PreparedSets(b, facts, at, i);
    NamedIs(b.marketplace.candidates[i]);
    if Named(b.marketplace.candidates[i]) { RenamedIs(b.marketplace.candidates[i], facts); }
  }

  // ---------------------------------------------------------------- how a post is read

  lemma BoundOtherwiseIs(p: Post, facts: Facts)
    requires FactsOk(facts)
    ensures Conflicting(p, ViewOf(facts)) <==> BoundOtherwise(p, facts)
  {
    hide CollectionsOk, SocialFactsOk, HashesOk, WindowOk, Index;
    IndexMembers(facts.bindings, BindingKey);
    var index := Index(facts.bindings, BindingKey);
    assert ViewOf(facts).bindings == index;
    if p.postIdHash in index {
      assert index[p.postIdHash] in facts.bindings;
      var n :| 0 <= n < |facts.bindings| && facts.bindings[n] == index[p.postIdHash];
    }
    forall n | 0 <= n < |facts.bindings| && facts.bindings[n].post == p.postIdHash ensures p.postIdHash in index && facts.bindings[n] == index[p.postIdHash] {
      assert facts.bindings[n] in facts.bindings;
    }
  }

  predicate NeverSeen(cluster: string, facts: Facts)
  {
    && (forall n :: 0 <= n < |facts.clusters| ==> facts.clusters[n].cluster != cluster)
    && forall n :: 0 <= n < |facts.conflicts| ==> facts.conflicts[n].cluster != cluster
  }

  /** The last time the cluster counts at, read off the facts: two hours after it was first seen. */
  lemma ExpiryIs(p: Post, facts: Facts, acquiredAt: Time)
    requires FactsOk(facts)
    ensures var t := ClusterExpiry(p, facts, acquiredAt);
            && (forall n :: 0 <= n < |facts.clusters| && facts.clusters[n].cluster == p.cluster ==> t == facts.clusters[n].firstSeenAt + 7_200_000)
            && (forall n :: 0 <= n < |facts.conflicts| && facts.conflicts[n].cluster == p.cluster ==> t == facts.conflicts[n].firstSeenAt + 7_200_000)
            && (NeverSeen(p.cluster, facts) ==> t == acquiredAt + 7_200_000)
  {
    hide CollectionsOk, ConflictsOk, FirstSeenOk, HashesOk, WindowOk, Index;
    IndexMembers(facts.clusters, ClusterKey);
    IndexMembers(facts.conflicts, ConflictKey);
    var v := ViewOf(facts);
    assert v.clusters == Index(facts.clusters, ClusterKey) && v.conflicts == Index(facts.conflicts, ConflictKey);
    assert v.clusters.Keys !! v.conflicts.Keys;
    forall n | 0 <= n < |facts.clusters| && facts.clusters[n].cluster == p.cluster
      ensures p.cluster in v.clusters && v.clusters[p.cluster] == facts.clusters[n] && p.cluster !in v.conflicts
    {
      assert facts.clusters[n] in facts.clusters;
      assert p.cluster in v.clusters.Keys;
    }
    forall n | 0 <= n < |facts.conflicts| && facts.conflicts[n].cluster == p.cluster
      ensures p.cluster in v.conflicts && v.conflicts[p.cluster] == facts.conflicts[n]
    {
      assert facts.conflicts[n] in facts.conflicts;
    }
    if p.cluster in v.clusters { assert v.clusters[p.cluster] in facts.clusters; }
    if p.cluster in v.conflicts { assert v.conflicts[p.cluster] in facts.conflicts; }
  }

  lemma AttributedIs(s: Social, id: string)
    requires s.attributable == (if |s.matched| == 1 && !s.unknown then Some(s.matched[0]) else None) && id in s.matched
    ensures s.attributable == Some(id) <==> |s.matched| <= 1 && !s.unknown
  {}

  lemma SocialParts(b: Bundle, facts: Facts, at: Time, k: nat)
    requires b.x.RecordedPosts? && k < |b.x.posts|
    ensures |SocialsOf(b, facts, at)| == |b.x.posts|
    ensures var s := SocialsOf(b, facts, at)[k];
            && s.attributable == (if |s.matched| == 1 && !s.unknown then Some(s.matched[0]) else None)
            && s.validUntil == ClusterExpiry(b.x.posts[k], facts, b.x.acquiredAt)
  {
    hide Prepared, BundleId, Conflicting, ViewOf, HasUnknown, MatchedIds, Ordered, SocialEvidenceId, FirstSeenAt, SortedStrings;
  }

  lemma SaidReasons(s: Social, r: HardReason)
    requires |s.matched| >= 1
    ensures r in SocialReasons(s) <==>
              || r in s.post.hard
              || match r
                 case PostContentConflict => s.conflict
                 case SocialTimeRegression => s.regression
                 case SocialFuture => s.future
                 case AmbiguousSocialIdentity => |s.matched| > 1
                 case SocialAddressConflict => |s.matched| <= 1 && s.unknown
                 case _ => false
  {}

  /** How the k-th post is read for the i-th candidate. */
  lemma PostRead(b: Bundle, facts: Facts, at: Time, i: nat, k: nat)
    requires FactsOk(facts) && b.x.RecordedPosts? && k < |b.x.posts| && i < |b.marketplace.candidates| && Named(b.marketplace.candidates[i])
    ensures |SocialsOf(b, facts, at)| == |b.x.posts|
    ensures var (s, p, c) := (SocialsOf(b, facts, at)[k], b.x.posts[k], b.marketplace.candidates[i]);
            var id := CollectionId(Addresses(c.contracts));
            && s.post == p && s.validUntil == ClusterExpiry(p, facts, b.x.acquiredAt)
            && s.conflict == BoundOtherwise(p, facts) && s.regression == GoesBack(b.x, facts) && s.future == Premature(b.x, at)
            && (id in s.matched <==> Touches(p, c))
            && (Touches(p, c) ==>
                  && (s.attributable == Some(id) <==> !Ambiguous(p, b.marketplace.candidates, i) && !PartlyUnknown(p, b.marketplace.candidates))
                  && forall r :: r in SocialReasons(s) <==> PostSays(b, facts, at, i, p, r))
  {
    var states, p, candidates := Prepared(b, facts, at), b.x.posts[k], b.marketplace.candidates;
    NamedIs(candidates[i]);
    var id := CollectionId(Addresses(candidates[i].contracts));
    assert IdentityOf(candidates[i]).Some? && IdentityOf(candidates[i]).value.collectionId == id;
    hide Named, IdentityReasons, CollectionId;
    PreparedFrom(b, facts, at);
    MatchedIs(p, states, candidates, i);
    UnknownIs(p, states, candidates);
    SocialIs(b, facts, at, k);
    SocialParts(b, facts, at, k);
    BoundOtherwiseIs(p, facts);
    assert states[i].identity == IdentityOf(candidates[i]);
    hide Prepared, SocialsOf, SocialReasons, MatchedIds, HasUnknown, PartlyUnknown, Ambiguous, Touches, FromCandidates, AttentionStored.Resolved, Conflicting,
      ViewOf, IdentityOf, BoundOtherwise, ClusterExpiry, FactsOk;
    var s := SocialsOf(b, facts, at)[k];
    if Touches(p, candidates[i]) {
      AmbiguousIs(p, states, candidates, i);
      AttributedIs(s, id);
      forall r ensures r in SocialReasons(s) <==> PostSays(b, facts, at, i, p, r) { SaidReasons(s, r); }
    }
  }

  // ---------------------------------------------------------------- what a collection absorbs

  ghost predicate Any(socials: seq<Social>, holds: Social -> bool) { exists k :: 0 <= k < |socials| && holds(socials[k]) }

  lemma AnyMore(front: seq<Social>, last: Social, holds: Social -> bool)
    ensures Any(front + [last], holds) <==> Any(front, holds) || holds(last)
  {
    var all := front + [last];
    if k :| 0 <= k < |front| && holds(front[k]) { assert all[k] == front[k]; }
    assert all[|front|] == last;
  }

  function Hears(id: string): Social -> bool { (s: Social) => id in s.matched }
  function Sees(id: string, cluster: string): Social -> bool { (s: Social) => id in s.matched && s.attributable == Some(id) && s.post.cluster == cluster }
  function Keeps(id: string, at: Time, cluster: string): Social -> bool
  {
    (s: Social) => id in s.matched && s.attributable == Some(id) && UsablePost(s, at) && s.post.cluster == cluster
  }
  function Cites(id: string, evidence: string): Social -> bool { (s: Social) => id in s.matched && s.evidenceId == evidence }
  function HearsPost(id: string, post: string): Social -> bool { (s: Social) => id in s.matched && s.post.postIdHash == post }

  lemma OneAbsorbed(s: State, last: Social, at: Time, c: string, e: string, h: string)
    requires s.identity.Some?
    ensures var (t, id) := (Absorb(s, last, at), s.identity.value.collectionId);
            && t.identity == s.identity
            && (c in t.observed <==> c in s.observed || Sees(id, c)(last))
            && (c in t.unexpired <==> c in s.unexpired || Keeps(id, at, c)(last))
            && (e in t.evidence <==> e in s.evidence || Cites(id, e)(last))
            && (h in Posts(t.matched) <==> h in Posts(s.matched) || HearsPost(id, h)(last))
            && (t.matched == [] <==> s.matched == [] && !Hears(id)(last))
  {
    hide SocialReasons, UsablePost;
    var t := Absorb(s, last, at);
    if s.identity.value.collectionId in last.matched { PostsMore(s.matched, last); }
    hide Posts;
  }

  lemma PostsMore(socials: seq<Social>, last: Social)
    ensures Posts(socials + [last]) == Posts(socials) + {last.post.postIdHash}
  {
    var all := socials + [last];
    forall h | h in Posts(socials) ensures h in Posts(all) {
      var i :| 0 <= i < |socials| && socials[i].post.postIdHash == h;
      assert all[i] == socials[i];
    }
    assert all[|socials|] == last;
  }

  /** Everything but reasons that a state has in the end. */
  lemma {:induction false} AllAbsorbed(s: State, socials: seq<Social>, at: Time, c: string, e: string, h: string)
    requires s.identity.Some?
    ensures var (t, id) := (AbsorbAll(s, socials, at), s.identity.value.collectionId);
            && (c in t.observed <==> c in s.observed || Any(socials, Sees(id, c)))
            && (c in t.unexpired <==> c in s.unexpired || Any(socials, Keeps(id, at, c)))
            && (e in t.evidence <==> e in s.evidence || Any(socials, Cites(id, e)))
            && (h in Posts(t.matched) <==> h in Posts(s.matched) || Any(socials, HearsPost(id, h)))
            && (t.matched == [] <==> s.matched == [] && !Any(socials, Hears(id)))
  {
    hide Absorb, Sees, Keeps, Cites, HearsPost, Hears, Posts;
    var id := s.identity.value.collectionId;
    if socials != [] {
      var front, last := socials[..|socials| - 1], socials[|socials| - 1];
      AllAbsorbed(s, front, at, c, e, h);
      OneAbsorbed(AbsorbAll(s, front, at), last, at, c, e, h);
      assert socials == front + [last];
      AnyMore(front, last, Sees(id, c));
      AnyMore(front, last, Keeps(id, at, c));
      AnyMore(front, last, Cites(id, e));
      AnyMore(front, last, HearsPost(id, h));
      AnyMore(front, last, Hears(id));
      hide Any;
    }
  }

  /** When a counting cluster runs out. */
  ghost predicate Dated(t: State, socials: seq<Social>, at: Time)
  {
    forall c :: c in t.unexpired ==> exists k :: 0 <= k < |socials| && socials[k].post.cluster == c && socials[k].validUntil == t.unexpired[c]
  }

  lemma {:induction false} AllDated(s: State, socials: seq<Social>, at: Time)
    requires s.identity.Some? && s.unexpired == map[]
    ensures Dated(AbsorbAll(s, socials, at), socials, at)
  {
    hide SocialReasons, UsablePost;
    if socials != [] {
      var front, last := socials[..|socials| - 1], socials[|socials| - 1];
      AllDated(s, front, at);
      var before, t := AbsorbAll(s, front, at), AbsorbAll(s, socials, at);
      forall c | c in t.unexpired
        ensures exists k :: 0 <= k < |socials| && socials[k].post.cluster == c && socials[k].validUntil == t.unexpired[c]
      {
        if c in before.unexpired && t.unexpired[c] == before.unexpired[c] {
          var k :| 0 <= k < |front| && front[k].post.cluster == c && front[k].validUntil == before.unexpired[c];
          assert socials[k] == front[k];
        } else {
          assert socials[|socials| - 1].post.cluster == c;
        }
      }
    }
  }

  // ---------------------------------------------------------------- what the posts do, told by the posts

  predicate SomeSays(b: Bundle, facts: Facts, at: Time, i: nat, r: HardReason)
    requires i < |b.marketplace.candidates|
  {
    exists k :: 0 <= k < |PostsOf(b.x)| && Touching(b, i, k) && PostSays(b, facts, at, i, PostsOf(b.x)[k], r)
  }

  predicate SomeWarns(b: Bundle, i: nat, w: WatchReason)
    requires i < |b.marketplace.candidates|
  {
    exists k :: 0 <= k < |PostsOf(b.x)| && Touching(b, i, k) && w in PostsOf(b.x)[k].watch
  }

  /** The collection of a candidate that a window's posts are read for. */
  predicate Read(b: Bundle, i: nat, id: string)
    requires i < |b.marketplace.candidates|
  {
    var c := b.marketplace.candidates[i];
    b.x.RecordedPosts? && Named(c) && Latest(b.marketplace.candidates, i) && id == CollectionId(Addresses(c.contracts))
  }

  lemma ReadAt(b: Bundle, facts: Facts, at: Time, i: nat, id: string, socials: seq<Social>, k: nat)
    requires FactsOk(facts) && i < |b.marketplace.candidates| && Read(b, i, id) && socials == SocialsOf(b, facts, at)
    requires k < |PostsOf(b.x)|
    ensures |socials| == |PostsOf(b.x)| && socials[k].post == PostsOf(b.x)[k]
    ensures id in socials[k].matched <==> Touching(b, i, k)
    ensures id in socials[k].matched && socials[k].attributable == Some(id) <==> Bound(b, i, k)
    ensures id in socials[k].matched && socials[k].attributable == Some(id) && UsablePost(socials[k], at) <==> Counts(b, facts, at, i, k)
    ensures socials[k].validUntil == ClusterExpiry(PostsOf(b.x)[k], facts, b.x.acquiredAt)
    ensures id in socials[k].matched ==> forall r :: r in SocialReasons(socials[k]) <==> PostSays(b, facts, at, i, PostsOf(b.x)[k], r)
  {
    hide FactsOk, SocialsOf, SocialReasons, PostSays, Latest, Named, Touches, Ambiguous, PartlyUnknown, BoundOtherwise, ClusterExpiry, CollectionId;
    PostRead(b, facts, at, i, k);
  }

  lemma AllRead(b: Bundle, facts: Facts, at: Time, i: nat, id: string, socials: seq<Social>)
    requires FactsOk(facts) && i < |b.marketplace.candidates| && Read(b, i, id) && socials == SocialsOf(b, facts, at)
    ensures |socials| == |PostsOf(b.x)|
    ensures forall k :: 0 <= k < |socials| ==>
              && socials[k].post == PostsOf(b.x)[k] && (id in socials[k].matched <==> Touching(b, i, k))
              && (id in socials[k].matched && socials[k].attributable == Some(id) <==> Bound(b, i, k))
              && (id in socials[k].matched && socials[k].attributable == Some(id) && UsablePost(socials[k], at) <==> Counts(b, facts, at, i, k))
              && socials[k].validUntil == ClusterExpiry(PostsOf(b.x)[k], facts, b.x.acquiredAt)
  {
    hide FactsOk, SocialsOf, SocialReasons, PostSays, Touching, Bound, Counts, UsablePost, ClusterExpiry, CollectionId, Read;
    ReadLength(b, facts, at, i, id);
    forall k | 0 <= k < |socials|
      ensures socials[k].post == PostsOf(b.x)[k] && (id in socials[k].matched <==> Touching(b, i, k))
      ensures id in socials[k].matched && socials[k].attributable == Some(id) <==> Bound(b, i, k)
      ensures id in socials[k].matched && socials[k].attributable == Some(id) && UsablePost(socials[k], at) <==> Counts(b, facts, at, i, k)
      ensures socials[k].validUntil == ClusterExpiry(PostsOf(b.x)[k], facts, b.x.acquiredAt)
    {
      ReadAt(b, facts, at, i, id, socials, k);
    }
  }

  lemma ReadLength(b: Bundle, facts: Facts, at: Time, i: nat, id: string)
    requires i < |b.marketplace.candidates| && Read(b, i, id)
    ensures b.x.RecordedPosts? && |SocialsOf(b, facts, at)| == |PostsOf(b.x)|
  {
    hide SocialsOf, Latest, Named, CollectionId;
    EveryPostRead(b, facts, at);
  }

  /** Clusters seen, clusters that count, posts heard. */
  lemma ClustersRead(b: Bundle, facts: Facts, at: Time, i: nat, id: string, socials: seq<Social>, c: string)
    requires FactsOk(facts) && i < |b.marketplace.candidates| && Read(b, i, id) && socials == SocialsOf(b, facts, at)
    ensures Any(socials, Sees(id, c)) <==> c in SeenClusters(b, i)
    ensures Any(socials, Keeps(id, at, c)) <==> c in CountingClusters(b, facts, at, i)
    ensures Any(socials, HearsPost(id, c)) <==> c in TouchingPosts(b, i)
    ensures Any(socials, Hears(id)) <==> SomeTouching(b, i)
  {
    AllRead(b, facts, at, i, id, socials);
    hide FactsOk, SocialsOf, SocialReasons, Touching, Bound, Counts, UsablePost, ClusterExpiry, CollectionId, Read, Any, SeenClusters, CountingClusters,
      TouchingPosts, SomeTouching;
    SeenRead(b, i, id, socials, c);
    KeptRead(b, facts, at, i, id, socials, c);
    HeardRead(b, i, id, socials, c);
  }

  lemma SeenRead(b: Bundle, i: nat, id: string, socials: seq<Social>, c: string)
    requires i < |b.marketplace.candidates| && |socials| == |PostsOf(b.x)|
    requires forall k :: 0 <= k < |socials| ==>
               socials[k].post == PostsOf(b.x)[k] && (id in socials[k].matched && socials[k].attributable == Some(id) <==> Bound(b, i, k))
    ensures Any(socials, Sees(id, c)) <==> c in SeenClusters(b, i)
  {
    hide Bound;
    if Any(socials, Sees(id, c)) {
      var k :| 0 <= k < |socials| && Sees(id, c)(socials[k]);
      assert Bound(b, i, k) && PostsOf(b.x)[k].cluster == c;
    }
    if c in SeenClusters(b, i) {
      var k :| 0 <= k < |PostsOf(b.x)| && Bound(b, i, k) && PostsOf(b.x)[k].cluster == c;
      assert Sees(id, c)(socials[k]);
    }
  }

  lemma KeptRead(b: Bundle, facts: Facts, at: Time, i: nat, id: string, socials: seq<Social>, c: string)
    requires i < |b.marketplace.candidates| && |socials| == |PostsOf(b.x)|
    requires forall k :: 0 <= k < |socials| ==>
               && socials[k].post == PostsOf(b.x)[k]
               && (id in socials[k].matched && socials[k].attributable == Some(id) && UsablePost(socials[k], at) <==> Counts(b, facts, at, i, k))
    ensures Any(socials, Keeps(id, at, c)) <==> c in CountingClusters(b, facts, at, i)
  {
    hide Counts, UsablePost;
    if Any(socials, Keeps(id, at, c)) {
      var k :| 0 <= k < |socials| && Keeps(id, at, c)(socials[k]);
      assert Counts(b, facts, at, i, k) && PostsOf(b.x)[k].cluster == c;
    }
    if c in CountingClusters(b, facts, at, i) {
      var k :| 0 <= k < |PostsOf(b.x)| && Counts(b, facts, at, i, k) && PostsOf(b.x)[k].cluster == c;
      assert Keeps(id, at, c)(socials[k]);
    }
  }

  lemma HeardRead(b: Bundle, i: nat, id: string, socials: seq<Social>, h: string)
    requires i < |b.marketplace.candidates| && |socials| == |PostsOf(b.x)|
    requires forall k :: 0 <= k < |socials| ==> socials[k].post == PostsOf(b.x)[k] && (id in socials[k].matched <==> Touching(b, i, k))
    ensures Any(socials, HearsPost(id, h)) <==> h in TouchingPosts(b, i)
    ensures Any(socials, Hears(id)) <==> SomeTouching(b, i)
  {
    hide Touching;
    if Any(socials, HearsPost(id, h)) {
      var k :| 0 <= k < |socials| && HearsPost(id, h)(socials[k]);
      assert Touching(b, i, k) && PostsOf(b.x)[k].postIdHash == h;
    }
    if h in TouchingPosts(b, i) {
      var k :| 0 <= k < |PostsOf(b.x)| && Touching(b, i, k) && PostsOf(b.x)[k].postIdHash == h;
      assert HearsPost(id, h)(socials[k]);
    }
    if Any(socials, Hears(id)) {
      var k :| 0 <= k < |socials| && Hears(id)(socials[k]);
      assert Touching(b, i, k);
    }
    if SomeTouching(b, i) {
      var k :| 0 <= k < |PostsOf(b.x)| && Touching(b, i, k);
      assert Hears(id)(socials[k]);
    }
  }

  lemma SaidRead(b: Bundle, facts: Facts, at: Time, i: nat, id: string, socials: seq<Social>, r: HardReason)
    requires i < |b.marketplace.candidates| && |socials| == |PostsOf(b.x)|
    requires forall k :: 0 <= k < |socials| ==>
               && (id in socials[k].matched <==> Touching(b, i, k))
               && (id in socials[k].matched ==> (r in SocialReasons(socials[k]) <==> PostSays(b, facts, at, i, PostsOf(b.x)[k], r)))
    ensures Brings(socials, id, r) <==> SomeSays(b, facts, at, i, r)
  {
    hide SocialReasons, Touching, PostSays;
    if Brings(socials, id, r) {
      var k :| 0 <= k < |socials| && id in socials[k].matched && r in SocialReasons(socials[k]);
      assert Touching(b, i, k);
    }
    if SomeSays(b, facts, at, i, r) {
      var k :| 0 <= k < |PostsOf(b.x)| && Touching(b, i, k) && PostSays(b, facts, at, i, PostsOf(b.x)[k], r);
      assert id in socials[k].matched;
    }
  }

  lemma WarnedRead(b: Bundle, i: nat, id: string, socials: seq<Social>, w: WatchReason)
    requires i < |b.marketplace.candidates| && |socials| == |PostsOf(b.x)|
    requires forall k :: 0 <= k < |socials| ==> socials[k].post == PostsOf(b.x)[k] && (id in socials[k].matched <==> Touching(b, i, k))
    ensures Cautions(socials, id, w) <==> SomeWarns(b, i, w)
  {
    hide Touching;
    if Cautions(socials, id, w) {
      var k :| 0 <= k < |socials| && id in socials[k].matched && w in socials[k].post.watch;
      assert Touching(b, i, k);
    }
    if SomeWarns(b, i, w) {
      var k :| 0 <= k < |PostsOf(b.x)| && Touching(b, i, k) && w in PostsOf(b.x)[k].watch;
      assert id in socials[k].matched;
    }
  }

  /** Reasons and cautions brought by posts. */
  lemma ReasonsRead(b: Bundle, facts: Facts, at: Time, i: nat, id: string, socials: seq<Social>, r: HardReason, w: WatchReason)
    requires FactsOk(facts) && i < |b.marketplace.candidates| && Read(b, i, id) && socials == SocialsOf(b, facts, at)
    ensures Brings(socials, id, r) <==> SomeSays(b, facts, at, i, r)
    ensures Cautions(socials, id, w) <==> SomeWarns(b, i, w)
  {
    hide FactsOk, SocialsOf, SocialReasons, PostSays, Touching, Bound, Counts, UsablePost, ClusterExpiry, CollectionId, Read, Brings, Cautions, SomeSays,
      SomeWarns;
    ReadLength(b, facts, at, i, id);
    forall k | 0 <= k < |socials|
      ensures socials[k].post == PostsOf(b.x)[k] && (id in socials[k].matched <==> Touching(b, i, k))
      ensures id in socials[k].matched ==> (r in SocialReasons(socials[k]) <==> PostSays(b, facts, at, i, PostsOf(b.x)[k], r))
    {
      ReadAt(b, facts, at, i, id, socials, k);
    }
    SaidRead(b, facts, at, i, id, socials, r);
    WarnedRead(b, i, id, socials, w);
  }

  // ---------------------------------------------------------------- the states the rows are made of

  /** A candidate that no post is read for. */
  lemma Unread(b: Bundle, facts: Facts, at: Time, i: nat)
    requires i < |b.marketplace.candidates| && !(b.x.RecordedPosts? && Latest(b.marketplace.candidates, i))
    ensures !SomeTouching(b, i) && SeenClusters(b, i) == {} && CountingClusters(b, facts, at, i) == {} && TouchingPosts(b, i) == {}
    ensures forall r :: !SomeSays(b, facts, at, i, r)
    ensures forall w :: !SomeWarns(b, i, w)
  {
    hide Latest, PostSays, Touches, Ambiguous, PartlyUnknown, BoundOtherwise, ClusterExpiry;
  }

  /** The state of a candidate once the posts are read, before the remarks. */
  ghost function Absorbed(b: Bundle, facts: Facts, at: Time, i: nat): State
    requires i < |b.marketplace.candidates|
  {
    var s := Prepared(b, facts, at)[i];
    if b.x.RecordedPosts? && s.identity.Some? && IsCurrent(Prepared(b, facts, at), i) then AbsorbAll(s, SocialsOf(b, facts, at), at) else s
  }

  lemma AssessedFrom(b: Bundle, facts: Facts, at: Time, i: nat)
    requires i < |b.marketplace.candidates|
    ensures var (s, t) := (Absorbed(b, facts, at, i), Assessed(b, facts, at)[i]);
            t == WithPages(if b.x.XAbsent? then s.(watch := s.watch + {MissingX}) else if s.identity.None? then s else Remark(s), b.x,
                           BaseContext(b.base, at))
  {
    hide Assessed, Prepared, SocialsOf, WithPages, BaseContext, AbsorbAll, IsCurrent, Remark;
    AssessedAt(b, facts, at, i);
  }

  lemma PreparedIdentity(b: Bundle, facts: Facts, at: Time, i: nat)
    requires i < |b.marketplace.candidates|
    ensures var (s, c) := (Prepared(b, facts, at)[i], b.marketplace.candidates[i]);
            && (s.identity.Some? <==> Named(c)) && (Named(c) ==> s.identity.value.collectionId == CollectionId(Addresses(c.contracts)))
            && s.unexpired == map[] && s.observed == {} && s.matched == []
            && (Named(c) ==> (IsCurrent(Prepared(b, facts, at), i) <==> Latest(b.marketplace.candidates, i)))
  {
    PreparedFrom(b, facts, at);
    CleanBeforeSocial(b, facts, at, i);
    NamedIs(b.marketplace.candidates[i]);
    hide Prepared, Named, IsCurrent, Latest, CollectionId, IdentityReasons;
    if Named(b.marketplace.candidates[i]) { CurrentIs(b, facts, at, i); }
  }

  lemma LatestIsNamed(candidates: seq<Candidate>, i: nat)
    requires i < |candidates| && Latest(candidates, i)
    ensures Named(candidates[i])
  {
    NamedIs(candidates[i]);
  }

  /** Either the posts are read for the candidate or not. */
  lemma AbsorbedIs(b: Bundle, facts: Facts, at: Time, i: nat)
    requires i < |b.marketplace.candidates|
    ensures var (s, c) := (Prepared(b, facts, at)[i], b.marketplace.candidates[i]);
            if b.x.RecordedPosts? && Latest(b.marketplace.candidates, i)
            then s.identity.Some? && Read(b, i, s.identity.value.collectionId) && Absorbed(b, facts, at, i) == AbsorbAll(s, SocialsOf(b, facts, at), at)
            else Absorbed(b, facts, at, i) == s
  {
    hide Prepared, SocialsOf, AbsorbAll, IsCurrent, Latest, Named, CollectionId;
    PreparedIdentity(b, facts, at, i);
    if Latest(b.marketplace.candidates, i) { LatestIsNamed(b.marketplace.candidates, i); }
  }

  lemma AbsorbedReason(b: Bundle, facts: Facts, at: Time, i: nat, r: HardReason, w: WatchReason)
    requires FactsOk(facts) && i < |b.marketplace.candidates|
    ensures r in Absorbed(b, facts, at, i).hard <==> OwnReason(b, facts, at, i, r) || SomeSays(b, facts, at, i, r)
    ensures w in Absorbed(b, facts, at, i).watch <==>
              || (w == IdentityChanged && Named(b.marketplace.candidates[i]) && Moved(b.marketplace.candidates[i], facts)) || SomeWarns(b, i, w)
  {
    hide Prepared, SocialsOf, AbsorbAll, IsCurrent, Latest, Named, CollectionId, Absorbed, FactsOk, OwnReason, SomeSays, SomeWarns, Moved, Read, Brings,
      Cautions;
    PreparedReason(b, facts, at, i, r);
    PreparedCaution(b, facts, at, i, w);
    AbsorbedIs(b, facts, at, i);
    if b.x.RecordedPosts? && Latest(b.marketplace.candidates, i) {
      var s := Prepared(b, facts, at)[i];
      AbsorbedReasons(s, SocialsOf(b, facts, at), at, r, w);
      ReasonsRead(b, facts, at, i, s.identity.value.collectionId, SocialsOf(b, facts, at), r, w);
    } else {
      Unread(b, facts, at, i);
    }
  }

  lemma AbsorbedCluster(b: Bundle, facts: Facts, at: Time, i: nat, c: string)
    requires FactsOk(facts) && i < |b.marketplace.candidates|
    ensures var t := Absorbed(b, facts, at, i);
            && (c in t.observed <==> c in SeenClusters(b, i)) && (c in t.unexpired <==> c in CountingClusters(b, facts, at, i))
            && (c in Posts(t.matched) <==> c in TouchingPosts(b, i)) && (t.matched == [] <==> !SomeTouching(b, i))
  {
    hide Prepared, SocialsOf, AbsorbAll, IsCurrent, Latest, CollectionId, Absorbed, FactsOk, Read, Any, SeenClusters, CountingClusters, TouchingPosts,
      SomeTouching, Sees, Keeps, Hears, HearsPost, Cites, Posts, Named;
    AbsorbedIs(b, facts, at, i);
    PreparedIdentity(b, facts, at, i);
    var s := Prepared(b, facts, at)[i];
    NoPostsYet();
    if b.x.RecordedPosts? && Latest(b.marketplace.candidates, i) {
      AllAbsorbed(s, SocialsOf(b, facts, at), at, c, "", c);
      ClustersRead(b, facts, at, i, s.identity.value.collectionId, SocialsOf(b, facts, at), c);
    } else {
      Unread(b, facts, at, i);
    }
  }

  lemma NoPostsYet()
    ensures Posts([]) == {}
  {}

  /** What the remarks add. */
  lemma RemarkAdds(s: State, x: XSource, w: WatchReason, n: Note)
    requires x.RecordedPosts? && s.identity.None? ==> s.matched == [] && s.observed == {}
    requires x.XAbsent? ==> s.matched == [] && s.observed == {}
    ensures var t := if x.XAbsent? then s.(watch := s.watch + {MissingX}) else if s.identity.None? then s else Remark(s);
            && t.hard == s.hard && t.observed == s.observed && t.unexpired == s.unexpired && t.evidence == s.evidence
            && (w in t.watch <==>
                  || w in s.watch || (w == MissingX && x.XAbsent?)
                  || (w == NoBoundX && x.RecordedPosts? && s.identity.Some? && s.matched == [])
                  || (w == StaleX && s.matched != [] && s.unexpired.Keys == {} && SocialFuture !in s.hard))
            && (n in t.notes <==>
                  || n in s.notes || (n == AuthorsUnknown && s.matched != [])
                  || (n == CopiesCapped && (|s.observed| < |Posts(s.matched)| || |s.observed| > 2)))
  {
    NoPostsYet();
    hide Posts;
  }

  lemma PagesAdd(s: State, x: XSource, base: BaseSummary, n: Note)
    ensures var t := WithPages(s, x, base);
            && t.hard == s.hard && t.watch == s.watch && t.observed == s.observed && t.unexpired == s.unexpired && t.evidence == s.evidence
            && (n in t.notes <==>
                  || n in s.notes || (n == PartialXWindow && x.RecordedPosts? && x.hasNextPage) || (n == BaseContextOnly && base.BaseIsUsable?)
                  || (n == BaseContextStale && base.BaseIsStale?))
  {}

  lemma BaseIs(base: BaseSource, at: Time)
    ensures BaseContext(base, at).BaseIsUsable? <==> BaseIsFresh(base, at)
    ensures BaseContext(base, at).BaseIsStale? <==> BaseIsTimely(base, at) && !BaseIsFresh(base, at)
  {}

  /** Unnamed candidates and absent windows bring no posts. */
  lemma AbsorbedPlain(b: Bundle, facts: Facts, at: Time, i: nat)
    requires i < |b.marketplace.candidates|
    ensures var t := Absorbed(b, facts, at, i);
            && (t.identity.Some? <==> Named(b.marketplace.candidates[i]))
            && (t.identity.None? || b.x.XAbsent? ==> t.matched == [] && t.observed == {})
            && t.notes == Prepared(b, facts, at)[i].notes
  {
    hide Prepared, SocialsOf, IsCurrent, Latest, Named, CollectionId, AbsorbAll;
    PreparedIdentity(b, facts, at, i);
  }

  /** From the absorbed state to the last one. */
  lemma StateFrom(b: Bundle, facts: Facts, at: Time, i: nat, w: WatchReason, n: Note)
    requires i < |b.marketplace.candidates|
    ensures var (s, t) := (Absorbed(b, facts, at, i), Assessed(b, facts, at)[i]);
            && t.hard == s.hard && t.observed == s.observed && t.unexpired == s.unexpired && t.evidence == s.evidence
            && (w in t.watch <==>
                  || w in s.watch || (w == MissingX && b.x.XAbsent?)
                  || (w == NoBoundX && b.x.RecordedPosts? && Named(b.marketplace.candidates[i]) && s.matched == [])
                  || (w == StaleX && s.matched != [] && s.unexpired.Keys == {} && SocialFuture !in s.hard))
            && (n in t.notes <==>
                  || n in Prepared(b, facts, at)[i].notes || (n == AuthorsUnknown && s.matched != [])
                  || (n == CopiesCapped && (|s.observed| < |Posts(s.matched)| || |s.observed| > 2))
                  || (n == PartialXWindow && b.x.RecordedPosts? && b.x.hasNextPage) || (n == BaseContextOnly && BaseIsFresh(b.base, at))
                  || (n == BaseContextStale && BaseIsTimely(b.base, at) && !BaseIsFresh(b.base, at)))
  {
    hide Prepared, Assessed, Absorbed, Named, Remark, WithPages, BaseContext, BaseIsFresh, BaseIsTimely, Posts;
    var s := Absorbed(b, facts, at, i);
    AbsorbedPlain(b, facts, at, i);
    AssessedFrom(b, facts, at, i);
    RemarkAdds(s, b.x, w, n);
    var t := if b.x.XAbsent? then s.(watch := s.watch + {MissingX}) else if s.identity.None? then s else Remark(s);
    PagesAdd(t, b.x, BaseContext(b.base, at), n);
    BaseIs(b.base, at);
  }

  /** The hard reasons of a candidate are exactly what speaks against it. */
  lemma ReasonsAreExact(b: Bundle, facts: Facts, at: Time, i: nat, r: HardReason)
    requires FactsOk(facts) && i < |b.marketplace.candidates|
    ensures r in Assessed(b, facts, at)[i].hard <==> SpeaksAgainst(b, facts, at, i, r)
  {
    hide Prepared, Assessed, Absorbed, Named, OwnReason, PostSays, Touching, Moved, FactsOk, SomeWarns, Posts;
    StateFrom(b, facts, at, i, MissingX, NoSafeVerdict);
    AbsorbedReason(b, facts, at, i, r, MissingX);
  }

  lemma ClustersAreExact(b: Bundle, facts: Facts, at: Time, i: nat)
    requires FactsOk(facts) && i < |b.marketplace.candidates|
    ensures var t := Absorbed(b, facts, at, i);
            && t.observed == SeenClusters(b, i) && t.unexpired.Keys == CountingClusters(b, facts, at, i)
            && Posts(t.matched) == TouchingPosts(b, i) && (t.matched == [] <==> !SomeTouching(b, i))
    ensures Assessed(b, facts, at)[i].observed == SeenClusters(b, i) && Assessed(b, facts, at)[i].unexpired.Keys == CountingClusters(b, facts, at, i)
  {
    hide Prepared, Assessed, Absorbed, Named, FactsOk, SeenClusters, CountingClusters, TouchingPosts, SomeTouching, Posts;
    var t := Absorbed(b, facts, at, i);
    forall c ensures (c in t.observed <==> c in SeenClusters(b, i)) && (c in t.unexpired <==> c in CountingClusters(b, facts, at, i))
      && (c in Posts(t.matched) <==> c in TouchingPosts(b, i))
    {
      AbsorbedCluster(b, facts, at, i, c);
    }
    AbsorbedCluster(b, facts, at, i, "");
    StateFrom(b, facts, at, i, MissingX, NoSafeVerdict);
  }

  /** The cautions of a candidate are exactly what calls for them. */
  lemma CautionsAreExact(b: Bundle, facts: Facts, at: Time, i: nat, w: WatchReason)
    requires FactsOk(facts) && i < |b.marketplace.candidates|
    ensures w in Assessed(b, facts, at)[i].watch <==> CallsForCaution(b, facts, at, i, w)
  {
    hide Prepared, Assessed, Absorbed, Named, OwnReason, PostSays, Touching, Moved, FactsOk, SeenClusters, CountingClusters, TouchingPosts, SomeTouching,
      Posts, SpeaksAgainst, SomeSays;
    StateFrom(b, facts, at, i, w, NoSafeVerdict);
    AbsorbedReason(b, facts, at, i, SocialFuture, w);
    ReasonsAreExact(b, facts, at, i, SocialFuture);
    ClustersAreExact(b, facts, at, i);
    if SomeTouching(b, i) { TouchingIsNamed(b, i); }
  }

  lemma TouchingIsNamed(b: Bundle, i: nat)
    requires i < |b.marketplace.candidates| && SomeTouching(b, i)
    ensures b.x.RecordedPosts? && Named(b.marketplace.candidates[i])
  {
    var k :| 0 <= k < |PostsOf(b.x)| && Touching(b, i, k);
    LatestIsNamed(b.marketplace.candidates, i);
  }

  /** And so are its notes. */
  lemma NotesAreExact(b: Bundle, facts: Facts, at: Time, i: nat, n: Note)
    requires FactsOk(facts) && i < |b.marketplace.candidates|
    ensures n in Assessed(b, facts, at)[i].notes <==> IsNoted(b, facts, at, i, n)
  {
    hide Prepared, Assessed, Absorbed, Named, FactsOk, SeenClusters, CountingClusters, TouchingPosts, SomeTouching, Posts, RenamedSince, BaseIsFresh,
      BaseIsTimely;
    StateFrom(b, facts, at, i, MissingX, n);
    PreparedNote(b, facts, at, i, n);
    ClustersAreExact(b, facts, at, i);
  }

  lemma ExpiryOfCluster(p: Post, q: Post, facts: Facts, acquiredAt: Time)
    requires p.cluster == q.cluster
    ensures ClusterExpiry(p, facts, acquiredAt) == ClusterExpiry(q, facts, acquiredAt)
  {
    hide ViewOf;
  }

  /** The times at which counting clusters run out are those their posts say. */
  ghost predicate Expiries(b: Bundle, facts: Facts, at: Time, i: nat, times: set<Time>)
    requires i < |b.marketplace.candidates|
  {
    && (forall k :: 0 <= k < |PostsOf(b.x)| && Counts(b, facts, at, i, k) ==> RunsOutIn(b, facts, k, times))
    && forall v :: v in times ==> EndsCounting(b, facts, at, i, v)
  }

  ghost predicate RunsOutIn(b: Bundle, facts: Facts, k: nat, times: set<Time>) { exists v :: v in times && IsExpiry(b, facts, k, v) }

  predicate EndsCounting(b: Bundle, facts: Facts, at: Time, i: nat, v: Time)
    requires i < |b.marketplace.candidates|
  {
    exists k :: 0 <= k < |PostsOf(b.x)| && Counts(b, facts, at, i, k) && IsExpiry(b, facts, k, v)
  }

  lemma ExpiriesAreExact(b: Bundle, facts: Facts, at: Time, i: nat)
    requires FactsOk(facts) && i < |b.marketplace.candidates|
    ensures Expiries(b, facts, at, i, Assessed(b, facts, at)[i].unexpired.Values)
  {
    hide Prepared, Assessed, Absorbed, Named, FactsOk, SeenClusters, TouchingPosts, SomeTouching, Posts, Counts, ClusterExpiry, SocialsOf, AbsorbAll,
      Latest, DatedByPosts, Expiries, CountingClusters;
    ClustersAreExact(b, facts, at, i);
    if b.x.RecordedPosts? && Latest(b.marketplace.candidates, i) {
      DatesRead(b, facts, at, i);
    } else {
      Unread(b, facts, at, i);
      NothingDated(b, facts, Assessed(b, facts, at)[i].unexpired);
    }
    DatesFrom(b, facts, at, i, Assessed(b, facts, at)[i].unexpired);
  }

  lemma NothingDated(b: Bundle, facts: Facts, unexpired: map<string, Time>)
    requires unexpired.Keys == {}
    ensures DatedByPosts(b, facts, unexpired)
  {}

  lemma DatesRead(b: Bundle, facts: Facts, at: Time, i: nat)
    requires FactsOk(facts) && i < |b.marketplace.candidates| && b.x.RecordedPosts? && Latest(b.marketplace.candidates, i)
    ensures DatedByPosts(b, facts, Assessed(b, facts, at)[i].unexpired)
  {
    hide Prepared, Assessed, Absorbed, Named, FactsOk, Posts, ClusterExpiry, SocialsOf, AbsorbAll, Latest, Dated, DatedByPosts, Read, SomeTouching,
      BaseIsFresh, BaseIsTimely;
    StateFrom(b, facts, at, i, MissingX, NoSafeVerdict);
    AbsorbedIs(b, facts, at, i);
    PreparedIdentity(b, facts, at, i);
    var s := Prepared(b, facts, at)[i];
    AllDated(s, SocialsOf(b, facts, at), at);
    UnexpiredDated(b, facts, at, i, s.identity.value.collectionId, AbsorbAll(s, SocialsOf(b, facts, at), at));
  }

  ghost predicate DatedByPosts(b: Bundle, facts: Facts, unexpired: map<string, Time>)
  {
    forall c :: c in unexpired ==> exists k :: 0 <= k < |PostsOf(b.x)| && PostsOf(b.x)[k].cluster == c && IsExpiry(b, facts, k, unexpired[c])
  }

  /** The cluster of the k-th post runs out then. */
  predicate IsExpiry(b: Bundle, facts: Facts, k: nat, v: Time)
  {
    k < |PostsOf(b.x)| && b.x.RecordedPosts? && v == ClusterExpiry(PostsOf(b.x)[k], facts, b.x.acquiredAt)
  }

  lemma UnexpiredDated(b: Bundle, facts: Facts, at: Time, i: nat, id: string, t: State)
    requires FactsOk(facts) && i < |b.marketplace.candidates| && Read(b, i, id) && Dated(t, SocialsOf(b, facts, at), at)
    ensures DatedByPosts(b, facts, t.unexpired)
  {
    hide FactsOk, SocialsOf, SocialReasons, Touching, Bound, Counts, UsablePost, ClusterExpiry, CollectionId, Latest, Named;
    AllRead(b, facts, at, i, id, SocialsOf(b, facts, at));
    forall c | c in t.unexpired
      ensures exists k :: 0 <= k < |PostsOf(b.x)| && PostsOf(b.x)[k].cluster == c && IsExpiry(b, facts, k, t.unexpired[c])
    {
      var k :| 0 <= k < |SocialsOf(b, facts, at)| && SocialsOf(b, facts, at)[k].post.cluster == c && SocialsOf(b, facts, at)[k].validUntil == t.unexpired[c];
      assert PostsOf(b.x)[k].cluster == c && IsExpiry(b, facts, k, t.unexpired[c]);
    }
  }

  lemma SameExpiry(b: Bundle, facts: Facts, k: nat, l: nat, v: Time)
    requires k < |PostsOf(b.x)| && l < |PostsOf(b.x)| && PostsOf(b.x)[k].cluster == PostsOf(b.x)[l].cluster
    ensures IsExpiry(b, facts, k, v) <==> IsExpiry(b, facts, l, v)
  {
    hide ClusterExpiry;
    if b.x.RecordedPosts? { ExpiryOfCluster(PostsOf(b.x)[k], PostsOf(b.x)[l], facts, b.x.acquiredAt); }
  }

  lemma CountedRunsOut(b: Bundle, facts: Facts, at: Time, i: nat, unexpired: map<string, Time>, k: nat)
    requires i < |b.marketplace.candidates| && unexpired.Keys == CountingClusters(b, facts, at, i) && DatedByPosts(b, facts, unexpired)
    requires k < |PostsOf(b.x)| && Counts(b, facts, at, i, k)
    ensures RunsOutIn(b, facts, k, unexpired.Values)
  {
    hide Counts, IsExpiry;
    var c := PostsOf(b.x)[k].cluster;
    assert c in unexpired.Keys;
    var l :| 0 <= l < |PostsOf(b.x)| && PostsOf(b.x)[l].cluster == c && IsExpiry(b, facts, l, unexpired[c]);
    SameExpiry(b, facts, k, l, unexpired[c]);
    assert unexpired[c] in unexpired.Values;
  }

  lemma TimeEndsCounting(b: Bundle, facts: Facts, at: Time, i: nat, unexpired: map<string, Time>, c: string)
    requires i < |b.marketplace.candidates| && unexpired.Keys == CountingClusters(b, facts, at, i) && DatedByPosts(b, facts, unexpired)
    requires c in unexpired
    ensures EndsCounting(b, facts, at, i, unexpired[c])
  {
    hide Counts, IsExpiry;
    assert c in unexpired.Keys;
    var k :| 0 <= k < |PostsOf(b.x)| && Counts(b, facts, at, i, k) && PostsOf(b.x)[k].cluster == c;
    var l :| 0 <= l < |PostsOf(b.x)| && PostsOf(b.x)[l].cluster == c && IsExpiry(b, facts, l, unexpired[c]);
    SameExpiry(b, facts, k, l, unexpired[c]);
  }

  lemma DatesFrom(b: Bundle, facts: Facts, at: Time, i: nat, unexpired: map<string, Time>)
    requires i < |b.marketplace.candidates| && unexpired.Keys == CountingClusters(b, facts, at, i) && DatedByPosts(b, facts, unexpired)
    ensures Expiries(b, facts, at, i, unexpired.Values)
  {
    hide Counts, IsExpiry, PostsOf, DatedByPosts, CountingClusters, RunsOutIn, EndsCounting;
    forall k | 0 <= k < |PostsOf(b.x)| && Counts(b, facts, at, i, k) ensures RunsOutIn(b, facts, k, unexpired.Values) {
      CountedRunsOut(b, facts, at, i, unexpired, k);
    }
    forall v | v in unexpired.Values ensures EndsCounting(b, facts, at, i, v) {
      var c :| c in unexpired && unexpired[c] == v;
      TimeEndsCounting(b, facts, at, i, unexpired, c);
    }
  }

  /** The evidence is the window's and that of the posts that mention the candidate. */
  lemma EvidenceIsExact(b: Bundle, facts: Facts, at: Time, i: nat, e: string)
    requires FactsOk(facts) && i < |b.marketplace.candidates|
    ensures e in Assessed(b, facts, at)[i].evidence <==>
              || e == RankEvidenceId(b.marketplace, BundleId(b))
              || exists k :: 0 <= k < |PostsOf(b.x)| && Touching(b, i, k) && k < |SocialsOf(b, facts, at)| && e == SocialsOf(b, facts, at)[k].evidenceId
  {
    hide Prepared, Assessed, Absorbed, Named, FactsOk, Touching, Posts, SocialsOf, AbsorbAll, Latest, Read, RankEvidenceId, BundleId, Any, Sees, Keeps,
      HearsPost, Hears;
    StateFrom(b, facts, at, i, MissingX, NoSafeVerdict);
    PreparedEvidence(b, facts, at, i);
    AbsorbedIs(b, facts, at, i);
    var s, socials := Prepared(b, facts, at)[i], SocialsOf(b, facts, at);
    if b.x.RecordedPosts? && Latest(b.marketplace.candidates, i) {
      AllAbsorbed(s, socials, at, "", e, "");
      CitedRead(b, facts, at, i, s.identity.value.collectionId, socials, e);
    } else {
      UntouchedPosts(b, i);
    }
  }

  lemma PreparedEvidence(b: Bundle, facts: Facts, at: Time, i: nat)
    requires i < |b.marketplace.candidates|
    ensures Prepared(b, facts, at)[i].evidence == {RankEvidenceId(b.marketplace, BundleId(b))}
  {
    hide Prepared, InitialOf, IdentityReasons, IdentityOf, CurrentConflicts, Continued, SlugMoved, Renamed, MarketplaceReasons, RankEvidenceId, BundleId;
    PreparedSets(b, facts, at, i);
  }

  lemma UntouchedPosts(b: Bundle, i: nat)
    requires i < |b.marketplace.candidates| && !(b.x.RecordedPosts? && Latest(b.marketplace.candidates, i))
    ensures forall k :: 0 <= k < |PostsOf(b.x)| ==> !Touching(b, i, k)
  {
    hide Latest;
  }

  lemma CitedRead(b: Bundle, facts: Facts, at: Time, i: nat, id: string, socials: seq<Social>, e: string)
    requires FactsOk(facts) && i < |b.marketplace.candidates| && Read(b, i, id) && socials == SocialsOf(b, facts, at)
    ensures Any(socials, Cites(id, e)) <==> exists k :: 0 <= k < |PostsOf(b.x)| && Touching(b, i, k) && k < |socials| && e == socials[k].evidenceId
  {
    hide FactsOk, SocialsOf, Touching, Bound, Counts, UsablePost, ClusterExpiry, CollectionId, Read;
    AllRead(b, facts, at, i, id, socials);
    if Any(socials, Cites(id, e)) {
      var k :| 0 <= k < |socials| && Cites(id, e)(socials[k]);
      assert Touching(b, i, k);
    }
    if k :| 0 <= k < |PostsOf(b.x)| && Touching(b, i, k) && k < |socials| && e == socials[k].evidenceId {
      assert Cites(id, e)(socials[k]);
    }
  }
}
