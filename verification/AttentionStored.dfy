/** When a stored bundle is assessed, told by the bundle, the facts and the time alone: always for sanitized
    posts, and in general exactly when no post smuggles in a reason that its collection's row cannot show. */
module AttentionStored {
  import opened Order
  import opened Attention
  import opened AttentionIds
  import opened AttentionFacts
  import opened Assessor
  import opened AttentionAdvance
  import opened AttentionRows
  import opened AttentionTotality
  import opened Tables

  // ---------------------------------------------------------------- what a caller can check

  /** The candidate's contracts name a collection. */
  predicate Resolved(c: Candidate) { IdentityReasons(c) == {} }

  predicate SameCollection(c: Candidate, d: Candidate)
  {
    Resolved(c) && Resolved(d) && Addresses(c.contracts) == Addresses(d.contracts)
  }

  /** No later candidate is the same collection. */
  predicate Latest(candidates: seq<Candidate>, i: nat)
    requires i < |candidates|
  {
    Resolved(candidates[i]) && forall j :: i < j < |candidates| ==> !SameCollection(candidates[i], candidates[j])
  }

  function PostsOf(x: XSource): seq<Post> { if x.RecordedPosts? then x.posts else [] }

  predicate Touches(p: Post, c: Candidate) { exists address :: address in p.mentioned && address in Addresses(c.contracts) }

  predicate SharesAddress(candidates: seq<Candidate>, i: nat)
    requires i < |candidates|
  {
    exists j :: 0 <= j < |candidates| && j != i && SharesBaseAddress(candidates[i], candidates[j])
  }

  predicate SharesSlug(candidates: seq<Candidate>, i: nat)
    requires i < |candidates|
  {
    exists j :: 0 <= j < |candidates| && candidates[j].slug == candidates[i].slug && !SameCollection(candidates[i], candidates[j])
  }

  /** An earlier collection under other addresses shares one of them. */
  predicate Discontinued(c: Candidate, known: seq<Known>)
  {
    exists k :: 0 <= k < |known| && known[k].identity.contracts != Addresses(c.contracts)
                && exists address :: address in known[k].identity.contracts && address in Addresses(c.contracts)
  }

  predicate IdentityConflict(b: Bundle, facts: Facts, i: nat)
    requires i < |b.marketplace.candidates|
  {
    || SharesAddress(b.marketplace.candidates, i) || SharesSlug(b.marketplace.candidates, i)
    || Discontinued(b.marketplace.candidates[i], facts.known)
  }

  predicate Claims(p: Post, reasons: set<HardReason>) { exists r :: r in p.hard && r in reasons }

  /** Some post that mentions the candidate claims one of these reasons. */
  predicate ClaimedOf(b: Bundle, i: nat, reasons: set<HardReason>)
    requires i < |b.marketplace.candidates|
  {
    exists k :: 0 <= k < |PostsOf(b.x)| && Touches(PostsOf(b.x)[k], b.marketplace.candidates[i]) && Claims(PostsOf(b.x)[k], reasons)
  }

  /** The post mentions another collection as well. */
  predicate Ambiguous(p: Post, candidates: seq<Candidate>, i: nat)
    requires i < |candidates|
  {
    exists j :: 0 <= j < |candidates| && Resolved(candidates[j]) && Touches(p, candidates[j]) && !SameCollection(candidates[i], candidates[j])
  }

  /** The post mentions an address that no resolved candidate has. */
  predicate PartlyUnknown(p: Post, candidates: seq<Candidate>)
  {
    exists a :: 0 <= a < |p.mentioned| &&
      forall j :: 0 <= j < |candidates| && Resolved(candidates[j]) ==> p.mentioned[a] !in Addresses(candidates[j].contracts)
  }

  /** The post speaks against the collection it mentions. */
  predicate Hostile(b: Bundle, facts: Facts, at: Time, i: nat, p: Post)
    requires i < |b.marketplace.candidates| && b.x.RecordedPosts?
  {
    || p.hard != [] || Conflicting(p, ViewOf(facts)) || Regressing(b.x, facts) || b.x.acquiredAt > at
    || Ambiguous(p, b.marketplace.candidates, i) || PartlyUnknown(p, b.marketplace.candidates)
  }

  predicate MetByHostility(b: Bundle, facts: Facts, at: Time, i: nat)
    requires i < |b.marketplace.candidates|
  {
    b.x.RecordedPosts? && exists k :: 0 <= k < |b.x.posts| && Touches(b.x.posts[k], b.marketplace.candidates[i]) && Hostile(b, facts, at, i, b.x.posts[k])
  }

  predicate LaterView(p: Post) { LeftWindow in p.watch || AssessmentExpired in p.watch }

  predicate LaterViewOf(b: Bundle, i: nat)
    requires i < |b.marketplace.candidates|
  {
    exists k :: 0 <= k < |PostsOf(b.x)| && Touches(PostsOf(b.x)[k], b.marketplace.candidates[i]) && LaterView(PostsOf(b.x)[k])
  }

  /** A reason that only candidates carry is claimed of a collection only beside an identity conflict. */
  predicate ReasonsFit(b: Bundle, facts: Facts, i: nat)
    requires i < |b.marketplace.candidates|
  {
    ClaimedOf(b, i, CANDIDATE_ONLY_REASONS) ==> IdentityConflict(b, facts, i) || ClaimedOf(b, i, RESOLVED_IDENTITY_CONFLICT_REASONS)
  }

  /** A caution that only later views of a row show is claimed only beside a hard reason. */
  predicate CautionsFit(b: Bundle, facts: Facts, at: Time, i: nat)
    requires i < |b.marketplace.candidates|
  {
    LaterViewOf(b, i)
    ==> IdentityConflict(b, facts, i) || !MarketplaceUsable(b.marketplace, facts, at) || MetByHostility(b, facts, at, i)
  }

  predicate PostsFit(b: Bundle, facts: Facts, at: Time)
  {
    forall i :: 0 <= i < |b.marketplace.candidates| && Latest(b.marketplace.candidates, i) ==>
      ReasonsFit(b, facts, i) && CautionsFit(b, facts, at, i)
  }

  // ---------------------------------------------------------------- the states before the posts

  lemma CollectionsSame(c: Candidate, d: Candidate)
    ensures Resolved(c) && Resolved(d) ==>
              (IdentityOf(c).value.collectionId == IdentityOf(d).value.collectionId <==> SameCollection(c, d))
  {
    hide IdentityReasons, CollectionId;
    if Resolved(c) && Resolved(d) && CollectionId(Addresses(c.contracts)) == CollectionId(Addresses(d.contracts)) {
      CollectionIdInjective(Addresses(c.contracts), Addresses(d.contracts));
    }
  }

  lemma KeysSame(s: State, t: State)
    requires s.identity == IdentityOf(s.candidate) && t.identity == IdentityOf(t.candidate)
    requires t.candidateId == CandidateId(t.candidate.slug, t.candidate.contracts) && Resolved(s.candidate)
    ensures IdentityKey(s) == IdentityKey(t) <==> SameCollection(s.candidate, t.candidate)
  {
    hide IdentityReasons, CollectionId, CandidateId;
    CollectionsSame(s.candidate, t.candidate);
    CandidateIsNotCollection(t.candidate.slug, t.candidate.contracts, Addresses(s.candidate.contracts));
  }

  lemma InitialAt(b: Bundle, i: nat)
    requires i < |b.marketplace.candidates|
    ensures |InitialOf(b)| == |b.marketplace.candidates|
    ensures var (s, c) := (InitialOf(b)[i], b.marketplace.candidates[i]);
            && s.candidate == c && s.identity == IdentityOf(c) && s.candidateId == CandidateId(c.slug, c.contracts)
            && s.hard == IdentityReasons(c) && s.watch == {}
  {
    hide IdentityReasons, CollectionId, CandidateId, RankEvidenceId, BundleId;
  }

  lemma ConflictsAre(b: Bundle, i: nat)
    requires i < |b.marketplace.candidates| && Resolved(b.marketplace.candidates[i])
    ensures Overlapped(InitialOf(b), i) <==> SharesAddress(b.marketplace.candidates, i)
    ensures Rebound(InitialOf(b), i) <==> SharesSlug(b.marketplace.candidates, i)
  {
    var states, candidates := InitialOf(b), b.marketplace.candidates;
    forall j | 0 <= j < |candidates|
      ensures states[j].candidate == candidates[j] && (IdentityKey(states[j]) == IdentityKey(states[i]) <==> SameCollection(candidates[i], candidates[j]))
    {
      InitialAt(b, i);
      InitialAt(b, j);
      hide InitialOf, SameCollection, Resolved, IdentityKey;
      KeysSame(states[i], states[j]);
    }
    InitialAt(b, i);
    hide InitialOf, SameCollection, SharesBaseAddress, IdentityKey;
  }

  lemma KnownIdentity(facts: Facts, k: nat)
    requires FactsOk(facts) && k < |facts.known|
    ensures facts.known[k].identity.collectionId == CollectionId(facts.known[k].identity.contracts)
  {
    hide CollectionId, ReferencesOk, ConflictsOk, WindowOk, AddressesOk, SlugOk;
    IndexMembers(facts.known, KnownKey);
    assert facts.known[k] in facts.known;
  }

  lemma ContinuedIs(c: Candidate, facts: Facts)
    requires FactsOk(facts) && Resolved(c)
    ensures Continued(IdentityOf(c).value, facts.known) <==> !Discontinued(c, facts.known)
  {
    hide CollectionId, IdentityReasons;
    forall k | 0 <= k < |facts.known|
      ensures facts.known[k].identity.collectionId == CollectionId(Addresses(c.contracts)) <==> facts.known[k].identity.contracts == Addresses(c.contracts)
    {
      KnownIdentity(facts, k);
      if facts.known[k].identity.collectionId == CollectionId(Addresses(c.contracts)) {
        CollectionIdInjective(facts.known[k].identity.contracts, Addresses(c.contracts));
      }
    }
    hide FactsOk;
  }

  lemma PreparedIs(b: Bundle, facts: Facts, at: Time, i: nat)
    requires FactsOk(facts) && i < |b.marketplace.candidates| && Resolved(b.marketplace.candidates[i])
    ensures var (s, c) := (Prepared(b, facts, at)[i], b.marketplace.candidates[i]);
            && s.identity == IdentityOf(c) && s.candidate == c
            && s.hard * CANDIDATE_ONLY_REASONS == {} && (s.hard * RESOLVED_IDENTITY_CONFLICT_REASONS != {} <==> IdentityConflict(b, facts, i))
            && (s.hard == {} <==> !IdentityConflict(b, facts, i) && MarketplaceUsable(b.marketplace, facts, at))
            && LeftWindow !in s.watch && AssessmentExpired !in s.watch
  {
    InitialAt(b, i);
    ConflictsAre(b, i);
    ContinuedIs(b.marketplace.candidates[i], facts);
    PreparedAt(b, facts, at, i);
    PreparedReasons(InitialOf(b), i, b.marketplace, facts, at);
    hide Prepared, InitialOf, FactsOk, IdentityReasons, CollectionId, Continued, Discontinued, SharesAddress, SharesSlug, Overlapped, Rebound,
      MarketplaceReasons, WithHistory, WithMarketplace;
  }

  lemma PreparedReasons(states: seq<State>, i: nat, m: Marketplace, facts: Facts, at: Time)
    requires i < |states| && states[i].identity.Some? && states[i].hard == {} && states[i].watch == {}
    ensures var s := WithMarketplace(WithHistory(states[i].(hard := states[i].hard + CurrentConflicts(states, i)), facts), m, facts, at);
            && s.identity == states[i].identity && s.candidate == states[i].candidate
            && s.hard * CANDIDATE_ONLY_REASONS == {}
            && (s.hard * RESOLVED_IDENTITY_CONFLICT_REASONS != {}
                <==> Overlapped(states, i) || Rebound(states, i) || !Continued(states[i].identity.value, facts.known))
            && (s.hard == {} <==> s.hard * RESOLVED_IDENTITY_CONFLICT_REASONS == {} && MarketplaceReasons(m, facts, at) == {})
            && LeftWindow !in s.watch && AssessmentExpired !in s.watch
  {
    hide Overlapped, Rebound, Continued, SlugMoved, Renamed;
    var s := WithMarketplace(WithHistory(states[i].(hard := states[i].hard + CurrentConflicts(states, i)), facts), m, facts, at);
    assert Overlapped(states, i) ==> OverlappingContractGroups in s.hard * RESOLVED_IDENTITY_CONFLICT_REASONS;
    assert Rebound(states, i) ==> SlugRebound in s.hard * RESOLVED_IDENTITY_CONFLICT_REASONS;
    assert !Continued(states[i].identity.value, facts.known) ==> IdentityContinuityConflict in s.hard * RESOLVED_IDENTITY_CONFLICT_REASONS;
    assert s.hard == CurrentConflicts(states, i) + (if Continued(states[i].identity.value, facts.known) then {} else {IdentityContinuityConflict})
                     + MarketplaceReasons(m, facts, at);
  }

  // ---------------------------------------------------------------- the posts a state absorbs

  /** Some post read for the collection brings in the reason. */
  predicate Brings(socials: seq<Social>, id: string, r: HardReason)
  {
    exists k :: 0 <= k < |socials| && id in socials[k].matched && r in SocialReasons(socials[k])
  }

  predicate Cautions(socials: seq<Social>, id: string, r: WatchReason)
  {
    exists k :: 0 <= k < |socials| && id in socials[k].matched && r in socials[k].post.watch
  }

  lemma BringsMore(socials: seq<Social>, last: Social, id: string, r: HardReason)
    ensures Brings(socials + [last], id, r) <==> Brings(socials, id, r) || (id in last.matched && r in SocialReasons(last))
  {
    hide SocialReasons;
    var all := socials + [last];
    if k :| 0 <= k < |socials| && id in socials[k].matched && r in SocialReasons(socials[k]) { assert all[k] == socials[k]; }
    assert all[|socials|] == last;
  }

  lemma CautionsMore(socials: seq<Social>, last: Social, id: string, r: WatchReason)
    ensures Cautions(socials + [last], id, r) <==> Cautions(socials, id, r) || (id in last.matched && r in last.post.watch)
  {
    var all := socials + [last];
    if k :| 0 <= k < |socials| && id in socials[k].matched && r in socials[k].post.watch { assert all[k] == socials[k]; }
    assert all[|socials|] == last;
  }

  /** The reasons of a state are those it had and those its posts bring. */
  lemma {:induction false} AbsorbedReasons(s: State, socials: seq<Social>, at: Time, r: HardReason, w: WatchReason)
    requires s.identity.Some?
    ensures r in AbsorbAll(s, socials, at).hard <==> r in s.hard || Brings(socials, s.identity.value.collectionId, r)
    ensures w in AbsorbAll(s, socials, at).watch <==> w in s.watch || Cautions(socials, s.identity.value.collectionId, w)
  {
    if socials == [] {
      assert !Brings(socials, s.identity.value.collectionId, r) && !Cautions(socials, s.identity.value.collectionId, w);
    } else {
      var front, last := socials[..|socials| - 1], socials[|socials| - 1];
      AbsorbedReasons(s, front, at, r, w);
      assert socials == front + [last];
      BringsMore(front, last, s.identity.value.collectionId, r);
      CautionsMore(front, last, s.identity.value.collectionId, w);
      hide Brings, Cautions, SocialReasons, UsablePost;
    }
  }

  // ---------------------------------------------------------------- how a post is read

  lemma MentionsIs(p: Post, s: State)
    requires s.identity == IdentityOf(s.candidate)
    ensures Mentions(p, s) <==> Resolved(s.candidate) && Touches(p, s.candidate)
  {
    hide IdentityReasons, CollectionId;
  }

  ghost predicate FromCandidates(states: seq<State>, candidates: seq<Candidate>)
  {
    |states| == |candidates| && forall j :: 0 <= j < |states| ==> states[j].candidate == candidates[j] && states[j].identity == IdentityOf(candidates[j])
  }

  /** A post matches a resolved candidate's collection exactly when it mentions one of its addresses. */
  lemma MatchedIs(p: Post, states: seq<State>, candidates: seq<Candidate>, i: nat)
    requires FromCandidates(states, candidates) && i < |candidates| && Resolved(candidates[i])
    ensures states[i].identity.value.collectionId in MatchedIds(p, states) <==> Touches(p, candidates[i])
  {
    hide IdentityReasons, CollectionId;
    MentionsIs(p, states[i]);
    if states[i].identity.value.collectionId in MatchedIds(p, states) {
      var j :| 0 <= j < |states| && Mentions(p, states[j]) && states[j].identity.value.collectionId == states[i].identity.value.collectionId;
      MentionsIs(p, states[j]);
      CollectionsSame(candidates[i], candidates[j]);
    }
  }

  /** It matches more than one collection exactly when it mentions another one. */
  lemma AmbiguousIs(p: Post, states: seq<State>, candidates: seq<Candidate>, i: nat)
    requires FromCandidates(states, candidates) && i < |candidates| && Resolved(candidates[i]) && Touches(p, candidates[i])
    ensures |MatchedIds(p, states)| > 1 <==> Ambiguous(p, candidates, i)
    ensures |MatchedIds(p, states)| >= 1
  {
    MatchedIs(p, states, candidates, i);
    var ids, id := MatchedIds(p, states), states[i].identity.value.collectionId;
    if Ambiguous(p, candidates, i) {
      var j :| 0 <= j < |candidates| && Resolved(candidates[j]) && Touches(p, candidates[j]) && !SameCollection(candidates[i], candidates[j]);
      MatchedIs(p, states, candidates, j);
      CollectionsSame(candidates[i], candidates[j]);
      hide MatchedIds, Touches, SameCollection, Resolved, Ambiguous;
      TwoIds(ids, id, states[j].identity.value.collectionId);
    } else {
      assert ids == {id} by {
        forall other | other in ids ensures other == id {
          var j :| 0 <= j < |states| && Mentions(p, states[j]) && states[j].identity.value.collectionId == other;
          MentionsIs(p, states[j]);
          CollectionsSame(candidates[i], candidates[j]);
        }
      }
    }
  }

  lemma TwoIds(ids: set<string>, a: string, b: string)
    requires a in ids && b in ids && a != b
    ensures |ids| > 1
  {
    assert {a, b} <= ids;
    assert |ids - {a, b}| == |ids| - |{a, b}|;
  }

  lemma UnownedIs(address: string, states: seq<State>, candidates: seq<Candidate>)
    requires FromCandidates(states, candidates)
    ensures (forall j :: 0 <= j < |states| ==> !Owns(states[j], address))
            <==> forall j :: 0 <= j < |candidates| && Resolved(candidates[j]) ==> address !in Addresses(candidates[j].contracts)
  {
    forall j | 0 <= j < |states| ensures Owns(states[j], address) <==> Resolved(candidates[j]) && address in Addresses(candidates[j].contracts) {
      hide IdentityReasons, CollectionId, Addresses;
    }
    hide Owns, Resolved, Addresses;
  }

  lemma UnknownIs(p: Post, states: seq<State>, candidates: seq<Candidate>)
    requires FromCandidates(states, candidates)
    ensures HasUnknown(p, states) <==> PartlyUnknown(p, candidates)
  {
    hide Owns, Resolved, Addresses, FromCandidates;
    if HasUnknown(p, states) {
      var a :| 0 <= a < |p.mentioned| && forall j :: 0 <= j < |states| ==> !Owns(states[j], p.mentioned[a]);
      UnownedIs(p.mentioned[a], states, candidates);
    }
    if PartlyUnknown(p, candidates) {
      var a :| 0 <= a < |p.mentioned| && forall j :: 0 <= j < |candidates| && Resolved(candidates[j]) ==> p.mentioned[a] !in Addresses(candidates[j].contracts);
      UnownedIs(p.mentioned[a], states, candidates);
    }
  }

  // ---------------------------------------------------------------- the states behind the rows

  lemma PreparedFrom(b: Bundle, facts: Facts, at: Time)
    ensures FromCandidates(Prepared(b, facts, at), b.marketplace.candidates)
  {
    forall j | 0 <= j < |b.marketplace.candidates|
      ensures Prepared(b, facts, at)[j].candidate == b.marketplace.candidates[j] && Prepared(b, facts, at)[j].identity == IdentityOf(b.marketplace.candidates[j])
    {
      PreparedAt(b, facts, at, j);
      InitialAt(b, j);
      hide Prepared, InitialOf, CurrentConflicts, MarketplaceReasons, Continued, SlugMoved, Renamed, IdentityReasons, IdentityOf;
    }
    hide Prepared;
  }

  /** How the k-th post is read for the i-th candidate. */
  lemma ReadFor(b: Bundle, facts: Facts, at: Time, i: nat, k: nat)
    requires b.x.RecordedPosts? && k < |b.x.posts| && i < |b.marketplace.candidates| && Resolved(b.marketplace.candidates[i])
    ensures |SocialsOf(b, facts, at)| == |b.x.posts|
    ensures var (s, p, c) := (SocialsOf(b, facts, at)[k], b.x.posts[k], b.marketplace.candidates[i]);
            && s.post == p && (IdentityOf(c).value.collectionId in s.matched <==> Touches(p, c))
            && (Touches(p, c) ==>
                  && (SocialReasons(s) != {} <==> Hostile(b, facts, at, i, p))
                  && forall r :: r in CANDIDATE_ONLY_REASONS || r in RESOLVED_IDENTITY_CONFLICT_REASONS ==> (r in SocialReasons(s) <==> r in p.hard))
  {
    var states, p, candidates := Prepared(b, facts, at), b.x.posts[k], b.marketplace.candidates;
    PreparedFrom(b, facts, at);
    MatchedIs(p, states, candidates, i);
    UnknownIs(p, states, candidates);
    SocialIs(b, facts, at, k);
    if Touches(p, candidates[i]) {
      AmbiguousIs(p, states, candidates, i);
      ReasonsAre(SocialsOf(b, facts, at)[k]);
    }
    hide Prepared, SocialsOf, SocialReasons, MatchedIds, HasUnknown, PartlyUnknown, Ambiguous, Touches, FromCandidates, Resolved, Conflicting, ViewOf,
      IdentityOf;
  }

  lemma SocialIs(b: Bundle, facts: Facts, at: Time, k: nat)
    requires b.x.RecordedPosts? && k < |b.x.posts|
    ensures |SocialsOf(b, facts, at)| == |b.x.posts|
    ensures var (s, p) := (SocialsOf(b, facts, at)[k], b.x.posts[k]);
            && s.post == p && s.conflict == Conflicting(p, ViewOf(facts)) && s.regression == Regressing(b.x, facts)
            && s.future == (b.x.acquiredAt > at) && s.unknown == HasUnknown(p, Prepared(b, facts, at))
            && (forall id :: id in s.matched <==> id in MatchedIds(p, Prepared(b, facts, at)))
            && |s.matched| == |MatchedIds(p, Prepared(b, facts, at))|
  {
    hide Prepared, BundleId, Conflicting, ViewOf, HasUnknown, MatchedIds, Ordered, SocialEvidenceId, FirstSeenAt, SortedStrings;
  }

  lemma ReasonsAre(s: Social)
    requires |s.matched| >= 1
    ensures SocialReasons(s) != {} <==> s.post.hard != [] || s.conflict || s.regression || s.future || |s.matched| > 1 || s.unknown
    ensures forall r :: r in CANDIDATE_ONLY_REASONS || r in RESOLVED_IDENTITY_CONFLICT_REASONS ==> (r in SocialReasons(s) <==> r in s.post.hard)
  {
    if s.post.hard != [] { assert s.post.hard[0] in SocialReasons(s); }
    if s.conflict { assert PostContentConflict in SocialReasons(s); }
    if s.regression { assert SocialTimeRegression in SocialReasons(s); }
    if s.future { assert SocialFuture in SocialReasons(s); }
    if |s.matched| > 1 { assert AmbiguousSocialIdentity in SocialReasons(s); }
    else if s.unknown { assert SocialAddressConflict in SocialReasons(s); }
  }

  /** What the posts of a bundle do to the state of one resolved candidate. */
  lemma PostsBring(b: Bundle, facts: Facts, at: Time, i: nat, id: string, socials: seq<Social>)
    requires i < |b.marketplace.candidates| && Resolved(b.marketplace.candidates[i])
    requires id == IdentityOf(b.marketplace.candidates[i]).value.collectionId && socials == SocialsOf(b, facts, at) && b.x.RecordedPosts?
    ensures (exists r :: r in CANDIDATE_ONLY_REASONS && Brings(socials, id, r)) <==> ClaimedOf(b, i, CANDIDATE_ONLY_REASONS)
    ensures (exists r :: r in RESOLVED_IDENTITY_CONFLICT_REASONS && Brings(socials, id, r)) <==> ClaimedOf(b, i, RESOLVED_IDENTITY_CONFLICT_REASONS)
    ensures (exists r :: Brings(socials, id, r)) <==> MetByHostility(b, facts, at, i)
    ensures Cautions(socials, id, LeftWindow) || Cautions(socials, id, AssessmentExpired) <==> LaterViewOf(b, i)
  {
    hide SocialsOf, SocialReasons, Hostile, Touches, IdentityOf, Resolved;
    forall k | 0 <= k < |b.x.posts|
      ensures |socials| == |b.x.posts| && socials[k].post == b.x.posts[k]
      ensures id in socials[k].matched <==> Touches(b.x.posts[k], b.marketplace.candidates[i])
      ensures id in socials[k].matched ==>
                && (SocialReasons(socials[k]) != {} <==> Hostile(b, facts, at, i, b.x.posts[k]))
                && forall r :: r in CANDIDATE_ONLY_REASONS || r in RESOLVED_IDENTITY_CONFLICT_REASONS ==> (r in SocialReasons(socials[k]) <==> r in b.x.posts[k].hard)
    {
      ReadFor(b, facts, at, i, k);
    }
    EveryPostRead(b, facts, at);
    ClaimsBring(b, i, id, socials, CANDIDATE_ONLY_REASONS);
    ClaimsBring(b, i, id, socials, RESOLVED_IDENTITY_CONFLICT_REASONS);
    HostilityBrings(b, facts, at, i, id, socials);
    LaterViewsCaution(b, i, id, socials);
  }

  lemma EveryPostRead(b: Bundle, facts: Facts, at: Time)
    requires b.x.RecordedPosts?
    ensures |SocialsOf(b, facts, at)| == |b.x.posts|
  {
    hide Prepared;
  }

  lemma ClaimsBring(b: Bundle, i: nat, id: string, socials: seq<Social>, reasons: set<HardReason>)
    requires b.x.RecordedPosts? && i < |b.marketplace.candidates| && |socials| == |b.x.posts|
    requires forall k :: 0 <= k < |socials| ==>
               && socials[k].post == b.x.posts[k] && (id in socials[k].matched <==> Touches(b.x.posts[k], b.marketplace.candidates[i]))
               && (id in socials[k].matched ==> forall r :: r in reasons ==> (r in SocialReasons(socials[k]) <==> r in b.x.posts[k].hard))
    ensures (exists r :: r in reasons && Brings(socials, id, r)) <==> ClaimedOf(b, i, reasons)
  {
    hide SocialReasons, Touches;
    if ClaimedOf(b, i, reasons) {
      var k :| 0 <= k < |PostsOf(b.x)| && Touches(PostsOf(b.x)[k], b.marketplace.candidates[i]) && Claims(PostsOf(b.x)[k], reasons);
      var r :| r in b.x.posts[k].hard && r in reasons;
      assert id in socials[k].matched && r in SocialReasons(socials[k]);
      assert Brings(socials, id, r);
    }
    if r :| r in reasons && Brings(socials, id, r) {
      var k :| 0 <= k < |socials| && id in socials[k].matched && r in SocialReasons(socials[k]);
      assert Claims(PostsOf(b.x)[k], reasons);
    }
  }

  lemma HostilityBrings(b: Bundle, facts: Facts, at: Time, i: nat, id: string, socials: seq<Social>)
    requires b.x.RecordedPosts? && i < |b.marketplace.candidates| && |socials| == |b.x.posts|
    requires forall k :: 0 <= k < |socials| ==>
               && (id in socials[k].matched <==> Touches(b.x.posts[k], b.marketplace.candidates[i]))
               && (id in socials[k].matched ==> (SocialReasons(socials[k]) != {} <==> Hostile(b, facts, at, i, b.x.posts[k])))
    ensures (exists r :: Brings(socials, id, r)) <==> MetByHostility(b, facts, at, i)
  {
    hide SocialReasons, Touches, Hostile;
    if MetByHostility(b, facts, at, i) {
      var k :| 0 <= k < |b.x.posts| && Touches(b.x.posts[k], b.marketplace.candidates[i]) && Hostile(b, facts, at, i, b.x.posts[k]);
      assert id in socials[k].matched && SocialReasons(socials[k]) != {};
      var r := Pick(SocialReasons(socials[k]));
      assert Brings(socials, id, r);
    }
    if r :| Brings(socials, id, r) {
      var k :| 0 <= k < |socials| && id in socials[k].matched && r in SocialReasons(socials[k]);
      assert Hostile(b, facts, at, i, b.x.posts[k]);
    }
  }

  lemma LaterViewsCaution(b: Bundle, i: nat, id: string, socials: seq<Social>)
    requires b.x.RecordedPosts? && i < |b.marketplace.candidates| && |socials| == |b.x.posts|
    requires forall k :: 0 <= k < |socials| ==>
               socials[k].post == b.x.posts[k] && (id in socials[k].matched <==> Touches(b.x.posts[k], b.marketplace.candidates[i]))
    ensures Cautions(socials, id, LeftWindow) || Cautions(socials, id, AssessmentExpired) <==> LaterViewOf(b, i)
  {
    hide Touches;
    if LaterViewOf(b, i) {
      var k :| 0 <= k < |PostsOf(b.x)| && Touches(PostsOf(b.x)[k], b.marketplace.candidates[i]) && LaterView(PostsOf(b.x)[k]);
      assert id in socials[k].matched;
    }
    forall w | w in {LeftWindow, AssessmentExpired} && Cautions(socials, id, w) ensures LaterViewOf(b, i) {
      var k :| 0 <= k < |socials| && id in socials[k].matched && w in socials[k].post.watch;
      assert LaterView(PostsOf(b.x)[k]);
    }
  }

  // ---------------------------------------------------------------- admissible, on the inputs

  /** What the social pass leaves of a state's reasons. */
  lemma PassedReasons(states: seq<State>, i: nat, x: XSource, socials: seq<Social>, at: Time, base: BaseSummary)
    requires i < |states| && states[i].identity.Some?
    ensures var (s, t) := (states[i], WithPages(WithSocial(states, i, x, socials, at), x, base));
            var absorbed := if x.RecordedPosts? && IsCurrent(states, i) then AbsorbAll(s, socials, at) else s;
            SameReasons(absorbed, t)
  {
    hide IsCurrent, AbsorbAll, Remark, WithPages;
    var before := WithSocial(states, i, x, socials, at);
    PagesKeep(before, x, base);
    if x.XAbsent? { MissingKeeps(states[i]); } else { RemarkKeeps(if IsCurrent(states, i) then AbsorbAll(states[i], socials, at) else states[i]); }
  }

  /** The same reasons, but for cautions that every row may show. */
  predicate SameReasons(s: State, t: State)
  {
    && t.identity == s.identity && t.hard == s.hard
    && (LeftWindow in t.watch <==> LeftWindow in s.watch) && (AssessmentExpired in t.watch <==> AssessmentExpired in s.watch)
  }

  lemma PagesKeep(s: State, x: XSource, base: BaseSummary)
    ensures SameReasons(s, WithPages(s, x, base))
  {}

  lemma MissingKeeps(s: State)
    ensures SameReasons(s, s.(watch := s.watch + {MissingX}))
  {}

  lemma RemarkKeeps(s: State)
    requires s.identity.Some?
    ensures SameReasons(s, Remark(s))
  {
    hide Posts;
  }

  lemma CurrentIs(b: Bundle, facts: Facts, at: Time, i: nat)
    requires i < |b.marketplace.candidates| && Resolved(b.marketplace.candidates[i])
    ensures IsCurrent(Prepared(b, facts, at), i) <==> Latest(b.marketplace.candidates, i)
  {
    PreparedFrom(b, facts, at);
    var states, candidates := Prepared(b, facts, at), b.marketplace.candidates;
    forall j | i < j < |candidates|
      ensures (states[j].identity.None? || states[j].identity.value.collectionId != states[i].identity.value.collectionId)
              <==> !SameCollection(candidates[i], candidates[j])
    {
      hide Prepared, IdentityReasons, CollectionId;
      CollectionsSame(candidates[i], candidates[j]);
    }
    hide Prepared, SameCollection, IdentityReasons, CollectionId;
  }

  lemma AbsorbedAdmissible(s: State, t: State, socials: seq<Social>, at: Time, id: string)
    requires s.identity.Some? && id == s.identity.value.collectionId && s.hard * CANDIDATE_ONLY_REASONS == {}
    requires LeftWindow !in s.watch && AssessmentExpired !in s.watch
    requires t.identity == s.identity && t.hard == AbsorbAll(s, socials, at).hard
    requires LeftWindow in t.watch <==> LeftWindow in AbsorbAll(s, socials, at).watch
    requires AssessmentExpired in t.watch <==> AssessmentExpired in AbsorbAll(s, socials, at).watch
    ensures Admissible(t) <==>
              && ((exists r :: r in CANDIDATE_ONLY_REASONS && Brings(socials, id, r))
                  ==> s.hard * RESOLVED_IDENTITY_CONFLICT_REASONS != {} || exists r :: r in RESOLVED_IDENTITY_CONFLICT_REASONS && Brings(socials, id, r))
              && (Cautions(socials, id, LeftWindow) || Cautions(socials, id, AssessmentExpired) ==> s.hard != {} || exists r :: Brings(socials, id, r))
  {
    forall r ensures r in t.hard <==> r in s.hard || Brings(socials, id, r) { AbsorbedReasons(s, socials, at, r, LeftWindow); }
    AbsorbedReasons(s, socials, at, PostContentConflict, LeftWindow);
    AbsorbedReasons(s, socials, at, PostContentConflict, AssessmentExpired);
    hide AbsorbAll, Brings, Cautions;
    Meets(t.hard, CANDIDATE_ONLY_REASONS);
    Meets(t.hard, RESOLVED_IDENTITY_CONFLICT_REASONS);
    Meets(s.hard, CANDIDATE_ONLY_REASONS);
    Meets(s.hard, RESOLVED_IDENTITY_CONFLICT_REASONS);
    assert t.hard == {} <==> s.hard == {} && !exists r :: Brings(socials, id, r) by {
      if t.hard != {} { var r := Pick(t.hard); }
      if s.hard != {} { var r := Pick(s.hard); assert r in t.hard; }
    }
    assert t.watch * {LeftWindow, AssessmentExpired} == {} <==> LeftWindow !in t.watch && AssessmentExpired !in t.watch by {
      if LeftWindow in t.watch { assert LeftWindow in t.watch * {LeftWindow, AssessmentExpired}; }
      if AssessmentExpired in t.watch { assert AssessmentExpired in t.watch * {LeftWindow, AssessmentExpired}; }
    }
  }

  lemma Meets<T>(s: set<T>, reasons: set<T>)
    ensures s * reasons != {} <==> exists r :: r in reasons && r in s
  {
    if r :| r in reasons && r in s { assert r in s * reasons; }
    if s * reasons != {} { var r := Pick(s * reasons); }
  }

  lemma UntouchedAdmissible(s: State, t: State)
    requires s.identity.Some? && s.hard * CANDIDATE_ONLY_REASONS == {} && t.identity == s.identity && t.hard == s.hard
    requires LeftWindow !in t.watch && AssessmentExpired !in t.watch
    ensures Admissible(t)
  {
    assert t.watch * {LeftWindow, AssessmentExpired} == {};
  }

  lemma UnresolvedAdmissible(b: Bundle, facts: Facts, at: Time, i: nat)
    requires i < |b.marketplace.candidates| && !Resolved(b.marketplace.candidates[i])
    ensures Admissible(Assessed(b, facts, at)[i])
  {
    hide Assessed, IdentityReasons, CollectionId, CurrentConflicts, MarketplaceReasons, Continued;
    AssessedKeeps(b, facts, at, i);
  }

  /** The row of a candidate passes its schema exactly when the posts that mention it fit it. */
  lemma AdmissibleIs(b: Bundle, facts: Facts, at: Time, i: nat)
    requires FactsOk(facts) && i < |b.marketplace.candidates|
    ensures Admissible(Assessed(b, facts, at)[i])
            <==> (Latest(b.marketplace.candidates, i) ==> ReasonsFit(b, facts, i) && CautionsFit(b, facts, at, i))
  {
    hide Assessed, Prepared, SocialsOf, FactsOk, Admissible, IdentityReasons, CollectionId, WithSocial, WithPages, BaseContext, AbsorbAll, IsCurrent, Brings,
      Cautions, ClaimedOf, LaterViewOf, MetByHostility, IdentityConflict, MarketplaceUsable;
    if !Resolved(b.marketplace.candidates[i]) {
      UnresolvedAdmissible(b, facts, at, i);
    } else {
      var states, socials := Prepared(b, facts, at), SocialsOf(b, facts, at);
      PreparedIs(b, facts, at, i);
      PassedReasons(states, i, b.x, socials, at, BaseContext(b.base, at));
      AssessedAt(b, facts, at, i);
      CurrentIs(b, facts, at, i);
      hide Latest, Resolved;
      var s, t := states[i], Assessed(b, facts, at)[i];
      if b.x.RecordedPosts? && IsCurrent(states, i) {
        AbsorbedAdmissible(s, t, socials, at, s.identity.value.collectionId);
        PostsBring(b, facts, at, i, s.identity.value.collectionId, socials);
      } else {
        UntouchedAdmissible(s, t);
        if b.x.XAbsent? { NoPosts(b, i); }
      }
    }
  }

  lemma NoPosts(b: Bundle, i: nat)
    requires b.x.XAbsent? && i < |b.marketplace.candidates|
    ensures !ClaimedOf(b, i, CANDIDATE_ONLY_REASONS) && !LaterViewOf(b, i)
  {}

  // ---------------------------------------------------------------- totality

  /** An assessment passes its schema exactly when the posts of its bundle fit the collections they mention. */
  lemma AssessmentFits(b: Bundle, facts: Facts, at: Time)
    requires BundleOk(b) && FactsOk(facts) && CanonicalTime(at)
    ensures AssessmentOk(AssessmentOf(b, facts, at)) <==> PostsFit(b, facts, at)
  {
    hide BundleOk, FactsOk, AssessmentOk, AssessmentOf, Admissible, Assessed, Latest, ReasonsFit, CautionsFit;
    StatesDecide(b, facts, at);
    forall i | 0 <= i < |b.marketplace.candidates|
      ensures Admissible(Assessed(b, facts, at)[i])
              <==> (Latest(b.marketplace.candidates, i) ==> ReasonsFit(b, facts, i) && CautionsFit(b, facts, at, i))
    {
      AdmissibleIs(b, facts, at, i);
    }
  }

  /** For any stored bundle and all valid facts: it is assessed exactly when its posts fit the collections
      they mention and the next facts do not retain too much. */
  lemma StoredTotality(b: Bundle, facts: Facts, at: Time)
    requires BundleOk(b) && FactsOk(facts) && CanonicalTime(at)
    ensures Assess(b, facts, at).Some? <==> PostsFit(b, facts, at) && WithinCap(NextFacts(b, facts, at))
  {
    hide BundleOk, FactsOk, AssessmentOk, AssessmentOf, NextFacts, WithinCap, PostsFit;
    AssessmentFits(b, facts, at);
    NextFactsOk(b, facts, at);
  }

  lemma SanitizedPostsFit(b: Bundle, facts: Facts, at: Time)
    requires Sanitized(b)
    ensures PostsFit(b, facts, at)
  {
    hide Touches, IdentityConflict, MetByHostility, Latest, MarketplaceUsable;
    forall i | 0 <= i < |b.marketplace.candidates| ensures ReasonsFit(b, facts, i) && CautionsFit(b, facts, at, i) {
      forall k | 0 <= k < |PostsOf(b.x)| ensures !Claims(PostsOf(b.x)[k], CANDIDATE_ONLY_REASONS) && !LaterView(PostsOf(b.x)[k]) {}
    }
  }

  /** Totality: for every bundle the sanitizer can produce and all valid earlier facts, the assessment
      passes its schema, and the facts pass theirs unless they retain too much. Nothing else refuses. */
  lemma SanitizedTotality(b: Bundle, facts: Facts, at: Time)
    requires BundleOk(b) && Sanitized(b) && FactsOk(facts) && CanonicalTime(at)
    ensures AssessmentOk(AssessmentOf(b, facts, at))
    ensures Assess(b, facts, at).Some? <==> WithinCap(NextFacts(b, facts, at))
  {
    hide BundleOk, Sanitized, FactsOk, AssessmentOk, AssessmentOf, NextFacts, WithinCap, PostsFit, Assess;
    SanitizedPostsFit(b, facts, at);
    AssessmentFits(b, facts, at);
    StoredTotality(b, facts, at);
  }

  // ---------------------------------------------------------------- a stored bundle that is refused

  function Repeated(c: char, n: nat): (r: string)
    ensures |r| == n && forall i :: 0 <= i < n ==> r[i] == c
  {
    seq(n, _ => c)
  }

  const SAMPLE_ADDRESS: string := ['0', 'x'] + Repeated('1', 40)
  const SAMPLE_CANDIDATE: Candidate := Candidate(1, "a", [Contract(BASE_CHAIN_ID, SAMPLE_ADDRESS)])
  const SAMPLE_POST: Post := Post(Repeated('a', 64), Repeated('b', 64), [SAMPLE_ADDRESS], [UnsupportedChain], [])

  /** One resolved candidate and one post that claims a candidate's reason; the bundle's schema admits it. */
  const SAMPLE_BUNDLE: Bundle :=
    Bundle(Marketplace(0, MARKETPLACE_VALIDITY, false, [SAMPLE_CANDIDATE]), RecordedPosts(0, false, [SAMPLE_POST]), BaseAbsent)

  lemma SampleAddress()
    ensures AddressOk(SAMPLE_ADDRESS) && SAMPLE_ADDRESS != ZERO_ADDRESS
  {
    assert SAMPLE_ADDRESS[2] == '1' && ZERO_ADDRESS[2] == '0';
  }

  lemma SampleReason()
    ensures EnumOrdered([UnsupportedChain], HARD_REASONS)
  {
    EveryHardReason(UnsupportedChain);
    IndexOfMember(HARD_REASONS, UnsupportedChain);
  }

  lemma SamplePostOk()
    ensures PostOk(SAMPLE_POST)
  {
    SampleAddress();
    SampleReason();
    assert EnumOrdered(SAMPLE_POST.watch, WATCH_REASONS);
    hide AddressOk, EnumOrdered;
  }

  lemma SampleOk()
    ensures BundleOk(SAMPLE_BUNDLE) && Resolved(SAMPLE_CANDIDATE)
  {
    SampleAddress();
    SamplePostOk();
    hide AddressOk, CandidateKey, PostOk;
    assert CandidateOk(SAMPLE_CANDIDATE);
  }

  /** Without sanitizing, totality fails: this bundle passes its schema, its one post claims of a collection
      what only an unresolved candidate can be, and it is refused. */
  lemma UnsanitizedIsRefused()
    ensures BundleOk(SAMPLE_BUNDLE) && FactsOk(EMPTY_FACTS) && !PostsFit(SAMPLE_BUNDLE, EMPTY_FACTS, 0)
    ensures Assess(SAMPLE_BUNDLE, EMPTY_FACTS, 0).None?
  {
    SampleOk();
    EmptyFactsOk();
    StoredTotality(SAMPLE_BUNDLE, EMPTY_FACTS, 0);
    SampleMisfit();
    hide PostsFit, BundleOk, FactsOk, Assess, NextFacts;
  }

  lemma SampleMisfit()
    requires Resolved(SAMPLE_CANDIDATE)
    ensures !PostsFit(SAMPLE_BUNDLE, EMPTY_FACTS, 0)
  {
    hide IdentityReasons, CautionsFit;
    var p := PostsOf(SAMPLE_BUNDLE.x)[0];
    assert p == SAMPLE_POST && p.hard == [UnsupportedChain];
    assert SAMPLE_POST.mentioned[0] == SAMPLE_ADDRESS && Addresses(SAMPLE_CANDIDATE.contracts)[0] == SAMPLE_ADDRESS;
    assert SAMPLE_ADDRESS in p.mentioned && SAMPLE_ADDRESS in Addresses(SAMPLE_CANDIDATE.contracts);
    assert Touches(p, SAMPLE_CANDIDATE);
    assert Claims(p, CANDIDATE_ONLY_REASONS) by { assert p.hard[0] == UnsupportedChain; }
    assert !Claims(p, RESOLVED_IDENTITY_CONFLICT_REASONS);
    assert SAMPLE_BUNDLE.marketplace.candidates == [SAMPLE_CANDIDATE] && PostsOf(SAMPLE_BUNDLE.x) == [SAMPLE_POST];
    hide Claims, Touches;
    assert ClaimedOf(SAMPLE_BUNDLE, 0, CANDIDATE_ONLY_REASONS);
    assert !ClaimedOf(SAMPLE_BUNDLE, 0, RESOLVED_IDENTITY_CONFLICT_REASONS);
    assert SameCollection(SAMPLE_CANDIDATE, SAMPLE_CANDIDATE);
    assert Latest(SAMPLE_BUNDLE.marketplace.candidates, 0);
    assert !SharesAddress(SAMPLE_BUNDLE.marketplace.candidates, 0);
    assert !SharesSlug(SAMPLE_BUNDLE.marketplace.candidates, 0);
    assert !Discontinued(SAMPLE_CANDIDATE, EMPTY_FACTS.known);
    assert !ReasonsFit(SAMPLE_BUNDLE, EMPTY_FACTS, 0);
  }
}
