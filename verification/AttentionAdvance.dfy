/** From the passes over one window to the next facts: closure of the facts' invariant, and the
    invariants it does not state. */
module AttentionAdvance {
  import opened Hex
  import opened Order
  import opened Wrappers
  import opened Tables
  import opened Attention
  import opened AttentionIds
  import opened AttentionFacts
  import opened Assessor
  import opened AttentionClosure

  // ---------------------------------------------------------------- what the passes keep

  /** The same candidate, with reasons only added. */
  predicate Builds(s: State, t: State)
  {
    && t.candidate == s.candidate && t.candidateId == s.candidateId && t.identity == s.identity
    && s.hard <= t.hard && s.watch <= t.watch && s.notes <= t.notes
  }

  lemma {:induction false} AbsorbAllBuilds(s: State, socials: seq<Social>, at: Time)
    requires s.identity.Some?
    ensures Builds(s, AbsorbAll(s, socials, at))
  {
    if socials == [] {
    } else {
      AbsorbAllBuilds(s, socials[..|socials| - 1], at);
    }
  }

  lemma SocialBuilds(states: seq<State>, i: nat, x: XSource, socials: seq<Social>, at: Time)
    requires i < |states|
    ensures Builds(states[i], WithSocial(states, i, x, socials, at))
  {
    if states[i].identity.Some? { AbsorbAllBuilds(states[i], socials, at); }
  }

  ghost function InitialOf(b: Bundle): seq<State>
  {
    InitialStates(b.marketplace.candidates, RankEvidenceId(b.marketplace, BundleId(b)))
  }

  /** Where each candidate starts the social pass. */
  lemma PreparedAt(b: Bundle, facts: Facts, at: Time, i: nat)
    requires i < |b.marketplace.candidates|
    ensures Prepared(b, facts, at)[i]
            == WithMarketplace(WithHistory(InitialOf(b)[i].(hard := InitialOf(b)[i].hard + CurrentConflicts(InitialOf(b), i)), facts),
                               b.marketplace, facts, at)
  {
    hide CurrentConflicts, WithHistory, WithMarketplace;
  }

  lemma AssessedAt(b: Bundle, facts: Facts, at: Time, i: nat)
    requires i < |b.marketplace.candidates|
    ensures Assessed(b, facts, at)[i]
            == WithPages(WithSocial(Prepared(b, facts, at), i, b.x, SocialsOf(b, facts, at), at), b.x, BaseContext(b.base, at))
    ensures Builds(Prepared(b, facts, at)[i], Assessed(b, facts, at)[i])
  {
    SocialBuilds(Prepared(b, facts, at), i, b.x, SocialsOf(b, facts, at), at);
    hide WithSocial, Prepared, SocialsOf, BaseContext;
  }

  /** Every state is its candidate's, and carries the conflicts of the identity passes. */
  lemma AssessedKeeps(b: Bundle, facts: Facts, at: Time, i: nat)
    requires i < |b.marketplace.candidates|
    ensures var (s, c) := (Assessed(b, facts, at)[i], b.marketplace.candidates[i]);
            && s.candidate == c && s.candidateId == CandidateId(c.slug, c.contracts) && s.identity == IdentityOf(c)
            && IdentityReasons(c) <= s.hard && CurrentConflicts(InitialOf(b), i) <= s.hard
            && MarketplaceReasons(b.marketplace, facts, at) <= s.hard
            && (s.identity.Some? && !Continued(s.identity.value, facts.known) ==> IdentityContinuityConflict in s.hard)
  {
    PreparedAt(b, facts, at, i);
    AssessedAt(b, facts, at, i);
    hide Assessed, Prepared, CurrentConflicts, MarketplaceReasons, CandidateId, Continued, IdentityReasons, IdentityOf;
  }

  // ---------------------------------------------------------------- identities

  lemma AddressesIncrease(c: Candidate, i: nat, j: nat)
    requires CandidateOk(c) && IdentityReasons(c) == {} && i < j < |c.contracts|
    ensures Less(c.contracts[i].address, c.contracts[j].address)
    decreases j - i
  {
    assert c.contracts[j - 1].chainId == BASE_CHAIN_ID && c.contracts[j].chainId == BASE_CHAIN_ID;
    assert c.contracts[j - 1] != c.contracts[j];
    assert Less(c.contracts[j - 1].address, c.contracts[j].address);
    if i < j - 1 {
      AddressesIncrease(c, i, j - 1);
      LessTransitive(c.contracts[i].address, c.contracts[j - 1].address, c.contracts[j].address);
    }
  }

  lemma DerivedIdentityOk(c: Candidate)
    requires CandidateOk(c) && IdentityOf(c).Some?
    ensures IdentityOk(IdentityOf(c).value)
  {
    var a := Addresses(c.contracts);
    forall i, j | 0 <= i < j < |a| ensures Less(a[i], a[j]) { AddressesIncrease(c, i, j); }
  }

  /** Two collections that share an address share it on the base chain. */
  lemma OverlapIsShared(c: Candidate, d: Candidate)
    requires IdentityOf(c).Some? && IdentityOf(d).Some? && ContractsOverlap(IdentityOf(c).value, IdentityOf(d).value)
    ensures SharesBaseAddress(c, d)
  {
    var a :| a in IdentityOf(c).value.contracts && a in IdentityOf(d).value.contracts;
    var i :| 0 <= i < |c.contracts| && Addresses(c.contracts)[i] == a;
    var j :| 0 <= j < |d.contracts| && Addresses(d.contracts)[j] == a;
    assert c.contracts[i].chainId == BASE_CHAIN_ID && d.contracts[j].chainId == BASE_CHAIN_ID;
    assert c.contracts[i] == d.contracts[j];
  }

  lemma SameIdOverlaps(a: Identity, b: Identity)
    requires IdentityOk(a) && IdentityOk(b) && a.collectionId == b.collectionId
    ensures a == b && ContractsOverlap(a, b)
  {
    CollectionIdInjective(a.contracts, b.contracts);
    assert a.contracts[0] in a.contracts;
  }

  // ---------------------------------------------------------------- usable states

  lemma {:induction false} UsableAt(states: seq<State>) returns (at: seq<nat>)
    ensures |at| == |UsableStates(states)|
    ensures forall k :: 0 <= k < |at| ==> at[k] < |states| && states[at[k]] == UsableStates(states)[k] && IdentityUsable(states[at[k]])
    ensures forall k, l :: 0 <= k < l < |at| ==> at[k] < at[l]
  {
    hide IdentityUsable;
    at := [];
    if states == [] {
    } else {
      var front, last := states[..|states| - 1], states[|states| - 1];
      at := UsableAt(front);
      if IdentityUsable(last) { at := at + [|states| - 1]; }
    }
  }

  /** Usable collections: well-formed, pairwise disjoint, and with distinct slugs. */
  ghost predicate Separate(usable: seq<State>)
  {
    && (forall i :: 0 <= i < |usable| ==> usable[i].identity.Some? && IdentityOk(usable[i].identity.value)
                                          && SlugOk(usable[i].candidate.slug) && 1 <= usable[i].candidate.rank <= 10)
    && (forall i, j :: 0 <= i < j < |usable| ==> Apart(usable[i], usable[j]))
  }

  predicate Apart(s: State, t: State)
    requires s.identity.Some? && t.identity.Some?
  {
    && !ContractsOverlap(s.identity.value, t.identity.value)
    && s.identity.value.collectionId != t.identity.value.collectionId
    && s.candidate.slug != t.candidate.slug
  }

  lemma UsableApart(b: Bundle, facts: Facts, at: Time, i: nat, j: nat)
    requires BundleOk(b) && i < j < |b.marketplace.candidates|
    requires IdentityUsable(Assessed(b, facts, at)[i]) && IdentityUsable(Assessed(b, facts, at)[j])
    ensures Apart(Assessed(b, facts, at)[i], Assessed(b, facts, at)[j])
  {
    AssessedKeeps(b, facts, at, i);
    AssessedKeeps(b, facts, at, j);
    hide Assessed, IdentityOf, IdentityReasons, CandidateOk, CurrentConflicts, Apart;
    NoConflicts(InitialOf(b), i, Assessed(b, facts, at)[i]);
    UnconflictedApart(b, i, j, Assessed(b, facts, at)[i], Assessed(b, facts, at)[j]);
  }

  lemma NoConflicts(initial: seq<State>, i: nat, s: State)
    requires i < |initial| && CurrentConflicts(initial, i) <= s.hard && IdentityUsable(s)
    ensures !Overlapped(initial, i) && !Rebound(initial, i)
  {}

  lemma UnconflictedApart(b: Bundle, i: nat, j: nat, s: State, t: State)
    requires BundleOk(b) && i < j < |b.marketplace.candidates|
    requires s.candidate == b.marketplace.candidates[i] && s.identity == IdentityOf(s.candidate) && s.identity.Some?
    requires t.candidate == b.marketplace.candidates[j] && t.identity == IdentityOf(t.candidate) && t.identity.Some?
    requires !Overlapped(InitialOf(b), i) && !Rebound(InitialOf(b), i)
    ensures Apart(s, t)
  {
    hide IdentityOf, IdentityReasons, SharesBaseAddress, CandidateOk, CandidateId, RankEvidenceId;
    var initial := InitialOf(b);
    assert initial[i].candidate == s.candidate && initial[j].candidate == t.candidate;
    assert initial[i].identity == s.identity && initial[j].identity == t.identity;
    assert !SharesBaseAddress(s.candidate, t.candidate);
    if ContractsOverlap(s.identity.value, t.identity.value) { OverlapIsShared(s.candidate, t.candidate); }
    DerivedIdentityOk(s.candidate);
    DerivedIdentityOk(t.candidate);
    if s.identity.value.collectionId == t.identity.value.collectionId { SameIdOverlaps(s.identity.value, t.identity.value); }
  }

  lemma UsableSeparate(b: Bundle, facts: Facts, at: Time, usable: seq<State>)
    requires BundleOk(b) && usable == UsableStates(Assessed(b, facts, at))
    ensures Separate(usable) && |usable| <= 10
    ensures forall i :: 0 <= i < |usable| ==> Continued(usable[i].identity.value, facts.known)
  {
    hide Assessed, UsableStates, IdentityOk, Apart, Continued, IdentityOf, IdentityUsable, SlugOk;
    var states := Assessed(b, facts, at);
    UsableFew(states);
    var idx := UsableAt(states);
    forall i | 0 <= i < |usable| ensures WellUsable(usable[i], facts) { UsableWell(b, facts, at, idx[i]); }
    forall i, j | 0 <= i < j < |usable| ensures Apart(usable[i], usable[j]) {
      assert idx[i] < idx[j];
      UsableApart(b, facts, at, idx[i], idx[j]);
    }
  }

  ghost predicate WellUsable(s: State, facts: Facts)
  {
    && s.identity.Some? && IdentityOk(s.identity.value) && SlugOk(s.candidate.slug) && 1 <= s.candidate.rank <= 10
    && Continued(s.identity.value, facts.known)
  }

  lemma UsableWell(b: Bundle, facts: Facts, at: Time, i: nat)
    requires BundleOk(b) && i < |b.marketplace.candidates| && IdentityUsable(Assessed(b, facts, at)[i])
    ensures WellUsable(Assessed(b, facts, at)[i], facts)
  {
    hide Assessed, Continued, IdentityOf, CandidateOk, CurrentConflicts, IdentityReasons, MarketplaceReasons, WellUsable;
    AssessedKeeps(b, facts, at, i);
    assert CandidateOk(b.marketplace.candidates[i]);
    WellFrom(Assessed(b, facts, at)[i], b.marketplace.candidates[i], facts);
  }

  lemma WellFrom(s: State, c: Candidate, facts: Facts)
    requires CandidateOk(c) && s.candidate == c && s.identity == IdentityOf(c) && IdentityUsable(s)
    requires s.identity.Some? && !Continued(s.identity.value, facts.known) ==> IdentityContinuityConflict in s.hard
    ensures WellUsable(s, facts)
  {
    hide IdentityOf, IdentityOk, Continued;
    assert IdentityContinuityConflict !in s.hard * IDENTITY_HARD_REASONS;
    DerivedIdentityOk(c);
  }

  lemma {:induction false} UsableFew(states: seq<State>)
    ensures |UsableStates(states)| <= |states|
  {
    if states == [] {
    } else {
      UsableFew(states[..|states| - 1]);
    }
  }

  // ---------------------------------------------------------------- registering them

  ghost predicate CollectionKeyed(v: View) { Keyed(v.known, KnownKey) && Keyed(v.associations, AssociationKey) }

  /** Where an entry of the known collections comes from. */
  ghost predicate Sourced(v: View, usable: seq<State>, known: Known, k: string)
  {
    || (k in v.known && known.identity == v.known[k].identity)
    || exists i :: 0 <= i < |usable| && usable[i].identity == Some(known.identity)
  }

  lemma RegisterKeeps(v: View, s: State)
    requires s.identity.Some? && IdentityOk(s.identity.value) && SlugOk(s.candidate.slug)
    requires CollectionsOk(v) && CollectionKeyed(v)
    ensures CollectionsOk(Register(v, s)) && CollectionKeyed(Register(v, s))
  {
    hide IdentityOk, SlugOk;
  }

  lemma {:induction false} RegisterAllKeeps(v: View, usable: seq<State>)
    requires CollectionsOk(v) && CollectionKeyed(v)
    requires forall i :: 0 <= i < |usable| ==> usable[i].identity.Some? && IdentityOk(usable[i].identity.value) && SlugOk(usable[i].candidate.slug)
    ensures var w := RegisterAll(v, usable);
            && CollectionsOk(w) && CollectionKeyed(w)
            && w.bindings == v.bindings && w.clusters == v.clusters && w.conflicts == v.conflicts
            && v.known.Keys <= w.known.Keys
            && (forall i :: 0 <= i < |usable| ==> usable[i].identity.value.collectionId in w.known)
            && (forall k :: k in w.known ==> Sourced(v, usable, w.known[k], k))
  {
    hide IdentityOk, SlugOk, CollectionsOk, CollectionKeyed;
    if usable == [] {
    } else {
      var front, last := usable[..|usable| - 1], usable[|usable| - 1];
      RegisterAllKeeps(v, front);
      var u := RegisterAll(v, front);
      RegisterKeeps(u, last);
      var w := Register(u, last);
      forall k | k in w.known ensures Sourced(v, usable, w.known[k], k) {
        if k == last.identity.value.collectionId {
          assert usable[|usable| - 1].identity == Some(w.known[k].identity);
        } else {
          SourcedMore(v, front, last, u.known[k], k);
          assert front + [last] == usable;
        }
      }
    }
  }

  lemma SourcedMore(v: View, front: seq<State>, last: State, known: Known, k: string)
    requires Sourced(v, front, known, k)
    ensures Sourced(v, front + [last], known, k)
  {
    if i :| 0 <= i < |front| && front[i].identity == Some(known.identity) {
      assert (front + [last])[i].identity == Some(known.identity);
    }
  }

  ghost predicate KnownDisjoint(known: map<string, Known>)
  {
    forall k, l :: k in known && l in known && k != l ==> !ContractsOverlap(known[k].identity, known[l].identity)
  }

  /** No earlier collection under another identifier shares an address with this one. */
  ghost predicate ContinuesAll(known: map<string, Known>, s: State)
    requires s.identity.Some?
  {
    forall k :: k in known && k != s.identity.value.collectionId ==> !ContractsOverlap(known[k].identity, s.identity.value)
  }

  lemma OverlapSymmetric(a: Identity, b: Identity)
    ensures ContractsOverlap(a, b) <==> ContractsOverlap(b, a)
  {}

  lemma SourcedApart(v: View, usable: seq<State>, a: Known, k: string, b: Known, l: string)
    requires KnownDisjoint(v.known) && Separate(usable) && (forall i :: 0 <= i < |usable| ==> ContinuesAll(v.known, usable[i]))
    requires Sourced(v, usable, a, k) && Sourced(v, usable, b, l) && KnownKey(a) == k && KnownKey(b) == l && k != l
    ensures !ContractsOverlap(a.identity, b.identity)
  {
    hide ContractsOverlap, IdentityOk, SlugOk;
    OverlapSymmetric(a.identity, b.identity);
    if k in v.known && a.identity == v.known[k].identity {
      if !(l in v.known && b.identity == v.known[l].identity) {
        var j :| 0 <= j < |usable| && usable[j].identity == Some(b.identity);
        assert ContinuesAll(v.known, usable[j]);
      }
    } else {
      var i :| 0 <= i < |usable| && usable[i].identity == Some(a.identity);
      if l in v.known && b.identity == v.known[l].identity {
        assert ContinuesAll(v.known, usable[i]);
      } else {
        var j :| 0 <= j < |usable| && usable[j].identity == Some(b.identity);
        if i < j { assert Apart(usable[i], usable[j]); } else { assert Apart(usable[j], usable[i]); }
      }
    }
  }

  /** Registering separate collections that continue the known ones keeps all of them disjoint. */
  lemma RegisterDisjoint(v: View, usable: seq<State>)
    requires CollectionsOk(v) && CollectionKeyed(v) && KnownDisjoint(v.known) && Separate(usable)
    requires forall i :: 0 <= i < |usable| ==> ContinuesAll(v.known, usable[i])
    ensures KnownDisjoint(RegisterAll(v, usable).known)
  {
    RegisterAllKeeps(v, usable);
    var w := RegisterAll(v, usable);
    hide IdentityOk, SlugOk, ContractsOverlap, CollectionsOk, RegisterAll, Sourced, Separate, ContinuesAll;
    forall k, l | k in w.known && l in w.known && k != l ensures !ContractsOverlap(w.known[k].identity, w.known[l].identity) {
      assert KnownKey(w.known[k]) == k && KnownKey(w.known[l]) == l;
      SourcedApart(v, usable, w.known[k], k, w.known[l], l);
    }
  }

  // ---------------------------------------------------------------- the next facts

  lemma AssociationOrdersAgree(a: Association, b: Association)
    requires SlugOk(a.slug) && SlugOk(b.slug) && AssociationLess(a, b)
    ensures Less(AssociationKey(a), AssociationKey(b))
  {
    if Less(a.slug, b.slug) {
      LessSeparated(a.slug, b.slug, a.collectionId, b.collectionId, '\0');
    } else {
      LessCommonPrefix(a.slug + ['\0'], a.collectionId, b.collectionId);
    }
  }

  lemma AssociationsComparable(a: Association, b: Association)
    ensures AssociationLess(a, b) || AssociationLess(b, a) || a == b
    ensures !AssociationLess(a, a)
  {
    LessTotal(a.slug, b.slug);
    LessTotal(a.collectionId, b.collectionId);
    LessIrreflexive(a.slug);
    LessIrreflexive(a.collectionId);
  }

  lemma AssociationLessTransitive()
    ensures Transitive(AssociationLess)
  {
    forall a, b, c | AssociationLess(a, b) && AssociationLess(b, c) ensures AssociationLess(a, c) {
      if Less(a.slug, b.slug) && Less(b.slug, c.slug) { LessTransitive(a.slug, b.slug, c.slug); }
      if Less(a.collectionId, b.collectionId) && Less(b.collectionId, c.collectionId) { LessTransitive(a.collectionId, b.collectionId, c.collectionId); }
    }
  }

  /** Sorting associations by slug and then collection puts their `slug\0id` keys in order. */
  lemma AssociationsSorted(m: map<string, Association>)
    requires Keyed(m, AssociationKey) && forall k :: k in m ==> SlugOk(m[k].slug)
    ensures Sort(Table(m), AssociationLess) == Table(m)
  {
    var t := Table(m);
    TableSorted(m, AssociationKey);
    hide Table, SlugOk, AssociationLess;
    LessOrder();
    forall i, j | 0 <= i < j < |t| ensures AssociationLess(t[i], t[j]) {
      assert t[i] in t && t[j] in t;
      assert Less(AssociationKey(t[i]), AssociationKey(t[j]));
      AssociationsComparable(t[i], t[j]);
      if AssociationLess(t[j], t[i]) {
        AssociationOrdersAgree(t[j], t[i]);
        LessTransitive(AssociationKey(t[i]), AssociationKey(t[j]), AssociationKey(t[i]));
      }
    }
    AssociationLessTransitive();
    SortIncreasing(t, AssociationLess);
    SortMembers(t, AssociationLess);
    forall a ensures !AssociationLess(a, a) { AssociationsComparable(a, a); }
    IncreasingUnique(Sort(t, AssociationLess), t, AssociationLess);
  }

  ghost predicate AllKeyed(v: View) { CollectionKeyed(v) && SocialKeyed(v) }

  lemma ViewKeyed(f: Facts)
    requires TablesSorted(f)
    ensures AllKeyed(ViewOf(f))
  {
    IndexMembers(f.known, KnownKey);
    IndexMembers(f.associations, AssociationKey);
    IndexMembers(f.bindings, BindingKey);
    IndexMembers(f.clusters, ClusterKey);
    IndexMembers(f.conflicts, ConflictKey);
  }

  /** Facts written from a keyed view are sorted tables of exactly that view. */
  lemma FactsOfView(head: Option<string>, window: Option<RankWindow>, latestX: Option<Time>, v: View)
    requires AllKeyed(v) && CollectionsOk(v)
    ensures var f := FactsFrom(head, window, latestX, v);
            TablesSorted(f) && ViewOf(f) == v && f.head == head && f.window == window && f.latestX == latestX
  {
    AssociationsSorted(v.associations);
    TableSorted(v.known, KnownKey);
    TableSorted(v.associations, AssociationKey);
    TableSorted(v.bindings, BindingKey);
    TableSorted(v.clusters, ClusterKey);
    TableSorted(v.conflicts, ConflictKey);
    IndexOfTable(v.known, KnownKey);
    IndexOfTable(v.associations, AssociationKey);
    IndexOfTable(v.bindings, BindingKey);
    IndexOfTable(v.clusters, ClusterKey);
    IndexOfTable(v.conflicts, ConflictKey);
  }

  /** The social posts of a valid bundle are distinct and read against the prior view. */
  lemma SocialsRead(b: Bundle, facts: Facts, at: Time, socials: seq<Social>)
    requires BundleOk(b) && b.x.RecordedPosts? && socials == SocialsOf(b, facts, at)
    ensures |socials| == |b.x.posts|
    ensures forall i :: 0 <= i < |socials| ==> socials[i].post == b.x.posts[i] && ReadAgainst(socials[i], ViewOf(facts), b.x.acquiredAt)
    ensures forall i, j :: 0 <= i < j < |socials| ==> socials[i].post.postIdHash != socials[j].post.postIdHash
  {
    hide Prepared, ViewOf, BundleId, HasUnknown, MatchedIds, Conflicting, FirstSeenAt, MarketplaceOk, BaseOk, PostOk, SocialEvidenceId;
    forall i, j | 0 <= i < j < |b.x.posts| ensures b.x.posts[i].postIdHash != b.x.posts[j].postIdHash {
      PostsIncrease(b.x.posts, i, j);
      LessIrreflexive(b.x.posts[i].postIdHash);
    }
  }

  lemma PostsIncrease(posts: seq<Post>, i: nat, j: nat)
    requires i < j < |posts| && forall k :: 0 < k < |posts| ==> Less(posts[k - 1].postIdHash, posts[k].postIdHash)
    ensures Less(posts[i].postIdHash, posts[j].postIdHash)
    decreases j
  {
    if i < j - 1 {
      PostsIncrease(posts, i, j - 1);
      LessTransitive(posts[i].postIdHash, posts[j - 1].postIdHash, posts[j].postIdHash);
    }
  }

  /** Registering collections leaves the social maps alone, so admission starts from the prior ones. */
  lemma StartAdmitting(v: View, latestX: Option<Time>, acquiredAt: Time)
    requires SocialFactsOk(v, latestX) && SocialKeyed(v) && (latestX.Some? ==> latestX.value <= acquiredAt)
    ensures Admitting(v, v, acquiredAt)
  {
    hide ReferencesOk, ConflictsOk;
  }

  lemma AdmittedSocialOk(v: View, w: View, acquiredAt: Time, latestX: Option<Time>)
    requires Admitting(v, w, acquiredAt) && SocialFactsOk(v, latestX) && SourceTime(acquiredAt, SOCIAL_VALIDITY)
    ensures SocialFactsOk(w, Some(acquiredAt))
  {
    hide ReferencesOk, ConflictsOk, SocialKeyed;
    forall c | Retained(w, c) ensures SourceTime(FirstSeen(w, c), SOCIAL_VALIDITY) && FirstSeen(w, c) <= acquiredAt {
      if Retained(v, c) { ExtendsKeeps(v, w, c); }
    }
  }

  /** The social maps, whatever the collections are. */
  predicate SameSocial(v: View, w: View) { v.bindings == w.bindings && v.clusters == w.clusters && v.conflicts == w.conflicts }

  lemma SameSocialPath(v: View, w: View, path: seq<string>)
    requires SameSocial(v, w) && WitnessPath(v, path)
    ensures WitnessPath(w, path)
  {
    forall i | 0 <= i < |path| - 1 ensures WitnessStep(w, path[i], path[i + 1]) { assert WitnessStep(v, path[i], path[i + 1]); }
  }

  lemma SameSocialFacts(v: View, w: View, latestX: Option<Time>)
    requires SameSocial(v, w) && SocialFactsOk(v, latestX) && SocialKeyed(v)
    ensures SocialFactsOk(w, latestX) && SocialKeyed(w)
  {
    forall c | c in w.conflicts ensures ReachesOrdinary(w, c) {
      var path := PathFrom(v, c);
      SameSocialPath(v, w, path);
    }
    hide ReachesOrdinary;
    assert ReferencesOk(w) by { assert forall c :: Retained(v, c) <==> Retained(w, c); }
    assert forall c :: Retained(w, c) ==> FirstSeen(w, c) == FirstSeen(v, c);
  }

  /** The collections registered by this bundle, before any post is admitted. */
  ghost function Registered(b: Bundle, facts: Facts, at: Time): View
  {
    if MarketplaceUsable(b.marketplace, facts, at) then RegisterAll(ViewOf(facts), UsableStates(Assessed(b, facts, at))) else ViewOf(facts)
  }

  lemma RegisteredOk(b: Bundle, facts: Facts, at: Time, v: View)
    requires BundleOk(b) && FactsOk(facts) && v == Registered(b, facts, at)
    ensures CollectionsOk(v) && CollectionKeyed(v) && SocialFactsOk(v, facts.latestX) && SocialKeyed(v)
    ensures WindowOk(NextWindow(b, facts, at), v)
  {
    ViewKeyed(facts);
    hide Assessed, UsableStates, CollectionsOk, SocialFactsOk, CollectionKeyed, SocialKeyed, ViewOf, IdentityOk, SlugOk, MarketplaceUsable;
    if MarketplaceUsable(b.marketplace, facts, at) {
      var usable := UsableStates(Assessed(b, facts, at));
      UsableSeparate(b, facts, at, usable);
      RegisterAllKeeps(ViewOf(facts), usable);
      SameSocialFacts(ViewOf(facts), v, facts.latestX);
      WindowFromUsable(b.marketplace, usable, RankEvidenceId(b.marketplace, BundleId(b)), v);
    }
  }

  lemma WindowFromUsable(m: Marketplace, usable: seq<State>, rankEvidence: string, v: View)
    requires MarketplaceOk(m) && Separate(usable) && |usable| <= 10
    requires forall i :: 0 <= i < |usable| ==> usable[i].identity.value.collectionId in v.known
    ensures WindowOk(Some(RankWindow(rankEvidence, m.acquiredAt, m.validUntil, RowsOf(usable, rankEvidence))), v)
  {
    hide IdentityOk, SlugOk, ContractsOverlap;
    var rows := RowsOf(usable, rankEvidence);
    forall i, j | 0 <= i < j < |rows| ensures rows[i].identity.collectionId != rows[j].identity.collectionId {
      assert Apart(usable[i], usable[j]);
    }
  }

  lemma {:induction false} AdmitAllKnown(v: View, socials: seq<Social>)
    ensures AdmitAll(v, socials).known == v.known && AdmitAll(v, socials).associations == v.associations
  {
    if socials == [] {
    } else {
      AdmitAllKnown(v, socials[..|socials| - 1]);
    }
  }

  /** Admitting posts retains nothing but digests. */
  lemma {:induction false} AdmitAllHashed(v: View, socials: seq<Social>)
    requires HashesOk(v) && forall i :: 0 <= i < |socials| ==> HashOk(socials[i].post.postIdHash) && HashOk(socials[i].post.cluster)
    ensures HashesOk(AdmitAll(v, socials))
  {
    hide HashOk;
    if socials == [] {
    } else {
      AdmitAllHashed(v, socials[..|socials| - 1]);
    }
  }

  lemma SocialsHashed(b: Bundle, facts: Facts, at: Time, socials: seq<Social>)
    requires BundleOk(b) && b.x.RecordedPosts? && socials == SocialsOf(b, facts, at)
    ensures forall i :: 0 <= i < |socials| ==> HashOk(socials[i].post.postIdHash) && HashOk(socials[i].post.cluster)
  {
    SocialsRead(b, facts, at, socials);
    hide SocialsOf, HashOk, MarketplaceOk, BaseOk, ReadAgainst;
    forall i | 0 <= i < |socials| ensures HashOk(socials[i].post.postIdHash) && HashOk(socials[i].post.cluster) {
      assert PostOk(b.x.posts[i]);
    }
  }

  lemma SameSocialHashed(v: View, w: View)
    requires SameSocial(v, w) && HashesOk(v)
    ensures HashesOk(w)
  {
    hide HashOk;
  }

  lemma NextViewHashed(b: Bundle, facts: Facts, at: Time)
    requires BundleOk(b) && FactsOk(facts)
    ensures HashesOk(NextView(b, facts, at))
  {
    FactsHashed(facts);
    hide FactsOk, BundleOk, HashesOk, Registered, NextView, SocialsOf, SameSocial, ViewOf;
    NextViewIs(b, facts, at);
    RegisteredSocial(b, facts, at);
    SameSocialHashed(ViewOf(facts), Registered(b, facts, at));
    if Admitted(b.x, facts, at) {
      SocialsHashed(b, facts, at, SocialsOf(b, facts, at));
      AdmitAllHashed(Registered(b, facts, at), SocialsOf(b, facts, at));
    }
  }

  lemma FactsHashed(facts: Facts)
    requires FactsOk(facts)
    ensures HashesOk(ViewOf(facts))
  {
    hide TablesSorted, CollectionsOk, SocialFactsOk, WindowOk, ViewOf, HashesOk;
  }

  lemma NextViewIs(b: Bundle, facts: Facts, at: Time)
    ensures NextView(b, facts, at)
            == if Admitted(b.x, facts, at) then AdmitAll(Registered(b, facts, at), SocialsOf(b, facts, at)) else Registered(b, facts, at)
  {
    hide Assessed, SocialsOf, ViewOf, AdmitAll, RegisterAll, UsableStates, MarketplaceUsable;
  }

  lemma ReadSame(s: Social, v: View, w: View, acquiredAt: Time)
    requires SameSocial(v, w) && ReadAgainst(s, v, acquiredAt)
    ensures ReadAgainst(s, w, acquiredAt)
  {}

  lemma RegisteredSocial(b: Bundle, facts: Facts, at: Time)
    requires BundleOk(b) && FactsOk(facts)
    ensures SameSocial(ViewOf(facts), Registered(b, facts, at))
  {
    ViewKeyed(facts);
    hide Assessed, UsableStates, CollectionsOk, CollectionKeyed, ViewOf, IdentityOk, SlugOk, MarketplaceUsable;
    if MarketplaceUsable(b.marketplace, facts, at) {
      var usable := UsableStates(Assessed(b, facts, at));
      UsableSeparate(b, facts, at, usable);
      RegisterAllKeeps(ViewOf(facts), usable);
    }
  }

  lemma AdmitStep(b: Bundle, facts: Facts, at: Time, v: View, w: View)
    requires BundleOk(b) && FactsOk(facts) && v == Registered(b, facts, at) && Admitted(b.x, facts, at)
    requires w == AdmitAll(v, SocialsOf(b, facts, at))
    ensures Admitting(v, w, b.x.acquiredAt)
  {
    var socials := SocialsOf(b, facts, at);
    SocialsRead(b, facts, at, socials);
    RegisteredOk(b, facts, at, v);
    RegisteredSocial(b, facts, at);
    hide Registered, SocialsOf, AdmitAll, Admitting, ReadAgainst, FactsOk, BundleOk, WindowOk, SocialFactsOk, SocialKeyed;
    StartAdmitting(v, facts.latestX, b.x.acquiredAt);
    forall i | 0 <= i < |socials| ensures ReadAgainst(socials[i], v, b.x.acquiredAt) {
      ReadSame(socials[i], ViewOf(facts), v, b.x.acquiredAt);
    }
    AdmitAllKeeps(v, socials, b.x.acquiredAt);
  }

  lemma AdmittingKeyed(v: View, w: View, acquiredAt: Time)
    requires Admitting(v, w, acquiredAt)
    ensures SocialKeyed(w)
  {}

  /** The next view satisfies every refinement. */
  lemma NextViewOk(b: Bundle, facts: Facts, at: Time, w: View)
    requires BundleOk(b) && FactsOk(facts) && w == NextView(b, facts, at)
    ensures CollectionsOk(w) && AllKeyed(w) && SocialFactsOk(w, NextLatestX(b, facts, at)) && WindowOk(NextWindow(b, facts, at), w)
  {
    var v := Registered(b, facts, at);
    RegisteredOk(b, facts, at, v);
    NextViewIs(b, facts, at);
    if Admitted(b.x, facts, at) {
      AdmitStep(b, facts, at, v, w);
      assert SourceTime(b.x.acquiredAt, SOCIAL_VALIDITY);
      hide FactsOk, BundleOk, Registered, NextView, SocialsOf, Admitting, SocialFactsOk, SocialKeyed, NextWindow;
      AdmitAllKnown(v, SocialsOf(b, facts, at));
      AdmittingKeyed(v, w, b.x.acquiredAt);
      AdmittedSocialOk(v, w, b.x.acquiredAt, facts.latestX);
      SameKnownOk(v, w, NextWindow(b, facts, at));
    }
  }

  lemma SameKnownOk(v: View, w: View, window: Option<RankWindow>)
    requires w.known == v.known && w.associations == v.associations && CollectionsOk(v) && CollectionKeyed(v) && WindowOk(window, v)
    ensures CollectionsOk(w) && CollectionKeyed(w) && WindowOk(window, w)
  {
    hide IdentityOk, SlugOk;
  }

  /** Fact closure: from facts that satisfy the schema and any bundle its own schema admits, the next
      facts satisfy every refinement of the schema; only the bound on retained facts can refuse them. */
  lemma NextFactsOk(b: Bundle, facts: Facts, at: Time)
    requires BundleOk(b) && FactsOk(facts)
    ensures FactsOk(NextFacts(b, facts, at)) && ViewOf(NextFacts(b, facts, at)) == NextView(b, facts, at)
  {
    hide FactsOk, BundleOk, NextView, NextWindow, NextLatestX, CollectionsOk, AllKeyed, SocialFactsOk, HashesOk, WindowOk, ViewOf, TablesSorted;
    var w := NextView(b, facts, at);
    NextViewOk(b, facts, at, w);
    NextViewHashed(b, facts, at);
    FactsOfView(Some(RefreshId(BundleId(b))), NextWindow(b, facts, at), NextLatestX(b, facts, at), w);
    FactsMadeOk(NextFacts(b, facts, at));
  }

  lemma FactsMadeOk(f: Facts)
    requires TablesSorted(f) && CollectionsOk(ViewOf(f)) && SocialFactsOk(ViewOf(f), f.latestX) && HashesOk(ViewOf(f)) && WindowOk(f.window, ViewOf(f))
    ensures FactsOk(f)
  {
    hide TablesSorted, CollectionsOk, SocialFactsOk, HashesOk, WindowOk, ViewOf;
  }

  // ---------------------------------------------------------------- what the schema does not state

  ghost predicate DistinctSlugs(window: Option<RankWindow>)
  {
    window.Some? ==> forall i, j :: 0 <= i < j < |window.value.rows| ==> window.value.rows[i].slug != window.value.rows[j].slug
  }

  /** Known collections are pairwise disjoint and the latest window has distinct slugs. */
  ghost predicate Exclusive(facts: Facts)
  {
    KnownDisjoint(ViewOf(facts).known) && DistinctSlugs(facts.window)
  }

  lemma ContinuedAll(facts: Facts, s: State)
    requires TablesSorted(facts) && s.identity.Some? && Continued(s.identity.value, facts.known)
    ensures ContinuesAll(ViewOf(facts).known, s)
  {
    hide ContractsOverlap;
    var known := Index(facts.known, KnownKey);
    IndexMembers(facts.known, KnownKey);
    forall k | k in known && k != s.identity.value.collectionId ensures !ContractsOverlap(known[k].identity, s.identity.value) {
      assert known[k] in facts.known && KnownKey(known[k]) == k;
    }
  }

  lemma RegisteredDisjoint(b: Bundle, facts: Facts, at: Time)
    requires BundleOk(b) && FactsOk(facts) && KnownDisjoint(ViewOf(facts).known)
    ensures KnownDisjoint(Registered(b, facts, at).known)
  {
    assert TablesSorted(facts) && CollectionsOk(ViewOf(facts));
    hide Assessed, UsableStates, ViewOf, MarketplaceUsable, CollectionsOk, Separate, Continued, ContinuesAll, KnownDisjoint, FactsOk, BundleOk,
      TablesSorted;
    ViewKeyed(facts);
    var usable := UsableStates(Assessed(b, facts, at));
    UsableSeparate(b, facts, at, usable);
    SeparateHasIdentities(usable);
    forall i | 0 <= i < |usable| ensures ContinuesAll(ViewOf(facts).known, usable[i]) { ContinuedAll(facts, usable[i]); }
    RegisterDisjoint(ViewOf(facts), usable);
  }

  lemma WindowSlugs(b: Bundle, facts: Facts, at: Time)
    requires BundleOk(b) && DistinctSlugs(facts.window)
    ensures DistinctSlugs(NextWindow(b, facts, at))
  {
    hide Assessed, UsableStates, MarketplaceUsable, Separate, BundleOk;
    if MarketplaceUsable(b.marketplace, facts, at) {
      var usable := UsableStates(Assessed(b, facts, at));
      UsableSeparate(b, facts, at, usable);
      SlugsApart(usable, RankEvidenceId(b.marketplace, BundleId(b)));
    }
  }

  /** A usable window never breaks the disjointness of known collections, and its slugs are distinct. */
  lemma NextFactsExclusive(b: Bundle, facts: Facts, at: Time)
    requires BundleOk(b) && FactsOk(facts) && Exclusive(facts)
    ensures Exclusive(NextFacts(b, facts, at))
  {
    hide FactsOk, BundleOk, Registered, NextFacts, NextWindow, NextView, ViewOf, KnownDisjoint, DistinctSlugs, SocialsOf, AdmitAll;
    NextFactsOk(b, facts, at);
    NextViewIs(b, facts, at);
    AdmitAllKnown(Registered(b, facts, at), SocialsOf(b, facts, at));
    NextFactsWindow(b, facts, at);
    RegisteredDisjoint(b, facts, at);
    WindowSlugs(b, facts, at);
  }

  lemma NextFactsWindow(b: Bundle, facts: Facts, at: Time)
    ensures NextFacts(b, facts, at).window == NextWindow(b, facts, at)
  {
    hide NextWindow, NextView, NextLatestX;
  }

  lemma SeparateHasIdentities(usable: seq<State>)
    requires Separate(usable)
    ensures forall i :: 0 <= i < |usable| ==> usable[i].identity.Some?
  {}

  lemma SlugsApart(usable: seq<State>, rankEvidence: string)
    requires Separate(usable)
    ensures forall i, j :: 0 <= i < j < |usable| ==> RowsOf(usable, rankEvidence)[i].slug != RowsOf(usable, rankEvidence)[j].slug
  {
    forall i, j | 0 <= i < j < |usable| ensures usable[i].candidate.slug != usable[j].candidate.slug { assert Apart(usable[i], usable[j]); }
  }
}
