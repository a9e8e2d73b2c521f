/** One assessment of a sanitized bundle against retained facts (packages/attention/src/assess.ts):
    identity, time and social passes, rows, diagnostics and the next facts. */
module Assessor {
  import opened Order
  import opened Wrappers
  import opened Tables
  import opened Attention
  import opened AttentionFacts

  datatype Social = Social(
    post: Post, matched: seq<string>, attributable: Option<string>, unknown: bool, conflict: bool,
    regression: bool, future: bool, firstSeenAt: Time, validUntil: Time, evidenceId: string)

  datatype State = State(
    candidate: Candidate, candidateId: string, identity: Option<Identity>, hard: set<HardReason>, watch: set<WatchReason>,
    notes: set<Note>, matched: seq<Social>, observed: set<string>, unexpired: map<string, Time>, evidence: set<string>)

  // ---------------------------------------------------------------- identity

  /** The reasons `deriveCandidateIdentity` finds. */
  function IdentityReasons(c: Candidate): set<HardReason>
  {
    (if exists i :: 0 <= i < |c.contracts| && c.contracts[i].chainId != BASE_CHAIN_ID then {UnsupportedChain} else {}) +
    (if exists i :: 0 <= i < |c.contracts| && c.contracts[i].address == ZERO_ADDRESS then {ZeroContract} else {}) +
    (if exists i, j :: 0 <= i < j < |c.contracts| && c.contracts[i] == c.contracts[j] then {DuplicateContract} else {})
  }

  function Addresses(contracts: seq<Contract>): seq<string>
  {
    seq(|contracts|, i requires 0 <= i < |contracts| => contracts[i].address)
  }

  function IdentityOf(c: Candidate): Option<Identity>
  {
    if IdentityReasons(c) == {} then Some(Identity(CollectionId(Addresses(c.contracts)), Addresses(c.contracts))) else None
  }

  function Initial(c: Candidate, rankEvidence: string): State
  {
    State(c, CandidateId(c.slug, c.contracts), IdentityOf(c), IdentityReasons(c), {}, {NoSafeVerdict}, [], {}, map[], {rankEvidence})
  }

  function InitialStates(candidates: seq<Candidate>, rankEvidence: string): seq<State>
  {
    seq(|candidates|, i requires 0 <= i < |candidates| => Initial(candidates[i], rankEvidence))
  }

  // ---------------------------------------------------------------- conflicts inside the window

  predicate SharesBaseAddress(a: Candidate, b: Candidate)
  {
    exists i, j :: 0 <= i < |a.contracts| && 0 <= j < |b.contracts| && a.contracts[i].chainId == BASE_CHAIN_ID && a.contracts[i] == b.contracts[j]
  }

  function IdentityKey(s: State): string
  {
    if s.identity.None? then s.candidateId else s.identity.value.collectionId
  }

  predicate Overlapped(states: seq<State>, i: nat)
    requires i < |states|
  {
    exists j :: 0 <= j < |states| && j != i && SharesBaseAddress(states[i].candidate, states[j].candidate)
  }

  predicate Rebound(states: seq<State>, i: nat)
    requires i < |states|
  {
    exists j :: 0 <= j < |states| && states[j].candidate.slug == states[i].candidate.slug && IdentityKey(states[j]) != IdentityKey(states[i])
  }

  function CurrentConflicts(states: seq<State>, i: nat): set<HardReason>
    requires i < |states|
  {
    (if Overlapped(states, i) then {OverlappingContractGroups} else {}) + (if Rebound(states, i) then {SlugRebound} else {})
  }

  function WithCurrentConflicts(states: seq<State>): (r: seq<State>)
    ensures |r| == |states|
  {
    seq(|states|, i requires 0 <= i < |states| => states[i].(hard := states[i].hard + CurrentConflicts(states, i)))
  }

  // ---------------------------------------------------------------- conflicts with earlier facts

  predicate ContractsOverlap(a: Identity, b: Identity) { exists address :: address in a.contracts && address in b.contracts }

  predicate Continued(id: Identity, known: seq<Known>)
  {
    forall i :: 0 <= i < |known| ==> known[i].identity.collectionId == id.collectionId || !ContractsOverlap(known[i].identity, id)
  }

  predicate SlugMoved(id: Identity, slug: string, associations: seq<Association>)
  {
    && (exists i :: 0 <= i < |associations| && associations[i].slug == slug)
    && (forall i :: 0 <= i < |associations| && associations[i].slug == slug ==> associations[i].collectionId != id.collectionId)
  }

  predicate Renamed(id: Identity, slug: string, known: seq<Known>)
  {
    var byId := Index(known, KnownKey);
    id.collectionId in byId && byId[id.collectionId].latestSlug != slug
  }

  function WithHistory(s: State, facts: Facts): State
  {
    if s.identity.None? then s
    else
      var id, slug := s.identity.value, s.candidate.slug;
      s.(notes := s.notes + (if Renamed(id, slug, facts.known) then {SlugChanged} else {}),
         hard := s.hard + (if Continued(id, facts.known) then {} else {IdentityContinuityConflict}),
         watch := s.watch + (if SlugMoved(id, slug, facts.associations) then {IdentityChanged} else {}))
  }

  function WithHistories(states: seq<State>, facts: Facts): (r: seq<State>)
    ensures |r| == |states|
  {
    seq(|states|, i requires 0 <= i < |states| => WithHistory(states[i], facts))
  }

  // ---------------------------------------------------------------- marketplace times

  function MarketplaceReasons(m: Marketplace, facts: Facts, at: Time): set<HardReason>
  {
    (if facts.window.Some? && m.acquiredAt <= facts.window.value.acquiredAt then {MarketplaceTimeInvalid} else {}) +
    (if m.acquiredAt > at then {MarketplaceFuture} else {}) +
    (if at >= m.validUntil then {MarketplaceStale} else {})
  }

  predicate MarketplaceUsable(m: Marketplace, facts: Facts, at: Time) { MarketplaceReasons(m, facts, at) == {} }

  function WithMarketplace(s: State, m: Marketplace, facts: Facts, at: Time): State
  {
    s.(hard := s.hard + MarketplaceReasons(m, facts, at),
       notes := s.notes + if m.hasNextPage then {PartialMarketplaceWindow} else {})
  }

  // ---------------------------------------------------------------- social posts

  predicate Owns(s: State, address: string) { s.identity.Some? && address in s.identity.value.contracts }

  predicate Mentions(p: Post, s: State) { s.identity.Some? && exists address :: address in p.mentioned && address in s.identity.value.contracts }

  ghost function MatchedIds(p: Post, states: seq<State>): set<string>
  {
    set i | 0 <= i < |states| && Mentions(p, states[i]) :: states[i].identity.value.collectionId
  }

  predicate HasUnknown(p: Post, states: seq<State>)
  {
    exists a :: 0 <= a < |p.mentioned| && forall i :: 0 <= i < |states| ==> !Owns(states[i], p.mentioned[a])
  }

  /** `currentById`: a later candidate with the same collection replaces an earlier one. */
  predicate IsCurrent(states: seq<State>, i: nat)
    requires i < |states|
  {
    && states[i].identity.Some?
    && forall j :: i < j < |states| ==> states[j].identity.None? || states[j].identity.value.collectionId != states[i].identity.value.collectionId
  }

  predicate Conflicting(p: Post, v: View) { p.postIdHash in v.bindings && v.bindings[p.postIdHash].cluster != p.cluster }

  function FirstSeenAt(p: Post, v: View, acquiredAt: Time): Time
  {
    if Retained(v, p.cluster) then FirstSeen(v, p.cluster) else acquiredAt
  }

  predicate Regressing(x: XSource, facts: Facts)
    requires x.RecordedPosts?
  {
    facts.latestX.Some? && x.acquiredAt < facts.latestX.value
  }

  function PostReasons(conflict: bool, regression: bool, future: bool): set<HardReason>
  {
    (if conflict then {PostContentConflict} else {}) + (if regression then {SocialTimeRegression} else {}) +
    (if future then {SocialFuture} else {})
  }

  /** What is read off one post, given what it matches and how it stands to the retained facts. */
  function SocialFrom(p: Post, acquiredAt: Time, matched: seq<string>, unknown: bool, conflict: bool, regression: bool, future: bool,
                      firstSeenAt: Time, bundleId: string): Social
  {
    var validUntil := firstSeenAt + SOCIAL_VALIDITY;
    var integrity := Ordered(PostReasons(conflict, regression, future) + (set r | r in p.hard), HARD_REASONS);
    Social(p, matched, if |matched| == 1 && !unknown then Some(matched[0]) else None, unknown, conflict, regression, future,
           firstSeenAt, validUntil, SocialEvidenceId(p, acquiredAt, validUntil, matched, integrity, bundleId))
  }

  ghost function SocialOf(p: Post, x: XSource, states: seq<State>, facts: Facts, at: Time, bundleId: string): Social
    requires x.RecordedPosts?
  {
    var v := ViewOf(facts);
    SocialFrom(p, x.acquiredAt, SortedStrings(MatchedIds(p, states)), HasUnknown(p, states), Conflicting(p, v), Regressing(x, facts),
               x.acquiredAt > at, FirstSeenAt(p, v, x.acquiredAt), bundleId)
  }

  ghost function Socials(x: XSource, states: seq<State>, facts: Facts, at: Time, bundleId: string): (r: seq<Social>)
    ensures x.RecordedPosts? ==> |r| == |x.posts|
  {
    if x.XAbsent? then []
    else seq(|x.posts|, i requires 0 <= i < |x.posts| => SocialOf(x.posts[i], x, states, facts, at, bundleId))
  }

  predicate UsablePost(s: Social, at: Time)
  {
    !s.conflict && !s.regression && !s.future && s.post.hard == [] && s.validUntil > at
  }

  function SocialReasons(s: Social): set<HardReason>
  {
    PostReasons(s.conflict, s.regression, s.future) +
    (if |s.matched| > 1 then {AmbiguousSocialIdentity} else if |s.matched| == 1 && s.unknown then {SocialAddressConflict} else {}) +
    (set r | r in s.post.hard)
  }

  /** What one matching post adds to the state of a collection. */
  function Absorb(state: State, s: Social, at: Time): State
    requires state.identity.Some?
  {
    var id := state.identity.value.collectionId;
    if id !in s.matched then state
    else
      var bound := s.attributable == Some(id);
      state.(hard := state.hard + SocialReasons(s), watch := state.watch + (set r | r in s.post.watch),
             matched := state.matched + [s], evidence := state.evidence + {s.evidenceId},
             observed := if bound then state.observed + {s.post.cluster} else state.observed,
             unexpired := if bound && UsablePost(s, at) then state.unexpired[s.post.cluster := s.validUntil] else state.unexpired)
  }

  function AbsorbAll(state: State, socials: seq<Social>, at: Time): (r: State)
    requires state.identity.Some?
    ensures r.identity == state.identity && r.candidate == state.candidate && r.candidateId == state.candidateId && r.notes == state.notes
  {
    if socials == [] then state else Absorb(AbsorbAll(state, socials[..|socials| - 1], at), socials[|socials| - 1], at)
  }

  function Posts(socials: seq<Social>): set<string> { set i | 0 <= i < |socials| :: socials[i].post.postIdHash }

  /** The remarks made once every post is absorbed. */
  function Remark(s: State): State
    requires s.identity.Some?
  {
    s.(watch := s.watch + (if s.matched == [] then {NoBoundX}
                           else if s.unexpired.Keys == {} && SocialFuture !in s.hard then {StaleX} else {}),
       notes := s.notes + (if s.matched != [] then {AuthorsUnknown} else {}) +
                (if |s.observed| < |Posts(s.matched)| || |s.observed| > 2 then {CopiesCapped} else {}))
  }

  ghost function WithSocial(states: seq<State>, i: nat, x: XSource, socials: seq<Social>, at: Time): State
    requires i < |states|
  {
    if x.XAbsent? then states[i].(watch := states[i].watch + {MissingX})
    else if states[i].identity.None? then states[i]
    else Remark(if IsCurrent(states, i) then AbsorbAll(states[i], socials, at) else states[i])
  }

  ghost function WithSocials(states: seq<State>, x: XSource, socials: seq<Social>, at: Time): (r: seq<State>)
    ensures |r| == |states|
  {
    seq(|states|, i requires 0 <= i < |states| => WithSocial(states, i, x, socials, at))
  }

  // ---------------------------------------------------------------- base context

  datatype BaseSummary = BaseIsAbsent | BaseIsInvalid
                       | BaseIsUsable(acquiredAt: Time, validUntil: Time, blockTimestamp: Time)
                       | BaseIsStale(acquiredAt: Time, validUntil: Time, blockTimestamp: Time)

  predicate BaseInvalid(b: BaseSource, at: Time)
    requires b.ReportedHead?
  {
    b.chainId != BASE_CHAIN_ID || b.acquiredAt > at || b.blockTimestamp > b.acquiredAt || b.acquiredAt - b.blockTimestamp > MAX_BASE_BLOCK_AGE
  }

  function BaseContext(b: BaseSource, at: Time): BaseSummary
  {
    match b
    case BaseAbsent => BaseIsAbsent
    case ReportedHead(_, acquiredAt, blockTimestamp) =>
      var validUntil := acquiredAt + BASE_CONTEXT_VALIDITY;
      if BaseInvalid(b, at) then BaseIsInvalid
      else if at >= validUntil then BaseIsStale(acquiredAt, validUntil, blockTimestamp)
      else BaseIsUsable(acquiredAt, validUntil, blockTimestamp)
  }

  function WithPages(s: State, x: XSource, base: BaseSummary): State
  {
    s.(notes := s.notes + (if x.RecordedPosts? && x.hasNextPage then {PartialXWindow} else {}) +
                (if base.BaseIsUsable? then {BaseContextOnly} else {}) + (if base.BaseIsStale? then {BaseContextStale} else {}))
  }

  // ---------------------------------------------------------------- all passes

  /** The states before the posts are read. */
  function Prepared(b: Bundle, facts: Facts, at: Time): (r: seq<State>)
    ensures |r| == |b.marketplace.candidates|
  {
    var m := b.marketplace;
    var states := WithHistories(WithCurrentConflicts(InitialStates(m.candidates, RankEvidenceId(m, BundleId(b)))), facts);
    seq(|states|, i requires 0 <= i < |states| => WithMarketplace(states[i], m, facts, at))
  }

  ghost function SocialsOf(b: Bundle, facts: Facts, at: Time): seq<Social>
  {
    Socials(b.x, Prepared(b, facts, at), facts, at, BundleId(b))
  }

  /** The states every pass has been over. */
  ghost function Assessed(b: Bundle, facts: Facts, at: Time): (r: seq<State>)
    ensures |r| == |b.marketplace.candidates|
  {
    var states := WithSocials(Prepared(b, facts, at), b.x, SocialsOf(b, facts, at), at);
    seq(|states|, i requires 0 <= i < |states| => WithPages(states[i], b.x, BaseContext(b.base, at)))
  }

  // ---------------------------------------------------------------- the next facts

  predicate IdentityUsable(s: State) { s.identity.Some? && s.hard * IDENTITY_HARD_REASONS == {} }

  function UsableStates(states: seq<State>): seq<State>
  {
    if states == [] then []
    else UsableStates(states[..|states| - 1]) + (if IdentityUsable(states[|states| - 1]) then [states[|states| - 1]] else [])
  }

  function RowsOf(usable: seq<State>, rankEvidence: string): seq<PriorRow>
  {
    seq(|usable|, i requires 0 <= i < |usable| =>
      PriorRow(if usable[i].identity.Some? then usable[i].identity.value else Identity("", []),
               usable[i].candidate.slug, usable[i].candidate.rank, rankEvidence))
  }

  /** The collections and slugs of one usable state. */
  function Register(v: View, s: State): View
    requires s.identity.Some?
  {
    var id, slug := s.identity.value, s.candidate.slug;
    var association := Association(slug, id.collectionId);
    v.(known := v.known[id.collectionId := Known(id, slug)],
       associations := v.associations[AssociationKey(association) := association])
  }

  function RegisterAll(v: View, usable: seq<State>): View
  {
    if usable == [] then v
    else
      var last := usable[|usable| - 1];
      var before := RegisterAll(v, usable[..|usable| - 1]);
      if last.identity.Some? then Register(before, last) else before
  }

  /** The bindings and clusters of one admitted post. */
  function Admit(v: View, s: Social): View
  {
    var p := s.post;
    if s.conflict then
      if Retained(v, p.cluster) then v
      else v.(conflicts := v.conflicts[p.cluster := Conflict(p.cluster, s.firstSeenAt, p.postIdHash)])
    else
      v.(bindings := if p.postIdHash in v.bindings then v.bindings else v.bindings[p.postIdHash := Binding(p.postIdHash, p.cluster)],
         clusters := if Retained(v, p.cluster) then v.clusters else v.clusters[p.cluster := Cluster(p.cluster, s.firstSeenAt)])
  }

  function AdmitAll(v: View, socials: seq<Social>): View
  {
    if socials == [] then v else Admit(AdmitAll(v, socials[..|socials| - 1]), socials[|socials| - 1])
  }

  predicate Admitted(x: XSource, facts: Facts, at: Time)
  {
    x.RecordedPosts? && x.acquiredAt <= at && (facts.latestX.None? || x.acquiredAt >= facts.latestX.value)
  }

  /** By slug, then by collection. */
  predicate AssociationLess(a: Association, b: Association)
  {
    Less(a.slug, b.slug) || (a.slug == b.slug && Less(a.collectionId, b.collectionId))
  }

  ghost function FactsFrom(head: Option<string>, window: Option<RankWindow>, latestX: Option<Time>, v: View): Facts
  {
    Facts(head, window, latestX, Table(v.known), Sort(Table(v.associations), AssociationLess), Table(v.bindings), Table(v.clusters),
          Table(v.conflicts))
  }

  /** The maps of the next facts. */
  ghost function NextView(b: Bundle, facts: Facts, at: Time): View
  {
    var v := ViewOf(facts);
    var v1 := if MarketplaceUsable(b.marketplace, facts, at) then RegisterAll(v, UsableStates(Assessed(b, facts, at))) else v;
    if Admitted(b.x, facts, at) then AdmitAll(v1, SocialsOf(b, facts, at)) else v1
  }

  ghost function NextWindow(b: Bundle, facts: Facts, at: Time): Option<RankWindow>
  {
    var m := b.marketplace;
    if MarketplaceUsable(m, facts, at) then
      var rankEvidence := RankEvidenceId(m, BundleId(b));
      Some(RankWindow(rankEvidence, m.acquiredAt, m.validUntil, RowsOf(UsableStates(Assessed(b, facts, at)), rankEvidence)))
    else facts.window
  }

  function NextLatestX(b: Bundle, facts: Facts, at: Time): Option<Time>
  {
    if Admitted(b.x, facts, at) then Some(b.x.acquiredAt) else facts.latestX
  }

  /** `advanceFacts`, before the schema decides whether too much is retained. */
  ghost function NextFacts(b: Bundle, facts: Facts, at: Time): Facts
  {
    FactsFrom(Some(RefreshId(BundleId(b))), NextWindow(b, facts, at), NextLatestX(b, facts, at), NextView(b, facts, at))
  }
}
