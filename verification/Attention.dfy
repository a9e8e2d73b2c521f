/** Vocabulary of the recorded-attention assessor: reasons, sanitized bundles and derived
    identifiers (packages/attention/src/schemas.ts, identity.ts, sanitize.ts, hash.ts). A digest is
    ideal: it is its domain followed by the canonical text it was computed from. */
module Attention {
  import opened Hex
  import opened Order
  import opened CanonicalJson

  type Time = int

  const BASE_CHAIN_ID: nat := 8453
  const MARKETPLACE_VALIDITY: Time := 120_000
  const SOCIAL_VALIDITY: Time := 7_200_000
  const BASE_CONTEXT_VALIDITY: Time := 120_000
  const MAX_BASE_BLOCK_AGE: Time := 7_200_000
  const MAX_RETAINED_FACTS: int := 1_000
  const MAX_TIME: Time := 8_640_000_000_000_000

  // ---------------------------------------------------------------- closed vocabularies, in order

  datatype HardReason =
    | PostContentConflict | SocialTimeRegression | UnsupportedChain | ZeroContract | DuplicateContract
    | OverlappingContractGroups | SlugRebound | IdentityContinuityConflict | AmbiguousSocialIdentity
    | SocialAddressConflict | InstructionContent | WalletConnectionSolicitation | UnlimitedApprovalSolicitation
    | GuaranteedReturnClaim | DeceptiveLinkIndicator | MarketplaceTimeInvalid | MarketplaceFuture
    | MarketplaceStale | SocialFuture

  datatype WatchReason =
    | AssessmentExpired | LeftWindow | IdentityChanged | MissingX | NoBoundX | StaleX | LinksUnchecked
    | AttentionBelowThreshold

  datatype MissingCheck =
    | AuthenticatedProvenance | IndependentXAuthors | XPostCreationTimes | CollectionContractChecks
    | CollectionSecurityReview | TokenOrderChecks | BaseHeadContext | LinkDestinationChecks

  datatype Note =
    | PartialMarketplaceWindow | PartialXWindow | CopiesCapped | AuthorsUnknown | BaseContextOnly
    | BaseContextStale | SlugChanged | NoSafeVerdict

  datatype DiagnosticCode = UnboundSocial | HostileUnboundSocial | InvalidBaseContext | StaleBaseContext

  datatype NextAction =
    | ResolveCollectionIdentity | InspectQuarantinedIndicatorsOffline | SupplyNewRecordedRankWindow
    | SupplyBoundedSocialEvidence | SupplyFreshSocialEvidence | ReviewRecordedLinksOffline
    | ContinueRecordedObservation | ManuallyReviewIdentityAndSources

  const HARD_REASONS: seq<HardReason> := [
    PostContentConflict, SocialTimeRegression, UnsupportedChain, ZeroContract, DuplicateContract,
    OverlappingContractGroups, SlugRebound, IdentityContinuityConflict, AmbiguousSocialIdentity,
    SocialAddressConflict, InstructionContent, WalletConnectionSolicitation, UnlimitedApprovalSolicitation,
    GuaranteedReturnClaim, DeceptiveLinkIndicator, MarketplaceTimeInvalid, MarketplaceFuture,
    MarketplaceStale, SocialFuture]

  const WATCH_REASONS: seq<WatchReason> := [
    AssessmentExpired, LeftWindow, IdentityChanged, MissingX, NoBoundX, StaleX, LinksUnchecked,
    AttentionBelowThreshold]

  const MISSING_CHECKS: seq<MissingCheck> := [
    AuthenticatedProvenance, IndependentXAuthors, XPostCreationTimes, CollectionContractChecks,
    CollectionSecurityReview, TokenOrderChecks, BaseHeadContext, LinkDestinationChecks]

  const NOTES: seq<Note> := [
    PartialMarketplaceWindow, PartialXWindow, CopiesCapped, AuthorsUnknown, BaseContextOnly,
    BaseContextStale, SlugChanged, NoSafeVerdict]

  const IDENTITY_HARD_REASONS: set<HardReason> := {
    UnsupportedChain, ZeroContract, DuplicateContract, OverlappingContractGroups, SlugRebound, IdentityContinuityConflict}

  const RESOLVED_IDENTITY_CONFLICT_REASONS: set<HardReason> := {
    OverlappingContractGroups, SlugRebound, IdentityContinuityConflict}

  /** The hard reasons that the social-text sanitizer detects. */
  const CONTENT_HARD_REASONS: set<HardReason> := {
    InstructionContent, WalletConnectionSolicitation, UnlimitedApprovalSolicitation, GuaranteedReturnClaim,
    DeceptiveLinkIndicator}

  /** `ordered`: the given values, in vocabulary order. */
  function Ordered<T(==)>(values: set<T>, order: seq<T>): seq<T>
  {
    if order == [] then []
    else (if order[0] in values then [order[0]] else []) + Ordered(values, order[1..])
  }

  function IndexOf<T(==)>(order: seq<T>, value: T): int
  {
    if order == [] then -1
    else if order[0] == value then 0
    else
      var rest := IndexOf(order[1..], value);
      if rest < 0 then -1 else rest + 1
  }

  /** `isEnumOrdered`. */
  predicate EnumOrdered<T(==)>(values: seq<T>, order: seq<T>)
  {
    forall i :: 0 <= i < |values| ==>
      IndexOf(order, values[i]) >= 0 && (i == 0 || IndexOf(order, values[i - 1]) < IndexOf(order, values[i]))
  }

  // ---------------------------------------------------------------- sanitized bundles

  datatype Contract = Contract(chainId: nat, address: string)
  datatype Candidate = Candidate(rank: int, slug: string, contracts: seq<Contract>)
  datatype Marketplace = Marketplace(acquiredAt: Time, validUntil: Time, hasNextPage: bool, candidates: seq<Candidate>)
  datatype Post = Post(postIdHash: string, cluster: string, mentioned: seq<string>, hard: seq<HardReason>, watch: seq<WatchReason>)
  datatype XSource = XAbsent | RecordedPosts(acquiredAt: Time, hasNextPage: bool, posts: seq<Post>)
  datatype BaseSource = BaseAbsent | ReportedHead(chainId: nat, acquiredAt: Time, blockTimestamp: Time)
  datatype Bundle = Bundle(marketplace: Marketplace, x: XSource, base: BaseSource)

  predicate CanonicalTime(t: Time) { -MAX_TIME <= t <= MAX_TIME }
  predicate SourceTime(t: Time, validity: Time) { CanonicalTime(t) && t <= MAX_TIME - validity }

  predicate SlugOk(slug: string)
  {
    && 1 <= |slug| <= 128
    && slug[0] != '-'
    && forall i :: 0 <= i < |slug| ==> 'a' <= slug[i] <= 'z' || '0' <= slug[i] <= '9' || slug[i] == '-'
  }

  predicate AddressOk(address: string)
  {
    |address| == 42 && address[0] == '0' && address[1] == 'x' && forall i :: 2 <= i < 42 ==> LowerHex(address[i])
  }

  const ZERO_ADDRESS: string := "0x0000000000000000000000000000000000000000"

  predicate ContractLess(a: Contract, b: Contract)
  {
    if a.chainId != b.chainId then a.chainId < b.chainId else Less(a.address, b.address)
  }

  /** `isSorted` compares neighbours only. */
  predicate ContractsSorted(contracts: seq<Contract>)
  {
    forall i :: 0 < i < |contracts| ==> contracts[i - 1] == contracts[i] || ContractLess(contracts[i - 1], contracts[i])
  }

  function ContractText(c: Contract): string { Digits(c.chainId) + [':'] + c.address }

  function ContractTexts(contracts: seq<Contract>): seq<string>
  {
    if contracts == [] then [] else [ContractText(contracts[0])] + ContractTexts(contracts[1..])
  }

  /** `canonicalCandidateKey`. */
  function CandidateKey(c: Candidate): string
  {
    c.slug + ['\0'] + Join(Sort(ContractTexts(c.contracts), Less))
  }

  predicate CandidateOk(c: Candidate)
  {
    && 1 <= c.rank <= 10 && SlugOk(c.slug) && 1 <= |c.contracts| <= 16
    && (forall i :: 0 <= i < |c.contracts| ==> AddressOk(c.contracts[i].address))
    && ContractsSorted(c.contracts)
  }

  predicate PostOk(p: Post)
  {
    && HashOk(p.postIdHash) && HashOk(p.cluster)
    && |p.mentioned| <= 97 && (forall i :: 0 < i < |p.mentioned| ==> Less(p.mentioned[i - 1], p.mentioned[i]))
    && (forall i :: 0 <= i < |p.mentioned| ==> AddressOk(p.mentioned[i]))
    && |p.hard| <= 5 && EnumOrdered(p.hard, HARD_REASONS)
    && |p.watch| <= 1 && EnumOrdered(p.watch, WATCH_REASONS)
  }

  predicate MarketplaceOk(m: Marketplace)
  {
    && SourceTime(m.acquiredAt, MARKETPLACE_VALIDITY) && CanonicalTime(m.validUntil)
    && m.validUntil - m.acquiredAt == MARKETPLACE_VALIDITY
    && |m.candidates| <= 10
    && (forall i :: 0 <= i < |m.candidates| ==> CandidateOk(m.candidates[i]))
    && (forall i :: 0 < i < |m.candidates| ==> m.candidates[i - 1].rank < m.candidates[i].rank)
    && (forall i, j :: 0 <= i < j < |m.candidates| ==> CandidateKey(m.candidates[i]) != CandidateKey(m.candidates[j]))
  }

  predicate XOk(x: XSource)
  {
    x.RecordedPosts? ==>
      && SourceTime(x.acquiredAt, SOCIAL_VALIDITY)
      && |x.posts| <= 10
      && (forall i :: 0 <= i < |x.posts| ==> PostOk(x.posts[i]))
      && (forall i :: 0 < i < |x.posts| ==> Less(x.posts[i - 1].postIdHash, x.posts[i].postIdHash))
  }

  predicate BaseOk(b: BaseSource)
  {
    b.ReportedHead? ==> SourceTime(b.acquiredAt, BASE_CONTEXT_VALIDITY) && CanonicalTime(b.blockTimestamp)
  }

  /** `SanitizedRecordedBundleSchema`. */
  predicate BundleOk(b: Bundle) { MarketplaceOk(b.marketplace) && XOk(b.x) && BaseOk(b.base) }

  /** Posts as the sanitizer makes them: content reasons and the link caution only. */
  predicate Sanitized(b: Bundle)
  {
    b.x.RecordedPosts? ==>
      forall i :: 0 <= i < |b.x.posts| ==>
        && (forall r :: r in b.x.posts[i].hard ==> r in CONTENT_HARD_REASONS)
        && (forall r :: r in b.x.posts[i].watch ==> r == LinksUnchecked)
  }

  // ---------------------------------------------------------------- digests

  function Digest(domain: string, value: Json): string { domain + Print(value) }

  function Strings(xs: seq<string>): seq<Json>
  {
    seq(|xs|, i requires 0 <= i < |xs| => JStr(xs[i]))
  }

  function ContractJson(c: Contract): Json
  {
    JObj([Field("chainId", JStr(Digits(c.chainId))), Field("address", JStr(c.address))])
  }

  function ContractsJson(contracts: seq<Contract>): Json
  {
    JArr(seq(|contracts|, i requires 0 <= i < |contracts| => ContractJson(contracts[i])))
  }

  function CollectionId(addresses: seq<string>): string
  {
    Digest("rsi-attention-base-collection-v1\0",
           JObj([Field("chainId", JStr(Digits(BASE_CHAIN_ID))), Field("contracts", JArr(Strings(addresses)))]))
  }

  function CandidateId(slug: string, contracts: seq<Contract>): string
  {
    Digest("rsi-attention-candidate-v1\0", JObj([Field("slug", JStr(slug)), Field("contracts", ContractsJson(contracts))]))
  }

  function HardName(r: HardReason): string
  {
    match r
    case PostContentConflict => "POST_CONTENT_CONFLICT"
    case SocialTimeRegression => "SOCIAL_TIME_REGRESSION"
    case UnsupportedChain => "UNSUPPORTED_CHAIN"
    case ZeroContract => "ZERO_CONTRACT"
    case DuplicateContract => "DUPLICATE_CONTRACT"
    case OverlappingContractGroups => "OVERLAPPING_CONTRACT_GROUPS"
    case SlugRebound => "SLUG_REBOUND"
    case IdentityContinuityConflict => "IDENTITY_CONTINUITY_CONFLICT"
    case AmbiguousSocialIdentity => "AMBIGUOUS_SOCIAL_IDENTITY"
    case SocialAddressConflict => "SOCIAL_ADDRESS_CONFLICT"
    case InstructionContent => "INSTRUCTION_CONTENT"
    case WalletConnectionSolicitation => "WALLET_CONNECTION_SOLICITATION"
    case UnlimitedApprovalSolicitation => "UNLIMITED_APPROVAL_SOLICITATION"
    case GuaranteedReturnClaim => "GUARANTEED_RETURN_CLAIM"
    case DeceptiveLinkIndicator => "DECEPTIVE_LINK_INDICATOR"
    case MarketplaceTimeInvalid => "MARKETPLACE_TIME_INVALID"
    case MarketplaceFuture => "MARKETPLACE_FUTURE"
    case MarketplaceStale => "MARKETPLACE_STALE"
    case SocialFuture => "SOCIAL_FUTURE"
  }

  function WatchName(r: WatchReason): string
  {
    match r
    case AssessmentExpired => "ASSESSMENT_EXPIRED"
    case LeftWindow => "LEFT_WINDOW"
    case IdentityChanged => "IDENTITY_CHANGED"
    case MissingX => "MISSING_X"
    case NoBoundX => "NO_BOUND_X"
    case StaleX => "STALE_X"
    case LinksUnchecked => "LINKS_UNCHECKED"
    case AttentionBelowThreshold => "ATTENTION_BELOW_THRESHOLD"
  }

  function CodeName(c: DiagnosticCode): string
  {
    match c
    case UnboundSocial => "UNBOUND_SOCIAL"
    case HostileUnboundSocial => "HOSTILE_UNBOUND_SOCIAL"
    case InvalidBaseContext => "INVALID_BASE_CONTEXT"
    case StaleBaseContext => "STALE_BASE_CONTEXT"
  }

  function HardJson(reasons: seq<HardReason>): Json
  {
    JArr(seq(|reasons|, i requires 0 <= i < |reasons| => JStr(HardName(reasons[i]))))
  }

  function WatchJson(reasons: seq<WatchReason>): Json
  {
    JArr(seq(|reasons|, i requires 0 <= i < |reasons| => JStr(WatchName(reasons[i]))))
  }

  function CandidateJson(c: Candidate): Json
  {
    JObj([Field("rank", JNum(c.rank)), Field("slug", JStr(c.slug)), Field("contracts", ContractsJson(c.contracts))])
  }

  function CandidatesJson(candidates: seq<Candidate>): Json
  {
    JArr(seq(|candidates|, i requires 0 <= i < |candidates| => CandidateJson(candidates[i])))
  }

  function PostJson(p: Post): Json
  {
    JObj([Field("postIdHash", JStr(p.postIdHash)), Field("contentClusterId", JStr(p.cluster)),
          Field("mentionedAddresses", JArr(Strings(p.mentioned))), Field("detectedHardReasons", HardJson(p.hard)),
          Field("detectedWatchReasons", WatchJson(p.watch))])
  }

  function PostsJson(posts: seq<Post>): Json
  {
    JArr(seq(|posts|, i requires 0 <= i < |posts| => PostJson(posts[i])))
  }

  function MarketplaceJson(m: Marketplace): Json
  {
    JObj([Field("kind", JStr("recorded_rank_window")), Field("acquiredAt", JNum(m.acquiredAt)), Field("validUntil", JNum(m.validUntil)),
          Field("hasNextPage", JBool(m.hasNextPage)), Field("candidates", CandidatesJson(m.candidates))])
  }

  function XJson(x: XSource): Json
  {
    match x
    case XAbsent => JObj([Field("kind", JStr("absent"))])
    case RecordedPosts(acquiredAt, hasNextPage, posts) =>
      JObj([Field("kind", JStr("recorded_posts")), Field("acquiredAt", JNum(acquiredAt)), Field("hasNextPage", JBool(hasNextPage)),
            Field("posts", PostsJson(posts))])
  }

  function BaseJson(b: BaseSource): Json
  {
    match b
    case BaseAbsent => JObj([Field("kind", JStr("absent"))])
    case ReportedHead(chainId, acquiredAt, blockTimestamp) =>
      JObj([Field("kind", JStr("reported_finalized_head")), Field("chainId", JStr(Digits(chainId))), Field("acquiredAt", JNum(acquiredAt)),
            Field("blockTimestamp", JNum(blockTimestamp))])
  }

  function BundleJson(b: Bundle): Json
  {
    JObj([Field("schemaVersion", JNum(1)), Field("kind", JStr("sanitized_recorded_collection_attention")),
          Field("marketplace", MarketplaceJson(b.marketplace)), Field("x", XJson(b.x)), Field("base", BaseJson(b.base))])
  }

  /** `recordedBundleId`. */
  function BundleId(b: Bundle): string { Digest("rsi-attention-bundle-v1\0", BundleJson(b)) }

  /** `recordedRefreshId`. */
  function RefreshId(bundleId: string): string
  {
    Digest("rsi-attention-refresh-attention-v2\0",
           JObj([Field("streamId", JStr("recorded-base-v1")), Field("bundleId", JStr(bundleId)), Field("policyVersion", JStr("attention-v2"))]))
  }

  function ProvenanceJson(bundleId: string): Json
  {
    JObj([Field("kind", JStr("operator_supplied_unverified")), Field("streamId", JStr("recorded-base-v1")), Field("bundleId", JStr(bundleId))])
  }

  function RankEvidenceId(m: Marketplace, bundleId: string): string
  {
    Digest("rsi-attention-rank-window-evidence-v1\0",
           JObj([Field("schemaVersion", JNum(1)), Field("kind", JStr("rank_window")), Field("acquiredAt", JNum(m.acquiredAt)),
                 Field("validUntil", JNum(m.validUntil)), Field("hasNextPage", JBool(m.hasNextPage)),
                 Field("candidates", CandidatesJson(m.candidates)), Field("provenance", ProvenanceJson(bundleId))]))
  }

  function SocialEvidenceId(p: Post, acquiredAt: Time, validUntil: Time, matched: seq<string>, integrity: seq<HardReason>, bundleId: string): string
  {
    Digest("rsi-attention-social-post-evidence-v1\0",
           JObj([Field("schemaVersion", JNum(1)), Field("kind", JStr("social_post")), Field("acquiredAt", JNum(acquiredAt)),
                 Field("validUntil", JNum(validUntil)), Field("postIdHash", JStr(p.postIdHash)), Field("contentClusterId", JStr(p.cluster)),
                 Field("matchedCollectionIds", JArr(Strings(matched))), Field("integrityReasons", HardJson(integrity)),
                 Field("cautionReasons", WatchJson(p.watch)), Field("provenance", ProvenanceJson(bundleId))]))
  }

  function SocialDiagnosticId(bundleId: string, p: Post, code: DiagnosticCode): string
  {
    Digest("rsi-attention-social-diagnostic-v1\0",
           JObj([Field("bundleId", JStr(bundleId)), Field("postIdHash", JStr(p.postIdHash)), Field("contentClusterId", JStr(p.cluster)),
                 Field("code", JStr(CodeName(code)))]))
  }

  function InvalidBaseDiagnosticId(bundleId: string, chainId: nat, acquiredAt: Time, blockTimestamp: Time): string
  {
    Digest("rsi-attention-base-diagnostic-v1\0",
           JObj([Field("bundleId", JStr(bundleId)), Field("code", JStr("INVALID_BASE_CONTEXT")), Field("chainId", JStr(Digits(chainId))),
                 Field("acquiredAt", JNum(acquiredAt)), Field("blockTimestamp", JNum(blockTimestamp))]))
  }

  function StaleBaseDiagnosticId(bundleId: string, acquiredAt: Time, validUntil: Time, blockTimestamp: Time): string
  {
    Digest("rsi-attention-base-diagnostic-v1\0",
           JObj([Field("bundleId", JStr(bundleId)), Field("code", JStr("STALE_BASE_CONTEXT")), Field("acquiredAt", JNum(acquiredAt)),
                 Field("validUntil", JNum(validUntil)), Field("blockTimestamp", JNum(blockTimestamp))]))
  }
}
