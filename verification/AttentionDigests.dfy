/** The digests of whole bundles and of evidence stand for what they were computed from, and for nothing else
    (packages/attention/src/sanitize.ts:65-80, assess.ts:129-141, 437-452). */
module AttentionDigests {
  import opened CanonicalJson
  import opened CanonicalJsonProofs
  import opened Attention
  import opened AttentionIds

  // ---------------------------------------------------------------- vocabularies

  /** The length and the first letter of a reason's name tell it. */
  function HardMark(r: HardReason): (int, char)
  {
    match r
    case PostContentConflict => (21, 'P')
    case SocialTimeRegression => (22, 'S')
    case UnsupportedChain => (17, 'U')
    case ZeroContract => (13, 'Z')
    case DuplicateContract => (18, 'D')
    case OverlappingContractGroups => (27, 'O')
    case SlugRebound => (12, 'S')
    case IdentityContinuityConflict => (28, 'I')
    case AmbiguousSocialIdentity => (25, 'A')
    case SocialAddressConflict => (23, 'S')
    case InstructionContent => (19, 'I')
    case WalletConnectionSolicitation => (30, 'W')
    case UnlimitedApprovalSolicitation => (31, 'U')
    case GuaranteedReturnClaim => (23, 'G')
    case DeceptiveLinkIndicator => (24, 'D')
    case MarketplaceTimeInvalid => (24, 'M')
    case MarketplaceFuture => (18, 'M')
    case MarketplaceStale => (17, 'M')
    case SocialFuture => (13, 'S')
  }

  lemma HardMarked(r: HardReason)
    ensures |HardName(r)| > 0 && HardMark(r) == (|HardName(r)|, HardName(r)[0])
  {}

  lemma HardNamesDiffer(r: HardReason, s: HardReason)
    ensures HardName(r) == HardName(s) <==> r == s
  {
    HardMarked(r);
    HardMarked(s);
    hide HardName;
  }

  lemma WatchNamesDiffer(r: WatchReason, s: WatchReason)
    ensures WatchName(r) == WatchName(s) <==> r == s
  {
    WatchLong(r);
    WatchLong(s);
    hide WatchName;
  }

  function WatchLength(r: WatchReason): nat
  {
    match r
    case AssessmentExpired => 18
    case LeftWindow => 11
    case IdentityChanged => 16
    case MissingX => 9
    case NoBoundX => 10
    case StaleX => 7
    case LinksUnchecked => 15
    case AttentionBelowThreshold => 25
  }

  lemma WatchLong(r: WatchReason)
    ensures |WatchName(r)| == WatchLength(r)
  {}

  // ---------------------------------------------------------------- lists

  lemma SameHard(a: seq<HardReason>, b: seq<HardReason>)
    requires SameValue(HardJson(a), HardJson(b))
    ensures a == b
  {
    hide HardName;
    forall i | 0 <= i < |a| ensures a[i] == b[i] {
      assert SameValue(HardJson(a).items[i], HardJson(b).items[i]);
      HardNamesDiffer(a[i], b[i]);
    }
  }

  lemma SameWatch(a: seq<WatchReason>, b: seq<WatchReason>)
    requires SameValue(WatchJson(a), WatchJson(b))
    ensures a == b
  {
    hide WatchName;
    forall i | 0 <= i < |a| ensures a[i] == b[i] {
      assert SameValue(WatchJson(a).items[i], WatchJson(b).items[i]);
      WatchNamesDiffer(a[i], b[i]);
    }
  }

  lemma ListsProper(hard: seq<HardReason>, watch: seq<WatchReason>)
    ensures Proper(HardJson(hard)) && Proper(WatchJson(watch))
  {
    hide HardName, WatchName;
    forall x | x in HardJson(hard).items ensures Proper(x) {}
    forall x | x in WatchJson(watch).items ensures Proper(x) {}
  }

  // ---------------------------------------------------------------- the parts of a bundle

  lemma CandidateJsonProper(c: Candidate)
    ensures Proper(CandidateJson(c)) && CandidateJson(c).JObj? && DistinctKeys(CandidateJson(c).fields)
  {
    ContractsProper(c.contracts);
    hide ContractsJson;
  }

  lemma SameCandidate(a: Candidate, b: Candidate)
    requires SameValue(CandidateJson(a), CandidateJson(b))
    ensures a == b
  {
    CandidateJsonProper(b);
    hide ContractsJson, Proper, DistinctKeys, SameValue;
    SameFields(CandidateJson(a).fields, CandidateJson(b).fields, 0);
    SameFields(CandidateJson(a).fields, CandidateJson(b).fields, 1);
    SameFields(CandidateJson(a).fields, CandidateJson(b).fields, 2);
    SameContracts(a.contracts, b.contracts);
    SameNumbers(a.rank, b.rank);
    SameTexts(a.slug, b.slug);
  }

  lemma SameNumbers(m: int, n: int)
    requires SameValue(JNum(m), JNum(n))
    ensures m == n
  {}

  lemma SameTexts(a: string, b: string)
    requires SameValue(JStr(a), JStr(b))
    ensures a == b
  {}

  lemma SameBools(a: bool, b: bool)
    requires SameValue(JBool(a), JBool(b))
    ensures a == b
  {}

  lemma CandidatesProper(candidates: seq<Candidate>)
    ensures Proper(CandidatesJson(candidates))
  {
    hide CandidateJson;
    forall x | x in CandidatesJson(candidates).items ensures Proper(x) {
      var i :| 0 <= i < |candidates| && x == CandidateJson(candidates[i]);
      CandidateJsonProper(candidates[i]);
    }
  }

  lemma SameCandidates(a: seq<Candidate>, b: seq<Candidate>)
    requires SameValue(CandidatesJson(a), CandidatesJson(b))
    ensures a == b
  {
    hide CandidateJson;
    forall i | 0 <= i < |a| ensures a[i] == b[i] {
      assert SameValue(CandidatesJson(a).items[i], CandidatesJson(b).items[i]);
      SameCandidate(a[i], b[i]);
    }
  }

  lemma PostJsonProper(p: Post)
    ensures Proper(PostJson(p)) && PostJson(p).JObj? && DistinctKeys(PostJson(p).fields)
  {
    StringsProper(p.mentioned);
    ListsProper(p.hard, p.watch);
    hide Strings, HardJson, WatchJson;
  }

  lemma SamePost(a: Post, b: Post)
    requires SameValue(PostJson(a), PostJson(b))
    ensures a == b
  {
    PostJsonProper(b);
    hide Strings, HardJson, WatchJson, Proper, DistinctKeys, SameValue;
    SameFields(PostJson(a).fields, PostJson(b).fields, 0);
    SameFields(PostJson(a).fields, PostJson(b).fields, 1);
    SameFields(PostJson(a).fields, PostJson(b).fields, 2);
    SameFields(PostJson(a).fields, PostJson(b).fields, 3);
    SameFields(PostJson(a).fields, PostJson(b).fields, 4);
    SameTexts(a.postIdHash, b.postIdHash);
    SameTexts(a.cluster, b.cluster);
    SameStrings(a.mentioned, b.mentioned);
    SameHard(a.hard, b.hard);
    SameWatch(a.watch, b.watch);
  }

  lemma PostsProper(posts: seq<Post>)
    ensures Proper(PostsJson(posts))
  {
    hide PostJson;
    forall x | x in PostsJson(posts).items ensures Proper(x) {
      var i :| 0 <= i < |posts| && x == PostJson(posts[i]);
      PostJsonProper(posts[i]);
    }
  }

  lemma SamePosts(a: seq<Post>, b: seq<Post>)
    requires SameValue(PostsJson(a), PostsJson(b))
    ensures a == b
  {
    hide PostJson;
    forall i | 0 <= i < |a| ensures a[i] == b[i] {
      assert SameValue(PostsJson(a).items[i], PostsJson(b).items[i]);
      SamePost(a[i], b[i]);
    }
  }

  lemma MarketplaceProper(m: Marketplace)
    ensures Proper(MarketplaceJson(m)) && MarketplaceJson(m).JObj? && DistinctKeys(MarketplaceJson(m).fields)
  {
    CandidatesProper(m.candidates);
    hide CandidatesJson;
  }

  lemma SameMarketplace(a: Marketplace, b: Marketplace)
    requires SameValue(MarketplaceJson(a), MarketplaceJson(b))
    ensures a == b
  {
    MarketplaceProper(b);
    hide CandidatesJson, Proper, DistinctKeys, SameValue;
    SameFields(MarketplaceJson(a).fields, MarketplaceJson(b).fields, 1);
    SameFields(MarketplaceJson(a).fields, MarketplaceJson(b).fields, 2);
    SameFields(MarketplaceJson(a).fields, MarketplaceJson(b).fields, 3);
    SameFields(MarketplaceJson(a).fields, MarketplaceJson(b).fields, 4);
    SameNumbers(a.acquiredAt, b.acquiredAt);
    SameNumbers(a.validUntil, b.validUntil);
    SameBools(a.hasNextPage, b.hasNextPage);
    SameCandidates(a.candidates, b.candidates);
  }

  lemma XProper(x: XSource)
    ensures Proper(XJson(x)) && XJson(x).JObj? && DistinctKeys(XJson(x).fields)
  {
    if x.RecordedPosts? { PostsProper(x.posts); }
    hide PostsJson;
  }

  lemma SameX(a: XSource, b: XSource)
    requires SameValue(XJson(a), XJson(b))
    ensures a == b
  {
    XProper(b);
    SameSizes(XJson(a), XJson(b));
    hide PostsJson, Proper, DistinctKeys, SameValue;
    if a.RecordedPosts? && b.RecordedPosts? {
      SameFields(XJson(a).fields, XJson(b).fields, 1);
      SameFields(XJson(a).fields, XJson(b).fields, 2);
      SameFields(XJson(a).fields, XJson(b).fields, 3);
      SameNumbers(a.acquiredAt, b.acquiredAt);
      SameBools(a.hasNextPage, b.hasNextPage);
      SamePosts(a.posts, b.posts);
    }
  }

  lemma SameSizes(v: Json, w: Json)
    requires SameValue(v, w) && v.JObj? && w.JObj?
    ensures |v.fields| == |w.fields|
  {}

  lemma BaseProper(b: BaseSource)
    ensures Proper(BaseJson(b)) && BaseJson(b).JObj? && DistinctKeys(BaseJson(b).fields)
  {
    hide Digits;
  }

  lemma SameBase(a: BaseSource, b: BaseSource)
    requires SameValue(BaseJson(a), BaseJson(b))
    ensures a == b
  {
    BaseProper(b);
    SameSizes(BaseJson(a), BaseJson(b));
    hide Digits, Proper, DistinctKeys, SameValue;
    if a.ReportedHead? && b.ReportedHead? {
      SameFields(BaseJson(a).fields, BaseJson(b).fields, 1);
      SameFields(BaseJson(a).fields, BaseJson(b).fields, 2);
      SameFields(BaseJson(a).fields, BaseJson(b).fields, 3);
      SameTexts(Digits(a.chainId), Digits(b.chainId));
      DigitsInjective(a.chainId, b.chainId);
      SameNumbers(a.acquiredAt, b.acquiredAt);
      SameNumbers(a.blockTimestamp, b.blockTimestamp);
    }
  }

  // ---------------------------------------------------------------- bundles

  lemma BundleProper(b: Bundle)
    ensures Proper(BundleJson(b)) && BundleJson(b).JObj? && DistinctKeys(BundleJson(b).fields)
  {
    hide MarketplaceJson, XJson, BaseJson, DistinctKeys;
    MarketplaceProper(b.marketplace);
    XProper(b.x);
    BaseProper(b.base);
    BundleKeys(b);
  }

  lemma BundleKeys(b: Bundle)
    ensures BundleJson(b).JObj? && DistinctKeys(BundleJson(b).fields)
  {
    hide MarketplaceJson, XJson, BaseJson;
  }

  /** A bundle identifier stands for one bundle. */
  lemma BundleIdInjective(a: Bundle, b: Bundle)
    requires BundleId(a) == BundleId(b)
    ensures a == b
  {
    hide Print, Proper, DistinctKeys, SameValue, MarketplaceJson, XJson, BaseJson;
    BundleProper(a);
    BundleProper(b);
    DigestInjective("rsi-attention-bundle-v1\0", BundleJson(a), BundleJson(b));
    SameFields(BundleJson(a).fields, BundleJson(b).fields, 2);
    SameFields(BundleJson(a).fields, BundleJson(b).fields, 3);
    SameFields(BundleJson(a).fields, BundleJson(b).fields, 4);
    SameMarketplace(a.marketplace, b.marketplace);
    SameX(a.x, b.x);
    SameBase(a.base, b.base);
  }

  ghost function RefreshFields(bundleId: string): seq<Field>
  {
    [Field("streamId", JStr("recorded-base-v1")), Field("bundleId", JStr(bundleId)), Field("policyVersion", JStr("attention-v2"))]
  }

  /** A refresh stands for one bundle identifier. */
  lemma RefreshIdInjective(a: string, b: string)
    requires RefreshId(a) == RefreshId(b)
    ensures a == b
  {
    hide Print, SameValue;
    DigestInjective("rsi-attention-refresh-attention-v2\0", JObj(RefreshFields(a)), JObj(RefreshFields(b)));
    SameFields(RefreshFields(a), RefreshFields(b), 1);
    SameTexts(a, b);
  }

  // ---------------------------------------------------------------- evidence

  ghost function RankFields(m: Marketplace, bundleId: string): seq<Field>
  {
    [Field("schemaVersion", JNum(1)), Field("kind", JStr("rank_window")), Field("acquiredAt", JNum(m.acquiredAt)),
     Field("validUntil", JNum(m.validUntil)), Field("hasNextPage", JBool(m.hasNextPage)),
     Field("candidates", CandidatesJson(m.candidates)), Field("provenance", ProvenanceJson(bundleId))]
  }

  lemma ProvenanceProper(bundleId: string)
    ensures Proper(ProvenanceJson(bundleId)) && ProvenanceJson(bundleId).JObj? && DistinctKeys(ProvenanceJson(bundleId).fields)
  {}

  lemma SameProvenance(a: string, b: string)
    requires SameValue(ProvenanceJson(a), ProvenanceJson(b))
    ensures a == b
  {
    ProvenanceProper(b);
    hide Proper, DistinctKeys, SameValue;
    SameFields(ProvenanceJson(a).fields, ProvenanceJson(b).fields, 2);
    SameTexts(a, b);
  }

  lemma RankKeys(m: Marketplace, bundleId: string)
    ensures DistinctKeys(RankFields(m, bundleId))
  {
    hide CandidatesJson, ProvenanceJson;
  }

  lemma RankProper(m: Marketplace, bundleId: string)
    ensures Proper(JObj(RankFields(m, bundleId))) && DistinctKeys(RankFields(m, bundleId))
  {
    hide CandidatesJson, ProvenanceJson, DistinctKeys, Proper;
    CandidatesProper(m.candidates);
    ProvenanceProper(bundleId);
    RankKeys(m, bundleId);
    var fields := RankFields(m, bundleId);
    PlainProper(fields[0].value);
    PlainProper(fields[1].value);
    PlainProper(fields[2].value);
    PlainProper(fields[3].value);
    PlainProper(fields[4].value);
    ObjectProper(fields);
  }

  /** Rank evidence stands for one window of one bundle. */
  lemma RankEvidenceInjective(m: Marketplace, bundleId: string, n: Marketplace, bundleId': string)
    requires RankEvidenceId(m, bundleId) == RankEvidenceId(n, bundleId')
    ensures m == n && bundleId == bundleId'
  {
    hide Print, Proper, DistinctKeys, SameValue, CandidatesJson, ProvenanceJson;
    var v, w := RankFields(m, bundleId), RankFields(n, bundleId');
    RankProper(m, bundleId);
    RankProper(n, bundleId');
    DigestInjective("rsi-attention-rank-window-evidence-v1\0", JObj(v), JObj(w));
    SameFields(v, w, 2);
    SameFields(v, w, 3);
    SameFields(v, w, 4);
    SameFields(v, w, 5);
    SameFields(v, w, 6);
    SameNumbers(m.acquiredAt, n.acquiredAt);
    SameNumbers(m.validUntil, n.validUntil);
    SameBools(m.hasNextPage, n.hasNextPage);
    SameCandidates(m.candidates, n.candidates);
    SameProvenance(bundleId, bundleId');
  }

  ghost function SocialFields(p: Post, acquiredAt: Time, validUntil: Time, matched: seq<string>, integrity: seq<HardReason>, bundleId: string): seq<Field>
  {
    [Field("schemaVersion", JNum(1)), Field("kind", JStr("social_post")), Field("acquiredAt", JNum(acquiredAt)),
     Field("validUntil", JNum(validUntil)), Field("postIdHash", JStr(p.postIdHash)), Field("contentClusterId", JStr(p.cluster)),
     Field("matchedCollectionIds", JArr(Strings(matched))), Field("integrityReasons", HardJson(integrity)),
     Field("cautionReasons", WatchJson(p.watch)), Field("provenance", ProvenanceJson(bundleId))]
  }

  lemma SocialKeys(p: Post, acquiredAt: Time, validUntil: Time, matched: seq<string>, integrity: seq<HardReason>, bundleId: string)
    ensures DistinctKeys(SocialFields(p, acquiredAt, validUntil, matched, integrity, bundleId))
  {
    hide Strings, HardJson, WatchJson, ProvenanceJson;
  }

  lemma SocialProper(p: Post, acquiredAt: Time, validUntil: Time, matched: seq<string>, integrity: seq<HardReason>, bundleId: string)
    ensures Proper(JObj(SocialFields(p, acquiredAt, validUntil, matched, integrity, bundleId)))
    ensures DistinctKeys(SocialFields(p, acquiredAt, validUntil, matched, integrity, bundleId))
  {
    hide Strings, HardJson, WatchJson, ProvenanceJson, DistinctKeys, Proper;
    StringsProper(matched);
    ListsProper(integrity, p.watch);
    ProvenanceProper(bundleId);
    SocialKeys(p, acquiredAt, validUntil, matched, integrity, bundleId);
    var fields := SocialFields(p, acquiredAt, validUntil, matched, integrity, bundleId);
    PlainProper(fields[0].value);
    PlainProper(fields[1].value);
    PlainProper(fields[2].value);
    PlainProper(fields[3].value);
    PlainProper(fields[4].value);
    PlainProper(fields[5].value);
    ObjectProper(fields);
  }

  lemma PlainProper(v: Json)
    requires !v.JArr? && !v.JObj?
    ensures Proper(v)
  {}

  lemma ObjectProper(fields: seq<Field>)
    requires DistinctKeys(fields) && forall i :: 0 <= i < |fields| ==> Proper(fields[i].value)
    ensures Proper(JObj(fields))
  {}

  /** Social evidence stands for one post of one bundle, as it was read. */
  lemma SocialEvidenceInjective(p: Post, acquiredAt: Time, validUntil: Time, matched: seq<string>, integrity: seq<HardReason>, bundleId: string,
                                q: Post, acquiredAt': Time, validUntil': Time, matched': seq<string>, integrity': seq<HardReason>, bundleId': string)
    requires SocialEvidenceId(p, acquiredAt, validUntil, matched, integrity, bundleId)
             == SocialEvidenceId(q, acquiredAt', validUntil', matched', integrity', bundleId')
    ensures p.postIdHash == q.postIdHash && p.cluster == q.cluster && p.watch == q.watch
    ensures acquiredAt == acquiredAt' && validUntil == validUntil' && matched == matched' && integrity == integrity' && bundleId == bundleId'
  {
    hide Print, Proper, DistinctKeys, SameValue, Strings, HardJson, WatchJson, ProvenanceJson;
    var v, w := SocialFields(p, acquiredAt, validUntil, matched, integrity, bundleId),
      SocialFields(q, acquiredAt', validUntil', matched', integrity', bundleId');
    SocialProper(p, acquiredAt, validUntil, matched, integrity, bundleId);
    SocialProper(q, acquiredAt', validUntil', matched', integrity', bundleId');
    DigestInjective("rsi-attention-social-post-evidence-v1\0", JObj(v), JObj(w));
    SameFields(v, w, 2);
    SameFields(v, w, 3);
    SameFields(v, w, 4);
    SameFields(v, w, 5);
    SameFields(v, w, 6);
    SameFields(v, w, 7);
    SameFields(v, w, 8);
    SameFields(v, w, 9);
    SameNumbers(acquiredAt, acquiredAt');
    SameNumbers(validUntil, validUntil');
    SameTexts(p.postIdHash, q.postIdHash);
    SameTexts(p.cluster, q.cluster);
    SameStrings(matched, matched');
    SameHard(integrity, integrity');
    SameWatch(p.watch, q.watch);
    SameProvenance(bundleId, bundleId');
  }
}
