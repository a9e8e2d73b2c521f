/** The facts retained from earlier bundles and the invariant their schema states
    (packages/attention/src/schemas.ts:659-830, 997-1027). */
module AttentionFacts {
  import opened Hex
  import opened Order
  import opened Wrappers
  import opened Tables
  import opened Attention

  datatype Identity = Identity(collectionId: string, contracts: seq<string>)
  datatype Known = Known(identity: Identity, latestSlug: string)
  datatype Association = Association(slug: string, collectionId: string)
  datatype PriorRow = PriorRow(identity: Identity, slug: string, rank: int, evidenceId: string)
  datatype RankWindow = RankWindow(evidenceId: string, acquiredAt: Time, validUntil: Time, rows: seq<PriorRow>)
  datatype Binding = Binding(post: string, cluster: string)
  datatype Cluster = Cluster(cluster: string, firstSeenAt: Time)
  datatype Conflict = Conflict(cluster: string, firstSeenAt: Time, post: string)

  datatype Facts = Facts(
    head: Option<string>, window: Option<RankWindow>, latestX: Option<Time>, known: seq<Known>,
    associations: seq<Association>, bindings: seq<Binding>, clusters: seq<Cluster>, conflicts: seq<Conflict>)

  function KnownKey(k: Known): string { k.identity.collectionId }
  function AssociationKey(a: Association): string { a.slug + ['\0'] + a.collectionId }
  function BindingKey(b: Binding): string { b.post }
  function ClusterKey(c: Cluster): string { c.cluster }
  function ConflictKey(c: Conflict): string { c.cluster }

  const EMPTY_FACTS: Facts := Facts(None, None, None, [], [], [], [], [])

  /** The facts as the maps the assessor works on. */
  datatype View = View(
    known: map<string, Known>, associations: map<string, Association>, bindings: map<string, Binding>,
    clusters: map<string, Cluster>, conflicts: map<string, Conflict>)

  function ViewOf(f: Facts): View
  {
    View(Index(f.known, KnownKey), Index(f.associations, AssociationKey), Index(f.bindings, BindingKey),
         Index(f.clusters, ClusterKey), Index(f.conflicts, ConflictKey))
  }

  // ---------------------------------------------------------------- witness paths

  predicate Retained(v: View, cluster: string) { cluster in v.clusters || cluster in v.conflicts }

  /** `firstSeenByClusterId`. */
  function FirstSeen(v: View, cluster: string): Time
    requires Retained(v, cluster)
  {
    if cluster in v.conflicts then v.conflicts[cluster].firstSeenAt else v.clusters[cluster].firstSeenAt
  }

  /** From a conflicting cluster to the cluster its witness post is bound to, not seen later. */
  predicate WitnessStep(v: View, from: string, to: string)
  {
    && from in v.conflicts && v.conflicts[from].post in v.bindings
    && v.bindings[v.conflicts[from].post].cluster == to
    && Retained(v, to) && FirstSeen(v, from) >= FirstSeen(v, to)
  }

  ghost predicate Distinct(path: seq<string>)
  {
    forall i, j :: 0 <= i < j < |path| ==> path[i] != path[j]
  }

  ghost predicate WitnessSteps(v: View, path: seq<string>)
  {
    forall i :: 0 <= i < |path| - 1 ==> WitnessStep(v, path[i], path[i + 1])
  }

  /** A repeat-free witness path that first meets an ordinary cluster at its end. */
  ghost predicate WitnessPath(v: View, path: seq<string>)
  {
    && |path| >= 2 && Distinct(path) && WitnessSteps(v, path)
    && (forall i :: 1 <= i < |path| - 1 ==> path[i] !in v.clusters)
    && path[|path| - 1] in v.clusters
  }

  ghost predicate ReachesOrdinary(v: View, cluster: string)
  {
    exists path :: WitnessPath(v, path) && path[0] == cluster
  }

  /** A walk that has met no ordinary cluster yet is a prefix of every witness path. */
  lemma {:induction false} WalkIsPrefix(v: View, walk: seq<string>, path: seq<string>, n: nat)
    requires walk != [] && WitnessSteps(v, walk) && (forall i :: 1 <= i < |walk| ==> walk[i] !in v.clusters)
    requires WitnessPath(v, path) && path[0] == walk[0] && 1 <= n <= |walk|
    ensures |path| > n && path[..n] == walk[..n]
  {
    if n > 1 {
      WalkIsPrefix(v, walk, path, n - 1);
      assert path[n - 2] == path[..n - 1][n - 2] == walk[..n - 1][n - 2] == walk[n - 2];
      assert WitnessStep(v, walk[n - 2], walk[n - 1]) && WitnessStep(v, path[n - 2], path[n - 1]);
      assert path[..n] == path[..n - 1] + [path[n - 1]] && walk[..n] == walk[..n - 1] + [walk[n - 1]];
    }
  }

  /** The next cluster of any witness path is the one the walk moves to. */
  lemma NextOnPath(v: View, walk: seq<string>, path: seq<string>, next: string)
    requires walk != [] && WitnessSteps(v, walk) && (forall i :: 1 <= i < |walk| ==> walk[i] !in v.clusters)
    requires WitnessPath(v, path) && path[0] == walk[0]
    requires walk[|walk| - 1] in v.conflicts && v.conflicts[walk[|walk| - 1]].post in v.bindings
    requires next == v.bindings[v.conflicts[walk[|walk| - 1]].post].cluster
    ensures next !in walk && WitnessStep(v, walk[|walk| - 1], next)
    ensures next in v.clusters || (next in v.conflicts && v.conflicts[next].post in v.bindings)
  {
    var n := |walk|;
    WalkIsPrefix(v, walk, path, n);
    assert walk[..n] == walk;
    assert path[n - 1] == walk[n - 1];
    assert WitnessStep(v, path[n - 1], path[n]);
    if n < |path| - 1 { assert WitnessStep(v, path[n], path[n + 1]); }
  }

  /** `conflictChainReachesOrdinaryCluster`: terminates, and is true exactly when a witness path exists. */
  method ConflictChainReachesOrdinaryCluster(v: View, initial: string) returns (reaches: bool)
    requires initial in v.conflicts && v.conflicts[initial].post in v.bindings
    ensures reaches <==> ReachesOrdinary(v, initial)
  {
    hide WitnessPath, FirstSeen;
    var visited := {initial};
    ghost var walk := [initial];
    var descendantFirstSeen := FirstSeen(v, initial);
    var predecessor := v.bindings[v.conflicts[initial].post].cluster;
    while true
      invariant walk != [] && walk[0] == initial && Distinct(walk) && WitnessSteps(v, walk)
      invariant forall i :: 1 <= i < |walk| ==> walk[i] !in v.clusters
      invariant walk[|walk| - 1] in v.conflicts && v.conflicts[walk[|walk| - 1]].post in v.bindings
      invariant predecessor == v.bindings[v.conflicts[walk[|walk| - 1]].post].cluster
      invariant Retained(v, walk[|walk| - 1]) && descendantFirstSeen == FirstSeen(v, walk[|walk| - 1])
      invariant visited == set x | x in walk
      decreases v.clusters.Keys + v.conflicts.Keys - visited
    {
      ghost var last := walk[|walk| - 1];
      if predecessor in visited { NoPath(v, walk, predecessor); return false; }
      visited := visited + {predecessor};
      if !Retained(v, predecessor) { NoPath(v, walk, predecessor); return false; }
      var predecessorFirstSeen := FirstSeen(v, predecessor);
      if descendantFirstSeen < predecessorFirstSeen { NoPath(v, walk, predecessor); return false; }
      assert WitnessStep(v, last, predecessor);
      if predecessor in v.clusters { PathFound(v, walk + [predecessor]); return true; }
      if v.conflicts[predecessor].post !in v.bindings { NoPath(v, walk, predecessor); return false; }
      walk := walk + [predecessor];
      descendantFirstSeen := predecessorFirstSeen;
      predecessor := v.bindings[v.conflicts[predecessor].post].cluster;
    }
  }

  lemma PathFound(v: View, walk: seq<string>)
    requires |walk| >= 2 && Distinct(walk) && WitnessSteps(v, walk)
    requires (forall i :: 1 <= i < |walk| - 1 ==> walk[i] !in v.clusters) && walk[|walk| - 1] in v.clusters
    ensures ReachesOrdinary(v, walk[0])
  {
    assert WitnessPath(v, walk);
  }

  lemma NoPath(v: View, walk: seq<string>, next: string)
    requires walk != [] && WitnessSteps(v, walk) && (forall i :: 1 <= i < |walk| ==> walk[i] !in v.clusters)
    requires walk[|walk| - 1] in v.conflicts && v.conflicts[walk[|walk| - 1]].post in v.bindings
    requires next == v.bindings[v.conflicts[walk[|walk| - 1]].post].cluster
    requires !(next !in walk && Retained(v, next) && FirstSeen(v, walk[|walk| - 1]) >= FirstSeen(v, next)
               && (next in v.clusters || v.conflicts[next].post in v.bindings))
    ensures !ReachesOrdinary(v, walk[0])
  {
    if path :| WitnessPath(v, path) && path[0] == walk[0] {
      NextOnPath(v, walk, path, next);
    }
  }

  // ---------------------------------------------------------------- the schema's refinements

  ghost predicate AddressesOk(addresses: seq<string>)
  {
    && 1 <= |addresses| <= 16
    && (forall i :: 0 <= i < |addresses| ==> AddressOk(addresses[i]))
    && Increasing(addresses, Less)
  }

  ghost predicate IdentityOk(id: Identity)
  {
    AddressesOk(id.contracts) && id.collectionId == CollectionId(id.contracts)
  }

  ghost predicate TablesSorted(f: Facts)
  {
    && KeySorted(f.known, KnownKey) && KeySorted(f.associations, AssociationKey) && KeySorted(f.bindings, BindingKey)
    && KeySorted(f.clusters, ClusterKey) && KeySorted(f.conflicts, ConflictKey)
  }

  /** Each collection is what its identifier says, and every association is with a known collection. */
  ghost predicate CollectionsOk(v: View)
  {
    && (forall k :: k in v.known ==> IdentityOk(v.known[k].identity) && SlugOk(v.known[k].latestSlug))
    && (forall k :: k in v.associations ==> SlugOk(v.associations[k].slug) && v.associations[k].collectionId in v.known)
  }

  /** Cross-references between posts and clusters. */
  ghost predicate ReferencesOk(v: View)
  {
    && v.clusters.Keys !! v.conflicts.Keys
    && (forall p :: p in v.bindings ==> Retained(v, v.bindings[p].cluster))
    && (forall c :: c in v.clusters ==> exists p :: p in v.bindings && v.bindings[p].cluster == c)
  }

  /** Every conflicting cluster has a witness in another cluster and reaches an ordinary one. */
  ghost predicate ConflictsOk(v: View)
  {
    forall c :: c in v.conflicts ==>
      && v.conflicts[c].post in v.bindings && v.bindings[v.conflicts[c].post].cluster != c
      && ReachesOrdinary(v, c)
  }

  ghost predicate FirstSeenOk(v: View, latestX: Option<Time>)
  {
    && (forall c :: Retained(v, c) ==> SourceTime(FirstSeen(v, c), SOCIAL_VALIDITY))
    && (latestX.None? ==> v.bindings == map[] && v.clusters == map[] && v.conflicts == map[])
    && (latestX.Some? ==> SourceTime(latestX.value, SOCIAL_VALIDITY) && forall c :: Retained(v, c) ==> FirstSeen(v, c) <= latestX.value)
  }

  ghost predicate SocialFactsOk(v: View, latestX: Option<Time>)
  {
    ReferencesOk(v) && ConflictsOk(v) && FirstSeenOk(v, latestX)
  }

  ghost predicate WindowOk(window: Option<RankWindow>, v: View)
  {
    window.Some? ==>
      var w := window.value;
      && SourceTime(w.acquiredAt, MARKETPLACE_VALIDITY) && CanonicalTime(w.validUntil)
      && w.validUntil - w.acquiredAt == MARKETPLACE_VALIDITY
      && |w.rows| <= 10
      && (forall i :: 0 <= i < |w.rows| ==>
            IdentityOk(w.rows[i].identity) && SlugOk(w.rows[i].slug) && 1 <= w.rows[i].rank <= 10
            && w.rows[i].identity.collectionId in v.known)
      && (forall i, j :: 0 <= i < j < |w.rows| ==> w.rows[i].identity.collectionId != w.rows[j].identity.collectionId)
  }

  /** Posts and clusters are retained under the digests they came with. */
  ghost predicate HashesOk(v: View)
  {
    && (forall k :: k in v.bindings ==> HashOk(v.bindings[k].post) && HashOk(v.bindings[k].cluster))
    && (forall k :: k in v.clusters ==> HashOk(v.clusters[k].cluster))
    && (forall k :: k in v.conflicts ==> HashOk(v.conflicts[k].cluster) && HashOk(v.conflicts[k].post))
  }

  /** `RecordedAttentionFactsSchema`, all but the bound on how much is retained. */
  ghost predicate FactsOk(f: Facts)
  {
    && TablesSorted(f)
    && CollectionsOk(ViewOf(f)) && SocialFactsOk(ViewOf(f), f.latestX) && HashesOk(ViewOf(f)) && WindowOk(f.window, ViewOf(f))
  }

  function RetainedCount(f: Facts): int
  {
    |f.known| + |f.associations| + |f.bindings| + |f.clusters| + |f.conflicts|
  }

  predicate WithinCap(f: Facts) { RetainedCount(f) <= MAX_RETAINED_FACTS }

  lemma EmptyFactsOk()
    ensures FactsOk(EMPTY_FACTS) && WithinCap(EMPTY_FACTS)
  {}
}
