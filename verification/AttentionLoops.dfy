/** The passes of the assessor that update states and maps in loops
    (packages/attention/src/assess.ts:261-321, 343-522, 769-898), proved against their functions. */
module AttentionLoops {
  import opened Order
  import opened Wrappers
  import opened Tables
  import opened Attention
  import opened AttentionFacts
  import opened Assessor
  import opened AttentionRows

  // ---------------------------------------------------------------- sorting sets and tables

  method SortSet(s: set<string>) returns (r: seq<string>)
    ensures r == SortedStrings(s)
  {
    var listed: seq<string> := [];
    var rest := s;
    while rest != {}
      invariant rest <= s
      invariant forall x :: x in listed <==> x in s && x !in rest
      invariant forall i, j :: 0 <= i < j < |listed| ==> listed[i] != listed[j]
      decreases |rest|
    {
      var x :| x in rest;
      rest := rest - {x};
      listed := listed + [x];
    }
    r := Sort(listed, Less);
    forall i, j | 0 <= i < j < |listed| ensures Less(listed[i], listed[j]) || Less(listed[j], listed[i]) { LessTotal(listed[i], listed[j]); }
    LessOrder();
    SortIncreasing(listed, Less);
    SortMembers(listed, Less);
    SortedStringsUnique(s, r);
  }

  method TableOf<V(!new)>(m: map<string, V>) returns (r: seq<V>)
    ensures r == Table(m)
  {
    var keys := SortSet(m.Keys);
    r := [];
    for i := 0 to |keys|
      invariant |r| == i && forall j :: 0 <= j < i ==> keys[j] in m && r[j] == m[keys[j]]
    {
      assert keys[i] in m.Keys;
      r := r + [m[keys[i]]];
    }
    assert |Table(m)| == |keys|;
  }

  // ---------------------------------------------------------------- conflicts inside the window

  predicate HasBase(c: Candidate, address: string) { Contract(BASE_CHAIN_ID, address) in c.contracts }

  function OwnersOf(owners: map<string, set<nat>>, key: string): set<nat> { if key in owners then owners[key] else {} }

  function Holders(states: seq<State>, n: nat, address: string): set<nat>
    requires n <= |states|
  {
    set j: nat | j < n && HasBase(states[j].candidate, address)
  }

  function SlugHolders(states: seq<State>, n: nat, slug: string): set<nat>
    requires n <= |states|
  {
    set j: nat | j < n && states[j].candidate.slug == slug
  }

  /** Who owns each base-chain address, among the first states. */
  ghost predicate AddressesOwned(owners: map<string, set<nat>>, states: seq<State>, n: nat)
    requires n <= |states|
  {
    forall a :: OwnersOf(owners, a) == Holders(states, n, a)
  }

  ghost predicate SlugsOwned(owners: map<string, set<nat>>, states: seq<State>, n: nat)
    requires n <= |states|
  {
    forall slug :: OwnersOf(owners, slug) == SlugHolders(states, n, slug)
  }

  method OwnAddresses(owners0: map<string, set<nat>>, states: seq<State>, n: nat) returns (owners: map<string, set<nat>>)
    requires n < |states| && AddressesOwned(owners0, states, n)
    ensures AddressesOwned(owners, states, n + 1)
  {
    owners := owners0;
    var contracts := states[n].candidate.contracts;
    for k := 0 to |contracts|
      invariant forall a :: OwnersOf(owners, a) == OwnersOf(owners0, a) + (if Contract(BASE_CHAIN_ID, a) in contracts[..k] then {n} else {})
    {
      assert contracts[..k + 1] == contracts[..k] + [contracts[k]];
      if contracts[k].chainId == BASE_CHAIN_ID {
        var address := contracts[k].address;
        assert contracts[k] == Contract(BASE_CHAIN_ID, address);
        owners := owners[address := OwnersOf(owners, address) + {n}];
      }
    }
    assert contracts[..|contracts|] == contracts;
    forall a ensures OwnersOf(owners, a) == Holders(states, n + 1, a) {
      assert OwnersOf(owners0, a) == Holders(states, n, a);
    }
  }

  method OwnSlug(owners0: map<string, set<nat>>, states: seq<State>, n: nat) returns (owners: map<string, set<nat>>)
    requires n < |states| && SlugsOwned(owners0, states, n)
    ensures SlugsOwned(owners, states, n + 1)
  {
    var slug := states[n].candidate.slug;
    owners := owners0[slug := OwnersOf(owners0, slug) + {n}];
    forall s ensures OwnersOf(owners, s) == SlugHolders(states, n + 1, s) {
      assert OwnersOf(owners0, s) == SlugHolders(states, n, s);
    }
  }

  /** Adds a reason to some of the states. */
  function Marked(states: seq<State>, marks: set<nat>, reason: HardReason): (r: seq<State>)
    ensures |r| == |states|
  {
    seq(|states|, i requires 0 <= i < |states| => if i in marks then states[i].(hard := states[i].hard + {reason}) else states[i])
  }

  lemma MarkedMore(states: seq<State>, marks: set<nat>, j: nat, reason: HardReason)
    requires j < |states|
    ensures Marked(states, marks, reason)[j := Marked(states, marks, reason)[j].(hard := Marked(states, marks, reason)[j].hard + {reason})]
            == Marked(states, marks + {j}, reason)
  {}

  method MarkAll(states: array<State>, owners: set<nat>, reason: HardReason, ghost before: seq<State>, ghost marks: set<nat>)
    requires (forall j :: j in owners ==> j < states.Length) && |before| == states.Length && states[..] == Marked(before, marks, reason)
    modifies states
    ensures states[..] == Marked(before, marks + owners, reason)
  {
    var rest := owners;
    ghost var done: set<nat> := {};
    assert marks + done == marks;
    while rest != {}
      invariant rest <= owners && done == owners - rest && states[..] == Marked(before, marks + done, reason)
      decreases |rest|
    {
      var j :| j in rest;
      assert states[j] == states[..][j];
      MarkedMore(before, marks + done, j, reason);
      states[j] := states[j].(hard := states[j].hard + {reason});
      rest, done := rest - {j}, done + {j};
      assert marks + done == (marks + (done - {j})) + {j};
    }
    assert done == owners;
  }

  /** The owners that conflict over some key among those seen. */
  ghost predicate ConflictsOver(owners: map<string, set<nat>>, keys: set<string>, conflict: set<nat> -> bool, marks: set<nat>)
  {
    forall j: nat :: j in marks <==> exists a :: a in keys && a in owners && conflict(owners[a]) && j in owners[a]
  }

  lemma ConflictsOverMore(owners: map<string, set<nat>>, keys: set<string>, conflict: set<nat> -> bool, marks: set<nat>, a: string)
    requires ConflictsOver(owners, keys, conflict, marks) && a in owners
    ensures ConflictsOver(owners, keys + {a}, conflict, if conflict(owners[a]) then marks + owners[a] else marks)
  {}

  /** Marks every owner of a key that more than one party claims. */
  method MarkConflicts(states: array<State>, owners: map<string, set<nat>>, conflict: set<nat> -> bool, reason: HardReason, ghost before: seq<State>)
      returns (ghost marks: set<nat>)
    requires forall a, j :: a in owners && j in owners[a] ==> j < states.Length
    requires |before| == states.Length && states[..] == before
    modifies states
    ensures ConflictsOver(owners, owners.Keys, conflict, marks) && states[..] == Marked(before, marks, reason)
  {
    var rest := owners.Keys;
    marks := {};
    ghost var seen: set<string> := {};
    while rest != {}
      invariant rest <= owners.Keys && seen == owners.Keys - rest
      invariant ConflictsOver(owners, seen, conflict, marks) && states[..] == Marked(before, marks, reason)
      decreases |rest|
    {
      var a :| a in rest;
      rest := rest - {a};
      ConflictsOverMore(owners, seen, conflict, marks, a);
      if conflict(owners[a]) {
        MarkAll(states, owners[a], reason, before, marks);
        marks := marks + owners[a];
      }
      seen := seen + {a};
    }
    assert seen == owners.Keys;
  }

  predicate Several(owners: set<nat>) { |owners| >= 2 }

  function KeysOf(states: seq<State>, owners: set<nat>): set<string>
  {
    set j | j in owners && j < |states| :: IdentityKey(states[j])
  }

  lemma TwoMembers<T>(s: set<T>, x: T)
    requires x in s
    ensures |s| >= 2 <==> exists y :: y in s && y != x
  {
    var others := s - {x};
    assert s == others + {x};
    if y :| y in s && y != x { assert y in others; }
    if |s| >= 2 {
      assert |others| >= 1;
      var y := Pick(others);
      assert y in s && y != x;
    }
  }

  lemma OverlapMarks(states: seq<State>, owners: map<string, set<nat>>, marks: set<nat>, i: nat)
    requires AddressesOwned(owners, states, |states|) && ConflictsOver(owners, owners.Keys, Several, marks) && i < |states|
    ensures i in marks <==> Overlapped(states, i)
  {
    if i in marks {
      var a :| a in owners && Several(owners[a]) && i in owners[a];
      TwoMembers(owners[a], i);
      var j :| j in owners[a] && j != i;
      assert OwnersOf(owners, a) == Holders(states, |states|, a);
      assert j in Holders(states, |states|, a) && i in Holders(states, |states|, a);
      var k :| 0 <= k < |states[i].candidate.contracts| && states[i].candidate.contracts[k] == Contract(BASE_CHAIN_ID, a);
      var l :| 0 <= l < |states[j].candidate.contracts| && states[j].candidate.contracts[l] == Contract(BASE_CHAIN_ID, a);
      assert SharesBaseAddress(states[i].candidate, states[j].candidate);
    }
    if Overlapped(states, i) {
      var j :| 0 <= j < |states| && j != i && SharesBaseAddress(states[i].candidate, states[j].candidate);
      var k, l :| 0 <= k < |states[i].candidate.contracts| && 0 <= l < |states[j].candidate.contracts|
                  && states[i].candidate.contracts[k].chainId == BASE_CHAIN_ID && states[i].candidate.contracts[k] == states[j].candidate.contracts[l];
      var a := states[i].candidate.contracts[k].address;
      assert states[i].candidate.contracts[k] == Contract(BASE_CHAIN_ID, a);
      assert HasBase(states[i].candidate, a) && HasBase(states[j].candidate, a);
      assert OwnersOf(owners, a) == Holders(states, |states|, a);
      assert i in Holders(states, |states|, a) && j in Holders(states, |states|, a);
      TwoMembers(owners[a], i);
    }
  }

  lemma ReboundMarks(states: seq<State>, owners: map<string, set<nat>>, conflict: set<nat> -> bool, marks: set<nat>, i: nat)
    requires SlugsOwned(owners, states, |states|) && ConflictsOver(owners, owners.Keys, conflict, marks) && i < |states|
    requires forall s :: conflict(s) == (|KeysOf(states, s)| >= 2)
    ensures i in marks <==> Rebound(states, i)
  {
    hide IdentityKey;
    var slug := states[i].candidate.slug;
    assert OwnersOf(owners, slug) == SlugHolders(states, |states|, slug);
    assert i in SlugHolders(states, |states|, slug);
    var keys := KeysOf(states, owners[slug]);
    assert IdentityKey(states[i]) in keys;
    TwoMembers(keys, IdentityKey(states[i]));
    if i in marks {
      var a :| a in owners && conflict(owners[a]) && i in owners[a];
      assert OwnersOf(owners, a) == SlugHolders(states, |states|, a);
      assert i in SlugHolders(states, |states|, a);
      var key :| key in keys && key != IdentityKey(states[i]);
      var j :| j in owners[slug] && j < |states| && IdentityKey(states[j]) == key;
      assert j in SlugHolders(states, |states|, slug);
    }
    if Rebound(states, i) {
      var j :| 0 <= j < |states| && states[j].candidate.slug == slug && IdentityKey(states[j]) != IdentityKey(states[i]);
      assert j in SlugHolders(states, |states|, slug);
      assert IdentityKey(states[j]) in keys;
    }
  }

  lemma MarkedTwice(before: seq<State>, overlaps: set<nat>, rebounds: set<nat>)
    requires forall i: nat :: i < |before| ==> (i in overlaps <==> Overlapped(before, i)) && (i in rebounds <==> Rebound(before, i))
    ensures Marked(Marked(before, overlaps, OverlappingContractGroups), rebounds, SlugRebound) == WithCurrentConflicts(before)
  {
    hide Overlapped, Rebound;
    var after := Marked(Marked(before, overlaps, OverlappingContractGroups), rebounds, SlugRebound);
    forall i | 0 <= i < |before| ensures after[i] == WithCurrentConflicts(before)[i] {
      var hard := before[i].hard;
      assert hard + {} + {} == hard && hard + {OverlappingContractGroups} + {} == hard + {OverlappingContractGroups};
      assert hard + ({} + {}) == hard && hard + ({OverlappingContractGroups} + {}) == hard + {OverlappingContractGroups};
      assert hard + ({} + {SlugRebound}) == hard + {SlugRebound};
      assert hard + ({OverlappingContractGroups} + {SlugRebound}) == hard + {OverlappingContractGroups} + {SlugRebound};
    }
  }

  /** `applyCurrentIdentityConflicts`. */
  method ApplyCurrentIdentityConflicts(states: array<State>)
    modifies states
    ensures states[..] == WithCurrentConflicts(old(states[..]))
  {
    hide Overlapped, Rebound, WithCurrentConflicts, HasBase, IdentityKey;
    var before := states[..];
    var addressOwners: map<string, set<nat>> := map[];
    var slugOwners: map<string, set<nat>> := map[];
    for i := 0 to states.Length
      invariant states[..] == before && AddressesOwned(addressOwners, before, i) && SlugsOwned(slugOwners, before, i)
    {
      addressOwners := OwnAddresses(addressOwners, before, i);
      slugOwners := OwnSlug(slugOwners, before, i);
    }
    OwnersInRange(addressOwners, slugOwners, before);
    ghost var overlaps := MarkConflicts(states, addressOwners, Several, OverlappingContractGroups, before);
    ghost var middle := states[..];
    var severalKeys := (owners: set<nat>) => |KeysOf(before, owners)| >= 2;
    ghost var rebounds := MarkConflicts(states, slugOwners, severalKeys, SlugRebound, middle);
    forall i: nat | i < |before| ensures (i in overlaps <==> Overlapped(before, i)) && (i in rebounds <==> Rebound(before, i)) {
      OverlapMarks(before, addressOwners, overlaps, i);
      ReboundMarks(before, slugOwners, severalKeys, rebounds, i);
    }
    MarkedTwice(before, overlaps, rebounds);
  }

  lemma OwnersInRange(addressOwners: map<string, set<nat>>, slugOwners: map<string, set<nat>>, states: seq<State>)
    requires AddressesOwned(addressOwners, states, |states|) && SlugsOwned(slugOwners, states, |states|)
    ensures forall a, j :: a in addressOwners && j in addressOwners[a] ==> j < |states|
    ensures forall a, j :: a in slugOwners && j in slugOwners[a] ==> j < |states|
  {
    forall a, j | a in addressOwners && j in addressOwners[a] ensures j < |states| { assert OwnersOf(addressOwners, a) == Holders(states, |states|, a); }
    forall a, j | a in slugOwners && j in slugOwners[a] ensures j < |states| { assert OwnersOf(slugOwners, a) == SlugHolders(states, |states|, a); }
  }

  // ---------------------------------------------------------------- conflicts with earlier facts

  /** The collections each slug has been associated with. */
  ghost predicate SlugAssociated(bySlug: map<string, set<string>>, associations: seq<Association>, n: nat)
    requires n <= |associations|
  {
    forall slug :: (if slug in bySlug then bySlug[slug] else {}) == AssociatedIds(associations, n, slug)
  }

  function AssociatedIds(associations: seq<Association>, n: nat, slug: string): set<string>
    requires n <= |associations|
  {
    set i | 0 <= i < n && associations[i].slug == slug :: associations[i].collectionId
  }

  lemma AssociatedMore(associations: seq<Association>, n: nat, slug: string)
    requires n < |associations|
    ensures AssociatedIds(associations, n + 1, slug)
            == AssociatedIds(associations, n, slug) + (if associations[n].slug == slug then {associations[n].collectionId} else {})
  {}

  lemma SlugMovedMeans(id: Identity, slug: string, associations: seq<Association>)
    ensures SlugMoved(id, slug, associations) <==>
              AssociatedIds(associations, |associations|, slug) != {} && id.collectionId !in AssociatedIds(associations, |associations|, slug)
  {
    var ids := AssociatedIds(associations, |associations|, slug);
    if i :| 0 <= i < |associations| && associations[i].slug == slug { assert associations[i].collectionId in ids; }
    if ids != {} { assert Pick(ids) in ids; }
  }

  method HistoricallyContinued(id: Identity, known: seq<Known>) returns (continued: bool)
    ensures continued <==> Continued(id, known)
  {
    hide ContractsOverlap;
    continued := true;
    for k := 0 to |known|
      invariant continued <==> forall i :: 0 <= i < k ==> known[i].identity.collectionId == id.collectionId || !ContractsOverlap(known[i].identity, id)
    {
      if known[k].identity.collectionId != id.collectionId {
        var overlap := Overlap(known[k].identity, id);
        if overlap { continued := false; }
      }
    }
  }

  /** `contractsOverlap`. */
  method Overlap(left: Identity, right: Identity) returns (overlap: bool)
    ensures overlap <==> ContractsOverlap(left, right)
  {
    for i := 0 to |right.contracts|
      invariant forall j :: 0 <= j < i ==> right.contracts[j] !in left.contracts
    {
      if right.contracts[i] in left.contracts {
        assert right.contracts[i] in right.contracts;
        return true;
      }
    }
    overlap := false;
  }

  method ReviewHistory(s: State, facts: Facts, bySlug: map<string, set<string>>) returns (t: State)
    requires SlugAssociated(bySlug, facts.associations, |facts.associations|)
    ensures t == WithHistory(s, facts)
  {
    hide Continued, SlugMoved, Renamed, SlugAssociated;
    t := s;
    if s.identity.Some? {
      var id, slug := s.identity.value, s.candidate.slug;
      if Renamed(id, slug, facts.known) { t := t.(notes := t.notes + {SlugChanged}); }
      var continued := HistoricallyContinued(id, facts.known);
      if !continued { t := t.(hard := t.hard + {IdentityContinuityConflict}); }
      var moved := AssociatedWith(bySlug, facts.associations, slug, id);
      if moved { t := t.(watch := t.watch + {IdentityChanged}); }
      assert s.notes + {} == s.notes && s.hard + {} == s.hard && s.watch + {} == s.watch;
    }
  }

  /** `applyHistoricalIdentityFacts`. */
  method ApplyHistoricalIdentityFacts(states: array<State>, facts: Facts)
    modifies states
    ensures states[..] == WithHistories(old(states[..]), facts)
  {
    hide WithHistory, SlugAssociated;
    var bySlug := AssociateSlugs(facts.associations);
    for i := 0 to states.Length
      invariant forall j :: 0 <= j < i ==> states[j] == WithHistory(old(states[j]), facts)
      invariant forall j :: i <= j < states.Length ==> states[j] == old(states[j])
    {
      states[i] := ReviewHistory(states[i], facts, bySlug);
    }
  }

  method AssociateSlugs(associations: seq<Association>) returns (bySlug: map<string, set<string>>)
    ensures SlugAssociated(bySlug, associations, |associations|)
  {
    bySlug := map[];
    for i := 0 to |associations|
      invariant SlugAssociated(bySlug, associations, i)
    {
      var a := associations[i];
      ghost var earlier := bySlug;
      bySlug := bySlug[a.slug := (if a.slug in bySlug then bySlug[a.slug] else {}) + {a.collectionId}];
      forall slug ensures (if slug in bySlug then bySlug[slug] else {}) == AssociatedIds(associations, i + 1, slug) {
        AssociatedMore(associations, i, slug);
        assert (if slug in earlier then earlier[slug] else {}) == AssociatedIds(associations, i, slug);
      }
    }
  }

  method AssociatedWith(bySlug: map<string, set<string>>, associations: seq<Association>, slug: string, id: Identity) returns (moved: bool)
    requires SlugAssociated(bySlug, associations, |associations|)
    ensures moved == SlugMoved(id, slug, associations)
  {
    SlugMovedMeans(id, slug, associations);
    assert (if slug in bySlug then bySlug[slug] else {}) == AssociatedIds(associations, |associations|, slug);
    moved := slug in bySlug && bySlug[slug] != {} && id.collectionId !in bySlug[slug];
  }

  // ---------------------------------------------------------------- the social pass

  /** The last candidate of each collection. */
  ghost predicate CurrentById(current: map<string, nat>, states: seq<State>, n: nat)
    requires n <= |states|
  {
    && (forall id :: id in current ==> current[id] < n && HasId(states[current[id]], id))
    && (forall j: nat :: j < n && states[j].identity.Some? ==>
          states[j].identity.value.collectionId in current && j <= current[states[j].identity.value.collectionId])
  }

  predicate HasId(s: State, id: string) { s.identity.Some? && s.identity.value.collectionId == id }

  method IndexCurrent(states: seq<State>) returns (current: map<string, nat>)
    ensures CurrentById(current, states, |states|)
  {
    current := map[];
    for i := 0 to |states|
      invariant CurrentById(current, states, i)
    {
      if states[i].identity.Some? { current := current[states[i].identity.value.collectionId := i]; }
    }
  }

  lemma CurrentMeans(current: map<string, nat>, states: seq<State>, i: nat)
    requires CurrentById(current, states, |states|) && i < |states| && states[i].identity.Some?
    ensures IsCurrent(states, i) <==> current[states[i].identity.value.collectionId] == i
  {
    var id := states[i].identity.value.collectionId;
    var last := current[id];
    assert HasId(states[last], id);
    if !IsCurrent(states, i) {
      var j :| i < j < |states| && states[j].identity.Some? && states[j].identity.value.collectionId == id;
    }
  }

  /** Which collections own each address. */
  ghost predicate AddressIds(owners: map<string, set<string>>, states: seq<State>, n: nat)
    requires n <= |states|
  {
    forall a :: (if a in owners then owners[a] else {}) == IdsOwning(states, n, a)
  }

  function IdsOwning(states: seq<State>, n: nat, address: string): set<string>
    requires n <= |states|
  {
    set i | 0 <= i < n && Owns(states[i], address) :: states[i].identity.value.collectionId
  }

  lemma IdsOwningMore(states: seq<State>, n: nat, address: string)
    requires n < |states|
    ensures IdsOwning(states, n + 1, address)
            == IdsOwning(states, n, address) + (if Owns(states[n], address) then {states[n].identity.value.collectionId} else {})
  {}

  method IndexAddresses(states: seq<State>) returns (owners: map<string, set<string>>)
    ensures AddressIds(owners, states, |states|)
  {
    owners := map[];
    for i := 0 to |states|
      invariant AddressIds(owners, states, i)
    {
      if states[i].identity.Some? {
        owners := AddOwner(owners, states, i);
      } else {
        forall a ensures (if a in owners then owners[a] else {}) == IdsOwning(states, i + 1, a) { IdsOwningMore(states, i, a); }
      }
    }
  }

  method AddOwner(owners0: map<string, set<string>>, states: seq<State>, n: nat) returns (owners: map<string, set<string>>)
    requires n < |states| && states[n].identity.Some? && AddressIds(owners0, states, n)
    ensures AddressIds(owners, states, n + 1)
  {
    owners := owners0;
    var id := states[n].identity.value;
    for k := 0 to |id.contracts|
      invariant forall a :: (if a in owners then owners[a] else {})
                            == (if a in owners0 then owners0[a] else {}) + (if a in id.contracts[..k] then {id.collectionId} else {})
    {
      var address := id.contracts[k];
      assert id.contracts[..k + 1] == id.contracts[..k] + [address];
      owners := owners[address := (if address in owners then owners[address] else {}) + {id.collectionId}];
    }
    assert id.contracts[..|id.contracts|] == id.contracts;
    forall a ensures (if a in owners then owners[a] else {}) == IdsOwning(states, n + 1, a) {
      IdsOwningMore(states, n, a);
      assert (if a in owners0 then owners0[a] else {}) == IdsOwning(states, n, a);
    }
  }

  /** The collections a post mentions, and whether it mentions an address nobody owns. */
  method MatchPost(p: Post, owners: map<string, set<string>>, states: seq<State>) returns (matched: set<string>, unknown: bool)
    requires AddressIds(owners, states, |states|)
    ensures matched == MatchedIds(p, states) && unknown == HasUnknown(p, states)
  {
    matched, unknown := {}, false;
    for k := 0 to |p.mentioned|
      invariant matched == IdsMentioned(p, states, k)
      invariant unknown <==> exists a :: 0 <= a < k && NobodyOwns(states, p.mentioned[a])
    {
      var address := p.mentioned[k];
      OwnersMean(owners, states, address);
      MentionedMore(p, states, k);
      if address !in owners || owners[address] == {} {
        unknown := true;
      } else {
        matched := matched + owners[address];
      }
    }
    MentionedAll(p, states);
  }

  predicate NobodyOwns(states: seq<State>, address: string) { forall i :: 0 <= i < |states| ==> !Owns(states[i], address) }

  ghost function IdsMentioned(p: Post, states: seq<State>, n: nat): set<string>
    requires n <= |p.mentioned|
  {
    set k, id | 0 <= k < n && id in IdsOwning(states, |states|, p.mentioned[k]) :: id
  }

  lemma OwnersMean(owners: map<string, set<string>>, states: seq<State>, address: string)
    requires AddressIds(owners, states, |states|)
    ensures (if address in owners then owners[address] else {}) == IdsOwning(states, |states|, address)
    ensures IdsOwning(states, |states|, address) == {} <==> NobodyOwns(states, address)
  {
    if !NobodyOwns(states, address) {
      var i :| 0 <= i < |states| && Owns(states[i], address);
      assert states[i].identity.value.collectionId in IdsOwning(states, |states|, address);
    }
  }

  lemma MentionedMore(p: Post, states: seq<State>, n: nat)
    requires n < |p.mentioned|
    ensures IdsMentioned(p, states, n + 1) == IdsMentioned(p, states, n) + IdsOwning(states, |states|, p.mentioned[n])
  {
    hide IdsOwning;
    forall id ensures id in IdsMentioned(p, states, n + 1) <==> id in IdsMentioned(p, states, n) + IdsOwning(states, |states|, p.mentioned[n]) {}
  }

  lemma MentionedAll(p: Post, states: seq<State>)
    ensures IdsMentioned(p, states, |p.mentioned|) == MatchedIds(p, states)
    ensures HasUnknown(p, states) <==> exists a :: 0 <= a < |p.mentioned| && NobodyOwns(states, p.mentioned[a])
  {
    forall id ensures id in IdsMentioned(p, states, |p.mentioned|) <==> id in MatchedIds(p, states) {
      if id in IdsMentioned(p, states, |p.mentioned|) {
        var k :| 0 <= k < |p.mentioned| && id in IdsOwning(states, |states|, p.mentioned[k]);
        var i :| 0 <= i < |states| && Owns(states[i], p.mentioned[k]) && states[i].identity.value.collectionId == id;
        assert p.mentioned[k] in p.mentioned;
        assert Mentions(p, states[i]);
      }
      if id in MatchedIds(p, states) {
        var i :| 0 <= i < |states| && Mentions(p, states[i]) && states[i].identity.value.collectionId == id;
        var a :| a in p.mentioned && a in states[i].identity.value.contracts;
        var k :| 0 <= k < |p.mentioned| && p.mentioned[k] == a;
        assert Owns(states[i], p.mentioned[k]);
        assert id in IdsOwning(states, |states|, p.mentioned[k]);
      }
    }
    if HasUnknown(p, states) {
      var a :| 0 <= a < |p.mentioned| && forall i :: 0 <= i < |states| ==> !Owns(states[i], p.mentioned[a]);
      assert NobodyOwns(states, p.mentioned[a]);
    }
    if a :| 0 <= a < |p.mentioned| && NobodyOwns(states, p.mentioned[a]) {
      assert forall i :: 0 <= i < |states| ==> !Owns(states[i], p.mentioned[a]);
    }
  }

  /** How one post of the window is read. */
  method ReadPost(p: Post, x: XSource, states: seq<State>, owners: map<string, set<string>>, facts: Facts, at: Time, bundleId: string)
      returns (s: Social)
    requires x.RecordedPosts? && AddressIds(owners, states, |states|)
    ensures s == SocialOf(p, x, states, facts, at, bundleId)
  {
    hide MatchedIds, HasUnknown, AddressIds, SocialFrom, ViewOf, Conflicting, FirstSeenAt, Regressing;
    var matchedIds, unknown := MatchPost(p, owners, states);
    var matched := SortSet(matchedIds);
    var v := ViewOf(facts);
    var conflict := Conflicting(p, v);
    var firstSeenAt := FirstSeenAt(p, v, x.acquiredAt);
    s := SocialFrom(p, x.acquiredAt, matched, unknown, conflict, Regressing(x, facts), x.acquiredAt > at, firstSeenAt, bundleId);
  }

  /** The states after the first posts. */
  ghost function Absorbed(before: seq<State>, i: nat, socials: seq<Social>, at: Time): State
    requires i < |before|
  {
    if before[i].identity.Some? && IsCurrent(before, i) then AbsorbAll(before[i], socials, at) else before[i]
  }

  /** Adds one post to every current state it matches. */
  method AbsorbPost(states: array<State>, s: Social, current: map<string, nat>, ghost before: seq<State>, ghost socials: seq<Social>, at: Time)
    requires |before| == states.Length && CurrentById(current, before, |before|)
    requires forall i :: 0 <= i < states.Length ==> states[i] == Absorbed(before, i, socials, at)
    modifies states
    ensures forall i :: 0 <= i < states.Length ==> states[i] == Absorbed(before, i, socials + [s], at)
  {
    hide Absorb, AbsorbAll, IsCurrent, CurrentById;
    for i := 0 to states.Length
      invariant forall j :: 0 <= j < i ==> states[j] == Absorbed(before, j, socials + [s], at)
      invariant forall j :: i <= j < states.Length ==> states[j] == Absorbed(before, j, socials, at)
    {
      AbsorbedMore(before, i, socials, s, at);
      if states[i].identity.Some? {
        CurrentMeans(current, before, i);
        CurrentHas(current, before, i);
        if current[states[i].identity.value.collectionId] == i { states[i] := Absorb(states[i], s, at); }
      }
    }
  }

  lemma CurrentHas(current: map<string, nat>, states: seq<State>, i: nat)
    requires CurrentById(current, states, |states|) && i < |states| && states[i].identity.Some?
    ensures states[i].identity.value.collectionId in current
  {}

  lemma AbsorbedMore(before: seq<State>, i: nat, socials: seq<Social>, s: Social, at: Time)
    requires i < |before|
    ensures Absorbed(before, i, socials, at).identity == before[i].identity
    ensures Absorbed(before, i, socials + [s], at)
            == if before[i].identity.Some? && IsCurrent(before, i) then Absorb(Absorbed(before, i, socials, at), s, at) else Absorbed(before, i, socials, at)
  {
    hide Absorb;
    assert (socials + [s])[..|socials|] == socials;
  }

  lemma ClustersMore(socials: seq<Social>, s: Social, at: Time)
    ensures UsableClusters(socials + [s], at)
            == UsableClusters(socials, at) + (if s.attributable.Some? && UsablePost(s, at) then {s.post.cluster} else {})
  {
    hide UsablePost;
    var all := socials + [s];
    forall c ensures c in UsableClusters(all, at) <==>
                     c in UsableClusters(socials, at) + (if s.attributable.Some? && UsablePost(s, at) then {s.post.cluster} else {}) {
      if i :| 0 <= i < |socials| && socials[i].attributable.Some? && UsablePost(socials[i], at) && socials[i].post.cluster == c {
        assert all[i] == socials[i];
      }
      assert all[|socials|] == s;
    }
  }

  ghost function Expiries(socials: seq<Social>): set<Time> { set i | 0 <= i < |socials| :: socials[i].validUntil }

  lemma ExpiriesMore(socials: seq<Social>, s: Social)
    ensures Expiries(socials + [s]) == Expiries(socials) + {s.validUntil}
  {
    var all := socials + [s];
    forall t ensures t in Expiries(all) <==> t in Expiries(socials) + {s.validUntil} {
      if i :| 0 <= i < |socials| && socials[i].validUntil == t { assert all[i] == socials[i]; }
      assert all[|socials|] == s;
    }
  }

  lemma EarliestMore(limit: Time, times: set<Time>, t: Time)
    ensures Earliest(limit, times + {t}) == Min(Earliest(limit, times), t)
  {
    var (m, n) := (Earliest(limit, times), Earliest(limit, times + {t}));
    assert t in times + {t} && times <= times + {t};
  }

  /** What is reported about the posts read so far. */
  ghost predicate Reported(diagnostics: seq<Diagnostic>, freshClusters: set<string>, expiry: Time, socials: seq<Social>, limit: Time,
                           at: Time, bundleId: string)
  {
    && diagnostics == SocialDiagnostics(socials, bundleId)
    && freshClusters == UsableClusters(socials, at)
    && expiry == Earliest(limit, Expiries(socials))
  }

  /** Reports on one more post: its cluster and expiry, and a diagnostic when it mentions no collection. */
  method Report(diagnostics0: seq<Diagnostic>, freshClusters0: set<string>, expiry0: Time, s: Social, at: Time, bundleId: string,
                ghost socials: seq<Social>, ghost limit: Time)
      returns (diagnostics: seq<Diagnostic>, freshClusters: set<string>, expiry: Time)
    requires Reported(diagnostics0, freshClusters0, expiry0, socials, limit, at, bundleId)
    ensures Reported(diagnostics, freshClusters, expiry, socials + [s], limit, at, bundleId)
  {
    hide SocialDiagnosticId, UsablePost, UsableClusters, Earliest, Expiries;
    assert (socials + [s])[..|socials|] == socials;
    diagnostics, freshClusters := diagnostics0, freshClusters0;
    expiry := Min(expiry0, s.validUntil);
    ExpiriesMore(socials, s);
    EarliestMore(limit, Expiries(socials), s.validUntil);
    ClustersMore(socials, s, at);
    if s.attributable.Some? && UsablePost(s, at) { freshClusters := freshClusters + {s.post.cluster}; }
    if |s.matched| == 0 {
      var code := if s.conflict || |s.post.hard| > 0 then HostileUnboundSocial else UnboundSocial;
      diagnostics := diagnostics + [Diagnostic(SocialDiagnosticId(bundleId, s.post, code), code)];
    }
  }

  /** `analyzeSocial`: reads every post, then remarks on every resolved state. */
  method AnalyzeSocial(x: XSource, states: array<State>, facts: Facts, at: Time, bundleId: string)
      returns (socials: seq<Social>, diagnostics: seq<Diagnostic>, summary: XSummary)
    modifies states
    ensures socials == Socials(x, old(states[..]), facts, at, bundleId)
    ensures states[..] == WithSocials(old(states[..]), x, socials, at)
    ensures diagnostics == SocialDiagnostics(socials, bundleId)
    ensures summary == SummaryFrom(x, socials, at)
  {
    hide Remark, AbsorbAll, IsCurrent, SocialOf, AddressIds, CurrentById, SocialDiagnostics, SummaryFrom, Reported;
    NothingRead(x, at, bundleId);
    diagnostics, summary := [], XIsAbsent;
    ghost var before := states[..];
    socials := [];
    if x.XAbsent? {
      for i := 0 to states.Length
        invariant forall j :: 0 <= j < i ==> states[j] == WithSocial(before, j, x, [], at)
        invariant forall j :: i <= j < states.Length ==> states[j] == before[j]
      {
        states[i] := states[i].(watch := states[i].watch + {MissingX});
      }
    } else {
      var initial := states[..];
      var current := IndexCurrent(initial);
      var owners := IndexAddresses(initial);
      var freshClusters, expiry := {}, x.acquiredAt + SOCIAL_VALIDITY;
      forall i | 0 <= i < states.Length ensures states[i] == Absorbed(before, i, [], at) { AbsorbedNone(before, i, at); }
      for k := 0 to |x.posts|
        invariant |socials| == k && forall j :: 0 <= j < k ==> socials[j] == SocialOf(x.posts[j], x, before, facts, at, bundleId)
        invariant forall i :: 0 <= i < states.Length ==> states[i] == Absorbed(before, i, socials, at)
        invariant Reported(diagnostics, freshClusters, expiry, socials, x.acquiredAt + SOCIAL_VALIDITY, at, bundleId)
      {
        var s := ReadPost(x.posts[k], x, initial, owners, facts, at, bundleId);
        AbsorbPost(states, s, current, before, socials, at);
        diagnostics, freshClusters, expiry :=
          Report(diagnostics, freshClusters, expiry, s, at, bundleId, socials, x.acquiredAt + SOCIAL_VALIDITY);
        socials := socials + [s];
      }
      for i := 0 to states.Length
        invariant forall j :: 0 <= j < i ==> states[j] == WithSocial(before, j, x, socials, at)
        invariant forall j :: i <= j < states.Length ==> states[j] == Absorbed(before, j, socials, at)
      {
        AbsorbedIdentity(before, i, socials, at);
        if states[i].identity.Some? { states[i] := Remark(states[i]); }
      }
      summary := XObserved(x.acquiredAt, expiry, |x.posts|, |freshClusters|, x.hasNextPage);
      SummaryIs(x, diagnostics, freshClusters, expiry, socials, at, bundleId);
    }
  }

  lemma NothingRead(x: XSource, at: Time, bundleId: string)
    ensures forall limit: Time :: Reported([], {}, limit, [], limit, at, bundleId)
    ensures SocialDiagnostics([], bundleId) == []
    ensures x.XAbsent? ==> SummaryFrom(x, [], at) == XIsAbsent
  {}

  lemma SummaryIs(x: XSource, diagnostics: seq<Diagnostic>, freshClusters: set<string>, expiry: Time, socials: seq<Social>, at: Time,
                  bundleId: string)
    requires x.RecordedPosts? && Reported(diagnostics, freshClusters, expiry, socials, x.acquiredAt + SOCIAL_VALIDITY, at, bundleId)
    ensures diagnostics == SocialDiagnostics(socials, bundleId)
    ensures XObserved(x.acquiredAt, expiry, |x.posts|, |freshClusters|, x.hasNextPage) == SummaryFrom(x, socials, at)
  {
    hide Earliest, UsableClusters, SocialDiagnostics;
    assert Expiries(socials) == set i | 0 <= i < |socials| :: socials[i].validUntil;
  }

  lemma AbsorbedNone(before: seq<State>, i: nat, at: Time)
    requires i < |before|
    ensures Absorbed(before, i, [], at) == before[i]
  {}

  lemma AbsorbedIdentity(before: seq<State>, i: nat, socials: seq<Social>, at: Time)
    requires i < |before|
    ensures Absorbed(before, i, socials, at).identity == before[i].identity
  {
    hide Absorb;
  }

  // ---------------------------------------------------------------- the next facts

  method FilterUsable(states: seq<State>) returns (usable: seq<State>)
    ensures usable == UsableStates(states)
  {
    hide IdentityUsable;
    usable := [];
    for i := 0 to |states|
      invariant usable == UsableStates(states[..i])
    {
      assert states[..i + 1][..i] == states[..i];
      if IdentityUsable(states[i]) { usable := usable + [states[i]]; }
    }
    assert states[..|states|] == states;
  }

  /** `advanceFacts`, up to its last schema check. */
  method AdvanceFacts(b: Bundle, states: seq<State>, socials: seq<Social>, facts: Facts, at: Time) returns (next: Facts)
    requires states == Assessed(b, facts, at) && socials == SocialsOf(b, facts, at)
    ensures next == NextFacts(b, facts, at)
  {
    hide Assessed, SocialsOf, MarketplaceUsable, AdmitAll, RegisterAll, RowsOf, UsableStates, Admit, Register, BundleId, RankEvidenceId,
      RefreshId, Table;
    var bundleId := BundleId(b);
    var rankEvidence := RankEvidenceId(b.marketplace, bundleId);
    var v := ViewOf(facts);
    var window, latestX := facts.window, facts.latestX;
    if MarketplaceUsable(b.marketplace, facts, at) {
      var usable := FilterUsable(states);
      v := RegisterStates(v, usable);
      window := Some(RankWindow(rankEvidence, b.marketplace.acquiredAt, b.marketplace.validUntil, RowsOf(usable, rankEvidence)));
    }
    if Admitted(b.x, facts, at) {
      v := AdmitPosts(v, socials);
      latestX := Some(b.x.acquiredAt);
    }
    next := WriteFacts(Some(RefreshId(bundleId)), window, latestX, v);
  }

  method RegisterStates(v0: View, usable: seq<State>) returns (v: View)
    ensures v == RegisterAll(v0, usable)
  {
    var knownCollections, slugAssociations := v0.known, v0.associations;
    for i := 0 to |usable|
      invariant v0.(known := knownCollections, associations := slugAssociations) == RegisterAll(v0, usable[..i])
    {
      assert usable[..i + 1][..i] == usable[..i];
      if usable[i].identity.Some? {
        var id, slug := usable[i].identity.value, usable[i].candidate.slug;
        knownCollections := knownCollections[id.collectionId := Known(id, slug)];
        var association := Association(slug, id.collectionId);
        slugAssociations := slugAssociations[AssociationKey(association) := association];
      }
    }
    assert usable[..|usable|] == usable;
    v := v0.(known := knownCollections, associations := slugAssociations);
  }

  method AdmitPosts(v0: View, socials: seq<Social>) returns (v: View)
    ensures v == AdmitAll(v0, socials)
  {
    var postBindings, clusterFirstSeen, conflictingClusterFirstSeen := v0.bindings, v0.clusters, v0.conflicts;
    for i := 0 to |socials|
      invariant v0.(bindings := postBindings, clusters := clusterFirstSeen, conflicts := conflictingClusterFirstSeen) == AdmitAll(v0, socials[..i])
    {
      assert socials[..i + 1][..i] == socials[..i];
      var p, firstSeenAt := socials[i].post, socials[i].firstSeenAt;
      var retained := p.cluster in clusterFirstSeen || p.cluster in conflictingClusterFirstSeen;
      if socials[i].conflict {
        if !retained { conflictingClusterFirstSeen := conflictingClusterFirstSeen[p.cluster := Conflict(p.cluster, firstSeenAt, p.postIdHash)]; }
      } else {
        if p.postIdHash !in postBindings { postBindings := postBindings[p.postIdHash := Binding(p.postIdHash, p.cluster)]; }
        if !retained { clusterFirstSeen := clusterFirstSeen[p.cluster := Cluster(p.cluster, firstSeenAt)]; }
      }
    }
    assert socials[..|socials|] == socials;
    v := v0.(bindings := postBindings, clusters := clusterFirstSeen, conflicts := conflictingClusterFirstSeen);
  }

  method WriteFacts(head: Option<string>, window: Option<RankWindow>, latestX: Option<Time>, v: View) returns (f: Facts)
    ensures f == FactsFrom(head, window, latestX, v)
  {
    hide Table, AssociationLess;
    var known := TableOf(v.known);
    var associations := TableOf(v.associations);
    var bindings := TableOf(v.bindings);
    var clusters := TableOf(v.clusters);
    var conflicts := TableOf(v.conflicts);
    f := Facts(head, window, latestX, known, Sort(associations, AssociationLess), bindings, clusters, conflicts);
  }
}
