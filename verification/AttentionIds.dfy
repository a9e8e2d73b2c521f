/** The derived identifiers tell apart what they must: they are injective, and different kinds never meet. */
module AttentionIds {
  import opened CanonicalJson
  import opened CanonicalJsonProofs
  import opened Attention

  /** Domains that differ at one of their characters. */
  lemma DomainsDiffer(domain: string, domain': string, v: Json, w: Json, at: nat)
    requires at < |domain| && at < |domain'| && domain[at] != domain'[at]
    ensures Digest(domain, v) != Digest(domain', w)
  {
    hide Print;
    assert Digest(domain, v)[at] == domain[at] && Digest(domain', w)[at] == domain'[at];
  }

  lemma DigestInjective(domain: string, v: Json, w: Json)
    requires Proper(v) && Proper(w) && Digest(domain, v) == Digest(domain, w)
    ensures SameValue(v, w)
  {
    hide Print, Proper, SameValue;
    Cancel(domain, Print(v), Print(w));
    PrintInjective(v, w);
  }

  ghost function CollectionFields(addresses: seq<string>): seq<Field>
  {
    [Field("chainId", JStr(Digits(BASE_CHAIN_ID))), Field("contracts", JArr(Strings(addresses)))]
  }

  ghost function CandidateFields(slug: string, contracts: seq<Contract>): seq<Field>
  {
    [Field("slug", JStr(slug)), Field("contracts", ContractsJson(contracts))]
  }

  ghost function DiagnosticFields(bundleId: string, p: Post, code: DiagnosticCode): seq<Field>
  {
    [Field("bundleId", JStr(bundleId)), Field("postIdHash", JStr(p.postIdHash)), Field("contentClusterId", JStr(p.cluster)),
     Field("code", JStr(CodeName(code)))]
  }

  lemma CollectionProper(addresses: seq<string>)
    ensures Proper(JObj(CollectionFields(addresses))) && DistinctKeys(CollectionFields(addresses))
  {
    StringsProper(addresses);
    hide Strings;
  }

  lemma CandidateProper(slug: string, contracts: seq<Contract>)
    ensures Proper(JObj(CandidateFields(slug, contracts))) && DistinctKeys(CandidateFields(slug, contracts))
  {
    ContractsProper(contracts);
    hide ContractsJson;
  }

  lemma DiagnosticProper(bundleId: string, p: Post, code: DiagnosticCode)
    ensures Proper(JObj(DiagnosticFields(bundleId, p, code))) && DistinctKeys(DiagnosticFields(bundleId, p, code))
  {
    hide CodeName;
  }

  lemma StringsProper(xs: seq<string>)
    ensures Proper(JArr(Strings(xs)))
  {
    forall x | x in Strings(xs) ensures Proper(x) {}
  }

  /** A collection identifier stands for one list of addresses. */
  lemma CollectionIdInjective(a: seq<string>, b: seq<string>)
    requires CollectionId(a) == CollectionId(b)
    ensures a == b
  {
    hide Print, Proper, SameValue, DistinctKeys;
    CollectionProper(a);
    CollectionProper(b);
    DigestInjective("rsi-attention-base-collection-v1\0", JObj(CollectionFields(a)), JObj(CollectionFields(b)));
    SameFields(CollectionFields(a), CollectionFields(b), 1);
    SameStrings(a, b);
  }

  lemma SameStrings(a: seq<string>, b: seq<string>)
    requires SameValue(JArr(Strings(a)), JArr(Strings(b)))
    ensures a == b
  {
    forall i | 0 <= i < |a| ensures a[i] == b[i] { assert SameValue(Strings(a)[i], Strings(b)[i]); }
  }

  /** A candidate identifier stands for one slug and one list of contracts. */
  lemma CandidateIdInjective(slug: string, contracts: seq<Contract>, slug': string, contracts': seq<Contract>)
    requires CandidateId(slug, contracts) == CandidateId(slug', contracts')
    ensures slug == slug' && contracts == contracts'
  {
    hide Print, Proper, DistinctKeys, ContractsJson;
    CandidateProper(slug, contracts);
    CandidateProper(slug', contracts');
    DigestInjective("rsi-attention-candidate-v1\0", JObj(CandidateFields(slug, contracts)), JObj(CandidateFields(slug', contracts')));
    SameFields(CandidateFields(slug, contracts), CandidateFields(slug', contracts'), 0);
    SameFields(CandidateFields(slug, contracts), CandidateFields(slug', contracts'), 1);
    SameContracts(contracts, contracts');
  }

  lemma ContractsProper(contracts: seq<Contract>)
    ensures Proper(ContractsJson(contracts))
  {
    forall x | x in ContractsJson(contracts).items ensures Proper(x) {}
  }

  lemma SameContracts(a: seq<Contract>, b: seq<Contract>)
    requires SameValue(ContractsJson(a), ContractsJson(b))
    ensures a == b
  {
    forall i | 0 <= i < |a| ensures a[i] == b[i] {
      var v := [Field("chainId", JStr(Digits(a[i].chainId))), Field("address", JStr(a[i].address))];
      var w := [Field("chainId", JStr(Digits(b[i].chainId))), Field("address", JStr(b[i].address))];
      assert SameValue(ContractsJson(a).items[i], ContractsJson(b).items[i]);
      SameFields(v, w, 0);
      SameFields(v, w, 1);
      DigitsInjective(a[i].chainId, b[i].chainId);
    }
  }

  lemma CandidateIsNotCollection(slug: string, contracts: seq<Contract>, addresses: seq<string>)
    ensures CandidateId(slug, contracts) != CollectionId(addresses)
  {
    DomainsDiffer("rsi-attention-candidate-v1\0", "rsi-attention-base-collection-v1\0",
                  JObj([Field("slug", JStr(slug)), Field("contracts", ContractsJson(contracts))]),
                  JObj([Field("chainId", JStr(Digits(BASE_CHAIN_ID))), Field("contracts", JArr(Strings(addresses)))]), 14);
  }

  /** Diagnostics about different posts differ. */
  lemma SocialDiagnosticInjective(bundleId: string, p: Post, code: DiagnosticCode, q: Post, code': DiagnosticCode)
    requires SocialDiagnosticId(bundleId, p, code) == SocialDiagnosticId(bundleId, q, code')
    ensures p.postIdHash == q.postIdHash
  {
    hide Print, Proper, DistinctKeys;
    DiagnosticProper(bundleId, p, code);
    DiagnosticProper(bundleId, q, code');
    DigestInjective("rsi-attention-social-diagnostic-v1\0", JObj(DiagnosticFields(bundleId, p, code)), JObj(DiagnosticFields(bundleId, q, code')));
    SameFields(DiagnosticFields(bundleId, p, code), DiagnosticFields(bundleId, q, code'), 1);
  }

  // ---------------------------------------------------------------- vocabularies

  lemma {:induction false} OrderedMembers<T>(values: set<T>, order: seq<T>)
    ensures forall x :: x in Ordered(values, order) <==> x in values && x in order
    ensures |Ordered(values, order)| <= |order|
  {
    if order == [] {
    } else {
      OrderedMembers(values, order[1..]);
      assert forall x :: x in order <==> x == order[0] || x in order[1..];
    }
  }

  lemma {:induction false} IndexOfMember<T>(order: seq<T>, value: T)
    ensures IndexOf(order, value) >= 0 <==> value in order
    ensures IndexOf(order, value) < |order|
    ensures IndexOf(order, value) >= 0 ==> order[IndexOf(order, value)] == value
  {
    if order != [] && order[0] != value { IndexOfMember(order[1..], value); }
  }

  lemma {:induction false} OrderedIsOrdered<T>(values: set<T>, order: seq<T>)
    requires forall i, j :: 0 <= i < j < |order| ==> order[i] != order[j]
    ensures EnumOrdered(Ordered(values, order), order)
  {
    if order == [] {
    } else {
      var first, rest := order[0], order[1..];
      var xs := Ordered(values, rest);
      OrderedIsOrdered(values, rest);
      OrderedMembers(values, rest);
      var r := Ordered(values, order);
      forall i | 0 <= i < |xs| && xs[i] != first ensures IndexOf(order, xs[i]) == IndexOf(rest, xs[i]) + 1 { assert xs[i] in xs; IndexOfMember(rest, xs[i]); }
    }
  }
}
