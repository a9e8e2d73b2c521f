/** The next facts satisfy every refinement of their schema again; only the bound on how much is
    retained can refuse them. Known collections never share a contract. */
module AttentionClosure {
  import opened Tables
  import opened Attention
  import opened AttentionFacts
  import opened Assessor

  // ---------------------------------------------------------------- admitting posts

  /** Nothing is rebound, redated or reclassified; what is new was not retained before. */
  ghost predicate Extends(v: View, w: View)
  {
    && (forall p :: p in v.bindings ==> p in w.bindings && w.bindings[p] == v.bindings[p])
    && (forall c :: c in v.clusters ==> c in w.clusters && w.clusters[c] == v.clusters[c])
    && (forall c :: c in v.conflicts ==> c in w.conflicts && w.conflicts[c] == v.conflicts[c])
    && (forall c :: c in w.clusters && c !in v.clusters ==> !Retained(v, c))
    && (forall c :: c in w.conflicts && c !in v.conflicts ==> !Retained(v, c))
  }

  lemma ExtendsKeeps(v: View, w: View, c: string)
    requires Extends(v, w) && Retained(v, c)
    ensures Retained(w, c) && FirstSeen(w, c) == FirstSeen(v, c)
    ensures c in w.clusters <==> c in v.clusters
    ensures c in w.conflicts <==> c in v.conflicts
  {}

  lemma ExtendsTransitive(u: View, v: View, w: View)
    requires Extends(u, v) && Extends(v, w)
    ensures Extends(u, w)
  {}

  lemma StepSurvives(v: View, w: View, from: string, to: string)
    requires Extends(v, w) && WitnessStep(v, from, to)
    ensures WitnessStep(w, from, to)
  {
    ExtendsKeeps(v, w, to);
    ExtendsKeeps(v, w, from);
  }

  lemma PathSurvives(v: View, w: View, path: seq<string>)
    requires Extends(v, w) && WitnessPath(v, path)
    ensures WitnessPath(w, path)
  {
    forall i | 0 <= i < |path| - 1 ensures WitnessStep(w, path[i], path[i + 1]) {
      assert WitnessStep(v, path[i], path[i + 1]);
      StepSurvives(v, w, path[i], path[i + 1]);
    }
    forall i | 1 <= i < |path| - 1 ensures path[i] !in w.clusters {
      assert WitnessStep(v, path[i], path[i + 1]);
      ExtendsKeeps(v, w, path[i]);
    }
  }

  lemma ReachSurvives(v: View, w: View, c: string)
    requires Extends(v, w) && ReachesOrdinary(v, c)
    ensures ReachesOrdinary(w, c)
  {
    var path :| WitnessPath(v, path) && path[0] == c;
    PathSurvives(v, w, path);
  }

  lemma PathRetained(v: View, path: seq<string>, i: nat)
    requires WitnessPath(v, path) && i < |path|
    ensures Retained(v, path[i])
  {
    if i < |path| - 1 { assert WitnessStep(v, path[i], path[i + 1]); }
  }

  /** A new conflicting cluster continues the path of the cluster its witness is bound to. */
  lemma NewConflictReaches(v: View, w: View, c: string, d: string)
    requires ReferencesOk(v) && ConflictsOk(v) && Extends(v, w)
    requires !Retained(v, c) && WitnessStep(w, c, d) && Retained(v, d)
    ensures ReachesOrdinary(w, c)
  {
    hide WitnessPath, WitnessStep, Extends;
    if d in v.clusters {
      ShortPath(v, w, c, d);
    } else {
      var path := PathFrom(v, d);
      PathSurvives(v, w, path);
      forall i | 0 <= i < |path| ensures path[i] != c { PathRetained(v, path, i); }
      ExtendsKeeps(v, w, d);
      LongerPath(w, c, path);
    }
  }

  lemma PathFrom(v: View, d: string) returns (path: seq<string>)
    requires ConflictsOk(v) && d in v.conflicts
    ensures WitnessPath(v, path) && |path| > 0 && path[0] == d
  {
    path :| WitnessPath(v, path) && path[0] == d;
  }

  lemma ShortPath(v: View, w: View, c: string, d: string)
    requires Extends(v, w) && d in v.clusters && !Retained(v, c) && WitnessStep(w, c, d)
    ensures ReachesOrdinary(w, c)
  {
    assert WitnessPath(w, [c, d]) && [c, d][0] == c;
  }

  lemma LongerPath(w: View, c: string, path: seq<string>)
    requires WitnessPath(w, path) && (forall i :: 0 <= i < |path| ==> path[i] != c)
    requires WitnessStep(w, c, path[0]) && path[0] !in w.clusters
    ensures ReachesOrdinary(w, c)
  {
    var longer := [c] + path;
    forall i | 0 <= i < |longer| - 1 ensures WitnessStep(w, longer[i], longer[i + 1]) {
      if i > 0 { assert WitnessStep(w, path[i - 1], path[i]); }
    }
    assert WitnessPath(w, longer);
  }

  /** What holds while the posts of one window are being admitted: nothing is newer than the window,
      and what was not there before dates from it. */
  ghost predicate Admitting(v0: View, v: View, acquiredAt: Time)
  {
    && Extends(v0, v)
    && ReferencesOk(v) && ConflictsOk(v)
    && Dated(v0, v, acquiredAt)
    && SocialKeyed(v)
  }

  ghost predicate Dated(v0: View, v: View, acquiredAt: Time)
  {
    && (forall c :: Retained(v0, c) ==> FirstSeen(v0, c) <= acquiredAt)
    && (forall c :: Retained(v, c) && !Retained(v0, c) ==> FirstSeen(v, c) == acquiredAt)
  }

  lemma AdmitDates(v0: View, v: View, s: Social, acquiredAt: Time)
    requires Dated(v0, v, acquiredAt) && ReadAgainst(s, v0, acquiredAt) && Extends(v0, v) && Extends(v, Admit(v, s))
    ensures Dated(v0, Admit(v, s), acquiredAt)
  {
    hide Conflicting;
    var w := Admit(v, s);
    forall c | Retained(w, c) && !Retained(v0, c) ensures FirstSeen(w, c) == acquiredAt {
      if Retained(v, c) { ExtendsKeeps(v, w, c); }
    }
  }

  ghost predicate SocialKeyed(v: View)
  {
    Keyed(v.bindings, BindingKey) && Keyed(v.clusters, ClusterKey) && Keyed(v.conflicts, ConflictKey)
  }

  /** The post was read against the view before admission. */
  predicate ReadAgainst(s: Social, v0: View, acquiredAt: Time)
  {
    s.conflict == Conflicting(s.post, v0) && s.firstSeenAt == FirstSeenAt(s.post, v0, acquiredAt)
  }

  lemma AdmitExtends(v: View, s: Social)
    requires s.conflict ==> s.post.postIdHash in v.bindings
    ensures Extends(v, Admit(v, s))
  {}

  lemma AdmitConflict(v0: View, v: View, s: Social, acquiredAt: Time)
    requires Admitting(v0, v, acquiredAt) && ReadAgainst(s, v0, acquiredAt) && s.conflict && !Retained(v, s.post.cluster)
    ensures Admitting(v0, Admit(v, s), acquiredAt)
  {
    var w, c := Admit(v, s), s.post.cluster;
    ConflictPost(s, v0, v, acquiredAt);
    hide ReferencesOk, ConflictsOk, Dated, SocialKeyed, ReadAgainst, WitnessStep;
    AdmitExtends(v, s);
    AdmitDates(v0, v, s, acquiredAt);
    WitnessIsOlder(v0, v, w, s, acquiredAt);
    NewConflictReaches(v, w, c, v0.bindings[s.post.postIdHash].cluster);
    ConflictsSurvive(v, w, c);
    AdmitConflictRefs(v, s);
    hide Extends;
    ExtendsTransitive(v0, v, w);
  }

  lemma ConflictPost(s: Social, v0: View, v: View, acquiredAt: Time)
    requires ReadAgainst(s, v0, acquiredAt) && s.conflict && Extends(v0, v)
    ensures s.post.postIdHash in v0.bindings && s.post.postIdHash in v.bindings
    ensures v.bindings[s.post.postIdHash] == v0.bindings[s.post.postIdHash]
    ensures v0.bindings[s.post.postIdHash].cluster != s.post.cluster
  {}

  lemma AdmitConflictRefs(v: View, s: Social)
    requires ReferencesOk(v) && SocialKeyed(v) && s.conflict && !Retained(v, s.post.cluster)
    ensures ReferencesOk(Admit(v, s)) && SocialKeyed(Admit(v, s))
  {}

  lemma ConflictsSurvive(v: View, w: View, c: string)
    requires ConflictsOk(v) && Extends(v, w) && w.conflicts.Keys == v.conflicts.Keys + {c}
    requires c in w.conflicts && w.conflicts[c].post in w.bindings && w.bindings[w.conflicts[c].post].cluster != c
    requires ReachesOrdinary(w, c)
    ensures ConflictsOk(w)
  {
    hide ReachesOrdinary;
    forall k | k in w.conflicts
      ensures w.conflicts[k].post in w.bindings && w.bindings[w.conflicts[k].post].cluster != k && ReachesOrdinary(w, k)
    {
      if k != c { ReachSurvives(v, w, k); }
    }
  }

  lemma WitnessIsOlder(v0: View, v: View, w: View, s: Social, acquiredAt: Time)
    requires Extends(v0, v) && w == Admit(v, s) && ReadAgainst(s, v0, acquiredAt) && s.conflict && !Retained(v, s.post.cluster)
    requires ReferencesOk(v)
    requires Dated(v0, v, acquiredAt)
    ensures var d := v0.bindings[s.post.postIdHash].cluster;
            d != s.post.cluster && Retained(v, d) && WitnessStep(w, s.post.cluster, d)
  {
    var d := v0.bindings[s.post.postIdHash].cluster;
    assert v.bindings[s.post.postIdHash] == v0.bindings[s.post.postIdHash];
    assert Retained(v, d);
    if Retained(v0, d) { ExtendsKeeps(v0, v, d); }
  }

  lemma AdmitOrdinary(v0: View, v: View, s: Social, acquiredAt: Time)
    requires Admitting(v0, v, acquiredAt) && ReadAgainst(s, v0, acquiredAt) && !s.conflict
    requires s.post.postIdHash in v.bindings ==> s.post.postIdHash in v0.bindings
    ensures Admitting(v0, Admit(v, s), acquiredAt)
  {
    var w := Admit(v, s);
    hide ReferencesOk, ConflictsOk, Dated, SocialKeyed, Extends;
    AdmitExtends(v, s);
    AdmitDates(v0, v, s, acquiredAt);
    AdmitOrdinaryRefs(v0, v, s);
    SameConflicts(v, w);
    ExtendsTransitive(v0, v, w);
  }

  lemma SameConflicts(v: View, w: View)
    requires ConflictsOk(v) && Extends(v, w) && w.conflicts == v.conflicts
    ensures ConflictsOk(w)
  {
    hide ReachesOrdinary;
    forall k | k in w.conflicts
      ensures w.conflicts[k].post in w.bindings && w.bindings[w.conflicts[k].post].cluster != k && ReachesOrdinary(w, k)
    {
      ReachSurvives(v, w, k);
    }
  }

  lemma AdmitOrdinaryRefs(v0: View, v: View, s: Social)
    requires ReferencesOk(v) && SocialKeyed(v) && Extends(v0, v) && !s.conflict && s.conflict == Conflicting(s.post, v0)
    requires s.post.postIdHash in v.bindings ==> s.post.postIdHash in v0.bindings
    ensures ReferencesOk(Admit(v, s)) && SocialKeyed(Admit(v, s))
  {
    var w := Admit(v, s);
    forall c | c in w.clusters ensures exists p :: p in w.bindings && w.bindings[p].cluster == c {
      if c in v.clusters {
        var p :| p in v.bindings && v.bindings[p].cluster == c;
        assert p in w.bindings && w.bindings[p].cluster == c;
      } else {
        assert s.post.postIdHash in w.bindings && w.bindings[s.post.postIdHash].cluster == c;
      }
    }
  }

  /** Admission starts from valid facts no newer than the window, and keeps them valid post by post. */
  lemma {:induction false} AdmitAllKeeps(v0: View, socials: seq<Social>, acquiredAt: Time)
    requires Admitting(v0, v0, acquiredAt)
    requires forall i :: 0 <= i < |socials| ==> ReadAgainst(socials[i], v0, acquiredAt)
    requires forall i, j :: 0 <= i < j < |socials| ==> socials[i].post.postIdHash != socials[j].post.postIdHash
    ensures Admitting(v0, AdmitAll(v0, socials), acquiredAt)
    ensures forall p :: p in AdmitAll(v0, socials).bindings && p !in v0.bindings ==> exists i :: 0 <= i < |socials| && socials[i].post.postIdHash == p
  {
    hide Admitting, ReadAgainst;
    if socials == [] {
    } else {
      var front, s := socials[..|socials| - 1], socials[|socials| - 1];
      AdmitAllKeeps(v0, front, acquiredAt);
      var v := AdmitAll(v0, front);
      AdmitNew(v0, v, front, s);
      AdmitOne(v0, v, s, acquiredAt);
    }
  }

  lemma AdmitNew(v0: View, v: View, front: seq<Social>, s: Social)
    requires forall p :: p in v.bindings && p !in v0.bindings ==> exists i :: 0 <= i < |front| && front[i].post.postIdHash == p
    requires forall i :: 0 <= i < |front| ==> front[i].post.postIdHash != s.post.postIdHash
    ensures s.post.postIdHash in v.bindings ==> s.post.postIdHash in v0.bindings
    ensures forall p :: p in Admit(v, s).bindings && p !in v0.bindings ==>
              exists i :: 0 <= i < |front + [s]| && (front + [s])[i].post.postIdHash == p
  {
    forall p | p in Admit(v, s).bindings && p !in v0.bindings
      ensures exists i :: 0 <= i < |front + [s]| && (front + [s])[i].post.postIdHash == p
    {
      if p in v.bindings {
        var i :| 0 <= i < |front| && front[i].post.postIdHash == p;
        assert (front + [s])[i] == front[i];
      } else {
        assert (front + [s])[|front|] == s;
      }
    }
  }

  lemma AdmitOne(v0: View, v: View, s: Social, acquiredAt: Time)
    requires Admitting(v0, v, acquiredAt) && ReadAgainst(s, v0, acquiredAt)
    requires s.post.postIdHash in v.bindings ==> s.post.postIdHash in v0.bindings
    ensures Admitting(v0, Admit(v, s), acquiredAt)
  {
    hide Admitting, ReadAgainst;
    if !s.conflict {
      AdmitOrdinary(v0, v, s, acquiredAt);
    } else if !Retained(v, s.post.cluster) {
      AdmitConflict(v0, v, s, acquiredAt);
    }
  }
}
