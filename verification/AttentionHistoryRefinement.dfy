/** What the facts mean after any history of bundles: bindings and first-seen times are those of the
    first admitted windows, whatever was copied or reposted later. */
module AttentionHistoryRefinement {
  import opened Order
  import opened Wrappers
  import opened Tables
  import opened Attention
  import opened AttentionFacts
  import opened Assessor
  import opened AttentionClosure
  import opened AttentionAdvance
  import opened AttentionRows

  datatype Visit = Visit(bundle: Bundle, at: Time)

  /** The facts after one more bundle; a refused bundle leaves them alone. */
  ghost function Step(facts: Facts, visit: Visit): Facts
  {
    match Assess(visit.bundle, facts, visit.at)
    case None => facts
    case Some(result) => result.nextFacts
  }

  /** Folding the assessor over a history, from the empty facts. */
  ghost function Fold(visits: seq<Visit>): Facts
  {
    if visits == [] then EMPTY_FACTS else Step(Fold(visits[..|visits| - 1]), visits[|visits| - 1])
  }

  ghost predicate Accepted(facts: Facts, visit: Visit) { Assess(visit.bundle, facts, visit.at).Some? }

  /** The X windows that were admitted, oldest first. */
  ghost function Windows(visits: seq<Visit>): seq<XSource>
  {
    if visits == [] then []
    else
      var before, visit := Fold(visits[..|visits| - 1]), visits[|visits| - 1];
      Windows(visits[..|visits| - 1]) +
      (if Accepted(before, visit) && Admitted(visit.bundle.x, before, visit.at) then [visit.bundle.x] else [])
  }

  // ---------------------------------------------------------------- what the windows say

  /** The cluster this window gives a post. */
  ghost function BindingIn(x: XSource, post: string): Option<string>
  {
    if x.RecordedPosts? && exists i :: 0 <= i < |x.posts| && x.posts[i].postIdHash == post then
      var i :| 0 <= i < |x.posts| && x.posts[i].postIdHash == post;
      Some(x.posts[i].cluster)
    else None
  }

  /** When this window saw a cluster. */
  ghost function SeenIn(x: XSource, cluster: string): Option<Time>
  {
    if x.RecordedPosts? && exists i :: 0 <= i < |x.posts| && x.posts[i].cluster == cluster then Some(x.acquiredAt) else None
  }

  ghost function FirstBinding(windows: seq<XSource>, post: string): Option<string>
  {
    if windows == [] then None
    else
      var earlier := FirstBinding(windows[..|windows| - 1], post);
      if earlier.Some? then earlier else BindingIn(windows[|windows| - 1], post)
  }

  ghost function FirstSight(windows: seq<XSource>, cluster: string): Option<Time>
  {
    if windows == [] then None
    else
      var earlier := FirstSight(windows[..|windows| - 1], cluster);
      if earlier.Some? then earlier else SeenIn(windows[|windows| - 1], cluster)
  }

  lemma {:induction false} FirstBindingIsFirst(windows: seq<XSource>, post: string)
    ensures match FirstBinding(windows, post)
            case None => forall i :: 0 <= i < |windows| ==> BindingIn(windows[i], post).None?
            case Some(cluster) =>
              exists i :: 0 <= i < |windows| && BindingIn(windows[i], post) == Some(cluster) &&
                          forall j :: 0 <= j < i ==> BindingIn(windows[j], post).None?
  {
    hide BindingIn;
    if windows == [] {
    } else {
      var front := windows[..|windows| - 1];
      FirstBindingIsFirst(front, post);
      match FirstBinding(front, post) {
        case None =>
          forall i | 0 <= i < |front| ensures BindingIn(windows[i], post).None? { assert windows[i] == front[i]; }
          if BindingIn(windows[|windows| - 1], post).Some? {
            assert BindingIn(windows[|windows| - 1], post) == FirstBinding(windows, post);
          }
        case Some(cluster) =>
          var i :| 0 <= i < |front| && BindingIn(front[i], post) == Some(cluster) && forall j :: 0 <= j < i ==> BindingIn(front[j], post).None?;
          assert windows[i] == front[i];
          forall j | 0 <= j < i ensures BindingIn(windows[j], post).None? { assert windows[j] == front[j]; }
      }
    }
  }

  lemma {:induction false} FirstSightIsFirst(windows: seq<XSource>, cluster: string)
    ensures match FirstSight(windows, cluster)
            case None => forall i :: 0 <= i < |windows| ==> SeenIn(windows[i], cluster).None?
            case Some(time) =>
              exists i :: 0 <= i < |windows| && SeenIn(windows[i], cluster) == Some(time) &&
                          forall j :: 0 <= j < i ==> SeenIn(windows[j], cluster).None?
  {
    hide SeenIn;
    if windows == [] {
    } else {
      var front := windows[..|windows| - 1];
      FirstSightIsFirst(front, cluster);
      match FirstSight(front, cluster) {
        case None =>
          forall i | 0 <= i < |front| ensures SeenIn(windows[i], cluster).None? { assert windows[i] == front[i]; }
          if SeenIn(windows[|windows| - 1], cluster).Some? {
            assert SeenIn(windows[|windows| - 1], cluster) == FirstSight(windows, cluster);
          }
        case Some(time) =>
          var i :| 0 <= i < |front| && SeenIn(front[i], cluster) == Some(time) && forall j :: 0 <= j < i ==> SeenIn(front[j], cluster).None?;
          assert windows[i] == front[i];
          forall j | 0 <= j < i ensures SeenIn(windows[j], cluster).None? { assert windows[j] == front[j]; }
      }
    }
  }

  // ---------------------------------------------------------------- admitting one window

  /** The posts of a window, as the assessor read them against the view. */
  ghost predicate ReadFrom(socials: seq<Social>, x: XSource, v: View)
  {
    && x.RecordedPosts? && |socials| == |x.posts|
    && (forall i :: 0 <= i < |socials| ==> socials[i].post == x.posts[i] && ReadAgainst(socials[i], v, x.acquiredAt))
    && (forall i, j :: 0 <= i < j < |socials| ==> socials[i].post.postIdHash != socials[j].post.postIdHash)
  }

  ghost predicate SomePost(socials: seq<Social>, post: string, cluster: string)
  {
    exists i :: 0 <= i < |socials| && socials[i].post.postIdHash == post && socials[i].post.cluster == cluster
  }

  ghost predicate SomeCluster(socials: seq<Social>, cluster: string)
  {
    exists i :: 0 <= i < |socials| && socials[i].post.cluster == cluster
  }

  lemma PostMore(front: seq<Social>, s: Social, post: string, cluster: string)
    ensures SomePost(front + [s], post, cluster) <==>
              SomePost(front, post, cluster) || (s.post.postIdHash == post && s.post.cluster == cluster)
  {
    var all := front + [s];
    assert all[|front|] == s;
    if i :| 0 <= i < |front| && front[i].post.postIdHash == post && front[i].post.cluster == cluster { assert all[i] == front[i]; }
    if i :| 0 <= i < |all| && all[i].post.postIdHash == post && all[i].post.cluster == cluster && i < |front| { assert front[i] == all[i]; }
  }

  lemma ClusterMore(front: seq<Social>, s: Social, cluster: string)
    ensures SomeCluster(front + [s], cluster) <==> SomeCluster(front, cluster) || s.post.cluster == cluster
  {
    var all := front + [s];
    assert all[|front|] == s;
    if i :| 0 <= i < |front| && front[i].post.cluster == cluster { assert all[i] == front[i]; }
    if i :| 0 <= i < |all| && all[i].post.cluster == cluster && i < |front| { assert front[i] == all[i]; }
  }

  /** Admission binds exactly the posts that were unbound, and retains exactly the clusters it meets. */
  ghost predicate AdmitsExactly(v0: View, v: View, socials: seq<Social>)
  {
    && (forall p :: p in v0.bindings ==> p in v.bindings && v.bindings[p] == v0.bindings[p])
    && (forall p, c :: p !in v0.bindings ==> ((p in v.bindings && v.bindings[p].cluster == c) <==> SomePost(socials, p, c)))
    && (forall c :: Retained(v, c) <==> Retained(v0, c) || SomeCluster(socials, c))
  }

  lemma {:induction false} AdmitAllExactly(v0: View, socials: seq<Social>, acquiredAt: Time)
    requires forall i :: 0 <= i < |socials| ==> ReadAgainst(socials[i], v0, acquiredAt)
    requires forall i, j :: 0 <= i < j < |socials| ==> socials[i].post.postIdHash != socials[j].post.postIdHash
    ensures AdmitsExactly(v0, AdmitAll(v0, socials), socials)
  {
    if socials == [] {
    } else {
      var front, s := socials[..|socials| - 1], socials[|socials| - 1];
      AdmitAllExactly(v0, front, acquiredAt);
      forall i | 0 <= i < |front| ensures front[i].post.postIdHash != s.post.postIdHash {
        assert front[i] == socials[i] && s == socials[|socials| - 1];
      }
      assert socials == front + [s];
      AdmitExactly(v0, AdmitAll(v0, front), front, s, acquiredAt);
    }
  }

  lemma AdmitExactly(v0: View, v: View, front: seq<Social>, s: Social, acquiredAt: Time)
    requires AdmitsExactly(v0, v, front) && ReadAgainst(s, v0, acquiredAt)
    requires forall c :: !SomePost(front, s.post.postIdHash, c)
    ensures AdmitsExactly(v0, Admit(v, s), front + [s])
  {
    hide SomePost, SomeCluster;
    var w := Admit(v, s);
    forall p, c | p !in v0.bindings ensures (p in w.bindings && w.bindings[p].cluster == c) <==> SomePost(front + [s], p, c) {
      PostMore(front, s, p, c);
      assert (p in v.bindings && v.bindings[p].cluster == c) <==> SomePost(front, p, c);
      if p == s.post.postIdHash && p in v.bindings { assert SomePost(front, p, v.bindings[p].cluster); }
    }
    forall c ensures Retained(w, c) <==> Retained(v0, c) || SomeCluster(front + [s], c) { ClusterMore(front, s, c); }
  }

  // ---------------------------------------------------------------- the meaning of the facts

  /** Every binding is the first one, and every first-seen time is the first sight. */
  ghost predicate Means(v: View, windows: seq<XSource>)
  {
    && (forall p, c :: (p in v.bindings && v.bindings[p].cluster == c) <==> FirstBinding(windows, p) == Some(c))
    && (forall c :: Retained(v, c) <==> FirstSight(windows, c).Some?)
    && (forall c :: Retained(v, c) ==> FirstSight(windows, c) == Some(FirstSeen(v, c)))
  }

  lemma WindowBinds(x: XSource, socials: seq<Social>, v: View, post: string, cluster: string)
    requires ReadFrom(socials, x, v)
    ensures BindingIn(x, post) == Some(cluster) <==> SomePost(socials, post, cluster)
  {
    hide ReadAgainst;
    if i :| 0 <= i < |socials| && socials[i].post.postIdHash == post && socials[i].post.cluster == cluster {
      assert x.posts[i].postIdHash == post;
      assert BindingIn(x, post).Some?;
      var j :| 0 <= j < |x.posts| && x.posts[j].postIdHash == post && BindingIn(x, post) == Some(x.posts[j].cluster);
      assert socials[j].post.postIdHash == socials[i].post.postIdHash;
    }
    if BindingIn(x, post) == Some(cluster) {
      var j :| 0 <= j < |x.posts| && x.posts[j].postIdHash == post && x.posts[j].cluster == cluster;
      assert socials[j].post.postIdHash == post;
    }
  }

  lemma WindowSees(x: XSource, socials: seq<Social>, v: View, cluster: string)
    requires ReadFrom(socials, x, v)
    ensures SeenIn(x, cluster) == if SomeCluster(socials, cluster) then Some(x.acquiredAt) else None
  {
    hide ReadAgainst;
    if i :| 0 <= i < |socials| && socials[i].post.cluster == cluster { assert x.posts[i].cluster == cluster; }
    if SeenIn(x, cluster).Some? {
      var i :| 0 <= i < |x.posts| && x.posts[i].cluster == cluster;
      assert socials[i].post.cluster == cluster;
    }
  }

  lemma FirstBindingMore(windows: seq<XSource>, x: XSource, post: string)
    ensures FirstBinding(windows + [x], post) == if FirstBinding(windows, post).Some? then FirstBinding(windows, post) else BindingIn(x, post)
  {
    assert (windows + [x])[..|windows|] == windows;
  }

  lemma FirstSightMore(windows: seq<XSource>, x: XSource, cluster: string)
    ensures FirstSight(windows + [x], cluster) == if FirstSight(windows, cluster).Some? then FirstSight(windows, cluster) else SeenIn(x, cluster)
  {
    assert (windows + [x])[..|windows|] == windows;
  }

  lemma WindowMeans(v0: View, v: View, windows: seq<XSource>, x: XSource, socials: seq<Social>)
    requires Means(v0, windows) && ReadFrom(socials, x, v0) && AdmitsExactly(v0, v, socials) && Admitting(v0, v, x.acquiredAt)
    ensures Means(v, windows + [x])
  {
    assert Dated(v0, v, x.acquiredAt) && Extends(v0, v);
    hide BindingIn, SeenIn, FirstBinding, FirstSight, SomePost, SomeCluster, Admitting, ReadFrom, FirstSeen, Extends;
    forall p, c ensures (p in v.bindings && v.bindings[p].cluster == c) <==> FirstBinding(windows + [x], p) == Some(c) {
      FirstBindingMore(windows, x, p);
      WindowBinds(x, socials, v0, p, c);
      if p in v0.bindings { assert FirstBinding(windows, p) == Some(v0.bindings[p].cluster); }
    }
    forall c ensures Retained(v, c) <==> FirstSight(windows + [x], c).Some? {
      FirstSightMore(windows, x, c);
      WindowSees(x, socials, v0, c);
    }
    forall c | Retained(v, c) ensures FirstSight(windows + [x], c) == Some(FirstSeen(v, c)) {
      FirstSightMore(windows, x, c);
      WindowSees(x, socials, v0, c);
      if Retained(v0, c) { ExtendsKeeps(v0, v, c); }
    }
  }

  lemma SameSocialMeans(v: View, w: View, windows: seq<XSource>)
    requires SameSocial(v, w) && Means(v, windows)
    ensures Means(w, windows)
  {
    hide FirstBinding, FirstSight;
    assert forall c :: Retained(v, c) <==> Retained(w, c);
  }

  /** One accepted bundle keeps the meaning of the facts. */
  lemma NextMeans(b: Bundle, facts: Facts, at: Time, windows: seq<XSource>)
    requires BundleOk(b) && FactsOk(facts) && Means(ViewOf(facts), windows)
    ensures Means(ViewOf(NextFacts(b, facts, at)), windows + (if Admitted(b.x, facts, at) then [b.x] else []))
  {
    hide BundleOk, FactsOk, Means, ViewOf, NextFacts, NextView, Registered, AdmitAll, Admitting, ReadAgainst, AdmitsExactly, SocialsOf;
    NextFactsOk(b, facts, at);
    NextViewIs(b, facts, at);
    var v := Registered(b, facts, at);
    RegisteredSocial(b, facts, at);
    SameSocialMeans(ViewOf(facts), v, windows);
    if Admitted(b.x, facts, at) {
      var socials := SocialsOf(b, facts, at);
      SocialsRead(b, facts, at, socials);
      forall i | 0 <= i < |socials| ensures ReadAgainst(socials[i], v, b.x.acquiredAt) { ReadSame(socials[i], ViewOf(facts), v, b.x.acquiredAt); }
      var w := AdmitAll(v, socials);
      AdmitStep(b, facts, at, v, w);
      AdmitAllExactly(v, socials, b.x.acquiredAt);
      WindowMeans(v, w, windows, b.x, socials);
    } else {
      assert windows + [] == windows;
    }
  }

  /** The admitted windows never go back in time, and the facts name the time of the last one. */
  ghost predicate TimesFit(facts: Facts, windows: seq<XSource>)
  {
    && (forall i :: 0 <= i < |windows| ==> windows[i].RecordedPosts?)
    && (forall i, j :: 0 <= i < j < |windows| ==> windows[i].acquiredAt <= windows[j].acquiredAt)
    && facts.latestX == if windows == [] then None else Some(windows[|windows| - 1].acquiredAt)
  }

  lemma NextTimesFit(b: Bundle, facts: Facts, at: Time, windows: seq<XSource>)
    requires TimesFit(facts, windows)
    ensures TimesFit(NextFacts(b, facts, at), windows + (if Admitted(b.x, facts, at) then [b.x] else []))
  {
    hide NextFacts;
    NextLatest(b, facts, at);
    if !Admitted(b.x, facts, at) { assert windows + [] == windows; }
  }

  lemma NextLatest(b: Bundle, facts: Facts, at: Time)
    ensures NextFacts(b, facts, at).latestX == if Admitted(b.x, facts, at) then Some(b.x.acquiredAt) else facts.latestX
  {
    hide NextView, NextWindow, BundleId, RefreshId, Table, Sort;
  }

  /** What holds of the facts after any history. */
  ghost predicate Faithful(facts: Facts, windows: seq<XSource>)
  {
    FactsOk(facts) && WithinCap(facts) && Exclusive(facts) && Means(ViewOf(facts), windows) && TimesFit(facts, windows)
  }

  lemma StepFaithful(facts: Facts, visit: Visit, windows: seq<XSource>)
    requires BundleOk(visit.bundle) && Faithful(facts, windows)
    ensures Faithful(Step(facts, visit),
                     windows + (if Accepted(facts, visit) && Admitted(visit.bundle.x, facts, visit.at) then [visit.bundle.x] else []))
  {
    hide FactsOk, Exclusive, Means, TimesFit, BundleOk, AssessmentOk, NextFacts, WithinCap, AssessmentOf;
    if Accepted(facts, visit) {
      AcceptedStep(facts, visit);
      NextFactsOk(visit.bundle, facts, visit.at);
      NextFactsExclusive(visit.bundle, facts, visit.at);
      NextMeans(visit.bundle, facts, visit.at, windows);
      NextTimesFit(visit.bundle, facts, visit.at, windows);
    } else {
      assert windows + [] == windows;
    }
  }

  lemma AcceptedStep(facts: Facts, visit: Visit)
    requires Accepted(facts, visit)
    ensures Step(facts, visit) == NextFacts(visit.bundle, facts, visit.at) && WithinCap(Step(facts, visit))
  {
    hide FactsOk, AssessmentOk, NextFacts, AssessmentOf, WithinCap;
  }

  lemma EmptyFaithful()
    ensures Faithful(EMPTY_FACTS, [])
  {
    EmptyFactsOk();
  }

  /** History refinement: after any history of bundles, a post is bound to its cluster in the first
      admitted window that contains it, a cluster's first-seen time is when the first admitted window
      containing it was acquired, admitted windows never go back in time and the last one's time is on
      record, known collections are pairwise disjoint, the latest window has distinct slugs, and the facts
      satisfy their schema. */
  lemma {:induction false} FoldIsFaithful(visits: seq<Visit>)
    requires forall i :: 0 <= i < |visits| ==> BundleOk(visits[i].bundle)
    ensures Faithful(Fold(visits), Windows(visits))
  {
    hide BundleOk, Faithful, Step, Accepted;
    if visits == [] {
      EmptyFaithful();
    } else {
      var front, last := visits[..|visits| - 1], visits[|visits| - 1];
      FoldIsFaithful(front);
      StepFaithful(Fold(front), last, Windows(front));
      WindowsMore(front, last);
      assert visits == front + [last];
    }
  }

  lemma WindowsMore(front: seq<Visit>, last: Visit)
    ensures Fold(front + [last]) == Step(Fold(front), last)
    ensures Windows(front + [last])
            == Windows(front) +
               (if Accepted(Fold(front), last) && Admitted(last.bundle.x, Fold(front), last.at) then [last.bundle.x] else [])
  {
    hide Step, Accepted;
    assert (front + [last])[..|front|] == front;
  }

  lemma {:induction false} WindowsGrow(visits: seq<Visit>, more: seq<Visit>)
    ensures Windows(visits) <= Windows(visits + more)
  {
    hide Windows, Fold, Accepted, Step;
    if more == [] {
      assert visits + more == visits;
    } else {
      var front, last := more[..|more| - 1], more[|more| - 1];
      WindowsGrow(visits, front);
      assert visits + more == (visits + front) + [last];
      WindowsMore(visits + front, last);
    }
  }

  lemma {:induction false} FirstsStay(windows: seq<XSource>, more: seq<XSource>, post: string, cluster: string)
    ensures FirstBinding(windows, post).Some? ==> FirstBinding(windows + more, post) == FirstBinding(windows, post)
    ensures FirstSight(windows, cluster).Some? ==> FirstSight(windows + more, cluster) == FirstSight(windows, cluster)
  {
    hide BindingIn, SeenIn;
    if more == [] {
      assert windows + more == windows;
    } else {
      var front, last := more[..|more| - 1], more[|more| - 1];
      FirstsStay(windows, front, post, cluster);
      assert windows + more == (windows + front) + [last];
      FirstBindingMore(windows + front, last, post);
      FirstSightMore(windows + front, last, cluster);
    }
  }

  lemma MeaningStays(v: View, w: View, before: seq<XSource>, after: seq<XSource>, post: string, cluster: string)
    requires Means(v, before) && Means(w, after) && before <= after
    ensures post in v.bindings ==> post in w.bindings && w.bindings[post].cluster == v.bindings[post].cluster
    ensures Retained(v, cluster) ==> Retained(w, cluster) && FirstSeen(w, cluster) == FirstSeen(v, cluster)
  {
    hide FirstBinding, FirstSight;
    assert after == before + after[|before|..];
    FirstsStay(before, after[|before|..], post, cluster);
    if post in v.bindings { assert FirstBinding(before, post) == Some(v.bindings[post].cluster); }
  }

  /** No later bundle, copy or repost rebinds a post or refreshes a cluster's first-seen time. */
  lemma NothingIsRefreshed(visits: seq<Visit>, more: seq<Visit>, v: View, w: View, post: string, cluster: string)
    requires forall i :: 0 <= i < |visits + more| ==> BundleOk((visits + more)[i].bundle)
    requires v == ViewOf(Fold(visits)) && w == ViewOf(Fold(visits + more))
    ensures post in v.bindings ==> post in w.bindings && w.bindings[post].cluster == v.bindings[post].cluster
    ensures Retained(v, cluster) ==> Retained(w, cluster) && FirstSeen(w, cluster) == FirstSeen(v, cluster)
  {
    forall i | 0 <= i < |visits| ensures BundleOk(visits[i].bundle) { assert visits[i] == (visits + more)[i]; }
    hide BundleOk, Fold, Windows, FactsOk, Exclusive, WithinCap, ViewOf, Means;
    FoldIsFaithful(visits);
    FoldIsFaithful(visits + more);
    WindowsGrow(visits, more);
    MeaningStays(v, w, Windows(visits), Windows(visits + more), post, cluster);
  }
}
