/** Tables keyed by strings: a map while it is being updated, and the list of its entries in key order
    when it is stored. */
module Tables {
  import opened Order

  /** Every entry is stored under its own key. */
  ghost predicate Keyed<V(!new)>(m: map<string, V>, key: V -> string)
  {
    forall k :: k in m ==> key(m[k]) == k
  }

  /** `isUniqueSortedStrings` over the keys. */
  ghost predicate KeySorted<V(!new)>(xs: seq<V>, key: V -> string)
  {
    forall i, j :: 0 <= i < j < |xs| ==> Less(key(xs[i]), key(xs[j]))
  }

  /** `new Map(xs.map((x) => [key(x), x]))`. */
  function Index<V>(xs: seq<V>, key: V -> string): map<string, V>
  {
    if xs == [] then map[] else Index(xs[..|xs| - 1], key)[key(xs[|xs| - 1]) := xs[|xs| - 1]]
  }

  /** `[...m.values()].sort(by key)`. */
  ghost function Table<V(!new)>(m: map<string, V>): (r: seq<V>)
    ensures |r| == |m|
  {
    var keys := SortedStrings(m.Keys);
    seq(|keys|, i requires 0 <= i < |keys| => assert keys[i] in m.Keys; m[keys[i]])
  }

  lemma TableSorted<V(!new)>(m: map<string, V>, key: V -> string)
    requires Keyed(m, key)
    ensures KeySorted(Table(m), key)
    ensures forall x :: x in Table(m) <==> x in m.Values
    ensures forall k :: k in m ==> m[k] in Table(m)
    ensures forall x :: x in Table(m) ==> key(x) in m && m[key(x)] == x
  {
    var keys := SortedStrings(m.Keys);
    var t := Table(m);
    forall i | 0 <= i < |t| ensures key(t[i]) == keys[i] && keys[i] in m && t[i] == m[keys[i]] { assert keys[i] in keys; }
    forall k | k in m ensures m[k] in t {
      assert k in keys;
      var i :| 0 <= i < |keys| && keys[i] == k;
      assert t[i] == m[k];
    }
  }

  lemma {:induction false} IndexMembers<V(!new)>(xs: seq<V>, key: V -> string)
    requires KeySorted(xs, key)
    ensures Keyed(Index(xs, key), key)
    ensures forall x :: x in xs ==> key(x) in Index(xs, key) && Index(xs, key)[key(x)] == x
    ensures forall k :: k in Index(xs, key) ==> Index(xs, key)[k] in xs
    ensures |Index(xs, key)| == |xs|
  {
    if xs == [] {
    } else {
      hide Less;
      var front, last := xs[..|xs| - 1], xs[|xs| - 1];
      IndexMembers(front, key);
      forall x | x in front ensures key(x) != key(last) {
        var i :| 0 <= i < |front| && front[i] == x;
        assert Less(key(xs[i]), key(xs[|xs| - 1]));
        LessIrreflexive(key(x));
      }
      assert key(last) !in Index(front, key);
    }
  }

  /** A sorted list is the table of its own index. */
  lemma TableOfIndex<V(!new)>(xs: seq<V>, key: V -> string)
    requires KeySorted(xs, key)
    ensures Table(Index(xs, key)) == xs
  {
    var m := Index(xs, key);
    IndexMembers(xs, key);
    TableSorted(m, key);
    var t := Table(m);
    forall x ensures x in t <==> x in xs {
      if x in t { assert m[key(x)] == x; }
    }
    var less := (a, b) => Less(key(a), key(b));
    forall a, b, c | less(a, b) && less(b, c) ensures less(a, c) { LessTransitive(key(a), key(b), key(c)); }
    forall a ensures !less(a, a) { LessIrreflexive(key(a)); }
    IncreasingUnique(t, xs, less);
  }

  /** The index of a table is the map it lists. */
  lemma IndexOfTable<V(!new)>(m: map<string, V>, key: V -> string)
    requires Keyed(m, key)
    ensures Index(Table(m), key) == m
  {
    TableSorted(m, key);
    IndexMembers(Table(m), key);
    hide Table, Index, KeySorted;
    SameMap(m, Index(Table(m), key), Table(m), key);
  }

  lemma SameMap<V(!new)>(m: map<string, V>, n: map<string, V>, xs: seq<V>, key: V -> string)
    requires forall k :: k in m ==> m[k] in xs && key(m[k]) == k
    requires forall x :: x in xs ==> key(x) in m && m[key(x)] == x && key(x) in n && n[key(x)] == x
    requires forall k :: k in n ==> n[k] in xs && key(n[k]) == k
    ensures n == m
  {
    forall k | k in m ensures k in n && n[k] == m[k] { assert m[k] in xs; }
    forall k | k in n ensures k in m { assert n[k] in xs; }
  }
}
