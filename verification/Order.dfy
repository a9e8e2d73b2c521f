/** The string order of the source's `compareStrings`, and a stable insertion sort standing for
    `Array.prototype.sort` with a comparator. */
module Order {

  /** Lexicographic order on character codes. */
  predicate Less(a: string, b: string)
  {
    if b == [] then false
    else if a == [] then true
    else if a[0] == b[0] then Less(a[1..], b[1..])
    else a[0] < b[0]
  }

  lemma {:induction false} LessIrreflexive(a: string)
    ensures !Less(a, a)
  {
    if a == [] {
    } else {
      LessIrreflexive(a[1..]);
    }
  }

  lemma {:induction false} LessTotal(a: string, b: string)
    ensures a == b || Less(a, b) || Less(b, a)
  {
    if a != [] && b != [] && a[0] == b[0] {
      LessTotal(a[1..], b[1..]);
      assert a == [a[0]] + a[1..] && b == [b[0]] + b[1..];
    }
  }

  lemma {:induction false} LessTransitive(a: string, b: string, c: string)
    requires Less(a, b) && Less(b, c)
    ensures Less(a, c)
  {
    if a != [] && a[0] == b[0] == c[0] { LessTransitive(a[1..], b[1..], c[1..]); }
  }

  /** A prefix comes first when what follows it is smaller than anything the longer string can hold. */
  lemma {:induction false} LessSeparated(a: string, b: string, x: string, y: string, low: char)
    requires Less(a, b)
    requires forall i :: 0 <= i < |b| ==> low < b[i]
    ensures Less(a + [low] + x, b + [low] + y)
  {
    var l, r := a + [low] + x, b + [low] + y;
    if a != [] && a[0] == b[0] {
      LessSeparated(a[1..], b[1..], x, y, low);
      assert l[1..] == a[1..] + [low] + x && r[1..] == b[1..] + [low] + y;
    }
  }

  lemma {:induction false} LessCommonPrefix(p: string, x: string, y: string)
    requires Less(x, y)
    ensures Less(p + x, p + y)
  {
    if p == [] {
      assert p + x == x && p + y == y;
    } else {
      LessCommonPrefix(p[1..], x, y);
      assert (p + x)[1..] == p[1..] + x && (p + y)[1..] == p[1..] + y;
    }
  }

  // ---------------------------------------------------------------- sorting

  /** Strictly increasing: the source's `isUniqueSorted`. */
  ghost predicate Increasing<T(!new)>(xs: seq<T>, less: (T, T) -> bool)
  {
    forall i, j :: 0 <= i < j < |xs| ==> less(xs[i], xs[j])
  }

  ghost predicate Transitive<T(!new)>(less: (T, T) -> bool)
  {
    forall a, b, c :: less(a, b) && less(b, c) ==> less(a, c)
  }

  lemma LessOrder()
    ensures Transitive(Less) && forall a :: !Less(a, a)
  {
    forall a, b, c | Less(a, b) && Less(b, c) ensures Less(a, c) { LessTransitive(a, b, c); }
    forall a ensures !Less(a, a) { LessIrreflexive(a); }
  }

  /** Any two entries at different places compare one way or the other. */
  ghost predicate Comparable<T(!new)>(xs: seq<T>, less: (T, T) -> bool)
  {
    forall i, j :: 0 <= i < j < |xs| ==> less(xs[i], xs[j]) || less(xs[j], xs[i])
  }

  function Insert<T>(x: T, xs: seq<T>, less: (T, T) -> bool): (r: seq<T>)
    ensures multiset(r) == multiset(xs) + multiset{x}
    ensures |r| == |xs| + 1
  {
    if xs == [] then [x]
    else if less(x, xs[0]) then [x] + xs
    else
      assert xs == [xs[0]] + xs[1..];
      [xs[0]] + Insert(x, xs[1..], less)
  }

  function Sort<T>(xs: seq<T>, less: (T, T) -> bool): (r: seq<T>)
    ensures multiset(r) == multiset(xs)
    ensures |r| == |xs|
  {
    if xs == [] then []
    else
      assert xs == xs[..|xs| - 1] + [xs[|xs| - 1]];
      Insert(xs[|xs| - 1], Sort(xs[..|xs| - 1], less), less)
  }

  lemma MultisetMember<T>(xs: seq<T>, ys: seq<T>, x: T)
    requires multiset(xs) == multiset(ys)
    ensures x in xs <==> x in ys
  {
    assert x in multiset(xs) <==> x in xs;
    assert x in multiset(ys) <==> x in ys;
  }

  lemma SortMembers<T>(xs: seq<T>, less: (T, T) -> bool)
    ensures forall x :: x in Sort(xs, less) <==> x in xs
  {
    forall x ensures x in Sort(xs, less) <==> x in xs { MultisetMember(Sort(xs, less), xs, x); }
  }

  lemma {:induction false} InsertIncreasing<T(!new)>(x: T, xs: seq<T>, less: (T, T) -> bool)
    requires Increasing(xs, less) && Transitive(less)
    requires forall i :: 0 <= i < |xs| ==> less(x, xs[i]) || less(xs[i], x)
    ensures Increasing(Insert(x, xs, less), less)
  {
    if xs != [] && !less(x, xs[0]) {
      InsertIncreasing(x, xs[1..], less);
      var r := Insert(x, xs[1..], less);
      forall j | 0 <= j < |r| ensures less(xs[0], r[j]) {
        assert r[j] in multiset(r);
        assert r[j] in xs[1..] || r[j] == x;
      }
    }
  }

  lemma {:induction false} SortIncreasing<T(!new)>(xs: seq<T>, less: (T, T) -> bool)
    requires Comparable(xs, less) && Transitive(less)
    ensures Increasing(Sort(xs, less), less)
  {
    if xs == [] {
    } else {
      var front, last := xs[..|xs| - 1], xs[|xs| - 1];
      SortIncreasing(front, less);
      SortMembers(front, less);
      var s := Sort(front, less);
      forall i | 0 <= i < |s| ensures less(last, s[i]) || less(s[i], last) {
        assert s[i] in front;
        var k :| 0 <= k < |front| && front[k] == s[i];
        assert less(xs[k], xs[|xs| - 1]) || less(xs[|xs| - 1], xs[k]);
      }
      InsertIncreasing(last, s, less);
    }
  }

  /** Two strictly increasing sequences over the same entries are the same sequence. */
  lemma {:induction false} IncreasingUnique<T(!new)>(xs: seq<T>, ys: seq<T>, less: (T, T) -> bool)
    requires Increasing(xs, less) && Increasing(ys, less)
    requires Transitive(less) && (forall a :: !less(a, a))
    requires forall x :: x in xs <==> x in ys
    ensures xs == ys
  {
    assert |xs| > 0 ==> xs[0] in ys;
    assert |ys| > 0 ==> ys[0] in xs;
    if xs == [] {
    } else {
      var i :| 0 <= i < |ys| && ys[i] == xs[0];
      var j :| 0 <= j < |xs| && xs[j] == ys[0];
      var a, b := xs[0], ys[0];
      assert i > 0 ==> less(b, a);
      assert j > 0 ==> less(a, b);
      assert a == b;
      forall x ensures x in xs[1..] <==> x in ys[1..] {
        if x in xs[1..] {
          assert x in xs && x != xs[0];
          assert x in ys && ys == [ys[0]] + ys[1..];
        }
        if x in ys[1..] {
          assert x in ys && x != ys[0];
          assert x in xs && xs == [xs[0]] + xs[1..];
        }
      }
      IncreasingUnique(xs[1..], ys[1..], less);
    }
  }

  // ---------------------------------------------------------------- listing a set

  ghost function Pick<T>(s: set<T>): (x: T)
    requires s != {}
    ensures x in s
  {
    var x :| x in s; x
  }

  ghost function Listing<T(!new)>(s: set<T>): (r: seq<T>)
    ensures forall x :: x in r <==> x in s
    ensures forall i, j :: 0 <= i < j < |r| ==> r[i] != r[j]
    ensures |r| == |s|
    decreases |s|
  {
    if s == {} then [] else var x :| x in s; [x] + Listing(s - {x})
  }

  /** The strings of a set in increasing order. */
  ghost function SortedStrings(s: set<string>): (r: seq<string>)
    ensures forall x :: x in r <==> x in s
    ensures |r| == |s|
    ensures Increasing(r, Less)
  {
    ListingSorts(s);
    SortMembers(Listing(s), Less);
    Sort(Listing(s), Less)
  }

  lemma ListingSorts(s: set<string>)
    ensures Increasing(Sort(Listing(s), Less), Less)
  {
    var l := Listing(s);
    forall i, j | 0 <= i < j < |l| ensures Less(l[i], l[j]) || Less(l[j], l[i]) { LessTotal(l[i], l[j]); }
    LessOrder();
    SortIncreasing(l, Less);
  }

  /** The increasing listing of a set is the only one. */
  lemma SortedStringsUnique(s: set<string>, xs: seq<string>)
    requires Increasing(xs, Less) && forall x :: x in xs <==> x in s
    ensures xs == SortedStrings(s)
  {
    LessOrder();
    IncreasingUnique(xs, SortedStrings(s), Less);
  }
}
