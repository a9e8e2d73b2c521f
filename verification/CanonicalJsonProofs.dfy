/** Canonical text is self-delimiting, so two values print alike exactly when they are the same
    value up to the order in which object fields were inserted. */
module CanonicalJsonProofs {
  import opened Hex
  import opened Order
  import opened Wrappers
  import opened CanonicalJson

  /** Equal up to the insertion order of object fields, at every depth. */
  ghost predicate SameValue(v: Json, w: Json)
    decreases v
  {
    match v
    case JArr(items) =>
      && w.JArr?
      && |items| == |w.items|
      && forall i :: 0 <= i < |items| ==> SameValue(items[i], w.items[i])
    case JObj(fields) =>
      && w.JObj?
      && |fields| == |w.fields|
      && forall f :: f in fields ==> exists g :: g in w.fields && g.key == f.key && SameValue(f.value, g.value)
    case _ => v == w
  }

  /** What may follow a printed value: nothing that could extend a number. */
  ghost predicate Closes(s: string) { s == [] || !Digit(s[0]) }

  ghost function Pieces(items: seq<Json>): (r: seq<string>)
    ensures |r| == |items|
  {
    seq(|items|, i requires 0 <= i < |items| => Print(items[i]))
  }

  ghost function FieldText(f: Field): string { Quote(f.key) + [':'] + Print(f.value) }

  ghost function FieldPieces(fields: seq<Field>): (r: seq<string>)
    ensures |r| == |fields|
  {
    seq(|fields|, i requires 0 <= i < |fields| => FieldText(fields[i]))
  }

  lemma PrintArr(items: seq<Json>)
    ensures Print(JArr(items)) == ['['] + Join(Pieces(items)) + [']']
  {
    assert seq(|items|, i requires 0 <= i < |items| => Print(items[i])) == Pieces(items);
  }

  lemma PrintObj(fields: seq<Field>)
    ensures Print(JObj(fields)) == ['{'] + Join(FieldPieces(Sorted(fields))) + ['}']
  {
    var sorted := Sorted(fields);
    assert seq(|sorted|, i requires 0 <= i < |sorted| =>
        assert sorted[i] in fields;
        Quote(sorted[i].key) + [':'] + Print(sorted[i].value)) == FieldPieces(sorted);
  }

  // ---------------------------------------------------------------- strings and numbers

  lemma EscapePrefix(c: char, d: char, s: string, t: string)
    requires Escape(c) + s == Escape(d) + t
    ensures c == d && s == t
  {
    var l, r := Escape(c) + s, Escape(d) + t;
    assert l[0] == Escape(c)[0] && r[0] == Escape(d)[0];
    assert |l| > 1 && |Escape(c)| > 1 ==> l[1] == Escape(c)[1];
    assert |r| > 1 && |Escape(d)| > 1 ==> r[1] == Escape(d)[1];
    if |Escape(c)| == 6 && |Escape(d)| == 6 {
      assert l[4] == Escape(c)[4] && r[4] == Escape(d)[4] && l[5] == Escape(c)[5] && r[5] == Escape(d)[5];
    }
    assert c == d;
    assert l[|Escape(c)|..] == s && r[|Escape(d)|..] == t;
  }

  /** What is left of a quoted string once the opening quote is read. */
  ghost function Quoted(a: string, s: string): string { EscapeAll(a) + (['"'] + s) }

  lemma QuotedStep(a: string, s: string)
    requires a != []
    ensures Quoted(a, s) == Escape(a[0]) + Quoted(a[1..], s)
    ensures |Quoted(a, s)| > 0 && Quoted(a, s)[0] != '"'
  {
    var e, f, g := Escape(a[0]), EscapeAll(a[1..]), ['"'] + s;
    assert (e + f) + g == e + (f + g);
    assert |e| > 0 && e[0] != '"';
  }

  lemma QuotedEnd(s: string)
    ensures Quoted([], s) == ['"'] + s && Quoted([], s)[0] == '"'
  {}

  lemma Cancel(p: string, s: string, t: string)
    requires p + s == p + t
    ensures s == t
  {
    assert (p + s)[|p|..] == s && (p + t)[|p|..] == t;
  }

  lemma {:induction false} QuotedPrefix(a: string, b: string, s: string, t: string)
    requires Quoted(a, s) == Quoted(b, t)
    ensures a == b && s == t
  {
    if a != [] { QuotedStep(a, s); } else { QuotedEnd(s); }
    if b != [] { QuotedStep(b, t); } else { QuotedEnd(t); }
    if a == [] {
      Cancel(['"'], s, t);
    } else {
      EscapePrefix(a[0], b[0], Quoted(a[1..], s), Quoted(b[1..], t));
      QuotedPrefix(a[1..], b[1..], s, t);
      assert a == [a[0]] + a[1..] && b == [b[0]] + b[1..];
    }
  }

  lemma QuotePrefix(a: string, b: string, s: string, t: string)
    requires Quote(a) + s == Quote(b) + t
    ensures a == b && s == t
  {
    var l, r := Quote(a) + s, Quote(b) + t;
    assert l == ['"'] + Quoted(a, s) && r == ['"'] + Quoted(b, t);
    Cancel(['"'], Quoted(a, s), Quoted(b, t));
    QuotedPrefix(a, b, s, t);
  }

  lemma {:induction false} DigitsAllDigits(n: nat)
    ensures |Digits(n)| > 0 && forall i :: 0 <= i < |Digits(n)| ==> Digit(Digits(n)[i])
  {
    if n >= 10 { DigitsAllDigits(n / 10); }
  }

  lemma {:induction false} DigitsInjective(m: nat, n: nat)
    requires Digits(m) == Digits(n)
    ensures m == n
  {
    var a, b := Digits(m), Digits(n);
    DigitsAllDigits(m / 10);
    DigitsAllDigits(n / 10);
    assert a[|a| - 1] == '0' + ((m % 10) as char) && b[|b| - 1] == '0' + ((n % 10) as char);
    if m >= 10 && n >= 10 {
      assert a[..|a| - 1] == Digits(m / 10) && b[..|b| - 1] == Digits(n / 10);
      DigitsInjective(m / 10, n / 10);
    }
  }

  lemma IntPrefix(m: int, n: int, s: string, t: string)
    requires PrintInt(m) + s == PrintInt(n) + t && Closes(s) && Closes(t)
    ensures m == n && s == t
  {
    var i, j := if m < 0 then -m else m, if n < 0 then -n else n;
    DigitsAllDigits(i);
    DigitsAllDigits(j);
    var l, r := PrintInt(m) + s, PrintInt(n) + t;
    assert l[0] == PrintInt(m)[0] && r[0] == PrintInt(n)[0];
    assert (m < 0) == (n < 0);
    var p, q := PrintInt(m), PrintInt(n);
    assert |p| < |l| ==> l[|p|] == s[0];
    assert |q| < |r| ==> r[|q|] == t[0];
    assert forall k :: 0 <= k < |p| ==> l[k] == p[k];
    assert forall k :: 0 <= k < |q| ==> l[k] == q[k];
    assert |p| == |q|;
    assert p == l[..|p|] == q;
    assert s == l[|p|..] == t;
    assert Digits(i) == p[|p| - |Digits(i)|..] && Digits(j) == q[|q| - |Digits(j)|..];
    DigitsInjective(i, j);
  }

  // ---------------------------------------------------------------- values

  /** The first character of a printed value tells its kind, and is never a closing bracket or comma. */
  ghost predicate Head(v: Json, c: char)
  {
    match v
    case JNull => c == 'n'
    case JBool(b) => c == (if b then 't' else 'f')
    case JNum(_) => c == '-' || Digit(c)
    case JStr(_) => c == '"'
    case JArr(_) => c == '['
    case JObj(_) => c == '{'
  }

  lemma PrintHead(v: Json)
    ensures |Print(v)| > 0 && Head(v, Print(v)[0])
  {
    if v.JNum? { DigitsAllDigits(if v.n < 0 then -v.n else v.n); }
  }

  /** What follows the opening bracket of a list of printed pieces closed by `close`. */
  ghost function Listed(pieces: seq<string>, close: char, s: string): string { Join(pieces) + ([close] + s) }

  ghost function AfterFirst(pieces: seq<string>, close: char, s: string): string
    requires pieces != []
  {
    if |pieces| == 1 then [close] + s else [','] + Listed(pieces[1..], close, s)
  }

  lemma ListedStep(pieces: seq<string>, close: char, s: string)
    requires pieces != []
    ensures Listed(pieces, close, s) == pieces[0] + AfterFirst(pieces, close, s)
  {
    var a, b, c := pieces[0], Join(pieces[1..]), [close] + s;
    if |pieces| > 1 {
      assert Join(pieces) == a + [','] + b;
      assert (a + [','] + b) + c == a + ([','] + (b + c));
    }
  }

  lemma AfterFirstAgree(ps: seq<string>, qs: seq<string>, close: char, s: string, t: string)
    requires ps != [] && qs != [] && close != ','
    requires AfterFirst(ps, close, s) == AfterFirst(qs, close, t)
    ensures |ps| == 1 <==> |qs| == 1
    ensures |ps| == 1 ==> s == t
    ensures |ps| > 1 ==> Listed(ps[1..], close, s) == Listed(qs[1..], close, t)
  {
    assert AfterFirst(ps, close, s)[0] == (if |ps| == 1 then close else ',');
    assert AfterFirst(qs, close, t)[0] == (if |qs| == 1 then close else ',');
    if |ps| == 1 {
      Cancel([close], s, t);
    } else {
      Cancel([','], Listed(ps[1..], close, s), Listed(qs[1..], close, t));
    }
  }

  lemma ListedEnd(close: char, s: string)
    ensures Listed([], close, s) == [close] + s && Listed([], close, s)[0] == close
  {}

  lemma Bracketed(open: char, pieces: seq<string>, close: char, s: string)
    ensures [open] + Join(pieces) + [close] + s == [open] + Listed(pieces, close, s)
  {
    var j := Join(pieces);
    assert ([open] + j + [close]) + s == [open] + (j + ([close] + s));
  }

  lemma {:induction false} PrintPrefix(v: Json, w: Json, s: string, t: string)
    requires Proper(v) && Proper(w)
    requires Print(v) + s == Print(w) + t && Closes(s) && Closes(t)
    ensures SameValue(v, w) && s == t
    decreases v, 0
  {
    PrintHead(v);
    PrintHead(w);
    var l, r := Print(v) + s, Print(w) + t;
    assert l[0] == Print(v)[0] && r[0] == Print(w)[0];
    match v
    case JNull => Cancel(Print(v), s, t);
    case JBool(b) => Cancel(Print(v), s, t);
    case JNum(n) => IntPrefix(n, w.n, s, t);
    case JStr(x) => QuotePrefix(x, w.s, s, t);
    case JArr(items) => ArrPrefix(v, w, s, t);
    case JObj(fields) => ObjPrefix(v, w, s, t);
  }

  lemma {:induction false} ArrPrefix(v: Json, w: Json, s: string, t: string)
    requires v.JArr? && w.JArr? && Proper(v) && Proper(w)
    requires Print(v) + s == Print(w) + t
    ensures SameValue(v, w) && s == t
    decreases v, 0, 1
  {
    PrintArr(v.items);
    PrintArr(w.items);
    var p, q := Pieces(v.items), Pieces(w.items);
    Bracketed('[', p, ']', s);
    Bracketed('[', q, ']', t);
    Cancel(['['], Listed(p, ']', s), Listed(q, ']', t));
    ItemsPrefix(v.items, w.items, s, t);
  }

  lemma {:induction false} ObjPrefix(v: Json, w: Json, s: string, t: string)
    requires v.JObj? && w.JObj? && Proper(v) && Proper(w)
    requires Print(v) + s == Print(w) + t
    ensures SameValue(v, w) && s == t
    decreases v, 0, 1
  {
    PrintObj(v.fields);
    PrintObj(w.fields);
    var a, b := Sorted(v.fields), Sorted(w.fields);
    var p, q := FieldPieces(a), FieldPieces(b);
    Bracketed('{', p, '}', s);
    Bracketed('{', q, '}', t);
    Cancel(['{'], Listed(p, '}', s), Listed(q, '}', t));
    FieldsPrefix(v, a, b, s, t);
    SortedSame(v.fields, w.fields);
  }

  lemma SortedSame(fields: seq<Field>, gields: seq<Field>)
    requires |fields| == |gields|
    requires var a, b := Sorted(fields), Sorted(gields);
             forall i :: 0 <= i < |a| ==> a[i].key == b[i].key && SameValue(a[i].value, b[i].value)
    ensures SameValue(JObj(fields), JObj(gields))
  {
    var a, b := Sorted(fields), Sorted(gields);
    forall f | f in fields
      ensures exists g :: g in gields && g.key == f.key && SameValue(f.value, g.value)
    {
      assert f in a;
      var i :| 0 <= i < |a| && a[i] == f;
      assert b[i] in gields;
    }
  }

  lemma {:induction false} ItemsPrefix(vs: seq<Json>, ws: seq<Json>, s: string, t: string)
    requires forall x :: x in vs ==> Proper(x)
    requires forall x :: x in ws ==> Proper(x)
    requires Listed(Pieces(vs), ']', s) == Listed(Pieces(ws), ']', t)
    ensures |vs| == |ws| && s == t
    ensures forall i :: 0 <= i < |vs| ==> SameValue(vs[i], ws[i])
    decreases vs, 1
  {
    var p, q := Pieces(vs), Pieces(ws);
    if vs == [] { ListedEnd(']', s); } else { PrintHead(vs[0]); ListedStep(p, ']', s); }
    if ws == [] { ListedEnd(']', t); } else { PrintHead(ws[0]); ListedStep(q, ']', t); }
    if vs == [] {
      Cancel([']'], s, t);
    } else {
      PrintPrefix(vs[0], ws[0], AfterFirst(p, ']', s), AfterFirst(q, ']', t));
      AfterFirstAgree(p, q, ']', s, t);
      if |vs| > 1 {
        assert p[1..] == Pieces(vs[1..]) && q[1..] == Pieces(ws[1..]);
        ItemsPrefix(vs[1..], ws[1..], s, t);
      }
      forall i | 0 <= i < |vs| ensures |vs| == |ws| && SameValue(vs[i], ws[i]) {
        assert i > 0 ==> vs[i] == vs[1..][i - 1] && ws[i] == ws[1..][i - 1];
      }
    }
  }

  lemma FieldTextThen(f: Field, s: string)
    ensures FieldText(f) + s == Quote(f.key) + ([':'] + (Print(f.value) + s))
  {
    var q, p := Quote(f.key), Print(f.value);
    assert (q + [':'] + p) + s == q + ([':'] + (p + s));
  }

  lemma {:induction false} FieldsPrefix(v: Json, vs: seq<Field>, ws: seq<Field>, s: string, t: string)
    requires v.JObj? && forall f :: f in vs ==> f in v.fields
    requires forall f :: f in vs ==> Proper(f.value)
    requires forall f :: f in ws ==> Proper(f.value)
    requires Listed(FieldPieces(vs), '}', s) == Listed(FieldPieces(ws), '}', t)
    ensures |vs| == |ws| && s == t
    ensures forall i :: 0 <= i < |vs| ==> vs[i].key == ws[i].key && SameValue(vs[i].value, ws[i].value)
    decreases v, 0, 0, vs
  {
    var p, q := FieldPieces(vs), FieldPieces(ws);
    if vs == [] { ListedEnd('}', s); } else { ListedStep(p, '}', s); }
    if ws == [] { ListedEnd('}', t); } else { ListedStep(q, '}', t); }
    if vs == [] {
      Cancel(['}'], s, t);
    } else {
      var ls, rs := AfterFirst(p, '}', s), AfterFirst(q, '}', t);
      FieldTextThen(vs[0], ls);
      FieldTextThen(ws[0], rs);
      var x, y := Print(vs[0].value) + ls, Print(ws[0].value) + rs;
      QuotePrefix(vs[0].key, ws[0].key, [':'] + x, [':'] + y);
      Cancel([':'], x, y);
      assert vs[0] in v.fields;
      PrintPrefix(vs[0].value, ws[0].value, ls, rs);
      AfterFirstAgree(p, q, '}', s, t);
      if |vs| > 1 {
        assert p[1..] == FieldPieces(vs[1..]) && q[1..] == FieldPieces(ws[1..]);
        FieldsPrefix(v, vs[1..], ws[1..], s, t);
      }
      forall i | 0 <= i < |vs|
        ensures |vs| == |ws| && vs[i].key == ws[i].key && SameValue(vs[i].value, ws[i].value)
      {
        assert i > 0 ==> vs[i] == vs[1..][i - 1] && ws[i] == ws[1..][i - 1];
      }
    }
  }

  // ---------------------------------------------------------------- the other direction

  lemma SortedIncreasing(fields: seq<Field>)
    requires DistinctKeys(fields)
    ensures Increasing(Sorted(fields), KeyLess)
  {
    forall i, j | 0 <= i < j < |fields| ensures KeyLess(fields[i], fields[j]) || KeyLess(fields[j], fields[i]) {
      LessTotal(fields[i].key, fields[j].key);
    }
    KeyLessTransitive();
    SortIncreasing(fields, KeyLess);
  }

  lemma KeyLessTransitive()
    ensures Transitive(KeyLess) && forall f :: !KeyLess(f, f)
  {
    forall a, b, c | KeyLess(a, b) && KeyLess(b, c) ensures KeyLess(a, c) { LessTransitive(a.key, b.key, c.key); }
    forall f ensures !KeyLess(f, f) { LessIrreflexive(f.key); }
  }

  ghost function Keys(fields: seq<Field>): (r: seq<string>)
    ensures |r| == |fields|
  {
    seq(|fields|, i requires 0 <= i < |fields| => fields[i].key)
  }

  lemma KeysMember(fields: seq<Field>, f: Field)
    requires f in fields
    ensures f.key in Keys(fields)
  {
    var i :| 0 <= i < |fields| && fields[i] == f;
    assert Keys(fields)[i] == f.key;
  }

  lemma KeysSubset(a: seq<Field>, b: seq<Field>)
    requires Covers(b, a)
    ensures forall k :: k in Keys(a) ==> k in Keys(b)
  {
    forall k | k in Keys(a) ensures k in Keys(b) {
      var i :| 0 <= i < |a| && Keys(a)[i] == k;
      assert a[i] in a;
      var g :| g in b && g.key == k;
      KeysMember(b, g);
    }
  }

  /** Every key of `fields` is a key of `others`. */
  ghost predicate Covers(others: seq<Field>, fields: seq<Field>)
  {
    forall f :: f in fields ==> exists g :: g in others && g.key == f.key
  }

  lemma CoversSorted(others: seq<Field>, fields: seq<Field>)
    requires Covers(others, fields)
    ensures Covers(Sorted(others), Sorted(fields))
  {
    forall f | f in Sorted(fields) ensures exists g :: g in Sorted(others) && g.key == f.key {
      var g :| g in others && g.key == f.key;
      assert g in Sorted(others);
    }
  }

  /** Sorting the same keys gives the same keys in the same places. */
  lemma SortedKeysAgree(a: seq<Field>, b: seq<Field>)
    requires Increasing(a, KeyLess) && Increasing(b, KeyLess)
    requires Covers(b, a)
    requires Covers(a, b)
    ensures Keys(a) == Keys(b)
  {
    LessOrder();
    KeysSubset(a, b);
    KeysSubset(b, a);
    forall i, j | 0 <= i < j < |a| ensures Less(Keys(a)[i], Keys(a)[j]) { assert KeyLess(a[i], a[j]); }
    forall i, j | 0 <= i < j < |b| ensures Less(Keys(b)[i], Keys(b)[j]) { assert KeyLess(b[i], b[j]); }
    IncreasingUnique(Keys(a), Keys(b), Less);
  }

  /** Injective keys on both sides and an embedding of one into the other: the embedding is onto. */
  lemma {:induction false} KeysOnto(fs: seq<Field>, gs: seq<Field>)
    requires DistinctKeys(fs) && DistinctKeys(gs) && |fs| == |gs|
    requires Covers(gs, fs)
    ensures Covers(fs, gs)
  {
    var ks, ls := set f | f in fs :: f.key, set g | g in gs :: g.key;
    KeyCount(fs);
    KeyCount(gs);
    assert ks <= ls;
    SubsetSameSize(ks, ls);
    forall g | g in gs ensures exists f :: f in fs && f.key == g.key { assert g.key in ls; }
  }

  lemma {:induction false} KeyCount(fs: seq<Field>)
    requires DistinctKeys(fs)
    ensures |set f | f in fs :: f.key| == |fs|
  {
    if fs == [] {
    } else {
      KeyCount(fs[1..]);
      var rest := set f | f in fs[1..] :: f.key;
      assert fs == [fs[0]] + fs[1..];
      assert (set f | f in fs :: f.key) == rest + {fs[0].key};
      assert fs[0].key !in rest;
    }
  }

  lemma SubsetSameSize<T>(a: set<T>, b: set<T>)
    requires a <= b && |a| == |b|
    ensures a == b
  {
    assert b == a + (b - a);
    assert |b| == |a| + |b - a|;
  }

  lemma {:induction false} SamePrints(v: Json, w: Json)
    requires Proper(v) && Proper(w) && SameValue(v, w)
    ensures Print(v) == Print(w)
    decreases v
  {
    match v
    case JArr(items) =>
      PrintArr(items);
      PrintArr(w.items);
      forall i | 0 <= i < |items| ensures Print(items[i]) == Print(w.items[i]) { SamePrints(items[i], w.items[i]); }
      assert Pieces(items) == Pieces(w.items);
    case JObj(fields) => SameObjectsPrint(v, w);
    case _ =>
  }

  lemma {:induction false} SameObjectsPrint(v: Json, w: Json)
    requires v.JObj? && w.JObj? && Proper(v) && Proper(w) && SameValue(v, w)
    ensures Print(v) == Print(w)
    decreases v, 0
  {
    PrintObj(v.fields);
    PrintObj(w.fields);
    var a, b := Sorted(v.fields), Sorted(w.fields);
    SameObjectsKeys(v.fields, w.fields);
    forall i | 0 <= i < |a| ensures FieldText(a[i]) == FieldText(b[i]) {
      assert a[i] in v.fields && b[i] in w.fields;
      assert Keys(a)[i] == Keys(b)[i];
      var g :| g in w.fields && g.key == a[i].key && SameValue(a[i].value, g.value);
      SameKeySameField(w.fields, g, b[i]);
      SamePrints(a[i].value, b[i].value);
    }
    assert FieldPieces(a) == FieldPieces(b);
  }

  lemma SameObjectsKeys(fields: seq<Field>, gields: seq<Field>)
    requires DistinctKeys(fields) && DistinctKeys(gields) && |fields| == |gields|
    requires Covers(gields, fields)
    ensures Keys(Sorted(fields)) == Keys(Sorted(gields))
  {
    var a, b := Sorted(fields), Sorted(gields);
    KeysOnto(fields, gields);
    SortedIncreasing(fields);
    SortedIncreasing(gields);
    CoversSorted(gields, fields);
    CoversSorted(fields, gields);
    SortedKeysAgree(a, b);
  }

  lemma SameKeySameField(fields: seq<Field>, f: Field, g: Field)
    requires DistinctKeys(fields) && f in fields && g in fields && f.key == g.key
    ensures f == g
  {
    var i :| 0 <= i < |fields| && fields[i] == f;
    var j :| 0 <= j < |fields| && fields[j] == g;
    assert i == j;
  }

  /** Canonical text is insensitive to field order and injective on everything else. */
  lemma PrintInjective(v: Json, w: Json)
    requires Proper(v) && Proper(w)
    ensures Print(v) == Print(w) <==> SameValue(v, w)
  {
    if Print(v) == Print(w) { PrintPrefix(v, w, [], []); }
    if SameValue(v, w) { SamePrints(v, w); }
  }

  lemma SameValueSymmetric(v: Json, w: Json)
    requires Proper(v) && Proper(w) && SameValue(v, w)
    ensures SameValue(w, v)
  {
    PrintInjective(v, w);
    PrintInjective(w, v);
  }

  lemma Matching(v: Json, w: Json, f: Field) returns (g: Field)
    requires v.JObj? && w.JObj? && SameValue(v, w) && f in v.fields
    ensures g in w.fields && g.key == f.key && SameValue(f.value, g.value) && |v.fields| == |w.fields|
  {
    g :| g in w.fields && g.key == f.key && SameValue(f.value, g.value);
  }

  lemma SameCovers(v: Json, w: Json)
    requires v.JObj? && w.JObj? && SameValue(v, w)
    ensures Covers(w.fields, v.fields) && |v.fields| == |w.fields|
  {}

  lemma Covering(others: seq<Field>, fields: seq<Field>, f: Field) returns (g: Field)
    requires Covers(others, fields) && f in fields
    ensures g in others && g.key == f.key
  {
    g :| g in others && g.key == f.key;
  }

  /** Every field of the second object has its counterpart in the first. */
  lemma Counterpart(v: Json, w: Json, g: Field) returns (f: Field)
    requires v.JObj? && w.JObj? && DistinctKeys(v.fields) && DistinctKeys(w.fields) && SameValue(v, w) && g in w.fields
    ensures f in v.fields && f.key == g.key && SameValue(f.value, g.value)
  {
    hide SameValue, DistinctKeys, Covers;
    SameCovers(v, w);
    KeysOnto(v.fields, w.fields);
    f := Covering(v.fields, w.fields, g);
    var h := Matching(v, w, f);
    SameKeySameField(w.fields, g, h);
  }

  lemma {:induction false} SerializableSame(v: Json, w: Json, depth: nat, limit: nat)
    requires Proper(v) && Proper(w) && SameValue(v, w) && Serializable(v, depth, limit)
    ensures Serializable(w, depth, limit)
    decreases w
  {
    match w
    case JArr(items) =>
      forall i | 0 <= i < |items| ensures Serializable(items[i], depth + 1, limit) {
        SerializableSame(v.items[i], items[i], depth + 1, limit);
      }
    case JObj(fields) =>
      forall i | 0 <= i < |fields| ensures Serializable(fields[i].value, depth + 1, limit) {
        var f := Counterpart(v, w, fields[i]);
        var k :| 0 <= k < |v.fields| && v.fields[k] == f;
        assert Serializable(v.fields[k].value, depth + 1, limit);
        SerializableSame(f.value, fields[i].value, depth + 1, limit);
      }
    case _ =>
  }

  /** `canonicalJson` accepts or refuses two values alike when they differ only in field order, and two
      accepted values have the same text exactly when they differ in nothing else. */
  lemma CanonicalInjective(v: Json, w: Json)
    requires Proper(v) && Proper(w)
    ensures SameValue(v, w) ==> Canonical(v) == Canonical(w)
    ensures Canonical(v).Some? && Canonical(v) == Canonical(w) ==> SameValue(v, w)
  {
    PrintInjective(v, w);
    hide Proper, SameValue, Serializable, Print;
    if SameValue(v, w) {
      SameValueSymmetric(v, w);
      if Serializable(v, 0, MAX_CANONICAL_DEPTH) { SerializableSame(v, w, 0, MAX_CANONICAL_DEPTH); }
      if Serializable(w, 0, MAX_CANONICAL_DEPTH) { SerializableSame(w, v, 0, MAX_CANONICAL_DEPTH); }
    }
  }

  /** Objects written with the same fields in the same order agree field by field. */
  lemma SameFields(fields: seq<Field>, gields: seq<Field>, i: nat)
    requires SameValue(JObj(fields), JObj(gields)) && DistinctKeys(gields)
    requires i < |fields| && |fields| == |gields| && fields[i].key == gields[i].key
    ensures SameValue(fields[i].value, gields[i].value)
  {
    assert fields[i] in fields;
    var g :| g in gields && g.key == fields[i].key && SameValue(fields[i].value, g.value);
    SameKeySameField(gields, g, gields[i]);
  }

  // ---------------------------------------------------------------- what serializes

  /** The value that a path of positions leads to. */
  function At(v: Json, path: seq<nat>): Option<Json>
    decreases |path|
  {
    if path == [] then Some(v)
    else if v.JArr? && path[0] < |v.items| then At(v.items[path[0]], path[1..])
    else if v.JObj? && path[0] < |v.fields| then At(v.fields[path[0]].value, path[1..])
    else None
  }

  /** What stands there is nested no deeper than the limit and, if it is a number, safe. */
  predicate FitsAt(v: Json, path: seq<nat>, depth: nat, limit: nat)
  {
    At(v, path).Some? ==> depth + |path| <= limit && (At(v, path).value.JNum? ==> -9007199254740991 <= At(v, path).value.n <= 9007199254740991)
  }

  lemma {:induction false} SerializableFits(v: Json, path: seq<nat>, depth: nat, limit: nat)
    requires Serializable(v, depth, limit)
    ensures FitsAt(v, path, depth, limit)
    decreases |path|
  {
    if path != [] {
      if v.JArr? && path[0] < |v.items| { SerializableFits(v.items[path[0]], path[1..], depth + 1, limit); }
      if v.JObj? && path[0] < |v.fields| { SerializableFits(v.fields[path[0]].value, path[1..], depth + 1, limit); }
    }
  }

  ghost predicate AllFit(v: Json, depth: nat, limit: nat) { forall path :: FitsAt(v, path, depth, limit) }

  lemma ChildrenFit(v: Json, child: Json, i: nat, depth: nat, limit: nat)
    requires depth > 0 && AllFit(v, depth - 1, limit)
    requires (v.JArr? && i < |v.items| && child == v.items[i]) || (v.JObj? && i < |v.fields| && child == v.fields[i].value)
    ensures AllFit(child, depth, limit)
  {
    forall path ensures FitsAt(child, path, depth, limit) {
      assert FitsAt(v, [i] + path, depth - 1, limit);
      assert ([i] + path)[1..] == path;
    }
  }

  lemma {:induction false} FitsSerializable(v: Json, depth: nat, limit: nat)
    requires AllFit(v, depth, limit)
    ensures Serializable(v, depth, limit)
    decreases v
  {
    assert FitsAt(v, [], depth, limit);
    match v
    case JArr(items) =>
      forall i | 0 <= i < |items| ensures Serializable(items[i], depth + 1, limit) {
        ChildrenFit(v, items[i], i, depth + 1, limit);
        FitsSerializable(items[i], depth + 1, limit);
      }
    case JObj(fields) =>
      forall i | 0 <= i < |fields| ensures Serializable(fields[i].value, depth + 1, limit) {
        ChildrenFit(v, fields[i].value, i, depth + 1, limit);
        FitsSerializable(fields[i].value, depth + 1, limit);
      }
    case _ =>
  }

  /** A value has a canonical text if and only if nothing in it is nested deeper than twenty and every number in it
      is a safe integer. */
  lemma SerializesIff(v: Json)
    ensures Canonical(v).Some? <==> AllFit(v, 0, 20)
  {
    hide Print, FitsAt, Serializable;
    if Canonical(v).Some? {
      forall path ensures FitsAt(v, path, 0, 20) { SerializableFits(v, path, 0, 20); }
    }
    if AllFit(v, 0, 20) { FitsSerializable(v, 0, 20); }
  }
}
