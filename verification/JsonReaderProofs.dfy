/** What canonical text means: a reader of JSON that was written without the printer reads it back, to the end and
    to the same value, with the names of every object in increasing order. */
module JsonReaderProofs {
  import opened Hex
  import opened Order
  import opened Wrappers
  import opened CanonicalJson
  import opened CanonicalJsonProofs
  import opened JsonReader

  // ---------------------------------------------------------------- numbers

  /** The digits printed for a number have its place value, and no zero in front. */
  lemma {:induction false} DigitsMean(n: nat)
    ensures |Digits(n)| > 0 && forall i :: 0 <= i < |Digits(n)| ==> Digit(Digits(n)[i])
    ensures Decimal(Digits(n)) == n
    ensures Digits(n)[0] == '0' ==> n == 0 && |Digits(n)| == 1
  {
    var d := Digits(n);
    if n < 10 {
      assert d[..|d| - 1] == [];
      assert Decimal([]) == 0;
    } else {
      DigitsMean(n / 10);
      assert d[..|d| - 1] == Digits(n / 10);
    }
  }

  lemma {:induction false} RunIs(digits: string, s: string)
    requires (forall i :: 0 <= i < |digits| ==> Digit(digits[i])) && Closes(s)
    ensures DigitRun(digits + s) == |digits|
  {
    if digits == [] {
      assert digits + s == s;
    } else {
      assert (digits + s)[1..] == digits[1..] + s && (digits + s)[0] == digits[0];
      RunIs(digits[1..], s);
    }
  }

  lemma NaturalRead(n: nat, s: string)
    requires Closes(s)
    ensures ReadNatural(Digits(n) + s) == Some((n, s))
  {
    DigitsMean(n);
    RunIs(Digits(n), s);
    var all := Digits(n) + s;
    assert all[0] == Digits(n)[0] && all[..|Digits(n)|] == Digits(n) && all[|Digits(n)|..] == s;
  }

  lemma NumberRead(n: int, s: string)
    requires Closes(s)
    ensures ReadNumber(PrintInt(n) + s) == Some((JNum(n), s))
  {
    hide Digits, Decimal, DigitRun, ReadNatural;
    if n < 0 {
      NaturalRead(-n, s);
      assert (PrintInt(n) + s)[1..] == Digits(-n) + s;
    } else {
      NaturalRead(n, s);
      DigitsMean(n);
      assert (PrintInt(n) + s)[0] == Digits(n)[0];
    }
  }

  // ---------------------------------------------------------------- strings

  lemma HexDigitMeans(n: nat)
    requires n < 16
    ensures HexValue(HexDigit(n)) == Some(n)
  {}

  /** One character written by the printer, in front of the rest of a string. */
  lemma CharRead(c: char, t: string)
    ensures var e := Escape(c) + t;
            && |e| > 0 && e[0] >= ' ' && e[0] != '"'
            && (if e[0] == '\\' then ReadEscape(e[1..]) else Some((e[0], e[1..]))) == Some((c, t))
  {
    var e := Escape(c) + t;
    if c < ' ' && |Escape(c)| == 6 {
      var n := c as int;
      HexDigitMeans(n / 16);
      HexDigitMeans(n % 16);
      assert e[1..][0] == 'u' && e[1..][1..] == ['0', '0', HexDigit(n / 16), HexDigit(n % 16)] + t;
      assert e[1..][1..][4..] == t;
      assert HexValue('0') == Some(0);
    } else if |Escape(c)| == 2 {
      assert e[1..][0] == Escape(c)[1] && e[1..][1..] == t;
    } else {
      assert Escape(c) == [c] && e[1..] == t;
    }
  }

  /** A character stands for itself unless it must be escaped, and hexadecimal digits are lower-case. */
  lemma EscapeForm(c: char)
    ensures Escape(c) == [c] <==> c >= ' ' && c != '"' && c != '\\'
    ensures Escape(c) != [c] ==> |Escape(c)| == 2 || (|Escape(c)| == 6 && LowerHex(Escape(c)[4]) && LowerHex(Escape(c)[5]))
  {}

  /** No escape of a character is shorter than the printer's spelling. */
  lemma EscapeIsShortest(c: char, t: string)
    requires ReadEscape(t).Some? && ReadEscape(t).value.0 == c
    ensures |Escape(c)| <= 1 + (|t| - |ReadEscape(t).value.1|)
  {
    hide ReadUnicode;
    EscapeForm(c);
    if t[0] == 'u' { hide Escape; } else { ShortEscape(c, t); }
  }

  lemma ShortEscape(c: char, t: string)
    requires t != [] && t[0] != 'u' && ReadEscape(t).Some? && ReadEscape(t).value.0 == c
    ensures |Escape(c)| <= 2
  {
    hide ReadUnicode;
  }

  lemma {:induction false} TextRead(x: string, s: string)
    ensures ReadText(Quoted(x, s)) == Some((x, s))
  {
    hide Escape, ReadEscape;
    if x == [] {
      QuotedEnd(s);
      assert Quoted([], s)[1..] == s;
    } else {
      QuotedStep(x, s);
      CharRead(x[0], Quoted(x[1..], s));
      TextRead(x[1..], s);
      assert [x[0]] + x[1..] == x;
    }
  }

  lemma QuoteRead(x: string, s: string)
    ensures |Quote(x) + s| > 0 && (Quote(x) + s)[0] == '"' && ReadText((Quote(x) + s)[1..]) == Some((x, s))
  {
    TextRead(x, s);
    assert (Quote(x) + s)[1..] == Quoted(x, s);
  }

  // ---------------------------------------------------------------- values

  /** The value with the fields of every object in the order of their names. */
  ghost function Tidy(v: Json): Json
  {
    match v
    case JArr(items) => JArr(seq(|items|, i requires 0 <= i < |items| => Tidy(items[i])))
    case JObj(fields) =>
      var sorted := Sorted(fields);
      JObj(seq(|sorted|, i requires 0 <= i < |sorted| => assert sorted[i] in fields; Field(sorted[i].key, Tidy(sorted[i].value))))
    case _ => v
  }

  ghost function TidyItems(items: seq<Json>): (r: seq<Json>)
    ensures |r| == |items|
  {
    seq(|items|, i requires 0 <= i < |items| => Tidy(items[i]))
  }

  ghost function TidyFields(fields: seq<Field>): (r: seq<Field>)
    ensures |r| == |fields|
  {
    seq(|fields|, i requires 0 <= i < |fields| => Field(fields[i].key, Tidy(fields[i].value)))
  }

  lemma TidyArr(items: seq<Json>)
    ensures Tidy(JArr(items)) == JArr(TidyItems(items))
  {
    assert seq(|items|, i requires 0 <= i < |items| => Tidy(items[i])) == TidyItems(items);
  }

  lemma TidyObj(fields: seq<Field>)
    ensures Tidy(JObj(fields)) == JObj(TidyFields(Sorted(fields)))
  {
    var sorted := Sorted(fields);
    assert seq(|sorted|, i requires 0 <= i < |sorted| => assert sorted[i] in fields; Field(sorted[i].key, Tidy(sorted[i].value)))
        == TidyFields(sorted);
  }

  /** Printed values start with no white space and no closing bracket. */
  lemma PrintStarts(v: Json, s: string)
    ensures |Print(v) + s| > 0 && (Print(v) + s)[0] == Print(v)[0] && !White(Print(v)[0])
    ensures Print(v)[0] != ']' && Print(v)[0] != '}' && Print(v)[0] != ','
    ensures SkipWhite(Print(v) + s) == Print(v) + s
  {
    PrintHead(v);
  }

  lemma {:induction false} ValueRead(v: Json, s: string)
    requires Proper(v) && Closes(s)
    ensures ReadValue(Print(v) + s) == Some((Tidy(v), s))
    decreases v, 0
  {
    PrintHead(v);
    var all := Print(v) + s;
    assert all[0] == Print(v)[0];
    match v
    case JNull => assert "null" <= all && all[4..] == s;
    case JBool(b) => if b { assert "true" <= all && all[4..] == s; } else { assert "false" <= all && all[5..] == s; }
    case JNum(n) => NumberRead(n, s);
    case JStr(x) => QuoteRead(x, s);
    case JArr(items) => ArrRead(items, s);
    case JObj(fields) => ObjRead(fields, s);
  }

  lemma EmptyRead(s: string)
    ensures ReadValue(['['] + ([']'] + s)) == Some((JArr([]), s)) && ReadValue(['{'] + (['}'] + s)) == Some((JObj([]), s))
  {
    var (a, o) := ([']'] + s, ['}'] + s);
    assert (['['] + a)[1..] == a && a[1..] == s && (['{'] + o)[1..] == o && o[1..] == s;
    assert SkipWhite(a) == a && SkipWhite(o) == o;
  }

  lemma FullArrRead(inner: string, items: seq<Json>, s: string)
    requires SkipWhite(inner) == inner && inner != [] && inner[0] != ']' && ReadItems(inner) == Some((items, s))
    ensures ReadValue(['['] + inner) == Some((JArr(items), s))
  {
    hide ReadItems, SkipWhite;
    assert (['['] + inner)[1..] == inner;
  }

  lemma FullObjRead(inner: string, fields: seq<Field>, s: string)
    requires SkipWhite(inner) == inner && inner != [] && inner[0] != '}' && ReadMembers(inner) == Some((fields, s))
    ensures ReadValue(['{'] + inner) == Some((JObj(fields), s))
  {
    hide ReadMembers, SkipWhite;
    assert (['{'] + inner)[1..] == inner;
  }

  lemma {:induction false} ArrRead(items: seq<Json>, s: string)
    requires Proper(JArr(items)) && Closes(s)
    ensures ReadValue(Print(JArr(items)) + s) == Some((Tidy(JArr(items)), s))
    decreases JArr(items), 0, 1
  {
    hide ReadValue, ReadItems, SkipWhite, Listed, AfterFirst, Print, Tidy;
    PrintArr(items);
    TidyArr(items);
    Bracketed('[', Pieces(items), ']', s);
    if items == [] {
      assert Pieces(items) == [] && TidyItems(items) == [];
      ListedEnd(']', s);
      EmptyRead(s);
    } else {
      ListedStep(Pieces(items), ']', s);
      PrintStarts(items[0], AfterFirst(Pieces(items), ']', s));
      ItemsRead(items, s);
      FullArrRead(Listed(Pieces(items), ']', s), TidyItems(items), s);
    }
  }

  lemma AfterStarts(pieces: seq<string>, close: char, s: string)
    requires pieces != [] && (close == ']' || close == '}')
    ensures var t := AfterFirst(pieces, close, s);
            && Closes(t) && SkipWhite(t) == t && |t| > 0
            && t[0] == (if |pieces| == 1 then close else ',')
            && t[1..] == if |pieces| == 1 then s else Listed(pieces[1..], close, s)
  {}

  lemma OneItem(t: string, v: Json, next: string, s: string)
    requires ReadValue(t) == Some((v, next)) && SkipWhite(next) == next && next != [] && next[0] == ']' && next[1..] == s
    ensures ReadItems(t) == Some(([v], s))
  {
    hide ReadValue, SkipWhite;
  }

  lemma MoreItems(t: string, v: Json, next: string, items: seq<Json>, s: string)
    requires ReadValue(t) == Some((v, next)) && SkipWhite(next) == next && next != [] && next[0] == ','
    requires ReadItems(SkipWhite(next[1..])) == Some((items, s))
    ensures ReadItems(t) == Some(([v] + items, s))
  {
    hide ReadValue, SkipWhite;
  }

  lemma ItemsSplit(items: seq<Json>)
    requires items != []
    ensures |Pieces(items)| == |items| && Pieces(items)[0] == Print(items[0]) && Pieces(items)[1..] == Pieces(items[1..])
    ensures TidyItems(items) == [Tidy(items[0])] + TidyItems(items[1..])
    ensures |items| > 1 ==> Pieces(items[1..]) != [] && Pieces(items[1..])[0] == Print(items[1])
    ensures |items| == 1 ==> TidyItems(items) == [Tidy(items[0])]
  {
    hide Print, Tidy;
  }

  lemma {:induction false} ItemsRead(items: seq<Json>, s: string)
    requires items != [] && (forall x :: x in items ==> Proper(x))
    ensures ReadItems(Listed(Pieces(items), ']', s)) == Some((TidyItems(items), s))
    decreases items, 1
  {
    hide ReadItems, ReadValue, SkipWhite, AfterFirst, Listed, Print, Proper, Pieces, TidyItems, Tidy;
    var pieces := Pieces(items);
    var next := AfterFirst(pieces, ']', s);
    ItemsSplit(items);
    ListedStep(pieces, ']', s);
    AfterStarts(pieces, ']', s);
    ValueRead(items[0], next);
    if |items| == 1 {
      OneItem(Listed(pieces, ']', s), Tidy(items[0]), next, s);
    } else {
      var rest := items[1..];
      ListedStep(Pieces(rest), ']', s);
      PrintStarts(rest[0], AfterFirst(Pieces(rest), ']', s));
      ItemsRead(rest, s);
      MoreItems(Listed(pieces, ']', s), Tidy(items[0]), next, TidyItems(rest), s);
    }
  }

  lemma {:induction false} ObjRead(fields: seq<Field>, s: string)
    requires Proper(JObj(fields)) && Closes(s)
    ensures ReadValue(Print(JObj(fields)) + s) == Some((Tidy(JObj(fields)), s))
    decreases JObj(fields), 0, 1
  {
    hide ReadValue, ReadMembers, SkipWhite, Listed, AfterFirst, Print, Tidy, FieldText, Sorted, DistinctKeys, Increasing;
    PrintObj(fields);
    TidyObj(fields);
    var sorted := Sorted(fields);
    SortedIncreasing(fields);
    SortedDistinct(sorted);
    Bracketed('{', FieldPieces(sorted), '}', s);
    if fields == [] {
      assert FieldPieces(sorted) == [] && TidyFields(sorted) == [];
      ListedEnd('}', s);
      EmptyRead(s);
    } else {
      ListedStep(FieldPieces(sorted), '}', s);
      FieldStarts(sorted[0], AfterFirst(FieldPieces(sorted), '}', s));
      MembersRead(JObj(fields), sorted, s);
      FullObjRead(Listed(FieldPieces(sorted), '}', s), TidyFields(sorted), s);
    }
  }

  lemma FieldStarts(f: Field, s: string)
    ensures |FieldText(f) + s| > 0 && (FieldText(f) + s)[0] == '"' && SkipWhite(FieldText(f) + s) == FieldText(f) + s
  {}

  lemma OneMember(t: string, f: Field, next: string, s: string)
    requires ReadMember(t) == Some((f, next)) && SkipWhite(next) == next && next != [] && next[0] == '}' && next[1..] == s
    ensures ReadMembers(t) == Some(([f], s))
  {
    hide ReadMember, SkipWhite;
  }

  lemma MoreMembers(t: string, f: Field, next: string, fields: seq<Field>, s: string)
    requires ReadMember(t) == Some((f, next)) && SkipWhite(next) == next && next != [] && next[0] == ','
    requires ReadMembers(SkipWhite(next[1..])) == Some((fields, s)) && forall g :: g in fields ==> g.key != f.key
    ensures ReadMembers(t) == Some(([f] + fields, s))
  {
    hide ReadMember, SkipWhite;
  }

  lemma TidyNames(f: Field, rest: seq<Field>)
    requires DistinctKeys([f] + rest)
    ensures forall g :: g in TidyFields(rest) ==> g.key != f.key
  {
    forall g | g in TidyFields(rest) ensures g.key != f.key {
      var i :| 0 <= i < |rest| && TidyFields(rest)[i] == g;
      assert ([f] + rest)[0] == f && ([f] + rest)[i + 1] == rest[i];
    }
  }

  lemma {:induction false} MembersRead(v: Json, fields: seq<Field>, s: string)
    requires fields != [] && DistinctKeys(fields) && v.JObj? && (forall f :: f in fields ==> f in v.fields && Proper(f.value))
    ensures ReadMembers(Listed(FieldPieces(fields), '}', s)) == Some((TidyFields(fields), s))
    decreases v, 0, 0, |fields|
  {
    hide ReadMembers, ReadMember, SkipWhite, AfterFirst, Listed, FieldText, Print, Proper, DistinctKeys, FieldPieces, TidyFields, Tidy;
    var pieces := FieldPieces(fields);
    PiecesSplit(fields);
    var next := AfterFirst(pieces, '}', s);
    var f := Field(fields[0].key, Tidy(fields[0].value));
    ListedStep(pieces, '}', s);
    AfterStarts(pieces, '}', s);
    MemberRead(v, fields[0], next);
    if |fields| == 1 {
      OneMember(Listed(pieces, '}', s), f, next, s);
    } else {
      var rest := fields[1..];
      assert fields == [fields[0]] + rest;
      ListedStep(FieldPieces(rest), '}', s);
      FieldStarts(rest[0], AfterFirst(FieldPieces(rest), '}', s));
      RestDistinct(fields);
      MembersRead(v, rest, s);
      TidyNames(fields[0], rest);
      MoreMembers(Listed(pieces, '}', s), f, next, TidyFields(rest), s);
    }
  }

  lemma PiecesSplit(fields: seq<Field>)
    requires fields != []
    ensures |FieldPieces(fields)| == |fields| && FieldPieces(fields)[0] == FieldText(fields[0])
    ensures FieldPieces(fields)[1..] == FieldPieces(fields[1..])
    ensures TidyFields(fields) == [Field(fields[0].key, Tidy(fields[0].value))] + TidyFields(fields[1..])
    ensures |fields| > 1 ==> FieldPieces(fields[1..]) != [] && FieldPieces(fields[1..])[0] == FieldText(fields[1])
    ensures |fields| == 1 ==> TidyFields(fields) == [Field(fields[0].key, Tidy(fields[0].value))]
  {
    hide FieldText, Tidy;
  }

  lemma RestDistinct(fields: seq<Field>)
    requires fields != [] && DistinctKeys(fields)
    ensures DistinctKeys(fields[1..])
  {}

  lemma {:induction false} MemberRead(v: Json, f: Field, s: string)
    requires v.JObj? && f in v.fields && Proper(f.value) && Closes(s)
    ensures ReadMember(FieldText(f) + s) == Some((Field(f.key, Tidy(f.value)), s))
    decreases v, 0, 0, 0
  {
    var after := [':'] + (Print(f.value) + s);
    assert FieldText(f) + s == Quote(f.key) + after;
    QuoteRead(f.key, after);
    assert SkipWhite(after) == after && after[1..] == Print(f.value) + s;
    PrintStarts(f.value, s);
    ValueRead(f.value, s);
  }

  lemma SortedDistinct(sorted: seq<Field>)
    requires Increasing(sorted, KeyLess)
    ensures DistinctKeys(sorted)
  {
    LessOrder();
    forall i, j | 0 <= i < j < |sorted| ensures sorted[i].key != sorted[j].key { assert KeyLess(sorted[i], sorted[j]); }
  }

  // ---------------------------------------------------------------- what was read

  /** The names of every object come in increasing order. */
  ghost predicate NamesIncrease(v: Json)
  {
    match v
    case JArr(items) => forall x :: x in items ==> NamesIncrease(x)
    case JObj(fields) => Increasing(fields, KeyLess) && forall f :: f in fields ==> NamesIncrease(f.value)
    case _ => true
  }

  lemma {:induction false} TidyIsSame(v: Json)
    requires Proper(v)
    ensures SameValue(v, Tidy(v)) && NamesIncrease(Tidy(v)) && Proper(Tidy(v))
    decreases v
  {
    match v
    case JArr(items) =>
      TidyArr(items);
      forall i | 0 <= i < |items| ensures SameValue(items[i], TidyItems(items)[i]) && NamesIncrease(TidyItems(items)[i]) && Proper(TidyItems(items)[i]) {
        TidyIsSame(items[i]);
      }
    case JObj(fields) => TidyObjectSame(fields);
    case _ =>
  }

  lemma {:induction false} TidyObjectSame(fields: seq<Field>)
    requires Proper(JObj(fields))
    ensures SameValue(JObj(fields), Tidy(JObj(fields))) && NamesIncrease(Tidy(JObj(fields))) && Proper(Tidy(JObj(fields)))
    decreases JObj(fields), 0
  {
    TidyObj(fields);
    SortedIncreasing(fields);
    var sorted := Sorted(fields);
    var tidy := TidyFields(sorted);
    forall i | 0 <= i < |sorted| ensures SameValue(sorted[i].value, tidy[i].value) && NamesIncrease(tidy[i].value) && Proper(tidy[i].value) {
      assert sorted[i] in fields;
      TidyIsSame(sorted[i].value);
    }
    forall i, j | 0 <= i < j < |tidy| ensures KeyLess(tidy[i], tidy[j]) { assert KeyLess(sorted[i], sorted[j]); }
    SortedDistinct(tidy);
    forall f | f in fields ensures exists g :: g in tidy && g.key == f.key && SameValue(f.value, g.value) {
      assert f in sorted;
      var i :| 0 <= i < |sorted| && sorted[i] == f;
      assert tidy[i] in tidy;
    }
  }

  /** Canonical text is JSON for the value it was printed from: read by its own rules it is used up, and says the
      same value, with the names of every object in increasing order. */
  lemma CanonicalIsRead(v: Json)
    requires Proper(v)
    ensures Read(Print(v)).Some? && SameValue(v, Read(Print(v)).value) && NamesIncrease(Read(Print(v)).value)
  {
    PrintStarts(v, []);
    assert Print(v) + [] == Print(v);
    ValueRead(v, []);
    TidyIsSame(v);
  }

  /** And so the reader is a parser of canonical text. */
  lemma ReaderParses()
    ensures forall text :: Read(text).Some? ==> Proper(Read(text).value)
    ensures forall v :: Proper(v) && Canonical(v).Some? ==>
              Read(Canonical(v).value).Some? && Canonical(Read(Canonical(v).value).value) == Canonical(v)
  {
    forall v | Proper(v) && Canonical(v).Some?
      ensures Read(Canonical(v).value).Some? && Canonical(Read(Canonical(v).value).value) == Canonical(v)
    {
      CanonicalIsRead(v);
      CanonicalInjective(v, Read(Print(v)).value);
    }
  }
}
