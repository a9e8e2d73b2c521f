/** The journal as text: one canonical value a line (packages/backup/src/schema.ts:350-379 and 670-672). */
module JournalText {
  import opened Wrappers
  import opened CanonicalJson
  import opened CanonicalJsonProofs
  import opened Archive

  const MAX_JOURNAL_ENTRIES: nat := 4096

  /** `encodeJournal`, on values that serialize. */
  function EncodeJournal(values: seq<Json>): string
  {
    if values == [] then "" else Print(values[0]) + ['\n'] + EncodeJournal(values[1..])
  }

  /** `text.split("\n")`. */
  function Split(text: string): (r: seq<string>)
    ensures |r| >= 1
  {
    if text == [] then [""]
    else
      var rest := Split(text[1..]);
      if text[0] == '\n' then [""] + rest else [[text[0]] + rest[0]] + rest[1..]
  }

  function ParseLine(line: string, parse: string -> Option<Json>): Option<Json>
  {
    match parse(line)
    case None => None
    case Some(v) => if Canonical(v) == Some(line) then Some(v) else None
  }

  function ParseLines(lines: seq<string>, parse: string -> Option<Json>): Option<seq<Json>>
  {
    if lines == [] then Some([])
    else
      match ParseLine(lines[0], parse)
      case None => None
      case Some(v) =>
        match ParseLines(lines[1..], parse)
        case None => None
        case Some(vs) => Some([v] + vs)
  }

  predicate NoneEmpty(lines: seq<string>) { forall i :: 0 <= i < |lines| ==> lines[i] != "" }

  /** `parseCanonicalJournal` on decoded text. */
  function ParseJournal(text: string, parse: string -> Option<Json>): Option<seq<Json>>
  {
    if text == "" || text[|text| - 1] != '\n' then None
    else
      var lines := Split(text[..|text| - 1]);
      if |lines| > MAX_JOURNAL_ENTRIES || !NoneEmpty(lines) then None else ParseLines(lines, parse)
  }

  // ---------------------------------------------------------------- canonical text has no line breaks

  predicate Unbroken(s: string) { forall i :: 0 <= i < |s| ==> s[i] != '\n' }

  lemma {:induction false} EscapedUnbroken(s: string)
    ensures Unbroken(EscapeAll(s))
  {
    if s == [] {
    } else {
      EscapedUnbroken(s[1..]);
      CharUnbroken(s[0]);
    }
  }

  lemma CharUnbroken(c: char)
    ensures Unbroken(Escape(c))
  {}

  lemma {:induction false} DigitsUnbroken(n: nat)
    ensures Unbroken(Digits(n))
  {
    if n >= 10 { DigitsUnbroken(n / 10); }
  }

  lemma {:induction false} JoinUnbroken(pieces: seq<string>)
    requires forall i :: 0 <= i < |pieces| ==> Unbroken(pieces[i])
    ensures Unbroken(Join(pieces))
  {
    if |pieces| > 1 { JoinUnbroken(pieces[1..]); }
  }

  lemma WrapUnbroken(open: char, text: string, close: char)
    requires Unbroken(text) && open != '\n' && close != '\n'
    ensures Unbroken([open] + text + [close])
  {}

  lemma LeafUnbroken(v: Json)
    requires !v.JArr? && !v.JObj?
    ensures Unbroken(Print(v))
  {
    match v
    case JNum(n) => DigitsUnbroken(if n < 0 then -n else n);
    case JStr(s) => EscapedUnbroken(s);
    case _ =>
  }

  lemma FieldUnbroken(f: Field)
    requires Unbroken(Print(f.value))
    ensures Unbroken(FieldText(f))
  {
    EscapedUnbroken(f.key);
    WrapUnbroken('"', EscapeAll(f.key), '"');
    hide Print;
  }

  lemma {:induction false} PrintUnbroken(v: Json)
    ensures Unbroken(Print(v))
  {
    hide Print, Unbroken, FieldText;
    match v
    case JArr(items) =>
      forall i | 0 <= i < |items| ensures Unbroken(Pieces(items)[i]) { PrintUnbroken(items[i]); }
      PrintArr(items);
      JoinUnbroken(Pieces(items));
      WrapUnbroken('[', Join(Pieces(items)), ']');
    case JObj(fields) =>
      var sorted := Sorted(fields);
      forall i | 0 <= i < |sorted| ensures Unbroken(FieldPieces(sorted)[i]) {
        assert sorted[i] in fields;
        PrintUnbroken(sorted[i].value);
        FieldUnbroken(sorted[i]);
      }
      PrintObj(fields);
      JoinUnbroken(FieldPieces(sorted));
      WrapUnbroken('{', Join(FieldPieces(sorted)), '}');
    case _ => LeafUnbroken(v);
  }

  // ---------------------------------------------------------------- lines

  function Lined(lines: seq<string>): string { if lines == [] then "" else lines[0] + ['\n'] + Lined(lines[1..]) }

  lemma {:induction false} SplitFirst(line: string, rest: string)
    requires Unbroken(line)
    ensures Split(line + ['\n'] + rest) == [line] + Split(rest)
  {
    var text := line + ['\n'] + rest;
    if line == [] {
      assert text[1..] == rest;
    } else {
      SplitFirst(line[1..], rest);
      assert text[1..] == line[1..] + ['\n'] + rest && text[0] == line[0] && line == [line[0]] + line[1..];
    }
  }

  lemma {:induction false} SplitOnly(line: string)
    requires Unbroken(line)
    ensures Split(line) == [line]
  {
    if line == [] {
    } else {
      SplitOnly(line[1..]);
      assert line == [line[0]] + line[1..];
    }
  }

  /** Splitting undoes ending every line. */
  lemma {:induction false} SplitLined(lines: seq<string>)
    requires lines != [] && forall i :: 0 <= i < |lines| ==> Unbroken(lines[i])
    ensures |Lined(lines)| > 0 && Lined(lines)[|Lined(lines)| - 1] == '\n' && Split(Lined(lines)[..|Lined(lines)| - 1]) == lines
  {
    var text := Lined(lines);
    if |lines| == 1 {
      assert text == lines[0] + ['\n'] && text[..|text| - 1] == lines[0];
      SplitOnly(lines[0]);
    } else {
      SplitLined(lines[1..]);
      var more := Lined(lines[1..]);
      assert text[..|text| - 1] == lines[0] + ['\n'] + more[..|more| - 1];
      SplitFirst(lines[0], more[..|more| - 1]);
    }
  }

  /** Ending the split lines gives the text back. */
  lemma {:induction false} LinedSplit(text: string)
    ensures Lined(Split(text)) == text + ['\n']
  {
    if text == [] {
      assert Lined([""]) == [] + ['\n'] + Lined([]);
    } else {
      LinedSplit(text[1..]);
      var rest := Split(text[1..]);
      assert text == [text[0]] + text[1..];
      if text[0] == '\n' {
        assert ([""] + rest)[1..] == rest;
      } else {
        assert ([[text[0]] + rest[0]] + rest[1..])[1..] == rest[1..];
        assert Lined(rest) == rest[0] + ['\n'] + Lined(rest[1..]);
        assert Lined(Split(text)) == ([text[0]] + rest[0]) + ['\n'] + Lined(rest[1..]) == [text[0]] + Lined(rest);
      }
    }
  }

  function Texts(values: seq<Json>): (r: seq<string>)
    ensures |r| == |values|
  {
    seq(|values|, i requires 0 <= i < |values| => Print(values[i]))
  }

  lemma {:induction false} EncodedLines(values: seq<Json>)
    ensures EncodeJournal(values) == Lined(Texts(values))
  {
    if values == [] {
    } else {
      EncodedLines(values[1..]);
      assert Texts(values)[1..] == Texts(values[1..]);
    }
  }

  // ---------------------------------------------------------------- round trip

  /** The values agree up to the order of object fields. */
  ghost predicate SameValues(vs: seq<Json>, ws: seq<Json>)
  {
    |vs| == |ws| && forall i :: 0 <= i < |vs| ==> SameValue(vs[i], ws[i])
  }

  ghost predicate Printable(values: seq<Json>) { forall i :: 0 <= i < |values| ==> Proper(values[i]) && Canonical(values[i]).Some? }

  lemma {:induction false} LinesRead(values: seq<Json>, parse: string -> Option<Json>)
    requires IsJsonParser(parse) && Printable(values)
    ensures ParseLines(Texts(values), parse).Some? && SameValues(values, ParseLines(Texts(values), parse).value)
  {
    hide Proper, SameValue, Print, Serializable;
    if values == [] {
    } else {
      assert Texts(values)[1..] == Texts(values[1..]);
      LinesRead(values[1..], parse);
      LineRead(values[0], parse);
      var v, ws := ParseLine(Print(values[0]), parse).value, ParseLines(Texts(values[1..]), parse).value;
      assert ParseLines(Texts(values), parse) == Some([v] + ws);
      forall i | 0 <= i < |values| ensures SameValue(values[i], ([v] + ws)[i]) {
        if i > 0 { assert values[1..][i - 1] == values[i] && ([v] + ws)[i] == ws[i - 1]; }
      }
    }
  }

  lemma LineRead(v: Json, parse: string -> Option<Json>)
    requires IsJsonParser(parse) && Proper(v) && Canonical(v).Some?
    ensures ParseLine(Print(v), parse).Some? && SameValue(v, ParseLine(Print(v), parse).value)
  {
    hide Proper, SameValue, Print, Serializable;
    assert Canonical(v) == Some(Print(v));
    var w := parse(Print(v)).value;
    assert Canonical(parse(Canonical(v).value).value) == Canonical(v);
    CanonicalInjective(v, w);
  }

  /** A journal written by the encoder is read back, entry for entry. */
  lemma JournalRoundTrip(values: seq<Json>, parse: string -> Option<Json>)
    requires IsJsonParser(parse) && Printable(values) && 1 <= |values| <= MAX_JOURNAL_ENTRIES
    ensures ParseJournal(EncodeJournal(values), parse).Some? && SameValues(values, ParseJournal(EncodeJournal(values), parse).value)
  {
    hide Printable, SameValues, Split, ParseLines, Lined, EncodeJournal, IsJsonParser, Unbroken, Print;
    EncodedLines(values);
    forall i | 0 <= i < |values| ensures Unbroken(Texts(values)[i]) && Texts(values)[i] != "" { PrintUnbroken(values[i]); PrintNotEmpty(values[i]); }
    SplitLined(Texts(values));
    LinesRead(values, parse);
  }

  lemma PrintNotEmpty(v: Json)
    ensures Print(v) != ""
  {
    PrintHead(v);
  }

  lemma {:induction false} LinesAre(lines: seq<string>, parse: string -> Option<Json>)
    requires ParseLines(lines, parse).Some?
    ensures Texts(ParseLines(lines, parse).value) == lines
  {
    if lines == [] {
    } else {
      LinesAre(lines[1..], parse);
      var v, vs := ParseLine(lines[0], parse).value, ParseLines(lines[1..], parse).value;
      assert Print(v) == lines[0];
      assert Texts([v] + vs) == [Print(v)] + Texts(vs);
    }
  }

  /** An accepted journal text is exactly the encoding of what is read from it. */
  lemma JournalIsItsEncoding(text: string, parse: string -> Option<Json>)
    requires ParseJournal(text, parse).Some?
    ensures EncodeJournal(ParseJournal(text, parse).value) == text
    ensures 1 <= |ParseJournal(text, parse).value| <= MAX_JOURNAL_ENTRIES
  {
    var body := text[..|text| - 1];
    LinesAre(Split(body), parse);
    LinedSplit(body);
    EncodedLines(ParseJournal(text, parse).value);
    assert text == body + ['\n'];
  }
}
