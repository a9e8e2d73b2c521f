/** A reader of JSON text that knows nothing of the printer (RFC 8259, and `JSON.parse` on integers): decimal place
    value, the escapes of section 7, white space, and the last of several values under one name. */
module JsonReader {
  import opened Hex
  import opened Wrappers
  import opened CanonicalJson

  // ---------------------------------------------------------------- characters and numbers

  predicate White(c: char) { c == ' ' || c == '\t' || c == '\n' || c == '\r' }

  function SkipWhite(s: string): (r: string)
    ensures |r| <= |s| && (r != [] ==> !White(r[0]))
  {
    if s != [] && White(s[0]) then SkipWhite(s[1..]) else s
  }

  function DigitValue(c: char): nat
    requires Digit(c)
  {
    c as int - '0' as int
  }

  /** Decimal place value. */
  function Decimal(digits: string): nat
    requires forall i :: 0 <= i < |digits| ==> Digit(digits[i])
  {
    if digits == [] then 0 else 10 * Decimal(digits[..|digits| - 1]) + DigitValue(digits[|digits| - 1])
  }

  /** How many digits come first. */
  function DigitRun(s: string): (n: nat)
    ensures n <= |s| && (forall i :: 0 <= i < n ==> Digit(s[i])) && (n < |s| ==> !Digit(s[n]))
  {
    if s == [] || !Digit(s[0]) then 0 else 1 + DigitRun(s[1..])
  }

  /** No sign, no leading zero; fractions and exponents are left behind. */
  function ReadNatural(s: string): (r: Option<(int, string)>)
    ensures r.Some? ==> |r.value.1| < |s|
  {
    var n := DigitRun(s);
    if n == 0 || (s[0] == '0' && n > 1) then None else Some((Decimal(s[..n]), s[n..]))
  }

  function ReadNumber(s: string): (r: Option<(Json, string)>)
    ensures r.Some? ==> |r.value.1| < |s| && Proper(r.value.0)
  {
    if s != [] && s[0] == '-' then
      match ReadNatural(s[1..])
      case None => None
      case Some((n, rest)) => Some((JNum(-n), rest))
    else
      match ReadNatural(s)
      case None => None
      case Some((n, rest)) => Some((JNum(n), rest))
  }

  // ---------------------------------------------------------------- strings

  function HexValue(c: char): Option<nat>
  {
    if '0' <= c <= '9' then Some(c as int - '0' as int)
    else if 'a' <= c <= 'f' then Some(10 + (c as int - 'a' as int))
    else if 'A' <= c <= 'F' then Some(10 + (c as int - 'A' as int))
    else None
  }

  /** Four hexadecimal digits naming a character; halves of a surrogate pair name none. */
  function ReadUnicode(s: string): (r: Option<(char, string)>)
    ensures r.Some? ==> |r.value.1| == |s| - 4
  {
    if |s| < 4 then None
    else
      var (a, b, c, d) := (HexValue(s[0]), HexValue(s[1]), HexValue(s[2]), HexValue(s[3]));
      if a.None? || b.None? || c.None? || d.None? then None
      else
        var n := a.value * 0x1000 + b.value * 0x100 + c.value * 0x10 + d.value;
        if n < 0xD800 || 0xE000 <= n < 0x1_0000 then Some((n as char, s[4..])) else None
  }

  /** What a reverse solidus is followed by. */
  function ReadEscape(s: string): (r: Option<(char, string)>)
    ensures r.Some? ==> |r.value.1| < |s|
  {
    if s == [] then None
    else if s[0] == '"' || s[0] == '\\' || s[0] == '/' then Some((s[0], s[1..]))
    else if s[0] == 'b' then Some(('\U{0008}', s[1..]))
    else if s[0] == 'f' then Some(('\U{000C}', s[1..]))
    else if s[0] == 'n' then Some(('\n', s[1..]))
    else if s[0] == 'r' then Some(('\r', s[1..]))
    else if s[0] == 't' then Some(('\t', s[1..]))
    else if s[0] == 'u' then ReadUnicode(s[1..])
    else None
  }

  /** The characters up to the closing quote. */
  function ReadText(s: string): (r: Option<(string, string)>)
    ensures r.Some? ==> |r.value.1| < |s|
    decreases |s|
  {
    if s == [] || s[0] < ' ' then None
    else if s[0] == '"' then Some(([], s[1..]))
    else
      match (if s[0] == '\\' then ReadEscape(s[1..]) else Some((s[0], s[1..])))
      case None => None
      case Some((c, rest)) =>
        match ReadText(rest)
        case None => None
        case Some((text, after)) => Some(([c] + text, after))
  }

  // ---------------------------------------------------------------- values

  /** The members under other names. */
  function Without(fields: seq<Field>, key: string): (r: seq<Field>)
    ensures forall f :: f in r <==> f in fields && f.key != key
    ensures DistinctKeys(fields) ==> DistinctKeys(r)
    ensures (forall f :: f in fields ==> f.key != key) ==> r == fields
  {
    if fields == [] then []
    else if fields[0].key == key then Without(fields[1..], key)
    else [fields[0]] + Without(fields[1..], key)
  }

  function Under(fields: seq<Field>, key: string): (r: Option<Json>)
    ensures r.Some? ==> Field(key, r.value) in fields
    ensures (forall f :: f in fields ==> f.key != key) ==> r == None
  {
    if fields == [] then None else if fields[0].key == key then Some(fields[0].value) else Under(fields[1..], key)
  }

  /** Adds a member in front of the later ones; a later value under the same name wins. */
  function Put(f: Field, later: seq<Field>): (r: seq<Field>)
    ensures DistinctKeys(later) ==> DistinctKeys(r)
    ensures Proper(f.value) && (forall g :: g in later ==> Proper(g.value)) ==> forall g :: g in r ==> Proper(g.value)
    ensures (forall g :: g in later ==> g.key != f.key) ==> r == [f] + later
  {
    var value := match Under(later, f.key) case None => f.value case Some(v) => v;
    [Field(f.key, value)] + Without(later, f.key)
  }

  function After(s: string, word: string): Option<string>
  {
    if word <= s then Some(s[|word|..]) else None
  }

  function Literal(s: string, word: string, v: Json): Option<(Json, string)>
  {
    match After(s, word) case None => None case Some(rest) => Some((v, rest))
  }

  ghost predicate AllProper(vs: seq<Json>) { forall v :: v in vs ==> Proper(v) }

  ghost predicate ProperFields(fs: seq<Field>) { DistinctKeys(fs) && forall f :: f in fs ==> Proper(f.value) }

  /** One value, from its first character on. */
  function ReadValue(s: string): (r: Option<(Json, string)>)
    ensures r.Some? ==> |r.value.1| < |s| && Proper(r.value.0)
    decreases |s|, 0
  {
    if s == [] then None
    else if s[0] == '"' then
      match ReadText(s[1..]) case None => None case Some((text, rest)) => Some((JStr(text), rest))
    else if s[0] == '[' then
      var inner := SkipWhite(s[1..]);
      if inner != [] && inner[0] == ']' then Some((JArr([]), inner[1..]))
      else match ReadItems(inner) case None => None case Some((items, rest)) => Some((JArr(items), rest))
    else if s[0] == '{' then
      var inner := SkipWhite(s[1..]);
      if inner != [] && inner[0] == '}' then Some((JObj([]), inner[1..]))
      else match ReadMembers(inner) case None => None case Some((fields, rest)) => Some((JObj(fields), rest))
    else if s[0] == 'n' then Literal(s, "null", JNull)
    else if s[0] == 't' then Literal(s, "true", JBool(true))
    else if s[0] == 'f' then Literal(s, "false", JBool(false))
    else ReadNumber(s)
  }

  /** One or more values, separated by commas, up to the closing bracket. */
  function ReadItems(s: string): (r: Option<(seq<Json>, string)>)
    ensures r.Some? ==> |r.value.1| < |s| && AllProper(r.value.0)
    decreases |s|, 1
  {
    match ReadValue(s)
    case None => None
    case Some((item, rest)) =>
      var next := SkipWhite(rest);
      if next != [] && next[0] == ']' then Some(([item], next[1..]))
      else if next != [] && next[0] == ',' then
        match ReadItems(SkipWhite(next[1..])) case None => None case Some((items, after)) => Some(([item] + items, after))
      else None
  }

  /** A name, a colon and a value. */
  function ReadMember(s: string): (r: Option<(Field, string)>)
    ensures r.Some? ==> |r.value.1| < |s| && Proper(r.value.0.value)
    decreases |s|, 1
  {
    if s == [] || s[0] != '"' then None
    else
      match ReadText(s[1..])
      case None => None
      case Some((key, rest)) =>
        var colon := SkipWhite(rest);
        if colon == [] || colon[0] != ':' then None
        else
          match ReadValue(SkipWhite(colon[1..])) case None => None case Some((value, after)) => Some((Field(key, value), after))
  }

  /** One or more members, separated by commas, up to the closing brace. */
  function ReadMembers(s: string): (r: Option<(seq<Field>, string)>)
    ensures r.Some? ==> |r.value.1| < |s| && ProperFields(r.value.0)
    decreases |s|, 2
  {
    match ReadMember(s)
    case None => None
    case Some((field, rest)) =>
      var next := SkipWhite(rest);
      if next != [] && next[0] == '}' then Some(([field], next[1..]))
      else if next != [] && next[0] == ',' then
        match ReadMembers(SkipWhite(next[1..])) case None => None case Some((fields, after)) => Some((Put(field, fields), after))
      else None
  }

  /** One value with nothing but white space around it. */
  function Read(text: string): (r: Option<Json>)
    ensures r.Some? ==> Proper(r.value)
  {
    match ReadValue(SkipWhite(text))
    case None => None
    case Some((v, rest)) => if SkipWhite(rest) == [] then Some(v) else None
  }
}
