/** Canonical JSON text: objects printed with sorted keys, integers only, bounded depth
    (packages/backup/src/canonical.ts, packages/attention/src/hash.ts). */
module CanonicalJson {
  import opened Order
  import opened Wrappers

  /** A parsed JSON value. An object keeps its fields in insertion order, as a JavaScript object does. */
  datatype Json =
    | JNull
    | JBool(b: bool)
    | JNum(n: int)
    | JStr(s: string)
    | JArr(items: seq<Json>)
    | JObj(fields: seq<Field>)

  datatype Field = Field(key: string, value: Json)

  const MAX_SAFE_INTEGER: int := 9007199254740991
  const MAX_CANONICAL_DEPTH: nat := 20

  predicate KeyLess(a: Field, b: Field) { Less(a.key, b.key) }

  /** The fields of a JavaScript object have distinct names. */
  ghost predicate DistinctKeys(fields: seq<Field>)
  {
    forall i, j :: 0 <= i < j < |fields| ==> fields[i].key != fields[j].key
  }

  ghost predicate Proper(v: Json)
  {
    match v
    case JArr(items) => forall x :: x in items ==> Proper(x)
    case JObj(fields) => DistinctKeys(fields) && forall f :: f in fields ==> Proper(f.value)
    case _ => true
  }

  // ---------------------------------------------------------------- printing

  function HexDigit(n: nat): char
    requires n < 16
  {
    if n < 10 then '0' + (n as char) else 'a' + ((n - 10) as char)
  }

  /** One character inside a quoted string (section 7 of RFC 8259, shortest escapes, lower-case hex). */
  function Escape(c: char): string
  {
    if c == '"' then ['\\', '"']
    else if c == '\\' then ['\\', '\\']
    else if c == 8 as char then ['\\', 'b']
    else if c == 9 as char then ['\\', 't']
    else if c == 10 as char then ['\\', 'n']
    else if c == 12 as char then ['\\', 'f']
    else if c == 13 as char then ['\\', 'r']
    else if c < ' ' then ['\\', 'u', '0', '0', HexDigit(c as int / 16), HexDigit(c as int % 16)]
    else [c]
  }

  function EscapeAll(s: string): string
  {
    if s == [] then [] else Escape(s[0]) + EscapeAll(s[1..])
  }

  function Quote(s: string): string { ['"'] + EscapeAll(s) + ['"'] }

  function Digits(n: nat): string
  {
    if n < 10 then ['0' + (n as char)] else Digits(n / 10) + ['0' + ((n % 10) as char)]
  }

  function PrintInt(n: int): string { if n < 0 then ['-'] + Digits(-n) else Digits(n) }

  function Join(texts: seq<string>): string
  {
    if texts == [] then ""
    else if |texts| == 1 then texts[0]
    else texts[0] + [','] + Join(texts[1..])
  }

  function Sorted(fields: seq<Field>): (r: seq<Field>)
    ensures forall f :: f in r <==> f in fields
    ensures |r| == |fields|
  {
    SortMembers(fields, KeyLess);
    Sort(fields, KeyLess)
  }

  /** The text of a value; only meaningful where `Serializable` holds. */
  function Print(v: Json): string
  {
    match v
    case JNull => "null"
    case JBool(b) => if b then "true" else "false"
    case JNum(n) => PrintInt(n)
    case JStr(s) => Quote(s)
    case JArr(items) =>
      ['['] + Join(seq(|items|, i requires 0 <= i < |items| => Print(items[i]))) + [']']
    case JObj(fields) =>
      var sorted := Sorted(fields);
      ['{'] + Join(seq(|sorted|, i requires 0 <= i < |sorted| =>
        assert sorted[i] in fields;
        Quote(sorted[i].key) + [':'] + Print(sorted[i].value))) + ['}']
  }

  /** `serialize` fails on values nested deeper than the bound and on unsafe integers. */
  predicate Serializable(v: Json, depth: nat, limit: nat)
    decreases v
  {
    && depth <= limit
    && match v
       case JNum(n) => -MAX_SAFE_INTEGER <= n <= MAX_SAFE_INTEGER
       case JArr(items) => forall i :: 0 <= i < |items| ==> Serializable(items[i], depth + 1, limit)
       case JObj(fields) => forall i :: 0 <= i < |fields| ==> Serializable(fields[i].value, depth + 1, limit)
       case _ => true
  }

  function Canonical(v: Json): Option<string>
  {
    if Serializable(v, 0, MAX_CANONICAL_DEPTH) then Some(Print(v)) else None
  }
}
