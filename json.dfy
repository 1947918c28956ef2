/** Parsed JSON values as the backend sees them after JSON.parse, and the
    three ways it turns them into text: template interpolation (String(v)),
    Array.prototype.join and JSON.stringify. */
module Json {
  import opened Wrappers
  import opened JsString

  /** A JSON value. A number is carried as the text String(n) gives for it; an
      object's fields are listed in property-enumeration order. */
  datatype Json =
    | JNull
    | JBool(b: bool)
    | JNum(repr: string)
    | JStr(s: string)
    | JArr(items: seq<Json>)
    | JObj(fields: seq<Field>)

  datatype Field = Field(key: string, value: Json)

  predicate IsCompound(v: Json)
  {
    v.JArr? || v.JObj?
  }

  /** JavaScript truthiness: null, false, 0 and "" are falsy; arrays and
      objects are always truthy. */
  predicate Truthy(v: Json)
  {
    match v
    case JNull => false
    case JBool(b) => b
    case JNum(repr) => repr != "0"
    case JStr(s) => s != []
    case JArr(_) => true
    case JObj(_) => true
  }

  /** The keys of an object, in enumeration order. */
  function Keys(fields: seq<Field>): (ks: seq<string>)
    ensures |ks| == |fields|
    ensures forall i :: 0 <= i < |fields| ==> ks[i] == fields[i].key
  {
    if fields == [] then [] else [fields[0].key] + Keys(fields[1..])
  }

  predicate DistinctKeys(fields: seq<Field>)
  {
    forall i, j :: 0 <= i < j < |fields| ==> fields[i].key != fields[j].key
  }

  /** What JSON.parse can produce: no object has the same key twice. */
  predicate WellFormed(v: Json)
  {
    match v
    case JArr(items) => forall i :: 0 <= i < |items| ==> WellFormed(items[i])
    case JObj(fields) =>
      DistinctKeys(fields) && forall i :: 0 <= i < |fields| ==> WellFormed(fields[i].value)
    case _ => true
  }

  /** Property access obj[key]: the first field with that key, if any. */
  function Lookup(fields: seq<Field>, key: string): (r: Option<Json>)
    ensures r.None? <==> forall i :: 0 <= i < |fields| ==> fields[i].key != key
  {
    if fields == [] then None
    else if fields[0].key == key then Some(fields[0].value)
    else Lookup(fields[1..], key)
  }

  /** The position Lookup reads from. */
  function LookupIndex(fields: seq<Field>, key: string): (i: nat)
    requires exists i :: 0 <= i < |fields| && fields[i].key == key
    ensures i < |fields| && fields[i].key == key
    ensures forall j :: 0 <= j < i ==> fields[j].key != key
    ensures Lookup(fields, key) == Some(fields[i].value)
  {
    if fields[0].key == key then 0
    else
      assert exists i :: 0 <= i < |fields[1..]| && fields[1..][i].key == key by {
        var i :| 0 <= i < |fields| && fields[i].key == key;
        assert fields[1..][i - 1] == fields[i];
      }
      1 + LookupIndex(fields[1..], key)
  }

  /** With distinct keys, a field is found at its own position. */
  lemma LookupDistinct(fields: seq<Field>, i: nat)
    requires DistinctKeys(fields) && i < |fields|
    ensures Lookup(fields, fields[i].key) == Some(fields[i].value)
  {
    var j := LookupIndex(fields, fields[i].key);
    assert j == i;
  }

  /** String(v), the text `${v}` interpolates. */
  function Template(v: Json): string
    decreases v, 0
  {
    match v
    case JNull => "null"
    case JBool(b) => if b then "true" else "false"
    case JNum(repr) => repr
    case JStr(s) => s
    case JArr(items) => ArrayJoin(items, 0, ",")
    case JObj(_) => "[object Object]"
  }

  /** One element as Array.prototype.join writes it: null becomes empty. */
  function JoinElement(v: Json): string
    decreases v, 1
  {
    if v.JNull? then "" else Template(v)
  }

  /** items[from..].join(sep). */
  function ArrayJoin(items: seq<Json>, from: nat, sep: string): string
    decreases items, |items| - from
  {
    if from >= |items| then ""
    else if from == |items| - 1 then JoinElement(items[from])
    else JoinElement(items[from]) + sep + ArrayJoin(items, from + 1, sep)
  }

  /** The joined elements are those of Join over the rendered elements. */
  lemma {:induction false} ArrayJoinIsJoin(items: seq<Json>, from: nat, sep: string)
    requires from <= |items|
    ensures ArrayJoin(items, from, sep) == Join(sep, Rendered(items[from..]))
    decreases |items| - from
  {
    if from < |items| {
      var rest := items[from..];
      assert rest[1..] == items[from + 1..];
      assert Rendered(rest) == [JoinElement(rest[0])] + Rendered(rest[1..]);
      if from < |items| - 1 {
        ArrayJoinIsJoin(items, from + 1, sep);
      }
    }
  }

  function Rendered(items: seq<Json>): (r: seq<string>)
    ensures |r| == |items|
  {
    if items == [] then [] else [JoinElement(items[0])] + Rendered(items[1..])
  }

  function HexDigit(d: nat): char
    requires d < 16
  {
    ['0', '1', '2', '3', '4', '5', '6', '7', '8', '9', 'a', 'b', 'c', 'd', 'e', 'f'][d]
  }

  /** How JSON.stringify writes one character inside a string literal. */
  function EscapeChar(c: char): (r: string)
    ensures |r| >= 1
  {
    if c == '"' then "\\\""
    else if c == '\\' then "\\\\"
    else if c == '\U{0008}' then "\\b"
    else if c == '\U{000C}' then "\\f"
    else if c == '\n' then "\\n"
    else if c == '\r' then "\\r"
    else if c == '\t' then "\\t"
    else if (c as int) < 0x20 then "\\u00" + [HexDigit((c as int) / 16), HexDigit((c as int) % 16)]
    else [c]
  }

  function Escape(s: string): string
  {
    if s == [] then [] else EscapeChar(s[0]) + Escape(s[1..])
  }

  /** A string literal: the escaped text between double quotes. */
  function Quote(s: string): string
  {
    "\"" + Escape(s) + "\""
  }

  /** JSON.stringify with no indentation. */
  function Stringify(v: Json): string
  {
    match v
    case JNull => "null"
    case JBool(b) => if b then "true" else "false"
    case JNum(repr) => repr
    case JStr(s) => Quote(s)
    case JArr(items) => "[" + StringifyItems(items, 0) + "]"
    case JObj(fields) => "{" + StringifyFields(fields, 0) + "}"
  }

  function StringifyItems(items: seq<Json>, from: nat): string
    decreases items, |items| - from
  {
    if from >= |items| then ""
    else if from == |items| - 1 then Stringify(items[from])
    else Stringify(items[from]) + "," + StringifyItems(items, from + 1)
  }

  function StringifyFields(fields: seq<Field>, from: nat): string
    decreases fields, |fields| - from
  {
    if from >= |fields| then ""
    else
      var f := fields[from];
      var member := Quote(f.key) + ":" + Stringify(f.value);
      if from == |fields| - 1 then member else member + "," + StringifyFields(fields, from + 1)
  }

  function HexValue(c: char): Option<nat>
  {
    if '0' <= c <= '9' then Some(c as int - '0' as int)
    else if 'a' <= c <= 'f' then Some(c as int - 'a' as int + 10)
    else if 'A' <= c <= 'F' then Some(c as int - 'A' as int + 10)
    else None
  }

  /** Reads the body of a JSON string literal back (section 7 of RFC 8259):
      the escapes JSON.stringify writes, `\/`, and `\u` with four hex digits. */
  function Unescape(s: string): Option<string>
    decreases |s|
  {
    if s == [] then Some([])
    else if s[0] == '\\' then
      if |s| < 2 then None
      else if s[1] == 'u' then
        if |s| < 6 then None
        else
          var h0, h1, h2, h3 := HexValue(s[2]), HexValue(s[3]), HexValue(s[4]), HexValue(s[5]);
          if h0.None? || h1.None? || h2.None? || h3.None? then None
          else
            var code := ((h0.value * 16 + h1.value) * 16 + h2.value) * 16 + h3.value;
            if 0xD800 <= code < 0xE000 then None
            else Prepend(code as char, Unescape(s[6..]))
      else
        var e := s[1];
        var c :=
          if e == '"' then Some('"')
          else if e == '\\' then Some('\\')
          else if e == '/' then Some('/')
          else if e == 'b' then Some('\U{0008}')
          else if e == 'f' then Some('\U{000C}')
          else if e == 'n' then Some('\n')
          else if e == 'r' then Some('\r')
          else if e == 't' then Some('\t')
          else None;
        if c.None? then None else Prepend(c.value, Unescape(s[2..]))
    else if s[0] == '"' || (s[0] as int) < 0x20 then None
    else Prepend(s[0], Unescape(s[1..]))
  }

  function Prepend(c: char, r: Option<string>): Option<string>
  {
    if r.None? then None else Some([c] + r.value)
  }

  lemma HexRoundTrip(d: nat)
    requires d < 16
    ensures HexValue(HexDigit(d)) == Some(d)
  {
  }

  /** One escaped character reads back as itself. */
  lemma UnescapeChar(c: char, rest: string)
    ensures Unescape(EscapeChar(c) + rest) == Prepend(c, Unescape(rest))
  {
    var e := EscapeChar(c);
    var s := e + rest;
    if c == '"' || c == '\\' || c == '\U{0008}' || c == '\U{000C}' || c == '\n' || c == '\r' || c == '\t' {
      assert s[0] == '\\' && s[1] == e[1];
      assert s[2..] == rest;
    } else if (c as int) < 0x20 {
      var n := c as int;
      HexRoundTrip(n / 16);
      HexRoundTrip(n % 16);
      assert s[0] == '\\' && s[1] == 'u' && s[2] == '0' && s[3] == '0';
      assert s[4] == HexDigit(n / 16) && s[5] == HexDigit(n % 16);
      assert s[6..] == rest;
    } else {
      assert s[0] == c && s[1..] == rest;
    }
  }

  /** JSON.stringify's escaping loses nothing: reading it back gives the text. */
  lemma {:induction false} UnescapeEscape(s: string)
    ensures Unescape(Escape(s)) == Some(s)
  {
    if s != [] {
      UnescapeEscape(s[1..]);
      UnescapeChar(s[0], Escape(s[1..]));
      assert [s[0]] + s[1..] == s;
    }
  }
}
