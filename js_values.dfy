/**
 * JavaScript values as the widget and its proxy see them: parsed JSON documents,
 * `undefined`, truthiness, the `||` operator, `String(v)` and `JSON.stringify`.
 * Numbers are restricted to integers; every JSON document the model handles is built
 * from these constructors.
 */
module JsValues {

  datatype Option<+T> = None | Some(value: T)

  /**
   * A value JSON.parse can produce. An object is held as the list of its fields; lookups
   * read the last field of a name, as JSON.parse keeps it, while rendering follows the list.
   */
  datatype Json =
    | JNull
    | JBool(b: bool)
    | JNum(n: int)
    | JStr(s: string)
    | JArr(items: seq<Json>)
    | JObj(fields: seq<(string, Json)>)

  /** A JavaScript value that may be `undefined` (None). */
  type JsValue = Option<Json>

  predicate HasKey(fields: seq<(string, Json)>, key: string)
  {
    exists i :: 0 <= i < |fields| && fields[i].0 == key
  }

  /** The value of the last field named `key`: JSON.parse keeps the last of duplicate keys. */
  function Lookup(fields: seq<(string, Json)>, key: string): (r: JsValue)
    ensures r.Some? <==> HasKey(fields, key)
    ensures r.Some? ==> (key, r.value) in fields
    ensures r.Some? ==> exists i :: 0 <= i < |fields| && fields[i] == (key, r.value) &&
                                   forall j :: i < j < |fields| ==> fields[j].0 != key
  {
    if |fields| == 0 then None
    else if fields[|fields| - 1].0 == key then Some(fields[|fields| - 1].1)
    else
      var init := fields[..|fields| - 1];
      assert HasKey(fields, key) ==> HasKey(init, key) by {
        if HasKey(fields, key) {
          var i :| 0 <= i < |fields| && fields[i].0 == key;
          assert init[i].0 == key;
        }
      }
      assert forall x :: x in init ==> x in fields;
      var r := Lookup(init, key);
      assert r.Some? ==> exists i :: 0 <= i < |fields| && fields[i] == (key, r.value) &&
                                     forall j :: i < j < |fields| ==> fields[j].0 != key by {
        if r.Some? {
          var i :| 0 <= i < |init| && init[i] == (key, r.value) &&
                   forall j :: i < j < |init| ==> init[j].0 != key;
          assert fields[i] == init[i];
          assert forall j :: i < j < |fields| ==> fields[j].0 != key by {
            forall j | i < j < |fields| ensures fields[j].0 != key {
              if j < |init| { assert fields[j] == init[j]; }
            }
          }
        }
      }
      r
  }

  /** Property read `v.key` on a value that is not null: only objects have the keys used here. */
  function Get(v: Json, key: string): (r: JsValue)
    ensures r.Some? <==> v.JObj? && HasKey(v.fields, key)
  {
    if v.JObj? then Lookup(v.fields, key) else None
  }

  /** Optional chaining `v?.key`: undefined when `v` is null or undefined. */
  function OptGet(v: JsValue, key: string): JsValue
  {
    match v
    case None => None
    case Some(x) => if x == JNull then None else Get(x, key)
  }

  /** JavaScript truthiness; `undefined` is falsy. */
  predicate Truthy(v: JsValue)
  {
    match v
    case None => false
    case Some(x) =>
      match x
      case JNull => false
      case JBool(b) => b
      case JNum(n) => n != 0
      case JStr(s) => s != ""
      case JArr(_) => true
      case JObj(_) => true
  }

  /** The `a || b` operator: the first operand when it is truthy, else the second. */
  function Or(a: JsValue, b: JsValue): JsValue
  {
    if Truthy(a) then a else b
  }

  /** `s.startsWith(prefix)` */
  predicate StartsWith(s: string, prefix: string)
  {
    |prefix| <= |s| && s[..|prefix|] == prefix
  }

  predicate OccursAt(s: string, sub: string, i: int)
  {
    0 <= i && i + |sub| <= |s| && s[i..i + |sub|] == sub
  }

  /** `s.includes(sub)` */
  predicate Contains(s: string, sub: string)
  {
    exists i :: 0 <= i <= |s| - |sub| && OccursAt(s, sub, i)
  }

  function DigitChar(d: nat): char
    requires d < 10
  {
    "0123456789"[d]
  }

  function NatToString(n: nat): (r: string)
    ensures |r| > 0
    ensures forall i :: 0 <= i < |r| ==> '0' <= r[i] <= '9'
  {
    if n < 10 then [DigitChar(n)] else NatToString(n / 10) + [DigitChar(n % 10)]
  }

  /** Decimal rendering of an integer, as `String(n)` gives it. */
  function IntToString(n: int): (r: string)
    ensures |r| > 0
    ensures r[0] == '-' <==> n < 0
    ensures forall i :: 1 <= i < |r| ==> '0' <= r[i] <= '9'
  {
    if n < 0 then "-" + NatToString(-n) else NatToString(n)
  }

  function HexDigit(d: nat): char
    requires d < 16
  {
    "0123456789abcdef"[d]
  }

  /** How JSON.stringify writes one character inside a string literal. */
  function EscapeChar(c: char): (r: string)
    ensures |r| > 0
  {
    if c == '"' then "\\\""
    else if c == '\\' then "\\\\"
    else if c as int == 8 then "\\b"
    else if c as int == 12 then "\\f"
    else if c == '\n' then "\\n"
    else if c == '\r' then "\\r"
    else if c == '\t' then "\\t"
    else if (c as int) < 0x20 then "\\u00" + [HexDigit(c as int / 16), HexDigit(c as int % 16)]
    else [c]
  }

  function EscapeString(s: string): string
  {
    if |s| == 0 then "" else EscapeChar(s[0]) + EscapeString(s[1..])
  }

  function JoinWith(parts: seq<string>, sep: string): string
  {
    if |parts| == 0 then ""
    else if |parts| == 1 then parts[0]
    else parts[0] + sep + JoinWith(parts[1..], sep)
  }

  /** JSON.stringify of a defined value: never the empty string. */
  function Stringify(v: Json): (r: string)
    ensures |r| > 0
  {
    match v
    case JNull => "null"
    case JBool(b) => if b then "true" else "false"
    case JNum(n) => IntToString(n)
    case JStr(s) => "\"" + EscapeString(s) + "\""
    case JArr(items) =>
      "[" + JoinWith(seq(|items|, i requires 0 <= i < |items| => Stringify(items[i])), ",") + "]"
    case JObj(fields) =>
      "{" + JoinWith(seq(|fields|, i requires 0 <= i < |fields| =>
                           "\"" + EscapeString(fields[i].0) + "\":" + Stringify(fields[i].1)), ",") + "}"
  }

  /** `String(v)`: arrays join their elements with "," and show null as the empty string. */
  function ToJsString(v: Json): string
  {
    match v
    case JNull => "null"
    case JBool(b) => if b then "true" else "false"
    case JNum(n) => IntToString(n)
    case JStr(s) => s
    case JArr(items) =>
      JoinWith(seq(|items|, i requires 0 <= i < |items| =>
                      if items[i] == JNull then "" else ToJsString(items[i])), ",")
    case JObj(_) => "[object Object]"
  }
}
