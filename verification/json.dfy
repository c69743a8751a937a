/** Already-parsed JSON values, with the two JavaScript coercions the
    manifest generator relies on: truthiness (`if (x)`, `x || d`, `x ? a : b`)
    and string conversion (`String(x)`, applied implicitly by `RegExp.test`).
    Numbers are modelled as integers. */
module Json {
  import opened Wrappers

  datatype Json =
    | JNull
    | JBool(b: bool)
    | JNum(n: int)
    | JStr(s: string)
    | JArr(items: seq<Json>)
    | JObj(fields: map<string, Json>)

  /** JavaScript truthiness of a defined value: null, false, 0 and "" are falsy. */
  predicate Truthy(v: Json) {
    match v
    case JNull => false
    case JBool(b) => b
    case JNum(n) => n != 0
    case JStr(s) => s != ""
    case JArr(_) => true
    case JObj(_) => true
  }

  /** Truthiness of a property read; a missing property reads as `undefined`, which is falsy. */
  predicate TruthyRead(v: Option<Json>) {
    v.Some? && Truthy(v.value)
  }

  /** `v.key` for a value that is not null: only objects carry the JSON-visible properties. */
  function Property(v: Json, key: string): Option<Json> {
    if v.JObj? && key in v.fields then Some(v.fields[key]) else None
  }

  predicate IsDigit(c: char) {
    '0' <= c <= '9'
  }

  function DigitChar(d: nat): (c: char)
    requires d < 10
    ensures IsDigit(c)
  {
    "0123456789"[d]
  }

  /** Decimal digits of a natural number, most significant first, no leading zeros. */
  function Decimal(n: nat): (s: string)
    ensures |s| > 0
    ensures forall i :: 0 <= i < |s| ==> IsDigit(s[i])
  {
    if n < 10 then [DigitChar(n)] else Decimal(n / 10) + [DigitChar(n % 10)]
  }

  /** `String(n)` for an integer below 10^21 in magnitude; from 10^21 on,
      JavaScript switches to exponent form (`1e+21`), which is not modelled. */
  function NumberToString(n: int): (s: string)
    ensures forall i :: 0 <= i < |s| ==> IsDigit(s[i]) || s[i] == '-'
  {
    if n < 0 then "-" + Decimal(-n) else Decimal(n)
  }

  /** `Array.prototype.join(",")` over already-converted elements. */
  function JoinComma(parts: seq<string>): (s: string)
    ensures |parts| >= 2 ==> ',' in s
    ensures |parts| == 1 ==> s == parts[0]
    ensures |parts| == 0 ==> s == ""
  {
    if |parts| == 0 then ""
    else if |parts| == 1 then parts[0]
    else parts[0] + "," + JoinComma(parts[1..])
  }

  /** Whether `String(v)` returns at all. A parsed object with its own `toString`
      key has a non-callable `toString` and a `valueOf` that does not give a
      primitive, so the conversion throws a TypeError; arrays convert their
      elements, so such an object anywhere inside an array makes it throw too. */
  predicate Convertible(v: Json) {
    match v
    case JObj(m) => "toString" !in m
    case JArr(xs) => forall i :: 0 <= i < |xs| ==> Convertible(xs[i])
    case _ => true
  }

  /** `String(v)`: arrays join their elements with commas, rendering null elements as
      the empty string; every plain object renders as "[object Object]". The value
      is meaningful only where `Convertible(v)` holds. */
  function ToJsString(v: Json): string
  {
    match v
    case JNull => "null"
    case JBool(b) => if b then "true" else "false"
    case JNum(n) => NumberToString(n)
    case JStr(s) => s
    case JArr(xs) =>
      JoinComma(seq(|xs|, i requires 0 <= i < |xs| => if xs[i].JNull? then "" else ToJsString(xs[i])))
    case JObj(_) => "[object Object]"
  }
}
